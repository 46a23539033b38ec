# epic-logging aggregator and logger factories, in Dafny

This project models the core of `epic.logging` and proves properties of it.
The core has two parts.

- **The cross-process log aggregator (`Logregator`).** While a session is
  started, an intercept handler (`LogregatorHandler`) sits on the root
  logger. It tags every record with the id of the process that emitted it
  and puts it on a channel. Worker processes created through the spawn-aware
  process class (`LogregatorProcess`) re-install the same handlers, so their
  records reach the same channel. A consumer drains the channel: it drops
  records the sink logger is not enabled for, and records the sink itself
  emitted locally. It rewrites every other message to `[<sink>] - <msg>` or
  `[<sink> PID <pid>] - <msg>`, marks the record as handled so that no
  intercept handler picks it up again, and forwards it to the sink.
  `Logtor` is a session whose sink is a preconfigured console and/or file
  logger.
- **The logger factories in `logger.py`.** These are the automatic naming
  rule of `get_logger`, its handler-list policy, `ClassLogger` naming, and
  the preconfigured console and file loggers.

Modules:

- `Wrappers`: Option, Result, Outcome.
- `Records`: log records, levels, the handled-marker.
- `Channels`: the handoff channel, a FIFO with a closed flag.
- `Interception`: the intercept handler and the root logger's handler list
  and level.
- `Spawning`: the spawn-aware process class.
- `Consumer`: the consumer loop and its specification `Consumed`.
- `Sessions`: the session life cycle and the contexts' `Process`
  attributes.
- `Loggers`: `logger.py`.
- `Logtors`: `Logtor`.

State that the source changes in place is modelled as classes:

- the root logger's handlers and level;
- the channel;
- a handler's saved root level;
- the session's fields;
- the registry of `Process` attributes;
- a logger's level and handlers;
- a handler's level and formatter.

Log records are values. Where `emit` edits a record in place, the model
returns the edited record.

The root logger appears twice: as `Interception.RootLogger` on the
aggregator side and as `Loggers.Manager.root` on the factory side. Both
stand for the same process-wide `logging.root`. Each side models only the
parts of it that it touches: the handler list and level for install and
uninstall, and the name, level and handlers for the factories.

`start` catches a failure to start the consumer thread
(epic/logging/logregator.py:171-176). The except branch exists so that a
failed start leaves the session not started. It resets only the thread
field, though. The handler stays installed on the root logger, and every
context's `Process` stays substituted. A later successful start then saves
the substituted class as the context's "original", so stopping it does not
bring the original class back. `Sessions.Logregator.Start` models the code
as written, and `Sessions.FailedStartScenario` proves both effects.
`Sessions.Logregator.StartRollingBack` is the corrected start; see
"## Findings".

## Model

| member | source | states |
|---|---|---|
| Records.MarkAsHandled | epic/logging/logregator.py:74-80 | after marking, the record reports itself handled; every other attribute is unchanged |
| Channels.Channel.constructor | epic/logging/logregator.py:163 | a new channel is open and empty |
| Channels.Channel.Put | epic/logging/logregator.py:53-57 | a put succeeds iff the channel is open; a successful put appends the item at the end; a refused put (the suppressed `queue.Full`) changes nothing |
| Channels.Channel.NoMoreInput | epic/logging/logregator.py:180-183 | closing keeps every item already put and leaves the channel closed; closing again is harmless |
| Interception.RemoveFirst | epic/logging/logregator.py:71 | removing a handler that is absent leaves the list alone; removing one that is present shortens the list by one |
| Interception.RemoveFirstMultiset | epic/logging/logregator.py:71 | removal takes away exactly one copy of the handler and keeps every other entry |
| Interception.RemoveFirstAfterAppend | epic/logging/logregator.py:59-72 | removing a handler that install appended, and that was not there before, gives back the earlier list followed by whatever was appended after it |
| Interception.Prepared | epic/logging/logregator.py:50-52 | a structured exception is rendered to `exc_text` and `exc_info` is cleared; a record without one is untouched; no other attribute changes |
| Interception.LogregatorHandler.constructor | epic/logging/logregator.py:39-42 | the handler has the given level and channel, and no saved root level |
| Interception.LogregatorHandler.Emit | epic/logging/logregator.py:44-57 | a handled record, or one below the handler's level, enqueues nothing and is not changed; otherwise the prepared record tagged with the pid is appended, unless the channel is closed, in which case it is dropped silently |
| Interception.LogregatorHandler.Install | epic/logging/logregator.py:59-65 | afterwards the handler is attached; if it was already attached nothing changes; otherwise the root level is saved, the root level becomes NOTSET + 1, and the handler is appended once |
| Interception.LogregatorHandler.Uninstall | epic/logging/logregator.py:67-72 | RuntimeError with the source's message iff the handler is attached but no level was saved (nothing changes then); not attached means nothing changes; otherwise the handler is removed and the saved level is restored |
| Interception.InstallThenUninstall | epic/logging/logregator.py:59-72 | install then uninstall, of a handler not yet attached, succeeds and restores both the root handler list and the root level |
| Interception.HandledNeverAccepted | epic/logging/logregator.py:44-47 | a record carrying the handled-marker passes no handler's gate, whatever its level |
| Spawning.Snapshot | epic/logging/logregator.py:91-93 | the (level, channel) pairs of the intercept handlers on the root, never more entries than handlers |
| Spawning.SnapshotAppend | epic/logging/logregator.py:91-93 | the snapshot keeps root-list order: the snapshot of a concatenation is the concatenation of the snapshots |
| Spawning.SnapshotWithoutInterceptors | epic/logging/logregator.py:91-93 | a root with no intercept handler gives an empty snapshot |
| Spawning.SnapshotOfEntries | epic/logging/logregator.py:96 | handlers re-created from a snapshot have exactly that snapshot |
| Spawning.CreateHandlers | epic/logging/logregator.py:96 | one fresh, distinct handler per snapshot entry, with that entry's level and channel and no saved level |
| Spawning.InstallAll | epic/logging/logregator.py:97-98 | the handlers are appended in order; the first saves the original root level and the others save NOTSET + 1; the root level ends at NOTSET + 1 if any handler was installed |
| Spawning.UninstallAll | epic/logging/logregator.py:102-103 | uninstalling in install order removes every handler, and leaves the level that the last handler saved |
| Spawning.UninstallAllReversed | epic/logging/logregator.py:102-103 | uninstalling in reverse order removes every handler, and leaves the level that the first handler saved |
| Spawning.LogregatorProcess.constructor | epic/logging/logregator.py:88-93 | the process carries the snapshot of the root handlers at creation |
| Spawning.LogregatorProcess.Run | epic/logging/logregator.py:95-103 | the target's outcome (return or raise) is passed through; while it runs, the root list is the old list plus one fresh intercept handler per snapshot entry, so its snapshot is the old one plus the carried one; afterwards the handler list is restored, but the level is restored only when at most one handler was carried, and is otherwise NOTSET + 1 |
| Spawning.LogregatorProcess.RunReversed | epic/logging/logregator.py:95-103 | the same, with uninstalls in reverse order: handler list and level are both restored |
| Spawning.TwoHandlerWorker | epic/logging/logregator.py:95-103 | a worker with two carried handlers and root level WARNING ends at NOTSET + 1 as written, and at WARNING with reversed uninstalls |
| Consumer.NatToString | epic/logging/logregator.py:150 | a pid renders as a non-empty string of decimal digits, exactly one digit below 10, with a leading zero only for 0 |
| Consumer.ParseNatToString | epic/logging/logregator.py:150 | reading the rendered pid back gives the pid |
| Consumer.NatToStringInjective | epic/logging/logregator.py:150 | different pids render differently |
| Consumer.AttributionIdentifiesOrigin | epic/logging/logregator.py:148-150 | two records with the same attribution come from the same process |
| Consumer.Rewritten | epic/logging/logregator.py:148-158 | a forwarded record has the message `[<attribution>] - <msg>`, carries the handled-marker, and is otherwise unchanged |
| Consumer.Consumed | epic/logging/logregator.py:139-159 | at most one output per channel item; every output carries the handled-marker and a level the sink is enabled for |
| Consumer.ConsumedAppend | epic/logging/logregator.py:141 | the output for consecutive stretches of the channel is the concatenation of their outputs, so arrival order is kept |
| Consumer.ConsumeLogs | epic/logging/logregator.py:139-159 | the loop hands the sink exactly `Consumed` of the channel's items |
| Consumer.ConsumedRemote | epic/logging/logregator.py:145-158 | remote records the sink is enabled for all arrive, one each, in order; each is the rewritten record (name, level and exception text unchanged) with the message `[<sink> PID <pid>] - <msg>` |
| Consumer.ConsumedLocalAll | epic/logging/logregator.py:145-158 | local records from other loggers, that the sink is enabled for, all arrive, one each, in order; each is the rewritten record (name, level and exception text unchanged) with the message `[<sink>] - <msg>` |
| Consumer.ConsumedDropsSelfEcho | epic/logging/logregator.py:151-154 | local records from the sink's own logger are all dropped |
| Consumer.ConsumedDropsBelowLevel | epic/logging/logregator.py:145-146 | records below the sink's effective level are all dropped |
| Consumer.ConsumedLocal | epic/logging/tests/test_logger.py:152-160 | one local record from another logger arrives once as `[<sink>] - <msg>` |
| Consumer.LocalThenRemote | epic/logging/tests/test_logger.py:162-175 | a local record and then a remote one both arrive, in order, attributed `[<sink>]` and `[<sink> PID <p>]` |
| Consumer.HelloScenario | epic/logging/tests/test_logger.py:162-175 | with sink "S" and worker 4242 the outputs are exactly `[S] - hello` and `[S PID 4242] - hello` |
| Consumer.RenderedPid4242 | epic/logging/logregator.py:150 | pid 4242 renders as "4242" inside the attribution |
| Sessions.SubstituteProcesses | epic/logging/logregator.py:167-169 | every context of the session has its `Process` saved and replaced by the spawn-aware class; other contexts are untouched |
| Sessions.RestoreProcesses | epic/logging/logregator.py:189-190 | every context of the session gets its saved `Process` back; other contexts are untouched |
| Sessions.Logregator.constructor | epic/logging/logregator.py:122-133 | a new session is not started; it covers the spawn context, plus the multiprocessing module and its context module when the default start method is spawn, each with nothing saved |
| Sessions.Logregator.Started | epic/logging/logregator.py:135-137 | a started session has a channel and a handler bound to it |
| Sessions.Logregator.Start | epic/logging/logregator.py:161-176 | no-op when started; otherwise a fresh open channel, a fresh handler at the sink's level installed on the root, every context substituted with its old class saved, and started iff the thread starts |
| Sessions.Logregator.Stop | epic/logging/logregator.py:178-190 | no-op when not started; otherwise the channel is closed, the sink gets `Consumed` of everything put before, the handler is uninstalled and its saved root level restored, the fields are cleared, the saved `Process` classes are put back, and the session is not started |
| Sessions.Logregator.StartRollingBack | epic/logging/logregator.py:161-176 | the corrected start: as `start` when the thread starts; when it does not, the session is not started and the root handler list, the root level and every context's `Process` are as they were |
| Sessions.Logregator.RollBack | epic/logging/logregator.py:175-176 | undoing a start whose thread failed removes the just-appended handler, restores the root level it saved, clears the fields and puts back every saved `Process` |
| Sessions.Logregator.Enter | epic/logging/logregator.py:192-194 | entering yields the session, with exactly the new state `start` gives: no-op when started, otherwise a fresh channel, the handler installed, the contexts substituted, and started iff the thread starts |
| Sessions.Logregator.Exit | epic/logging/logregator.py:196-197 | leaving has exactly the effect of `stop`: no-op when not started, otherwise the channel's records are delivered, the handler is uninstalled with the root level restored, the fields are cleared and the saved `Process` classes are put back |
| Sessions.OneRecordSession | epic/logging/logregator.py:161-190 | a session around one emission delivers what the consumer makes of the one enqueued record, and the root logger and the spawn context end as they began |
| Sessions.LocalScenario | epic/logging/tests/test_logger.py:152-160 | the sink receives exactly `[test_local] - local test` and the root and the contexts are restored |
| Sessions.FilteredScenario | epic/logging/tests/test_logger.py:220-227 | a DEBUG record under an INFO sink, and the sink's own local record, are not delivered |
| Sessions.InnerSession | epic/logging/tests/test_logger.py:177-190 | inside an enclosing session, an inner session delivers only its record (its exception rendered to text), the enclosing channel receives that record once, and the inner sink's re-dispatch is not enqueued again |
| Sessions.NestedSessions | epic/logging/tests/test_logger.py:177-190 | in nested sessions the inner sink receives only the middle record and the outer sink receives all three, each once, with exceptions rendered to text |
| Sessions.NestedScenario | epic/logging/tests/test_logger.py:177-190 | the inner sink receives `[in] - m1` alone; the outer receives `[out] - m0`, `[out] - m1`, `[out] - m2` |
| Sessions.FailedStartScenario | epic/logging/logregator.py:171-176 | after a failed thread start the session is not started but its handler is still on the root; after a retry and a stop the spawn context names the spawn-aware class |
| Sessions.FailedStartRolledBackScenario | epic/logging/logregator.py:171-176 | with the corrected start, a failed start leaves no handler on the root, and after a retry and a stop the spawn context names its original class |
| Loggers.CallerName | epic/logging/logger.py:33-43 | the automatic name is `m.f` when both the module m and the function f are present (module level has no function), `m` when only the module is, `f` when only the function is, and `<default>` otherwise |
| Loggers.CallerNameInFunction | epic/logging/tests/test_logger.py:36-37 | called inside function f of module m, the name is `m.f` |
| Loggers.CallerNameAtModuleLevel | epic/logging/tests/test_logger.py:22-25 | called at module level of module m, the name is `m` |
| Loggers.ResolvedName | epic/logging/logger.py:44 | the empty name and "root" give the root logger; any other name is kept |
| Loggers.ClassLoggerName | epic/logging/logger.py:78-80 | without a parent, a class c of module m gets the logger `m.c`, or `c` when the module name gives the root |
| Loggers.ChildOfNamedParentScenario | epic/logging/tests/test_logger.py:63-70 | a class logger with parent `parent_logger` in class `TestClassLogger` is named `parent_logger.TestClassLogger` |
| Loggers.Dedup | epic/logging/logger.py:45-48 | the handler list built by repeated `addHandler` holds exactly the given handlers, none twice |
| Loggers.DedupOfDistinct | epic/logging/tests/test_logger.py:51-57 | distinct handlers are attached exactly, in the given order |
| Loggers.Manager.GetLogger | epic/logging/logger.py:44 | `logging.getLogger`: the root exactly for "" and "root"; otherwise the registered logger of that name, or a new one registered now with no handlers and level NOTSET |
| Loggers.Manager.Lookup | epic/logging/logger.py:80 | the manager's own lookup used by `getChild`: the registered logger of that name or a new one registered now with no handlers and level NOTSET; never the root, even for the name "root" |
| Loggers.GetLogger | epic/logging/logger.py:33-52 | the logger has the resolved requested name and the requested level; given handlers replace its list exactly (once each); with none given, a logger that reaches no handler gets one new NullHandler and any other keeps its list; every name registered before maps to the same logger, and other loggers are unchanged |
| Loggers.ReplaceHandlers | epic/logging/logger.py:45-48 | the old handlers are dropped and the given ones attached, once each, in order |
| Loggers.ClassLogger.constructor | epic/logging/logger.py:75-76 | the class logger remembers the given parent |
| Loggers.ClassLogger.Get | epic/logging/logger.py:78-80 | the registered child, named by the class, of the given parent or else of the module's logger (a child of the root is named by the class alone), looked up without the root special case so it is never the root itself; a new child has level NOTSET and no handlers; without a parent, the module logger is reset to NOTSET and keeps its handlers, or gets exactly one new NullHandler when it reaches none; every name registered before maps to the same logger, and every other existing logger is unchanged |
| Loggers.RootChildNamedRoot | epic/logging/logger.py:80 | a class named `root` under the root parent gets a new logger called "root" that is not the root: level NOTSET, no handlers, and the root keeps its level |
| Loggers.GetPreconfiguredLogger | epic/logging/logger.py:83-88 | every given handler has the logger's level and the standard formatter; the registered logger has exactly these handlers and that level (with none, the `get_logger` NullHandler rule); every name registered before maps to the same logger, and every other existing logger is unchanged |
| Loggers.GetConsoleLogger | epic/logging/logger.py:91-107 | exactly one new handler, a stream handler, at the logger's level; every name registered before maps to the same logger, and every other existing logger is unchanged |
| Loggers.GetFileLogger | epic/logging/logger.py:110-132 | exactly one new handler, a file handler on the given file and mode, at the logger's level; every name registered before maps to the same logger, and every other existing logger is unchanged |
| Loggers.GetFileAndConsoleLogger | epic/logging/logger.py:135-160 | exactly two new handlers, the file handler and then the stream handler, at the logger's level; every name registered before maps to the same logger, and every other existing logger is unchanged |
| Logtors.ChooseDestination | epic/logging/logregator.py:225-235 | each outcome holds iff its condition does: ValueError (with the source's message) iff no file and console refused; console only iff no file and console not refused; file and console iff a file and console asked for; file only iff a file and console not asked for |
| Logtors.DestinationKinds | epic/logging/logregator.py:230-235 | a file handler is present iff a file is used, a stream handler iff the console is used, and every handler is a stream handler |
| Logtors.NewLogtor | epic/logging/logregator.py:223-235 | fails iff the destination choice fails, touching no logger; otherwise the registered logger has the requested name and level and the destination's handlers, a new not-started session forwards into it, and every other existing logger is unchanged; either way every name registered before maps to the same logger |
| Logtors.WithFilenameWritesFile | epic/logging/tests/test_logger.py:238-244 | with a file name, whatever the console flag, the logger has a file handler on that file |
| Logtors.WithoutFilenameWritesConsole | epic/logging/tests/test_logger.py:246-250 | without a file name, console refused is a ValueError, and otherwise the logger is console only |
| Logtors.DefaultLogtor | epic/logging/tests/test_logger.py:249 | `Logtor()` with every default gives the console-only logger `LOGTOR` at INFO behind a session that is not started |

## Left out

- Threads: the consumer thread is only a marker, `ConsumerThread`; its daemon flag is recorded but has no effect, and running the thread and `join` are not modelled. `Stop` runs the consumer as one sequential pass over the closed channel. No interleaving of producers is modelled.
- Transport: `IterableQueue` and multiprocessing transport are not modelled. The channel is a sequence with a closed flag. Pickling `LogregatorProcess` across the spawn socket is not modelled either; the process object carries its snapshot directly.
- Process ids: `os.getpid()` is a parameter (`myPid`, `pid`).
- Exception rendering: `traceback.format_exception` is not modelled. An exception is given by the lines it formats to.
- The target of a worker: it is reduced to its outcome, `Returned` or `Raised`. It is taken not to change the root logger.
- Logger dispatch: `Logger.handle` is not modelled. The sink's own handlers, formatters and output are not modelled either; the consumer's result is the sequence of records handed to the sink.
- Handler I/O: stream and file output, and text encoding, are I/O only.
- Other `logging` internals: filters, locks, propagation flags, `manager.disable` and the `isEnabledFor` cache are not modelled.
- Levels: levels are integers only. The string level names that `LogLevel` allows are not modelled.
- Messages: messages are strings. A non-string message (the test passes `123`) and message arguments are not modelled.
- Consumer.Sink: the sink's effective level is a fixed number for the whole session. The sink's level does not change while a session runs.
- Logtors.NewLogtor: the sink's effective level is taken to be the requested level. For NOTSET, logging would use the nearest ancestor's level instead.
- Loggers.GetLogger: the `hasHandlers` walk up the logger hierarchy is the parameter `ancestorsHaveHandlers`.
- Loggers.CallerName: the frame inspection that finds the caller's module and function is replaced by those two values as parameters.
- Sessions.Logregator.Start: whether the consumer thread starts is the parameter `threadStarts`.
- Loggers.Handler: only the handler's kind, level and formatter are modelled.
- `epic/logging/__init__.py` only re-exports the core and makes a default `ClassLogger()`. It is not part of this model.

## Findings

| source | as written | input that shows it | evidently intended | confidence | as-written member | corrected member |
|---|---|---|---|---|---|---|
| epic/logging/logregator.py:102-103 | `run` uninstalls the re-created handlers in the order they were installed, and each one restores the root level it saved | a worker whose root level is WARNING and that carries two handlers (spawned inside two nested sessions) ends with root level NOTSET + 1 | uninstalling in reverse order, so the worker's root level is restored to WARNING | not executed; medium (the worker usually exits right after `run`) | Spawning.LogregatorProcess.Run | Spawning.LogregatorProcess.RunReversed |
| epic/logging/logregator.py:171-176 | when the consumer thread fails to start, only the thread field is reset; the installed handler and the substituted `Process` classes stay | a start whose thread fails on a fresh session, then a successful start and a stop: the handler stays on the root after the failure, and the spawn context ends naming `LogregatorProcess` instead of its original class | a failed start also uninstalls the handler and restores every context, so the session is not started and the process is as before | not executed; medium (thread start failures are rare) | Sessions.FailedStartScenario | Sessions.Logregator.StartRollingBack |
