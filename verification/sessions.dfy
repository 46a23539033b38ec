/** The aggregator session (`Logregator`): owns a channel, an intercept
    handler and a consumer for one sink logger, substitutes the spawn-aware
    process class while started, and restores everything on stop. */
module Sessions {
  import opened Wrappers
  import opened Records
  import opened Channels
  import opened Interception
  import opened Consumer

  /** The places whose `Process` attribute a session substitutes: the spawn
      context always, the multiprocessing module and its context module only
      when the default start method is spawn. */
  datatype Ctx = SpawnContext | MultiprocessingModule | ContextModule

  const ALL_CONTEXTS: set<Ctx> := {SpawnContext, MultiprocessingModule, ContextModule}

  /** The class a context's `Process` attribute names. */
  datatype ProcessClass = OriginalProcess(id: nat) | LogregatorProcessClass

  /** The process-wide `Process` attributes of every context. */
  class ProcessRegistry {
    var process: map<Ctx, ProcessClass>

    ghost predicate Valid()
      reads this
    {
      process.Keys == ALL_CONTEXTS
    }

    constructor (process: map<Ctx, ProcessClass>)
      requires process.Keys == ALL_CONTEXTS
      ensures Valid() && this.process == process
    {
      this.process := process;
    }
  }

  /** Saves the `Process` of every context in `contexts` and replaces it by
      the spawn-aware class; other contexts are untouched. */
  method SubstituteProcesses(registry: ProcessRegistry, contexts: set<Ctx>) returns (saved: map<Ctx, Option<ProcessClass>>)
    requires registry.Valid() && contexts <= ALL_CONTEXTS
    modifies registry
    ensures registry.Valid()
    ensures saved.Keys == contexts
    ensures forall c :: c in contexts ==> saved[c] == Some(old(registry.process[c]))
    ensures forall c :: c in registry.process ==>
      registry.process[c] == if c in contexts then LogregatorProcessClass else old(registry.process[c])
  {
    saved := map[];
    var pending := contexts;
    while pending != {}
      invariant pending <= contexts
      invariant saved.Keys == contexts - pending && registry.process.Keys == ALL_CONTEXTS
      invariant forall c :: c in saved ==>
        saved[c] == Some(old(registry.process[c])) && registry.process[c] == LogregatorProcessClass
      invariant forall c :: c in registry.process && c !in saved ==>
        registry.process[c] == old(registry.process[c])
      decreases pending
    {
      var c :| c in pending;
      saved := saved[c := Some(registry.process[c])];
      registry.process := registry.process[c := LogregatorProcessClass];
      pending := pending - {c};
    }
  }

  /** Puts back the saved `Process` of every context in `contexts`. */
  method RestoreProcesses(registry: ProcessRegistry, contexts: set<Ctx>, saved: map<Ctx, Option<ProcessClass>>)
    requires registry.Valid() && contexts <= ALL_CONTEXTS
    requires forall c :: c in contexts ==> c in saved && saved[c].Some?
    modifies registry
    ensures registry.Valid()
    ensures forall c :: c in registry.process ==>
      registry.process[c] == if c in contexts then saved[c].value else old(registry.process[c])
  {
    var pending := contexts;
    while pending != {}
      invariant pending <= contexts
      invariant registry.process.Keys == ALL_CONTEXTS
      invariant forall c :: c in contexts && c !in pending ==> registry.process[c] == saved[c].value
      invariant forall c :: c in registry.process && (c !in contexts || c in pending) ==>
        registry.process[c] == old(registry.process[c])
      decreases pending
    {
      var c :| c in pending;
      registry.process := registry.process[c := saved[c].value];
      pending := pending - {c};
    }
  }

  /** The consumer thread's handle. */
  datatype ConsumerThread = ConsumerThread(daemon: bool)

  class Logregator {
    const sink: Sink
    const myPid: nat
    const contexts: set<Ctx>
    /** `Process` of each context as it was at the last start. */
    var oldProcess: map<Ctx, Option<ProcessClass>>
    var inputQueue: Channel?
    var handler: LogregatorHandler?
    var consumerThread: Option<ConsumerThread>

    /** A started session has its channel and its installed handler, bound to
        each other at the sink's level, and has saved every context. */
    ghost predicate Valid()
      reads this, handler
    {
      contexts <= ALL_CONTEXTS && SpawnContext in contexts &&
      oldProcess.Keys == contexts &&
      (consumerThread.Some? ==>
        inputQueue != null && handler != null &&
        handler.outputQueue == inputQueue &&
        handler.level == sink.effectiveLevel &&
        handler.oldRootLevel.Some? &&
        forall c :: c in contexts ==> oldProcess[c].Some?)
    }

    /** `started`: the consumer thread exists. */
    function Started(): (b: bool)
      reads this, handler
      requires Valid()
      ensures b ==> inputQueue != null && handler != null && handler.outputQueue == inputQueue
    {
      consumerThread.Some?
    }

    constructor (sink: Sink, myPid: nat, startMethodIsSpawn: bool)
      ensures Valid() && !Started()
      ensures this.sink == sink && this.myPid == myPid
      ensures contexts == if startMethodIsSpawn then ALL_CONTEXTS else {SpawnContext}
      ensures oldProcess == map c | c in contexts :: None
      ensures inputQueue == null && handler == null
    {
      this.sink := sink;
      this.myPid := myPid;
      var cs := if startMethodIsSpawn then ALL_CONTEXTS else {SpawnContext};
      contexts := cs;
      oldProcess := map c | c in cs :: None;
      inputQueue := null;
      handler := null;
      consumerThread := None;
    }

    /** Starts the session unless it is started. A new channel and a handler
        at the sink's effective level are created and the handler installed;
        every context's `Process` is saved and replaced by the spawn-aware
        class; then the consumer thread is started. `threadStarts` says
        whether starting the thread succeeds; when it does not, the session
        is not started (but the handler stays installed and the contexts
        stay substituted, as in the source). */
    method Start(root: RootLogger, registry: ProcessRegistry, threadStarts: bool)
      requires Valid() && registry.Valid()
      modifies this, root, registry
      ensures Valid() && registry.Valid()
      ensures old(Started()) ==> unchanged(this) && unchanged(root) && unchanged(registry)
      ensures !old(Started()) ==>
        inputQueue != null && fresh(inputQueue) && inputQueue.items == [] && !inputQueue.closed &&
        handler != null && fresh(handler) &&
        handler.level == sink.effectiveLevel && handler.outputQueue == inputQueue &&
        handler.oldRootLevel == Some(old(root.level)) &&
        root.handlers == old(root.handlers) + [Interceptor(handler)] &&
        root.level == NOTSET + 1 &&
        (forall c :: c in contexts ==> oldProcess[c] == Some(old(registry.process[c]))) &&
        (forall c :: c in registry.process ==>
          registry.process[c] == if c in contexts then LogregatorProcessClass else old(registry.process[c])) &&
        (Started() <==> threadStarts)
    {
      if consumerThread.Some? {
        return;
      }
      var q := new Channel();
      inputQueue := q;
      var h := new LogregatorHandler(sink.effectiveLevel, q);
      handler := h;
      h.Install(root);
      oldProcess := SubstituteProcesses(registry, contexts);
      if threadStarts {
        consumerThread := Some(ConsumerThread(daemon := true));
      } else {
        consumerThread := None;
      }
    }

    /** Stops a started session: closes the channel, waits for the consumer
        to drain it (the sink receives `forwarded`), uninstalls the handler,
        drops the session's channel, handler and thread, and puts back every
        context's saved `Process`. A session that is not started is left
        alone. */
    method Stop(root: RootLogger, registry: ProcessRegistry) returns (forwarded: seq<LogRecord>)
      requires Valid() && registry.Valid()
      modifies this, root, registry, inputQueue
      ensures Valid() && registry.Valid() && !Started()
      ensures !old(Started()) ==>
        forwarded == [] && unchanged(this) && unchanged(root) && unchanged(registry)
      ensures old(Started()) ==>
        forwarded == Consumed(sink, myPid, old(inputQueue.items)) &&
        old(inputQueue).closed && old(inputQueue).items == old(inputQueue.items) &&
        inputQueue == null && handler == null && oldProcess == old(oldProcess) &&
        root.handlers == RemoveFirst(old(root.handlers), Interceptor(old(handler))) &&
        root.level == (if Interceptor(old(handler)) in old(root.handlers)
                       then old(handler.oldRootLevel).value else old(root.level)) &&
        (forall c :: c in registry.process ==>
          registry.process[c] == if c in contexts then old(oldProcess[c]).value else old(registry.process[c]))
    {
      if consumerThread.None? {
        return [];
      }
      var q, h := inputQueue, handler;
      q.NoMoreInput();
      // joining the consumer thread: it drains the closed channel
      forwarded := ConsumeLogs(sink, myPid, q.items);
      consumerThread := None;
      var outcome := h.Uninstall(root);
      assert outcome.Pass?;
      handler := null;
      inputQueue := null;
      RestoreProcesses(registry, contexts, oldProcess);
    }

    /** `start` with the clean-up its exception handler stands for: when the
        consumer thread cannot be started, the handler is uninstalled and
        every context gets its `Process` back, so a failed start leaves the
        root logger and the contexts exactly as they were. */
    method StartRollingBack(root: RootLogger, registry: ProcessRegistry, threadStarts: bool)
      requires Valid() && registry.Valid()
      modifies this, root, registry
      ensures Valid() && registry.Valid()
      ensures Started() <==> old(Started()) || threadStarts
      ensures old(Started()) ==> unchanged(this) && unchanged(root) && unchanged(registry)
      ensures !old(Started()) && threadStarts ==>
        inputQueue != null && fresh(inputQueue) && inputQueue.items == [] && !inputQueue.closed &&
        handler != null && fresh(handler) &&
        handler.level == sink.effectiveLevel && handler.outputQueue == inputQueue &&
        handler.oldRootLevel == Some(old(root.level)) &&
        root.handlers == old(root.handlers) + [Interceptor(handler)] &&
        root.level == NOTSET + 1 &&
        (forall c :: c in contexts ==> oldProcess[c] == Some(old(registry.process[c]))) &&
        (forall c :: c in registry.process ==>
          registry.process[c] == if c in contexts then LogregatorProcessClass else old(registry.process[c]))
      ensures !old(Started()) && !threadStarts ==>
        inputQueue == null && handler == null &&
        root.handlers == old(root.handlers) && root.level == old(root.level) &&
        registry.process == old(registry.process)
    {
      var wasStarted := consumerThread.Some?;
      Start(root, registry, threadStarts);
      if !wasStarted && !threadStarts {
        RollBack(root, registry);
      }
    }

    /** Undoes a start whose thread did not start: uninstalls the handler
        and puts back every saved `Process`. */
    method RollBack(root: RootLogger, registry: ProcessRegistry)
      requires Valid() && registry.Valid() && !Started()
      requires inputQueue != null && handler != null && handler.oldRootLevel.Some?
      requires |root.handlers| > 0 && root.handlers[|root.handlers| - 1] == Interceptor(handler)
      requires Interceptor(handler) !in root.handlers[..|root.handlers| - 1]
      requires forall c :: c in contexts ==> oldProcess[c].Some?
      modifies this, root, registry
      ensures Valid() && registry.Valid() && !Started()
      ensures inputQueue == null && handler == null && oldProcess == old(oldProcess)
      ensures root.handlers == old(root.handlers)[..|old(root.handlers)| - 1]
      ensures root.level == old(handler.oldRootLevel).value
      ensures forall c :: c in registry.process ==>
        registry.process[c] == if c in contexts then old(oldProcess[c]).value else old(registry.process[c])
    {
      var h := handler;
      ghost var before := root.handlers[..|root.handlers| - 1];
      RemoveFirstAfterAppend(before, Interceptor(h), []);
      assert before + [Interceptor(h)] + [] == root.handlers;
      var outcome := h.Uninstall(root);
      handler := null;
      inputQueue := null;
      RestoreProcesses(registry, contexts, oldProcess);
    }

    /** Entering the scoped form starts the session and yields it. */
    method Enter(root: RootLogger, registry: ProcessRegistry, threadStarts: bool) returns (self: Logregator)
      requires Valid() && registry.Valid()
      modifies this, root, registry
      ensures self == this && Valid() && registry.Valid()
      ensures old(Started()) ==> unchanged(this) && unchanged(root) && unchanged(registry)
      ensures !old(Started()) ==>
        inputQueue != null && fresh(inputQueue) && inputQueue.items == [] && !inputQueue.closed &&
        handler != null && fresh(handler) &&
        handler.level == sink.effectiveLevel && handler.outputQueue == inputQueue &&
        handler.oldRootLevel == Some(old(root.level)) &&
        root.handlers == old(root.handlers) + [Interceptor(handler)] &&
        root.level == NOTSET + 1 &&
        (forall c :: c in contexts ==> oldProcess[c] == Some(old(registry.process[c]))) &&
        (forall c :: c in registry.process ==>
          registry.process[c] == if c in contexts then LogregatorProcessClass else old(registry.process[c])) &&
        (Started() <==> threadStarts)
    {
      Start(root, registry, threadStarts);
      self := this;
    }

    /** Leaving the scoped form, on every exit path, stops the session. */
    method Exit(root: RootLogger, registry: ProcessRegistry) returns (forwarded: seq<LogRecord>)
      requires Valid() && registry.Valid()
      modifies this, root, registry, inputQueue
      ensures Valid() && registry.Valid() && !Started()
      ensures !old(Started()) ==>
        forwarded == [] && unchanged(this) && unchanged(root) && unchanged(registry)
      ensures old(Started()) ==>
        forwarded == Consumed(sink, myPid, old(inputQueue.items)) &&
        old(inputQueue).closed && old(inputQueue).items == old(inputQueue.items) &&
        inputQueue == null && handler == null && oldProcess == old(oldProcess) &&
        root.handlers == RemoveFirst(old(root.handlers), Interceptor(old(handler))) &&
        root.level == (if Interceptor(old(handler)) in old(root.handlers)
                       then old(handler.oldRootLevel).value else old(root.level)) &&
        (forall c :: c in registry.process ==>
          registry.process[c] == if c in contexts then old(oldProcess[c]).value else old(registry.process[c]))
    {
      forwarded := Stop(root, registry);
    }
  }

  /** A registry whose contexts name three distinct original classes. */
  method NewRegistry() returns (registry: ProcessRegistry)
    ensures fresh(registry) && registry.Valid()
    ensures registry.process == map[SpawnContext := OriginalProcess(0),
                                    MultiprocessingModule := OriginalProcess(1),
                                    ContextModule := OriginalProcess(2)]
  {
    registry := new ProcessRegistry(map[SpawnContext := OriginalProcess(0),
                                        MultiprocessingModule := OriginalProcess(1),
                                        ContextModule := OriginalProcess(2)]);
  }

  /** A whole session around one emission: the sink receives what the
      consumer makes of the one tagged record the handler enqueued, and the
      root logger and the contexts end as they began. */
  method OneRecordSession(sink: Sink, myPid: nat, rec: LogRecord, pid: nat)
    returns (delivered: seq<LogRecord>, rootAfter: seq<RootEntry>, levelAfter: int, spawnAfter: ProcessClass)
    ensures delivered == if Accepts(sink.effectiveLevel, rec)
                         then Consumed(sink, myPid, [Tagged(pid, Prepared(rec))]) else []
    ensures rootAfter == [] && levelAfter == WARNING && spawnAfter == OriginalProcess(0)
  {
    var root := new RootLogger([], WARNING);
    var registry := NewRegistry();
    var session := new Logregator(sink, myPid, false);
    session.Start(root, registry, true);
    var _ := session.handler.Emit(rec, pid);
    delivered := session.Stop(root, registry);
    rootAfter, levelAfter, spawnAfter := root.handlers, root.level, registry.process[SpawnContext];
  }

  /** One record from another logger in the aggregating process, inside a
      session whose sink is "test_local": the sink receives exactly
      "[test_local] - local test", and the root logger and the contexts are
      as they were before the session. */
  method LocalScenario() returns (delivered: seq<LogRecord>, rootAfter: seq<RootEntry>, levelAfter: int, spawnAfter: ProcessClass)
    ensures |delivered| == 1 && delivered[0].msg == "[test_local] - local test"
    ensures rootAfter == [] && levelAfter == WARNING && spawnAfter == OriginalProcess(0)
  {
    var sink := Sink("test_local", INFO);
    var rec := NewRecord("internal", INFO, "local test", None);
    delivered, rootAfter, levelAfter, spawnAfter := OneRecordSession(sink, 1000, rec, 1000);
    ConsumedLocal(sink, 1000, rec);
  }

  /** A record below the sink's level, and a record from the sink's own
      logger, never reach the sink. */
  method FilteredScenario() returns (delivered: seq<LogRecord>)
    ensures delivered == []
  {
    var root := new RootLogger([], WARNING);
    var registry := NewRegistry();
    var sink := Sink("test_sink_log_level", INFO);
    var session := new Logregator(sink, 1000, false);
    session.Start(root, registry, true);
    var h := session.handler;
    var _ := h.Emit(NewRecord("internal", DEBUG, "test level 10", None), 1000);
    var _ := h.Emit(NewRecord("test_sink_log_level", INFO, "echo", None), 1000);
    ConsumedDropsSelfEcho(sink, 1000, h.outputQueue.items);
    delivered := session.Stop(root, registry);
  }

  /** The inner part of a nested run: while an enclosing handler `oh` is
      attached, an inner session for `inSink` starts, `r1` is emitted (the
      root calls `oh` first, then the inner handler), the inner session
      stops, and its sink's dispatch reaches `oh`, which skips it. */
  method InnerSession(root: RootLogger, registry: ProcessRegistry, oh: LogregatorHandler,
                      inSink: Sink, myPid: nat, r1: LogRecord)
    returns (inner: seq<LogRecord>)
    requires registry.Valid() && !oh.outputQueue.closed
    requires Accepts(oh.level, r1) && Accepts(inSink.effectiveLevel, r1)
    modifies root, registry, oh.outputQueue
    ensures registry.Valid() && !oh.outputQueue.closed
    ensures oh.outputQueue.items == old(oh.outputQueue.items) + [Tagged(myPid, Prepared(r1))]
    ensures inner == Consumed(inSink, myPid, [Tagged(myPid, Prepared(r1))])
  {
    var innerSession := new Logregator(inSink, myPid, false);
    innerSession.Start(root, registry, true);
    var ih := innerSession.handler;
    var seen := oh.Emit(r1, myPid);
    seen := ih.Emit(seen, myPid);
    assert ih.outputQueue.items == [Tagged(myPid, Prepared(r1))];
    inner := innerSession.Stop(root, registry);
    if |inner| > 0 {
      var _ := oh.Emit(inner[0], myPid);
    }
  }

  /** Nested sessions in one process, with `r1` emitted while both run and
      `r0`, `r2` before and after the inner one: the inner session receives
      only `r1`; the outer receives all three exactly once, because what the
      inner sink dispatches carries the handled-marker and the outer handler
      skips it. */
  method NestedSessions(outSink: Sink, inSink: Sink, myPid: nat, r0: LogRecord, r1: LogRecord, r2: LogRecord)
    returns (outer: seq<LogRecord>, inner: seq<LogRecord>)
    requires Accepts(outSink.effectiveLevel, r0) && Accepts(outSink.effectiveLevel, r2)
    requires Accepts(outSink.effectiveLevel, r1) && Accepts(inSink.effectiveLevel, r1)
    ensures inner == Consumed(inSink, myPid, [Tagged(myPid, Prepared(r1))])
    ensures outer == Consumed(outSink, myPid, [Tagged(myPid, Prepared(r0)), Tagged(myPid, Prepared(r1)), Tagged(myPid, Prepared(r2))])
  {
    var root := new RootLogger([], WARNING);
    var registry := NewRegistry();
    var outerSession := new Logregator(outSink, myPid, false);
    outerSession.Start(root, registry, true);
    var oh := outerSession.handler;
    var _ := oh.Emit(r0, myPid);
    inner := InnerSession(root, registry, oh, inSink, myPid, r1);
    var _ := oh.Emit(r2, myPid);
    assert oh.outputQueue.items == [Tagged(myPid, Prepared(r0)), Tagged(myPid, Prepared(r1)), Tagged(myPid, Prepared(r2))];
    outer := outerSession.Stop(root, registry);
  }

  /** The nested scenario with sinks "out" and "in": the inner sink receives
      "[in] - m1" alone; the outer receives "[out] - m0", "[out] - m1",
      "[out] - m2", each wrapped once. */
  method NestedScenario() returns (outer: seq<LogRecord>, inner: seq<LogRecord>)
    ensures |inner| == 1 && inner[0].msg == "[in] - m1"
    ensures |outer| == 3
    ensures outer[0].msg == "[out] - m0" && outer[1].msg == "[out] - m1" && outer[2].msg == "[out] - m2"
  {
    var outSink, inSink := Sink("out", INFO), Sink("in", INFO);
    var r0 := NewRecord("internal0", INFO, "m0", None);
    var r1 := NewRecord("internal1", INFO, "m1", None);
    var r2 := NewRecord("internal2", INFO, "m2", None);
    outer, inner := NestedSessions(outSink, inSink, 1000, r0, r1, r2);
    ConsumedLocal(inSink, 1000, r1);
    ConsumedLocalAll(outSink, 1000, [Tagged(1000, r0), Tagged(1000, r1), Tagged(1000, r2)]);
  }

  /** With the rolled-back start, a failed thread start leaves nothing on
      the root logger, and after a retry and a stop the spawn context names
      its original class again. */
  method FailedStartRolledBackScenario() returns (startedAfterFailure: bool, rootAfterFailure: nat, spawnAfterRetry: ProcessClass)
    ensures !startedAfterFailure && rootAfterFailure == 0
    ensures spawnAfterRetry == OriginalProcess(0)
  {
    var root := new RootLogger([], WARNING);
    var registry := NewRegistry();
    var session := new Logregator(Sink("s", INFO), 1000, false);
    session.StartRollingBack(root, registry, false);
    startedAfterFailure := session.Started();
    rootAfterFailure := |root.handlers|;
    var _ := session.Stop(root, registry);
    session.StartRollingBack(root, registry, true);
    var _ := session.Stop(root, registry);
    spawnAfterRetry := registry.process[SpawnContext];
  }

  /** A failed thread start leaves the session not started while its handler
      stays on the root logger; after a later successful start and a stop,
      the spawn context names the spawn-aware class instead of its original
      one, because the second start saved the substituted class. */
  method FailedStartScenario() returns (startedAfterFailure: bool, rootAfterFailure: nat, spawnAfterRetry: ProcessClass)
    ensures !startedAfterFailure && rootAfterFailure == 1
    ensures spawnAfterRetry == LogregatorProcessClass
  {
    var root := new RootLogger([], WARNING);
    var registry := NewRegistry();
    var session := new Logregator(Sink("s", INFO), 1000, false);
    session.Start(root, registry, false);
    startedAfterFailure := session.Started();
    rootAfterFailure := |root.handlers|;
    var _ := session.Stop(root, registry);
    session.Start(root, registry, true);
    var _ := session.Stop(root, registry);
    spawnAfterRetry := registry.process[SpawnContext];
  }
}
