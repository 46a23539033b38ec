/** The intercept handler (`LogregatorHandler`): a handler that sits on the
    process-wide root logger, filters records and puts them, tagged with the
    emitting process id, on a channel. */
module Interception {
  import opened Wrappers
  import opened Records
  import opened Channels

  /** A handler attached to the root logger: either one of ours or any other
      handler, which this model only identifies. */
  datatype RootEntry = Foreign(id: nat) | Interceptor(handler: LogregatorHandler)

  /** The process-wide root logger, reduced to what install/uninstall touch. */
  class RootLogger {
    var handlers: seq<RootEntry>
    var level: int

    constructor (handlers: seq<RootEntry>, level: int)
      ensures this.handlers == handlers && this.level == level
    {
      this.handlers := handlers;
      this.level := level;
    }
  }

  /** The error `uninstall` raises when the handler is attached but was never
      installed through `install`. */
  datatype HandlerError = RuntimeError(message: string)

  const NOT_INSTALLED_MESSAGE := "Cannot uninstall, LogregatorHandler was not properly installed."

  /** `list.remove` for a present element: drops its first occurrence. */
  function RemoveFirst<T(==)>(s: seq<T>, x: T): (r: seq<T>)
    ensures x !in s ==> r == s
    ensures x in s ==> |r| == |s| - 1
  {
    if s == [] then []
    else
      assert s == [s[0]] + s[1..];
      if s[0] == x then s[1..] else [s[0]] + RemoveFirst(s[1..], x)
  }

  /** Removal takes away exactly one copy of `x` and keeps everything else. */
  lemma {:induction false} RemoveFirstMultiset<T>(s: seq<T>, x: T)
    ensures multiset(RemoveFirst(s, x)) == multiset(s) - multiset{x}
  {
    if s != [] {
      assert s == [s[0]] + s[1..];
      if s[0] != x {
        RemoveFirstMultiset(s[1..], x);
      }
    }
  }

  /** Removing an element that was appended after `s` (and is not in `s`)
      gives back `s` followed by what came after it. */
  lemma {:induction false} RemoveFirstAfterAppend<T>(s: seq<T>, x: T, t: seq<T>)
    requires x !in s
    ensures RemoveFirst(s + [x] + t, x) == s + t
  {
    var u := s + [x] + t;
    if s == [] {
      assert u == [x] + t;
      assert u[0] == x && u[1..] == t;
    } else {
      assert u[0] == s[0] && s[0] != x;
      assert u[1..] == s[1..] + [x] + t;
      RemoveFirstAfterAppend(s[1..], x, t);
      assert RemoveFirst(u, x) == [s[0]] + RemoveFirst(u[1..], x);
      assert s + t == [s[0]] + (s[1..] + t);
    }
  }

  /** The level gate of `emit`: the record has not passed through a consumer
      and is at or above the handler's level. */
  predicate Accepts(level: int, rec: LogRecord)
  {
    !IsHandled(rec) && rec.levelno >= level
  }

  /** The record as `emit` leaves it before enqueuing: a structured exception
      is rendered to text and dropped, nothing else changes. */
  function Prepared(rec: LogRecord): (r: LogRecord)
    ensures r.excInfo == None
    ensures rec.excInfo.Some? ==> r.excText == Some(FormatException(rec.excInfo.value))
    ensures rec.excInfo.None? ==> r == rec
    ensures r.(excInfo := rec.excInfo, excText := rec.excText) == rec
  {
    match rec.excInfo
    case None => rec
    case Some(e) => rec.(excText := Some(FormatException(e)), excInfo := None)
  }

  class LogregatorHandler {
    const level: int
    const outputQueue: Channel
    /** The root level saved by `install`; None until the first install. */
    var oldRootLevel: Option<int>

    constructor (level: int, outputQueue: Channel)
      ensures this.level == level && this.outputQueue == outputQueue
      ensures oldRootLevel == None
    {
      this.level := level;
      this.outputQueue := outputQueue;
      oldRootLevel := None;
    }

    /** Handles one record emitted in process `pid`. Returns the record as the
        next handler sees it (the exception rendering is done in place in the
        source). A closed channel drops the record without an error. */
    method Emit(rec: LogRecord, pid: nat) returns (r: LogRecord)
      modifies outputQueue
      ensures r == if Accepts(level, rec) then Prepared(rec) else rec
      ensures outputQueue.closed == old(outputQueue.closed)
      ensures outputQueue.items ==
        if Accepts(level, rec) && !old(outputQueue.closed)
        then old(outputQueue.items) + [Tagged(pid, r)]
        else old(outputQueue.items)
    {
      if IsHandled(rec) {
        return rec;
      }
      r := rec;
      if rec.levelno >= level {
        if r.excInfo.Some? {
          r := r.(excText := Some(FormatException(r.excInfo.value)), excInfo := None);
        }
        var accepted := outputQueue.Put(Tagged(pid, r));
        // a refused put (closed channel) is suppressed
      }
    }

    /** Attaches this handler to the root logger once, saving the root level
        and lowering it to NOTSET + 1 so nothing is filtered before it. */
    method Install(root: RootLogger)
      modifies root, this`oldRootLevel
      ensures Interceptor(this) in root.handlers
      ensures Interceptor(this) in old(root.handlers) ==>
        root.handlers == old(root.handlers) && root.level == old(root.level) &&
        oldRootLevel == old(oldRootLevel)
      ensures Interceptor(this) !in old(root.handlers) ==>
        root.handlers == old(root.handlers) + [Interceptor(this)] &&
        root.level == NOTSET + 1 &&
        oldRootLevel == Some(old(root.level))
    {
      if Interceptor(this) in root.handlers {
        return;
      }
      oldRootLevel := Some(root.level);
      root.level := NOTSET + 1;
      root.handlers := root.handlers + [Interceptor(this)];
    }

    /** Detaches this handler and restores the saved root level. A handler
        that is not attached is left alone; one that is attached but was
        never installed raises RuntimeError. */
    method Uninstall(root: RootLogger) returns (outcome: Outcome<HandlerError>)
      modifies root
      ensures outcome.Fail? <==> Interceptor(this) in old(root.handlers) && oldRootLevel.None?
      ensures outcome.Fail? ==> outcome.error == RuntimeError(NOT_INSTALLED_MESSAGE)
      ensures outcome.Fail? || Interceptor(this) !in old(root.handlers) ==>
        root.handlers == old(root.handlers) && root.level == old(root.level)
      ensures outcome.Pass? && Interceptor(this) in old(root.handlers) ==>
        root.handlers == RemoveFirst(old(root.handlers), Interceptor(this)) &&
        root.level == oldRootLevel.value
    {
      outcome := Pass;
      if Interceptor(this) in root.handlers {
        if oldRootLevel.None? {
          return Fail(RuntimeError(NOT_INSTALLED_MESSAGE));
        }
        root.handlers := RemoveFirst(root.handlers, Interceptor(this));
        root.level := oldRootLevel.value;
      }
    }
  }

  /** Install followed by uninstall, on a handler not yet attached, restores
      both the root handler list and the root level. */
  method InstallThenUninstall(root: RootLogger, h: LogregatorHandler) returns (outcome: Outcome<HandlerError>)
    requires Interceptor(h) !in root.handlers
    modifies root, h
    ensures outcome == Pass
    ensures root.handlers == old(root.handlers) && root.level == old(root.level)
  {
    h.Install(root);
    RemoveFirstAfterAppend(old(root.handlers), Interceptor(h), []);
    assert old(root.handlers) + [Interceptor(h)] + [] == root.handlers;
    outcome := h.Uninstall(root);
  }

  /** Cycle prevention: a record that carries the handled-marker is never
      enqueued again, whatever the handler's level. */
  lemma HandledNeverAccepted(level: int, rec: LogRecord)
    requires IsHandled(rec)
    ensures !Accepts(level, rec)
  {
  }
}
