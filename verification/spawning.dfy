/** The spawn-aware process class (`LogregatorProcess`): when created it
    snapshots the intercept handlers on the root logger as (level, channel)
    pairs; when run in the worker it re-creates and installs one handler per
    entry around the target and uninstalls them afterwards. */
module Spawning {
  import opened Wrappers
  import opened Records
  import opened Channels
  import opened Interception

  /** What crosses into the worker for one handler: its level and channel. */
  datatype HandlerSpec = HandlerSpec(level: int, queue: Channel)

  /** The (level, channel) of every intercept handler on the root list, in
      list order; other handlers are skipped. */
  function Snapshot(handlers: seq<RootEntry>): (r: seq<HandlerSpec>)
    ensures |r| <= |handlers|
  {
    if handlers == [] then []
    else
      match handlers[0]
      case Foreign(_) => Snapshot(handlers[1..])
      case Interceptor(h) => [HandlerSpec(h.level, h.outputQueue)] + Snapshot(handlers[1..])
  }

  /** Snapshotting distributes over concatenation, so the snapshot keeps
      the root list's order. */
  lemma {:induction false} SnapshotAppend(a: seq<RootEntry>, b: seq<RootEntry>)
    ensures Snapshot(a + b) == Snapshot(a) + Snapshot(b)
  {
    if a == [] {
      assert a + b == b;
    } else {
      assert (a + b)[0] == a[0];
      assert (a + b)[1..] == a[1..] + b;
      SnapshotAppend(a[1..], b);
    }
  }

  /** With no intercept handler on the root, the snapshot is empty and the
      worker runs as if aggregation did not exist. */
  lemma {:induction false} SnapshotWithoutInterceptors(handlers: seq<RootEntry>)
    requires forall i :: 0 <= i < |handlers| ==> handlers[i].Foreign?
    ensures Snapshot(handlers) == []
  {
    if handlers != [] {
      SnapshotWithoutInterceptors(handlers[1..]);
    }
  }

  /** The root entries for a list of handlers, in order. */
  function Entries(hs: seq<LogregatorHandler>): (r: seq<RootEntry>)
    ensures |r| == |hs|
    ensures forall k :: 0 <= k < |hs| ==> r[k] == Interceptor(hs[k])
  {
    seq(|hs|, k requires 0 <= k < |hs| => Interceptor(hs[k]))
  }

  /** Handlers re-created from a snapshot are seen as that same snapshot. */
  lemma {:induction false} SnapshotOfEntries(hs: seq<LogregatorHandler>, specs: seq<HandlerSpec>)
    requires |hs| == |specs|
    requires forall k :: 0 <= k < |hs| ==> hs[k].level == specs[k].level && hs[k].outputQueue == specs[k].queue
    ensures Snapshot(Entries(hs)) == specs
  {
    if hs != [] {
      assert Entries(hs) == [Interceptor(hs[0])] + Entries(hs[1..]);
      SnapshotOfEntries(hs[1..], specs[1..]);
      assert Entries(hs)[1..] == Entries(hs[1..]);
      assert specs == [specs[0]] + specs[1..];
    }
  }

  /** Builds one fresh handler per snapshot entry, with that entry's level
      and channel. */
  method CreateHandlers(specs: seq<HandlerSpec>) returns (hs: seq<LogregatorHandler>)
    ensures |hs| == |specs|
    ensures forall k :: 0 <= k < |hs| ==> fresh(hs[k])
    ensures forall j, k :: 0 <= j < k < |hs| ==> hs[j] != hs[k]
    ensures forall k :: 0 <= k < |hs| ==>
      hs[k].level == specs[k].level && hs[k].outputQueue == specs[k].queue && hs[k].oldRootLevel == None
  {
    hs := [];
    var i := 0;
    while i < |specs|
      invariant 0 <= i <= |specs| && |hs| == i
      invariant forall k :: 0 <= k < i ==> fresh(hs[k])
      invariant forall j, k :: 0 <= j < k < i ==> hs[j] != hs[k]
      invariant forall k :: 0 <= k < i ==>
        hs[k].level == specs[k].level && hs[k].outputQueue == specs[k].queue && hs[k].oldRootLevel == None
    {
      var h := new LogregatorHandler(specs[i].level, specs[i].queue);
      hs := hs + [h];
      i := i + 1;
    }
  }

  /** Installs each handler in turn. None of them is attached yet, so each is
      appended; the first saves the original root level, every later one
      saves NOTSET + 1. */
  method InstallAll(root: RootLogger, hs: seq<LogregatorHandler>)
    requires forall k :: 0 <= k < |hs| ==> Interceptor(hs[k]) !in root.handlers
    requires forall j, k :: 0 <= j < k < |hs| ==> hs[j] != hs[k]
    modifies root, set k | 0 <= k < |hs| :: hs[k]
    ensures root.handlers == old(root.handlers) + Entries(hs)
    ensures root.level == if |hs| == 0 then old(root.level) else NOTSET + 1
    ensures forall k :: 0 <= k < |hs| ==>
      hs[k].oldRootLevel == Some(if k == 0 then old(root.level) else NOTSET + 1)
  {
    ghost var h0 := root.handlers;
    ghost var l0 := root.level;
    var i := 0;
    while i < |hs|
      invariant 0 <= i <= |hs|
      invariant root.handlers == h0 + Entries(hs[..i])
      invariant root.level == if i == 0 then l0 else NOTSET + 1
      invariant forall k :: 0 <= k < i ==> hs[k].oldRootLevel == Some(if k == 0 then l0 else NOTSET + 1)
    {
      assert Interceptor(hs[i]) !in Entries(hs[..i]);
      hs[i].Install(root);
      assert Entries(hs[..i + 1]) == Entries(hs[..i]) + [Interceptor(hs[i])];
      i := i + 1;
    }
    assert hs[..|hs|] == hs;
  }

  /** Uninstalls each handler in the order given (not in reverse). Each one
      restores the level it saved, so the level left behind is the one the
      last handler saved. */
  method UninstallAll(root: RootLogger, ghost h0: seq<RootEntry>, hs: seq<LogregatorHandler>, ghost saved: seq<int>)
    requires |saved| == |hs|
    requires root.handlers == h0 + Entries(hs)
    requires forall k :: 0 <= k < |hs| ==> Interceptor(hs[k]) !in h0
    requires forall j, k :: 0 <= j < k < |hs| ==> hs[j] != hs[k]
    requires forall k :: 0 <= k < |hs| ==> hs[k].oldRootLevel == Some(saved[k])
    modifies root
    ensures root.handlers == h0
    ensures root.level == if |hs| == 0 then old(root.level) else saved[|hs| - 1]
  {
    var i := 0;
    while i < |hs|
      invariant 0 <= i <= |hs|
      invariant root.handlers == h0 + Entries(hs[i..])
      invariant root.level == if i == 0 then old(root.level) else saved[i - 1]
    {
      assert Entries(hs[i..]) == [Interceptor(hs[i])] + Entries(hs[i + 1..]);
      RemoveFirstAfterAppend(h0, Interceptor(hs[i]), Entries(hs[i + 1..]));
      assert h0 + [Interceptor(hs[i])] + Entries(hs[i + 1..]) == root.handlers;
      var outcome := hs[i].Uninstall(root);
      i := i + 1;
    }
    assert Entries(hs[|hs|..]) == [];
  }

  /** Uninstalls the handlers in reverse order of installation. Each one
      finds the level its successor restored and puts back the level it
      saved itself, so the first handler's saved level is what is left. */
  method UninstallAllReversed(root: RootLogger, ghost h0: seq<RootEntry>, hs: seq<LogregatorHandler>, ghost saved: seq<int>)
    requires |saved| == |hs|
    requires root.handlers == h0 + Entries(hs)
    requires forall k :: 0 <= k < |hs| ==> Interceptor(hs[k]) !in h0
    requires forall j, k :: 0 <= j < k < |hs| ==> hs[j] != hs[k]
    requires forall k :: 0 <= k < |hs| ==> hs[k].oldRootLevel == Some(saved[k])
    modifies root
    ensures root.handlers == h0
    ensures root.level == if |hs| == 0 then old(root.level) else saved[0]
  {
    var i := |hs|;
    assert hs[..i] == hs;
    while i > 0
      invariant 0 <= i <= |hs|
      invariant root.handlers == h0 + Entries(hs[..i])
      invariant root.level == if i == |hs| then old(root.level) else saved[i]
    {
      var x := Interceptor(hs[i - 1]);
      assert Entries(hs[..i]) == Entries(hs[..i - 1]) + [x];
      assert x !in Entries(hs[..i - 1]);
      RemoveFirstAfterAppend(h0 + Entries(hs[..i - 1]), x, []);
      assert h0 + Entries(hs[..i - 1]) + [x] + [] == root.handlers;
      var outcome := hs[i - 1].Uninstall(root);
      i := i - 1;
    }
    assert hs[..0] == [];
  }

  /** How the target callable ended. */
  datatype TargetOutcome = Returned | Raised

  class LogregatorProcess {
    /** The handlers captured in the parent, carried into the worker. */
    const handlerSpecs: seq<HandlerSpec>

    constructor (root: RootLogger)
      ensures handlerSpecs == Snapshot(root.handlers)
    {
      handlerSpecs := Snapshot(root.handlers);
    }

    /** Runs in the worker: one fresh handler per snapshot entry is installed,
        the target runs (it may raise), and every handler is uninstalled, in
        the order of installation, whichever way the target ended.
        `duringTarget` is the root list while the target runs. Because the
        uninstalls are not in reverse order, the root level is restored only
        when at most one handler was installed; otherwise it is left at
        NOTSET + 1. */
    method Run(root: RootLogger, target: TargetOutcome) returns (result: TargetOutcome, ghost duringTarget: seq<RootEntry>)
      modifies root
      ensures result == target
      ensures |duringTarget| == |old(root.handlers)| + |handlerSpecs|
      ensures duringTarget[..|old(root.handlers)|] == old(root.handlers)
      ensures forall i :: |old(root.handlers)| <= i < |duringTarget| ==>
        duringTarget[i].Interceptor? && fresh(duringTarget[i].handler)
      ensures Snapshot(duringTarget) == Snapshot(old(root.handlers)) + handlerSpecs
      ensures root.handlers == old(root.handlers)
      ensures root.level == if |handlerSpecs| <= 1 then old(root.level) else NOTSET + 1
    {
      ghost var h0 := root.handlers;
      ghost var l0 := root.level;
      var hs := CreateHandlers(handlerSpecs);
      InstallAll(root, hs);
      duringTarget := root.handlers;
      SnapshotOfEntries(hs, handlerSpecs);
      SnapshotAppend(h0, Entries(hs));
      assert duringTarget[..|h0|] == h0;

      // the target runs here, between the installs and the uninstalls
      result := target;

      ghost var saved := seq(|hs|, k requires 0 <= k < |hs| => if k == 0 then l0 else NOTSET + 1);
      UninstallAll(root, h0, hs, saved);
    }

    /** `run` with the uninstalls in reverse order of installation: the
        root logger ends exactly as it began, whatever the number of
        handlers. */
    method RunReversed(root: RootLogger, target: TargetOutcome) returns (result: TargetOutcome, ghost duringTarget: seq<RootEntry>)
      modifies root
      ensures result == target
      ensures |duringTarget| == |old(root.handlers)| + |handlerSpecs|
      ensures duringTarget[..|old(root.handlers)|] == old(root.handlers)
      ensures forall i :: |old(root.handlers)| <= i < |duringTarget| ==>
        duringTarget[i].Interceptor? && fresh(duringTarget[i].handler)
      ensures Snapshot(duringTarget) == Snapshot(old(root.handlers)) + handlerSpecs
      ensures root.handlers == old(root.handlers) && root.level == old(root.level)
    {
      ghost var h0 := root.handlers;
      ghost var l0 := root.level;
      var hs := CreateHandlers(handlerSpecs);
      InstallAll(root, hs);
      duringTarget := root.handlers;
      SnapshotOfEntries(hs, handlerSpecs);
      SnapshotAppend(h0, Entries(hs));
      assert duringTarget[..|h0|] == h0;

      result := target;

      ghost var saved := seq(|hs|, k requires 0 <= k < |hs| => if k == 0 then l0 else NOTSET + 1);
      UninstallAllReversed(root, h0, hs, saved);
    }
  }

  /** A worker spawned while two sessions are started (the nested case)
      inherits two handlers. Run as written leaves the worker's root at
      NOTSET + 1 instead of its original WARNING; the reversed order
      restores WARNING. */
  method TwoHandlerWorker() returns (levelAsWritten: int, levelReversed: int)
    ensures levelAsWritten == NOTSET + 1
    ensures levelReversed == WARNING
  {
    var q1 := new Channel();
    var q2 := new Channel();
    var h1 := new LogregatorHandler(INFO, q1);
    var h2 := new LogregatorHandler(INFO, q2);
    var parentRoot := new RootLogger([Interceptor(h1), Interceptor(h2)], NOTSET + 1);
    var p := new LogregatorProcess(parentRoot);
    assert [Interceptor(h1), Interceptor(h2)][1..] == [Interceptor(h2)];
    assert |p.handlerSpecs| == 2;

    var worker := new RootLogger([], WARNING);
    var result: TargetOutcome;
    ghost var during: seq<RootEntry>;
    result, during := p.Run(worker, Returned);
    levelAsWritten := worker.level;

    var worker2 := new RootLogger([], WARNING);
    result, during := p.RunReversed(worker2, Returned);
    levelReversed := worker2.level;
  }
}
