/** The consumer loop (`Logregator._consume_logs_proc`): for each tagged
    record taken from the channel, in arrival order, it decides whether to
    drop it or to rewrite, mark and forward it to the sink logger. */
module Consumer {
  import opened Wrappers
  import opened Records

  /** What the consumer reads from its borrowed sink logger: its name and its
      effective level. */
  datatype Sink = Sink(name: string, effectiveLevel: int)
  {
    /** `isEnabledFor`: the record's level is at least the effective level. */
    predicate IsEnabledFor(levelno: int)
    {
      levelno >= effectiveLevel
    }
  }

  // ---------------------------------------------------------------------
  // Decimal rendering of process ids, as `f"{pid}"` writes them.

  function DigitChar(d: nat): (c: char)
    requires d < 10
    ensures '0' <= c <= '9'
    ensures c == '0' <==> d == 0
  {
    "0123456789"[d]
  }

  function DigitValue(c: char): nat
  {
    if '0' <= c <= '9' then (c as int - '0' as int) as nat else 0
  }

  /** Decimal digits of `n`, most significant first, no leading zeros. */
  function NatToString(n: nat): (s: string)
    ensures |s| >= 1
    ensures forall i :: 0 <= i < |s| ==> '0' <= s[i] <= '9'
    ensures s[0] == '0' <==> n == 0
    ensures n < 10 ==> |s| == 1
  {
    if n < 10 then [DigitChar(n)] else NatToString(n / 10) + [DigitChar(n % 10)]
  }

  /** The value of a string of decimal digits. */
  function ParseDecimal(s: string): nat
  {
    if s == [] then 0 else ParseDecimal(s[..|s| - 1]) * 10 + DigitValue(s[|s| - 1])
  }

  /** Reading back a rendered pid gives the pid: the rendering loses nothing. */
  lemma {:induction false} ParseNatToString(n: nat)
    ensures ParseDecimal(NatToString(n)) == n
  {
    var s := NatToString(n);
    if n < 10 {
      assert s[..|s| - 1] == [];
    } else {
      assert s[..|s| - 1] == NatToString(n / 10);
      ParseNatToString(n / 10);
    }
  }

  /** Different pids render differently. */
  lemma NatToStringInjective(m: nat, n: nat)
    requires NatToString(m) == NatToString(n)
    ensures m == n
  {
    ParseNatToString(m);
    ParseNatToString(n);
  }

  // ---------------------------------------------------------------------
  // The per-record decision.

  /** The attribution put in front of a forwarded message: the sink's name,
      plus " PID <pid>" for a record from another process. */
  function Attribution(sinkName: string, myPid: nat, pid: nat): string
  {
    if pid != myPid then sinkName + " PID " + NatToString(pid) else sinkName
  }

  /** The attribution names the origin: two records from different processes
      (or one local and one remote) never get the same attribution. */
  lemma AttributionIdentifiesOrigin(sinkName: string, myPid: nat, p: nat, q: nat)
    requires Attribution(sinkName, myPid, p) == Attribution(sinkName, myPid, q)
    ensures p == q
  {
    var a := Attribution(sinkName, myPid, p);
    if p != myPid && q != myPid {
      var k := |sinkName + " PID "|;
      assert a[k..] == NatToString(p);
      assert Attribution(sinkName, myPid, q)[k..] == NatToString(q);
      NatToStringInjective(p, q);
    }
  }

  /** The consumer forwards a record iff the sink is enabled for its level
      and it is not the sink's own output echoed back from this process. */
  predicate Forwards(sink: Sink, myPid: nat, t: Tagged)
  {
    sink.IsEnabledFor(t.record.levelno) &&
    (t.pid != myPid || t.record.name != sink.name)
  }

  /** A forwarded record: message rewritten to "[<attribution>] - <msg>" and
      the handled-marker set. */
  function Rewritten(sink: Sink, myPid: nat, t: Tagged): (r: LogRecord)
    ensures IsHandled(r)
    ensures r.msg == "[" + Attribution(sink.name, myPid, t.pid) + "] - " + t.record.msg
    ensures r.(msg := t.record.msg, handled := t.record.handled) == t.record
  {
    MarkAsHandled(t.record.(msg := "[" + Attribution(sink.name, myPid, t.pid) + "] - " + t.record.msg))
  }

  /** The records handed to the sink, in order, for the tagged records
      `items` taken from the channel. Every one carries the handled-marker and
      a level the sink is enabled for. */
  function Consumed(sink: Sink, myPid: nat, items: seq<Tagged>): (r: seq<LogRecord>)
    ensures |r| <= |items|
    ensures forall k :: 0 <= k < |r| ==> IsHandled(r[k]) && sink.IsEnabledFor(r[k].levelno)
  {
    if items == [] then []
    else if Forwards(sink, myPid, items[0]) then [Rewritten(sink, myPid, items[0])] + Consumed(sink, myPid, items[1..])
    else Consumed(sink, myPid, items[1..])
  }

  /** The consumer's output for consecutive stretches of the channel is the
      concatenation of its outputs for each stretch: arrival order is kept. */
  lemma {:induction false} ConsumedAppend(sink: Sink, myPid: nat, a: seq<Tagged>, b: seq<Tagged>)
    ensures Consumed(sink, myPid, a + b) == Consumed(sink, myPid, a) + Consumed(sink, myPid, b)
  {
    if a == [] {
      assert a + b == b;
    } else {
      assert (a + b)[0] == a[0];
      assert (a + b)[1..] == a[1..] + b;
      ConsumedAppend(sink, myPid, a[1..], b);
    }
  }

  /** The loop over the channel. */
  method ConsumeLogs(sink: Sink, myPid: nat, items: seq<Tagged>) returns (forwarded: seq<LogRecord>)
    ensures forwarded == Consumed(sink, myPid, items)
  {
    forwarded := [];
    var i := 0;
    while i < |items|
      invariant 0 <= i <= |items|
      invariant forwarded == Consumed(sink, myPid, items[..i])
    {
      var t := items[i];
      ConsumedAppend(sink, myPid, items[..i], [t]);
      assert items[..i + 1] == items[..i] + [t];
      i := i + 1;
      if !sink.IsEnabledFor(t.record.levelno) {
        continue;
      }
      var addendum := sink.name;
      if myPid != t.pid {
        addendum := addendum + " PID " + NatToString(t.pid);
      } else if t.record.name == sink.name {
        continue;
      }
      var rec := t.record.(msg := "[" + addendum + "] - " + t.record.msg);
      rec := MarkAsHandled(rec);
      forwarded := forwarded + [rec];
    }
    assert items[..|items|] == items;
  }

  // ---------------------------------------------------------------------
  // What the sink receives.

  /** Records from other processes that the sink is enabled for all arrive,
      one each, in order, attributed to their own pid. */
  lemma {:induction false} ConsumedRemote(sink: Sink, myPid: nat, items: seq<Tagged>)
    requires forall k :: 0 <= k < |items| ==> items[k].pid != myPid && sink.IsEnabledFor(items[k].record.levelno)
    ensures |Consumed(sink, myPid, items)| == |items|
    ensures forall k :: 0 <= k < |items| ==> Consumed(sink, myPid, items)[k] == Rewritten(sink, myPid, items[k])
    ensures forall k :: 0 <= k < |items| ==>
      Consumed(sink, myPid, items)[k].msg ==
        "[" + sink.name + " PID " + NatToString(items[k].pid) + "] - " + items[k].record.msg
  {
    if items != [] {
      ConsumedRemote(sink, myPid, items[1..]);
      var r := Consumed(sink, myPid, items);
      assert r == [Rewritten(sink, myPid, items[0])] + Consumed(sink, myPid, items[1..]);
      forall k | 0 <= k < |items|
        ensures r[k] == Rewritten(sink, myPid, items[k])
        ensures r[k].msg == "[" + sink.name + " PID " + NatToString(items[k].pid) + "] - " + items[k].record.msg
      {
        if k > 0 {
          assert r[k] == Consumed(sink, myPid, items[1..])[k - 1];
          assert items[k] == items[1..][k - 1];
        }
      }
    }
  }

  /** Records from this process, from loggers other than the sink, that the
      sink is enabled for all arrive, one each, in order, as
      "[<sink>] - <msg>". */
  lemma {:induction false} ConsumedLocalAll(sink: Sink, myPid: nat, items: seq<Tagged>)
    requires forall k :: 0 <= k < |items| ==>
      items[k].pid == myPid && items[k].record.name != sink.name && sink.IsEnabledFor(items[k].record.levelno)
    ensures |Consumed(sink, myPid, items)| == |items|
    ensures forall k :: 0 <= k < |items| ==> Consumed(sink, myPid, items)[k] == Rewritten(sink, myPid, items[k])
    ensures forall k :: 0 <= k < |items| ==>
      Consumed(sink, myPid, items)[k].msg == "[" + sink.name + "] - " + items[k].record.msg
  {
    if items != [] {
      ConsumedLocalAll(sink, myPid, items[1..]);
      var r := Consumed(sink, myPid, items);
      assert r == [Rewritten(sink, myPid, items[0])] + Consumed(sink, myPid, items[1..]);
      forall k | 0 <= k < |items|
        ensures r[k] == Rewritten(sink, myPid, items[k])
        ensures r[k].msg == "[" + sink.name + "] - " + items[k].record.msg
      {
        if k > 0 {
          assert r[k] == Consumed(sink, myPid, items[1..])[k - 1];
          assert items[k] == items[1..][k - 1];
        }
      }
    }
  }

  /** Records from this process whose logger is the sink itself are all
      dropped: the sink never hears its own output again. */
  lemma {:induction false} ConsumedDropsSelfEcho(sink: Sink, myPid: nat, items: seq<Tagged>)
    requires forall k :: 0 <= k < |items| ==> items[k].pid == myPid && items[k].record.name == sink.name
    ensures Consumed(sink, myPid, items) == []
  {
    if items != [] {
      ConsumedDropsSelfEcho(sink, myPid, items[1..]);
    }
  }

  /** Records below the sink's effective level are all dropped. */
  lemma {:induction false} ConsumedDropsBelowLevel(sink: Sink, myPid: nat, items: seq<Tagged>)
    requires forall k :: 0 <= k < |items| ==> items[k].record.levelno < sink.effectiveLevel
    ensures Consumed(sink, myPid, items) == []
  {
    if items != [] {
      ConsumedDropsBelowLevel(sink, myPid, items[1..]);
    }
  }

  /** A single local record from another logger reaches the sink as
      "[<sink>] - <msg>". */
  lemma ConsumedLocal(sink: Sink, myPid: nat, rec: LogRecord)
    requires rec.name != sink.name && sink.IsEnabledFor(rec.levelno)
    ensures |Consumed(sink, myPid, [Tagged(myPid, rec)])| == 1
    ensures Consumed(sink, myPid, [Tagged(myPid, rec)])[0].msg == "[" + sink.name + "] - " + rec.msg
  {
    assert [Tagged(myPid, rec)][1..] == [];
  }

  /** A local record followed by a record from worker `p`: both reach the
      sink, in that order, attributed "[<sink>]" and "[<sink> PID <p>]". */
  lemma LocalThenRemote(sink: Sink, myPid: nat, rec: LogRecord, p: nat)
    requires p != myPid && rec.name != sink.name && sink.IsEnabledFor(rec.levelno)
    ensures |Consumed(sink, myPid, [Tagged(myPid, rec), Tagged(p, rec)])| == 2
    ensures Consumed(sink, myPid, [Tagged(myPid, rec), Tagged(p, rec)])[0].msg == "[" + sink.name + "] - " + rec.msg
    ensures Consumed(sink, myPid, [Tagged(myPid, rec), Tagged(p, rec)])[1].msg ==
      "[" + sink.name + " PID " + NatToString(p) + "] - " + rec.msg
  {
    ConsumedLocal(sink, myPid, rec);
    ConsumedRemote(sink, myPid, [Tagged(p, rec)]);
    ConsumedAppend(sink, myPid, [Tagged(myPid, rec)], [Tagged(p, rec)]);
    assert [Tagged(myPid, rec)] + [Tagged(p, rec)] == [Tagged(myPid, rec), Tagged(p, rec)];
  }

  /** The concrete scenario: sink "S" at INFO; an INFO "hello" from logger
      "X" in the aggregating process, then the same from worker 4242. */
  lemma HelloScenario(myPid: nat, hello: LogRecord)
    requires myPid != 4242
    requires hello == NewRecord("X", INFO, "hello", None)
    ensures |Consumed(Sink("S", INFO), myPid, [Tagged(myPid, hello), Tagged(4242, hello)])| == 2
    ensures Consumed(Sink("S", INFO), myPid, [Tagged(myPid, hello), Tagged(4242, hello)])[0].msg == "[S] - hello"
    ensures Consumed(Sink("S", INFO), myPid, [Tagged(myPid, hello), Tagged(4242, hello)])[1].msg == "[S PID 4242] - hello"
  {
    LocalThenRemote(Sink("S", INFO), myPid, hello, 4242);
    RenderedPid4242();
  }

  /** The pid 4242 renders as "4242" in the attribution. */
  lemma RenderedPid4242()
    ensures "[" + "S" + " PID " + NatToString(4242) + "] - " + "hello" == "[S PID 4242] - hello"
  {
    assert DigitChar(4) == '4' && DigitChar(2) == '2';
    assert NatToString(4) == "4";
    assert NatToString(42) == NatToString(4) + [DigitChar(2)] == "42";
    assert NatToString(424) == NatToString(42) + [DigitChar(4)] == "424";
    assert NatToString(4242) == NatToString(424) + [DigitChar(2)] == "4242";
  }
}
