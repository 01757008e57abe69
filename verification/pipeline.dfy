/** From packets counted in the kernel to what a collector decodes: the daemon's
    periodic step, and the end-to-end bound. */
module Pipeline {
  import opened Words
  import opened Flow
  import opened IpfixExporter
  import opened IpfixDecoding
  import opened IpfixObservations
  import Collector
  import IpfixRuns
  import BatchWalk
  import Drops
  import Lifecycle
  import LifecycleMachine
  import LifecycleRuns

  /** A drained drop record: its key, its value, and the forwarding status its reason
      maps to. */
  datatype DropRecord = DropRecord(key: Drops.DropKey, value: FlowValue, status: U8)

  /** The records a drain delivered, with `statusOf` the table of drop reasons. */
  function DropRecords(ks: seq<Drops.DropKey>, vs: seq<FlowValue>, statusOf: U32 -> U8): (ds: seq<DropRecord>)
    requires |ks| == |vs|
    ensures |ds| == |ks|
  {
    seq(|ks|, i requires 0 <= i < |ks| => DropRecord(ks[i], vs[i], statusOf(ks[i].reason)))
  }

  function FlowEmission(x: Lifecycle.Export): Emission {
    Emission(x.key, x.value, x.expired, Some(x.delta), 0)
  }

  function DropEmission(d: DropRecord): Emission { Emission(d.key.flow, d.value, false, None, d.status) }

  function FlowOps(exports: seq<Lifecycle.Export>): (ops: seq<IpfixRuns.Op>)
    ensures |ops| == |exports|
  {
    seq(|exports|, i requires 0 <= i < |exports| => IpfixRuns.Emit(FlowEmission(exports[i])))
  }

  function DropOps(drops: seq<DropRecord>): (ops: seq<IpfixRuns.Op>)
    ensures |ops| == |drops|
  {
    seq(|drops|, i requires 0 <= i < |drops| => IpfixRuns.Emit(DropEmission(drops[i])))
  }

  /** The anchor of a tick: wall clock minus monotonic clock, in milliseconds. */
  function Anchor(nowS: U32, monoNs: U64): U64 { Wrap64(nowS * 1000 - monoNs / 1000000) }

  /** What one lifecycle tick asks of the exporter. */
  function TickOps(offsetMs: U64, exports: seq<Lifecycle.Export>, drops: seq<DropRecord>, nowS: U32): seq<IpfixRuns.Op> {
    [IpfixRuns.SetOffset(offsetMs)] + FlowOps(exports) + DropOps(drops) + [IpfixRuns.Flush(nowS)]
  }

  /** Request by request: the anchor, every export with its own value, flag and delta,
      every drop record with its value and status and no delta, then the flush. */
  lemma TickAsks(offsetMs: U64, exports: seq<Lifecycle.Export>, drops: seq<DropRecord>, nowS: U32)
    ensures var ops := TickOps(offsetMs, exports, drops, nowS);
      && |ops| == |exports| + |drops| + 2
      && ops[0] == IpfixRuns.SetOffset(offsetMs)
      && (forall i | 0 <= i < |exports| ::
            ops[1 + i] == IpfixRuns.Emit(
              Emission(exports[i].key, exports[i].value, exports[i].expired, Some(exports[i].delta), 0)))
      && (forall i | 0 <= i < |drops| ::
            ops[1 + |exports| + i] == IpfixRuns.Emit(
              Emission(drops[i].key.flow, drops[i].value, false, None, drops[i].status)))
      && ops[1 + |exports| + |drops|] == IpfixRuns.Flush(nowS)
  {
  }

  /** And a collector reads the flow times of what the tick emits on the wall clock, which
      stood at `nowS` seconds when the monotonic clock stood at `monoNs`. */
  lemma TickTimes(e: Emission, nowS: U32, monoNs: U64)
    ensures var o, v := Interpret(Decoded(Sample(e, Anchor(nowS, monoNs)))), e.value;
      && IsMoment(o.startMs, 1000 * nowS, v.firstSeen - monoNs)
      && IsMoment(o.endMs, 1000 * nowS, v.lastSeen - monoNs)
  {
    hide Interpret, Decoded, IsMoment;
    TimesAreWallClock(Sample(e, Anchor(nowS, monoNs)), 1000 * nowS, monoNs);
  }

  lemma RunSnoc(s: State, ops: seq<IpfixRuns.Op>, op: IpfixRuns.Op)
    ensures IpfixRuns.Run(s, ops + [op]) == IpfixRuns.Apply(IpfixRuns.Run(s, ops), op)
  {
    assert (ops + [op])[..|ops|] == ops;
  }

  /** Emit the exports of a pass. */
  method EmitFlows(exporter: Exporter, exports: seq<Lifecycle.Export>, ghost s: State, ghost done: seq<IpfixRuns.Op>)
    requires exporter.View() == IpfixRuns.Run(s, done)
    modifies exporter
    ensures exporter.View() == IpfixRuns.Run(s, done + FlowOps(exports))
  {
    hide AfterEmit;
    assert done + FlowOps(exports)[..0] == done;
    for i := 0 to |exports|
      invariant exporter.View() == IpfixRuns.Run(s, done + FlowOps(exports)[..i])
    {
      RunSnoc(s, done + FlowOps(exports)[..i], FlowOps(exports)[i]);
      assert done + FlowOps(exports)[..i] + [FlowOps(exports)[i]] == done + FlowOps(exports)[..i + 1];
      exporter.Emit(FlowEmission(exports[i]));
    }
    assert FlowOps(exports)[..|exports|] == FlowOps(exports);
  }

  /** Emit the records of a drain. */
  method EmitDrops(exporter: Exporter, drops: seq<DropRecord>, ghost s: State, ghost done: seq<IpfixRuns.Op>)
    requires exporter.View() == IpfixRuns.Run(s, done)
    modifies exporter
    ensures exporter.View() == IpfixRuns.Run(s, done + DropOps(drops))
  {
    hide AfterEmit;
    assert done + DropOps(drops)[..0] == done;
    for i := 0 to |drops|
      invariant exporter.View() == IpfixRuns.Run(s, done + DropOps(drops)[..i])
    {
      RunSnoc(s, done + DropOps(drops)[..i], DropOps(drops)[i]);
      assert done + DropOps(drops)[..i] + [DropOps(drops)[i]] == done + DropOps(drops)[..i + 1];
      exporter.Emit(DropEmission(drops[i]));
    }
    assert DropOps(drops)[..|drops|] == DropOps(drops);
  }

  /** Drain the drop map if the tracer is active: what the drain delivered, complete or
      not, with the forwarding statuses of the reasons. */
  method TakeDrops(drops: Option<BatchWalk.Table<Drops.DropKey, FlowValue>>, statusOf: U32 -> U8)
      returns (records: seq<DropRecord>, ghost drain: Option<BatchWalk.Walk<Drops.DropKey, FlowValue>>)
    requires drops.Some? ==> drops.value.Valid()
    modifies if drops.Some? then {drops.value} else {}
    ensures drops.Some? == drain.Some? && (drops == None ==> records == [])
    ensures drops.Some? ==>
      && drops.value.Valid() && BatchWalk.Stands(drops.value.hashing, drops.value.Past(), drain.value)
      && drain.value.drain && drain.value.start == old(drops.value.entries)
      && (|drain.value.ts| == drops.value.hashing.lastBucket + 1
          || drops.value.Faulted(old(drops.value.clock), drops.value.clock))
      && |drain.value.ks| == |drain.value.vs| && records == DropRecords(drain.value.ks, drain.value.vs, statusOf)
  {
    hide BatchWalk.Stands, DropRecords, BatchWalk.Table<Drops.DropKey, FlowValue>.Valid,
      BatchWalk.Table<Drops.DropKey, FlowValue>.Faulted;
    records, drain := [], None;
    if drops.Some? {
      var _, ks, vs, w := BatchWalk.BatchWalk(drops.value, true);
      BatchWalk.EachKeyOnce(drops.value.hashing, drops.value.Past(), w);
      records, drain := DropRecords(ks, vs, statusOf), Some(w);
    }
  }

  /** The lifecycle and drop-drain step of the event loop: refresh the anchor, run the
      pass over a walk of the flow map and emit its exports, drain the drop map if the
      tracer is active and emit what the drain delivered, complete or not, flush. */
  method Tick(tracker: Lifecycle.Tracker, flows: Lifecycle.FlowMap, exporter: Exporter,
              drops: Option<BatchWalk.Table<Drops.DropKey, FlowValue>>, statusOf: U32 -> U8,
              now: U64, nowS: U32, monoNs: U64)
      returns (records: seq<DropRecord>, ghost drain: Option<BatchWalk.Walk<Drops.DropKey, FlowValue>>)
    requires flows.table.Valid() && (drops.Some? ==> drops.value.Valid())
    modifies tracker, flows, flows.table, exporter
    modifies if drops.Some? then {drops.value} else {}
    ensures flows.Valid() && flows.Delivers(old(flows.table.entries)) && Lifecycle.DistinctKeys(flows.Snapshot())
    ensures flows.table.since == old(flows.table.clock) <= flows.table.clock
    ensures var p := Lifecycle.PassResult(tracker.timeouts, now, old(tracker.last), flows.Snapshot());
      && tracker.last == p.last && flows.deleted == (set k | k in p.deletes)
      && exporter.View() == IpfixRuns.Run(old(exporter.View()), TickOps(Anchor(nowS, monoNs), p.exports, records, nowS))
    ensures drops.Some? == drain.Some? && (drops == None ==> records == [])
    ensures drops.Some? ==>
      && drops.value.Valid() && BatchWalk.Stands(drops.value.hashing, drops.value.Past(), drain.value)
      && drain.value.drain && drain.value.start == old(drops.value.entries)
      && (|drain.value.ts| == drops.value.hashing.lastBucket + 1
          || drops.value.Faulted(old(drops.value.clock), drops.value.clock))
      && |drain.value.ks| == |drain.value.vs| && records == DropRecords(drain.value.ks, drain.value.vs, statusOf)
  {
    hide Lifecycle.PassResult, AfterEmit, AfterFlush, BatchWalk.Stands, DropRecords, FlowOps, DropOps, Lifecycle.DistinctKeys,
      Lifecycle.FlowMap.Valid, Lifecycle.FlowMap.Delivers, BatchWalk.Table<Drops.DropKey, FlowValue>.Valid,
      BatchWalk.Table<Drops.DropKey, FlowValue>.Faulted,
      BatchWalk.Table<FlowKey, FlowValue>.Valid;
    ghost var s := exporter.View();
    exporter.SetOffsetMs(Anchor(nowS, monoNs));
    ghost var done := [IpfixRuns.SetOffset(Anchor(nowS, monoNs))];
    RunSnoc(s, [], done[0]);
    assert [] + done == done;
    var exports, _ := tracker.Run(flows, now);
    EmitFlows(exporter, exports, s, done);
    done := done + FlowOps(exports);
    records, drain := TakeDrops(drops, statusOf);
    EmitDrops(exporter, records, s, done);
    done := done + DropOps(records);
    RunSnoc(s, done, IpfixRuns.Flush(nowS));
    exporter.Flush(nowS);
  }

  // ---- totals -----------------------------------------------------------------------

  /** Which records a total is over: the flow records of one flow, or all drop records.
      Flow records have forwarding status 0, drop records 128 or more. */
  datatype Selection = FlowsOf(key: FlowKey) | AllDrops

  predicate Emits(x: Selection, e: Emission) {
    match x
    case FlowsOf(k) => e.status == 0 && e.key == k
    case AllDrops => e.status != 0
  }

  /** The same as far as a collector can tell. */
  predicate Shows(x: Selection, o: Observation) {
    match x
    case FlowsOf(k) => o.status == 0 && Identifies(o, k)
    case AllDrops => o.status != 0
  }

  function SampleCounter(c: Counter, e: Emission): nat { if c == PacketCount then PacketsOf(e) else BytesOf(e) }

  /** Packets (octets) emitted in the selected records. */
  function Emitted(c: Counter, samples: seq<Sample>, x: Selection): nat {
    if |samples| == 0 then 0
    else
      var s := samples[|samples| - 1];
      Emitted(c, samples[..|samples| - 1], x) + if Emits(x, s.e) then SampleCounter(c, s.e) else 0
  }

  /** Packets (octets) a collector adds up over them. */
  function Collected(c: Counter, os: seq<Observation>, x: Selection): nat {
    if |os| == 0 then 0
    else
      var o := os[|os| - 1];
      Collected(c, os[..|os| - 1], x) + if Shows(x, o) then (if c == PacketCount then o.packets else o.bytes) else 0
  }

  lemma {:induction false} EmittedAppend(c: Counter, a: seq<Sample>, b: seq<Sample>, x: Selection)
    ensures Emitted(c, a + b, x) == Emitted(c, a, x) + Emitted(c, b, x)
    decreases |b|
  {
    hide Emits;
    if |b| == 0 {
      assert a + b == a;
    } else {
      assert (a + b)[..|a + b| - 1] == a + b[..|b| - 1];
      EmittedAppend(c, a, b[..|b| - 1], x);
    }
  }

  /** Sending one family before the other changes no total. */
  lemma {:induction false} EmittedByFamily(c: Counter, samples: seq<Sample>, x: Selection)
    ensures Emitted(c, IpfixRuns.Only(samples, true), x) + Emitted(c, IpfixRuns.Only(samples, false), x)
         == Emitted(c, samples, x)
  {
    hide SampleCounter, Emits;
    if |samples| == 0 {
    } else {
      var init, s := samples[..|samples| - 1], samples[|samples| - 1];
      EmittedByFamily(c, init, x);
      var mine := IpfixRuns.Only(init, IsV4(s));
      assert (mine + [s])[..|mine|] == mine;
    }
  }

  /** For canonical flows, and for drops of any key, the collector adds up exactly what
      was emitted. */
  lemma {:induction false} CollectedIsEmitted(c: Counter, samples: seq<Sample>, x: Selection)
    requires x.FlowsOf? ==> Canonical(x.key)
    requires forall s | s in samples :: s.e.status == 0 ==> Canonical(s.e.key)
    ensures Collected(c, IpfixRuns.ObservedAll(samples), x) == Emitted(c, samples, x)
  {
    hide Observed, Canonical, Identifies;
    if |samples| == 0 {
    } else {
      var init, s := samples[..|samples| - 1], samples[|samples| - 1];
      CollectedIsEmitted(c, init, x);
      var os := IpfixRuns.ObservedAll(samples);
      assert os[..|os| - 1] == IpfixRuns.ObservedAll(init) && os[|os| - 1] == Observed(s);
      ObservedCounters(s);
      assert s in samples;
      if s.e.status == 0 && x.FlowsOf? {
        SameFlow(s, x.key);
      }
    }
  }

  lemma ObservedCounters(s: Sample)
    ensures Observed(s).status == s.e.status && Observed(s).packets == PacketsOf(s.e) && Observed(s).bytes == BytesOf(s.e)
  {
  }

  /** An observation identifies no other canonical flow. */
  lemma SameFlow(s: Sample, k: FlowKey)
    requires Canonical(s.e.key) && Canonical(k)
    ensures Identifies(Observed(s), k) <==> s.e.key == k
  {
    KeyRecovered(s);
  }

  /** All samples emitted in a run, in order. */
  function Samples(offsetMs: U64, ops: seq<IpfixRuns.Op>): seq<Sample> {
    if |ops| == 0 then []
    else
      var init, op := ops[..|ops| - 1], ops[|ops| - 1];
      match op
      case Emit(e) => Samples(offsetMs, init) + [Sample(e, IpfixRuns.Intended(offsetMs, init).offsetMs)]
      case _ => Samples(offsetMs, init)
  }

  /** Flushed and pending samples are together the samples emitted. */
  lemma {:induction false} FlushedAndPending(c: Counter, offsetMs: U64, ops: seq<IpfixRuns.Op>, x: Selection)
    ensures var i := IpfixRuns.Intended(offsetMs, ops);
      && Emitted(c, i.flushed, x) + Emitted(c, i.pending, x) == Emitted(c, Samples(offsetMs, ops), x)
      && (forall s | s in i.flushed || s in i.pending :: s in Samples(offsetMs, ops))
  {
    hide Emitted, IpfixRuns.Only;
    if |ops| == 0 {
      NothingEmitted(c, x);
    } else {
      var init, op := ops[..|ops| - 1], ops[|ops| - 1];
      FlushedAndPending(c, offsetMs, init, x);
      var i := IpfixRuns.Intended(offsetMs, init);
      match op
      case Emit(e) =>
        var s := Sample(e, i.offsetMs);
        EmittedAppend(c, i.pending, [s], x);
        EmittedAppend(c, Samples(offsetMs, init), [s], x);
      case Flush(_) =>
        var four, six := IpfixRuns.Only(i.pending, true), IpfixRuns.Only(i.pending, false);
        EmittedByFamily(c, i.pending, x);
        EmittedAppend(c, i.flushed, four, x);
        EmittedAppend(c, i.flushed + four, six, x);
        NothingEmitted(c, x);
        OnlyFrom(i.pending, true);
        OnlyFrom(i.pending, false);
      case SetOffset(_) =>
      case SendTemplates(_) =>
    }
  }

  lemma NothingEmitted(c: Counter, x: Selection)
    ensures Emitted(c, [], x) == 0
  {
  }

  lemma {:induction false} OnlyFrom(samples: seq<Sample>, v4: bool)
    ensures forall s | s in IpfixRuns.Only(samples, v4) :: s in samples
  {
    if |samples| == 0 {
    } else {
      OnlyFrom(samples[..|samples| - 1], v4);
    }
  }

  // ---- the exports of a lifecycle run ------------------------------------------------

  /** The flow records among the emissions of a run. */
  function FlowRecords(samples: seq<Sample>): seq<Emission> {
    if |samples| == 0 then []
    else
      var init, s := FlowRecords(samples[..|samples| - 1]), samples[|samples| - 1];
      if s.e.status == 0 then init + [s.e] else init
  }

  function LogEmissions(log: seq<LifecycleMachine.Logged>): (es: seq<Emission>)
    ensures |es| == |log|
  {
    seq(|log|, i requires 0 <= i < |log| => FlowEmission(log[i].out))
  }

  /** Totals over emissions alone. */
  function Total(c: Counter, es: seq<Emission>, k: FlowKey): nat {
    if |es| == 0 then 0
    else
      var e := es[|es| - 1];
      Total(c, es[..|es| - 1], k) + if e.key == k then SampleCounter(c, e) else 0
  }

  lemma {:induction false} EmittedIsTotal(c: Counter, samples: seq<Sample>, k: FlowKey)
    ensures Emitted(c, samples, FlowsOf(k)) == Total(c, FlowRecords(samples), k)
  {
    if |samples| == 0 {
    } else {
      var init, s := samples[..|samples| - 1], samples[|samples| - 1];
      EmittedIsTotal(c, init, k);
      var es := FlowRecords(init);
      assert (es + [s.e])[..|es|] == es;
    }
  }

  lemma {:induction false} TotalIsExported(c: Counter, log: seq<LifecycleMachine.Logged>, k: FlowKey)
    ensures Total(c, LogEmissions(log), k) == LifecycleMachine.Exported(c, log, k)
  {
    if |log| == 0 {
    } else {
      var es := LogEmissions(log);
      TotalIsExported(c, log[..|log| - 1], k);
      assert es[..|es| - 1] == LogEmissions(log[..|log| - 1]);
    }
  }

  lemma {:induction false} RecordsFrom(samples: seq<Sample>)
    ensures forall s | s in samples && s.e.status == 0 :: s.e in FlowRecords(samples)
  {
    if |samples| == 0 {
    } else {
      RecordsFrom(samples[..|samples| - 1]);
    }
  }

  /** Keys put in the map by the dataplane are all the lifecycle ever exports. */
  ghost predicate CanonicalWorld(w: LifecycleMachine.World) {
    && (forall k | k in w.kernel :: Canonical(k))
    && (forall k | k in w.todo :: Canonical(k))
    && (forall l | l in w.log :: Canonical(l.out.key))
  }

  lemma CanonicalStep(cfg: LifecycleMachine.Config, w: LifecycleMachine.World, s: LifecycleMachine.Step)
    requires LifecycleMachine.Enabled(cfg, w, s) && CanonicalWorld(w) && (s.Packet? ==> Canonical(s.key))
    ensures CanonicalWorld(LifecycleMachine.Take(cfg, w, s))
  {
    hide Canonical, LifecycleMachine.Counted, LifecycleMachine.Cur, LifecycleMachine.AfterVisit, LifecycleMachine.Bucket;
    if s.Visit? {
      LifecycleMachine.VisitEffect(cfg, w, s.key);
    }
  }

  lemma {:induction false} CanonicalRun(cfg: LifecycleMachine.Config, steps: seq<LifecycleMachine.Step>)
    requires forall s | s in steps :: s.Packet? ==> Canonical(s.key)
    ensures var r := LifecycleMachine.Run(cfg, steps); r.Some? ==> CanonicalWorld(r.value)
  {
    hide LifecycleMachine.Take, LifecycleMachine.Enabled, Canonical;
    if |steps| == 0 {
    } else {
      var init, s := steps[..|steps| - 1], steps[|steps| - 1];
      assert forall x | x in init :: x in steps;
      CanonicalRun(cfg, init);
      var r := LifecycleMachine.Run(cfg, init);
      if r.Some? && LifecycleMachine.Enabled(cfg, r.value, s) {
        assert s in steps;
        CanonicalStep(cfg, r.value, s);
      }
    }
  }

  // ---- main result ----------------------------------------------------------------------

  /** Take any run of the lifecycle against packets, evictions and faults, and any run
      of the exporter after startup whose flow records are that run's exports, with
      drop records in between. A collector that decodes the datagrams adds up, for
      every flow, what was exported but is not waiting for a flush; so at most what was
      really counted for it, unless the agent forgot the flow. All drop records sent
      add up as well. */
  lemma {:induction false} CollectorNeverOverCounts(
      cfg: LifecycleMachine.Config, steps: seq<LifecycleMachine.Step>, w: LifecycleMachine.World,
      domain: U32, time: U32, offsetMs: U64, ops: seq<IpfixRuns.Op>, c: Counter, k: FlowKey)
    requires LifecycleMachine.Run(cfg, steps) == Some(w)
    requires forall s | s in steps :: s.Packet? ==> Canonical(s.key)
    requires FlowRecords(Samples(offsetMs, ops)) == LogEmissions(w.log)
    requires Canonical(k)
    ensures var r := Collector.ReceiveAll(Collector.EMPTY_SESSION, IpfixRuns.Run(IpfixRuns.Started(domain, time, offsetMs), ops).sent);
      && r.Some?
      && var os, pending := IpfixRuns.InterpretAll(Collector.AllRecords(r.value.log)), IpfixRuns.Intended(offsetMs, ops).pending;
      && Collected(c, os, FlowsOf(k)) + Emitted(c, pending, FlowsOf(k)) == LifecycleMachine.Exported(c, w.log, k)
      && (k !in w.torn ==> Collected(c, os, FlowsOf(k)) <= LifecycleMachine.Counted(c, w, k))
      && Collected(c, os, AllDrops) + Emitted(c, pending, AllDrops) == Emitted(c, Samples(offsetMs, ops), AllDrops)
  {
    hide *;
    IpfixRuns.RunRoundTrip(domain, time, offsetMs, ops);
    CanonicalRun(cfg, steps);
    var samples, i := Samples(offsetMs, ops), IpfixRuns.Intended(offsetMs, ops);
    CanonicalSamples(w, samples);
    FlushedAndPending(c, offsetMs, ops, FlowsOf(k));
    FlushedAndPending(c, offsetMs, ops, AllDrops);
    CollectedIsEmitted(c, i.flushed, FlowsOf(k));
    CollectedIsEmitted(c, i.flushed, AllDrops);
    EmittedIsTotal(c, samples, k);
    TotalIsExported(c, w.log, k);
    LifecycleRuns.NeverOverCount(cfg, steps, c, k);
  }

  lemma CanonicalSamples(w: LifecycleMachine.World, samples: seq<Sample>)
    requires CanonicalWorld(w) && FlowRecords(samples) == LogEmissions(w.log)
    ensures forall s | s in samples :: s.e.status == 0 ==> Canonical(s.e.key)
  {
    hide Canonical, FlowRecords;
    RecordsFrom(samples);
    forall s | s in samples && s.e.status == 0
      ensures Canonical(s.e.key)
    {
      var j :| 0 <= j < |w.log| && LogEmissions(w.log)[j] == s.e;
      assert w.log[j] in w.log;
    }
  }
}
