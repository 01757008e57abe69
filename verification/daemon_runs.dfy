/** The daemon as a whole: packets and drops, lifecycle passes and drains, and the
    exporter, in one run. */
module DaemonRuns {
  import opened Words
  import opened Flow
  import opened IpfixExporter
  import opened IpfixDecoding
  import opened IpfixObservations
  import opened Pipeline
  import Collector
  import Counting
  import Drops
  import IpfixRuns
  import Lifecycle
  import LifecycleMachine
  import LifecycleRuns

  type Config = LifecycleMachine.Config

  /** A tick begins by refreshing the clock anchor, exports while it visits flows, then
      drains drop records one after another, and ends with a flush. Packets, evictions
      and drops come any time. */
  datatype Step =
    | Kernel(step: LifecycleMachine.Step)
    | Trace(trace: Counting.Step<Drops.DropKey>)
    | BeginTick(now: U64, offsetMs: U64)
    | Visit(key: FlowKey)
    | EndPass
    | Drain(drop: DropRecord)
    | EndTick(nowS: U32)

  /** `ops` is what the exporter was asked for; the current tick's part begins at
      `tickStart`, with the anchor `offsetMs`. The tick is `draining` once its pass has
      ended, and `drained` are its drop records. */
  datatype System = System(
    world: LifecycleMachine.World,
    tracer: Counting.State<Drops.DropKey>,
    ops: seq<IpfixRuns.Op>,
    tickStart: nat,
    offsetMs: U64,
    draining: bool,
    drained: seq<DropRecord>)

  function Start(cpus: nat): System {
    System(LifecycleMachine.START, Counting.Start(cpus), [], 0, 0, false, [])
  }

  predicate BetweenTicks(s: System) { s.world.phase.Resting? && !s.draining }

  /** The lifecycle's part in a step, if it has one. */
  function Inner(step: Step): Option<LifecycleMachine.Step> {
    match step
    case Kernel(s) => Some(s)
    case BeginTick(now, _) => Some(LifecycleMachine.Begin(now))
    case Visit(k) => Some(LifecycleMachine.Visit(k))
    case EndPass => Some(LifecycleMachine.End)
    case _ => None
  }

  /** The dataplane writes canonical keys, a drain returns what the drop map holds, and
      drop reasons map to forwarding statuses from 128 on. */
  predicate Enabled(cfg: Config, s: System, step: Step) {
    && (Inner(step).Some? ==> LifecycleMachine.Enabled(cfg, s.world, Inner(step).value))
    && match step
       case Kernel(inner) =>
         !inner.Begin? && !inner.Visit? && !inner.End? && (inner.Packet? ==> Canonical(inner.key))
       case Trace(t) => !t.Drain? && Counting.Enabled(s.tracer, t)
       case BeginTick(_, _) => !s.draining
       case Drain(d) =>
         s.draining && d.status >= 128 && Counting.Enabled(s.tracer, Counting.Drain(d.key))
         && d.value.packets == s.tracer.objs[s.tracer.table[d.key]].packets
       case EndTick(_) => s.draining
       case _ => true
  }

  function Take(cfg: Config, s: System, step: Step): System
    requires Enabled(cfg, s, step)
  {
    var w := if Inner(step).Some? then LifecycleMachine.Take(cfg, s.world, Inner(step).value) else s.world;
    match step
    case Kernel(_) => s.(world := w)
    case Trace(t) => s.(tracer := Counting.Take(s.tracer, t))
    case BeginTick(_, offsetMs) =>
      s.(world := w, ops := s.ops + [IpfixRuns.SetOffset(offsetMs)], tickStart := |s.ops|, offsetMs := offsetMs, drained := [])
    case Visit(_) =>
      var logged := |w.log| > |s.world.log|;
      s.(world := w, ops := if logged then s.ops + [IpfixRuns.Emit(FlowEmission(w.log[|w.log| - 1].out))] else s.ops)
    case EndPass => s.(world := w, draining := true)
    case Drain(d) =>
      s.(tracer := Counting.Take(s.tracer, Counting.Drain(d.key)), drained := s.drained + [d],
         ops := s.ops + [IpfixRuns.Emit(DropEmission(d))])
    case EndTick(nowS) => s.(draining := false, ops := s.ops + [IpfixRuns.Flush(nowS)])
  }

  function Run(cfg: Config, cpus: nat, steps: seq<Step>): Option<System> {
    if |steps| == 0 then Some(Start(cpus))
    else
      match Run(cfg, cpus, steps[..|steps| - 1])
      case None => None
      case Some(s) => if Enabled(cfg, s, steps[|steps| - 1]) then Some(Take(cfg, s, steps[|steps| - 1])) else None
  }

  /** The lifecycle's part of a run. */
  function InnerAll(steps: seq<Step>): seq<LifecycleMachine.Step> {
    if |steps| == 0 then []
    else
      var init, inner := InnerAll(steps[..|steps| - 1]), Inner(steps[|steps| - 1]);
      if inner.Some? then init + [inner.value] else init
  }

  lemma InnerSnoc(cfg: Config, inner: seq<LifecycleMachine.Step>, s: LifecycleMachine.Step)
    requires var r := LifecycleMachine.Run(cfg, inner); r.Some? && LifecycleMachine.Enabled(cfg, r.value, s)
    ensures LifecycleMachine.Run(cfg, inner + [s])
         == Some(LifecycleMachine.Take(cfg, LifecycleMachine.Run(cfg, inner).value, s))
  {
    assert (inner + [s])[..|inner|] == inner;
  }

  lemma {:induction false} RunIsALifecycleRun(cfg: Config, cpus: nat, steps: seq<Step>)
    ensures var r := Run(cfg, cpus, steps); r.Some? ==>
      && LifecycleMachine.Run(cfg, InnerAll(steps)) == Some(r.value.world)
      && (forall x | x in InnerAll(steps) :: x.Packet? ==> Canonical(x.key))
  {
    hide LifecycleMachine.Take, LifecycleMachine.Enabled, LifecycleMachine.Run, Canonical, Counting.Take, Counting.Enabled;
    if |steps| == 0 {
      NoSteps(cfg);
    } else {
      var init, step := steps[..|steps| - 1], steps[|steps| - 1];
      RunIsALifecycleRun(cfg, cpus, init);
      var r := Run(cfg, cpus, init);
      if r.Some? && Enabled(cfg, r.value, step) && Inner(step).Some? {
        InnerSnoc(cfg, InnerAll(init), Inner(step).value);
      }
    }
  }

  lemma NoSteps(cfg: Config)
    ensures LifecycleMachine.Run(cfg, []) == Some(LifecycleMachine.START)
  {
  }

  /** The tracer's part of a run. */
  function TraceAll(steps: seq<Step>): seq<Counting.Step<Drops.DropKey>> {
    if |steps| == 0 then []
    else
      var init := TraceAll(steps[..|steps| - 1]);
      match steps[|steps| - 1]
      case Trace(t) => init + [t]
      case Drain(d) => init + [Counting.Drain(d.key)]
      case _ => init
  }

  lemma TraceSnoc(cpus: nat, traces: seq<Counting.Step<Drops.DropKey>>, t: Counting.Step<Drops.DropKey>)
    requires var r := Counting.Run(cpus, traces); r.Some? && Counting.Enabled(r.value, t)
    ensures Counting.Run(cpus, traces + [t]) == Some(Counting.Take(Counting.Run(cpus, traces).value, t))
  {
    assert (traces + [t])[..|traces|] == traces;
  }

  lemma {:induction false} RunIsATracerRun(cfg: Config, cpus: nat, steps: seq<Step>)
    ensures var r := Run(cfg, cpus, steps); r.Some? ==> Counting.Run(cpus, TraceAll(steps)) == Some(r.value.tracer)
  {
    hide LifecycleMachine.Take, LifecycleMachine.Enabled, Counting.Run, Canonical, Counting.Take, Counting.Enabled;
    if |steps| == 0 {
      NoTraces(cpus);
    } else {
      var init, step := steps[..|steps| - 1], steps[|steps| - 1];
      RunIsATracerRun(cfg, cpus, init);
      var r := Run(cfg, cpus, init);
      if r.Some? && Enabled(cfg, r.value, step) {
        match step
        case Trace(t) => TraceSnoc(cpus, TraceAll(init), t);
        case Drain(d) => TraceSnoc(cpus, TraceAll(init), Counting.Drain(d.key));
        case _ =>
      }
    }
  }

  lemma NoTraces(cpus: nat)
    ensures Counting.Run<Drops.DropKey>(cpus, []) == Some(Counting.Start(cpus))
  {
  }

  // ---- the exporter's part ---------------------------------------------------------

  /** Flow records, and drop records, among the requests to the exporter. */
  function FlowEmits(ops: seq<IpfixRuns.Op>): seq<Emission> {
    if |ops| == 0 then []
    else
      var init, op := FlowEmits(ops[..|ops| - 1]), ops[|ops| - 1];
      if op.Emit? && op.e.status == 0 then init + [op.e] else init
  }

  function DropPackets(ops: seq<IpfixRuns.Op>): nat {
    if |ops| == 0 then 0
    else
      var op := ops[|ops| - 1];
      DropPackets(ops[..|ops| - 1]) + if op.Emit? && op.e.status != 0 then PacketsOf(op.e) else 0
  }

  lemma EmitsSnoc(ops: seq<IpfixRuns.Op>, op: IpfixRuns.Op)
    ensures FlowEmits(ops + [op]) == FlowEmits(ops) + if op.Emit? && op.e.status == 0 then [op.e] else []
    ensures DropPackets(ops + [op]) == DropPackets(ops) + if op.Emit? && op.e.status != 0 then PacketsOf(op.e) else 0
  {
    assert (ops + [op])[..|ops|] == ops;
  }

  lemma {:induction false} EmitsAreRecords(offsetMs: U64, ops: seq<IpfixRuns.Op>)
    ensures FlowRecords(Samples(offsetMs, ops)) == FlowEmits(ops)
    ensures Emitted(PacketCount, Samples(offsetMs, ops), AllDrops) == DropPackets(ops)
  {
    hide IpfixRuns.Intended, PacketsOf;
    if |ops| == 0 {
    } else {
      var init, op := ops[..|ops| - 1], ops[|ops| - 1];
      EmitsAreRecords(offsetMs, init);
      if op.Emit? {
        var samples, s := Samples(offsetMs, init), Sample(op.e, IpfixRuns.Intended(offsetMs, init).offsetMs);
        assert (samples + [s])[..|samples|] == samples;
      }
    }
  }

  /** Flow records asked for are the lifecycle's exports, and drop records what drains
      returned. */
  predicate Linked(s: System) {
    && FlowEmits(s.ops) == LogEmissions(s.world.log)
    && DropPackets(s.ops) == Counting.Exported(s.tracer)
  }

  /** During a tick the exporter has been asked for the anchor, the pass's exports and
      the drop records so far; between ticks nothing is pending. */
  predicate InTick(s: System) {
    && (s.draining ==> s.world.phase.Resting?)
    && (BetweenTicks(s) ==> s.ops == [] || s.ops[|s.ops| - 1].Flush?)
    && (!BetweenTicks(s) ==>
          s.tickStart <= |s.ops|
          && s.ops[s.tickStart..]
               == [IpfixRuns.SetOffset(s.offsetMs)] + FlowOps(s.world.pass.exports) + DropOps(s.drained))
    && (!s.draining && !s.world.phase.Resting? ==> s.drained == [])
  }

  /** A visit logs what it exports. */
  lemma VisitAppends(cfg: Config, w: LifecycleMachine.World, k: FlowKey)
    requires LifecycleMachine.Enabled(cfg, w, LifecycleMachine.Visit(k))
    ensures !w.phase.Resting?
    ensures var w' := LifecycleMachine.Take(cfg, w, LifecycleMachine.Visit(k));
      && !w'.phase.Resting?
      && if |w'.log| > |w.log|
         then |w'.log| == |w.log| + 1 && w'.log[..|w.log|] == w.log
              && w'.pass.exports == w.pass.exports + [w'.log[|w.log|].out]
         else w'.log == w.log && w'.pass.exports == w.pass.exports
  {
    hide Lifecycle.Idle, Lifecycle.DeltaOf, Lifecycle.Changed, LifecycleMachine.Booked;
  }

  /** Steps of the kernel touch neither the log nor the exports. */
  lemma KernelKeeps(cfg: Config, w: LifecycleMachine.World, s: LifecycleMachine.Step)
    requires LifecycleMachine.Enabled(cfg, w, s) && !s.Begin? && !s.Visit? && !s.End?
    ensures var w' := LifecycleMachine.Take(cfg, w, s);
      w'.log == w.log && w'.pass == w.pass && (w'.phase.Resting? <==> w.phase.Resting?)
  {
    hide LifecycleMachine.Bucket, LifecycleMachine.Cur, LifecycleMachine.Counted, LifecycleMachine.Grown,
      LifecycleMachine.Closed, LifecycleMachine.Known;
  }

  lemma KernelLinks(cfg: Config, s: System, inner: LifecycleMachine.Step)
    requires Enabled(cfg, s, Kernel(inner)) && Linked(s) && InTick(s)
    ensures Linked(Take(cfg, s, Kernel(inner))) && InTick(Take(cfg, s, Kernel(inner)))
  {
    hide LifecycleMachine.Take, LifecycleMachine.Enabled, FlowEmits, DropPackets, FlowOps, DropOps, Counting.Exported,
      LogEmissions, Canonical;
    KernelKeeps(cfg, s.world, inner);
  }

  lemma VisitLinks(cfg: Config, s: System, k: FlowKey)
    requires Enabled(cfg, s, Visit(k)) && Linked(s) && InTick(s)
    ensures Linked(Take(cfg, s, Visit(k))) && InTick(Take(cfg, s, Visit(k)))
  {
    hide LifecycleMachine.Take, LifecycleMachine.Enabled, FlowEmits, DropPackets, FlowEmission, Counting.Exported, PacketsOf;
    VisitAppends(cfg, s.world, k);
    var s' := Take(cfg, s, Visit(k));
    var log, log' := s.world.log, s'.world.log;
    if |log'| > |log| {
      var op := IpfixRuns.Emit(FlowEmission(log'[|log|].out));
      EmitsSnoc(s.ops, op);
      Statuses(log'[|log|].out);
      assert LogEmissions(log') == LogEmissions(log) + [FlowEmission(log'[|log|].out)];
      assert s'.ops[s.tickStart..] == s.ops[s.tickStart..] + [op];
      assert DropOps([]) == [];
      assert FlowOps(s'.world.pass.exports) == FlowOps(s.world.pass.exports) + [op];
    }
  }

  lemma Statuses(x: Lifecycle.Export)
    ensures FlowEmission(x).status == 0
  {
  }

  lemma BeginLinks(cfg: Config, s: System, now: U64, offsetMs: U64)
    requires Enabled(cfg, s, BeginTick(now, offsetMs)) && Linked(s)
    ensures Linked(Take(cfg, s, BeginTick(now, offsetMs))) && InTick(Take(cfg, s, BeginTick(now, offsetMs)))
  {
    hide FlowEmits, DropPackets, Counting.Exported;
    var op := IpfixRuns.SetOffset(offsetMs);
    EmitsSnoc(s.ops, op);
    assert (s.ops + [op])[|s.ops|..] == [op];
    assert [op] + FlowOps([]) + DropOps([]) == [op];
  }

  lemma EndPassLinks(cfg: Config, s: System)
    requires Enabled(cfg, s, EndPass) && Linked(s) && InTick(s)
    ensures Linked(Take(cfg, s, EndPass)) && InTick(Take(cfg, s, EndPass))
  {
    hide FlowEmits, DropPackets, Counting.Exported, FlowOps, DropOps, LogEmissions, LifecycleMachine.Dropped;
  }

  lemma DrainLinks(cfg: Config, s: System, d: DropRecord)
    requires Enabled(cfg, s, Drain(d)) && Linked(s) && InTick(s) && Counting.Consistent(s.tracer)
    ensures Linked(Take(cfg, s, Drain(d))) && InTick(Take(cfg, s, Drain(d)))
  {
    Counting.ReportsStep(s.tracer, Counting.Drain(d.key));
    DropCounts(d);
    hide FlowEmits, DropPackets, Counting.Exported, Counting.Take, Counting.Late, Counting.Consistent, DropEmission,
      LogEmissions, FlowOps, PacketsOf;
    var op, s' := IpfixRuns.Emit(DropEmission(d)), Take(cfg, s, Drain(d));
    EmitsSnoc(s.ops, op);
    assert s'.ops[s.tickStart..] == s.ops[s.tickStart..] + [op];
    assert DropOps(s'.drained) == DropOps(s.drained) + [op];
  }

  lemma DropCounts(d: DropRecord)
    ensures PacketsOf(DropEmission(d)) == d.value.packets && DropEmission(d).status == d.status
  {
  }

  lemma EndTickLinks(cfg: Config, s: System, nowS: U32)
    requires Enabled(cfg, s, EndTick(nowS)) && Linked(s) && InTick(s)
    ensures Linked(Take(cfg, s, EndTick(nowS))) && InTick(Take(cfg, s, EndTick(nowS)))
  {
    hide FlowEmits, DropPackets, Counting.Exported, FlowOps, DropOps, LogEmissions;
    EmitsSnoc(s.ops, IpfixRuns.Flush(nowS));
  }

  lemma TraceLinks(cfg: Config, s: System, t: Counting.Step<Drops.DropKey>)
    requires Enabled(cfg, s, Trace(t)) && Linked(s) && InTick(s) && Counting.Consistent(s.tracer)
    ensures Linked(Take(cfg, s, Trace(t))) && InTick(Take(cfg, s, Trace(t)))
  {
    hide FlowEmits, DropPackets, Counting.Exported, FlowOps, DropOps, LogEmissions, Counting.Take, Counting.Enabled,
      Counting.Consistent, Counting.Late;
    Counting.ReportsStep(s.tracer, t);
  }

  lemma LinksStep(cfg: Config, s: System, step: Step)
    requires Enabled(cfg, s, step) && Linked(s) && InTick(s) && Counting.Consistent(s.tracer)
    ensures Linked(Take(cfg, s, step)) && InTick(Take(cfg, s, step))
  {
    hide *;
    match step
    case Kernel(inner) => KernelLinks(cfg, s, inner);
    case Trace(t) => TraceLinks(cfg, s, t);
    case BeginTick(now, offsetMs) => BeginLinks(cfg, s, now, offsetMs);
    case Visit(k) => VisitLinks(cfg, s, k);
    case EndPass => EndPassLinks(cfg, s);
    case Drain(d) => DrainLinks(cfg, s, d);
    case EndTick(nowS) => EndTickLinks(cfg, s, nowS);
  }

  lemma {:induction false} RunLinks(cfg: Config, cpus: nat, steps: seq<Step>)
    ensures var r := Run(cfg, cpus, steps); r.Some? ==> Linked(r.value) && InTick(r.value)
  {
    hide Linked, InTick, Take, Enabled, Counting.Run;
    if |steps| == 0 {
      StartLinks(cpus);
    } else {
      var init, step := steps[..|steps| - 1], steps[|steps| - 1];
      RunLinks(cfg, cpus, init);
      RunIsATracerRun(cfg, cpus, init);
      Counting.RunConserves(cpus, TraceAll(init));
      var r := Run(cfg, cpus, init);
      if r.Some? && Enabled(cfg, r.value, step) {
        LinksStep(cfg, r.value, step);
      }
    }
  }

  lemma StartLinks(cpus: nat)
    ensures Linked(Start(cpus)) && InTick(Start(cpus))
  {
  }

  // ---- main results -----------------------------------------------------------------

  /** However traffic and drops interleave with it, a tick asks the exporter for exactly
      what `Tick` asks it for, and leaves the tracker as `Tick` does, given what the walk
      delivered, which is of distinct keys, and what the drain did. */
  lemma {:induction false} TickIsTheDaemons(cfg: Config, cpus: nat, steps: seq<Step>, nowS: U32)
    ensures var r := Run(cfg, cpus, steps); r.Some? && Enabled(cfg, r.value, EndTick(nowS)) ==>
      var s' := Take(cfg, r.value, EndTick(nowS));
      && r.value.tickStart <= |s'.ops|
      && s'.ops[r.value.tickStart..] == TickOps(r.value.offsetMs, r.value.world.pass.exports, r.value.drained, nowS)
    ensures var r := Run(cfg, cpus, steps); r.Some? && Enabled(cfg, r.value, EndPass) ==>
      var w := r.value.world;
      && Lifecycle.DistinctKeys(w.order)
      && Take(cfg, r.value, EndPass).world.pass
           == Lifecycle.PassResult(cfg.timeouts, w.phase.now, w.before, w.order)
  {
    hide *;
    RunLinks(cfg, cpus, steps);
    RunIsALifecycleRun(cfg, cpus, steps);
    LifecycleRuns.PassIsTheTrackers(cfg, InnerAll(steps));
    var r := Run(cfg, cpus, steps);
    if r.Some? && Enabled(cfg, r.value, EndTick(nowS)) {
      EndTickAsks(cfg, r.value, nowS);
    }
    if r.Some? && Enabled(cfg, r.value, EndPass) {
      EndPassTakes(cfg, r.value);
    }
  }

  lemma EndTickAsks(cfg: Config, s: System, nowS: U32)
    requires Enabled(cfg, s, EndTick(nowS)) && InTick(s)
    ensures var s' := Take(cfg, s, EndTick(nowS));
      && s.tickStart <= |s'.ops|
      && s'.ops[s.tickStart..] == TickOps(s.offsetMs, s.world.pass.exports, s.drained, nowS)
  {
    hide FlowOps, DropOps;
    var s' := Take(cfg, s, EndTick(nowS));
    assert s'.ops[s.tickStart..] == s.ops[s.tickStart..] + [IpfixRuns.Flush(nowS)];
  }

  lemma EndPassTakes(cfg: Config, s: System)
    requires Enabled(cfg, s, EndPass)
    ensures LifecycleMachine.Enabled(cfg, s.world, LifecycleMachine.End) && s.world.phase.Exporting?
    ensures Take(cfg, s, EndPass).world == LifecycleMachine.Take(cfg, s.world, LifecycleMachine.End)
  {
  }

  /** What a collector of all the daemon's datagrams adds up over the selected records;
      None if it rejects one. */
  function AtCollector(domain: U32, time: U32, offsetMs: U64, s: System, c: Counter, x: Selection): Option<nat> {
    match Collector.ReceiveAll(Collector.EMPTY_SESSION, IpfixRuns.Run(IpfixRuns.Started(domain, time, offsetMs), s.ops).sent)
    case None => None
    case Some(session) => Some(Collected(c, IpfixRuns.InterpretAll(Collector.AllRecords(session.log)), x))
  }

  lemma AtCollectorMeans(domain: U32, time: U32, offsetMs: U64, s: System, c: Counter, x: Selection)
    ensures var r := Collector.ReceiveAll(Collector.EMPTY_SESSION, IpfixRuns.Run(IpfixRuns.Started(domain, time, offsetMs), s.ops).sent);
      AtCollector(domain, time, offsetMs, s, c, x)
      == if r.Some? then Some(Collected(c, IpfixRuns.InterpretAll(Collector.AllRecords(r.value.log)), x)) else None
  {
    hide Collector.ReceiveAll, Collected, IpfixRuns.InterpretAll, IpfixRuns.Run;
  }

  lemma NothingPending(offsetMs: U64, s: System)
    requires InTick(s) && BetweenTicks(s)
    ensures IpfixRuns.Intended(offsetMs, s.ops).pending == []
  {
  }

  lemma LinkedMeans(s: System)
    requires Linked(s)
    ensures FlowEmits(s.ops) == LogEmissions(s.world.log) && DropPackets(s.ops) == Counting.Exported(s.tracer)
  {
  }

  /** In every run of the daemon the collector accepts everything; what it adds up for a
      flow exceeds what was counted for it only if the agent forgot the flow after a
      stopped walk or a lost delete; and between ticks it is all that was exported. */
  lemma {:induction false} DaemonNeverOverCounts(
      cfg: Config, cpus: nat, steps: seq<Step>, domain: U32, time: U32, offsetMs: U64, c: Counter, k: FlowKey)
    requires Canonical(k)
    ensures var r := Run(cfg, cpus, steps); r.Some? ==>
      var w, total := r.value.world, AtCollector(domain, time, offsetMs, r.value, c, FlowsOf(k));
      && total.Some?
      && total.value <= LifecycleMachine.Exported(c, w.log, k)
      && (k !in w.torn ==> total.value <= LifecycleMachine.Counted(c, w, k))
      && (BetweenTicks(r.value) ==> total.value == LifecycleMachine.Exported(c, w.log, k))
  {
    hide *;
    var r := Run(cfg, cpus, steps);
    if r.Some? {
      var s := r.value;
      RunLinks(cfg, cpus, steps);
      RunIsALifecycleRun(cfg, cpus, steps);
      EmitsAreRecords(offsetMs, s.ops);
      LinkedMeans(s);
      CollectorNeverOverCounts(cfg, InnerAll(steps), s.world, domain, time, offsetMs, s.ops, c, k);
      NothingEmitted(c, FlowsOf(k));
      if BetweenTicks(s) {
        NothingPending(offsetMs, s);
      }
      AtCollectorMeans(domain, time, offsetMs, s, c, FlowsOf(k));
    }
  }

  /** Between ticks, for every flow: what the collector adds up, what stale tracker
      values left out, and what is or was in the map unread, is what was counted for it
      and what the agent forgot of it. */
  lemma {:induction false} CollectorConserves(
      cfg: Config, cpus: nat, steps: seq<Step>, domain: U32, time: U32, offsetMs: U64, c: Counter, k: FlowKey)
    requires Canonical(k)
    ensures var r := Run(cfg, cpus, steps); r.Some? && BetweenTicks(r.value) ==>
      var w, total := r.value.world, AtCollector(domain, time, offsetMs, r.value, c, FlowsOf(k));
      && total.Some?
      && total.value + LifecycleMachine.Total(c, w.accounts, k, LifecycleMachine.StalePart)
           + LifecycleMachine.Total(c, w.accounts, k, LifecycleMachine.Due)
           + LifecycleMachine.Total(c, w.accounts, k, LifecycleMachine.Gone)
           == LifecycleMachine.Counted(c, w, k) + LifecycleMachine.Total(c, w.accounts, k, LifecycleMachine.ForgottenPart)
      && (LifecycleMachine.Total(c, w.accounts, k, LifecycleMachine.ForgottenPart) > 0 ==> k in w.torn)
  {
    hide *;
    DaemonNeverOverCounts(cfg, cpus, steps, domain, time, offsetMs, c, k);
    RunIsALifecycleRun(cfg, cpus, steps);
    LifecycleRuns.KeyConservation(cfg, InnerAll(steps), c, k);
  }

  /** In every run of the daemon, the drop packets a collector adds up are at most those
      that drains returned, and so at most the drops counted that had a tuple; between
      ticks they are all that drains returned. */
  lemma {:induction false} DropsNeverOverCount(cfg: Config, cpus: nat, steps: seq<Step>, domain: U32, time: U32, offsetMs: U64)
    ensures var r := Run(cfg, cpus, steps); r.Some? ==>
      var t, total := r.value.tracer, AtCollector(domain, time, offsetMs, r.value, PacketCount, AllDrops);
      && total.Some?
      && total.value <= Counting.Exported(t)
      && Counting.Exported(t) + t.unparsed <= Counting.Parsed(t)
      && (BetweenTicks(r.value) ==> total.value == Counting.Exported(t))
  {
    hide *;
    var r := Run(cfg, cpus, steps);
    if r.Some? {
      var s, k := r.value, SomeKey();
      RunLinks(cfg, cpus, steps);
      RunIsALifecycleRun(cfg, cpus, steps);
      RunIsATracerRun(cfg, cpus, steps);
      Counting.DropsAreConserved(cpus, TraceAll(steps));
      EmitsAreRecords(offsetMs, s.ops);
      LinkedMeans(s);
      CollectorNeverOverCounts(cfg, InnerAll(steps), s.world, domain, time, offsetMs, s.ops, PacketCount, k);
      NothingEmitted(PacketCount, AllDrops);
      if BetweenTicks(s) {
        NothingPending(offsetMs, s);
      }
      AtCollectorMeans(domain, time, offsetMs, s, PacketCount, AllDrops);
    }
  }

  /** A canonical key. */
  function SomeKey(): (k: FlowKey)
    ensures Canonical(k)
  {
    FlowKey(1, INGRESS, 6, 6, Drops.NO_ADDRESS, Drops.NO_ADDRESS, 0, 0, 0, 0)
  }
}
