/** Many CPUs accounting packets to a shared LRU map at once: count, look up, then
    add to the entry found or insert over whatever is there. */
module Counting {
  import opened Words

  // ---- sums -------------------------------------------------------------------

  function SumOf<T>(xs: seq<T>, f: T -> nat): nat {
    if |xs| == 0 then 0 else SumOf(xs[..|xs| - 1], f) + f(xs[|xs| - 1])
  }

  lemma {:induction false} SumUpdate<T>(xs: seq<T>, f: T -> nat, i: nat, x: T)
    requires i < |xs|
    ensures SumOf(xs[i := x], f) + f(xs[i]) == SumOf(xs, f) + f(x)
  {
    var n := |xs| - 1;
    if i < n {
      assert xs[i := x][..n] == xs[..n][i := x];
      SumUpdate(xs[..n], f, i, x);
    } else {
      assert xs[i := x][..n] == xs[..n];
    }
  }

  lemma SumSnoc<T>(xs: seq<T>, f: T -> nat, x: T)
    ensures SumOf(xs + [x], f) == SumOf(xs, f) + f(x)
  {
    assert (xs + [x])[..|xs|] == xs;
  }

  lemma {:induction false} SumAtLeast<T>(xs: seq<T>, f: T -> nat, g: T -> nat)
    requires forall x | x in xs :: f(x) <= g(x)
    ensures SumOf(xs, f) <= SumOf(xs, g)
  {
    if |xs| == 0 {
    } else {
      SumAtLeast(xs[..|xs| - 1], f, g);
    }
  }

  lemma {:induction false} SumAdd<T>(xs: seq<T>, f: T -> nat, g: T -> nat, h: T -> nat)
    requires forall x | x in xs :: f(x) + g(x) == h(x)
    ensures SumOf(xs, f) + SumOf(xs, g) == SumOf(xs, h)
  {
    if |xs| == 0 {
    } else {
      SumAdd(xs[..|xs| - 1], f, g, h);
    }
  }

  // ---- the shared map -----------------------------------------------------------

  /** Where an entry is: in the map, gone from it (evicted, deleted, or overwritten
      by another CPU's insert), or drained with the count the drain returned. */
  datatype Place = Live | Gone | Drained(reported: nat)

  /** A map entry. It keeps collecting adds from CPUs that found it while it was
      still in the map. */
  datatype Obj<K> = Obj(key: K, packets: nat, place: Place)

  /** Where a CPU is in the program: idle, counted but not looked up, holding an
      entry it found, or about to insert. */
  datatype Cpu<K> = Idle | Counted(key: K, n: nat) | Found(id: nat, n: nat) | Missing(key: K, n: nat)

  /** `slots` is each CPU's own count of packets; `unparsed` those it counted but
      has no tuple for; `lost` those whose insert failed. */
  datatype State<!K> = State(
    objs: seq<Obj<K>>,
    table: map<K, nat>,
    cpus: seq<Cpu<K>>,
    slots: seq<nat>,
    unparsed: nat,
    lost: nat)

  datatype Step<K> =
    | Count(cpu: nat, key: K, n: nat)
    | CountUnparsed(cpu: nat)
    | Lookup(cpu: nat)
    | Add(cpu: nat)
    | Insert(cpu: nat, fits: bool)
    | Remove(key: K)
    | Drain(key: K)

  function Start<K>(cpus: nat): State<K> {
    State([], map[], seq(cpus, _ => Idle), seq(cpus, _ => 0), 0, 0)
  }

  predicate Enabled<K>(s: State<K>, step: Step<K>) {
    match step
    case Count(c, _, _) => c < |s.cpus| && c < |s.slots| && s.cpus[c].Idle?
    case CountUnparsed(c) => c < |s.cpus| && c < |s.slots| && s.cpus[c].Idle?
    case Lookup(c) => c < |s.cpus| && s.cpus[c].Counted?
    case Add(c) => c < |s.cpus| && s.cpus[c].Found? && s.cpus[c].id < |s.objs|
    case Insert(c, _) => c < |s.cpus| && s.cpus[c].Missing?
    case Remove(k) => k in s.table && s.table[k] < |s.objs|
    case Drain(k) => k in s.table && s.table[k] < |s.objs|
  }

  /** Take the entry `id` out of the map. */
  function Retire<K>(s: State<K>, k: K, id: nat, place: Place): State<K>
    requires id < |s.objs|
  {
    s.(objs := s.objs[id := s.objs[id].(place := place)], table := s.table - {k})
  }

  function Take<K>(s: State<K>, step: Step<K>): State<K>
    requires Enabled(s, step)
  {
    match step
    case Count(c, k, n) =>
      s.(slots := s.slots[c := s.slots[c] + n], cpus := s.cpus[c := Counted(k, n)])
    case CountUnparsed(c) =>
      s.(slots := s.slots[c := s.slots[c] + 1], unparsed := s.unparsed + 1)
    case Lookup(c) =>
      var p := s.cpus[c];
      s.(cpus := s.cpus[c := if p.key in s.table then Found(s.table[p.key], p.n) else Missing(p.key, p.n)])
    case Add(c) =>
      var p := s.cpus[c];
      s.(objs := s.objs[p.id := s.objs[p.id].(packets := s.objs[p.id].packets + p.n)], cpus := s.cpus[c := Idle])
    case Insert(c, fits) =>
      var p := s.cpus[c];
      if !fits then s.(lost := s.lost + p.n, cpus := s.cpus[c := Idle])
      else
        var s' := if p.key in s.table && s.table[p.key] < |s.objs| then Retire(s, p.key, s.table[p.key], Gone) else s;
        s'.(objs := s'.objs + [Obj(p.key, p.n, Live)], table := s'.table[p.key := |s'.objs|], cpus := s'.cpus[c := Idle])
    case Remove(k) => Retire(s, k, s.table[k], Gone)
    case Drain(k) => Retire(s, k, s.table[k], Drained(s.objs[s.table[k]].packets))
  }

  function Run<K>(cpus: nat, steps: seq<Step<K>>): Option<State<K>> {
    if |steps| == 0 then Some(Start(cpus))
    else
      match Run(cpus, steps[..|steps| - 1])
      case None => None
      case Some(s) => if Enabled(s, steps[|steps| - 1]) then Some(Take(s, steps[|steps| - 1])) else None
  }

  // ---- what the counters say ----------------------------------------------------

  function Packets<K>(o: Obj<K>): nat { o.packets }

  function HeldPackets<K>(o: Obj<K>): nat { if o.place.Live? then o.packets else 0 }

  function RemovedPackets<K>(o: Obj<K>): nat { if o.place.Live? then 0 else o.packets }

  function Reported<K>(o: Obj<K>): nat { if o.place.Drained? then o.place.reported else 0 }

  function DrainedPackets<K>(o: Obj<K>): nat { if o.place.Drained? then o.packets else 0 }

  /** Packets added to a drained entry by CPUs that had found it before the drain. */
  function LatePackets<K>(o: Obj<K>): nat {
    if o.place.Drained? && o.place.reported <= o.packets then o.packets - o.place.reported else 0
  }

  function InFlight<K>(c: Cpu<K>): nat { if c.Idle? then 0 else c.n }

  function Slot(n: nat): nat { n }

  function Parsed<K>(s: State<K>): nat { SumOf(s.slots, Slot) }

  /** Packets in entries of the map, and in entries no longer in it. */
  function Held<K>(s: State<K>): nat { SumOf(s.objs, HeldPackets) }

  function Removed<K>(s: State<K>): nat { SumOf(s.objs, RemovedPackets) }

  /** What drains have returned. */
  function Exported<K>(s: State<K>): nat { SumOf(s.objs, Reported) }

  /** Every packet counted is in an entry, on its way to one, unparsed or lost. */
  predicate Conserved<K>(s: State<K>) {
    SumOf(s.objs, Packets) + SumOf(s.cpus, InFlight) + s.unparsed + s.lost == Parsed(s)
  }

  /** The map's entries are exactly the live ones, each under its own key, and a
      drained entry reported no more than it holds. */
  ghost predicate Consistent<K>(s: State<K>) {
    && |s.cpus| == |s.slots|
    && (forall k | k in s.table :: s.table[k] < |s.objs| && s.objs[s.table[k]].key == k && s.objs[s.table[k]].place.Live?)
    && (forall i | 0 <= i < |s.objs| && s.objs[i].place.Live? :: s.objs[i].key in s.table && s.table[s.objs[i].key] == i)
    && (forall i | 0 <= i < |s.objs| :: Reported(s.objs[i]) <= s.objs[i].packets)
    && (forall c | 0 <= c < |s.cpus| && s.cpus[c].Found? :: s.cpus[c].id < |s.objs|)
  }

  lemma RetireConserves<K>(s: State<K>, k: K, id: nat, place: Place)
    requires id < |s.objs| && Conserved(s)
    ensures Conserved(Retire(s, k, id, place))
  {
    SumUpdate(s.objs, Packets, id, s.objs[id].(place := place));
  }

  lemma ConservedStep<K>(s: State<K>, step: Step<K>)
    requires Enabled(s, step) && Conserved(s) && Consistent(s)
    ensures Conserved(Take(s, step))
  {
    hide SumOf;
    match step
    case Count(c, k, n) =>
      SumUpdate<nat>(s.slots, Slot, c, s.slots[c] + n);
      SumUpdate(s.cpus, InFlight, c, Cpu.Counted(k, n));
    case CountUnparsed(c) =>
      SumUpdate<nat>(s.slots, Slot, c, s.slots[c] + 1);
    case Lookup(c) =>
      SumUpdate(s.cpus, InFlight, c, Take(s, step).cpus[c]);
    case Add(c) =>
      var p := s.cpus[c];
      SumUpdate(s.objs, Packets, p.id, s.objs[p.id].(packets := s.objs[p.id].packets + p.n));
      SumUpdate(s.cpus, InFlight, c, Cpu.Idle);
    case Insert(c, fits) =>
      var p := s.cpus[c];
      SumUpdate(s.cpus, InFlight, c, Cpu.Idle);
      if fits {
        var s' := if p.key in s.table && s.table[p.key] < |s.objs| then Retire(s, p.key, s.table[p.key], Gone) else s;
        if p.key in s.table && s.table[p.key] < |s.objs| {
          RetireConserves(s, p.key, s.table[p.key], Gone);
        }
        SumSnoc(s'.objs, Packets, Obj(p.key, p.n, Live));
      }
    case Remove(k) => RetireConserves(s, k, s.table[k], Gone);
    case Drain(k) => RetireConserves(s, k, s.table[k], Drained(s.objs[s.table[k]].packets));
  }

  lemma RetireConsistent<K>(s: State<K>, k: K, place: Place)
    requires Consistent(s) && k in s.table && !place.Live?
    requires place.Drained? ==> place.reported == s.objs[s.table[k]].packets
    ensures Consistent(Retire(s, k, s.table[k], place))
  {
  }

  lemma InsertConsistent<K>(s: State<K>, c: nat, k: K, n: nat)
    requires Consistent(s) && k !in s.table && c < |s.cpus|
    ensures Consistent(s.(objs := s.objs + [Obj(k, n, Live)], table := s.table[k := |s.objs|], cpus := s.cpus[c := Idle]))
  {
  }

  lemma ProgramConsistent<K>(s: State<K>, step: Step<K>)
    requires Enabled(s, step) && Consistent(s) && !step.Insert? && !step.Remove? && !step.Drain?
    ensures Consistent(Take(s, step))
  {
    match step
    case Count(c, k, n) =>
    case CountUnparsed(c) =>
    case Lookup(c) =>
    case Add(c) =>
  }

  lemma {:induction false} ConsistentStep<K>(s: State<K>, step: Step<K>)
    requires Enabled(s, step) && Consistent(s)
    ensures Consistent(Take(s, step))
  {
    match step
    case Insert(c, fits) =>
      var p := s.cpus[c];
      if !fits {
      } else if p.key in s.table {
        RetireConsistent(s, p.key, Gone);
        InsertConsistent(Retire(s, p.key, s.table[p.key], Gone), c, p.key, p.n);
      } else {
        InsertConsistent(s, c, p.key, p.n);
      }
    case Remove(k) => RetireConsistent(s, k, Gone);
    case Drain(k) => RetireConsistent(s, k, Drained(s.objs[s.table[k]].packets));
    case _ => ProgramConsistent(s, step);
  }

  lemma {:induction false} StartSums<K>(cpus: nat)
    ensures Conserved(Start<K>(cpus)) && Consistent(Start<K>(cpus))
  {
    ZeroSum(Start<K>(cpus).cpus, InFlight);
    ZeroSum(Start<K>(cpus).slots, Slot);
  }

  lemma {:induction false} ZeroSum<T>(xs: seq<T>, f: T -> nat)
    requires forall x | x in xs :: f(x) == 0
    ensures SumOf(xs, f) == 0
  {
    if |xs| == 0 {
    } else {
      ZeroSum(xs[..|xs| - 1], f);
    }
  }

  lemma {:induction false} RunConserves<K>(cpus: nat, steps: seq<Step<K>>)
    ensures var r := Run(cpus, steps); r.Some? ==> Conserved(r.value) && Consistent(r.value)
  {
    hide Conserved, Consistent, Take, Enabled;
    if |steps| == 0 {
      StartSums<K>(cpus);
    } else {
      RunConserves(cpus, steps[..|steps| - 1]);
      var r := Run(cpus, steps[..|steps| - 1]);
      if r.Some? && Enabled(r.value, steps[|steps| - 1]) {
        ConservedStep(r.value, steps[|steps| - 1]);
        ConsistentStep(r.value, steps[|steps| - 1]);
      }
    }
  }

  // ---- main results ---------------------------------------------------------------

  /** However the CPUs interleave with each other and with evictions and deletes,
      the packets in the flow map and in entries removed from it are at most the
      packets counted as parsed; they are equal exactly when no CPU is under way
      with a packet, no insert has failed and none was without a tuple. */
  lemma FlowsNeverExceedParsed<K>(cpus: nat, steps: seq<Step<K>>)
    ensures var r := Run(cpus, steps); r.Some? ==>
      && Held(r.value) + Removed(r.value) <= Parsed(r.value)
      && (Held(r.value) + Removed(r.value) == Parsed(r.value) <==>
            SumOf(r.value.cpus, InFlight) == 0 && r.value.lost == 0 && r.value.unparsed == 0)
  {
    RunConserves(cpus, steps);
    var r := Run(cpus, steps);
    if r.Some? {
      SumAdd(r.value.objs, HeldPackets, RemovedPackets, Packets);
    }
  }

  /** For the drop tracer: packets counted as drops are those without a tuple, plus
      those in the map, in drained records and in evicted entries, exactly when no CPU
      is under way and no insert has failed. What drains returned never exceeds the
      drops that had a tuple; it is what the drained entries hold exactly if nothing
      was added to one after its drain. Drained entries are out of the map for good. */
  lemma DropsAreConserved<K>(cpus: nat, steps: seq<Step<K>>)
    ensures var r := Run(cpus, steps); r.Some? ==>
      var s := r.value;
      && Exported(s) + s.unparsed <= Parsed(s)
      && (Parsed(s) == s.unparsed + Held(s) + Removed(s) <==> SumOf(s.cpus, InFlight) == 0 && s.lost == 0)
      && Exported(s) + Late(s) == SumOf(s.objs, DrainedPackets)
      && (Late(s) == 0 <==> forall o | o in s.objs && o.place.Drained? :: o.packets == o.place.reported)
      && (forall k | k in s.table :: s.table[k] < |s.objs| && !s.objs[s.table[k]].place.Drained?)
  {
    hide SumOf, Take, Enabled;
    RunConserves(cpus, steps);
    var r := Run(cpus, steps);
    if r.Some? {
      SumAdd(r.value.objs, HeldPackets, RemovedPackets, Packets);
      ReportedAtMost(r.value);
      LateAndReported(r.value);
    }
  }

  function Late<K>(s: State<K>): nat { SumOf(s.objs, LatePackets) }

  lemma LateAndReported<K>(s: State<K>)
    requires Consistent(s)
    ensures Exported(s) + Late(s) == SumOf(s.objs, DrainedPackets)
    ensures Late(s) == 0 <==> forall o | o in s.objs && o.place.Drained? :: o.packets == o.place.reported
  {
    hide SumOf;
    forall o | o in s.objs
      ensures Reported(o) <= o.packets && Reported(o) + LatePackets(o) == DrainedPackets(o)
    {
      var i :| 0 <= i < |s.objs| && s.objs[i] == o;
    }
    SumAdd(s.objs, Reported, LatePackets, DrainedPackets);
    SumPositive(s.objs, LatePackets);
  }

  lemma {:induction false} SumPositive<T>(xs: seq<T>, f: T -> nat)
    ensures SumOf(xs, f) == 0 <==> forall x | x in xs :: f(x) == 0
  {
    if |xs| == 0 {
    } else {
      SumPositive(xs[..|xs| - 1], f);
      assert xs == xs[..|xs| - 1] + [xs[|xs| - 1]];
    }
  }

  /** What a step adds to the reports: a drain reports what its entry holds, and late
      packets are those of adds to drained entries. */
  lemma ReportsStep<K>(s: State<K>, step: Step<K>)
    requires Enabled(s, step) && Consistent(s)
    ensures Exported(Take(s, step)) == Exported(s) + if step.Drain? then s.objs[s.table[step.key]].packets else 0
    ensures Late(Take(s, step)) == Late(s)
      + if step.Add? && s.objs[s.cpus[step.cpu].id].place.Drained? then s.cpus[step.cpu].n else 0
  {
    hide SumOf;
    match step
    case Add(c) =>
      var p := s.cpus[c];
      var o := s.objs[p.id].(packets := s.objs[p.id].packets + p.n);
      SumUpdate(s.objs, Reported, p.id, o);
      SumUpdate(s.objs, LatePackets, p.id, o);
    case Insert(c, fits) =>
      var p := s.cpus[c];
      if fits {
        var retire := p.key in s.table && s.table[p.key] < |s.objs|;
        var s' := if retire then Retire(s, p.key, s.table[p.key], Gone) else s;
        if retire {
          RetiredReports(s, p.key, Gone);
        }
        SumSnoc(s'.objs, Reported, Obj(p.key, p.n, Live));
        SumSnoc(s'.objs, LatePackets, Obj(p.key, p.n, Live));
      }
    case Remove(k) => RetiredReports(s, k, Gone);
    case Drain(k) => RetiredReports(s, k, Drained(s.objs[s.table[k]].packets));
    case _ =>
  }

  lemma RetiredReports<K>(s: State<K>, k: K, place: Place)
    requires Consistent(s) && k in s.table && !place.Live?
    requires place.Drained? ==> place.reported == s.objs[s.table[k]].packets
    ensures var s' := Retire(s, k, s.table[k], place);
      && Exported(s') == Exported(s) + (if place.Drained? then place.reported else 0)
      && Late(s') == Late(s)
  {
    hide SumOf;
    var id := s.table[k];
    var o := s.objs[id].(place := place);
    SumUpdate(s.objs, Reported, id, o);
    SumUpdate(s.objs, LatePackets, id, o);
  }

  lemma ReportedAtMost<K>(s: State<K>)
    requires Consistent(s)
    ensures Exported(s) <= SumOf(s.objs, Packets)
  {
    forall o | o in s.objs
      ensures Reported(o) <= Packets(o)
    {
      var i :| 0 <= i < |s.objs| && s.objs[i] == o;
    }
    SumAtLeast(s.objs, Reported, Packets);
  }

  lemma StepTo<K>(cpus: nat, steps: seq<Step<K>>, s: State<K>, step: Step<K>, s': State<K>)
    requires Run(cpus, steps) == Some(s) && Enabled(s, step) && Take(s, step) == s'
    ensures Run(cpus, steps + [step]) == Some(s')
  {
    assert (steps + [step])[..|steps|] == steps;
  }

  /** One CPU drops a packet and writes its record. */
  function FirstDrop<K>(k: K): seq<Step<K>> { [] + [Count(0, k, 1)] + [Lookup(0)] + [Insert(0, true)] }

  /** Another finds the record, the record is drained, and the other adds its packet. */
  function LateSteps<K>(k: K): seq<Step<K>> { FirstDrop(k) + [Count(1, k, 1)] + [Lookup(1)] + [Drain(k)] + [Add(1)] }

  lemma FirstDropRuns<K>(k: K)
    ensures Run(2, FirstDrop(k)) == Some(State([Obj(k, 1, Live)], map[k := 0], [Idle, Idle], [1, 0], 0, 0))
  {
    assert Run(2, []) == Some(Start<K>(2)) by { NoSteps<K>(2); }
    var s0: State<K> := State([], map[], [Idle, Idle], [0, 0], 0, 0);
    assert Start<K>(2) == s0;
    hide Run;
    var s1: State<K> := State([], map[], [Cpu.Counted(k, 1), Idle], [1, 0], 0, 0);
    StepTo(2, [], s0, Count(0, k, 1), s1);
    var s2: State<K> := State([], map[], [Missing(k, 1), Idle], [1, 0], 0, 0);
    StepTo(2, [] + [Count(0, k, 1)], s1, Lookup(0), s2);
    var s3: State<K> := State([Obj(k, 1, Live)], map[k := 0], [Idle, Idle], [1, 0], 0, 0);
    assert Take(s2, Insert(0, true)) == s3;
    StepTo(2, [] + [Count(0, k, 1)] + [Lookup(0)], s2, Insert(0, true), s3);
  }

  lemma LateRuns<K>(k: K)
    ensures Run(2, LateSteps(k)) == Some(State([Obj(k, 2, Drained(1))], map[], [Idle, Idle], [1, 1], 0, 0))
  {
    FirstDropRuns(k);
    hide Run, FirstDrop;
    var t := FirstDrop(k);
    var s3: State<K> := State([Obj(k, 1, Live)], map[k := 0], [Idle, Idle], [1, 0], 0, 0);
    var s4: State<K> := State([Obj(k, 1, Live)], map[k := 0], [Idle, Cpu.Counted(k, 1)], [1, 1], 0, 0);
    StepTo(2, t, s3, Count(1, k, 1), s4);
    var s5: State<K> := State([Obj(k, 1, Live)], map[k := 0], [Idle, Found(0, 1)], [1, 1], 0, 0);
    StepTo(2, t + [Count(1, k, 1)], s4, Lookup(1), s5);
    var s6: State<K> := State([Obj(k, 1, Drained(1))], map[], [Idle, Found(0, 1)], [1, 1], 0, 0);
    assert Take(s5, Drain(k)) == s6;
    StepTo(2, t + [Count(1, k, 1)] + [Lookup(1)], s5, Drain(k), s6);
    var s7: State<K> := State([Obj(k, 2, Drained(1))], map[], [Idle, Idle], [1, 1], 0, 0);
    assert Take(s6, Add(1)) == s7;
    StepTo(2, t + [Count(1, k, 1)] + [Lookup(1)] + [Drain(k)], s6, Add(1), s7);
  }

  /** A run that counts two packets of which the drain reports one, and in which the
      other is nowhere to be found any more. */
  lemma LatePacketIsUnreported<K>(k: K)
    ensures var r := Run(2, LateSteps(k));
      && r.Some?
      && var s := r.value;
      && Parsed(s) == 2 && Exported(s) == 1 && Late(s) == 1 && Held(s) == 0
      && SumOf(s.cpus, InFlight) == 0 && s.lost == 0 && s.unparsed == 0
  {
    LateRuns(k);
    hide Run, LateSteps;
    var o := Obj(k, 2, Drained(1));
    SumOne(o, Reported);
    SumOne(o, LatePackets);
    SumOne(o, HeldPackets);
    SumTwo<Cpu<K>>(Idle, Idle, InFlight);
    SumTwo<nat>(1, 1, Slot);
  }

  lemma NoSteps<K>(cpus: nat)
    ensures Run<K>(cpus, []) == Some(Start(cpus))
  {
  }

  lemma SumOne<T>(x: T, f: T -> nat)
    ensures SumOf([x], f) == f(x)
  {
    assert [x][..0] == [];
  }

  lemma SumTwo<T>(x: T, y: T, f: T -> nat)
    ensures SumOf([x, y], f) == f(x) + f(y)
  {
    assert [x, y][..1] == [x];
    SumOne(x, f);
  }

  /** A drained entry stays drained, with the same report: it is exported once. */
  lemma DrainedOnce<K>(s: State<K>, step: Step<K>, i: nat)
    requires Enabled(s, step) && Consistent(s)
    requires i < |s.objs| && s.objs[i].place.Drained?
    ensures i < |Take(s, step).objs| && Take(s, step).objs[i].place == s.objs[i].place
  {
  }

  // ---- packets one at a time --------------------------------------------------------

  /** The map as its readers see it: packets by key. */
  function Contents<K>(s: State<K>): map<K, nat> {
    map k | k in s.table && s.table[k] < |s.objs| :: s.objs[s.table[k]].packets
  }

  /** One packet accounted without interference. */
  function Accounted<K>(m: map<K, nat>, k: K, n: nat, fits: bool): map<K, nat> {
    if k in m then m[k := m[k] + n] else if fits then m[k := n] else m
  }

  /** The three steps of a CPU, run without interference. */
  function Whole<K>(s: State<K>, c: nat, k: K, n: nat, fits: bool): State<K>
    requires Consistent(s) && c < |s.cpus| && s.cpus[c].Idle?
  {
    var s1 := Take(s, Count(c, k, n));
    var s2 := Take(s1, Lookup(c));
    if k in s.table then Take(s2, Add(c)) else Take(s2, Insert(c, fits))
  }

  /** Run one at a time, packets add up in the map exactly, and nothing leaves it. */
  lemma OneAtATime<K>(s: State<K>, c: nat, k: K, n: nat, fits: bool)
    requires Consistent(s) && c < |s.cpus| && s.cpus[c].Idle?
    ensures var s' := Whole(s, c, k, n, fits);
      && Contents(s') == Accounted(Contents(s), k, n, fits)
      && s'.cpus == s.cpus
      && Parsed(s') == Parsed(s) + n
      && s'.lost == s.lost + if k in s.table || fits then 0 else n
  {
    hide SumOf, Contents;
    SumUpdate<nat>(s.slots, Slot, c, s.slots[c] + n);
    var s' := Whole(s, c, k, n, fits);
    assert s'.cpus == s.cpus;
    if k in s.table {
      AddContents(s, s', k, n);
    } else if fits {
      InsertContents(s, s', k, n);
    } else {
      assert k !in Contents(s) && Contents(s') == Contents(s) by { SameContents(s, s', k); }
    }
  }

  lemma AddContents<K>(s: State<K>, s': State<K>, k: K, n: nat)
    requires Consistent(s) && k in s.table && s'.table == s.table
    requires s'.objs == s.objs[s.table[k] := s.objs[s.table[k]].(packets := s.objs[s.table[k]].packets + n)]
    ensures k in Contents(s) && Contents(s') == Contents(s)[k := Contents(s)[k] + n]
  {
  }

  lemma InsertContents<K>(s: State<K>, s': State<K>, k: K, n: nat)
    requires Consistent(s) && k !in s.table
    requires s'.table == s.table[k := |s.objs|] && s'.objs == s.objs + [Obj(k, n, Live)]
    ensures k !in Contents(s) && Contents(s') == Contents(s)[k := n]
  {
  }

  lemma SameContents<K>(s: State<K>, s': State<K>, k: K)
    requires s'.table == s.table && s'.objs == s.objs && k !in s.table
    ensures k !in Contents(s) && Contents(s') == Contents(s)
  {
  }

  // ---- what readers see of a step ----------------------------------------------------

  /** The CPU holds the entry the map has under its key. */
  predicate HoldsLive<K>(s: State<K>, c: nat)
    requires c < |s.cpus| && s.cpus[c].Found? && s.cpus[c].id < |s.objs|
  {
    s.objs[s.cpus[c].id].place.Live?
  }

  /** In every interleaving a reader of the map sees of a step just this: an add raises the
      entry it found, if that is still in the map; an insert that fits replaces what is
      under its key; a delete or drain takes its key; and no other step shows. */
  lemma ReadersSee<K>(s: State<K>, step: Step<K>)
    requires Enabled(s, step) && Consistent(s)
    ensures var m, m' := Contents(s), Contents(Take(s, step));
      match step
      case Add(c) =>
        var o := s.objs[s.cpus[c].id];
        if HoldsLive(s, c) then o.key in m && m' == m[o.key := m[o.key] + s.cpus[c].n] else m' == m
      case Insert(c, fits) => m' == if fits then m[s.cpus[c].key := s.cpus[c].n] else m
      case Remove(k) => m' == m - {k}
      case Drain(k) => m' == m - {k}
      case _ => m' == m
  {
    var s' := Take(s, step);
    match step
    case Add(c) =>
      var id := s.cpus[c].id;
      if HoldsLive(s, c) {
        AddContents(s, s', s.objs[id].key, s.cpus[c].n);
      } else {
        AddElsewhere(s, s', id);
      }
    case Insert(c, fits) =>
      if fits {
        InsertReplaces(s, c);
      } else {
        assert Contents(s') == Contents(s);
      }
    case Remove(k) => RetireContents(s, k, Gone);
    case Drain(k) => RetireContents(s, k, Drained(s.objs[s.table[k]].packets));
    case _ => assert Contents(s') == Contents(s);
  }

  lemma AddElsewhere<K>(s: State<K>, s': State<K>, id: nat)
    requires Consistent(s) && id < |s.objs| && !s.objs[id].place.Live? && s'.table == s.table
    requires |s'.objs| == |s.objs| && forall i | 0 <= i < |s.objs| && i != id :: s'.objs[i] == s.objs[i]
    ensures Contents(s') == Contents(s)
  {
  }

  lemma RetireContents<K>(s: State<K>, k: K, place: Place)
    requires Consistent(s) && k in s.table
    ensures Contents(Retire(s, k, s.table[k], place)) == Contents(s) - {k}
  {
    var s' := Retire(s, k, s.table[k], place);
    forall x | x in s'.table
      ensures s'.objs[s'.table[x]].packets == s.objs[s.table[x]].packets
    {
      assert s.objs[s.table[x]].key == x;
    }
  }

  lemma InsertReplaces<K>(s: State<K>, c: nat)
    requires Consistent(s) && Enabled(s, Insert(c, true))
    ensures Contents(Take(s, Insert(c, true))) == Contents(s)[s.cpus[c].key := s.cpus[c].n]
  {
    hide Consistent, Contents;
    var p, s' := s.cpus[c], Take(s, Insert(c, true));
    if p.key in s.table && s.table[p.key] < |s.objs| {
      RetireContents(s, p.key, Gone);
      RetireConsistent(s, p.key, Gone);
      InsertContents(Retire(s, p.key, s.table[p.key], Gone), s', p.key, p.n);
    } else {
      TableSound(s);
      InsertContents(s, s', p.key, p.n);
    }
  }

  lemma TableSound<K>(s: State<K>)
    requires Consistent(s)
    ensures forall k | k in s.table :: s.table[k] < |s.objs|
  {
  }

  /** Packets counted by the steps of a run, and those of them without a tuple. */
  function CountedBy<K>(steps: seq<Step<K>>): nat {
    if |steps| == 0 then 0
    else
      var step := steps[|steps| - 1];
      CountedBy(steps[..|steps| - 1]) + if step.Count? then step.n else if step.CountUnparsed? then 1 else 0
  }

  function UnparsedBy<K>(steps: seq<Step<K>>): nat {
    if |steps| == 0 then 0
    else UnparsedBy(steps[..|steps| - 1]) + if steps[|steps| - 1].CountUnparsed? then 1 else 0
  }

  /** In every interleaving the slots sum to all packets counted, on whichever CPUs. */
  lemma {:induction false} SlotsAddUp<K>(cpus: nat, steps: seq<Step<K>>)
    ensures var r := Run(cpus, steps); r.Some? ==>
      Parsed(r.value) == CountedBy(steps) && r.value.unparsed == UnparsedBy(steps)
  {
    hide SumOf, Enabled;
    if |steps| == 0 {
      ZeroSum(Start<K>(cpus).slots, Slot);
    } else {
      var r, step := Run(cpus, steps[..|steps| - 1]), steps[|steps| - 1];
      SlotsAddUp(cpus, steps[..|steps| - 1]);
      if r.Some? && Enabled(r.value, step) {
        SlotsStep(r.value, step);
      }
    }
  }

  lemma SlotsStep<K>(s: State<K>, step: Step<K>)
    requires Enabled(s, step)
    ensures Parsed(Take(s, step)) == Parsed(s) + if step.Count? then step.n else if step.CountUnparsed? then 1 else 0
    ensures Take(s, step).unparsed == s.unparsed + if step.CountUnparsed? then 1 else 0
  {
    hide SumOf;
    match step
    case Count(c, _, n) => SumUpdate<nat>(s.slots, Slot, c, s.slots[c] + n);
    case CountUnparsed(c) => SumUpdate<nat>(s.slots, Slot, c, s.slots[c] + 1);
    case _ =>
  }
}
