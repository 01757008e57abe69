/** What faults and recreated entries do to the exported totals, run by run. */
module LifecycleFaults {
  import opened Words
  import opened Flow
  import opened Lifecycle
  import opened LifecycleMachine
  import opened LifecycleInvariant
  import opened LifecyclePasses
  import opened LifecycleRuns
  import BatchWalk

  lemma RunSnoc(cfg: Config, steps: seq<Step>, s: Step)
    requires var r := Run(cfg, steps); r.Some? && Enabled(cfg, r.value, s)
    ensures Run(cfg, steps + [s]) == Some(Take(cfg, Run(cfg, steps).value, s))
  {
    assert (steps + [s])[..|steps|] == steps;
  }

  // ---- the next pass ----------------------------------------------------------------

  /** A pass up to the `n`-th bucket. */
  function WalkTo(now: U64, n: nat): seq<Step> {
    if n == 0 then [Begin(now)] else WalkTo(now, n - 1) + [ReadBucket]
  }

  /** Where a pass stands that read `n` buckets of a map nobody touched. */
  predicate Walked(cfg: Config, w: World, w': World, k: FlowKey, n: nat) {
    && w'.kernel == w.kernel && w'.accounts == w.accounts && w'.pass.last == w.pass.last
    && |w'.views| == n
    && (if n <= cfg.hashing.lastBucket then w'.phase.Walking? else w'.phase.Exporting?)
    && (k in w.kernel && Bucket(cfg, k) < n ==> k in w'.todo && w'.todo[k] == w.kernel[k])
  }

  lemma {:induction false} WalkRuns(cfg: Config, steps: seq<Step>, w: World, now: U64, k: FlowKey, n: nat)
    requires Run(cfg, steps) == Some(w) && w.phase.Resting? && k in w.kernel && n <= cfg.hashing.lastBucket + 1
    ensures var r := Run(cfg, steps + WalkTo(now, n)); r.Some? && Walked(cfg, w, r.value, k, n)
  {
    hide Run, Bucket;
    if n == 0 {
      RunSnoc(cfg, steps, Begin(now));
    } else {
      WalkRuns(cfg, steps, w, now, k, n - 1);
      RunSnoc(cfg, steps + WalkTo(now, n - 1), ReadBucket);
      assert (steps + WalkTo(now, n - 1)) + [ReadBucket] == steps + WalkTo(now, n);
    }
  }

  /** Between passes, whatever happened before: the pass that begins now can visit an
      entry the agent has visited, and repeats all that was read of it unless its key is
      tracked. So a fault that makes the tracker drop the key can always be paid for. */
  lemma {:induction false} NextPassForgets(cfg: Config, steps: seq<Step>, w: World, now: U64, k: FlowKey, c: Counter)
    requires Run(cfg, steps) == Some(w) && w.phase.Resting? && Known(w, k)
    ensures var r := Run(cfg, steps + WalkTo(now, cfg.hashing.lastBucket + 1) + [Visit(k)]);
      && r.Some?
      && Total(c, r.value.accounts, k, ForgottenPart) == Total(c, w.accounts, k, ForgottenPart)
           + if k in w.pass.last then 0 else CountOf(c, w.accounts[w.kernel[k].id].read)
  {
    hide *;
    assert k in w.kernel && WasVisited(w.accounts, w.kernel[k].id) by { KnownMeans(w, k); }
    var before := steps + WalkTo(now, cfg.hashing.lastBucket + 1);
    WalkRuns(cfg, steps, w, now, k, cfg.hashing.lastBucket + 1);
    var w1 := Run(cfg, before).value;
    WalkedMeans(cfg, w, w1, k);
    RunSnoc(cfg, before, Visit(k));
    RunInvariant(cfg, before);
    ByCounter(cfg, w1, c);
    ByKey(cfg, w1, c, k);
    ForgetsAtVisit(cfg, c, w1, k);
    assert w.accounts[w.kernel[k].id].visited by { VisitedMeans(w, w.kernel[k].id); }
  }

  lemma KnownMeans(w: World, k: FlowKey)
    ensures Known(w, k) ==> k in w.kernel && WasVisited(w.accounts, w.kernel[k].id)
  {
  }

  lemma VisitedMeans(w: World, id: nat)
    ensures WasVisited(w.accounts, id) ==> id < |w.accounts| && w.accounts[id].visited
  {
  }

  lemma WalkedMeans(cfg: Config, w: World, w': World, k: FlowKey)
    requires k in w.kernel && Walked(cfg, w, w', k, cfg.hashing.lastBucket + 1)
    ensures Enabled(cfg, w', Visit(k)) && w'.todo[k] == w.kernel[k]
    ensures w'.kernel == w.kernel && w'.accounts == w.accounts && w'.pass.last == w.pass.last
    ensures Take(cfg, w', Visit(k)) == AfterVisit(cfg, w', k)
  {
    hide AfterVisit;
  }

  lemma ForgetsAtVisit(cfg: Config, c: Counter, w: World, k: FlowKey)
    requires Owned(w) && Sane(c, w) && Books(c, w, k) && Enabled(cfg, w, Visit(k))
    ensures w.todo[k].id < |w.accounts|
    ensures var a := w.accounts[w.todo[k].id];
      Total(c, AfterVisit(cfg, w, k).accounts, k, ForgottenPart) == Total(c, w.accounts, k, ForgottenPart)
        + if a.visited && k !in w.pass.last then CountOf(c, a.read) else 0
  {
    hide Owned, Sane, Books, AfterVisit, Total, Visited, Growth, Stale, TrackedCounts, CountsOf;
    VisitedBooks(cfg, c, w, k);
    var id := w.todo[k].id;
    TotalUpdate(c, w.accounts, k, ForgottenPart, id, AfterVisit(cfg, w, k).accounts[id]);
  }

  // ---- the next visit -----------------------------------------------------------------

  /** From `w` to `w'` the entry `id` of key `k` was not read, nothing was forgotten of
      the key, and the tracker has not come to hold it. */
  predicate Unvisited(c: Counter, w: World, w': World, k: FlowKey, id: nat)
    requires id < |w.accounts|
  {
    && id < |w'.accounts| && w'.accounts[id].visited == w.accounts[id].visited && w'.accounts[id].read == w.accounts[id].read
    && Total(c, w'.accounts, k, ForgottenPart) == Total(c, w.accounts, k, ForgottenPart)
    && (k in w'.pass.last ==> k in w.pass.last)
  }

  lemma UnvisitedOther(cfg: Config, c: Counter, w: World, k: FlowKey, id: nat, k': FlowKey)
    requires Owned(w) && Enabled(cfg, w, Visit(k')) && k' != k
    requires id < |w.accounts| && w.accounts[id].key == k
    ensures Unvisited(c, w, AfterVisit(cfg, w, k'), k, id)
  {
    hide Idle, DeltaOf, Changed, AfterVisit, Total, Visited, TrackedCounts;
    VisitEffect(cfg, w, k');
    var other := w.todo[k'].id;
    VisitKeeps(w.accounts[other], TrackedCounts(w.pass.last, k'), CountsOf(w.todo[k'].value));
    TotalUpdate(c, w.accounts, k, ForgottenPart, other, AfterVisit(cfg, w, k').accounts[other]);
  }

  lemma VisitKeeps(a: Account, tracked: Option<Counts>, read: Counts)
    ensures Visited(a, tracked, read).key == a.key
  {
  }

  lemma UnvisitedPacket(c: Counter, w: World, k: FlowKey, id: nat, k': FlowKey, v: FlowValue)
    requires Owned(w) && id < |w.accounts|
    requires Cur(PacketCount, w, k') <= v.packets && Cur(ByteCount, w, k') <= v.bytes
    ensures Unvisited(c, w, AfterPacket(w, k', v), k, id)
  {
    hide Cur, Counted, Total;
    if k' in w.kernel {
      var other := w.kernel[k'].id;
      TotalUpdate(c, w.accounts, k, ForgottenPart, other, w.accounts[other].(counted := CountsOf(v)));
    } else {
      TotalSnoc(c, w.accounts, k, ForgottenPart, NewAccount(k', v));
    }
  }

  lemma UnvisitedRemoval(c: Counter, w: World, k: FlowKey, id: nat, k': FlowKey)
    requires id < |w.accounts|
    ensures Unvisited(c, w, AfterRemoval(w, k'), k, id)
  {
    hide Total;
    if k' in w.kernel && w.kernel[k'].id < |w.accounts| {
      var other := w.kernel[k'].id;
      TotalUpdate(c, w.accounts, k, ForgottenPart, other, w.accounts[other].(live := false));
    }
  }

  lemma UnvisitedStep(cfg: Config, c: Counter, w: World, s: Step, k: FlowKey, id: nat)
    requires Owned(w) && Enabled(cfg, w, s) && s != Visit(k) && id < |w.accounts| && w.accounts[id].key == k
    ensures Unvisited(c, w, Take(cfg, w, s), k, id)
  {
    hide Owned, Total, AfterVisit, AfterPacket, AfterRemoval, AfterBucket, Dropped, Known;
    match s
    case Visit(k') => UnvisitedOther(cfg, c, w, k, id, k');
    case Packet(k', v) => UnvisitedPacket(c, w, k, id, k', v);
    case Evict(k') => UnvisitedRemoval(c, w, k, id, k');
    case Delete => UnvisitedRemoval(c, w, k, id, w.phase.key);
    case ReadBucket => BucketFrame(cfg, w);
    case _ =>
  }

  lemma {:induction false} UnvisitedRun(
      cfg: Config, c: Counter, steps: seq<Step>, w: World, more: seq<Step>, k: FlowKey, id: nat)
    requires Run(cfg, steps) == Some(w) && (forall s | s in more :: s != Visit(k))
    requires id < |w.accounts| && w.accounts[id].key == k
    ensures var r := RunOn(cfg, w, more); r.Some? ==>
      Unvisited(c, w, r.value, k, id) && r.value.accounts[id].key == k && Owned(r.value)
  {
    hide Take, Enabled, Owned, Total, Run, Invariant;
    RunsOn(cfg, steps, w, more);
    RunInvariant(cfg, steps + more);
    if RunOn(cfg, w, more).Some? {
      ByCounter(cfg, RunOn(cfg, w, more).value, c);
    }
    if |more| == 0 {
    } else {
      var init, s := more[..|more| - 1], more[|more| - 1];
      assert forall x | x in init :: x in more;
      UnvisitedRun(cfg, c, steps, w, init, k, id);
      var r := RunOn(cfg, w, init);
      if r.Some? && Enabled(cfg, r.value, s) {
        assert s in more;
        UnvisitedStep(cfg, c, r.value, s, k, id);
        KeyStays(cfg, r.value, s, id);
      }
    }
  }

  lemma KeyStays(cfg: Config, w: World, s: Step, id: nat)
    requires Enabled(cfg, w, s) && id < |w.accounts|
    ensures var w' := Take(cfg, w, s); id < |w'.accounts| && w'.accounts[id].key == w.accounts[id].key
  {
    hide Cur, Counted, Bucket, Known, Dropped, Idle;
  }

  /** In every run, from any world in which the agent has visited `k`'s entry: whatever
      happens up to the entry's next visit, that visit adds to what is forgotten of the
      key all that was read of the entry, exactly if the tracker does not hold the key
      by then. Once dropped it never comes back before the visit, and it is only dropped
      by being torn. */
  lemma {:induction false} NextVisitForgets(
      cfg: Config, steps: seq<Step>, w: World, more: seq<Step>, k: FlowKey, c: Counter)
    requires Run(cfg, steps) == Some(w) && Known(w, k) && forall s | s in more :: s != Visit(k)
    ensures var r := RunOn(cfg, w, more);
      r.Some? && Enabled(cfg, r.value, Visit(k)) && r.value.todo[k].id == w.kernel[k].id ==>
      var w' := r.value;
      && Total(c, Take(cfg, w', Visit(k)).accounts, k, ForgottenPart) == Total(c, w.accounts, k, ForgottenPart)
           + (if k in w'.pass.last then 0 else CountOf(c, w.accounts[w.kernel[k].id].read))
      && (k in w'.pass.last ==> k in w.pass.last)
      && (k in w'.pass.last || k in w'.torn)
  {
    hide *;
    KnownMeans(w, k);
    VisitedMeans(w, w.kernel[k].id);
    var id := w.kernel[k].id;
    RunInvariant(cfg, steps);
    ByCounter(cfg, w, c);
    OwnKey(w, k);
    UnvisitedRun(cfg, c, steps, w, more, k, id);
    RunsOn(cfg, steps, w, more);
    RunInvariant(cfg, steps + more);
    var r := RunOn(cfg, w, more);
    if r.Some? && Enabled(cfg, r.value, Visit(k)) {
      VisitTaken(cfg, r.value, k);
    }
    if r.Some? && Enabled(cfg, r.value, Visit(k)) && k in r.value.todo && r.value.todo[k].id == id {
      ByCounter(cfg, r.value, c);
      ByKey(cfg, r.value, c, k);
      UnvisitedMeans(c, w, r.value, k, id);
      ForgetsAtVisit(cfg, c, r.value, k);
      RememberedTodo(r.value, k);
    }
  }

  lemma OwnKey(w: World, k: FlowKey)
    requires Owned(w) && k in w.kernel
    ensures w.kernel[k].id < |w.accounts| && w.accounts[w.kernel[k].id].key == k
  {
  }

  lemma UnvisitedMeans(c: Counter, w: World, w': World, k: FlowKey, id: nat)
    requires id < |w.accounts| && Unvisited(c, w, w', k, id)
    ensures id < |w'.accounts| && w'.accounts[id].visited == w.accounts[id].visited && w'.accounts[id].read == w.accounts[id].read
    ensures Total(c, w'.accounts, k, ForgottenPart) == Total(c, w.accounts, k, ForgottenPart)
    ensures k in w'.pass.last ==> k in w.pass.last
  {
  }

  lemma VisitTaken(cfg: Config, w: World, k: FlowKey)
    requires Enabled(cfg, w, Visit(k))
    ensures w.phase.Exporting? && k in w.todo && Take(cfg, w, Visit(k)) == AfterVisit(cfg, w, k)
  {
    hide AfterVisit;
  }

  lemma RememberedTodo(w: World, k: FlowKey)
    requires Remembered(w, k) && k in w.todo
    ensures w.todo[k].id < |w.accounts| && w.accounts[w.todo[k].id].visited ==> k in w.pass.last || k in w.torn
  {
  }

  // ---- witness runs -------------------------------------------------------------------

  const ZEROES: Bytes := [0, 0, 0, 0, 0, 0, 0, 0, 0, 0, 0, 0, 0, 0, 0, 0]

  const FLOW: FlowKey := FlowKey(1, INGRESS, 6, 6, ZEROES, ZEROES, 0, 0, 0, 0)

  function Value(packets: U64): FlowValue { FlowValue(packets, 0, 0, 0, 0, 0, 0) }

  /** A map of one bucket. */
  function OneBucket(): Config { Config(Timeouts(300, 60, 30, 10), BatchWalk.Hashing(0, (k: FlowKey) => 0)) }

  const LATE: U64 := 301 * NS_PER_S

  /** Between passes, with one flow in the map, or none: its counter and entry, the
      tracked packets, and all packets exported and counted so far. */
  predicate At(w: World, packets: Option<U64>, id: nat, tracked: Option<U64>, exported: nat, counted: nat) {
    && w.phase.Resting? && w.todo == map[]
    && w.kernel == (if packets.Some? then map[FLOW := Entry(Value(packets.value), id)] else map[])
    && w.pass.last == (if tracked.Some? then map[FLOW := AsLast(Value(tracked.value))] else map[])
    && Exported(PacketCount, w.log, FLOW) == exported && Counted(PacketCount, w, FLOW) == counted
    && Counted(ByteCount, w, FLOW) == 0 && |w.accounts| == id + (if packets.Some? then 1 else 0)
  }

  function RunOf(steps: seq<Step>): Option<World> { Run(OneBucket(), steps) }

  lemma Count(steps: seq<Step>, from: Option<U64>, to: U64, id: nat, tracked: Option<U64>, exported: nat, counted: nat)
    requires var r := RunOf(steps); r.Some? && At(r.value, from, id, tracked, exported, counted)
    requires to < TWO_63 && (from.Some? ==> from.value <= to)
    ensures var r := RunOf(steps + [Packet(FLOW, Value(to))]);
      r.Some? && At(r.value, Some(to), id, tracked, exported, counted + to - if from.Some? then from.value else 0)
  {
    hide Run, Exported;
    RunSnoc(OneBucket(), steps, Packet(FLOW, Value(to)));
  }

  lemma Removed(steps: seq<Step>, packets: U64, id: nat, tracked: Option<U64>, exported: nat, counted: nat)
    requires var r := RunOf(steps); r.Some? && At(r.value, Some(packets), id, tracked, exported, counted)
    ensures var r := RunOf(steps + [Evict(FLOW)]);
      r.Some? && At(r.value, None, id + 1, tracked, exported, counted)
  {
    hide Run, Exported;
    RunSnoc(OneBucket(), steps, Evict(FLOW));
  }

  /** The flow is in the snapshot of a pass. */
  predicate Snapshotted(w: World, now: U64, packets: U64, id: nat, tracked: Option<U64>, exported: nat, counted: nat) {
    && w.phase == Exporting(now) && w.todo == map[FLOW := Entry(Value(packets), id)]
    && At(w.(phase := Resting, todo := map[]), Some(packets), id, tracked, exported, counted)
  }

  lemma Walk(steps: seq<Step>, now: U64, packets: U64, id: nat, tracked: Option<U64>, exported: nat, counted: nat)
    requires var r := RunOf(steps); r.Some? && At(r.value, Some(packets), id, tracked, exported, counted)
    ensures var r := RunOf(steps + [Begin(now)] + [ReadBucket]);
      r.Some? && Snapshotted(r.value, now, packets, id, tracked, exported, counted)
  {
    hide Run, Exported;
    RunSnoc(OneBucket(), steps, Begin(now));
    RunSnoc(OneBucket(), steps + [Begin(now)], ReadBucket);
    assert OneBucket().hashing.lastBucket == 0;
    assert Bucket(OneBucket(), FLOW) == 0;
  }

  function OrZero(n: Option<U64>): nat { if n.Some? then n.value else 0 }

  /** A visit of the flow: what it exports, and what the tracker holds then. It is
      idle late, and not at time 0. */
  predicate AfterVisitAt(w: World, now: U64, packets: U64, id: nat, tracked: Option<U64>, exported: nat, counted: nat) {
    && w.phase == (if now == 0 then Exporting(now) else Deleting(now, FLOW))
    && FLOW in w.pass.seen && w.todo == map[]
    && At(w.(phase := Resting), Some(packets), id, if now == 0 then Some(packets) else None,
          exported + Growth(packets, OrZero(tracked)), counted)
  }

  lemma VisitAt(w: World, now: U64, packets: U64, id: nat, tracked: Option<U64>, exported: nat, counted: nat)
    requires Structure(OneBucket(), w) && Snapshotted(w, now, packets, id, tracked, exported, counted)
    requires now == 0 || now == LATE
    ensures AfterVisitAt(AfterVisit(OneBucket(), w, FLOW), now, packets, id, tracked, exported, counted)
  {
    hide *;
    SnapshottedMeans(w, now, packets, id, tracked, exported, counted);
    VisitExports(OneBucket(), PacketCount, w, FLOW);
    VisitEffect(OneBucket(), w, FLOW);
    LateIsIdle(now);
    VisitResult(w, AfterVisit(OneBucket(), w, FLOW), now, packets, id, tracked, exported, counted);
  }

  lemma SnapshottedMeans(w: World, now: U64, packets: U64, id: nat, tracked: Option<U64>, exported: nat, counted: nat)
    requires Snapshotted(w, now, packets, id, tracked, exported, counted)
    ensures Enabled(OneBucket(), w, Visit(FLOW)) && w.phase == Exporting(now)
    ensures w.todo == map[FLOW := Entry(Value(packets), id)] && w.todo[FLOW] == Entry(Value(packets), id)
    ensures Value(packets).lastSeen == 0 && ValueCounter(PacketCount, Value(packets)) == packets
    ensures TrackedCounter(PacketCount, w.pass.last, FLOW) == OrZero(tracked)
    ensures Exported(PacketCount, w.log, FLOW) == exported
  {
    hide Exported;
  }

  lemma LateIsIdle(now: U64)
    requires now == 0 || now == LATE
    ensures Idle(OneBucket().timeouts, FLOW, 0, now) <==> now == LATE
  {
  }

  lemma VisitResult(w: World, w': World, now: U64, packets: U64, id: nat, tracked: Option<U64>, exported: nat, counted: nat)
    requires Snapshotted(w, now, packets, id, tracked, exported, counted) && (now == 0 || now == LATE)
    requires w'.kernel == w.kernel && w'.counted == w.counted
    requires w'.accounts == Booked(w.accounts, id, TrackedCounts(w.pass.last, FLOW), CountsOf(Value(packets)))
    requires w'.pass.last == if now == LATE then w.pass.last - {FLOW} else w.pass.last[FLOW := AsLast(Value(packets))]
    requires w'.pass.seen == w.pass.seen + {FLOW} && w'.todo == w.todo - {FLOW}
    requires w'.phase == if now == LATE then Deleting(now, FLOW) else w.phase
    requires Exported(PacketCount, w'.log, FLOW) == exported + Growth(packets, OrZero(tracked))
    ensures AfterVisitAt(w', now, packets, id, tracked, exported, counted)
  {
    hide Exported, Growth, Visited, TrackedCounts, CountsOf, Value, AsLast;
    assert |w'.accounts| == |w.accounts|;
  }

  lemma Visits(steps: seq<Step>, now: U64, packets: U64, id: nat, tracked: Option<U64>, exported: nat, counted: nat)
    requires var r := RunOf(steps); r.Some? && Snapshotted(r.value, now, packets, id, tracked, exported, counted)
    requires now == 0 || now == LATE
    ensures var r := RunOf(steps + [Visit(FLOW)]);
      r.Some? && AfterVisitAt(r.value, now, packets, id, tracked, exported, counted)
  {
    var w := RunOf(steps).value;
    assert Invariant(OneBucket(), w) && Structure(OneBucket(), w) by { RunInvariant(OneBucket(), steps); }
    hide Run, Exported, AfterVisit, Structure, Invariant, AfterVisitAt, At;
    RunSnoc(OneBucket(), steps, Visit(FLOW));
    VisitAt(w, now, packets, id, tracked, exported, counted);
  }

  /** A pass over the flow. */
  lemma Pass(steps: seq<Step>, packets: U64, id: nat, tracked: Option<U64>, exported: nat, counted: nat)
    requires var r := RunOf(steps); r.Some? && At(r.value, Some(packets), id, tracked, exported, counted)
    ensures var r := RunOf(steps + [Begin(0)] + [ReadBucket] + [Visit(FLOW)] + [End]);
      r.Some? && At(r.value, Some(packets), id, Some(packets), exported + Growth(packets, OrZero(tracked)), counted)
  {
    hide Run, Exported, Growth;
    Walk(steps, 0, packets, id, tracked, exported, counted);
    Visits(steps + [Begin(0)] + [ReadBucket], 0, packets, id, tracked, exported, counted);
    RunSnoc(OneBucket(), steps + [Begin(0)] + [ReadBucket] + [Visit(FLOW)], End);
  }

  /** A pass whose walk stops before its first bucket. */
  lemma StoppedPass(steps: seq<Step>, packets: U64, id: nat, tracked: Option<U64>, exported: nat, counted: nat)
    requires var r := RunOf(steps); r.Some? && At(r.value, Some(packets), id, tracked, exported, counted)
    ensures var r := RunOf(steps + [Begin(0)] + [StopWalk] + [End]);
      r.Some? && At(r.value, Some(packets), id, None, exported, counted)
  {
    hide Run, Exported;
    RunSnoc(OneBucket(), steps, Begin(0));
    RunSnoc(OneBucket(), steps + [Begin(0)], StopWalk);
    RunSnoc(OneBucket(), steps + [Begin(0)] + [StopWalk], End);
  }

  /** A pass that finds the flow idle, and whose delete is lost. */
  lemma LostPass(steps: seq<Step>, packets: U64, id: nat, tracked: Option<U64>, exported: nat, counted: nat)
    requires var r := RunOf(steps); r.Some? && At(r.value, Some(packets), id, tracked, exported, counted)
    ensures var r := RunOf(steps + [Begin(LATE)] + [ReadBucket] + [Visit(FLOW)] + [LoseDelete] + [End]);
      r.Some? && At(r.value, Some(packets), id, None, exported + Growth(packets, OrZero(tracked)), counted)
  {
    hide Run, Exported, Growth;
    Walk(steps, LATE, packets, id, tracked, exported, counted);
    Visits(steps + [Begin(LATE)] + [ReadBucket], LATE, packets, id, tracked, exported, counted);
    RunSnoc(OneBucket(), steps + [Begin(LATE)] + [ReadBucket] + [Visit(FLOW)], LoseDelete);
    RunSnoc(OneBucket(), steps + [Begin(LATE)] + [ReadBucket] + [Visit(FLOW)] + [LoseDelete], End);
  }

  lemma Start()
    ensures RunOf([]).Some? && At(RunOf([]).value, None, 0, None, 0, 0)
  {
  }

  /** What a witness run exports and counts for its flow. */
  predicate Ends(steps: seq<Step>, exported: nat, counted: nat) {
    var r := RunOf(steps);
    r.Some? && Exported(PacketCount, r.value.log, FLOW) == exported && Counted(PacketCount, r.value, FLOW) == counted
  }

  /** One stopped walk between two passes makes 10 packets 20. */
  lemma StoppedWalkOverCounts()
    ensures exists steps: seq<Step> :: Ends(steps, 20, 10) && forall s | s in steps :: !s.LoseDelete?
  {
    hide RunOf, At, Exported;
    Start();
    Count([], None, 10, 0, None, 0, 0);
    var s1 := [] + [Packet(FLOW, Value(10))];
    Pass(s1, 10, 0, None, 0, 10);
    var s2 := s1 + [Begin(0)] + [ReadBucket] + [Visit(FLOW)] + [End];
    StoppedPass(s2, 10, 0, Some(10), 10, 10);
    var s3 := s2 + [Begin(0)] + [StopWalk] + [End];
    Pass(s3, 10, 0, None, 10, 10);
    Ending(s3 + [Begin(0)] + [ReadBucket] + [Visit(FLOW)] + [End], Some(10), 0, Some(10), 20, 10);
  }

  /** So does one lost delete of an idle flow. */
  lemma LostDeleteOverCounts()
    ensures exists steps: seq<Step> :: Ends(steps, 20, 10) && forall s | s in steps :: !s.StopWalk?
  {
    hide RunOf, At, Exported;
    Start();
    Count([], None, 10, 0, None, 0, 0);
    var s1 := [] + [Packet(FLOW, Value(10))];
    LostPass(s1, 10, 0, None, 0, 10);
    var s2 := s1 + [Begin(LATE)] + [ReadBucket] + [Visit(FLOW)] + [LoseDelete] + [End];
    Pass(s2, 10, 0, None, 10, 10);
    Ending(s2 + [Begin(0)] + [ReadBucket] + [Visit(FLOW)] + [End], Some(10), 0, Some(10), 20, 10);
  }

  /** Without any fault the deltas of a flow fall short of its total if it is evicted
      before its last packets are read. */
  lemma UnreadPacketsAreLost()
    ensures exists steps: seq<Step> :: Ends(steps, 10, 15) && forall s | s in steps :: !Faulty(s)
  {
    hide RunOf, At, Exported;
    Start();
    Count([], None, 10, 0, None, 0, 0);
    var s1 := [] + [Packet(FLOW, Value(10))];
    Pass(s1, 10, 0, None, 0, 10);
    var s2 := s1 + [Begin(0)] + [ReadBucket] + [Visit(FLOW)] + [End];
    Count(s2, Some(10), 15, 0, Some(10), 10, 10);
    Removed(s2 + [Packet(FLOW, Value(15))], 15, 0, Some(10), 10, 15);
    Ending(s2 + [Packet(FLOW, Value(15))] + [Evict(FLOW)], None, 1, Some(10), 10, 15);
  }

  /** They also fall short, although every packet was read, if the flow is recreated
      between two passes and overtakes the tracked counters. */
  lemma StaleTrackerLeavesOut()
    ensures exists steps: seq<Step> :: Ends(steps, 15, 25) && forall s | s in steps :: !Faulty(s)
  {
    hide RunOf, At, Exported;
    Start();
    Count([], None, 10, 0, None, 0, 0);
    var s1 := [] + [Packet(FLOW, Value(10))];
    Pass(s1, 10, 0, None, 0, 10);
    var s2 := s1 + [Begin(0)] + [ReadBucket] + [Visit(FLOW)] + [End];
    Removed(s2, 10, 0, Some(10), 10, 10);
    var s3 := s2 + [Evict(FLOW)];
    Count(s3, None, 15, 1, Some(10), 10, 10);
    var s4 := s3 + [Packet(FLOW, Value(15))];
    Pass(s4, 15, 1, Some(10), 10, 25);
    Ending(s4 + [Begin(0)] + [ReadBucket] + [Visit(FLOW)] + [End], Some(15), 1, Some(15), 15, 25);
  }

  lemma Ending(steps: seq<Step>, packets: Option<U64>, id: nat, tracked: Option<U64>, exported: nat, counted: nat)
    requires RunOf(steps).Some? && At(RunOf(steps).value, packets, id, tracked, exported, counted)
    ensures Ends(steps, exported, counted)
  {
  }
}
