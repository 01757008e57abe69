/** Passes against the batched walks that feed them, and against devices that go. */
module LifecycleWalks {
  import opened Words
  import opened Flow
  import opened Lifecycle
  import opened LifecycleMachine
  import opened LifecycleInvariant
  import opened LifecyclePasses
  import opened LifecycleRuns
  import BatchWalk

  // ---- a walk is a sequence of bucket reads ------------------------------------------

  /** The kernel's map without the entry numbers. */
  function Values(m: map<FlowKey, Entry>): map<FlowKey, FlowValue> { map k | k in m :: m[k].value }

  lemma {:induction false} SnapshotAt(cfg: Config, views: seq<map<FlowKey, Entry>>, k: FlowKey)
    ensures k in Snapshot(cfg, views) <==> Bucket(cfg, k) < |views| && k in views[Bucket(cfg, k)]
    ensures k in Snapshot(cfg, views) ==> Snapshot(cfg, views)[k] == views[Bucket(cfg, k)][k]
  {
    hide Bucket;
    if |views| > 0 {
      SnapshotAt(cfg, views[..|views| - 1], k);
    }
  }

  /** The walk and the pass read the same buckets from the same maps. */
  ghost predicate SameReads(y: BatchWalk.History<FlowKey, FlowValue>, walk: BatchWalk.Walk<FlowKey, FlowValue>,
                            views: seq<map<FlowKey, Entry>>)
  {
    && |views| == |walk.ts|
    && forall b | 0 <= b < |views| :: walk.ts[b] < |y.states| && y.states[walk.ts[b]] == Values(views[b])
  }

  /** What a walk delivers is what the pass's bucket reads put into its snapshot. */
  lemma {:induction false} WalkIsTheSnapshot(
      cfg: Config, y: BatchWalk.History<FlowKey, FlowValue>, walk: BatchWalk.Walk<FlowKey, FlowValue>,
      views: seq<map<FlowKey, Entry>>)
    requires BatchWalk.Stands(cfg.hashing, y, walk) && SameReads(y, walk, views)
    ensures |walk.ks| == |walk.vs| && BatchWalk.Keys(walk.ks) == Snapshot(cfg, views).Keys
    ensures forall i | 0 <= i < |walk.ks| ::
      walk.ks[i] in Snapshot(cfg, views) && Snapshot(cfg, views)[walk.ks[i]].value == walk.vs[i]
  {
    hide BatchWalk.Kept, BatchWalk.Steady, BatchWalk.Emptied, Snapshot;
    forall i | 0 <= i < |walk.ks|
      ensures walk.ks[i] in Snapshot(cfg, views) && Snapshot(cfg, views)[walk.ks[i]].value == walk.vs[i]
    {
      SnapshotAt(cfg, views, walk.ks[i]);
    }
    forall k | k in Snapshot(cfg, views)
      ensures k in walk.ks
    {
      SnapshotAt(cfg, views, k);
    }
  }

  /** In every run, a pass whose bucket reads are those of a walk, complete or not, has
      read and has yet to read exactly what the walk delivers; and when it ends, its
      reads are a rearrangement of the walk's, each key once. */
  lemma {:induction false} PassReadsTheWalk(
      cfg: Config, steps: seq<Step>, y: BatchWalk.History<FlowKey, FlowValue>,
      walk: BatchWalk.Walk<FlowKey, FlowValue>)
    requires BatchWalk.Stands(cfg.hashing, y, walk)
    ensures var r := Run(cfg, steps); r.Some? && !r.value.phase.Resting? && SameReads(y, walk, r.value.views) ==>
      var w := r.value;
      && |walk.ks| == |walk.vs|
      && w.todo.Keys + w.pass.seen == BatchWalk.Keys(walk.ks)
      && (Enabled(cfg, w, End) ==>
            && DistinctKeys(w.order) && DistinctKeys(ReadsOf(walk.ks, walk.vs))
            && forall x :: x in w.order <==> x in ReadsOf(walk.ks, walk.vs))
  {
    hide *;
    RunInvariant(cfg, steps);
    var r := Run(cfg, steps);
    if r.Some? && !r.value.phase.Resting? && SameReads(y, walk, r.value.views) {
      WalkIsTheSnapshot(cfg, y, walk, r.value.views);
      DistinctReads(cfg, y, walk);
      ReadsAreTheWalks(cfg, r.value, walk.ks, walk.vs);
    }
  }

  lemma DistinctReads(cfg: Config, y: BatchWalk.History<FlowKey, FlowValue>, walk: BatchWalk.Walk<FlowKey, FlowValue>)
    requires BatchWalk.Stands(cfg.hashing, y, walk)
    ensures |walk.ks| == |walk.vs| && DistinctKeys(ReadsOf(walk.ks, walk.vs))
  {
    BatchWalk.EachKeyOnce(cfg.hashing, y, walk);
  }

  lemma ReadsAreTheWalks(cfg: Config, w: World, ks: seq<FlowKey>, vs: seq<FlowValue>)
    requires Invariant(cfg, w) && !w.phase.Resting? && |ks| == |vs|
    requires BatchWalk.Keys(ks) == Snapshot(cfg, w.views).Keys
    requires forall i | 0 <= i < |ks| :: ks[i] in Snapshot(cfg, w.views) && Snapshot(cfg, w.views)[ks[i]].value == vs[i]
    ensures w.todo.Keys + w.pass.seen == BatchWalk.Keys(ks)
    ensures Enabled(cfg, w, End) ==> DistinctKeys(w.order) && forall x :: x in w.order <==> x in ReadsOf(ks, vs)
  {
    assert InPass(cfg, w) && InSnapshot(cfg, w);
    hide Invariant, Snapshot, InPass, InSnapshot;
    PassReads(cfg, w);
    if Enabled(cfg, w, End) {
      OrderIsTheReads(w.order, Snapshot(cfg, w.views), ks, vs);
    }
  }

  lemma PassReads(cfg: Config, w: World)
    requires InPass(cfg, w) && InSnapshot(cfg, w) && !w.phase.Resting?
    ensures w.todo.Keys + w.pass.seen == Snapshot(cfg, w.views).Keys
    ensures Enabled(cfg, w, End) ==> DistinctKeys(w.order) && KeysRead(w.order) == Snapshot(cfg, w.views).Keys
    ensures forall r | r in w.order :: r.key in Snapshot(cfg, w.views) && r.value == Some(Snapshot(cfg, w.views)[r.key].value)
  {
    hide Snapshot, Entries, KeysRead, DistinctKeys;
    var m := Snapshot(cfg, w.views);
    assert w.todo == m - w.pass.seen && w.pass.seen <= m.Keys;
    assert w.todo.Keys == m.Keys - w.pass.seen;
  }

  /** Reads of exactly the keys of `m`, with its values, are those of its listing. */
  lemma OrderIsTheReads(order: seq<Read>, m: map<FlowKey, Entry>, ks: seq<FlowKey>, vs: seq<FlowValue>)
    requires |ks| == |vs| && BatchWalk.Keys(ks) == m.Keys && KeysRead(order) == m.Keys
    requires forall i | 0 <= i < |ks| :: ks[i] in m && m[ks[i]].value == vs[i]
    requires forall r | r in order :: r.key in m && r.value == Some(m[r.key].value)
    ensures forall x :: x in order <==> x in ReadsOf(ks, vs)
  {
    forall x | x in order
      ensures x in ReadsOf(ks, vs)
    {
      assert x.key in BatchWalk.Keys(ks);
      var i :| 0 <= i < |ks| && ks[i] == x.key;
      assert ReadsOf(ks, vs)[i] == x;
    }
    forall x | x in ReadsOf(ks, vs)
      ensures x in order
    {
      var i :| 0 <= i < |ks| && ReadsOf(ks, vs)[i] == x;
      assert ks[i] in BatchWalk.Keys(ks) && ks[i] in KeysRead(order);
      var j :| 0 <= j < |order| && order[j].value.Some? && order[j].key == ks[i];
      assert order[j] in order;
    }
  }

  // ---- a device that is gone -----------------------------------------------------------

  predicate HasPass(steps: seq<Step>) { exists s | s in steps :: s.End? }

  /** No packet of device `i`. */
  predicate Silent(steps: seq<Step>, i: U32) { forall s | s in steps :: s.Packet? ==> s.key.ifindex != i }

  /** Device `i` is out of the map and of the current pass, and once a pass has `ended`
      out of the tracker; the log has no export of it since it was `logged` long. */
  ghost predicate Without(w: World, i: U32, logged: nat, ended: bool) {
    && (forall k | k in w.kernel :: k.ifindex != i)
    && (forall k | k in w.todo :: k.ifindex != i)
    && (!w.phase.Resting? ==> forall k | k in w.pass.seen :: k.ifindex != i)
    && (ended ==> forall k | k in w.pass.last :: k.ifindex != i)
    && logged <= |w.log| && forall j | logged <= j < |w.log| :: w.log[j].out.key.ifindex != i
  }

  lemma WithoutStep(cfg: Config, w: World, s: Step, i: U32, logged: nat, ended: bool)
    requires Enabled(cfg, w, s) && Without(w, i, logged, ended) && (s.Packet? ==> s.key.ifindex != i)
    ensures Without(Take(cfg, w, s), i, logged, ended || s.End?)
  {
    hide AfterVisit, AfterPacket, Bucket, Known, Dropped, Closed;
    match s
    case Visit(k) => WithoutVisit(cfg, w, k, i, logged, ended);
    case Packet(k, v) =>
      PacketFrame(w, k, v);
      assert AfterPacket(w, k, v).kernel.Keys == w.kernel.Keys + {k} by { PacketKeys(w, k, v); }
    case _ =>
  }

  lemma PacketKeys(w: World, k: FlowKey, v: FlowValue)
    requires Cur(PacketCount, w, k) <= v.packets && Cur(ByteCount, w, k) <= v.bytes
    ensures AfterPacket(w, k, v).kernel.Keys == w.kernel.Keys + {k}
  {
    hide Counted, Cur, Grown;
  }

  lemma WithoutVisit(cfg: Config, w: World, k: FlowKey, i: U32, logged: nat, ended: bool)
    requires Enabled(cfg, w, Visit(k)) && Without(w, i, logged, ended)
    ensures Without(AfterVisit(cfg, w, k), i, logged, ended)
  {
    hide Idle, DeltaOf, Changed, AfterVisit, Booked, ForgottenOf;
    VisitEffect(cfg, w, k);
  }

  lemma {:induction false} WithoutRun(cfg: Config, w: World, steps: seq<Step>, i: U32)
    requires Silent(steps, i) && Without(w, i, |w.log|, false)
    ensures var r := RunOn(cfg, w, steps); r.Some? ==> Without(r.value, i, |w.log|, HasPass(steps))
  {
    hide Without, Take, Enabled;
    if |steps| == 0 {
    } else {
      var init, s := steps[..|steps| - 1], steps[|steps| - 1];
      assert steps == init + [s];
      WithoutRun(cfg, w, init, i);
      var r := RunOn(cfg, w, init);
      if r.Some? && Enabled(cfg, r.value, s) {
        WithoutStep(cfg, r.value, s, i, |w.log|, HasPass(init));
      }
    }
  }

  /** Between passes of any run: when a device has no flow in the map and no packet of it
      comes any more, nothing more is exported for it, the map stays free of it, and
      once a pass has ended so is the tracker. */
  lemma {:induction false} DeviceForgotten(cfg: Config, before: seq<Step>, w: World, steps: seq<Step>, i: U32)
    requires Run(cfg, before) == Some(w) && w.phase.Resting?
    requires (forall k | k in w.kernel :: k.ifindex != i) && Silent(steps, i)
    ensures var r := RunOn(cfg, w, steps); r.Some? ==>
      && (forall k | k in r.value.kernel :: k.ifindex != i)
      && |w.log| <= |r.value.log| && (forall j | |w.log| <= j < |r.value.log| :: r.value.log[j].out.key.ifindex != i)
      && (HasPass(steps) ==> forall k | k in r.value.pass.last :: k.ifindex != i)
  {
    hide Run, RunOn, HasPass, Silent, InPass, InSnapshot, Owned, ExpiryOnce;
    RunInvariant(cfg, before);
    assert Without(w, i, |w.log|, false);
    hide Invariant;
    WithoutRun(cfg, w, steps, i);
  }
}
