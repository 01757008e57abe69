/** The drain of the drop map: a walk that takes bucket after bucket is a run of single
    drains, between which drops go on. */
module DrainRuns {
  import opened Words
  import opened Flow
  import opened Pipeline
  import opened DaemonRuns
  import BatchWalk
  import Counting
  import Drops

  type DropMap = map<Drops.DropKey, FlowValue>
  type DropHashing = BatchWalk.Hashing<Drops.DropKey>
  type DropSteps = seq<Counting.Step<Drops.DropKey>>

  // ---- runs from a system on --------------------------------------------------------

  function RunOn(cfg: Config, s: System, steps: seq<Step>): Option<System> {
    if |steps| == 0 then Some(s)
    else
      match RunOn(cfg, s, steps[..|steps| - 1])
      case None => None
      case Some(s') => if Enabled(cfg, s', steps[|steps| - 1]) then Some(Take(cfg, s', steps[|steps| - 1])) else None
  }

  lemma {:induction false} RunOnBoth(cfg: Config, s: System, a: seq<Step>, b: seq<Step>)
    ensures RunOn(cfg, s, a + b) == match RunOn(cfg, s, a) case None => None case Some(s') => RunOn(cfg, s', b)
    decreases |b|
  {
    hide Take, Enabled;
    if |b| == 0 {
      assert a + b == a;
    } else {
      assert (a + b)[..|a + b| - 1] == a + b[..|b| - 1] && (a + b)[|a + b| - 1] == b[|b| - 1];
      RunOnBoth(cfg, s, a, b[..|b| - 1]);
    }
  }

  function Traces(ts: DropSteps): (steps: seq<Step>)
    ensures |steps| == |ts|
  {
    seq(|ts|, i requires 0 <= i < |ts| => Trace(ts[i]))
  }

  function Drains(ds: seq<DropRecord>): (steps: seq<Step>)
    ensures |steps| == |ds|
  {
    seq(|ds|, i requires 0 <= i < |ds| => Drain(ds[i]))
  }

  /** Drops change the tracer's maps and nothing else. */
  lemma {:induction false} TracesKeep(cfg: Config, s: System, ts: DropSteps)
    requires Counting.Consistent(s.tracer)
    ensures var r := RunOn(cfg, s, Traces(ts)); r.Some? ==>
      r.value == s.(tracer := r.value.tracer) && Counting.Consistent(r.value.tracer)
  {
    hide Counting.Take, Counting.Enabled, Counting.Consistent;
    if |ts| > 0 {
      var init := ts[..|ts| - 1];
      assert Traces(ts)[..|ts| - 1] == Traces(init);
      TracesKeep(cfg, s, init);
      var r := RunOn(cfg, s, Traces(init));
      if r.Some? && Enabled(cfg, r.value, Trace(ts[|ts| - 1])) {
        Counting.ConsistentStep(r.value.tracer, ts[|ts| - 1]);
      }
    }
  }

  // ---- one bucket ---------------------------------------------------------------------

  predicate DistinctRecords(ds: seq<DropRecord>) { forall i, j | 0 <= i < j < |ds| :: ds[i].key != ds[j].key }

  /** The records are entries of `m`, and their reasons map to drops. */
  predicate RecordsOf(ds: seq<DropRecord>, m: DropMap) {
    forall d | d in ds :: d.key in m && m[d.key] == d.value && d.status >= 128
  }

  function KeysOf(ds: seq<DropRecord>): set<Drops.DropKey> { set d | d in ds :: d.key }

  /** A single drain takes one key out of what readers see. */
  lemma DrainTakes(s: Counting.State<Drops.DropKey>, k: Drops.DropKey)
    requires Counting.Consistent(s)
    ensures k in Counting.Contents(s) ==>
      && Counting.Enabled(s, Counting.Drain(k)) && s.objs[s.table[k]].packets == Counting.Contents(s)[k]
      && Counting.Contents(Counting.Take(s, Counting.Drain(k))) == Counting.Contents(s) - {k}
  {
  }

  lemma DrainOne(cfg: Config, s: System, d: DropRecord)
    requires s.draining && Counting.Consistent(s.tracer) && d.status >= 128
    requires d.key in Counting.Contents(s.tracer) && Counting.Contents(s.tracer)[d.key] == d.value.packets
    ensures Enabled(cfg, s, Drain(d))
    ensures var s' := Take(cfg, s, Drain(d));
      && s'.draining && s'.drained == s.drained + [d] && Counting.Consistent(s'.tracer)
      && Counting.Contents(s'.tracer) == Counting.Contents(s.tracer) - {d.key}
  {
    hide Counting.Consistent, Counting.Contents, Counting.Take, Counting.Enabled, DropEmission;
    DrainTakes(s.tracer, d.key);
    Counting.ConsistentStep(s.tracer, Counting.Drain(d.key));
  }

  lemma Remaining(m: DropMap, init: seq<DropRecord>, d: DropRecord)
    requires DistinctRecords(init + [d]) && RecordsOf(init + [d], m)
    ensures DistinctRecords(init) && RecordsOf(init, m)
    ensures d.key in Drops.PacketsByKey(m) - KeysOf(init) && d.status >= 128
    ensures (Drops.PacketsByKey(m) - KeysOf(init))[d.key] == d.value.packets
    ensures (Drops.PacketsByKey(m) - KeysOf(init)) - {d.key} == Drops.PacketsByKey(m) - KeysOf(init + [d])
  {
    var ds := init + [d];
    assert d in ds && forall i | 0 <= i < |init| :: ds[i] == init[i];
    forall e | e in init
      ensures e.key != d.key
    {
      var i :| 0 <= i < |init| && init[i] == e;
      assert ds[i] == e && ds[|init|] == d;
    }
    assert KeysOf(ds) == KeysOf(init) + {d.key};
  }

  /** Draining records of the map one by one leaves the map without their keys. */
  lemma {:induction false} DrainsRun(cfg: Config, s: System, m: DropMap, ds: seq<DropRecord>)
    requires s.draining && Counting.Consistent(s.tracer) && Counting.Contents(s.tracer) == Drops.PacketsByKey(m)
    requires DistinctRecords(ds) && RecordsOf(ds, m)
    ensures var r := RunOn(cfg, s, Drains(ds));
      && r.Some? && r.value.draining && r.value.drained == s.drained + ds
      && Counting.Consistent(r.value.tracer)
      && Counting.Contents(r.value.tracer) == Drops.PacketsByKey(m) - KeysOf(ds)
  {
    hide Counting.Consistent, Counting.Contents, Take, Enabled, DistinctRecords, RecordsOf, Drops.PacketsByKey;
    if |ds| == 0 {
      assert KeysOf(ds) == {};
    } else {
      hide KeysOf;
      var init, d := ds[..|ds| - 1], ds[|ds| - 1];
      assert Drains(ds)[..|ds| - 1] == Drains(init) && ds == init + [d];
      Remaining(m, init, d);
      DrainsRun(cfg, s, m, init);
      DrainOne(cfg, RunOn(cfg, s, Drains(init)).value, d);
    }
  }

  // ---- the walk -----------------------------------------------------------------------

  /** The records of one bucket, in order. */
  function InBucket(h: DropHashing, ds: seq<DropRecord>, b: nat): seq<DropRecord> {
    if |ds| == 0 then []
    else
      var init, d := InBucket(h, ds[..|ds| - 1], b), ds[|ds| - 1];
      if h.Bucket(d.key) == b then init + [d] else init
  }

  lemma {:induction false} InBucketHas(h: DropHashing, ds: seq<DropRecord>, b: nat)
    ensures forall d :: d in InBucket(h, ds, b) <==> d in ds && h.Bucket(d.key) == b
    ensures DistinctRecords(ds) ==> DistinctRecords(InBucket(h, ds, b))
  {
    if |ds| > 0 {
      var init, d := ds[..|ds| - 1], ds[|ds| - 1];
      InBucketHas(h, init, b);
      assert ds == init + [d];
    }
  }

  /** The records of the first `n` buckets, bucket by bucket. */
  function ByBucket(h: DropHashing, ds: seq<DropRecord>, n: nat): seq<DropRecord> {
    if n == 0 then [] else ByBucket(h, ds, n - 1) + InBucket(h, ds, n - 1)
  }

  lemma {:induction false} ByBucketHas(h: DropHashing, ds: seq<DropRecord>, n: nat)
    ensures forall d :: d in ByBucket(h, ds, n) <==> d in ds && h.Bucket(d.key) < n
    ensures DistinctRecords(ds) ==> DistinctRecords(ByBucket(h, ds, n))
  {
    if n > 0 {
      ByBucketHas(h, ds, n - 1);
      InBucketHas(h, ds, n - 1);
      var a, b := ByBucket(h, ds, n - 1), InBucket(h, ds, n - 1);
      var both: seq<DropRecord> := a + b;
      forall i, j | 0 <= i < j < |both| && DistinctRecords(ds)
        ensures both[i].key != both[j].key
      {
        if i < |a| <= j {
          assert a[i] in a && b[j - |a|] in b;
        }
      }
    }
  }

  /** Before bucket `b` is drained the tracer takes the steps `gaps[b]`. */
  function WalkSteps(h: DropHashing, ds: seq<DropRecord>, gaps: seq<DropSteps>, n: nat): seq<Step>
    requires n <= |gaps|
  {
    if n == 0 then [] else WalkSteps(h, ds, gaps, n - 1) + Traces(gaps[n - 1]) + Drains(InBucket(h, ds, n - 1))
  }

  /** What `w` finds in bucket `b` is what the drop map holds by then. */
  predicate MapAt(cfg: Config, s: System, steps: seq<Step>, m: DropMap) {
    RunOn(cfg, s, steps).Some? && Counting.Contents(RunOn(cfg, s, steps).value.tracer) == Drops.PacketsByKey(m)
  }

  /** Taking a bucket's keys out of a map. */
  lemma BucketOut(h: DropHashing, m: DropMap, ds: seq<DropRecord>, b: nat)
    requires forall d | d in ds :: d.key in m && h.Bucket(d.key) == b
    requires forall k | k in m && h.Bucket(k) == b :: k in KeysOf(ds)
    ensures Drops.PacketsByKey(m) - KeysOf(ds) == Drops.PacketsByKey(BatchWalk.Without(h, m, b))
  {
  }

  lemma RecordAt(ks: seq<Drops.DropKey>, vs: seq<FlowValue>, statusOf: U32 -> U8, d: DropRecord) returns (i: nat)
    requires |ks| == |vs| && d in DropRecords(ks, vs, statusOf)
    ensures i < |ks| && d == DropRecord(ks[i], vs[i], statusOf(ks[i].reason))
  {
    i :| 0 <= i < |ks| && DropRecords(ks, vs, statusOf)[i] == d;
  }

  lemma RecordFor(ks: seq<Drops.DropKey>, vs: seq<FlowValue>, statusOf: U32 -> U8, k: Drops.DropKey) returns (d: DropRecord)
    requires |ks| == |vs| && k in ks
    ensures d in DropRecords(ks, vs, statusOf) && d.key == k
  {
    var i :| 0 <= i < |ks| && ks[i] == k;
    d := DropRecords(ks, vs, statusOf)[i];
  }

  /** What a bucket's records are to the map the walk read it from. */
  lemma BucketRecords(h: DropHashing, y: BatchWalk.History<Drops.DropKey, FlowValue>,
                      w: BatchWalk.Walk<Drops.DropKey, FlowValue>, statusOf: U32 -> U8, b: nat)
    requires BatchWalk.Stands(h, y, w) && w.drain && b < |w.ts|
    requires forall reason :: statusOf(reason) >= 128
    ensures |w.ks| == |w.vs| && DistinctRecords(DropRecords(w.ks, w.vs, statusOf))
    ensures w.ts[b] + 1 < |y.states|
    ensures var ds, m := InBucket(h, DropRecords(w.ks, w.vs, statusOf), b), y.states[w.ts[b]];
      && DistinctRecords(ds) && RecordsOf(ds, m)
      && Drops.PacketsByKey(m) - KeysOf(ds) == Drops.PacketsByKey(y.states[w.ts[b] + 1])
  {
    hide BatchWalk.Kept, BatchWalk.Steady, BatchWalk.Without, DropRecords, InBucket, Drops.PacketsByKey, DistinctRecords;
    var all := DropRecords(w.ks, w.vs, statusOf);
    AllDistinct(w.ks, w.vs, statusOf);
    InBucketHas(h, all, b);
    var ds, m := InBucket(h, all, b), y.states[w.ts[b]];
    forall d | d in ds
      ensures d.key in m && m[d.key] == d.value && d.status >= 128
    {
      var i := RecordAt(w.ks, w.vs, statusOf, d);
    }
    forall k | k in m && h.Bucket(k) == b
      ensures k in KeysOf(ds)
    {
      var d := RecordFor(w.ks, w.vs, statusOf, k);
    }
    BucketOut(h, m, ds, b);
  }

  lemma AllDistinct(ks: seq<Drops.DropKey>, vs: seq<FlowValue>, statusOf: U32 -> U8)
    requires |ks| == |vs| && forall i, j | 0 <= i < j < |ks| :: ks[i] != ks[j]
    ensures DistinctRecords(DropRecords(ks, vs, statusOf))
  {
  }

  /** The tracer's steps, then a bucket's drains. */
  lemma NextBucket(cfg: Config, s: System, gap: DropSteps, m: DropMap, m': DropMap, bucket: seq<DropRecord>)
    requires s.draining && Counting.Consistent(s.tracer) && MapAt(cfg, s, Traces(gap), m)
    requires DistinctRecords(bucket) && RecordsOf(bucket, m) && Drops.PacketsByKey(m) - KeysOf(bucket) == Drops.PacketsByKey(m')
    ensures var r := RunOn(cfg, s, Traces(gap) + Drains(bucket));
      && r.Some? && r.value.draining && Counting.Consistent(r.value.tracer)
      && r.value.drained == s.drained + bucket
      && Counting.Contents(r.value.tracer) == Drops.PacketsByKey(m')
  {
    hide RunOn, Traces, Drains, Counting.Consistent, Counting.Contents, Drops.PacketsByKey, KeysOf, RecordsOf, DistinctRecords;
    RunOnBoth(cfg, s, Traces(gap), Drains(bucket));
    TracesKeep(cfg, s, gap);
    DrainsRun(cfg, RunOn(cfg, s, Traces(gap)).value, m, bucket);
  }

  lemma StepsOf(h: DropHashing, ds: seq<DropRecord>, gaps: seq<DropSteps>, n: nat)
    requires 0 < n <= |gaps|
    ensures WalkSteps(h, ds, gaps, n)
         == WalkSteps(h, ds, gaps, n - 1) + (Traces(gaps[n - 1]) + Drains(InBucket(h, ds, n - 1)))
    ensures ByBucket(h, ds, n) == ByBucket(h, ds, n - 1) + InBucket(h, ds, n - 1)
  {
  }

  lemma NoBuckets(cfg: Config, s: System, h: DropHashing, ds: seq<DropRecord>, gaps: seq<DropSteps>)
    ensures RunOn(cfg, s, WalkSteps(h, ds, gaps, 0)) == Some(s) && ByBucket(h, ds, 0) == []
  {
  }

  lemma MapAfter(cfg: Config, s: System, s1: System, before: seq<Step>, steps: seq<Step>, m: DropMap)
    requires MapAt(cfg, s, before + steps, m) && RunOn(cfg, s, before) == Some(s1)
    ensures MapAt(cfg, s1, steps, m)
  {
    hide RunOn, Counting.Contents, Drops.PacketsByKey;
    RunOnBoth(cfg, s, before, steps);
  }

  /** A drain walk of the drop map, complete or not, is a run of single drains with the
      tracer's own steps in between: if these lead to the maps the walk reads, every
      drain is possible and returns what the walk delivers, and the map ends as the walk
      leaves it. The records are the walk's, each once. */
  lemma {:induction false} DrainsAreTheWalk(
      cfg: Config, s: System, h: DropHashing, y: BatchWalk.History<Drops.DropKey, FlowValue>,
      w: BatchWalk.Walk<Drops.DropKey, FlowValue>, statusOf: U32 -> U8, gaps: seq<DropSteps>, n: nat)
    requires BatchWalk.Stands(h, y, w) && w.drain && |w.ks| == |w.vs|
    requires s.draining && Counting.Consistent(s.tracer) && (forall reason :: statusOf(reason) >= 128)
    requires n <= |gaps| == |w.ts| && forall b | 0 <= b < n :: w.ts[b] < |y.states|
    requires var ds := DropRecords(w.ks, w.vs, statusOf);
      forall b | 0 <= b < n :: MapAt(cfg, s, WalkSteps(h, ds, gaps, b) + Traces(gaps[b]), y.states[w.ts[b]])
    ensures var ds := DropRecords(w.ks, w.vs, statusOf); var r := RunOn(cfg, s, WalkSteps(h, ds, gaps, n));
      && r.Some? && r.value.draining && Counting.Consistent(r.value.tracer)
      && r.value.drained == s.drained + ByBucket(h, ds, n)
      && (n > 0 ==>
            w.ts[n - 1] + 1 < |y.states|
            && Counting.Contents(r.value.tracer) == Drops.PacketsByKey(y.states[w.ts[n - 1] + 1]))
  {
    hide *;
    var ds := DropRecords(w.ks, w.vs, statusOf);
    if n == 0 {
      NoBuckets(cfg, s, h, ds, gaps);
    } else {
      DrainsAreTheWalk(cfg, s, h, y, w, statusOf, gaps, n - 1);
      var before, bucket, gap := WalkSteps(h, ds, gaps, n - 1), InBucket(h, ds, n - 1), gaps[n - 1];
      var s1 := RunOn(cfg, s, before).value;
      BucketRecords(h, y, w, statusOf, n - 1);
      var m, m' := y.states[w.ts[n - 1]], y.states[w.ts[n - 1] + 1];
      assert MapAt(cfg, s, before + Traces(gap), m);
      MapAfter(cfg, s, s1, before, Traces(gap), m);
      NextBucket(cfg, s1, gap, m, m', bucket);
      StepsOf(h, ds, gaps, n);
      RunOnBoth(cfg, s, before, Traces(gap) + Drains(bucket));
      assert s.drained + ByBucket(h, ds, n - 1) + bucket == s.drained + (ByBucket(h, ds, n - 1) + bucket);
    }
  }

  /** All the walk's records, and nothing else, are drained. */
  lemma {:induction false} AllRecordsDrained(
      h: DropHashing, y: BatchWalk.History<Drops.DropKey, FlowValue>,
      w: BatchWalk.Walk<Drops.DropKey, FlowValue>, statusOf: U32 -> U8)
    requires BatchWalk.Stands(h, y, w)
    ensures |w.ks| == |w.vs|
    ensures var ds := DropRecords(w.ks, w.vs, statusOf);
      && (forall d :: d in ByBucket(h, ds, |w.ts|) <==> d in ds)
      && DistinctRecords(ByBucket(h, ds, |w.ts|)) && DistinctRecords(ds)
  {
    BatchWalk.EachKeyOnce(h, y, w);
    BatchWalk.StandsBuckets(h, y, w);
    hide BatchWalk.Stands;
    var ds := DropRecords(w.ks, w.vs, statusOf);
    ByBucketHas(h, ds, |w.ts|);
    forall d | d in ds
      ensures h.Bucket(d.key) < |w.ts|
    {
      var i :| 0 <= i < |ds| && ds[i] == d;
    }
  }
}
