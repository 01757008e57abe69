/** Batched walks over a kernel hash map that the rest of the system keeps changing. */
module BatchWalk {

  /** What the rest of the system does to the map between two bucket reads. */
  datatype EnvOp<K, V> = Put(key: K, value: V) | Remove(key: K)

  /** Errors the batch call reports: walked past the last bucket, buffer smaller
      than the next bucket, or anything else. */
  datatype Errno = Ok | ENOENT | ENOSPC | EFAULT

  /** The geometry of a hash map. */
  datatype Hashing<!K> = Hashing(lastBucket: nat, hash: K -> nat) {
    function Bucket(k: K): (b: nat)
      ensures b <= lastBucket
    {
      hash(k) % (lastBucket + 1)
    }
  }

  function Keys<K>(ks: seq<K>): set<K> { set k | k in ks }

  lemma KeysPrefix<K>(ks: seq<K>, i: nat)
    requires i < |ks|
    ensures Keys(ks[..i + 1]) == Keys(ks[..i]) + {ks[i]}
  {
    assert ks[..i + 1] == ks[..i] + [ks[i]];
  }

  lemma SubsetSize<T>(a: set<T>, b: set<T>)
    requires a <= b
    ensures |a| <= |b|
  {
    assert |b - a| + |a| == |b| by { assert (b - a) + a == b && (b - a) * a == {}; }
  }

  // ---- what a walk delivers -----------------------------------------------------

  /** `ks` and `vs` are the entries of bucket `b` of `m`, each once. */
  ghost predicate BucketCopy<K(!new), V>(h: Hashing<K>, m: map<K, V>, b: nat, ks: seq<K>, vs: seq<V>) {
    && |ks| == |vs| && (forall i, j | 0 <= i < j < |ks| :: ks[i] != ks[j])
    && (forall i | 0 <= i < |ks| :: ks[i] in m && h.Bucket(ks[i]) == b && vs[i] == m[ks[i]])
    && (forall k | k in m && h.Bucket(k) == b :: k in ks)
  }

  /** The first `|ts|` buckets were read one at a time, bucket `b` in state
      `states[ts[b]]`, and the keys and values delivered are exactly what the map
      held there at those times, each key once. */
  ghost predicate Delivered<K(!new), V>(h: Hashing<K>, states: seq<map<K, V>>, ts: seq<nat>, ks: seq<K>, vs: seq<V>) {
    && |ks| == |vs| && (forall i, j | 0 <= i < j < |ks| :: ks[i] != ks[j])
    && (forall b | 0 <= b < |ts| :: ts[b] < |states|)
    && (forall i | 0 <= i < |ks| :: h.Bucket(ks[i]) < |ts| && ks[i] in states[ts[h.Bucket(ks[i])]]
                                    && vs[i] == states[ts[h.Bucket(ks[i])]][ks[i]])
    && (forall k | h.Bucket(k) < |ts| && k in states[ts[h.Bucket(k)]] :: k in ks)
  }

  lemma DeliveredLater<K(!new), V>(h: Hashing<K>, states: seq<map<K, V>>, more: seq<map<K, V>>, ts: seq<nat>, ks: seq<K>, vs: seq<V>)
    requires Delivered(h, states, ts, ks, vs) && states <= more
    ensures Delivered(h, more, ts, ks, vs)
  {
    assert forall i | 0 <= i < |states| :: more[i] == states[i];
  }

  lemma DeliveredMore<K(!new), V>(
      h: Hashing<K>, states: seq<map<K, V>>, ts: seq<nat>, ks: seq<K>, vs: seq<V>, t: nat, ks': seq<K>, vs': seq<V>)
    requires Delivered(h, states, ts, ks, vs) && t < |states| && BucketCopy(h, states[t], |ts|, ks', vs')
    ensures Delivered(h, states, ts + [t], ks + ks', vs + vs')
  {
    var kk, vv, tt := ks + ks', vs + vs', ts + [t];
    forall i | 0 <= i < |kk|
      ensures h.Bucket(kk[i]) < |tt| && kk[i] in states[tt[h.Bucket(kk[i])]] && vv[i] == states[tt[h.Bucket(kk[i])]][kk[i]]
    {
      if i < |ks| {
        assert kk[i] == ks[i] && vv[i] == vs[i];
      } else {
        assert kk[i] == ks'[i - |ks|] && vv[i] == vs'[i - |ks|];
      }
    }
    forall k | h.Bucket(k) < |tt| && k in states[tt[h.Bucket(k)]]
      ensures k in kk
    {
      if h.Bucket(k) < |ts| {
        assert k in ks;
      } else {
        assert k in ks';
      }
    }
    forall i, j | 0 <= i < j < |kk|
      ensures kk[i] != kk[j]
    {
      if i < |ks| <= j {
        assert kk[i] == ks[i] && kk[j] == ks'[j - |ks|];
        assert h.Bucket(ks[i]) < |ts| && h.Bucket(ks'[j - |ks|]) == |ts|;
      }
    }
  }

  /** A key that is in the map in every state from the first read on is delivered. */
  lemma PresentIsDelivered<K(!new), V>(
      h: Hashing<K>, states: seq<map<K, V>>, ts: seq<nat>, ks: seq<K>, vs: seq<V>, since: nat, k: K)
    requires Delivered(h, states, ts, ks, vs) && |ts| == h.lastBucket + 1
    requires forall b | 0 <= b < |ts| :: since <= ts[b]
    requires forall i | since <= i < |states| :: k in states[i]
    ensures k in ks
  {
    assert k in states[ts[h.Bucket(k)]];
  }

  /** Since the map held `start`: an entry that is gone was taken or removed by the
      environment, and one that is there was neither, unless the environment put it
      (back). */
  ghost predicate Kept<K(!new), V>(start: map<K, V>, m: map<K, V>, put: set<K>, removed: set<K>, taken: set<K>) {
    && (forall k | k in start :: k in taken || k in removed || k in m)
    && (forall k | k in m :: k in put || (k in start && m[k] == start[k] && k !in taken && k !in removed))
  }

  /** All along, an entry of `start` neither taken nor removed was in the map, and
      nothing was in it that the environment did not put there, but `start`. */
  ghost predicate Steady<K(!new), V>(
      start: map<K, V>, states: seq<map<K, V>>, since: nat, put: set<K>, removed: set<K>, taken: set<K>) {
    && (forall i, k | since <= i < |states| && k in start && k !in removed && k !in taken :: k in states[i])
    && (forall i, k | since <= i < |states| && k in states[i] && k !in put :: k in start && states[i][k] == start[k])
  }

  lemma SteadySnoc<K(!new), V>(start: map<K, V>, states: seq<map<K, V>>, since: nat, put: set<K>, removed: set<K>, taken: set<K>,
                               put': set<K>, removed': set<K>, taken': set<K>, m: map<K, V>)
    requires Steady(start, states, since, put, removed, taken) && put <= put' && removed <= removed' && taken <= taken'
    requires Kept(start, m, put', removed', taken')
    ensures Steady(start, states + [m], since, put', removed', taken')
  {
    var states' := states + [m];
    assert forall i | 0 <= i < |states| :: states'[i] == states[i];
  }

  lemma KeptTaken<K(!new), V>(start: map<K, V>, m: map<K, V>, put: set<K>, removed: set<K>, taken: set<K>, more: set<K>)
    requires Kept(start, m, put, removed, taken)
    ensures Kept(start, m - more, put, removed, taken + more)
  {
  }

  lemma KeptPut<K(!new), V>(start: map<K, V>, m: map<K, V>, put: set<K>, removed: set<K>, taken: set<K>, k: K, v: V)
    requires Kept(start, m, put, removed, taken)
    ensures Kept(start, m[k := v], put + {k}, removed, taken)
  {
  }

  lemma KeptRemove<K(!new), V>(start: map<K, V>, m: map<K, V>, put: set<K>, removed: set<K>, taken: set<K>, k: K)
    requires Kept(start, m, put, removed, taken)
    ensures Kept(start, m - {k}, put, removed + {k}, taken)
  {
  }

  lemma PutKeeps<K(!new), V>(start: map<K, V>, states: seq<map<K, V>>, since: nat, m: map<K, V>, put: set<K>, removed: set<K>,
                             taken: set<K>, k: K, v: V)
    requires Kept(start, m, put, removed, taken) && Steady(start, states, since, put, removed, taken)
    ensures Kept(start, m[k := v], put + {k}, removed, taken)
    ensures Steady(start, states + [m[k := v]], since, put + {k}, removed, taken)
  {
    hide Kept, Steady;
    KeptPut(start, m, put, removed, taken, k, v);
    SteadySnoc(start, states, since, put, removed, taken, put + {k}, removed, taken, m[k := v]);
  }

  lemma RemoveKeeps<K(!new), V>(start: map<K, V>, states: seq<map<K, V>>, since: nat, m: map<K, V>, put: set<K>, removed: set<K>,
                                taken: set<K>, k: K)
    requires Kept(start, m, put, removed, taken) && Steady(start, states, since, put, removed, taken)
    ensures Kept(start, m - {k}, put, removed + {k}, taken)
    ensures Steady(start, states + [m - {k}], since, put, removed + {k}, taken)
  {
    hide Kept, Steady;
    KeptRemove(start, m, put, removed, taken, k);
    SteadySnoc(start, states, since, put, removed, taken, put, removed + {k}, taken, m - {k});
  }

  /** Where the environment did nothing, exactly what was taken is gone. */
  lemma KeptQuiet<K(!new), V>(start: map<K, V>, m: map<K, V>, taken: set<K>)
    requires Kept(start, m, {}, {}, taken)
    ensures m == start - taken
  {
  }

  /** The map without its entries of bucket `b`. */
  function Without<K, V>(h: Hashing<K>, m: map<K, V>, b: nat): map<K, V> {
    map k | k in m && h.Bucket(k) != b :: m[k]
  }

  /** Reading a bucket removed its entries, all at once, and no others. */
  ghost predicate Emptied<K(!new), V>(h: Hashing<K>, states: seq<map<K, V>>, ts: seq<nat>) {
    forall b | 0 <= b < |ts| :: ts[b] + 1 < |states| && states[ts[b] + 1] == Without(h, states[ts[b]], b)
  }

  lemma EmptiedMore<K(!new), V>(h: Hashing<K>, states: seq<map<K, V>>, after: map<K, V>, ts: seq<nat>, b: nat)
    requires Emptied(h, states, ts) && b == |ts| && |states| > 0 && after == Without(h, states[|states| - 1], b)
    ensures Emptied(h, states + [after], ts + [|states| - 1])
  {
    hide Without;
  }

  lemma EmptiedLater<K(!new), V>(h: Hashing<K>, states: seq<map<K, V>>, more: seq<map<K, V>>, ts: seq<nat>)
    requires Emptied(h, states, ts) && states <= more
    ensures Emptied(h, more, ts)
  {
    hide Without;
    assert forall i | 0 <= i < |states| :: more[i] == states[i];
  }

  /** Removing a bucket's copy leaves the map without the bucket. */
  lemma CopyRemoved<K(!new), V>(h: Hashing<K>, m: map<K, V>, b: nat, ks: seq<K>, vs: seq<V>)
    requires BucketCopy(h, m, b, ks, vs)
    ensures m - Keys(ks) == Without(h, m, b)
  {
  }

  /** The map's history, and what the environment did to it since a walk began. */
  datatype History<K, V> = History(states: seq<map<K, V>>, put: set<K>, removed: set<K>)

  /** A walk that began at time `since` with the map holding `start`: buckets read,
      keys and values delivered. */
  datatype Walk<K, V> = Walk(since: nat, start: map<K, V>, drain: bool, ts: seq<nat>, ks: seq<K>, vs: seq<V>)

  /** Where a walk stands. */
  ghost predicate Stands<K(!new), V>(h: Hashing<K>, y: History<K, V>, w: Walk<K, V>) {
    && w.since < |y.states|
    && Delivered(h, y.states, w.ts, w.ks, w.vs)
    && (forall b | 0 <= b < |w.ts| :: w.since <= w.ts[b])
    && Kept(w.start, y.states[|y.states| - 1], y.put, y.removed, if w.drain then Keys(w.ks) else {})
    && Steady(w.start, y.states, w.since, y.put, y.removed, if w.drain then Keys(w.ks) else {})
    && (w.drain ==> Emptied(h, y.states, w.ts))
  }

  /** The next bucket is delivered, and emptied when draining. */
  lemma {:induction false} StandsAfterBucket<K(!new), V>(h: Hashing<K>, y: History<K, V>, w: Walk<K, V>, bk: seq<K>, bv: seq<V>)
    requires Stands(h, y, w) && |y.states| > 0
    requires BucketCopy(h, y.states[|y.states| - 1], |w.ts|, bk, bv)
    ensures var m := y.states[|y.states| - 1];
      var y' := if w.drain then y.(states := y.states + [m - Keys(bk)]) else y;
      Stands(h, y', w.(ts := w.ts + [|y.states| - 1], ks := w.ks + bk, vs := w.vs + bv))
  {
    hide Delivered, Emptied, Kept, Steady;
    var m, t := y.states[|y.states| - 1], |y.states| - 1;
    DeliveredMore(h, y.states, w.ts, w.ks, w.vs, t, bk, bv);
    if w.drain {
      var after := m - Keys(bk);
      DeliveredLater(h, y.states, y.states + [after], w.ts + [t], w.ks + bk, w.vs + bv);
      CopyRemoved(h, m, |w.ts|, bk, bv);
      EmptiedMore(h, y.states, after, w.ts, |w.ts|);
      KeptTaken(w.start, m, y.put, y.removed, Keys(w.ks), Keys(bk));
      assert Keys(w.ks + bk) == Keys(w.ks) + Keys(bk);
      SteadySnoc(w.start, y.states, w.since, y.put, y.removed, Keys(w.ks), y.put, y.removed, Keys(w.ks + bk), after);
    }
  }

  lemma StandsBuckets<K(!new), V>(h: Hashing<K>, y: History<K, V>, w: Walk<K, V>)
    requires Stands(h, y, w)
    ensures |w.ks| == |w.vs| && forall i | 0 <= i < |w.ks| :: h.Bucket(w.ks[i]) < |w.ts|
  {
  }

  /** Buckets that delivered nothing can be walked again. */
  lemma Shrink<K(!new), V>(h: Hashing<K>, y: History<K, V>, w: Walk<K, V>, ts0: seq<nat>)
    requires Stands(h, y, w) && ts0 <= w.ts
    requires forall i | 0 <= i < |w.ks| :: h.Bucket(w.ks[i]) < |ts0|
    ensures Stands(h, y, w.(ts := ts0))
  {
    hide Kept, Without, Steady, Delivered;
    assert forall b | 0 <= b < |ts0| :: ts0[b] == w.ts[b];
    DeliveredShrink(h, y.states, w.ts, ts0, w.ks, w.vs);
  }

  lemma DeliveredShrink<K(!new), V>(h: Hashing<K>, states: seq<map<K, V>>, ts: seq<nat>, ts0: seq<nat>, ks: seq<K>, vs: seq<V>)
    requires Delivered(h, states, ts, ks, vs) && ts0 <= ts
    requires forall i | 0 <= i < |ks| :: h.Bucket(ks[i]) < |ts0|
    ensures Delivered(h, states, ts0, ks, vs)
  {
    assert forall b | 0 <= b < |ts0| :: ts0[b] == ts[b];
  }

  // ---- the kernel's map -----------------------------------------------------------

  /** The kernel's hash map. The rest of the system is an arbitrary script: `world`
      lists its moves at each point in time, `faults` says which calls fail. */
  class Table<K(==, !new), V(==)> {
    const hashing: Hashing<K>
    const capacity: nat
    const world: nat -> seq<EnvOp<K, V>>
    const faults: nat -> bool
    var entries: map<K, V>
    var clock: nat
    ghost var trace: seq<map<K, V>>
    ghost var put: set<K>
    ghost var removed: set<K>
    ghost var since: nat

    ghost predicate Valid()
      reads this
    {
      |entries| <= capacity && |trace| > 0 && trace[|trace| - 1] == entries && Caused()
    }

    ghost function Past(): History<K, V>
      reads this
    {
      History(trace, put, removed)
    }

    /** The environment leaves the map alone at time `t`. */
    predicate Quiet(t: nat) { world(t) == [] }

    ghost predicate QuietDuring(from: nat, to: nat) { forall t | from <= t < to :: Quiet(t) }

    /** Some call in that time, or the next one, fails. */
    ghost predicate Faulted(from: nat, to: nat) { exists t: nat :: from <= t <= to && faults(t) }

    /** The environment puts (removes) `k` at some time from `from` on and before `to`. */
    ghost predicate Puts(k: K, from: nat, to: nat) {
      exists t: nat, i: nat :: from <= t < to && i < |world(t)| && world(t)[i].Put? && world(t)[i].key == k
    }

    ghost predicate Removes(k: K, from: nat, to: nat) {
      exists t: nat, i: nat :: from <= t < to && i < |world(t)| && world(t)[i].Remove? && world(t)[i].key == k
    }

    /** What was put or removed since `since` is the environment's doing in that time. */
    ghost predicate Caused()
      reads this`since, this`clock, this`put, this`removed
    {
      && since <= clock
      && (forall k | k in put :: Puts(k, since, clock))
      && (forall k | k in removed :: Removes(k, since, clock))
    }

    /** Nobody puts or removes keys when nobody moves. */
    lemma SomeoneMoves(k: K, from: nat, to: nat)
      ensures Puts(k, from, to) || Removes(k, from, to) ==> !QuietDuring(from, to)
    {
      if Puts(k, from, to) {
        var t: nat, i: nat :| from <= t < to && i < |world(t)| && world(t)[i].Put? && world(t)[i].key == k;
        assert !Quiet(t);
      }
      if Removes(k, from, to) {
        var t: nat, i: nat :| from <= t < to && i < |world(t)| && world(t)[i].Remove? && world(t)[i].key == k;
        assert !Quiet(t);
      }
    }

    lemma NothingCaused()
      requires Caused()
      ensures QuietDuring(since, clock) ==> put == {} && removed == {}
    {
      hide Table<K, V>.Puts, Table<K, V>.Removes, Table<K, V>.QuietDuring;
      forall k
        ensures Puts(k, since, clock) || Removes(k, since, clock) ==> !QuietDuring(since, clock)
      {
        SomeoneMoves(k, since, clock);
      }
    }

    /** What happens in a time happens in any longer one. */
    lemma Longer(k: K, from: nat, to: nat, from': nat, to': nat)
      requires from' <= from && to <= to'
      ensures Puts(k, from, to) ==> Puts(k, from', to')
      ensures Removes(k, from, to) ==> Removes(k, from', to')
    {
    }

    constructor (hashing: Hashing<K>, capacity: nat, world: nat -> seq<EnvOp<K, V>>, faults: nat -> bool,
                 entries: map<K, V>)
      requires |entries| <= capacity
      ensures Valid() && this.entries == entries && trace == [entries] && clock == 0 && since == 0 && put == {} && removed == {}
      ensures this.hashing == hashing && this.capacity == capacity && this.world == world && this.faults == faults
    {
      this.hashing, this.capacity, this.world, this.faults := hashing, capacity, world, faults;
      this.entries, clock := entries, 0;
      trace, put, removed, since := [entries], {}, {}, 0;
    }

    /** What was caused before the clock moves on was. */
    lemma MoreTime()
      requires Caused()
      ensures since <= clock
      ensures forall k | k in put :: Puts(k, since, clock + 1)
      ensures forall k | k in removed :: Removes(k, since, clock + 1)
    {
      forall k
        ensures Puts(k, since, clock) ==> Puts(k, since, clock + 1)
        ensures Removes(k, since, clock) ==> Removes(k, since, clock + 1)
      {
        Longer(k, since, clock, since, clock + 1);
      }
    }

    lemma OneMove(from: nat, t: nat, i: nat)
      requires from <= t && i < |world(t)|
      ensures world(t)[i].Put? ==> Puts(world(t)[i].key, from, t + 1)
      ensures world(t)[i].Remove? ==> Removes(world(t)[i].key, from, t + 1)
    {
    }

    /** One move of the environment, at the time just past. */
    method Move(op: EnvOp<K, V>, ghost begun: nat, ghost start: map<K, V>, ghost taken: set<K>)
      requires Valid() && Kept(start, entries, put, removed, taken) && Steady(start, trace, begun, put, removed, taken)
      requires op.Put? ==> Puts(op.key, since, clock)
      requires op.Remove? ==> Removes(op.key, since, clock)
      modifies this`entries, this`trace, this`put, this`removed
      ensures Valid() && old(trace) <= trace && old(removed) <= removed
      ensures Kept(start, entries, put, removed, taken) && Steady(start, trace, begun, put, removed, taken)
    {
      hide Steady, Kept, Table<K, V>.Puts, Table<K, V>.Removes;
      match op {
        case Put(k, v) =>
          var grown := entries[k := v];
          if |grown| <= capacity {
            PutKeeps(start, trace, begun, entries, put, removed, taken, k, v);
            entries := grown;
            put := put + {k};
          } else {
            SteadySnoc(start, trace, begun, put, removed, taken, put, removed, taken, entries);
          }
        case Remove(k) =>
          RemoveKeeps(start, trace, begun, entries, put, removed, taken, k);
          SubsetSize((entries - {k}).Keys, entries.Keys);
          entries := entries - {k};
          removed := removed + {k};
      }
      trace := trace + [entries];
    }

    /** Time passes: the environment makes its moves, never letting the map outgrow
        its capacity. */
    method Interfere(ghost begun: nat, ghost start: map<K, V>, ghost taken: set<K>)
      requires Valid() && Kept(start, entries, put, removed, taken) && Steady(start, trace, begun, put, removed, taken)
      modifies this
      ensures Valid() && old(trace) <= trace && old(removed) <= removed && clock == old(clock) + 1 && since == old(since)
      ensures Kept(start, entries, put, removed, taken) && Steady(start, trace, begun, put, removed, taken)
    {
      hide Steady, Kept, Table<K, V>.Puts, Table<K, V>.Removes;
      var ops, t := world(clock), clock;
      MoreTime();
      clock := clock + 1;
      for i := 0 to |ops|
        invariant Valid() && old(trace) <= trace && old(removed) <= removed && clock == t + 1 && since == old(since)
        invariant Kept(start, entries, put, removed, taken) && Steady(start, trace, begun, put, removed, taken)
      {
        OneMove(since, t, i);
        Move(ops[i], begun, start, taken);
      }
    }

    function BucketKeys(b: nat): set<K>
      reads this
    {
      set k | k in entries && hashing.Bucket(k) == b
    }

    /** Copy one bucket out, in any order. */
    method CopyBucket(b: nat) returns (ks: seq<K>, vs: seq<V>)
      requires Valid()
      ensures BucketCopy(hashing, entries, b, ks, vs) && |ks| <= capacity
    {
      ks, vs := [], [];
      var todo := BucketKeys(b);
      SubsetSize(todo, entries.Keys);
      while todo != {}
        invariant |ks| == |vs| && forall i, j | 0 <= i < j < |ks| :: ks[i] != ks[j]
        invariant forall i | 0 <= i < |ks| :: ks[i] in entries && hashing.Bucket(ks[i]) == b && vs[i] == entries[ks[i]]
        invariant forall k | k in entries && hashing.Bucket(k) == b :: k in ks || k in todo
        invariant forall k | k in todo :: k in entries && hashing.Bucket(k) == b && k !in ks
        invariant |ks| + |todo| <= capacity
        decreases |todo|
      {
        var k :| k in todo;
        todo := todo - {k};
        ks, vs := ks + [k], vs + [entries[k]];
      }
    }

    /** The environment moves; the walk stands where it stood. */
    method Tick(ghost w: Walk<K, V>)
      requires Valid() && Stands(hashing, Past(), w)
      modifies this
      ensures Valid() && Stands(hashing, Past(), w) && old(trace) <= trace && |trace| > 0
      ensures since == old(since) && old(clock) <= clock
    {
      hide Delivered, Emptied, Kept, Steady;
      Interfere(w.since, w.start, if w.drain then Keys(w.ks) else {});
      DeliveredLater(hashing, old(trace), trace, w.ts, w.ks, w.vs);
      if w.drain {
        EmptiedLater(hashing, old(trace), trace, w.ts);
      }
    }

    /** Deliver the next bucket, and empty it when draining. */
    method Accept(ghost w: Walk<K, V>, drain: bool, bk: seq<K>, bv: seq<V>)
      requires Valid() && Stands(hashing, Past(), w) && BucketCopy(hashing, entries, |w.ts|, bk, bv) && w.drain == drain
      modifies this`entries, this`trace
      ensures Valid() && old(trace) <= trace
      ensures Stands(hashing, Past(), w.(ts := w.ts + [|old(trace)| - 1], ks := w.ks + bk, vs := w.vs + bv))
      ensures drain ==> entries == old(entries) - Keys(bk)
      ensures !drain ==> entries == old(entries)
    {
      hide Stands, BucketCopy, Table<K, V>.Caused;
      StandsAfterBucket(hashing, Past(), w, bk, bv);
      if drain {
        entries := entries - Keys(bk);
        SubsetSize(entries.Keys, old(entries).Keys);
        trace := trace + [entries];
      }
    }

    /** The kernel's batch call, from bucket `token` on: whole buckets while they fit
        `max` entries. A first bucket that does not fit is ENOSPC with nothing
        delivered, past the last bucket is ENOENT, and a failing call does nothing.
        `w` is the walk this call continues, `w'` where it stands afterwards. */
    method LookupBatch(token: nat, max: nat, drain: bool, ghost w: Walk<K, V>)
      returns (err: Errno, next: nat, ks: seq<K>, vs: seq<V>, ghost w': Walk<K, V>)
      requires Valid() && Stands(hashing, Past(), w)
      requires token == |w.ts| <= hashing.lastBucket && w.drain == drain
      modifies this
      ensures Valid() && Stands(hashing, Past(), w') && old(trace) <= trace
      ensures w' == w.(ts := w'.ts, ks := w.ks + ks, vs := w.vs + vs)
      ensures |ks| == |vs| <= max
      ensures err.Ok? || err.ENOENT? ==> next == |w'.ts|
      ensures err.Ok? ==> token < next <= hashing.lastBucket
      ensures err.ENOENT? ==> next == hashing.lastBucket + 1
      ensures err.ENOSPC? || err.EFAULT? ==> ks == [] && w' == w
      ensures err.ENOSPC? ==> max < capacity
      ensures err.EFAULT? ==> faults(old(clock))
      ensures since == old(since) && old(clock) <= clock
    {
      hide Stands, BucketCopy, Past, Table<K, V>.Valid;
      StandsBuckets(hashing, Past(), w);
      ks, vs, next, w' := [], [], token, w;
      assert w.ks + ks == w.ks && w.vs + vs == w.vs;
      if faults(clock) {
        return EFAULT, next, ks, vs, w';
      }
      while true
        invariant Valid() && Stands(hashing, Past(), w') && old(trace) <= trace
        invariant w' == w.(ts := w'.ts, ks := w.ks + ks, vs := w.vs + vs) && w.ts <= w'.ts
        invariant token <= next == |w'.ts| <= hashing.lastBucket && |ks| == |vs| <= max
        invariant next == token ==> |ks| == 0
        invariant since == old(since) && old(clock) <= clock
        decreases hashing.lastBucket - next
      {
        Tick(w');
        var bk, bv := CopyBucket(next);
        if |bk| > max - |ks| {
          if |ks| == 0 {
            assert w'.ks == w.ks && w'.vs == w.vs;
            Shrink(hashing, Past(), w', w.ts);
            return ENOSPC, next, [], [], w;
          }
          return Ok, next, ks, vs, w';
        }
        ghost var t := |trace| - 1;
        CopyLengths(hashing, entries, next, bk, bv);
        Accept(w', drain, bk, bv);
        AppendAssociates(w.ks, ks, bk);
        AppendAssociates(w.vs, vs, bv);
        w' := w'.(ts := w'.ts + [t], ks := w'.ks + bk, vs := w'.vs + bv);
        ks, vs, next := ks + bk, vs + bv, next + 1;
        if next > hashing.lastBucket {
          return ENOENT, next, ks, vs, w';
        }
      }
    }

    /** Forget what the environment did before, to watch what it does from now on. */
    ghost method Watch()
      modifies this`put, this`removed, this`since
      ensures put == {} && removed == {} && since == clock
    {
      put, removed, since := {}, {}, clock;
    }

    /** The environment moves between two erasures. */
    method Settle(ghost start: map<K, V>, ghost taken: set<K>)
      requires Valid() && Kept(start, entries, put, removed, taken)
      modifies this
      ensures Valid() && Kept(start, entries, put, removed, taken) && old(removed) <= removed
      ensures since == old(since) && old(clock) <= clock
    {
      Interfere(|trace|, start, taken);
    }

    /** Delete one entry; a key that is not there is no error. */
    method Erase(key: K)
      requires Valid()
      modifies this`entries, this`trace
      ensures Valid() && entries == old(entries) - {key} && trace == old(trace) + [entries]
    {
      entries := entries - {key};
      SubsetSize(entries.Keys, old(entries).Keys);
      trace := trace + [entries];
    }
  }

  lemma AppendAssociates<T>(a: seq<T>, b: seq<T>, c: seq<T>)
    ensures (a + b) + c == a + (b + c)
  {
  }

  lemma CopyLengths<K(!new), V>(h: Hashing<K>, m: map<K, V>, b: nat, ks: seq<K>, vs: seq<V>)
    requires BucketCopy(h, m, b, ks, vs)
    ensures |ks| == |vs|
  {
  }

  const FIRST_BUFFER: nat := 256

  lemma WalkBegins<K(!new), V>(h: Hashing<K>, y: History<K, V>, drain: bool)
    requires |y.states| > 0 && y.put == {} && y.removed == {}
    ensures Stands(h, y, Walk(|y.states| - 1, y.states[|y.states| - 1], drain, [], [], []))
  {
  }

  /** The agent's walk: call after call from the token the last one left, doubling
      the buffer when a bucket does not fit, until the last bucket is behind. The
      result is a walk of every bucket, or on a map error a walk of some. */
  method BatchWalk<K(==, !new), V(==)>(table: Table<K, V>, drain: bool)
    returns (ok: bool, keys: seq<K>, values: seq<V>, ghost w: Walk<K, V>)
    requires table.Valid()
    modifies table
    ensures table.Valid() && Stands(table.hashing, table.Past(), w) && old(table.trace) <= table.trace
    ensures w == Walk(|old(table.trace)| - 1, old(table.entries), drain, w.ts, keys, values)
    ensures ok ==> |w.ts| == table.hashing.lastBucket + 1
    ensures ok || table.Faulted(old(table.clock), table.clock)
    ensures table.since == old(table.clock) <= table.clock
  {
    hide Stands;
    table.Watch();
    WalkBegins(table.hashing, table.Past(), drain);
    w := Walk(|table.trace| - 1, table.entries, drain, [], [], []);
    keys, values := [], [];
    var size := FIRST_BUFFER;
    var inBatch, first := 0, true;
    while true
      invariant table.Valid() && Stands(table.hashing, table.Past(), w) && old(table.trace) <= table.trace
      invariant w == Walk(|old(table.trace)| - 1, old(table.entries), drain, w.ts, keys, values)
      invariant (if first then 0 else inBatch) == |w.ts| <= table.hashing.lastBucket && size > 0
      invariant table.since == old(table.clock) <= table.clock
      decreases table.hashing.lastBucket + 1 - |w.ts|, if size < table.capacity then table.capacity - size else 0
    {
      var e, outBatch, ks, vs, w' := table.LookupBatch(if first then 0 else inBatch, size, drain, w);
      if e == ENOSPC && |ks| == 0 {
        size := size * 2;
        continue;
      }
      if e != Ok && e != ENOENT {
        return false, keys, values, w;
      }
      keys, values, w := keys + ks, values + vs, w';
      if e == ENOENT {
        return true, keys, values, w;
      }
      inBatch := outBatch;
      first := false;
    }
  }

  // ---- what callers get ---------------------------------------------------------------

  /** A walk delivers no key twice, and with each key a value the map held for it at
      some time since the walk began. */
  lemma EachKeyOnce<K(!new), V>(h: Hashing<K>, y: History<K, V>, w: Walk<K, V>)
    requires Stands(h, y, w)
    ensures |w.ks| == |w.vs| && forall i, j | 0 <= i < j < |w.ks| :: w.ks[i] != w.ks[j]
    ensures forall i | 0 <= i < |w.ks| ::
      exists t :: w.since <= t < |y.states| && w.ks[i] in y.states[t] && y.states[t][w.ks[i]] == w.vs[i]
  {
    hide Kept, Steady, Emptied;
    forall i | 0 <= i < |w.ks|
      ensures exists t :: w.since <= t < |y.states| && w.ks[i] in y.states[t] && y.states[t][w.ks[i]] == w.vs[i]
    {
      var t := w.ts[h.Bucket(w.ks[i])];
      assert w.ks[i] in y.states[t];
    }
  }

  /** A complete walk delivers every entry that the environment leaves alone. */
  lemma UntouchedIsDelivered<K(!new), V>(h: Hashing<K>, y: History<K, V>, w: Walk<K, V>, k: K)
    requires Stands(h, y, w) && |w.ts| == h.lastBucket + 1
    requires k in w.start && k !in y.removed
    ensures k in w.ks
  {
    hide Emptied;
    if k !in w.ks {
      assert forall i | w.since <= i < |y.states| :: k in y.states[i];
      PresentIsDelivered(h, y.states, w.ts, w.ks, w.vs, w.since, k);
    }
  }

  /** A walk delivers nothing but what the map held when it began and what the
      environment put into it. */
  lemma DeliveredWasThere<K(!new), V>(h: Hashing<K>, y: History<K, V>, w: Walk<K, V>, k: K)
    requires Stands(h, y, w) && k in w.ks
    ensures k in w.start || k in y.put
  {
    hide Kept, Emptied;
    var i :| 0 <= i < |w.ks| && w.ks[i] == k;
    assert k in y.states[w.ts[h.Bucket(k)]];
  }

  /** After a drain every entry that was in the map is delivered, still there, or
      removed by the environment; and a delivered key that is there again was put
      back by the environment. */
  lemma {:induction false} DrainDeliversOrKeeps<K(!new), V>(h: Hashing<K>, y: History<K, V>, w: Walk<K, V>, k: K)
    requires Stands(h, y, w) && w.drain
    ensures var m := y.states[|y.states| - 1];
      && (k in w.start ==> k in w.ks || k in m || k in y.removed)
      && (k in w.ks && k in m ==> k in y.put)
  {
    hide Delivered, Emptied, Steady;
    assert k in w.ks <==> k in Keys(w.ks);
  }

  /** In a quiet map a complete walk delivers exactly the map. */
  lemma QuietWalk<K(!new), V>(h: Hashing<K>, y: History<K, V>, w: Walk<K, V>)
    requires Stands(h, y, w) && |w.ts| == h.lastBucket + 1 && y.put == {} && y.removed == {}
    requires !w.drain
    ensures Keys(w.ks) == w.start.Keys && y.states[|y.states| - 1] == w.start
  {
    forall k | k in w.start
      ensures k in w.ks
    {
      UntouchedIsDelivered(h, y, w, k);
    }
    var m := y.states[|y.states| - 1];
    forall i | 0 <= i < |w.ks|
      ensures w.ks[i] in w.start
    {
    }
  }

  /** The picked keys among those delivered. */
  method Select<K(==)>(keys: seq<K>, isVictim: K -> bool) returns (victims: seq<K>)
    ensures forall k :: k in victims <==> k in keys && isVictim(k)
  {
    victims := [];
    for i := 0 to |keys|
      invariant forall k :: k in victims <==> k in keys[..i] && isVictim(k)
    {
      if isVictim(keys[i]) {
        victims := victims + [keys[i]];
      }
    }
    assert keys[..|keys|] == keys;
  }

  /** Erase keys one by one while the environment goes on. */
  method EraseAll<K(==, !new), V(==)>(table: Table<K, V>, victims: seq<K>, ghost start: map<K, V>)
    requires table.Valid() && Kept(start, table.entries, table.put, table.removed, {})
    modifies table
    ensures table.Valid() && Kept(start, table.entries, table.put, table.removed, Keys(victims))
    ensures old(table.removed) <= table.removed
    ensures table.since == old(table.since) && old(table.clock) <= table.clock
  {
    hide Kept, Keys, Table<K, V>.Valid;
    NoKeys(victims);
    for i := 0 to |victims|
      invariant table.Valid() && Kept(start, table.entries, table.put, table.removed, Keys(victims[..i]))
      invariant old(table.removed) <= table.removed
      invariant table.since == old(table.since) && old(table.clock) <= table.clock
    {
      table.Settle(start, Keys(victims[..i]));
      KeptTaken(start, table.entries, table.put, table.removed, Keys(victims[..i]), {victims[i]});
      KeysPrefix(victims, i);
      table.Erase(victims[i]);
    }
    assert victims[..|victims|] == victims;
  }

  lemma NoKeys<K>(ks: seq<K>)
    ensures Keys(ks[..0]) == {}
  {
  }

  /** Walk the map and erase the keys `isVictim` picks, after the walk; what a failed
      walk found still goes. After a complete walk a picked key is in the map only if
      the environment put it there; keys not picked go only if the environment
      removes them. In a quiet map exactly the picked keys go. */
  method Purge<K(==, !new), V(==)>(table: Table<K, V>, isVictim: K -> bool) returns (ok: bool)
    requires table.Valid()
    modifies table
    ensures table.Valid()
    ensures ok ==> forall k | k in table.entries && isVictim(k) :: k in table.put
    ensures forall k | k in old(table.entries) && !isVictim(k) && k !in table.entries :: k in table.removed
    ensures forall k | k in table.entries :: k in table.put || (k in old(table.entries) && table.entries[k] == old(table.entries)[k])
    ensures ok || table.Faulted(old(table.clock), table.clock)
    ensures table.since == old(table.clock) <= table.clock
    ensures ok && table.QuietDuring(old(table.clock), table.clock) ==>
      table.entries == map k | k in old(table.entries) && !isVictim(k) :: old(table.entries)[k]
  {
    hide Stands, Keys, Table<K, V>.QuietDuring, Table<K, V>.Puts, Table<K, V>.Removes;
    ghost var start := old(table.entries);
    var keys, values;
    ghost var w;
    ok, keys, values, w := BatchWalk(table, false);
    ghost var y := table.Past();
    var victims := Select(keys, isVictim);
    WalkKept(table.hashing, y, w);
    EraseAll(table, victims, start);
    table.NothingCaused();
    PurgeMeaning(table.hashing, y, w, isVictim, victims, table.entries, table.put, table.removed, ok);
  }

  /** What is left of a map after the keys `victims`, picked from the walk `w`, were
      erased. */
  lemma PurgeMeaning<K(!new), V>(h: Hashing<K>, y: History<K, V>, w: Walk<K, V>, isVictim: K -> bool, victims: seq<K>,
                                 m: map<K, V>, put: set<K>, removed: set<K>, ok: bool)
    requires Stands(h, y, w) && (ok ==> |w.ts| == h.lastBucket + 1)
    requires forall k :: k in victims <==> k in w.ks && isVictim(k)
    requires Kept(w.start, m, put, removed, Keys(victims)) && y.removed <= removed
    ensures ok ==> forall k | k in m && isVictim(k) :: k in put
    ensures forall k | k in w.start && !isVictim(k) && k !in m :: k in removed
    ensures forall k | k in m :: k in put || (k in w.start && m[k] == w.start[k])
    ensures ok && put == {} && removed == {} ==> m == map k | k in w.start && !isVictim(k) :: w.start[k]
  {
    hide Stands;
    assert forall k :: k in Keys(victims) <==> k in victims;
    forall k | ok && k in m && isVictim(k)
      ensures k in put
    {
      if k !in put {
        UntouchedIsDelivered(h, y, w, k);
      }
    }
  }

  lemma WalkKept<K(!new), V>(h: Hashing<K>, y: History<K, V>, w: Walk<K, V>)
    requires Stands(h, y, w) && !w.drain
    ensures Kept(w.start, y.states[|y.states| - 1], y.put, y.removed, {})
  {
  }
}
