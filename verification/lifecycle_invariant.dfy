/** What every run of the agent against packets, evictions and faults keeps. */
module LifecycleInvariant {
  import opened Words
  import opened Flow
  import opened Lifecycle
  import opened LifecycleMachine

  // ---- structure of a pass ----------------------------------------------------

  ghost predicate Structure(cfg: Config, w: World) {
    && (w.phase.Resting? ==> w.todo == map[])
    && (w.phase.Walking? ==> w.pass.seen == {} && w.order == [] && |w.views| <= cfg.hashing.lastBucket && w.complete)
    && (!w.phase.Resting? && !w.phase.Walking? && w.complete ==> |w.views| == cfg.hashing.lastBucket + 1)
    && (forall k | k in w.todo :: k !in w.pass.seen && Small(w.todo[k].value))
    && (w.phase.Walking? ==> forall k | k in w.todo :: Bucket(cfg, k) < |w.views|)
    && (forall k | k in w.kernel :: Small(w.kernel[k].value))
    && (forall k | k in w.pass.last :: w.pass.last[k].packets < TWO_63 && w.pass.last[k].bytes < TWO_63)
    && (w.phase.Deleting? ==> w.phase.key in w.pass.seen && w.phase.key !in w.pass.last)
  }

  lemma StructureVisit(cfg: Config, w: World, k: FlowKey)
    requires Structure(cfg, w) && Enabled(cfg, w, Visit(k))
    ensures Structure(cfg, AfterVisit(cfg, w, k))
  {
    hide Idle, DeltaOf, Changed, Bucket, AfterVisit, Booked;
    VisitEffect(cfg, w, k);
  }

  lemma StructureMap(cfg: Config, w: World, s: Step)
    requires Structure(cfg, w) && Enabled(cfg, w, s) && (s.Packet? || s.Evict? || s.Delete?)
    ensures Structure(cfg, Take(cfg, w, s))
  {
    hide Bucket, Grown, Closed, Counted;
  }

  lemma StructurePass(cfg: Config, w: World, s: Step)
    requires Structure(cfg, w) && Enabled(cfg, w, s) && !s.Packet? && !s.Evict? && !s.Delete? && !s.Visit?
    ensures Structure(cfg, Take(cfg, w, s))
  {
    hide Bucket, Dropped, Known;
  }

  lemma StructureStep(cfg: Config, w: World, s: Step)
    requires Structure(cfg, w) && Enabled(cfg, w, s)
    ensures Structure(cfg, Take(cfg, w, s))
  {
    hide Structure, AfterVisit, AfterPacket, AfterRemoval, AfterBucket, Dropped;
    match s
    case Visit(k) => StructureVisit(cfg, w, k);
    case Packet(_, _) => StructureMap(cfg, w, s);
    case Evict(_) => StructureMap(cfg, w, s);
    case Delete => StructureMap(cfg, w, s);
    case _ => StructurePass(cfg, w, s);
  }

  /** Every entry number is in use for one key, and the accounts know which entries
      are in the map. */
  ghost predicate Owned(w: World) {
    && (forall k | k in w.kernel ::
          w.kernel[k].id < |w.accounts| && w.accounts[w.kernel[k].id].key == k && w.accounts[w.kernel[k].id].live)
    && (forall id | 0 <= id < |w.accounts| && w.accounts[id].live ::
          w.accounts[id].key in w.kernel && w.kernel[w.accounts[id].key].id == id)
    && (forall k | k in w.todo :: w.todo[k].id < |w.accounts| && w.accounts[w.todo[k].id].key == k)
    && (forall l | l in w.log :: l.id < |w.accounts| && w.accounts[l.id].key == l.out.key && w.accounts[l.id].visited)
    && (forall id | id in w.lost :: id < |w.accounts|)
    && w.passStart <= |w.accounts|
  }

  lemma OwnedGrown(w: World, w': World, k: FlowKey, v: FlowValue)
    requires Owned(w) && k in w.kernel
    requires w' == w.(kernel := w.kernel[k := Entry(v, w.kernel[k].id)], counted := w'.counted, rewound := w'.rewound,
                      accounts := Grown(w.accounts, w.kernel[k].id, CountsOf(v)))
    ensures Owned(w')
  {
  }

  lemma OwnedNew(w: World, w': World, k: FlowKey, v: FlowValue)
    requires Owned(w) && k !in w.kernel
    requires w' == w.(kernel := w.kernel[k := Entry(v, |w.accounts|)], counted := w'.counted, rewound := w'.rewound,
                      accounts := w.accounts + [NewAccount(k, v)])
    ensures Owned(w')
  {
    assert w.accounts <= w'.accounts && w'.accounts[|w.accounts|] == NewAccount(k, v);
  }

  lemma OwnedPacket(w: World, k: FlowKey, v: FlowValue)
    requires Owned(w) && Cur(PacketCount, w, k) <= v.packets && Cur(ByteCount, w, k) <= v.bytes
    ensures Owned(AfterPacket(w, k, v))
  {
    hide Cur, Counted, Owned, Grown;
    if k in w.kernel {
      OwnedGrown(w, AfterPacket(w, k, v), k, v);
    } else {
      OwnedNew(w, AfterPacket(w, k, v), k, v);
    }
  }

  lemma OwnedRemoval(w: World, k: FlowKey)
    requires Owned(w)
    ensures Owned(AfterRemoval(w, k))
  {
  }

  lemma OwnedVisit(cfg: Config, w: World, k: FlowKey)
    requires Owned(w) && Enabled(cfg, w, Visit(k))
    ensures Owned(AfterVisit(cfg, w, k))
  {
    hide Idle, DeltaOf, Changed, AfterVisit, TrackedCounts, ForgottenOf;
    VisitEffect(cfg, w, k);
    var id, w' := w.todo[k].id, AfterVisit(cfg, w, k);
    assert w'.accounts[id].visited && w'.accounts[id].key == k && w'.accounts[id].live == w.accounts[id].live;
    forall l | l in w'.log
      ensures l.id < |w'.accounts| && w'.accounts[l.id].key == l.out.key && w'.accounts[l.id].visited
    {
      if l !in w.log {
        assert l == w'.log[|w.log|];
      }
    }
  }

  lemma OwnedStep(cfg: Config, w: World, s: Step)
    requires Owned(w) && Enabled(cfg, w, s)
    ensures Owned(Take(cfg, w, s))
  {
    hide AfterVisit, AfterPacket, AfterRemoval, Bucket, Dropped, Known;
    match s
    case Packet(k, v) => OwnedPacket(w, k, v);
    case Visit(k) => OwnedVisit(cfg, w, k);
    case Evict(k) => OwnedRemoval(w, k);
    case Delete => OwnedRemoval(w, w.phase.key);
    case _ =>
  }

  // ---- the books ----------------------------------------------------------------

  /** No entry was read beyond what was counted in it, and an entry never visited has
      an empty record. */
  ghost predicate Sane(c: Counter, w: World) {
    forall id | 0 <= id < |w.accounts| ::
      var a := w.accounts[id];
      && CountOf(c, a.read) <= CountOf(c, a.counted)
      && (!a.visited ==> a.base == NOTHING && a.first == NOTHING && a.read == NOTHING && a.forgotten == NOTHING)
  }

  /** What the tracker holds for `k`, if anything, is what was last read of the entry
      `id`, if that was ever read. */
  predicate Tracks(c: Counter, w: World, k: FlowKey, id: nat) {
    id < |w.accounts| && w.accounts[id].visited && k in w.pass.last ==>
      TrackedCounter(c, w.pass.last, k) == CountOf(c, w.accounts[id].read)
  }

  /** An entry of the snapshot, and one in the map, against their accounts. */
  predicate TodoBooks(c: Counter, w: World, k: FlowKey) {
    k in w.todo && w.todo[k].id < |w.accounts| ==>
      && var a := w.accounts[w.todo[k].id];
      && CountOf(c, a.read) <= ValueCounter(c, w.todo[k].value) <= CountOf(c, a.counted)
      && Tracks(c, w, k, w.todo[k].id)
  }

  predicate KernelBooks(c: Counter, w: World, k: FlowKey) {
    k in w.kernel && w.kernel[k].id < |w.accounts| ==>
      && var a := w.accounts[w.kernel[k].id];
      && CountOf(c, a.counted) == ValueCounter(c, w.kernel[k].value)
      && Tracks(c, w, k, w.kernel[k].id)
      && (k in w.todo && a.visited ==> w.todo[k].id == w.kernel[k].id)
  }

  predicate Books(c: Counter, w: World, k: FlowKey) { TodoBooks(c, w, k) && KernelBooks(c, w, k) }

  lemma SanePacket(c: Counter, w: World, k: FlowKey, v: FlowValue)
    requires Owned(w) && Sane(c, w) && Books(c, w, k)
    requires Cur(PacketCount, w, k) <= v.packets && Cur(ByteCount, w, k) <= v.bytes
    ensures Sane(c, AfterPacket(w, k, v))
  {
    hide Counted;
    assert CountOf(c, CountsOf(v)) == ValueCounter(c, v);
  }

  lemma SaneRemoval(c: Counter, w: World, k: FlowKey)
    requires Sane(c, w)
    ensures Sane(c, AfterRemoval(w, k))
  {
  }

  lemma SaneVisit(cfg: Config, c: Counter, w: World, k: FlowKey)
    requires Owned(w) && Sane(c, w) && Enabled(cfg, w, Visit(k)) && Books(c, w, k)
    ensures Sane(c, AfterVisit(cfg, w, k))
  {
    hide Idle, DeltaOf, Changed, AfterVisit, TrackedCounts, Tracks;
    VisitEffect(cfg, w, k);
  }

  lemma SaneStep(cfg: Config, c: Counter, w: World, s: Step)
    requires Owned(w) && Sane(c, w) && Enabled(cfg, w, s) && forall k :: Books(c, w, k)
    ensures Sane(c, Take(cfg, w, s))
  {
    hide AfterVisit, AfterPacket, AfterRemoval, Bucket, Dropped, Known, Books;
    match s
    case Packet(k, v) =>
      assert Books(c, w, k);
      SanePacket(c, w, k, v);
    case Visit(k) =>
      assert Books(c, w, k);
      SaneVisit(cfg, c, w, k);
    case Evict(k) => SaneRemoval(c, w, k);
    case Delete => SaneRemoval(c, w, w.phase.key);
    case _ =>
  }

  lemma BooksGrown(c: Counter, w: World, w': World, k: FlowKey, k': FlowKey, v: FlowValue)
    requires Owned(w) && Books(c, w, k) && k' in w.kernel
    requires ValueCounter(c, w.kernel[k'].value) <= ValueCounter(c, v)
    requires w' == w.(kernel := w.kernel[k' := Entry(v, w.kernel[k'].id)], counted := w'.counted, rewound := w'.rewound,
                      accounts := Grown(w.accounts, w.kernel[k'].id, CountsOf(v)))
    ensures Books(c, w', k)
  {
    hide TrackedCounter;
    assert CountOf(c, CountsOf(v)) == ValueCounter(c, v);
    assert KernelBooks(c, w, k) && TodoBooks(c, w, k);
  }

  lemma BooksNew(c: Counter, w: World, w': World, k: FlowKey, k': FlowKey, v: FlowValue)
    requires Owned(w) && Books(c, w, k) && k' !in w.kernel
    requires w' == w.(kernel := w.kernel[k' := Entry(v, |w.accounts|)], counted := w'.counted, rewound := w'.rewound,
                      accounts := w.accounts + [NewAccount(k', v)])
    ensures Books(c, w', k)
  {
    hide TrackedCounter;
    assert CountOf(c, CountsOf(v)) == ValueCounter(c, v);
    assert w'.accounts[|w.accounts|] == NewAccount(k', v);
  }

  lemma BooksPacket(c: Counter, w: World, k: FlowKey, k': FlowKey, v: FlowValue)
    requires Owned(w) && Books(c, w, k)
    requires Cur(PacketCount, w, k') <= v.packets && Cur(ByteCount, w, k') <= v.bytes
    ensures Books(c, AfterPacket(w, k', v), k)
  {
    hide Counted, Books, Owned, Grown;
    if k' in w.kernel {
      BooksGrown(c, w, AfterPacket(w, k', v), k, k', v);
    } else {
      BooksNew(c, w, AfterPacket(w, k', v), k, k', v);
    }
  }

  lemma BooksRemoval(c: Counter, w: World, k: FlowKey, k': FlowKey)
    requires Owned(w) && Books(c, w, k)
    ensures Books(c, AfterRemoval(w, k'), k)
  {
    hide TrackedCounter;
  }

  lemma BooksVisit(cfg: Config, c: Counter, w: World, k: FlowKey, k': FlowKey)
    requires Structure(cfg, w) && Owned(w) && Books(c, w, k) && Enabled(cfg, w, Visit(k'))
    ensures Books(c, AfterVisit(cfg, w, k'), k)
  {
    hide Idle, DeltaOf, Changed, AfterVisit, TrackedCounts, Structure;
    VisitEffect(cfg, w, k');
  }

  lemma BooksWalk(cfg: Config, c: Counter, w: World, k: FlowKey, s: Step)
    requires Structure(cfg, w) && Owned(w) && Sane(c, w) && Books(c, w, k) && Enabled(cfg, w, s)
    requires s.Begin? || s.ReadBucket? || s.StopWalk? || s.LoseDelete? || s.End?
    ensures Books(c, Take(cfg, w, s), k)
  {
    hide Bucket, AfterVisit, AfterPacket, AfterRemoval, Dropped, Known, Idle;
  }

  lemma BooksStep(cfg: Config, c: Counter, w: World, s: Step, k: FlowKey)
    requires Structure(cfg, w) && Owned(w) && Sane(c, w) && Enabled(cfg, w, s) && Books(c, w, k)
    ensures Books(c, Take(cfg, w, s), k)
  {
    hide Structure, Owned, Books, Sane, AfterVisit, AfterPacket, AfterRemoval;
    match s
    case Packet(k', v) => BooksPacket(c, w, k, k', v);
    case Visit(k') => BooksVisit(cfg, c, w, k, k');
    case Evict(k') => BooksRemoval(c, w, k, k');
    case Delete =>
      BooksRemoval(c, w, k, w.phase.key);
      BooksFrame(c, AfterRemoval(w, w.phase.key), Take(cfg, w, s), k);
    case _ => BooksWalk(cfg, c, w, k, s);
  }

  lemma BooksFrame(c: Counter, w: World, w': World, k: FlowKey)
    requires Books(c, w, k) && w' == w.(phase := w'.phase)
    ensures Books(c, w', k)
  {
  }

  // ---- conservation ---------------------------------------------------------------

  /** What was exported from an entry, and what its first delta left out, is what was
      last read of it and what was forgotten of it. */
  ghost predicate Balanced(c: Counter, w: World) {
    forall id | 0 <= id < |w.accounts| :: EntryBalanced(c, w, id)
  }

  predicate EntryBalanced(c: Counter, w: World, id: nat)
    requires id < |w.accounts|
  {
    EntryExported(c, w.log, id) + Stale(c, w.accounts[id])
      == CountOf(c, w.accounts[id].read) + CountOf(c, w.accounts[id].forgotten)
  }

  /** The same for all entries of a key, and the sum of what was counted in them. */
  predicate KeyBalanced(c: Counter, w: World, k: FlowKey) {
    && Exported(c, w.log, k) + Total(c, w.accounts, k, StalePart)
         == Total(c, w.accounts, k, ReadPart) + Total(c, w.accounts, k, ForgottenPart)
    && Total(c, w.accounts, k, CountedPart) == Counted(c, w, k)
  }

  /** What a visit adds to the export log. */
  lemma VisitExports(cfg: Config, c: Counter, w: World, k: FlowKey)
    requires Structure(cfg, w) && Enabled(cfg, w, Visit(k))
    ensures var w', v, t := AfterVisit(cfg, w, k), w.todo[k].value, TrackedCounter(c, w.pass.last, k);
      && (forall k' :: Exported(c, w'.log, k') == Exported(c, w.log, k') + if k' == k then Growth(ValueCounter(c, v), t) else 0)
      && (forall id :: EntryExported(c, w'.log, id)
            == EntryExported(c, w.log, id) + if id == w.todo[k].id then Growth(ValueCounter(c, v), t) else 0)
  {
    hide Idle, CounterDelta, Exported, EntryExported, AfterVisit, Booked, Bucket;
    var v := w.todo[k].value;
    VisitEffect(cfg, w, k);
    CounterDeltaExact(v.packets, TrackedCounter(PacketCount, w.pass.last, k));
    CounterDeltaExact(v.bytes, TrackedCounter(ByteCount, w.pass.last, k));
    var w' := AfterVisit(cfg, w, k);
    if |w'.log| > |w.log| {
      SumsSnoc(c, w.log, w'.log[|w.log|]);
    }
  }

  /** What a visit does to an entry's account, in step with what it exports. */
  lemma VisitBooks(c: Counter, w: World, k: FlowKey, a: Account, v: FlowValue)
    requires k in w.pass.last && a.visited ==> TrackedCounter(c, w.pass.last, k) == CountOf(c, a.read)
    requires !a.visited ==> a.base == NOTHING && a.first == NOTHING && a.read == NOTHING && a.forgotten == NOTHING
    requires CountOf(c, a.read) <= ValueCounter(c, v)
    ensures var a', t := Visited(a, TrackedCounts(w.pass.last, k), CountsOf(v)), TrackedCounter(c, w.pass.last, k);
      && a'.key == a.key && a'.counted == a.counted && a'.live == a.live
      && Growth(ValueCounter(c, v), t) + Stale(c, a') + CountOf(c, a.read) + CountOf(c, a.forgotten)
           == Stale(c, a) + CountOf(c, a'.read) + CountOf(c, a'.forgotten)
      && CountOf(c, a'.forgotten) ==
           CountOf(c, a.forgotten) + if a.visited && k !in w.pass.last then CountOf(c, a.read) else 0
  {
  }

  lemma VisitedBooks(cfg: Config, c: Counter, w: World, k: FlowKey)
    requires Owned(w) && Sane(c, w) && Books(c, w, k) && Enabled(cfg, w, Visit(k))
    ensures w.todo[k].id < |w.accounts| && w.accounts[w.todo[k].id].key == k
    ensures var a, v, t := w.accounts[w.todo[k].id], w.todo[k].value, TrackedCounter(c, w.pass.last, k);
      var a' := Visited(a, TrackedCounts(w.pass.last, k), CountsOf(v));
      && AfterVisit(cfg, w, k).accounts == w.accounts[w.todo[k].id := a']
      && a'.key == k && a'.counted == a.counted && a'.live == a.live
      && Growth(ValueCounter(c, v), t) + Stale(c, a') + CountOf(c, a.read) + CountOf(c, a.forgotten)
           == Stale(c, a) + CountOf(c, a'.read) + CountOf(c, a'.forgotten)
      && CountOf(c, a'.forgotten) ==
           CountOf(c, a.forgotten) + if a.visited && k !in w.pass.last then CountOf(c, a.read) else 0
  {
    hide Growth, Stale, TrackedCounts, TrackedCounter, AfterVisit, Visited;
    VisitEffect(cfg, w, k);
    VisitBooks(c, w, k, w.accounts[w.todo[k].id], w.todo[k].value);
  }

  lemma BalancedVisit(cfg: Config, c: Counter, w: World, k: FlowKey)
    requires Structure(cfg, w) && Owned(w) && Sane(c, w) && Books(c, w, k) && Enabled(cfg, w, Visit(k))
    requires Balanced(c, w)
    ensures Balanced(c, AfterVisit(cfg, w, k))
  {
    hide Structure, Owned, Books, Sane, Growth, Stale, EntryExported, AfterVisit, Visited, TrackedCounts, TrackedCounter,
      CountOf, CountsOf, ValueCounter;
    VisitedBooks(cfg, c, w, k);
    VisitExports(cfg, c, w, k);
    var w' := AfterVisit(cfg, w, k);
    forall id | 0 <= id < |w'.accounts|
      ensures EntryBalanced(c, w', id)
    {
      assert EntryBalanced(c, w, id);
    }
  }

  lemma {:induction false} NoExports(c: Counter, log: seq<Logged>, id: nat)
    requires forall l | l in log :: l.id != id
    ensures EntryExported(c, log, id) == 0
  {
    if |log| == 0 {
    } else {
      NoExports(c, log[..|log| - 1], id);
    }
  }

  lemma BalancedPacket(c: Counter, w: World, k: FlowKey, v: FlowValue)
    requires Owned(w) && Balanced(c, w)
    requires Cur(PacketCount, w, k) <= v.packets && Cur(ByteCount, w, k) <= v.bytes
    ensures Balanced(c, AfterPacket(w, k, v))
  {
    hide EntryExported, Counted, Cur;
    NoExports(c, w.log, |w.accounts|);
    var w' := AfterPacket(w, k, v);
    forall id | 0 <= id < |w'.accounts|
      ensures EntryBalanced(c, w', id)
    {
      assert id < |w.accounts| ==> EntryBalanced(c, w, id);
    }
  }

  lemma BalancedRemoval(c: Counter, w: World, k: FlowKey)
    requires Balanced(c, w)
    ensures Balanced(c, AfterRemoval(w, k))
  {
    hide EntryExported;
    var w' := AfterRemoval(w, k);
    forall id | 0 <= id < |w'.accounts|
      ensures EntryBalanced(c, w', id)
    {
      assert EntryBalanced(c, w, id);
    }
  }

  lemma BalancedStep(cfg: Config, c: Counter, w: World, s: Step)
    requires Structure(cfg, w) && Owned(w) && Sane(c, w) && Enabled(cfg, w, s) && Balanced(c, w)
    requires forall k :: Books(c, w, k)
    ensures Balanced(c, Take(cfg, w, s))
  {
    hide Structure, Owned, Sane, Books, EntryExported, AfterVisit, AfterPacket, AfterRemoval, AfterBucket, Dropped, Known, Stale;
    match s
    case Packet(k, v) => BalancedPacket(c, w, k, v);
    case Visit(k) =>
      assert Books(c, w, k);
      BalancedVisit(cfg, c, w, k);
    case Evict(k) => BalancedRemoval(c, w, k);
    case Delete =>
      BalancedRemoval(c, w, w.phase.key);
      BalancedFrame(c, AfterRemoval(w, w.phase.key), Take(cfg, w, s));
    case ReadBucket =>
      assert AfterBucket(cfg, w).log == w.log && AfterBucket(cfg, w).accounts == w.accounts by { BucketFrame(cfg, w); }
      BalancedFrame(c, w, Take(cfg, w, s));
    case _ => BalancedFrame(c, w, Take(cfg, w, s));
  }

  lemma BucketFrame(cfg: Config, w: World)
    requires w.phase.Walking?
    ensures var w' := AfterBucket(cfg, w);
      w' == w.(todo := w'.todo, views := w'.views, phase := w'.phase)
  {
  }

  lemma BalancedFrame(c: Counter, w: World, w': World)
    requires Balanced(c, w) && w'.log == w.log && w'.accounts == w.accounts
    ensures Balanced(c, w')
  {
    hide EntryExported, Stale;
    forall id | 0 <= id < |w'.accounts|
      ensures EntryBalanced(c, w', id)
    {
      assert EntryBalanced(c, w, id);
    }
  }

  // ---- conservation per key ---------------------------------------------------------

  lemma KeyVisit(cfg: Config, c: Counter, w: World, k: FlowKey, k': FlowKey)
    requires Structure(cfg, w) && Owned(w) && Sane(c, w) && Books(c, w, k') && Enabled(cfg, w, Visit(k'))
    requires KeyBalanced(c, w, k)
    ensures KeyBalanced(c, AfterVisit(cfg, w, k'), k)
  {
    hide Structure, Owned, Books, Sane, Growth, Stale, Exported, Total, AfterVisit, Visited, TrackedCounts, TrackedCounter,
      CountOf, CountsOf, ValueCounter;
    VisitedBooks(cfg, c, w, k');
    VisitExports(cfg, c, w, k');
    VisitCounted(cfg, w, k');
    var id := w.todo[k'].id;
    var a' := AfterVisit(cfg, w, k').accounts[id];
    TotalUpdate(c, w.accounts, k, StalePart, id, a');
    TotalUpdate(c, w.accounts, k, ReadPart, id, a');
    TotalUpdate(c, w.accounts, k, ForgottenPart, id, a');
    TotalUpdate(c, w.accounts, k, CountedPart, id, a');
    SameCounted(c, w, AfterVisit(cfg, w, k'), k);
  }

  lemma VisitCounted(cfg: Config, w: World, k: FlowKey)
    requires Enabled(cfg, w, Visit(k))
    ensures AfterVisit(cfg, w, k).counted == w.counted
  {
    VisitEffect(cfg, w, k);
  }

  lemma SameCounted(c: Counter, w: World, w': World, k: FlowKey)
    requires w'.counted == w.counted
    ensures Counted(c, w', k) == Counted(c, w, k)
  {
  }

  lemma KeyGrown(c: Counter, w: World, w': World, k: FlowKey, k': FlowKey, v: FlowValue)
    requires Owned(w) && KernelBooks(c, w, k') && KeyBalanced(c, w, k) && k' in w.kernel
    requires w'.log == w.log && w'.accounts == Grown(w.accounts, w.kernel[k'].id, CountsOf(v))
    requires Counted(c, w', k) == Counted(c, w, k) + if k == k' then ValueCounter(c, v) - ValueCounter(c, w.kernel[k'].value) else 0
    ensures KeyBalanced(c, w', k)
  {
    hide Exported, Total, Counted, Tracks, Stale;
    var id := w.kernel[k'].id;
    var a' := w.accounts[id].(counted := CountsOf(v));
    assert CountOf(c, CountsOf(v)) == ValueCounter(c, v);
    SameRecord(c, w.accounts[id], CountsOf(v));
    TotalUpdate(c, w.accounts, k, StalePart, id, a');
    TotalUpdate(c, w.accounts, k, ReadPart, id, a');
    TotalUpdate(c, w.accounts, k, ForgottenPart, id, a');
    TotalUpdate(c, w.accounts, k, CountedPart, id, a');
  }

  lemma SameRecord(c: Counter, a: Account, n: Counts)
    ensures Stale(c, a.(counted := n)) == Stale(c, a)
  {
  }

  lemma KeyNew(c: Counter, w: World, w': World, k: FlowKey, k': FlowKey, v: FlowValue)
    requires KeyBalanced(c, w, k)
    requires w'.log == w.log && w'.accounts == w.accounts + [NewAccount(k', v)]
    requires Counted(c, w', k) == Counted(c, w, k) + if k == k' then ValueCounter(c, v) else 0
    ensures KeyBalanced(c, w', k)
  {
    hide Exported, Total, Counted;
    var a := NewAccount(k', v);
    assert CountOf(c, CountsOf(v)) == ValueCounter(c, v);
    TotalSnoc(c, w.accounts, k, StalePart, a);
    TotalSnoc(c, w.accounts, k, ReadPart, a);
    TotalSnoc(c, w.accounts, k, ForgottenPart, a);
    TotalSnoc(c, w.accounts, k, CountedPart, a);
  }

  lemma CurAfter(c: Counter, w: World, k: FlowKey, k': FlowKey, v: FlowValue)
    requires Cur(PacketCount, w, k') <= v.packets && Cur(ByteCount, w, k') <= v.bytes
    ensures Cur(c, AfterPacket(w, k', v), k) == if k == k' then ValueCounter(c, v) else Cur(c, w, k)
  {
    hide Counted, Grown;
  }

  lemma KeyPacket(c: Counter, w: World, k: FlowKey, k': FlowKey, v: FlowValue)
    requires Owned(w) && Books(c, w, k') && KeyBalanced(c, w, k)
    requires Cur(PacketCount, w, k') <= v.packets && Cur(ByteCount, w, k') <= v.bytes
    ensures KeyBalanced(c, AfterPacket(w, k', v), k)
  {
    hide KeyBalanced, Owned, Counted, Grown, TodoBooks, KernelBooks;
    PacketCounts(c, w, k, k', v);
    CurAfter(c, w, k, k', v);
    if k' in w.kernel {
      KeyGrown(c, w, AfterPacket(w, k', v), k, k', v);
    } else {
      KeyNew(c, w, AfterPacket(w, k', v), k, k', v);
    }
  }

  lemma KeyRemoval(c: Counter, w: World, k: FlowKey, k': FlowKey)
    requires KeyBalanced(c, w, k)
    ensures KeyBalanced(c, AfterRemoval(w, k'), k)
  {
    hide Exported, Total;
    var w' := AfterRemoval(w, k');
    if k' in w.kernel && w.kernel[k'].id < |w.accounts| {
      var id := w.kernel[k'].id;
      var a' := w.accounts[id].(live := false);
      TotalUpdate(c, w.accounts, k, StalePart, id, a');
      TotalUpdate(c, w.accounts, k, ReadPart, id, a');
      TotalUpdate(c, w.accounts, k, ForgottenPart, id, a');
      TotalUpdate(c, w.accounts, k, CountedPart, id, a');
    }
  }

  lemma KeyFrame(c: Counter, w: World, w': World, k: FlowKey)
    requires KeyBalanced(c, w, k) && w'.log == w.log && w'.accounts == w.accounts && w'.counted == w.counted
    ensures KeyBalanced(c, w', k)
  {
    hide Exported, Total;
  }

  lemma KeyStep(cfg: Config, c: Counter, w: World, s: Step, k: FlowKey)
    requires Structure(cfg, w) && Owned(w) && Sane(c, w) && Enabled(cfg, w, s) && KeyBalanced(c, w, k)
    requires forall k' :: Books(c, w, k')
    ensures KeyBalanced(c, Take(cfg, w, s), k)
  {
    hide Structure, Owned, Sane, Books, KeyBalanced, AfterVisit, AfterPacket, AfterRemoval, AfterBucket, Dropped, Known;
    match s
    case Packet(k', v) =>
      assert Books(c, w, k');
      KeyPacket(c, w, k, k', v);
    case Visit(k') =>
      assert Books(c, w, k');
      KeyVisit(cfg, c, w, k, k');
    case Evict(k') => KeyRemoval(c, w, k, k');
    case Delete =>
      KeyRemoval(c, w, k, w.phase.key);
      KeyFrame(c, AfterRemoval(w, w.phase.key), Take(cfg, w, s), k);
    case ReadBucket =>
      BucketFrame(cfg, w);
      KeyFrame(c, w, Take(cfg, w, s), k);
    case _ => KeyFrame(c, w, Take(cfg, w, s), k);
  }
}
