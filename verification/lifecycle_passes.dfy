/** What passes keep: what the agent remembers, what has expired, and what a pass has
    read. */
module LifecyclePasses {
  import opened Words
  import opened Flow
  import opened Lifecycle
  import opened LifecycleMachine
  import opened LifecycleInvariant

  predicate BeingDeleted(w: World, k: FlowKey) { w.phase.Deleting? && w.phase.key == k }

  // ---- every export against what was read ---------------------------------------

  /** Up to and including each export, an entry's deltas and what its first one left
      out sum to the counters that export read and what was forgotten by then. */
  ghost predicate LogExact(c: Counter, w: World) {
    forall j | 0 <= j < |w.log| && w.log[j].id < |w.accounts| ::
      EntryExported(c, w.log[..j + 1], w.log[j].id) + Stale(c, w.accounts[w.log[j].id])
        == ValueCounter(c, w.log[j].out.value) + CountOf(c, w.log[j].forgotten)
  }

  /** Once an entry was visited its first comparison is settled. */
  lemma StaleSettled(c: Counter, w: World, w': World, id: nat, tracked: Option<Counts>, read: Counts)
    requires w'.accounts == Booked(w.accounts, id, tracked, read)
    ensures forall i | 0 <= i < |w.accounts| && w.accounts[i].visited :: Stale(c, w'.accounts[i]) == Stale(c, w.accounts[i])
  {
  }

  /** The log exact so far, and with one more export. */
  lemma LogGrows(c: Counter, w: World, w': World, l: Logged)
    requires Owned(w) && LogExact(c, w) && w'.log == w.log + [l]
    requires |w'.accounts| == |w.accounts|
    requires forall i | 0 <= i < |w.accounts| && w.accounts[i].visited :: Stale(c, w'.accounts[i]) == Stale(c, w.accounts[i])
    requires l.id < |w'.accounts| && EntryBalanced(c, w', l.id)
    requires CountOf(c, w'.accounts[l.id].read) == ValueCounter(c, l.out.value)
    requires w'.accounts[l.id].forgotten == l.forgotten
    ensures LogExact(c, w')
  {
    hide EntryExported, Stale, CountOf, ValueCounter;
    forall j | 0 <= j < |w'.log| && w'.log[j].id < |w'.accounts|
      ensures EntryExported(c, w'.log[..j + 1], w'.log[j].id) + Stale(c, w'.accounts[w'.log[j].id])
           == ValueCounter(c, w'.log[j].out.value) + CountOf(c, w'.log[j].forgotten)
    {
      if j < |w.log| {
        assert w'.log[..j + 1] == w.log[..j + 1] && w'.log[j] == w.log[j] && w.log[j] in w.log;
      } else {
        assert w'.log[..j + 1] == w'.log;
      }
    }
  }

  lemma LogVisit(cfg: Config, c: Counter, w: World, k: FlowKey)
    requires Owned(w) && Enabled(cfg, w, Visit(k)) && LogExact(c, w)
    requires Balanced(c, AfterVisit(cfg, w, k))
    ensures LogExact(c, AfterVisit(cfg, w, k))
  {
    hide Idle, EntryExported, Stale, AfterVisit, DeltaOf, Changed, TrackedCounts, Visited, LogExact, CountOf, ValueCounter;
    VisitEffect(cfg, w, k);
    var w', id, v := AfterVisit(cfg, w, k), w.todo[k].id, w.todo[k].value;
    StaleSettled(c, w, w', id, TrackedCounts(w.pass.last, k), CountsOf(v));
    if |w'.log| > |w.log| {
      ReadIsLast(c, w.accounts[id], TrackedCounts(w.pass.last, k), v);
      LogGrows(c, w, w', w'.log[|w.log|]);
    } else {
      LogSame(c, w, w');
    }
  }

  lemma LogSame(c: Counter, w: World, w': World)
    requires Owned(w) && LogExact(c, w) && w'.log == w.log && |w'.accounts| == |w.accounts|
    requires forall i | 0 <= i < |w.accounts| && w.accounts[i].visited :: Stale(c, w'.accounts[i]) == Stale(c, w.accounts[i])
    ensures LogExact(c, w')
  {
    hide EntryExported, Stale, CountOf, ValueCounter;
    forall j | 0 <= j < |w'.log|
      ensures w.accounts[w.log[j].id].visited
    {
      assert w.log[j] in w.log;
    }
  }

  lemma ReadIsLast(c: Counter, a: Account, tracked: Option<Counts>, v: FlowValue)
    ensures CountOf(c, Visited(a, tracked, CountsOf(v)).read) == ValueCounter(c, v)
  {
  }

  lemma LogOther(c: Counter, w: World, w': World)
    requires Owned(w) && LogExact(c, w) && w'.log == w.log && |w.accounts| <= |w'.accounts|
    requires forall i | 0 <= i < |w.accounts| :: Stale(c, w'.accounts[i]) == Stale(c, w.accounts[i])
    ensures LogExact(c, w')
  {
    hide EntryExported, Stale;
    forall j | 0 <= j < |w'.log|
      ensures w'.log[j].id < |w.accounts|
    {
      assert w.log[j] in w.log;
    }
  }

  /** Steps other than visits leave the log and all first comparisons alone. */
  lemma OtherFrame(cfg: Config, c: Counter, w: World, s: Step)
    requires Enabled(cfg, w, s) && !s.Visit?
    ensures var w' := Take(cfg, w, s);
      && w'.log == w.log && |w.accounts| <= |w'.accounts|
      && forall i | 0 <= i < |w.accounts| ::
           Stale(c, w'.accounts[i]) == Stale(c, w.accounts[i]) && w'.accounts[i].forgotten == w.accounts[i].forgotten
           && w'.accounts[i].visited == w.accounts[i].visited && w'.accounts[i].key == w.accounts[i].key
  {
    hide Counted, Cur, Known, Dropped, Bucket;
  }

  lemma LogStep(cfg: Config, c: Counter, w: World, s: Step)
    requires Owned(w) && Enabled(cfg, w, s) && LogExact(c, w) && Balanced(c, Take(cfg, w, s))
    ensures LogExact(c, Take(cfg, w, s))
  {
    hide Owned, LogExact, Balanced, AfterVisit, AfterPacket, AfterRemoval, AfterBucket;
    if s.Visit? {
      LogVisit(cfg, c, w, s.key);
    } else {
      OtherFrame(cfg, c, w, s);
      hide Take;
      LogOther(c, w, Take(cfg, w, s));
    }
  }

  // ---- what the agent forgets -------------------------------------------------------

  /** An entry the agent has visited is tracked, unless its key was torn. */
  predicate Remembered(w: World, k: FlowKey) {
    && (Known(w, k) && !BeingDeleted(w, k) ==> k in w.pass.last || k in w.torn)
    && (k in w.todo && WasVisited(w.accounts, w.todo[k].id) ==> k in w.pass.last || k in w.torn)
  }

  /** Only entries of torn keys were ever met again as new. */
  ghost predicate Forgiven(c: Counter, w: World) {
    forall a | a in w.accounts && CountOf(c, a.forgotten) > 0 :: a.key in w.torn
  }

  /** An entry the agent has visited before is found by the walk that reads its bucket. */
  predicate Reached(cfg: Config, w: World, k: FlowKey) {
    !w.phase.Resting? && Known(w, k) ==> Bucket(cfg, k) >= |w.views| || k in w.todo || k in w.pass.seen
  }

  lemma RememberedVisit(cfg: Config, w: World, k: FlowKey, k': FlowKey)
    requires Owned(w) && Remembered(w, k) && Enabled(cfg, w, Visit(k'))
    ensures Remembered(AfterVisit(cfg, w, k'), k)
  {
    hide Idle, AfterVisit, DeltaOf, Changed, TrackedCounts, Visited;
    VisitEffect(cfg, w, k');
  }

  lemma RememberedPacket(w: World, k: FlowKey, k': FlowKey, v: FlowValue)
    requires Owned(w) && Remembered(w, k)
    requires Cur(PacketCount, w, k') <= v.packets && Cur(ByteCount, w, k') <= v.bytes
    ensures Remembered(AfterPacket(w, k', v), k)
  {
    hide Cur, Counted;
  }

  lemma RememberedOther(cfg: Config, w: World, s: Step, k: FlowKey)
    requires Structure(cfg, w) && Remembered(w, k) && Enabled(cfg, w, s) && !s.Visit? && !s.Packet?
    ensures Remembered(Take(cfg, w, s), k)
  {
    hide Bucket, Idle;
  }

  lemma RememberedStep(cfg: Config, w: World, s: Step, k: FlowKey)
    requires Structure(cfg, w) && Owned(w) && Remembered(w, k) && Enabled(cfg, w, s)
    ensures Remembered(Take(cfg, w, s), k)
  {
    hide Structure, Owned, Remembered, AfterVisit, AfterPacket;
    match s
    case Visit(k') => RememberedVisit(cfg, w, k, k');
    case Packet(k', v) => RememberedPacket(w, k, k', v);
    case _ => RememberedOther(cfg, w, s, k);
  }

  lemma ForgivenStep(cfg: Config, c: Counter, w: World, s: Step)
    requires Owned(w) && Sane(c, w) && Forgiven(c, w) && Enabled(cfg, w, s)
    requires forall k :: Books(c, w, k) && Remembered(w, k)
    ensures Forgiven(c, Take(cfg, w, s))
  {
    hide Books, Remembered, AfterVisit, AfterPacket, AfterRemoval, AfterBucket, Dropped, Known, Owned, Sane;
    if s.Visit? {
      assert Books(c, w, s.key) && Remembered(w, s.key);
      ForgivenVisit(cfg, c, w, s.key);
    } else {
      OtherFrame(cfg, c, w, s);
      TornGrows(cfg, w, s);
      NewUnforgotten(cfg, c, w, s);
      var w' := Take(cfg, w, s);
      forall a | a in w'.accounts && CountOf(c, a.forgotten) > 0
        ensures a.key in w'.torn
      {
        var i :| 0 <= i < |w'.accounts| && w'.accounts[i] == a;
        assert w.accounts[i] in w.accounts;
      }
    }
  }

  lemma ForgivenVisit(cfg: Config, c: Counter, w: World, k: FlowKey)
    requires Owned(w) && Sane(c, w) && Forgiven(c, w) && Enabled(cfg, w, Visit(k)) && Books(c, w, k) && Remembered(w, k)
    ensures Forgiven(c, AfterVisit(cfg, w, k))
  {
    hide Idle, AfterVisit, DeltaOf, Changed, TrackedCounts, Visited, Stale, Growth, Books, Sane, EntryStep;
    VisitedBooks(cfg, c, w, k);
    VisitEffect(cfg, w, k);
    var w' := AfterVisit(cfg, w, k);
    forall a | a in w'.accounts && CountOf(c, a.forgotten) > 0
      ensures a.key in w'.torn
    {
      var i :| 0 <= i < |w'.accounts| && w'.accounts[i] == a;
      assert w.accounts[i] in w.accounts;
    }
  }

  lemma TornGrows(cfg: Config, w: World, s: Step)
    requires Enabled(cfg, w, s)
    ensures w.torn <= Take(cfg, w, s).torn
  {
    hide Bucket, Known, Dropped;
  }

  lemma NewUnforgotten(cfg: Config, c: Counter, w: World, s: Step)
    requires Enabled(cfg, w, s) && !s.Visit?
    ensures var w' := Take(cfg, w, s);
      forall i | |w.accounts| <= i < |w'.accounts| :: CountOf(c, w'.accounts[i].forgotten) == 0
  {
    hide Bucket, Known, Dropped, Cur, Counted;
  }

  lemma ReachedVisit(cfg: Config, w: World, k: FlowKey, k': FlowKey)
    requires Owned(w) && Reached(cfg, w, k) && Enabled(cfg, w, Visit(k'))
    ensures Reached(cfg, AfterVisit(cfg, w, k'), k)
  {
    hide Idle, AfterVisit, DeltaOf, Changed, TrackedCounts, Visited, Bucket;
    VisitEffect(cfg, w, k');
  }

  lemma ReachedPacket(cfg: Config, w: World, k: FlowKey, k': FlowKey, v: FlowValue)
    requires Owned(w) && Reached(cfg, w, k)
    requires Cur(PacketCount, w, k') <= v.packets && Cur(ByteCount, w, k') <= v.bytes
    ensures Reached(cfg, AfterPacket(w, k', v), k)
  {
    hide Cur, Counted, Bucket;
  }

  lemma ReachedOther(cfg: Config, w: World, s: Step, k: FlowKey)
    requires Structure(cfg, w) && Reached(cfg, w, k) && Enabled(cfg, w, s) && !s.Visit? && !s.Packet?
    ensures Reached(cfg, Take(cfg, w, s), k)
  {
    hide Idle;
  }

  lemma ReachedStep(cfg: Config, w: World, s: Step, k: FlowKey)
    requires Structure(cfg, w) && Owned(w) && Reached(cfg, w, k) && Enabled(cfg, w, s)
    ensures Reached(cfg, Take(cfg, w, s), k)
  {
    hide Structure, Owned, Reached, AfterVisit, AfterPacket;
    match s
    case Visit(k') => ReachedVisit(cfg, w, k, k');
    case Packet(k', v) => ReachedPacket(cfg, w, k, k', v);
    case _ => ReachedOther(cfg, w, s, k);
  }

  // ---- expiry -----------------------------------------------------------------

  /** The entries exported as expired. */
  function Spent(log: seq<Logged>): set<nat> {
    if |log| == 0 then {}
    else
      var l := log[|log| - 1];
      Spent(log[..|log| - 1]) + if l.out.expired then {l.id} else {}
  }

  /** Exports say "expired" exactly for idle flows, and again for an entry only if a
      delete of it was lost. */
  predicate WellJudged(t: Timeouts, log: seq<Logged>, lost: set<nat>) {
    |log| == 0 ||
    var init, l := log[..|log| - 1], log[|log| - 1];
    && WellJudged(t, init, lost)
    && (l.out.expired <==> Idle(t, l.out.key, l.out.value.lastSeen, l.now))
    && (l.out.expired ==> l.id !in Spent(init) || l.id in lost)
  }

  /** An expired entry is on its way out of the map and never read again, unless its
      delete was lost. */
  ghost predicate ExpiryOnce(cfg: Config, w: World) {
    && WellJudged(cfg.timeouts, w.log, w.lost)
    && (forall k | k in w.todo && w.todo[k].id in Spent(w.log) :: w.todo[k].id in w.lost)
    && (forall k | k in w.kernel && w.kernel[k].id in Spent(w.log) :: BeingDeleted(w, k) || w.kernel[k].id in w.lost)
  }

  lemma {:induction false} SpentOwned(log: seq<Logged>, n: nat)
    requires forall l | l in log :: l.id < n
    ensures forall id | id in Spent(log) :: id < n
  {
    if |log| == 0 {
    } else {
      SpentOwned(log[..|log| - 1], n);
    }
  }

  lemma {:induction false} SpentAt(log: seq<Logged>, j: nat)
    requires j < |log| && log[j].out.expired
    ensures log[j].id in Spent(log)
  {
    if j == |log| - 1 {
    } else {
      SpentAt(log[..|log| - 1], j);
    }
  }

  lemma JudgedSnoc(t: Timeouts, log: seq<Logged>, lost: set<nat>, l: Logged)
    ensures Spent(log + [l]) == Spent(log) + if l.out.expired then {l.id} else {}
    ensures WellJudged(t, log + [l], lost) <==>
      && WellJudged(t, log, lost)
      && (l.out.expired <==> Idle(t, l.out.key, l.out.value.lastSeen, l.now))
      && (l.out.expired ==> l.id !in Spent(log) || l.id in lost)
  {
    assert (log + [l])[..|log|] == log;
  }

  lemma {:induction false} JudgedLater(t: Timeouts, log: seq<Logged>, lost: set<nat>, more: set<nat>)
    requires WellJudged(t, log, lost) && lost <= more
    ensures WellJudged(t, log, more)
  {
    hide Idle;
    if |log| == 0 {
    } else {
      JudgedLater(t, log[..|log| - 1], lost, more);
    }
  }

  /** Two expired exports of one entry need a lost delete. */
  lemma {:induction false} JudgedPairwise(t: Timeouts, log: seq<Logged>, lost: set<nat>)
    requires WellJudged(t, log, lost)
    ensures forall l | l in log :: l.out.expired <==> Idle(t, l.out.key, l.out.value.lastSeen, l.now)
    ensures forall i, j | 0 <= i < j < |log| && log[i].out.expired && log[j].out.expired && log[i].id == log[j].id ::
      log[i].id in lost
  {
    hide Idle;
    if |log| == 0 {
    } else {
      var init := log[..|log| - 1];
      JudgedPairwise(t, init, lost);
      forall i | 0 <= i < |init| && log[i].out.expired
        ensures log[i].id in Spent(init)
      {
        SpentAt(init, i);
      }
    }
  }

  lemma ExpiryVisit(cfg: Config, w: World, k: FlowKey)
    requires Owned(w) && Enabled(cfg, w, Visit(k)) && ExpiryOnce(cfg, w)
    ensures ExpiryOnce(cfg, AfterVisit(cfg, w, k))
  {
    hide Idle, AfterVisit, DeltaOf, Changed, Spent, WellJudged, Booked, TrackedCounts, ForgottenOf;
    VisitEffect(cfg, w, k);
    var w' := AfterVisit(cfg, w, k);
    if |w'.log| > |w.log| {
      JudgedSnoc(cfg.timeouts, w.log, w.lost, w'.log[|w.log|]);
    }
  }

  lemma ExpiryPacket(cfg: Config, w: World, k: FlowKey, v: FlowValue)
    requires Owned(w) && Enabled(cfg, w, Packet(k, v)) && ExpiryOnce(cfg, w)
    ensures ExpiryOnce(cfg, Take(cfg, w, Packet(k, v)))
  {
    SpentOwned(w.log, |w.accounts|);
    hide Idle, Counted, Spent, WellJudged, Grown;
  }

  lemma ExpiryLost(cfg: Config, w: World)
    requires Enabled(cfg, w, LoseDelete) && ExpiryOnce(cfg, w)
    ensures ExpiryOnce(cfg, Take(cfg, w, LoseDelete))
  {
    hide Spent, WellJudged, Known;
    JudgedLater(cfg.timeouts, w.log, w.lost, Take(cfg, w, LoseDelete).lost);
  }

  lemma ExpiryOther(cfg: Config, w: World, s: Step)
    requires Structure(cfg, w) && Enabled(cfg, w, s) && ExpiryOnce(cfg, w)
    requires !s.Packet? && !s.Visit? && !s.LoseDelete?
    ensures ExpiryOnce(cfg, Take(cfg, w, s))
  {
    hide Idle, Bucket, Spent, WellJudged, Known, Dropped, Closed;
  }

  lemma ExpiryStep(cfg: Config, w: World, s: Step)
    requires Structure(cfg, w) && Owned(w) && Enabled(cfg, w, s) && ExpiryOnce(cfg, w)
    ensures ExpiryOnce(cfg, Take(cfg, w, s))
  {
    hide Structure, Owned, ExpiryOnce, AfterVisit, AfterPacket;
    match s
    case Packet(k, v) => ExpiryPacket(cfg, w, k, v);
    case Visit(k) => ExpiryVisit(cfg, w, k);
    case LoseDelete => ExpiryLost(cfg, w);
    case _ => ExpiryOther(cfg, w, s);
  }

  /** `k`'s entry has not been touched last before time `seen`, unless it was set back. */
  predicate Onward(w: World, k: FlowKey, seen: U64)
    requires k in w.kernel
  {
    w.kernel[k].id in w.rewound || seen <= w.kernel[k].value.lastSeen
  }

  /** In a pass whose walk does not stop early, an entry older than the pass is still
      to be read, to be visited, was read within its timeout, or its delete was lost. */
  predicate Attended(cfg: Config, w: World, k: FlowKey) {
    !w.phase.Resting? && w.complete && k in w.kernel && w.kernel[k].id < w.passStart && !BeingDeleted(w, k) ==>
      || (w.phase.Walking? && Bucket(cfg, k) >= |w.views|)
      || (k in w.todo && w.todo[k].id == w.kernel[k].id && Onward(w, k, w.todo[k].value.lastSeen))
      || (k in w.pass.seen && k in w.pass.last && !Idle(cfg.timeouts, k, w.pass.last[k].lastSeen, w.phase.now)
          && Onward(w, k, w.pass.last[k].lastSeen))
      || w.kernel[k].id in w.lost
  }

  lemma AttendedVisit(cfg: Config, w: World, k: FlowKey, k': FlowKey)
    requires Structure(cfg, w) && Enabled(cfg, w, Visit(k')) && Attended(cfg, w, k)
    ensures Attended(cfg, AfterVisit(cfg, w, k'), k)
  {
    assert k' !in w.pass.seen;
    hide Idle, AfterVisit, DeltaOf, Changed, Bucket, Booked, Structure;
    VisitEffect(cfg, w, k');
  }

  lemma AttendedPacket(cfg: Config, w: World, k: FlowKey, k': FlowKey, v: FlowValue)
    requires Owned(w) && Attended(cfg, w, k)
    requires Cur(PacketCount, w, k') <= v.packets && Cur(ByteCount, w, k') <= v.bytes
    ensures Attended(cfg, AfterPacket(w, k', v), k)
  {
    hide Idle, Bucket, Counted, Cur, Grown;
  }

  lemma AttendedOther(cfg: Config, w: World, s: Step, k: FlowKey)
    requires Structure(cfg, w) && Owned(w) && Enabled(cfg, w, s) && Attended(cfg, w, k)
    requires !s.Packet? && !s.Visit?
    ensures Attended(cfg, Take(cfg, w, s), k)
  {
    hide Idle, Bucket, Closed, Known, Dropped;
  }

  lemma AttendedStep(cfg: Config, w: World, s: Step, k: FlowKey)
    requires Structure(cfg, w) && Owned(w) && Enabled(cfg, w, s) && Attended(cfg, w, k)
    ensures Attended(cfg, Take(cfg, w, s), k)
  {
    hide Structure, Owned, Attended, AfterVisit, AfterPacket;
    match s
    case Visit(k') => AttendedVisit(cfg, w, k, k');
    case Packet(k', v) => AttendedPacket(cfg, w, k, k', v);
    case _ => AttendedOther(cfg, w, s, k);
  }

  // ---- the pass as the agent computes it --------------------------------------

  /** What was processed so far is the agent's own fold over the reads made, each key
      read once. */
  ghost predicate InPass(cfg: Config, w: World) {
    !w.phase.Resting? ==>
      && DistinctKeys(w.order) && KeysRead(w.order) == w.pass.seen && (forall r | r in w.order :: r.value.Some?)
      && w.pass == Entries(cfg.timeouts, w.phase.now, PassStart(w.before), w.order)
  }

  /** One more read, of a key not read before. */
  lemma OrderGrows(order: seq<Read>, r: Read)
    requires DistinctKeys(order) && (forall x | x in order :: x.value.Some?) && r.value.Some? && r.key !in KeysRead(order)
    ensures DistinctKeys(order + [r]) && KeysRead(order + [r]) == KeysRead(order) + {r.key}
    ensures forall x | x in order + [r] :: x.value.Some?
  {
    KeysReadSnoc(order, r);
    forall i | 0 <= i < |order|
      ensures order[i].key != r.key
    {
      assert order[i] in order && order[i].key in KeysRead(order);
    }
    hide KeysRead;
  }

  lemma EntriesSnoc(t: Timeouts, now: U64, p: Pass, order: seq<Read>, r: Read)
    ensures Entries(t, now, p, order + [r]) == EntryStep(t, now, Entries(t, now, p, order), r)
  {
    hide EntryStep;
    assert (order + [r])[..|order|] == order;
  }

  lemma InPassVisit(cfg: Config, w: World, k: FlowKey)
    requires Structure(cfg, w) && Enabled(cfg, w, Visit(k)) && InPass(cfg, w)
    ensures InPass(cfg, AfterVisit(cfg, w, k))
  {
    assert k !in w.pass.seen;
    hide Idle, Changed, Bucket, KeysRead, DistinctKeys, Booked, Structure, EntryStep, Entries, ForgottenOf, TrackedCounts;
    var r := Read(k, Some(w.todo[k].value));
    OrderGrows(w.order, r);
    EntriesSnoc(cfg.timeouts, w.phase.now, PassStart(w.before), w.order, r);
    assert AfterVisit(cfg, w, k).pass.seen == w.pass.seen + {k} by { VisitEffect(cfg, w, k); }
  }

  lemma InPassStep(cfg: Config, w: World, s: Step)
    requires Structure(cfg, w) && Enabled(cfg, w, s) && InPass(cfg, w)
    ensures InPass(cfg, Take(cfg, w, s))
  {
    hide Idle, DeltaOf, Changed, Bucket, Counted, Cur, Known, Dropped, Grown, Closed, AfterVisit;
    if s.Visit? {
      hide InPass, Structure;
      InPassVisit(cfg, w, s.key);
    }
  }

  /** The entries to be visited are those of the walk's snapshot not visited yet, and
      the reads made are theirs. */
  ghost predicate InSnapshot(cfg: Config, w: World) {
    !w.phase.Resting? ==>
      && var m := Snapshot(cfg, w.views);
      w.todo == m - w.pass.seen
      && w.pass.seen <= m.Keys
      && (forall r | r in w.order :: r.key in m && r.value == Some(m[r.key].value))
  }

  lemma SnapshotSnoc(cfg: Config, views: seq<map<FlowKey, Entry>>, m: map<FlowKey, Entry>)
    ensures Snapshot(cfg, views + [m])
         == Snapshot(cfg, views) + map k | k in m && Bucket(cfg, k) == |views| :: m[k]
  {
    assert (views + [m])[..|views|] == views;
  }

  lemma InSnapshotVisit(cfg: Config, w: World, k: FlowKey)
    requires Enabled(cfg, w, Visit(k)) && InSnapshot(cfg, w)
    ensures InSnapshot(cfg, AfterVisit(cfg, w, k))
  {
    hide Idle, AfterVisit, DeltaOf, Changed, Booked, Snapshot;
    VisitEffect(cfg, w, k);
  }

  lemma InSnapshotBucket(cfg: Config, w: World)
    requires Structure(cfg, w) && w.phase.Walking? && InSnapshot(cfg, w)
    ensures InSnapshot(cfg, AfterBucket(cfg, w))
  {
    hide Bucket, Snapshot;
    SnapshotSnoc(cfg, w.views, w.kernel);
  }

  lemma InSnapshotFrame(cfg: Config, w: World, w': World)
    requires InSnapshot(cfg, w)
    requires w'.todo == w.todo && w'.views == w.views && w'.pass.seen == w.pass.seen && w'.order == w.order
    requires w.phase.Resting? ==> w'.phase.Resting?
    ensures InSnapshot(cfg, w')
  {
    hide Snapshot;
  }

  lemma InSnapshotStep(cfg: Config, w: World, s: Step)
    requires Structure(cfg, w) && Enabled(cfg, w, s) && InSnapshot(cfg, w)
    ensures InSnapshot(cfg, Take(cfg, w, s))
  {
    hide Structure, AfterVisit, AfterPacket, AfterRemoval, AfterBucket, Bucket, Known, Dropped, Snapshot;
    match s
    case Visit(k) => InSnapshotVisit(cfg, w, k);
    case ReadBucket => InSnapshotBucket(cfg, w);
    case Begin(_) => SnapshotNone(cfg);
    case End =>
    case Packet(k, v) =>
      PacketFrame(w, k, v);
      InSnapshotFrame(cfg, w, Take(cfg, w, s));
    case Evict(k) =>
      RemovalFrame(w, k);
      InSnapshotFrame(cfg, w, Take(cfg, w, s));
    case Delete =>
      RemovalFrame(w, w.phase.key);
      InSnapshotFrame(cfg, w, Take(cfg, w, s));
    case _ => InSnapshotFrame(cfg, w, Take(cfg, w, s));
  }

  lemma SnapshotNone(cfg: Config)
    ensures Snapshot(cfg, []) == map[]
  {
  }

  lemma PacketFrame(w: World, k: FlowKey, v: FlowValue)
    requires Cur(PacketCount, w, k) <= v.packets && Cur(ByteCount, w, k) <= v.bytes
    ensures var w' := AfterPacket(w, k, v);
      w' == w.(kernel := w'.kernel, counted := w'.counted, accounts := w'.accounts, rewound := w'.rewound)
  {
    hide Counted, Cur, Grown;
  }

  lemma RemovalFrame(w: World, k: FlowKey)
    ensures var w' := AfterRemoval(w, k); w' == w.(kernel := w'.kernel, accounts := w'.accounts)
  {
  }
}
