/** What holds of every run of the agent against packets, evictions and faults. */
module LifecycleRuns {
  import opened Words
  import opened Flow
  import opened Lifecycle
  import opened LifecycleMachine
  import opened LifecycleInvariant
  import opened LifecyclePasses

  ghost predicate Invariant(cfg: Config, w: World) {
    && Structure(cfg, w) && Owned(w) && ExpiryOnce(cfg, w) && InPass(cfg, w) && InSnapshot(cfg, w)
    && (forall c: Counter :: Sane(c, w) && Balanced(c, w) && LogExact(c, w) && Forgiven(c, w))
    && (forall c, k :: Books(c, w, k) && KeyBalanced(c, w, k))
    && (forall k :: Remembered(w, k) && Reached(cfg, w, k) && Attended(cfg, w, k))
  }

  lemma CounterStep(cfg: Config, w: World, s: Step, c: Counter)
    requires Invariant(cfg, w) && Enabled(cfg, w, s)
    ensures var w' := Take(cfg, w, s);
      && Sane(c, w') && Balanced(c, w') && LogExact(c, w') && Forgiven(c, w')
      && forall k :: Books(c, w', k) && KeyBalanced(c, w', k)
  {
    hide Structure, Owned, ExpiryOnce, InPass, InSnapshot, Sane, Balanced, LogExact, Forgiven, Books, KeyBalanced,
      Remembered, Reached, Attended, Take, Enabled;
    SaneStep(cfg, c, w, s);
    BalancedStep(cfg, c, w, s);
    LogStep(cfg, c, w, s);
    ForgivenStep(cfg, c, w, s);
    forall k
      ensures Books(c, Take(cfg, w, s), k) && KeyBalanced(c, Take(cfg, w, s), k)
    {
      BooksStep(cfg, c, w, s, k);
      KeyStep(cfg, c, w, s, k);
    }
  }

  lemma InvariantStep(cfg: Config, w: World, s: Step)
    requires Invariant(cfg, w) && Enabled(cfg, w, s)
    ensures Invariant(cfg, Take(cfg, w, s))
  {
    hide Structure, Owned, ExpiryOnce, InPass, InSnapshot, Sane, Balanced, LogExact, Forgiven, Books, KeyBalanced,
      Remembered, Reached, Attended, Take, Enabled;
    StructureStep(cfg, w, s);
    OwnedStep(cfg, w, s);
    ExpiryStep(cfg, w, s);
    InPassStep(cfg, w, s);
    InSnapshotStep(cfg, w, s);
    forall c: Counter
      ensures var w' := Take(cfg, w, s); Sane(c, w') && Balanced(c, w') && LogExact(c, w') && Forgiven(c, w')
    {
      CounterStep(cfg, w, s, c);
    }
    forall c: Counter, k
      ensures Books(c, Take(cfg, w, s), k) && KeyBalanced(c, Take(cfg, w, s), k)
    {
      CounterStep(cfg, w, s, c);
    }
    forall k
      ensures Remembered(Take(cfg, w, s), k) && Reached(cfg, Take(cfg, w, s), k) && Attended(cfg, Take(cfg, w, s), k)
    {
      RememberedStep(cfg, w, s, k);
      ReachedStep(cfg, w, s, k);
      AttendedStep(cfg, w, s, k);
    }
  }

  lemma StartInvariant(cfg: Config)
    ensures Invariant(cfg, START)
  {
  }

  lemma {:induction false} RunInvariant(cfg: Config, steps: seq<Step>)
    ensures var r := Run(cfg, steps); r.Some? ==> Invariant(cfg, r.value)
  {
    hide Invariant, Take, Enabled;
    if |steps| == 0 {
      StartInvariant(cfg);
    } else {
      var r := Run(cfg, steps[..|steps| - 1]);
      RunInvariant(cfg, steps[..|steps| - 1]);
      if r.Some? && Enabled(cfg, r.value, steps[|steps| - 1]) {
        InvariantStep(cfg, r.value, steps[|steps| - 1]);
      }
    }
  }

  lemma ByCounter(cfg: Config, w: World, c: Counter)
    requires Invariant(cfg, w)
    ensures Owned(w) && Sane(c, w) && Balanced(c, w) && LogExact(c, w) && Forgiven(c, w)
  {
  }

  lemma ByKey(cfg: Config, w: World, c: Counter, k: FlowKey)
    requires Invariant(cfg, w)
    ensures Books(c, w, k) && KeyBalanced(c, w, k) && Remembered(w, k) && Reached(cfg, w, k) && Attended(cfg, w, k)
  {
  }

  // ---- conservation ---------------------------------------------------------------

  /** In every run, for every key: what was exported, what stale tracker values left
      out, and what is or was in the map unread, is what was counted and what was
      forgotten. Only torn keys have anything forgotten. */
  lemma {:induction false} KeyConservation(cfg: Config, steps: seq<Step>, c: Counter, k: FlowKey)
    ensures var r := Run(cfg, steps); r.Some? ==>
      var w := r.value;
      && Exported(c, w.log, k) + Total(c, w.accounts, k, StalePart)
           + Total(c, w.accounts, k, Due) + Total(c, w.accounts, k, Gone)
           == Counted(c, w, k) + Total(c, w.accounts, k, ForgottenPart)
      && (Total(c, w.accounts, k, ForgottenPart) > 0 ==> k in w.torn)
  {
    hide *;
    RunInvariant(cfg, steps);
    var r := Run(cfg, steps);
    if r.Some? {
      ByCounter(cfg, r.value, c);
      ByKey(cfg, r.value, c, k);
      Balance(c, r.value, k);
    }
  }

  lemma Balance(c: Counter, w: World, k: FlowKey)
    requires Sane(c, w) && KeyBalanced(c, w, k) && Forgiven(c, w)
    ensures Exported(c, w.log, k) + Total(c, w.accounts, k, StalePart)
            + Total(c, w.accounts, k, Due) + Total(c, w.accounts, k, Gone)
         == Counted(c, w, k) + Total(c, w.accounts, k, ForgottenPart)
    ensures Total(c, w.accounts, k, ForgottenPart) > 0 ==> k in w.torn
  {
    hide Exported, Total, Counted, CountOf;
    forall a | a in w.accounts
      ensures CountOf(c, a.read) <= CountOf(c, a.counted)
    {
      var i :| 0 <= i < |w.accounts| && w.accounts[i] == a;
    }
    CountedSplits(c, w.accounts, k);
    if k !in w.torn {
      forall a | a in w.accounts && a.key == k
        ensures PartOf(c, a, ForgottenPart) == 0
      {
      }
      TotalZero(c, w.accounts, k, ForgottenPart);
    }
  }

  /** In every run the deltas exported for a key exceed what was counted for it by no
      more than was forgotten of its entries, and exceed it exactly if that is more
      than what was left out and unread. Nothing is forgotten of a key that was not
      torn, and without a stopped walk or a lost delete no key is. */
  lemma {:induction false} NeverOverCount(cfg: Config, steps: seq<Step>, c: Counter, k: FlowKey)
    ensures var r := Run(cfg, steps); r.Some? ==>
      var w := r.value; var forgotten := Total(c, w.accounts, k, ForgottenPart);
      && Exported(c, w.log, k) <= Counted(c, w, k) + forgotten
      && (Exported(c, w.log, k) <= Counted(c, w, k)
          <==> forgotten <= Total(c, w.accounts, k, StalePart) + Total(c, w.accounts, k, Due) + Total(c, w.accounts, k, Gone))
      && (k !in w.torn ==> forgotten == 0 && Exported(c, w.log, k) <= Counted(c, w, k))
      && ((forall s | s in steps :: !Faulty(s)) ==> w.torn == {})
  {
    hide Exported, Counted, Total, Run;
    KeyConservation(cfg, steps, c, k);
    if forall s | s in steps :: !Faulty(s) {
      FaultlessRun(cfg, steps);
    }
  }

  lemma SnapshotBuckets(cfg: Config, views: seq<map<FlowKey, Entry>>)
    ensures forall k | k in Snapshot(cfg, views) :: Bucket(cfg, k) < |views|
  {
    hide Bucket;
  }

  /** The agent forgets an entry it has visited in exactly two ways: its delete is lost,
      or a pass ends whose walk stopped before the entry's bucket. */
  lemma {:induction false} TornByFaults(cfg: Config, steps: seq<Step>, s: Step, k: FlowKey)
    ensures var r := Run(cfg, steps); r.Some? && Enabled(cfg, r.value, s) ==>
      var w, w' := r.value, Take(cfg, r.value, s);
      k in w'.torn <==>
        || k in w.torn
        || (s.LoseDelete? && k == w.phase.key && Known(w, k))
        || (s.End? && k in w.pass.last && Known(w, k) && Bucket(cfg, k) >= |w.views|)
  {
    hide *;
    RunInvariant(cfg, steps);
    var r := Run(cfg, steps);
    if r.Some? && Enabled(cfg, r.value, s) {
      ByKey(cfg, r.value, PacketCount, k);
      TearsHere(cfg, r.value, s, k);
    }
  }

  lemma TearsHere(cfg: Config, w: World, s: Step, k: FlowKey)
    requires Invariant(cfg, w) && Enabled(cfg, w, s)
    ensures k in Take(cfg, w, s).torn <==>
        || k in w.torn
        || (s.LoseDelete? && k == w.phase.key && Known(w, k))
        || (s.End? && k in w.pass.last && Known(w, k) && Bucket(cfg, k) >= |w.views|)
  {
    hide Structure, Owned, ExpiryOnce, InPass, Sane, Balanced, LogExact, Forgiven, Books, KeyBalanced,
      Remembered, Attended, AfterVisit, AfterPacket, AfterRemoval, AfterBucket, Bucket, Known, Snapshot;
    assert Reached(cfg, w, k);
    SnapshotBuckets(cfg, w.views);
    match s
    case Packet(k', v) => PacketFrame(w, k', v);
    case Evict(k') => RemovalFrame(w, k');
    case Delete => RemovalFrame(w, w.phase.key);
    case Visit(k') => VisitEffect(cfg, w, k');
    case ReadBucket => BucketFrame(cfg, w);
    case _ =>
  }

  /** A pass that ends after a complete walk forgets nothing. */
  lemma CompletePassTearsNothing(cfg: Config, w: World)
    requires Invariant(cfg, w) && Enabled(cfg, w, End) && w.complete
    ensures Take(cfg, w, End).torn == w.torn
  {
    hide Owned, ExpiryOnce, InPass, InSnapshot, Sane, Balanced, LogExact, Forgiven, Books, KeyBalanced,
      Remembered, Attended, Known, Bucket, Reached;
    assert |w.views| > cfg.hashing.lastBucket;
    forall k
      ensures k in Take(cfg, w, End).torn <==> k in w.torn
    {
      hide Invariant, Take;
      TearsHere(cfg, w, End, k);
    }
  }

  lemma {:induction false} FaultlessRun(cfg: Config, steps: seq<Step>)
    requires forall s | s in steps :: !Faulty(s)
    ensures var r := Run(cfg, steps); r.Some? ==> r.value.torn == {} && r.value.complete && r.value.lost == {}
  {
    hide Invariant, Take, Enabled;
    if |steps| == 0 {
    } else {
      var init, s := steps[..|steps| - 1], steps[|steps| - 1];
      FaultlessRun(cfg, init);
      var r := Run(cfg, init);
      if r.Some? && Enabled(cfg, r.value, s) {
        RunInvariant(cfg, init);
        assert s in steps;
        FaultlessStep(cfg, r.value, s);
      }
    }
  }

  lemma FaultlessStep(cfg: Config, w: World, s: Step)
    requires Invariant(cfg, w) && Enabled(cfg, w, s) && !Faulty(s) && w.torn == {} && w.complete && w.lost == {}
    ensures var w' := Take(cfg, w, s); w'.torn == {} && w'.complete && w'.lost == {}
  {
    hide Invariant, AfterVisit, AfterPacket, AfterRemoval, AfterBucket, Dropped;
    match s
    case Packet(k, v) => PacketFrame(w, k, v);
    case Evict(k) => RemovalFrame(w, k);
    case Delete => RemovalFrame(w, w.phase.key);
    case Visit(k) => VisitEffect(cfg, w, k);
    case ReadBucket => BucketFrame(cfg, w);
    case End => CompletePassTearsNothing(cfg, w);
    case Begin(_) =>
  }

  /** In every run, for every entry: its deltas, and what its first one left out, sum to
      the counters last read, at each of its exports and now, and what was forgotten of
      it; and while it is in the map and tracked, the tracker holds the counters last
      read. So if nothing was forgotten, the deltas sum to the counters last read
      exactly if the tracker held nothing, or more than was read, for its key when the
      entry was first visited. */
  lemma {:induction false} ExactConservation(cfg: Config, steps: seq<Step>, c: Counter)
    ensures var r := Run(cfg, steps); r.Some? ==>
      var w := r.value;
      && (forall j | 0 <= j < |w.log| ::
            && w.log[j].id < |w.accounts|
            && EntryExported(c, w.log[..j + 1], w.log[j].id) + Stale(c, w.accounts[w.log[j].id])
                 == ValueCounter(c, w.log[j].out.value) + CountOf(c, w.log[j].forgotten))
      && (forall id | 0 <= id < |w.accounts| ::
            && var a := w.accounts[id];
            && EntryExported(c, w.log, id) + Stale(c, a) == CountOf(c, a.read) + CountOf(c, a.forgotten)
            && (CountOf(c, a.forgotten) == 0 ==>
                  (EntryExported(c, w.log, id) == CountOf(c, a.read)
                   <==> CountOf(c, a.base) == 0 || CountOf(c, a.first) < CountOf(c, a.base))))
      && (forall k | Known(w, k) && k in w.pass.last ::
            TrackedCounter(c, w.pass.last, k) == CountOf(c, w.accounts[w.kernel[k].id].read))
  {
    hide *;
    RunInvariant(cfg, steps);
    var r := Run(cfg, steps);
    if r.Some? {
      ByCounter(cfg, r.value, c);
      forall k
        ensures Books(c, r.value, k)
      {
        ByKey(cfg, r.value, c, k);
      }
      ExactNow(c, r.value);
    }
  }

  lemma ExactNow(c: Counter, w: World)
    requires Owned(w) && Balanced(c, w) && LogExact(c, w) && forall k :: Books(c, w, k)
    ensures forall j | 0 <= j < |w.log| ::
      && w.log[j].id < |w.accounts|
      && EntryExported(c, w.log[..j + 1], w.log[j].id) + Stale(c, w.accounts[w.log[j].id])
           == ValueCounter(c, w.log[j].out.value) + CountOf(c, w.log[j].forgotten)
    ensures forall id | 0 <= id < |w.accounts| ::
      && var a := w.accounts[id];
      && EntryExported(c, w.log, id) + Stale(c, a) == CountOf(c, a.read) + CountOf(c, a.forgotten)
      && (CountOf(c, a.forgotten) == 0 ==>
            (EntryExported(c, w.log, id) == CountOf(c, a.read)
             <==> CountOf(c, a.base) == 0 || CountOf(c, a.first) < CountOf(c, a.base)))
    ensures forall k | Known(w, k) && k in w.pass.last ::
      TrackedCounter(c, w.pass.last, k) == CountOf(c, w.accounts[w.kernel[k].id].read)
  {
    hide EntryExported, CountOf, ValueCounter, TrackedCounter;
    forall j | 0 <= j < |w.log|
      ensures w.log[j].id < |w.accounts|
    {
      assert w.log[j] in w.log;
    }
    forall id | 0 <= id < |w.accounts|
      ensures var a := w.accounts[id];
        && EntryExported(c, w.log, id) + Stale(c, a) == CountOf(c, a.read) + CountOf(c, a.forgotten)
        && (CountOf(c, a.forgotten) == 0 ==>
              (EntryExported(c, w.log, id) == CountOf(c, a.read)
               <==> CountOf(c, a.base) == 0 || CountOf(c, a.first) < CountOf(c, a.base)))
    {
      assert EntryBalanced(c, w, id);
    }
    forall k | Known(w, k) && k in w.pass.last
      ensures TrackedCounter(c, w.pass.last, k) == CountOf(c, w.accounts[w.kernel[k].id].read)
    {
      assert Books(c, w, k);
    }
  }

  /** The lifetime of an entry: its deltas, what the first one left out and what was not
      read sum to its total and what was forgotten of it. So if nothing was forgotten,
      the deltas sum to the total exactly if they left nothing out at first and
      everything counted was read. */
  lemma {:induction false} DeltasSumToTotal(cfg: Config, steps: seq<Step>, c: Counter, id: nat)
    ensures var r := Run(cfg, steps); r.Some? && id < |r.value.accounts| ==>
      var a := r.value.accounts[id];
      && EntryExported(c, r.value.log, id) + Stale(c, a) + Unread(c, a) == CountOf(c, a.counted) + CountOf(c, a.forgotten)
      && (CountOf(c, a.forgotten) == 0 ==>
            (EntryExported(c, r.value.log, id) == CountOf(c, a.counted) <==>
               && (CountOf(c, a.base) == 0 || CountOf(c, a.first) < CountOf(c, a.base))
               && CountOf(c, a.read) == CountOf(c, a.counted)))
  {
    hide *;
    RunInvariant(cfg, steps);
    ExactConservation(cfg, steps, c);
    var r := Run(cfg, steps);
    if r.Some? && id < |r.value.accounts| {
      ByCounter(cfg, r.value, c);
      ReadAtMost(c, r.value, id);
    }
  }

  lemma ReadAtMost(c: Counter, w: World, id: nat)
    requires Sane(c, w) && id < |w.accounts|
    ensures var a := w.accounts[id];
      CountOf(c, a.read) <= CountOf(c, a.counted) && Unread(c, a) == CountOf(c, a.counted) - CountOf(c, a.read)
  {
  }

  /** The account of an entry that has left the map is final once no snapshot holds the
      entry: what was not read of it never is. */
  lemma {:induction false} RemovedIsFinal(cfg: Config, steps: seq<Step>, s: Step, id: nat)
    ensures var r := Run(cfg, steps); r.Some? && Enabled(cfg, r.value, s) ==>
      var w, w' := r.value, Take(cfg, r.value, s);
      id < |w.accounts| && !w.accounts[id].live && (forall k | k in w.todo :: w.todo[k].id != id) ==>
        && id < |w'.accounts| && w'.accounts[id] == w.accounts[id] && (forall k | k in w'.todo :: w'.todo[k].id != id)
  {
    hide *;
    RunInvariant(cfg, steps);
    var r := Run(cfg, steps);
    if r.Some? && Enabled(cfg, r.value, s) {
      ByCounter(cfg, r.value, PacketCount);
      if id < |r.value.accounts| && !r.value.accounts[id].live && forall k | k in r.value.todo :: r.value.todo[k].id != id {
        RemovedStays(cfg, r.value, s, id);
      }
    }
  }

  lemma RemovedStays(cfg: Config, w: World, s: Step, id: nat)
    requires Owned(w) && Enabled(cfg, w, s)
    requires id < |w.accounts| && !w.accounts[id].live && forall k | k in w.todo :: w.todo[k].id != id
    ensures var w' := Take(cfg, w, s);
      id < |w'.accounts| && w'.accounts[id] == w.accounts[id] && forall k | k in w'.todo :: w'.todo[k].id != id
  {
    hide AfterVisit, AfterPacket, Known, Dropped, Bucket;
    match s
    case Visit(k) =>
      VisitEffect(cfg, w, k);
    case Packet(k, v) =>
      PacketFrame(w, k, v);
      PacketAccounts(w, k, v, id);
    case _ =>
  }

  lemma PacketAccounts(w: World, k: FlowKey, v: FlowValue, id: nat)
    requires Owned(w) && Cur(PacketCount, w, k) <= v.packets && Cur(ByteCount, w, k) <= v.bytes
    requires id < |w.accounts| && !w.accounts[id].live
    ensures var w' := AfterPacket(w, k, v); id < |w'.accounts| && w'.accounts[id] == w.accounts[id]
  {
    hide Cur, Counted;
  }

  // ---- expiry and passes --------------------------------------------------------------

  /** In every run an export is marked expired exactly when the pass found the flow idle
      beyond its timeout, so never for a flow touched after `now`, and more than once
      for a map entry only if a delete of it was lost. */
  lemma {:induction false} ExpiryIsSafeAndOnce(cfg: Config, steps: seq<Step>)
    ensures var r := Run(cfg, steps); r.Some? ==>
      var log := r.value.log;
      && (forall l | l in log :: l.out.expired <==> Overdue(cfg.timeouts, l.out.key.protocol, l.out.value.lastSeen, l.now))
      && (forall l | l in log && l.out.expired :: l.out.value.lastSeen < l.now)
      && (forall i, j | 0 <= i < j < |log| && log[i].out.expired && log[j].out.expired && log[i].id == log[j].id ::
            log[i].id in r.value.lost)
  {
    RunInvariant(cfg, steps);
    hide Structure, Owned, InPass, InSnapshot, WellJudged, Spent, Run;
    var r := Run(cfg, steps);
    if r.Some? {
      assert ExpiryOnce(cfg, r.value);
      hide Invariant;
      JudgedPairwise(cfg.timeouts, r.value.log, r.value.lost);
      forall l | l in r.value.log
        ensures l.out.expired <==> Overdue(cfg.timeouts, l.out.key.protocol, l.out.value.lastSeen, l.now)
      {
        IdleIsOverdue(cfg.timeouts, l.out.key, l.out.value.lastSeen, l.now);
      }
    }
  }

  /** When a pass ends whose walk did not stop early, every entry in the map that is
      older than the pass was read in it within its timeout, or its delete was lost. So
      an idle one is gone, judged by the map's own value: what is still there and was
      never set back is within its timeout. */
  lemma {:induction false} ExpiryIsPrompt(cfg: Config, steps: seq<Step>)
    ensures var r := Run(cfg, steps); r.Some? && Enabled(cfg, r.value, End) && r.value.complete ==>
      var w, now := Take(cfg, r.value, End), r.value.phase.now;
      forall k | k in w.kernel && w.kernel[k].id < w.passStart && w.kernel[k].id !in w.lost ::
        && k in w.pass.last && !Overdue(cfg.timeouts, k.protocol, w.pass.last[k].lastSeen, now)
        && (w.kernel[k].id !in w.rewound ==> !Overdue(cfg.timeouts, k.protocol, w.kernel[k].value.lastSeen, now))
  {
    RunInvariant(cfg, steps);
    hide Run, Invariant, Idle, Overdue;
    var r := Run(cfg, steps);
    if r.Some? && Enabled(cfg, r.value, End) && r.value.complete {
      var w, now := Take(cfg, r.value, End), r.value.phase.now;
      forall k | k in w.kernel && w.kernel[k].id < w.passStart && w.kernel[k].id !in w.lost
        ensures k in w.pass.last && !Overdue(cfg.timeouts, k.protocol, w.pass.last[k].lastSeen, now)
        ensures w.kernel[k].id !in w.rewound ==> !Overdue(cfg.timeouts, k.protocol, w.kernel[k].value.lastSeen, now)
      {
        ByKey(cfg, r.value, PacketCount, k);
        IdleIsOverdue(cfg.timeouts, k, w.pass.last[k].lastSeen, now);
        IdleIsOverdue(cfg.timeouts, k, w.kernel[k].value.lastSeen, now);
        LaterIsNotIdle(cfg.timeouts, k, w.pass.last[k].lastSeen, w.kernel[k].value.lastSeen, now);
      }
    }
  }

  lemma LaterIsNotIdle(t: Timeouts, k: FlowKey, seen: U64, later: U64, now: U64)
    ensures seen <= later && !Idle(t, k, seen, now) ==> !Idle(t, k, later, now)
  {
    hide ProtoTimeout;
  }

  /** However packets, evictions and faults interleave with it, a pass ends with the
      tracker and exports `Tracker.Run` computes from the reads alone, which are of
      distinct keys. */
  lemma {:induction false} PassIsTheTrackers(cfg: Config, steps: seq<Step>)
    ensures var r := Run(cfg, steps); r.Some? && Enabled(cfg, r.value, End) ==>
      && DistinctKeys(r.value.order)
      && Take(cfg, r.value, End).pass
           == PassResult(cfg.timeouts, r.value.phase.now, r.value.before, r.value.order)
  {
    RunInvariant(cfg, steps);
    hide Structure, Owned, ExpiryOnce, InSnapshot, Run;
    var r := Run(cfg, steps);
    if r.Some? && Enabled(cfg, r.value, End) {
      assert InPass(cfg, r.value);
    }
  }
}
