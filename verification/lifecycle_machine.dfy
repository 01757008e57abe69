/** The agent's passes interleaved, step by step, with packets, evictions and faults. */
module LifecycleMachine {
  import opened Words
  import opened Flow
  import opened Lifecycle
  import BatchWalk

  /** A map entry: its value, and a number no other entry ever has. */
  datatype Entry = Entry(value: FlowValue, id: nat)

  /** A pair of packet and octet counts. */
  datatype Counts = Counts(packets: nat, bytes: nat)

  const NOTHING: Counts := Counts(0, 0)

  function CountOf(c: Counter, n: Counts): nat { if c == PacketCount then n.packets else n.bytes }

  function CountsOf(v: FlowValue): Counts { Counts(v.packets, v.bytes) }

  function Plus(a: Counts, b: Counts): Counts { Counts(a.packets + b.packets, a.bytes + b.bytes) }

  /** The history of one map entry: what was counted in it, whether it is still in the
      map, and, once the agent has visited it, the tracked counters it was first
      compared with, what was read then and what was read last. `forgotten` adds up
      what had been read of it each time the agent met it again as if it were new. */
  datatype Account = Account(
    key: FlowKey,
    counted: Counts,
    live: bool,
    visited: bool,
    base: Counts,
    first: Counts,
    read: Counts,
    forgotten: Counts)

  function NewAccount(k: FlowKey, v: FlowValue): Account {
    Account(k, CountsOf(v), true, false, NOTHING, NOTHING, NOTHING, NOTHING)
  }

  /** An account after its entry was read: `tracked` is what the tracker held for the
      key, if it held anything. */
  function Visited(a: Account, tracked: Option<Counts>, read: Counts): Account {
    if a.visited then
      a.(read := read, forgotten := if tracked.Some? then a.forgotten else Plus(a.forgotten, a.read))
    else
      a.(visited := true, base := if tracked.Some? then tracked.value else NOTHING, first := read, read := read)
  }

  function TrackedCounts(last: map<FlowKey, Last>, k: FlowKey): Option<Counts> {
    if k in last then Some(Counts(last[k].packets, last[k].bytes)) else None
  }

  /** An export, the entry that was read for it, the pass's `now`, and what had been
      forgotten of the entry by then. */
  datatype Logged = Logged(out: Export, id: nat, now: U64, forgotten: Counts)

  datatype Phase =
    | Resting
    | Walking(now: U64)
    | Exporting(now: U64)
    | Deleting(now: U64, key: FlowKey)

  /** The kernel map, the agent, and what really happened: every entry's account, and
      what was counted for every key. Of the current pass: `views` is the map at the
      time of each bucket's read, `complete` whether the walk did not stop early,
      `order` what was processed since it began with tracker `before`, `passStart` how
      many entries existed then. `torn` are the keys the agent forgot while it had an
      entry it had visited, `lost` the entries whose delete had no effect, `rewound` those
      whose time of the last packet was ever set back. */
  datatype World = World(
    kernel: map<FlowKey, Entry>,
    todo: map<FlowKey, Entry>,
    pass: Pass,
    phase: Phase,
    log: seq<Logged>,
    accounts: seq<Account>,
    counted: map<FlowKey, Counts>,
    torn: set<FlowKey>,
    lost: set<nat>,
    rewound: set<nat>,
    complete: bool,
    views: seq<map<FlowKey, Entry>>,
    before: map<FlowKey, Last>,
    order: seq<Read>,
    passStart: nat)

  const START: World :=
    World(map[], map[], PassStart(map[]), Resting, [], [], map[], {}, {}, {}, true, [], map[], [], 0)

  /** Timeouts, and the geometry of the kernel's map. */
  datatype Config = Config(timeouts: Timeouts, hashing: BatchWalk.Hashing<FlowKey>)

  function Bucket(cfg: Config, k: FlowKey): (b: nat)
    ensures b <= cfg.hashing.lastBucket
  {
    cfg.hashing.Bucket(k)
  }

  /** A walk can stop early and a delete can have no effect. */
  datatype Step =
    | Packet(key: FlowKey, value: FlowValue)
    | Evict(key: FlowKey)
    | Begin(now: U64)
    | ReadBucket
    | StopWalk
    | Visit(key: FlowKey)
    | Delete
    | LoseDelete
    | End

  predicate Faulty(s: Step) { s.StopWalk? || s.LoseDelete? }

  function Cur(c: Counter, w: World, k: FlowKey): U64 {
    if k in w.kernel then ValueCounter(c, w.kernel[k].value) else 0
  }

  function Counted(c: Counter, w: World, k: FlowKey): nat {
    if k in w.counted then CountOf(c, w.counted[k]) else 0
  }

  predicate Small(v: FlowValue) { v.packets < TWO_63 && v.bytes < TWO_63 }

  /** When a step may happen. A packet never lowers a counter, and counters stay
      below 2^63. */
  predicate Enabled(cfg: Config, w: World, s: Step) {
    match s
    case Packet(k, v) => Small(v) && Cur(PacketCount, w, k) <= v.packets && Cur(ByteCount, w, k) <= v.bytes
    case Evict(k) => k in w.kernel
    case Begin(_) => w.phase.Resting?
    case ReadBucket => w.phase.Walking?
    case StopWalk => w.phase.Walking?
    case Visit(k) => w.phase.Exporting? && k in w.todo
    case Delete => w.phase.Deleting?
    case LoseDelete => w.phase.Deleting?
    case End => w.phase.Exporting? && w.todo == map[]
  }

  // ---- the ledger -----------------------------------------------------------------

  function Grown(accounts: seq<Account>, id: nat, n: Counts): seq<Account> {
    if id < |accounts| then accounts[id := accounts[id].(counted := n)] else accounts
  }

  function Closed(accounts: seq<Account>, id: nat): seq<Account> {
    if id < |accounts| then accounts[id := accounts[id].(live := false)] else accounts
  }

  function Booked(accounts: seq<Account>, id: nat, tracked: Option<Counts>, read: Counts): seq<Account> {
    if id < |accounts| then accounts[id := Visited(accounts[id], tracked, read)] else accounts
  }

  predicate WasVisited(accounts: seq<Account>, id: nat) { id < |accounts| && accounts[id].visited }

  function ForgottenOf(accounts: seq<Account>, id: nat): Counts {
    if id < |accounts| then accounts[id].forgotten else NOTHING
  }

  // ---- steps ------------------------------------------------------------------------

  function AfterPacket(w: World, k: FlowKey, v: FlowValue): World
    requires Cur(PacketCount, w, k) <= v.packets && Cur(ByteCount, w, k) <= v.bytes
  {
    var total := Counts(Counted(PacketCount, w, k) + v.packets - Cur(PacketCount, w, k),
                        Counted(ByteCount, w, k) + v.bytes - Cur(ByteCount, w, k));
    if k in w.kernel then
      w.(kernel := w.kernel[k := Entry(v, w.kernel[k].id)], counted := w.counted[k := total],
         accounts := Grown(w.accounts, w.kernel[k].id, CountsOf(v)),
         rewound := if v.lastSeen < w.kernel[k].value.lastSeen then w.rewound + {w.kernel[k].id} else w.rewound)
    else
      w.(kernel := w.kernel[k := Entry(v, |w.accounts|)], counted := w.counted[k := total],
         accounts := w.accounts + [NewAccount(k, v)])
  }

  /** Key `k`'s entry, if it has one, leaves the map. */
  function AfterRemoval(w: World, k: FlowKey): World {
    if k in w.kernel then w.(kernel := w.kernel - {k}, accounts := Closed(w.accounts, w.kernel[k].id)) else w
  }

  /** One bucket of the map joins the snapshot. */
  function AfterBucket(cfg: Config, w: World): World
    requires w.phase.Walking?
  {
    w.(todo := w.todo + map k | k in w.kernel && Bucket(cfg, k) == |w.views| :: w.kernel[k],
       views := w.views + [w.kernel],
       phase := if |w.views| == cfg.hashing.lastBucket then Exporting(w.phase.now) else w.phase)
  }

  /** The agent processes one flow of its snapshot. */
  function AfterVisit(cfg: Config, w: World, k: FlowKey): World
    requires w.phase.Exporting? && k in w.todo
  {
    var now, entry := w.phase.now, w.todo[k];
    var p := EntryStep(cfg.timeouts, now, w.pass, Read(k, Some(entry.value)));
    var accounts := Booked(w.accounts, entry.id, TrackedCounts(w.pass.last, k), CountsOf(entry.value));
    w.(todo := w.todo - {k},
       pass := p,
       accounts := accounts,
       order := w.order + [Read(k, Some(entry.value))],
       log := if |p.exports| > |w.pass.exports|
              then w.log + [Logged(p.exports[|p.exports| - 1], entry.id, now, ForgottenOf(accounts, entry.id))]
              else w.log,
       phase := if Idle(cfg.timeouts, k, entry.value.lastSeen, now) then Deleting(now, k) else w.phase)
  }

  /** The agent has visited `k`'s entry. */
  predicate Known(w: World, k: FlowKey) { k in w.kernel && WasVisited(w.accounts, w.kernel[k].id) }

  /** The keys the end of a pass drops from the tracker although the agent knows their
      entries. */
  function Dropped(w: World): set<FlowKey> {
    set k | k in w.pass.last && k !in w.pass.seen && Known(w, k)
  }

  function Take(cfg: Config, w: World, s: Step): World
    requires Enabled(cfg, w, s)
  {
    match s
    case Packet(k, v) => AfterPacket(w, k, v)
    case Evict(k) => AfterRemoval(w, k)
    case Begin(now) =>
      w.(phase := Walking(now), pass := PassStart(w.pass.last), todo := map[], complete := true, views := [],
         before := w.pass.last, order := [], passStart := |w.accounts|)
    case ReadBucket => AfterBucket(cfg, w)
    case StopWalk => w.(phase := Exporting(w.phase.now), complete := false)
    case Visit(k) => AfterVisit(cfg, w, k)
    case Delete => AfterRemoval(w, w.phase.key).(phase := Exporting(w.phase.now))
    case LoseDelete =>
      var k := w.phase.key;
      w.(phase := Exporting(w.phase.now),
         torn := if Known(w, k) then w.torn + {k} else w.torn,
         lost := if k in w.kernel then w.lost + {w.kernel[k].id} else w.lost)
    case End => w.(phase := Resting, pass := Pruned(w.pass), torn := w.torn + Dropped(w))
  }

  function Run(cfg: Config, steps: seq<Step>): Option<World> {
    if |steps| == 0 then Some(START)
    else
      match Run(cfg, steps[..|steps| - 1])
      case None => None
      case Some(w) => if Enabled(cfg, w, steps[|steps| - 1]) then Some(Take(cfg, w, steps[|steps| - 1])) else None
  }

  /** A run from world `w` on. */
  function RunOn(cfg: Config, w: World, steps: seq<Step>): Option<World> {
    if |steps| == 0 then Some(w)
    else
      match RunOn(cfg, w, steps[..|steps| - 1])
      case None => None
      case Some(w') => if Enabled(cfg, w', steps[|steps| - 1]) then Some(Take(cfg, w', steps[|steps| - 1])) else None
  }

  lemma {:induction false} RunsOn(cfg: Config, steps: seq<Step>, w: World, more: seq<Step>)
    requires Run(cfg, steps) == Some(w)
    ensures Run(cfg, steps + more) == RunOn(cfg, w, more)
  {
    hide Take, Enabled;
    if |more| == 0 {
      assert steps + more == steps;
    } else {
      var both := steps + more;
      assert both[..|both| - 1] == steps + more[..|more| - 1] && both[|both| - 1] == more[|more| - 1];
      RunsOn(cfg, steps, w, more[..|more| - 1]);
    }
  }

  /** The snapshot a walk has taken that read bucket `b` from `views[b]`. */
  function Snapshot(cfg: Config, views: seq<map<FlowKey, Entry>>): map<FlowKey, Entry> {
    if |views| == 0 then map[]
    else
      var b := |views| - 1;
      Snapshot(cfg, views[..b]) + map k | k in views[b] && Bucket(cfg, k) == b :: views[b][k]
  }

  // ---- sums over the export log -----------------------------------------------------

  /** Sum of the deltas exported for a key. */
  function Exported(c: Counter, log: seq<Logged>, k: FlowKey): nat {
    if |log| == 0 then 0
    else
      var l := log[|log| - 1];
      Exported(c, log[..|log| - 1], k) + if l.out.key == k then DeltaCounter(c, l.out.delta) else 0
  }

  /** Sum of the deltas exported from one map entry. */
  function EntryExported(c: Counter, log: seq<Logged>, id: nat): nat {
    if |log| == 0 then 0
    else
      var l := log[|log| - 1];
      EntryExported(c, log[..|log| - 1], id) + if l.id == id then DeltaCounter(c, l.out.delta) else 0
  }

  lemma SumsSnoc(c: Counter, log: seq<Logged>, l: Logged)
    ensures forall k ::
      Exported(c, log + [l], k) == Exported(c, log, k) + if l.out.key == k then DeltaCounter(c, l.out.delta) else 0
    ensures forall id ::
      EntryExported(c, log + [l], id) == EntryExported(c, log, id) + if l.id == id then DeltaCounter(c, l.out.delta) else 0
  {
    assert (log + [l])[..|log|] == log;
  }

  // ---- sums over the ledger -----------------------------------------------------------

  /** What the tracked counters kept out of an entry's first delta: all of them, unless
      they were above the entry's own. */
  function Stale(c: Counter, a: Account): nat {
    if CountOf(c, a.base) <= CountOf(c, a.first) then CountOf(c, a.base) else 0
  }

  /** What was counted in an entry and never read. */
  function Unread(c: Counter, a: Account): nat {
    if CountOf(c, a.read) <= CountOf(c, a.counted) then CountOf(c, a.counted) - CountOf(c, a.read) else 0
  }

  /** The quantities that are added up per key. `Due` is unread in an entry that is
      still in the map, `Gone` in one that is not. */
  datatype Part = CountedPart | ReadPart | StalePart | ForgottenPart | Due | Gone

  function PartOf(c: Counter, a: Account, p: Part): nat {
    match p
    case CountedPart => CountOf(c, a.counted)
    case ReadPart => CountOf(c, a.read)
    case StalePart => Stale(c, a)
    case ForgottenPart => CountOf(c, a.forgotten)
    case Due => if a.live then Unread(c, a) else 0
    case Gone => if a.live then 0 else Unread(c, a)
  }

  function Total(c: Counter, accounts: seq<Account>, k: FlowKey, p: Part): nat {
    if |accounts| == 0 then 0
    else
      var a := accounts[|accounts| - 1];
      Total(c, accounts[..|accounts| - 1], k, p) + if a.key == k then PartOf(c, a, p) else 0
  }

  lemma TotalSnoc(c: Counter, accounts: seq<Account>, k: FlowKey, p: Part, a: Account)
    ensures Total(c, accounts + [a], k, p) == Total(c, accounts, k, p) + if a.key == k then PartOf(c, a, p) else 0
  {
    assert (accounts + [a])[..|accounts|] == accounts;
  }

  lemma {:induction false} TotalUpdate(c: Counter, accounts: seq<Account>, k: FlowKey, p: Part, i: nat, a: Account)
    requires i < |accounts| && accounts[i].key == a.key
    ensures Total(c, accounts[i := a], k, p) + (if a.key == k then PartOf(c, accounts[i], p) else 0)
         == Total(c, accounts, k, p) + (if a.key == k then PartOf(c, a, p) else 0)
  {
    hide PartOf;
    var n := |accounts| - 1;
    if i < n {
      assert accounts[i := a][..n] == accounts[..n][i := a];
      TotalUpdate(c, accounts[..n], k, p, i, a);
    } else {
      assert accounts[i := a][..n] == accounts[..n];
    }
  }

  /** What was counted for a key was read, is due, or is gone. */
  lemma {:induction false} CountedSplits(c: Counter, accounts: seq<Account>, k: FlowKey)
    requires forall a | a in accounts :: CountOf(c, a.read) <= CountOf(c, a.counted)
    ensures Total(c, accounts, k, CountedPart)
         == Total(c, accounts, k, ReadPart) + Total(c, accounts, k, Due) + Total(c, accounts, k, Gone)
  {
    if |accounts| == 0 {
    } else {
      CountedSplits(c, accounts[..|accounts| - 1], k);
    }
  }

  lemma {:induction false} TotalZero(c: Counter, accounts: seq<Account>, k: FlowKey, p: Part)
    requires forall a | a in accounts && a.key == k :: PartOf(c, a, p) == 0
    ensures Total(c, accounts, k, p) == 0
  {
    if |accounts| == 0 {
    } else {
      TotalZero(c, accounts[..|accounts| - 1], k, p);
    }
  }

  // ---- effects of the steps -------------------------------------------------------------

  /** The parts of the world a visit changes. */
  lemma VisitEffect(cfg: Config, w: World, k: FlowKey)
    requires Enabled(cfg, w, Visit(k))
    ensures var w', e, now := AfterVisit(cfg, w, k), w.todo[k], w.phase.now;
      var idle := Idle(cfg.timeouts, k, e.value.lastSeen, now);
      var out := Export(k, e.value, idle, DeltaOf(w.pass.last, k, e.value));
      && w'.pass.last == (if idle then w.pass.last - {k} else w.pass.last[k := AsLast(e.value)])
      && w'.pass.seen == w.pass.seen + {k}
      && w'.todo == w.todo - {k}
      && w'.accounts == Booked(w.accounts, e.id, TrackedCounts(w.pass.last, k), CountsOf(e.value))
      && w'.order == w.order + [Read(k, Some(e.value))]
      && w'.phase == (if idle then Deleting(now, k) else w.phase)
      && w'.log == (if idle || Changed(w.pass.last, k, e.value)
                    then w.log + [Logged(out, e.id, now, ForgottenOf(w'.accounts, e.id))] else w.log)
      && w' == w.(pass := w'.pass, todo := w'.todo, phase := w'.phase, log := w'.log, order := w'.order,
                  accounts := w'.accounts)
  {
    hide Idle, DeltaOf, Changed, Booked;
  }

  /** Counters of the key a packet belongs to, and of every other key. */
  lemma PacketCounts(c: Counter, w: World, k: FlowKey, k': FlowKey, v: FlowValue)
    requires Cur(PacketCount, w, k') <= v.packets && Cur(ByteCount, w, k') <= v.bytes
    ensures var w' := AfterPacket(w, k', v);
      && Cur(c, w', k) >= Cur(c, w, k)
      && Counted(c, w', k) - Counted(c, w, k) == Cur(c, w', k) - Cur(c, w, k)
      && w'.pass == w.pass && w'.todo == w.todo && w'.phase == w.phase && w'.log == w.log
  {
    hide Grown;
  }
}
