/** One pass of the flow lifecycle: deltas, expiry and tracker pruning. */
module Lifecycle {
  import opened Words
  import opened Flow
  import BatchWalk

  const NS_PER_S: int := 1000000000

  /** Per-protocol idle timeouts in seconds. */
  datatype Timeouts = Timeouts(tcp: U64, udp: U64, icmp: U64, general: U64)

  function ProtoTimeout(t: Timeouts, proto: U8): U64 {
    match proto
    case 6 => t.tcp
    case 17 => t.udp
    case 1 => t.icmp
    case 58 => t.icmp
    case _ => t.general
  }

  /** What the tracker remembers of a flow: the counters last read. */
  datatype Last = Last(packets: U64, bytes: U64, lastSeen: U64)

  /** One call of the exporter callback. */
  datatype Export = Export(key: FlowKey, value: FlowValue, expired: bool, delta: Delta)

  datatype Stats = Stats(active: nat, expired: nat, entries: nat)

  /** A key handed out by the cursor and the value found for it, if any. */
  datatype Read = Read(key: FlowKey, value: Option<FlowValue>)

  /** Age of a flow, saturated at zero when it was touched after `now`. */
  function Age(now: U64, lastSeen: U64): U64 {
    if now >= lastSeen then now - lastSeen else 0
  }

  predicate Idle(t: Timeouts, key: FlowKey, lastSeen: U64, now: U64) {
    Age(now, lastSeen) > ProtoTimeout(t, key.protocol) * NS_PER_S
  }

  /** When a flow has outlived its timeout, protocol by protocol: it was touched before
      `now`, by more than the TCP, UDP, ICMP or general timeout. */
  predicate Overdue(t: Timeouts, proto: U8, lastSeen: U64, now: U64) {
    && now > lastSeen
    && (proto == 6 ==> now - lastSeen > t.tcp * 1000000000)
    && (proto == 17 ==> now - lastSeen > t.udp * 1000000000)
    && (proto == 1 || proto == 58 ==> now - lastSeen > t.icmp * 1000000000)
    && (proto != 6 && proto != 17 && proto != 1 && proto != 58 ==> now - lastSeen > t.general * 1000000000)
  }

  /** The age test says just that, also for flows touched after `now`. */
  lemma IdleIsOverdue(t: Timeouts, key: FlowKey, lastSeen: U64, now: U64)
    ensures Idle(t, key, lastSeen, now) <==> Overdue(t, key.protocol, lastSeen, now)
  {
  }

  /** The delta as computed: a signed 64-bit difference, replaced by the whole
      counter when it is negative. */
  function CounterDelta(cur: U64, prev: U64): U64 {
    var d := Signed64(Wrap64(cur - prev));
    Wrap64(if d < 0 then Signed64(cur) else d)
  }

  /** What a delta should be: growth since the last reading, or the whole counter
      of an entry that was recreated. */
  function Growth(cur: nat, prev: nat): nat {
    if cur >= prev then cur - prev else cur
  }

  /** The signed computation is right exactly while the two readings are less
      than 2^63 apart, or nothing was exported before. */
  lemma CounterDeltaExact(cur: U64, prev: U64)
    ensures CounterDelta(cur, prev) == Growth(cur, prev) <==> prev == 0 || -TWO_63 <= cur - prev < TWO_63
  {
    if cur >= prev {
      assert Wrap64(cur - prev) == cur - prev;
    } else {
      assert Wrap64(cur - prev) == cur - prev + TWO_64;
    }
    assert Wrap64(Signed64(cur)) == cur;
  }

  function CounterOf(c: Counter, packets: U64, bytes: U64): U64 {
    if c == PacketCount then packets else bytes
  }

  function ValueCounter(c: Counter, v: FlowValue): U64 { CounterOf(c, v.packets, v.bytes) }

  function DeltaCounter(c: Counter, d: Delta): U64 { CounterOf(c, d.packets, d.bytes) }

  /** A tracked counter, 0 for an untracked flow. */
  function TrackedCounter(c: Counter, last: map<FlowKey, Last>, k: FlowKey): U64 {
    if k in last then CounterOf(c, last[k].packets, last[k].bytes) else 0
  }

  // ---- the pass as a fold over the snapshot -----------------------------------

  /** State of a pass: tracker, keys seen, exports and deletes so far, statistics. */
  datatype Pass = Pass(
    last: map<FlowKey, Last>,
    seen: set<FlowKey>,
    exports: seq<Export>,
    deletes: seq<FlowKey>,
    stats: Stats)

  function PassStart(last: map<FlowKey, Last>): Pass {
    Pass(last, {}, [], [], Stats(0, 0, 0))
  }

  function DeltaOf(last: map<FlowKey, Last>, key: FlowKey, v: FlowValue): Delta {
    Delta(CounterDelta(v.packets, TrackedCounter(PacketCount, last, key)),
          CounterDelta(v.bytes, TrackedCounter(ByteCount, last, key)))
  }

  predicate Changed(last: map<FlowKey, Last>, key: FlowKey, v: FlowValue) {
    key !in last || last[key] != Last(v.packets, v.bytes, v.lastSeen)
  }

  /** There is something to tell of the flow: it is not tracked, or its packets, its octets
      or its last time are not those tracked. */
  predicate News(last: map<FlowKey, Last>, key: FlowKey, v: FlowValue) {
    key in last ==> v.packets != last[key].packets || v.bytes != last[key].bytes || v.lastSeen != last[key].lastSeen
  }

  lemma ChangedIsNews(last: map<FlowKey, Last>, key: FlowKey, v: FlowValue)
    ensures Changed(last, key, v) <==> News(last, key, v)
  {
  }

  function EntryStep(t: Timeouts, now: U64, p: Pass, r: Read): Pass {
    match r.value
    case None => p
    case Some(v) =>
      var out := Export(r.key, v, Idle(t, r.key, v.lastSeen, now), DeltaOf(p.last, r.key, v));
      if out.expired then
        Pass(p.last - {r.key}, p.seen + {r.key}, p.exports + [out], p.deletes + [r.key],
             Stats(p.stats.active, p.stats.expired + 1, p.stats.entries + 1))
      else
        Pass(p.last[r.key := Last(v.packets, v.bytes, v.lastSeen)], p.seen + {r.key},
             if Changed(p.last, r.key, v) then p.exports + [out] else p.exports, p.deletes,
             Stats(p.stats.active + 1, p.stats.expired, p.stats.entries + 1))
  }

  function Entries(t: Timeouts, now: U64, p: Pass, snapshot: seq<Read>): Pass {
    if |snapshot| == 0 then p
    else EntryStep(t, now, Entries(t, now, p, snapshot[..|snapshot| - 1]), snapshot[|snapshot| - 1])
  }

  /** The tracker keeps only keys seen in this pass. */
  function Pruned(p: Pass): Pass {
    p.(last := map k | k in p.last && k in p.seen :: p.last[k])
  }

  function PassResult(t: Timeouts, now: U64, last: map<FlowKey, Last>, snapshot: seq<Read>): Pass {
    Pruned(Entries(t, now, PassStart(last), snapshot))
  }

  // ---- what a pass over distinct keys does ------------------------------------

  predicate DistinctKeys(snapshot: seq<Read>) {
    forall i, j | 0 <= i < j < |snapshot| :: snapshot[i].key != snapshot[j].key
  }

  /** The export due for one read, judged against the tracker at the pass's start: if the
      flow has outlived its timeout, or there is something to tell of it. */
  function ExportFor(t: Timeouts, now: U64, last: map<FlowKey, Last>, r: Read): Option<Export> {
    match r.value
    case None => None
    case Some(v) =>
      var overdue := Overdue(t, r.key.protocol, v.lastSeen, now);
      if overdue || News(last, r.key, v) then Some(Export(r.key, v, overdue, DeltaOf(last, r.key, v))) else None
  }

  function ExportsFor(t: Timeouts, now: U64, last: map<FlowKey, Last>, snapshot: seq<Read>): seq<Export> {
    if |snapshot| == 0 then []
    else
      var init := ExportsFor(t, now, last, snapshot[..|snapshot| - 1]);
      match ExportFor(t, now, last, snapshot[|snapshot| - 1])
      case None => init
      case Some(e) => init + [e]
  }

  function ExpiredKeys(exports: seq<Export>): seq<FlowKey> {
    if |exports| == 0 then []
    else
      var init, e := ExpiredKeys(exports[..|exports| - 1]), exports[|exports| - 1];
      if e.expired then init + [e.key] else init
  }

  predicate ReadAlive(t: Timeouts, now: U64, r: Read) {
    r.value.Some? && !Overdue(t, r.key.protocol, r.value.value.lastSeen, now)
  }

  predicate ReadExpired(t: Timeouts, now: U64, r: Read) {
    r.value.Some? && Overdue(t, r.key.protocol, r.value.value.lastSeen, now)
  }

  function Tally(t: Timeouts, now: U64, snapshot: seq<Read>, idle: bool): nat {
    if |snapshot| == 0 then 0
    else Tally(t, now, snapshot[..|snapshot| - 1], idle)
         + if (if idle then ReadExpired(t, now, snapshot[|snapshot| - 1]) else ReadAlive(t, now, snapshot[|snapshot| - 1]))
           then 1 else 0
  }

  function KeysRead(snapshot: seq<Read>): set<FlowKey> {
    set i | 0 <= i < |snapshot| && snapshot[i].value.Some? :: snapshot[i].key
  }

  function AsLast(v: FlowValue): Last { Last(v.packets, v.bytes, v.lastSeen) }

  /** Tracker of an unpruned pass: what was read and kept, else what was there. */
  ghost predicate TracksReads(t: Timeouts, now: U64, last: map<FlowKey, Last>, snapshot: seq<Read>, p: Pass) {
    && p.seen == KeysRead(snapshot)
    && (forall r | r in snapshot && ReadAlive(t, now, r) :: r.key in p.last && p.last[r.key] == AsLast(r.value.value))
    && (forall r | r in snapshot && ReadExpired(t, now, r) :: r.key !in p.last)
    && (forall k | k !in p.seen :: (k in p.last <==> k in last) && (k in last ==> p.last[k] == last[k]))
  }

  lemma KeysReadSnoc(snapshot: seq<Read>, r: Read)
    ensures KeysRead(snapshot + [r]) == KeysRead(snapshot) + if r.value.Some? then {r.key} else {}
  {
    var longer := snapshot + [r];
    assert longer[..|snapshot|] == snapshot && longer[|snapshot|] == r;
    forall k | k in KeysRead(snapshot)
      ensures k in KeysRead(longer)
    {
      var i :| 0 <= i < |snapshot| && snapshot[i].value.Some? && snapshot[i].key == k;
      assert longer[i] == snapshot[i];
    }
    if r.value.Some? {
      assert longer[|snapshot|].key in KeysRead(longer);
    }
    forall k | k in KeysRead(longer)
      ensures k in KeysRead(snapshot) || (r.value.Some? && k == r.key)
    {
      var i :| 0 <= i < |longer| && longer[i].value.Some? && longer[i].key == k;
      if i < |snapshot| {
        assert longer[i] == snapshot[i];
      }
    }
  }

  lemma TracksStep(t: Timeouts, now: U64, last: map<FlowKey, Last>, snapshot: seq<Read>, p: Pass, r: Read)
    requires TracksReads(t, now, last, snapshot, p)
    requires forall s | s in snapshot :: s.key != r.key
    ensures TracksReads(t, now, last, snapshot + [r], EntryStep(t, now, p, r))
  {
    hide Idle, Overdue, KeysRead, DeltaOf;
    KeysReadSnoc(snapshot, r);
    if r.value.Some? {
      IdleIsOverdue(t, r.key, r.value.value.lastSeen, now);
    }
  }

  lemma {:induction false} EntriesTrack(t: Timeouts, now: U64, last: map<FlowKey, Last>, snapshot: seq<Read>)
    requires DistinctKeys(snapshot)
    ensures TracksReads(t, now, last, snapshot, Entries(t, now, PassStart(last), snapshot))
  {
    hide EntryStep;
    if |snapshot| == 0 {
    } else {
      var init, r := snapshot[..|snapshot| - 1], snapshot[|snapshot| - 1];
      EntriesTrack(t, now, last, init);
      assert init + [r] == snapshot;
      TracksStep(t, now, last, init, Entries(t, now, PassStart(last), init), r);
    }
  }

  /** With distinct keys every export is judged against the tracker the pass
      began with, and a flow is deleted exactly when it is exported as expired. */
  lemma {:induction false} EntriesExport(t: Timeouts, now: U64, last: map<FlowKey, Last>, snapshot: seq<Read>)
    requires DistinctKeys(snapshot)
    ensures var p := Entries(t, now, PassStart(last), snapshot);
      && p.exports == ExportsFor(t, now, last, snapshot)
      && p.deletes == ExpiredKeys(p.exports)
      && p.stats == Stats(Tally(t, now, snapshot, false), Tally(t, now, snapshot, true), p.stats.active + p.stats.expired)
  {
    hide Idle, CounterDelta, TracksReads, EntryStep, ExportFor, ReadAlive, ReadExpired;
    if |snapshot| == 0 {
    } else {
      var init, r := snapshot[..|snapshot| - 1], snapshot[|snapshot| - 1];
      EntriesExport(t, now, last, init);
      EntriesTrack(t, now, last, init);
      var p := Entries(t, now, PassStart(last), init);
      Untouched(t, now, last, init, p, r.key);
      ExportStep(t, now, last, p, r);
    }
  }

  lemma ExportStep(t: Timeouts, now: U64, last: map<FlowKey, Last>, p: Pass, r: Read)
    requires (r.key in p.last <==> r.key in last) && (r.key in last ==> p.last[r.key] == last[r.key])
    requires p.deletes == ExpiredKeys(p.exports)
    ensures var p', e := EntryStep(t, now, p, r), ExportFor(t, now, last, r);
      && p'.exports == p.exports + (if e.Some? then [e.value] else [])
      && p'.deletes == ExpiredKeys(p'.exports)
      && p'.stats.active == p.stats.active + (if ReadAlive(t, now, r) then 1 else 0)
      && p'.stats.expired == p.stats.expired + (if ReadExpired(t, now, r) then 1 else 0)
      && p'.stats.entries - p.stats.entries == p'.stats.active + p'.stats.expired - p.stats.active - p.stats.expired
  {
    hide Idle, Overdue, CounterDelta;
    ExpiredKeysSnoc(p.exports);
    if r.value.Some? {
      IdleIsOverdue(t, r.key, r.value.value.lastSeen, now);
      ChangedIsNews(p.last, r.key, r.value.value);
    }
  }

  lemma Untouched(t: Timeouts, now: U64, last: map<FlowKey, Last>, snapshot: seq<Read>, p: Pass, k: FlowKey)
    requires TracksReads(t, now, last, snapshot, p)
    requires forall s | s in snapshot :: s.key != k
    ensures (k in p.last <==> k in last) && (k in last ==> p.last[k] == last[k])
  {
    hide ReadAlive, ReadExpired;
    assert k !in KeysRead(snapshot);
  }

  lemma ExpiredKeysSnoc(exports: seq<Export>)
    ensures forall e :: ExpiredKeys(exports + [e]) == ExpiredKeys(exports) + if e.expired then [e.key] else []
  {
    forall e: Export
      ensures ExpiredKeys(exports + [e]) == ExpiredKeys(exports) + if e.expired then [e.key] else []
    {
      assert (exports + [e])[..|exports|] == exports;
    }
  }

  /** After a pass the tracker maps exactly the keys read and not expired, each
      to the values read. */
  lemma TrackerAfterPass(t: Timeouts, now: U64, last: map<FlowKey, Last>, snapshot: seq<Read>)
    requires DistinctKeys(snapshot)
    ensures var last' := PassResult(t, now, last, snapshot).last;
      && (forall r | r in snapshot && ReadAlive(t, now, r) :: r.key in last' && last'[r.key] == AsLast(r.value.value))
      && (forall k | k in last' :: exists r :: r in snapshot && ReadAlive(t, now, r) && r.key == k)
  {
    hide Idle;
    EntriesTrack(t, now, last, snapshot);
    var p := Entries(t, now, PassStart(last), snapshot);
    forall r | r in snapshot && ReadAlive(t, now, r)
      ensures r.key in p.seen
    {
      var i :| 0 <= i < |snapshot| && snapshot[i] == r;
      assert snapshot[i].key in KeysRead(snapshot);
    }
    forall k | k in p.last && k in p.seen
      ensures exists r :: r in snapshot && ReadAlive(t, now, r) && r.key == k
    {
      var i :| 0 <= i < |snapshot| && snapshot[i].value.Some? && snapshot[i].key == k;
      assert snapshot[i] in snapshot;
    }
  }

  /** The reads a pass makes of what a walk delivered. */
  function ReadsOf(ks: seq<FlowKey>, vs: seq<FlowValue>): (rs: seq<Read>)
    requires |ks| == |vs|
    ensures |rs| == |ks|
  {
    seq(|ks|, i requires 0 <= i < |ks| => Read(ks[i], Some(vs[i])))
  }

  /** The daemon's view of the flow map: a cursor over the snapshot of one pass, and
      the kernel's table that it was taken from and that deletes go to. `walk` is the
      walk that took the snapshot, from time `began` until time `ended`, `past` the
      table's history at its end, `deleted` what was deleted since. */
  class FlowMap {
    const table: BatchWalk.Table<FlowKey, FlowValue>
    var keys: seq<FlowKey>
    var values: seq<FlowValue>
    var pos: nat
    ghost var walk: BatchWalk.Walk<FlowKey, FlowValue>
    ghost var past: BatchWalk.History<FlowKey, FlowValue>
    ghost var began: nat
    ghost var ended: nat
    ghost var deleted: set<FlowKey>

    ghost predicate Valid()
      reads this, table
    {
      && table.Valid() && |keys| == |values| && pos <= |keys|
      && BatchWalk.Kept(walk.start, table.entries, table.put, table.removed, deleted)
    }

    /** The snapshot is what a walk delivered that began when the table held `start`, a
        complete one unless a call failed meanwhile. */
    ghost predicate Delivers(start: map<FlowKey, FlowValue>)
      reads this`keys, this`values, this`walk, this`past, this`began, this`ended
    {
      && BatchWalk.Stands(table.hashing, past, walk) && walk.start == start && !walk.drain
      && walk.ks == keys && walk.vs == values
      && (|walk.ts| == table.hashing.lastBucket + 1 || table.Faulted(began, ended))
      && (forall k | k in past.put :: table.Puts(k, began, ended))
      && (forall k | k in past.removed :: table.Removes(k, began, ended))
    }

    function Snapshot(): (rs: seq<Read>)
      requires |keys| == |values|
      reads this`keys, this`values
    {
      ReadsOf(keys, values)
    }

    /** In a quiet table exactly what was deleted is gone. */
    lemma QuietPass(start: map<FlowKey, FlowValue>)
      requires Valid() && Delivers(start)
      ensures table.QuietDuring(table.since, table.clock) ==> table.entries == start - deleted
    {
      table.NothingCaused();
      if table.QuietDuring(table.since, table.clock) {
        BatchWalk.KeptQuiet(start, table.entries, deleted);
      }
    }

    constructor (table: BatchWalk.Table<FlowKey, FlowValue>)
      requires table.Valid()
      ensures this.table == table && keys == [] && fresh(this)
    {
      this.table := table;
      keys, values, pos := [], [], 0;
    }

    /** Start a pass: take a snapshot of the table, complete or not. */
    method Reset()
      requires table.Valid()
      modifies this, table
      ensures Valid() && pos == 0 && deleted == {} && |keys| == |values|
      ensures Delivers(old(table.entries))
      ensures began == table.since == old(table.clock) <= ended == table.clock
    {
      hide BatchWalk.Stands, BatchWalk.Kept, BatchWalk.Table<FlowKey, FlowValue>.Puts,
        BatchWalk.Table<FlowKey, FlowValue>.Removes, BatchWalk.Table<FlowKey, FlowValue>.Faulted;
      var ok;
      ok, keys, values, walk := BatchWalk.BatchWalk(table, false);
      pos := 0;
      past := table.Past();
      began, ended := table.since, table.clock;
      deleted := {};
      BatchWalk.WalkKept(table.hashing, past, walk);
      BatchWalk.EachKeyOnce(table.hashing, past, walk);
    }

    method NextKey() returns (key: Option<FlowKey>)
      requires Valid()
      modifies this`pos
      ensures Valid()
      ensures old(pos) == |keys| ==> key == None && pos == old(pos)
      ensures old(pos) < |keys| ==> key == Some(keys[old(pos)]) && pos == old(pos) + 1
    {
      hide BatchWalk.Kept;
      if pos >= |keys| {
        return None;
      }
      key := Some(keys[pos]);
      pos := pos + 1;
    }

    /** The snapshot value of the key just handed out, or else a single lookup. */
    method Get(key: FlowKey) returns (value: Option<FlowValue>)
      requires Valid()
      ensures pos > 0 && keys[pos - 1] == key ==> value == Some(values[pos - 1])
      ensures pos == 0 || keys[pos - 1] != key ==>
        value == if key in table.entries then Some(table.entries[key]) else None
    {
      if pos > 0 && keys[pos - 1] == key {
        return Some(values[pos - 1]);
      }
      value := if key in table.entries then Some(table.entries[key]) else None;
    }

    /** Delete one entry, after whatever the rest of the system did since. */
    method DeleteKey(key: FlowKey)
      requires Valid()
      modifies this`deleted, table
      ensures Valid() && deleted == old(deleted) + {key} && key !in table.entries
      ensures table.since == old(table.since) && old(table.clock) <= table.clock
    {
      hide BatchWalk.Kept;
      table.Settle(walk.start, deleted);
      BatchWalk.KeptTaken(walk.start, table.entries, table.put, table.removed, deleted, {key});
      table.Erase(key);
      deleted := deleted + {key};
    }
  }

  class Tracker {
    const timeouts: Timeouts
    var last: map<FlowKey, Last>

    constructor (timeouts: Timeouts)
      ensures this.timeouts == timeouts && last == map[]
    {
      this.timeouts := timeouts;
      last := map[];
    }

    /** The body of the pass for one flow that was read: decide its export, update
        the tracker, and delete the flow once it is idle. */
    method Visit(flows: FlowMap, key: FlowKey, v: FlowValue, now: U64) returns (out: Option<Export>, expired: bool)
      requires flows.Valid()
      modifies this`last, flows`deleted, flows.table
      ensures flows.Valid()
      ensures expired == Overdue(timeouts, key.protocol, v.lastSeen, now)
      ensures last == if expired then old(last) - {key} else old(last)[key := AsLast(v)]
      ensures flows.deleted == if expired then old(flows.deleted) + {key} else old(flows.deleted)
      ensures flows.table.since == old(flows.table.since) && old(flows.table.clock) <= flows.table.clock
      ensures out == if expired || News(old(last), key, v)
        then Some(Export(key, v, expired, DeltaOf(old(last), key, v))) else None
    {
      hide CounterDelta, Overdue, BatchWalk.Kept;
      IdleIsOverdue(timeouts, key, v.lastSeen, now);
      var age := if now >= v.lastSeen then now - v.lastSeen else 0;
      var delta := DeltaOf(last, key, v);
      var changed := key !in last || v.lastSeen != last[key].lastSeen
        || v.packets != last[key].packets || v.bytes != last[key].bytes;
      last := last[key := Last(v.packets, v.bytes, v.lastSeen)];
      expired := age > ProtoTimeout(timeouts, key.protocol) * NS_PER_S;
      if expired {
        out := Some(Export(key, v, true, delta));
        last := last - {key};
        flows.DeleteKey(key);
      } else {
        out := if changed then Some(Export(key, v, false, delta)) else None;
      }
    }

    /** One pass over what the walk of the flow map delivers. The table loses what the
        pass deletes and what others remove, and in a quiet table nothing else. */
    method Run(flows: FlowMap, now: U64) returns (exports: seq<Export>, stats: Stats)
      requires flows.table.Valid()
      modifies this, flows, flows.table
      ensures flows.Valid() && flows.Delivers(old(flows.table.entries)) && DistinctKeys(flows.Snapshot())
      ensures flows.began == flows.table.since == old(flows.table.clock) <= flows.ended <= flows.table.clock
      ensures var p := PassResult(timeouts, now, old(last), flows.Snapshot());
        && last == p.last && exports == p.exports && stats == p.stats
        && flows.deleted == (set k | k in p.deletes)
        && (flows.table.QuietDuring(old(flows.table.clock), flows.table.clock) ==>
              flows.table.entries == old(flows.table.entries) - (set k | k in p.deletes))
    {
      hide Idle, Overdue, CounterDelta, DeltaOf, Changed, News, EntryStep, BatchWalk.Kept, BatchWalk.Stands, FlowMap.Delivers,
        FlowMap.Valid, ReadsOf, DistinctKeys, BatchWalk.Table<FlowKey, FlowValue>.Valid,
        BatchWalk.Table<FlowKey, FlowValue>.QuietDuring;
      var seen: set<FlowKey> := {};
      exports := [];
      var active, expired, entries := 0, 0, 0;
      flows.Reset();
      SnapshotDistinct(flows, old(flows.table.entries));
      ghost var keys, values := flows.keys, flows.values;
      ghost var snapshot := ReadsOf(keys, values);
      ghost var p := PassStart(last);
      assert snapshot[..0] == [];
      ReadsAt(keys, values);
      var next := flows.NextKey();
      ghost var i: nat := 0;
      while next.Some?
        modifies this`last, flows`pos, flows`deleted, flows.table
        invariant flows.Valid() && flows.keys == keys && flows.values == values && i <= |snapshot|
        invariant next == if i < |snapshot| then Some(snapshot[i].key) else None
        invariant flows.pos == if i < |snapshot| then i + 1 else |snapshot|
        invariant p == Entries(timeouts, now, PassStart(old(last)), snapshot[..i])
        invariant p == Pass(last, seen, exports, p.deletes, Stats(active, expired, entries))
        invariant flows.deleted == set k | k in p.deletes
        invariant flows.began == flows.table.since == old(flows.table.clock) <= flows.ended <= flows.table.clock
        decreases |snapshot| - i
      {
        var key := next.value;
        var read := flows.Get(key);
        assert snapshot[..i + 1][..i] == snapshot[..i];
        EntryVisited(timeouts, now, p, snapshot[i]);
        p := EntryStep(timeouts, now, p, snapshot[i]);
        match read {
          case None =>
          case Some(v) =>
            var out, idle := Visit(flows, key, v, now);
            seen := seen + {key};
            exports := if out.Some? then exports + [out.value] else exports;
            if idle {
              expired := expired + 1;
            } else {
              active := active + 1;
            }
            entries := entries + 1;
        }
        i := i + 1;
        next := flows.NextKey();
      }
      assert snapshot[..|snapshot|] == snapshot;
      Prune(seen);
      flows.QuietPass(old(flows.table.entries));
      stats := Stats(active, expired, entries);
    }

    /** Forget every key but those in `seen`. */
    method Prune(seen: set<FlowKey>)
      modifies this
      ensures last == map k | k in old(last) && k in seen :: old(last)[k]
    {
      var todo := last.Keys;
      while todo != {}
        invariant todo <= old(last).Keys
        invariant last == map k | k in old(last) && (k in seen || k in todo) :: old(last)[k]
        decreases |todo|
      {
        var k :| k in todo;
        todo := todo - {k};
        if k !in seen {
          last := last - {k};
        }
      }
    }
  }

  lemma ReadsAt(ks: seq<FlowKey>, vs: seq<FlowValue>)
    requires |ks| == |vs|
    ensures forall i | 0 <= i < |ks| :: ReadsOf(ks, vs)[i] == Read(ks[i], Some(vs[i]))
  {
  }

  /** The pass after an entry that was read. */
  lemma EntryVisited(t: Timeouts, now: U64, p: Pass, r: Read)
    requires r.value.Some?
    ensures var v, idle := r.value.value, Overdue(t, r.key.protocol, r.value.value.lastSeen, now);
      var out := Export(r.key, v, idle, DeltaOf(p.last, r.key, v));
      EntryStep(t, now, p, r) == Pass(
        if idle then p.last - {r.key} else p.last[r.key := AsLast(v)],
        p.seen + {r.key},
        if idle || News(p.last, r.key, v) then p.exports + [out] else p.exports,
        if idle then p.deletes + [r.key] else p.deletes,
        Stats(p.stats.active + (if idle then 0 else 1), p.stats.expired + (if idle then 1 else 0), p.stats.entries + 1))
  {
    hide Idle, Overdue, DeltaOf, Changed, News;
    IdleIsOverdue(t, r.key, r.value.value.lastSeen, now);
    ChangedIsNews(p.last, r.key, r.value.value);
  }

  /** A walk's reads are of distinct keys. */
  lemma SnapshotDistinct(flows: FlowMap, start: map<FlowKey, FlowValue>)
    requires |flows.keys| == |flows.values| && flows.Delivers(start)
    ensures DistinctKeys(flows.Snapshot())
  {
    BatchWalk.EachKeyOnce(flows.table.hashing, flows.past, flows.walk);
  }
}
