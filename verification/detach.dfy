/** A device's end: the link event that detaches it, and the pass after. */
module Detach {
  import opened Words
  import opened Flow
  import opened Attach
  import opened Dataplane
  import BatchWalk
  import Lifecycle

  /** From time `from` on and before time `to` nobody puts keys of device `i` into the
      map: its programs are detached. */
  ghost predicate NoMore(table: BatchWalk.Table<FlowKey, FlowValue>, i: U32, from: nat, to: nat) {
    forall k: FlowKey | table.Puts(k, from, to) :: k.ifindex != i
  }

  lemma NoMoreWithin(table: BatchWalk.Table<FlowKey, FlowValue>, i: U32, from: nat, to: nat, from': nat, to': nat)
    requires NoMore(table, i, from, to) && from <= from' && to' <= to
    ensures NoMore(table, i, from', to')
  {
    forall k: FlowKey | table.Puts(k, from', to')
      ensures k.ifindex != i
    {
      table.Longer(k, from', to', from, to);
    }
  }

  /** A snapshot of a map without keys of device `i` has none. */
  lemma SnapshotWithout(flows: Lifecycle.FlowMap, start: map<FlowKey, FlowValue>, i: U32)
    requires |flows.keys| == |flows.values| && flows.Delivers(start)
    requires (forall k | k in start :: k.ifindex != i) && NoMore(flows.table, i, flows.began, flows.ended)
    ensures forall r | r in flows.Snapshot() :: r.key.ifindex != i
  {
    hide BatchWalk.Stands;
    forall r | r in flows.Snapshot()
      ensures r.key.ifindex != i
    {
      var j :| 0 <= j < |flows.keys| && flows.Snapshot()[j] == r;
      BatchWalk.DeliveredWasThere(flows.table.hashing, flows.past, flows.walk, flows.keys[j]);
    }
  }

  lemma {:induction false} ExportsFrom(
      t: Lifecycle.Timeouts, now: U64, last: map<FlowKey, Lifecycle.Last>, snapshot: seq<Lifecycle.Read>)
    ensures forall e | e in Lifecycle.ExportsFor(t, now, last, snapshot) ::
      exists r :: r in snapshot && r.key == e.key
  {
    hide Lifecycle.Idle, Lifecycle.DeltaOf, Lifecycle.Changed;
    if |snapshot| == 0 {
    } else {
      var init, r := snapshot[..|snapshot| - 1], snapshot[|snapshot| - 1];
      ExportsFrom(t, now, last, init);
      assert r in snapshot && forall x | x in init :: x in snapshot;
    }
  }

  /** A pass over reads without keys of device `i` tracks and exports none. */
  lemma PassWithout(t: Lifecycle.Timeouts, now: U64, last: map<FlowKey, Lifecycle.Last>, snapshot: seq<Lifecycle.Read>, i: U32)
    requires Lifecycle.DistinctKeys(snapshot) && forall r | r in snapshot :: r.key.ifindex != i
    ensures var p := Lifecycle.PassResult(t, now, last, snapshot);
      (forall k | k in p.last :: k.ifindex != i) && forall e | e in p.exports :: e.key.ifindex != i
  {
    Lifecycle.TrackerAfterPass(t, now, last, snapshot);
    Lifecycle.EntriesExport(t, now, last, snapshot);
    ExportsFrom(t, now, last, snapshot);
    hide Lifecycle.Entries, Lifecycle.ExportsFor;
  }

  /** The link event. */
  method DetachAndPurge(daemon: Daemon, ev: LinkEvent, o: Outcome) returns (purged: bool)
    requires daemon.flows.Valid() && daemon.flows as object != daemon
    requires Sound(daemon.View(), daemon.matches)
    requires Attached(daemon.View(), ev.ifindex) && !Wanted(ev, daemon.matches)
    modifies daemon, daemon.flows
    ensures daemon.flows.Valid() && Gone(daemon.View(), ev.ifindex)
    ensures old(daemon.flows.clock) <= daemon.flows.clock
    ensures purged || daemon.flows.Faulted(old(daemon.flows.clock), daemon.flows.clock)
    ensures purged && NoMore(daemon.flows, ev.ifindex, old(daemon.flows.clock), daemon.flows.clock) ==>
      forall k | k in daemon.flows.entries :: k.ifindex != ev.ifindex
  {
    hide AfterEvent, Sound, BatchWalk.Table<FlowKey, FlowValue>.Puts, BatchWalk.Table<FlowKey, FlowValue>.Removes;
    DetachLeavesNothing(daemon.View(), ev, o, daemon.matches);
    purged := daemon.OnLink(ev, o);
  }

  /** The pass after it. */
  method PassAfter(tracker: Lifecycle.Tracker, flows: Lifecycle.FlowMap, now: U64, ghost i: U32)
      returns (exports: seq<Lifecycle.Export>)
    requires flows.table.Valid()
    modifies tracker, flows, flows.table
    ensures old(flows.table.clock) <= flows.table.clock
    ensures (forall k | k in old(flows.table.entries) :: k.ifindex != i)
            && NoMore(flows.table, i, old(flows.table.clock), flows.table.clock) ==>
      && (forall k | k in flows.table.entries :: k.ifindex != i)
      && (forall k | k in tracker.last :: k.ifindex != i)
      && (forall e | e in exports :: e.key.ifindex != i)
  {
    hide BatchWalk.Stands, Lifecycle.PassResult, BatchWalk.Table<FlowKey, FlowValue>.Puts,
      BatchWalk.Table<FlowKey, FlowValue>.Removes;
    ghost var start, before := flows.table.entries, tracker.last;
    var stats;
    exports, stats := tracker.Run(flows, now);
    if (forall k | k in start :: k.ifindex != i) && NoMore(flows.table, i, old(flows.table.clock), flows.table.clock) {
      NoMoreWithin(flows.table, i, old(flows.table.clock), flows.table.clock, flows.began, flows.ended);
      SnapshotWithout(flows, start, i);
      PassWithout(tracker.timeouts, now, before, flows.Snapshot(), i);
    }
  }

  /** Nothing of device `i` is left with the daemon. */
  predicate Gone(a: Agent, i: U32) {
    && LinksOf(a, i) == NO_LINKS && i !in a.names
    && DevKey(i, INGRESS) !in a.devices && DevKey(i, EGRESS) !in a.devices
    && (a.marks.Some? ==> i !in a.marks.value)
  }

  /** A link event that detaches a device, and the next pass. Once the purge's walk was
      complete, and unless someone puts flows of the device into the map meanwhile,
      nothing of it is left: no handle, counter, marker or name, no flow in the map,
      none in the tracker, and the pass exports none. */
  method DetachThenPass(daemon: Daemon, ev: LinkEvent, o: Outcome, tracker: Lifecycle.Tracker, flows: Lifecycle.FlowMap,
                        now: U64)
      returns (purged: bool, exports: seq<Lifecycle.Export>)
    requires daemon.flows == flows.table && flows.table.Valid() && flows.table as object != daemon
    requires Sound(daemon.View(), daemon.matches)
    requires Attached(daemon.View(), ev.ifindex) && !Wanted(ev, daemon.matches)
    modifies daemon, tracker, flows, flows.table
    ensures Gone(daemon.View(), ev.ifindex)
    ensures purged || flows.table.Faulted(old(flows.table.clock), flows.table.clock)
    ensures purged && NoMore(flows.table, ev.ifindex, old(flows.table.clock), flows.table.clock) ==>
      && (forall k | k in flows.table.entries :: k.ifindex != ev.ifindex)
      && (forall k | k in tracker.last :: k.ifindex != ev.ifindex)
      && (forall e | e in exports :: e.key.ifindex != ev.ifindex)
  {
    hide NoMore, Gone, Sound;
    purged := DetachAndPurge(daemon, ev, o);
    ghost var middle := flows.table.clock;
    exports := PassAfter(tracker, flows, now, ev.ifindex);
    if NoMore(flows.table, ev.ifindex, old(flows.table.clock), flows.table.clock) {
      NoMoreWithin(flows.table, ev.ifindex, old(flows.table.clock), flows.table.clock, old(flows.table.clock), middle);
      NoMoreWithin(flows.table, ev.ifindex, old(flows.table.clock), flows.table.clock, middle, flows.table.clock);
    }
  }
}
