/** Attaching to devices and following link events. */
module Attach {
  import opened Words
  import opened Flow
  import opened Dataplane
  import BatchWalk

  /** A tcx link in the kernel: what it is attached to, with which framing, and how
      often it was destroyed. */
  datatype Link = Link(ifindex: U32, direction: U8, ethernet: bool, destroyed: nat)

  /** The link handles held for a device. */
  datatype Links = Links(ingress: Option<nat>, egress: Option<nat>)

  const NO_LINKS: Links := Links(None, None)

  datatype LinkEvent = LinkEvent(ifindex: U32, ifname: string, linkType: U16, present: bool, up: bool)

  /** How the kernel answers an attach: whether each hook and the device marker can
      be had, and what the ingress hook counts before the egress one is tried. */
  datatype Outcome = Outcome(ingressOk: bool, egressOk: bool, markOk: bool, counted: Option<DevValue>)

  /** Link handles by ifindex, every link ever created, the drop tracer's device
      markers (None without the tracer), class counters, and device names. */
  datatype Agent = Agent(
    atts: map<U32, Links>,
    links: seq<Link>,
    marks: Option<set<U32>>,
    devices: map<DevKey, DevValue>,
    names: map<U32, string>)

  const ARPHRD_ETHER: U16 := 1
  const ARPHRD_LOOPBACK: U16 := 772

  predicate LinkIsEthernet(linkType: U16) { linkType == ARPHRD_ETHER || linkType == ARPHRD_LOOPBACK }

  function LinksOf(a: Agent, i: U32): Links { if i in a.atts then a.atts[i] else NO_LINKS }

  predicate Attached(a: Agent, i: U32) { LinksOf(a, i).ingress.Some? && LinksOf(a, i).egress.Some? }

  function DropCounters(a: Agent, i: U32): Agent {
    a.(devices := a.devices - {DevKey(i, INGRESS), DevKey(i, EGRESS)})
  }

  function Destroy(links: seq<Link>, id: nat): seq<Link> {
    if id < |links| then links[id := links[id].(destroyed := links[id].destroyed + 1)] else links
  }

  function DestroyHandle(links: seq<Link>, h: Option<nat>): seq<Link> {
    if h.Some? then Destroy(links, h.value) else links
  }

  /** `Bpf::attach`. */
  function AfterAttach(a: Agent, i: U32, eth: bool, o: Outcome): (Agent, bool) {
    if i == 0 then (a, false)
    else
      var l := LinksOf(a, i);
      var a0 := if i in a.atts then a else a.(atts := a.atts[i := NO_LINKS]);
      if l.ingress.Some? && l.egress.Some? then (a0, true)
      else
        var a1 := if l.ingress == None && l.egress == None then DropCounters(a0, i) else a0;
        if l.ingress == None && !o.ingressOk then (a1, false)
        else
          var a2 := if l.ingress.Some? then a1
                    else a1.(links := a1.links + [Link(i, INGRESS, eth, 0)],
                             atts := a1.atts[i := Links(Some(|a1.links|), l.egress)],
                             devices := if o.counted.Some? then a1.devices[DevKey(i, INGRESS) := o.counted.value] else a1.devices);
          var l2 := a2.atts[i];
          if l2.egress == None && !o.egressOk then
            (a2.(links := DestroyHandle(a2.links, l2.ingress), atts := a2.atts[i := Links(None, None)]), false)
          else
            var a3 := if l2.egress.Some? then a2
                      else a2.(links := a2.links + [Link(i, EGRESS, eth, 0)],
                               atts := a2.atts[i := Links(l2.ingress, Some(|a2.links|))]);
            (if a3.marks.Some? && o.markOk then a3.(marks := Some(a3.marks.value + {i})) else a3, true)
  }

  /** `Bpf::detach`. */
  function AfterDetach(a: Agent, i: U32): Agent {
    if i !in a.atts then a
    else
      var l := a.atts[i];
      var a1 := a.(links := DestroyHandle(DestroyHandle(a.links, l.ingress), l.egress), atts := a.atts[i := NO_LINKS]);
      var a2 := DropCounters(a1, i);
      if a2.marks.Some? then a2.(marks := Some(a2.marks.value - {i})) else a2
  }

  /** What an event asks for, with `matches` the configured device patterns. */
  predicate Wanted(ev: LinkEvent, matches: string -> bool) { ev.present && ev.up && matches(ev.ifname) }

  /** The reconciler's step. */
  function AfterEvent(a: Agent, ev: LinkEvent, o: Outcome, matches: string -> bool): Agent {
    var i := ev.ifindex;
    if Attached(a, i) then
      if !Wanted(ev, matches) then
        var a1 := AfterDetach(a, i);
        a1.(names := a1.names - {i})
      else a.(names := a.names[i := ev.ifname])
    else if Wanted(ev, matches) then
      var (a1, ok) := AfterAttach(a, i, LinkIsEthernet(ev.linkType), o);
      if ok then a1.(names := a1.names[i := ev.ifname]) else a1
    else a
  }

  /** Link handles, the flow map and the names, as the daemon holds them. */
  class Daemon {
    const matches: string -> bool
    const flows: BatchWalk.Table<FlowKey, FlowValue>
    var atts: map<U32, Links>
    var links: seq<Link>
    var marks: Option<set<U32>>
    var devices: map<DevKey, DevValue>
    var names: map<U32, string>

    ghost function View(): Agent
      reads this
    {
      Agent(atts, links, marks, devices, names)
    }

    constructor (matches: string -> bool, flows: BatchWalk.Table<FlowKey, FlowValue>, tracer: bool)
      ensures View() == Agent(map[], [], if tracer then Some({}) else None, map[], map[])
      ensures this.matches == matches && this.flows == flows
    {
      this.matches, this.flows := matches, flows;
      atts, links, devices, names := map[], [], map[], map[];
      marks := if tracer then Some({}) else None;
    }

    method DestroyLink(h: Option<nat>)
      modifies this`links
      ensures links == DestroyHandle(old(links), h)
    {
      if h.Some? && h.value < |links| {
        links := links[h.value := links[h.value].(destroyed := links[h.value].destroyed + 1)];
      }
    }

    method DropDevCounters(i: U32)
      modifies this`devices
      ensures devices == old(devices) - {DevKey(i, INGRESS), DevKey(i, EGRESS)}
    {
      devices := devices - {DevKey(i, INGRESS)};
      devices := devices - {DevKey(i, EGRESS)};
    }

    method AttachDevice(i: U32, eth: bool, o: Outcome) returns (ok: bool)
      modifies this`atts, this`links, this`marks, this`devices
      ensures (View(), ok) == AfterAttach(old(View()), i, eth, o)
    {
      if i == 0 {
        return false;
      }
      if i !in atts {
        atts := atts[i := NO_LINKS];
      }
      var l := atts[i];
      if l.ingress.Some? && l.egress.Some? {
        return true;
      }
      if l.ingress == None && l.egress == None {
        DropDevCounters(i);
      }
      if l.ingress == None {
        if !o.ingressOk {
          return false;
        }
        l := l.(ingress := Some(|links|));
        links := links + [Link(i, INGRESS, eth, 0)];
        atts := atts[i := l];
        if o.counted.Some? {
          devices := devices[DevKey(i, INGRESS) := o.counted.value];
        }
      }
      if l.egress == None {
        if !o.egressOk {
          DestroyLink(l.ingress);
          atts := atts[i := l.(ingress := None)];
          return false;
        }
        l := l.(egress := Some(|links|));
        links := links + [Link(i, EGRESS, eth, 0)];
        atts := atts[i := l];
      }
      if marks.Some? && o.markOk {
        marks := Some(marks.value + {i});
      }
      ok := true;
    }

    method DetachDevice(i: U32)
      modifies this`atts, this`links, this`marks, this`devices
      ensures View() == AfterDetach(old(View()), i)
    {
      if i !in atts {
        return;
      }
      var l := atts[i];
      DestroyLink(l.ingress);
      DestroyLink(l.egress);
      atts := atts[i := NO_LINKS];
      DropDevCounters(i);
      if marks.Some? {
        marks := Some(marks.value - {i});
      }
    }

    /** Shutdown: destroy every handle still held. Afterwards every link ever created
        has been destroyed exactly once. */
    method Close()
      requires HandlesSound(atts, links)
      modifies this`links
      ensures |links| == |old(links)| && forall id | 0 <= id < |links| :: links[id].destroyed == 1
    {
      hide DestroyHandle, HandlesSound, Paired;
      var todo := atts.Keys;
      ghost var held := atts;
      while todo != {}
        invariant todo <= atts.Keys && atts.Keys == held.Keys && |links| == |old(links)|
        invariant forall i | i in atts :: held[i] == if i in todo then atts[i] else NO_LINKS
        invariant HandlesSound(held, links)
        decreases |todo|
      {
        var i :| i in todo;
        todo := todo - {i};
        var l := atts[i];
        HandlesAfterRelease(held, links, i);
        DestroyLink(l.ingress);
        DestroyLink(l.egress);
        held := held[i := NO_LINKS];
      }
      NoneHeld(held, links);
    }

    /** One link event. When it detaches the device, the device's flows are purged, and
        the purge is complete unless a call failed. After a complete purge, what the map still holds of the device was put there
        meanwhile, and in a quiet map exactly the device's keys are gone. Other
        devices' flows stay, even after a failed walk, unless someone else removes
        them. */
    method OnLink(ev: LinkEvent, o: Outcome) returns (purged: bool)
      requires flows.Valid() && flows as object != this
      modifies this, flows
      ensures flows.Valid()
      ensures View() == AfterEvent(old(View()), ev, o, matches)
      ensures purged ==> old(Attached(View(), ev.ifindex)) && !Wanted(ev, matches)
      ensures old(Attached(View(), ev.ifindex)) && !Wanted(ev, matches) ==>
        purged || flows.Faulted(old(flows.clock), flows.clock)
      ensures purged ==> forall k | k in flows.entries && k.ifindex == ev.ifindex :: k in flows.put
      ensures forall k | k in old(flows.entries) && k.ifindex != ev.ifindex && k !in flows.entries :: k in flows.removed
      ensures forall k | k in flows.entries ::
        k in flows.put || (k in old(flows.entries) && flows.entries[k] == old(flows.entries)[k])
      ensures old(Attached(View(), ev.ifindex)) && !Wanted(ev, matches) ==> flows.since == old(flows.clock)
      ensures old(flows.clock) <= flows.clock
      ensures purged && flows.QuietDuring(old(flows.clock), flows.clock) ==>
        flows.entries == map k | k in old(flows.entries) && k.ifindex != ev.ifindex :: old(flows.entries)[k]
      ensures !(old(Attached(View(), ev.ifindex)) && !Wanted(ev, matches)) ==> flows.entries == old(flows.entries)
    {
      hide AfterAttach, AfterDetach, LinkIsEthernet, BatchWalk.Table<FlowKey, FlowValue>.Valid,
        BatchWalk.Table<FlowKey, FlowValue>.QuietDuring, BatchWalk.Table<FlowKey, FlowValue>.Faulted;
      purged := false;
      var i := ev.ifindex;
      var l := if i in atts then atts[i] else NO_LINKS;
      var attached := l.ingress.Some? && l.egress.Some?;
      var wanted := ev.present && ev.up && matches(ev.ifname);
      if attached {
        if !wanted {
          DetachDevice(i);
          purged := BatchWalk.Purge(flows, (k: FlowKey) => k.ifindex == i);
          names := names - {i};
        } else if i !in names || names[i] != ev.ifname {
          names := names[i := ev.ifname];
        }
      } else if wanted {
        var ok := AttachDevice(i, LinkIsEthernet(ev.linkType), o);
        if ok {
          names := names[i := ev.ifname];
        }
      }
    }
  }

  // ---- what every run keeps ------------------------------------------------------

  /** The handle `h` is a live link of device `i` in `direction`. */
  predicate Holds(links: seq<Link>, h: Option<nat>, i: U32, direction: U8) {
    h.Some? ==> h.value < |links| && links[h.value].ifindex == i && links[h.value].direction == direction
                && links[h.value].destroyed == 0
  }

  /** A device has both links, of one framing, or neither. */
  predicate Paired(links: seq<Link>, i: U32, l: Links) {
    && (l.ingress.Some? <==> l.egress.Some?)
    && Holds(links, l.ingress, i, INGRESS) && Holds(links, l.egress, i, EGRESS)
    && (l.ingress.Some? ==> links[l.ingress.value].ethernet == links[l.egress.value].ethernet)
  }

  predicate Held(atts: map<U32, Links>, id: nat, k: Link) {
    k.ifindex in atts && (atts[k.ifindex].ingress == Some(id) || atts[k.ifindex].egress == Some(id))
  }

  /** Every link ever created is held by its device or was destroyed exactly once. */
  ghost predicate HandlesSound(atts: map<U32, Links>, links: seq<Link>) {
    && (forall i | i in atts :: i != 0 && Paired(links, i, atts[i]))
    && (forall id | 0 <= id < |links| ::
          links[id].destroyed == 1 || (links[id].destroyed == 0 && Held(atts, id, links[id])))
  }

  /** The named devices are exactly the attached ones, under matching names, and
      markers are for attached devices only. */
  ghost predicate NamesSound(a: Agent, matches: string -> bool) {
    && (forall i :: i in a.names <==> Attached(a, i))
    && (forall i | i in a.names :: matches(a.names[i]))
    && (a.marks.Some? ==> forall i | i in a.marks.value :: Attached(a, i))
  }

  ghost predicate Sound(a: Agent, matches: string -> bool) {
    HandlesSound(a.atts, a.links) && NamesSound(a, matches)
  }

  /** The three ways an attach of an unattached device can end. */
  lemma AttachCases(a: Agent, i: U32, eth: bool, o: Outcome)
    requires LinksOf(a, i) == NO_LINKS && i != 0
    ensures var (a', ok) := AfterAttach(a, i, eth, o); var n := |a.links|;
      && ok == (o.ingressOk && o.egressOk)
      && a'.names == a.names
      && a'.atts == a.atts[i := if ok then Links(Some(n), Some(n + 1)) else NO_LINKS]
      && a'.links == (if !o.ingressOk then a.links
                      else if !o.egressOk then a.links + [Link(i, INGRESS, eth, 1)]
                      else a.links + [Link(i, INGRESS, eth, 0), Link(i, EGRESS, eth, 0)])
      && a'.marks == (if ok && a.marks.Some? && o.markOk then Some(a.marks.value + {i}) else a.marks)
  {
    var (a', ok) := AfterAttach(a, i, eth, o);
    assert a.links + [Link(i, INGRESS, eth, 0)] + [Link(i, EGRESS, eth, 0)]
        == a.links + [Link(i, INGRESS, eth, 0), Link(i, EGRESS, eth, 0)];
  }

  lemma HandlesAfterFailure(atts: map<U32, Links>, links: seq<Link>, i: U32, spent: seq<Link>)
    requires HandlesSound(atts, links) && (i in atts ==> atts[i] == NO_LINKS) && i != 0
    requires forall k | k in spent :: k.destroyed == 1
    ensures HandlesSound(atts[i := NO_LINKS], links + spent)
  {
    var links' := links + spent;
    assert forall id | 0 <= id < |links| :: links'[id] == links[id];
    assert forall id | |links| <= id < |links'| :: links'[id] in spent;
  }

  lemma HandlesAfterSuccess(atts: map<U32, Links>, links: seq<Link>, i: U32, eth: bool)
    requires HandlesSound(atts, links) && (i in atts ==> atts[i] == NO_LINKS) && i != 0
    ensures var n := |links|;
      HandlesSound(atts[i := Links(Some(n), Some(n + 1))],
                   links + [Link(i, INGRESS, eth, 0), Link(i, EGRESS, eth, 0)])
  {
    var links' := links + [Link(i, INGRESS, eth, 0), Link(i, EGRESS, eth, 0)];
    assert forall id | 0 <= id < |links| :: links'[id] == links[id];
  }

  lemma HandlesAfterDetach(atts: map<U32, Links>, links: seq<Link>, i: U32)
    requires HandlesSound(atts, links) && i in atts && atts[i].ingress.Some?
    ensures HandlesSound(atts[i := NO_LINKS], DestroyHandle(DestroyHandle(links, atts[i].ingress), atts[i].egress))
  {
    var x, y := atts[i].ingress.value, atts[i].egress.value;
    assert Paired(links, i, atts[i]);
    DestroyTwice(links, x, y);
    hide DestroyHandle, Destroy;
    var links' := DestroyHandle(DestroyHandle(links, Some(x)), Some(y));
    forall j | j in atts && j != i
      ensures Paired(links', j, atts[j])
    {
      assert Paired(links, j, atts[j]);
    }
  }

  lemma HandlesAfterRelease(atts: map<U32, Links>, links: seq<Link>, i: U32)
    requires HandlesSound(atts, links) && i in atts
    ensures var links' := DestroyHandle(DestroyHandle(links, atts[i].ingress), atts[i].egress);
      HandlesSound(atts[i := NO_LINKS], links') && |links'| == |links|
  {
    assert Paired(links, i, atts[i]);
    if atts[i].ingress.Some? {
      HandlesAfterDetach(atts, links, i);
      DestroyTwice(links, atts[i].ingress.value, atts[i].egress.value);
    } else {
      assert atts[i := NO_LINKS] == atts;
    }
  }

  lemma NoneHeld(atts: map<U32, Links>, links: seq<Link>)
    requires HandlesSound(atts, links) && forall i | i in atts :: atts[i] == NO_LINKS
    ensures forall id | 0 <= id < |links| :: links[id].destroyed == 1
  {
  }

  lemma DestroyTwice(links: seq<Link>, x: nat, y: nat)
    requires x < |links| && y < |links| && x != y
    ensures var links' := DestroyHandle(DestroyHandle(links, Some(x)), Some(y));
      && |links'| == |links|
      && (forall id | 0 <= id < |links| ::
            links'[id] == links[id].(destroyed := links[id].destroyed + if id == x || id == y then 1 else 0))
  {
  }

  lemma NamesAfterFailure(a: Agent, a': Agent, matches: string -> bool)
    requires NamesSound(a, matches) && a'.names == a.names && a'.marks == a.marks
    requires forall j :: LinksOf(a', j) == LinksOf(a, j)
    ensures NamesSound(a', matches)
  {
    assert forall j :: Attached(a', j) == Attached(a, j);
  }

  lemma NamesAfterSuccess(a: Agent, a': Agent, i: U32, name: string, matches: string -> bool)
    requires NamesSound(a, matches) && matches(name) && Attached(a', i)
    requires a'.names == a.names[i := name] && forall j | j != i :: LinksOf(a', j) == LinksOf(a, j)
    requires a'.marks == a.marks || (a.marks.Some? && a'.marks == Some(a.marks.value + {i}))
    ensures NamesSound(a', matches)
  {
    assert forall j | j != i :: Attached(a', j) == Attached(a, j);
  }

  lemma {:induction false} AttachKeeps(a: Agent, i: U32, eth: bool, o: Outcome, matches: string -> bool, name: string)
    requires Sound(a, matches) && !Attached(a, i) && matches(name)
    ensures var (a', ok) := AfterAttach(a, i, eth, o);
      && ok == (i != 0 && o.ingressOk && o.egressOk) && ok == Attached(a', i)
      && Sound(if ok then a'.(names := a'.names[i := name]) else a', matches)
      && forall j | j != i :: LinksOf(a', j) == LinksOf(a, j)
  {
    if i != 0 {
      assert i in a.atts ==> Paired(a.links, i, a.atts[i]);
      AttachCases(a, i, eth, o);
      hide AfterAttach, HandlesSound, NamesSound;
      var (a', ok) := AfterAttach(a, i, eth, o);
      if ok {
        HandlesAfterSuccess(a.atts, a.links, i, eth);
        NamesAfterSuccess(a, a'.(names := a'.names[i := name]), i, name, matches);
      } else {
        var spent := if o.ingressOk then [Link(i, INGRESS, eth, 1)] else [];
        assert a'.links == a.links + spent;
        HandlesAfterFailure(a.atts, a.links, i, spent);
        NamesAfterFailure(a, a', matches);
      }
    }
  }

  lemma DetachCases(a: Agent, i: U32)
    requires i in a.atts
    ensures var a', l := AfterDetach(a, i), a.atts[i];
      && a'.names == a.names && a'.atts == a.atts[i := NO_LINKS]
      && a'.links == DestroyHandle(DestroyHandle(a.links, l.ingress), l.egress)
      && a'.marks == if a.marks.Some? then Some(a.marks.value - {i}) else None
  {
  }

  lemma DetachKeeps(a: Agent, i: U32, matches: string -> bool)
    requires Sound(a, matches) && Attached(a, i)
    ensures var a' := AfterDetach(a, i).(names := a.names - {i});
      && Sound(a', matches) && !Attached(a', i)
      && forall j | j != i :: LinksOf(a', j) == LinksOf(a, j)
  {
    HandlesAfterDetach(a.atts, a.links, i);
    DetachCases(a, i);
    hide AfterDetach, DestroyHandle, HandlesSound;
    var a' := AfterDetach(a, i).(names := a.names - {i});
    assert forall j | j != i :: LinksOf(a', j) == LinksOf(a, j);
  }

  /** Every event keeps the agent sound. Afterwards the event's device is attached
      exactly if the event wanted it and it either was attached or both hooks could
      be had; and no other device changed. A device attached by the event has programs
      for Ethernet framing exactly if it is of one of the two Ethernet link types, and is
      marked for the drop tracer if there is one and room. */
  lemma {:induction false} EventKeeps(a: Agent, ev: LinkEvent, o: Outcome, matches: string -> bool)
    requires Sound(a, matches)
    ensures var a', i := AfterEvent(a, ev, o, matches), ev.ifindex;
      && Sound(a', matches)
      && (Attached(a', i) <==>
            ev.present && ev.up && matches(ev.ifname) && (Attached(a, i) || (i != 0 && o.ingressOk && o.egressOk)))
      && (Attached(a', i) ==> a'.names[i] == ev.ifname)
      && (forall j | j != i :: LinksOf(a', j) == LinksOf(a, j))
      && (Attached(a', i) && !Attached(a, i) ==>
            && LinksOf(a', i).ingress.value < |a'.links| && LinksOf(a', i).egress.value < |a'.links|
            && a'.links[LinksOf(a', i).ingress.value].ethernet == (ev.linkType == 1 || ev.linkType == 772)
            && a'.links[LinksOf(a', i).egress.value].ethernet == (ev.linkType == 1 || ev.linkType == 772)
            && (a.marks.Some? && o.markOk ==> a'.marks.Some? && i in a'.marks.value))
  {
    hide AfterAttach, AfterDetach, HandlesSound;
    if !Attached(a, ev.ifindex) && Wanted(ev, matches) && ev.ifindex != 0 {
      Unattached(a, ev.ifindex, matches);
      AttachCases(a, ev.ifindex, LinkIsEthernet(ev.linkType), o);
    }
    if Attached(a, ev.ifindex) {
      if !Wanted(ev, matches) {
        DetachKeeps(a, ev.ifindex, matches);
        DetachCases(a, ev.ifindex);
      }
    } else if Wanted(ev, matches) {
      AttachKeeps(a, ev.ifindex, LinkIsEthernet(ev.linkType), o, matches, ev.ifname);
    }
  }

  function RunEvents(a: Agent, evs: seq<(LinkEvent, Outcome)>, matches: string -> bool): Agent {
    if |evs| == 0 then a
    else
      var init, (ev, o) := RunEvents(a, evs[..|evs| - 1], matches), evs[|evs| - 1];
      AfterEvent(init, ev, o, matches)
  }

  function Fresh(tracer: bool): Agent { Agent(map[], [], if tracer then Some({}) else None, map[], map[]) }

  /** For every sequence of link events and every pattern of attach failures the
      agent stays sound. */
  lemma {:induction false} RunsStaySound(tracer: bool, evs: seq<(LinkEvent, Outcome)>, matches: string -> bool)
    ensures Sound(RunEvents(Fresh(tracer), evs, matches), matches)
  {
    hide Sound, AfterEvent;
    if |evs| == 0 {
      FreshSound(tracer, matches);
    } else {
      RunsStaySound(tracer, evs[..|evs| - 1], matches);
      var (ev, o) := evs[|evs| - 1];
      EventKeeps(RunEvents(Fresh(tracer), evs[..|evs| - 1], matches), ev, o, matches);
    }
  }

  lemma FreshSound(tracer: bool, matches: string -> bool)
    ensures Sound(Fresh(tracer), matches)
  {
  }

  /** After a detach nothing of the device is left: no handle, no class counter, no
      drop marker, no name. */
  lemma DetachLeavesNothing(a: Agent, ev: LinkEvent, o: Outcome, matches: string -> bool)
    requires Sound(a, matches) && Attached(a, ev.ifindex) && !Wanted(ev, matches)
    ensures var a', i := AfterEvent(a, ev, o, matches), ev.ifindex;
      && LinksOf(a', i) == NO_LINKS && i !in a'.names
      && DevKey(i, INGRESS) !in a'.devices && DevKey(i, EGRESS) !in a'.devices
      && (a'.marks.Some? ==> i !in a'.marks.value)
  {
  }

  /** How the latest attempt to attach device `i` went, if there was one since its last
      detach. */
  function LastAttempt(tracer: bool, evs: seq<(LinkEvent, Outcome)>, matches: string -> bool, i: U32): Option<Outcome> {
    if |evs| == 0 then None
    else
      var init, (ev, o) := evs[..|evs| - 1], evs[|evs| - 1];
      var attached := Attached(RunEvents(Fresh(tracer), init, matches), i);
      if ev.ifindex == i && attached && !Wanted(ev, matches) then None
      else if ev.ifindex == i && !attached && Wanted(ev, matches) && i != 0 then Some(o)
      else LastAttempt(tracer, init, matches, i)
  }

  /** A failure that leaves counters behind: the ingress hook was had and counted
      something before the egress one failed. */
  predicate Leaves(attempt: Option<Outcome>) {
    attempt.Some? && attempt.value.ingressOk && !attempt.value.egressOk && attempt.value.counted.Some?
  }

  /** Counters of device `i` as its latest attempt left them. */
  predicate Leftover(a: Agent, i: U32, attempt: Option<Outcome>) {
    && (i == 0 ==> attempt == None)
    && (!Attached(a, i) ==>
          && DevKey(i, EGRESS) !in a.devices
          && (DevKey(i, INGRESS) in a.devices <==> Leaves(attempt)))
  }

  /** What an attach does to the counters. */
  lemma AttachCounters(a: Agent, j: U32, eth: bool, o: Outcome, i: U32)
    requires LinksOf(a, j) == NO_LINKS && j != 0
    ensures var a' := AfterAttach(a, j, eth, o).0;
      && (DevKey(i, EGRESS) in a'.devices <==> i != j && DevKey(i, EGRESS) in a.devices)
      && (DevKey(i, INGRESS) in a'.devices <==>
            if i == j then o.ingressOk && o.counted.Some? else DevKey(i, INGRESS) in a.devices)
  {
    hide Destroy;
  }

  lemma DetachCounters(a: Agent, j: U32, i: U32)
    requires j in a.atts
    ensures var a' := AfterDetach(a, j);
      && (DevKey(i, EGRESS) in a'.devices <==> i != j && DevKey(i, EGRESS) in a.devices)
      && (DevKey(i, INGRESS) in a'.devices <==> i != j && DevKey(i, INGRESS) in a.devices)
  {
    hide Destroy;
  }

  lemma LeftoverStep(a: Agent, ev: LinkEvent, o: Outcome, matches: string -> bool, i: U32, attempt: Option<Outcome>)
    requires Sound(a, matches) && Leftover(a, i, attempt)
    ensures Leftover(AfterEvent(a, ev, o, matches), i,
      if ev.ifindex == i && Attached(a, i) && !Wanted(ev, matches) then None
      else if ev.ifindex == i && !Attached(a, i) && Wanted(ev, matches) && i != 0 then Some(o)
      else attempt)
  {
    var j := ev.ifindex;
    EventKeeps(a, ev, o, matches);
    Unattached(a, j, matches);
    hide Sound, LinksOf, AfterAttach, AfterDetach, Wanted;
    if Attached(a, j) && !Wanted(ev, matches) {
      assert j in a.atts by { HasLinks(a, j); }
      DetachCounters(a, j, i);
    } else if !Attached(a, j) && Wanted(ev, matches) && j != 0 {
      AttachCounters(a, j, LinkIsEthernet(ev.linkType), o, i);
    } else if j == 0 {
      assert AfterAttach(a, j, LinkIsEthernet(ev.linkType), o) == (a, false) by { NoDevice(a, LinkIsEthernet(ev.linkType), o); }
    }
  }

  lemma NoDevice(a: Agent, eth: bool, o: Outcome)
    ensures AfterAttach(a, 0, eth, o) == (a, false)
  {
  }

  lemma HasLinks(a: Agent, i: U32)
    ensures Attached(a, i) ==> i in a.atts
  {
  }

  lemma Unattached(a: Agent, i: U32, matches: string -> bool)
    requires Sound(a, matches)
    ensures !Attached(a, i) ==> LinksOf(a, i) == NO_LINKS
  {
    hide NamesSound;
    assert i in a.atts ==> Paired(a.links, i, a.atts[i]);
  }

  /** In every run of link events and attach failures, an unattached device has class
      counters exactly if its latest attach was of that kind, and then for its ingress
      hook only. */
  lemma {:induction false} UnattachedCounters(
      tracer: bool, evs: seq<(LinkEvent, Outcome)>, matches: string -> bool, i: U32)
    ensures var a := RunEvents(Fresh(tracer), evs, matches); !Attached(a, i) ==>
      && DevKey(i, EGRESS) !in a.devices
      && (DevKey(i, INGRESS) in a.devices <==> Leaves(LastAttempt(tracer, evs, matches, i)))
  {
    LeftoverRun(tracer, evs, matches, i);
  }

  lemma {:induction false} LeftoverRun(tracer: bool, evs: seq<(LinkEvent, Outcome)>, matches: string -> bool, i: U32)
    ensures Leftover(RunEvents(Fresh(tracer), evs, matches), i, LastAttempt(tracer, evs, matches, i))
  {
    hide Sound, AfterEvent, Leaves, Wanted;
    if |evs| == 0 {
      assert !Leaves(None) by { NothingLeft(); }
    } else {
      var init := evs[..|evs| - 1];
      var (ev, o) := evs[|evs| - 1];
      LeftoverRun(tracer, init, matches, i);
      RunsStaySound(tracer, init, matches);
      LeftoverStep(RunEvents(Fresh(tracer), init, matches), ev, o, matches, i, LastAttempt(tracer, init, matches, i));
    }
  }

  lemma NothingLeft()
    ensures !Leaves(None)
  {
  }

  /** One failed attach that leaves counters behind. */
  lemma CountersLeftBehind()
    ensures var ev, o := LinkEvent(1, "eth0", ARPHRD_ETHER, true, true), Outcome(true, false, true, Some(ZERO_DEV));
      var a := RunEvents(Fresh(false), [(ev, o)], (name: string) => true);
      !Attached(a, 1) && DevKey(1, INGRESS) in a.devices
  {
    var ev, o := LinkEvent(1, "eth0", ARPHRD_ETHER, true, true), Outcome(true, false, true, Some(ZERO_DEV));
    assert [(ev, o)][..0] == [];
    assert RunEvents(Fresh(false), [(ev, o)], (name: string) => true)
      == AfterEvent(Fresh(false), ev, o, (name: string) => true);
  }

  /** The next successful attach starts the device's counters from what its own
      hooks counted, whatever was left behind. */
  lemma AttachStartsFromZero(a: Agent, i: U32, eth: bool, o: Outcome, matches: string -> bool)
    requires Sound(a, matches) && !Attached(a, i) && i != 0 && o.ingressOk && o.egressOk
    ensures var a' := AfterAttach(a, i, eth, o).0;
      && DevKey(i, EGRESS) !in a'.devices
      && (DevKey(i, INGRESS) in a'.devices <==> o.counted.Some?)
      && (o.counted.Some? ==> a'.devices[DevKey(i, INGRESS)] == o.counted.value)
  {
  }
}
