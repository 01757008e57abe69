/** Accounting at the TC hook: class counters, flow creation and update, and
    GSO-aware octets. */
module Dataplane {
  import opened Words
  import opened Flow
  import opened Packet
  import LifecycleMachine
  import Counting

  datatype DevKey = DevKey(ifindex: U32, direction: U8)

  /** One counter per packet class, in class order. */
  type PerClass = s: seq<U64> | |s| == 4 witness [0, 0, 0, 0]

  datatype DevValue = DevValue(packets: PerClass, bytes: PerClass)

  const ZERO_DEV: DevValue := DevValue([0, 0, 0, 0], [0, 0, 0, 0])

  /** Aggregate counters, summed over CPUs. */
  datatype Stats = Stats(packets: U64, bytes: U64, created: U64, parsed: U64)

  datatype Plane = Plane(flows: map<FlowKey, FlowValue>, devices: map<DevKey, DevValue>, stats: Stats)

  /** A packet at a hook, the clock when it is accounted, and whether the maps
      accept a new entry. */
  datatype Arrival = Arrival(skb: Skb, direction: U8, eth: bool, now: U64, deviceFits: bool, flowFits: bool)

  function Segments(skb: Skb): (n: U32)
    ensures n >= 1
  {
    if skb.gsoSegs == 0 then 1 else skb.gsoSegs
  }

  /** How many packets on the wire the kernel's packet stands for. */
  function OnWire(skb: Skb): nat { if skb.gsoSegs > 0 then skb.gsoSegs else 1 }

  /** These are their payloads. */
  predicate IsWire(skb: Skb, payloads: seq<nat>) {
    (skb.gsoSegs == 0 && |payloads| == 1) || (skb.gsoSegs > 0 && |payloads| == skb.gsoSegs)
  }

  lemma SegmentsAreOnWire(skb: Skb)
    ensures Segments(skb) == OnWire(skb)
    ensures forall payloads: seq<nat> | IsWire(skb, payloads) :: |payloads| == Segments(skb)
  {
  }

  function ClassIndex(c: Class): (i: nat)
    ensures i < 4
  {
    match c case Ipv4 => 0 case Ipv6 => 1 case Arp => 2 case Other => 3
  }

  function AddAt(s: PerClass, c: Class, n: nat): PerClass {
    s[ClassIndex(c) := Wrap64(s[ClassIndex(c)] + n)]
  }

  function DevKeyOf(a: Arrival): DevKey { DevKey(a.skb.ifindex, a.direction) }

  /** Count the packet in its device's class; a new entry may not fit. */
  function AfterClass(devices: map<DevKey, DevValue>, a: Arrival): map<DevKey, DevValue> {
    var k, c := DevKeyOf(a), PktClass(a.skb.data, a.eth);
    if k !in devices && !a.deviceFits then devices
    else
      var v := if k in devices then devices[k] else ZERO_DEV;
      devices[k := DevValue(AddAt(v.packets, c, Segments(a.skb)), AddAt(v.bytes, c, a.skb.len))]
  }

  /** L3 octets: the packet without its link layer, plus the headers that every
      segment beyond the first repeats. */
  function L3Octets(skb: Skb, p: Parsed): U32 {
    var segs := Segments(skb);
    var first := Wrap32(skb.len - p.ip);
    if segs > 1 then Wrap32(first + Wrap32((segs - 1) * Wrap32(p.l4 - p.ip + p.l4hdr))) else first
  }

  function KeyOf(a: Arrival, p: Parsed): FlowKey
    requires ParsePacket(a.skb.data, a.eth) == Some(p)
  {
    ParseBounds(a.skb.data, a.eth);
    var data := a.skb.data;
    FlowKey(a.skb.ifindex, a.direction, p.family, p.proto,
            if p.family == 4 then Mapped(data[p.ip + 12..p.ip + 16]) else data[p.ip + 8..p.ip + 24],
            if p.family == 4 then Mapped(data[p.ip + 16..p.ip + 20]) else data[p.ip + 24..p.ip + 40],
            p.sport, p.dport, p.icmpType, p.icmpCode)
  }

  /** Traffic class of an IPv6 header: the four bits on either side of the octet boundary. */
  function TosOf(data: Bytes, p: Parsed): U8
    requires p.ip + 2 <= |data|
  {
    if p.family == 4 then data[p.ip + 1] else (data[p.ip] as nat) % 16 * 16 + data[p.ip + 1] / 16
  }

  function NewFlow(a: Arrival, p: Parsed): FlowValue
    requires p.ip + 2 <= |a.skb.data|
  {
    FlowValue(Segments(a.skb), L3Octets(a.skb, p), a.now, a.now, p.tcpFlags,
              if a.eth then OuterVlan(a.skb) else 0, TosOf(a.skb.data, p))
  }

  /** Bitwise or of two 16-bit flag words. */
  function OrFlags(a: U16, b: U16): U16 {
    (a as bv16 | b as bv16) as U16
  }

  function GrownFlow(v: FlowValue, a: Arrival, p: Parsed): FlowValue {
    v.(packets := Wrap64(v.packets + Segments(a.skb)), bytes := Wrap64(v.bytes + L3Octets(a.skb, p)),
       tcpFlags := OrFlags(v.tcpFlags, p.tcpFlags), lastSeen := a.now)
  }

  function AfterFlow(plane: Plane, a: Arrival, p: Parsed): Plane
    requires ParsePacket(a.skb.data, a.eth) == Some(p)
  {
    ParseBounds(a.skb.data, a.eth);
    var k := KeyOf(a, p);
    var s := plane.stats.(parsed := Wrap64(plane.stats.parsed + Segments(a.skb)));
    if k in plane.flows then plane.(flows := plane.flows[k := GrownFlow(plane.flows[k], a, p)], stats := s)
    else if a.flowFits then
      plane.(flows := plane.flows[k := NewFlow(a, p)], stats := s.(created := Wrap64(s.created + 1)))
    else plane.(stats := s)
  }

  function AfterSeen(plane: Plane, a: Arrival): Plane {
    plane.(devices := AfterClass(plane.devices, a),
           stats := plane.stats.(packets := Wrap64(plane.stats.packets + Segments(a.skb)),
                                 bytes := Wrap64(plane.stats.bytes + a.skb.len)))
  }

  /** What one packet does to the maps. */
  function AfterPacket(plane: Plane, a: Arrival): Plane {
    match ParsePacket(a.skb.data, a.eth)
    case None => AfterSeen(plane, a)
    case Some(p) => AfterFlow(AfterSeen(plane, a), a, p)
  }

  /** The TC program and its maps. */
  class Program {
    var flows: map<FlowKey, FlowValue>
    var devices: map<DevKey, DevValue>
    var stats: Stats

    ghost function View(): Plane
      reads this
    {
      Plane(flows, devices, stats)
    }

    constructor ()
      ensures View() == Plane(map[], map[], Stats(0, 0, 0, 0))
    {
      flows, devices, stats := map[], map[], Stats(0, 0, 0, 0);
    }

    /** Class counters: look the device up, insert a zero entry if it is new, look
        again, then count. */
    method CountClass(a: Arrival)
      modifies this`devices
      ensures devices == AfterClass(old(devices), a)
    {
      var c, k := PktClass(a.skb.data, a.eth), DevKeyOf(a);
      if k !in devices {
        if a.deviceFits {
          devices := devices[k := ZERO_DEV];
        }
        if k !in devices {
          return;
        }
      }
      var v := devices[k];
      v := v.(packets := AddAt(v.packets, c, Segments(a.skb)));
      v := v.(bytes := AddAt(v.bytes, c, a.skb.len));
      devices := devices[k := v];
    }

    method Observe(a: Arrival)
      modifies this
      ensures View() == AfterPacket(old(View()), a)
    {
      hide ParsePacket, PktClass, L3Octets, OrFlags, KeyOf, TosOf, OuterVlan, AfterClass, Segments, Wrap64;
      var segs := Segments(a.skb);
      stats := stats.(packets := Wrap64(stats.packets + segs));
      stats := stats.(bytes := Wrap64(stats.bytes + a.skb.len));
      CountClass(a);
      var parsed := Parse(a.skb.data, a.eth);
      if parsed == None {
        return;
      }
      var p := parsed.value;
      ParseBounds(a.skb.data, a.eth);
      stats := stats.(parsed := Wrap64(stats.parsed + segs));
      var octets := L3Octets(a.skb, p);
      var key := KeyOf(a, p);
      if key in flows {
        var v := flows[key];
        v := v.(packets := Wrap64(v.packets + segs));
        v := v.(bytes := Wrap64(v.bytes + octets));
        v := v.(tcpFlags := OrFlags(v.tcpFlags, p.tcpFlags), lastSeen := a.now);
        flows := flows[key := v];
      } else {
        var vlan := if a.eth then OuterVlan(a.skb) else 0;
        var created := FlowValue(segs, octets, a.now, a.now, p.tcpFlags, vlan, TosOf(a.skb.data, p));
        if a.flowFits {
          flows := flows[key := created];
          stats := stats.(created := Wrap64(stats.created + 1));
        }
      }
    }
  }

  // ---- GSO octets -------------------------------------------------------------

  /** L3 lengths of the wire packets a super-packet is split into: every segment
      carries `header` octets of IP and transport headers and its share of payload. */
  function WireLengths(header: nat, payloads: seq<nat>): (ls: seq<nat>)
    ensures |ls| == |payloads|
  {
    seq(|payloads|, i requires 0 <= i < |payloads| => header + payloads[i])
  }

  function Times(n: nat, m: nat): nat { n * m }

  lemma {:induction false} WireSum(header: nat, payloads: seq<nat>)
    ensures Sum(WireLengths(header, payloads)) == Times(|payloads|, header) + Sum(payloads)
  {
    if |payloads| == 0 {
    } else {
      assert WireLengths(header, payloads)[1..] == WireLengths(header, payloads[1..]);
      WireSum(header, payloads[1..]);
    }
  }

  /** The 32-bit arithmetic cannot wrap for what the kernel hands out: at most 65535
      segments, a length below 2^31 that covers the linear bytes. */
  lemma {:induction false} OctetsDoNotWrap(a: Arrival, p: Parsed)
    requires ParsePacket(a.skb.data, a.eth) == Some(p)
    requires a.skb.gsoSegs <= 65535 && |a.skb.data| <= a.skb.len < 0x8000_0000
    ensures p.ip <= p.l4
    ensures L3Octets(a.skb, p) == a.skb.len - p.ip + Times(Segments(a.skb) - 1, p.l4 - p.ip + p.l4hdr)
  {
    ParseBounds(a.skb.data, a.eth);
    hide ParsePacket, Wrap32;
    var segs, h := Segments(a.skb), p.l4 - p.ip + p.l4hdr;
    assert 0 <= h <= MAX_CHAIN + 60;
    MulBound(segs - 1, h, 65534, MAX_CHAIN + 60);
    Wrap32Self(h);
    Wrap32Self(a.skb.len - p.ip);
    Wrap32Self((segs - 1) * h);
    Wrap32Self(a.skb.len - p.ip + (segs - 1) * h);
  }

  lemma MulBound(x: nat, y: nat, xm: nat, ym: nat)
    requires x <= xm && y <= ym
    ensures 0 <= x * y <= xm * ym
  {
    assert x * y <= xm * y by { assert (xm - x) * y >= 0; }
    assert xm * y <= xm * ym by { assert xm * (ym - y) >= 0; }
  }

  lemma SplitArithmetic(n: nat, chain: nat, h: nat, l4hdr: nat, payload: nat)
    requires n >= 1
    ensures chain + h + payload + Times(n - 1, chain + l4hdr) == Times(n, chain + h) + payload <==> n == 1 || h == l4hdr
  {
    var d := chain + h - (chain + l4hdr);
    assert n * (chain + h) == (n - 1) * (chain + h) + (chain + h);
    assert (n - 1) * (chain + h) == (n - 1) * (chain + l4hdr) + (n - 1) * d;
    if n > 1 && d != 0 {
      assert (n - 1) * d != 0;
    }
  }

  /** For every split of a super-packet's payload into its segments, the octets
      counted are the sum of the L3 lengths on the wire exactly if there is one segment
      or each repeats just the transport octets the parser recorded. `chain` is the
      length of the IP headers, `h` what else the segments repeat. */
  lemma {:induction false} GsoOctets(a: Arrival, p: Parsed, chain: nat, h: nat, payloads: seq<nat>)
    requires ParsePacket(a.skb.data, a.eth) == Some(p) && p.l4 == p.ip + chain
    requires a.skb.gsoSegs <= 65535 && |a.skb.data| <= a.skb.len < 0x8000_0000
    requires IsWire(a.skb, payloads)
    requires a.skb.len == p.l4 + h + Sum(payloads)
    ensures L3Octets(a.skb, p) == Sum(WireLengths(chain + h, payloads)) <==> |payloads| == 1 || h == p.l4hdr
  {
    hide *;
    SegmentsAreOnWire(a.skb);
    OctetsDoNotWrap(a, p);
    WireSum(chain + h, payloads);
    SplitArithmetic(Segments(a.skb), chain, h, p.l4hdr, Sum(payloads));
  }

  /** The octets of transport header every segment repeats, as far as the parser knows
      them: a TCP header's own length, 8 for UDP, none in a later fragment or for any
      other protocol. */
  function RepeatedHeader(data: Bytes, c: Chain): nat
    requires c.Upper?
  {
    if !c.first then 0
    else if c.proto == 6 && c.l4 + 14 <= |data| then data[c.l4 + 12] / 16 * 4
    else if c.proto == 17 then 8
    else 0
  }

  /** That is the length the parser records. */
  lemma TransportHeaderLength(data: Bytes, eth: bool)
    ensures var r := ParsePacket(data, eth); r.Some? ==>
      var p := r.value;
      && p.ip + 2 <= |data| && IpHeader(data, p.ip).Some?
      && var c := IpHeader(data, p.ip).value.1;
      && c.Upper? && c.proto == p.proto && c.l4 == p.l4 && p.l4hdr == RepeatedHeader(data, c)
  {
    hide WalkHeaders, WalkResult, U16At;
  }

  /** So for plain TCP and UDP super-packets, whose segments repeat no more than their
      own transport header, the octets counted are those on the wire. */
  lemma {:induction false} PlainGsoOctets(a: Arrival, p: Parsed, c: Chain, payloads: seq<nat>)
    requires ParsePacket(a.skb.data, a.eth) == Some(p) && p.ip + 2 <= |a.skb.data|
    requires IpHeader(a.skb.data, p.ip) == Some((p.family, c)) && c.Upper? && c.first && (c.proto == 6 || c.proto == 17)
    requires a.skb.gsoSegs <= 65535 && |a.skb.data| <= a.skb.len < 0x8000_0000
    requires IsWire(a.skb, payloads)
    requires var h := if c.proto == 17 then 8 else if c.l4 + 14 <= |a.skb.data| then a.skb.data[c.l4 + 12] / 16 * 4 else 0;
      a.skb.len == p.l4 + h + Sum(payloads)
    ensures p.ip <= p.l4
    ensures L3Octets(a.skb, p) == Sum(WireLengths(p.l4 - p.ip + p.l4hdr, payloads))
  {
    TransportHeaderLength(a.skb.data, a.eth);
    OctetsDoNotWrap(a, p);
    assert p.l4hdr == RepeatedHeader(a.skb.data, c);
    hide ParsePacket, IpHeader, Segments, L3Octets, WireLengths, Sum, Times;
    GsoOctets(a, p, p.l4 - p.ip, p.l4hdr, payloads);
  }

  /** A packet on its own on an L3 device. */
  function Alone(data: Bytes): Arrival {
    Arrival(Skb(data, |data| % TWO_32, 0, 1, false, 0), INGRESS, false, 0, true, true)
  }

  /** A UDP tunnel's super-packet of 98 octets in two segments of 10 payload octets, each
      of which repeats 50 octets of inner headers behind the IP and UDP headers. */
  function Tunnel(): Arrival { Alone(SmallPacket(17, 28)).(skb := Skb(SmallPacket(17, 28), 98, 2, 1, false, 0)) }

  /** It is counted with 126 octets, where 176 are on the wire. */
  lemma {:induction false} TunnelOctetsFallShort()
    ensures var a, r := Tunnel(), ParsePacket(Tunnel().skb.data, false);
      && r.Some? && r.value.proto == 17 && r.value.l4 == r.value.ip + 20
      && IsWire(a.skb, [10, 10]) && a.skb.len == r.value.l4 + 58 + Sum([10, 10])
      && L3Octets(a.skb, r.value) == 126 && Sum(WireLengths(20 + 58, [10, 10])) == 176
  {
    var data := SmallPacket(17, 28);
    assert data[0] == 0x45 && data[6] == 0 && data[7] == 0 && data[9] == 17;
    Ipv4Parses(data);
    hide SmallPacket, ParsePacket;
    var payloads: seq<nat> := [10, 10];
    assert Sum(payloads) == 20 by { assert payloads[1..] == [10] && [10][1..] == []; }
    WireSum(78, payloads);
    OctetsDoNotWrap(Tunnel(), ParsePacket(data, false).value);
  }

  // ---- class counters against flow accounting ----------------------------------

  function RunAll(plane: Plane, arrivals: seq<Arrival>): Plane {
    if |arrivals| == 0 then plane
    else AfterPacket(RunAll(plane, arrivals[..|arrivals| - 1]), arrivals[|arrivals| - 1])
  }

  /** The packet passes that hook of that device. */
  predicate AtHook(a: Arrival, d: DevKey) { a.skb.ifindex == d.ifindex && a.direction == d.direction }

  /** Packets that reached a device and direction. */
  function Seen(arrivals: seq<Arrival>, d: DevKey): nat {
    if |arrivals| == 0 then 0
    else
      var a := arrivals[|arrivals| - 1];
      Seen(arrivals[..|arrivals| - 1], d) + if AtHook(a, d) then OnWire(a.skb) else 0
  }

  /** Of those, packets that were accounted to a flow. */
  function Accounted(arrivals: seq<Arrival>, d: DevKey): nat {
    if |arrivals| == 0 then 0
    else
      var a := arrivals[|arrivals| - 1];
      Accounted(arrivals[..|arrivals| - 1], d)
      + if AtHook(a, d) && ParsePacket(a.skb.data, a.eth).Some? then OnWire(a.skb) else 0
  }

  function PacketsIn(devices: map<DevKey, DevValue>, d: DevKey): PerClass {
    if d in devices then devices[d].packets else ZERO_DEV.packets
  }

  function FourClasses(n: PerClass): nat { (n[0] as nat) + n[1] + n[2] + n[3] }

  function IpClasses(n: PerClass): nat { (n[0] as nat) + n[1] }

  lemma ClassStep(devices: map<DevKey, DevValue>, a: Arrival, d: DevKey)
    requires AtHook(a, d) ==> a.deviceFits
    ensures PacketsIn(AfterClass(devices, a), d)
      == if AtHook(a, d) then AddAt(PacketsIn(devices, d), PktClass(a.skb.data, a.eth), Segments(a.skb))
         else PacketsIn(devices, d)
  {
    hide PktClass;
  }

  lemma AddOne(n: PerClass, c: Class, segs: nat)
    requires FourClasses(n) + segs < TWO_64
    ensures FourClasses(AddAt(n, c, segs)) == FourClasses(n) + segs
    ensures IpClasses(AddAt(n, c, segs)) == IpClasses(n) + if c == Ipv4 || c == Ipv6 then segs else 0
  {
    match c case Ipv4 => case Ipv6 => case Arp => case Other =>
  }

  /** While the device map accepts the device's entry, the four classes of a device and
      direction add up to every packet seen there, and the packets accounted to
      flows are at most its IPv4 and IPv6 packets. */
  lemma {:induction false} ClassesAddUp(plane: Plane, arrivals: seq<Arrival>, d: DevKey)
    requires d !in plane.devices && Seen(arrivals, d) < TWO_64
    requires forall a | a in arrivals && AtHook(a, d) :: a.deviceFits
    ensures var n := PacketsIn(RunAll(plane, arrivals).devices, d);
      FourClasses(n) == Seen(arrivals, d) && Accounted(arrivals, d) <= IpClasses(n)
  {
    hide ParsePacket, PktClass, AfterClass, AfterPacket, FourClasses, IpClasses, AddAt, Segments, OnWire;
    if |arrivals| == 0 {
      assert FourClasses(ZERO_DEV.packets) == 0 by { NoPackets(); }
    } else {
      var init, a := arrivals[..|arrivals| - 1], arrivals[|arrivals| - 1];
      ClassesAddUp(plane, init, d);
      var before := RunAll(plane, init);
      FlowKeepsDevices(before, a);
      ClassStep(before.devices, a, d);
      SegmentsAreOnWire(a.skb);
      ParsersAgree(a.skb.data, a.eth);
      if AtHook(a, d) {
        AddOne(PacketsIn(before.devices, d), PktClass(a.skb.data, a.eth), Segments(a.skb));
      }
    }
  }

  /** Packets (octets) of one class that reached a device and direction. */
  function SeenAs(c: Counter, arrivals: seq<Arrival>, d: DevKey, kind: Class): nat {
    if |arrivals| == 0 then 0
    else
      var a := arrivals[|arrivals| - 1];
      SeenAs(c, arrivals[..|arrivals| - 1], d, kind)
      + if AtHook(a, d) && PktClass(a.skb.data, a.eth) == kind
        then (if c == PacketCount then OnWire(a.skb) else a.skb.len) else 0
  }

  function CountersIn(c: Counter, devices: map<DevKey, DevValue>, d: DevKey): PerClass {
    if d !in devices then [0, 0, 0, 0] else if c == PacketCount then devices[d].packets else devices[d].bytes
  }

  lemma ClassGrows(c: Counter, devices: map<DevKey, DevValue>, a: Arrival, d: DevKey)
    requires AtHook(a, d) ==> a.deviceFits
    ensures CountersIn(c, AfterClass(devices, a), d)
      == if AtHook(a, d)
         then AddAt(CountersIn(c, devices, d), PktClass(a.skb.data, a.eth),
                    if c == PacketCount then Segments(a.skb) else a.skb.len)
         else CountersIn(c, devices, d)
  {
    hide PktClass, Segments, AddAt;
  }

  lemma Added(n: PerClass, c: Class, more: nat, ipv4: nat, ipv6: nat, arp: nat, other: nat)
    requires n == [Wrap64(ipv4), Wrap64(ipv6), Wrap64(arp), Wrap64(other)]
    ensures AddAt(n, c, more) == [
      Wrap64(ipv4 + if c == Ipv4 then more else 0), Wrap64(ipv6 + if c == Ipv6 then more else 0),
      Wrap64(arp + if c == Arp then more else 0), Wrap64(other + if c == Other then more else 0)]
  {
    hide Wrap64;
    Wrap64Add(ipv4, more);
    Wrap64Add(ipv6, more);
    Wrap64Add(arp, more);
    Wrap64Add(other, more);
  }

  lemma NoneSeen(c: Counter, devices: map<DevKey, DevValue>, d: DevKey)
    requires d !in devices
    ensures CountersIn(c, devices, d) == [Wrap64(0), Wrap64(0), Wrap64(0), Wrap64(0)]
  {
  }

  lemma SeenMore(c: Counter, arrivals: seq<Arrival>, a: Arrival, d: DevKey, kind: Class)
    ensures SeenAs(c, arrivals + [a], d, kind) == SeenAs(c, arrivals, d, kind)
      + if AtHook(a, d) && PktClass(a.skb.data, a.eth) == kind
        then (if c == PacketCount then OnWire(a.skb) else a.skb.len) else 0
  {
    assert (arrivals + [a])[..|arrivals|] == arrivals;
  }

  lemma RunMore(plane: Plane, arrivals: seq<Arrival>, a: Arrival)
    ensures RunAll(plane, arrivals + [a]) == AfterPacket(RunAll(plane, arrivals), a)
  {
    assert (arrivals + [a])[..|arrivals|] == arrivals;
  }

  /** A device's counters are, class by class in the order IPv4, IPv6, ARP, other, the
      packets and the octets of the class seen there, modulo 2^64. */
  lemma {:induction false} ClassCounters(c: Counter, plane: Plane, arrivals: seq<Arrival>, d: DevKey)
    requires d !in plane.devices
    requires forall a | a in arrivals && AtHook(a, d) :: a.deviceFits
    ensures CountersIn(c, RunAll(plane, arrivals).devices, d) == [
      Wrap64(SeenAs(c, arrivals, d, Ipv4)), Wrap64(SeenAs(c, arrivals, d, Ipv6)),
      Wrap64(SeenAs(c, arrivals, d, Arp)), Wrap64(SeenAs(c, arrivals, d, Other))]
  {
    hide Wrap64, PktClass, AfterClass, AfterPacket, AddAt, Segments, OnWire, CountersIn;
    if |arrivals| == 0 {
      NoneSeen(c, plane.devices, d);
    } else {
      hide SeenAs, RunAll;
      var init, a := arrivals[..|arrivals| - 1], arrivals[|arrivals| - 1];
      assert arrivals == init + [a];
      ClassCounters(c, plane, init, d);
      RunMore(plane, init, a);
      var before := RunAll(plane, init);
      FlowKeepsDevices(before, a);
      ClassGrows(c, before.devices, a, d);
      SegmentsAreOnWire(a.skb);
      SeenMore(c, init, a, d, Ipv4);
      SeenMore(c, init, a, d, Ipv6);
      SeenMore(c, init, a, d, Arp);
      SeenMore(c, init, a, d, Other);
      Added(CountersIn(c, before.devices, d), PktClass(a.skb.data, a.eth), if c == PacketCount then OnWire(a.skb) else a.skb.len,
            SeenAs(c, init, d, Ipv4), SeenAs(c, init, d, Ipv6), SeenAs(c, init, d, Arp), SeenAs(c, init, d, Other));
    }
  }

  /** Packets on the wire and octets of all arrivals, and packets of those accounted. */
  function AllPackets(arrivals: seq<Arrival>): nat {
    if |arrivals| == 0 then 0 else AllPackets(arrivals[..|arrivals| - 1]) + OnWire(arrivals[|arrivals| - 1].skb)
  }

  function AllOctets(arrivals: seq<Arrival>): nat {
    if |arrivals| == 0 then 0 else AllOctets(arrivals[..|arrivals| - 1]) + arrivals[|arrivals| - 1].skb.len
  }

  function AllParsed(arrivals: seq<Arrival>): nat {
    if |arrivals| == 0 then 0
    else
      var a := arrivals[|arrivals| - 1];
      AllParsed(arrivals[..|arrivals| - 1]) + if ParsePacket(a.skb.data, a.eth).Some? then OnWire(a.skb) else 0
  }

  lemma TotalsStep(plane: Plane, a: Arrival)
    ensures var s, s' := plane.stats, AfterPacket(plane, a).stats;
      && s'.packets == Wrap64(s.packets + Segments(a.skb)) && s'.bytes == Wrap64(s.bytes + a.skb.len)
      && s'.parsed == if ParsePacket(a.skb.data, a.eth).Some? then Wrap64(s.parsed + Segments(a.skb)) else s.parsed
  {
    hide ParsePacket, AfterClass, Segments, KeyOf, NewFlow, GrownFlow, Wrap64;
  }

  /** The aggregate counters are those totals, modulo 2^64. */
  lemma {:induction false} TotalsAddUp(plane: Plane, arrivals: seq<Arrival>)
    requires plane.stats == Stats(0, 0, 0, 0)
    ensures var s := RunAll(plane, arrivals).stats;
      && s.packets == Wrap64(AllPackets(arrivals)) && s.bytes == Wrap64(AllOctets(arrivals))
      && s.parsed == Wrap64(AllParsed(arrivals))
  {
    hide ParsePacket, AfterPacket, Segments, OnWire;
    if |arrivals| > 0 {
      hide Wrap64;
      var init, a := arrivals[..|arrivals| - 1], arrivals[|arrivals| - 1];
      TotalsAddUp(plane, init);
      TotalsStep(RunAll(plane, init), a);
      SegmentsAreOnWire(a.skb);
      Wrap64Add(AllPackets(init), OnWire(a.skb));
      Wrap64Add(AllOctets(init), a.skb.len);
      Wrap64Add(AllParsed(init), OnWire(a.skb));
    }
  }

  lemma NoPackets()
    ensures FourClasses(ZERO_DEV.packets) == 0
  {
  }

  lemma FlowKeepsDevices(plane: Plane, a: Arrival)
    ensures AfterPacket(plane, a).devices == AfterClass(plane.devices, a)
  {
    hide ParsePacket, AfterClass, KeyOf, NewFlow, GrownFlow;
  }

  function PacketsByKey(m: map<FlowKey, FlowValue>): map<FlowKey, nat> {
    map k | k in m :: m[k].packets
  }

  /** A parsed packet is one packet accounted in the sense of `Counting`. */
  lemma {:induction false} PacketIsCounted(plane: Plane, a: Arrival)
    requires plane.stats.parsed + OnWire(a.skb) < TWO_63
    requires forall k | k in plane.flows :: plane.flows[k].packets + OnWire(a.skb) < TWO_63
    ensures var plane', p := AfterPacket(plane, a), ParsePacket(a.skb.data, a.eth);
      && PacketsByKey(plane'.flows) == (if p.Some?
           then Counting.Accounted(PacketsByKey(plane.flows), KeyOf(a, p.value), OnWire(a.skb), a.flowFits)
           else PacketsByKey(plane.flows))
      && plane'.stats.parsed == plane.stats.parsed + (if p.Some? then OnWire(a.skb) else 0)
  {
    hide *;
    SegmentsAreOnWire(a.skb);
    var p := ParsePacket(a.skb.data, a.eth);
    ParsedCounter(plane, a);
    Wrap64Self(plane.stats.parsed + OnWire(a.skb));
    if p.Some? {
      var k := KeyOf(a, p.value);
      if k in plane.flows || a.flowFits {
        SegmentsSmall(a.skb);
        StoredIsCounted(plane, a, p.value);
      } else {
        NotStored(plane.flows, k, OnWire(a.skb));
      }
    }
  }

  lemma SegmentsSmall(skb: Skb)
    ensures Segments(skb) < TWO_63
  {
  }

  lemma {:induction false} StoredIsCounted(plane: Plane, a: Arrival, p: Parsed)
    requires ParsePacket(a.skb.data, a.eth) == Some(p)
    requires KeyOf(a, p) in plane.flows || a.flowFits
    requires (if KeyOf(a, p) in plane.flows then plane.flows[KeyOf(a, p)].packets else 0) + Segments(a.skb) < TWO_63
    ensures PacketsByKey(AfterPacket(plane, a).flows)
         == Counting.Accounted(PacketsByKey(plane.flows), KeyOf(a, p), Segments(a.skb), a.flowFits)
  {
    hide *;
    var k := KeyOf(a, p);
    FlowsAfter(plane, a, p);
    Wrap64Self((if k in plane.flows then plane.flows[k].packets else 0) + Segments(a.skb));
    CountedAt(plane.flows, AfterPacket(plane, a).flows, k, Segments(a.skb), a.flowFits);
  }

  lemma CountedAt(flows: map<FlowKey, FlowValue>, flows': map<FlowKey, FlowValue>, k: FlowKey, n: nat, fits: bool)
    requires k in flows' && flows' == flows[k := flows'[k]] && (k in flows || fits)
    requires flows'[k].packets == (if k in flows then flows[k].packets else 0) + n
    ensures PacketsByKey(flows') == Counting.Accounted(PacketsByKey(flows), k, n, fits)
  {
  }

  lemma NotStored(flows: map<FlowKey, FlowValue>, k: FlowKey, n: nat)
    requires k !in flows
    ensures Counting.Accounted(PacketsByKey(flows), k, n, false) == PacketsByKey(flows)
  {
  }

  /** The parsed counter, and the flows when the packet is not stored. */
  lemma ParsedCounter(plane: Plane, a: Arrival)
    ensures var plane', p := AfterPacket(plane, a), ParsePacket(a.skb.data, a.eth);
      && plane'.stats.parsed == (if p.Some? then Wrap64(plane.stats.parsed + Segments(a.skb)) else plane.stats.parsed)
      && (p == None || (KeyOf(a, p.value) !in plane.flows && !a.flowFits) ==> plane'.flows == plane.flows)
  {
    hide ParsePacket, L3Octets, KeyOf, OrFlags, AfterClass, NewFlow, GrownFlow, Wrap64;
  }

  // ---- keys and the lifecycle's view -------------------------------------------

  /** Keys written by the dataplane are canonical at either hook. */
  lemma KeysAreCanonical(a: Arrival, p: Parsed)
    requires ParsePacket(a.skb.data, a.eth) == Some(p)
    requires a.direction == INGRESS || a.direction == EGRESS
    ensures Canonical(KeyOf(a, p))
  {
    ParseBounds(a.skb.data, a.eth);
    hide ParsePacket;
  }

  /** The lifecycle's model of the map holds these flows. */
  ghost predicate Holds(w: LifecycleMachine.World, flows: map<FlowKey, FlowValue>) {
    w.kernel.Keys == flows.Keys && forall k | k in flows :: w.kernel[k].value == flows[k]
  }

  /** The flow map after an accounted packet that found or got an entry. */
  lemma FlowsAfter(plane: Plane, a: Arrival, p: Parsed)
    requires ParsePacket(a.skb.data, a.eth) == Some(p)
    requires KeyOf(a, p) in plane.flows || a.flowFits
    ensures var k, flows' := KeyOf(a, p), AfterPacket(plane, a).flows;
      && k in flows' && flows' == plane.flows[k := flows'[k]]
      && flows'[k].packets == Wrap64((if k in plane.flows then plane.flows[k].packets else 0) + Segments(a.skb))
      && flows'[k].bytes == Wrap64((if k in plane.flows then plane.flows[k].bytes else 0) + L3Octets(a.skb, p))
  {
    ParseBounds(a.skb.data, a.eth);
    hide ParsePacket, L3Octets, KeyOf, OrFlags, AfterClass;
  }

  /** An accounted packet is a packet step of the lifecycle's environment: one key
      grows by the packet's segments and octets, while its counters stay below 2^63. */
  lemma {:induction false} AccountingIsAPacketStep(cfg: LifecycleMachine.Config, w: LifecycleMachine.World, plane: Plane, a: Arrival, p: Parsed)
    requires ParsePacket(a.skb.data, a.eth) == Some(p) && Holds(w, plane.flows)
    requires KeyOf(a, p) in plane.flows || a.flowFits
    requires LifecycleMachine.Cur(PacketCount, w, KeyOf(a, p)) + OnWire(a.skb) < TWO_63
    requires LifecycleMachine.Cur(ByteCount, w, KeyOf(a, p)) + L3Octets(a.skb, p) < TWO_63
    ensures var k, flows' := KeyOf(a, p), AfterPacket(plane, a).flows;
      && k in flows' && LifecycleMachine.Enabled(cfg, w, LifecycleMachine.Packet(k, flows'[k]))
      && var w' := LifecycleMachine.AfterPacket(w, k, flows'[k]);
      && Holds(w', flows')
      && LifecycleMachine.Counted(PacketCount, w', k) == LifecycleMachine.Counted(PacketCount, w, k) + OnWire(a.skb)
      && LifecycleMachine.Counted(ByteCount, w', k) == LifecycleMachine.Counted(ByteCount, w, k) + L3Octets(a.skb, p)
  {
    hide *;
    SegmentsAreOnWire(a.skb);
    FlowsAfter(plane, a, p);
    var k := KeyOf(a, p);
    HoldsAt(w, plane.flows, k);
    var v := AfterPacket(plane, a).flows[k];
    Wrap64Self(LifecycleMachine.Cur(PacketCount, w, k) + OnWire(a.skb));
    Wrap64Self(LifecycleMachine.Cur(ByteCount, w, k) + L3Octets(a.skb, p));
    PacketEnabled(cfg, w, k, v);
    PacketStepHolds(w, plane.flows, k, v);
    LifecycleMachine.PacketCounts(PacketCount, w, k, k, v);
    LifecycleMachine.PacketCounts(ByteCount, w, k, k, v);
  }

  lemma PacketEnabled(cfg: LifecycleMachine.Config, w: LifecycleMachine.World, k: FlowKey, v: FlowValue)
    requires LifecycleMachine.Cur(PacketCount, w, k) <= v.packets < TWO_63
    requires LifecycleMachine.Cur(ByteCount, w, k) <= v.bytes < TWO_63
    ensures LifecycleMachine.Enabled(cfg, w, LifecycleMachine.Packet(k, v))
  {
  }

  lemma HoldsAt(w: LifecycleMachine.World, flows: map<FlowKey, FlowValue>, k: FlowKey)
    requires Holds(w, flows)
    ensures k in w.kernel <==> k in flows
    ensures k in flows ==> w.kernel[k].value == flows[k]
    ensures LifecycleMachine.Cur(PacketCount, w, k) == if k in flows then flows[k].packets else 0
    ensures LifecycleMachine.Cur(ByteCount, w, k) == if k in flows then flows[k].bytes else 0
  {
    assert k in w.kernel.Keys <==> k in flows.Keys;
  }

  lemma PacketStepHolds(w: LifecycleMachine.World, flows: map<FlowKey, FlowValue>, k: FlowKey, v: FlowValue)
    requires Holds(w, flows)
    requires LifecycleMachine.Cur(PacketCount, w, k) <= v.packets && LifecycleMachine.Cur(ByteCount, w, k) <= v.bytes
    ensures Holds(LifecycleMachine.AfterPacket(w, k, v), flows[k := v])
    ensures LifecycleMachine.Cur(PacketCount, LifecycleMachine.AfterPacket(w, k, v), k) == v.packets
    ensures LifecycleMachine.Cur(ByteCount, LifecycleMachine.AfterPacket(w, k, v), k) == v.bytes
  {
    hide LifecycleMachine.Counted;
  }

  lemma Wrap64Self(x: int)
    ensures 0 <= x < TWO_63 ==> Wrap64(x) == x
  {
  }
}
