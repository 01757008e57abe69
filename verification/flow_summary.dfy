/** What a flow entry says of the packets it was made from. */
module FlowSummary {
  import opened Words
  import opened Flow
  import opened Packet
  import opened Dataplane

  const EMPTY_PLANE: Plane := Plane(map[], map[], Dataplane.Stats(0, 0, 0, 0))

  predicate BelongsTo(a: Arrival, k: FlowKey) {
    ParsePacket(a.skb.data, a.eth).Some? && KeyOf(a, ParsePacket(a.skb.data, a.eth).value) == k
  }

  /** The packets of flow `k`, oldest first, from the one the map had room for on. */
  function Stored(arrivals: seq<Arrival>, k: FlowKey): seq<Arrival> {
    if |arrivals| == 0 then []
    else
      var init, a := Stored(arrivals[..|arrivals| - 1], k), arrivals[|arrivals| - 1];
      if BelongsTo(a, k) && (init != [] || a.flowFits) then init + [a] else init
  }

  function OctetsOf(a: Arrival): U32 {
    match ParsePacket(a.skb.data, a.eth) case None => 0 case Some(p) => L3Octets(a.skb, p)
  }

  function FlagsOf(a: Arrival): U16 {
    match ParsePacket(a.skb.data, a.eth) case None => 0 case Some(p) => p.tcpFlags
  }

  /** Packets on the wire (octets) of a list of arrivals. */
  function Total(c: Counter, ps: seq<Arrival>): nat {
    if |ps| == 0 then 0
    else Total(c, ps[..|ps| - 1]) + if c == PacketCount then OnWire(ps[|ps| - 1].skb) else OctetsOf(ps[|ps| - 1])
  }

  function Bits(flags: U16): bv16 { flags as bv16 }

  predicate HasBit(x: bv16, bit: bv16) { x & bit != 0 }

  predicate FlagSet(flags: U16, bit: bv16) { HasBit(Bits(flags), bit) }

  /** The entry tells of its packets: their totals modulo 2^64, when the first and the
      last came, VLAN and TOS of the first, and each TCP flag that any of them had. */
  ghost predicate Summarises(v: FlowValue, ps: seq<Arrival>)
    requires |ps| > 0 && forall a | a in ps :: ParsePacket(a.skb.data, a.eth).Some?
  {
    var first, p := ps[0], ParsePacket(ps[0].skb.data, ps[0].eth).value;
    ParseBounds(first.skb.data, first.eth);
    && v.packets == Wrap64(Total(PacketCount, ps)) && v.bytes == Wrap64(Total(ByteCount, ps))
    && v.firstSeen == first.now && v.lastSeen == ps[|ps| - 1].now
    && v.vlanId == (if first.eth then OuterVlan(first.skb) else 0)
    && v.tos == TosOf(first.skb.data, p)
    && (forall bit :: FlagSet(v.tcpFlags, bit) <==> exists a | a in ps :: FlagSet(FlagsOf(a), bit))
  }

  lemma BitsKept(x: bv16)
    ensures (x as U16) as bv16 == x
  {
  }

  lemma OrDistributes(x: bv16, y: bv16, bit: bv16)
    ensures (x | y) & bit == (x & bit) | (y & bit)
  {
  }

  lemma OrNone(x: bv16, y: bv16)
    ensures x | y == 0 <==> x == 0 && y == 0
  {
  }

  lemma {:induction false} OrBits(x: bv16, y: bv16, bit: bv16)
    ensures HasBit(x | y, bit) <==> HasBit(x, bit) || HasBit(y, bit)
  {
    OrDistributes(x, y, bit);
    OrNone(x & bit, y & bit);
  }

  lemma BitsOr(a: U16, b: U16)
    ensures Bits(OrFlags(a, b)) == Bits(a) | Bits(b)
  {
    BitsKept(a as bv16 | b as bv16);
  }

  lemma {:induction false} OrSets(a: U16, b: U16, bit: bv16)
    ensures FlagSet(OrFlags(a, b), bit) <==> FlagSet(a, bit) || FlagSet(b, bit)
  {
    hide Bits, OrFlags, HasBit;
    BitsOr(a, b);
    OrBits(Bits(a), Bits(b), bit);
  }

  lemma StoredParse(arrivals: seq<Arrival>, k: FlowKey)
    ensures forall a | a in Stored(arrivals, k) :: BelongsTo(a, k)
  {
    hide BelongsTo;
  }

  lemma CreatedSummarises(a: Arrival, p: Parsed)
    requires ParsePacket(a.skb.data, a.eth) == Some(p)
    ensures p.ip + 2 <= |a.skb.data| && Summarises(NewFlow(a, p), [a])
  {
    ParseBounds(a.skb.data, a.eth);
    SegmentsAreOnWire(a.skb);
    hide ParsePacket, L3Octets, OuterVlan, Segments, OnWire, FlagSet;
    assert Total(PacketCount, [a]) == OnWire(a.skb) && Total(ByteCount, [a]) == L3Octets(a.skb, p) by {
      assert [a][..0] == [];
    }
    assert a in [a];
  }

  lemma {:induction false} GrownSummarises(v: FlowValue, ps: seq<Arrival>, a: Arrival, p: Parsed)
    requires |ps| > 0 && forall x | x in ps :: ParsePacket(x.skb.data, x.eth).Some?
    requires ParsePacket(a.skb.data, a.eth) == Some(p) && Summarises(v, ps)
    ensures Summarises(GrownFlow(v, a, p), ps + [a])
  {
    SegmentsAreOnWire(a.skb);
    hide ParsePacket, L3Octets, OuterVlan, Segments, OnWire, FlagSet, OrFlags, Wrap64;
    assert (ps + [a])[..|ps|] == ps;
    Wrap64Add(Total(PacketCount, ps), OnWire(a.skb));
    Wrap64Add(Total(ByteCount, ps), L3Octets(a.skb, p));
    forall bit
      ensures FlagSet(GrownFlow(v, a, p).tcpFlags, bit) <==> exists x | x in ps + [a] :: FlagSet(FlagsOf(x), bit)
    {
      OrSets(v.tcpFlags, p.tcpFlags, bit);
      assert FlagSet(p.tcpFlags, bit) ==> a in ps + [a] && FlagSet(FlagsOf(a), bit);
    }
  }

  /** For every sequence of packets, a flow is in the map exactly if the map had room
      for one of its packets, and its entry summarises its packets from then on. */
  lemma {:induction false} FlowIsItsPackets(arrivals: seq<Arrival>, k: FlowKey)
    ensures forall a | a in Stored(arrivals, k) :: ParsePacket(a.skb.data, a.eth).Some?
    ensures var flows, ps := RunAll(EMPTY_PLANE, arrivals).flows, Stored(arrivals, k);
      && (k in flows <==> ps != [])
      && (k in flows ==> Summarises(flows[k], ps))
  {
    hide Summarises, ParsePacket, AfterPacket, KeyOf, NewFlow, GrownFlow;
    StoredParse(arrivals, k);
    if |arrivals| == 0 {
    } else {
      var init, a := arrivals[..|arrivals| - 1], arrivals[|arrivals| - 1];
      FlowIsItsPackets(init, k);
      var plane := RunAll(EMPTY_PLANE, init);
      if BelongsTo(a, k) {
        var p := ParsePacket(a.skb.data, a.eth).value;
        OwnFlow(plane, a, p);
        if k in plane.flows {
          GrownSummarises(plane.flows[k], Stored(init, k), a, p);
        } else {
          CreatedSummarises(a, p);
          assert Stored(init, k) + [a] == [a];
        }
      } else {
        OtherFlow(plane, a, k);
      }
    }
  }

  /** The flow a packet belongs to, before and after it. */
  lemma OwnFlow(plane: Plane, a: Arrival, p: Parsed)
    requires ParsePacket(a.skb.data, a.eth) == Some(p)
    ensures p.ip + 2 <= |a.skb.data|
    ensures var k, flows' := KeyOf(a, p), AfterPacket(plane, a).flows;
      && (k in flows' <==> k in plane.flows || a.flowFits)
      && (k in flows' ==> flows'[k] == if k in plane.flows then GrownFlow(plane.flows[k], a, p) else NewFlow(a, p))
  {
    ParseBounds(a.skb.data, a.eth);
    hide ParsePacket, KeyOf, NewFlow, GrownFlow;
  }

  lemma OtherFlow(plane: Plane, a: Arrival, k: FlowKey)
    requires !BelongsTo(a, k)
    ensures var flows' := AfterPacket(plane, a).flows;
      (k in flows' <==> k in plane.flows) && (k in flows' ==> flows'[k] == plane.flows[k])
  {
    hide ParsePacket, KeyOf, NewFlow, GrownFlow;
  }

  // ---- on the wire --------------------------------------------------------------------

  /** The packets on the wire that arrivals stand for: the octets of transport header that
      each of them carries, and their payloads. */
  type Wire = Arrival -> (nat, seq<nat>)

  /** The split of an accounted arrival into packets on the wire, which repeat just the
      transport octets the parser knows when there are several. */
  predicate Genuine(a: Arrival, wire: (nat, seq<nat>)) {
    match ParsePacket(a.skb.data, a.eth)
    case None => true
    case Some(p) =>
      && a.skb.gsoSegs <= 65535 && |a.skb.data| <= a.skb.len < 0x8000_0000
      && IsWire(a.skb, wire.1) && a.skb.len == p.l4 + wire.0 + Sum(wire.1)
      && (|wire.1| == 1 || wire.0 == p.l4hdr)
  }

  /** L3 octets on the wire: IP headers, transport header and payload of every packet. */
  function WireOctets(a: Arrival, wire: (nat, seq<nat>)): nat {
    match ParsePacket(a.skb.data, a.eth)
    case None => 0
    case Some(p) => Sum(WireLengths((if p.ip <= p.l4 then p.l4 - p.ip else 0) + wire.0, wire.1))
  }

  /** Packets (octets) on the wire of a list of arrivals. */
  function WireTotal(c: Counter, wire: Wire, ps: seq<Arrival>): nat {
    if |ps| == 0 then 0
    else
      var a := ps[|ps| - 1];
      WireTotal(c, wire, ps[..|ps| - 1]) + if c == PacketCount then |wire(a).1| else WireOctets(a, wire(a))
  }

  lemma {:induction false} OctetsAreWire(a: Arrival, wire: (nat, seq<nat>))
    requires Genuine(a, wire) && ParsePacket(a.skb.data, a.eth).Some?
    ensures OctetsOf(a) == WireOctets(a, wire) && |wire.1| == OnWire(a.skb)
  {
    var p := ParsePacket(a.skb.data, a.eth).value;
    assert p.ip <= p.l4 by { ParseBounds(a.skb.data, a.eth); }
    hide ParsePacket, L3Octets, Sum, WireLengths;
    GsoOctets(a, p, p.l4 - p.ip, wire.0, wire.1);
  }

  lemma {:induction false} TotalIsWire(c: Counter, wire: Wire, ps: seq<Arrival>)
    requires forall a | a in ps :: Genuine(a, wire(a)) && ParsePacket(a.skb.data, a.eth).Some?
    ensures Total(c, ps) == WireTotal(c, wire, ps)
  {
    hide Genuine, ParsePacket, OctetsOf, WireOctets, OnWire;
    if |ps| > 0 {
      TotalIsWire(c, wire, ps[..|ps| - 1]);
      OctetsAreWire(ps[|ps| - 1], wire(ps[|ps| - 1]));
    }
  }

  lemma {:induction false} StoredArrived(arrivals: seq<Arrival>, k: FlowKey)
    ensures forall a | a in Stored(arrivals, k) :: a in arrivals
  {
    hide BelongsTo;
    if |arrivals| > 0 {
      StoredArrived(arrivals[..|arrivals| - 1], k);
    }
  }

  /** For every sequence of arrivals and every such split of them, a flow's entry holds
      the number of its packets on the wire and the sum of their L3 octets, modulo 2^64. */
  lemma {:induction false} FlowIsItsWire(arrivals: seq<Arrival>, k: FlowKey, wire: Wire)
    requires forall a | a in arrivals :: Genuine(a, wire(a))
    ensures var flows, ps := RunAll(EMPTY_PLANE, arrivals).flows, Stored(arrivals, k);
      k in flows ==>
        && flows[k].packets == Wrap64(WireTotal(PacketCount, wire, ps))
        && flows[k].bytes == Wrap64(WireTotal(ByteCount, wire, ps))
  {
    hide Genuine, ParsePacket, Stored, RunAll, Total, WireTotal, Wrap64, FlagSet;
    FlowIsItsPackets(arrivals, k);
    StoredArrived(arrivals, k);
    TotalIsWire(PacketCount, wire, Stored(arrivals, k));
    TotalIsWire(ByteCount, wire, Stored(arrivals, k));
  }

  /** While nothing is deleted, the counter of flows created is the size of the map. */
  lemma {:induction false} CreatedIsTheMapSize(arrivals: seq<Arrival>)
    ensures var plane := RunAll(EMPTY_PLANE, arrivals); plane.stats.created == Wrap64(|plane.flows|)
  {
    hide ParsePacket, KeyOf, NewFlow, GrownFlow, Wrap64;
    if |arrivals| == 0 {
      assert Wrap64(0) == 0 by { Wrap64None(); }
    } else {
      var init, a := arrivals[..|arrivals| - 1], arrivals[|arrivals| - 1];
      CreatedIsTheMapSize(init);
      Wrap64Add(|RunAll(EMPTY_PLANE, init).flows|, 1);
    }
  }

  lemma Wrap64None()
    ensures Wrap64(0) == 0
  {
  }
}
