/** The drop tracer: its own header parser, and aggregation of drops by tuple and
    reason. */
module Drops {
  import opened Words
  import opened Flow
  import opened Packet
  import opened Dataplane
  import Counting

  datatype DropKey = DropKey(flow: FlowKey, reason: U32)

  const NO_ADDRESS: Address := [0, 0, 0, 0, 0, 0, 0, 0, 0, 0, 0, 0, 0, 0, 0, 0]

  /** What the parser fills in of a key, with the TCP flags and TOS. */
  datatype Tuple = Tuple(key: FlowKey, tcpFlags: U8, tos: U8)

  const EMPTY_TUPLE: Tuple := Tuple(FlowKey(0, 0, 0, 0, NO_ADDRESS, NO_ADDRESS, 0, 0, 0, 0), 0, 0)

  predicate HasPorts(proto: U8) { proto == 6 || proto == 17 }

  predicate IsIcmp(proto: U8) { proto == 1 || proto == 58 }

  /** The tuple of the packet at the start of the kernel memory `mem`, and its IP
      total length: 0 when it is not parseable. */
  function DropTuple(mem: Bytes, etherType: U16): (r: (nat, Tuple))
    ensures r.0 < 40 + 0x1_0000
  {
    if etherType == ETH_P_IP then
      if |mem| < 20 || mem[0] / 16 != 4 || mem[0] % 16 * 4 < 20 then (0, EMPTY_TUPLE)
      else
        var k := EMPTY_TUPLE.key.(family := 4, protocol := mem[9], src := Mapped(mem[12..16]), dst := Mapped(mem[16..20]));
        (U16At(mem, 2), WithTransport(mem, k, mem[1], mem[0] % 16 * 4, U16At(mem, 6) % 0x2000 == 0))
    else if etherType == ETH_P_IPV6 then
      if |mem| < 40 || mem[0] / 16 != 6 then (0, EMPTY_TUPLE)
      else
        var k := EMPTY_TUPLE.key.(family := 6, protocol := mem[6], src := mem[8..24], dst := mem[24..40]);
        (40 + U16At(mem, 4), WithTransport(mem, k, (mem[0] as nat) % 16 * 16 + mem[1] / 16, 40, true))
    else (0, EMPTY_TUPLE)
  }

  function WithTransport(mem: Bytes, k: FlowKey, tos: U8, l4: nat, first: bool): Tuple {
    if !first || l4 + 14 > |mem| then Tuple(k, 0, tos)
    else if HasPorts(k.protocol) then
      Tuple(k.(sport := U16At(mem, l4), dport := U16At(mem, l4 + 2)), if k.protocol == 6 then mem[l4 + 13] else 0, tos)
    else if IsIcmp(k.protocol) then Tuple(k.(icmpType := mem[l4], icmpCode := mem[l4 + 1]), 0, tos)
    else Tuple(k, 0, tos)
  }

  /** The tracer's parser, filling the tuple field by field. */
  method DropParse(mem: Bytes, etherType: U16) returns (l3len: nat, t: Tuple)
    ensures l3len == DropTuple(mem, etherType).0
    ensures l3len > 0 ==> t == DropTuple(mem, etherType).1
  {
    t := EMPTY_TUPLE;
    l3len := 0;
    var ihl, first := 0, true;
    if etherType == ETH_P_IP {
      if |mem| < 20 || mem[0] / 16 != 4 {
        return 0, t;
      }
      ihl := mem[0] % 16 * 4;
      if ihl < 20 {
        return 0, t;
      }
      t := t.(key := t.key.(family := 4), tos := mem[1]);
      t := t.(key := t.key.(src := Mapped(mem[12..16])));
      t := t.(key := t.key.(dst := Mapped(mem[16..20])));
      l3len := U16At(mem, 2);
      first := U16At(mem, 6) % 0x2000 == 0;
      t := t.(key := t.key.(protocol := mem[9]));
    } else if etherType == ETH_P_IPV6 {
      if |mem| < 40 || mem[0] / 16 != 6 {
        return 0, t;
      }
      ihl := 40;
      t := t.(key := t.key.(family := 6), tos := (mem[0] as nat) % 16 * 16 + mem[1] / 16);
      t := t.(key := t.key.(src := mem[8..24]));
      t := t.(key := t.key.(dst := mem[24..40]));
      l3len := 40 + U16At(mem, 4);
      t := t.(key := t.key.(protocol := mem[6]));
    } else {
      return 0, t;
    }
    var proto := t.key.protocol;
    if first && (HasPorts(proto) || IsIcmp(proto)) && ihl + 14 <= |mem| {
      if HasPorts(proto) {
        t := t.(key := t.key.(sport := U16At(mem, ihl)));
        t := t.(key := t.key.(dport := U16At(mem, ihl + 2)));
        if proto == 6 {
          t := t.(tcpFlags := mem[ihl + 13]);
        }
      } else {
        t := t.(key := t.key.(icmpType := mem[ihl]));
        t := t.(key := t.key.(icmpCode := mem[ihl + 1]));
      }
    }
  }

  /** The packet has no ports, ICMP fields or TCP flags. */
  predicate NoTransport(p: Parsed) {
    p.sport == 0 && p.dport == 0 && p.icmpType == 0 && p.icmpCode == 0 && p.tcpFlags == 0
  }

  /** The tracer's tuple of an accounted packet is the TC parser's, with the same TCP
      flags and TOS, exactly if the IPv6 base header names the protocol the TC parser
      found, and 14 octets from the transport header on can be read or there is nothing
      to be read there. `mem` begins with the packet from its IP header on. */
  lemma {:induction false} TupleNamesTheFlow(a: Arrival, p: Parsed, mem: Bytes, etherType: U16)
    requires ParsePacket(a.skb.data, a.eth) == Some(p)
    requires p.ip <= |a.skb.data| && a.skb.data[p.ip..] <= mem
    requires etherType == if p.family == 4 then ETH_P_IP else ETH_P_IPV6
    ensures p.ip + 20 <= |a.skb.data|
    ensures var t := DropTuple(mem, etherType).1;
      && t.key.ifindex == 0 && t.key.direction == 0
      && ((t.key.(ifindex := a.skb.ifindex, direction := a.direction) == KeyOf(a, p)
           && t.tcpFlags == p.tcpFlags && t.tos == TosOf(a.skb.data, p))
          <==>
          && (p.family == 6 ==> p.proto == a.skb.data[p.ip + 6])
          && (p.l4 + 14 <= p.ip + |mem| || NoTransport(p)))
    ensures DropTuple(mem, etherType).0 == 0 <==> p.family == 4 && U16At(a.skb.data, p.ip + 2) == 0
  {
    ParseBounds(a.skb.data, a.eth);
    ParsedHeader(a.skb.data, a.eth, p);
    TotalLength(a.skb.data, p, mem);
    hide DropTuple, ParsePacket, WithTransport;
    if p.family == 4 {
      DropIpv4(a.skb.data, p, mem);
    } else {
      DropIpv6(a.skb.data, p, mem);
    }
  }

  /** An accounted packet has no length to the tracer only if it is IPv4 and says so. */
  lemma {:induction false} TotalLength(data: Bytes, p: Parsed, mem: Bytes)
    requires p.family == 4 ==> p.ip + 20 <= |data| && IsIpv4(data, p)
    requires p.family != 4 ==> p.family == 6 && p.ip + 40 <= |data| && IsIpv6(data, p)
    requires p.ip <= |data| && data[p.ip..] <= mem
    ensures p.family == 4 ==> DropTuple(mem, ETH_P_IP).0 == U16At(data, p.ip + 2) && DropTuple(mem, ETH_P_IPV6).0 == 0
    ensures p.family == 6 ==> DropTuple(mem, ETH_P_IPV6).0 > 0 && DropTuple(mem, ETH_P_IP).0 == 0
  {
    Shown(data, p.ip, mem);
    hide WithTransport, Transport;
  }

  /** `mem` shows the packet from its IP header on. */
  lemma Shown(data: Bytes, ip: nat, mem: Bytes)
    requires ip <= |data| && data[ip..] <= mem
    ensures |data| - ip <= |mem| && forall i | 0 <= i < |data| - ip :: mem[i] == data[ip + i]
    ensures forall i, j | 0 <= i <= j <= |data| - ip :: mem[i..j] == data[ip + i..ip + j]
  {
    assert mem[..|data| - ip] == data[ip..];
    assert forall i | 0 <= i < |data| - ip :: mem[i] == mem[..|data| - ip][i];
  }

  /** What an accounted packet of a family looks like at its IP header. */
  lemma {:induction false} ParsedHeader(data: Bytes, eth: bool, p: Parsed)
    requires ParsePacket(data, eth) == Some(p)
    ensures p.ip + (if p.family == 4 then 20 else 40) <= |data|
    ensures p.family == 4 ==> IsIpv4(data, p)
    ensures p.family != 4 ==> p.family == 6 && IsIpv6(data, p)
  {
    ParseBounds(data, eth);
    hide U16At, WalkHeaders, IpOffset;
    if p.family == 6 {
      assert data[p.ip] / 16 == 6;
      var c := WalkResult(WalkHeaders(data, data[p.ip + 6], p.ip + 40, MAX_EXT_HDR));
      assert c.Upper? && c.l4 == p.l4 && c.proto == p.proto;
      NoExtensions(data, data[p.ip + 6], p.ip + 40, MAX_EXT_HDR);
    }
  }

  predicate IsIpv4(data: Bytes, p: Parsed)
    requires p.ip + 20 <= |data|
  {
    && data[p.ip] / 16 == 4 && data[p.ip] % 16 >= 5 && p.l4 == p.ip + data[p.ip] % 16 * 4
    && Transport(data, 4, p.ip, Upper(data[p.ip + 9], p.l4, U16At(data, p.ip + 6) % 0x2000 == 0)) == Some(p)
  }

  /** Without extension headers the base header names the protocol; with them, it names
      the first of them. */
  predicate IsIpv6(data: Bytes, p: Parsed)
    requires p.ip + 40 <= |data|
  {
    && data[p.ip] / 16 == 6
    && (p.l4 == p.ip + 40 ==> Transport(data, 6, p.ip, Upper(data[p.ip + 6], p.l4, true)) == Some(p))
    && (p.l4 != p.ip + 40 ==>
          && !IsUpper(data[p.ip + 6])
          && exists first :: Transport(data, 6, p.ip, Upper(p.proto, p.l4, first)) == Some(p))
  }

  /** The tracer's view of a transport header against the TC parser's. */
  lemma SameTransport(data: Bytes, family: U8, p: Parsed, mem: Bytes, k: FlowKey, tos: U8, first: bool)
    requires p.ip <= p.l4 <= |data| && data[p.ip..] <= mem
    requires Transport(data, family, p.ip, Upper(p.proto, p.l4, first)) == Some(p)
    requires k.protocol == p.proto && k.sport == 0 && k.dport == 0 && k.icmpType == 0 && k.icmpCode == 0
    ensures var t := WithTransport(mem, k, tos, p.l4 - p.ip, first);
      && t.tos == tos
      && t.key == k.(sport := t.key.sport, dport := t.key.dport, icmpType := t.key.icmpType, icmpCode := t.key.icmpCode)
      && ((t.key.sport == p.sport && t.key.dport == p.dport && t.key.icmpType == p.icmpType
           && t.key.icmpCode == p.icmpCode && t.tcpFlags == p.tcpFlags)
          <==> p.l4 + 14 <= p.ip + |mem| || NoTransport(p))
  {
    Shown(data, p.ip, mem);
  }

  lemma {:induction false} DropIpv4(data: Bytes, p: Parsed, mem: Bytes)
    requires p.family == 4 && p.ip + 20 <= p.l4 <= |data| && IsIpv4(data, p) && data[p.ip..] <= mem
    ensures var t := DropTuple(mem, ETH_P_IP).1;
      (t == Tuple(FlowKey(0, 0, 4, p.proto, Mapped(data[p.ip + 12..p.ip + 16]), Mapped(data[p.ip + 16..p.ip + 20]),
                          p.sport, p.dport, p.icmpType, p.icmpCode), p.tcpFlags, data[p.ip + 1])
       <==> p.l4 + 14 <= p.ip + |mem| || NoTransport(p))
      && t.key.ifindex == 0 && t.key.direction == 0
  {
    Shown(data, p.ip, mem);
    TransportProto(data, 4, p.ip, Upper(data[p.ip + 9], p.l4, U16At(data, p.ip + 6) % 0x2000 == 0));
    hide WithTransport, Transport;
    var k := EMPTY_TUPLE.key.(family := 4, protocol := mem[9], src := Mapped(mem[12..16]), dst := Mapped(mem[16..20]));
    SameTransport(data, 4, p, mem, k, mem[1], U16At(mem, 6) % 0x2000 == 0);
  }

  lemma TransportProto(data: Bytes, family: U8, ip: nat, c: Chain)
    requires c.Upper?
    ensures var r := Transport(data, family, ip, c); r.Some? ==> r.value.proto == c.proto
    ensures var r := Transport(data, family, ip, c);
      r.Some? && !HasPorts(c.proto) && !IsIcmp(c.proto) ==> NoTransport(r.value)
  {
  }

  lemma {:induction false} DropIpv6(data: Bytes, p: Parsed, mem: Bytes)
    requires p.family == 6 && p.ip + 40 <= p.l4 <= |data| && IsIpv6(data, p) && data[p.ip..] <= mem
    ensures var t := DropTuple(mem, ETH_P_IPV6).1;
      (t == Tuple(FlowKey(0, 0, 6, p.proto, data[p.ip + 8..p.ip + 24], data[p.ip + 24..p.ip + 40],
                          p.sport, p.dport, p.icmpType, p.icmpCode), p.tcpFlags, TosOf(data, p))
       <==> p.proto == data[p.ip + 6] && (p.l4 + 14 <= p.ip + |mem| || NoTransport(p)))
      && t.key.ifindex == 0 && t.key.direction == 0
  {
    Shown(data, p.ip, mem);
    var k := EMPTY_TUPLE.key.(family := 6, protocol := mem[6], src := mem[8..24], dst := mem[24..40]);
    var tos := (mem[0] as nat) % 16 * 16 + mem[1] / 16;
    assert DropTuple(mem, ETH_P_IPV6).1 == WithTransport(mem, k, tos, 40, true);
    if p.l4 == p.ip + 40 {
      TransportProto(data, 6, p.ip, Upper(data[p.ip + 6], p.l4, true));
      hide WithTransport, Transport, DropTuple;
      SameTransport(data, 6, p, mem, k, tos, true);
    } else {
      var first :| Transport(data, 6, p.ip, Upper(p.proto, p.l4, first)) == Some(p);
      TransportProto(data, 6, p.ip, Upper(p.proto, p.l4, first));
      assert WithTransport(mem, k, tos, 40, true) == Tuple(k, 0, tos);
      hide WithTransport, Transport, DropTuple;
    }
  }

  /** A walk that did not move read no extension header; one that did began with one. */
  lemma NoExtensions(data: Bytes, proto: U8, off: nat, n: nat)
    requires n > 0 && off <= |data| && WalkResult(WalkHeaders(data, proto, off, n)).Upper?
    ensures var c := WalkResult(WalkHeaders(data, proto, off, n));
      if c.l4 == off then c == Upper(proto, off, true) else !IsUpper(proto)
  {
    if off + 8 <= |data| {
      if IsOption(proto) {
        if off + OptionLength(proto, data[off + 1]) <= |data| {
          WalkBound(data, data[off], off + OptionLength(proto, data[off + 1]), n - 1);
        }
      } else if proto == FRAGMENT {
        WalkBound(data, data[off], off + 8, n - 1);
      }
    }
  }

  // ---- the tracer ---------------------------------------------------------------

  /** A dropped packet: its device, what can be read from its network header on
      (None when there is none), and whether a new record fits the map. */
  datatype Drop = Drop(
    device: Option<U32>, mem: Option<Bytes>, etherType: U16, iif: U32, reason: U32, now: U64, fits: bool)

  datatype Trace = Trace(drops: map<DropKey, FlowValue>, total: U64, unparsed: U64)

  function KeyOfDrop(d: Drop): Option<DropKey> {
    if d.device == None || d.mem == None then None
    else
      var (l3len, t) := DropTuple(d.mem.value, d.etherType);
      if l3len == 0 then None
      else
        var ifindex := d.device.value;
        Some(DropKey(t.key.(ifindex := ifindex, direction := if d.iif == ifindex then INGRESS else EGRESS), d.reason))
  }

  /** What one drop does to the drop map and the counters. */
  function AfterDrop(t: Trace, attached: set<U32>, d: Drop): Trace {
    if d.device == None || d.device.value !in attached then t
    else
      var t1 := t.(total := Wrap64(t.total + 1));
      match KeyOfDrop(d)
      case None => t1.(unparsed := Wrap64(t.unparsed + 1))
      case Some(k) =>
        var (l3len, tuple) := DropTuple(d.mem.value, d.etherType);
        if k in t.drops then
          var v := t.drops[k];
          t1.(drops := t.drops[k := v.(packets := Wrap64(v.packets + 1), bytes := Wrap64(v.bytes + l3len),
                                      tcpFlags := OrFlags(v.tcpFlags, tuple.tcpFlags), lastSeen := d.now)])
        else if d.fits then
          t1.(drops := t.drops[k := FlowValue(1, l3len, d.now, d.now, tuple.tcpFlags, 0, tuple.tos)])
        else t1
  }

  function PacketsByKey(m: map<DropKey, FlowValue>): map<DropKey, nat> {
    map k | k in m :: m[k].packets
  }

  /** A drop with a tuple is one packet accounted in the sense of `Counting`, and
      one without is counted as unparsed; drops off attached devices change nothing. */
  lemma DropIsCounted(t: Trace, attached: set<U32>, d: Drop)
    requires t.total < TWO_63 && t.unparsed < TWO_63 && forall k | k in t.drops :: t.drops[k].packets < TWO_63
    ensures var t', k := AfterDrop(t, attached, d), KeyOfDrop(d);
      var observed := d.device.Some? && d.device.value in attached;
      && PacketsByKey(t'.drops) == (if observed && k.Some?
                                    then Counting.Accounted(PacketsByKey(t.drops), k.value, 1, d.fits)
                                    else PacketsByKey(t.drops))
      && t'.total == t.total + (if observed then 1 else 0)
      && t'.unparsed == t.unparsed + (if observed && k == None then 1 else 0)
  {
    hide DropTuple, KeyOfDrop, OrFlags;
  }

  /** A drop of the packet `a`, seen by the tracer on the same device. */
  predicate DropOf(d: Drop, a: Arrival, p: Parsed)
    requires p.ip <= |a.skb.data|
  {
    d.device == Some(a.skb.ifindex) && d.mem.Some? && a.skb.data[p.ip..] <= d.mem.value
  }

  /** When the tracer sees of an accounted packet all that the TC program saw: the same
      direction and family, an IPv4 total length that is not 0, the protocol in the IPv6
      base header, and its transport header. */
  predicate Alike(d: Drop, a: Arrival, p: Parsed)
    requires p.ip + 20 <= |a.skb.data| && DropOf(d, a, p)
  {
    && a.direction == (if d.iif == a.skb.ifindex then INGRESS else EGRESS)
    && d.etherType == (if p.family == 4 then ETH_P_IP else ETH_P_IPV6)
    && (p.family == 4 ==> U16At(a.skb.data, p.ip + 2) != 0)
    && (p.family == 6 ==> p.proto == a.skb.data[p.ip + 6])
    && (p.l4 + 14 <= p.ip + |d.mem.value| || NoTransport(p))
  }

  /** The drop is recorded under the packet's flow key, with its TCP flags and TOS,
      exactly if the two saw alike. */
  lemma {:induction false} DropNamesTheFlow(d: Drop, a: Arrival, p: Parsed)
    requires ParsePacket(a.skb.data, a.eth) == Some(p)
    requires p.ip <= |a.skb.data| && DropOf(d, a, p)
    ensures p.ip + 20 <= |a.skb.data|
    ensures var tuple := DropTuple(d.mem.value, d.etherType).1;
      KeyOfDrop(d) == Some(DropKey(KeyOf(a, p), d.reason)) && tuple.tcpFlags == p.tcpFlags && tuple.tos == TosOf(a.skb.data, p)
      <==> Alike(d, a, p)
  {
    ParseBounds(a.skb.data, a.eth);
    ParsedHeader(a.skb.data, a.eth, p);
    TotalLength(a.skb.data, p, d.mem.value);
    OwnDirection(a, p);
    if d.etherType == (if p.family == 4 then ETH_P_IP else ETH_P_IPV6) {
      TupleNamesTheFlow(a, p, d.mem.value, d.etherType);
      hide DropTuple, ParsePacket, IsIpv4, IsIpv6, KeyOf;
    } else {
      NotIp(d.mem.value, d.etherType);
      hide DropTuple, ParsePacket, IsIpv4, IsIpv6, KeyOf;
    }
  }

  lemma OwnDirection(a: Arrival, p: Parsed)
    requires ParsePacket(a.skb.data, a.eth) == Some(p)
    ensures KeyOf(a, p).direction == a.direction && KeyOf(a, p).ifindex == a.skb.ifindex
  {
    ParseBounds(a.skb.data, a.eth);
    hide ParsePacket;
  }

  lemma NotIp(mem: Bytes, etherType: U16)
    ensures etherType != ETH_P_IP && etherType != ETH_P_IPV6 ==> DropTuple(mem, etherType).0 == 0
  {
  }

  /** So the first drop of the packet's flow on an attached device writes a record of it
      exactly then, if the map has room. */
  lemma {:induction false} DropIsRecorded(t: Trace, attached: set<U32>, d: Drop, a: Arrival, p: Parsed)
    requires ParsePacket(a.skb.data, a.eth) == Some(p)
    requires p.ip <= |a.skb.data| && DropOf(d, a, p) && a.skb.ifindex in attached && d.fits
    requires DropKey(KeyOf(a, p), d.reason) !in t.drops
    ensures p.ip + 20 <= |a.skb.data|
    ensures var k, drops' := DropKey(KeyOf(a, p), d.reason), AfterDrop(t, attached, d).drops;
      (k in drops' && drops'[k].packets == 1 && drops'[k].tcpFlags == p.tcpFlags && drops'[k].tos == TosOf(a.skb.data, p))
      <==> Alike(d, a, p)
  {
    DropNamesTheFlow(d, a, p);
    hide DropTuple, ParsePacket, KeyOf, Alike, TosOf, DropOf;
    KeyUses(d);
  }

  lemma KeyUses(d: Drop)
    ensures KeyOfDrop(d).Some? ==> d.mem.Some?
  {
  }

  /** A packet with total length 0 is accounted, and its drop is counted as unparsed. */
  lemma {:induction false} ZeroLengthIsUnparsed(t: Trace)
    requires t.unparsed < TWO_63
    ensures var data := SmallPacket(6, 40); var d := Drop(Some(1), Some(data), ETH_P_IP, 1, 2, 0, true);
      && ParsePacket(data, false).Some? && DropOf(d, Alone(data), ParsePacket(data, false).value)
      && KeyOfDrop(d) == None
      && AfterDrop(t, {1}, d).drops == t.drops && AfterDrop(t, {1}, d).unparsed == t.unparsed + 1
  {
    var data := SmallPacket(6, 40);
    assert data[0] == 0x45 && data[2] == 0 && data[3] == 0 && data[6] == 0 && data[7] == 0 && data[9] == 6;
    Ipv4Parses(data);
    hide SmallPacket, ParsePacket, DropTuple, KeyOfDrop, AfterDrop;
    assert data[0..] == data;
    var d := Drop(Some(1), Some(data), ETH_P_IP, 1, 2, 0, true);
    NoLength(data, d);
    NoRecord(t, d);
  }

  lemma NoRecord(t: Trace, d: Drop)
    requires d.device == Some(1) && KeyOfDrop(d) == None && t.unparsed < TWO_63
    ensures AfterDrop(t, {1}, d).drops == t.drops && AfterDrop(t, {1}, d).unparsed == t.unparsed + 1
  {
    hide KeyOfDrop, DropTuple;
  }

  lemma NoLength(mem: Bytes, d: Drop)
    requires |mem| >= 20 && mem[2] == 0 && mem[3] == 0 && d.mem == Some(mem) && d.etherType == ETH_P_IP
    ensures KeyOfDrop(d) == None
  {
    hide WithTransport;
  }

  /** Four octets of a UDP header give the flow record its ports and the drop record
      none. */
  lemma {:induction false} ShortHeaderLosesPorts()
    ensures exists data, d: Drop ::
      && ParsePacket(data, false).Some? && ParsePacket(data, false).value.ip <= |data|
      && DropOf(d, Alone(data), ParsePacket(data, false).value)
      && ParsePacket(data, false).value.sport != 0
      && KeyOfDrop(d).Some? && KeyOfDrop(d).value.flow.sport == 0
  {
    var data := SmallPacket(17, 24)[3 := 24];
    assert data[0] == 0x45 && data[2] == 0 && data[3] == 24 && data[6] == 0 && data[7] == 0 && data[9] == 17 && data[20] == 1;
    Ipv4Parses(data);
    hide SmallPacket, ParsePacket;
    var d := Drop(Some(1), Some(data), ETH_P_IP, 1, 2, 0, true);
    assert data[0..] == data;
    assert DropOf(d, Alone(data), ParsePacket(data, false).value);
    assert KeyOfDrop(d).Some? && KeyOfDrop(d).value.flow.sport == 0;
  }

  class Tracer {
    var attached: set<U32>
    var drops: map<DropKey, FlowValue>
    var total: U64
    var unparsed: U64

    ghost function View(): Trace
      reads this
    {
      Trace(drops, total, unparsed)
    }

    constructor (attached: set<U32>)
      ensures View() == Trace(map[], 0, 0) && this.attached == attached
    {
      this.attached := attached;
      drops, total, unparsed := map[], 0, 0;
    }

    method KfreeSkb(d: Drop)
      modifies this`drops, this`total, this`unparsed
      ensures View() == AfterDrop(old(View()), attached, d)
    {
      hide DropTuple, OrFlags;
      if d.device == None {
        return;
      }
      var ifindex := d.device.value;
      if ifindex !in attached {
        return;
      }
      total := Wrap64(total + 1);
      var l3len, t := 0, EMPTY_TUPLE;
      if d.mem.Some? {
        l3len, t := DropParse(d.mem.value, d.etherType);
      }
      if l3len == 0 {
        unparsed := Wrap64(unparsed + 1);
        return;
      }
      var key := t.key.(ifindex := ifindex);
      key := key.(direction := if d.iif == ifindex then INGRESS else EGRESS);
      var k := DropKey(key, d.reason);
      if k in drops {
        var v := drops[k];
        v := v.(packets := Wrap64(v.packets + 1));
        v := v.(bytes := Wrap64(v.bytes + l3len));
        v := v.(tcpFlags := OrFlags(v.tcpFlags, t.tcpFlags), lastSeen := d.now);
        drops := drops[k := v];
      } else if d.fits {
        drops := drops[k := FlowValue(1, l3len, d.now, d.now, t.tcpFlags, 0, t.tos)];
      }
    }
  }
}
