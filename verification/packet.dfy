/** Packet parsing at the TC hook: framing, IPv4, IPv6 extension headers, and the
    separate packet classifier. */
module Packet {
  import opened Words
  import opened Flow

  const ETH_HLEN: nat := 14
  const ETH_P_IP: U16 := 0x0800
  const ETH_P_ARP: U16 := 0x0806
  const ETH_P_8021Q: U16 := 0x8100
  const ETH_P_IPV6: U16 := 0x86dd
  const ETH_P_8021AD: U16 := 0x88a8
  const ETH_P_QINQ: U16 := 0x9100
  const MAX_EXT_HDR: nat := 8

  /** The context a TC program sees: the linear bytes of the packet and metadata. */
  datatype Skb = Skb(data: Bytes, len: U32, gsoSegs: U32, ifindex: U32, vlanPresent: bool, vlanTci: U16)

  datatype Class = Ipv4 | Ipv6 | Arp | Other

  /** A parsed packet: offsets of the IP and transport headers, the tuple, and the
      transport header bytes every GSO segment repeats. */
  datatype Parsed = Parsed(
    family: U8, proto: U8, ip: nat, l4: nat,
    sport: U16, dport: U16, icmpType: U8, icmpCode: U8, tcpFlags: U8, l4hdr: nat)

  function U16At(data: Bytes, i: nat): U16
    requires i + 2 <= |data|
  {
    (data[i] as nat) * 256 + data[i + 1]
  }

  // ---- link layer -------------------------------------------------------------

  predicate IsOuterTag(et: U16) { et == ETH_P_8021Q || et == ETH_P_8021AD || et == ETH_P_QINQ }

  predicate IsInnerTag(et: U16) { et == ETH_P_8021Q || et == ETH_P_8021AD }

  /** The EtherType behind up to two VLAN tags and the offset it ends at. */
  function EtherType(data: Bytes): Option<(U16, nat)> {
    if |data| < 14 then None
    else if !IsOuterTag(U16At(data, 12)) then Some((U16At(data, 12), 14))
    else if |data| < 18 then None
    else if !IsInnerTag(U16At(data, 16)) then Some((U16At(data, 16), 18))
    else if |data| < 22 then None
    else Some((U16At(data, 20), 22))
  }

  /** Where the IP header starts, if the frame carries IP and its first two octets. */
  function IpOffset(data: Bytes, eth: bool): Option<nat> {
    if !eth then (if |data| >= 2 then Some(0) else None)
    else
      match EtherType(data)
      case None => None
      case Some((et, off)) => if (et == ETH_P_IP || et == ETH_P_IPV6) && off + 2 <= |data| then Some(off) else None
  }

  method FindIp(data: Bytes, eth: bool) returns (ip: Option<nat>)
    ensures ip == IpOffset(data, eth)
  {
    if 2 > |data| {
      return None;
    }
    var off := 0;
    if eth {
      if 14 > |data| {
        return None;
      }
      var et := U16At(data, 12);
      off := ETH_HLEN;
      if et == ETH_P_8021Q || et == ETH_P_8021AD || et == ETH_P_QINQ {
        if 18 > |data| {
          return None;
        }
        et := U16At(data, 16);
        off := ETH_HLEN + 4;
        if et == ETH_P_8021Q || et == ETH_P_8021AD {
          if 22 > |data| {
            return None;
          }
          et := U16At(data, 20);
          off := ETH_HLEN + 8;
        }
      }
      if et != ETH_P_IP && et != ETH_P_IPV6 {
        return None;
      }
    }
    if off + 2 > |data| {
      return None;
    }
    ip := Some(off);
  }

  /** The classifier: EtherType on Ethernet, the version nibble on L3 devices. */
  function PktClass(data: Bytes, eth: bool): Class {
    if !eth then
      if 1 > |data| then Other
      else if data[0] / 16 == 4 then Ipv4
      else if data[0] / 16 == 6 then Ipv6
      else Other
    else if 14 > |data| then Other
    else
      var outer := U16At(data, 12);
      if IsOuterTag(outer) && 18 > |data| then Other
      else
        var inner := if IsOuterTag(outer) then U16At(data, 16) else outer;
        if IsOuterTag(outer) && IsInnerTag(inner) && 22 > |data| then Other
        else
          var et := if IsOuterTag(outer) && IsInnerTag(inner) then U16At(data, 20) else inner;
          if et == ETH_P_IP then Ipv4
          else if et == ETH_P_IPV6 then Ipv6
          else if et == ETH_P_ARP then Arp
          else Other
  }

  /** The outer VLAN id: the offloaded tag, else the first tag in the packet. */
  function OuterVlan(skb: Skb): U16 {
    if skb.vlanPresent then skb.vlanTci % 0x1000
    else if 18 > |skb.data| || !IsOuterTag(U16At(skb.data, 12)) then 0
    else U16At(skb.data, 14) % 0x1000
  }

  // ---- IPv6 extension headers -------------------------------------------------

  /** What a header chain leads to: a rejected packet, or an upper-layer protocol
      and its offset; `first` is false in a fragment that has no transport header. */
  datatype Chain = Rejected | Upper(proto: U8, l4: nat, first: bool)

  predicate IsOption(proto: U8) { proto == 0 || proto == 43 || proto == 60 || proto == 51 }

  const FRAGMENT: U8 := 44
  const AUTHENTICATION: U8 := 51
  const NO_NEXT_HEADER: U8 := 59

  predicate IsUpper(proto: U8) { !IsOption(proto) && proto != FRAGMENT && proto != NO_NEXT_HEADER }

  /** Length of an extension header from its second octet: 8-octet units beyond the
      first (section 4 of RFC 8200), but 4-octet units minus 2 for AH (section 2.2
      of RFC 4302). */
  function OptionLength(proto: U8, len: U8): (n: nat)
    ensures 8 <= n <= 2048
  {
    if proto == AUTHENTICATION then (len + 2) * 4 else (len + 1) * 8
  }

  /** The chain of headers from `proto` at offset `off`, however long. */
  function HeaderChain(data: Bytes, proto: U8, off: nat): Chain
    decreases |data| - off
  {
    if IsOption(proto) then
      if off + 8 > |data| || off + OptionLength(proto, data[off + 1]) > |data| || data[off] == 0 then Rejected
      else HeaderChain(data, data[off], off + OptionLength(proto, data[off + 1]))
    else if proto == FRAGMENT then
      if off + 8 > |data| then Rejected
      else if U16At(data, off + 2) / 8 != 0 then Upper(data[off], off + 8, false)
      else HeaderChain(data, data[off], off + 8)
    else if proto == NO_NEXT_HEADER then Rejected
    else Upper(proto, off, true)
  }

  /** How many extension headers the chain gets through. */
  function Headers(data: Bytes, proto: U8, off: nat): nat
    decreases |data| - off
  {
    if IsOption(proto) then
      if off + 8 > |data| || off + OptionLength(proto, data[off + 1]) > |data| || data[off] == 0 then 0
      else 1 + Headers(data, data[off], off + OptionLength(proto, data[off + 1]))
    else if proto == FRAGMENT then
      if off + 8 > |data| then 0
      else if U16At(data, off + 2) / 8 != 0 then 1
      else 1 + Headers(data, data[off], off + 8)
    else 0
  }

  /** A walk that looks at no more than `n` headers, and where it stands then. */
  datatype Walk = Stopped(chain: Chain) | Running(proto: U8, l4: nat)

  function WalkHeaders(data: Bytes, proto: U8, off: nat, n: nat): Walk
    decreases n
  {
    if n == 0 then Running(proto, off)
    else if IsOption(proto) then
      if off + 8 > |data| || off + OptionLength(proto, data[off + 1]) > |data| || data[off] == 0 then Stopped(Rejected)
      else WalkHeaders(data, data[off], off + OptionLength(proto, data[off + 1]), n - 1)
    else if proto == FRAGMENT then
      if off + 8 > |data| then Stopped(Rejected)
      else if U16At(data, off + 2) / 8 != 0 then Stopped(Upper(data[off], off + 8, false))
      else WalkHeaders(data, data[off], off + 8, n - 1)
    else if proto == NO_NEXT_HEADER then Stopped(Rejected)
    else Stopped(Upper(proto, off, true))
  }

  /** What the parser makes of the walk: still running after the last step, it
      takes whatever the last header named for the transport protocol. */
  function WalkResult(w: Walk): Chain {
    match w
    case Stopped(c) => c
    case Running(proto, l4) => Upper(proto, l4, true)
  }

  /** Step over one extension header. A next header of 0 stands for a fault. */
  method ExtNext(data: Bytes, off: nat, ah: bool) returns (nh: U8, l4: nat)
    ensures l4 >= off
    ensures nh != 0 ==> off + 8 <= l4 <= |data|
    ensures nh != 0 ==> nh == data[off] && l4 == off + OptionLength(if ah then AUTHENTICATION else 0, data[off + 1])
    ensures nh == 0 ==>
      (off + 8 > |data| || data[off] == 0
       || off + OptionLength(if ah then AUTHENTICATION else 0, data[off + 1]) > |data|)
  {
    if off + 8 > |data| {
      return 0, off;
    }
    nh := data[off];
    var len := data[off + 1];
    var hlen := if ah then ((len as nat) + 2) * 4 else ((len as nat) + 1) * 8;
    l4 := off + hlen;
    if l4 > |data| {
      nh := 0;
    }
  }

  lemma LengthByKind(proto: U8)
    ensures forall len: U8 ::
      OptionLength(proto, len) == OptionLength(if proto == 51 then AUTHENTICATION else 0, len)
  {
  }

  lemma WalkOption(data: Bytes, proto: U8, off: nat, n: nat)
    requires n > 0 && IsOption(proto)
    ensures WalkHeaders(data, proto, off, n)
         == if off + 8 > |data| || off + OptionLength(proto, data[off + 1]) > |data| || data[off] == 0
            then Stopped(Rejected)
            else WalkHeaders(data, data[off], off + OptionLength(proto, data[off + 1]), n - 1)
  {
    hide OptionLength;
  }

  lemma WalkFragment(data: Bytes, off: nat, n: nat)
    requires n > 0
    ensures WalkHeaders(data, FRAGMENT, off, n)
         == if off + 8 > |data| then Stopped(Rejected)
            else if U16At(data, off + 2) / 8 != 0 then Stopped(Upper(data[off], off + 8, false))
            else WalkHeaders(data, data[off], off + 8, n - 1)
  {
    hide U16At;
  }

  lemma WalkEnds(data: Bytes, proto: U8, off: nat, n: nat)
    ensures n == 0 ==> WalkHeaders(data, proto, off, n) == Running(proto, off)
    ensures n > 0 && proto == NO_NEXT_HEADER ==> WalkHeaders(data, proto, off, n) == Stopped(Rejected)
    ensures n > 0 && IsUpper(proto) ==> WalkHeaders(data, proto, off, n) == Stopped(Upper(proto, off, true))
  {
  }

  /** The bounded walk over the extension headers. */
  method SkipExtensions(data: Bytes, nextHeader: U8, start: nat) returns (c: Chain)
    requires start <= |data|
    ensures c == WalkResult(WalkHeaders(data, nextHeader, start, MAX_EXT_HDR))
  {
    hide OptionLength, U16At, WalkHeaders;
    var proto, l4 := nextHeader, start;
    for iter := 0 to MAX_EXT_HDR
      invariant start + 8 * iter <= l4 <= |data|
      invariant WalkHeaders(data, nextHeader, start, MAX_EXT_HDR) == WalkHeaders(data, proto, l4, MAX_EXT_HDR - iter)
    {
      if proto == 0 || proto == 43 || proto == 60 || proto == 51 {
        WalkOption(data, proto, l4, MAX_EXT_HDR - iter);
        var nh, next := ExtNext(data, l4, proto == 51);
        LengthByKind(proto);
        if nh == 0 {
          return Rejected;
        }
        proto, l4 := nh, next;
      } else if proto == FRAGMENT {
        WalkFragment(data, l4, MAX_EXT_HDR - iter);
        if l4 + 8 > |data| {
          return Rejected;
        }
        var fragOff := U16At(data, l4 + 2) / 8;
        proto := data[l4];
        l4 := l4 + 8;
        if fragOff != 0 {
          return Upper(proto, l4, false);
        }
      } else if proto == NO_NEXT_HEADER {
        WalkEnds(data, proto, l4, MAX_EXT_HDR - iter);
        return Rejected;
      } else {
        WalkEnds(data, proto, l4, MAX_EXT_HDR - iter);
        return Upper(proto, l4, true);
      }
    }
    WalkEnds(data, proto, l4, 0);
    c := Upper(proto, l4, true);
  }

  /** A walk stands on the chain: following the chain from there ends the same. */
  lemma {:induction false} WalkOnChain(data: Bytes, proto: U8, off: nat, n: nat)
    ensures HeaderChain(data, proto, off) == match WalkHeaders(data, proto, off, n)
      case Stopped(c) => c
      case Running(p, o) => HeaderChain(data, p, o)
    decreases n
  {
    hide OptionLength;
    if n > 0 && off + 8 <= |data| {
      if IsOption(proto) {
        WalkOnChain(data, data[off], off + OptionLength(proto, data[off + 1]), n - 1);
      } else if proto == FRAGMENT {
        WalkOnChain(data, data[off], off + 8, n - 1);
      }
    }
  }

  /** Every extension header moves the chain on by 8 to 2048 octets, never past the
      end, and a chain that starts at one gets through it before an upper layer. */
  lemma {:induction false} ChainAdvances(data: Bytes, proto: U8, off: nat)
    ensures var c := HeaderChain(data, proto, off); c.Upper? ==>
      off + 8 * Headers(data, proto, off) <= c.l4 <= off + 2048 * Headers(data, proto, off)
      && (c.l4 <= |data| || c.l4 == off)
    ensures !IsUpper(proto) && HeaderChain(data, proto, off).Upper? ==> Headers(data, proto, off) > 0
    decreases |data| - off
  {
    hide OptionLength;
    if off + 8 <= |data| {
      if IsOption(proto) {
        if off + OptionLength(proto, data[off + 1]) <= |data| {
          ChainAdvances(data, data[off], off + OptionLength(proto, data[off + 1]));
        }
      } else if proto == FRAGMENT {
        ChainAdvances(data, data[off], off + 8);
      }
    }
  }

  /** A bounded walk ends within its steps, unless the chain goes on: what is left of
      the chain then is what the walk has not looked at. */
  lemma {:induction false} WalkCounts(data: Bytes, proto: U8, off: nat, n: nat)
    ensures match WalkHeaders(data, proto, off, n)
      case Stopped(c) => Headers(data, proto, off) < n || (Headers(data, proto, off) == n > 0 && c.Upper?)
      case Running(p, l4) => Headers(data, proto, off) == n + Headers(data, p, l4)
    decreases n
  {
    hide OptionLength, U16At;
    if n > 0 && off + 8 <= |data| {
      if IsOption(proto) {
        if off + OptionLength(proto, data[off + 1]) <= |data| {
          WalkCounts(data, data[off], off + OptionLength(proto, data[off + 1]), n - 1);
        }
      } else if proto == FRAGMENT {
        WalkCounts(data, data[off], off + 8, n - 1);
      }
    }
  }

  /** A chain that gets through no extension header is at an upper layer, or rejected. */
  lemma UpperEnds(data: Bytes, proto: U8, off: nat)
    ensures IsUpper(proto) ==> HeaderChain(data, proto, off) == Upper(proto, off, true) && Headers(data, proto, off) == 0
    ensures !IsUpper(proto) && Headers(data, proto, off) == 0 ==> HeaderChain(data, proto, off) == Rejected
  {
    hide OptionLength, U16At;
  }

  /** The bounded walk gives the chain's own answer exactly for chains of at most seven
      extension headers, and of eight that lead to an upper layer. */
  lemma WalkIsChain(data: Bytes, proto: U8, off: nat)
    ensures WalkResult(WalkHeaders(data, proto, off, MAX_EXT_HDR)) == HeaderChain(data, proto, off) <==>
      || Headers(data, proto, off) <= 7
      || (Headers(data, proto, off) == 8 && HeaderChain(data, proto, off).Upper?)
  {
    hide WalkHeaders, HeaderChain, Headers;
    WalkOnChain(data, proto, off, MAX_EXT_HDR);
    WalkCounts(data, proto, off, MAX_EXT_HDR);
    var w := WalkHeaders(data, proto, off, MAX_EXT_HDR);
    if w.Running? {
      ChainAdvances(data, w.proto, w.l4);
      UpperEnds(data, w.proto, w.l4);
    }
  }

  /** In particular it does for every chain of at most seven extension headers. */
  lemma ShortChainAgrees(data: Bytes, proto: U8, off: nat)
    requires Headers(data, proto, off) <= 7
    ensures WalkResult(WalkHeaders(data, proto, off, MAX_EXT_HDR)) == HeaderChain(data, proto, off)
  {
    WalkIsChain(data, proto, off);
  }

  // ---- the whole packet -------------------------------------------------------

  /** The IP header at `ip`: family, and what follows it. */
  function IpHeader(data: Bytes, ip: nat): Option<(U8, Chain)>
    requires ip + 2 <= |data|
  {
    if data[ip] / 16 == 4 then
      var ihl := data[ip] % 16 * 4;
      if ip + 20 > |data| || ihl < 20 || ip + ihl > |data| then None
      else Some((4, Upper(data[ip + 9], ip + ihl, U16At(data, ip + 6) % 0x2000 == 0)))
    else if data[ip] / 16 == 6 then
      if ip + 40 > |data| then None
      else
        match WalkResult(WalkHeaders(data, data[ip + 6], ip + 40, MAX_EXT_HDR))
        case Rejected => None
        case c => Some((6, c))
    else None
  }

  /** Transport fields of a packet whose transport header is `proto` at `l4`. */
  function Transport(data: Bytes, family: U8, ip: nat, c: Chain): Option<Parsed>
    requires c.Upper?
  {
    var l4 := c.l4;
    var bare := Parsed(family, c.proto, ip, l4, 0, 0, 0, 0, 0, 0);
    if !c.first then Some(bare)
    else if c.proto == 6 then
      if l4 + 14 > |data| then None
      else Some(bare.(sport := U16At(data, l4), dport := U16At(data, l4 + 2), tcpFlags := data[l4 + 13],
                      l4hdr := data[l4 + 12] / 16 * 4))
    else if c.proto == 17 then
      if l4 + 4 > |data| then None
      else Some(bare.(sport := U16At(data, l4), dport := U16At(data, l4 + 2), l4hdr := 8))
    else if c.proto == 1 || c.proto == 58 then
      if l4 + 2 > |data| then None
      else Some(bare.(icmpType := data[l4], icmpCode := data[l4 + 1]))
    else Some(bare)
  }

  function ParsePacket(data: Bytes, eth: bool): Option<Parsed> {
    match IpOffset(data, eth)
    case None => None
    case Some(ip) =>
      match IpHeader(data, ip)
      case None => None
      case Some((family, c)) => Transport(data, family, ip, c)
  }

  /** The parser of the TC program, up to where the packet is accounted. */
  method Parse(data: Bytes, eth: bool) returns (p: Option<Parsed>)
    ensures p == ParsePacket(data, eth)
  {
    hide WalkHeaders, WalkResult, OptionLength;
    var start := FindIp(data, eth);
    if start == None {
      return None;
    }
    var ip := start.value;
    var family: U8, proto: U8, l4: nat, haveL4 := 0, 0, 0, false;
    if data[ip] / 16 == 4 {
      if ip + 20 > |data| {
        return None;
      }
      family := 4;
      var ihl := data[ip] % 16 * 4;
      if ihl < 20 || ip + ihl > |data| {
        return None;
      }
      proto := data[ip + 9];
      l4 := ip + ihl;
      var fragOff := U16At(data, ip + 6) % 0x2000;
      haveL4 := fragOff == 0;
    } else if data[ip] / 16 == 6 {
      if ip + 40 > |data| {
        return None;
      }
      family := 6;
      var c := SkipExtensions(data, data[ip + 6], ip + 40);
      if c.Rejected? {
        return None;
      }
      proto, l4, haveL4 := c.proto, c.l4, c.first;
    } else {
      return None;
    }
    var sport: U16, dport: U16, icmpType: U8, icmpCode: U8, tcpf: U8, l4hdr: nat := 0, 0, 0, 0, 0, 0;
    if haveL4 {
      if proto == 6 {
        if l4 + 14 > |data| {
          return None;
        }
        sport := U16At(data, l4);
        dport := U16At(data, l4 + 2);
        tcpf := data[l4 + 13];
        l4hdr := data[l4 + 12] / 16 * 4;
      } else if proto == 17 {
        if l4 + 4 > |data| {
          return None;
        }
        sport := U16At(data, l4);
        dport := U16At(data, l4 + 2);
        l4hdr := 8;
      } else if proto == 1 || proto == 58 {
        if l4 + 2 > |data| {
          return None;
        }
        icmpType := data[l4];
        icmpCode := data[l4 + 1];
      }
    }
    p := Some(Parsed(family, proto, ip, l4, sport, dport, icmpType, icmpCode, tcpf, l4hdr));
  }

  /** An IPv4 packet of `n` octets with protocol `proto` and total length 0. */
  function SmallPacket(proto: U8, n: nat): Bytes {
    seq(n, i => if i == 0 then 0x45 else if i == 9 then proto else if i == 20 then 1 else 0)
  }

  /** An IPv4 packet without options parses to its protocol and ports. */
  lemma {:induction false} Ipv4Parses(data: Bytes)
    requires |data| >= 24 && data[0] == 0x45 && data[6] == 0 && data[7] == 0
    requires data[9] == 17 || (data[9] == 6 && |data| >= 34)
    ensures ParsePacket(data, false).Some?
    ensures var p := ParsePacket(data, false).value;
      p.ip == 0 && p.family == 4 && p.proto == data[9] && p.l4 == 20 && p.sport == U16At(data, 20)
      && p.l4hdr == if data[9] == 17 then 8 else data[32] / 16 * 4
  {
    hide WalkHeaders, WalkResult;
    assert U16At(data, 6) == 0;
  }

  /** An IPv6 packet of a base header and eight empty Destination Options headers, the
      last one naming `last`. */
  function LongPacket(last: U8): Bytes {
    seq(104, i =>
      if i == 0 then 0x60 else if i == 6 then 60
      else if i < 40 then 0 else if i == 96 then last else if i % 8 == 0 then 60 else 0)
  }

  lemma {:induction false} LongPacketWalk(last: U8, j: nat)
    requires last != 0 && j <= 8
    ensures WalkHeaders(LongPacket(last), if j == 8 then last else 60, 40 + 8 * j, 8 - j) == Running(last, 104)
    decreases 8 - j
  {
    if j < 8 {
      var data := LongPacket(last);
      assert data[40 + 8 * j] == (if j == 7 then last else 60) && data[40 + 8 * j + 1] == 0 && |data| == 104;
      LongPacketWalk(last, j + 1);
      hide LongPacket, WalkHeaders;
      WalkOption(data, 60, 40 + 8 * j, 8 - j);
    }
  }

  /** Behind eight extension headers "no next header" goes unnoticed: the parser
      accounts the packet as a flow of protocol 59 where the chain says to reject. */
  lemma {:induction false} LongChainDiffers()
    ensures exists data ::
      && ParsePacket(data, false).Some? && ParsePacket(data, false).value.proto == NO_NEXT_HEADER
      && |data| >= 40 && HeaderChain(data, data[6], 40) == Rejected
  {
    var data := LongPacket(NO_NEXT_HEADER);
    assert |data| == 104 && data[0] == 0x60 && data[6] == 60;
    hide LongPacket, WalkHeaders, ParsePacket, HeaderChain, Headers;
    LongPacketWalk(NO_NEXT_HEADER, 0);
    WalkOnChain(data, 60, 40, MAX_EXT_HDR);
    NoNextHeader(data, 104);
    Unnoticed(data);
  }

  lemma NoNextHeader(data: Bytes, off: nat)
    ensures HeaderChain(data, NO_NEXT_HEADER, off) == Rejected
  {
  }

  lemma Unnoticed(data: Bytes)
    requires |data| >= 40 && data[0] / 16 == 6
    requires WalkHeaders(data, data[6], 40, MAX_EXT_HDR).Running? && WalkHeaders(data, data[6], 40, MAX_EXT_HDR).proto == NO_NEXT_HEADER
    ensures ParsePacket(data, false).Some? && ParsePacket(data, false).value.proto == NO_NEXT_HEADER
  {
    hide WalkHeaders;
  }

  /** Largest IP header chain: a base header and eight extension headers. */
  const MAX_CHAIN: nat := 40 + MAX_EXT_HDR * 2048

  lemma {:induction false} WalkBound(data: Bytes, proto: U8, off: nat, n: nat)
    requires off <= |data|
    ensures var c := WalkResult(WalkHeaders(data, proto, off, n)); c.Upper? ==> off <= c.l4 <= off + 2048 * n && c.l4 <= |data|
    decreases n
  {
    hide OptionLength;
    if n > 0 && off + 8 <= |data| {
      if IsOption(proto) {
        if off + OptionLength(proto, data[off + 1]) <= |data| {
          WalkBound(data, data[off], off + OptionLength(proto, data[off + 1]), n - 1);
        }
      } else if proto == FRAGMENT {
        WalkBound(data, data[off], off + 8, n - 1);
      }
    }
  }

  /** Every offset a successful parse reports lies inside the packet. */
  lemma {:induction false} ParseBounds(data: Bytes, eth: bool)
    ensures var r := ParsePacket(data, eth); r.Some? ==>
      var p := r.value;
      && (p.family == 4 || p.family == 6)
      && p.ip + (if p.family == 4 then 20 else 40) <= p.l4 <= |data|
      && p.l4 - p.ip <= MAX_CHAIN && p.l4hdr <= 60
  {
    hide WalkHeaders, WalkResult;
    var start := IpOffset(data, eth);
    if start.Some? {
      var ip := start.value;
      if data[ip] / 16 == 6 && ip + 40 <= |data| {
        WalkBound(data, data[ip + 6], ip + 40, MAX_EXT_HDR);
      }
    }
  }

  /** Every packet the flow parser accounts is IPv4 or IPv6 to the classifier. The
      two agree on which exactly on L3 devices, and on Ethernet when the EtherType
      matches the version nibble. */
  lemma ParsersAgree(data: Bytes, eth: bool)
    ensures var r := ParsePacket(data, eth); r.Some? ==>
      && (PktClass(data, eth) == Ipv4 || PktClass(data, eth) == Ipv6)
      && (PktClass(data, eth) == (if r.value.family == 4 then Ipv4 else Ipv6)
          <==> (!eth || EtherType(data).value.0 == (if r.value.family == 4 then ETH_P_IP else ETH_P_IPV6)))
  {
    hide WalkHeaders, WalkResult;
  }

  /** The classifier goes by the EtherType behind the VLAN tags, as the flow parser
      does; what it cannot read is neither IP nor ARP. Without a link layer it goes by
      the first octet's upper four bits. */
  lemma ClassIsTheEtherType(data: Bytes)
    ensures var et, c := EtherType(data), PktClass(data, true);
      && (c == Ipv4 <==> et.Some? && et.value.0 == ETH_P_IP)
      && (c == Ipv6 <==> et.Some? && et.value.0 == ETH_P_IPV6)
      && (c == Arp <==> et.Some? && et.value.0 == ETH_P_ARP)
    ensures var c := PktClass(data, false);
      && (c == Ipv4 <==> data != [] && 0x40 <= data[0] < 0x50)
      && (c == Ipv6 <==> data != [] && 0x60 <= data[0] < 0x70) && c != Arp
  {
  }

  /** The VLAN id of an accounted frame is the offloaded tag's, or that of the first
      tag the parser skips to reach the IP header, or 0 when it skips none. */
  lemma VlanIsTheSkippedTag(skb: Skb)
    ensures var r := ParsePacket(skb.data, true); r.Some? ==>
      && (r.value.ip == 14 || r.value.ip == 18 || r.value.ip == 22)
      && OuterVlan(skb) == if skb.vlanPresent then skb.vlanTci % 0x1000
                           else if r.value.ip == 14 then 0 else U16At(skb.data, 14) % 0x1000
  {
    hide WalkHeaders, WalkResult;
  }

  /** A frame whose EtherType says IPv4 around an IPv6 header: accounted as an IPv6
      flow, counted in the IPv4 class. */
  lemma ClassesCanDiffer()
    ensures exists data ::
      ParsePacket(data, true).Some? && ParsePacket(data, true).value.family == 6 && PktClass(data, true) == Ipv4
  {
    var data: Bytes := seq(54, i => if i == 12 then 0x08 else if i == 14 then 0x60 else if i == 20 then 89 else 0);
    assert U16At(data, 12) == ETH_P_IP;
    assert EtherType(data) == Some((ETH_P_IP, 14));
    assert data[14] / 16 == 6 && data[20] == 89;
    assert WalkHeaders(data, 89, 54, MAX_EXT_HDR) == Stopped(Upper(89, 54, true));
    assert ParsePacket(data, true).Some?;
  }
}
