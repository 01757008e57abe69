/** Whole packets written out from their fields, and the flow the dataplane makes of
    them. */
module WirePackets {
  import opened Words
  import opened Flow
  import opened Packet
  import opened Dataplane
  import opened WireFormat
  import Drops

  // ---- link layer ------------------------------------------------------------------

  /** A VLAN tag: its protocol identifier, and priority, DEI and VLAN id. */
  datatype Tag = Tag(tpid: U16, priority: nat, vlan: nat)

  /** A frame without link layer, or an Ethernet frame with up to two tags. */
  datatype Framing = Bare | Ethernet(macs: Bytes, tags: seq<Tag>)

  predicate WellFramed(f: Framing) {
    f.Ethernet? ==>
      && |f.macs| == 12 && |f.tags| <= 2
      && (forall t | t in f.tags :: t.priority < 16 && t.vlan < 4096)
      && (|f.tags| > 0 ==> f.tags[0].tpid == 0x8100 || f.tags[0].tpid == 0x88a8 || f.tags[0].tpid == 0x9100)
      && (|f.tags| > 1 ==> f.tags[1].tpid == 0x8100 || f.tags[1].tpid == 0x88a8)
  }

  function TagBytes(t: Tag): (b: Bytes)
    requires t.priority < 16 && t.vlan < 4096
    ensures |b| == 4
  {
    Word(t.tpid) + Word(t.priority * 4096 + t.vlan)
  }

  function TagsBytes(tags: seq<Tag>): (b: Bytes)
    requires forall t | t in tags :: t.priority < 16 && t.vlan < 4096
    ensures |b| == 4 * |tags|
  {
    if |tags| == 0 then [] else TagBytes(tags[0]) + TagsBytes(tags[1..])
  }

  function FrameBytes(f: Framing, etherType: U16): (b: Bytes)
    requires WellFramed(f)
    ensures |b| == FrameSize(f)
  {
    if f.Bare? then [] else f.macs + (TagsBytes(f.tags) + Word(etherType))
  }

  function FrameSize(f: Framing): nat { if f.Bare? then 0 else 14 + 4 * |f.tags| }

  lemma FirstTag(tags: seq<Tag>)
    requires |tags| > 0 && forall t | t in tags :: t.priority < 16 && t.vlan < 4096
    ensures tags[0].priority < 16 && tags[0].vlan < 4096
    ensures forall t | t in tags[1..] :: t.priority < 16 && t.vlan < 4096
    ensures TagsBytes(tags) == TagBytes(tags[0]) + TagsBytes(tags[1..])
  {
    hide TagBytes;
    assert tags[0] in tags && forall t | t in tags[1..] :: t in tags;
  }

  lemma TagsIn(data: Bytes, off: nat, tags: seq<Tag>)
    requires (forall t | t in tags :: t.priority < 16 && t.vlan < 4096) && At(data, off, TagsBytes(tags))
    ensures |tags| > 0 ==>
      && off + 4 <= |data| && U16At(data, off) == tags[0].tpid
      && U16At(data, off + 2) == tags[0].priority * 4096 + tags[0].vlan && tags[0].vlan < 4096
    ensures |tags| > 1 ==> off + 8 <= |data| && U16At(data, off + 4) == tags[1].tpid
  {
    hide *;
    if |tags| > 0 {
      FirstTag(tags);
      AtBoth(data, off, TagBytes(tags[0]), TagsBytes(tags[1..]));
      TagAt(data, off, tags[0]);
      if |tags| > 1 {
        FirstTag(tags[1..]);
        AtBoth(data, off + 4, TagBytes(tags[1]), TagsBytes(tags[1..][1..]));
        TagAt(data, off + 4, tags[1]);
      }
    }
  }

  lemma FrameParts(f: Framing, etherType: U16)
    requires WellFramed(f) && f.Ethernet?
    ensures FrameBytes(f, etherType) == f.macs + (TagsBytes(f.tags) + Word(etherType)) && |f.macs| == 12
    ensures forall t | t in f.tags :: t.priority < 16 && t.vlan < 4096
  {
  }

  /** The 16-bit fields from octet 12 on: the tags', then the EtherType. */
  lemma TagsAt(data: Bytes, f: Framing, etherType: U16)
    requires WellFramed(f) && f.Ethernet? && At(data, 0, FrameBytes(f, etherType))
    ensures 14 + 4 * |f.tags| <= |data| && U16At(data, 12 + 4 * |f.tags|) == etherType
    ensures |f.tags| > 0 ==>
      && U16At(data, 12) == f.tags[0].tpid
      && U16At(data, 14) == f.tags[0].priority * 4096 + f.tags[0].vlan && f.tags[0].vlan < 4096
    ensures |f.tags| > 1 ==> U16At(data, 16) == f.tags[1].tpid
  {
    hide *;
    FrameParts(f, etherType);
    AtBoth(data, 0, f.macs, TagsBytes(f.tags) + Word(etherType));
    AtBoth(data, 12, TagsBytes(f.tags), Word(etherType));
    WordAt(data, 12 + 4 * |f.tags|, etherType);
    TagsIn(data, 12, f.tags);
  }

  lemma IdOf(priority: nat, vlan: nat)
    ensures vlan < 4096 ==> (priority * 4096 + vlan) % 4096 == vlan
  {
  }

  /** The parser finds what is behind the tags, the classifier names it, and the VLAN id
      is the first tag's. */
  lemma FrameReads(data: Bytes, f: Framing, etherType: U16)
    requires WellFramed(f) && f.Ethernet? && At(data, 0, FrameBytes(f, etherType))
    requires etherType == 0x0800 || etherType == 0x86dd || etherType == 0x0806
    ensures FrameSize(f) <= |data| && EtherType(data) == Some((etherType, FrameSize(f)))
    ensures PktClass(data, true) == if etherType == 0x0800 then Ipv4 else if etherType == 0x86dd then Ipv6 else Arp
    ensures forall skb: Skb | skb.data == data ::
      OuterVlan(skb) == if skb.vlanPresent then skb.vlanTci % 4096 else if f.tags == [] then 0 else f.tags[0].vlan
  {
    TagsAt(data, f, etherType);
    if f.tags != [] {
      IdOf(f.tags[0].priority, f.tags[0].vlan);
      assert U16At(data, 14) % 0x1000 == f.tags[0].vlan;
    }
    hide U16At, At, FrameBytes;
    ClassIsTheEtherType(data);
    assert EtherType(data) == Some((etherType, FrameSize(f)));
    hide PktClass, EtherType;
  }

  lemma TagAt(data: Bytes, off: nat, t: Tag)
    requires t.priority < 16 && t.vlan < 4096 && At(data, off, TagBytes(t))
    ensures off + 4 <= |data| && U16At(data, off) == t.tpid && U16At(data, off + 2) == t.priority * 4096 + t.vlan
  {
    AtBoth(data, off, Word(t.tpid), Word(t.priority * 4096 + t.vlan));
    WordAt(data, off, t.tpid);
    WordAt(data, off + 2, t.priority * 4096 + t.vlan);
  }

  // ---- IP ----------------------------------------------------------------------------

  datatype Ip =
    | V4(tos: U8, total: U16, id: Bytes, flags: nat, fragment: nat, ttl: U8, checksum: Bytes, src: Bytes, dst: Bytes,
         options: Bytes)
    | V6(trafficClass: U8, flowLabel: Bytes, payload: U16, hops: U8, src: Bytes, dst: Bytes, exts: seq<Ext>)

  /** `flowLabel` is the flow label, its first octet below 16. */
  predicate WellBuilt(ip: Ip, proto: U8) {
    match ip
    case V4(_, _, id, flags, fragment, _, checksum, src, dst, options) =>
      && |id| == 2 && flags < 8 && fragment < 0x2000 && |checksum| == 2 && |src| == 4 && |dst| == 4
      && |options| % 4 == 0 && |options| <= 40
    case V6(_, flowLabel, _, _, src, dst, exts) =>
      && |flowLabel| == 3 && flowLabel[0] < 16 && |src| == 16 && |dst| == 16
      && |exts| <= 8 && WellFormed(exts, proto)
  }

  function IpBytes(ip: Ip, proto: U8): Bytes
    requires WellBuilt(ip, proto)
  {
    match ip
    case V4(tos, total, id, flags, fragment, ttl, checksum, src, dst, options) =>
      [0x45 + |options| / 4, tos] + Word(total) + id + Word(flags * 0x2000 + fragment) + [ttl, proto] + checksum
      + src + dst + options
    case V6(trafficClass, flowLabel, payload, hops, src, dst, exts) =>
      [0x60 + trafficClass / 16, trafficClass % 16 * 16 + flowLabel[0], flowLabel[1], flowLabel[2]] + Word(payload)
      + [FirstNumber(exts, proto), hops] + src + dst + ExtsBytes(exts, proto)
  }

  function IpSize(ip: Ip): nat { if ip.V4? then 20 + |ip.options| else 40 + ExtsSize(ip.exts) }

  /** A transport header follows: not in a fragment other than the first. */
  predicate IsFirst(ip: Ip) { if ip.V4? then ip.fragment == 0 else !EndsLater(ip.exts) }

  function FamilyOf(ip: Ip): U8 { if ip.V4? then 4 else 6 }

  /** The fixed octets of an IPv4 header. */
  lemma V4Layout(ip: Ip, proto: U8)
    requires ip.V4? && WellBuilt(ip, proto)
    ensures var b := IpBytes(ip, proto);
      && |b| == 20 + |ip.options|
      && b[0] == 0x45 + |ip.options| / 4 && b[1] == ip.tos
      && b[2] == ip.total / 256 && b[3] == ip.total % 256
      && b[6] == (ip.flags * 0x2000 + ip.fragment) / 256 && b[7] == (ip.flags * 0x2000 + ip.fragment) % 256
      && b[9] == proto && b[12..16] == ip.src && b[16..20] == ip.dst
      && 0x45 <= b[0] <= 0x4f
  {
  }

  /** Those of an IPv6 header. */
  lemma V6Layout(ip: Ip, proto: U8)
    requires ip.V6? && WellBuilt(ip, proto)
    ensures var b := IpBytes(ip, proto);
      && |b| >= 40
      && b[0] == 0x60 + ip.trafficClass / 16 && b[1] == ip.trafficClass % 16 * 16 + ip.flowLabel[0]
      && b[4] == ip.payload / 256 && b[5] == ip.payload % 256
      && b[6] == FirstNumber(ip.exts, proto) && b[8..24] == ip.src && b[24..40] == ip.dst
      && b[40..] == ExtsBytes(ip.exts, proto)
  {
  }

  lemma PartAt(data: Bytes, off: nat, x: Bytes, i: nat, j: nat)
    requires At(data, off, x) && i <= j <= |x|
    ensures off + j <= |data| && data[off + i..off + j] == x[i..j]
    ensures At(data, off + i, x[i..j])
  {
    assert forall k | 0 <= k < j - i :: x[i..j][k] == x[i + k] && data[off + (i + k)] == x[i + k];
  }

  /** The IP header reads as written: the family, and the protocol and transport offset
      behind options or extension headers. */
  lemma IpReads(data: Bytes, off: nat, ip: Ip, proto: U8)
    requires WellBuilt(ip, proto) && At(data, off, IpBytes(ip, proto))
    ensures off + 20 <= off + IpSize(ip) <= |data|
    ensures IpHeader(data, off) == Some((FamilyOf(ip), Upper(proto, off + IpSize(ip), IsFirst(ip))))
  {
    if ip.V4? {
      V4Reads(data, off, ip, proto);
    } else {
      V6Reads(data, off, ip, proto);
    }
  }

  /** Single octets of a header. */
  lemma OctetAt(data: Bytes, off: nat, x: Bytes, i: nat)
    requires At(data, off, x) && i < |x|
    ensures off + |x| <= |data| && data[off + i] == x[i]
  {
  }

  lemma NibbleOf(words: nat)
    requires words <= 10
    ensures (0x45 + words) / 16 == 4 && (0x45 + words) % 16 * 4 == 20 + 4 * words
  {
  }

  lemma FragmentOf(flags: nat, fragment: nat)
    requires flags < 8 && fragment < 0x2000
    ensures var v := flags * 0x2000 + fragment; v / 256 * 256 + v % 256 == v && v % 0x2000 == fragment
  {
  }

  lemma OptionWords(n: nat)
    requires n % 4 == 0 && n <= 40
    ensures n / 4 <= 10 && 4 * (n / 4) == n
  {
  }

  lemma V4Reads(data: Bytes, off: nat, ip: Ip, proto: U8)
    requires ip.V4? && WellBuilt(ip, proto) && At(data, off, IpBytes(ip, proto))
    ensures off + 20 + |ip.options| <= |data|
    ensures IpHeader(data, off) == Some((4, Upper(proto, off + 20 + |ip.options|, ip.fragment == 0)))
  {
    var b := IpBytes(ip, proto);
    V4Layout(ip, proto);
    assert ip.flags < 8 && ip.fragment < 0x2000 && |ip.options| % 4 == 0 && |ip.options| <= 40;
    hide *;
    OctetAt(data, off, b, 0);
    OctetAt(data, off, b, 6);
    OctetAt(data, off, b, 7);
    OctetAt(data, off, b, 9);
    OptionWords(|ip.options|);
    NibbleOf(|ip.options| / 4);
    FragmentOf(ip.flags, ip.fragment);
    V4Header(data, off, |ip.options|, proto, ip.flags * 0x2000 + ip.fragment);
  }

  lemma V4Header(data: Bytes, off: nat, options: nat, proto: U8, field: nat)
    requires off + 20 + options <= |data|
    requires data[off] / 16 == 4 && data[off] % 16 * 4 == 20 + options && data[off + 9] == proto
    requires (data[off + 6] as nat) * 256 + data[off + 7] == field
    ensures IpHeader(data, off) == Some((4, Upper(proto, off + 20 + options, field % 0x2000 == 0)))
  {
  }

  lemma V6Reads(data: Bytes, off: nat, ip: Ip, proto: U8)
    requires ip.V6? && WellBuilt(ip, proto) && At(data, off, IpBytes(ip, proto))
    ensures off + 40 + ExtsSize(ip.exts) <= |data|
    ensures IpHeader(data, off) == Some((6, Upper(proto, off + 40 + ExtsSize(ip.exts), !EndsLater(ip.exts))))
  {
    hide *;
    V6Fixed(data, off, ip, proto);
    ExtsFit(data, off + 40, ip.exts, proto);
    ChainOfExts(data, off + 40, ip.exts, proto);
    V6Header(data, off, Upper(proto, off + 40 + ExtsSize(ip.exts), !EndsLater(ip.exts)));
  }

  lemma V6Header(data: Bytes, off: nat, c: Chain)
    requires off + 40 <= |data| && data[off] / 16 == 6 && c.Upper?
    requires HeaderChain(data, data[off + 6], off + 40) == c && Headers(data, data[off + 6], off + 40) <= 8
    ensures IpHeader(data, off) == Some((6, c))
  {
    WalkIsChain(data, data[off + 6], off + 40);
    hide WalkHeaders, WalkResult, HeaderChain, Headers;
  }

  lemma V6Fixed(data: Bytes, off: nat, ip: Ip, proto: U8)
    requires ip.V6? && WellBuilt(ip, proto) && At(data, off, IpBytes(ip, proto))
    ensures off + 40 <= |data| && data[off] / 16 == 6 && data[off + 6] == FirstNumber(ip.exts, proto)
    ensures At(data, off + 40, ExtsBytes(ip.exts, proto))
    ensures WellFormed(ip.exts, proto) && |ip.exts| <= 8 && forall e | e in ip.exts :: WellSized(e)
  {
    var b := IpBytes(ip, proto);
    V6Layout(ip, proto);
    assert WellFormed(ip.exts, proto) && |ip.exts| <= 8 && forall e | e in ip.exts :: WellSized(e);
    hide *;
    OctetAt(data, off, b, 0);
    OctetAt(data, off, b, 6);
    ClassNibble(ip.trafficClass);
    PartAt(data, off, b, 40, |b|);
    assert b[40..|b|] == b[40..];
  }

  lemma ClassNibble(c: U8)
    ensures (0x60 + c / 16) / 16 == 6 && (0x60 + c / 16) % 16 == c / 16 && 0x60 + c / 16 <= 0x6f
  {
  }

  lemma ExtsFit(data: Bytes, off: nat, exts: seq<Ext>, proto: U8)
    requires (forall e | e in exts :: WellSized(e)) && At(data, off, ExtsBytes(exts, proto))
    ensures off + ExtsSize(exts) <= |data|
  {
    ExtsLength(exts, proto);
  }

  // ---- transport ------------------------------------------------------------------------

  /** A TCP header up to its flags, `words` 4-octet words long; the ports of a UDP header;
      type and code of an ICMP header; or anything of another protocol. */
  datatype Segment =
    | Tcp(sport: U16, dport: U16, numbers: Bytes, words: nat, reserved: nat, flags: U8)
    | Udp(sport: U16, dport: U16)
    | Icmp(six: bool, kind: U8, code: U8)
    | Opaque(proto: U8)

  predicate WellSegment(t: Segment) {
    match t
    case Tcp(_, _, numbers, words, reserved, _) => |numbers| == 8 && words < 16 && reserved < 16
    case _ => true
  }

  function ProtoOf(t: Segment): U8 {
    match t case Tcp(_, _, _, _, _, _) => 6 case Udp(_, _) => 17 case Icmp(six, _, _) => if six then 58 else 1
            case Opaque(proto) => proto
  }

  function SegmentBytes(t: Segment): Bytes
    requires WellSegment(t)
  {
    match t
    case Tcp(sport, dport, numbers, words, reserved, flags) =>
      Word(sport) + Word(dport) + numbers + [words * 16 + reserved, flags]
    case Udp(sport, dport) => Word(sport) + Word(dport)
    case Icmp(_, kind, code) => [kind, code]
    case Opaque(_) => []
  }

  function Repeated(t: Segment): nat { if t.Tcp? then 4 * t.words else if t.Udp? then 8 else 0 }

  function Sport(t: Segment): U16 { if t.Tcp? || t.Udp? then t.sport else 0 }

  function Dport(t: Segment): U16 { if t.Tcp? || t.Udp? then t.dport else 0 }

  lemma SegmentReads(data: Bytes, family: U8, ip: nat, l4: nat, t: Segment, first: bool)
    requires WellSegment(t) && At(data, l4, SegmentBytes(t))
    requires t.Opaque? ==> !first || (t.proto != 6 && t.proto != 17 && t.proto != 1 && t.proto != 58)
    requires !first ==> t.Opaque?
    ensures Transport(data, family, ip, Upper(ProtoOf(t), l4, first)) == Some(Parsed(
      family, ProtoOf(t), ip, l4, Sport(t), Dport(t), if t.Icmp? then t.kind else 0, if t.Icmp? then t.code else 0,
      if t.Tcp? then t.flags else 0, Repeated(t)))
  {
    var b := SegmentBytes(t);
    match t
    case Tcp(sport, dport, numbers, words, reserved, flags) =>
      TcpAt(data, l4, t);
      hide At;
    case Udp(sport, dport) =>
      AtBoth(data, l4, Word(sport), Word(dport));
      WordAt(data, l4, sport);
      WordAt(data, l4 + 2, dport);
      hide At;
    case Icmp(_, kind, code) =>
      assert data[l4 + 0] == b[0] && data[l4 + 1] == b[1];
    case Opaque(_) =>
  }

  lemma TcpAt(data: Bytes, l4: nat, t: Segment)
    requires t.Tcp? && WellSegment(t) && At(data, l4, SegmentBytes(t))
    ensures l4 + 14 <= |data| && U16At(data, l4) == t.sport && U16At(data, l4 + 2) == t.dport
    ensures data[l4 + 12] / 16 == t.words && data[l4 + 13] == t.flags
  {
    var offsetOctet := t.words * 16 + t.reserved;
    TcpParts(t);
    assert offsetOctet / 16 == t.words;
    hide *;
    AtBoth(data, l4, Word(t.sport), Word(t.dport) + (t.numbers + [offsetOctet, t.flags]));
    AtBoth(data, l4 + 2, Word(t.dport), t.numbers + [offsetOctet, t.flags]);
    AtBoth(data, l4 + 4, t.numbers, [offsetOctet, t.flags]);
    WordAt(data, l4, t.sport);
    WordAt(data, l4 + 2, t.dport);
    TwoAt(data, l4 + 12, offsetOctet, t.flags);
  }

  lemma TcpParts(t: Segment)
    requires t.Tcp? && WellSegment(t)
    ensures |t.numbers| == 8 && t.words * 16 + t.reserved < 256
    ensures SegmentBytes(t) == Word(t.sport) + (Word(t.dport) + (t.numbers + [t.words * 16 + t.reserved, t.flags]))
  {
    hide Word;
  }

  lemma TwoAt(data: Bytes, off: nat, x: U8, y: U8)
    requires At(data, off, [x, y])
    ensures off + 2 <= |data| && data[off] == x && data[off + 1] == y
  {
    assert data[off + 0] == [x, y][0] && data[off + 1] == [x, y][1];
  }

  // ---- packets -----------------------------------------------------------------------------

  datatype Built = Built(frame: Framing, ip: Ip, segment: Segment, rest: Bytes)

  /** A packet that can be written: its first fragment has the transport header its
      protocol calls for, a later one none. */
  predicate Writable(b: Built) {
    && WellFramed(b.frame) && WellSegment(b.segment) && WellBuilt(b.ip, ProtoOf(b.segment))
    && (IsFirst(b.ip) ==> b.segment.Opaque? ==>
          b.segment.proto != 6 && b.segment.proto != 17 && b.segment.proto != 1 && b.segment.proto != 58)
    && (!IsFirst(b.ip) ==> b.segment.Opaque?)
  }

  function NetworkBytes(b: Built): Bytes
    requires Writable(b)
  {
    IpBytes(b.ip, ProtoOf(b.segment)) + (SegmentBytes(b.segment) + b.rest)
  }

  function PacketBytes(b: Built): Bytes
    requires Writable(b)
  {
    FrameBytes(b.frame, if b.ip.V4? then 0x0800 else 0x86dd) + NetworkBytes(b)
  }

  function L4Offset(b: Built): nat { FrameSize(b.frame) + IpSize(b.ip) }

  function Reading(b: Built): Parsed
  {
    var t := b.segment;
    Parsed(FamilyOf(b.ip), ProtoOf(t), FrameSize(b.frame), L4Offset(b), Sport(t), Dport(t),
           if t.Icmp? then t.kind else 0, if t.Icmp? then t.code else 0, if t.Tcp? then t.flags else 0, Repeated(t))
  }

  lemma Everything(data: Bytes)
    ensures At(data, 0, data)
  {
  }

  lemma IpLength(ip: Ip, proto: U8)
    requires WellBuilt(ip, proto)
    ensures |IpBytes(ip, proto)| == IpSize(ip)
  {
    if ip.V6? {
      V6Layout(ip, proto);
      ExtsLength(ip.exts, proto);
      var b := IpBytes(ip, proto);
      hide IpBytes, ExtsBytes;
      assert |b| == 40 + |b[40..]|;
    }
  }

  /** Where the parts of a packet are. */
  lemma PacketParts(b: Built)
    requires Writable(b)
    ensures var data, proto := PacketBytes(b), ProtoOf(b.segment);
      && At(data, 0, FrameBytes(b.frame, if b.ip.V4? then 0x0800 else 0x86dd))
      && At(data, FrameSize(b.frame), IpBytes(b.ip, proto))
      && At(data, L4Offset(b), SegmentBytes(b.segment))
      && |data| == FrameSize(b.frame) + |NetworkBytes(b)|
  {
    hide At, IpBytes, SegmentBytes, FrameBytes, WellBuilt, WellFramed, WellSegment;
    var data, proto := PacketBytes(b), ProtoOf(b.segment);
    Everything(data);
    IpLength(b.ip, proto);
    AtBoth(data, 0, FrameBytes(b.frame, if b.ip.V4? then 0x0800 else 0x86dd), NetworkBytes(b));
    AtBoth(data, FrameSize(b.frame), IpBytes(b.ip, proto), SegmentBytes(b.segment) + b.rest);
    AtBoth(data, L4Offset(b), SegmentBytes(b.segment), b.rest);
  }

  /** For every packet written out octet by octet, under any tags, IPv4 options, lists of
      up to eight extension headers, fragments and transports: the parser reads back its
      fields and the offsets of its headers. */
  lemma {:induction false} PacketReads(b: Built)
    requires Writable(b)
    ensures ParsePacket(PacketBytes(b), b.frame.Ethernet?) == Some(Reading(b))
    ensures PktClass(PacketBytes(b), b.frame.Ethernet?) == if b.ip.V4? then Ipv4 else Ipv6
  {
    hide *;
    var data, proto := PacketBytes(b), ProtoOf(b.segment);
    WritableMeans(b);
    PacketParts(b);
    IpReads(data, FrameSize(b.frame), b.ip, proto);
    SegmentReads(data, FamilyOf(b.ip), FrameSize(b.frame), L4Offset(b), b.segment, IsFirst(b.ip));
    FrameOffset(data, b.frame, b.ip, proto);
    ReadingMeans(b);
    ReadTogether(data, b);
  }

  lemma WritableMeans(b: Built)
    requires Writable(b)
    ensures WellFramed(b.frame) && WellSegment(b.segment) && WellBuilt(b.ip, ProtoOf(b.segment))
    ensures b.segment.Opaque? && IsFirst(b.ip) ==>
      b.segment.proto != 6 && b.segment.proto != 17 && b.segment.proto != 1 && b.segment.proto != 58
    ensures !IsFirst(b.ip) ==> b.segment.Opaque?
    ensures L4Offset(b) == FrameSize(b.frame) + IpSize(b.ip)
  {
    hide IpSize, FrameSize, WellBuilt;
  }

  /** Where the IP header is, and the packet's class. */
  lemma FrameOffset(data: Bytes, f: Framing, ip: Ip, proto: U8)
    requires WellFramed(f) && WellBuilt(ip, proto)
    requires At(data, 0, FrameBytes(f, if ip.V4? then 0x0800 else 0x86dd)) && At(data, FrameSize(f), IpBytes(ip, proto))
    requires FrameSize(f) + 20 <= |data|
    ensures IpOffset(data, f.Ethernet?) == Some(FrameSize(f))
    ensures PktClass(data, f.Ethernet?) == if ip.V4? then Ipv4 else Ipv6
  {
    if f.Ethernet? {
      FrameReads(data, f, if ip.V4? then 0x0800 else 0x86dd);
      hide At, FrameBytes, IpBytes, EtherType, PktClass, WellBuilt, WellFramed;
    } else {
      NibbleAt(data, ip, proto);
      hide At, FrameBytes, IpBytes, WellBuilt;
    }
  }

  lemma ReadTogether(data: Bytes, b: Built)
    requires var ip, c := FrameSize(b.frame), Upper(ProtoOf(b.segment), L4Offset(b), IsFirst(b.ip));
      && IpOffset(data, b.frame.Ethernet?) == Some(ip)
      && ip + 2 <= |data| && IpHeader(data, ip) == Some((FamilyOf(b.ip), c))
      && Transport(data, FamilyOf(b.ip), ip, c) == Some(Reading(b))
    ensures ParsePacket(data, b.frame.Ethernet?) == Some(Reading(b))
  {
    hide IpOffset, IpHeader, Transport, Reading;
  }

  lemma ReadingMeans(b: Built)
    ensures var t := b.segment; Reading(b) == Parsed(
      FamilyOf(b.ip), ProtoOf(t), FrameSize(b.frame), L4Offset(b), Sport(t), Dport(t),
      if t.Icmp? then t.kind else 0, if t.Icmp? then t.code else 0, if t.Tcp? then t.flags else 0, Repeated(t))
  {
  }

  lemma NibbleAt(data: Bytes, ip: Ip, proto: U8)
    requires WellBuilt(ip, proto) && At(data, 0, IpBytes(ip, proto))
    ensures |data| >= 20 && data[0] / 16 == FamilyOf(ip)
  {
    if ip.V4? {
      V4Layout(ip, proto);
    } else {
      V6Layout(ip, proto);
    }
    assert data[0 + 0] == IpBytes(ip, proto)[0];
  }

  // ---- the flow of a packet ------------------------------------------------------------------

  /** The key of the packet's flow at a hook: IPv4 addresses in mapped form. */
  function KeyFor(b: Built, ifindex: U32, direction: U8): FlowKey
    requires Writable(b)
  {
    var t := b.segment;
    FlowKey(ifindex, direction, if b.ip.V4? then 4 else 6, ProtoOf(t), Widened(b.ip.src), Widened(b.ip.dst),
            Sport(t), Dport(t), if t.Icmp? then t.kind else 0, if t.Icmp? then t.code else 0)
  }

  function Widened(a: Bytes): Address
    requires |a| == 4 || |a| == 16
  {
    if |a| == 4 then [0, 0, 0, 0, 0, 0, 0, 0, 0, 0, 255, 255, a[0], a[1], a[2], a[3]] else a
  }

  /** The outer VLAN id: offloaded, else the first tag's. */
  function VlanFor(b: Built, skb: Skb): U16
    requires Writable(b)
  {
    if b.frame.Bare? then 0
    else if skb.vlanPresent then skb.vlanTci % 4096
    else if b.frame.tags == [] then 0
    else (assert b.frame.tags[0] in b.frame.tags; b.frame.tags[0].vlan)
  }

  /** An arrival that brings the packet. */
  predicate Brings(a: Arrival, b: Built)
    requires Writable(b)
  {
    a.skb.data == PacketBytes(b) && a.eth == b.frame.Ethernet?
  }

  lemma AddressesRead(b: Built)
    requires Writable(b)
    ensures HasAddresses(PacketBytes(b), b)
  {
    hide *;
    var data, ip, proto := PacketBytes(b), FrameSize(b.frame), ProtoOf(b.segment);
    WritableMeans(b);
    PacketParts(b);
    var x := IpBytes(b.ip, proto);
    if b.ip.V4? {
      V4Layout(b.ip, proto);
      PartAt(data, ip, x, 12, 16);
      PartAt(data, ip, x, 16, 20);
      OctetAt(data, ip, x, 1);
    } else {
      V6Layout(b.ip, proto);
      PartAt(data, ip, x, 8, 24);
      PartAt(data, ip, x, 24, 40);
      OctetAt(data, ip, x, 0);
      OctetAt(data, ip, x, 1);
      FlowLabelSmall(b.ip, proto);
      LowNibble(b.ip.trafficClass % 16, b.ip.flowLabel[0]);
    }
    AddressesMean(data, b);
  }

  lemma FlowLabelSmall(ip: Ip, proto: U8)
    requires ip.V6? && WellBuilt(ip, proto)
    ensures |ip.flowLabel| == 3 && ip.flowLabel[0] < 16
  {
    hide WellFormed;
  }

  lemma LowNibble(high: nat, low: U8)
    requires high < 16 && low < 16
    ensures (high * 16 + low) / 16 == high
  {
  }

  lemma AddressesMean(data: Bytes, b: Built)
    requires var ip := FrameSize(b.frame);
      && ip + (if b.ip.V4? then 20 else 40) <= |data|
      && (b.ip.V4? ==> data[ip + 12..ip + 16] == b.ip.src && data[ip + 16..ip + 20] == b.ip.dst && data[ip + 1] == b.ip.tos)
      && (b.ip.V6? ==> data[ip + 8..ip + 24] == b.ip.src && data[ip + 24..ip + 40] == b.ip.dst
                       && data[ip] == 0x60 + b.ip.trafficClass / 16
                       && data[ip + 1] / 16 == b.ip.trafficClass % 16)
    ensures HasAddresses(data, b)
  {
  }

  /** For every packet written out octet by octet: the dataplane accounts it under the key
      of its fields, and a new entry gets its VLAN id, TOS or traffic class, and flags. */
  lemma {:induction false} FlowOfPacket(a: Arrival, b: Built)
    requires Writable(b) && Brings(a, b)
    ensures ParsePacket(a.skb.data, a.eth) == Some(Reading(b)) && FrameSize(b.frame) + 2 <= |a.skb.data|
    ensures KeyOf(a, Reading(b)) == KeyFor(b, a.skb.ifindex, a.direction)
    ensures var v, t := NewFlow(a, Reading(b)), b.segment;
      && v.vlanId == VlanFor(b, a.skb)
      && v.tos == (if b.ip.V4? then b.ip.tos else b.ip.trafficClass)
      && v.tcpFlags == (if t.Tcp? then t.flags else 0) && v.firstSeen == v.lastSeen == a.now
  {
    hide *;
    PacketReads(b);
    AddressesRead(b);
    VlanReads(a, b);
    BringsMeans(a, b);
    ReadingMeans(b);
    KeyReads(a, b);
    TosReads(a.skb.data, Reading(b), b);
    NewMeans(a, Reading(b));
  }

  lemma BringsMeans(a: Arrival, b: Built)
    requires Writable(b) && Brings(a, b)
    ensures a.skb.data == PacketBytes(b) && a.eth == b.frame.Ethernet?
  {
    hide PacketBytes;
  }

  lemma NewMeans(a: Arrival, p: Parsed)
    requires p.ip + 2 <= |a.skb.data|
    ensures var v := NewFlow(a, p);
      && v.vlanId == (if a.eth then OuterVlan(a.skb) else 0) && v.tos == TosOf(a.skb.data, p)
      && v.tcpFlags == p.tcpFlags && v.firstSeen == v.lastSeen == a.now
  {
    hide OuterVlan, TosOf, L3Octets, Segments;
  }

  /** The addresses and TOS octets of the packet `b` are in `data`. */
  predicate HasAddresses(data: Bytes, b: Built) {
    var ip := FrameSize(b.frame);
    && ip + (if b.ip.V4? then 20 else 40) <= |data|
    && (b.ip.V4? ==> data[ip + 12..ip + 16] == b.ip.src && data[ip + 16..ip + 20] == b.ip.dst && data[ip + 1] == b.ip.tos)
    && (b.ip.V6? ==> data[ip + 8..ip + 24] == b.ip.src && data[ip + 24..ip + 40] == b.ip.dst
                     && data[ip] == 0x60 + b.ip.trafficClass / 16
                     && data[ip + 1] / 16 == b.ip.trafficClass % 16)
  }

  lemma Widens(a: Bytes)
    requires |a| == 4
    ensures Mapped(a) == Widened(a)
  {
  }

  lemma AddressSizes(b: Built)
    requires Writable(b)
    ensures |b.ip.src| == |b.ip.dst| == if b.ip.V4? then 4 else 16
  {
    hide WellFormed;
  }

  lemma KeyReads(a: Arrival, b: Built)
    requires Writable(b) && ParsePacket(a.skb.data, a.eth) == Some(Reading(b)) && HasAddresses(a.skb.data, b)
    ensures KeyOf(a, Reading(b)) == KeyFor(b, a.skb.ifindex, a.direction)
  {
    hide *;
    AddressSizes(b);
    KeyParts(a, Reading(b));
    KeyForParts(b, a.skb.ifindex, a.direction);
    ReadingMeans(b);
    AddressesGiven(a.skb.data, b);
    if b.ip.V4? {
      Widens(b.ip.src);
      Widens(b.ip.dst);
    } else {
      Wide(b.ip.src);
      Wide(b.ip.dst);
    }
    FamilyMeans(b.ip);
  }

  lemma FamilyMeans(ip: Ip)
    ensures FamilyOf(ip) == if ip.V4? then 4 else 6
  {
  }

  lemma Wide(a: Bytes)
    requires |a| == 16
    ensures Widened(a) == a
  {
  }

  lemma AddressesGiven(data: Bytes, b: Built)
    requires HasAddresses(data, b)
    ensures var ip := FrameSize(b.frame);
      && ip + (if b.ip.V4? then 20 else 40) <= |data|
      && (b.ip.V4? ==> data[ip + 12..ip + 16] == b.ip.src && data[ip + 16..ip + 20] == b.ip.dst)
      && (b.ip.V6? ==> data[ip + 8..ip + 24] == b.ip.src && data[ip + 24..ip + 40] == b.ip.dst)
  {
  }

  lemma KeyForParts(b: Built, ifindex: U32, direction: U8)
    requires Writable(b) && |b.ip.src| == |b.ip.dst| == if b.ip.V4? then 4 else 16
    ensures var t := b.segment;
      KeyFor(b, ifindex, direction) == FlowKey(
              ifindex, direction, if b.ip.V4? then 4 else 6, ProtoOf(t), Widened(b.ip.src), Widened(b.ip.dst),
              Sport(t), Dport(t), if t.Icmp? then t.kind else 0, if t.Icmp? then t.code else 0)
  {
    hide Writable, Widened;
  }

  lemma KeyParts(a: Arrival, p: Parsed)
    requires ParsePacket(a.skb.data, a.eth) == Some(p)
    ensures p.ip + (if p.family == 4 then 20 else 40) <= |a.skb.data|
    ensures var data := a.skb.data;
      KeyOf(a, p) == FlowKey(
              a.skb.ifindex, a.direction, p.family, p.proto,
              if p.family == 4 then Mapped(data[p.ip + 12..p.ip + 16]) else data[p.ip + 8..p.ip + 24],
              if p.family == 4 then Mapped(data[p.ip + 16..p.ip + 20]) else data[p.ip + 24..p.ip + 40],
              p.sport, p.dport, p.icmpType, p.icmpCode)
  {
    ParseBounds(a.skb.data, a.eth);
    hide ParsePacket, Mapped;
  }

  lemma TosReads(data: Bytes, p: Parsed, b: Built)
    requires HasAddresses(data, b) && p.ip == FrameSize(b.frame) && p.family == FamilyOf(b.ip)
    ensures p.ip + 2 <= |data| && TosOf(data, p) == if b.ip.V4? then b.ip.tos else b.ip.trafficClass
  {
    hide FrameSize;
  }

  lemma VlanReads(a: Arrival, b: Built)
    requires Writable(b) && Brings(a, b)
    ensures VlanFor(b, a.skb) == if a.eth then OuterVlan(a.skb) else 0
  {
    PacketParts(b);
    if b.frame.Ethernet? {
      FrameReads(a.skb.data, b.frame, if b.ip.V4? then 0x0800 else 0x86dd);
    }
    hide At, PacketBytes, FrameBytes, IpBytes, SegmentBytes, OuterVlan, WellBuilt;
  }

  /** And the drop tracer, given the packet from its IP header on, measures it by its
      length fields: the IPv4 total length, or the IPv6 payload and the base header. */
  lemma {:induction false} LengthOfDrop(b: Built)
    requires Writable(b)
    ensures NetworkBytes(b) == PacketBytes(b)[FrameSize(b.frame)..]
    ensures Drops.DropTuple(NetworkBytes(b), if b.ip.V4? then 0x0800 else 0x86dd).0
         == if b.ip.V4? then b.ip.total else 40 + b.ip.payload
  {
    hide *;
    var proto := ProtoOf(b.segment);
    WritableMeans(b);
    NetworkStarts(b);
    var x := IpBytes(b.ip, proto);
    if b.ip.V4? {
      V4Layout(b.ip, proto);
      V4Length(NetworkBytes(b), x, b.ip.total);
    } else {
      V6Layout(b.ip, proto);
      V6Length(NetworkBytes(b), x, b.ip.payload);
    }
  }

  lemma NetworkStarts(b: Built)
    requires Writable(b)
    ensures IpBytes(b.ip, ProtoOf(b.segment)) <= NetworkBytes(b) && NetworkBytes(b) == PacketBytes(b)[FrameSize(b.frame)..]
  {
    hide IpBytes, SegmentBytes, FrameBytes, WellBuilt, WellFramed, WellSegment;
  }

  lemma V4Length(mem: Bytes, x: Bytes, total: U16)
    requires x <= mem && |x| >= 20 && 0x45 <= x[0] <= 0x4f && x[2] == total / 256 && x[3] == total % 256
    ensures Drops.DropTuple(mem, 0x0800).0 == total
  {
    hide Drops.WithTransport;
    assert mem[0] == x[0] && mem[2] == x[2] && mem[3] == x[3];
  }

  lemma V6Length(mem: Bytes, x: Bytes, payload: U16)
    requires x <= mem && |x| >= 40 && 0x60 <= x[0] <= 0x6f && x[4] == payload / 256 && x[5] == payload % 256
    ensures Drops.DropTuple(mem, 0x86dd).0 == 40 + payload
  {
    hide Drops.WithTransport;
    assert mem[0] == x[0] && mem[4] == x[4] && mem[5] == x[5];
  }
}
