/** The converse: a packet the parser accepts can be written out from fields. */
module WireAccepts {
  import opened Words
  import opened Flow
  import opened Packet
  import opened WireFormat
  import opened WirePackets

  // ---- extension headers ---------------------------------------------------------------

  /** The extension header that stands at `off`. */
  function ExtAt(data: Bytes, proto: U8, off: nat): Ext
    requires off + 8 <= |data| && !IsUpper(proto) && proto != NO_NEXT_HEADER
    requires proto != FRAGMENT ==> off + OptionLength(proto, data[off + 1]) <= |data|
  {
    if proto == FRAGMENT then
      Fragment(data[off + 1], U16At(data, off + 2) / 8, U16At(data, off + 2) % 8, data[off + 4..off + 8])
    else
      var n, body := data[off + 1], data[off + 2..off + OptionLength(proto, data[off + 1])];
      if proto == 0 then HopByHop(n, body)
      else if proto == 43 then Routing(n, body)
      else if proto == 60 then Destination(n, body)
      else Authentication(n, body)
  }

  lemma WordOf(data: Bytes, off: nat)
    requires off + 2 <= |data|
    ensures Word(U16At(data, off)) == [data[off], data[off + 1]]
  {
  }

  lemma ExtWritten(data: Bytes, proto: U8, off: nat)
    requires off + 8 <= |data| && !IsUpper(proto) && proto != NO_NEXT_HEADER
    requires proto != FRAGMENT ==> off + OptionLength(proto, data[off + 1]) <= |data|
    ensures var e := ExtAt(data, proto, off);
      && WellSized(e) && ExtNumber(e) == proto
      && ExtSize(e) == (if proto == FRAGMENT then 8 else OptionLength(proto, data[off + 1]))
      && At(data, off, ExtBytes(e, data[off]))
      && (IsLater(e) <==> proto == FRAGMENT && U16At(data, off + 2) / 8 != 0)
      && (e.HopByHop? <==> proto == 0) && (e.Fragment? <==> proto == FRAGMENT)
  {
    if proto == FRAGMENT {
      WordOf(data, off + 2);
      hide Word;
    } else {
      hide Word, U16At, OptionLength;
      OptionWritten(data, proto, off, OptionLength(proto, data[off + 1]));
      LengthOf(proto, data[off + 1]);
    }
  }

  lemma LengthOf(proto: U8, len: U8)
    ensures OptionLength(proto, len) == if proto == 51 then 8 + 4 * len else 8 + 8 * len
  {
  }

  lemma OptionWritten(data: Bytes, proto: U8, off: nat, n: nat)
    requires 8 <= n && off + n <= |data|
    ensures At(data, off, [data[off], data[off + 1]] + data[off + 2..off + n])
  {
  }

  /** The extension headers of a chain. */
  function ExtsAt(data: Bytes, proto: U8, off: nat): seq<Ext>
    requires HeaderChain(data, proto, off).Upper?
    decreases |data| - off
  {
    if IsOption(proto) then
      [ExtAt(data, proto, off)] + ExtsAt(data, data[off], off + OptionLength(proto, data[off + 1]))
    else if proto == FRAGMENT then
      if U16At(data, off + 2) / 8 != 0 then [ExtAt(data, proto, off)]
      else [ExtAt(data, proto, off)] + ExtsAt(data, data[off], off + 8)
    else []
  }

  /** Where the headers after the first are. */
  lemma ChainGoesOn(data: Bytes, proto: U8, off: nat)
    requires HeaderChain(data, proto, off).Upper? && !IsUpper(proto)
    ensures proto != NO_NEXT_HEADER && off + 8 <= |data|
    ensures proto != FRAGMENT ==> off + OptionLength(proto, data[off + 1]) <= |data| && data[off] != 0
    ensures var e, c := ExtAt(data, proto, off), HeaderChain(data, proto, off);
      if IsLater(e) then c == Upper(data[off], off + 8, false) && ExtsAt(data, proto, off) == [e]
      else
        && HeaderChain(data, data[off], off + ExtSize(e)) == c
        && ExtsAt(data, proto, off) == [e] + ExtsAt(data, data[off], off + ExtSize(e))
  {
    hide U16At, OptionLength, ExtAt, IsLater, ExtSize;
    ExtWritten(data, proto, off);
  }

  lemma ConsFormed(e: Ext, later: seq<Ext>, proto: U8)
    requires WellSized(e) && !IsLater(e) && WellFormed(later, proto)
    requires later != [] ==> MayFollow(e, later[0])
    ensures WellFormed([e] + later, proto) && EndsLater([e] + later) == EndsLater(later)
  {
    hide WellSized, IsLater, MayFollow, IsUpper;
    var exts := [e] + later;
    assert forall i | 0 < i < |exts| :: exts[i] == later[i - 1];
    assert forall x | x in exts :: x == e || x in later;
  }

  lemma ConsBytes(data: Bytes, off: nat, e: Ext, later: seq<Ext>, proto: U8)
    requires WellSized(e) && forall x | x in later :: WellSized(x)
    requires At(data, off, ExtBytes(e, FirstNumber(later, proto)))
    requires At(data, off + ExtSize(e), ExtsBytes(later, proto))
    ensures forall x | x in [e] + later :: WellSized(x)
    ensures At(data, off, ExtsBytes([e] + later, proto))
  {
    hide *;
    var exts := [e] + later;
    assert exts[0] == e && exts[1..] == later;
    assert forall x | x in exts :: x == e || x in later;
    BytesOfBoth(exts, proto);
    AtBoth(data, off, ExtBytes(e, FirstNumber(later, proto)), ExtsBytes(later, proto));
  }

  lemma FirstOf(e: Ext, later: seq<Ext>, proto: U8)
    ensures FirstNumber([e] + later, proto) == ExtNumber(e)
  {
  }

  lemma HopByHopIsZero(exts: seq<Ext>, proto: U8)
    ensures |exts| > 0 && exts[0].HopByHop? ==> FirstNumber(exts, proto) == 0
  {
  }

  lemma MayFollowIf(e: Ext, later: seq<Ext>)
    requires later != [] && later[0].HopByHop? ==> e.Fragment?
    ensures later != [] ==> MayFollow(e, later[0])
  {
  }

  lemma FormedIsSized(exts: seq<Ext>, proto: U8)
    requires WellFormed(exts, proto)
    ensures forall e | e in exts :: WellSized(e)
  {
  }

  lemma LaterAlone(data: Bytes, off: nat, e: Ext, proto: U8)
    requires WellSized(e) && IsLater(e) && At(data, off, ExtBytes(e, proto))
    ensures WellFormed([e], proto) && EndsLater([e]) && FirstNumber([e], proto) == ExtNumber(e)
    ensures At(data, off, ExtsBytes([e], proto))
  {
    hide At, ExtBytes;
    var x := ExtBytes(e, proto);
    assert ExtsBytes([e], proto) == x by {
      assert [e][1..] == [] && x + [] == x;
    }
  }

  lemma NoneAt(data: Bytes, proto: U8, off: nat)
    requires IsUpper(proto) && off <= |data| && HeaderChain(data, proto, off).Upper?
    ensures ExtsAt(data, proto, off) == [] && WellFormed([], proto) && !EndsLater([])
    ensures FirstNumber([], proto) == proto && At(data, off, ExtsBytes([], proto))
  {
    hide HeaderChain;
  }

  /** Every chain that leads to an upper layer is a list of headers written out. */
  lemma {:induction false} ExtsOfChain(data: Bytes, proto: U8, off: nat)
    requires HeaderChain(data, proto, off).Upper? && off <= |data|
    ensures var exts, c := ExtsAt(data, proto, off), HeaderChain(data, proto, off);
      && WellFormed(exts, c.proto) && FirstNumber(exts, c.proto) == proto
      && At(data, off, ExtsBytes(exts, c.proto)) && EndsLater(exts) == !c.first
    decreases |data| - off
  {
    hide *;
    var c := HeaderChain(data, proto, off);
    if IsUpper(proto) {
      UpperEnds(data, proto, off);
      NoneAt(data, proto, off);
    } else {
      ChainGoesOn(data, proto, off);
      ExtWritten(data, proto, off);
      var e := ExtAt(data, proto, off);
      if IsLater(e) {
        LaterAlone(data, off, e, data[off]);
      } else {
        SizeIsPositive(e);
        WrittenFits(data, off, e, data[off]);
        ExtsOfChain(data, data[off], off + ExtSize(e));
        var later := ExtsAt(data, data[off], off + ExtSize(e));
        HopByHopIsZero(later, c.proto);
        MayFollowIf(e, later);
        ConsFormed(e, later, c.proto);
        FormedIsSized(later, c.proto);
        ConsBytes(data, off, e, later, c.proto);
        FirstOf(e, later, c.proto);
      }
    }
  }

  lemma SizeIsPositive(e: Ext)
    ensures ExtSize(e) >= 8
  {
  }

  lemma WrittenFits(data: Bytes, off: nat, e: Ext, next: U8)
    requires WellSized(e) && At(data, off, ExtBytes(e, next))
    ensures off + ExtSize(e) <= |data|
  {
    ExtLength(e, next);
  }

  // ---- IP header, transport header and framing ------------------------------------------

  function V4At(data: Bytes, off: nat): Ip
    requires off + 20 <= |data| && 20 <= data[off] % 16 * 4 <= |data| - off
  {
    V4(data[off + 1], U16At(data, off + 2), data[off + 4..off + 6], U16At(data, off + 6) / 0x2000,
       U16At(data, off + 6) % 0x2000, data[off + 8], data[off + 10..off + 12], data[off + 12..off + 16],
       data[off + 16..off + 20], data[off + 20..off + data[off] % 16 * 4])
  }

  function V6At(data: Bytes, off: nat): Ip
    requires off + 40 <= |data| && HeaderChain(data, data[off + 6], off + 40).Upper?
  {
    V6((data[off] as nat) % 16 * 16 + data[off + 1] / 16, [data[off + 1] % 16, data[off + 2], data[off + 3]],
       U16At(data, off + 4), data[off + 7], data[off + 8..off + 24], data[off + 24..off + 40],
       ExtsAt(data, data[off + 6], off + 40))
  }

  lemma FlagsWord(v: U16)
    ensures v / 0x2000 < 8 && v / 0x2000 * 0x2000 + v % 0x2000 == v
  {
  }

  lemma VersionOctet(x: U8)
    requires x / 16 == 4 && x % 16 * 4 >= 20
    ensures 0 <= x % 16 * 4 - 20 <= 40 && (x % 16 * 4 - 20) % 4 == 0 && 0x45 + (x % 16 * 4 - 20) / 4 == x
  {
  }

  lemma V4Fields(data: Bytes, off: nat)
    requires off + 20 <= |data| && data[off] / 16 == 4 && 20 <= data[off] % 16 * 4 <= |data| - off
    ensures var ip, proto, v := V4At(data, off), data[off + 9], U16At(data, off + 6);
      && WellBuilt(ip, proto) && ip.V4? && IpSize(ip) == data[off] % 16 * 4 && (IsFirst(ip) <==> v % 0x2000 == 0)
      && 0x45 + |ip.options| / 4 == data[off] && ip.tos == data[off + 1] && ip.total == U16At(data, off + 2)
      && ip.id == data[off + 4..off + 6] && ip.flags * 0x2000 + ip.fragment == v && ip.ttl == data[off + 8]
      && ip.checksum == data[off + 10..off + 12] && ip.src == data[off + 12..off + 16]
      && ip.dst == data[off + 16..off + 20] && ip.options == data[off + 20..off + data[off] % 16 * 4]
  {
    VersionOctet(data[off]);
    FlagsWord(U16At(data, off + 6));
    hide U16At, IpBytes;
  }

  lemma V4IsFixed(ip: Ip, proto: U8)
    requires ip.V4? && WellBuilt(ip, proto)
    ensures 0x45 + |ip.options| / 4 < 256 && ip.flags * 0x2000 + ip.fragment < 0x1_0000
    ensures IpBytes(ip, proto)
         == [0x45 + |ip.options| / 4, ip.tos] + Word(ip.total) + ip.id + Word(ip.flags * 0x2000 + ip.fragment)
            + [ip.ttl, proto] + ip.checksum + ip.src + ip.dst + ip.options
  {
    hide Word;
  }

  lemma V4Written(data: Bytes, off: nat)
    requires off + 20 <= |data| && data[off] / 16 == 4 && 20 <= data[off] % 16 * 4 <= |data| - off
    ensures var ip, proto := V4At(data, off), data[off + 9];
      WellBuilt(ip, proto) && At(data, off, IpBytes(ip, proto)) && IpSize(ip) == data[off] % 16 * 4
      && (IsFirst(ip) <==> U16At(data, off + 6) % 0x2000 == 0)
  {
    hide *;
    V4Fields(data, off);
    V4IsFixed(V4At(data, off), data[off + 9]);
    WordOf(data, off + 2);
    WordOf(data, off + 6);
    V4Whole(data, off, data[off] % 16 * 4);
    FixedAt(data, off, data[off] % 16 * 4);
  }

  lemma V4Whole(data: Bytes, off: nat, n: nat)
    requires 20 <= n && off + n <= |data|
    ensures [data[off], data[off + 1]] + [data[off + 2], data[off + 3]] + data[off + 4..off + 6]
            + [data[off + 6], data[off + 7]] + [data[off + 8], data[off + 9]] + data[off + 10..off + 12]
            + data[off + 12..off + 16] + data[off + 16..off + 20] + data[off + 20..off + n]
         == data[off..off + n]
  {
  }

  lemma ClassOctets(x: U8, y: U8)
    requires x / 16 == 6
    ensures var c := x % 16 * 16 + y / 16;
      0x60 + c / 16 == x && c % 16 * 16 + y % 16 == y && y % 16 < 16 && c < 256
  {
  }

  lemma V6Written(data: Bytes, off: nat)
    requires off + 40 <= |data| && data[off] / 16 == 6
    requires HeaderChain(data, data[off + 6], off + 40).Upper? && Headers(data, data[off + 6], off + 40) <= 8
    ensures var ip, c := V6At(data, off), HeaderChain(data, data[off + 6], off + 40);
      WellBuilt(ip, c.proto) && At(data, off, IpBytes(ip, c.proto)) && IsFirst(ip) == c.first
      && off + IpSize(ip) == c.l4
  {
    hide HeaderChain, Headers, ExtsAt, WellFormed, ExtsBytes, EndsLater, U16At, Word, At, FirstNumber, ExtsSize;
    var exts, c := ExtsAt(data, data[off + 6], off + 40), HeaderChain(data, data[off + 6], off + 40);
    ExtsOfChain(data, data[off + 6], off + 40);
    ChainOfExts(data, off + 40, exts, c.proto);
    FormedIsSized(exts, c.proto);
    V6Octets(data, off, exts, c.proto);
  }

  /** The first 40 octets. */
  lemma V6Fixed40(data: Bytes, off: nat)
    requires off + 40 <= |data| && data[off] / 16 == 6
    ensures var c := (data[off] as nat) % 16 * 16 + data[off + 1] / 16;
      [0x60 + c / 16, c % 16 * 16 + data[off + 1] % 16, data[off + 2], data[off + 3]] + Word(U16At(data, off + 4))
      + [data[off + 6], data[off + 7]] + data[off + 8..off + 24] + data[off + 24..off + 40] == data[off..off + 40]
  {
    ClassOctets(data[off], data[off + 1]);
    WordOf(data, off + 4);
    hide Word, U16At;
  }

  lemma V6IsFixed(ip: Ip, proto: U8)
    requires ip.V6? && WellBuilt(ip, proto)
    ensures IpBytes(ip, proto)
         == [0x60 + ip.trafficClass / 16, ip.trafficClass % 16 * 16 + ip.flowLabel[0], ip.flowLabel[1], ip.flowLabel[2]]
            + Word(ip.payload) + [FirstNumber(ip.exts, proto), ip.hops] + ip.src + ip.dst + ExtsBytes(ip.exts, proto)
  {
    hide Word, ExtsBytes, FirstNumber;
  }

  lemma V6Fields(data: Bytes, off: nat, exts: seq<Ext>, proto: U8)
    requires off + 40 <= |data| && data[off] / 16 == 6 && HeaderChain(data, data[off + 6], off + 40).Upper?
    requires exts == ExtsAt(data, data[off + 6], off + 40) && |exts| <= 8 && WellFormed(exts, proto)
    ensures var ip := V6At(data, off);
      && WellBuilt(ip, proto) && ip.V6?
      && ip.trafficClass == (data[off] as nat) % 16 * 16 + data[off + 1] / 16
      && ip.flowLabel == [data[off + 1] % 16, data[off + 2], data[off + 3]]
      && ip.payload == U16At(data, off + 4) && ip.hops == data[off + 7]
      && ip.src == data[off + 8..off + 24] && ip.dst == data[off + 24..off + 40] && ip.exts == exts
  {
    hide HeaderChain, Headers, ExtsAt, WellFormed, U16At;
  }

  lemma V6Octets(data: Bytes, off: nat, exts: seq<Ext>, proto: U8)
    requires off + 40 <= |data| && data[off] / 16 == 6 && HeaderChain(data, data[off + 6], off + 40).Upper?
    requires exts == ExtsAt(data, data[off + 6], off + 40) && |exts| <= 8 && WellFormed(exts, proto)
    requires FirstNumber(exts, proto) == data[off + 6] && At(data, off + 40, ExtsBytes(exts, proto))
    ensures var ip := V6At(data, off); WellBuilt(ip, proto) && At(data, off, IpBytes(ip, proto))
  {
    hide *;
    FormedIsSized(exts, proto);
    V6Fixed40(data, off);
    V6Fields(data, off, exts, proto);
    var ip := V6At(data, off);
    V6IsFixed(ip, proto);
    var fixed := data[off..off + 40];
    FixedAt(data, off, 40);
    AtBoth(data, off, fixed, ExtsBytes(exts, proto));
  }

  lemma FixedAt(data: Bytes, off: nat, n: nat)
    requires off + n <= |data|
    ensures At(data, off, data[off..off + n])
  {
  }

  function SegmentAt(data: Bytes, c: Chain): Segment
    requires c.Upper? && Transport(data, 4, 0, c).Some?
  {
    var l4 := c.l4;
    if !c.first then Opaque(c.proto)
    else if c.proto == 6 then
      Tcp(U16At(data, l4), U16At(data, l4 + 2), data[l4 + 4..l4 + 12], data[l4 + 12] / 16, data[l4 + 12] % 16, data[l4 + 13])
    else if c.proto == 17 then Udp(U16At(data, l4), U16At(data, l4 + 2))
    else if c.proto == 1 || c.proto == 58 then Icmp(c.proto == 58, data[l4], data[l4 + 1])
    else Opaque(c.proto)
  }

  lemma SegmentWritten(data: Bytes, c: Chain)
    requires c.Upper? && c.l4 <= |data| && Transport(data, 4, 0, c).Some?
    ensures var t := SegmentAt(data, c);
      && WellSegment(t) && ProtoOf(t) == c.proto && At(data, c.l4, SegmentBytes(t))
      && (t.Opaque? && c.first ==> c.proto != 6 && c.proto != 17 && c.proto != 1 && c.proto != 58)
      && (!c.first ==> t.Opaque?)
  {
    hide At;
    if c.first && c.proto == 6 {
      TcpWritten(data, c.l4);
    } else if c.first && c.proto == 17 {
      UdpWritten(data, c.l4);
    } else {
      hide Word, U16At;
      OthersWritten(data, c);
    }
  }

  lemma TcpWritten(data: Bytes, l4: nat)
    requires l4 + 14 <= |data|
    ensures var t := Tcp(U16At(data, l4), U16At(data, l4 + 2), data[l4 + 4..l4 + 12], data[l4 + 12] / 16,
                         data[l4 + 12] % 16, data[l4 + 13]);
      WellSegment(t) && At(data, l4, SegmentBytes(t))
  {
    hide *;
    var t := Tcp(U16At(data, l4), U16At(data, l4 + 2), data[l4 + 4..l4 + 12], data[l4 + 12] / 16, data[l4 + 12] % 16,
                 data[l4 + 13]);
    WordOf(data, l4);
    WordOf(data, l4 + 2);
    assert WellSegment(t) by {
      assert |data[l4 + 4..l4 + 12]| == 8;
      TcpFits(t);
    }
    TcpParts(t);
    assert SegmentBytes(t) == data[l4..l4 + 14];
    FixedAt(data, l4, 14);
  }

  lemma TcpFits(t: Segment)
    requires t.Tcp? && |t.numbers| == 8 && t.words < 16 && t.reserved < 16
    ensures WellSegment(t)
  {
  }

  lemma UdpWritten(data: Bytes, l4: nat)
    requires l4 + 4 <= |data|
    ensures At(data, l4, SegmentBytes(Udp(U16At(data, l4), U16At(data, l4 + 2))))
  {
    WordOf(data, l4);
    WordOf(data, l4 + 2);
    hide Word, U16At;
  }

  lemma OthersWritten(data: Bytes, c: Chain)
    requires c.Upper? && c.l4 <= |data| && Transport(data, 4, 0, c).Some? && (c.first ==> c.proto != 6 && c.proto != 17)
    ensures At(data, c.l4, SegmentBytes(SegmentAt(data, c)))
  {
    hide Word, U16At;
  }

  function TagOf(data: Bytes, off: nat): Tag
    requires off + 4 <= |data|
  {
    Tag(U16At(data, off), U16At(data, off + 2) / 4096, U16At(data, off + 2) % 4096)
  }

  function FrameAt(data: Bytes): Framing
    requires EtherType(data).Some?
  {
    Ethernet(data[..12], if !IsOuterTag(U16At(data, 12)) then [] else if !IsInnerTag(U16At(data, 16)) then [TagOf(data, 12)]
             else [TagOf(data, 12), TagOf(data, 16)])
  }

  lemma TagWritten(data: Bytes, off: nat)
    requires off + 4 <= |data|
    ensures var t := TagOf(data, off); t.priority < 16 && t.vlan < 4096 && TagBytes(t) == data[off..off + 4]
  {
    WordOf(data, off);
    WordOf(data, off + 2);
    TagWord(U16At(data, off + 2));
    hide Word, U16At;
  }

  lemma TagWord(v: U16)
    ensures v / 4096 < 16 && v / 4096 * 4096 + v % 4096 == v
  {
  }

  lemma TagsWritten(data: Bytes, tags: seq<Tag>)
    requires |tags| <= 2 && 12 + 4 * |tags| <= |data|
    requires forall t | t in tags :: t.priority < 16 && t.vlan < 4096
    requires |tags| > 0 ==> TagBytes(tags[0]) == data[12..16]
    requires |tags| > 1 ==> TagBytes(tags[1]) == data[16..20]
    ensures TagsBytes(tags) == data[12..12 + 4 * |tags|]
  {
    hide TagBytes;
    if |tags| > 0 {
      assert tags[0] in tags && forall t | t in tags[1..] :: t in tags;
      assert TagsBytes(tags) == TagBytes(tags[0]) + TagsBytes(tags[1..]);
      if |tags| > 1 {
        assert tags[1..][1..] == [];
        assert TagsBytes(tags[1..]) == TagBytes(tags[1]) + [];
      }
    }
  }

  /** The link layer in front of an EtherType. */
  lemma FrameWritten(data: Bytes)
    requires EtherType(data).Some?
    ensures var f, et := FrameAt(data), EtherType(data).value.0;
      && WellFramed(f) && f.Ethernet? && FrameSize(f) == EtherType(data).value.1 <= |data|
      && At(data, 0, FrameBytes(f, et))
  {
    var f, et, end := FrameAt(data), EtherType(data).value.0, EtherType(data).value.1;
    hide TagBytes, TagOf, Word;
    WordOf(data, end - 2);
    if |f.tags| > 0 {
      TagWritten(data, 12);
    }
    if |f.tags| > 1 {
      TagWritten(data, 16);
    }
    hide U16At;
    assert WellFramed(f) && end == 14 + 4 * |f.tags|;
    TagsWritten(data, f.tags);
    assert FrameBytes(f, et) == data[..12] + (data[12..end - 2] + data[end - 2..end]) == data[..end];
  }

  // ---- packets -----------------------------------------------------------------------------

  /** The packet's class is its IP version's, and an IPv6 packet has a header chain of at
      most eight headers that leads to an upper layer. */
  predicate Regular(data: Bytes, eth: bool, p: Parsed) {
    && PktClass(data, eth) == (if p.family == 4 then Ipv4 else Ipv6)
    && (p.family == 6 ==>
          && p.ip + 40 <= |data| && HeaderChain(data, data[p.ip + 6], p.ip + 40).Upper?
          && Headers(data, data[p.ip + 6], p.ip + 40) <= 8)
  }

  ghost predicate Takes(data: Bytes, p: Parsed, ip: Ip, c: Chain) {
    && c.Upper? && WellBuilt(ip, c.proto) && At(data, p.ip, IpBytes(ip, c.proto)) && ip.V4? == (p.family == 4)
    && IsFirst(ip) == c.first && p.ip + IpSize(ip) == c.l4 && Transport(data, p.family, p.ip, c) == Some(p)
  }

  /** What the parser went through to accept a packet. */
  lemma AcceptedMeans(data: Bytes, eth: bool, p: Parsed) returns (c: Chain)
    requires ParsePacket(data, eth) == Some(p)
    ensures IpOffset(data, eth) == Some(p.ip) && p.ip + 2 <= |data| && (p.family == 4 || p.family == 6)
    ensures c.Upper? && IpHeader(data, p.ip) == Some((p.family, c)) && Transport(data, p.family, p.ip, c) == Some(p)
  {
    hide WalkHeaders, U16At;
    c := IpHeader(data, IpOffset(data, eth).value).value.1;
  }

  lemma TakesIf(data: Bytes, p: Parsed, ip: Ip, c: Chain)
    requires c.Upper? && WellBuilt(ip, c.proto) && At(data, p.ip, IpBytes(ip, c.proto)) && ip.V4? == (p.family == 4)
    requires IsFirst(ip) == c.first && p.ip + IpSize(ip) == c.l4 && Transport(data, p.family, p.ip, c) == Some(p)
    ensures Takes(data, p, ip, c)
  {
    hide WellBuilt, At, IpBytes, IsFirst, IpSize, Transport;
  }

  lemma V4Taken(data: Bytes, p: Parsed, c: Chain)
    requires p.ip + 2 <= |data| && c.Upper? && IpHeader(data, p.ip) == Some((p.family, c)) && p.family == 4
    ensures p.ip + 20 <= |data| && data[p.ip] / 16 == 4 && 20 <= data[p.ip] % 16 * 4 <= |data| - p.ip
    ensures c == Upper(data[p.ip + 9], p.ip + data[p.ip] % 16 * 4, U16At(data, p.ip + 6) % 0x2000 == 0)
  {
    hide WalkHeaders, U16At;
  }

  lemma V6Taken(data: Bytes, p: Parsed, c: Chain)
    requires p.ip + 2 <= |data| && c.Upper? && IpHeader(data, p.ip) == Some((p.family, c)) && p.family == 6
    ensures p.ip + 40 <= |data| && data[p.ip] / 16 == 6
    ensures c == WalkResult(WalkHeaders(data, data[p.ip + 6], p.ip + 40, MAX_EXT_HDR))
  {
    hide WalkHeaders, U16At;
  }

  lemma ChainOfRegular(data: Bytes, eth: bool, p: Parsed)
    requires Regular(data, eth, p) && p.family == 6
    ensures p.ip + 40 <= |data| && HeaderChain(data, data[p.ip + 6], p.ip + 40).Upper?
    ensures Headers(data, data[p.ip + 6], p.ip + 40) <= 8
  {
    hide PktClass, HeaderChain, Headers;
  }

  /** The IP header of an accepted packet. */
  lemma IpWritten(data: Bytes, eth: bool, p: Parsed)
    requires ParsePacket(data, eth) == Some(p) && Regular(data, eth, p)
    ensures IpOffset(data, eth) == Some(p.ip)
    ensures exists ip, c :: Takes(data, p, ip, c)
  {
    hide *;
    var c := AcceptedMeans(data, eth, p);
    if p.family == 4 {
      V4Taken(data, p, c);
      V4Written(data, p.ip);
      V4IsIt(data, p.ip);
      TakesIf(data, p, V4At(data, p.ip), c);
    } else {
      ChainOfRegular(data, eth, p);
      V6Taken(data, p, c);
      WalkIsChain(data, data[p.ip + 6], p.ip + 40);
      V6Written(data, p.ip);
      V6IsIt(data, p.ip);
      TakesIf(data, p, V6At(data, p.ip), c);
    }
  }

  lemma V4IsIt(data: Bytes, off: nat)
    requires off + 20 <= |data| && 20 <= data[off] % 16 * 4 <= |data| - off
    ensures V4At(data, off).V4?
  {
  }

  lemma V6IsIt(data: Bytes, off: nat)
    requires off + 40 <= |data| && HeaderChain(data, data[off + 6], off + 40).Upper?
    ensures V6At(data, off).V6?
  {
    hide HeaderChain;
  }

  /** The link layer of an accepted packet. */
  lemma LinkWritten(data: Bytes, eth: bool, p: Parsed) returns (f: Framing)
    requires IpOffset(data, eth) == Some(p.ip) && PktClass(data, eth) == if p.family == 4 then Ipv4 else Ipv6
    ensures WellFramed(f) && f.Ethernet? == eth && FrameSize(f) == p.ip
    ensures At(data, 0, FrameBytes(f, if p.family == 4 then 0x0800 else 0x86dd))
  {
    if eth {
      ClassIsTheEtherType(data);
      FrameWritten(data);
      f := FrameAt(data);
    } else {
      f := Bare;
    }
  }

  lemma TransportAnywhere(data: Bytes, family: U8, ip: nat, c: Chain)
    requires c.Upper?
    ensures Transport(data, family, ip, c).Some? <==> Transport(data, 4, 0, c).Some?
  {
    hide U16At;
  }

  lemma AllParts(data: Bytes, f: Bytes, ip: Bytes, t: Bytes, rest: Bytes)
    requires At(data, 0, f) && At(data, |f|, ip) && At(data, |f| + |ip|, t)
    requires |f| + |ip| + |t| <= |data| && rest == data[|f| + |ip| + |t|..]
    ensures data == f + (ip + (t + rest))
  {
    SliceAt(data, 0, f);
    SliceAt(data, |f|, ip);
    SliceAt(data, |f| + |ip|, t);
    hide At;
    assert data == data[..|f|] + (data[|f|..|f| + |ip|] + (data[|f| + |ip|..|f| + |ip| + |t|] + data[|f| + |ip| + |t|..]));
  }

  ghost predicate IsWritten(data: Bytes, eth: bool) {
    exists b: Built :: Writable(b) && b.frame.Ethernet? == eth && PacketBytes(b) == data
  }

  lemma PutTogether(data: Bytes, p: Parsed, f: Framing, ip: Ip, c: Chain)
    requires Takes(data, p, ip, c) && WellFramed(f) && FrameSize(f) == p.ip
    requires At(data, 0, FrameBytes(f, if ip.V4? then 0x0800 else 0x86dd))
    ensures IsWritten(data, f.Ethernet?)
  {
    hide WellFramed, WellBuilt, At, FrameBytes, IpBytes, SegmentBytes, WellSegment, Transport;
    IpLength(ip, c.proto);
    SliceAt(data, p.ip, IpBytes(ip, c.proto));
    TransportAnywhere(data, p.family, p.ip, c);
    SegmentWritten(data, c);
    var t := SegmentAt(data, c);
    SliceAt(data, c.l4, SegmentBytes(t));
    var b := Built(f, ip, t, data[c.l4 + |SegmentBytes(t)|..]);
    AllParts(data, FrameBytes(f, if ip.V4? then 0x0800 else 0x86dd), IpBytes(ip, c.proto), SegmentBytes(t), b.rest);
    assert Writable(b) && PacketBytes(b) == data;
  }

  /** What is written has a chain of at most eight headers. */
  lemma WrittenIsRegular(b: Built)
    requires Writable(b)
    ensures Regular(PacketBytes(b), b.frame.Ethernet?, Reading(b))
  {
    hide *;
    var data, proto := PacketBytes(b), ProtoOf(b.segment);
    PacketReads(b);
    WritableMeans(b);
    PacketParts(b);
    ReadingMeans(b);
    if b.ip.V6? {
      var ip := FrameSize(b.frame);
      V6Fixed(data, ip, b.ip, proto);
      ChainOfExts(data, ip + 40, b.ip.exts, proto);
    }
    RegularIf(data, b);
  }

  lemma RegularIf(data: Bytes, b: Built)
    requires Reading(b).family == FamilyOf(b.ip) && Reading(b).ip == FrameSize(b.frame)
    requires PktClass(data, b.frame.Ethernet?) == if b.ip.V4? then Ipv4 else Ipv6
    requires b.ip.V6? ==>
      var ip := FrameSize(b.frame);
      && ip + 40 <= |data| && HeaderChain(data, data[ip + 6], ip + 40).Upper?
      && Headers(data, data[ip + 6], ip + 40) <= 8
    ensures Regular(data, b.frame.Ethernet?, Reading(b))
  {
    hide PktClass, HeaderChain, Headers, Reading, FrameSize;
  }

  /** For every byte buffer: it is a packet that can be written out from fields, exactly
      if the parser accepts it, its class is its IP version's, and an IPv6 packet's chain
      has at most eight headers and leads to an upper layer. */
  lemma {:induction false} AcceptedIsWritten(data: Bytes, eth: bool)
    ensures IsWritten(data, eth) <==>
      ParsePacket(data, eth).Some? && Regular(data, eth, ParsePacket(data, eth).value)
  {
    hide ParsePacket, Regular, Writable, PacketBytes, Takes, PktClass, IpOffset, WellFramed, FrameSize, FrameBytes, At;
    if IsWritten(data, eth) {
      var b: Built :| Writable(b) && b.frame.Ethernet? == eth && PacketBytes(b) == data;
      PacketReads(b);
      WrittenIsRegular(b);
    }
    var r := ParsePacket(data, eth);
    if r.Some? && Regular(data, eth, r.value) {
      IpWritten(data, eth, r.value);
      RegularClass(data, eth, r.value);
      var ip, c :| Takes(data, r.value, ip, c);
      var f := LinkWritten(data, eth, r.value);
      TakesFamily(data, r.value, ip, c);
      PutTogether(data, r.value, f, ip, c);
    }
  }

  lemma RegularClass(data: Bytes, eth: bool, p: Parsed)
    requires Regular(data, eth, p)
    ensures PktClass(data, eth) == if p.family == 4 then Ipv4 else Ipv6
  {
    hide PktClass, HeaderChain, Headers;
  }

  lemma TakesFamily(data: Bytes, p: Parsed, ip: Ip, c: Chain)
    requires Takes(data, p, ip, c)
    ensures ip.V4? == (p.family == 4)
  {
    hide WellBuilt, At, IpBytes, IsFirst, IpSize, Transport;
  }
}
