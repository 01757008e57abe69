/** Observations: what a decoded record says, and what an emission stands for. */
module IpfixObservations {
  import opened Words
  import opened Flow
  import opened IpfixExporter
  import opened Collector
  import opened IpfixDecoding

  // ---- what a record means -------------------------------------------------

  /** One exported observation. */
  datatype Observation = Observation(
    family: nat, ifindex: nat, direction: nat, protocol: nat, src: Bytes, dst: Bytes,
    sport: nat, dport: nat, icmpType: nat, icmpCode: nat,
    packets: nat, bytes: nat, startMs: nat, endMs: nat, tcpFlags: nat,
    endReason: nat, sampling: nat, vlan: nat, status: nat, tos: nat)

  /** A data record read by its information elements alone. */
  function Interpret(r: DataRecord): Observation {
    var v4 := Find(r.fields, 8).Some?;
    var icmp := Number(r, if v4 then 32 else 139);
    Observation(
      if v4 then 4 else 6,
      if Number(r, 61) == 0 then Number(r, 10) else Number(r, 14),
      Number(r, 61), Number(r, 4),
      if v4 then MAPPED_PREFIX + Octets(r, 8) else Octets(r, 27),
      if v4 then MAPPED_PREFIX + Octets(r, 12) else Octets(r, 28),
      Number(r, 7), Number(r, 11), icmp / 256, icmp % 256,
      Number(r, 2), Number(r, 1), Number(r, 152), Number(r, 153), Number(r, 6),
      Number(r, 136), Number(r, 34), Number(r, 58), Number(r, 89), Number(r, 5))
  }

  /** The observation an emission stands for: the counts of its delta, or of its value
      when it has none, times in whole milliseconds on top of the anchor, and end reason
      1 for an idle flow, 2 for an active one. */
  function Observed(s: Sample): Observation {
    var k, v := s.e.key, s.e.value;
    var v4 := k.family == 4;
    Observation(
      if v4 then 4 else 6,
      if k.direction == INGRESS || k.direction == EGRESS then k.ifindex else 0,
      k.direction, k.protocol,
      if v4 then Mapped(k.src[12..16]) else k.src,
      if v4 then Mapped(k.dst[12..16]) else k.dst,
      k.sport, k.dport, k.icmpType, k.icmpCode,
      if s.e.delta.Some? then s.e.delta.value.packets else v.packets,
      if s.e.delta.Some? then s.e.delta.value.bytes else v.bytes,
      (s.offsetMs + v.firstSeen / 1000000) % TWO_64, (s.offsetMs + v.lastSeen / 1000000) % TWO_64, v.tcpFlags,
      if s.e.expired then 1 else 2, 1, v.vlanId, s.e.status, v.tos)
  }

  /** The observation names the flow `k`. */
  predicate Identifies(o: Observation, k: FlowKey) {
    && o.family == k.family && o.ifindex == k.ifindex && o.direction == k.direction && o.protocol == k.protocol
    && o.src == k.src && o.dst == k.dst && o.sport == k.sport && o.dport == k.dport
    && o.icmpType == k.icmpType && o.icmpCode == k.icmpCode
  }

  /** The templates lose part of a key exactly when it is an IPv4 key whose
      addresses are not in mapped form, an unknown family, or a direction that
      is neither hook on a device with a non-zero index. */
  lemma KeyRecovered(s: Sample)
    ensures var k := s.e.key;
      Identifies(Observed(s), k) <==>
        && (k.family == 6 || (k.family == 4 && IsMapped(k.src) && IsMapped(k.dst)))
        && (k.direction == INGRESS || k.direction == EGRESS || k.ifindex == 0)
  {
    var k := s.e.key;
    MappedIff(k.src);
    MappedIff(k.dst);
  }

  lemma MappedIff(a: Address)
    ensures Mapped(a[12..16]) == a <==> IsMapped(a)
  {
    assert a == a[..12] + a[12..16];
    assert (MAPPED_PREFIX + a[12..16])[..12] == MAPPED_PREFIX;
  }

  lemma {:induction false} FindAt(t: Template, parts: seq<Bytes>, i: nat)
    requires |t| == |parts| && i < |t|
    requires forall j | 0 <= j < i :: t[j].0 != t[i].0
    ensures Find(Label(t, parts), t[i].0) == Some(parts[i])
  {
    var l := Label(t, parts);
    if i == 0 {
    } else {
      FindAt(t[1..], parts[1..], i - 1);
      assert l[1..] == Label(t[1..], parts[1..]);
    }
  }

  lemma {:induction false} FindAbsent(fields: seq<(U16, Bytes)>, ie: U16)
    requires forall j | 0 <= j < |fields| :: fields[j].0 != ie
    ensures Find(fields, ie) == None
  {
    if |fields| == 0 {
    } else {
      FindAbsent(fields[1..], ie);
    }
  }

  /** The `i`-th element of a template finds the `i`-th field of a record. */
  lemma FieldFound(s: Sample, i: nat)
    requires i < FIELD_COUNT
    ensures var t := TemplateOf(TemplateId(s));
      |t| == FIELD_COUNT && Find(Decoded(s).fields, t[i].0) == Some(Field(s.e, s.offsetMs, i))
  {
    hide BigEndian, Field;
    var t := TemplateOf(TemplateId(s));
    assert |t| == FIELD_COUNT;
    ElementsDistinct(TemplateId(s), i);
    FindAt(t, RecordFields(s.e, s.offsetMs), i);
  }

  lemma ElementsDistinct(tid: U16, i: nat)
    requires i < FIELD_COUNT
    ensures var t := TemplateOf(tid); |t| == FIELD_COUNT && forall j | 0 <= j < i :: t[j].0 != t[i].0
  {
    forall j | 0 <= j < i
      ensures TemplateOf(tid)[j].0 != TemplateOf(tid)[i].0
    {
      ElementsDiffer(tid, i, j);
    }
  }

  lemma ElementsDiffer(tid: U16, i: nat, j: nat)
    requires j < i < FIELD_COUNT
    ensures TemplateOf(tid)[j].0 != TemplateOf(tid)[i].0
  {
    if i < 7 {
    } else if i < 13 {
    } else {
    }
  }

  /** The number a collector reads for the `i`-th element of a record. */
  lemma NumberAt(s: Sample, i: nat, ie: U16)
    requires i < FIELD_COUNT && ie == TemplateOf(TemplateId(s))[i].0
    ensures Number(Decoded(s), ie) == FromBigEndian(Field(s.e, s.offsetMs, i))
    ensures Octets(Decoded(s), ie) == Field(s.e, s.offsetMs, i)
  {
    hide FromBigEndian, Field, Find, Decoded;
    FieldFound(s, i);
  }

  lemma PortsRead(s: Sample)
    ensures var r, k := Decoded(s), s.e.key;
      Number(r, 7) == k.sport && Number(r, 11) == k.dport && Number(r, 4) == k.protocol
      && Number(r, 2) == PacketsOf(s.e) && Number(r, 1) == BytesOf(s.e)
  {
    hide BigEndian, FromBigEndian, Decoded, Number, Be16, Be32, Be64;
    var k := s.e.key;
    NumberAt(s, 2, 7);
    NumberAt(s, 3, 11);
    NumberAt(s, 4, 4);
    NumberAt(s, 5, 2);
    NumberAt(s, 6, 1);
    BeRoundTrip(k.sport, 0, PacketsOf(s.e));
    BeRoundTrip(k.dport, 0, BytesOf(s.e));
    ByteRoundTrip(k.protocol);
  }

  lemma TimesRead(s: Sample)
    ensures var r, k, v := Decoded(s), s.e.key, s.e.value;
      Number(r, 152) == Millis(s.offsetMs, v.firstSeen) && Number(r, 153) == Millis(s.offsetMs, v.lastSeen)
      && Number(r, 6) == v.tcpFlags
      && Number(r, 10) == (if k.direction == INGRESS then k.ifindex else 0)
      && Number(r, 14) == (if k.direction == EGRESS then k.ifindex else 0)
  {
    hide BigEndian, FromBigEndian, Decoded, Number, Be16, Be32, Be64, Millis;
    var k, v := s.e.key, s.e.value;
    NumberAt(s, 7, 152);
    NumberAt(s, 8, 153);
    NumberAt(s, 9, 6);
    NumberAt(s, 10, 10);
    NumberAt(s, 11, 14);
    BeRoundTrip(v.tcpFlags, if k.direction == INGRESS then k.ifindex else 0, Millis(s.offsetMs, v.firstSeen));
    BeRoundTrip(0, if k.direction == EGRESS then k.ifindex else 0, Millis(s.offsetMs, v.lastSeen));
  }

  lemma FlagsRead(s: Sample)
    ensures var r, k, v := Decoded(s), s.e.key, s.e.value;
      Number(r, 61) == k.direction
      && Number(r, 136) == (if s.e.expired then END_IDLE_TIMEOUT else END_ACTIVE_TIMEOUT)
      && Number(r, 34) == SAMPLING_INTERVAL && Number(r, 58) == v.vlanId
      && Number(r, 89) == s.e.status && Number(r, 5) == v.tos
  {
    hide BigEndian, FromBigEndian, Decoded, Number, Be16, Be32, Be64;
    var k, v := s.e.key, s.e.value;
    NumberAt(s, 13, 61);
    NumberAt(s, 14, 136);
    NumberAt(s, 15, 34);
    NumberAt(s, 16, 58);
    NumberAt(s, 17, 89);
    NumberAt(s, 18, 5);
    ByteRoundTrip(k.direction);
    ByteRoundTrip(if s.e.expired then END_IDLE_TIMEOUT else END_ACTIVE_TIMEOUT);
    BeRoundTrip(v.vlanId, SAMPLING_INTERVAL, 0);
    ByteRoundTrip(s.e.status);
    ByteRoundTrip(v.tos);
  }

  lemma AddressesRead(s: Sample)
    ensures var r, k := Decoded(s), s.e.key;
      && Find(r.fields, 8).Some? == (k.family == 4)
      && Number(r, if k.family == 4 then 32 else 139) == k.icmpType * 256 + k.icmpCode
      && (k.family == 4 ==> Octets(r, 8) == k.src[12..16] && Octets(r, 12) == k.dst[12..16])
      && (k.family != 4 ==> Octets(r, 27) == k.src && Octets(r, 28) == k.dst)
  {
    hide BigEndian, FromBigEndian, Number, Be16, Be32, Be64, Find;
    var k := s.e.key;
    BeRoundTrip(k.icmpType * 256 + k.icmpCode, 0, 0);
    if k.family == 4 {
      FieldFound(s, 0);
      NumberAt(s, 0, 8);
      NumberAt(s, 1, 12);
      NumberAt(s, 12, 32);
    } else {
      NumberAt(s, 0, 27);
      NumberAt(s, 1, 28);
      NumberAt(s, 12, 139);
      NoIpv4Source(s);
    }
  }

  lemma NoIpv4Source(s: Sample)
    requires !IsV4(s)
    ensures Find(Decoded(s).fields, 8) == None
  {
    hide Field;
    var fields := Decoded(s).fields;
    forall j | 0 <= j < |fields|
      ensures fields[j].0 != 8
    {
      assert FIELDS_V6[j].0 != 8 by { NotIpv4Source(j); }
    }
    FindAbsent(fields, 8);
  }

  lemma NotIpv4Source(j: nat)
    requires j < FIELD_COUNT
    ensures FIELDS_V6[j].0 != 8
  {
    if j < 9 {
    } else {
    }
  }

  /** Reading a record back gives the observation it was made from. */
  lemma InterpretDecoded(s: Sample)
    ensures Interpret(Decoded(s)) == Observed(s)
  {
    hide Decoded, Number, Octets, Find;
    PortsRead(s);
    TimesRead(s);
    FlagsRead(s);
    AddressesRead(s);
  }

  /** A collector reads flow times on the wall clock. When the anchor was set, the wall
      clock stood at `wallMs` and the monotonic one at `monoNs`; the times read of a flow
      first seen at `firstSeen` on the monotonic clock is the wall-clock time of that
      moment, to within a millisecond, and likewise for the time it was last seen. */
  lemma TimesAreWallClock(s: Sample, wallMs: nat, monoNs: U64)
    requires s.offsetMs == (wallMs - monoNs / 1000000) % TWO_64
    ensures var o, v := Interpret(Decoded(s)), s.e.value;
      IsMoment(o.startMs, wallMs, v.firstSeen - monoNs) && IsMoment(o.endMs, wallMs, v.lastSeen - monoNs)
  {
    InterpretDecoded(s);
    MomentAt(s.offsetMs, wallMs, monoNs, s.e.value.firstSeen);
    MomentAt(s.offsetMs, wallMs, monoNs, s.e.value.lastSeen);
  }

  /** `ms` is, modulo 2^64, less than a millisecond from `ns` nanoseconds after `wallMs`. */
  ghost predicate IsMoment(ms: nat, wallMs: nat, ns: int) {
    exists late: int :: ms == WallClock(wallMs, late) && -1000000 < 1000000 * late - ns < 1000000
  }

  function WallClock(wallMs: nat, late: int): nat { (wallMs + late) % TWO_64 }

  lemma MomentAt(anchor: U64, wallMs: nat, monoNs: U64, ns: U64)
    requires anchor == (wallMs - monoNs / 1000000) % TWO_64
    ensures IsMoment((anchor + ns / 1000000) % TWO_64, wallMs, ns - monoNs)
  {
    var late := ns / 1000000 - monoNs / 1000000;
    Wrap64Add(wallMs - monoNs / 1000000, ns / 1000000);
    assert (anchor + ns / 1000000) % TWO_64 == WallClock(wallMs, late);
  }

  /** A later moment reads as much later: `d` milliseconds add `d`, modulo 2^64, and
      within the first millisecond of the monotonic clock the time is the anchor. */
  lemma TimesAdvance(s: Sample, d: nat)
    ensures var o, v := Interpret(Decoded(s)), s.e.value;
      && (v.firstSeen < 1000000 ==> o.startMs == s.offsetMs)
      && (v.lastSeen == v.firstSeen + 1000000 * d ==> o.endMs == (o.startMs + d) % TWO_64)
  {
    InterpretDecoded(s);
    var anchor, first := s.offsetMs, s.e.value.firstSeen;
    assert (first + 1000000 * d) / 1000000 == first / 1000000 + d;
    Wrap64Add(anchor + first / 1000000, d);
  }
}
