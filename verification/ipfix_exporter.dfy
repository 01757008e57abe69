/** The IPFIX exporter: record encoding, template messages, chunked data
    messages, sequence numbers and template retransmission. */
module IpfixExporter {
  import opened Words
  import opened Flow
  import opened Chunking

  const VERSION: U16 := 10
  const SET_TEMPLATE: U16 := 2
  const IPV4_TID: U16 := 256
  const IPV6_TID: U16 := 257
  const TEMPLATE_INTERVAL_S: U32 := 60
  const END_IDLE_TIMEOUT: U8 := 1
  const END_ACTIVE_TIMEOUT: U8 := 2
  const SAMPLING_INTERVAL: U32 := 1

  /** Information elements and their lengths, in record order. */
  const FIELDS_V4: seq<(U16, U16)> := [
    (8, 4), (12, 4), (7, 2), (11, 2), (4, 1), (2, 8), (1, 8), (152, 8), (153, 8), (6, 2),
    (10, 4), (14, 4), (32, 2), (61, 1), (136, 1), (34, 4), (58, 2), (89, 1), (5, 1)]

  const FIELDS_V6: seq<(U16, U16)> := [
    (27, 16), (28, 16), (7, 2), (11, 2), (4, 1), (2, 8), (1, 8), (152, 8), (153, 8), (6, 2),
    (10, 4), (14, 4), (139, 2), (61, 1), (136, 1), (34, 4), (58, 2), (89, 1), (5, 1)]

  /** Everything one record is computed from. */
  datatype Emission = Emission(key: FlowKey, value: FlowValue, expired: bool, delta: Option<Delta>, status: U8)

  function PacketsOf(e: Emission): U64 {
    match e.delta case Some(d) => d.packets case None => e.value.packets
  }

  function BytesOf(e: Emission): U64 {
    match e.delta case Some(d) => d.bytes case None => e.value.bytes
  }

  function Millis(offsetMs: U64, ns: U64): U64 {
    Wrap64(offsetMs + ns / 1000000)
  }

  const FIELD_COUNT: nat := 19

  /** The encoded value of the `i`-th field of a record, in template order. */
  function Field(e: Emission, offsetMs: U64, i: nat): Bytes {
    var k, v := e.key, e.value;
    match i
    case 0 => if k.family == 4 then k.src[12..16] else k.src
    case 1 => if k.family == 4 then k.dst[12..16] else k.dst
    case 2 => Be16(k.sport)
    case 3 => Be16(k.dport)
    case 4 => [k.protocol]
    case 5 => Be64(PacketsOf(e))
    case 6 => Be64(BytesOf(e))
    case 7 => Be64(Millis(offsetMs, v.firstSeen))
    case 8 => Be64(Millis(offsetMs, v.lastSeen))
    case 9 => Be16(v.tcpFlags)
    case 10 => Be32(if k.direction == INGRESS then k.ifindex else 0)
    case 11 => Be32(if k.direction == EGRESS then k.ifindex else 0)
    case 12 => Be16(k.icmpType * 256 + k.icmpCode)
    case 13 => [k.direction]
    case 14 => [if e.expired then END_IDLE_TIMEOUT else END_ACTIVE_TIMEOUT]
    case 15 => Be32(SAMPLING_INTERVAL)
    case 16 => Be16(v.vlanId)
    case 17 => [e.status]
    case _ => [v.tos]
  }

  function RecordFields(e: Emission, offsetMs: U64): (fs: seq<Bytes>)
    ensures |fs| == FIELD_COUNT
    ensures forall i | 0 <= i < FIELD_COUNT :: fs[i] == Field(e, offsetMs, i)
  {
    seq(FIELD_COUNT, (i: nat) => Field(e, offsetMs, i))
  }

  function Record(e: Emission, offsetMs: U64): Bytes {
    Flatten(RecordFields(e, offsetMs))
  }

  /** A message header whose length field is truncated to 16 bits. */
  function MessageHeader(bodySize: nat, time: U32, seqNo: U32, domain: U32): (h: seq<Bytes>)
    ensures |h| == 5
  {
    [Be16(VERSION), Be16(Wrap16(MSG_HDR + bodySize)), Be32(time), Be32(seqNo), Be32(domain)]
  }

  function FieldSpecBytes(fields: seq<(U16, U16)>): seq<Bytes> {
    if |fields| == 0 then [] else [Be16(fields[0].0), Be16(fields[0].1)] + FieldSpecBytes(fields[1..])
  }

  function TemplateRecord(tid: U16, fields: seq<(U16, U16)>): Bytes {
    Flatten([Be16(tid), Be16(Wrap16(|fields|))] + FieldSpecBytes(fields))
  }

  function TemplateSet(tid: U16, fields: seq<(U16, U16)>): Bytes {
    var rec := TemplateRecord(tid, fields);
    Flatten([Be16(SET_TEMPLATE), Be16(Wrap16(SET_HDR + |rec|)), rec])
  }

  function TemplateMessage(time: U32, seqNo: U32, domain: U32): Bytes {
    var body := TemplateSet(IPV4_TID, FIELDS_V4) + TemplateSet(IPV6_TID, FIELDS_V6);
    Flatten(MessageHeader(|body|, time, seqNo, domain)) + body
  }

  function DataMessage(time: U32, seqNo: U32, domain: U32, setId: U16, records: Records): Bytes {
    var content := Flatten(records);
    Flatten(MessageHeader(SET_HDR + |content|, time, seqNo, domain)
            + [Be16(setId), Be16(Wrap16(SET_HDR + |content|))]) + content
  }

  /** One message per chunk; each advances the sequence number by its records. */
  function DataMessages(time: U32, seqNo: U32, domain: U32, setId: U16, chunks: seq<Records>): seq<Bytes>
    decreases |chunks|
  {
    if |chunks| == 0 then []
    else [DataMessage(time, seqNo, domain, setId, chunks[0])]
         + DataMessages(time, Wrap32(seqNo + |chunks[0]|), domain, setId, chunks[1..])
  }

  lemma {:induction false} DataMessagesSnoc(time: U32, seqNo: U32, domain: U32, setId: U16, chunks: seq<Records>, c: Records)
    decreases |chunks|
    ensures DataMessages(time, seqNo, domain, setId, chunks + [c])
         == DataMessages(time, seqNo, domain, setId, chunks)
            + [DataMessage(time, Wrap32(seqNo + |Concat(chunks)|), domain, setId, c)]
  {
    hide DataMessage, Wrap32;
    Wrap32Self(seqNo);
    if |chunks| == 0 {
      assert chunks + [c] == [c];
      assert [c][1..] == [];
    } else {
      assert (chunks + [c])[1..] == chunks[1..] + [c];
      var next := Wrap32(seqNo + |chunks[0]|);
      DataMessagesSnoc(time, next, domain, setId, chunks[1..], c);
      Wrap32Add(seqNo + |chunks[0]|, |Concat(chunks[1..])|);
    }
  }

  lemma DataMessagesNone(time: U32, seqNo: U32, domain: U32, setId: U16)
    ensures DataMessages(time, seqNo, domain, setId, []) == []
  {
  }

  /** The exporter's whole state, with the datagrams it has handed to the transport. */
  datatype State = State(
    domain: U32,
    seqNo: U32,
    offsetMs: U64,
    lastTemplate: U32,
    pending4: Records,
    pending6: Records,
    sent: seq<Bytes>)

  function AfterTemplates(s: State, time: U32): State {
    s.(sent := s.sent + [TemplateMessage(time, s.seqNo, s.domain)], lastTemplate := time)
  }

  function AfterEmit(s: State, e: Emission): State {
    if e.key.family == 4
    then s.(pending4 := s.pending4 + [Record(e, s.offsetMs)])
    else s.(pending6 := s.pending6 + [Record(e, s.offsetMs)])
  }

  function AfterSet(s: State, time: U32, setId: U16, records: Records): State {
    s.(sent := s.sent + DataMessages(time, s.seqNo, s.domain, setId, Greedy(records)),
       seqNo := Wrap32(s.seqNo + |records|))
  }

  predicate TemplatesDue(s: State, time: U32) {
    Wrap32(time - s.lastTemplate) >= TEMPLATE_INTERVAL_S
  }

  function AfterFlush(s: State, time: U32): State {
    var s0 := if TemplatesDue(s, time) then AfterTemplates(s, time) else s;
    var s1 := AfterSet(s0, time, IPV4_TID, s0.pending4).(pending4 := []);
    AfterSet(s1, time, IPV6_TID, s1.pending6).(pending6 := [])
  }

  /** The buffer holding the first `n` of the fields `parts`. */
  function Built(parts: seq<Bytes>, n: nat): Bytes
    requires n <= |parts|
  {
    Flatten(parts[..n])
  }

  lemma BuiltAll(parts: seq<Bytes>)
    ensures Built(parts, 0) == []
    ensures Built(parts, |parts|) == Flatten(parts)
  {
    assert parts[..|parts|] == parts;
  }

  lemma FlattenNone(records: Records, i: nat)
    requires i <= |records|
    ensures Flatten(records[i..i]) == []
  {
  }

  lemma BuiltPrefix(a: seq<Bytes>, b: seq<Bytes>)
    ensures Built(a + b, |a|) == Flatten(a)
  {
    assert (a + b)[..|a|] == a;
  }

  /** Append the next of the fields `parts` a buffer is being built from. */
  method Append(buffer: Bytes, field: Bytes, ghost parts: seq<Bytes>, ghost i: nat) returns (b: Bytes)
    requires i < |parts| && field == parts[i] && buffer == Built(parts, i)
    ensures b == Built(parts, i + 1)
  {
    assert parts[..i + 1] == parts[..i] + [parts[i]];
    FlattenSnoc(parts[..i], parts[i]);
    b := buffer + field;
  }

  /** Append the `i`-th field of a record to the fields before it. */
  method AppendField(buffer: Bytes, field: Bytes, ghost e: Emission, ghost offsetMs: U64, ghost i: nat)
    returns (b: Bytes)
    requires i < FIELD_COUNT && field == Field(e, offsetMs, i)
    requires buffer == Built(RecordFields(e, offsetMs), i)
    ensures b == Built(RecordFields(e, offsetMs), i + 1)
  {
    hide Field;
    b := Append(buffer, field, RecordFields(e, offsetMs), i);
  }

  /** Append the fields from `flowStartMilliseconds` on. */
  method EncodeTail(e: Emission, offsetMs: U64, head: Bytes) returns (rec: Bytes)
    requires head == Built(RecordFields(e, offsetMs), 7)
    ensures rec == Record(e, offsetMs)
  {
    hide BigEndian, Be16, Be32, Be64, Millis, Flatten, Built, RecordFields;
    var k, v := e.key, e.value;
    var startMs := Millis(offsetMs, v.firstSeen);
    var endMs := Millis(offsetMs, v.lastSeen);
    var ingress := if k.direction == INGRESS then k.ifindex else 0;
    var egress := if k.direction == EGRESS then k.ifindex else 0;
    var reason := if e.expired then END_IDLE_TIMEOUT else END_ACTIVE_TIMEOUT;
    BuiltAll(RecordFields(e, offsetMs));
    rec := head;
    rec := AppendField(rec, Be64(startMs), e, offsetMs, 7);
    rec := AppendField(rec, Be64(endMs), e, offsetMs, 8);
    rec := AppendField(rec, Be16(v.tcpFlags), e, offsetMs, 9);
    rec := AppendField(rec, Be32(ingress), e, offsetMs, 10);
    rec := AppendField(rec, Be32(egress), e, offsetMs, 11);
    rec := AppendField(rec, Be16(k.icmpType * 256 + k.icmpCode), e, offsetMs, 12);
    rec := AppendField(rec, [k.direction], e, offsetMs, 13);
    rec := AppendField(rec, [reason], e, offsetMs, 14);
    rec := AppendField(rec, Be32(SAMPLING_INTERVAL), e, offsetMs, 15);
    rec := AppendField(rec, Be16(v.vlanId), e, offsetMs, 16);
    rec := AppendField(rec, [e.status], e, offsetMs, 17);
    rec := AppendField(rec, [v.tos], e, offsetMs, 18);
  }

  /** Encode one record field by field. */
  method EncodeRecord(e: Emission, offsetMs: U64) returns (rec: Bytes)
    ensures rec == Record(e, offsetMs)
  {
    hide BigEndian, Be16, Be32, Be64, Flatten, Built, RecordFields;
    var k, v := e.key, e.value;
    var dp := match e.delta case Some(d) => d.packets case None => v.packets;
    var db := match e.delta case Some(d) => d.bytes case None => v.bytes;
    BuiltAll(RecordFields(e, offsetMs));
    rec := [];
    if k.family == 4 {
      rec := AppendField(rec, k.src[12..16], e, offsetMs, 0);
      rec := AppendField(rec, k.dst[12..16], e, offsetMs, 1);
    } else {
      rec := AppendField(rec, k.src, e, offsetMs, 0);
      rec := AppendField(rec, k.dst, e, offsetMs, 1);
    }
    rec := AppendField(rec, Be16(k.sport), e, offsetMs, 2);
    rec := AppendField(rec, Be16(k.dport), e, offsetMs, 3);
    rec := AppendField(rec, [k.protocol], e, offsetMs, 4);
    rec := AppendField(rec, Be64(dp), e, offsetMs, 5);
    rec := AppendField(rec, Be64(db), e, offsetMs, 6);
    rec := EncodeTail(e, offsetMs, rec);
  }

  /** The exporter object. `captured` holds every datagram handed to `send`. */
  class Exporter {
    const domain: U32
    var seqNo: U32
    var offsetMs: U64
    var lastTemplateSent: U32
    var captured: seq<Bytes>
    var pending4: Records
    var pending6: Records

    ghost function View(): State
      reads this
    {
      State(domain, seqNo, offsetMs, lastTemplateSent, pending4, pending6, captured)
    }

    constructor (domain: U32)
      ensures View() == State(domain, 0, 0, 0, [], [], [])
    {
      this.domain := domain;
      seqNo, offsetMs, lastTemplateSent := 0, 0, 0;
      captured, pending4, pending6 := [], [], [];
    }

    method SetEpoch(time: U32, offset: U64)
      modifies this
      ensures View() == old(View()).(offsetMs := offset, lastTemplate := time)
    {
      offsetMs := offset;
      lastTemplateSent := time;
    }

    method SetOffsetMs(offset: U64)
      modifies this
      ensures View() == old(View()).(offsetMs := offset)
    {
      offsetMs := offset;
    }

    method Send(data: Bytes)
      modifies this`captured
      ensures captured == old(captured) + [data]
    {
      captured := captured + [data];
    }

    method BuildTemplateSet(tid: U16, fields: seq<(U16, U16)>) returns (out: Bytes)
      ensures out == TemplateSet(tid, fields)
    {
      ghost var parts := [Be16(tid), Be16(Wrap16(|fields|))];
      var rec := Append([], Be16(tid), parts, 0);
      rec := Append(rec, Be16(Wrap16(|fields|)), parts, 1);
      ghost var full := parts + FieldSpecBytes(fields);
      assert parts[..2] == parts;
      for i := 0 to |fields|
        invariant parts + FieldSpecBytes(fields[i..]) == full
        invariant rec == Flatten(parts)
      {
        var f := fields[i];
        assert fields[i..][1..] == fields[i + 1..];
        ghost var next := parts + [Be16(f.0), Be16(f.1)];
        assert next[..|parts|] == parts && next[..|parts| + 2] == next;
        rec := Append(rec, Be16(f.0), next, |parts|);
        rec := Append(rec, Be16(f.1), next, |parts| + 1);
        parts := next;
      }
      assert parts == full;
      ghost var set3 := [Be16(SET_TEMPLATE), Be16(Wrap16(SET_HDR + |rec|)), rec];
      out := Append([], Be16(SET_TEMPLATE), set3, 0);
      out := Append(out, Be16(Wrap16(SET_HDR + |rec|)), set3, 1);
      out := Append(out, rec, set3, 2);
      BuiltAll(set3);
    }

    /** Version, length, export time, sequence number and domain. */
    method BuildHeader(bodySize: nat, time: U32) returns (m: Bytes)
      ensures m == Flatten(MessageHeader(bodySize, time, seqNo, domain))
    {
      ghost var h := MessageHeader(bodySize, time, seqNo, domain);
      BuiltAll(h);
      m := Append([], Be16(VERSION), h, 0);
      m := Append(m, Be16(Wrap16(MSG_HDR + bodySize)), h, 1);
      m := Append(m, Be32(time), h, 2);
      m := Append(m, Be32(seqNo), h, 3);
      m := Append(m, Be32(domain), h, 4);
    }

    method SendTemplates(time: U32)
      modifies this
      ensures View() == AfterTemplates(old(View()), time)
    {
      hide TemplateSet, MessageHeader, Flatten;
      var body := BuildTemplateSet(IPV4_TID, FIELDS_V4);
      var v6 := BuildTemplateSet(IPV6_TID, FIELDS_V6);
      body := body + v6;
      var m := BuildHeader(|body|, time);
      m := m + body;
      Send(m);
      lastTemplateSent := time;
    }

    /** One datagram carrying `records[from..to]`, `count` records of `body` octets. */
    method EmitChunk(time: U32, setId: U16, records: Records, from: nat, to: nat, count: nat, body: nat)
      requires from <= to <= |records|
      requires count == to - from && body == |Flatten(records[from..to])|
      modifies this
      ensures View() == old(View()).(
        sent := old(captured) + [DataMessage(time, old(seqNo), domain, setId, records[from..to])],
        seqNo := Wrap32(old(seqNo) + count))
    {
      hide BigEndian, Be16, Be32, MessageHeader, Built, Flatten, Wrap32;
      var m := BuildHeader(SET_HDR + body, time);
      ghost var h := MessageHeader(SET_HDR + body, time, seqNo, domain)
                     + [Be16(setId), Be16(Wrap16(SET_HDR + body))];
      BuiltPrefix(MessageHeader(SET_HDR + body, time, seqNo, domain), [Be16(setId), Be16(Wrap16(SET_HDR + body))]);
      BuiltAll(h);
      m := Append(m, Be16(setId), h, 5);
      m := Append(m, Be16(Wrap16(SET_HDR + body)), h, 6);
      assert m == Flatten(h);
      ghost var head := m;
      FlattenNone(records, from);
      for i := from to to
        invariant m == head + Flatten(records[from..i])
        invariant View() == old(View())
      {
        assert records[from..i + 1] == records[from..i] + [records[i]];
        FlattenSnoc(records[from..i], records[i]);
        m := m + records[i];
      }
      Send(m);
      Wrap32Add(seqNo, count);
      seqNo := Wrap32(seqNo + Wrap32(count));
    }

    method FlushSet(time: U32, setId: U16, records: Records)
      modifies this
      ensures View() == AfterSet(old(View()), time, setId, records)
    {
      hide BigEndian, DataMessage, DataMessages, Concat, Flatten, Greedy, ChunkLength, DatagramSize, Wrap32;
      Wrap32Self(seqNo);
      DataMessagesNone(time, seqNo, domain, setId);
      var start, count, body := 0, 0, 0;
      ghost var s, chunks: seq<Records> := View(), [];
      GreedyInit(records);
      for i := 0 to |records|
        invariant i == start + count && (count == 0 ==> i == 0)
        invariant body + MSG_HDR + SET_HDR == DatagramSize(records[start..i])
        invariant Concat(chunks) == records[..start]
        invariant Greedy(records) == chunks + Greedy(records[start..])
        invariant count > 0 ==> ChunkLength(records[start..], count) == ChunkLength(records[start..], 1)
        invariant View() == s.(sent := s.sent + DataMessages(time, s.seqNo, domain, setId, chunks),
                               seqNo := Wrap32(s.seqNo + start))
      {
        var size := |records[i]|;
        SizeStep(records, start, i);
        if count > 0 && MSG_HDR + SET_HDR + body + size > MAX_UDP {
          GreedyCut(records, start, count);
          ghost var chunk := records[start..i];
          DataMessagesSnoc(time, s.seqNo, domain, setId, chunks, chunk);
          ConcatSnoc(chunks, chunk);
          assert records[..i] == records[..start] + chunk;
          BodyOf(chunk);
          EmitChunk(time, setId, records, start, i, count, body);
          Wrap32Add(s.seqNo + start, count);
          chunks := chunks + [chunk];
          start, count, body := i, 0, 0;
          SizeStep(records, i, i);
        } else if count > 0 {
          assert records[start..][..count + 1] == records[start..i + 1];
          ChunkGrows(records[start..], count);
        }
        body := body + size;
        count := count + 1;
      }
      if count > 0 {
        ghost var last := records[start..];
        GreedyEnd(records, start);
        DataMessagesSnoc(time, s.seqNo, domain, setId, chunks, last);
        BodyOf(last);
        EmitChunk(time, setId, records, start, |records|, count, body);
        Wrap32Add(s.seqNo + start, count);
      } else {
        GreedyNone(records);
      }
    }

    method Emit(e: Emission)
      modifies this
      ensures View() == AfterEmit(old(View()), e)
    {
      var rec := EncodeRecord(e, offsetMs);
      if e.key.family == 4 {
        pending4 := pending4 + [rec];
      } else {
        pending6 := pending6 + [rec];
      }
    }

    method Flush(time: U32)
      modifies this
      ensures View() == AfterFlush(old(View()), time)
    {
      hide TemplateMessage, DataMessages, Greedy, Wrap32;
      if Wrap32(time - lastTemplateSent) >= TEMPLATE_INTERVAL_S {
        SendTemplates(time);
      }
      FlushSet(time, IPV4_TID, pending4);
      pending4 := [];
      FlushSet(time, IPV6_TID, pending6);
      pending6 := [];
    }
  }
}
