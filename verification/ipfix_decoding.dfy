/** What the collector makes of each message the exporter builds. */
module IpfixDecoding {
  import opened Words
  import opened Chunking
  import opened IpfixExporter
  import opened Collector

  const TEMPLATES: map<U16, Template> := map[IPV4_TID := FIELDS_V4, IPV6_TID := FIELDS_V6]

  /** An emission together with the clock anchor in force when it was made. */
  datatype Sample = Sample(e: Emission, offsetMs: U64)

  predicate IsV4(s: Sample) { s.e.key.family == 4 }

  function TemplateId(s: Sample): U16 { if IsV4(s) then IPV4_TID else IPV6_TID }

  function RecordsOf(samples: seq<Sample>): (rs: Records)
    ensures |rs| == |samples|
  {
    seq(|samples|, i requires 0 <= i < |samples| => Record(samples[i].e, samples[i].offsetMs))
  }

  // ---- fixed-width fields --------------------------------------------------

  function Lengths(parts: seq<Bytes>): (ws: seq<nat>)
    ensures |ws| == |parts|
  {
    seq(|parts|, i requires 0 <= i < |parts| => |parts[i]|)
  }

  /** Cutting a concatenation at its parts' lengths gives the parts back. */
  lemma {:induction false} SplitFlatten(parts: seq<Bytes>, rest: Bytes)
    ensures Split(Lengths(parts), Flatten(parts) + rest) == Some((parts, rest))
  {
    var ws, b := Lengths(parts), Flatten(parts) + rest;
    if |parts| == 0 {
      assert b == rest;
    } else {
      assert ws[1..] == Lengths(parts[1..]);
      assert b[..ws[0]] == parts[0] && b[ws[0]..] == Flatten(parts[1..]) + rest;
      SplitFlatten(parts[1..], rest);
      assert [parts[0]] + parts[1..] == parts;
    }
  }

  lemma SplitWords(a: U16, b: U16, rest: Bytes)
    ensures Flatten([Be16(a), Be16(b)]) == Be16(a) + Be16(b)
    ensures Split([2, 2], Be16(a) + Be16(b) + rest) == Some(([Be16(a), Be16(b)], rest))
  {
    hide BigEndian;
    var parts := [Be16(a), Be16(b)];
    assert Lengths(parts) == [2, 2];
    FlattenSnoc([Be16(a)], Be16(b));
    FlattenSnoc([], Be16(a));
    assert [Be16(a)] + [Be16(b)] == parts && [] + [Be16(a)] == [Be16(a)];
    SplitFlatten(parts, rest);
  }

  // ---- template records ----------------------------------------------------

  /** Field specifiers a collector reads back: no enterprise bit, fixed length. */
  predicate Plain(fields: seq<(U16, U16)>) {
    forall i | 0 <= i < |fields| :: fields[i].0 < 0x8000 && fields[i].1 != 0xffff
  }

  lemma {:induction false} FieldsRoundTrip(fields: seq<(U16, U16)>, rest: Bytes)
    requires Plain(fields)
    ensures ParseFields(|fields|, Flatten(FieldSpecBytes(fields)) + rest) == Some((fields, rest))
  {
    hide BigEndian, Split;
    var b := Flatten(FieldSpecBytes(fields)) + rest;
    if |fields| == 0 {
      assert b == rest;
    } else {
      var (ie, len) := fields[0];
      var tail := Flatten(FieldSpecBytes(fields[1..])) + rest;
      FlattenAppend([Be16(ie), Be16(len)], FieldSpecBytes(fields[1..]));
      SplitWords(ie, len, tail);
      assert b == Be16(ie) + Be16(len) + tail;
      BeRoundTrip(ie, 0, 0);
      BeRoundTrip(len, 0, 0);
      FieldsRoundTrip(fields[1..], rest);
      assert [(ie, len)] + fields[1..] == fields;
    }
  }

  lemma TemplateRoundTrip(known: map<U16, Template>, learned: set<U16>, tid: U16, fields: seq<(U16, U16)>)
    requires Plain(fields) && |fields| < 0x1_0000 && tid >= 256
    ensures ParseTemplates(known, learned, TemplateRecord(tid, fields))
         == Some((known[tid := fields], learned + {tid}, 0))
  {
    hide BigEndian, FromBigEndian, Be16, FieldSpecBytes, Flatten, ParseFields, Split;
    var specs := Flatten(FieldSpecBytes(fields));
    FlattenAppend([Be16(tid), Be16(|fields|)], FieldSpecBytes(fields));
    SplitWords(tid, |fields|, specs);
    BeRoundTrip(tid, 0, 0);
    BeRoundTrip(|fields|, 0, 0);
    FieldsRoundTrip(fields, []);
    assert specs + [] == specs;
    assert TemplateRecord(tid, fields) == Be16(tid) + Be16(|fields|) + specs;
    NoRecordHeader();
  }

  lemma NoRecordHeader()
    ensures Split([2, 2], []) == None
  {
  }

  // ---- data records --------------------------------------------------------

  function TemplateOf(tid: U16): Template {
    if tid == IPV4_TID then FIELDS_V4 else FIELDS_V6
  }

  function Decoded(s: Sample): DataRecord {
    var t := TemplateOf(TemplateId(s));
    assert |t| == FIELD_COUNT;
    DataRecord(TemplateId(s), Label(t, RecordFields(s.e, s.offsetMs)))
  }

  function DecodedAll(samples: seq<Sample>): (rs: seq<DataRecord>)
    ensures |rs| == |samples|
  {
    seq(|samples|, i requires 0 <= i < |samples| => Decoded(samples[i]))
  }

  /** Every field of a record has the length its template announces. */
  lemma FieldLengths(s: Sample)
    ensures var t := TemplateOf(TemplateId(s));
      |t| == FIELD_COUNT && Lengths(RecordFields(s.e, s.offsetMs)) == Widths(t)
  {
    hide BigEndian;
    var t := TemplateOf(TemplateId(s));
    assert |t| == FIELD_COUNT;
    forall i | 0 <= i < FIELD_COUNT
      ensures |Field(s.e, s.offsetMs, i)| == t[i].1
    {
      FieldLength(s, i);
    }
  }

  lemma FieldLength(s: Sample, i: nat)
    requires i < FIELD_COUNT
    ensures |Field(s.e, s.offsetMs, i)| == TemplateOf(TemplateId(s))[i].1
  {
    hide BigEndian, Be16, Be32, Be64;
    if i < 8 {
    } else if i < 13 {
    } else {
    }
  }

  /** The octets a record occupies, by template. */
  function RecordSize(tid: U16): nat { if tid == IPV4_TID then 67 else 91 }

  lemma {:induction false} FlattenLength(parts: seq<Bytes>)
    ensures |Flatten(parts)| == Sum(Lengths(parts))
  {
    if |parts| == 0 {
    } else {
      FlattenLength(parts[1..]);
      assert Lengths(parts)[1..] == Lengths(parts[1..]);
    }
  }

  lemma SumFrom(ws: seq<nat>, i: nat)
    requires i < |ws|
    ensures Sum(ws[i..]) == ws[i] + Sum(ws[i + 1..])
  {
    assert ws[i..][1..] == ws[i + 1..];
  }

  /** The size of a record of 19 fields. */
  lemma TemplateSum(t: Template)
    requires |t| == FIELD_COUNT
    ensures var ws := Widths(t);
      Sum(ws) == ws[0] + ws[1] + ws[2] + ws[3] + ws[4] + ws[5] + ws[6] + ws[7] + ws[8] + ws[9] + ws[10]
                 + ws[11] + ws[12] + ws[13] + ws[14] + ws[15] + ws[16] + ws[17] + ws[18]
  {
    var ws := Widths(t);
    SumFrom(ws, 18);
    SumFrom(ws, 17);
    SumFrom(ws, 16);
    SumFrom(ws, 15);
    SumFrom(ws, 14);
    SumFrom(ws, 13);
    SumFrom(ws, 12);
    SumFrom(ws, 11);
    SumFrom(ws, 10);
    SumFrom(ws, 9);
    SumFrom(ws, 8);
    SumFrom(ws, 7);
    SumFrom(ws, 6);
    SumFrom(ws, 5);
    SumFrom(ws, 4);
    SumFrom(ws, 3);
    SumFrom(ws, 2);
    SumFrom(ws, 1);
    SumFrom(ws, 0);
    assert ws[0..] == ws && ws[19..] == [];
  }

  lemma TemplateSums()
    ensures Sum(Widths(FIELDS_V4)) == 67 && Sum(Widths(FIELDS_V6)) == 91
  {
    hide Sum;
    TemplateSum(FIELDS_V4);
    TemplateSum(FIELDS_V6);
  }

  lemma RecordLength(s: Sample)
    ensures |Record(s.e, s.offsetMs)| == RecordSize(TemplateId(s))
  {
    hide BigEndian, Field;
    FieldLengths(s);
    FlattenLength(RecordFields(s.e, s.offsetMs));
    TemplateSums();
  }

  /** A data set decodes to exactly its records, with no octet left over. */
  lemma {:induction false} DataRoundTrip(tid: U16, samples: seq<Sample>)
    requires forall s | s in samples :: TemplateId(s) == tid
    requires tid == IPV4_TID || tid == IPV6_TID
    ensures ParseData(tid, TemplateOf(tid), Flatten(RecordsOf(samples))) == (DecodedAll(samples), 0)
    decreases |samples|
  {
    hide Split, Field, Label, Record, FIELDS_V4, FIELDS_V6;
    var b := Flatten(RecordsOf(samples));
    if |samples| == 0 {
      EmptySplit(tid);
    } else {
      var s, later := samples[0], samples[1..];
      var rest := Flatten(RecordsOf(later));
      assert RecordsOf(samples)[1..] == RecordsOf(later);
      assert b == Record(s.e, s.offsetMs) + rest;
      assert s in samples;
      RecordLength(s);
      RecordSplit(s, rest);
      DataRoundTrip(tid, later);
      assert [Decoded(s)] + DecodedAll(later) == DecodedAll(samples);
    }
  }

  lemma RecordSplit(s: Sample, rest: Bytes)
    ensures Split(Widths(TemplateOf(TemplateId(s))), Record(s.e, s.offsetMs) + rest)
         == Some((RecordFields(s.e, s.offsetMs), rest))
  {
    hide Field;
    FieldLengths(s);
    SplitFlatten(RecordFields(s.e, s.offsetMs), rest);
  }

  lemma EmptySplit(tid: U16)
    ensures Split(Widths(TemplateOf(tid)), []) == None
  {
    assert Widths(TemplateOf(tid))[0] > 0;
  }

  // ---- messages ------------------------------------------------------------

  lemma HeaderSplit(bodySize: nat, time: U32, seqNo: U32, domain: U32, body: Bytes)
    ensures Split(HEADER_WIDTHS, Flatten(MessageHeader(bodySize, time, seqNo, domain)) + body)
         == Some((MessageHeader(bodySize, time, seqNo, domain), body))
    ensures |Flatten(MessageHeader(bodySize, time, seqNo, domain))| == MSG_HDR
  {
    hide BigEndian;
    var h := MessageHeader(bodySize, time, seqNo, domain);
    assert Lengths(h) == HEADER_WIDTHS;
    SplitFlatten(h, body);
    FlattenLength(h);
    assert Sum([2, 2, 4, 4, 4]) == 16;
  }

  /** A well-formed header reads back as written. */
  lemma HeaderRoundTrip(time: U32, seqNo: U32, domain: U32, body: Bytes)
    requires MSG_HDR + |body| < 0x1_0000
    ensures ParseHeader(Flatten(MessageHeader(|body|, time, seqNo, domain)) + body)
         == Some((Message(time, seqNo, domain, {}, [], 0), body))
  {
    hide BigEndian, FromBigEndian, Be16, Be32, Split, Flatten;
    HeaderSplit(|body|, time, seqNo, domain, body);
    BeRoundTrip(VERSION, time, 0);
    BeRoundTrip(MSG_HDR + |body|, seqNo, 0);
    BeRoundTrip(0, domain, 0);
  }

  /** A set with its true length is parsed whole, and the rest after it. */
  lemma SetRoundTrip(m: Message, known: map<U16, Template>, id: U16, content: Bytes, rest: Bytes)
    requires SET_HDR + |content| < 0x1_0000
    ensures ParseSets(m, known, Be16(id) + Be16(SET_HDR + |content|) + content + rest)
         == match ParseSet(m, known, id, content)
            case None => None
            case Some((m', known')) => ParseSets(m', known', rest)
  {
    hide BigEndian, FromBigEndian, Be16, Split, ParseSet;
    var n: U16 := SET_HDR + |content|;
    var b := Be16(id) + Be16(n) + content + rest;
    assert b == Be16(id) + Be16(n) + (content + rest);
    SplitWords(id, n, content + rest);
    BeRoundTrip(id, 0, 0);
    BeRoundTrip(n, 0, 0);
    assert b[4..n] == content && b[n..] == rest;
  }

  lemma ReceiveData(c: Session, time: U32, seqNo: U32, domain: U32, tid: U16, samples: seq<Sample>)
    requires c.templates == TEMPLATES
    requires tid == IPV4_TID || tid == IPV6_TID
    requires forall s | s in samples :: TemplateId(s) == tid
    requires Fits(RecordsOf(samples))
    ensures Receive(c, DataMessage(time, seqNo, domain, tid, RecordsOf(samples)))
         == Some(Session(TEMPLATES, c.log + [Message(time, seqNo, domain, {}, DecodedAll(samples), 0)]))
  {
    hide BigEndian, ParseHeader, ParseSets, ParseData, FIELDS_V4, FIELDS_V6, TemplateId, MessageHeader, Be16;
    var content := Flatten(RecordsOf(samples));
    DataMessageParts(time, seqNo, domain, tid, RecordsOf(samples));
    HeaderRoundTrip(time, seqNo, domain, Be16(tid) + Be16(SET_HDR + |content|) + content);
    var m := Message(time, seqNo, domain, {}, [], 0);
    SetRoundTrip(m, TEMPLATES, tid, content, []);
    assert Be16(tid) + Be16(SET_HDR + |content|) + content + [] == Be16(tid) + Be16(SET_HDR + |content|) + content;
    DataRoundTrip(tid, samples);
    assert [] + DecodedAll(samples) == DecodedAll(samples);
    NoSets(m.(records := DecodedAll(samples)));
  }

  lemma NoSets(m: Message)
    ensures ParseSets(m, TEMPLATES, []) == Some((m, TEMPLATES))
  {
  }

  lemma DataMessageParts(time: U32, seqNo: U32, domain: U32, tid: U16, records: Records)
    requires Fits(records)
    ensures var content := Flatten(records);
      var body := Be16(tid) + Be16(SET_HDR + |content|) + content;
      DataMessage(time, seqNo, domain, tid, records) == Flatten(MessageHeader(|body|, time, seqNo, domain)) + body
  {
    hide BigEndian, Be16, MessageHeader;
    var content := Flatten(records);
    var h := MessageHeader(SET_HDR + |content|, time, seqNo, domain);
    FlattenAppend(h, [Be16(tid), Be16(SET_HDR + |content|)]);
    SplitWords(tid, SET_HDR + |content|, []);
  }

  lemma {:induction false} ReceiveTemplates(c: Session, time: U32, seqNo: U32, domain: U32)
    requires c.templates == map[] || c.templates == TEMPLATES
    ensures Receive(c, TemplateMessage(time, seqNo, domain))
         == Some(Session(TEMPLATES, c.log + [Message(time, seqNo, domain, {256, 257}, [], 0)]))
    ensures TEMPLATES.Keys == {256, 257} && |TEMPLATES[256]| == |TEMPLATES[257]| == 19
    ensures |TemplateMessage(time, seqNo, domain)| == 184
  {
    hide BigEndian, ParseHeader, ParseSets, ParseTemplates, TemplateRecord, Flatten, Be16, MessageHeader;
    TemplateSetBytes(IPV4_TID, FIELDS_V4);
    TemplateSetBytes(IPV6_TID, FIELDS_V6);
    var r4, r6 := TemplateRecord(IPV4_TID, FIELDS_V4), TemplateRecord(IPV6_TID, FIELDS_V6);
    var set4, set6 := TemplateSet(IPV4_TID, FIELDS_V4), TemplateSet(IPV6_TID, FIELDS_V6);
    HeaderRoundTrip(time, seqNo, domain, set4 + set6);
    HeaderSplit(|set4 + set6|, time, seqNo, domain, set4 + set6);
    var m := Message(time, seqNo, domain, {}, [], 0);
    var m4, m6 := m.(learned := {IPV4_TID}), m.(learned := {IPV4_TID, IPV6_TID});
    var known := c.templates[IPV4_TID := FIELDS_V4];
    assert known[IPV6_TID := FIELDS_V6] == TEMPLATES;
    TemplateRoundTrip(c.templates, {}, IPV4_TID, FIELDS_V4);
    TemplateRoundTrip(known, {IPV4_TID}, IPV6_TID, FIELDS_V6);
    assert {} + {IPV4_TID} == {IPV4_TID};
    assert {IPV4_TID} + {IPV6_TID} == {IPV4_TID, IPV6_TID};
    SetRoundTrip(m, c.templates, SET_TEMPLATE, r4, set6);
    SetRoundTrip(m4, known, SET_TEMPLATE, r6, []);
    assert set6 + [] == set6;
    NoSets(m6);
  }

  lemma {:induction false} SpecsLength(fields: seq<(U16, U16)>)
    ensures |Flatten(FieldSpecBytes(fields))| == 4 * |fields|
  {
    hide BigEndian;
    if |fields| == 0 {
    } else {
      SpecsLength(fields[1..]);
      SplitWords(fields[0].0, fields[0].1, []);
      FlattenAppend([Be16(fields[0].0), Be16(fields[0].1)], FieldSpecBytes(fields[1..]));
    }
  }

  lemma TemplateRecordLength(tid: U16, fields: seq<(U16, U16)>)
    requires |fields| == FIELD_COUNT
    ensures |TemplateRecord(tid, fields)| == 80
  {
    hide BigEndian, FieldSpecBytes;
    SpecsLength(fields);
    SplitWords(tid, |fields|, []);
    FlattenAppend([Be16(tid), Be16(|fields|)], FieldSpecBytes(fields));
  }

  lemma TemplateSetBytes(tid: U16, fields: seq<(U16, U16)>)
    requires |fields| == FIELD_COUNT
    ensures var rec := TemplateRecord(tid, fields);
      |rec| == 80 && TemplateSet(tid, fields) == Be16(SET_TEMPLATE) + Be16(SET_HDR + |rec|) + rec
  {
    hide BigEndian, TemplateRecord;
    TemplateRecordLength(tid, fields);
    var rec := TemplateRecord(tid, fields);
    SplitWords(SET_TEMPLATE, SET_HDR + |rec|, []);
    FlattenSnoc([Be16(SET_TEMPLATE), Be16(SET_HDR + |rec|)], rec);
    assert [Be16(SET_TEMPLATE), Be16(SET_HDR + |rec|)] + [rec] == [Be16(SET_TEMPLATE), Be16(SET_HDR + |rec|), rec];
  }
}
