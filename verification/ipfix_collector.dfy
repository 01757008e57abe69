/** A template-driven IPFIX collector, written from sections 3.1 to 3.4 of
    RFC 7011 and independent of how the exporter builds its messages. */
module Collector {
  import opened Words

  /** Field specifiers: information element and length. */
  type Template = seq<(U16, U16)>

  /** A data record: its fields' information elements and octets, in order. */
  datatype DataRecord = DataRecord(templateId: U16, fields: seq<(U16, Bytes)>)

  /** What one message said. `padding` counts octets left over in its sets. */
  datatype Message = Message(
    time: U32,
    seqNo: U32,
    domain: U32,
    learned: set<U16>,
    records: seq<DataRecord>,
    padding: nat)

  /** Templates known so far and the messages received, oldest first. */
  datatype Session = Session(templates: map<U16, Template>, log: seq<Message>)

  const EMPTY_SESSION: Session := Session(map[], [])

  /** Cut a byte string into fields of the given widths; None if it is too short. */
  function Split(widths: seq<nat>, b: Bytes): Option<(seq<Bytes>, Bytes)> {
    if |widths| == 0 then Some(([], b))
    else if |b| < widths[0] then None
    else
      match Split(widths[1..], b[widths[0]..])
      case None => None
      case Some((parts, rest)) => Some(([b[..widths[0]]] + parts, rest))
  }

  function Widths(t: Template): (ws: seq<nat>)
    ensures |ws| == |t|
  {
    seq(|t|, i requires 0 <= i < |t| => t[i].1)
  }

  function Label(t: Template, parts: seq<Bytes>): seq<(U16, Bytes)>
    requires |t| == |parts|
  {
    seq(|t|, i requires 0 <= i < |t| => (t[i].0, parts[i]))
  }

  lemma {:induction false} SplitShape(widths: seq<nat>, b: Bytes)
    ensures var r := Split(widths, b);
      r.Some? ==> (|r.value.0| == |widths| && |r.value.1| <= |b|
                   && forall i | 0 <= i < |widths| :: |r.value.0[i]| == widths[i])
  {
    if |widths| == 0 || |b| < widths[0] {
    } else {
      SplitShape(widths[1..], b[widths[0]..]);
    }
  }

  /** Field specifiers of a template record (section 3.2). Enterprise-specific
      elements carry four more octets; variable-length fields are not supported. */
  function ParseFields(count: nat, b: Bytes): Option<(Template, Bytes)>
    decreases count
  {
    if count == 0 then Some(([], b))
    else
      match Split([2, 2], b)
      case None => None
      case Some((h, rest)) =>
        SplitShape([2, 2], b);
        WireWord(h[0]);
        WireWord(h[1]);
        var ie: U16, len: U16 := FromBigEndian(h[0]), FromBigEndian(h[1]);
        if len == 0xffff || (ie >= 0x8000 && |rest| < 4) then None
        else
          match ParseFields(count - 1, if ie >= 0x8000 then rest[4..] else rest)
          case None => None
          case Some((t, rest')) => Some(([(ie, len)] + t, rest'))
  }

  /** The number in `b` fits 16 (32) bits when `b` has two (four) octets. */
  lemma WireWord(b: Bytes)
    ensures |b| == 2 ==> FromBigEndian(b) < 0x1_0000
    ensures |b| == 4 ==> FromBigEndian(b) < TWO_32
  {
    if |b| == 2 {
      assert b[..1][..0] == [];
      assert FromBigEndian(b[..1]) == b[0];
    } else if |b| == 4 {
      assert b[..3][..2] == b[..2] && b[..2][..1] == b[..1] && b[..1][..0] == [];
      assert FromBigEndian(b[..1]) == b[0];
      assert FromBigEndian(b[..2]) == 256 * (b[0] as int) + b[1];
      assert FromBigEndian(b[..3]) == 256 * FromBigEndian(b[..2]) + b[2];
    }
  }

  lemma {:induction false} ParseFieldsShape(count: nat, b: Bytes)
    ensures var r := ParseFields(count, b); r.Some? ==> |r.value.1| <= |b|
    decreases count
  {
    if count == 0 {
    } else {
      var s := Split([2, 2], b);
      SplitShape([2, 2], b);
      if s.Some? {
        var (h, rest) := s.value;
        var ie := FromBigEndian(h[0]);
        if ie >= 0x8000 && |rest| >= 4 {
          ParseFieldsShape(count - 1, rest[4..]);
        } else {
          ParseFieldsShape(count - 1, rest);
        }
      }
    }
  }

  /** The template records of a template set (sections 3.3.2 and 3.4.1). A
      remainder too short for another record header is padding. */
  function ParseTemplates(known: map<U16, Template>, learned: set<U16>, b: Bytes)
    : Option<(map<U16, Template>, set<U16>, nat)>
    decreases |b|
  {
    match Split([2, 2], b)
    case None => Some((known, learned, |b|))
    case Some((h, rest)) =>
      SplitShape([2, 2], b);
      SplitConsumes([2, 2], b);
      WireWord(h[0]);
      var tid: U16 := FromBigEndian(h[0]);
      if tid < 256 then None
      else
        match ParseFields(FromBigEndian(h[1]), rest)
        case None => None
        case Some((t, rest')) =>
          ParseFieldsShape(FromBigEndian(h[1]), rest);
          ParseTemplates(known[tid := t], learned + {tid}, rest')
  }

  lemma {:induction false} SplitConsumes(widths: seq<nat>, b: Bytes)
    ensures var r := Split(widths, b); r.Some? ==> |b| == Sum(widths) + |r.value.1|
  {
    if |widths| == 0 || |b| < widths[0] {
    } else {
      SplitConsumes(widths[1..], b[widths[0]..]);
    }
  }

  /** The data records of a data set (section 3.4.3): as many as fit, the rest
      is padding. */
  function ParseData(tid: U16, t: Template, b: Bytes): (seq<DataRecord>, nat)
    decreases |b|
  {
    match Split(Widths(t), b)
    case None => ([], |b|)
    case Some((parts, rest)) =>
      SplitShape(Widths(t), b);
      if |rest| >= |b| then ([], |b|)
      else
        var (records, padding) := ParseData(tid, t, rest);
        ([DataRecord(tid, Label(t, parts))] + records, padding)
  }

  /** The records of one set, by set identifier. Sets whose identifier names no
      known template are skipped. */
  function ParseSet(m: Message, known: map<U16, Template>, id: U16, content: Bytes)
    : Option<(Message, map<U16, Template>)>
  {
    if id == 2 then
      match ParseTemplates(known, m.learned, content)
      case None => None
      case Some((known', learned, padding)) =>
        Some((m.(learned := learned, padding := m.padding + padding), known'))
    else if id >= 256 && id in known then
      var (records, padding) := ParseData(id, known[id], content);
      Some((m.(records := m.records + records, padding := m.padding + padding), known))
    else Some((m, known))
  }

  /** The sets of a message body (section 3.3): a set is a two-octet identifier,
      a two-octet length that includes this header, and its records. */
  function ParseSets(m: Message, known: map<U16, Template>, b: Bytes): Option<(Message, map<U16, Template>)>
    decreases |b|
  {
    if |b| == 0 then Some((m, known))
    else
      match Split([2, 2], b)
      case None => None
      case Some((h, _)) =>
        SplitShape([2, 2], b);
        WireWord(h[0]);
        var len := FromBigEndian(h[1]);
        if len < 4 || len > |b| then None
        else
          match ParseSet(m, known, FromBigEndian(h[0]), b[4..len])
          case None => None
          case Some((m', known')) => ParseSets(m', known', b[len..])
  }

  const HEADER_WIDTHS: seq<nat> := [2, 2, 4, 4, 4]

  /** The message header (section 3.1) and the octets after it. */
  function ParseHeader(datagram: Bytes): Option<(Message, Bytes)> {
    match Split(HEADER_WIDTHS, datagram)
    case None => None
    case Some((h, body)) =>
      SplitShape(HEADER_WIDTHS, datagram);
      HeaderWords(h);
      if FromBigEndian(h[0]) != 10 || FromBigEndian(h[1]) != |datagram| then None
      else Some((Message(FromBigEndian(h[2]), FromBigEndian(h[3]), FromBigEndian(h[4]), {}, [], 0), body))
  }

  lemma HeaderWords(h: seq<Bytes>)
    requires |h| == 5 && forall i | 0 <= i < 5 :: |h[i]| == HEADER_WIDTHS[i]
    ensures FromBigEndian(h[2]) < TWO_32 && FromBigEndian(h[3]) < TWO_32 && FromBigEndian(h[4]) < TWO_32
  {
    WireWord(h[2]);
    WireWord(h[3]);
    WireWord(h[4]);
  }

  /** One datagram holding one message; None if it is malformed. */
  function Receive(s: Session, datagram: Bytes): Option<Session> {
    match ParseHeader(datagram)
    case None => None
    case Some((m, body)) =>
      match ParseSets(m, s.templates, body)
      case None => None
      case Some((m', known)) => Some(Session(known, s.log + [m']))
  }

  /** A whole stream of datagrams, in order. */
  function ReceiveAll(s: Session, datagrams: seq<Bytes>): Option<Session>
    decreases |datagrams|
  {
    if |datagrams| == 0 then Some(s)
    else
      match Receive(s, datagrams[0])
      case None => None
      case Some(s') => ReceiveAll(s', datagrams[1..])
  }

  /** Every data record received, oldest first. */
  function AllRecords(log: seq<Message>): seq<DataRecord> {
    if |log| == 0 then [] else AllRecords(log[..|log| - 1]) + log[|log| - 1].records
  }

  /** The octets a record carries for one information element. */
  function Find(fields: seq<(U16, Bytes)>, ie: U16): Option<Bytes> {
    if |fields| == 0 then None
    else if fields[0].0 == ie then Some(fields[0].1)
    else Find(fields[1..], ie)
  }

  /** The unsigned value of an information element; 0 when it is absent. */
  function Number(r: DataRecord, ie: U16): nat {
    match Find(r.fields, ie)
    case Some(b) => FromBigEndian(b)
    case None => 0
  }

  function Octets(r: DataRecord, ie: U16): Bytes {
    match Find(r.fields, ie)
    case Some(b) => b
    case None => []
  }
}
