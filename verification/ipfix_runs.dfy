/** Whole runs of the exporter, seen through the collector. */
module IpfixRuns {
  import opened Words
  import opened Chunking
  import opened IpfixExporter
  import opened Collector
  import opened IpfixDecoding
  import opened IpfixObservations

  /** What the daemon asks of the exporter once it has started. */
  datatype Op = SetOffset(offsetMs: U64) | SendTemplates(time: U32) | Emit(e: Emission) | Flush(time: U32)

  function Apply(s: State, op: Op): State {
    match op
    case SetOffset(o) => s.(offsetMs := o)
    case SendTemplates(t) => AfterTemplates(s, t)
    case Emit(e) => AfterEmit(s, e)
    case Flush(t) => AfterFlush(s, t)
  }

  function Run(s: State, ops: seq<Op>): State {
    if |ops| == 0 then s else Apply(Run(s, ops[..|ops| - 1]), ops[|ops| - 1])
  }

  /** The startup sequence: set the epoch, then announce the templates. */
  function Started(domain: U32, time: U32, offsetMs: U64): State {
    AfterTemplates(State(domain, 0, offsetMs, time, [], [], []), time)
  }

  // ---- what a run is meant to deliver ---------------------------------------

  /** The clock anchor, the samples waiting for a flush, and those flushed. */
  datatype Intent = Intent(offsetMs: U64, pending: seq<Sample>, flushed: seq<Sample>)

  /** The samples of one address family, in order. */
  function Only(samples: seq<Sample>, v4: bool): seq<Sample> {
    if |samples| == 0 then []
    else
      var init, last := Only(samples[..|samples| - 1], v4), samples[|samples| - 1];
      if IsV4(last) == v4 then init + [last] else init
  }

  /** A flush delivers all pending IPv4 samples in order, then all others in order. */
  function Intend(i: Intent, op: Op): Intent {
    match op
    case SetOffset(o) => i.(offsetMs := o)
    case SendTemplates(_) => i
    case Emit(e) => i.(pending := i.pending + [Sample(e, i.offsetMs)])
    case Flush(_) => i.(pending := [], flushed := i.flushed + Only(i.pending, true) + Only(i.pending, false))
  }

  function Intended(offsetMs: U64, ops: seq<Op>): Intent {
    if |ops| == 0 then Intent(offsetMs, [], []) else Intend(Intended(offsetMs, ops[..|ops| - 1]), ops[|ops| - 1])
  }

  function ObservedAll(samples: seq<Sample>): (os: seq<Observation>)
    ensures |os| == |samples|
  {
    seq(|samples|, i requires 0 <= i < |samples| => Observed(samples[i]))
  }

  function InterpretAll(records: seq<DataRecord>): (os: seq<Observation>)
    ensures |os| == |records|
  {
    seq(|records|, i requires 0 <= i < |records| => Interpret(records[i]))
  }

  // ---- what a collector may rely on -----------------------------------------

  /** The time of the latest template message. */
  function LastTemplates(log: seq<Message>): Option<U32> {
    if |log| == 0 then None
    else if log[|log| - 1].learned != {} then Some(log[|log| - 1].time)
    else LastTemplates(log[..|log| - 1])
  }

  /** Message `m`, received after `before`: its sequence field is the number of
      data records in all earlier messages modulo 2^32 (section 3.1 of RFC 7011),
      template messages carry no records, no octet is left over, and data follows
      a template message less than 60 s old modulo 2^32. */
  predicate SoundMessage(before: seq<Message>, m: Message, domain: U32) {
    && m.domain == domain
    && m.padding == 0
    && m.seqNo == Wrap32(|AllRecords(before)|)
    && (m.learned == {} || (m.learned == {256, 257} && m.records == []))
    && (m.records != [] ==>
          LastTemplates(before).Some? && Wrap32(m.time - LastTemplates(before).value) < 60)
  }

  predicate SoundLog(log: seq<Message>, domain: U32) {
    forall i | 0 <= i < |log| :: SoundMessage(log[..i], log[i], domain)
  }

  predicate Within(datagrams: seq<Bytes>) {
    forall d | d in datagrams :: |d| <= 1200
  }

  lemma LogSnoc(log: seq<Message>, m: Message, domain: U32)
    requires SoundLog(log, domain) && SoundMessage(log, m, domain)
    ensures SoundLog(log + [m], domain)
    ensures AllRecords(log + [m]) == AllRecords(log) + m.records
    ensures LastTemplates(log + [m]) == if m.learned != {} then Some(m.time) else LastTemplates(log)
  {
    hide SoundMessage;
    var log' := log + [m];
    assert log'[..|log|] == log;
    forall i | 0 <= i < |log'|
      ensures SoundMessage(log'[..i], log'[i], domain)
    {
      if i < |log| {
        assert log'[..i] == log[..i];
      }
    }
  }

  lemma {:induction false} ReceiveAppend(s: Session, a: seq<Bytes>, b: seq<Bytes>)
    ensures ReceiveAll(s, a + b)
         == match ReceiveAll(s, a) case None => None case Some(s') => ReceiveAll(s', b)
    decreases |a|
  {
    hide Receive;
    if |a| == 0 {
      assert a + b == b;
    } else {
      assert (a + b)[0] == a[0] && (a + b)[1..] == a[1..] + b;
      match Receive(s, a[0])
      case None =>
      case Some(s') => ReceiveAppend(s', a[1..], b);
    }
  }

  lemma RecordsSplit(samples: seq<Sample>, a: Records, b: Records)
    requires RecordsOf(samples) == a + b
    ensures |a| <= |samples|
    ensures RecordsOf(samples[..|a|]) == a && RecordsOf(samples[|a|..]) == b
    ensures DecodedAll(samples) == DecodedAll(samples[..|a|]) + DecodedAll(samples[|a|..])
  {
    hide Record, Decoded;
    assert RecordsOf(samples)[..|a|] == a && RecordsOf(samples)[|a|..] == b;
    assert RecordsOf(samples)[..|a|] == RecordsOf(samples[..|a|]);
    assert RecordsOf(samples)[|a|..] == RecordsOf(samples[|a|..]);
  }

  lemma NoSamples(samples: seq<Sample>)
    requires RecordsOf(samples) == []
    ensures DecodedAll(samples) == []
  {
  }

  /** The datagrams of one data set decode to its records and keep the log sound. */
  lemma {:induction false} DecodeSet(
      c: Session, time: U32, seqNo: U32, domain: U32, tid: U16, samples: seq<Sample>, chunks: seq<Records>)
    requires tid == IPV4_TID || tid == IPV6_TID
    requires forall s | s in samples :: TemplateId(s) == tid
    requires Concat(chunks) == RecordsOf(samples) && forall k | k in chunks :: Fits(k)
    requires c.templates == TEMPLATES && SoundLog(c.log, domain)
    requires seqNo == Wrap32(|AllRecords(c.log)|)
    requires LastTemplates(c.log).Some? && Wrap32(time - LastTemplates(c.log).value) < TEMPLATE_INTERVAL_S
    ensures var ds := DataMessages(time, seqNo, domain, tid, chunks); var r := ReceiveAll(c, ds);
      && r.Some? && r.value.templates == TEMPLATES && SoundLog(r.value.log, domain)
      && AllRecords(r.value.log) == AllRecords(c.log) + DecodedAll(samples)
      && LastTemplates(r.value.log) == LastTemplates(c.log)
      && |r.value.log| == |c.log| + |ds| && Within(ds)
    decreases |chunks|
  {
    hide Receive, DataMessage, TEMPLATES, Wrap32, SoundLog, DecodedAll, RecordsOf, Fits, TemplateId, LastTemplates, AllRecords, FIELDS_V4, FIELDS_V6;
    if |chunks| == 0 {
      NoSamples(samples);
    } else {
      var n := |chunks[0]|;
      var now, later := samples[..n], samples[n..];
      RecordsSplit(samples, chunks[0], Concat(chunks[1..]));
      assert chunks[0] in chunks && forall k | k in chunks[1..] :: k in chunks;
      var m := Message(time, seqNo, domain, {}, DecodedAll(now), 0);
      ReceiveData(c, time, seqNo, domain, tid, now);
      DataMessageSize(time, seqNo, domain, tid, chunks[0]);
      LogSnoc(c.log, m, domain);
      Wrap32Add(|AllRecords(c.log)|, n);
      DecodeSet(Session(TEMPLATES, c.log + [m]), time, Wrap32(seqNo + n), domain, tid, later, chunks[1..]);
      assert (AllRecords(c.log) + DecodedAll(now)) + DecodedAll(later) == AllRecords(c.log) + DecodedAll(samples);
    }
  }

  lemma DataMessageSize(time: U32, seqNo: U32, domain: U32, tid: U16, records: Records)
    requires Fits(records)
    ensures |DataMessage(time, seqNo, domain, tid, records)| == DatagramSize(records) <= MAX_UDP
  {
    hide BigEndian;
    var n := SET_HDR + |Flatten(records)|;
    var h := MessageHeader(n, time, seqNo, domain);
    HeaderSplit(n, time, seqNo, domain, []);
    FlattenAppend(h, [Be16(tid), Be16(Wrap16(n))]);
    SplitWords(tid, Wrap16(n), []);
  }

  lemma SampleFits(s: Sample)
    ensures Fits([Record(s.e, s.offsetMs)])
  {
    hide Record;
    RecordLength(s);
    FlattenSnoc([], Record(s.e, s.offsetMs));
    assert [] + [Record(s.e, s.offsetMs)] == [Record(s.e, s.offsetMs)];
  }

  /** Everything the exporter and a collector of all its datagrams agree on. */
  predicate InStep(s: State, i: Intent, c: Session, domain: U32) {
    && ReceiveAll(EMPTY_SESSION, s.sent) == Some(c)
    && c.templates == TEMPLATES && |c.log| == |s.sent| && Within(s.sent)
    && s.domain == domain && SoundLog(c.log, domain)
    && AllRecords(c.log) == DecodedAll(i.flushed)
    && s.seqNo == Wrap32(|i.flushed|)
    && LastTemplates(c.log) == Some(s.lastTemplate)
  }

  predicate PendingInStep(s: State, i: Intent) {
    && s.offsetMs == i.offsetMs
    && s.pending4 == RecordsOf(Only(i.pending, true))
    && s.pending6 == RecordsOf(Only(i.pending, false))
  }

  lemma OneDatagram(d: Bytes)
    ensures forall s :: ReceiveAll(s, [d]) == Receive(s, d)
  {
    hide Receive;
    var ds := [d];
    var none: seq<Bytes> := [];
    assert ds[1..] == none;
  }

  lemma {:induction false} TemplatesInStep(s: State, i: Intent, c: Session, domain: U32, time: U32) returns (c': Session)
    requires InStep(s, i, c, domain)
    ensures InStep(AfterTemplates(s, time), i, c', domain)
  {
    hide TemplateMessage, TEMPLATES, Receive, Decoded, Wrap32, SoundLog;
    var d := TemplateMessage(time, s.seqNo, s.domain);
    var m := Message(time, s.seqNo, domain, {IPV4_TID, IPV6_TID}, [], 0);
    ReceiveTemplates(c, time, s.seqNo, s.domain);
    ReceiveAppend(EMPTY_SESSION, s.sent, [d]);
    c' := Session(TEMPLATES, c.log + [m]);
    LogSnoc(c.log, m, domain);
    OneDatagram(d);
  }

  lemma ChunksFit(samples: seq<Sample>)
    ensures var chunks := Greedy(RecordsOf(samples));
      Concat(chunks) == RecordsOf(samples) && forall k | k in chunks :: Fits(k)
  {
    hide Greedy, Record, Fits;
    var records := RecordsOf(samples);
    forall r | r in records
      ensures Fits([r])
    {
      var j :| 0 <= j < |records| && records[j] == r;
      SampleFits(samples[j]);
    }
    GreedyIsLossless(records);
    GreedyFits(records);
  }

  lemma {:induction false} SetInStep(s: State, i: Intent, c: Session, domain: U32, time: U32, tid: U16, samples: seq<Sample>)
      returns (c': Session)
    requires InStep(s, i, c, domain)
    requires tid == IPV4_TID || tid == IPV6_TID
    requires forall x | x in samples :: TemplateId(x) == tid
    requires Wrap32(time - s.lastTemplate) < TEMPLATE_INTERVAL_S
    ensures InStep(AfterSet(s, time, tid, RecordsOf(samples)), i.(flushed := i.flushed + samples), c', domain)
  {
    hide DataMessages, Greedy, TEMPLATES, ReceiveAll, Decoded, Record, Wrap32, SoundLog, AllRecords, LastTemplates;
    var records := RecordsOf(samples);
    var chunks := Greedy(records);
    var ds := DataMessages(time, s.seqNo, domain, tid, chunks);
    ChunksFit(samples);
    DecodeSet(c, time, s.seqNo, domain, tid, samples, chunks);
    ReceiveAppend(EMPTY_SESSION, s.sent, ds);
    Wrap32Add(|i.flushed|, |samples|);
    c' := ReceiveAll(c, ds).value;
    assert DecodedAll(i.flushed + samples) == DecodedAll(i.flushed) + DecodedAll(samples);
  }

  lemma {:induction false} OnlyOne(samples: seq<Sample>, v4: bool)
    ensures forall x | x in Only(samples, v4) :: IsV4(x) == v4
  {
    if |samples| == 0 {
    } else {
      OnlyOne(samples[..|samples| - 1], v4);
    }
  }

  /** Before its data, a flush sends the templates again when they are due. */
  lemma {:induction false} FlushTemplates(s: State, i: Intent, c: Session, domain: U32, time: U32) returns (s0: State, c0: Session)
    requires InStep(s, i, c, domain)
    ensures s0 == if TemplatesDue(s, time) then AfterTemplates(s, time) else s
    ensures InStep(s0, i, c0, domain) && Wrap32(time - s0.lastTemplate) < TEMPLATE_INTERVAL_S
  {
    hide InStep;
    s0, c0 := s, c;
    if TemplatesDue(s, time) {
      c0 := TemplatesInStep(s, i, c, domain, time);
      s0 := AfterTemplates(s, time);
      Wrap32Self(0);
    }
  }

  lemma {:induction false} FlushInStep(s: State, i: Intent, c: Session, domain: U32, time: U32) returns (c': Session)
    requires InStep(s, i, c, domain) && PendingInStep(s, i)
    ensures InStep(AfterFlush(s, time), Intend(i, Flush(time)), c', domain)
    ensures PendingInStep(AfterFlush(s, time), Intend(i, Flush(time)))
  {
    hide AfterSet, RecordsOf, InStep, TemplatesDue, TemplateMessage, Wrap32, Only;
    var s0, c0 := FlushTemplates(s, i, c, domain, time);
    var four, six := Only(i.pending, true), Only(i.pending, false);
    OnlyOne(i.pending, true);
    OnlyOne(i.pending, false);
    var c1 := SetInStep(s0, i, c0, domain, time, IPV4_TID, four);
    var t1 := AfterSet(s0, time, IPV4_TID, s0.pending4);
    SetKeeps(s0, time, IPV4_TID, s0.pending4);
    var s1, i1 := t1.(pending4 := []), i.(flushed := i.flushed + four);
    InStepFrame(t1, s1, i1, i1, c1, domain);
    c' := SetInStep(s1, i1, c1, domain, time, IPV6_TID, six);
    SetKeeps(s1, time, IPV6_TID, s1.pending6);
    var t2 := AfterSet(s1, time, IPV6_TID, s1.pending6);
    InStepFrame(t2, t2.(pending6 := []), i1.(flushed := i1.flushed + six), Intend(i, Flush(time)), c', domain);
    NonePending();
  }

  lemma NonePending()
    ensures RecordsOf(Only([], true)) == [] && RecordsOf(Only([], false)) == []
  {
  }

  lemma SetKeeps(s: State, time: U32, tid: U16, records: Records)
    ensures var t := AfterSet(s, time, tid, records);
      t.domain == s.domain && t.lastTemplate == s.lastTemplate && t.offsetMs == s.offsetMs
      && t.pending4 == s.pending4 && t.pending6 == s.pending6
  {
  }

  /** The collector's side depends on neither the pending records nor the anchor. */
  lemma {:induction false} InStepFrame(s: State, t: State, i: Intent, j: Intent, c: Session, domain: U32)
    requires InStep(s, i, c, domain) && i.flushed == j.flushed
    requires t.sent == s.sent && t.domain == s.domain && t.seqNo == s.seqNo && t.lastTemplate == s.lastTemplate
    ensures InStep(t, j, c, domain)
  {
  }

  lemma EmitPending(s: State, i: Intent, e: Emission)
    requires PendingInStep(s, i)
    ensures PendingInStep(AfterEmit(s, e), Intend(i, Emit(e)))
  {
    hide Record;
    var x := Sample(e, i.offsetMs);
    var pending := i.pending + [x];
    assert pending[..|i.pending|] == i.pending;
    assert RecordsOf(Only(i.pending, IsV4(x)) + [x]) == RecordsOf(Only(i.pending, IsV4(x))) + [Record(e, i.offsetMs)];
  }

  lemma EmptyLog(domain: U32)
    ensures SoundLog([], domain)
  {
  }

  lemma {:induction false} StartInStep(domain: U32, time: U32, offsetMs: U64) returns (c: Session)
    ensures InStep(Started(domain, time, offsetMs), Intent(offsetMs, [], []), c, domain)
    ensures PendingInStep(Started(domain, time, offsetMs), Intent(offsetMs, [], []))
  {
    hide TemplateMessage, TEMPLATES, Receive, Decoded, Record, SoundLog, FIELDS_V4, FIELDS_V6;
    var m := Message(time, 0, domain, {256, 257}, [], 0);
    var d := TemplateMessage(time, 0, domain);
    EmptyLog(domain);
    ReceiveTemplates(EMPTY_SESSION, time, 0, domain);
    LogSnoc([], m, domain);
    c := Session(TEMPLATES, [m]);
    assert [] + [m] == [m] && [] + [d] == [d];
    OneDatagram(d);
  }

  lemma {:induction false} RunInStep(domain: U32, time: U32, offsetMs: U64, ops: seq<Op>) returns (c: Session)
    ensures InStep(Run(Started(domain, time, offsetMs), ops), Intended(offsetMs, ops), c, domain)
    ensures PendingInStep(Run(Started(domain, time, offsetMs), ops), Intended(offsetMs, ops))
  {
    hide InStep, PendingInStep, Started, AfterTemplates, AfterEmit, AfterFlush, Only;
    if |ops| == 0 {
      c := StartInStep(domain, time, offsetMs);
    } else {
      var before, op := ops[..|ops| - 1], ops[|ops| - 1];
      var c0 := RunInStep(domain, time, offsetMs, before);
      c := RunStep(Run(Started(domain, time, offsetMs), before), Intended(offsetMs, before), c0, domain, op);
    }
  }

  lemma {:induction false} RunStep(s: State, i: Intent, c0: Session, domain: U32, op: Op) returns (c: Session)
    requires InStep(s, i, c0, domain) && PendingInStep(s, i)
    ensures InStep(Apply(s, op), Intend(i, op), c, domain)
    ensures PendingInStep(Apply(s, op), Intend(i, op))
  {
    hide InStep, AfterFlush, Only, RecordsOf, TemplateMessage, Record;
    c := c0;
    match op
    case SetOffset(o) =>
      InStepFrame(s, Apply(s, op), i, Intend(i, op), c0, domain);
    case SendTemplates(t) =>
      c := TemplatesInStep(s, i, c0, domain, t);
    case Emit(e) =>
      EmitPending(s, i, e);
      InStepFrame(s, Apply(s, op), i, Intend(i, op), c0, domain);
    case Flush(t) =>
      c := FlushInStep(s, i, c0, domain, t);
  }

  // ---- main results ----------------------------------------------------------

  /** For every run after startup, a collector of the datagrams sent accepts them
      all and recovers exactly the observations flushed, in order; every datagram
      is within the limit, and the message log is sound: sequence numbers count
      data records modulo 2^32, nothing is left over, templates are fresh. */
  lemma {:induction false} RunRoundTrip(domain: U32, time: U32, offsetMs: U64, ops: seq<Op>)
    ensures var sent := Run(Started(domain, time, offsetMs), ops).sent;
      var c := ReceiveAll(EMPTY_SESSION, sent);
      && c.Some? && |c.value.log| == |sent| && Within(sent)
      && InterpretAll(AllRecords(c.value.log)) == ObservedAll(Intended(offsetMs, ops).flushed)
      && SoundLog(c.value.log, domain)
  {
    hide Interpret, Observed, Decoded, Run, Intended, SoundLog, ReceiveAll;
    var c := RunInStep(domain, time, offsetMs, ops);
    var flushed := Intended(offsetMs, ops).flushed;
    forall j | 0 <= j < |flushed|
      ensures Interpret(DecodedAll(flushed)[j]) == Observed(flushed[j])
    {
      InterpretDecoded(flushed[j]);
    }
  }

  /** A flush sends a template message, first of all, exactly if the last one is 60 s old
      or more modulo 2^32, and then one datagram for each chunk of the IPv4 records and
      of the others. */
  lemma FlushSends(s: State, time: U32)
    ensures var s', due := AfterFlush(s, time), (time - s.lastTemplate) % TWO_32 >= 60;
      && |s'.sent| == |s.sent| + (if due then 1 else 0) + |Greedy(s.pending4)| + |Greedy(s.pending6)|
      && s.sent <= s'.sent && (due ==> s'.sent[|s.sent|] == TemplateMessage(time, s.seqNo, s.domain))
      && s'.lastTemplate == (if due then time else s.lastTemplate)
      && s'.pending4 == [] && s'.pending6 == []
  {
    hide TemplateMessage, DataMessages, Greedy;
    var s0 := if TemplatesDue(s, time) then AfterTemplates(s, time) else s;
    var s1 := AfterSet(s0, time, IPV4_TID, s0.pending4).(pending4 := []);
    MessageCount(time, s0.seqNo, s0.domain, IPV4_TID, Greedy(s0.pending4));
    MessageCount(time, s1.seqNo, s1.domain, IPV6_TID, Greedy(s1.pending6));
  }

  lemma {:induction false} MessageCount(time: U32, seqNo: U32, domain: U32, tid: U16, chunks: seq<Records>)
    ensures |DataMessages(time, seqNo, domain, tid, chunks)| == |chunks|
    decreases |chunks|
  {
    hide DataMessage;
    if |chunks| > 0 {
      MessageCount(time, Wrap32(seqNo + |chunks[0]|), domain, tid, chunks[1..]);
    }
  }

  /** The daemon's use of the exporter: construct, start up, then serve requests. */
  method Replay(domain: U32, time: U32, offsetMs: U64, ops: seq<Op>) returns (sent: seq<Bytes>)
    ensures sent == Run(Started(domain, time, offsetMs), ops).sent
  {
    hide AfterTemplates, AfterEmit, AfterFlush;
    var exporter := new Exporter(domain);
    exporter.SetEpoch(time, offsetMs);
    exporter.SendTemplates(time);
    assert ops[..0] == [];
    for i := 0 to |ops|
      modifies exporter
      invariant exporter.View() == Run(Started(domain, time, offsetMs), ops[..i])
    {
      assert ops[..i + 1][..i] == ops[..i];
      match ops[i]
      case SetOffset(o) => exporter.SetOffsetMs(o);
      case SendTemplates(t) => exporter.SendTemplates(t);
      case Emit(e) => exporter.Emit(e);
      case Flush(t) => exporter.Flush(t);
    }
    assert ops[..|ops|] == ops;
    sent := exporter.captured;
  }
}
