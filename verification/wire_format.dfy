/** Octets written out from fields, extension headers first, and the header chain they
    make. */
module WireFormat {
  import opened Words
  import opened Packet

  /** The two octets of a 16-bit field. */
  function Word(v: U16): (b: Bytes)
    ensures |b| == 2
  {
    [v / 256, v % 256]
  }

  /** `data` holds `x` at offset `off`. */
  predicate At(data: Bytes, off: nat, x: Bytes) {
    off + |x| <= |data| && forall i | 0 <= i < |x| :: data[off + i] == x[i]
  }

  lemma AtBoth(data: Bytes, off: nat, x: Bytes, y: Bytes)
    ensures At(data, off, x + y) <==> At(data, off, x) && At(data, off + |x|, y)
  {
    var z := x + y;
    if At(data, off, z) {
      assert forall i | 0 <= i < |x| :: x[i] == z[i];
      assert forall i | 0 <= i < |y| :: y[i] == z[|x| + i] && data[off + |x| + i] == data[off + (|x| + i)];
    }
    if At(data, off, x) && At(data, off + |x|, y) {
      forall i | 0 <= i < |z|
        ensures data[off + i] == z[i]
      {
        if i >= |x| {
          assert y[i - |x|] == data[off + |x| + (i - |x|)];
        }
      }
    }
  }

  lemma WordAt(data: Bytes, off: nat, v: U16)
    requires At(data, off, Word(v))
    ensures off + 2 <= |data| && U16At(data, off) == v
  {
    assert data[off + 0] == Word(v)[0] && data[off + 1] == Word(v)[1];
  }

  lemma SliceAt(data: Bytes, off: nat, x: Bytes)
    requires At(data, off, x)
    ensures off + |x| <= |data| && data[off..off + |x|] == x
  {
  }

  // ---- extension headers (sections 4.3 to 4.6 of RFC 8200, section 2.2 of RFC 4302) ----

  /** An extension header. The first three are 8 octets and `n` times 8 more, the
      Authentication header 8 octets and `n` times 4 more; `body` is what follows the
      next-header and length octets. A Fragment header is 8 octets. */
  datatype Ext =
    | HopByHop(n: U8, body: Bytes)
    | Routing(n: U8, body: Bytes)
    | Destination(n: U8, body: Bytes)
    | Authentication(n: U8, body: Bytes)
    | Fragment(reserved: U8, offset: nat, flags: nat, id: Bytes)

  predicate WellSized(e: Ext) {
    match e
    case Authentication(n, body) => |body| == 4 * n + 6
    case Fragment(_, offset, flags, id) => offset < 0x2000 && flags < 8 && |id| == 4
    case _ => |e.body| == 8 * e.n + 6
  }

  function ExtNumber(e: Ext): U8 {
    match e
    case HopByHop(_, _) => 0
    case Routing(_, _) => 43
    case Destination(_, _) => 60
    case Authentication(_, _) => 51
    case Fragment(_, _, _, _) => 44
  }

  function ExtSize(e: Ext): nat {
    match e
    case Authentication(n, _) => 8 + 4 * n
    case Fragment(_, _, _, _) => 8
    case _ => 8 + 8 * e.n
  }

  function ExtBytes(e: Ext, next: U8): Bytes
    requires WellSized(e)
  {
    match e
    case Fragment(reserved, offset, flags, id) => [next, reserved] + Word(offset * 8 + flags) + id
    case _ => [next, e.n] + e.body
  }

  function FirstNumber(exts: seq<Ext>, proto: U8): U8 { if |exts| == 0 then proto else ExtNumber(exts[0]) }

  /** Extension headers in a row, the last one naming `proto`. */
  function ExtsBytes(exts: seq<Ext>, proto: U8): Bytes
    requires forall e | e in exts :: WellSized(e)
  {
    if |exts| == 0 then [] else ExtBytes(exts[0], FirstNumber(exts[1..], proto)) + ExtsBytes(exts[1..], proto)
  }

  function ExtsSize(exts: seq<Ext>): nat {
    if |exts| == 0 then 0 else ExtSize(exts[0]) + ExtsSize(exts[1..])
  }

  predicate IsLater(e: Ext) { e.Fragment? && e.offset != 0 }

  /** The last header is the Fragment header of a fragment other than the first. */
  predicate EndsLater(exts: seq<Ext>) { |exts| > 0 && IsLater(exts[|exts| - 1]) }

  predicate MayFollow(before: Ext, e: Ext) { e.HopByHop? ==> before.Fragment? }

  /** Headers that may follow each other: a Hop-by-Hop header comes first or behind a
      Fragment header, since an option header that names it is refused, and nothing
      readable follows the Fragment header of a later fragment. Behind them is an
      upper-layer protocol, or anything in a later fragment. */
  predicate WellFormed(exts: seq<Ext>, proto: U8) {
    && (forall e | e in exts :: WellSized(e))
    && (forall i, j | 0 <= i < j < |exts| :: !IsLater(exts[i]) && (j == i + 1 ==> MayFollow(exts[i], exts[j])))
    && (EndsLater(exts) || IsUpper(proto))
  }

  lemma {:induction false} ExtsLength(exts: seq<Ext>, proto: U8)
    requires forall e | e in exts :: WellSized(e)
    ensures |ExtsBytes(exts, proto)| == ExtsSize(exts)
  {
    if |exts| > 0 {
      assert exts[0] in exts;
      ExtsLength(exts[1..], proto);
    }
  }

  lemma ExtStep(data: Bytes, off: nat, e: Ext, next: U8)
    requires WellSized(e) && At(data, off, ExtBytes(e, next)) && (next == 0 ==> e.Fragment?)
    ensures off + ExtSize(e) <= |data|
    ensures IsLater(e) ==>
      HeaderChain(data, ExtNumber(e), off) == Upper(next, off + 8, false) && Headers(data, ExtNumber(e), off) == 1
    ensures !IsLater(e) ==>
      && HeaderChain(data, ExtNumber(e), off) == HeaderChain(data, next, off + ExtSize(e))
      && Headers(data, ExtNumber(e), off) == 1 + Headers(data, next, off + ExtSize(e))
  {
    var b := ExtBytes(e, next);
    assert b[0] == next && data[off + 0] == b[0] && data[off + 1] == b[1];
    if e.Fragment? {
      assert data[off + 2] == b[2] && data[off + 3] == b[3];
      assert U16At(data, off + 2) == e.offset * 8 + e.flags;
    }
  }

  /** The headers after the first. */
  lemma Others(exts: seq<Ext>, proto: U8)
    requires WellFormed(exts, proto) && |exts| > 0 && (|exts| > 1 || !IsLater(exts[0]))
    ensures WellSized(exts[0]) && !IsLater(exts[0])
    ensures WellFormed(exts[1..], proto) && EndsLater(exts[1..]) == EndsLater(exts)
    ensures FirstNumber(exts[1..], proto) == 0 ==> exts[0].Fragment?
  {
    var later := exts[1..];
    assert exts[0] in exts && forall x | x in later :: x in exts;
    assert forall i | 0 <= i < |later| :: later[i] == exts[i + 1];
  }

  lemma BytesOfBoth(exts: seq<Ext>, proto: U8)
    requires |exts| > 0 && forall e | e in exts :: WellSized(e)
    ensures WellSized(exts[0]) && forall e | e in exts[1..] :: WellSized(e)
    ensures ExtsBytes(exts, proto) == ExtBytes(exts[0], FirstNumber(exts[1..], proto)) + ExtsBytes(exts[1..], proto)
    ensures |ExtBytes(exts[0], FirstNumber(exts[1..], proto))| == ExtSize(exts[0])
    ensures ExtsSize(exts) == ExtSize(exts[0]) + ExtsSize(exts[1..])
  {
    assert exts[0] in exts;
  }

  /** For every list of extension headers of any kinds and sizes, written out with their
      length fields: the header chain ends at the sum of their sizes, at the protocol the
      last one names, and is as long as the list. */
  lemma {:induction false} ChainOfExts(data: Bytes, off: nat, exts: seq<Ext>, proto: U8)
    requires WellFormed(exts, proto) && off <= |data| && At(data, off, ExtsBytes(exts, proto))
    ensures HeaderChain(data, FirstNumber(exts, proto), off) == Upper(proto, off + ExtsSize(exts), !EndsLater(exts))
    ensures Headers(data, FirstNumber(exts, proto), off) == |exts|
    decreases |exts|
  {
    hide ExtBytes, HeaderChain, Headers, At;
    if |exts| == 0 {
      UpperEnds(data, proto, off);
    } else {
      hide ExtsBytes, ExtsSize, ExtSize;
      var e, later := exts[0], exts[1..];
      BytesOfBoth(exts, proto);
      AtBoth(data, off, ExtBytes(e, FirstNumber(later, proto)), ExtsBytes(later, proto));
      if |later| == 0 && IsLater(e) {
        ExtStep(data, off, e, proto);
        LastOne(exts);
      } else {
        Others(exts, proto);
        hide WellFormed, WellSized, EndsLater, IsLater;
        ExtStep(data, off, e, FirstNumber(later, proto));
        ChainOfExts(data, off + ExtSize(e), later, proto);
      }
    }
  }

  lemma LastOne(exts: seq<Ext>)
    requires |exts| == 1 && IsLater(exts[0])
    ensures ExtsSize(exts) == 8 && EndsLater(exts)
  {
    assert ExtsSize(exts[1..]) == 0;
  }

  lemma ExtLength(e: Ext, next: U8)
    requires WellSized(e)
    ensures |ExtBytes(e, next)| == ExtSize(e)
  {
  }
}
