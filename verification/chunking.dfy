/** Greedy packing of records into datagrams of bounded size. */
module Chunking {
  import opened Words

  const MAX_UDP: nat := 1200
  const MSG_HDR: nat := 16
  const SET_HDR: nat := 4

  type Records = seq<Bytes>

  /** Octets of one datagram carrying `records` in a single set. */
  function DatagramSize(records: Records): nat {
    MSG_HDR + SET_HDR + |Flatten(records)|
  }

  predicate Fits(records: Records) {
    DatagramSize(records) <= MAX_UDP
  }

  function Concat(chunks: seq<Records>): Records {
    if |chunks| == 0 then [] else chunks[0] + Concat(chunks[1..])
  }

  /** An order-preserving partition of `records` into datagrams of at most 1200 octets, 20
      of which are the message's and the set's headers. */
  predicate IsPacking(chunks: seq<Records>, records: Records) {
    Concat(chunks) == records && forall c | c in chunks :: 20 + |Flatten(c)| <= 1200
  }

  /** Length of the chunk that starts `records`, once `n` records are in it. */
  function ChunkLength(records: Records, n: nat): (m: nat)
    requires n <= |records|
    ensures n <= m <= |records|
    ensures m == n || Fits(records[..m])
    ensures m == |records| || !Fits(records[..m + 1])
    decreases |records| - n
  {
    if n == |records| || !Fits(records[..n + 1]) then n else ChunkLength(records, n + 1)
  }

  /** The partition the exporter produces: each datagram takes records for as
      long as they fit, and at least one. */
  function Greedy(records: Records): seq<Records>
    decreases |records|
  {
    if |records| == 0 then []
    else
      var n := ChunkLength(records, 1);
      [records[..n]] + Greedy(records[n..])
  }

  lemma {:induction false} ConcatAppend(a: seq<Records>, b: seq<Records>)
    ensures Concat(a + b) == Concat(a) + Concat(b)
  {
    if |a| == 0 {
      assert a + b == b;
    } else {
      assert (a + b)[0] == a[0] && (a + b)[1..] == a[1..] + b;
      ConcatAppend(a[1..], b);
    }
  }

  /** No record is lost, repeated or moved, and no datagram is empty. */
  lemma {:induction false} GreedyIsLossless(records: Records)
    ensures Concat(Greedy(records)) == records
    ensures forall c | c in Greedy(records) :: |c| > 0
    decreases |records|
  {
    if |records| == 0 {
    } else {
      hide ChunkLength, Fits;
      var n := ChunkLength(records, 1);
      var rest := Greedy(records[n..]);
      GreedyIsLossless(records[n..]);
      assert Greedy(records) == [records[..n]] + rest;
      assert Concat(Greedy(records)) == records[..n] + Concat(rest) by {
        assert ([records[..n]] + rest)[1..] == rest;
      }
    }
  }

  lemma {:induction false} FlattenMonotone(a: Records, n: nat, m: nat)
    requires n <= m <= |a|
    ensures |Flatten(a[..n])| <= |Flatten(a[..m])|
  {
    assert a[..m] == a[..n] + a[n..m];
    FlattenAppend(a[..n], a[n..m]);
  }

  lemma {:induction false} FlattenSuffix(a: Records, i: nat, m: nat)
    requires i <= m <= |a|
    ensures |Flatten(a[i..m])| <= |Flatten(a[..m])|
  {
    assert a[..m] == a[..i] + a[i..m];
    FlattenAppend(a[..i], a[i..m]);
  }

  /** When every record fits a datagram of its own, the exporter's is such a partition. */
  lemma {:induction false} GreedyFits(records: Records)
    requires forall r | r in records :: Fits([r])
    ensures forall c | c in Greedy(records) :: Fits(c)
    ensures IsPacking(Greedy(records), records)
    decreases |records|
  {
    GreedyIsLossless(records);
    if |records| == 0 {
    } else {
      hide ChunkLength;
      var n := ChunkLength(records, 1);
      assert records[..1] == [records[0]];
      GreedyFits(records[n..]);
    }
  }

  /** Starting later never costs more datagrams. */
  lemma {:induction false} GreedySuffix(records: Records, i: nat)
    requires i <= |records|
    ensures |Greedy(records[i..])| <= |Greedy(records)|
    decreases |records|
  {
    if |records| == 0 {
    } else {
      var n := ChunkLength(records, 1);
      var rest := records[n..];
      if n <= i {
        assert records[i..] == rest[i - n..];
        GreedySuffix(rest, i - n);
      } else {
        var late := records[i..];
        var m := ChunkLength(late, 1);
        if i + m < n {
          assert late[..m + 1] == records[i..i + m + 1];
          FlattenMonotone(records, i + m + 1, n);
          FlattenSuffix(records, i, i + m + 1);
          assert false;
        }
        assert late[m..] == rest[i + m - n..];
        GreedySuffix(rest, i + m - n);
      }
    }
  }

  /** No order-preserving packing within the limit uses fewer datagrams. */
  lemma {:induction false} GreedyIsOptimal(records: Records, packing: seq<Records>)
    requires IsPacking(packing, records)
    ensures |Greedy(records)| <= |packing|
    decreases |packing|
  {
    if |packing| == 0 {
    } else {
      var head, tail := packing[0], packing[1..];
      var rest := Concat(tail);
      assert head in packing;
      assert records[..|head|] == head && records[|head|..] == rest;
      GreedyIsOptimal(rest, tail);
      if |records| == 0 {
      } else {
        var n := ChunkLength(records, 1);
        if n < |head| {
          FlattenMonotone(records, n + 1, |head|);
          assert false;
        }
        assert records[n..] == rest[n - |head|..];
        GreedySuffix(rest, n - |head|);
      }
    }
  }

  // Steps of the exporter's packing loop. `start` is where the open chunk
  // begins and `count` how many records it holds.

  lemma GreedyInit(records: Records)
    ensures records[0..] == records
    ensures DatagramSize(records[0..0]) == MSG_HDR + SET_HDR
    ensures Concat([]) == records[..0]
  {
  }

  lemma SizeStep(records: Records, start: nat, i: nat)
    requires start <= i < |records|
    ensures DatagramSize(records[start..start]) == MSG_HDR + SET_HDR
    ensures DatagramSize(records[start..i + 1]) == DatagramSize(records[start..i]) + |records[i]|
  {
    assert records[start..i + 1] == records[start..i] + [records[i]];
    FlattenSnoc(records[start..i], records[i]);
  }

  lemma BodyOf(chunk: Records)
    ensures DatagramSize(chunk) == MSG_HDR + SET_HDR + |Flatten(chunk)|
  {
  }

  lemma ConcatSnoc(chunks: seq<Records>, chunk: Records)
    ensures Concat(chunks + [chunk]) == Concat(chunks) + chunk
  {
    ConcatAppend(chunks, [chunk]);
    assert Concat([chunk]) == chunk + Concat([]);
  }

  /** The open chunk takes one more record while it fits. */
  lemma ChunkGrows(open: Records, count: nat)
    requires 0 < count < |open|
    requires Fits(open[..count + 1])
    ensures ChunkLength(open, count) == ChunkLength(open, count + 1)
  {
  }

  /** A record that does not fit closes the chunk before it. */
  lemma GreedyCut(records: Records, start: nat, count: nat)
    requires 0 < count && start + count < |records|
    requires ChunkLength(records[start..], count) == ChunkLength(records[start..], 1)
    requires !Fits(records[start..start + count + 1])
    ensures Greedy(records[start..]) == [records[start..start + count]] + Greedy(records[start + count..])
  {
    var open := records[start..];
    assert open[..count + 1] == records[start..start + count + 1];
    assert open[..count] == records[start..start + count] && open[count..] == records[start + count..];
  }

  /** The chunk still open after the last record is the last one. */
  lemma {:induction false} GreedyEnd(records: Records, start: nat)
    requires start < |records|
    requires ChunkLength(records[start..], |records| - start) == ChunkLength(records[start..], 1)
    ensures records[start..|records|] == records[start..]
    ensures Greedy(records[start..]) == [records[start..]]
  {
    var open := records[start..];
    assert open[..|open|] == open && open[|open|..] == [];
  }

  lemma GreedyNone(records: Records)
    ensures |records| == 0 ==> Greedy(records) == []
  {
  }
}
