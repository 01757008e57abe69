/** What a drop record says of the packets it was made from. */
module DropSummary {
  import opened Words
  import opened Flow
  import opened Packet
  import opened Dataplane
  import opened Drops
  import FlowSummary

  const NO_DROPS: Trace := Trace(map[], 0, 0)

  function RunDrops(attached: set<U32>, ds: seq<Drop>): Trace {
    if |ds| == 0 then NO_DROPS else AfterDrop(RunDrops(attached, ds[..|ds| - 1]), attached, ds[|ds| - 1])
  }

  predicate Observed(attached: set<U32>, d: Drop) { d.device.Some? && d.device.value in attached }

  predicate BelongsTo(attached: set<U32>, d: Drop, k: DropKey) { Observed(attached, d) && KeyOfDrop(d) == Some(k) }

  /** The drops of one key, oldest first, from the one the map had room for on. */
  function Recorded(attached: set<U32>, ds: seq<Drop>, k: DropKey): seq<Drop> {
    if |ds| == 0 then []
    else
      var init, d := Recorded(attached, ds[..|ds| - 1], k), ds[|ds| - 1];
      if BelongsTo(attached, d, k) && (init != [] || d.fits) then init + [d] else init
  }

  function LengthOf(d: Drop): nat { if d.mem.Some? then DropTuple(d.mem.value, d.etherType).0 else 0 }

  function FlagsOf(d: Drop): U16 { if d.mem.Some? then DropTuple(d.mem.value, d.etherType).1.tcpFlags else 0 }

  function TosOfDrop(d: Drop): U8 { if d.mem.Some? then DropTuple(d.mem.value, d.etherType).1.tos else 0 }

  function Lengths(ds: seq<Drop>): nat {
    if |ds| == 0 then 0 else Lengths(ds[..|ds| - 1]) + LengthOf(ds[|ds| - 1])
  }

  /** The record tells of its drops: how many and how long, modulo 2^64, when the first and
      the last came, the first one's TOS, and each TCP flag that any of them had. */
  ghost predicate Summarises(v: FlowValue, ds: seq<Drop>)
    requires |ds| > 0
  {
    && v.packets == Wrap64(|ds|) && v.bytes == Wrap64(Lengths(ds))
    && v.firstSeen == ds[0].now && v.lastSeen == ds[|ds| - 1].now
    && v.tos == TosOfDrop(ds[0]) && v.vlanId == 0
    && (forall bit :: FlowSummary.FlagSet(v.tcpFlags, bit)
          <==> exists d | d in ds :: FlowSummary.FlagSet(FlagsOf(d), bit))
  }

  function FirstRecord(d: Drop): FlowValue { FlowValue(1, LengthOf(d), d.now, d.now, FlagsOf(d), 0, TosOfDrop(d)) }

  function NextRecord(v: FlowValue, d: Drop): FlowValue {
    v.(packets := Wrap64(v.packets + 1), bytes := Wrap64(v.bytes + LengthOf(d)),
       tcpFlags := OrFlags(v.tcpFlags, FlagsOf(d)), lastSeen := d.now)
  }

  /** What a drop does to the record of one key. */
  lemma RecordStep(t: Trace, attached: set<U32>, d: Drop, k: DropKey)
    ensures var drops' := AfterDrop(t, attached, d).drops;
      if BelongsTo(attached, d, k)
      then (k in drops' <==> k in t.drops || d.fits)
        && (k in drops' ==> drops'[k] == if k in t.drops then NextRecord(t.drops[k], d) else FirstRecord(d))
      else (k in drops' <==> k in t.drops) && (k in drops' ==> drops'[k] == t.drops[k])
  {
    hide DropTuple, OrFlags;
  }

  lemma FirstSummarises(d: Drop)
    ensures Summarises(FirstRecord(d), [d])
  {
    hide DropTuple, FlowSummary.FlagSet, LengthOf, FlagsOf, TosOfDrop;
    assert Lengths([d]) == LengthOf(d) by {
      assert [d][..0] == [];
    }
    LengthSmall(d);
    assert d in [d];
  }

  lemma LengthSmall(d: Drop)
    ensures LengthOf(d) < 0x1_0028
  {
    hide DropTuple;
  }

  lemma NextSummarises(v: FlowValue, ds: seq<Drop>, d: Drop)
    requires |ds| > 0 && Summarises(v, ds)
    ensures Summarises(NextRecord(v, d), ds + [d])
  {
    hide DropTuple, FlowSummary.FlagSet, LengthOf, FlagsOf, TosOfDrop, OrFlags, Wrap64;
    assert (ds + [d])[..|ds|] == ds;
    Wrap64Add(|ds|, 1);
    Wrap64Add(Lengths(ds), LengthOf(d));
    forall bit
      ensures FlowSummary.FlagSet(NextRecord(v, d).tcpFlags, bit)
        <==> exists x | x in ds + [d] :: FlowSummary.FlagSet(FlagsOf(x), bit)
    {
      FlowSummary.OrSets(v.tcpFlags, FlagsOf(d), bit);
      assert FlowSummary.FlagSet(FlagsOf(d), bit) ==> d in ds + [d] && FlowSummary.FlagSet(FlagsOf(d), bit);
    }
  }

  /** For every sequence of drops, a key has a record exactly if the map had room for one
      of its drops, and the record summarises its drops from then on. */
  lemma {:induction false} RecordIsItsDrops(attached: set<U32>, ds: seq<Drop>, k: DropKey)
    ensures var drops, mine := RunDrops(attached, ds).drops, Recorded(attached, ds, k);
      && (k in drops <==> mine != [])
      && (k in drops ==> Summarises(drops[k], mine))
  {
    hide Summarises, AfterDrop, BelongsTo, FirstRecord, NextRecord;
    if |ds| > 0 {
      var init, d := ds[..|ds| - 1], ds[|ds| - 1];
      RecordIsItsDrops(attached, init, k);
      RecordStep(RunDrops(attached, init), attached, d, k);
      if BelongsTo(attached, d, k) {
        if k in RunDrops(attached, init).drops {
          NextSummarises(RunDrops(attached, init).drops[k], Recorded(attached, init, k), d);
        } else {
          FirstSummarises(d);
          assert Recorded(attached, init, k) + [d] == [d];
        }
      }
    }
  }

  function CountOf(attached: set<U32>, ds: seq<Drop>, unparsedOnly: bool): nat {
    if |ds| == 0 then 0
    else
      var d := ds[|ds| - 1];
      CountOf(attached, ds[..|ds| - 1], unparsedOnly)
      + if Observed(attached, d) && (!unparsedOnly || KeyOfDrop(d) == None) then 1 else 0
  }

  /** The two counters are the drops on attached devices, and those of them without a
      tuple, modulo 2^64. */
  lemma {:induction false} CountersAddUp(attached: set<U32>, ds: seq<Drop>)
    ensures var t := RunDrops(attached, ds);
      t.total == Wrap64(CountOf(attached, ds, false)) && t.unparsed == Wrap64(CountOf(attached, ds, true))
  {
    hide KeyOfDrop, AfterDrop;
    if |ds| > 0 {
      hide Wrap64;
      var init, d := ds[..|ds| - 1], ds[|ds| - 1];
      CountersAddUp(attached, init);
      CountersStep(RunDrops(attached, init), attached, d);
      Wrap64Add(CountOf(attached, init, false), 1);
      Wrap64Add(CountOf(attached, init, true), 1);
    }
  }

  lemma CountersStep(t: Trace, attached: set<U32>, d: Drop)
    ensures var t' := AfterDrop(t, attached, d);
      && t'.total == (if Observed(attached, d) then Wrap64(t.total + 1) else t.total)
      && t'.unparsed == (if Observed(attached, d) && KeyOfDrop(d) == None then Wrap64(t.unparsed + 1) else t.unparsed)
  {
    hide KeyOfDrop, DropTuple, OrFlags, Wrap64;
  }
}
