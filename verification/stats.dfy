/** Per-CPU counters: each CPU adds to its own slot, a reader sums the slots. */
module PerCpuStats {
  import opened Words

  function WrapSum(slots: seq<U64>): U64 {
    if |slots| == 0 then 0 else Wrap64(WrapSum(slots[..|slots| - 1]) + slots[|slots| - 1])
  }

  /** Adding to one slot adds to the sum, modulo 2^64, whichever slots wrapped. */
  lemma {:induction false} WrapSumAdd(slots: seq<U64>, cpu: nat, n: U64)
    requires cpu < |slots|
    ensures WrapSum(slots[cpu := Wrap64(slots[cpu] + n)]) == Wrap64(WrapSum(slots) + n)
  {
    hide Wrap64;
    var last := |slots| - 1;
    var init, slots' := slots[..last], slots[cpu := Wrap64(slots[cpu] + n)];
    if cpu == last {
      assert slots'[..last] == init;
      Wrap64Add(WrapSum(init), slots[last] + n);
      Wrap64Add(WrapSum(init) + slots[last], n);
    } else {
      assert slots'[..last] == init[cpu := Wrap64(init[cpu] + n)];
      WrapSumAdd(init, cpu, n);
      Wrap64Add(WrapSum(init) + n, slots[last]);
      Wrap64Add(WrapSum(init) + slots[last], n);
    }
  }

  /** One counter of the per-CPU array. `added` is the true total of all additions. */
  class Slots {
    const slots: array<U64>
    ghost var added: nat

    ghost predicate Valid()
      reads this, slots
    {
      WrapSum(slots[..]) == Wrap64(added)
    }

    constructor (cpus: nat)
      ensures Valid() && added == 0 && slots.Length == cpus && fresh(slots)
    {
      slots := new U64[cpus](_ => 0);
      added := 0;
      new;
      ZeroSlots(slots[..]);
    }

    /** `stat_add` on CPU `cpu`. */
    method Add(cpu: nat, n: U64)
      requires Valid() && cpu < slots.Length
      modifies this, slots
      ensures Valid() && added == old(added) + n
      ensures slots[..] == old(slots[..])[cpu := Wrap64(old(slots[cpu]) + n)]
    {
      hide Wrap64, WrapSum;
      WrapSumAdd(slots[..], cpu, n);
      Wrap64Add(added, n);
      slots[cpu] := Wrap64(slots[cpu] + n);
      added := added + n;
      assert slots[..] == old(slots[..])[cpu := Wrap64(old(slots[cpu]) + n)];
    }

    /** The sum over CPUs is the exact total of all additions, modulo 2^64. */
    method Read() returns (out: U64)
      requires Valid()
      ensures out == Wrap64(added)
    {
      out := 0;
      for i := 0 to slots.Length
        invariant out == WrapSum(slots[..i])
      {
        assert slots[..i + 1][..i] == slots[..i];
        out := Wrap64(out + slots[i]);
      }
      assert slots[..slots.Length] == slots[..];
    }
  }

  lemma {:induction false} ZeroSlots(slots: seq<U64>)
    requires forall i | 0 <= i < |slots| :: slots[i] == 0
    ensures WrapSum(slots) == 0
  {
    if |slots| == 0 {
    } else {
      ZeroSlots(slots[..|slots| - 1]);
    }
  }
}
