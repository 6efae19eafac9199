/** 32-bit generation counters that skip zero. */
module Generations {
  import opened Bytes

  const MAX_U32: nat := 0xFFFF_FFFF

  function Advance(generation: u32): (next: u32)
    ensures next != 0
  {
    if generation == MAX_U32 then 1 else generation + 1
  }

  function AdvanceBy(generation: u32, n: nat): u32 {
    if n == 0 then generation else Advance(AdvanceBy(generation, n - 1))
  }

  /** A generation comes back only after the whole 32-bit range has been used up. */
  lemma {:induction false} GenerationReuse(generation: u32, n: nat)
    requires generation != 0
    ensures AdvanceBy(generation, n) == (generation - 1 + n) % MAX_U32 + 1
    ensures AdvanceBy(generation, n) == generation <==> n % MAX_U32 == 0
  {
    if n > 0 {
      GenerationReuse(generation, n - 1);
      NextResidue(generation - 1 + n - 1);
    }
    SameResidue(generation - 1, n);
  }

  lemma NextResidue(x: nat)
    ensures (x + 1) % MAX_U32 == if x % MAX_U32 == MAX_U32 - 1 then 0 else x % MAX_U32 + 1
  {
  }

  lemma SameResidue(x: nat, n: nat)
    requires x < MAX_U32
    ensures (x + n) % MAX_U32 == x <==> n % MAX_U32 == 0
  {
  }

  lemma {:induction false} AdvanceBySum(generation: u32, m: nat, n: nat)
    ensures AdvanceBy(AdvanceBy(generation, m), n) == AdvanceBy(generation, m + n)
  {
    if n > 0 { AdvanceBySum(generation, m, n - 1); }
  }

  /** Two numbers of one counter differ unless a whole range lies between them. */
  lemma NumbersDistinct(first: u32, i: nat, j: nat)
    requires first != 0 && i < j
    ensures AdvanceBy(first, i) == AdvanceBy(first, j) <==> (j - i) % MAX_U32 == 0
  {
    AdvanceBySum(first, i, j - i);
    NonZero(first, i);
    GenerationReuse(AdvanceBy(first, i), j - i);
  }

  lemma NonZero(first: u32, n: nat)
    requires first != 0
    ensures AdvanceBy(first, n) != 0
  {
  }
}
