/** How many parity bits `min_paritysize` proposes. */
module ParityWidth {
  import opened Bits

  /** m parity bits can tell the k + m bits of a codeword apart. */
  predicate Covers(k: nat, m: nat)
  {
    m >= 1 && Pow2(m - 1) >= k + m
  }

  /** The smallest parity width the generator proposes for k data bits, or -1. */
  method MinParitySize(k: nat) returns (r: int)
    ensures r == -1 <==> !Covers(k, 10)
    ensures r != -1 ==> 3 <= r <= 10 && Covers(k, r) && forall m :: 3 <= m < r ==> !Covers(k, m)
  {
    for m := 2 to 10
      invariant forall t :: 3 <= t <= m ==> !Covers(k, t)
    {
      if Pow2(m) >= k + m + 1 {
        CoverageGrows(k, m + 1, 10);
        return m + 1;
      }
    }
    return -1;
  }

  /** Once m parity bits leave room for k data bits, so do more. */
  lemma {:induction false} CoverageGrows(k: nat, a: nat, b: nat)
    requires a <= b && Covers(k, a)
    ensures Covers(k, b)
  {
    if a < b { CoverageGrows(k, a, b - 1); }
  }
}
