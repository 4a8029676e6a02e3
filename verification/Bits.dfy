/** Bits of natural numbers and parity of masked words: the arithmetic behind the integer bit masks
    that the SECDED generator prints and the emitted hardware ANDs with its words. */
module Bits {

  type Word = seq<bool>

  function Pow2(n: nat): (r: nat)
    ensures r >= 1
  {
    if n == 0 then 1 else 2 * Pow2(n - 1)
  }

  /** Bit i of x. */
  predicate Bit(x: nat, i: nat)
  {
    if i == 0 then x % 2 == 1 else Bit(x / 2, i - 1)
  }

  /** Bitwise AND. */
  function And(x: nat, y: nat): nat
  {
    if x == 0 || y == 0 then 0
    else (if x % 2 == 1 && y % 2 == 1 then 1 else 0) + 2 * And(x / 2, y / 2)
  }

  lemma {:induction false} AndSelf(n: nat)
    ensures And(n, n) == n
  {
    if n > 0 { AndSelf(n / 2); }
  }

  lemma {:induction false} Pow2Mono(a: nat, b: nat)
    requires a <= b
    ensures Pow2(a) <= Pow2(b)
    ensures a < b ==> 2 * Pow2(a) <= Pow2(b)
  {
    if a < b { Pow2Mono(a, b - 1); }
  }

  lemma {:induction false} Pow2Exceeds(n: nat)
    ensures Pow2(n) > n
  {
    if n > 0 { Pow2Exceeds(n - 1); }
  }

  lemma {:induction false} BitOfZero(i: nat)
    ensures !Bit(0, i)
  {
    if i > 0 { BitOfZero(i - 1); }
  }

  /** Adding 2^i flips bit i, and leaves every lower bit alone. */
  lemma {:induction false} AddPow2Low(x: nat, i: nat, j: nat)
    requires j <= i
    ensures Bit(x + Pow2(i), j) == (if j == i then !Bit(x, j) else Bit(x, j))
  {
    if i > 0 {
      assert (x + Pow2(i)) / 2 == x / 2 + Pow2(i - 1);
      assert (x + Pow2(i)) % 2 == x % 2;
      if j > 0 { AddPow2Low(x / 2, i - 1, j - 1); }
    }
  }

  /** Adding 2^i to a number whose bit i is clear carries nothing. */
  lemma {:induction false} AddPow2(x: nat, i: nat, j: nat)
    requires !Bit(x, i)
    ensures Bit(x + Pow2(i), j) == (j == i || Bit(x, j))
  {
    if j <= i {
      AddPow2Low(x, i, j);
    } else if i > 0 {
      assert (x + Pow2(i)) / 2 == x / 2 + Pow2(i - 1);
      AddPow2(x / 2, i - 1, j - 1);
    } else {
      assert (x + 1) / 2 == x / 2;
    }
  }

  /** A number below 2^m has no bit at or above m. */
  lemma {:induction false} HighBitsClear(x: nat, m: nat, i: nat)
    requires x < Pow2(m) && i >= m
    ensures !Bit(x, i)
  {
    if m == 0 { BitOfZero(i); } else { HighBitsClear(x / 2, m - 1, i - 1); }
  }

  /** Two different numbers below 2^m differ in one of their low m bits. */
  lemma {:induction false} DifferingBit(x: nat, y: nat, m: nat) returns (i: nat)
    requires x < Pow2(m) && y < Pow2(m) && x != y
    ensures i < m && Bit(x, i) != Bit(y, i)
  {
    if x % 2 != y % 2 {
      i := 0;
    } else {
      i := DifferingBit(x / 2, y / 2, m - 1);
      i := i + 1;
    }
  }

  /** The quotient form of a bit, as `_hamming_code` computes it. */
  lemma {:induction false} BitIsQuotient(x: nat, i: nat)
    ensures Bit(x, i) == ((x / Pow2(i)) % 2 == 1)
  {
    if i > 0 {
      BitIsQuotient(x / 2, i - 1);
      DivDiv(x, Pow2(i - 1));
    }
  }

  lemma DivDiv(x: nat, d: nat)
    requires d >= 1
    ensures x / (2 * d) == (x / 2) / d
  {
    var q, r := x / (2 * d), x % (2 * d);
    assert x == (2 * d) * q + r;
    assert x / 2 == d * q + r / 2;
    assert r / 2 < d;
    DivUnique(x / 2, d, q, r / 2);
  }

  lemma MulMono(d: nat, a: nat, b: nat)
    requires a <= b
    ensures d * a <= d * b
  {}

  lemma DivUnique(a: nat, d: nat, q: nat, r: nat)
    requires d >= 1 && a == d * q + r && r < d
    ensures a / d == q
  {
    var p := a / d;
    assert a == d * p + a % d;
    assert p < q ==> d * (p + 1) <= d * q by { if p < q { MulMono(d, p + 1, q); } }
    assert q < p ==> d * (q + 1) <= d * p by { if q < p { MulMono(d, q + 1, p); } }
  }

  /** The reduction XOR of `w & mask`, over the low n bits. */
  function MaskParity(w: Word, mask: nat, n: nat): bool
    requires n <= |w|
  {
    if n == 0 then false else MaskParity(w, mask, n - 1) != (w[n - 1] && Bit(mask, n - 1))
  }

  /** `^(w & mask)` */
  function Parity(w: Word, mask: nat): bool
  {
    MaskParity(w, mask, |w|)
  }

  /** Parity depends only on the word below n and on the mask below n. */
  lemma {:induction false} MaskParityAgree(w: Word, v: Word, a: nat, b: nat, n: nat)
    requires n <= |w| && n <= |v|
    requires forall i :: 0 <= i < n ==> (w[i] && Bit(a, i)) == (v[i] && Bit(b, i))
    ensures MaskParity(w, a, n) == MaskParity(v, b, n)
  {
    if n > 0 { MaskParityAgree(w, v, a, b, n - 1); }
  }

  /** Mask bits at or above c do not matter when they are clear. */
  lemma {:induction false} MaskParityCut(w: Word, mask: nat, c: nat, n: nat)
    requires c <= n <= |w|
    requires forall i :: c <= i < n ==> !(w[i] && Bit(mask, i))
    ensures MaskParity(w, mask, n) == MaskParity(w, mask, c)
  {
    if n > c { MaskParityCut(w, mask, c, n - 1); }
  }

  /** Flipping bit i of a word flips its masked parity exactly when the mask selects bit i. */
  lemma {:induction false} MaskParityFlip(w: Word, mask: nat, i: nat, n: nat)
    requires i < |w| && n <= |w|
    ensures MaskParity(w[i := !w[i]], mask, n) == (MaskParity(w, mask, n) != (i < n && Bit(mask, i)))
  {
    if n > 0 { MaskParityFlip(w, mask, i, n - 1); }
  }

  /** Setting mask bit i adds w[i] to the parity. */
  lemma {:induction false} MaskParityAddBit(w: Word, mask: nat, i: nat, n: nat)
    requires i < |w| && n <= |w| && !Bit(mask, i)
    ensures MaskParity(w, mask + Pow2(i), n) == (MaskParity(w, mask, n) != (i < n && w[i]))
  {
    if n > 0 {
      MaskParityAddBit(w, mask, i, n - 1);
      AddPow2(mask, i, n - 1);
    }
  }

  /** `^v`: XOR of all bits. */
  function XorAll(v: Word): bool
  {
    if |v| == 0 then false else XorAll(v[..|v| - 1]) != v[|v| - 1]
  }

  lemma {:induction false} XorAllFlip(v: Word, i: nat)
    requires i < |v|
    ensures XorAll(v[i := !v[i]]) == !XorAll(v)
  {
    var f := v[i := !v[i]];
    if i == |v| - 1 {
      assert f[..|v| - 1] == v[..|v| - 1];
    } else {
      assert f[..|v| - 1] == v[..|v| - 1][i := !v[i]];
      XorAllFlip(v[..|v| - 1], i);
    }
  }

  function Xor(a: Word, b: Word): (r: Word)
    requires |a| == |b|
    ensures |r| == |a|
    ensures forall i :: 0 <= i < |r| ==> r[i] == (a[i] != b[i])
  {
    seq(|a|, i requires 0 <= i < |a| => a[i] != b[i])
  }

  lemma {:induction false} XorAllLinear(a: Word, b: Word)
    requires |a| == |b|
    ensures XorAll(Xor(a, b)) == (XorAll(a) != XorAll(b))
  {
    if |a| > 0 {
      var n := |a| - 1;
      assert Xor(a, b)[..n] == Xor(a[..n], b[..n]);
      XorAllLinear(a[..n], b[..n]);
    }
  }

  lemma {:induction false} XorAllOfZeros(v: Word)
    requires true !in v
    ensures !XorAll(v)
  {
    if |v| > 0 {
      assert v[|v| - 1] in v;
      XorAllOfZeros(v[..|v| - 1]);
    }
  }

  /** `$countones` */
  function Weight(v: Word): nat
  {
    if |v| == 0 then 0 else Weight(v[..|v| - 1]) + (if v[|v| - 1] then 1 else 0)
  }

  /** The reduction XOR tells whether the number of ones is odd. */
  lemma {:induction false} XorAllCounts(v: Word)
    ensures XorAll(v) == (Weight(v) % 2 == 1)
  {
    if |v| > 0 { XorAllCounts(v[..|v| - 1]); }
  }

  /** `w & mask` */
  function Masked(w: Word, mask: nat): (r: Word)
    ensures |r| == |w| && forall i :: 0 <= i < |w| ==> r[i] == (w[i] && Bit(mask, i))
  {
    seq(|w|, i requires 0 <= i < |w| => w[i] && Bit(mask, i))
  }

  /** So the masked parity is odd exactly when the mask selects an odd number of ones. */
  lemma {:induction false} MaskParityCounts(w: Word, mask: nat, n: nat)
    requires n <= |w|
    ensures MaskParity(w, mask, n) == (Weight(Masked(w, mask)[..n]) % 2 == 1)
  {
    hide Bit;
    if n > 0 {
      MaskParityCounts(w, mask, n - 1);
      assert Masked(w, mask)[..n][..n - 1] == Masked(w, mask)[..n - 1];
    }
  }

  /** A word of positive weight is a word of weight one less with one bit set on top of it. */
  lemma {:induction false} WeightPeel(e: Word) returns (i: nat)
    requires Weight(e) > 0
    ensures i < |e| && e[i] && Weight(e[i := false]) == Weight(e) - 1
  {
    var n := |e| - 1;
    if e[n] {
      i := n;
      assert e[n := false][..n] == e[..n];
    } else {
      i := WeightPeel(e[..n]);
      assert e[i := false][..n] == e[..n][i := false];
    }
  }

  lemma {:induction false} WeightZero(e: Word)
    requires Weight(e) == 0
    ensures forall i :: 0 <= i < |e| ==> !e[i]
  {
    if |e| > 0 {
      var low := e[..|e| - 1];
      WeightZero(low);
      assert forall i :: 0 <= i < |low| ==> e[i] == low[i];
    }
  }

  lemma DifferAt(a: Word, b: Word) returns (i: nat)
    requires |a| == |b| && a != b
    ensures i < |a| && a[i] != b[i]
  {
    i :| 0 <= i < |a| && a[i] != b[i];
  }

  // XOR with an error pattern of weight 0, 1 or 2, as flips of single bits.

  lemma XorNoBits(w: Word, e: Word)
    requires |w| == |e| && Weight(e) == 0
    ensures Xor(w, e) == w
  {
    WeightZero(e);
  }

  lemma XorOneBit(w: Word, e: Word) returns (i: nat)
    requires |w| == |e| && Weight(e) == 1
    ensures i < |w| && Xor(w, e) == w[i := !w[i]]
  {
    i := WeightPeel(e);
    var rest := e[i := false];
    XorNoBits(w, rest);
    assert forall t :: 0 <= t < |e| && t != i ==> e[t] == rest[t];
  }

  lemma XorTwoBits(w: Word, e: Word) returns (i: nat, j: nat)
    requires |w| == |e| && Weight(e) == 2
    ensures i < |w| && j < |w| && i != j && Xor(w, e) == w[i := !w[i]][j := !w[j]]
  {
    i := WeightPeel(e);
    var rest := e[i := false];
    j := XorOneBit(w, rest);
    assert Xor(w, rest)[j] != w[j];
    assert forall t :: 0 <= t < |e| && t != i ==> Xor(w, e)[t] == Xor(w, rest)[t];
    assert Xor(w, rest)[i] == w[i];
  }
}
