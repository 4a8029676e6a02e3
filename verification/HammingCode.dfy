/** The Hamming generator of util/design/secded_gen.py, and the exact widths for which the code it
    lays out is single-error-correcting and double-error-detecting. */
module HammingCode {
  import opened Bits
  import opened Secded
  import opened ParityWidth

  // ----- powers of two -----------------------------------------------------------------------

  predicate IsPow2(n: nat)
  {
    n != 0 && And(n, n - 1) == 0
  }

  lemma {:induction false} Pow2IsPow2(p: nat)
    ensures IsPow2(Pow2(p))
  {
    if p > 0 {
      Pow2IsPow2(p - 1);
      assert Pow2(p) / 2 == Pow2(p - 1) && (Pow2(p) - 1) / 2 == Pow2(p - 1) - 1;
    }
  }

  lemma {:induction false} IsPow2Exponent(n: nat) returns (p: nat)
    requires IsPow2(n)
    ensures n == Pow2(p)
  {
    if n == 1 {
      p := 0;
    } else if n % 2 == 0 {
      assert (n - 1) / 2 == n / 2 - 1;
      p := IsPow2Exponent(n / 2);
      p := p + 1;
    } else {
      AndSelf(n / 2);
      assert false;
    }
  }

  lemma {:induction false} BitOfPow2(p: nat, i: nat)
    ensures Bit(Pow2(p), i) == (i == p)
  {
    BitOfZero(p);
    BitOfZero(i);
    AddPow2(0, p, i);
  }

  lemma {:induction false} Pow2Between(a: nat, p: nat)
    requires a >= 1 && Pow2(a - 1) <= Pow2(p) < Pow2(a)
    ensures p == a - 1
  {
    if p >= a { Pow2Mono(a, p); }
    if p < a - 1 { Pow2Mono(p, a - 1); }
  }

  // ----- the generator -----------------------------------------------------------------------

  /** Does position pos feed parity bit p of m? The last parity bit takes every position. */
  predicate Includes(pos: nat, p: nat, m: nat)
  {
    ((pos - pos % Pow2(p)) / Pow2(p)) % 2 > 0 || p == m - 1
  }

  lemma IncludesIsBit(pos: nat, p: nat, m: nat)
    ensures Includes(pos, p, m) == (Bit(pos, p) || p == m - 1)
  {
    BitIsQuotient(pos, p);
    ExactQuotient(pos, Pow2(p));
  }

  lemma ExactQuotient(x: nat, d: nat)
    requires d >= 1
    ensures (x - x % d) / d == x / d
  {
    var q := x / d;
    assert x - x % d == d * q;
    DivUnique(d * q, d, q, 0);
  }

  function PositionCode(pos: nat, m: nat, q: nat): Code
  {
    if q == 0 then []
    else PositionCode(pos, m, q - 1) + if Includes(pos, q - 1, m) then [q - 1] else []
  }

  /** Data positions below b: not a power of two and not the last position. */
  function Positions(n: nat, b: nat): seq<nat>
  {
    if b <= 1 then []
    else Positions(n, b - 1) + if IsPow2(b - 1) || b - 1 == n then [] else [b - 1]
  }

  function DataCodes(ps: seq<nat>, m: nat): (r: seq<Code>)
    ensures |r| == |ps| && forall i :: 0 <= i < |ps| ==> r[i] == PositionCode(ps[i], m, m)
  {
    seq(|ps|, i requires 0 <= i < |ps| => PositionCode(ps[i], m, m))
  }

  function Repeat(c: Code, n: nat): (r: seq<Code>)
    ensures |r| == n && forall i :: 0 <= i < n ==> r[i] == c
  {
    seq(n, _ => c)
  }

  function HammingCodes(k: nat, m: nat): seq<Code>
    requires m >= 1
  {
    DataCodes(Positions(k + m, k + m + 1), m) + Repeat([m - 1], m - 1)
  }

  method GenerateHamming(k: nat, m: nat) returns (codes: seq<Code>)
    requires m >= 1
    ensures codes == HammingCodes(k, m)
  {
    var n := k + m;
    codes := [];
    for pos := 1 to n + 1
      invariant codes == DataCodes(Positions(n, pos), m)
    {
      if IsPow2(pos) || pos == n {
        continue;
      }
      var code: Code := [];
      for p := 0 to m
        invariant code == PositionCode(pos, m, p)
      {
        if Includes(pos, p, m) {
          code := code + [p];
        }
      }
      codes := codes + [code];
    }
    ghost var laid := codes;
    for p := 0 to m - 1
      invariant codes == laid + Repeat([m - 1], p)
    {
      codes := codes + [[m - 1]];
    }
  }

  // ----- layout ------------------------------------------------------------------------------

  lemma {:induction false} PositionCodeTuple(pos: nat, m: nat, q: nat)
    requires q <= m
    ensures IsTuple(PositionCode(pos, m, q), q)
    ensures forall p: nat :: p in PositionCode(pos, m, q) <==> p < q && (Bit(pos, p) || p == m - 1)
  {
    if q > 0 {
      PositionCodeTuple(pos, m, q - 1);
      IncludesIsBit(pos, q - 1, m);
    }
  }

  lemma {:induction false} PositionsRange(n: nat, b: nat)
    ensures forall i :: 0 <= i < |Positions(n, b)| ==>
      1 <= Positions(n, b)[i] < b && Positions(n, b)[i] != n && !IsPow2(Positions(n, b)[i])
    ensures Increasing(Positions(n, b))
  {
    if b > 1 { PositionsRange(n, b - 1); }
  }

  /** There are b - 1 - a data positions below b, where 2^0 .. 2^(a-1) are the powers of two below b. */
  lemma {:induction false} PositionsCount(n: nat, b: nat, a: nat)
    requires 1 <= b <= n && b <= Pow2(a) && (a == 0 || Pow2(a - 1) < b)
    ensures |Positions(n, b)| == b - 1 - a
  {
    if b > 1 {
      var c := b - 1;
      if IsPow2(c) {
        var p := IsPow2Exponent(c);
        Pow2Between(a, p);
        assert p == 0 || Pow2(p) == 2 * Pow2(p - 1);
        PositionsCount(n, c, p);
      } else {
        if Pow2(a - 1) == c { Pow2IsPow2(a - 1); }
        PositionsCount(n, c, a);
      }
    }
  }

  lemma {:induction false} CeilLog(b: nat, hi: nat) returns (a: nat)
    requires 1 <= b <= Pow2(hi)
    ensures a <= hi && b <= Pow2(a) && (a == 0 || Pow2(a - 1) < b)
  {
    if hi == 0 || Pow2(hi - 1) < b { a := hi; } else { a := CeilLog(b, hi - 1); }
  }

  /** The data positions below b, in increasing order: all but the powers of two and the last position. */
  lemma {:induction false} PositionsExact(n: nat, b: nat)
    ensures forall p: nat :: p in Positions(n, b) <==> 1 <= p < b && p != n && !IsPow2(p)
    ensures Increasing(Positions(n, b))
  {
    hide IsPow2;
    PositionsRange(n, b);
    if b > 1 { PositionsExact(n, b - 1); }
  }

  /** The list, for any width: a code per data position, in order, naming the bits of its number and the
      overall parity bit; then the overall parity bit alone, once for every other parity bit. */
  lemma CodesExact(k: nat, m: nat, i: nat)
    requires m >= 1 && i < |HammingCodes(k, m)|
    ensures |HammingCodes(k, m)| == |Positions(k + m, k + m + 1)| + m - 1
    ensures var ps := Positions(k + m, k + m + 1);
      if i < |ps| then forall p: nat :: p in HammingCodes(k, m)[i] <==> p < m && (Bit(ps[i], p) || p == m - 1)
      else HammingCodes(k, m)[i] == [m - 1]
  {
    hide Positions, Bit;
    var ps := Positions(k + m, k + m + 1);
    if i < |ps| {
      PositionCodeTuple(ps[i], m, m);
      assert HammingCodes(k, m)[i] == PositionCode(ps[i], m, m);
    }
  }

  lemma CodesShape(k: nat, m: nat, i: nat)
    requires m >= 1 && i < |HammingCodes(k, m)|
    ensures IsTuple(HammingCodes(k, m)[i], m) && m - 1 in HammingCodes(k, m)[i]
  {
    var ps := Positions(k + m, k + m + 1);
    if i < |ps| {
      PositionCodeTuple(ps[i], m, m);
      assert HammingCodes(k, m)[i] == PositionCode(ps[i], m, m);
    } else {
      assert HammingCodes(k, m)[i] == [m - 1];
    }
  }

  // ----- the widths that work ----------------------------------------------------------------

  /** The number each codeword bit stands for: data bits their position, parity bits powers of two. */
  ghost function Number(k: nat, m: nat, i: nat): nat
    requires m >= 1
  {
    var ps := Positions(k + m, k + m + 1);
    if i < k && i < |ps| then ps[i] else if i < k + m - 1 then Pow2(if i < k then 0 else i - k) else 0
  }

  lemma FittingLayout(k: nat, m: nat)
    requires m >= 2 && Pow2(m - 2) < k + m <= Pow2(m - 1)
    ensures |Positions(k + m, k + m + 1)| == k
    ensures WellFormed(k, m, HammingCodes(k, m))
  {
    PositionsCount(k + m, k + m, m - 1);
    var codes := HammingCodes(k, m);
    forall i | 0 <= i < |codes| ensures IsTuple(codes[i], m) { CodesShape(k, m, i); }
    assert forall i :: k <= i < |codes| ==> codes[i] == [m - 1];
  }

  lemma ColumnIsNumber(k: nat, m: nat, i: nat, p: nat)
    requires m >= 2 && Pow2(m - 2) < k + m <= Pow2(m - 1) && i < k + m && p < m
    ensures Column(k, m, HammingCodes(k, m), i)[p] == (p == m - 1 || Bit(Number(k, m, i), p))
  {
    FittingLayout(k, m);
    var ps, codes := Positions(k + m, k + m + 1), HammingCodes(k, m);
    if i < k {
      assert codes[i] == PositionCode(ps[i], m, m);
      PositionCodeTuple(ps[i], m, m);
    } else if i < k + m - 1 {
      assert codes[i] == [m - 1];
      BitOfPow2(i - k, p);
    } else {
      BitOfZero(p);
    }
  }

  lemma NumbersDiffer(k: nat, m: nat, i: nat, j: nat)
    requires m >= 2 && Pow2(m - 2) < k + m <= Pow2(m - 1) && i < j < k + m
    ensures Number(k, m, i) != Number(k, m, j)
    ensures Number(k, m, i) < Pow2(m - 1) && Number(k, m, j) < Pow2(m - 1)
  {
    var ps := Positions(k + m, k + m + 1);
    assert |ps| == k by { FittingLayout(k, m); }
    PositionsRange(k + m, k + m + 1);
    if k <= i < k + m - 1 { Pow2IsPow2(i - k); Pow2Mono(i - k, m - 1); }
    if k <= j < k + m - 1 { Pow2IsPow2(j - k); Pow2Mono(j - k, m - 1); }
    if k <= i && j < k + m - 1 { Pow2Mono(i - k, j - k); }
  }

  lemma FittingIsSecded(k: nat, m: nat)
    requires m >= 2 && Pow2(m - 2) < k + m <= Pow2(m - 1)
    ensures |HammingCodes(k, m)| >= k && IsSecded(Hamming, k, m, HammingCodes(k, m))
  {
    var codes := HammingCodes(k, m);
    FittingLayout(k, m);
    forall i, j | 0 <= i < j < k + m ensures Column(k, m, codes, i) != Column(k, m, codes, j) {
      NumbersDiffer(k, m, i, j);
      var p := DifferingBit(Number(k, m, i), Number(k, m, j), m - 1);
      ColumnIsNumber(k, m, i, p);
      ColumnIsNumber(k, m, j, p);
    }
    forall i | 0 <= i < k + m ensures Column(k, m, codes, i)[m - 1] { ColumnIsNumber(k, m, i, m - 1); }
    SecdedFromColumns(Hamming, k, m, codes);
  }

  // ----- the widths that do not --------------------------------------------------------------

  /** With too many parity bits the list holds at least k + m codes, so the mask of the last parity
      bit gets its own position twice: the sum carries, and the position drops out of the mask. */
  lemma LooseLayout(k: nat, m: nat)
    requires m >= 2 && k + m <= Pow2(m - 2)
    ensures |HammingCodes(k, m)| >= k + m
    ensures !Bit(DecMask(k, HammingCodes(k, m), m - 1), k + m - 1)
  {
    var n, codes := k + m, HammingCodes(k, m);
    var a := CeilLog(n, m - 2);
    PositionsCount(n, n, a);
    forall i | 0 <= i < |codes| ensures Increasing(codes[i]) { CodesShape(k, m, i); }
    CodesShape(k, m, n - 1);
    FaninMaskBit(codes, |codes|, m - 1, n - 1);
    AddPow2Low(EncMask(codes, m - 1), n - 1, n - 1);
  }

  lemma LooseIsNotSecded(k: nat, m: nat)
    requires m >= 2 && k + m <= Pow2(m - 2)
    ensures |HammingCodes(k, m)| >= k && !IsSecded(Hamming, k, m, HammingCodes(k, m))
  {
    var n, codes := k + m, HammingCodes(k, m);
    LooseLayout(k, m);
    var data: Word := seq(k, _ => false);
    var none: Word := seq(n, _ => false);
    var last := none[n - 1 := true];
    ZeroWeight(n);
    assert last[..n - 1] == none[..n - 1] == seq(n - 1, _ => false);
    ZeroWeight(n - 1);
    var w := EncodeWord(k, m, codes, data);
    assert Xor(w, none) == w && Xor(w, last) == w[n - 1 := !w[n - 1]];
    MaskParityFlip(w, DecMask(k, codes, m - 1), n - 1, n);
    assert Weight(none) == 0 && Weight(last) == 1;
    assert !(Handles(Hamming, k, m, codes, data, none) && Handles(Hamming, k, m, codes, data, last));
  }

  lemma {:induction false} ZeroWeight(n: nat)
    ensures Weight(seq(n, _ => false)) == 0
  {
    if n > 0 {
      var z: Word := seq(n, _ => false);
      assert z[..n - 1] == seq(n - 1, _ => false);
      ZeroWeight(n - 1);
    }
  }

  // ----- the exact condition -----------------------------------------------------------------

  /** Among the widths that leave room for the data, the Hamming generator yields a SECDED code
      exactly when the last but one parity width would not have covered the codeword. */
  lemma HammingExact(k: nat, m: nat)
    requires m >= 2 && Covers(k, m)
    ensures |HammingCodes(k, m)| >= k
    ensures IsSecded(Hamming, k, m, HammingCodes(k, m)) <==> Pow2(m - 2) < k + m
  {
    if Pow2(m - 2) < k + m { FittingIsSecded(k, m); } else { LooseIsNotSecded(k, m); }
  }

  /** The proposed minimum width always works. */
  lemma MinimumWidthWorks(k: nat, m: nat)
    requires m >= 3 && Covers(k, m)
    requires forall t :: 3 <= t < m ==> !Covers(k, t)
    ensures |HammingCodes(k, m)| >= k && IsSecded(Hamming, k, m, HammingCodes(k, m))
  {
    assert Pow2(2) == 2 * Pow2(1) && Pow2(1) == 2 * Pow2(0);
    if m > 3 { assert !Covers(k, m - 1); }
    HammingExact(k, m);
  }
}
