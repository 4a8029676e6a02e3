/** Meaning of the SECDED encoder and decoder that util/design/secded_gen.py emits for a list of
    codes, and the theorem that a code with suitable columns corrects every single error and
    detects every double error, for every data word. */
module Secded {
  import opened Bits

  /** The parity bits one data bit takes part in: one tuple of the generator's `codes` list. */
  type Code = seq<nat>

  datatype CodeType = Hsiao | Hamming

  datatype Decoded = Decoded(data: Word, syndrome: Word, singleErr: bool, doubleErr: bool)

  predicate Increasing(c: Code)
  {
    forall a, b :: 0 <= a < b < |c| ==> c[a] < c[b]
  }

  /** A tuple of `itertools.combinations(range(m), _)`, or one built by counting p upwards to m. */
  predicate IsTuple(c: Code, m: nat)
  {
    Increasing(c) && forall a :: 0 <= a < |c| ==> c[a] < m
  }

  predicate InRange(codes: seq<Code>, m: nat)
  {
    forall i, a :: 0 <= i < |codes| && 0 <= a < |codes[i]| ==> codes[i][a] < m
  }

  // ----- bit masks ---------------------------------------------------------------------------

  /** The fan-in mask of parity bit j over the first n codes. */
  function FaninMask(codes: seq<Code>, n: nat, j: nat): nat
    requires n <= |codes|
  {
    if n == 0 then 0
    else FaninMask(codes, n - 1, j) + multiset(codes[n - 1])[j] * Pow2(n - 1)
  }

  function EncMask(codes: seq<Code>, j: nat): nat
  {
    FaninMask(codes, |codes|, j)
  }

  function DecMask(k: nat, codes: seq<Code>, j: nat): nat
  {
    EncMask(codes, j) + Pow2(k + j)
  }

  /** The list of masks, built by adding one power of two per table entry. */
  method CalcBitmasks(k: nat, m: nat, codes: seq<Code>, dec: bool) returns (masks: seq<nat>)
    requires InRange(codes, m)
    ensures |masks| == m
    ensures forall j :: 0 <= j < m ==> masks[j] == if dec then DecMask(k, codes, j) else EncMask(codes, j)
  {
    masks := seq(m, _ => 0);
    for i := 0 to |codes|
      invariant |masks| == m
      invariant forall j :: 0 <= j < m ==> masks[j] == FaninMask(codes, i, j)
    {
      masks := AddCode(masks, codes[i], i);
    }
    if dec {
      for j := 0 to m
        invariant |masks| == m
        invariant forall t :: 0 <= t < m ==>
          masks[t] == if t < j then DecMask(k, codes, t) else EncMask(codes, t)
      {
        masks := masks[j := masks[j] + Pow2(k + j)];
      }
    }
  }

  /** Adds 2^i to the mask of every parity bit named by code c, once per occurrence. */
  method AddCode(masks: seq<nat>, c: Code, i: nat) returns (r: seq<nat>)
    requires forall a :: 0 <= a < |c| ==> c[a] < |masks|
    ensures |r| == |masks|
    ensures forall j :: 0 <= j < |r| ==> r[j] == masks[j] + multiset(c)[j] * Pow2(i)
  {
    r := masks;
    for a := 0 to |c|
      invariant |r| == |masks|
      invariant forall j :: 0 <= j < |r| ==> r[j] == masks[j] + multiset(c[..a])[j] * Pow2(i)
    {
      assert c[..a + 1] == c[..a] + [c[a]];
      ghost var before := r;
      r := r[c[a] := r[c[a]] + Pow2(i)];
      forall j | 0 <= j < |r| ensures r[j] == masks[j] + multiset(c[..a + 1])[j] * Pow2(i) {
        Distribute(multiset(c[..a])[j], Pow2(i));
      }
    }
    assert c[..|c|] == c;
  }

  lemma Distribute(n: nat, p: nat)
    ensures (n + 1) * p == n * p + p
  {}

  /** In an increasing tuple every parity bit occurs at most once. */
  lemma {:induction false} OccursOnce(c: Code, j: nat)
    requires Increasing(c)
    ensures multiset(c)[j] == if j in c then 1 else 0
  {
    if |c| > 0 {
      var n := |c| - 1;
      assert c == c[..n] + [c[n]];
      OccursOnce(c[..n], j);
      assert c[n] !in c[..n];
    }
  }

  lemma FaninMaskStep(codes: seq<Code>, n: nat, j: nat)
    requires 0 < n <= |codes| && Increasing(codes[n - 1])
    ensures FaninMask(codes, n, j) == FaninMask(codes, n - 1, j) + if j in codes[n - 1] then Pow2(n - 1) else 0
  {
    OccursOnce(codes[n - 1], j);
    hide Increasing;
  }

  /** Bit i of parity bit j's mask is set exactly when code i names j. */
  lemma {:induction false} FaninMaskBit(codes: seq<Code>, n: nat, j: nat, i: nat)
    requires n <= |codes|
    requires forall t :: 0 <= t < n ==> Increasing(codes[t])
    ensures Bit(FaninMask(codes, n, j), i) == (i < n && j in codes[i])
  {
    hide FaninMask, Bit, Pow2, Increasing;
    if n == 0 {
      EmptyMask(codes, j);
      BitOfZero(i);
    } else {
      FaninMaskStep(codes, n, j);
      FaninMaskBit(codes, n - 1, j, i);
      FaninMaskBit(codes, n - 1, j, n - 1);
      if j in codes[n - 1] { AddPow2(FaninMask(codes, n - 1, j), n - 1, i); }
    }
  }

  lemma EmptyMask(codes: seq<Code>, j: nat)
    ensures FaninMask(codes, 0, j) == 0
  {}

  // ----- encoder -----------------------------------------------------------------------------

  /** The output word after the first j parity assignments. */
  function EncodeSteps(k: nat, m: nat, codes: seq<Code>, data: Word, j: nat): (w: Word)
    requires |data| == k && j <= m
    ensures |w| == k + m
  {
    if j == 0 then data + seq(m, _ => false)
    else
      var w := EncodeSteps(k, m, codes, data, j - 1);
      w[k + j - 1 := Parity(w, EncMask(codes, j - 1))]
  }

  function EncodeWord(k: nat, m: nat, codes: seq<Code>, data: Word): (w: Word)
    requires |data| == k
    ensures |w| == k + m
  {
    EncodeSteps(k, m, codes, data, m)
  }

  /** The emitted encoder: zero-extend, then assign the parity bits in order, each computed from the
      word as updated so far. */
  method Encode(k: nat, m: nat, codes: seq<Code>, data: Word) returns (w: Word)
    requires |data| == k && InRange(codes, m)
    ensures w == EncodeWord(k, m, codes, data)
  {
    w := data + seq(m, _ => false);
    var masks := CalcBitmasks(k, m, codes, false);
    for j := 0 to m
      invariant w == EncodeSteps(k, m, codes, data, j)
    {
      w := w[j + k := Parity(w, masks[j])];
    }
  }

  /** Bits below k + j are final after j assignments; the others are still zero. */
  lemma {:induction false} EncodeSettled(k: nat, m: nat, codes: seq<Code>, data: Word, j: nat, t: nat)
    requires |data| == k && j <= t <= m
    ensures var w, v := EncodeSteps(k, m, codes, data, j), EncodeSteps(k, m, codes, data, t);
      && (forall i :: 0 <= i < k + j ==> w[i] == v[i])
      && (forall i :: k + j <= i < k + m ==> !w[i])
      && w[..k] == data
    decreases t
  {
    if j < t {
      EncodeSettled(k, m, codes, data, j, t - 1);
    } else if j > 0 {
      EncodeSettled(k, m, codes, data, j - 1, j - 1);
    }
  }

  // ----- decoder -----------------------------------------------------------------------------

  /** The integer whose bits are the entries of a code, printed as the literal a syndrome is compared to. */
  function CalcSyndrome(c: Code): nat
  {
    if |c| == 0 then 0 else CalcSyndrome(c[..|c| - 1]) + Pow2(c[|c| - 1])
  }

  function Literal(x: nat, m: nat): (v: Word)
    ensures |v| == m && forall j :: 0 <= j < m ==> v[j] == Bit(x, j)
  {
    seq(m, j requires 0 <= j < m => Bit(x, j))
  }

  function Syndrome(k: nat, m: nat, codes: seq<Code>, w: Word): (s: Word)
    ensures |s| == m && forall j :: 0 <= j < m ==> s[j] == Parity(w, DecMask(k, codes, j))
  {
    seq(m, j requires 0 <= j < m => Parity(w, DecMask(k, codes, j)))
  }

  /** The emitted decoder. */
  function Decode(kind: CodeType, k: nat, m: nat, codes: seq<Code>, w: Word): Decoded
    requires |w| == k + m && |codes| >= k && m >= 1
  {
    var s := Syndrome(k, m, codes, w);
    var data := seq(k, i requires 0 <= i < k => (s == Literal(CalcSyndrome(codes[i]), m)) != w[i]);
    match kind
    case Hamming => Decoded(data, s, s[m - 1], true in s[..m - 1] && !s[m - 1])
    case Hsiao => Decoded(data, s, XorAll(s), !XorAll(s) && true in s)
  }

  // ----- what a SECDED code promises ---------------------------------------------------------

  /** The generated formal assertions, for one data word and one error pattern of at most two bits. */
  ghost predicate Handles(kind: CodeType, k: nat, m: nat, codes: seq<Code>, data: Word, e: Word)
    requires |data| == k && |e| == k + m && |codes| >= k && m >= 1
  {
    var d := Decode(kind, k, m, codes, Xor(EncodeWord(k, m, codes, data), e));
    && (d.singleErr <==> Weight(e) == 1)
    && (d.doubleErr <==> Weight(e) == 2)
    && (true in d.syndrome <==> Weight(e) > 0)
    && (Weight(e) < 2 ==> d.data == data)
  }

  ghost predicate IsSecded(kind: CodeType, k: nat, m: nat, codes: seq<Code>)
    requires |codes| >= k && m >= 1
  {
    forall data: Word, e: Word :: |data| == k && |e| == k + m && Weight(e) <= 2 ==>
      Handles(kind, k, m, codes, data, e)
  }

  // ----- columns -----------------------------------------------------------------------------

  /** Tuples over range(m), where a code placed on a parity bit feeds only later parity bits. */
  ghost predicate WellFormed(k: nat, m: nat, codes: seq<Code>)
  {
    && k <= |codes| <= k + m
    && (forall i :: 0 <= i < |codes| ==> IsTuple(codes[i], m))
    && (forall i, j :: k <= i < |codes| && j in codes[i] ==> i < k + j)
  }

  /** The syndrome that flipping bit i of a codeword produces. */
  ghost function Column(k: nat, m: nat, codes: seq<Code>, i: nat): (v: Word)
    ensures |v| == m
    ensures forall j :: 0 <= j < m ==> v[j] == ((i < |codes| && j in codes[i]) || i == k + j)
  {
    seq(m, j requires 0 <= j < m => (i < |codes| && j in codes[i]) || i == k + j)
  }

  ghost predicate GoodColumns(kind: CodeType, k: nat, m: nat, codes: seq<Code>)
    requires m >= 1
  {
    && (forall i, j :: 0 <= i < j < k + m ==> Column(k, m, codes, i) != Column(k, m, codes, j))
    && (forall i :: 0 <= i < k + m ==>
          if kind == Hsiao then XorAll(Column(k, m, codes, i)) else Column(k, m, codes, i)[m - 1])
  }

  lemma DecMaskBit(k: nat, m: nat, codes: seq<Code>, j: nat, i: nat)
    requires WellFormed(k, m, codes) && j < m
    ensures Bit(DecMask(k, codes, j), i) == ((i < |codes| && j in codes[i]) || i == k + j)
  {
    FaninMaskBit(codes, |codes|, j, i);
    FaninMaskBit(codes, |codes|, j, k + j);
    AddPow2(EncMask(codes, j), k + j, i);
  }

  /** A codeword has the zero syndrome. */
  lemma CleanSyndrome(k: nat, m: nat, codes: seq<Code>, data: Word, j: nat)
    requires WellFormed(k, m, codes) && |data| == k && j < m
    ensures !Parity(EncodeWord(k, m, codes, data), DecMask(k, codes, j))
  {
    var w, v := EncodeWord(k, m, codes, data), EncodeSteps(k, m, codes, data, j);
    var mask := EncMask(codes, j);
    EncodeSettled(k, m, codes, data, j, m);
    EncodeSettled(k, m, codes, data, j + 1, m);
    forall i | k + j <= i < k + m ensures !Bit(mask, i) {
      FaninMaskBit(codes, |codes|, j, i);
    }
    MaskParityCut(w, mask, k + j, k + m);
    MaskParityCut(v, mask, k + j, k + m);
    MaskParityAgree(w, v, mask, mask, k + j);
    assert w[k + j] == Parity(v, mask);
    MaskParityAddBit(w, mask, k + j, k + m);
  }

  lemma SyndromeFlip(k: nat, m: nat, codes: seq<Code>, w: Word, i: nat)
    requires WellFormed(k, m, codes) && |w| == k + m && i < k + m
    ensures Syndrome(k, m, codes, w[i := !w[i]]) == Xor(Syndrome(k, m, codes, w), Column(k, m, codes, i))
  {
    forall j | 0 <= j < m
      ensures Syndrome(k, m, codes, w[i := !w[i]])[j] == (Syndrome(k, m, codes, w)[j] != Column(k, m, codes, i)[j])
    {
      MaskParityFlip(w, DecMask(k, codes, j), i, k + m);
      DecMaskBit(k, m, codes, j, i);
    }
  }

  /** The literal compared with the syndrome for data bit i is the column of data bit i. */
  lemma LiteralIsColumn(k: nat, m: nat, codes: seq<Code>, i: nat)
    requires WellFormed(k, m, codes) && i < k
    ensures Literal(CalcSyndrome(codes[i]), m) == Column(k, m, codes, i)
  {
    forall j | 0 <= j < m ensures Bit(CalcSyndrome(codes[i]), j) == (j in codes[i]) {
      CalcSyndromeBit(codes[i], j);
    }
  }

  lemma {:induction false} CalcSyndromeBit(c: Code, j: nat)
    requires Increasing(c)
    ensures Bit(CalcSyndrome(c), j) == (j in c)
  {
    if |c| == 0 {
      BitOfZero(j);
    } else {
      var n := |c| - 1;
      assert c == c[..n] + [c[n]];
      CalcSyndromeBit(c[..n], j);
      CalcSyndromeBit(c[..n], c[n]);
      AddPow2(CalcSyndrome(c[..n]), c[n], j);
    }
  }

  // ----- the theorem -------------------------------------------------------------------------

  /** Distinct columns with an odd number of ones (Hsiao), or all feeding the overall parity bit
      (Hamming), make the emitted pair correct one error and detect two, whatever the data. */
  lemma SecdedFromColumns(kind: CodeType, k: nat, m: nat, codes: seq<Code>)
    requires m >= 1 && WellFormed(k, m, codes) && GoodColumns(kind, k, m, codes)
    ensures IsSecded(kind, k, m, codes)
  {
    forall data: Word, e: Word | |data| == k && |e| == k + m && Weight(e) <= 2
      ensures Handles(kind, k, m, codes, data, e)
    {
      HandlesUpToTwo(kind, k, m, codes, data, e);
    }
  }

  lemma HandlesUpToTwo(kind: CodeType, k: nat, m: nat, codes: seq<Code>, data: Word, e: Word)
    requires m >= 1 && WellFormed(k, m, codes) && GoodColumns(kind, k, m, codes)
    requires |data| == k && |e| == k + m && Weight(e) <= 2
    ensures Handles(kind, k, m, codes, data, e)
  {
    var w := EncodeWord(k, m, codes, data);
    if Weight(e) == 0 {
      XorNoBits(w, e);
      NoError(kind, k, m, codes, data);
    } else if Weight(e) == 1 {
      var i := XorOneBit(w, e);
      OneError(kind, k, m, codes, data, i);
    } else {
      var i, j := XorTwoBits(w, e);
      TwoErrors(kind, k, m, codes, data, i, j);
    }
  }

  lemma EncodedData(k: nat, m: nat, codes: seq<Code>, data: Word)
    requires |data| == k
    ensures EncodeWord(k, m, codes, data)[..k] == data
  {
    EncodeSettled(k, m, codes, data, m, m);
  }

  lemma ZeroSyndrome(k: nat, m: nat, codes: seq<Code>, data: Word)
    requires WellFormed(k, m, codes) && |data| == k
    ensures true !in Syndrome(k, m, codes, EncodeWord(k, m, codes, data))
  {
    forall j | 0 <= j < m ensures !Syndrome(k, m, codes, EncodeWord(k, m, codes, data))[j] {
      CleanSyndrome(k, m, codes, data, j);
    }
  }

  lemma NoError(kind: CodeType, k: nat, m: nat, codes: seq<Code>, data: Word)
    requires m >= 1 && WellFormed(k, m, codes) && GoodColumns(kind, k, m, codes) && |data| == k
    ensures var d := Decode(kind, k, m, codes, EncodeWord(k, m, codes, data));
      !d.singleErr && !d.doubleErr && true !in d.syndrome && d.data == data
  {
    var w := EncodeWord(k, m, codes, data);
    var s := Syndrome(k, m, codes, w);
    ZeroSyndrome(k, m, codes, data);
    EncodedData(k, m, codes, data);
    XorAllOfZeros(s);
    assert true !in s[..m - 1];
    forall i | 0 <= i < k ensures s != Literal(CalcSyndrome(codes[i]), m) && w[i] == data[i] {
      LiteralIsColumn(k, m, codes, i);
      assert w[i] == w[..k][i];
    }
    assert Decode(kind, k, m, codes, w).data == data;
  }

  lemma OneError(kind: CodeType, k: nat, m: nat, codes: seq<Code>, data: Word, i: nat)
    requires m >= 1 && WellFormed(k, m, codes) && GoodColumns(kind, k, m, codes)
    requires |data| == k && i < k + m
    ensures var w := EncodeWord(k, m, codes, data);
      var d := Decode(kind, k, m, codes, w[i := !w[i]]);
      d.singleErr && !d.doubleErr && d.syndrome == Column(k, m, codes, i) && true in d.syndrome && d.data == data
  {
    var w := EncodeWord(k, m, codes, data);
    var s, col := Syndrome(k, m, codes, w[i := !w[i]]), Column(k, m, codes, i);
    ZeroSyndrome(k, m, codes, data);
    EncodedData(k, m, codes, data);
    SyndromeFlip(k, m, codes, w, i);
    assert s == col;
    if true !in col { XorAllOfZeros(col); }
    forall t | 0 <= t < k
      ensures (s == Literal(CalcSyndrome(codes[t]), m)) == (t == i) && w[t] == data[t]
    {
      LiteralIsColumn(k, m, codes, t);
      assert w[t] == w[..k][t];
    }
    assert Decode(kind, k, m, codes, w[i := !w[i]]).data == data;
  }

  lemma TwoErrorSyndrome(k: nat, m: nat, codes: seq<Code>, data: Word, i: nat, j: nat)
    requires WellFormed(k, m, codes) && |data| == k && i < k + m && j < k + m && i != j
    ensures var w := EncodeWord(k, m, codes, data);
      Syndrome(k, m, codes, w[i := !w[i]][j := !w[j]]) == Xor(Column(k, m, codes, i), Column(k, m, codes, j))
  {
    var w := EncodeWord(k, m, codes, data);
    ZeroSyndrome(k, m, codes, data);
    SyndromeFlip(k, m, codes, w, i);
    SyndromeFlip(k, m, codes, w[i := !w[i]], j);
    assert Syndrome(k, m, codes, w[i := !w[i]]) == Column(k, m, codes, i);
  }

  lemma TwoErrors(kind: CodeType, k: nat, m: nat, codes: seq<Code>, data: Word, i: nat, j: nat)
    requires m >= 1 && WellFormed(k, m, codes) && GoodColumns(kind, k, m, codes)
    requires |data| == k && i < k + m && j < k + m && i != j
    ensures var w := EncodeWord(k, m, codes, data);
      var r := w[i := !w[i]][j := !w[j]];
      var d := Decode(kind, k, m, codes, r);
      && !d.singleErr && d.doubleErr && d.data == r[..k]
      && d.syndrome == Xor(Column(k, m, codes, i), Column(k, m, codes, j)) && true in d.syndrome
  {
    assert |codes| >= k;
    hide WellFormed, GoodColumns, EncodeWord, CalcSyndrome, DecMask, XorAll, Column, Syndrome;
    var w := EncodeWord(k, m, codes, data);
    var r := w[i := !w[i]][j := !w[j]];
    TwoErrorSyndrome(k, m, codes, data, i, j);
    TwoColumns(kind, k, m, codes, i, j);
    NothingCorrected(kind, k, m, codes, r);
  }

  /** A syndrome that is no column corrects nothing. */
  lemma NothingCorrected(kind: CodeType, k: nat, m: nat, codes: seq<Code>, r: Word)
    requires m >= 1 && WellFormed(k, m, codes) && |r| == k + m
    requires forall x :: 0 <= x < k + m ==> Syndrome(k, m, codes, r) != Column(k, m, codes, x)
    ensures Decode(kind, k, m, codes, r).data == r[..k]
  {
    var s := Syndrome(k, m, codes, r);
    forall x | 0 <= x < k ensures s != Literal(CalcSyndrome(codes[x]), m) { LiteralIsColumn(k, m, codes, x); }
    hide CalcSyndrome, DecMask, XorAll, Column;
    assert Decode(kind, k, m, codes, r).data == r[..k];
  }

  /** Two columns differ, and their sum is no column. */
  lemma TwoColumns(kind: CodeType, k: nat, m: nat, codes: seq<Code>, i: nat, j: nat)
    requires m >= 1 && GoodColumns(kind, k, m, codes) && i < k + m && j < k + m && i != j
    ensures var s := Xor(Column(k, m, codes, i), Column(k, m, codes, j));
      && true in s && (if kind == Hamming then !s[m - 1] && true in s[..m - 1] else !XorAll(s))
      && forall x :: 0 <= x < k + m ==> s != Column(k, m, codes, x)
  {
    var a, b := Column(k, m, codes, i), Column(k, m, codes, j);
    var s := Xor(a, b);
    XorAllLinear(a, b);
    var t := DifferAt(a, b);
    assert s[t];
    if kind == Hamming {
      assert t < m - 1;
      assert s[..m - 1][t];
    }
  }

  // ----- what the encoder puts out -----------------------------------------------------------

  /** The bits of a word whose codes name parity bit j. */
  ghost function Feeding(codes: seq<Code>, w: Word, j: nat): (r: Word)
    ensures |r| == |w| && forall i :: 0 <= i < |w| ==> r[i] == (w[i] && i < |codes| && j in codes[i])
  {
    seq(|w|, i requires 0 <= i < |w| => w[i] && i < |codes| && j in codes[i])
  }

  /** The codeword starts with the data, and every parity bit is set exactly when an odd number of the bits
      that feed it are. */
  lemma EncodedParity(k: nat, m: nat, codes: seq<Code>, data: Word, j: nat)
    requires WellFormed(k, m, codes) && |data| == k && j < m
    ensures var w := EncodeWord(k, m, codes, data);
      w[..k] == data && w[k + j] == (Weight(Feeding(codes, w, j)) % 2 == 1)
  {
    var w := EncodeWord(k, m, codes, data);
    EncodedData(k, m, codes, data);
    CleanSyndrome(k, m, codes, data, j);
    var mask := EncMask(codes, j);
    assert !Bit(mask, k + j) by { FaninMaskBit(codes, |codes|, j, k + j); }
    MaskParityAddBit(w, mask, k + j, k + m);
    MaskParityCounts(w, mask, k + m);
    forall i | 0 <= i < k + m ensures Bit(mask, i) == (i < |codes| && j in codes[i]) {
      FaninMaskBit(codes, |codes|, j, i);
    }
    hide EncodeWord, FaninMask, WellFormed;
    assert Masked(w, mask)[..k + m] == Feeding(codes, w, j);
  }

  // ----- any number of errors ----------------------------------------------------------------

  /** The sum of the columns of the bits set in the first n bits of an error pattern. */
  ghost function ColumnSum(k: nat, m: nat, codes: seq<Code>, e: Word, n: nat): (s: Word)
    requires n <= |e|
    ensures |s| == m
  {
    if n == 0 then seq(m, _ => false)
    else
      var s := ColumnSum(k, m, codes, e, n - 1);
      if e[n - 1] then Xor(s, Column(k, m, codes, n - 1)) else s
  }

  /** The received word, if only the first n bits of the pattern count. */
  ghost function Received(w: Word, e: Word, n: nat): (r: Word)
    requires n <= |e| == |w|
    ensures |r| == |w|
  {
    seq(|w|, i requires 0 <= i < |w| => if i < n then w[i] != e[i] else w[i])
  }

  lemma {:induction false} SyndromeOfErrors(k: nat, m: nat, codes: seq<Code>, data: Word, e: Word, n: nat)
    requires WellFormed(k, m, codes) && |data| == k && n <= |e| == k + m
    ensures Syndrome(k, m, codes, Received(EncodeWord(k, m, codes, data), e, n)) == ColumnSum(k, m, codes, e, n)
  {
    hide WellFormed, DecMask;
    var w := EncodeWord(k, m, codes, data);
    if n == 0 {
      ZeroSyndrome(k, m, codes, data);
      assert Received(w, e, 0) == w;
    } else {
      SyndromeOfErrors(k, m, codes, data, e, n - 1);
      var r := Received(w, e, n - 1);
      SyndromeFlip(k, m, codes, r, n - 1);
      assert Received(w, e, n) == if e[n - 1] then r[n - 1 := !r[n - 1]] else r;
    }
  }

  /** Whatever the error pattern, the decoder puts out the sum of its columns and flips exactly the data bits
      whose column that sum is. */
  lemma AnyErrors(kind: CodeType, k: nat, m: nat, codes: seq<Code>, data: Word, e: Word)
    requires m >= 1 && WellFormed(k, m, codes) && |data| == k && |e| == k + m
    ensures var s, d := ColumnSum(k, m, codes, e, k + m), Decode(kind, k, m, codes, Xor(EncodeWord(k, m, codes,
        data), e));
      && d.syndrome == s && |d.data| == k
      && (forall i :: 0 <= i < k ==> d.data[i] == ((data[i] != e[i]) != (s == Column(k, m, codes, i))))
      && d.singleErr == (if kind == Hamming then s[m - 1] else XorAll(s))
      && d.doubleErr == (true in s && !d.singleErr)
  {
    assert |codes| >= k;
    hide WellFormed, DecMask, CalcSyndrome;
    var w := EncodeWord(k, m, codes, data);
    EncodedData(k, m, codes, data);
    SyndromeOfErrors(k, m, codes, data, e, k + m);
    assert Received(w, e, k + m) == Xor(w, e);
    var s := ColumnSum(k, m, codes, e, k + m);
    assert s == s[..m - 1] + [s[m - 1]];
    forall i | 0 <= i < k ensures Literal(CalcSyndrome(codes[i]), m) == Column(k, m, codes, i) && w[i] == data[i] {
      LiteralIsColumn(k, m, codes, i);
      assert w[i] == w[..k][i];
    }
  }
}
