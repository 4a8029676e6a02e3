/** The Hsiao generator of util/design/secded_gen.py: fan-in counting, the ideal fan-in, the level by
    level choice of tuples with random retries, and the code it yields. */
module HsiaoCode {
  import opened Basics
  import opened Bits
  import opened Secded
  import opened ParityWidth
  import opened Combinations

  // ----- fan-in ------------------------------------------------------------------------------

  /** How often parity bit j occurs in the codes. */
  function Fanin(codes: seq<Code>, j: nat): nat
  {
    if |codes| == 0 then 0 else Fanin(codes[..|codes| - 1], j) + multiset(codes[|codes| - 1])[j]
  }

  method CalcFanin(width: nat, codes: seq<Code>) returns (fanins: seq<nat>)
    requires InRange(codes, width)
    ensures |fanins| == width
    ensures forall j :: 0 <= j < width ==> fanins[j] == Fanin(codes, j)
  {
    fanins := seq(width, _ => 0);
    for i := 0 to |codes|
      invariant |fanins| == width
      invariant forall j :: 0 <= j < width ==> fanins[j] == Fanin(codes[..i], j)
    {
      fanins := CountCode(fanins, codes[i]);
      assert codes[..i + 1][..i] == codes[..i];
    }
    assert codes[..|codes|] == codes;
  }

  method CountCode(fanins: seq<nat>, c: Code) returns (r: seq<nat>)
    requires forall a :: 0 <= a < |c| ==> c[a] < |fanins|
    ensures |r| == |fanins| && forall j :: 0 <= j < |r| ==> r[j] == fanins[j] + multiset(c)[j]
  {
    r := fanins;
    for a := 0 to |c|
      invariant |r| == |fanins|
      invariant forall j :: 0 <= j < |r| ==> r[j] == fanins[j] + multiset(c[..a])[j]
    {
      assert c[..a + 1] == c[..a] + [c[a]];
      r := r[c[a] := r[c[a]] + 1];
    }
    assert c[..|c|] == c;
  }

  lemma {:induction false} FaninConcat(a: seq<Code>, b: seq<Code>, j: nat)
    ensures Fanin(a + b, j) == Fanin(a, j) + Fanin(b, j)
  {
    if |b| == 0 {
      assert a + b == a;
    } else {
      assert (a + b)[..|a + b| - 1] == a + b[..|b| - 1];
      FaninConcat(a, b[..|b| - 1], j);
    }
  }

  lemma {:induction false} FaninAbsent(cs: seq<Code>, j: nat)
    requires forall i :: 0 <= i < |cs| ==> j !in cs[i]
    ensures Fanin(cs, j) == 0
  {
    if |cs| > 0 { FaninAbsent(cs[..|cs| - 1], j); }
  }

  lemma {:induction false} FaninPrepend(x: nat, cs: seq<Code>, j: nat)
    ensures Fanin(Prepend(x, cs), j) == Fanin(cs, j) + if j == x then |cs| else 0
  {
    if |cs| > 0 {
      var n := |cs| - 1;
      assert Prepend(x, cs)[..n] == Prepend(x, cs[..n]);
      FaninPrepend(x, cs[..n], j);
      assert Prepend(x, cs)[n] == [x] + cs[n];
    }
  }

  /** Tuples over lo+1 .. m-1 do not mention lo. */
  lemma FaninBelow(lo: nat, m: nat, s: nat)
    requires lo < m
    ensures Fanin(Combos(lo + 1, m, s), lo) == 0
  {
    CombosSound(lo + 1, m, s);
    var cs := Combos(lo + 1, m, s);
    forall i | 0 <= i < |cs| ensures lo !in cs[i] { assert IsCombo(cs[i], lo + 1, m); }
    FaninAbsent(cs, lo);
  }

  lemma FaninJoin(x: nat, a: seq<Code>, b: seq<Code>, j: nat)
    ensures Fanin(Prepend(x, a) + b, j) == Fanin(a, j) + (if j == x then |a| else 0) + Fanin(b, j)
  {
    FaninConcat(Prepend(x, a), b, j);
    FaninPrepend(x, a, j);
  }

  /** All s-tuples over lo .. m-1 load every parity bit equally. */
  lemma {:induction false} LevelFanin(lo: nat, m: nat, s: nat, j: nat)
    requires lo <= j < m && s >= 1
    ensures Fanin(Combos(lo, m, s), j) == Binom(m - lo - 1, s - 1)
    decreases m - lo
  {
    hide Fanin, Prepend;
    var a, b := Combos(lo + 1, m, s - 1), Combos(lo + 1, m, s);
    if j == lo {
      FaninBelow(lo, m, s - 1);
      FaninBelow(lo, m, s);
      CombosCount(lo + 1, m, s - 1);
    } else {
      LevelFanin(lo + 1, m, s, j);
      if s > 1 { LevelFanin(lo + 1, m, s - 1, j); } else { FaninAbsent(a, j); }
    }
    FaninJoin(lo, a, b, j);
  }

  function TotalWeight(codes: seq<Code>): nat
  {
    if |codes| == 0 then 0 else TotalWeight(codes[..|codes| - 1]) + |codes[|codes| - 1]|
  }

  function SumFanin(codes: seq<Code>, m: nat): nat
  {
    if m == 0 then 0 else SumFanin(codes, m - 1) + Fanin(codes, m - 1)
  }

  function Occurrences(c: Code, m: nat): nat
  {
    if m == 0 then 0 else Occurrences(c, m - 1) + multiset(c)[m - 1]
  }

  lemma {:induction false} OccurrencesSnoc(c: Code, x: nat, m: nat)
    ensures Occurrences(c + [x], m) == Occurrences(c, m) + if x < m then 1 else 0
  {
    if m > 0 { OccurrencesSnoc(c, x, m - 1); }
  }

  lemma {:induction false} OccurrencesTotal(c: Code, m: nat)
    requires forall a :: 0 <= a < |c| ==> c[a] < m
    ensures Occurrences(c, m) == |c|
  {
    if |c| > 0 {
      var n := |c| - 1;
      assert c == c[..n] + [c[n]];
      OccurrencesTotal(c[..n], m);
      OccurrencesSnoc(c[..n], c[n], m);
    } else {
      OccurrencesEmpty(c, m);
    }
  }

  lemma {:induction false} OccurrencesEmpty(c: Code, m: nat)
    requires |c| == 0
    ensures Occurrences(c, m) == 0
  {
    if m > 0 { OccurrencesEmpty(c, m - 1); }
  }

  lemma {:induction false} SumFaninSnoc(codes: seq<Code>, c: Code, m: nat)
    ensures SumFanin(codes + [c], m) == SumFanin(codes, m) + Occurrences(c, m)
  {
    if m > 0 {
      SumFaninSnoc(codes, c, m - 1);
      assert (codes + [c])[..|codes|] == codes;
    }
  }

  /** Counting ones by column and by row gives the same total. */
  lemma {:induction false} DoubleCount(codes: seq<Code>, m: nat)
    requires InRange(codes, m)
    ensures SumFanin(codes, m) == TotalWeight(codes)
  {
    if |codes| > 0 {
      var n := |codes| - 1;
      assert codes == codes[..n] + [codes[n]];
      DoubleCount(codes[..n], m);
      SumFaninSnoc(codes[..n], codes[n], m);
      OccurrencesTotal(codes[n], m);
    } else {
      SumFaninEmpty(codes, m);
    }
  }

  lemma {:induction false} SumFaninEmpty(codes: seq<Code>, m: nat)
    requires |codes| == 0
    ensures SumFanin(codes, m) == 0
  {
    if m > 0 { SumFaninEmpty(codes, m - 1); }
  }

  lemma {:induction false} SumFaninUniform(codes: seq<Code>, m: nat, f: nat)
    requires forall j :: 0 <= j < m ==> Fanin(codes, j) == f
    ensures SumFanin(codes, m) == m * f
  {
    if m > 0 { SumFaninUniform(codes, m - 1, f); }
  }

  lemma {:induction false} TotalWeightUniform(codes: seq<Code>, s: nat)
    requires forall i :: 0 <= i < |codes| ==> |codes[i]| == s
    ensures TotalWeight(codes) == |codes| * s
  {
    if |codes| > 0 { TotalWeightUniform(codes[..|codes| - 1], s); }
  }

  /** A full level of s-tuples divides its ones evenly: m * C(m-1, s-1) == C(m, s) * s. */
  lemma LevelDivides(m: nat, s: nat)
    requires m >= 1 && s >= 1
    ensures m * Binom(m - 1, s - 1) == Binom(m, s) * s
  {
    hide Combos, Binom, Fanin, SumFanin, TotalWeight;
    var codes := Combos(0, m, s);
    CombosSound(0, m, s);
    CombosCount(0, m, s);
    forall j | 0 <= j < m ensures Fanin(codes, j) == Binom(m - 1, s - 1) { LevelFanin(0, m, s, j); }
    SumFaninUniform(codes, m, Binom(m - 1, s - 1));
    TotalWeightUniform(codes, s);
    DoubleCount(codes, m);
  }

  // ----- the ideal fan-in --------------------------------------------------------------------

  function CeilDiv(a: nat, m: nat): nat
    requires m >= 1
  {
    (a + m - 1) / m
  }

  lemma CeilDivBounds(a: nat, m: nat)
    requires m >= 1
    ensures a <= m * CeilDiv(a, m) < a + m
  {
    var q := CeilDiv(a, m);
    assert a + m - 1 == m * q + (a + m - 1) % m;
  }

  lemma CeilDivExact(q: nat, m: nat)
    requires m >= 1
    ensures CeilDiv(m * q, m) == q
  {
    DivUnique(m * q + m - 1, m, q, m - 1);
  }

  function IdealFrom(m: nat, needed: nat, s: nat): nat
    requires m >= 1
    decreases m + 1 - s
  {
    if s > m then 0
    else if Binom(m, s) > needed then CeilDiv(Product(needed, s), m)
    else
      var rest := if needed == Binom(m, s) then 0 else IdealFrom(m, needed - Binom(m, s), s + 2);
      CeilDiv(Product(Binom(m, s), s), m) + rest
  }

  function Product(a: nat, b: nat): nat
  {
    a * b
  }

  method IdealFanin(k: nat, m: nat) returns (fanin: nat)
    requires m >= 1
    ensures fanin == IdealFrom(m, k, 3)
  {
    fanin := 0;
    var needed: nat := k;
    var select: nat := 3;
    while select <= m
      invariant select >= 3
      invariant fanin + IdealFrom(m, needed, select) == IdealFrom(m, k, 3)
      decreases m + 2 - select
    {
      var combinations := Combos(0, m, select);
      CombosCount(0, m, select);
      if |combinations| <= needed {
        fanin := fanin + CeilDiv(Product(|combinations|, select), m);
        needed := needed - |combinations|;
      } else {
        fanin := fanin + CeilDiv(Product(needed, select), m);
        needed := 0;
      }
      if needed == 0 {
        return;
      }
      select := select + 2;
    }
  }

  // ----- full levels -------------------------------------------------------------------------

  /** All tuples of length 3, 5, .., s-2. */
  function FullLevels(m: nat, s: nat): seq<Code>
  {
    if s <= 3 then [] else FullLevels(m, s - 2) + Combos(0, m, s - 2)
  }

  function LevelSum(m: nat, s: nat): nat
    requires m >= 1
  {
    if s <= 3 then 0 else LevelSum(m, s - 2) + Binom(m - 1, s - 3)
  }

  predicate OddTuple(c: Code, m: nat)
  {
    IsTuple(c, m) && |c| >= 3 && |c| % 2 == 1
  }

  /** Pairwise different tuples over range(m), each of odd length three or more. */
  predicate IsHsiao(m: nat, codes: seq<Code>)
  {
    Distinct(codes) && forall i :: 0 <= i < |codes| ==> OddTuple(codes[i], m)
  }

  lemma HsiaoInRange(m: nat, codes: seq<Code>)
    requires forall i :: 0 <= i < |codes| ==> OddTuple(codes[i], m)
    ensures InRange(codes, m)
  {
    forall i, a | 0 <= i < |codes| && 0 <= a < |codes[i]| ensures codes[i][a] < m {
      assert OddTuple(codes[i], m);
    }
  }

  lemma {:induction false} FullLevelsShape(m: nat, s: nat)
    requires s % 2 == 1
    ensures IsHsiao(m, FullLevels(m, s))
    ensures forall i :: 0 <= i < |FullLevels(m, s)| ==> |FullLevels(m, s)[i]| < s
  {
    if s > 3 {
      var a, b := FullLevels(m, s - 2), Combos(0, m, s - 2);
      FullLevelsShape(m, s - 2);
      CombosSound(0, m, s - 2);
      CombosDistinct(0, m, s - 2);
      AddLevel(m, s - 2, a, b);
    }
  }

  /** Different s-tuples on top of shorter odd tuples make a Hsiao list again. */
  lemma AddLevel(m: nat, s: nat, a: seq<Code>, b: seq<Code>)
    requires s % 2 == 1 && s >= 3 && IsHsiao(m, a)
    requires forall i :: 0 <= i < |a| ==> |a[i]| < s
    requires Distinct(b) && forall i :: 0 <= i < |b| ==> IsTuple(b[i], m) && |b[i]| == s
    ensures IsHsiao(m, a + b)
    ensures forall i :: 0 <= i < |a + b| ==> |(a + b)[i]| <= s
  {
    var c := a + b;
    forall i, j | 0 <= i < j < |c| ensures c[i] != c[j] {
      if i < |a| <= j { assert |c[i]| < s && c[j] == b[j - |a|]; }
      if |a| <= i { assert c[i] == b[i - |a|] && c[j] == b[j - |a|]; }
    }
  }

  lemma {:induction false} FullLevelsFanin(m: nat, s: nat, j: nat)
    requires s % 2 == 1 && j < m
    ensures Fanin(FullLevels(m, s), j) == LevelSum(m, s)
  {
    if s > 3 {
      FullLevelsFanin(m, s - 2, j);
      FaninConcat(FullLevels(m, s - 2), Combos(0, m, s - 2), j);
      LevelFanin(0, m, s - 2, j);
    }
  }

  /** The levels below s and from s on together are all odd subsets of three or more. */
  lemma {:induction false} FullLevelsCount(m: nat, s: nat)
    requires s % 2 == 1 && s >= 3
    ensures |FullLevels(m, s)| + EverySecond(m, s) == EverySecond(m, 3)
  {
    if s > 3 {
      FullLevelsCount(m, s - 2);
      CombosCount(0, m, s - 2);
      if s - 2 > m { BinomAbove(m, s - 2); }
    }
  }

  /** What the ideal fan-in is when the levels below s are full and 0 < needed more are wanted. */
  lemma IdealAfterLevel(m: nat, needed: nat, s: nat)
    requires m >= s >= 1 && Binom(m, s) <= needed
    ensures IdealFrom(m, needed, s) == Binom(m - 1, s - 1)
      + if needed == Binom(m, s) then 0 else IdealFrom(m, needed - Binom(m, s), s + 2)
  {
    LevelDivides(m, s);
    CeilDivExact(Binom(m - 1, s - 1), m);
  }

  // ----- the generator -----------------------------------------------------------------------

  /** The outcomes of shuffling a list for the first, second, ... time. */
  type Draws = (seq<Code>, nat) -> seq<Code>

  /** `random.shuffle` reorders. */
  ghost predicate Reorders(perm: seq<Code>, c: seq<Code>)
  {
    multiset(perm) == multiset(c)
  }

  ghost predicate Shuffles(draw: Draws)
  {
    forall c, t :: Reorders(draw(c, t), c)
  }

  /** Adding the subset to the codes keeps every parity bit within the ideal fan-in. */
  ghost predicate Fits(m: nat, codes: seq<Code>, subset: seq<Code>, ideal: nat)
  {
    forall j :: 0 <= j < m ==> Fanin(codes, j) + Fanin(subset, j) <= ideal
  }

  method WithinIdeal(m: nat, fanins: seq<nat>, subset: seq<Code>, ideal: nat) returns (ok: bool)
    requires |fanins| == m && InRange(subset, m)
    ensures ok <==> forall i :: 0 <= i < m ==> fanins[i] + Fanin(subset, i) <= ideal
  {
    var subsetFanins := CalcFanin(m, subset);
    for i := 0 to m
      invariant forall t :: 0 <= t < i ==> fanins[t] + Fanin(subset, t) <= ideal
    {
      if fanins[i] + subsetFanins[i] > ideal {
        return false;
      }
    }
    return true;
  }

  /** The front of the n-th shuffle of the s-tuples fits. */
  ghost predicate FitsAt(m: nat, s: nat, codes: seq<Code>, required: nat, ideal: nat, draw: Draws, n: nat)
  {
    var perm := draw(Combos(0, m, s), n);
    required <= |perm| && Fits(m, codes, perm[..required], ideal)
  }

  /** The retry loop: it ends with the front of the first shuffle that fits, given that some shuffle does. */
  method FindSubset(m: nat, s: nat, ghost codes: seq<Code>, fanins: seq<nat>, required: nat, ideal: nat,
                    draw: Draws, ghost n: nat) returns (subset: seq<Code>, ghost t: nat)
    requires |fanins| == m && forall j :: 0 <= j < m ==> fanins[j] == Fanin(codes, j)
    requires required <= |Combos(0, m, s)| && Shuffles(draw) && FitsAt(m, s, codes, required, ideal, draw, n)
    ensures FitsAt(m, s, codes, required, ideal, draw, t) && subset == draw(Combos(0, m, s), t)[..required]
    ensures forall u :: 0 <= u < t ==> !FitsAt(m, s, codes, required, ideal, draw, u)
    ensures |subset| == required && Distinct(subset) && Fits(m, codes, subset, ideal)
    ensures forall i :: 0 <= i < required ==> IsTuple(subset[i], m) && |subset[i]| == s
  {
    hide Combos, IsTuple, Fanin, Distinct, InRange;
    var level, shuffles: nat := Combos(0, m, s), 0;
    while true
      invariant shuffles <= n && forall u :: 0 <= u < shuffles ==> !FitsAt(m, s, codes, required, ideal, draw, u)
      decreases n - shuffles
    {
      var candidate := draw(level, shuffles);
      assert Reorders(candidate, level);
      assert |candidate| == |multiset(candidate)| == |level|;
      subset := candidate[..required];
      PrefixOfShuffle(m, s, candidate, required);
      var ok := WithinIdeal(m, fanins, subset, ideal);
      if ok {
        return subset, shuffles;
      }
      assert !FitsAt(m, s, codes, required, ideal, draw, shuffles);
      shuffles := shuffles + 1;
    }
  }

  lemma PrefixOfShuffle(m: nat, s: nat, candidate: seq<Code>, n: nat)
    requires multiset(candidate) == multiset(Combos(0, m, s)) && n <= |candidate|
    ensures Distinct(candidate[..n]) && InRange(candidate[..n], m)
    ensures forall i :: 0 <= i < n ==> IsTuple(candidate[..n][i], m) && |candidate[..n][i]| == s
  {
    CombosSound(0, m, s);
    CombosDistinct(0, m, s);
    PermutationDistinct(Combos(0, m, s), candidate);
    forall i | 0 <= i < n ensures IsTuple(candidate[i], m) && |candidate[i]| == s {
      PermutationMember(Combos(0, m, s), candidate, i);
      var a :| 0 <= a < |Combos(0, m, s)| && Combos(0, m, s)[a] == candidate[i];
    }
  }

  /** What the generator promises about a finished list: as many codes as asked for exactly when m
      covers k (all there are, otherwise), a Hsiao list, and no parity bit above the ideal fan-in. */
  ghost predicate Finished(k: nat, m: nat, codes: seq<Code>)
    requires m >= 1
  {
    && IsHsiao(m, codes)
    && |codes| + m == (if Covers(k, m) then k + m else Pow2(m - 1))
    && forall j :: 0 <= j < m ==> Fanin(codes, j) <= IdealFrom(m, k, 3)
  }

  /** The first shuffle of the s-tuples whose front fits is the t-th one. */
  ghost predicate FitsFirst(m: nat, s: nat, codes: seq<Code>, required: nat, ideal: nat, draw: Draws, t: nat)
  {
    && FitsAt(m, s, codes, required, ideal, draw, t)
    && forall u :: 0 <= u < t ==> !FitsAt(m, s, codes, required, ideal, draw, u)
  }

  /** Which list it is: the levels below s whole and in order, followed, if that is too few, by the front of the
      first shuffle of level s that fits. */
  ghost predicate GeneratedAt(k: nat, m: nat, draw: Draws, s: nat, t: nat, codes: seq<Code>)
    requires m >= 1
  {
    var full := FullLevels(m, s);
    && s >= 3 && s % 2 == 1 && |full| <= k
    && if |full| == k || s > m then codes == full
       else
         var required, level := k - |full|, Combos(0, m, s);
         && required < |level| && FitsFirst(m, s, full, required, IdealFrom(m, k, 3), draw, t)
         && required <= |draw(level, t)| && codes == full + draw(level, t)[..required]
  }

  /** Whole levels come in the order of their tuples' sizes, each in lexicographic order. */
  lemma {:induction false} FullLevelsSorted(m: nat, s: nat, i: nat, j: nat)
    requires s % 2 == 1 && i < j < |FullLevels(m, s)|
    ensures var a, b := FullLevels(m, s)[i], FullLevels(m, s)[j]; |a| < |b| || (|a| == |b| && LexBefore(a, b))
  {
    hide IsHsiao, Combos, IsCombo, LexBefore;
    var low, top := FullLevels(m, s - 2), Combos(0, m, s - 2);
    assert FullLevels(m, s) == low + top;
    hide FullLevels;
    if j < |low| {
      FullLevelsSorted(m, s - 2, i, j);
    } else {
      CombosSound(0, m, s - 2);
      if i >= |low| {
        CombosSorted(0, m, s - 2, i - |low|, j - |low|);
      } else {
        FullLevelsShape(m, s - 2);
      }
    }
  }

  /** Between levels: the levels below `step` are taken whole and `required` codes are still missing. */
  ghost predicate Underway(k: nat, m: nat, step: nat, codes: seq<Code>, required: nat, ideal: nat)
  {
    && m >= 1 && step >= 3 && step % 2 == 1
    && codes == FullLevels(m, step) && required + |codes| == k && required > 0
    && ideal == IdealFrom(m, k, 3) == LevelSum(m, step) + IdealFrom(m, required, step)
  }

  /** The generator has reached its retry loop. */
  ghost predicate Retrying(k: nat, m: nat, step: nat, codes: seq<Code>, required: nat, ideal: nat)
  {
    Underway(k, m, step, codes, required, ideal) && step <= m && required < |Combos(0, m, step)|
  }

  /** The retry loop ends, where it is reached: some shuffle fits. */
  ghost predicate Ends(k: nat, m: nat, draw: Draws)
  {
    forall step, codes, required, ideal :: Retrying(k, m, step, codes, required, ideal) ==>
      exists n: nat :: FitsAt(m, step, codes, required, ideal, draw, n)
  }

  /** `_hsiao_code`, for any shuffles with which it ends. */
  method GenerateHsiao(k: nat, m: nat, draw: Draws) returns (codes: seq<Code>)
    requires k >= 1 && m >= 1 && Shuffles(draw) && Ends(k, m, draw)
    ensures Finished(k, m, codes)
    ensures exists s: nat, t: nat :: GeneratedAt(k, m, draw, s, t, codes)
  {
    hide GeneratedAt, Finished, Ends, Shuffles, FitsFirst;
    var required: nat := k;
    var ideal := IdealFanin(k, m);
    codes := [];
    var step: nat := 3;
    while step <= m
      invariant Underway(k, m, step, codes, required, ideal)
      decreases m + 2 - step
    {
      var candidate := Combos(0, m, step);
      if |candidate| <= required {
        WholeLevel(k, m, step, codes, required, ideal);
        codes := codes + candidate;
        required := required - |candidate|;
        if required == 0 { GeneratedWhole(k, m, draw, step + 2, codes); }
      } else {
        ghost var t;
        var subset;
        subset, t := PartOfLevel(k, m, step, codes, required, ideal, draw);
        GeneratedPart(k, m, draw, step, t, codes, required, ideal, subset);
        codes := codes + subset;
        required := 0;
      }
      if required == 0 {
        return codes;
      }
      step := step + 2;
    }
    FinishedShort(k, m, step);
    GeneratedWhole(k, m, draw, step, codes);
  }

  lemma GeneratedWhole(k: nat, m: nat, draw: Draws, s: nat, codes: seq<Code>)
    requires m >= 1 && s >= 3 && s % 2 == 1 && codes == FullLevels(m, s) && (|codes| == k || (|codes| <= k && s > m))
    ensures GeneratedAt(k, m, draw, s, 0, codes)
  {
    hide FullLevels, FitsFirst;
  }

  lemma GeneratedPart(k: nat, m: nat, draw: Draws, s: nat, t: nat, codes: seq<Code>, required: nat, ideal: nat,
                      subset: seq<Code>)
    requires Retrying(k, m, s, codes, required, ideal) && FitsFirst(m, s, codes, required, ideal, draw, t)
    requires required <= |draw(Combos(0, m, s), t)| && subset == draw(Combos(0, m, s), t)[..required]
    ensures GeneratedAt(k, m, draw, s, t, codes + subset)
  {
    hide FullLevels, FitsFirst, Combos;
  }

  lemma WholeLevel(k: nat, m: nat, step: nat, codes: seq<Code>, required: nat, ideal: nat)
    requires Underway(k, m, step, codes, required, ideal) && step <= m && |Combos(0, m, step)| <= required
    ensures var rest, more := required - |Combos(0, m, step)|, codes + Combos(0, m, step);
      if rest == 0 then Finished(k, m, more) else Underway(k, m, step + 2, more, rest, ideal)
  {
    CombosCount(0, m, step);
    IdealAfterLevel(m, required, step);
    assert FullLevels(m, step + 2) == codes + Combos(0, m, step);
    if required == |Combos(0, m, step)| { FinishedFull(k, m, step + 2); }
  }

  /** The last level, of which only `required` tuples are taken. */
  method PartOfLevel(k: nat, m: nat, step: nat, codes: seq<Code>, required: nat, ideal: nat, draw: Draws)
    returns (subset: seq<Code>, ghost t: nat)
    requires Retrying(k, m, step, codes, required, ideal) && Shuffles(draw) && Ends(k, m, draw)
    ensures Finished(k, m, codes + subset)
    ensures FitsFirst(m, step, codes, required, ideal, draw, t)
    ensures required <= |draw(Combos(0, m, step), t)| && subset == draw(Combos(0, m, step), t)[..required]
  {
    FullLevelsShape(m, step);
    HsiaoInRange(m, codes);
    CombosCount(0, m, step);
    var fanins := CalcFanin(m, codes);
    ghost var n: nat :| FitsAt(m, step, codes, required, ideal, draw, n);
    hide Ends, Shuffles;
    subset, t := FindSubset(m, step, codes, fanins, required, ideal, draw, n);
    FinishedPartial(k, m, step, subset);
  }

  lemma FinishedFull(k: nat, m: nat, s: nat)
    requires m >= 1 && s >= 3 && s % 2 == 1 && |FullLevels(m, s)| == k && LevelSum(m, s) == IdealFrom(m, k, 3)
    ensures Finished(k, m, FullLevels(m, s))
  {
    FullLevelsShape(m, s);
    FullLevelsCount(m, s);
    OddSubsets(m);
    forall j | 0 <= j < m ensures Fanin(FullLevels(m, s), j) <= IdealFrom(m, k, 3) { FullLevelsFanin(m, s, j); }
  }

  lemma FinishedShort(k: nat, m: nat, s: nat)
    requires m >= 1 && s > m && s >= 3 && s % 2 == 1 && |FullLevels(m, s)| < k && LevelSum(m, s) == IdealFrom(m, k, 3)
    ensures Finished(k, m, FullLevels(m, s))
  {
    FullLevelsShape(m, s);
    FullLevelsCount(m, s);
    OddSubsets(m);
    forall j | 0 <= j < m ensures Fanin(FullLevels(m, s), j) <= IdealFrom(m, k, 3) { FullLevelsFanin(m, s, j); }
  }

  lemma FinishedPartial(k: nat, m: nat, s: nat, subset: seq<Code>)
    requires m >= s >= 3 && s % 2 == 1 && |FullLevels(m, s)| + |subset| == k && |subset| < Binom(m, s)
    requires Distinct(subset) && forall i :: 0 <= i < |subset| ==> IsTuple(subset[i], m) && |subset[i]| == s
    requires forall j :: 0 <= j < m ==> Fanin(FullLevels(m, s), j) + Fanin(subset, j) <= IdealFrom(m, k, 3)
    ensures Finished(k, m, FullLevels(m, s) + subset)
  {
    FullLevelsShape(m, s);
    FullLevelsCount(m, s);
    OddSubsets(m);
    AddLevel(m, s, FullLevels(m, s), subset);
    forall j | 0 <= j < m ensures Fanin(FullLevels(m, s) + subset, j) <= IdealFrom(m, k, 3) {
      FaninConcat(FullLevels(m, s), subset, j);
    }
  }

  // ----- the code ----------------------------------------------------------------------------

  /** The 0/1 vector of a tuple. */
  ghost function Vector(c: Code, m: nat): (v: Word)
    ensures |v| == m && forall j :: 0 <= j < m ==> v[j] == (j in c)
  {
    seq(m, j requires 0 <= j < m => j in c)
  }

  lemma {:induction false} VectorParity(c: Code, m: nat)
    requires IsTuple(c, m)
    ensures XorAll(Vector(c, m)) == (|c| % 2 == 1)
  {
    if |c| == 0 {
      XorAllOfZeros(Vector(c, m));
    } else {
      var n := |c| - 1;
      VectorParity(c[..n], m);
      var v := Vector(c[..n], m);
      assert c == c[..n] + [c[n]];
      assert c[n] !in c[..n];
      assert Vector(c, m) == v[c[n] := !v[c[n]]];
      XorAllFlip(v, c[n]);
    }
  }

  lemma VectorDetermines(c: Code, d: Code, m: nat)
    requires IsTuple(c, m) && IsTuple(d, m) && Vector(c, m) == Vector(d, m)
    ensures c == d
  {
    forall x ensures x in c <==> x in d {
      if 0 <= x < m { assert Vector(c, m)[x] == Vector(d, m)[x]; }
    }
    TupleFromElems(c, d);
  }

  /** The tuple of every codeword bit: its code for data, its own index for parity. */
  ghost function BitTuple(k: nat, codes: seq<Code>, i: nat): Code
    requires |codes| == k
  {
    if i < k then codes[i] else [i - k]
  }

  lemma ColumnIsVector(k: nat, m: nat, codes: seq<Code>, i: nat)
    requires |codes| == k && IsHsiao(m, codes) && i < k + m
    ensures IsTuple(BitTuple(k, codes, i), m)
    ensures Column(k, m, codes, i) == Vector(BitTuple(k, codes, i), m)
  {
    if i < k { assert OddTuple(codes[i], m); }
  }

  /** Every Hsiao list of k codes is a SECDED code. */
  lemma HsiaoIsSecded(k: nat, m: nat, codes: seq<Code>)
    requires m >= 1 && |codes| == k && IsHsiao(m, codes)
    ensures IsSecded(Hsiao, k, m, codes)
  {
    forall i | 0 <= i < k + m ensures XorAll(Column(k, m, codes, i)) {
      ColumnIsVector(k, m, codes, i);
      VectorParity(BitTuple(k, codes, i), m);
      if i < k { assert OddTuple(codes[i], m); }
    }
    forall i, j | 0 <= i < j < k + m ensures Column(k, m, codes, i) != Column(k, m, codes, j) {
      ColumnsDiffer(k, m, codes, i, j);
    }
    forall i | 0 <= i < k ensures IsTuple(codes[i], m) { assert OddTuple(codes[i], m); }
    SecdedFromColumns(Hsiao, k, m, codes);
  }

  lemma ColumnsDiffer(k: nat, m: nat, codes: seq<Code>, i: nat, j: nat)
    requires |codes| == k && IsHsiao(m, codes) && i < j < k + m
    ensures Column(k, m, codes, i) != Column(k, m, codes, j)
  {
    ColumnIsVector(k, m, codes, i);
    ColumnIsVector(k, m, codes, j);
    assert BitTuple(k, codes, i) != BitTuple(k, codes, j) by {
      if i < k <= j { assert OddTuple(codes[i], m); }
    }
    if Column(k, m, codes, i) == Column(k, m, codes, j) {
      VectorDetermines(BitTuple(k, codes, i), BitTuple(k, codes, j), m);
    }
  }

  /** A finished generator run with enough parity bits yields a SECDED code of k data bits. */
  lemma FinishedIsSecded(k: nat, m: nat, codes: seq<Code>)
    requires m >= 1 && Covers(k, m) && Finished(k, m, codes)
    ensures |codes| == k && IsSecded(Hsiao, k, m, codes)
  {
    HsiaoIsSecded(k, m, codes);
  }
}
