/** `ideal_fanin` is exact: no Hsiao list of k codes has a smaller maximum fan-in, and the retry loop
    of `_hsiao_code` always has a shuffle that attains it. */
module IdealFanIn {
  import opened Basics
  import opened Bits
  import opened Secded
  import opened ParityWidth
  import opened Combinations
  import opened HsiaoCode

  // ----- no list does better -----------------------------------------------------------------

  /** How much shorter than s the codes are, summed over the shorter ones. */
  function Deficit(codes: seq<Code>, s: nat): nat
  {
    if |codes| == 0 then 0
    else
      var c := codes[|codes| - 1];
      Deficit(codes[..|codes| - 1], s) + if |c| < s then s - |c| else 0
  }

  lemma {:induction false} DeficitConcat(a: seq<Code>, b: seq<Code>, s: nat)
    ensures Deficit(a + b, s) == Deficit(a, s) + Deficit(b, s)
  {
    if |b| == 0 {
      assert a + b == a;
    } else {
      assert (a + b)[..|a + b| - 1] == a + b[..|b| - 1];
      DeficitConcat(a, b[..|b| - 1], s);
    }
  }

  lemma DeficitRemove(b: seq<Code>, p: nat, s: nat)
    requires p < |b|
    ensures Deficit(b, s) == Deficit(b[..p] + b[p + 1..], s) + if |b[p]| < s then s - |b[p]| else 0
  {
    assert b == (b[..p] + [b[p]]) + b[p + 1..];
    DeficitConcat(b[..p] + [b[p]], b[p + 1..], s);
    DeficitConcat(b[..p], [b[p]], s);
    DeficitConcat(b[..p], b[p + 1..], s);
    var none: seq<Code> := [];
    assert [b[p]][..0] == none;
  }

  /** A list of different codes whose short members all occur in b has no larger deficit than b. */
  lemma {:induction false} DeficitBound(a: seq<Code>, b: seq<Code>, s: nat)
    requires Distinct(a) && forall i :: 0 <= i < |a| && |a[i]| < s ==> a[i] in b
    ensures Deficit(a, s) <= Deficit(b, s)
  {
    if |a| > 0 {
      var n := |a| - 1;
      var c, rest := a[n], a[..n];
      if |c| >= s {
        DeficitBound(rest, b, s);
      } else {
        var p :| 0 <= p < |b| && b[p] == c;
        var b' := b[..p] + b[p + 1..];
        forall i | 0 <= i < |rest| && |rest[i]| < s ensures rest[i] in b' {
          assert rest[i] == a[i] != c;
          var q :| 0 <= q < |b| && b[q] == a[i];
          assert b'[if q < p then q else q - 1] == a[i];
        }
        DeficitBound(rest, b', s);
        DeficitRemove(b, p, s);
      }
    }
  }

  /** Ones are at least s per code, less the deficit; exactly that when no code is longer than s. */
  lemma {:induction false} WeightAndDeficit(codes: seq<Code>, s: nat)
    ensures TotalWeight(codes) + Deficit(codes, s) >= |codes| * s
    ensures (forall i :: 0 <= i < |codes| ==> |codes[i]| <= s) ==>
      TotalWeight(codes) + Deficit(codes, s) == |codes| * s
  {
    if |codes| > 0 {
      WeightAndDeficit(codes[..|codes| - 1], s);
      assert |codes| * s == (|codes| - 1) * s + s;
    }
  }

  /** Every odd tuple shorter than s is in the full levels below s. */
  lemma {:induction false} ShortIsInLevels(c: Code, m: nat, s: nat)
    requires OddTuple(c, m) && |c| < s && s % 2 == 1
    ensures c in FullLevels(m, s)
  {
    if |c| == s - 2 {
      var i := CombosComplete(0, m, c);
      assert FullLevels(m, s)[|FullLevels(m, s - 2)| + i] == c;
    } else {
      ShortIsInLevels(c, m, s - 2);
    }
  }

  /** The fewest ones k codes can have, when the levels below s hold no more than k tuples. */
  lemma WeightLowerBound(m: nat, codes: seq<Code>, s: nat)
    requires m >= 1 && IsHsiao(m, codes) && s >= 3 && s % 2 == 1
    ensures TotalWeight(codes) >= m * LevelSum(m, s) + (|codes| - |FullLevels(m, s)|) * s
  {
    hide FullLevels, Fanin, Deficit, TotalWeight, SumFanin, LevelSum;
    var full := FullLevels(m, s);
    FullLevelsShape(m, s);
    forall i | 0 <= i < |codes| && |codes[i]| < s ensures codes[i] in full {
      assert OddTuple(codes[i], m);
      ShortIsInLevels(codes[i], m, s);
    }
    DeficitBound(codes, full, s);
    WeightAndDeficit(codes, s);
    WeightAndDeficit(full, s);
    HsiaoInRange(m, full);
    DoubleCount(full, m);
    forall j | 0 <= j < m ensures Fanin(full, j) == LevelSum(m, s) { FullLevelsFanin(m, s, j); }
    SumFaninUniform(full, m, LevelSum(m, s));
    MulDiff(|codes|, |full|, s);
  }

  lemma MulDiff(a: nat, b: nat, s: nat)
    ensures (a - b) * s == a * s - b * s
  {}

  lemma {:induction false} SumFaninBelow(codes: seq<Code>, m: nat, f: nat)
    requires forall j :: 0 <= j < m ==> Fanin(codes, j) < f
    ensures m >= 1 ==> SumFanin(codes, m) <= m * (f - 1)
  {
    if m > 1 {
      SumFaninBelow(codes, m - 1, f);
      assert m * (f - 1) == (m - 1) * (f - 1) + (f - 1);
    } else if m == 1 {
      assert SumFanin(codes, 0) == 0;
    }
  }

  /** The level at which the k-th code falls, and what the ideal fan-in is in terms of it. */
  lemma {:induction false} LastLevel(k: nat, m: nat, s: nat) returns (t: nat)
    requires m >= 1 && s >= 3 && s % 2 == 1 && |FullLevels(m, s)| <= k
    requires IdealFrom(m, k, 3) == LevelSum(m, s) + IdealFrom(m, k - |FullLevels(m, s)|, s)
    ensures t >= 3 && t % 2 == 1 && |FullLevels(m, t)| <= k
    ensures t > m || IdealFrom(m, k, 3) == LevelSum(m, t) + CeilDiv(Product(k - |FullLevels(m, t)|, t), m)
    ensures t > m ==> IdealFrom(m, k, 3) == LevelSum(m, t)
    decreases m + 2 - s
  {
    hide Binom, Combos, CeilDiv;
    var need := k - |FullLevels(m, s)|;
    if s > m || Binom(m, s) > need {
      t := s;
    } else {
      CombosCount(0, m, s);
      IdealAfterLevel(m, need, s);
      if need == Binom(m, s) {
        t := s + 2;
        CeilDivExact(0, m);
      } else {
        t := LastLevel(k, m, s + 2);
      }
    }
  }

  /** Some parity bit of any k different odd tuples is used at least ideal_fanin(k, m) times. */
  lemma FanInLowerBound(k: nat, m: nat, codes: seq<Code>)
    requires m >= 1 && |codes| == k && IsHsiao(m, codes)
    ensures exists j :: 0 <= j < m && Fanin(codes, j) >= IdealFrom(m, k, 3)
  {
    var ideal := IdealFrom(m, k, 3);
    var t := LastLevel(k, m, 3);
    var need := k - |FullLevels(m, t)|;
    WeightLowerBound(m, codes, t);
    HsiaoInRange(m, codes);
    DoubleCount(codes, m);
    CeilDivBounds(Product(need, t), m);
    if forall j :: 0 <= j < m ==> Fanin(codes, j) < ideal {
      SumFaninBelow(codes, m, ideal);
      IdealTooLarge(m, LevelSum(m, t), Product(need, t), ideal);
    }
  }

  lemma IdealTooLarge(m: nat, base: nat, extra: nat, ideal: nat)
    requires m >= 1
    requires ideal == base || ideal == base + CeilDiv(extra, m)
    ensures m * (ideal - 1) < m * base + extra
  {
    CeilDivBounds(extra, m);
    if ideal == base {
      assert m * (base - 1) == m * base - m;
    } else {
      assert m * (base + CeilDiv(extra, m) - 1) == m * base + m * CeilDiv(extra, m) - m;
    }
  }

  // ----- some shuffle attains it -------------------------------------------------------------

  ghost predicate IsFamily(F: set<set<nat>>, m: nat, s: nat)
  {
    forall S :: S in F ==> |S| == s && forall x :: x in S ==> x < m
  }

  ghost function Containing(F: set<set<nat>>, j: nat): set<set<nat>>
  {
    set S | S in F && j in S
  }

  ghost function Degree(F: set<set<nat>>, j: nat): nat
  {
    |Containing(F, j)|
  }

  ghost function Swap(S: set<nat>, a: nat, b: nat): set<nat>
  {
    S - {a} + {b}
  }

  /** Sets with a but not b. */
  ghost function Only(F: set<set<nat>>, a: nat, b: nat): set<set<nat>>
  {
    set S | S in F && a in S && b !in S
  }

  lemma {:induction false} ImageSize(A: set<set<nat>>, B: set<set<nat>>, a: nat, b: nat)
    requires a != b
    requires forall S :: S in A ==> a in S && b !in S && Swap(S, a, b) in B
    ensures |A| <= |B|
  {
    if A != {} {
      var S :| S in A;
      var T := Swap(S, a, b);
      forall U | U in A - {S} ensures Swap(U, a, b) in B - {T} {
        assert U == Swap(U, a, b) - {b} + {a} && S == T - {b} + {a};
      }
      ImageSize(A - {S}, B - {T}, a, b);
    }
  }

  lemma OnlySizes(F: set<set<nat>>, a: nat, b: nat)
    ensures |Only(F, a, b)| - |Only(F, b, a)| == Degree(F, a) - Degree(F, b)
  {
    var both := set S | S in F && a in S && b in S;
    assert Containing(F, a) == Only(F, a, b) + both;
    assert Containing(F, b) == Only(F, b, a) + both;
    assert Only(F, a, b) !! both && Only(F, b, a) !! both;
  }

  /** If a is used more often than b, some set can trade a for b without meeting another set. */
  lemma CanSwap(F: set<set<nat>>, a: nat, b: nat) returns (S: set<nat>)
    requires Degree(F, a) > Degree(F, b)
    ensures S in F && a in S && b !in S && Swap(S, a, b) !in F
  {
    OnlySizes(F, a, b);
    if forall U :: U in Only(F, a, b) ==> Swap(U, a, b) in F {
      assert forall U :: U in Only(F, a, b) ==> Swap(U, a, b) in Only(F, b, a);
      ImageSize(Only(F, a, b), Only(F, b, a), a, b);
    }
    var U :| U in Only(F, a, b) && Swap(U, a, b) !in F;
    S := U;
  }

  lemma DegreeReplace(F: set<set<nat>>, S: set<nat>, T: set<nat>, j: nat)
    requires S in F && T !in F
    ensures Degree(F - {S} + {T}, j) == Degree(F, j) - (if j in S then 1 else 0) + (if j in T then 1 else 0)
  {
    var without := Containing(F - {S}, j);
    assert Containing(F, j) == if j in S then without + {S} else without;
    assert Containing(F - {S} + {T}, j) == if j in T then without + {T} else without;
  }

  /** One exchange moves a unit of degree from a to b and changes nothing else. */
  lemma Exchange(F: set<set<nat>>, m: nat, s: nat, a: nat, b: nat) returns (G: set<set<nat>>)
    requires IsFamily(F, m, s) && a < m && b < m && Degree(F, a) > Degree(F, b)
    ensures IsFamily(G, m, s) && |G| == |F|
    ensures forall j: nat :: Degree(G, j) == Degree(F, j) - (if j == a then 1 else 0) + (if j == b then 1 else 0)
  {
    var S := CanSwap(F, a, b);
    var T := Swap(S, a, b);
    G := F - {S} + {T};
    forall j: nat
      ensures Degree(G, j) == Degree(F, j) - (if j == a then 1 else 0) + (if j == b then 1 else 0)
    {
      DegreeReplace(F, S, T, j);
    }
  }

  ghost function SumDegree(F: set<set<nat>>, m: nat): nat
  {
    if m == 0 then 0 else SumDegree(F, m - 1) + Degree(F, m - 1)
  }

  /** Total degree above c. */
  ghost function Excess(F: set<set<nat>>, m: nat, c: nat): nat
  {
    if m == 0 then 0 else Excess(F, m - 1, c) + if Degree(F, m - 1) > c then Degree(F, m - 1) - c else 0
  }

  lemma {:induction false} SumDegreeReplace(F: set<set<nat>>, S: set<nat>, m: nat)
    requires S !in F
    ensures SumDegree(F + {S}, m) == SumDegree(F, m) + |set x | x in S && x < m|
  {
    if m > 0 {
      SumDegreeReplace(F, S, m - 1);
      var j := m - 1;
      assert Containing(F + {S}, j) == if j in S then Containing(F, j) + {S} else Containing(F, j);
      var below, upto := set x | x in S && x < j, set x | x in S && x < m;
      assert upto == if j in S then below + {j} else below;
    } else {
      assert (set x | x in S && x < 0) == {};
    }
  }

  lemma {:induction false} SumDegreeTotal(F: set<set<nat>>, m: nat, s: nat)
    requires IsFamily(F, m, s)
    ensures SumDegree(F, m) == |F| * s
  {
    hide SumDegree;
    if F == {} {
      SumDegreeEmpty(m);
    } else {
      var S :| S in F;
      var rest := F - {S};
      SumDegreeTotal(rest, m, s);
      SumDegreeReplace(rest, S, m);
      assert rest + {S} == F;
      assert (set x | x in S && x < m) == S;
      Distribute(|rest|, s);
    }
  }

  lemma {:induction false} SumDegreeEmpty(m: nat)
    ensures SumDegree({}, m) == 0
  {
    if m > 0 {
      SumDegreeEmpty(m - 1);
      assert Containing({}, m - 1) == {};
    }
  }

  lemma {:induction false} AllAtLeast(F: set<set<nat>>, m: nat, c: nat)
    requires forall j :: 0 <= j < m ==> Degree(F, j) >= c
    ensures SumDegree(F, m) >= m * c
    ensures (exists j :: 0 <= j < m && Degree(F, j) > c) ==> SumDegree(F, m) > m * c
  {
    if m > 0 {
      AllAtLeast(F, m - 1, c);
      assert m * c == (m - 1) * c + c;
    }
  }

  /** Moving a unit of degree from above c to below c lowers the excess. */
  lemma {:induction false} ExcessDrops(F: set<set<nat>>, G: set<set<nat>>, m: nat, c: nat, a: nat, b: nat)
    requires Degree(F, a) > c && Degree(F, b) < c
    requires forall j: nat :: Degree(G, j) == Degree(F, j) - (if j == a then 1 else 0) + (if j == b then 1 else 0)
    ensures Excess(G, m, c) == Excess(F, m, c) - if a < m then 1 else 0
  {
    if m > 0 { ExcessDrops(F, G, m - 1, c, a, b); }
  }

  /** Any family of s-sets can be exchanged into one of the same size with all degrees at most c. */
  lemma {:induction false} Balance(F: set<set<nat>>, m: nat, s: nat, c: nat) returns (G: set<set<nat>>)
    requires IsFamily(F, m, s) && |F| * s <= m * c
    ensures IsFamily(G, m, s) && |G| == |F| && forall j :: 0 <= j < m ==> Degree(G, j) <= c
    decreases Excess(F, m, c)
  {
    if forall j :: 0 <= j < m ==> Degree(F, j) <= c {
      G := F;
    } else {
      var a :| 0 <= a < m && Degree(F, a) > c;
      SumDegreeTotal(F, m, s);
      if forall j :: 0 <= j < m ==> Degree(F, j) >= c { AllAtLeast(F, m, c); }
      var b :| 0 <= b < m && Degree(F, b) < c;
      var H := Exchange(F, m, s, a, b);
      ExcessDrops(F, H, m, c, a, b);
      G := Balance(H, m, s, c);
    }
  }

  // From families of sets back to lists of tuples.

  /** The codes whose element set is (or is not) in the family, in order. */
  ghost function Pick(cs: seq<Code>, F: set<set<nat>>, wanted: bool): seq<Code>
  {
    if |cs| == 0 then []
    else
      var n := |cs| - 1;
      Pick(cs[..n], F, wanted) + if (Elems(cs[n]) in F) == wanted then [cs[n]] else []
  }

  ghost function Images(cs: seq<Code>): set<set<nat>>
  {
    set i | 0 <= i < |cs| :: Elems(cs[i])
  }

  lemma {:induction false} PickPermutes(cs: seq<Code>, F: set<set<nat>>)
    ensures multiset(Pick(cs, F, true) + Pick(cs, F, false)) == multiset(cs)
  {
    if |cs| > 0 {
      var n := |cs| - 1;
      PickPermutes(cs[..n], F);
      assert cs == cs[..n] + [cs[n]];
    }
  }

  lemma ImagesSnoc(cs: seq<Code>)
    requires |cs| > 0
    ensures Images(cs) == Images(cs[..|cs| - 1]) + {Elems(cs[|cs| - 1])}
  {
    var n := |cs| - 1;
    forall S | S in Images(cs) ensures S in Images(cs[..n]) + {Elems(cs[n])} {
      var i :| 0 <= i < |cs| && Elems(cs[i]) == S;
      if i < n { assert cs[..n][i] == cs[i]; }
    }
    forall S | S in Images(cs[..n]) ensures S in Images(cs) {
      var i :| 0 <= i < n && Elems(cs[..n][i]) == S;
      assert Elems(cs[i]) == S;
    }
  }

  ghost predicate DistinctSets(cs: seq<Code>)
  {
    && (forall i :: 0 <= i < |cs| ==> Increasing(cs[i]))
    && (forall i, l :: 0 <= i < l < |cs| ==> Elems(cs[i]) != Elems(cs[l]))
  }

  lemma LastIsNew(cs: seq<Code>)
    requires |cs| > 0 && DistinctSets(cs)
    ensures DistinctSets(cs[..|cs| - 1]) && Elems(cs[|cs| - 1]) !in Images(cs[..|cs| - 1])
    ensures Increasing(cs[|cs| - 1])
  {
    var n, lower := |cs| - 1, cs[..|cs| - 1];
    forall i | 0 <= i < n ensures lower[i] == cs[i] && Elems(lower[i]) != Elems(cs[n]) {}
  }

  /** Picking by set counts sets: the size and the fan-in of the picked codes. */
  lemma {:induction false} PickCounts(cs: seq<Code>, F: set<set<nat>>, j: nat)
    requires DistinctSets(cs)
    ensures |Pick(cs, F, true)| == |F * Images(cs)|
    ensures Fanin(Pick(cs, F, true), j) == Degree(F * Images(cs), j)
  {
    hide Fanin, Degree, Images, Elems, DistinctSets;
    if |cs| == 0 {
      PickNothing(cs, F, j);
    } else {
      var n := |cs| - 1;
      var lower, S := cs[..n], Elems(cs[n]);
      LastIsNew(cs);
      PickCounts(lower, F, j);
      ImagesSnoc(cs);
      MeetOneMore(F, Images(lower), S, j);
      if S in F {
        FaninSnoc(Pick(lower, F, true), cs[n], j);
      } else {
        assert Pick(cs, F, true) == Pick(lower, F, true);
      }
    }
  }

  lemma PickNothing(cs: seq<Code>, F: set<set<nat>>, j: nat)
    requires |cs| == 0
    ensures |F * Images(cs)| == 0 && Degree(F * Images(cs), j) == 0 && Fanin(Pick(cs, F, true), j) == 0
  {
    assert Images(cs) == {};
    assert Containing({}, j) == {};
  }

  lemma FaninSnoc(codes: seq<Code>, c: Code, j: nat)
    requires Increasing(c)
    ensures Fanin(codes + [c], j) == Fanin(codes, j) + if j in Elems(c) then 1 else 0
  {
    assert (codes + [c])[..|codes|] == codes;
    OccursOnce(c, j);
  }

  lemma MeetOneMore(F: set<set<nat>>, I: set<set<nat>>, S: set<nat>, j: nat)
    requires S !in I
    ensures |F * (I + {S})| == |F * I| + if S in F then 1 else 0
    ensures Degree(F * (I + {S}), j) == Degree(F * I, j) + if S in F && j in S then 1 else 0
  {
    var G := F * I;
    assert F * (I + {S}) == if S in F then G + {S} else G;
    assert Containing(G + {S}, j) == if j in S then Containing(G, j) + {S} else Containing(G, j);
  }

  lemma DistinctImages(m: nat, s: nat)
    ensures DistinctSets(Combos(0, m, s))
  {
    var cs := Combos(0, m, s);
    CombosSound(0, m, s);
    CombosDistinct(0, m, s);
    forall i, l | 0 <= i < l < |cs| ensures Elems(cs[i]) != Elems(cs[l]) {
      if Elems(cs[i]) == Elems(cs[l]) {
        assert forall x :: x in cs[i] <==> x in Elems(cs[i]);
        assert forall x :: x in cs[l] <==> x in Elems(cs[l]);
        TupleFromElems(cs[i], cs[l]);
      }
    }
  }

  lemma FamilyInImages(F: set<set<nat>>, m: nat, s: nat)
    requires IsFamily(F, m, s)
    ensures F * Images(Combos(0, m, s)) == F
  {
    forall S | S in F ensures S in Images(Combos(0, m, s)) {
      var c := SortedTuple(S, 0, m);
      ElemsSize(c);
      var i := CombosComplete(0, m, c);
      assert Elems(Combos(0, m, s)[i]) == S;
    }
  }

  /** Some family of `need` s-sets exists, as long as there are that many s-sets. */
  lemma {:induction false} SomeFamily(m: nat, s: nat, need: nat) returns (F: set<set<nat>>)
    requires need <= |Combos(0, m, s)|
    ensures IsFamily(F, m, s) && |F| == need
    ensures forall S :: S in F ==> exists i :: 0 <= i < need && Elems(Combos(0, m, s)[i]) == S
  {
    var cs := Combos(0, m, s);
    if need == 0 {
      F := {};
    } else {
      var G := SomeFamily(m, s, need - 1);
      var S := Elems(cs[need - 1]);
      DistinctImages(m, s);
      CombosSound(0, m, s);
      assert IsCombo(cs[need - 1], 0, m);
      ElemsSize(cs[need - 1]);
      assert S !in G;
      F := G + {S};
    }
  }

  /** The level still short by `need` tuples has a shuffle whose first `need` load no parity bit more
      than ceil(need * s / m) times. */
  lemma GoodShuffle(m: nat, s: nat, need: nat) returns (perm: seq<Code>)
    requires m >= 1 && need <= |Combos(0, m, s)|
    ensures multiset(perm) == multiset(Combos(0, m, s)) && need <= |perm|
    ensures forall j :: 0 <= j < m ==> Fanin(perm[..need], j) <= CeilDiv(Product(need, s), m)
  {
    var c := CeilDiv(Product(need, s), m);
    CeilDivBounds(Product(need, s), m);
    var F := SomeFamily(m, s, need);
    var G := Balance(F, m, s, c);
    var cs := Combos(0, m, s);
    var chosen := Pick(cs, G, true);
    perm := chosen + Pick(cs, G, false);
    PickPermutes(cs, G);
    DistinctImages(m, s);
    FamilyInImages(G, m, s);
    PickCounts(cs, G, 0);
    assert perm[..need] == chosen;
    forall j | 0 <= j < m ensures Fanin(chosen, j) <= c { PickCounts(cs, G, j); }
  }

  /** Whenever the generator reaches its retry loop, some shuffle passes the fan-in check. */
  lemma RetryCanSucceed(k: nat, m: nat, step: nat, codes: seq<Code>, required: nat, ideal: nat)
    returns (perm: seq<Code>)
    requires Underway(k, m, step, codes, required, ideal) && step <= m && required < |Combos(0, m, step)|
    ensures multiset(perm) == multiset(Combos(0, m, step)) && required <= |perm|
    ensures Fits(m, codes, perm[..required], ideal)
  {
    perm := GoodShuffle(m, step, required);
    CombosCount(0, m, step);
    forall j | 0 <= j < m ensures Fanin(codes, j) == LevelSum(m, step) { FullLevelsFanin(m, step, j); }
  }

  /** Every reordering of a list comes up sooner or later. */
  ghost predicate Fair(draw: Draws)
  {
    forall c, perm :: Reorders(perm, c) ==> exists n: nat :: draw(c, n) == perm
  }

  /** With a fair source of randomness the generator always ends. */
  lemma FairEnds(k: nat, m: nat, draw: Draws)
    requires Fair(draw)
    ensures Ends(k, m, draw)
  {
    forall step, codes, required, ideal | Retrying(k, m, step, codes, required, ideal)
      ensures exists n: nat :: FitsAt(m, step, codes, required, ideal, draw, n)
    {
      var perm := RetryCanSucceed(k, m, step, codes, required, ideal);
      assert Reorders(perm, Combos(0, m, step));
      var n: nat :| draw(Combos(0, m, step), n) == perm;
      assert FitsAt(m, step, codes, required, ideal, draw, n);
    }
  }
}
