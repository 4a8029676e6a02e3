/** `itertools.combinations(range(m), s)` as a list of increasing tuples, and how many there are. */
module Combinations {
  import opened Basics
  import opened Bits
  import opened Secded

  function Prepend(x: nat, cs: seq<Code>): (r: seq<Code>)
    ensures |r| == |cs| && forall i :: 0 <= i < |cs| ==> r[i] == [x] + cs[i]
  {
    seq(|cs|, i requires 0 <= i < |cs| => [x] + cs[i])
  }

  /** The s-element increasing tuples over lo .. m-1, in lexicographic order. */
  function Combos(lo: nat, m: nat, s: nat): seq<Code>
    requires lo <= m
    decreases m - lo
  {
    if s == 0 then [[]]
    else if lo == m then []
    else Prepend(lo, Combos(lo + 1, m, s - 1)) + Combos(lo + 1, m, s)
  }

  predicate IsCombo(c: Code, lo: nat, m: nat)
  {
    Increasing(c) && forall a :: 0 <= a < |c| ==> lo <= c[a] < m
  }

  lemma {:induction false} CombosSound(lo: nat, m: nat, s: nat)
    requires lo <= m
    ensures forall i :: 0 <= i < |Combos(lo, m, s)| ==>
      IsCombo(Combos(lo, m, s)[i], lo, m) && |Combos(lo, m, s)[i]| == s
    decreases m - lo
  {
    if s > 0 && lo < m {
      CombosSound(lo + 1, m, s - 1);
      CombosSound(lo + 1, m, s);
    }
  }

  lemma ComboTail(c: Code, lo: nat, m: nat)
    requires |c| > 0 && IsCombo(c, lo, m)
    ensures IsCombo(c[1..], lo + 1, m)
  {
    var t := c[1..];
    forall a | 0 <= a < |t| ensures lo + 1 <= t[a] < m { assert c[0] < c[a + 1] == t[a]; }
    forall a, b | 0 <= a < b < |t| ensures t[a] < t[b] { assert c[a + 1] < c[b + 1]; }
  }

  lemma ComboHead(c: Code, lo: nat, m: nat)
    requires |c| > 0 && IsCombo(c, lo, m)
    ensures lo <= c[0] < m
  {}

  lemma EmptyListed(lo: nat, m: nat)
    requires lo <= m
    ensures Combos(lo, m, 0) == [[]]
  {}

  lemma ComboAbove(c: Code, lo: nat, m: nat)
    requires |c| > 0 && IsCombo(c, lo, m) && c[0] != lo
    ensures IsCombo(c, lo + 1, m)
  {
    forall a | 0 <= a < |c| ensures lo + 1 <= c[a] { assert a > 0 ==> c[0] < c[a]; }
  }

  /** The list starts with the tuples that contain lo. */
  lemma ListedWith(lo: nat, m: nat, s: nat, i: nat)
    requires lo < m && s > 0 && i < |Combos(lo + 1, m, s - 1)|
    ensures i < |Combos(lo, m, s)| && Combos(lo, m, s)[i] == [lo] + Combos(lo + 1, m, s - 1)[i]
  {}

  /** After the tuples that contain lo come those that do not. */
  lemma ListedWithout(lo: nat, m: nat, s: nat, i: nat) returns (a: nat)
    requires lo < m && s > 0 && i < |Combos(lo + 1, m, s)|
    ensures a < |Combos(lo, m, s)| && Combos(lo, m, s)[a] == Combos(lo + 1, m, s)[i]
  {
    a := |Combos(lo + 1, m, s - 1)| + i;
  }

  /** Every increasing tuple over lo .. m-1 is listed. */
  lemma {:induction false} CombosComplete(lo: nat, m: nat, c: Code) returns (i: nat)
    requires lo <= m && IsCombo(c, lo, m)
    ensures i < |Combos(lo, m, |c|)| && Combos(lo, m, |c|)[i] == c
    decreases m - lo
  {
    hide Combos, IsCombo, Increasing;
    if |c| == 0 {
      EmptyListed(lo, m);
      return 0;
    }
    ComboHead(c, lo, m);
    if c[0] == lo {
      var tail := c[1..];
      ComboTail(c, lo, m);
      i := CombosComplete(lo + 1, m, tail);
      ListedWith(lo, m, |c|, i);
      assert [lo] + tail == c;
    } else {
      ComboAbove(c, lo, m);
      i := CombosComplete(lo + 1, m, c);
      i := ListedWithout(lo, m, |c|, i);
    }
  }

  lemma {:induction false} CombosDistinct(lo: nat, m: nat, s: nat)
    requires lo <= m
    ensures Distinct(Combos(lo, m, s))
    decreases m - lo
  {
    if s > 0 && lo < m {
      var a, b := Combos(lo + 1, m, s - 1), Combos(lo + 1, m, s);
      CombosDistinct(lo + 1, m, s - 1);
      CombosDistinct(lo + 1, m, s);
      CombosSound(lo + 1, m, s);
      forall i, j | 0 <= i < j < |a| ensures Prepend(lo, a)[i] != Prepend(lo, a)[j] {
        assert Prepend(lo, a)[i][1..] == a[i] && Prepend(lo, a)[j][1..] == a[j];
      }
      forall i, j | 0 <= i < |a| && 0 <= j < |b| ensures Prepend(lo, a)[i] != b[j] {
        assert Prepend(lo, a)[i][0] == lo && b[j][0] > lo;
      }
    }
  }

  /** a comes before b: smaller at the first place where they differ. */
  predicate LexBefore(a: Code, b: Code)
  {
    if a == [] || b == [] then false else a[0] < b[0] || (a[0] == b[0] && LexBefore(a[1..], b[1..]))
  }

  /** The list is in lexicographic order. */
  lemma {:induction false} CombosSorted(lo: nat, m: nat, s: nat, i: nat, j: nat)
    requires lo <= m && i < j < |Combos(lo, m, s)|
    ensures LexBefore(Combos(lo, m, s)[i], Combos(lo, m, s)[j])
    decreases m - lo
  {
    var a, b := Combos(lo + 1, m, s - 1), Combos(lo + 1, m, s);
    CombosSound(lo + 1, m, s);
    if j < |a| {
      CombosSorted(lo + 1, m, s - 1, i, j);
      assert ([lo] + a[i])[1..] == a[i] && ([lo] + a[j])[1..] == a[j];
    } else if i >= |a| {
      CombosSorted(lo + 1, m, s, i - |a|, j - |a|);
    } else {
      assert b[j - |a|][0] > lo;
    }
  }

  // ----- counting ----------------------------------------------------------------------------

  function Binom(n: nat, s: nat): nat
  {
    if s == 0 then 1 else if n == 0 then 0 else Binom(n - 1, s - 1) + Binom(n - 1, s)
  }

  lemma {:induction false} CombosCount(lo: nat, m: nat, s: nat)
    requires lo <= m
    ensures |Combos(lo, m, s)| == Binom(m - lo, s)
    decreases m - lo
  {
    if s > 0 && lo < m {
      CombosCount(lo + 1, m, s - 1);
      CombosCount(lo + 1, m, s);
    }
  }

  lemma {:induction false} BinomAbove(n: nat, s: nat)
    requires s > n
    ensures Binom(n, s) == 0
  {
    if n > 0 {
      BinomAbove(n - 1, s - 1);
      BinomAbove(n - 1, s);
    }
  }

  lemma {:induction false} BinomOne(n: nat)
    ensures Binom(n, 1) == n
  {
    if n > 0 { BinomOne(n - 1); }
  }

  /** Subsets of an n-set with t or more elements. */
  function Tail(n: nat, t: nat): nat
    decreases n + 1 - t
  {
    if t > n then 0 else Binom(n, t) + Tail(n, t + 1)
  }

  /** Subsets of an m-set with s, s+2, s+4, ... elements. */
  function EverySecond(m: nat, s: nat): nat
    decreases m + 1 - s
  {
    if s > m then 0 else Binom(m, s) + EverySecond(m, s + 2)
  }

  lemma {:induction false} TailPascal(n: nat, t: nat)
    requires n >= 1 && t >= 1
    ensures Tail(n, t) == Tail(n - 1, t - 1) + Tail(n - 1, t)
    decreases n + 1 - t
  {
    if t <= n {
      TailPascal(n, t + 1);
      if t > n - 1 { BinomAbove(n - 1, t); }
    }
  }

  lemma {:induction false} TailZero(n: nat)
    ensures Tail(n, 0) == Pow2(n)
  {
    if n > 0 {
      TailZero(n - 1);
      TailPascal(n, 1);
    } else {
      assert Tail(0, 1) == 0;
    }
  }

  lemma {:induction false} EverySecondIsTail(m: nat, s: nat)
    requires m >= 1 && s >= 1
    ensures EverySecond(m, s) == Tail(m - 1, s - 1)
    decreases m + 1 - s
  {
    if s <= m {
      EverySecondIsTail(m, s + 2);
      if s > m - 1 { BinomAbove(m - 1, s); }
    }
  }

  /** An m-set has 2^(m-1) - m subsets of odd size three or more. */
  lemma OddSubsets(m: nat)
    requires m >= 1
    ensures EverySecond(m, 3) + m == Pow2(m - 1)
  {
    EverySecondIsTail(m, 1);
    TailZero(m - 1);
    BinomOne(m);
  }

  // ----- tuples and the sets they list -------------------------------------------------------

  ghost function Elems(c: Code): set<nat>
  {
    set x | x in c
  }

  lemma {:induction false} ElemsSize(c: Code)
    requires Increasing(c)
    ensures |Elems(c)| == |c|
  {
    if |c| > 0 {
      var n := |c| - 1;
      ElemsSize(c[..n]);
      assert c[n] !in c[..n];
      assert Elems(c) == Elems(c[..n]) + {c[n]};
    }
  }

  /** An increasing tuple is determined by its elements. */
  lemma {:induction false} TupleFromElems(c: Code, d: Code)
    requires Increasing(c) && Increasing(d) && (forall x :: x in c <==> x in d)
    ensures c == d
  {
    assert Elems(c) == Elems(d);
    ElemsSize(c);
    ElemsSize(d);
    if |c| > 0 {
      assert c[|c| - 1] in d;
      assert d[|d| - 1] in c;
      var n, l := |c| - 1, |d| - 1;
      assert c[n] == d[l];
      assert forall x :: x in c[..n] <==> x in c && x != c[n];
      assert forall x :: x in d[..l] <==> x in d && x != d[l];
      TupleFromElems(c[..n], d[..l]);
      assert c == c[..n] + [c[n]] && d == d[..l] + [d[l]];
    }
  }

  /** Every finite set of parity bits is listed by some increasing tuple. */
  lemma {:induction false} SortedTuple(S: set<nat>, lo: nat, m: nat) returns (c: Code)
    requires lo <= m && forall x :: x in S ==> lo <= x < m
    ensures IsCombo(c, lo, m) && Elems(c) == S
    decreases m - lo
  {
    if lo == m {
      c := [];
    } else {
      var rest := SortedTuple(S - {lo}, lo + 1, m);
      if lo in S {
        c := [lo] + rest;
        assert forall x :: x in c <==> x == lo || x in rest;
        assert Elems(c) == Elems(rest) + {lo};
      } else {
        c := rest;
      }
    }
  }

  // ----- permutations ------------------------------------------------------------------------

  lemma {:induction false} DistinctOnce<T>(xs: seq<T>, x: T)
    requires Distinct(xs)
    ensures multiset(xs)[x] <= 1
  {
    if |xs| > 0 {
      var n := |xs| - 1;
      assert xs == xs[..n] + [xs[n]];
      DistinctOnce(xs[..n], x);
      assert xs[n] !in xs[..n];
    }
  }

  lemma TwiceNotDistinct<T>(xs: seq<T>, i: nat, j: nat)
    requires i < j < |xs| && xs[i] == xs[j]
    ensures multiset(xs)[xs[i]] >= 2
  {
    assert xs == xs[..j] + xs[j..];
    assert xs[..j][i] == xs[i] && xs[j..][0] == xs[i];
    assert xs[i] in multiset(xs[..j]) && xs[i] in multiset(xs[j..]);
  }

  /** A reordering of distinct elements is distinct. */
  lemma PermutationDistinct<T>(xs: seq<T>, ys: seq<T>)
    requires Distinct(xs) && multiset(xs) == multiset(ys)
    ensures Distinct(ys)
  {
    forall i, j | 0 <= i < j < |ys| ensures ys[i] != ys[j] {
      if ys[i] == ys[j] {
        TwiceNotDistinct(ys, i, j);
        DistinctOnce(xs, ys[i]);
      }
    }
  }

  lemma PermutationMember<T>(xs: seq<T>, ys: seq<T>, i: nat)
    requires multiset(xs) == multiset(ys) && i < |ys|
    ensures |xs| == |ys| && ys[i] in xs
  {
    assert ys[i] in multiset(ys);
    assert |multiset(xs)| == |xs| && |multiset(ys)| == |ys|;
  }
}
