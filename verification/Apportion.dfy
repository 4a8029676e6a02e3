/** The rounding by which a dispatch pass shares its slots among targets. */
module Apportion {
  import opened Bits

  /** `round(a / b)`: to the nearest integer, ties to the even one. */
  function RoundHalfEven(a: nat, b: nat): nat
    requires b >= 1
  {
    var q, r := a / b, a % b;
    if 2 * r < b then q else if 2 * r > b then q + 1 else if q % 2 == 0 then q else q + 1
  }

  lemma RoundMonotone(a: nat, c: nat, b: nat)
    requires b >= 1 && a <= c
    ensures RoundHalfEven(a, b) <= RoundHalfEven(c, b)
  {
    DivMonotone(a, c, b);
  }

  lemma DivMonotone(a: nat, c: nat, b: nat)
    requires b >= 1 && a <= c
    ensures a / b < c / b || (a / b == c / b && a % b <= c % b)
  {
    assert a == b * (a / b) + a % b && c == b * (c / b) + c % b;
    if a / b > c / b { MulMono(b, c / b + 1, a / b); }
  }

  lemma DivShift(s: nat, x: nat, b: nat)
    requires b >= 1
    ensures (s * b + x) / b == s + x / b && (s * b + x) % b == x % b
  {
    assert x == b * (x / b) + x % b;
    assert s * b + x == b * (s + x / b) + x % b;
    DivUnique(s * b + x, b, s + x / b, x % b);
    assert s * b + x == b * ((s * b + x) / b) + (s * b + x) % b;
  }

  /** The slots handed out once the running sum of weights is `sum`, of a total of `total`. */
  function Share(slots: nat, sum: nat, total: nat): nat
    requires total >= 1
  {
    RoundHalfEven(slots * sum, total)
  }

  /** h is the integer nearest to a / b, and of two equally near ones the even one. */
  predicate IsNearest(a: nat, b: nat, h: int)
  {
    var gap := 2 * b * h - 2 * a;
    gap <= b && -gap <= b && (gap == b || -gap == b ==> h % 2 == 0)
  }

  /** There is only one such integer. */
  lemma NearestUnique(a: nat, b: nat, h: int, h': int)
    requires b >= 1 && IsNearest(a, b, h) && IsNearest(a, b, h')
    ensures h == h'
  {
    if h < h' {
      NearestGap(a, b, h, h');
    } else if h' < h {
      NearestGap(a, b, h', h);
    }
  }

  lemma NearestGap(a: nat, b: nat, h: int, h': int)
    requires b >= 1 && IsNearest(a, b, h) && h < h'
    ensures !IsNearest(a, b, h')
  {
    assert 2 * b * h' == 2 * b * h + 2 * b * (h' - h);
    if h' - h >= 2 { MulMono(2 * b, 2, h' - h); } else { assert h' == h + 1; }
  }

  lemma RoundNearest(a: nat, b: nat)
    requires b >= 1
    ensures IsNearest(a, b, RoundHalfEven(a, b))
  {
    var q, r, h := a / b, a % b, RoundHalfEven(a, b);
    assert a == b * q + r;
    assert 2 * b * (q + 1) == 2 * (b * q) + 2 * b;
    assert 2 * b * q == 2 * (b * q);
  }

  /** h is the share of the slots that `sum` of `total` makes, rounded to the nearest integer. */
  predicate IsShare(slots: nat, sum: nat, total: nat, h: int)
  {
    IsNearest(slots * sum, total, h)
  }

  /** The running allotment is the running share of the weight. */
  lemma ShareNearest(slots: nat, sum: nat, total: nat)
    requires total >= 1
    ensures IsShare(slots, sum, total, Share(slots, sum, total))
  {
    RoundNearest(slots * sum, total);
  }

  lemma ShareMonotone(slots: nat, sum: nat, more: nat, total: nat)
    requires total >= 1 && sum <= more
    ensures Share(slots, sum, total) <= Share(slots, more, total)
  {
    MulMono(slots, sum, more);
    RoundMonotone(slots * sum, slots * more, total);
  }

  /** An extra of x / total slots is less than half a slot, or half a slot and rounded down. */
  predicate RoundsAway(slots: nat, total: nat, x: nat)
  {
    2 * x < total || (2 * x == total && slots % 2 == 0)
  }

  lemma RoundExtra(slots: nat, total: nat, x: nat)
    requires total >= 1
    ensures RoundHalfEven(slots * total + x, total) >= slots
    ensures RoundHalfEven(slots * total + x, total) == slots <==> RoundsAway(slots, total, x)
  {
    DivShift(slots, x, total);
    if x < total {
      SmallDiv(x, total);
    } else {
      DivMonotone(total, x, total);
      assert total / total == 1;
    }
  }

  /** With the weight it was computed from, the running formula hands out exactly the free slots; with
      `late` extra weight it still does exactly when the excess share rounds away. */
  lemma RoundWithLateWeight(slots: nat, total: nat, late: nat)
    requires total >= 1
    ensures Share(slots, total + late, total) >= slots
    ensures Share(slots, total + late, total) == slots <==> RoundsAway(slots, total, slots * late)
  {
    hide RoundHalfEven, RoundsAway;
    assert slots * (total + late) == slots * total + slots * late;
    RoundExtra(slots, total, slots * late);
  }

  lemma SmallDiv(x: nat, b: nat)
    requires x < b
    ensures x / b == 0 && x % b == x
  {}
}
