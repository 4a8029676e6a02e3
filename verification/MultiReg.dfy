/** Bit ranges and the expansion of a multi-register into compacted registers: util/reggen. */
module MultiReg {
  import opened Basics
  import opened Bits

  /** A bit range `[msb:lsb]`. */
  datatype Range = Range(msb: nat, lsb: nat)

  predicate Valid(b: Range)
  {
    b.lsb <= b.msb
  }

  function Bitmask(b: Range): int
  {
    Pow2(b.msb + 1) - Pow2(b.lsb)
  }

  function Width(b: Range): nat
    requires Valid(b)
  {
    1 + b.msb - b.lsb
  }

  function ExtractField(b: Range, value: nat): nat
    requires Valid(b)
  {
    Pow2Mono(b.lsb, b.msb + 1);
    And(value, Bitmask(b)) / Pow2(b.lsb)
  }

  function Translated(b: Range, offset: nat): Range
  {
    Range(b.msb + offset, b.lsb + offset)
  }

  // ----- extracting a field ------------------------------------------------------------------

  lemma {:induction false} AndLow(x: nat, n: nat)
    ensures And(x, Pow2(n) - 1) == x % Pow2(n)
  {
    if n > 0 {
      AndLow(x / 2, n - 1);
      assert (Pow2(n) - 1) / 2 == Pow2(n - 1) - 1 && (Pow2(n) - 1) % 2 == 1;
      ModDouble(x, Pow2(n - 1));
    }
  }

  lemma ModDouble(x: nat, d: nat)
    requires d >= 1
    ensures x % (2 * d) == x % 2 + 2 * ((x / 2) % d)
  {
    var h := x / 2;
    assert h == d * (h / d) + h % d;
    assert x == (2 * d) * (h / d) + (x % 2 + 2 * (h % d));
    DivUnique(x, 2 * d, h / d, x % 2 + 2 * (h % d));
    assert x == (2 * d) * (x / (2 * d)) + x % (2 * d);
  }

  lemma {:induction false} AndShifted(x: nat, lsb: nat, width: nat)
    ensures Pow2(lsb + width) >= Pow2(lsb)
    ensures And(x, Pow2(lsb + width) - Pow2(lsb)) == Pow2(lsb) * ((x / Pow2(lsb)) % Pow2(width))
  {
    hide And;
    Pow2Mono(lsb, lsb + width);
    if lsb == 0 {
      AndUnshifted(x, width);
    } else {
      assert Pow2(lsb) == 2 * Pow2(lsb - 1) && Pow2(lsb + width) == 2 * Pow2(lsb + width - 1);
      hide Pow2;
      AndShifted(x / 2, lsb - 1, width);
      AndShiftedStep(x, Pow2(lsb - 1), Pow2(lsb + width - 1), Pow2(width));
    }
  }

  lemma AndUnshifted(x: nat, width: nat)
    ensures And(x, Pow2(width) - Pow2(0)) == Pow2(0) * ((x / Pow2(0)) % Pow2(width))
  {
    hide And;
    AndLow(x, width);
  }

  lemma AndShiftedStep(x: nat, p: nat, q: nat, n: nat)
    requires q >= p >= 1 && n >= 1 && And(x / 2, q - p) == p * (((x / 2) / p) % n)
    ensures And(x, 2 * q - 2 * p) == (2 * p) * ((x / (2 * p)) % n)
  {
    hide And;
    AndEven(x, q - p);
    DivDiv(x, p);
    Twice(p, ((x / 2) / p) % n);
  }

  lemma Twice(a: nat, b: nat)
    ensures 2 * (a * b) == (2 * a) * b
  {}

  lemma AndEven(x: nat, half: nat)
    ensures And(x, 2 * half) == 2 * And(x / 2, half)
  {
    if x > 0 && half > 0 { assert (2 * half) / 2 == half && (2 * half) % 2 == 0; }
  }

  /** Masking and shifting reads the digits of the value from lsb to msb. */
  lemma ExtractIsDigits(b: Range, value: nat)
    requires Valid(b)
    ensures ExtractField(b, value) == (value / Pow2(b.lsb)) % Pow2(Width(b))
  {
    AndShifted(value, b.lsb, Width(b));
    var q, d := (value / Pow2(b.lsb)) % Pow2(Width(b)), Pow2(b.lsb);
    DivUnique(d * q, d, q, 0);
  }

  // ----- replicated fields -------------------------------------------------------------------

  /** `Field.make_multi`, None where it raises an error. */
  method MakeMulti(bits: Range, regWidth: nat, minIdx: nat, maxIdx: nat) returns (r: Option<seq<Range>>)
    requires Valid(bits) && minIdx <= maxIdx
    ensures r.None? <==> (bits.msb + 1) * (1 + maxIdx - minIdx) > regWidth
    ensures r.Some? ==> r.value == Copies(bits, 1 + maxIdx - minIdx)
  {
    var copies := 1 + maxIdx - minIdx;
    var fieldWidth := bits.msb + 1;
    if fieldWidth * copies > regWidth {
      return None;
    }
    var ret: seq<Range> := [];
    for idx := minIdx to maxIdx + 1
      invariant ret == Copies(bits, idx - minIdx)
    {
      var bitOffset := fieldWidth * (idx - minIdx);
      ret := ret + [if bitOffset == 0 then bits else Translated(bits, bitOffset)];
    }
    return Some(ret);
  }

  function Copies(bits: Range, n: nat): (r: seq<Range>)
    ensures |r| == n
  {
    if n == 0 then [] else Copies(bits, n - 1) + [Translated(bits, (bits.msb + 1) * (n - 1))]
  }

  lemma {:induction false} CopyAt(bits: Range, n: nat, i: nat)
    requires i < n
    ensures Copies(bits, n)[i] == Translated(bits, (bits.msb + 1) * i)
  {
    if i < n - 1 { CopyAt(bits, n - 1, i); }
  }

  /** Every copy is a bit range inside the register, and no two overlap. */
  lemma CopiesApart(bits: Range, n: nat, i: nat, j: nat, regWidth: nat)
    requires Valid(bits) && i <= j < n && (bits.msb + 1) * n <= regWidth
    ensures Valid(Copies(bits, n)[j]) && Copies(bits, n)[j].msb < regWidth
    ensures i < j ==> Copies(bits, n)[i].msb < Copies(bits, n)[j].lsb
  {
    hide Copies;
    CopyAt(bits, n, i);
    CopyAt(bits, n, j);
    var w := bits.msb + 1;
    if i < j { MulMono(w, i + 1, j); }
    MulMono(w, j + 1, n);
    Spread(w, i);
    Spread(w, j);
  }

  // ----- packing -----------------------------------------------------------------------------

  ghost predicate Fit(bits: Range, vals: seq<nat>)
    requires Valid(bits)
  {
    forall i :: 0 <= i < |vals| ==> vals[i] < Pow2(Width(bits))
  }

  /** The register value holding vals[i] in the i-th copy of the field. */
  function Pack(bits: Range, vals: seq<nat>): nat
  {
    if vals == [] then 0 else Pow2(bits.lsb) * vals[0] + Pow2(bits.msb + 1) * Pack(bits, vals[1..])
  }

  lemma {:induction false} Pow2Sum(a: nat, b: nat)
    ensures Pow2(a + b) == Pow2(a) * Pow2(b)
  {
    if a > 0 {
      Pow2Sum(a - 1, b);
      Twice(Pow2(a - 1), Pow2(b));
      assert a + b - 1 == (a - 1) + b;
    }
  }

  lemma SlotFits(bits: Range, v: nat)
    requires Valid(bits) && v < Pow2(Width(bits))
    ensures Pow2(bits.lsb) * v < Pow2(bits.msb + 1)
  {
    Pow2Sum(bits.lsb, Width(bits));
    MulMono(Pow2(bits.lsb), v + 1, Pow2(Width(bits)));
  }

  lemma DivTwice(x: nat, a: nat, b: nat)
    requires a >= 1 && b >= 1
    ensures a * b >= 1 && x / (a * b) == (x / a) / b
  {
    MulMono(a, 1, b);
    var y := x / a;
    Quotient(x, a);
    Quotient(y, b);
    DivTwiceParts(x, a, b, y, x % a, y / b, y % b);
  }

  lemma Quotient(x: nat, d: nat)
    requires d >= 1
    ensures x == d * (x / d) + x % d && x % d < d
  {}

  lemma DivTwiceParts(x: nat, a: nat, b: nat, y: nat, s: nat, q: nat, r: nat)
    requires a >= 1 && b >= 1 && a * b >= 1 && x == a * y + s && s < a && y == b * q + r && r < b
    ensures x / (a * b) == q
  {
    var ab, ar := a * b, a * r;
    Regroup(a, b, q, r);
    MulMono(a, r + 1, b);
    Spread(a, r);
    DivUnique(x, ab, q, ar + s);
  }

  lemma Spread(a: nat, r: nat)
    ensures a * (r + 1) == a * r + a
  {}

  lemma Regroup(a: nat, b: nat, q: nat, r: nat)
    ensures a * (b * q + r) == (a * b) * q + a * r
  {}

  /** What is packed into a copy is what is extracted from it. */
  lemma {:induction false} PackExtract(bits: Range, vals: seq<nat>, i: nat)
    requires Valid(bits) && Fit(bits, vals) && i < |vals|
    ensures ExtractField(Translated(bits, (bits.msb + 1) * i), Pack(bits, vals)) == vals[i]
  {
    hide And, ExtractField, Pow2;
    var w, b := bits.msb + 1, Translated(bits, (bits.msb + 1) * i);
    var tail, total := Pack(bits, vals[1..]), Pack(bits, vals);
    ExtractIsDigits(b, total);
    if i == 0 {
      FirstSlot(bits, vals[0], tail);
    } else {
      assert Fit(bits, vals[1..]);
      PackExtract(bits, vals[1..], i - 1);
      ExtractIsDigits(Translated(bits, w * (i - 1)), tail);
      DropSlot(bits, vals[0], tail, i);
    }
  }

  /** Beyond the first slot, the digits of a packed value are those of the rest. */
  lemma DropSlot(bits: Range, v: nat, tail: nat, i: nat)
    requires Valid(bits) && v < Pow2(Width(bits)) && i >= 1
    ensures var w := bits.msb + 1;
      (Pow2(bits.lsb) * v + Pow2(w) * tail) / Pow2(bits.lsb + w * i) == tail / Pow2(bits.lsb + w * (i - 1))
  {
    hide Pow2;
    var w := bits.msb + 1;
    SlotFits(bits, v);
    NextSlot(w, i, bits.lsb);
    var total := Pow2(bits.lsb) * v + Pow2(w) * tail;
    DivUnique(total, Pow2(w), tail, Pow2(bits.lsb) * v);
    DivTwice(total, Pow2(w), Pow2(bits.lsb + w * (i - 1)));
  }

  lemma NextSlot(w: nat, i: nat, lsb: nat)
    requires i >= 1
    ensures Pow2(lsb + w * i) == Pow2(w) * Pow2(lsb + w * (i - 1))
  {
    hide Pow2;
    Spread(w, i - 1);
    Pow2Sum(w, lsb + w * (i - 1));
  }

  lemma FirstSlot(bits: Range, v: nat, tail: nat)
    requires Valid(bits) && v < Pow2(Width(bits))
    ensures ((Pow2(bits.lsb) * v + Pow2(bits.msb + 1) * tail) / Pow2(bits.lsb)) % Pow2(Width(bits)) == v
  {
    hide Pow2;
    Pow2Sum(bits.lsb, Width(bits));
    Digits(Pow2(bits.lsb), Pow2(Width(bits)), v, tail);
  }

  lemma Digits(l: nat, n: nat, v: nat, tail: nat)
    requires l >= 1 && v < n
    ensures ((l * v + (l * n) * tail) / l) % n == v
  {
    Regroup(l, n, tail, v);
    var y := n * tail + v;
    assert l * v + (l * n) * tail == l * y;
    DivUnique(l * y, l, y, 0);
    DivUnique(y, n, tail, v);
    assert y == n * (y / n) + y % n;
  }

  // ----- the registers -----------------------------------------------------------------------

  /** A generated register: its address, the first and last index in it, and the bits of its fields. */
  datatype Creg = Creg(offset: int, first: nat, last: nat, fields: seq<Range>)

  /** Register c holds the c-th group of `per` indices, at the c-th address. */
  ghost predicate RegOk(reg: Creg, c: nat, offset: int, addrsep: int, fields: seq<Range>, compact: bool, count: nat,
                        per: nat)
  {
    && reg.offset == offset + c * addrsep
    && reg.first == per * c <= reg.last
    && reg.last == (if per * c + per < count then per * c + per else count) - 1
    && reg.fields == if compact && |fields| == 1 then Copies(fields[0], 1 + reg.last - reg.first) else fields
  }

  class MultiRegister {
    const offset: int
    const count: nat
    const perReg: nat
    var regs: seq<Creg>

    ghost predicate Laid(fields: seq<Range>, compact: bool, addrsep: int)
      reads this
    {
      && perReg >= 1 && |regs| * perReg >= count > (|regs| - 1) * perReg
      && forall c :: 0 <= c < |regs| ==> RegOk(regs[c], c, offset, addrsep, fields, compact, count, perReg)
    }

    /** The expansion; a compact multi-register has one field and never fails to replicate it. */
    constructor (offset: int, addrsep: int, regWidth: nat, fields: seq<Range>, compact: bool, count: nat)
      requires count > 0 && (compact ==> |fields| == 1)
      requires forall i :: 0 <= i < |fields| ==> Valid(fields[i]) && fields[i].msb < regWidth
      ensures this.offset == offset && this.count == count
      ensures perReg == if compact then regWidth / (fields[0].msb + 1) else 1
      ensures Laid(fields, compact, addrsep)
    {
      hide RegOk;
      this.offset, this.count := offset, count;
      var per: nat := 1;
      if compact {
        per := regWidth / (fields[0].msb + 1);
        PerRegister(fields[0].msb + 1, regWidth);
      }
      perReg := per;
      GroupCount(count, per);
      var cregs := (count + per - 1) / per;
      regs := [];
      new;
      for c := 0 to cregs
        invariant |regs| == c
        invariant forall i :: 0 <= i < c ==> RegOk(regs[i], i, offset, addrsep, fields, compact, count, per)
      {
        var reg := MakeReg(c, offset, addrsep, regWidth, fields, compact, count, per);
        regs := regs + [reg];
      }
    }

    /** One generated register. */
    static method MakeReg(c: nat, offset: int, addrsep: int, regWidth: nat, fields: seq<Range>, compact: bool,
                          count: nat, per: nat)
      returns (reg: Creg)
      requires count > 0 && per >= 1 && c < (count + per - 1) / per
      requires compact ==> |fields| == 1 && Valid(fields[0]) && per == regWidth / (fields[0].msb + 1)
      ensures RegOk(reg, c, offset, addrsep, fields, compact, count, per)
    {
      GroupStarts(count, per, c);
      var first := per * c;
      var last := (if first + per < count then first + per else count) - 1;
      var made := fields;
      if compact {
        CopiesFit(fields[0].msb + 1, regWidth, 1 + last - first);
        var r := MakeMulti(fields[0], regWidth, first, last);
        made := r.value;
      }
      reg := Creg(offset + c * addrsep, first, last, made);
    }

    /** Where the register after this multi-register goes. */
    function NextOffset(addrsep: int): int
      reads this
    {
      offset + |regs| * addrsep
    }

    /** Every index is in exactly one register, and the next free address is behind all of them. */
    lemma EachIndexOnce(fields: seq<Range>, compact: bool, addrsep: int, idx: nat) returns (c: nat)
      requires Laid(fields, compact, addrsep) && idx < count
      ensures c < |regs| && regs[c].first <= idx <= regs[c].last
      ensures forall e :: 0 <= e < |regs| && regs[e].first <= idx <= regs[e].last ==> e == c
      ensures forall e :: 0 <= e < |regs| ==> regs[e].offset == NextOffset(addrsep) - (|regs| - e) * addrsep
    {
      c := idx / perReg;
      assert idx == perReg * c + idx % perReg;
      GroupInRange(idx, count, perReg, |regs|);
      assert RegOk(regs[c], c, offset, addrsep, fields, compact, count, perReg);
      forall e | 0 <= e < |regs| && regs[e].first <= idx <= regs[e].last ensures e == c {
        assert RegOk(regs[e], e, offset, addrsep, fields, compact, count, perReg);
        DivUnique(idx, perReg, e, idx - perReg * e);
      }
      forall e | 0 <= e < |regs| ensures regs[e].offset == NextOffset(addrsep) - (|regs| - e) * addrsep {
        assert RegOk(regs[e], e, offset, addrsep, fields, compact, count, perReg);
        Before(|regs|, e, addrsep);
      }
    }
  }

  lemma Before(n: nat, e: nat, addrsep: int)
    ensures (n - e) * addrsep == n * addrsep - e * addrsep
  {}

  lemma GroupInRange(idx: nat, count: nat, per: nat, n: nat)
    requires per >= 1 && idx < count <= n * per
    ensures idx / per < n
  {
    assert idx == per * (idx / per) + idx % per;
    assert n <= idx / per ==> per * n <= per * (idx / per) by { if n <= idx / per { MulMono(per, n, idx / per); } }
  }

  lemma PerRegister(w: nat, regWidth: nat)
    requires 1 <= w <= regWidth
    ensures regWidth / w >= 1
  {
    assert regWidth == w * (regWidth / w) + regWidth % w;
  }

  lemma CopiesFit(w: nat, regWidth: nat, n: nat)
    requires w >= 1 && n <= regWidth / w
    ensures w * n <= regWidth
  {
    MulMono(w, n, regWidth / w);
    assert regWidth == w * (regWidth / w) + regWidth % w;
  }

  lemma GroupCount(count: nat, per: nat)
    requires count > 0 && per >= 1
    ensures var n := (count + per - 1) / per; n * per >= count > (n - 1) * per && n >= 1
  {
    var n := (count + per - 1) / per;
    assert count + per - 1 == per * n + (count + per - 1) % per;
    assert (n - 1) * per == n * per - per;
  }

  lemma GroupStarts(count: nat, per: nat, c: nat)
    requires count > 0 && per >= 1 && c < (count + per - 1) / per
    ensures per * c < count
  {
    var n := (count + per - 1) / per;
    GroupCount(count, per);
    MulMono(per, c, n - 1);
  }
}
