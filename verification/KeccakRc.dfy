/** Round constants of Keccak: util/design/keccak_rc.py against section 3.2.5 of FIPS 202. */
module KeccakRc {
  import opened Bits

  /** An 8-bit register; index 0 of the bit array is the most significant bit. */
  type Register = bv8

  const START: Register := 0x80

  /** One step as the script takes it: shift in a zero and flip bits 0, 4, 5 and 6 if a one fell out. */
  function Step(r: Register): Register
  {
    if r & 1 == 1 then (r >> 1) ^ 0x8E else r >> 1
  }

  predicate First(r: Register)
  {
    r & 0x80 == 0x80
  }

  function Iterate(r: Register, n: nat): Register
    decreases n
  {
    if n == 0 then r else Iterate(Step(r), n - 1)
  }

  // ----- the standard ------------------------------------------------------------------------

  /** One step of Algorithm 5: prefix a zero, add bit 8 to bits 0, 4, 5 and 6, keep the first eight. */
  function FipsStep(r: Register): Register
  {
    var nine := r as bv9;
    var last: bv9 := nine & 1;
    var b0 := nine ^ (last << 8);
    var b4 := b0 ^ (last << 4);
    var b5 := b4 ^ (last << 3);
    var b6 := b5 ^ (last << 2);
    ((b6 >> 1) & 0xFF) as bv8
  }

  function FipsIterate(n: nat): Register
  {
    if n == 0 then 0x80 else FipsStep(FipsIterate(n - 1))
  }

  /** Algorithm 5, which starts from R = 10000000 and returns R[0]. */
  function FipsRc(t: nat): bool
  {
    if t % 255 == 0 then true else FipsIterate(t % 255) >> 7 == 1
  }

  /** Step 3 of Algorithm 6, for w = 64: bit b of the round constant of round ir. */
  function FipsRoundBit(ir: nat, b: nat): bool
  {
    if b == 0 then FipsRc(7 * ir)
    else if b == 1 then FipsRc(1 + 7 * ir)
    else if b == 3 then FipsRc(2 + 7 * ir)
    else if b == 7 then FipsRc(3 + 7 * ir)
    else if b == 15 then FipsRc(4 + 7 * ir)
    else if b == 31 then FipsRc(5 + 7 * ir)
    else if b == 63 then FipsRc(6 + 7 * ir)
    else false
  }

  // ----- the register ------------------------------------------------------------------------

  lemma StepIsFips(r: Register)
    ensures Step(r) == FipsStep(r)
  {}

  lemma {:induction false} IterateSum(r: Register, a: nat, b: nat)
    ensures Iterate(r, a + b) == Iterate(Iterate(r, a), b)
    decreases a
  {
    if a > 0 { IterateSum(Step(r), a - 1, b); }
  }

  lemma IterateNext(r: Register, n: nat)
    ensures Iterate(r, n + 1) == Step(Iterate(r, n))
  {
    IterateSum(r, n, 1);
    assert Iterate(Iterate(r, n), 1) == Step(Iterate(r, n));
  }

  lemma {:induction false} IterateIsFips(n: nat)
    ensures Iterate(START, n) == FipsIterate(n)
  {
    if n > 0 {
      IterateIsFips(n - 1);
      IterateNext(START, n - 1);
      StepIsFips(Iterate(START, n - 1));
    }
  }

  function Step5(r: Register): Register
  {
    Step(Step(Step(Step(Step(r)))))
  }

  function Step15(r: Register): Register
  {
    Step5(Step5(Step5(r)))
  }

  lemma IterateBy5(r: Register, n: nat)
    ensures Iterate(r, n + 5) == Step5(Iterate(r, n))
  {
    hide Step, Iterate;
    IterateNext(r, n);
    IterateNext(r, n + 1);
    IterateNext(r, n + 2);
    IterateNext(r, n + 3);
    IterateNext(r, n + 4);
  }

  lemma IterateBy15(r: Register, n: nat)
    ensures Iterate(r, n + 15) == Step15(Iterate(r, n))
  {
    hide Step5, Iterate;
    IterateBy5(r, n);
    IterateBy5(r, n + 5);
    IterateBy5(r, n + 10);
  }

  /** Every fifteenth state of the register. */
  const STATES: seq<Register> := [
    0x80, 0x83, 0xF7, 0x9B, 0x70, 0xDC, 0x7B, 0xD5, 0x2A, 0xCC, 0x81, 0xAF, 0xD3, 0xC2, 0x14, 0x4A, 0xEA, 0x80
  ]

  lemma StatesFollow()
    ensures forall i :: 0 <= i < 17 ==> Step15(STATES[i]) == STATES[i + 1]
  {
    FirstStates();
    LaterStates();
    hide Step15;
    forall i | 0 <= i < 17 ensures Step15(STATES[i]) == STATES[i + 1] {}
  }

  lemma FirstStates()
    ensures Step15(0x80) == 0x83 && Step15(0x83) == 0xF7 && Step15(0xF7) == 0x9B
      && Step15(0x9B) == 0x70 && Step15(0x70) == 0xDC && Step15(0xDC) == 0x7B
      && Step15(0x7B) == 0xD5 && Step15(0xD5) == 0x2A && Step15(0x2A) == 0xCC
  {}

  lemma LaterStates()
    ensures Step15(0xCC) == 0x81 && Step15(0x81) == 0xAF && Step15(0xAF) == 0xD3
      && Step15(0xD3) == 0xC2 && Step15(0xC2) == 0x14 && Step15(0x14) == 0x4A
      && Step15(0x4A) == 0xEA && Step15(0xEA) == 0x80
  {}

  lemma {:induction false} StateAt(i: nat)
    requires i <= 17
    ensures Iterate(START, 15 * i) == STATES[i]
  {
    hide Step15;
    if i == 0 {
      FirstState();
    } else {
      StateAt(i - 1);
      StatesFollow();
      IterateBy15(START, 15 * (i - 1));
    }
  }

  lemma FirstState()
    ensures Iterate(START, 0) == STATES[0] == START && STATES[17] == START
  {}

  /** The register is back at its start after 255 steps. */
  lemma PeriodDivides255()
    ensures Iterate(START, 255) == START
  {
    StateAt(17);
    FirstState();
  }

  /** So the table of one period, indexed modulo 255, is the unbounded output of the register. */
  lemma {:induction false} Periodic(t: nat)
    ensures Iterate(START, t) == Iterate(START, t % 255)
    decreases t
  {
    if t >= 255 {
      IterateSum(START, 255, t - 255);
      PeriodDivides255();
      Periodic(t - 255);
      assert (t - 255) % 255 == t % 255;
    }
  }

  /** The standard's rc(t) is the t-th output of the register, for every t. */
  lemma StreamIsRc(t: nat)
    ensures First(Iterate(START, t)) == FipsRc(t)
  {
    Periodic(t);
    IterateIsFips(t % 255);
    FirstIsTop(Iterate(START, t % 255));
    assert First(START);
  }

  lemma FirstIsTop(r: Register)
    ensures First(r) <==> r >> 7 == 1
  {}

  // ----- the script --------------------------------------------------------------------------

  /** The table loop: entry t is the first bit of the register after t steps. */
  method MakeTable() returns (rc: seq<bool>)
    ensures |rc| == 256 && forall t :: 0 <= t < 256 ==> rc[t] == FipsRc(t)
  {
    hide Iterate, Step, FipsRc, First;
    rc := seq(256, _ => false);
    var r := START;
    StreamIsRc(0);
    assert First(START) && Iterate(START, 0) == START by { StartsWithOne(); }
    rc := rc[0 := true];
    for i := 1 to 256
      invariant |rc| == 256 && r == Iterate(START, i - 1)
      invariant forall t :: 0 <= t < i ==> rc[t] == FipsRc(t)
    {
      IterateNext(START, i - 1);
      r := Step(r);
      StreamIsRc(i);
      rc := rc[i := First(r)];
    }
  }

  lemma StartsWithOne()
    ensures First(START) && Iterate(START, 0) == START
  {}

  /** The constant of round rnd: seven table entries at positions 2^j - 1, zero elsewhere. */
  method RoundConstant(rc: seq<bool>, rnd: nat) returns (c: seq<bool>)
    requires |rc| == 256 && forall t :: 0 <= t < 256 ==> rc[t] == FipsRc(t)
    ensures |c| == 64 && forall b :: 0 <= b < 64 ==> c[b] == FipsRoundBit(rnd, b)
  {
    hide FipsRc;
    c := seq(64, _ => false);
    for j := 0 to 7
      invariant |c| == 64
      invariant forall b :: 0 <= b < 64 ==> c[b] == (b < (if j == 0 then 0 else Pow2(j - 1)) && FipsRoundBit(rnd, b))
    {
      SevenPositions();
      RcModulo(j + 7 * rnd);
      c := c[Pow2(j) - 1 := rc[(j + 7 * rnd) % 255]];
    }
    SevenPositions();
  }

  lemma SevenPositions()
    ensures Pow2(0) == 1 && Pow2(1) == 2 && Pow2(2) == 4 && Pow2(3) == 8 && Pow2(4) == 16 && Pow2(5) == 32
    ensures Pow2(6) == 64 && Pow2(7) == 128
  {
    assert Pow2(7) == 2 * Pow2(6) && Pow2(6) == 2 * Pow2(5) && Pow2(5) == 2 * Pow2(4) && Pow2(4) == 2 * Pow2(3);
  }

  lemma RcModulo(t: nat)
    ensures FipsRc(t % 255) == FipsRc(t)
  {
    assert (t % 255) % 255 == t % 255;
  }

  /** All constants up to a given number of rounds, as the script prints them. */
  method RoundConstants(rounds: nat) returns (rcs: seq<seq<bool>>)
    ensures |rcs| == rounds
    ensures forall rnd, b :: 0 <= rnd < rounds && 0 <= b < 64 ==>
      |rcs[rnd]| == 64 && rcs[rnd][b] == FipsRoundBit(rnd, b)
  {
    hide FipsRoundBit, FipsRc;
    var rc := MakeTable();
    rcs := [];
    for rnd := 0 to rounds
      invariant |rcs| == rnd
      invariant forall i :: 0 <= i < rnd ==> |rcs[i]| == 64
      invariant forall i, b :: 0 <= i < rnd && 0 <= b < 64 ==> rcs[i][b] == FipsRoundBit(i, b)
    {
      var c := RoundConstant(rc, rnd);
      rcs := rcs + [c];
    }
  }
}
