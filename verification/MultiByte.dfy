/** What the ALU flags are for: multi-byte arithmetic of any length.  A chain
    feeds each byte through one step and hands F on to the next. */
module MultiByte {
  import opened Words
  import opened Alu

  /** The two-operand steps a chain can be made of. */
  datatype Op = AddC | SubC | DecimalAdd | DecimalSub

  /** One step: old A, the operand, old F.  The decimal ones are followed by DAA. */
  function Step(op: Op, a: u8, b: u8, f: u8): Out {
    match op
    case AddC => Add(a, b, C(f), f)
    case SubC => Sub(a, b, C(f), f)
    case DecimalAdd => var r := Add(a, b, C(f), f); Daa(r.val, r.f)
    case DecimalSub => var r := Sub(a, b, C(f), f); Daa(r.val, r.f)
  }

  /** The bytes and the final F of a chain, least significant byte first. */
  function Chain(op: Op, xs: seq<u8>, ys: seq<u8>, f: u8): (seq<u8>, u8)
    requires |xs| == |ys|
    ensures |Chain(op, xs, ys, f).0| == |xs|
  {
    if xs == [] then ([], f)
    else
      var r := Step(op, xs[0], ys[0], f);
      var (zs, g) := Chain(op, xs[1..], ys[1..], r.f);
      ([r.val] + zs, g)
  }

  function Pow(base: nat, n: nat): nat {
    if n == 0 then 1 else base * Pow(base, n - 1)
  }

  // ----- binary numbers -----

  /** The number a list of bytes stands for, least significant first. */
  function Le(xs: seq<u8>): nat {
    if xs == [] then 0 else xs[0] + 0x100 * Le(xs[1..])
  }

  lemma {:induction false} LeBound(xs: seq<u8>)
    ensures Le(xs) < Pow(0x100, |xs|)
  {
    if xs != [] {
      LeBound(xs[1..]);
    }
  }

  lemma AddByte(a: u8, b: u8, f: u8)
    ensures var r := Step(AddC, a, b, f); r.val + 0x100 * Carry(C(r.f)) == a + b + Carry(C(f))
  {
  }

  lemma SubByte(a: u8, b: u8, f: u8)
    ensures var r := Step(SubC, a, b, f); r.val - 0x100 * Carry(C(r.f)) == a - b - Carry(C(f))
  {
  }

  /** An ADC chain adds: the n low bytes of the sum, with C the carry out. */
  lemma {:induction false} AdcChain(xs: seq<u8>, ys: seq<u8>, f: u8)
    requires |xs| == |ys|
    ensures var (zs, g) := Chain(AddC, xs, ys, f);
      var sum := Le(xs) + Le(ys) + Carry(C(f));
      var p := Pow(0x100, |xs|);
      && Le(zs) == (if sum >= p then sum - p else sum)
      && (C(g) <==> sum >= p)
  {
    hide Add, C;
    var (zs, g) := Chain(AddC, xs, ys, f);
    if xs != [] {
      var r := Step(AddC, xs[0], ys[0], f);
      AddByte(xs[0], ys[0], f);
      AdcChain(xs[1..], ys[1..], r.f);
      assert zs[1..] == Chain(AddC, xs[1..], ys[1..], r.f).0;
    }
    LeBound(zs);
  }

  /** An SBC chain subtracts: the difference modulo 256^n, with C the borrow. */
  lemma {:induction false} SbcChain(xs: seq<u8>, ys: seq<u8>, f: u8)
    requires |xs| == |ys|
    ensures var (zs, g) := Chain(SubC, xs, ys, f);
      var diff := Le(xs) - Le(ys) - Carry(C(f));
      && Le(zs) == (if diff < 0 then diff + Pow(0x100, |xs|) else diff)
      && (C(g) <==> diff < 0)
  {
    hide Sub, C;
    var (zs, g) := Chain(SubC, xs, ys, f);
    if xs != [] {
      var r := Step(SubC, xs[0], ys[0], f);
      SubByte(xs[0], ys[0], f);
      SbcChain(xs[1..], ys[1..], r.f);
      assert zs[1..] == Chain(SubC, xs[1..], ys[1..], r.f).0;
    }
    LeBound(zs);
  }

  /** A chain that starts with ADD or SUB, which ignore C, is the chain that
      starts with C clear. */
  lemma FirstStepIgnoresCarry(a: u8, b: u8, f: u8, clear: u8)
    requires !C(clear) && clear % 0x10 == f % 0x10
    ensures Step(AddC, a, b, clear) == Add(a, b, false, f) && Step(SubC, a, b, clear) == Sub(a, b, false, f)
  {
  }

  // ----- decimal numbers -----

  predicate IsBcd(x: u8) { x / 0x10 <= 9 && x % 0x10 <= 9 }

  predicate AllBcd(xs: seq<u8>) { forall i :: 0 <= i < |xs| ==> IsBcd(xs[i]) }

  function Digits(x: u8): nat { x / 0x10 * 10 + x % 0x10 }

  /** The decimal number a list of BCD bytes stands for. */
  function Decimal(xs: seq<u8>): nat {
    if xs == [] then 0 else Digits(xs[0]) + 100 * Decimal(xs[1..])
  }

  lemma {:induction false} DecimalBound(xs: seq<u8>)
    requires AllBcd(xs)
    ensures Decimal(xs) < Pow(100, |xs|)
  {
    if xs != [] {
      DecimalBound(xs[1..]);
    }
  }

  /** Two decimal digits packed into a byte come apart again. */
  lemma PackedDigits(hi: nat, lo: nat)
    requires hi <= 9 && lo <= 9
    ensures IsBcd(hi * 0x10 + lo) && Digits(hi * 0x10 + lo) == hi * 10 + lo
  {
  }

  /** DAA after an addition whose digit sums were low and high. */
  lemma DaaAfterAdd(low: int, high: int, a: u8, f: u8)
    requires 0 <= low <= 19 && 0 <= high <= 18
    requires a == (high * 0x10 + low) % 0x100
    requires !N(f) && H(f) == (low >= 0x10) && C(f) == (high * 0x10 + low >= 0x100)
    ensures var lo, hi := if low > 9 then low - 10 else low, if low > 9 then high + 1 else high;
      var r := Daa(a, f);
      C(r.f) == (hi > 9) && r.val == (if hi > 9 then hi - 10 else hi) * 0x10 + lo
  {
    hide Flags, Z, N, H, C;
    if low <= 9 {
      assert a % 0x10 == low;
    } else if low < 0x10 {
      assert a % 0x10 == low;
    }
    if high < 0x10 && !C(f) {
      assert a == high * 0x10 + low;
    } else {
      assert C(f) && a == high * 0x10 + low - 0x100;
    }
  }

  /** DAA after a subtraction whose digit differences were low and high. */
  lemma DaaAfterSub(low: int, high: int, a: u8, f: u8)
    requires -10 <= low <= 9 && -9 <= high <= 9
    requires a == (high * 0x10 + low) % 0x100
    requires N(f) && H(f) == (low < 0) && C(f) == (high * 0x10 + low < 0)
    ensures var lo, hi := if low < 0 then low + 10 else low, if low < 0 then high - 1 else high;
      var r := Daa(a, f);
      C(r.f) == (hi < 0) && r.val == (if hi < 0 then hi + 10 else hi) * 0x10 + lo
  {
    hide Flags, Z, N, H, C;
    if C(f) {
      assert a == high * 0x10 + low + 0x100;
    } else {
      assert a == high * 0x10 + low;
    }
  }

  lemma Nibbles(x: u8)
    ensures x == x / 0x10 * 0x10 + x % 0x10
  {
  }

  /** ADC;DAA adds two decimal digit pairs. */
  lemma BcdAddByte(x: u8, y: u8, f: u8)
    requires IsBcd(x) && IsBcd(y)
    ensures var r := Step(DecimalAdd, x, y, f);
      IsBcd(r.val) && Digits(r.val) + 100 * Carry(C(r.f)) == Digits(x) + Digits(y) + Carry(C(f))
  {
    hide Flags, Z, N, H, C, Daa;
    var low, high := x % 0x10 + y % 0x10 + Carry(C(f)), x / 0x10 + y / 0x10;
    Nibbles(x);
    Nibbles(y);
    var r := Add(x, y, C(f), f);
    DaaAfterAdd(low, high, r.val, r.f);
    var lo, hi := if low > 9 then low - 10 else low, if low > 9 then high + 1 else high;
    PackedDigits(if hi > 9 then hi - 10 else hi, lo);
  }

  /** SBC;DAA subtracts them. */
  lemma BcdSubByte(x: u8, y: u8, f: u8)
    requires IsBcd(x) && IsBcd(y)
    ensures var r := Step(DecimalSub, x, y, f);
      IsBcd(r.val) && Digits(r.val) - 100 * Carry(C(r.f)) == Digits(x) - Digits(y) - Carry(C(f))
  {
    hide Flags, Z, N, H, C, Daa;
    var low, high := x % 0x10 - y % 0x10 - Carry(C(f)), x / 0x10 - y / 0x10;
    Nibbles(x);
    Nibbles(y);
    var r := Sub(x, y, C(f), f);
    DaaAfterSub(low, high, r.val, r.f);
    var lo, hi := if low < 0 then low + 10 else low, if low < 0 then high - 1 else high;
    PackedDigits(if hi < 0 then hi + 10 else hi, lo);
  }

  /** BCD addition of any length: the decimal sum modulo 100^n, C the carry. */
  lemma {:induction false} BcdAddChain(xs: seq<u8>, ys: seq<u8>, f: u8)
    requires |xs| == |ys| && AllBcd(xs) && AllBcd(ys)
    ensures var (zs, g) := Chain(DecimalAdd, xs, ys, f);
      var sum := Decimal(xs) + Decimal(ys) + Carry(C(f));
      var p := Pow(100, |xs|);
      && AllBcd(zs)
      && Decimal(zs) == (if sum >= p then sum - p else sum)
      && (C(g) <==> sum >= p)
  {
    hide Step, C, IsBcd, Digits;
    var (zs, g) := Chain(DecimalAdd, xs, ys, f);
    if xs != [] {
      var r := Step(DecimalAdd, xs[0], ys[0], f);
      BcdAddByte(xs[0], ys[0], f);
      BcdAddChain(xs[1..], ys[1..], r.f);
      assert zs[1..] == Chain(DecimalAdd, xs[1..], ys[1..], r.f).0;
    }
    DecimalBound(zs);
  }

  /** BCD subtraction of any length, C the borrow. */
  lemma {:induction false} BcdSubChain(xs: seq<u8>, ys: seq<u8>, f: u8)
    requires |xs| == |ys| && AllBcd(xs) && AllBcd(ys)
    ensures var (zs, g) := Chain(DecimalSub, xs, ys, f);
      var diff := Decimal(xs) - Decimal(ys) - Carry(C(f));
      && AllBcd(zs)
      && Decimal(zs) == (if diff < 0 then diff + Pow(100, |xs|) else diff)
      && (C(g) <==> diff < 0)
  {
    hide Step, C, IsBcd, Digits;
    var (zs, g) := Chain(DecimalSub, xs, ys, f);
    if xs != [] {
      var r := Step(DecimalSub, xs[0], ys[0], f);
      BcdSubByte(xs[0], ys[0], f);
      BcdSubChain(xs[1..], ys[1..], r.f);
      assert zs[1..] == Chain(DecimalSub, xs[1..], ys[1..], r.f).0;
    }
    DecimalBound(zs);
  }

  // ----- shifting whole numbers -----

  /** Shifting left one bit: RL from the least significant byte up. */
  function LeftChain(xs: seq<u8>, f: u8): (seq<u8>, u8)
    ensures |LeftChain(xs, f).0| == |xs|
  {
    if xs == [] then ([], f)
    else
      var r := ShiftBy(Rl, xs[0], f);
      var (zs, g) := LeftChain(xs[1..], r.f);
      ([r.val] + zs, g)
  }

  /** Shifting right one bit: RR from the most significant byte down. */
  function RightChain(xs: seq<u8>, f: u8): (seq<u8>, u8)
    ensures |RightChain(xs, f).0| == |xs|
  {
    if xs == [] then ([], f)
    else
      var (zs, g) := RightChain(xs[1..], f);
      var r := ShiftBy(Rr, xs[0], g);
      ([r.val] + zs, r.f)
  }

  lemma ShiftByte(v: u8, f: u8)
    ensures var r := ShiftBy(Rl, v, f); r.val + 0x100 * Carry(C(r.f)) == 2 * v + Carry(C(f))
    ensures var r := ShiftBy(Rr, v, f); 2 * r.val + Carry(C(r.f)) == v + 0x100 * Carry(C(f))
  {
  }

  /** The left chain doubles, C taking the bit shifted out at the top. */
  lemma {:induction false} LeftChainDoubles(xs: seq<u8>, f: u8)
    ensures var (zs, g) := LeftChain(xs, f);
      Le(zs) + Carry(C(g)) * Pow(0x100, |xs|) == 2 * Le(xs) + Carry(C(f))
  {
    hide ShiftBy, C;
    if xs != [] {
      var r := ShiftBy(Rl, xs[0], f);
      ShiftByte(xs[0], f);
      LeftChainDoubles(xs[1..], r.f);
      assert LeftChain(xs, f).0[1..] == LeftChain(xs[1..], r.f).0;
    }
  }

  /** The right chain halves, C taking the remainder. */
  lemma {:induction false} RightChainHalves(xs: seq<u8>, f: u8)
    ensures var (zs, g) := RightChain(xs, f);
      2 * Le(zs) + Carry(C(g)) == Le(xs) + Carry(C(f)) * Pow(0x100, |xs|)
  {
    hide ShiftBy, C;
    if xs != [] {
      RightChainHalves(xs[1..], f);
      ShiftByte(xs[0], RightChain(xs[1..], f).1);
      assert RightChain(xs, f).0[1..] == RightChain(xs[1..], f).0;
    }
  }

  /** A chain that starts with SLA or SRL is the chain that starts with C clear. */
  lemma FirstShiftIgnoresCarry(v: u8, f: u8, clear: u8)
    requires !C(clear) && clear % 0x10 == f % 0x10
    ensures ShiftBy(Rl, v, clear) == ShiftBy(Sla, v, f) && ShiftBy(Rr, v, clear) == ShiftBy(Srl, v, f)
  {
  }
}
