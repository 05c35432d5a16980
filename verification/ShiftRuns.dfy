/** Machine code that shifts numbers of any length: RL (HL); INC HL from the low
    byte up, or RR (HL); DEC HL from the high byte down, as bytes in memory or
    ROM, run by the loop in src/main.c with interrupts disabled.  The first
    instruction may be SLA or SRL instead, which puts in a zero bit. */
module ShiftRuns {
  import opened Words
  import opened MachineState
  import opened TimerModel
  import opened Opcodes
  import opened Instructions
  import opened Runs
  import opened Encoded
  import opened MultiByte
  import opened ProgramRuns
  import WordOperations
  import CbPrefix
  import Bus

  /** The shift of the cell at HL: left or right, putting in zero or C. */
  function ShiftCode(left: bool, zero: bool): u8 {
    if left then if zero then 0x26 else 0x16 else if zero then 0x3E else 0x1E
  }

  /** The code for n bytes. */
  function ShiftProgram(left: bool, zero: bool, n: nat): seq<u8> {
    if n == 0 then []
    else [0xCB, ShiftCode(left, zero), if left then 0x23 else 0x2B] + ShiftProgram(left, false, n - 1)
  }

  function CarryBit(s: State): nat { s.r[1] / 0x10 % 2 }

  // ----- one byte -----

  lemma SeenIs(s: State, n: nat, a: u16, v: u8)
    requires ByteAt(s, a, v)
    ensures Seen(s, n, a) == v
  {
    hide TickN;
    TickNKeeps(s, n);
  }

  /** Storing to plain memory and setting F, after n ticks. */
  lemma StoredCell(s: State, n: nat, pc: u16, a: u16, w: u8, g: u8)
    requires Bus.Ram(a)
    ensures var t := Bus.Write(TickN(s, n).(pc := pc), a, w).(r := s.r[1 := g]);
      t.mem == s.mem[a := w] && t.r == s.r[1 := g] && t.pc == pc && t.cart == s.cart
  {
    hide TickN;
    TickNKeeps(s, n);
  }

  /** What a shift of the cell at HL makes of the cell and of C. */
  predicate Shifts(left: bool, c: nat, v: u8, w: u8, d: nat) {
    if left then w + 0x100 * d == 2 * v + c else 2 * w + d == v + 0x100 * c
  }

  lemma ShiftsBy(left: bool, zero: bool, v: u8, f: u8, w: u8, g: u8)
    requires CbPrefix.IsCbResult(ShiftCode(left, zero), v, f, w, g)
    ensures Shifts(left, if zero then 0 else f / 0x10 % 2, v, w, g / 0x10 % 2)
  {
    if left {
      LeftBy(zero, v, f, w, g);
    } else {
      RightBy(zero, v, f, w, g);
    }
  }

  lemma LeftBy(zero: bool, v: u8, f: u8, w: u8, g: u8)
    requires CbPrefix.IsCbResult(if zero then 0x26 else 0x16, v, f, w, g)
    ensures w + 0x100 * (g as int / 0x10 % 2) == 2 * v + if zero then 0 else f / 0x10 % 2
  {
    hide Bit;
    assert g == (if w == 0 then 0x80 else 0) + 0x10 * (v as int / 0x80) + f % 0x10;
    CarryOfSum(w == 0, v / 0x80, f % 0x10);
    Doubles(v);
  }

  lemma RightBy(zero: bool, v: u8, f: u8, w: u8, g: u8)
    requires CbPrefix.IsCbResult(if zero then 0x3E else 0x1E, v, f, w, g)
    ensures 2 * w + g / 0x10 % 2 == v + 0x100 * if zero then 0 else f as int / 0x10 % 2
  {
    hide Bit;
    assert g == (if w == 0 then 0x80 else 0) + 0x10 * (v as int % 2) + f % 0x10;
    CarryOfSum(w == 0, v % 2, f % 0x10);
  }

  lemma CarryOfSum(z: bool, out: nat, low: nat)
    requires out < 2 && low < 0x10
    ensures ((if z then 0x80 else 0) + 0x10 * out + low) / 0x10 % 2 == out
  {
  }

  lemma Doubles(v: u8)
    ensures 2 * (v as int) % 0x100 + 0x100 * (v as int / 0x80) == 2 * v
  {
  }

  /** The first instruction of a pair, in one pass. */
  lemma ShiftPass(s: State, left: bool, zero: bool, code: seq<u8>) returns (t: State)
    requires Steady(s) && CodeAt(s, [0xCB, ShiftCode(left, zero)] + code)
    requires Bus.Ram(Hl(s)) && !(s.pc <= Hl(s) < s.pc + 2 + |code|)
    ensures CanRun(s, 1) && t == PassN(s, 1) && Steady(t) && t.pc == s.pc + 2 && CodeAt(t, code)
    ensures Hl(t) == Hl(s) && t.mem == s.mem[Hl(s) := t.mem[Hl(s)]]
    ensures Shifts(left, if zero then 0 else CarryBit(s), s.mem[Hl(s)], t.mem[Hl(s)], CarryBit(t))
  {
    hide CodeAt, Steady, Execute, NextOpcode, Defined, Pass, TickN, Seen, Bus.Write, CbPrefix.IsCbResult, Shifts;
    var all := [0xCB, ShiftCode(left, zero)] + code;
    NextIs(s, all);
    CodeByte(s, all, 1);
    SeenIs(s, 2, s.pc + 1, all[1]);
    HlIsPair(s);
    RamIsByte(s, Hl(s));
    SeenIs(s, 3, Hl(s), s.mem[Hl(s)]);
    var w, g := CbPrefix.CbCellExact(s);
    SteadyPass(s);
    StoredCell(s, 4, s.pc + 2, Hl(s), w, g);
    t := Execute(s);
    ShiftsBy(left, zero, s.mem[Hl(s)], s.r[1], w, g);
    OnePass(s);
    HlIsPair(t);
    CodeSkips(s, t, all, 2);
    assert all[2..] == code;
  }

  lemma RamIsByte(s: State, a: u16)
    requires Bus.Ram(a)
    ensures ByteAt(s, a, s.mem[a])
  {
  }

  lemma CodeByte(s: State, code: seq<u8>, j: nat)
    requires CodeAt(s, code) && j < |code|
    ensures s.pc + |code| < 0x10000 && ByteAt(s, s.pc + j, code[j])
  {
  }

  lemma OnePass(s: State)
    ensures CanStep(s) ==> CanRun(s, 1) && PassN(s, 1) == Pass(s)
  {
    hide Pass, CanStep;
    if CanStep(s) {
      assert CanRun(Pass(s), 0) && PassN(Pass(s), 0) == Pass(s);
    }
  }

  /** What is left of the code after an instruction of k bytes. */
  lemma CodeSkips(s: State, t: State, code: seq<u8>, k: nat)
    requires CodeAt(s, code) && k <= |code| && t.pc == s.pc + k && t.cart == s.cart
    requires forall b :: s.pc + k <= b < s.pc + |code| ==> t.mem[b] == s.mem[b]
    ensures CodeAt(t, code[k..])
  {
    forall j | 0 <= j < |code| - k
      ensures ByteAt(t, t.pc + j, code[k..][j])
    {
      assert ByteAt(s, s.pc + (j + k), code[j + k]);
    }
  }

  /** The second instruction: HL on to the next byte. */
  lemma StepPass(s: State, left: bool, code: seq<u8>) returns (t: State)
    requires Steady(s) && CodeAt(s, [if left then 0x23 else 0x2B] + code)
    ensures CanRun(s, 1) && t == PassN(s, 1) && Steady(t) && t.pc == s.pc + 1 && CodeAt(t, code)
    ensures Hl(t) == (Hl(s) + if left then 1 else 0xFFFF) % 0x10000 && t.mem == s.mem && CarryBit(t) == CarryBit(s)
    ensures t.cart == s.cart
  {
    hide CodeAt, Steady, Execute, NextOpcode, Defined, Pass, TickN, SetPairAt;
    var all := [if left then 0x23 else 0x2B] + code;
    NextIs(s, all);
    CodeByte(s, all, 0);
    WordOperations.StepPairExact(s);
    SteadyPass(s);
    OnePass(s);
    t := Execute(s);
    HlIsPair(s);
    HlIsPair(t);
    TickNKeeps(s, 2);
    HlPut(TickN(s, 2).(pc := s.pc + 1), (PairAt(s, 6) + if left then 1 else 0xFFFF) % 0x10000);
    CodeSkips(s, t, all, 1);
    assert all[1..] == code;
  }

  lemma HlPut(s: State, v: u16)
    ensures var t := SetPairAt(s, 6, v);
      t == s.(r := t.r) && PairAt(t, 6) == v && t.r[1] == s.r[1]
  {
  }

  // ----- n bytes -----

  /** The program for n steps is next, interrupts are disabled, the n bytes from
      lo on are plain memory apart from the program, and HL is at their low end
      or at their high end. */
  predicate ShiftReady(s: State, left: bool, zero: bool, lo: nat, n: nat) {
    && Steady(s) && CodeAt(s, ShiftProgram(left, zero, n))
    && PlainBytes(lo, n) && Apart(s.pc, |ShiftProgram(left, zero, n)|, lo, n)
    && (n > 0 ==> Hl(s) == if left then lo else lo + n - 1)
  }

  lemma ReadyFirst(s: State, left: bool, zero: bool, lo: nat, n: nat)
    requires n > 0 && ShiftReady(s, left, zero, lo, n)
    ensures var code := [if left then 0x23 else 0x2B] + ShiftProgram(left, false, n - 1);
      && Steady(s) && CodeAt(s, [0xCB, ShiftCode(left, zero)] + code)
      && Hl(s) == (if left then lo else lo + n - 1) && Bus.Ram(Hl(s)) && !(s.pc <= Hl(s) < s.pc + 2 + |code|)
      && 0x8000 <= lo && lo + n < 0x10000
  {
    hide CodeAt, Steady, ReadReg16;
    var code := [if left then 0x23 else 0x2B] + ShiftProgram(left, false, n - 1);
    assert ShiftProgram(left, zero, n) == [0xCB, ShiftCode(left, zero)] + code;
    assert Bus.Ram(lo) && Bus.Ram(lo + n - 1);
  }

  lemma ReadyNext(s: State, left: bool, zero: bool, lo: nat, n: nat, t: State)
    requires n > 0 && ShiftReady(s, left, zero, lo, n)
    requires Steady(t) && CodeAt(t, ShiftProgram(left, false, n - 1)) && t.pc == s.pc + 3
    requires Hl(t) == (Hl(s) + if left then 1 else 0xFFFF) % 0x10000
    ensures ShiftReady(t, left, false, if left then lo + 1 else lo, n - 1)
  {
    hide CodeAt, Steady, ReadReg16;
  }

  /** The two passes for one byte. */
  lemma ByteStep(s: State, left: bool, zero: bool, lo: nat, n: nat) returns (t: State)
    requires n > 0 && ShiftReady(s, left, zero, lo, n)
    ensures var a := if left then lo else lo + n - 1;
      && CanRun(s, 2) && t == PassN(s, 2) && t.pc == s.pc + 3
      && ShiftReady(t, left, false, if left then lo + 1 else lo, n - 1)
      && a < 0x10000 && t.mem == s.mem[a := t.mem[a]]
      && Shifts(left, if zero then 0 else CarryBit(s), s.mem[a], t.mem[a], CarryBit(t))
  {
    hide CodeAt, Steady, CanRun, PassN, Shifts, CarryBit, ShiftReady, ShiftProgram, ReadReg16;
    ReadyFirst(s, left, zero, lo, n);
    var u := ShiftPass(s, left, zero, [if left then 0x23 else 0x2B] + ShiftProgram(left, false, n - 1));
    t := StepPass(u, left, ShiftProgram(left, false, n - 1));
    PassesAdd(s, 1, 1);
    ReadyNext(s, left, zero, lo, n, t);
  }

  lemma {:induction false} LeAppend(xs: seq<u8>, v: u8)
    ensures Le(xs + [v]) == Le(xs) + v * Pow(0x100, |xs|)
  {
    if xs == [] {
      assert [v][1..] == [];
    } else {
      LeAppend(xs[1..], v);
      assert (xs + [v])[1..] == xs[1..] + [v];
      assert v * (0x100 * Pow(0x100, |xs| - 1)) == 0x100 * (v * Pow(0x100, |xs| - 1));
    }
  }

  /** One byte and the rest make up the whole, going up. */
  lemma UpArithmetic(v: nat, w: nat, c0: nat, c1: nat, rest: nat, rest': nat, out: nat, p: nat)
    requires w + 0x100 * c1 == 2 * v + c0
    requires rest' + out * p == 2 * rest + c1
    ensures w + 0x100 * rest' + out * (0x100 * p) == 2 * (v + 0x100 * rest) + c0
  {
    assert out * (0x100 * p) == 0x100 * (out * p);
  }

  /** And going down. */
  lemma DownArithmetic(v: nat, w: nat, c0: nat, c1: nat, rest: nat, rest': nat, out: nat, p: nat)
    requires 2 * w + c1 == v + 0x100 * c0
    requires 2 * rest' + out == rest + c1 * p
    ensures 2 * (rest' + w * p) + out == rest + v * p + c0 * (0x100 * p)
  {
    assert (2 * w + c1) * p == (v + 0x100 * c0) * p;
    assert (2 * w + c1) * p == 2 * (w * p) + c1 * p;
    assert (v + 0x100 * c0) * p == v * p + c0 * (0x100 * p);
  }

  /** The left program doubles the n-byte number at HL, with C (or zero) put in
      below and the bit shifted out at the top in C. */
  lemma {:induction false} LeftProgram(s: State, zero: bool, lo: nat, n: nat)
    requires ShiftReady(s, true, zero, lo, n)
    ensures CanRun(s, 2 * n) && lo + n < 0x10000
    ensures var t, c := PassN(s, 2 * n), if zero && n > 0 then 0 else CarryBit(s);
      && Le(t.mem[lo..lo + n]) + CarryBit(t) * Pow(0x100, n) == 2 * Le(s.mem[lo..lo + n]) + c
      && (forall b :: 0 <= b < 0x10000 && !(lo <= b < lo + n) ==> t.mem[b] == s.mem[b])
    decreases n
  {
    hide ShiftReady, CanRun, PassN, CarryBit, Pow, Le;
    ReadyRange(s, true, zero, lo, n);
    if n > 0 {
      var u := ByteStep(s, true, zero, lo, n);
      LeftProgram(u, false, lo + 1, n - 1);
      PassesAdd(s, 2, 2 * (n - 1));
      var t := PassN(u, 2 * (n - 1));
      assert 2 + 2 * (n - 1) == 2 * n;
      assert s.mem[lo..lo + n] == [s.mem[lo]] + u.mem[lo + 1..lo + 1 + (n - 1)];
      assert t.mem[lo..lo + n] == [u.mem[lo]] + t.mem[lo + 1..lo + 1 + (n - 1)];
      LeFirst(s.mem[lo], u.mem[lo + 1..lo + n]);
      LeFirst(u.mem[lo], t.mem[lo + 1..lo + n]);
      UpArithmetic(s.mem[lo], u.mem[lo], if zero then 0 else CarryBit(s), CarryBit(u), Le(u.mem[lo + 1..lo + n]),
                   Le(t.mem[lo + 1..lo + n]), CarryBit(t), Pow(0x100, n - 1));
      assert Pow(0x100, n) == 0x100 * Pow(0x100, n - 1) by { PowStep(n); }
    } else {
      NoneShifted(s, lo);
    }
  }

  lemma LeFirst(v: u8, xs: seq<u8>)
    ensures Le([v] + xs) == v + 0x100 * Le(xs)
  {
    assert ([v] + xs)[1..] == xs;
  }

  lemma PowStep(n: nat)
    requires n > 0
    ensures Pow(0x100, n) == 0x100 * Pow(0x100, n - 1)
  {
  }

  lemma ReadyRange(s: State, left: bool, zero: bool, lo: nat, n: nat)
    requires ShiftReady(s, left, zero, lo, n)
    ensures lo + n < 0x10000
  {
  }

  lemma NoneShifted(s: State, lo: nat)
    requires lo < 0x10000
    ensures CanRun(s, 0) && PassN(s, 0) == s && Pow(0x100, 0) == 1
    ensures s.mem[lo..lo] == [] && Le(s.mem[lo..lo]) == 0
  {
  }

  /** The right program halves the n-byte number that ends at HL, with C (or
      zero) put in at the top and the remainder in C. */
  lemma {:induction false} RightProgram(s: State, zero: bool, lo: nat, n: nat)
    requires ShiftReady(s, false, zero, lo, n)
    ensures CanRun(s, 2 * n) && lo + n < 0x10000
    ensures var t, c := PassN(s, 2 * n), if zero && n > 0 then 0 else CarryBit(s);
      && 2 * Le(t.mem[lo..lo + n]) + CarryBit(t) == Le(s.mem[lo..lo + n]) + c * Pow(0x100, n)
      && (forall b :: 0 <= b < 0x10000 && !(lo <= b < lo + n) ==> t.mem[b] == s.mem[b])
    decreases n
  {
    hide ShiftReady, CanRun, PassN, CarryBit, Pow, Le;
    ReadyRange(s, false, zero, lo, n);
    if n > 0 {
      var u := ByteStep(s, false, zero, lo, n);
      RightProgram(u, false, lo, n - 1);
      PassesAdd(s, 2, 2 * (n - 1));
      var t := PassN(u, 2 * (n - 1));
      var a := lo + n - 1;
      assert 2 + 2 * (n - 1) == 2 * n;
      assert s.mem[lo..lo + n] == u.mem[lo..a] + [s.mem[a]];
      assert t.mem[lo..lo + n] == t.mem[lo..a] + [u.mem[a]];
      LeAppend(u.mem[lo..a], s.mem[a]);
      LeAppend(t.mem[lo..a], u.mem[a]);
      DownArithmetic(s.mem[a], u.mem[a], if zero then 0 else CarryBit(s), CarryBit(u), Le(u.mem[lo..a]),
                     Le(t.mem[lo..a]), CarryBit(t), Pow(0x100, n - 1));
      assert Pow(0x100, n) == 0x100 * Pow(0x100, n - 1) by { PowStep(n); }
    } else {
      NoneShifted(s, lo);
    }
  }

  /** In every run the left program doubles the number at HL. */
  lemma ProgramDoubles(ss: seq<State>, zero: bool, lo: nat, n: nat)
    requires IsRun(ss) && 2 * n < |ss| && ShiftReady(ss[0], true, zero, lo, n)
    ensures lo + n < 0x10000
    ensures var s, t := ss[0], ss[2 * n];
      Le(t.mem[lo..lo + n]) + CarryBit(t) * Pow(0x100, n)
      == 2 * Le(s.mem[lo..lo + n]) + if zero && n > 0 then 0 else CarryBit(s)
  {
    hide IsRun, ShiftReady, CanRun, PassN, CarryBit, Pow, Le;
    RunIsPasses(ss, 0, 2 * n);
    LeftProgram(ss[0], zero, lo, n);
  }

  /** And the right program halves the number that ends there. */
  lemma ProgramHalves(ss: seq<State>, zero: bool, lo: nat, n: nat)
    requires IsRun(ss) && 2 * n < |ss| && ShiftReady(ss[0], false, zero, lo, n)
    ensures lo + n < 0x10000
    ensures var s, t := ss[0], ss[2 * n];
      2 * Le(t.mem[lo..lo + n]) + CarryBit(t)
      == Le(s.mem[lo..lo + n]) + (if zero && n > 0 then 0 else CarryBit(s)) * Pow(0x100, n)
  {
    hide IsRun, ShiftReady, CanRun, PassN, CarryBit, Pow, Le;
    RunIsPasses(ss, 0, 2 * n);
    RightProgram(ss[0], zero, lo, n);
  }
}
