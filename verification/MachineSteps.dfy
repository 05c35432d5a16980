/** Steps of arithmetic and framing behind the methods of the machine. */
module MachineSteps {
  import opened Words
  import opened MachineState
  import opened Opcodes
  import opened Fetch
  import opened Instructions
  import TimerModel
  import Alu
  import Bus

  datatype FlagName = ZFlag | NFlag | HFlag | CFlag

  /** The bit of F a flag mask selects. */
  function FlagBit(flag: FlagName): BitIndex {
    match flag case ZFlag => 7 case NFlag => 6 case HFlag => 5 case CFlag => 4
  }

  function FlagSet(f: u8, flag: FlagName, v: bool): u8 {
    match flag
    case ZFlag => Alu.Flags(v, Alu.N(f), Alu.H(f), Alu.C(f), f % 0x10)
    case NFlag => Alu.Flags(Alu.Z(f), v, Alu.H(f), Alu.C(f), f % 0x10)
    case HFlag => Alu.Flags(Alu.Z(f), Alu.N(f), v, Alu.C(f), f % 0x10)
    case CFlag => Alu.Flags(Alu.Z(f), Alu.N(f), Alu.H(f), v, f % 0x10)
  }

  lemma FlagBits(f: u8)
    ensures Bit(f, 7) == Alu.Z(f) && Bit(f, 6) == Alu.N(f) && Bit(f, 5) == Alu.H(f) && Bit(f, 4) == Alu.C(f)
  {
    assert f / 2 / 2 == f / 4 && f / 4 / 2 == f / 8 && f / 8 / 2 == f / 16;
    assert f / 16 / 2 == f / 32 && f / 32 / 2 == f / 64 && f / 64 / 2 == f / 128;
  }

  lemma FlagParts(f: u8)
    ensures f == Alu.Flags(Alu.Z(f), Alu.N(f), Alu.H(f), Alu.C(f), f % 0x10)
  {
    assert f / 16 / 2 == f / 32 && f / 32 / 2 == f / 64 && f / 64 / 2 == f / 128;
  }

  lemma FlagSetWeight(f: u8, flag: FlagName, v: bool)
    ensures FlagSet(f, flag, v) == match flag
      case ZFlag => f + 0x80 * Alu.Carry(v) - 0x80 * Alu.Carry(Alu.Z(f))
      case NFlag => f + 0x40 * Alu.Carry(v) - 0x40 * Alu.Carry(Alu.N(f))
      case HFlag => f + 0x20 * Alu.Carry(v) - 0x20 * Alu.Carry(Alu.H(f))
      case CFlag => f + 0x10 * Alu.Carry(v) - 0x10 * Alu.Carry(Alu.C(f))
  {
    hide Alu.Z, Alu.N, Alu.H, Alu.C;
    FlagParts(f);
  }

  /** Masking F with one flag changes that flag and nothing else. */
  lemma MaskIsFlagSet(f: u8, flag: FlagName, v: bool)
    ensures WithBit(f, FlagBit(flag), v) == FlagSet(f, flag, v)
  {
    hide Bit, PutBit, FlagSet, Alu.Z, Alu.N, Alu.H, Alu.C;
    FlagBits(f);
    FlagSetWeight(f, flag, v);
    PutBitWeight(8, f, FlagBit(flag), v);
    assert Pow2(7) == 0x80 && Pow2(6) == 0x40 && Pow2(5) == 0x20 && Pow2(4) == 0x10;
  }

  /** Where a register pair starts in the register file: 2 * (reg % REG_AF). */
  function PairIndex(reg: Reg): (k: nat)
    requires reg >= REG_AF
    ensures k == 2 * (reg - REG_AF)
  {
    2 * (reg % REG_AF)
  }

  /** `g_freq_divider`, in clocks. */
  function FreqDivider(i: nat): nat
    requires i < 4
  {
    if i == 0 then 1024 else if i == 1 then 16 else if i == 2 then 64 else 256
  }

  /** The source's expression for the TIMA increments of n ticks, cut to a byte. */
  function RawIncrease(tac: u8, div: u16, n: u8): u8 {
    var freq := FreqDivider(tac % 4) / 4;
    ((div + n) / freq - div / freq) % 0x100
  }

  /** The specification's increments are the source's: the cut loses nothing. */
  lemma IncrementsFit(tac: u8, div: u16, n: u8)
    ensures TimerModel.Increments(tac, div, n) == if Bit(tac % 8, 2) then RawIncrease(tac % 8, div, n) else 0
  {
    hide FreqDivider, Bit, TimerModel.Period, TimerModel.Enabled;
    var f := FreqDivider(tac % 8 % 4) / 4;
    PeriodIsDivider(tac);
    Quotients(f, div, n);
  }

  lemma PeriodIsDivider(tac: u8)
    ensures FreqDivider(tac % 8 % 4) / 4 == TimerModel.Period(tac)
    ensures TimerModel.Enabled(tac) == Bit(tac % 8, 2)
  {
    assert tac % 8 % 4 == tac % 4 && tac % 8 / 2 / 2 % 2 == tac / 4 % 2;
  }

  lemma AdvanceInSteps(t: Timer, n: u8)
    ensures var tima, k := if t.overflow then t.tma else t.tima, RawIncrease(t.tac % 8, t.div, n);
      var div := (t.div + n) % 0x10000;
      TimerModel.Advance(t, n) ==
        if k != 0 && Bit(t.tac % 8, 2) then
          if tima == 0xFF then Timer(div, 0, t.tma, t.tac, true)
          else Timer(div, (tima + k) % 0x100, t.tma, t.tac, false)
        else Timer(div, tima, t.tma, t.tac, false)
  {
    hide RawIncrease, TimerModel.Increments, Bit;
    IncrementsFit(t.tac, t.div, n);
  }

  lemma Quotients(f: nat, div: u16, n: u8)
    requires f == 4 || f == 16 || f == 64 || f == 256
    ensures 0 <= (div + n) / f - div / f < 0x100
  {
    if f == 4 {} else if f == 16 {} else if f == 64 {} else {}
  }

  lemma TicksFrame(s: State, n: u8)
    ensures TimerModel.TimerTicks(s, n).r == s.r
  {
    hide TimerModel.Advance;
  }

  lemma TickFrame(s: State)
    ensures var t := TimerModel.Tick(s); t.r == s.r && t.pc == s.pc && t.sp == s.sp && t.mem == s.mem && Hl(t) == Hl(s)
  {
    Bus.TickKeeps(s);
  }

  lemma TickKeepsRegisters(s: State, reg: Reg)
    ensures ReadReg16(TimerModel.Tick(s), reg) == ReadReg16(s, reg)
  {
    hide TimerModel.Advance;
  }

  lemma ReadIgnoresPc(s: State, a: u16, pc: u16)
    ensures Bus.Read(s.(pc := pc), a) == Bus.Read(s, a)
  {
  }

  /** The register file after an 8-bit operation. */
  lemma HandleIsOperate(s: State, i: Instr)
    requires WellFormed(i) && i.operand in {AR8, AD8, AHlRel}
    ensures i.reg1 == REG_A && i.name in {Add, Adc, Sub, Sbc, And, Or, Xor, Cp}
    ensures var o := Operate(i.name, s.r[REG_A], Operand8(s, i), s.r[REG_F]);
      Handle(s, i).r == s.r[REG_A := o.val][REG_F := o.f]
  {
    hide Operate;
  }

  /** The operands of an 8-bit operation. */
  lemma OperandFits(i: Instr)
    requires WellFormed(i) && i.name in {Add, Adc, Sub, Sbc, And, Or, Xor, Cp}
    requires i.name == Add ==> i.operand !in {HlR16, SpS8}
    ensures i.operand in {AR8, AD8, AHlRel} && Loaded(i) && i.reg1 == REG_A
  {
  }

  lemma HandleAdds(s: State, i: Instr)
    requires WellFormed(i) && i.operand in {AR8, AD8, AHlRel} && i.name in {Add, Adc}
    ensures var a, b, f := s.r[REG_A], Operand8(s, i), s.r[REG_F];
      var c := Alu.Carry(i.name == Adc && Alu.C(f));
      var half, sum := a % 0x10 + b % 0x10 + c, a + b + c;
      && i.reg1 == REG_A && half < 0x20 && sum < 0x200
      && Handle(s, i).r == s.r[REG_A := sum % 0x100]
           [REG_F := Alu.Flags(sum % 0x100 == 0, false, half >= 0x10, sum >= 0x100, f % 0x10)]
  {
    hide Handle, Alu.Flags, Alu.C;
    HandleIsOperate(s, i);
  }

  lemma HandleSubtracts(s: State, i: Instr)
    requires WellFormed(i) && i.operand in {AR8, AD8, AHlRel} && i.name in {Sub, Sbc, Cp}
    ensures var a, b, f := s.r[REG_A], Operand8(s, i), s.r[REG_F];
      var c := Alu.Carry(i.name == Sbc && Alu.C(f));
      var half, diff := a % 0x10 - b % 0x10 - c, a - b - c;
      && i.reg1 == REG_A && -0x10 <= half <= 0xF && -0x100 <= diff <= 0xFF
      && Handle(s, i).r == s.r[REG_A := if i.name == Cp then a else diff % 0x100]
           [REG_F := Alu.Flags(diff % 0x100 == 0, true, half < 0, diff < 0, f % 0x10)]
  {
    hide Handle, Alu.Flags, Alu.C, Alu.Sub, Operand8;
    var a, b, f := s.r[REG_A], Operand8(s, i), s.r[REG_F];
    SubInParts(a, b, i.name == Sbc && Alu.C(f), f);
    HandleIsOperate(s, i);
  }

  /** SUB and CP, by the comparisons of the source. */
  lemma HandleCompares(s: State, i: Instr)
    requires WellFormed(i) && i.operand in {AR8, AD8, AHlRel} && i.name in {Sub, Cp}
    ensures var a: int, b: int, f := s.r[REG_A], Operand8(s, i), s.r[REG_F];
      var v := (a - b) % 0x100;
      && i.reg1 == REG_A && (v == 0 <==> a == b)
      && Handle(s, i).r == s.r[REG_A := if i.name == Cp then a else v]
           [REG_F := Alu.Flags(a == b, true, a % 0x10 - b % 0x10 < 0, b > a, f % 0x10)]
  {
    hide Handle, Alu.Flags, Alu.C, Operand8;
    HandleSubtracts(s, i);
  }

  lemma SubInParts(a: u8, b: u8, c: bool, f: u8)
    ensures var half, diff := a % 0x10 - b % 0x10 - Alu.Carry(c), a - b - Alu.Carry(c);
      && -0x10 <= half <= 0xF && -0x100 <= diff <= 0xFF
      && Alu.Sub(a, b, c, f) == Alu.Out(diff % 0x100, Alu.Flags(diff % 0x100 == 0, true, half < 0, diff < 0, f % 0x10))
  {
    hide Alu.Flags;
  }

  /** The register file after DAA or a rotate of A. */
  lemma HandleIsAccumulator(s: State, i: Instr)
    requires WellFormed(i) && i.name in {Daa, Rla, Rlca, Rra, Rrca}
    ensures var a, f := s.r[REG_A], s.r[REG_F];
      var k := if i.name == Rla then Alu.Rl else if i.name == Rlca then Alu.Rlc
               else if i.name == Rra then Alu.Rr else Alu.Rrc;
      Handle(s, i).r ==
        if i.name == Daa then s.r[REG_A := Alu.Daa(a, f).val][REG_F := Alu.Daa(a, f).f]
        else s.r[REG_A := Alu.ShiftValue(k, a, Alu.C(f))]
                [REG_F := Alu.Flags(false, false, false, Alu.ShiftOut(k, a), f % 0x10)]
  {
    hide Alu.Daa, Alu.ShiftValue, Alu.ShiftOut;
  }

  lemma CorrectionSteps(a: u8)
    ensures (a + 0x60) % 0x100 % 0x10 == a % 0x10
    ensures ((a + 0x60) % 0x100 + 6) % 0x100 == (a + 0x66) % 0x100
    ensures ((a - 0x60) % 0x100 - 6) % 0x100 == (a - 0x66) % 0x100
  {
  }

  lemma HandleRotatesLeft(s: State, i: Instr)
    requires WellFormed(i) && i.name in {Rla, Rlca}
    ensures var a, f := s.r[REG_A], s.r[REG_F];
      var low := if i.name == Rla then Alu.Carry(Alu.C(f)) else a / 0x80;
      Handle(s, i).r == s.r[REG_A := a * 2 % 0x100 + low]
                           [REG_F := Alu.Flags(false, false, false, a / 0x80 % 2 == 1, f % 0x10)]
  {
    hide Handle, Alu.Flags, Alu.C, Alu.ShiftValue, Alu.ShiftOut;
    HandleIsAccumulator(s, i);
    LeftRotation(s.r[REG_A], Alu.C(s.r[REG_F]));
  }

  lemma LeftRotation(a: u8, c: bool)
    ensures Alu.ShiftValue(Alu.Rl, a, c) == a * 2 % 0x100 + Alu.Carry(c)
    ensures Alu.ShiftValue(Alu.Rlc, a, c) == a * 2 % 0x100 + a / 0x80
    ensures Alu.ShiftOut(Alu.Rl, a) == Alu.ShiftOut(Alu.Rlc, a) == (a / 0x80 % 2 == 1)
  {
  }

  lemma RightRotation(a: u8, c: bool)
    ensures Alu.ShiftValue(Alu.Rr, a, c) == a / 2 + if c then 0x80 else 0
    ensures Alu.ShiftValue(Alu.Rrc, a, c) == a / 2 + if a % 2 == 1 then 0x80 else 0
    ensures Alu.ShiftOut(Alu.Rr, a) == Alu.ShiftOut(Alu.Rrc, a) == (a % 2 == 1)
  {
  }

  lemma HandleRotatesRight(s: State, i: Instr)
    requires WellFormed(i) && i.name in {Rra, Rrca}
    ensures var a, f := s.r[REG_A], s.r[REG_F];
      var top := if i.name == Rra then Alu.C(f) else a % 2 == 1;
      Handle(s, i).r == s.r[REG_A := a / 2 + if top then 0x80 else 0]
                           [REG_F := Alu.Flags(false, false, false, a % 2 == 1, f % 0x10)]
  {
    hide Handle, Alu.Flags, Alu.C, Alu.ShiftValue, Alu.ShiftOut;
    HandleIsAccumulator(s, i);
    RightRotation(s.r[REG_A], Alu.C(s.r[REG_F]));
  }

  /** The sign bit of a difference, where the source masks it out of a byte
      (bit 4) or a word (bit 8). */
  predicate HalfBorrow(diff: int) { diff % 0x100 / 0x10 % 2 == 1 }
  predicate Borrow(diff: int) { diff % 0x10000 / 0x100 % 2 == 1 }

  lemma BorrowIsSign(half: int, diff: int)
    requires -0x10 <= half <= 0xF && -0x100 <= diff <= 0xFF
    ensures HalfBorrow(half) <==> half < 0
    ensures Borrow(diff) <==> diff < 0
  {
  }

  /** A tick and a store do not care about F, nor it about them. */
  lemma SetFCommutes(s: State, f: u8, a: u16, v: u8)
    ensures Bus.Write(TimerModel.Tick(SetF(s, f)), a, v) == SetF(Bus.Write(TimerModel.Tick(s), a, v), f)
  {
    hide TimerModel.TimerTicks, Bus.Write;
    TickIgnoresF(s, f);
    WriteIgnoresF(TimerModel.Tick(s), f, a, v);
  }

  lemma TickIgnoresF(s: State, f: u8)
    ensures TimerModel.Tick(SetF(s, f)) == SetF(TimerModel.Tick(s), f)
  {
    hide TimerModel.Advance;
  }

  lemma WriteIgnoresF(s: State, f: u8, a: u16, v: u8)
    ensures Bus.Write(SetF(s, f), a, v) == SetF(Bus.Write(s, a, v), f)
  {
  }

  lemma SameHl(s: State, t: State)
    requires s.r == t.r
    ensures Hl(s) == Hl(t)
  {
  }

  /** Bits 4 and 8 of a nibble sum and a byte sum are their carries. */
  lemma CarryBits(half: nat, sum: nat)
    requires half < 0x20 && sum < 0x200
    ensures Bit(half, 4) <==> half >= 0x10
    ensures Bit(sum, 8) <==> sum >= 0x100
  {
    assert Pow2(4) == 0x10 && Pow2(8) == 0x100;
    TopBit(half, 4);
    TopBit(sum, 8);
  }

  /** The register file after an 8-bit addition, with the masks of the source. */
  lemma HandleAddsMasked(s: State, i: Instr)
    requires WellFormed(i) && i.operand in {AR8, AD8, AHlRel} && i.name in {Add, Adc}
    ensures var a, b, f := s.r[REG_A], Operand8(s, i), s.r[REG_F];
      var c := Alu.Carry(i.name == Adc && Alu.C(f));
      var half, sum := a % 0x10 + b % 0x10 + c, a + b + c;
      && i.reg1 == REG_A
      && Handle(s, i).r == s.r[REG_A := sum % 0x100]
           [REG_F := Alu.Flags(sum % 0x100 == 0, false, Bit(half, 4), Bit(sum, 8), f % 0x10)]
  {
    hide Handle, Alu.Flags, Alu.C, Operand8, Bit;
    HandleAdds(s, i);
    var a: int, b: int := s.r[REG_A], Operand8(s, i);
    var c := Alu.Carry(i.name == Adc && Alu.C(s.r[REG_F]));
    CarryBits(a % 0x10 + b % 0x10 + c, a + b + c);
  }

  /** Bits 12 and 16 likewise, for 16-bit sums. */
  lemma WideCarryBits(half: nat, sum: nat)
    requires half < 0x2000 && sum < 0x2_0000
    ensures Bit(half, 12) <==> half >= 0x1000
    ensures Bit(sum, 16) <==> sum >= 0x10000
  {
    assert Pow2(12) == 0x1000 && Pow2(16) == 0x10000;
    TopBit(half, 12);
    TopBit(sum, 16);
  }

  /** One more or one less, in a byte. */
  function Stepped(n: Mnemonic, v: u8): u8 {
    if n == Inc then (v + 1) % 0x100 else (v - 1) % 0x100
  }

  lemma StepByteInParts(s: State, i: Instr)
    requires i.name in {Inc, Dec} && WellFormed(i) && i.operand == R8
    ensures Instructions.Step(s, i) ==
      SetF(s.(r := s.r[i.reg1 := Stepped(i.name, s.r[i.reg1])]), StepFlags(i.name, s.r[i.reg1], F(s)))
  {
    hide StepFlags;
  }

  lemma StepMemoryInParts(s: State, i: Instr)
    requires i.name in {Inc, Dec} && WellFormed(i) && i.operand == HlRel
    ensures var t := TimerModel.TimerTicks(s, 2);
      Instructions.Step(s, i) == SetF(Bus.Write(t, i.address, Stepped(i.name, Bus.Read(t, i.address))),
                                      StepFlags(i.name, Bus.Read(s, i.address), F(s)))
  {
    hide TimerModel.TimerTicks, Bus.Write, Bus.Read, StepFlags;
  }

  lemma AddWordInParts(s: State, i: Instr)
    requires i.operand == HlR16 && Loaded(i)
    ensures var x, y, f := ReadReg16(s, i.reg1), ReadReg16(s, i.reg2), F(s);
      var half, sum := x % 0x1000 + y % 0x1000, x + y;
      AddWord(s, i) == SetF(WriteReg16(s, REG_HL, sum % 0x10000),
                            Alu.Flags(Alu.Z(f), false, half >= 0x1000, sum >= 0x10000, f % 0x10))
  {
    hide Alu.Z, ReadReg16, WriteReg16, Alu.Flags;
  }

  lemma SetFAfterWrite(s: State, f: u8, v: u16)
    ensures WriteReg16(SetF(s, f), REG_HL, v) == SetF(WriteReg16(s, REG_HL, v), f)
  {
  }
}
