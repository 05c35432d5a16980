/** Operations on words and the stack by opcode: INC and DEC of pairs, ADD HL,
    ADD SP, PUSH and POP.  (src/cpu/instruction.c) */
module WordOperations {
  import opened Words
  import opened MachineState
  import opened TimerModel
  import opened Opcodes
  import opened Fetch
  import opened Instructions
  import opened Encoded
  import Alu
  import Bus

  // ----- INC and DEC -----

  lemma StepWordEntry(op: u8)
    requires op < 0x40 && op % 8 == 3
    ensures Decode(op) == Entry(if op / 8 % 2 == 0 then Inc else Dec, R16, 2, 0)
    ensures FirstReg(op) == if op / 0x10 == 3 then 9 else 11 + op / 0x10
  {
  }

  /** BC, DE and HL as pairs of places in the register file. */
  lemma PairByBytes(s: State, reg: Reg, v: u16)
    requires reg >= 11
    ensures ReadReg16(s, reg) == PairAt(s, 2 * reg - 20)
    ensures WriteReg16(s, reg, v) == SetPairAt(s, 2 * reg - 20, v)
  {
  }

  lemma HandleStepWord(s: State, i: Instr)
    requires WellFormed(i) && i.name in {Inc, Dec} && i.operand == R16
    ensures i.reg1 == 9 || 11 <= i.reg1 < 14
    ensures Handle(s, i)
         == WriteReg16(Tick(s), i.reg1, (ReadReg16(s, i.reg1) + if i.name == Dec then 0xFFFF else 1) % 0x10000)
  {
    hide TimerTicks, ReadReg16, WriteReg16;
    OneLess(ReadReg16(s, i.reg1));
  }

  lemma OneLess(v: u16)
    ensures (v - 1) % 0x10000 == (v + 0xFFFF) % 0x10000
  {
  }

  lemma SpReads(s: State, v: u16)
    ensures ReadReg16(s, 9) == s.sp && WriteReg16(s, 9, v) == s.(sp := v)
  {
  }

  lemma StepSpAs(s: State, op: u8, n: Mnemonic, d: nat)
    requires NextOpcode(s) == op && Decode(op) == Entry(n, R16, 2, 0) && FirstReg(op) == 9
    requires (n, d) in {(Inc, 1), (Dec, 0xFFFF)}
    ensures Defined(op)
    ensures Execute(s) == TickN(s, 2).(pc := (s.pc + 1) % 0x10000, sp := (s.sp + d) % 0x10000)
  {
    hide Decode, Handle, Execute, NextOpcode, WellFormed, TimerTicks, TickN, FirstReg, SecondReg, Later,
      WriteReg16, ReadReg16;
    var i := FetchedNothing(s, op, Entry(n, R16, 2, 0));
    HandleStepWord(Later(s, 1, 1), i);
    LaterTick(s, 1, 1);
    LaterKeeps(s, 1, 1);
    SpReads(Later(s, 1, 1), 0);
    SpReads(Later(s, 2, 1), (s.sp + d) % 0x10000);
    LaterMeans(s, 2, 1);
  }

  /** INC SP and DEC SP. */
  lemma StepSpExact(s: State)
    requires NextOpcode(s) in {0x33, 0x3B}
    ensures Defined(NextOpcode(s))
    ensures Execute(s) == TickN(s, 2).(pc := (s.pc + 1) % 0x10000,
                                       sp := (s.sp + if NextOpcode(s) == 0x3B then 0xFFFF else 1) % 0x10000)
  {
    hide Decode, Execute, NextOpcode, Defined, TickN, FirstReg;
    StepWordEntry(NextOpcode(s));
    if NextOpcode(s) == 0x3B {
      StepSpAs(s, 0x3B, Dec, 0xFFFF);
    } else {
      StepSpAs(s, 0x33, Inc, 1);
    }
  }

  /** The pair at places k and k + 1 moved by d. */
  function StepPair(s: State, k: nat, d: nat): State
    requires k < 7
  {
    SetPairAt(s, k, (PairAt(s, k) + d) % 0x10000)
  }

  lemma StepPairTicks(s: State, reg: Reg, d: nat)
    requires 11 <= reg
    ensures WriteReg16(Tick(s), reg, (ReadReg16(s, reg) + d) % 0x10000) == StepPair(Tick(s), 2 * reg - 20, d)
  {
    hide TimerTicks, ReadReg16, WriteReg16;
    Bus.TickKeeps(s);
    PairByBytes(s, reg, 0);
    PairByBytes(Tick(s), reg, (ReadReg16(s, reg) + d) % 0x10000);
  }

  lemma HandleStepPair(s: State, i: Instr, k: nat, d: nat)
    requires WellFormed(i) && i.name in {Inc, Dec} && i.operand == R16
    requires 11 <= i.reg1 < 14 && k == 2 * i.reg1 - 20 && d == if i.name == Dec then 0xFFFF else 1
    ensures Handle(s, i) == StepPair(Tick(s), k, d)
  {
    hide Handle, WellFormed, TimerTicks, WriteReg16, ReadReg16, StepPair;
    HandleStepWord(s, i);
    StepPairTicks(s, i.reg1, d);
  }

  lemma StepPairAs(s: State, op: u8, n: Mnemonic, k: nat, d: nat)
    requires NextOpcode(s) == op && Decode(op) == Entry(n, R16, 2, 0) && n in {Inc, Dec}
    requires d == (if n == Dec then 0xFFFF else 1) && 11 <= FirstReg(op) < 14 && k == 2 * FirstReg(op) - 20
    ensures Defined(op)
    ensures Execute(s) == StepPair(TickN(s, 2).(pc := (s.pc + 1) % 0x10000), k, d)
  {
    hide Decode, Handle, Execute, NextOpcode, WellFormed, TimerTicks, TickN, FirstReg, SecondReg, Later,
      StepPair;
    var i := FetchedNothing(s, op, Entry(n, R16, 2, 0));
    HandleStepPair(Later(s, 1, 1), i, k, d);
    LaterTick(s, 1, 1);
    LaterMeans(s, 2, 1);
  }

  /** INC and DEC of BC, DE and HL: no flags. */
  lemma StepPairExact(s: State)
    requires NextOpcode(s) < 0x30 && NextOpcode(s) % 8 == 3
    ensures Defined(NextOpcode(s))
    ensures var op := NextOpcode(s);
      Execute(s) == StepPair(TickN(s, 2).(pc := (s.pc + 1) % 0x10000), 2 + op / 0x10 * 2,
                             if op / 8 % 2 == 1 then 0xFFFF else 1)
  {
    hide Decode, Execute, NextOpcode, Defined, TickN, FirstReg, StepPair;
    var op := NextOpcode(s);
    StepWordEntry(op);
    if op / 8 % 2 == 1 {
      StepPairAs(s, op, Dec, 2 + op / 0x10 * 2, 0xFFFF);
    } else {
      StepPairAs(s, op, Inc, 2 + op / 0x10 * 2, 1);
    }
  }

  // ----- 16-bit additions -----

  lemma AddWordEntry(op: u8)
    requires op in {0x09, 0x19, 0x29, 0x39}
    ensures Decode(op) == Entry(Add, HlR16, 2, 0)
    ensures SecondReg(op) == if op == 0x39 then 9 else 11 + op / 0x10
  {
  }

  /** F after the addition of x and y: Z kept, H and C from bits 11 and 15. */
  function AddF(f: u8, x: u16, y: u16): u8 {
    f / 0x80 % 2 * 0x80 + (if x % 0x1000 + y % 0x1000 >= 0x1000 then 0x20 else 0)
    + (if x + y >= 0x10000 then 0x10 else 0) + f % 0x10
  }

  /** HL plus y. */
  function AddToHl(s: State, y: u16): State {
    SetByte(SetPairAt(s, 6, (PairAt(s, 6) + y) % 0x10000), 1, AddF(s.r[1], PairAt(s, 6), y))
  }

  lemma AddWordAs(s: State, i: Instr)
    requires WellFormed(i) && i.name == Add && i.operand == HlR16
    ensures i.reg2 == 9 || 11 <= i.reg2 < 14
    ensures var x, y, f := Hl(s), ReadReg16(s, i.reg2), s.r[1];
      Handle(s, i) == SetF(WriteReg16(s, 13, (x + y) % 0x10000),
        Alu.Flags(Alu.Z(f), false, x % 0x1000 + y % 0x1000 >= 0x1000, x + y >= 0x10000, f % 0x10))
  {
    hide ReadReg16, WriteReg16, Alu.Flags, Alu.Z;
  }

  lemma AddFlags(f: u8, x: u16, y: u16)
    ensures Alu.Flags(Alu.Z(f), false, x % 0x1000 + y % 0x1000 >= 0x1000, x + y >= 0x10000, f % 0x10) == AddF(f, x, y)
  {
  }

  lemma HandleAddWord(s: State, i: Instr, y: u16)
    requires WellFormed(i) && i.name == Add && i.operand == HlR16 && i.reg2 < 14 && y == ReadReg16(s, i.reg2)
    ensures Handle(s, i) == AddToHl(s, y)
  {
    hide ReadReg16, WriteReg16, Handle, Alu.Flags, Alu.Z, WellFormed, AddF, SetPairAt, PairAt;
    AddWordAs(s, i);
    PairByBytes(s, 13, (Hl(s) + y) % 0x10000);
    AddFlags(s.r[1], Hl(s), y);
  }

  lemma AddWordExactAs(s: State, op: u8, y: u16)
    requires NextOpcode(s) == op && Decode(op) == Entry(Add, HlR16, 2, 0)
    requires SecondReg(op) < 14 && y == ReadReg16(Later(s, 1, 1), SecondReg(op))
    ensures Defined(op)
    ensures Execute(s) == AddToHl(TickN(s, 1).(pc := (s.pc + 1) % 0x10000), y)
  {
    hide Decode, Handle, Execute, NextOpcode, WellFormed, TimerTicks, TickN, FirstReg, SecondReg, Later,
      ReadReg16, AddToHl;
    var i := FetchedNothing(s, op, Entry(Add, HlR16, 2, 0));
    HandleAddWord(Later(s, 1, 1), i, y);
    LaterMeans(s, 1, 1);
  }

  lemma AddendAt(s: State, op: u8)
    requires op in {0x09, 0x19, 0x29, 0x39}
    ensures SecondReg(op) < 14
    ensures ReadReg16(Later(s, 1, 1), SecondReg(op)) == if op == 0x39 then s.sp else PairAt(s, 2 + op / 0x10 * 2)
  {
    hide SecondReg, Later, ReadReg16, PairAt;
    AddWordEntry(op);
    LaterKeeps(s, 1, 1);
    SpReads(Later(s, 1, 1), 0);
    if op != 0x39 {
      PairByBytes(Later(s, 1, 1), SecondReg(op), 0);
      PairLater(s, 2 + op / 0x10 * 2);
    }
  }

  /** ADD HL,rr: one tick. */
  lemma AddWordExact(s: State)
    requires NextOpcode(s) in {0x09, 0x19, 0x29, 0x39}
    ensures Defined(NextOpcode(s))
    ensures var op := NextOpcode(s);
      Execute(s) == AddToHl(TickN(s, 1).(pc := (s.pc + 1) % 0x10000),
                            if op == 0x39 then s.sp else PairAt(s, 2 + op / 0x10 * 2))
  {
    hide Decode, Execute, NextOpcode, Defined, TickN, SecondReg, AddToHl, PairAt, ReadReg16, Later;
    var op := NextOpcode(s);
    AddWordEntry(op);
    AddendAt(s, op);
    AddWordExactAs(s, op, ReadReg16(Later(s, 1, 1), SecondReg(op)));
  }

  /** SP plus the signed byte e; H and C from the unsigned low byte. */
  function AddToStack(s: State, e: u8): State {
    SetByte(s, 1, (if s.sp % 0x10 + e % 0x10 >= 0x10 then 0x20 else 0)
                  + (if s.sp % 0x100 + e >= 0x100 then 0x10 else 0) + s.r[1] % 0x10)
    .(sp := (s.sp + if e < 0x80 then e else e - 0x100) % 0x10000)
  }

  lemma HandleAddSp(s: State, i: Instr)
    requires WellFormed(i) && i.name == Add && i.operand == SpS8
    ensures i.data < 0x100 && Handle(s, i) == AddToStack(s, i.data)
  {
    hide AddToSp, AddToStack;
    AddSpMeans(s, i);
  }

  lemma AddSpMeans(s: State, i: Instr)
    requires i.operand == SpS8 && Loaded(i)
    ensures AddToSp(s, i) == AddToStack(s, i.data)
  {
    hide Alu.Flags, Signed;
    var e := i.data;
    SignedMeans(e);
    SpFlags(s.sp % 0x10 + e % 0x10 >= 0x10, s.sp % 0x100 + e >= 0x100, s.r[1]);
  }

  lemma SignedMeans(e: u8)
    ensures Signed(e) == if e < 0x80 then e as int else e - 0x100
  {
  }

  lemma SpFlags(h: bool, c: bool, f: u8)
    ensures Alu.Flags(false, false, h, c, f % 0x10) == (if h then 0x20 else 0) + (if c then 0x10 else 0) + f % 0x10
  {
  }

  lemma AddSpEntry()
    ensures Decode(0xE8) == Entry(Add, SpS8, 4, 0)
  {
  }

  /** ADD SP,e: two ticks. */
  lemma AddSpExact(s: State)
    requires NextOpcode(s) == 0xE8
    ensures Defined(NextOpcode(s))
    ensures Execute(s) == AddToStack(TickN(s, 2).(pc := (s.pc + 2) % 0x10000), Code(s, 2, 1))
  {
    hide Decode, Handle, Execute, NextOpcode, WellFormed, TimerTicks, TickN, FirstReg, SecondReg, Later,
      Code, AddToStack;
    AddSpEntry();
    var i := FetchedByte(s, 0xE8, Entry(Add, SpS8, 4, 0));
    HandleAddSp(Later(s, 2, 2), i);
    LaterMeans(s, 2, 2);
  }

  // ----- the stack -----

  lemma StackEntry(op: u8)
    ensures op in {0xC5, 0xD5, 0xE5, 0xF5} ==> Decode(op) == Entry(Push, R16, 4, 0)
    ensures op in {0xC1, 0xD1, 0xE1, 0xF1} ==> Decode(op) == Entry(Pop, R16, 3, 0)
    ensures op in {0xC5, 0xD5, 0xE5, 0xF5, 0xC1, 0xD1, 0xE1, 0xF1} ==>
      FirstReg(op) == if op >= 0xF0 then 10 else op / 0x10 - 1
  {
  }

  lemma HandlePush(s: State, i: Instr)
    requires WellFormed(i) && i.name == Push
    ensures 10 <= i.reg1 < 14 && Handle(s, i) == Bus.Push16(Tick(s), PairAt(s, 2 * i.reg1 - 20))
  {
    hide TimerTicks, Bus.Push16;
  }

  lemma PushAs(s: State, op: u8, k: nat)
    requires NextOpcode(s) == op && Decode(op) == Entry(Push, R16, 4, 0)
    requires 10 <= FirstReg(op) < 14 && k == 2 * FirstReg(op) - 20
    ensures Defined(op)
    ensures Execute(s) == Bus.Push16(TickN(s, 2).(pc := (s.pc + 1) % 0x10000), PairAt(s, k))
  {
    hide Decode, Handle, Execute, NextOpcode, WellFormed, TimerTicks, TickN, FirstReg, SecondReg, Later,
      Bus.Push16, PairAt;
    var i := FetchedNothing(s, op, Entry(Push, R16, 4, 0));
    HandlePush(Later(s, 1, 1), i);
    LaterTick(s, 1, 1);
    LaterMeans(s, 2, 1);
    PairLater(s, k);
  }

  /** PUSH BC, DE, HL, AF. */
  lemma PushExact(s: State)
    requires NextOpcode(s) in {0xC5, 0xD5, 0xE5, 0xF5}
    ensures Defined(NextOpcode(s))
    ensures var op := NextOpcode(s);
      Execute(s) == Bus.Push16(TickN(s, 2).(pc := (s.pc + 1) % 0x10000),
                               PairAt(s, if op == 0xF5 then 0 else (op - 0xC5) / 8 + 2))
  {
    hide Decode, Execute, NextOpcode, Defined, TickN, FirstReg, Bus.Push16, PairAt;
    var op := NextOpcode(s);
    StackEntry(op);
    PushAs(s, op, if op == 0xF5 then 0 else (op - 0xC5) / 8 + 2);
  }

  /** A pair popped into places k and k + 1; the low nibble of F is cleared,
      whichever pair it is. */
  function PopInto(s: State, k: nat): State
    requires k < 7
  {
    var (t, w) := Bus.Pop16(s);
    var u := SetPairAt(t, k, w);
    SetByte(u, 1, u.r[1] / 0x10 * 0x10)
  }

  lemma HandlePop(s: State, i: Instr)
    requires WellFormed(i) && i.name == Pop
    ensures 10 <= i.reg1 < 14 && Handle(s, i) == PopInto(s, 2 * i.reg1 - 20)
  {
    hide Bus.Pop16;
  }

  lemma PopAs(s: State, op: u8, k: nat)
    requires NextOpcode(s) == op && Decode(op) == Entry(Pop, R16, 3, 0)
    requires 10 <= FirstReg(op) < 14 && k == 2 * FirstReg(op) - 20
    ensures Defined(op)
    ensures Execute(s) == PopInto(TickN(s, 1).(pc := (s.pc + 1) % 0x10000), k)
  {
    hide Decode, Handle, Execute, NextOpcode, WellFormed, TimerTicks, TickN, FirstReg, SecondReg, Later,
      PopInto;
    var i := FetchedNothing(s, op, Entry(Pop, R16, 3, 0));
    HandlePop(Later(s, 1, 1), i);
    LaterMeans(s, 1, 1);
  }

  /** POP BC, DE, HL, AF. */
  lemma PopExact(s: State)
    requires NextOpcode(s) in {0xC1, 0xD1, 0xE1, 0xF1}
    ensures Defined(NextOpcode(s))
    ensures var op := NextOpcode(s);
      Execute(s)
      == PopInto(TickN(s, 1).(pc := (s.pc + 1) % 0x10000), if op == 0xF1 then 0 else (op - 0xC1) / 8 + 2)
  {
    hide Decode, Execute, NextOpcode, Defined, TickN, FirstReg, PopInto;
    var op := NextOpcode(s);
    StackEntry(op);
    PopAs(s, op, if op == 0xF1 then 0 else (op - 0xC1) / 8 + 2);
  }
}
