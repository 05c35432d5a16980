/** The instructions multi-byte arithmetic is programmed with, executed by the
    machine: LD A,(DE); ADC A,(HL); SBC A,(HL); DAA; LD (HL+),A; INC DE. */
module Programs {
  import opened Words
  import opened MachineState
  import opened Opcodes
  import opened Fetch
  import opened Instructions
  import opened Runs
  import MultiByte
  import TimerModel
  import Alu
  import Bus

  /** DE and HL as addresses. */
  function De(s: State): u16 { ReadReg16(s, REG_DE) }

  /** Execute, where a defined opcode is next. */
  function Exec(s: State): State {
    if Defined(NextOpcode(s)) then Execute(s) else s
  }

  predicate Holds(t: State, a: u8, f: u8, de: u16, hl: u16, mem: Memory) {
    A(t) == a && F(t) == f && De(t) == de && Hl(t) == hl && t.mem == mem
  }

  /** What the one-byte instructions below have in common: PC moves on, the
      cartridge is left alone, and A, F, DE, HL and memory are what matters. */
  ghost predicate Leaves(s: State, t: State, a: u8, f: u8, de: u16, hl: u16, mem: Memory) {
    Holds(t, a, f, de, hl, mem) && t.pc == (s.pc + 1) % 0x10000 && t.cart == s.cart
  }

  lemma ExecInParts(s: State, op: u8)
    requires NextOpcode(s) == op && Defined(op)
    ensures var (u, i) := FetchInstruction(FetchByte(s).0, op); WellFormed(i) && Exec(s) == Handle(u, i)
  {
    hide Execute, FetchByte, FetchInstruction, NextOpcode, Handle, WellFormed, Defined;
    ExecuteInParts(s);
  }

  lemma FetchLoadThroughDe(t: State)
    ensures var (u, i) := FetchInstruction(t, 0x1A);
      && u == TimerModel.Tick(t) && i.name == Ld && i.operand == AR16Rel && i.reg1 == REG_A
      && i.data == Bus.Read16(u, De(t))
  {
    hide TimerModel.TimerTicks, Bus.Read16, ReadReg16;
    assert Decode(0x1A) == Entry(Ld, AR16Rel, 2, 0);
  }

  lemma LowOfRead16(s: State, a: u16)
    requires a >= 0x8000
    ensures Lsb(Bus.Read16(s, a)) == s.mem[a]
  {
  }

  lemma LoadThroughDe(s: State)
    requires NextOpcode(s) == 0x1A && De(s) >= 0x8000
    ensures Leaves(s, Exec(s), s.mem[De(s)], F(s), De(s), Hl(s), s.mem)
  {
    hide Exec, NextOpcode, FetchByte, FetchInstruction, Handle, WellFormed, TimerModel.TimerTicks, Bus.Read16;
    var t := FetchByte(s).0;
    assert Defined(0x1A);
    ExecInParts(s, 0x1A);
    FetchByteFrame(s);
    FetchLoadThroughDe(t);
    var (u, i) := FetchInstruction(t, 0x1A);
    HandleLoad(u, i);
    Bus.TickKeeps(t);
    LowOfRead16(u, De(t));
  }

  lemma FetchThroughHl(t: State, op: u8)
    requires op == 0x8E || op == 0x9E
    ensures var (u, i) := FetchInstruction(t, op);
      && u == TimerModel.Tick(t) && i.name == (if op == 0x8E then Adc else Sbc)
      && i.operand == AHlRel && i.reg1 == REG_A && i.data == Bus.Read(u, Hl(t))
  {
    hide TimerModel.TimerTicks, Bus.Read, ReadReg16;
    assert Decode(0x8E) == Entry(Adc, AHlRel, 2, 0) && Decode(0x9E) == Entry(Sbc, AHlRel, 2, 0);
  }

  lemma HandleArithmetic(s: State, i: Instr)
    requires i.name in {Adc, Sbc} && i.operand == AHlRel && i.reg1 == REG_A && i.data < 0x100
    ensures WellFormed(i) && Handle(s, i) == SetAF(s, Operate(i.name, A(s), i.data, F(s)))
  {
    hide Operate;
  }

  lemma ArithmeticExecutes(s: State, op: u8)
    requires NextOpcode(s) == op && (op == 0x8E || op == 0x9E)
    ensures var u := TimerModel.Tick(FetchByte(s).0);
      Exec(s) == SetAF(u, Operate(if op == 0x8E then Adc else Sbc, A(u), Bus.Read(u, Hl(FetchByte(s).0)), F(u)))
  {
    hide Exec, NextOpcode, FetchByte, FetchInstruction, Handle, TimerModel.TimerTicks, Bus.Read, Operate, ReadReg16,
      SetAF;
    assert Defined(0x8E) && Defined(0x9E);
    ExecInParts(s, op);
    var t := FetchByte(s).0;
    FetchThroughHl(t, op);
    var (u, i) := FetchInstruction(t, op);
    HandleArithmetic(u, i);
  }

  lemma ArithmeticThroughHl(s: State, sub: bool)
    requires NextOpcode(s) == (if sub then 0x9E else 0x8E) && Bus.Ram(Hl(s))
    ensures var o := MultiByte.Step(if sub then MultiByte.SubC else MultiByte.AddC, A(s), s.mem[Hl(s)], F(s));
      Leaves(s, Exec(s), o.val, o.f, De(s), Hl(s), s.mem)
  {
    hide FetchByte, Exec, NextOpcode, TimerModel.TimerTicks, Bus.Read, Alu.Add, Alu.Sub;
    var t := FetchByte(s).0;
    FetchByteFrame(s);
    ArithmeticExecutes(s, NextOpcode(s));
    Bus.TickKeeps(t);
    Bus.RamReads(TimerModel.Tick(t), Hl(s));
  }

  lemma Adjust(s: State)
    requires NextOpcode(s) == 0x27
    ensures var o := Alu.Daa(A(s), F(s)); Leaves(s, Exec(s), o.val, o.f, De(s), Hl(s), s.mem)
  {
    hide Exec, NextOpcode, FetchByte, FetchInstruction, Alu.Daa;
    assert Decode(0x27) == Entry(Daa, NoOperand, 1, 0);
    ExecInParts(s, 0x27);
    FetchByteFrame(s);
    FetchPlain(FetchByte(s).0, 0x27);
  }

  lemma FetchStoreAndStep(t: State)
    ensures var (u, i) := FetchInstruction(t, 0x22);
      && u == WriteReg16(t, REG_HL, (Hl(t) + 1) % 0x10000)
      && i.name == Ld && i.operand == HliA && i.reg1 == REG_A && i.address == Hl(t)
  {
    hide WriteReg16, ReadReg16;
    assert Decode(0x22) == Entry(Ld, HliA, 2, 0);
  }

  lemma HlWritten(t: State, v: u16)
    ensures var u := WriteReg16(t, REG_HL, v); Holds(u, A(t), F(t), De(t), v, t.mem) && u.pc == t.pc && u.cart == t.cart
  {
  }

  lemma SameRegisters(s: State, t: State)
    requires s.r == t.r
    ensures A(s) == A(t) && F(s) == F(t) && De(s) == De(t) && Hl(s) == Hl(t)
  {
  }

  /** Handling a load is its transfer. */
  lemma HandleLoad(s: State, i: Instr)
    requires i.name == Ld && i.reg1 == REG_A && i.operand in {AR16Rel, HliA}
    ensures WellFormed(i)
    ensures i.operand == AR16Rel ==> Handle(s, i) == WriteReg16(s, REG_A, i.data)
    ensures i.operand == HliA ==> Handle(s, i) == Bus.Write(TimerModel.Tick(s), i.address, A(s))
  {
    hide TimerModel.TimerTicks, Bus.Write, WriteReg16;
  }

  lemma StoreAndStepExecutes(s: State)
    requires NextOpcode(s) == 0x22
    ensures var t := FetchByte(s).0;
      var u := WriteReg16(t, REG_HL, (Hl(t) + 1) % 0x10000);
      Exec(s) == Bus.Write(TimerModel.Tick(u), Hl(t), A(u))
  {
    hide Exec, NextOpcode, FetchByte, FetchInstruction, Handle, WellFormed, TimerModel.TimerTicks, Bus.Write,
      WriteReg16,
      ReadReg16;
    assert Defined(0x22);
    ExecInParts(s, 0x22);
    var t := FetchByte(s).0;
    FetchStoreAndStep(t);
    var (u, i) := FetchInstruction(t, 0x22);
    HandleLoad(u, i);
  }

  lemma StoreAndStep(s: State)
    requires NextOpcode(s) == 0x22 && Bus.Ram(Hl(s)) && Hl(s) < 0xFFFF
    ensures Leaves(s, Exec(s), A(s), F(s), De(s), Hl(s) + 1, s.mem[Hl(s) := A(s)])
  {
    hide FetchByte, Exec, NextOpcode, TimerModel.TimerTicks, Bus.Write, WriteReg16, ReadReg16;
    var t := FetchByte(s).0;
    FetchByteFrame(s);
    SameRegisters(s, t);
    StoreAndStepExecutes(s);
    var u := WriteReg16(t, REG_HL, Hl(t) + 1);
    HlWritten(t, Hl(t) + 1);
    Bus.TickKeeps(u);
    WriteRam(TimerModel.Tick(u), Hl(s), A(s));
    SameRegisters(u, Exec(s));
  }

  lemma WriteRam(s: State, a: u16, v: u8)
    requires Bus.Ram(a)
    ensures Bus.Write(s, a, v) == s.(mem := s.mem[a := v])
  {
  }

  lemma DeWritten(t: State, v: u16)
    ensures var u := WriteReg16(t, REG_DE, v); Holds(u, A(t), F(t), v, Hl(t), t.mem) && u.pc == t.pc && u.cart == t.cart
  {
  }

  lemma HandleIncWord(s: State, i: Instr)
    requires i.name == Inc && i.operand == R16 && i.reg1 == REG_DE
    ensures WellFormed(i) && Handle(s, i) == WriteReg16(TimerModel.Tick(s), REG_DE, (De(s) + 1) % 0x10000)
  {
    hide TimerModel.TimerTicks, WriteReg16, ReadReg16;
  }

  lemma StepDeExecutes(s: State)
    requires NextOpcode(s) == 0x13
    ensures var t := FetchByte(s).0; Exec(s) == WriteReg16(TimerModel.Tick(t), REG_DE, (De(t) + 1) % 0x10000)
  {
    hide Exec, NextOpcode, FetchByte, FetchInstruction, Handle, WellFormed, TimerModel.TimerTicks, WriteReg16,
      ReadReg16;
    assert Decode(0x13) == Entry(Inc, R16, 2, 0) && FirstReg(0x13) == REG_DE;
    ExecInParts(s, 0x13);
    var t := FetchByte(s).0;
    FetchPlain(t, 0x13);
    HandleIncWord(t, FetchInstruction(t, 0x13).1);
  }

  lemma StepDe(s: State)
    requires NextOpcode(s) == 0x13 && De(s) < 0xFFFF
    ensures Leaves(s, Exec(s), A(s), F(s), De(s) + 1, Hl(s), s.mem)
  {
    hide FetchByte, Exec, NextOpcode, TimerModel.TimerTicks, WriteReg16, ReadReg16;
    var t := FetchByte(s).0;
    FetchByteFrame(s);
    Bus.TickKeeps(t);
    SameRegisters(s, t);
    SameRegisters(s, TimerModel.Tick(t));
    StepDeExecutes(s);
    DeWritten(TimerModel.Tick(t), De(s) + 1);
  }
}
