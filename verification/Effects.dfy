/** What every instruction does to the clock, the IME flags, HALT and the
    unused bits of F: the part of its effect the run-level properties need. */
module Effects {
  import opened Words
  import opened MachineState
  import opened TimerModel
  import opened Opcodes
  import opened Fetch
  import opened Instructions
  import Alu
  import Bus

  /** The unused low nibble of F is clear. */
  predicate CleanF(s: State) { s.r[REG_F] % 0x10 == 0 }

  /** From s to t, n ticks pass and the delayed IME takes effect at the first;
      IME, HALT and the low nibble of F are otherwise left alone. */
  predicate Keeps(s: State, t: State, n: nat) {
    && t.clock == s.clock + n
    && t.imeScheduled == (n == 0 && s.imeScheduled)
    && t.ime == (s.ime || (n > 0 && s.imeScheduled))
    && t.halt == s.halt
    && (CleanF(s) ==> CleanF(t))
  }

  lemma TicksKeep(s: State, n: u8)
    requires n > 0
    ensures Keeps(s, TimerTicks(s, n), n) && TimerTicks(s, n).r == s.r
  {
    hide Advance;
  }

  lemma PushKeeps(s: State, w: u16)
    ensures Keeps(s, Bus.Push16(s, w), 2) && Bus.Push16(s, w).r == s.r
  {
    hide Advance, Bus.Write;
  }

  lemma PopKeeps(s: State)
    ensures Keeps(s, Bus.Pop16(s).0, 2) && Bus.Pop16(s).0.r == s.r
  {
    hide Advance, Bus.Read;
  }

  // ----- operands -----

  /** Ticks spent fetching operands. */
  function FetchTicks(o: Operand): nat {
    match o
    case S8 | FlagS8 | R8D8 | AD8 | HlS8 | SpS8 | HlRelD8 | D8RelA => 1
    case R8HlRel | AHlRel | AHld | AHli | AR16Rel | ACRel => 1
    case R16D16 | A16 | FlagA16 | D16RelA | D16RelSp | AD8Rel => 2
    case AD16Rel => 3
    case _ => 0
  }

  function AddressTicks(o: Operand): nat {
    if o in {A16, FlagA16, D16RelA, D16RelSp} then 2 else if o == D8RelA then 1 else 0
  }

  /** Only A and F, of the byte registers, are sure to survive the fetch. */
  predicate KeepsAF(s: State, t: State) { t.r[REG_A] == s.r[REG_A] && t.r[REG_F] == s.r[REG_F] }

  lemma FetchByteKeeps(s: State)
    ensures Keeps(s, FetchByte(s).0, 1) && FetchByte(s).0.r == s.r
  {
    hide Advance, Bus.Read;
  }

  lemma FetchWordKeeps(s: State)
    ensures Keeps(s, FetchWord(s).0, 2) && FetchWord(s).0.r == s.r
  {
    hide FetchByte;
    FetchByteKeeps(s);
    FetchByteKeeps(FetchByte(s).0);
  }

  lemma FetchAddressKeeps(s: State, o: Operand, op: u8)
    ensures var t := FetchAddress(s, o, op).0; Keeps(s, t, AddressTicks(o)) && KeepsAF(s, t)
  {
    hide FetchByte, FetchWord;
    FetchByteKeeps(s);
    FetchWordKeeps(s);
  }

  lemma FetchDataKeeps(s: State, o: Operand, op: u8)
    ensures var t := FetchData(s, o, op).0; Keeps(s, t, FetchTicks(o) - AddressTicks(o)) && KeepsAF(s, t)
  {
    hide FetchData, Keeps, KeepsAF;
    match o
    case AHld | AHli => StepHlKeeps(s, o, op);
    case R8HlRel | AHlRel | AR16Rel | ACRel => ReadOnceKeeps(s, o, op);
    case AD16Rel | AD8Rel => ReadThroughImmediateKeeps(s, o, op);
    case S8 | FlagS8 | R8D8 | AD8 | HlS8 | SpS8 | HlRelD8 | R16D16 => ImmediateKeeps(s, o, op);
    case _ => NoDataKeeps(s, o, op);
  }

  lemma ImmediateKeeps(s: State, o: Operand, op: u8)
    requires o in {S8, FlagS8, R8D8, AD8, HlS8, SpS8, HlRelD8, R16D16}
    ensures var t := FetchData(s, o, op).0; Keeps(s, t, if o == R16D16 then 2 else 1) && KeepsAF(s, t)
  {
    hide FetchByte, FetchWord, Keeps;
    FetchByteKeeps(s);
    FetchWordKeeps(s);
  }

  lemma NoDataKeeps(s: State, o: Operand, op: u8)
    requires FetchTicks(o) == AddressTicks(o)
    ensures var t := FetchData(s, o, op).0; Keeps(s, t, 0) && KeepsAF(s, t)
  {
    hide FetchByte, FetchWord, Y, Keeps;
    assert Keeps(s, s, 0) by { NothingKeeps(s); }
    assert FetchData(s, o, op).0 == s;
  }

  lemma NothingKeeps(s: State)
    ensures Keeps(s, s, 0)
  {
  }

  lemma ReadOnceKeeps(s: State, o: Operand, op: u8)
    requires o in {R8HlRel, AHlRel, AR16Rel, ACRel}
    ensures var t := FetchData(s, o, op).0; Keeps(s, t, 1) && KeepsAF(s, t)
  {
    hide TimerTicks, Bus.Read, Bus.Read16, ReadReg16, P, Keeps;
    TicksKeep(s, 1);
    assert FetchData(s, o, op).0 == Tick(s);
  }

  lemma ReadThroughImmediateKeeps(s: State, o: Operand, op: u8)
    requires o in {AD16Rel, AD8Rel}
    ensures var t := FetchData(s, o, op).0; Keeps(s, t, if o == AD16Rel then 3 else 2) && KeepsAF(s, t)
  {
    hide FetchByte, FetchWord, TimerTicks, Bus.Read, Bus.Read16;
    TicksKeep(s, 1);
    FetchByteKeeps(Tick(s));
    FetchWordKeeps(Tick(s));
  }

  lemma StepHlKeeps(s: State, o: Operand, op: u8)
    requires o in {AHld, AHli}
    ensures var t := FetchData(s, o, op).0; Keeps(s, t, 1) && KeepsAF(s, t)
  {
    hide TimerTicks, Bus.Read;
    TicksKeep(s, 1);
  }

  lemma FetchKeeps(s: State, op: u8)
    ensures var t := FetchInstruction(s, op).0;
      Keeps(s, t, FetchTicks(Decode(op).operand)) && KeepsAF(s, t)
  {
    hide FetchAddress, FetchData, Decode, FirstReg, SecondReg;
    var o := Decode(op).operand;
    FetchAddressKeeps(s, o, op);
    FetchDataKeeps(FetchAddress(s, o, op).0, o, op);
  }

  // ----- handlers -----

  /** Ticks a handler spends, CB aside. */
  function HandlerTicks(n: Mnemonic, o: Operand, taken: bool): nat {
    match n
    case Jp | Jr => if taken then 1 else 0
    case Call => if taken then 3 else 0
    case Ret => (if o == NoOperand then 0 else 1) + if taken then 3 else 0
    case Reti | Rst | Push => 3
    case Pop => 2
    case Inc | Dec => if o == R16 then 1 else if o == HlRel then 2 else 0
    case Ld =>
      if o == D16RelSp then 2
      else if o in {HlS8, SpHl, HlRelD8, HlRelR8, R16RelA, D16RelA, HldA, HliA} then 1
      else 0
    case _ => 0
  }

  lemma CallKeeps(s: State, i: Instr)
    ensures Keeps(s, Bus.Push16(Tick(s), s.pc).(pc := i.address), 3)
    ensures Keeps(s, Bus.Push16(Tick(s), s.pc).(pc := i.data), 3)
  {
    hide TimerTicks, Bus.Push16;
    TicksKeep(s, 1);
    PushKeeps(Tick(s), s.pc);
  }

  lemma ReturnKeeps(s: State)
    ensures Keeps(s, Return(s), 3)
  {
    hide TimerTicks, Bus.Pop16;
    PopKeeps(s);
    TicksKeep(Bus.Pop16(s).0, 1);
  }

  lemma LoadKeeps(s: State, i: Instr)
    requires i.name == Ld && WellFormed(i)
    ensures Keeps(s, Load(s, i), HandlerTicks(Ld, i.operand, true))
  {
    if i.operand in {D16RelSp, HlRelD8, HlRelR8, R16RelA, D16RelA, HldA, HliA} {
      StoreKeeps(s, i);
    } else if i.operand in {HlS8, SpHl} {
      hide TimerTicks, Fits;
      TicksKeep(s, 1);
    } else {
      RegisterLoadKeeps(s, i);
    }
  }

  lemma RegisterLoadKeeps(s: State, i: Instr)
    requires i.name == Ld && WellFormed(i)
    requires i.operand !in {D16RelSp, HlRelD8, HlRelR8, R16RelA, D16RelA, HldA, HliA, HlS8, SpHl}
    ensures Keeps(s, Load(s, i), 0)
  {
  }

  lemma StoreKeeps(s: State, i: Instr)
    requires i.name == Ld && WellFormed(i)
    requires i.operand in {D16RelSp, HlRelD8, HlRelR8, R16RelA, D16RelA, HldA, HliA}
    ensures Keeps(s, Load(s, i), HandlerTicks(Ld, i.operand, true))
  {
    hide TimerTicks, Bus.Write, Fits;
    TicksKeep(s, 1);
    TicksKeep(s, 2);
  }

  lemma StepKeeps(s: State, i: Instr)
    requires i.name in {Inc, Dec} && WellFormed(i)
    ensures Keeps(s, Step(s, i), HandlerTicks(i.name, i.operand, true))
  {
    hide TimerTicks, Bus.Write, Bus.Read;
    TicksKeep(s, 1);
    TicksKeep(s, 2);
  }

  lemma PushRegKeeps(s: State, i: Instr)
    requires i.name == Push && WellFormed(i)
    ensures Keeps(s, PushReg(s, i), 3)
  {
    hide TimerTicks, Bus.Push16;
    TicksKeep(s, 1);
    PushKeeps(Tick(s), ReadReg16(s, i.reg1));
  }

  lemma PopRegKeeps(s: State, i: Instr)
    requires i.name == Pop && WellFormed(i)
    ensures Keeps(s, PopReg(s, i), 2)
  {
    hide Bus.Pop16;
    PopKeeps(s);
  }

  function CbTicks(op: u8): nat { if OctalZ(op) != 6 then 1 else if X(op) == 1 then 2 else 3 }

  lemma CbOperateClean(op: u8, v: u8, f: u8)
    requires f % 0x10 == 0
    ensures CbOperate(op, v, f).f % 0x10 == 0
  {
  }

  lemma CbKeeps(s: State)
    ensures Keeps(s, CbExecute(s), CbTicks(FetchByte(s).1))
  {
    hide FetchByte, TimerTicks, Bus.Write, Bus.Read, CbOperate;
    var (t, op) := FetchByte(s);
    FetchByteKeeps(s);
    TicksKeep(t, 1);
    TicksKeep(Tick(t), 1);
    if CleanF(s) {
      CbOperateClean(op, Bus.Read(Tick(t), Hl(s)), F(s));
      if OctalZ(op) != 6 {
        CbOperateClean(op, t.r[ByteReg(OctalZ(op))], F(s));
      }
    }
  }

  lemma OperateClean(n: Mnemonic, a: u8, b: u8, f: u8)
    requires n in {Add, Adc, Sub, Sbc, And, Or, Xor, Cp} && f % 0x10 == 0
    ensures Operate(n, a, b, f).f % 0x10 == 0
  {
    hide And8, Or8, Xor8;
  }

  lemma DaaClean(a: u8, f: u8)
    ensures Alu.Daa(a, f).f % 0x10 == f % 0x10
  {
  }

  /** Handlers that change the byte registers and nothing else. */
  predicate ChangesRegistersOnly(i: Instr) {
    || i.name in {Sub, Sbc, Adc, And, Or, Xor, Cp, Daa, Rla, Rlca, Rra, Rrca, Ccf, Scf, Cpl}
    || (i.name == Add && i.operand !in {HlR16, SpS8})
  }

  lemma RegistersOnlyFrame(s: State, i: Instr)
    requires WellFormed(i) && ChangesRegistersOnly(i)
    ensures Handle(s, i) == s.(r := Handle(s, i).r)
  {
    hide Handle, Loaded;
    if i.name in {Daa, Rla, Rlca, Rra, Rrca, Ccf, Scf, Cpl} {
      AccumulatorFrame(s, i);
    } else {
      ArithmeticFrame(s, i);
    }
  }

  /** An 8-bit operation replaces A and F. */
  lemma HandleOperates(s: State, i: Instr)
    requires WellFormed(i) && i.name in {Sub, Sbc, Adc, And, Or, Xor, Cp, Add} && i.operand !in {HlR16, SpS8}
    ensures i.operand in {AR8, AD8, AHlRel}
    ensures Handle(s, i) == SetAF(s, Operate(i.name, A(s), Operand8(s, i), F(s)))
  {
    hide Operate, Operand8, SetAF;
  }

  lemma ArithmeticFrame(s: State, i: Instr)
    requires WellFormed(i) && i.name in {Sub, Sbc, Adc, And, Or, Xor, Cp, Add} && i.operand !in {HlR16, SpS8}
    ensures Handle(s, i) == s.(r := Handle(s, i).r)
  {
    hide Handle, Operate, Operand8;
    HandleOperates(s, i);
  }

  lemma AccumulatorFrame(s: State, i: Instr)
    requires WellFormed(i) && i.name in {Daa, Rla, Rlca, Rra, Rrca, Ccf, Scf, Cpl}
    ensures Handle(s, i) == s.(r := Handle(s, i).r)
  {
    hide Alu.Daa, Rotate, SetCarry, Complement, Loaded;
    RotateFrame(s, if i.name == Rla then Alu.Rl else if i.name == Rlca then Alu.Rlc
                   else if i.name == Rra then Alu.Rr else Alu.Rrc);
    SetCarryFrame(s, i.name == Scf || !Alu.C(F(s)));
  }

  lemma RotateFrame(s: State, k: Alu.Shift)
    ensures Rotate(s, k) == s.(r := Rotate(s, k).r)
  {
    hide Alu.ShiftBy, Alu.Flags;
  }

  lemma SetCarryFrame(s: State, c: bool)
    ensures SetCarry(s, c) == s.(r := SetCarry(s, c).r) && Complement(s) == s.(r := Complement(s).r)
  {
    hide Alu.Flags;
  }

  lemma RegistersOnlyClean(s: State, i: Instr)
    requires WellFormed(i) && ChangesRegistersOnly(i) && CleanF(s)
    ensures CleanF(Handle(s, i))
  {
    if i.name in {Daa, Rla, Rlca, Rra, Rrca, Ccf, Scf, Cpl} {
      AccumulatorClean(s, i);
    } else {
      hide Handle, Operate, Operand8;
      HandleOperates(s, i);
      OperateClean(i.name, A(s), Operand8(s, i), F(s));
    }
  }

  lemma AccumulatorClean(s: State, i: Instr)
    requires WellFormed(i) && i.name in {Daa, Rla, Rlca, Rra, Rrca, Ccf, Scf, Cpl} && CleanF(s)
    ensures CleanF(Handle(s, i))
  {
    hide Alu.Flags, Alu.Daa, Alu.ShiftBy;
    DaaClean(A(s), F(s));
  }

  /** Handlers that change registers and flags only. */
  lemma RegisterOnlyKeeps(s: State, i: Instr)
    requires WellFormed(i)
    requires i.name in {Nop, Ccf, Scf, Daa, Cpl, Rla, Rlca, Rra, Rrca, Add, Adc, Sub, Sbc, And, Or, Xor, Cp}
    ensures Keeps(s, Handle(s, i), 0)
    ensures var t := Handle(s, i); t.mem == s.mem && t.pc == s.pc && (i.operand != SpS8 ==> t.sp == s.sp)
  {
    if ChangesRegistersOnly(i) {
      hide Handle;
      RegistersOnlyFrame(s, i);
      if CleanF(s) {
        RegistersOnlyClean(s, i);
      }
    } else {
      hide Alu.Flags;
    }
  }

  lemma HandleKeeps(s: State, i: Instr)
    requires WellFormed(i) && i.name !in {Di, Ei, Halt, Reti}
    ensures Keeps(s, Handle(s, i), if i.name == Cb then CbTicks(FetchByte(s).1)
                                   else HandlerTicks(i.name, i.operand, i.condition))
  {
    hide TimerTicks, Bus.Write, Bus.Push16, Return, Load, Step, PushReg, PopReg, CbExecute;
    TicksKeep(s, 1);
    match i.name
    case Jp | Jr | Ldh | Stop =>
    case Call | Rst => CallKeeps(s, i);
    case Ret => ReturnKeeps(s); ReturnKeeps(Tick(s));
    case Ld => LoadKeeps(s, i);
    case Push => PushRegKeeps(s, i);
    case Pop => PopRegKeeps(s, i);
    case Inc | Dec => StepKeeps(s, i);
    case Cb => CbKeeps(s);
    case _ => RegisterOnlyKeeps(s, i);
  }
}
