/** The instruction handlers of src/cpu/instruction.c and
    src/cpu/instruction_cb.c, as state transformers. */
module Instructions {
  import opened Words
  import opened MachineState
  import opened TimerModel
  import opened Opcodes
  import opened Fetch
  import Alu
  import Bus

  function A(s: State): u8 { s.r[REG_A] }
  function F(s: State): u8 { s.r[REG_F] }
  function SetF(s: State, f: u8): State { s.(r := s.r[REG_F := f]) }
  function SetAF(s: State, o: Alu.Out): State { s.(r := s.r[REG_A := o.val][REG_F := o.f]) }

  // ----- control flow -----

  function Jump(s: State, i: Instr): State {
    if !i.condition then s else Tick(s).(pc := i.address)
  }

  function JumpRelative(s: State, i: Instr): State
    requires i.data < 0x100
  {
    if !i.condition then s else Tick(s).(pc := (s.pc + Signed(i.data)) % 0x10000)
  }

  function CallTo(s: State, i: Instr): State {
    if !i.condition then s else Bus.Push16(Tick(s), s.pc).(pc := i.address)
  }

  /** Pop the return address, one more tick, jump. */
  function Return(s: State): State {
    var (t, pc) := Bus.Pop16(s);
    Tick(t).(pc := pc)
  }

  function ReturnIf(s: State, i: Instr): State {
    var t := if i.operand == NoOperand then s else Tick(s);
    if !i.condition then t else Return(t)
  }

  function Restart(s: State, i: Instr): State { Bus.Push16(Tick(s), s.pc).(pc := i.data) }

  // ----- loads -----

  function Load(s: State, i: Instr): State
    requires i.name == Ld && WellFormed(i)
  {
    if i.operand == HlS8 then
      var t := WriteReg16(Tick(s), REG_HL, (s.sp + Signed(i.data)) % 0x10000);
      SetF(t, Alu.Flags(false, false, s.sp % 0x10 + i.data % 0x10 >= 0x10, s.sp % 0x100 + i.data >= 0x100, 0))
    else if i.operand == SpHl then Tick(s).(sp := Hl(s))
    else if i.operand == R8R8 then s.(r := s.r[i.reg1 := s.r[i.reg2]])
    else if i.operand == D16RelSp then Bus.Write16(TimerTicks(s, 2), i.address, i.data)
    else if i.operand == HlRelD8 then Bus.Write(Tick(s), i.address, i.data)
    else if i.operand in {HlRelR8, R16RelA, D16RelA, HldA, HliA} then Bus.Write(Tick(s), i.address, s.r[i.reg1])
    else WriteReg16(s, i.reg1, i.data)
  }

  function LoadHigh(s: State, i: Instr): State
    requires i.name == Ldh && WellFormed(i)
  {
    if i.operand in {ACRel, AD8Rel} then s.(r := s.r[REG_A := i.data]) else Bus.Write(s, i.address, A(s))
  }

  // ----- arithmetic -----

  /** The second operand of an 8-bit operation. */
  function Operand8(s: State, i: Instr): u8
    requires i.operand in {AR8, AD8, AHlRel} && Loaded(i)
  {
    if i.operand == AR8 then s.r[i.reg2] else i.data
  }

  /** A, F after A := A op b. */
  function Operate(n: Mnemonic, a: u8, b: u8, f: u8): Alu.Out
    requires n in {Add, Adc, Sub, Sbc, And, Or, Xor, Cp}
  {
    match n
    case Add => Alu.Add(a, b, false, f)
    case Adc => Alu.Add(a, b, Alu.C(f), f)
    case Sub => Alu.Sub(a, b, false, f)
    case Sbc => Alu.Sub(a, b, Alu.C(f), f)
    case Cp => Alu.Sub(a, b, false, f).(val := a)
    case And => var v := And8(a, b); Alu.Out(v, Alu.Flags(v == 0, false, true, false, 0))
    case Or => var v := Or8(a, b); Alu.Out(v, Alu.Flags(v == 0, false, false, false, 0))
    case Xor => var v := Xor8(a, b); Alu.Out(v, Alu.Flags(v == 0, false, false, false, 0))
  }

  function AddWord(s: State, i: Instr): State
    requires i.operand == HlR16 && Loaded(i)
  {
    var x, y := Hl(s), ReadReg16(s, i.reg2);
    SetF(WriteReg16(s, REG_HL, (x + y) % 0x10000),
         Alu.Flags(Alu.Z(F(s)), false, x % 0x1000 + y % 0x1000 >= 0x1000, x + y >= 0x10000, F(s) % 0x10))
  }

  function AddToSp(s: State, i: Instr): State
    requires i.operand == SpS8 && Loaded(i)
  {
    SetF(s.(sp := (s.sp + Signed(i.data)) % 0x10000),
         Alu.Flags(false, false, s.sp % 0x10 + i.data % 0x10 >= 0x10, s.sp % 0x100 + i.data >= 0x100, F(s) % 0x10))
  }

  /** INC and DEC.  On (HL) the flags come from the byte as it was before the
      two ticks, the stored byte from what is there after them. */
  function Step(s: State, i: Instr): State
    requires i.name in {Inc, Dec} && WellFormed(i)
  {
    var d: int := if i.name == Inc then 1 else -1;
    if i.operand == R16 then WriteReg16(Tick(s), i.reg1, (ReadReg16(s, i.reg1) + d) % 0x10000)
    else if i.operand == R8 then
      SetF(s.(r := s.r[i.reg1 := (s.r[i.reg1] + d) % 0x100]), StepFlags(i.name, s.r[i.reg1], F(s)))
    else
      var t := TimerTicks(s, 2);
      SetF(Bus.Write(t, i.address, (Bus.Read(t, i.address) + d) % 0x100),
           StepFlags(i.name, Bus.Read(s, i.address), F(s)))
  }

  function StepFlags(n: Mnemonic, v: u8, f: u8): u8 {
    if n == Inc then Alu.IncFlags(v, f) else Alu.DecFlags(v, f)
  }

  /** RLCA, RRCA, RLA, RRA: the shifts of A, with Z cleared. */
  function Rotate(s: State, k: Alu.Shift): State {
    var o := Alu.ShiftBy(k, A(s), F(s));
    SetAF(s, o.(f := Alu.Flags(false, false, false, Alu.C(o.f), F(s) % 0x10)))
  }

  function SetCarry(s: State, c: bool): State {
    SetF(s, Alu.Flags(Alu.Z(F(s)), false, false, c, F(s) % 0x10))
  }

  function Complement(s: State): State {
    SetAF(s, Alu.Out(0xFF - A(s), Alu.Flags(Alu.Z(F(s)), true, true, Alu.C(F(s)), F(s) % 0x10)))
  }

  // ----- the stack -----

  function PushReg(s: State, i: Instr): State
    requires i.name == Push && WellFormed(i)
  {
    Bus.Push16(Tick(s), ReadReg16(s, i.reg1))
  }

  /** Every POP clears the unused bits of F, whatever it loads. */
  function PopReg(s: State, i: Instr): State
    requires i.name == Pop && WellFormed(i)
  {
    var (t, w) := Bus.Pop16(s);
    var u := WriteReg16(t, i.reg1, w);
    SetF(u, DropNibble(F(u)))
  }

  // ----- CB-prefixed instructions -----

  function ShiftKind(y: nat): Alu.Shift
    requires y < 8
  {
    if y == 0 then Alu.Rlc else if y == 1 then Alu.Rrc else if y == 2 then Alu.Rl else if y == 3 then Alu.Rr
    else if y == 4 then Alu.Sla else if y == 5 then Alu.Sra else if y == 6 then Alu.Swap else Alu.Srl
  }

  /** The byte and F after a CB operation on v: shift, BIT, RES or SET. */
  function CbOperate(op: u8, v: u8, f: u8): Alu.Out {
    if X(op) == 0 then Alu.ShiftBy(ShiftKind(Y(op)), v, f)
    else if X(op) == 1 then Alu.Out(v, Alu.Flags(!Bit(v, Y(op)), false, true, Alu.C(f), f % 0x10))
    else Alu.Out(WithBit(v, Y(op), X(op) == 3), f)
  }

  function CbExecute(s: State): State {
    var (t, op) := FetchByte(s);
    if OctalZ(op) == 6 then
      var u := Tick(t);
      var o := CbOperate(op, Bus.Read(u, Hl(s)), F(s));
      if X(op) == 1 then SetF(u, o.f) else SetF(Bus.Write(Tick(u), Hl(s), o.val), o.f)
    else
      var reg := ByteReg(OctalZ(op));
      var o := CbOperate(op, t.r[reg], F(s));
      SetF(t.(r := t.r[reg := o.val]), o.f)
  }

  // ----- dispatch -----

  /** `g_instruction_handlers[in.instruction](in)`. */
  function Handle(s: State, i: Instr): State
    requires WellFormed(i)
  {
    match i.name
    case Nop => s
    case Jp => Jump(s, i)
    case Jr => JumpRelative(s, i)
    case Call => CallTo(s, i)
    case Ret => ReturnIf(s, i)
    case Reti => Return(s).(ime := true)
    case Rst => Restart(s, i)
    case Ld => Load(s, i)
    case Ldh => LoadHigh(s, i)
    case Di => s.(ime := false)
    case Ei => s.(imeScheduled := true)
    case Ccf => SetCarry(s, !Alu.C(F(s)))
    case Scf => SetCarry(s, true)
    case Daa => SetAF(s, Alu.Daa(A(s), F(s)))
    case Cpl => Complement(s)
    case Push => PushReg(s, i)
    case Pop => PopReg(s, i)
    case Inc | Dec => Step(s, i)
    case Rla => Rotate(s, Alu.Rl)
    case Rlca => Rotate(s, Alu.Rlc)
    case Rra => Rotate(s, Alu.Rr)
    case Rrca => Rotate(s, Alu.Rrc)
    case Stop => Bus.Write(s, Bus.TIMER_DIV, 0)
    case Halt => s.(halt := true)
    case Cb => CbExecute(s)
    case _ =>
      if i.operand == HlR16 then AddWord(s, i)
      else if i.operand == SpS8 then AddToSp(s, i)
      else SetAF(s, Operate(i.name, A(s), Operand8(s, i), F(s)))
  }

  /** The opcode the next fetch will find, one tick from now. */
  function NextOpcode(s: State): u8 { Bus.Read(Tick(s), s.pc) }

  /** `execute_instruction`. */
  function Execute(s: State): State
    requires Defined(NextOpcode(s))
  {
    var (t, op) := FetchByte(s);
    FetchedIsWellFormed(t, op);
    var (u, i) := FetchInstruction(t, op);
    Handle(u, i)
  }
}
