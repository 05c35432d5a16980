/** Arithmetic, logic and steps of bytes by opcode, with the results and the
    bits of F in numbers.  (src/cpu/instruction.c) */
module Operations {
  import opened Words
  import opened MachineState
  import opened TimerModel
  import opened Opcodes
  import opened Fetch
  import opened Instructions
  import opened Encoded
  import Alu
  import Bus

  // ----- A op operand: ADD, ADC, SUB, SBC, AND, XOR, OR, CP by number -----

  /** v and g are what A and F become when operation number kind is applied to
      A = x, the operand y and F = f. */
  ghost predicate IsResult(kind: nat, x: u8, y: u8, f: u8, v: u8, g: u8) {
    var c: int := if kind % 2 == 1 && kind < 4 then f / 0x10 % 2 else 0;
    var wide: int := if kind < 2 then x + y + c else x - y - c;
    var half := if kind < 2 then x % 0x10 + y % 0x10 + c >= 0x10 else x % 0x10 - y % 0x10 - c < 0;
    if kind < 4 || kind == 7 then
      && v == (if kind == 7 then x else wide % 0x100)
      && g == (if wide % 0x100 == 0 then 0x80 else 0) + (if kind < 2 then 0 else 0x40)
              + (if half then 0x20 else 0) + (if 0 <= wide < 0x100 then 0 else 0x10) + f % 0x10
    else
      && (forall j: BitIndex :: Bit(v, j) <==>
            if kind == 4 then Bit(x, j) && Bit(y, j)
            else if kind == 5 then Bit(x, j) != Bit(y, j) else Bit(x, j) || Bit(y, j))
      && g == (if v == 0 then 0x80 else 0) + if kind == 4 then 0x20 else 0
  }

  lemma AddByNumbers(x: u8, y: u8, c: bool, f: u8)
    ensures var o, sum := Alu.Add(x, y, c, f), x + y + if c then 1 else 0;
      && o.val == sum % 0x100
      && o.f == (if sum % 0x100 == 0 then 0x80 else 0)
                + (if x % 0x10 + y % 0x10 + (if c then 1 else 0) >= 0x10 then 0x20 else 0)
                + (if sum >= 0x100 then 0x10 else 0) + f % 0x10
  {
  }

  lemma SubByNumbers(x: u8, y: u8, c: bool, f: u8)
    ensures var o, diff: int := Alu.Sub(x, y, c, f), x - y - if c then 1 else 0;
      && o.val == diff % 0x100
      && o.f == (if diff % 0x100 == 0 then 0x80 else 0) + 0x40
                + (if x % 0x10 - y % 0x10 - (if c then 1 else 0) < 0 then 0x20 else 0)
                + (if diff < 0 then 0x10 else 0) + f % 0x10
  {
  }

  lemma LogicByBits(x: u8, y: u8)
    ensures forall j: BitIndex :: Bit(And8(x, y), j) == (Bit(x, j) && Bit(y, j))
    ensures forall j: BitIndex :: Bit(Xor8(x, y), j) == (Bit(x, j) != Bit(y, j))
    ensures forall j: BitIndex :: Bit(Or8(x, y), j) == (Bit(x, j) || Bit(y, j))
  {
    hide Bit, Bitwise;
    forall j: BitIndex
      ensures Bit(And8(x, y), j) == (Bit(x, j) && Bit(y, j))
      ensures Bit(Xor8(x, y), j) == (Bit(x, j) != Bit(y, j))
      ensures Bit(Or8(x, y), j) == (Bit(x, j) || Bit(y, j))
    {
      BitOfBitwise(x, y, (p, q) => p && q, j);
      BitOfBitwise(x, y, (p, q) => p != q, j);
      BitOfBitwise(x, y, (p, q) => p || q, j);
    }
  }

  /** The mnemonic of operation number kind. */
  function Named(kind: nat): (n: Mnemonic)
    ensures n in {Add, Adc, Sub, Sbc, And, Or, Xor, Cp}
  {
    if kind == 0 then Add else if kind == 1 then Adc else if kind == 2 then Sub else if kind == 3 then Sbc
    else if kind == 4 then And else if kind == 5 then Xor else if kind == 6 then Or else Cp
  }

  /** The operations of the mnemonics are the operations of their numbers. */
  lemma OperateByNumbers(kind: nat, x: u8, y: u8, f: u8)
    requires kind < 8
    ensures var o := Operate(Named(kind), x, y, f); IsResult(kind, x, y, f, o.val, o.f)
  {
    hide Alu.Add, Alu.Sub, And8, Xor8, Or8, Bit;
    LogicByBits(x, y);
    AddByNumbers(x, y, kind == 1 && Alu.C(f), f);
    SubByNumbers(x, y, kind == 3 && Alu.C(f), f);
  }

  lemma OperationEntry(op: u8, n: Mnemonic)
    requires 0x80 <= op < 0xC0 || (op >= 0xC0 && op % 8 == 6)
    requires n == Named(op / 8 % 8)
    ensures Decode(op) == Entry(n, if op >= 0xC0 then AD8 else if op % 8 == 6 then AHlRel else AR8,
                                if op >= 0xC0 || op % 8 == 6 then 2 else 1, 0)
    ensures op < 0xC0 && op % 8 != 6 ==> SecondReg(op) == if op % 8 == 7 then 0 else 2 + op % 8
  {
  }

  lemma HandleOperation(s: State, i: Instr)
    requires WellFormed(i) && i.name in {Add, Adc, Sub, Sbc, And, Or, Xor, Cp} && i.operand in {AR8, AD8, AHlRel}
    ensures i.operand == AR8 ==> i.reg2 < 8
    ensures i.operand != AR8 ==> i.data < 0x100
    ensures var o := Operate(i.name, s.r[0], if i.operand == AR8 then s.r[i.reg2] else i.data, s.r[1]);
      Handle(s, i) == s.(r := s.r[0 := o.val][1 := o.f])
  {
    hide Operate;
  }

  /** A op r. */
  lemma OperateRegisterExact(s: State)
    requires 0x80 <= NextOpcode(s) < 0xC0 && NextOpcode(s) % 8 != 6
    ensures Defined(NextOpcode(s))
    ensures var t, y: u8 := Execute(s), s.r[if NextOpcode(s) % 8 == 7 then 0 else 2 + NextOpcode(s) % 8];
      && t == TickN(s, 1).(pc := (s.pc + 1) % 0x10000, r := s.r[0 := t.r[0]][1 := t.r[1]])
      && IsResult(NextOpcode(s) / 8 % 8, s.r[0], y, s.r[1], t.r[0], t.r[1])
  {
    hide Decode, Handle, Execute, NextOpcode, WellFormed, TimerTicks, TickN, Seen, Code, FirstReg, SecondReg, IsResult,
      Operate;
    var op := NextOpcode(s);
    var n := Named(op / 8 % 8);
    OperationEntry(op, n);
    var i := FetchedNothing(s, op, Entry(n, AR8, 1, 0));
    HandleOperation(Later(s, 1, 1), i);
    LaterKeeps(s, 1, 1);
    OperateByNumbers(op / 8 % 8, s.r[0], s.r[if NextOpcode(s) % 8 == 7 then 0 else 2 + NextOpcode(s) % 8], s.r[1]);
  }

  /** A op (HL). */
  lemma OperateCellExact(s: State)
    requires 0x80 <= NextOpcode(s) < 0xC0 && NextOpcode(s) % 8 == 6
    ensures Defined(NextOpcode(s))
    ensures var t, y: u8 := Execute(s), Seen(s, 2, 0x100 * (s.r[6] as int) + s.r[7]);
      && t == TickN(s, 2).(pc := (s.pc + 1) % 0x10000, r := s.r[0 := t.r[0]][1 := t.r[1]])
      && IsResult(NextOpcode(s) / 8 % 8, s.r[0], y, s.r[1], t.r[0], t.r[1])
  {
    hide Decode, Handle, Execute, NextOpcode, WellFormed, TimerTicks, TickN, Seen, Code, FirstReg, SecondReg, IsResult,
      Operate;
    var op := NextOpcode(s);
    var n := Named(op / 8 % 8);
    OperationEntry(op, n);
    var i := FetchedCell(s, op, Entry(n, AHlRel, 2, 0));
    HandleOperation(Later(s, 2, 1), i);
    LaterKeeps(s, 2, 1);
    OperateByNumbers(op / 8 % 8, s.r[0], Seen(s, 2, 0x100 * (s.r[6] as int) + s.r[7]), s.r[1]);
  }

  /** A op n. */
  lemma OperateImmediateExact(s: State)
    requires NextOpcode(s) >= 0xC0 && NextOpcode(s) % 8 == 6
    ensures Defined(NextOpcode(s))
    ensures var t, y: u8 := Execute(s), Code(s, 2, 1);
      && t == TickN(s, 2).(pc := (s.pc + 2) % 0x10000, r := s.r[0 := t.r[0]][1 := t.r[1]])
      && IsResult(NextOpcode(s) / 8 % 8, s.r[0], y, s.r[1], t.r[0], t.r[1])
  {
    hide Decode, Handle, Execute, NextOpcode, WellFormed, TimerTicks, TickN, Seen, Code, FirstReg, SecondReg, IsResult,
      Operate;
    var op := NextOpcode(s);
    var n := Named(op / 8 % 8);
    OperationEntry(op, n);
    var i := FetchedByte(s, op, Entry(n, AD8, 2, 0));
    HandleOperation(Later(s, 2, 2), i);
    LaterKeeps(s, 2, 2);
    OperateByNumbers(op / 8 % 8, s.r[0], Code(s, 2, 1), s.r[1]);
  }

  // ----- INC and DEC -----

  lemma StepEntry(op: u8)
    requires op < 0x40 && op % 8 in {4, 5}
    ensures Decode(op) == if op / 8 == 6 then Entry(if op % 8 == 4 then Inc else Dec, HlRel, 3, 0)
                          else Entry(if op % 8 == 4 then Inc else Dec, R8, 1, 0)
    ensures op / 8 != 6 ==> FirstReg(op) == if op / 8 == 7 then 0 else 2 + op / 8
  {
  }

  /** F after a step from v: Z and H as v says they will be, C kept. */
  function StepF(down: bool, v: u8, f: u8): (g: u8) {
    (if down then 0x40 + (if v == 1 then 0x80 else 0) + (if v % 0x10 == 0 then 0x20 else 0)
     else (if v == 0xFF then 0x80 else 0) + (if v % 0x10 == 0xF then 0x20 else 0))
    + f / 0x10 % 2 * 0x10 + f % 0x10
  }

  /** One more or one less, in a byte. */
  function Moved(down: bool, v: u8): u8 { ((v as int) + if down then 0xFF else 1) % 0x100 }

  /** INC or DEC of place k of the register file. */
  function StepByte(s: State, k: nat, down: bool): State
    requires k < 8
  {
    SetByte(SetByte(s, k, Moved(down, s.r[k])), 1, StepF(down, s.r[k], s.r[1]))
  }

  lemma StepFlagsByNumbers(n: Mnemonic, v: u8, f: u8)
    requires n in {Inc, Dec}
    ensures StepFlags(n, v, f) == StepF(n == Dec, v, f)
  {
  }

  lemma HandleStep(s: State, i: Instr)
    requires WellFormed(i) && i.name in {Inc, Dec} && i.operand == R8
    ensures i.reg1 < 8 && Handle(s, i) == StepByte(s, i.reg1, i.name == Dec)
  {
    hide StepFlags, StepF, Moved;
    StepFlagsByNumbers(i.name, s.r[i.reg1], s.r[1]);
    MovedMeans(s.r[i.reg1]);
  }

  lemma MovedMeans(v: u8)
    ensures Moved(false, v) == (v + 1) % 0x100 && Moved(true, v) == (v - 1) % 0x100
  {
  }

  lemma StepRegisterAs(s: State, op: u8, k: nat, n: Mnemonic)
    requires NextOpcode(s) == op && Decode(op) == Entry(n, R8, 1, 0) && FirstReg(op) == k < 8 && n in {Inc, Dec}
    ensures Defined(op)
    ensures Execute(s) == StepByte(TickN(s, 1).(pc := (s.pc + 1) % 0x10000), k, n == Dec)
  {
    hide Decode, Handle, Execute, NextOpcode, WellFormed, TimerTicks, TickN, FirstReg, SecondReg, Later,
      StepByte;
    var i := FetchedNothing(s, op, Entry(n, R8, 1, 0));
    HandleStep(Later(s, 1, 1), i);
    LaterMeans(s, 1, 1);
  }

  /** INC r and DEC r. */
  lemma StepRegisterExact(s: State)
    requires NextOpcode(s) < 0x40 && NextOpcode(s) % 8 in {4, 5} && NextOpcode(s) / 8 != 6
    ensures Defined(NextOpcode(s))
    ensures var op := NextOpcode(s);
      Execute(s) == StepByte(TickN(s, 1).(pc := (s.pc + 1) % 0x10000),
                             if op / 8 == 7 then 0 else 2 + op / 8, op % 8 == 5)
  {
    hide Decode, Execute, NextOpcode, Defined, TickN, FirstReg, StepByte;
    var op := NextOpcode(s);
    StepEntry(op);
    StepRegisterAs(s, op, FirstReg(op), if op % 8 == 4 then Inc else Dec);
  }

  /** INC or DEC of the cell at a: F from the cell before a batch of two ticks,
      the stored byte from the cell after it. */
  function StepCell(s: State, a: u16, down: bool): State {
    var t := TimerTicks(s, 2);
    SetByte(Bus.Write(t, a, Moved(down, Bus.Read(t, a))), 1, StepF(down, Bus.Read(s, a), s.r[1]))
  }

  lemma HandleStepCell(s: State, i: Instr)
    requires WellFormed(i) && i.name in {Inc, Dec} && i.operand == HlRel
    ensures Handle(s, i) == StepCell(s, i.address, i.name == Dec)
  {
    hide StepFlags, StepF, TimerTicks, Bus.Read, Bus.Write;
    StepFlagsByNumbers(i.name, Bus.Read(s, i.address), s.r[1]);
  }

  lemma StepCellAs(s: State, op: u8, n: Mnemonic)
    requires NextOpcode(s) == op && Decode(op) == Entry(n, HlRel, 3, 0) && n in {Inc, Dec}
    ensures Defined(op)
    ensures Execute(s) == StepCell(TickN(s, 1).(pc := (s.pc + 1) % 0x10000), PairAt(s, 6), n == Dec)
  {
    hide Decode, Handle, Execute, NextOpcode, WellFormed, TimerTicks, TickN, FirstReg, SecondReg, Later,
      StepCell, PairAt;
    var i := FetchedHl(s, op, Entry(n, HlRel, 3, 0));
    HandleStepCell(Later(s, 1, 1), i);
    LaterMeans(s, 1, 1);
    PairMeans(s);
  }

  /** INC (HL) and DEC (HL). */
  lemma StepCellExact(s: State)
    requires NextOpcode(s) in {0x34, 0x35}
    ensures Defined(NextOpcode(s))
    ensures Execute(s)
         == StepCell(TickN(s, 1).(pc := (s.pc + 1) % 0x10000), PairAt(s, 6), NextOpcode(s) == 0x35)
  {
    hide Decode, Execute, NextOpcode, Defined, TickN, FirstReg, StepCell, PairAt;
    StepEntry(NextOpcode(s));
    StepCellAs(s, NextOpcode(s), if NextOpcode(s) == 0x34 then Inc else Dec);
  }
}
