/** Instructions on A and F alone and on the flags of the run loop, by opcode.
    (src/cpu/instruction.c) */
module Accumulator {
  import opened Words
  import opened MachineState
  import opened TimerModel
  import opened Opcodes
  import opened Fetch
  import opened Instructions
  import opened Encoded
  import Alu

  // ----- rotates -----

  /** A and the carry after RLCA, RRCA, RLA and RRA, by opcode. */
  lemma RotateByNumbers(a: u8, f: u8)
    ensures Alu.ShiftBy(Alu.Rlc, a, f).val == 2 * (a as int) % 0x100 + a / 0x80
    ensures Alu.ShiftBy(Alu.Rrc, a, f).val == a / 2 + a % 2 * 0x80
    ensures Alu.ShiftBy(Alu.Rl, a, f).val == 2 * (a as int) % 0x100 + f / 0x10 % 2
    ensures Alu.ShiftBy(Alu.Rr, a, f).val == a / 2 + f / 0x10 % 2 * 0x80
    ensures Alu.C(Alu.ShiftBy(Alu.Rlc, a, f).f) == Alu.C(Alu.ShiftBy(Alu.Rl, a, f).f) == (a >= 0x80)
    ensures Alu.C(Alu.ShiftBy(Alu.Rrc, a, f).f) == Alu.C(Alu.ShiftBy(Alu.Rr, a, f).f) == (a % 2 == 1)
  {
  }

  lemma RotateEntry(op: u8)
    ensures op == 0x07 ==> Decode(op) == Entry(Rlca, NoOperand, 1, 0)
    ensures op == 0x0F ==> Decode(op) == Entry(Rrca, NoOperand, 1, 0)
    ensures op == 0x17 ==> Decode(op) == Entry(Rla, NoOperand, 1, 0)
    ensures op == 0x1F ==> Decode(op) == Entry(Rra, NoOperand, 1, 0)
  {
  }

  /** A and F after a rotate of A that gives o: Z, N and H are cleared. */
  function Rotated(s: State, o: Alu.Out): State {
    s.(r := s.r[0 := o.val][1 := (if Alu.C(o.f) then 0x10 else 0) + s.r[1] % 0x10])
  }

  lemma HandleRotate(s: State, i: Instr, k: Alu.Shift)
    requires WellFormed(i) && (i.name, k) in {(Rlca, Alu.Rlc), (Rrca, Alu.Rrc), (Rla, Alu.Rl), (Rra, Alu.Rr)}
    ensures Handle(s, i) == Rotated(s, Alu.ShiftBy(k, s.r[0], s.r[1]))
  {
    hide Alu.ShiftBy, Alu.C;
    assert Handle(s, i) == Rotate(s, k);
    RotateAs(s, k);
  }

  lemma RotateAs(s: State, k: Alu.Shift)
    ensures Rotate(s, k) == Rotated(s, Alu.ShiftBy(k, s.r[0], s.r[1]))
  {
    hide Alu.ShiftBy;
  }

  lemma RotateFetched(s: State, op: u8, n: Mnemonic, k: Alu.Shift)
    requires NextOpcode(s) == op && Decode(op) == Entry(n, NoOperand, 1, 0)
    requires (n, k) in {(Rlca, Alu.Rlc), (Rrca, Alu.Rrc), (Rla, Alu.Rl), (Rra, Alu.Rr)}
    ensures Defined(op)
    ensures Execute(s) == Rotated(TickN(s, 1).(pc := (s.pc + 1) % 0x10000), Alu.ShiftBy(k, s.r[0], s.r[1]))
  {
    hide Decode, Handle, Execute, NextOpcode, WellFormed, TimerTicks, TickN, FirstReg, SecondReg, Alu.ShiftBy, Rotated;
    var i := FetchedNothing(s, op, Entry(n, NoOperand, 1, 0));
    HandleRotate(Later(s, 1, 1), i, k);
    LaterKeeps(s, 1, 1);
  }

  /** RLCA and RLA: A doubled, bit 7 into C, and bit 7 or the old C put in below;
      Z, N and H are cleared. */
  lemma RotateLeftExact(s: State)
    requires NextOpcode(s) in {0x07, 0x17}
    ensures Defined(NextOpcode(s))
    ensures var a: int, c: int := s.r[0], s.r[1] / 0x10 % 2;
      var v := 2 * a % 0x100 + if NextOpcode(s) == 0x07 then a / 0x80 else c;
      && v < 0x100
      && Execute(s) == TickN(s, 1).(pc := (s.pc + 1) % 0x10000,
                                    r := s.r[0 := v][1 := (if a >= 0x80 then 0x10 else 0) + s.r[1] % 0x10])
  {
    hide Decode, Execute, NextOpcode, Defined, TickN, Alu.ShiftBy, Alu.C;
    RotateEntry(NextOpcode(s));
    TickNKeeps(s, 1);
    RotateByNumbers(s.r[0], s.r[1]);
    if NextOpcode(s) == 0x07 {
      RotateFetched(s, 0x07, Rlca, Alu.Rlc);
    } else {
      RotateFetched(s, 0x17, Rla, Alu.Rl);
    }
  }

  /** RRCA and RRA: A halved, bit 0 into C, and bit 0 or the old C put in above. */
  lemma RotateRightExact(s: State)
    requires NextOpcode(s) in {0x0F, 0x1F}
    ensures Defined(NextOpcode(s))
    ensures var a: int, c: int := s.r[0], s.r[1] / 0x10 % 2;
      var v := a / 2 + 0x80 * if NextOpcode(s) == 0x0F then a % 2 else c;
      && v < 0x100
      && Execute(s) == TickN(s, 1).(pc := (s.pc + 1) % 0x10000,
                                    r := s.r[0 := v][1 := (if a % 2 == 1 then 0x10 else 0) + s.r[1] % 0x10])
  {
    hide Decode, Execute, NextOpcode, Defined, TickN, Alu.ShiftBy, Alu.C;
    RotateEntry(NextOpcode(s));
    TickNKeeps(s, 1);
    RotateByNumbers(s.r[0], s.r[1]);
    if NextOpcode(s) == 0x0F {
      RotateFetched(s, 0x0F, Rrca, Alu.Rrc);
    } else {
      RotateFetched(s, 0x1F, Rra, Alu.Rr);
    }
  }

  // ----- the other operations on A and F -----

  lemma FlagOpsEntry(op: u8)
    ensures op == 0x27 ==> Decode(op) == Entry(Daa, NoOperand, 1, 0)
    ensures op == 0x2F ==> Decode(op) == Entry(Cpl, NoOperand, 1, 0)
    ensures op == 0x37 ==> Decode(op) == Entry(Scf, NoOperand, 1, 0)
    ensures op == 0x3F ==> Decode(op) == Entry(Ccf, NoOperand, 1, 0)
  {
  }

  /** A complemented, N and H set, Z and C kept. */
  function Complemented(s: State): State {
    SetByte(SetByte(s, 0, 0xFF - s.r[0]), 1,
            s.r[1] / 0x80 % 2 * 0x80 + 0x60 + s.r[1] / 0x10 % 2 * 0x10 + s.r[1] % 0x10)
  }

  /** C set or, if turned, the other way round; N and H cleared, Z kept. */
  function WithCarry(s: State, turned: bool): State {
    var f: int := s.r[1];
    SetByte(s, 1, f / 0x80 % 2 * 0x80 + (if turned then 1 - f / 0x10 % 2 else 1) * 0x10 + f % 0x10)
  }

  /** A corrected by 6, 0x60 or both, up or down: each as the flag of its digit
      or, after an addition, the digit itself requires. */
  function Adjusted(s: State): State {
    var a: int, f: int := s.r[0], s.r[1];
    var n, h, c := f / 0x40 % 2 == 1, f / 0x20 % 2 == 1, f / 0x10 % 2 == 1;
    var high, low := c || (!n && a > 0x99), h || (!n && a % 0x10 > 9);
    var fix := (if high then 0x60 else 0) + if low then 6 else 0;
    var v := (if n then a - fix else a + fix) % 0x100;
    SetByte(SetByte(s, 0, v), 1,
            (if v == 0 then 0x80 else 0) + (if n then 0x40 else 0) + (if high then 0x10 else 0) + f % 0x10)
  }

  lemma HandleComplement(s: State, i: Instr)
    requires WellFormed(i) && i.name == Cpl
    ensures Handle(s, i) == Complemented(s)
  {
  }

  lemma HandleCarry(s: State, i: Instr)
    requires WellFormed(i) && i.name in {Scf, Ccf}
    ensures Handle(s, i) == WithCarry(s, i.name == Ccf)
  {
  }

  lemma HandleDaa(s: State, i: Instr)
    requires WellFormed(i) && i.name == Daa
    ensures Handle(s, i) == Adjusted(s)
  {
    hide Alu.Daa;
    DaaByNumbers(s);
  }

  lemma DaaByNumbers(s: State)
    ensures var o := Alu.Daa(s.r[0], s.r[1]); SetByte(SetByte(s, 0, o.val), 1, o.f) == Adjusted(s)
  {
  }

  /** CPL. */
  lemma ComplementExact(s: State)
    requires NextOpcode(s) == 0x2F
    ensures Defined(NextOpcode(s))
    ensures Execute(s) == Complemented(TickN(s, 1).(pc := (s.pc + 1) % 0x10000))
  {
    hide Decode, Handle, Execute, NextOpcode, WellFormed, TimerTicks, TickN, FirstReg, SecondReg, Later,
      Complemented;
    FlagOpsEntry(0x2F);
    var i := FetchedNothing(s, 0x2F, Entry(Cpl, NoOperand, 1, 0));
    HandleComplement(Later(s, 1, 1), i);
    LaterMeans(s, 1, 1);
  }

  lemma CarryAs(s: State, op: u8, n: Mnemonic)
    requires NextOpcode(s) == op && Decode(op) == Entry(n, NoOperand, 1, 0) && n in {Scf, Ccf}
    ensures Defined(op)
    ensures Execute(s) == WithCarry(TickN(s, 1).(pc := (s.pc + 1) % 0x10000), n == Ccf)
  {
    hide Decode, Handle, Execute, NextOpcode, WellFormed, TimerTicks, TickN, FirstReg, SecondReg, Later,
      WithCarry;
    var i := FetchedNothing(s, op, Entry(n, NoOperand, 1, 0));
    HandleCarry(Later(s, 1, 1), i);
    LaterMeans(s, 1, 1);
  }

  /** SCF and CCF. */
  lemma CarryExact(s: State)
    requires NextOpcode(s) in {0x37, 0x3F}
    ensures Defined(NextOpcode(s))
    ensures Execute(s) == WithCarry(TickN(s, 1).(pc := (s.pc + 1) % 0x10000), NextOpcode(s) == 0x3F)
  {
    hide Decode, Execute, NextOpcode, Defined, TickN, WithCarry;
    FlagOpsEntry(NextOpcode(s));
    CarryAs(s, NextOpcode(s), if NextOpcode(s) == 0x37 then Scf else Ccf);
  }

  /** DAA. */
  lemma DaaExact(s: State)
    requires NextOpcode(s) == 0x27
    ensures Defined(NextOpcode(s))
    ensures Execute(s) == Adjusted(TickN(s, 1).(pc := (s.pc + 1) % 0x10000))
  {
    hide Decode, Handle, Execute, NextOpcode, WellFormed, TimerTicks, TickN, FirstReg, SecondReg, Later,
      Adjusted;
    FlagOpsEntry(0x27);
    var i := FetchedNothing(s, 0x27, Entry(Daa, NoOperand, 1, 0));
    HandleDaa(Later(s, 1, 1), i);
    LaterMeans(s, 1, 1);
  }

  // ----- the loop's flags -----

  lemma ControlEntry(op: u8)
    requires op in {0x00, 0x10, 0x76, 0xF3, 0xFB}
    ensures Decode(op) == Entry(if op == 0x00 then Nop else if op == 0x10 then Stop else if op == 0x76 then Halt
                                else if op == 0xF3 then Di else Ei, NoOperand, 1, 0)
  {
  }

  lemma HandleControl(s: State, i: Instr)
    requires WellFormed(i) && i.name in {Nop, Stop, Halt, Di, Ei}
    ensures Handle(s, i) ==
      if i.name == Nop then s else if i.name == Stop then s.(timer := s.timer.(div := 0))
      else if i.name == Halt then s.(halt := true)
      else if i.name == Di then s.(ime := false) else s.(imeScheduled := true)
  {
  }

  /** NOP, STOP (as far as the divider), HALT, DI and EI. */
  lemma ControlExact(s: State)
    requires NextOpcode(s) in {0x00, 0x10, 0x76, 0xF3, 0xFB}
    ensures Defined(NextOpcode(s))
    ensures var op, t := NextOpcode(s), TickN(s, 1).(pc := (s.pc + 1) % 0x10000);
      Execute(s) == if op == 0x00 then t else if op == 0x10 then t.(timer := t.timer.(div := 0))
        else if op == 0x76 then t.(halt := true) else if op == 0xF3 then t.(ime := false) else t.(imeScheduled := true)
  {
    hide Decode, Handle, Execute, NextOpcode, WellFormed, TimerTicks, TickN, FirstReg, SecondReg;
    var op := NextOpcode(s);
    ControlEntry(op);
    var n := if op == 0x00 then Nop else if op == 0x10 then Stop else if op == 0x76 then Halt
             else if op == 0xF3 then Di else Ei;
    var i := FetchedNothing(s, op, Entry(n, NoOperand, 1, 0));
    HandleControl(Later(s, 1, 1), i);
  }
}
