/** CB-prefixed instructions by their second byte: rotates, shifts, BIT, RES and
    SET on registers and on the cell at HL.  (src/cpu/instruction_cb.c) */
module CbPrefix {
  import opened Words
  import opened MachineState
  import opened TimerModel
  import opened Opcodes
  import opened Fetch
  import opened Instructions
  import opened Encoded
  import Alu
  import Bus

  /** The byte after rotate or shift number kind: RLC, RRC, RL, RR, SLA, SRA,
      SWAP, SRL; c is the old carry. */
  function ShiftedByte(kind: nat, v: u8, c: int): int {
    var left, right := 2 * (v as int) % 0x100, v / 2;
    if kind == 0 then left + v / 0x80 else if kind == 1 then right + 0x80 * (v % 2)
    else if kind == 2 then left + c else if kind == 3 then right + 0x80 * c
    else if kind == 4 then left else if kind == 5 then right + 0x80 * (v / 0x80)
    else if kind == 6 then 0x10 * (v % 0x10) + v / 0x10 else right
  }

  /** The bit it puts into C. */
  function ShiftedBit(kind: nat, v: u8): int {
    if kind in {0, 2, 4} then v / 0x80 else if kind == 6 then 0 else v % 2
  }

  /** w and g are what the byte v and F = f become under the operation op. */
  ghost predicate IsCbResult(op: u8, v: u8, f: u8, w: u8, g: u8) {
    if op < 0x40 then
      && w == ShiftedByte(op / 8, v, f / 0x10 % 2)
      && g == (if w == 0 then 0x80 else 0) + 0x10 * ShiftedBit(op / 8, v) + f % 0x10
    else if op < 0x80 then
      && w == v
      && g == (if Bit(v, op / 8 % 8) then 0 else 0x80) + 0x20 + f / 0x10 % 2 * 0x10 + f % 0x10
    else
      && (forall j: BitIndex :: Bit(w, j) == if j == op / 8 % 8 then op >= 0xC0 else Bit(v, j))
      && g == f
  }

  lemma ShiftByNumbers(kind: nat, v: u8, f: u8)
    requires kind < 8
    ensures Alu.ShiftValue(ShiftKind(kind), v, Alu.C(f)) == ShiftedByte(kind, v, f / 0x10 % 2)
    ensures ShiftedBit(kind, v) == if Alu.ShiftOut(ShiftKind(kind), v) then 1 else 0
  {
    if kind == 0 {} else if kind == 1 {} else if kind == 2 {} else if kind == 3 {}
    else if kind == 4 {} else if kind == 5 {} else if kind == 6 {} else {}
  }

  lemma ShiftResult(op: u8, v: u8, f: u8)
    requires op < 0x40
    ensures IsCbResult(op, v, f, CbOperate(op, v, f).val, CbOperate(op, v, f).f)
  {
    hide Alu.ShiftValue, Alu.ShiftOut, Alu.C, Alu.Flags, ShiftedByte, ShiftedBit, ShiftKind, Bit;
    ShiftByNumbers(op / 8, v, f);
    ShiftFlags(CbOperate(op, v, f).val == 0, Alu.ShiftOut(ShiftKind(op / 8), v), f);
  }

  lemma ShiftFlags(z: bool, c: bool, f: u8)
    ensures Alu.Flags(z, false, false, c, f % 0x10) == (if z then 0x80 else 0) + (if c then 0x10 else 0) + f % 0x10
  {
  }

  lemma BitResult(op: u8, v: u8, f: u8)
    requires op >= 0x40
    ensures IsCbResult(op, v, f, CbOperate(op, v, f).val, CbOperate(op, v, f).f)
  {
    hide Bit, WithBit;
    BitOfWithBit(v, op / 8 % 8, op >= 0xC0);
  }

  lemma CbEntryIs()
    ensures Decode(0xCB) == Entry(Cb, NoOperand, 1, 0)
  {
  }

  lemma HandleCb(s: State, i: Instr)
    requires WellFormed(i) && i.name == Cb
    ensures Handle(s, i) == CbExecute(s)
  {
    hide CbExecute;
  }

  /** A CB instruction comes to its operation, after two fetches. */
  lemma CbFetched(s: State)
    requires NextOpcode(s) == 0xCB
    ensures Defined(NextOpcode(s))
    ensures FetchByte(Later(s, 1, 1)) == (Later(s, 2, 2), Code(s, 2, 1))
    ensures Execute(s) == CbExecute(Later(s, 1, 1))
  {
    hide Decode, Handle, Execute, NextOpcode, WellFormed, CbExecute, Later, Code, FetchByte, FirstReg, SecondReg;
    CbEntryIs();
    var i := FetchedNothing(s, 0xCB, Entry(Cb, NoOperand, 1, 0));
    HandleCb(Later(s, 1, 1), i);
    LaterFetch(s, 1, 1);
  }

  lemma OnRegister(s: State, t: State, op: u8)
    requires FetchByte(s) == (t, op) && op % 8 != 6 && t.r == s.r
    ensures var k := if op % 8 == 7 then 0 else 2 + op % 8;
      var o := CbOperate(op, s.r[k], s.r[1]);
      CbExecute(s) == t.(r := s.r[k := o.val][1 := o.f])
  {
    hide CbOperate, FetchByte;
  }

  /** CB operations on a register: two ticks, and nothing but the register and
      F changes. */
  lemma CbRegisterExact(s: State) returns (w: u8, g: u8)
    requires NextOpcode(s) == 0xCB && Code(s, 2, 1) % 8 != 6
    ensures Defined(NextOpcode(s))
    ensures var op := Code(s, 2, 1);
      var k := if op % 8 == 7 then 0 else 2 + op % 8;
      && IsCbResult(op, s.r[k], s.r[1], w, g)
      && Execute(s) == TickN(s, 2).(pc := (s.pc + 2) % 0x10000, r := s.r[k := w][1 := g])
  {
    hide Execute, NextOpcode, Defined, CbExecute, CbOperate, TickN, Code, FetchByte, IsCbResult;
    CbFetched(s);
    LaterKeeps(s, 1, 1);
    LaterKeeps(s, 2, 2);
    var op := Code(s, 2, 1);
    OnRegister(Later(s, 1, 1), Later(s, 2, 2), op);
    var k := if op % 8 == 7 then 0 else 2 + op % 8;
    var o := CbOperate(op, s.r[k], s.r[1]);
    w, g := o.val, o.f;
    if op < 0x40 {
      ShiftResult(op, s.r[k], s.r[1]);
    } else {
      BitResult(op, s.r[k], s.r[1]);
    }
  }

  lemma OnCell(s: State, t: State, op: u8)
    requires FetchByte(s) == (t, op) && op % 8 == 6 && t.r == s.r
    ensures var o := CbOperate(op, Bus.Read(Tick(t), PairAt(s, 6)), s.r[1]);
      CbExecute(s) ==
        if 0x40 <= op < 0x80 then Tick(t).(r := s.r[1 := o.f])
        else Bus.Write(Tick(Tick(t)), PairAt(s, 6), o.val).(r := s.r[1 := o.f])
  {
    hide CbOperate, FetchByte, TimerTicks, Bus.Read, Bus.Write;
    Bus.TickKeeps(t);
    Bus.TickKeeps(Tick(t));
    HlIsPair(s);
  }

  /** CB operations on the cell at HL: read at the third tick and, but for BIT,
      stored at the fourth. */
  lemma CbCellExact(s: State) returns (w: u8, g: u8)
    requires NextOpcode(s) == 0xCB && Code(s, 2, 1) % 8 == 6
    ensures Defined(NextOpcode(s))
    ensures var op, hl := Code(s, 2, 1), PairAt(s, 6);
      && IsCbResult(op, Seen(s, 3, hl), s.r[1], w, g)
      && Execute(s) ==
         if 0x40 <= op < 0x80 then TickN(s, 3).(pc := (s.pc + 2) % 0x10000, r := s.r[1 := g])
         else Bus.Write(TickN(s, 4).(pc := (s.pc + 2) % 0x10000), hl, w).(r := s.r[1 := g])
  {
    hide Execute, NextOpcode, Defined, CbExecute, CbOperate, TickN, TimerTicks, Code, Seen, FetchByte, IsCbResult,
      PairAt, Bus.Write, Bus.Read, Later;
    CbFetched(s);
    LaterKeeps(s, 1, 1);
    LaterKeeps(s, 2, 2);
    LaterTick(s, 2, 2);
    LaterTick(s, 3, 2);
    var op, hl := Code(s, 2, 1), PairAt(s, 6);
    PairLater(s, 6);
    LaterSeen(s, 3, 2, hl);
    OnCell(Later(s, 1, 1), Later(s, 2, 2), op);
    var o := CbOperate(op, Seen(s, 3, hl), s.r[1]);
    w, g := o.val, o.f;
    LaterMeans(s, 3, 2);
    LaterMeans(s, 4, 2);
    if op < 0x40 {
      ShiftResult(op, Seen(s, 3, hl), s.r[1]);
    } else {
      BitResult(op, Seen(s, 3, hl), s.r[1]);
    }
  }
}
