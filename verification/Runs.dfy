/** src/main.c: the run loop, and what holds at every one of its passes. */
module Runs {
  import opened Words
  import opened MachineState
  import opened TimerModel
  import opened Opcodes
  import opened Fetch
  import opened Instructions
  import opened Interrupts
  import opened Effects

  // ----- the step relation -----

  /** A pass needs a defined opcode unless the CPU is halted. */
  predicate CanStep(s: State) { s.halt || Defined(NextOpcode(s)) }

  /** The first half of a pass: one tick when halted, else one instruction. */
  function Half(s: State): State
    requires CanStep(s)
  {
    if s.halt then Tick(s) else Execute(s)
  }

  /** One pass of the loop. */
  function Pass(s: State): State
    requires CanStep(s)
  {
    HandleInterrupts(Half(s))
  }

  /** States at consecutive loop boundaries. */
  ghost predicate IsRun(ss: seq<State>) {
    |ss| > 0 && forall i :: 0 <= i < |ss| - 1 ==> CanStep(ss[i]) && ss[i + 1] == Pass(ss[i])
  }

  /** The next n passes all find defined opcodes. */
  predicate CanRun(s: State, n: nat)
    decreases n
  {
    n == 0 || (CanStep(s) && CanRun(Pass(s), n - 1))
  }

  /** AF = 0x01B0, BC = 0x0013, DE = 0x00D8, HL = 0x014D. */
  const RESET_REGISTERS: ByteRegisters := [0x01, 0xB0, 0x00, 0x13, 0x00, 0xD8, 0x01, 0x4D]

  /** `reset_cpu` and `reset_timer`. */
  function Reset(s: State): State {
    s.(pc := 0x0100, sp := 0xFFFE,
       r := RESET_REGISTERS,
       halt := false, imeScheduled := false,
       timer := s.timer.(div := 0xABCC))
  }

  /** The registers after reset. */
  lemma ResetByNumbers(s: State)
    ensures var t := Reset(s);
      && ReadReg16(t, 10) == 0x01B0 && ReadReg16(t, 11) == 0x0013 && ReadReg16(t, 12) == 0x00D8
      && ReadReg16(t, 13) == 0x014D && ReadReg16(t, 8) == 0x0100 && ReadReg16(t, 9) == 0xFFFE
      && !t.halt && !t.imeScheduled && t.timer == s.timer.(div := 0xABCC)
  {
  }

  // ----- timing -----

  /** The branch condition, as it stands when the instruction is fetched. */
  predicate Taken(op: u8, f: u8) {
    Decode(op).operand !in {FlagA16, FlagS8, Flag} || Condition(f, Y(op) % 4)
  }

  /** Opcodes whose ticks differ from the table: ADD HL,rr; the CB prefix;
      LDH (n),A; LD (C),A; ADD SP,e; JP HL; LD HL,SP+e. */
  predicate OffTable(op: u8) {
    op in {0x09, 0x19, 0x29, 0x39, 0xCB, 0xE0, 0xE2, 0xE8, 0xE9, 0xF8}
  }

  /** Ticks of one instruction, from its encoding; cb is the byte after 0xCB. */
  function InstructionTicks(op: u8, taken: bool, cb: u8): nat {
    var e := Decode(op);
    1 + Effects.FetchTicks(e.operand) +
    if e.name == Cb then CbTicks(cb) else HandlerTicks(e.name, e.operand, taken)
  }

  /** What the opcode table promises. */
  function TableTicks(op: u8, taken: bool): nat {
    if taken then Table(op).cycles else Table(op).cyclesFalse
  }

  /** The ticks of an entry of the table are the ticks it states. */
  predicate AsStated(e: Entry, taken: bool) {
    1 + Effects.FetchTicks(e.operand) + HandlerTicks(e.name, e.operand, taken)
    == if taken then e.cycles else e.cyclesFalse
  }

  lemma TicksBlock0(y: nat, z: nat, taken: bool)
    requires y < 8 && z < 8
    requires taken || Block0(y, z).operand in {FlagA16, FlagS8, Flag}
    ensures AsStated(Block0(y, z), taken) <==> !(z == 1 && y % 2 == 1)
    ensures Block0(y, z).name != Cb
  {
  }

  lemma TicksBlock3Low(y: nat, z: nat, taken: bool)
    requires y < 8 && z < 3
    requires taken || Block3(y, z).operand in {FlagA16, FlagS8, Flag}
    ensures AsStated(Block3(y, z), taken) <==> (y, z) !in {(4, 0), (4, 2), (5, 0), (5, 1), (7, 0)}
  {
    if z == 0 {} else if z == 1 {} else {}
  }

  lemma TicksBlock3High(y: nat, z: nat, taken: bool)
    requires y < 8 && 3 <= z < 8 && Block3(y, z).operand != ErrOperand && Block3(y, z).name != Cb
    requires taken || Block3(y, z).operand in {FlagA16, FlagS8, Flag}
    ensures AsStated(Block3(y, z), taken)
  {
  }

  lemma CbEntry(y: nat, z: nat)
    requires y < 8 && z < 8
    ensures Block3(y, z).name == Cb <==> y == 1 && z == 3
    ensures Block3(1, 3) == Entry(Cb, NoOperand, 1, 0)
  {
  }

  lemma TicksAreStated(op: u8, taken: bool, cb: u8)
    ensures Decode(op).name != Cb ==>
      (InstructionTicks(op, taken, cb) == TableTicks(op, taken) <==> AsStated(Decode(op), taken))
  {
    hide Decode, Table, HandlerTicks, Effects.FetchTicks;
    TableIsOctal(op);
  }

  lemma TicksOfCb(cb: u8)
    ensures Decode(0xCB) == Entry(Cb, NoOperand, 1, 0)
    ensures InstructionTicks(0xCB, true, cb) == InstructionTicks(0xCB, false, cb)
         == if OctalZ(cb) != 6 then 2 else if X(cb) == 1 then 3 else 4
  {
  }

  lemma TicksBlocks12(op: u8, taken: bool)
    requires 0x40 <= op < 0xC0
    requires taken || Decode(op).operand in {FlagA16, FlagS8, Flag}
    ensures Decode(op).name != Cb && AsStated(Decode(op), taken)
  {
  }

  /** The tick counts agree with the table exactly off that list. */
  lemma TicksMatchTable(op: u8, taken: bool, cb: u8)
    requires Defined(op)
    requires taken || Decode(op).operand in {FlagA16, FlagS8, Flag}
    ensures InstructionTicks(op, taken, cb) == TableTicks(op, taken) <==> !OffTable(op)
    ensures op == 0xCB ==>
      InstructionTicks(op, taken, cb) == if OctalZ(cb) != 6 then 2 else if X(cb) == 1 then 3 else 4
  {
    hide Block0, Block3, Table, AsStated, HandlerTicks, Effects.FetchTicks;
    TableIsOctal(op);
    TicksAreStated(op, taken, cb);
    CbEntry(Y(op), OctalZ(op));
    if op == 0xCB {
      TicksOfCb(cb);
    } else if X(op) == 0 {
      TicksBlock0(Y(op), OctalZ(op), taken);
    } else if X(op) == 1 || X(op) == 2 {
      TicksBlocks12(op, taken);
    } else if OctalZ(op) < 3 {
      TicksBlock3Low(Y(op), OctalZ(op), taken);
    } else {
      TicksBlock3High(Y(op), OctalZ(op), taken);
    }
  }

  /** The byte after the opcode, as a CB instruction fetches it. */
  function CbByte(s: State): u8 { FetchByte(FetchByte(s).0).1 }

  lemma FetchByteIsNext(s: State)
    ensures FetchByte(s).1 == NextOpcode(s)
  {
  }

  /** What executing comes to, fetch by fetch. */
  lemma ExecuteInParts(s: State)
    requires Defined(NextOpcode(s))
    ensures var t, op := FetchByte(s).0, NextOpcode(s);
      var (u, i) := FetchInstruction(t, op);
      WellFormed(i) && Execute(s) == Handle(u, i)
  {
    hide FetchByte, FetchInstruction, NextOpcode, Handle, WellFormed, Defined;
    FetchByteIsNext(s);
    FetchedIsWellFormed(FetchByte(s).0, NextOpcode(s));
  }

  lemma HandleSpecial(s: State, i: Instr)
    requires WellFormed(i) && i.name in {Di, Ei, Halt, Reti}
    ensures var t := Handle(s, i);
      && t.clock == s.clock + HandlerTicks(i.name, i.operand, true)
      && (t.imeScheduled <==> i.name == Ei || (i.name != Reti && s.imeScheduled))
      && (t.ime <==> i.name == Reti || (i.name != Di && s.ime))
      && (t.halt <==> s.halt || i.name == Halt)
      && (CleanF(s) ==> CleanF(t))
  {
    hide Return;
    ReturnKeeps(s);
  }

  /** What executing any defined opcode does, in any state: the ticks that its
      encoding and the branch condition determine, and to the flags that
      steer the run loop exactly what EI, DI, RETI and HALT are for. */
  lemma ExecuteEffect(s: State)
    requires Defined(NextOpcode(s))
    ensures var op, t := NextOpcode(s), Execute(s);
      var n := Decode(op).name;
      && t.clock == s.clock + InstructionTicks(op, Taken(op, F(s)), CbByte(s))
      && (t.imeScheduled <==> n == Ei)
      && (t.ime <==> n == Reti || (n != Di && (s.ime || s.imeScheduled)))
      && (t.halt <==> s.halt || n == Halt)
      && (CleanF(s) ==> CleanF(t))
  {
    hide Decode, FetchByte, Handle, HandlerTicks, Effects.FetchTicks, FetchAddress, FetchData, FirstReg, SecondReg,
      CbTicks;
    var (t, op) := FetchByte(s);
    assert op == NextOpcode(s) by { FetchByteIsNext(s); }
    FetchByteKeeps(s);
    FetchKeeps(t, op);
    FetchedIsWellFormed(t, op);
    var (u, i) := FetchInstruction(t, op);
    if i.name in {Di, Ei, Halt, Reti} {
      HandleSpecial(u, i);
      assert i.operand == NoOperand;
      FetchPlain(t, op);
    } else {
      HandleKeeps(u, i);
      if i.name == Cb {
        FetchPlain(t, op);
      }
    }
  }
}
