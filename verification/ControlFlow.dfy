/** Jumps, calls and returns by opcode: when they are taken, where they lead,
    and what the whole state is afterwards.  (src/cpu/instruction.c) */
module ControlFlow {
  import opened Words
  import opened MachineState
  import opened TimerModel
  import opened Opcodes
  import opened Fetch
  import opened Instructions
  import opened Encoded
  import Bus

  /** What the condition codes NZ, Z, NC and C ask of F. */
  lemma ConditionByBits(f: u8)
    ensures Condition(f, 0) <==> f / 0x80 % 2 == 0
    ensures Condition(f, 1) <==> f / 0x80 % 2 == 1
    ensures Condition(f, 2) <==> f / 0x10 % 2 == 0
    ensures Condition(f, 3) <==> f / 0x10 % 2 == 1
  {
  }

  /** The condition of a conditional jump, call or return, by opcode. */
  lemma TakenByBits(op: u8, f: u8)
    ensures op in {0x20, 0xC2, 0xC4, 0xC0} ==> (Condition(f, op / 8 % 4) <==> f / 0x80 % 2 == 0)
    ensures op in {0x28, 0xCA, 0xCC, 0xC8} ==> (Condition(f, op / 8 % 4) <==> f / 0x80 % 2 == 1)
    ensures op in {0x30, 0xD2, 0xD4, 0xD0} ==> (Condition(f, op / 8 % 4) <==> f / 0x10 % 2 == 0)
    ensures op in {0x38, 0xDA, 0xDC, 0xD8} ==> (Condition(f, op / 8 % 4) <==> f / 0x10 % 2 == 1)
  {
    hide Condition;
    ConditionByBits(f);
  }

  /** Handling an instruction that moves PC. */
  lemma HandleRelative(s: State, i: Instr)
    requires WellFormed(i) && i.name == Jr
    ensures i.data < 0x100
    ensures !i.condition ==> Handle(s, i) == s
    ensures i.condition ==>
      Handle(s, i) == Tick(s).(pc := (s.pc + if i.data < 0x80 then i.data else i.data - 0x100) % 0x10000)
  {
    hide TimerTicks;
  }

  lemma HandleJump(s: State, i: Instr)
    requires WellFormed(i) && i.name == Jp
    ensures Handle(s, i) == if i.condition then Tick(s).(pc := i.address) else s
  {
    hide TimerTicks;
  }

  lemma HandleCall(s: State, i: Instr)
    requires WellFormed(i) && i.name == Call
    ensures Handle(s, i) == if i.condition then Bus.Push16(Tick(s), s.pc).(pc := i.address) else s
  {
    hide TimerTicks, Bus.Push16;
  }

  lemma HandleRestart(s: State, i: Instr)
    requires WellFormed(i) && i.name == Rst
    ensures Handle(s, i) == Bus.Push16(Tick(s), s.pc).(pc := i.data)
  {
    hide TimerTicks, Bus.Push16;
  }

  lemma HandleReturn(s: State, i: Instr)
    requires WellFormed(i) && i.name in {Ret, Reti}
    ensures i.name == Reti ==> Handle(s, i) == Return(s).(ime := true)
    ensures i.name == Ret ==>
      var t := if i.operand == NoOperand then s else Tick(s);
      Handle(s, i) == if i.condition then Return(t) else t
  {
    hide TimerTicks, Return;
  }

  // ----- relative jumps -----

  lemma RelativeEntry(op: u8)
    ensures op == 0x18 ==> Decode(op) == Entry(Jr, S8, 3, 0)
    ensures op in {0x20, 0x28, 0x30, 0x38} ==> Decode(op) == Entry(Jr, FlagS8, 3, 2)
  {
  }

  lemma RelativeFetched(s: State) returns (i: Instr)
    requires NextOpcode(s) in {0x18, 0x20, 0x28, 0x30, 0x38}
    ensures Defined(NextOpcode(s)) && WellFormed(i) && Execute(s) == Handle(Later(s, 2, 2), i)
    ensures i.name == Jr && i.data == Code(s, 2, 1)
    ensures i.condition <==> NextOpcode(s) == 0x18 || Condition(s.r[1], NextOpcode(s) / 8 % 4)
  {
    hide Decode, Handle, FetchInstruction, FetchByte, Condition, FirstReg, SecondReg, Execute, NextOpcode, Later, Code,
      WellFormed;
    var op := NextOpcode(s);
    RelativeEntry(op);
    var u, j := ExecuteAs(s);
    i := j;
    FetchFields(Later(s, 1, 1), op);
    LaterFetch(s, 1, 1);
    LaterKeeps(s, 1, 1);
    assert op / 8 % 8 % 4 == op / 8 % 4;
  }

  /** PC moved by the signed byte e. */
  function Jumped(s: State, e: u8): State { s.(pc := (s.pc + if e < 0x80 then e else e - 0x100) % 0x10000) }

  lemma JumpRelativeAs(s: State)
    requires NextOpcode(s) in {0x18, 0x20, 0x28, 0x30, 0x38}
    ensures Defined(NextOpcode(s))
    ensures Execute(s) ==
      if NextOpcode(s) == 0x18 || Condition(s.r[1], NextOpcode(s) / 8 % 4) then Jumped(Later(s, 3, 2), Code(s, 2, 1))
      else Later(s, 2, 2)
  {
    hide Handle, Condition, Execute, NextOpcode, WellFormed, Defined, Code, TickN, TimerTicks, Later;
    var i := RelativeFetched(s);
    HandleRelative(Later(s, 2, 2), i);
    LaterTick(s, 2, 2);
    LaterKeeps(s, 2, 2);
    LaterKeeps(s, 3, 2);
  }

  /** JR e and JR NZ, Z, NC, C: in three ticks to the next instruction plus the
      signed offset, exactly when Z or C is what the condition asks for; in two
      to the next instruction otherwise. */
  lemma JumpRelativeExact(s: State)
    requires NextOpcode(s) in {0x18, 0x20, 0x28, 0x30, 0x38}
    ensures Defined(NextOpcode(s))
    ensures var op, z, c := NextOpcode(s), s.r[1] / 0x80 % 2, s.r[1] / 0x10 % 2;
      var taken := if op == 0x20 then z == 0 else if op == 0x28 then z == 1
                   else if op == 0x30 then c == 0 else if op == 0x38 then c == 1 else true;
      Execute(s) == if taken then Jumped(TickN(s, 3).(pc := (s.pc + 2) % 0x10000), Code(s, 2, 1))
                    else TickN(s, 2).(pc := (s.pc + 2) % 0x10000)
  {
    hide Condition, Execute, NextOpcode, Defined, Code, TickN, Jumped, Later;
    JumpRelativeAs(s);
    TakenByBits(NextOpcode(s), s.r[1]);
    LaterMeans(s, 3, 2);
    LaterMeans(s, 2, 2);
  }

  // ----- absolute jumps and calls -----

  lemma TargetEntry(op: u8)
    ensures op == 0xC3 ==> Decode(op) == Entry(Jp, A16, 4, 0)
    ensures op == 0xCD ==> Decode(op) == Entry(Call, A16, 6, 0)
    ensures op in {0xC2, 0xCA, 0xD2, 0xDA} ==> Decode(op) == Entry(Jp, FlagA16, 4, 3)
    ensures op in {0xC4, 0xCC, 0xD4, 0xDC} ==> Decode(op) == Entry(Call, FlagA16, 6, 3)
  {
  }

  lemma TargetFetched(s: State) returns (i: Instr)
    requires NextOpcode(s) in {0xC3, 0xC2, 0xCA, 0xD2, 0xDA, 0xCD, 0xC4, 0xCC, 0xD4, 0xDC}
    ensures Defined(NextOpcode(s)) && WellFormed(i) && Execute(s) == Handle(Later(s, 3, 3), i)
    ensures i.name == if NextOpcode(s) in {0xC3, 0xC2, 0xCA, 0xD2, 0xDA} then Jp else Call
    ensures i.address == CodeWord(s, 2, 1)
    ensures i.condition <==> NextOpcode(s) in {0xC3, 0xCD} || Condition(s.r[1], NextOpcode(s) / 8 % 4)
  {
    hide Decode, Handle, FetchInstruction, FetchWord, Condition, FirstReg, SecondReg, Execute, NextOpcode, Later, Code,
      WellFormed;
    var op := NextOpcode(s);
    TargetEntry(op);
    var u, j := ExecuteAs(s);
    i := j;
    FetchFields(Later(s, 1, 1), op);
    LaterFetchWord(s, 1, 1);
    LaterKeeps(s, 1, 1);
    assert op / 8 % 8 % 4 == op / 8 % 4;
  }

  lemma JumpAs(s: State)
    requires NextOpcode(s) in {0xC3, 0xC2, 0xCA, 0xD2, 0xDA}
    ensures Defined(NextOpcode(s))
    ensures Execute(s) ==
      if NextOpcode(s) == 0xC3 || Condition(s.r[1], NextOpcode(s) / 8 % 4) then Later(s, 4, 3).(pc := CodeWord(s, 2, 1))
      else Later(s, 3, 3)
  {
    hide Handle, Condition, Execute, NextOpcode, WellFormed, Defined, Code, TickN, TimerTicks, Later;
    var i := TargetFetched(s);
    HandleJump(Later(s, 3, 3), i);
    LaterTick(s, 3, 3);
  }

  /** JP nn and JP NZ, Z, NC, C: in four ticks to the address after the opcode,
      low byte first; in three to the next instruction if not taken. */
  lemma JumpExact(s: State)
    requires NextOpcode(s) in {0xC3, 0xC2, 0xCA, 0xD2, 0xDA}
    ensures Defined(NextOpcode(s))
    ensures var op, z, c := NextOpcode(s), s.r[1] / 0x80 % 2, s.r[1] / 0x10 % 2;
      var taken := if op == 0xC2 then z == 0 else if op == 0xCA then z == 1
                   else if op == 0xD2 then c == 0 else if op == 0xDA then c == 1 else true;
      Execute(s) == if taken then TickN(s, 4).(pc := CodeWord(s, 2, 1)) else TickN(s, 3).(pc := (s.pc + 3) % 0x10000)
  {
    hide Condition, Execute, NextOpcode, Defined, CodeWord, TickN;
    JumpAs(s);
    TakenByBits(NextOpcode(s), s.r[1]);
  }

  lemma CallAs(s: State, next: u16)
    requires NextOpcode(s) in {0xCD, 0xC4, 0xCC, 0xD4, 0xDC} && next == (s.pc + 3) % 0x10000
    ensures Defined(NextOpcode(s))
    ensures Execute(s) ==
      if NextOpcode(s) == 0xCD || Condition(s.r[1], NextOpcode(s) / 8 % 4) then
        Bus.Push16(Later(s, 4, 3), next).(pc := CodeWord(s, 2, 1))
      else Later(s, 3, 3)
  {
    hide Handle, Condition, Execute, NextOpcode, WellFormed, Defined, Code, TickN, TimerTicks, Bus.Push16, Later;
    var i := TargetFetched(s);
    HandleCall(Later(s, 3, 3), i);
    LaterKeeps(s, 3, 3);
    LaterTick(s, 3, 3);
  }

  /** CALL nn and CALL NZ, Z, NC, C: the address of the next instruction is
      pushed and control goes to the address after the opcode. */
  lemma CallExact(s: State)
    requires NextOpcode(s) in {0xCD, 0xC4, 0xCC, 0xD4, 0xDC}
    ensures Defined(NextOpcode(s))
    ensures var op, z, c, next := NextOpcode(s), s.r[1] / 0x80 % 2, s.r[1] / 0x10 % 2, (s.pc + 3) % 0x10000;
      var taken := if op == 0xC4 then z == 0 else if op == 0xCC then z == 1
                   else if op == 0xD4 then c == 0 else if op == 0xDC then c == 1 else true;
      Execute(s) == if taken then Bus.Push16(TickN(s, 4).(pc := next), next).(pc := CodeWord(s, 2, 1))
                    else TickN(s, 3).(pc := next)
  {
    hide Condition, Execute, NextOpcode, Defined, CodeWord, TickN, Bus.Push16;
    CallAs(s, (s.pc + 3) % 0x10000);
    TakenByBits(NextOpcode(s), s.r[1]);
  }

  lemma PlainEntry(op: u8)
    ensures op == 0xE9 ==> Decode(op) == Entry(Jp, HlRel, 1, 0)
    ensures op == 0xC9 ==> Decode(op) == Entry(Ret, NoOperand, 4, 0)
    ensures op == 0xD9 ==> Decode(op) == Entry(Reti, NoOperand, 4, 0)
    ensures op in {0xC0, 0xC8, 0xD0, 0xD8} ==> Decode(op) == Entry(Ret, Flag, 5, 2)
    ensures op in {0xC7, 0xCF, 0xD7, 0xDF, 0xE7, 0xEF, 0xF7, 0xFF} ==> Decode(op) == Entry(Rst, Vec, 4, 0)
  {
  }

  lemma PlainFetched(s: State) returns (i: Instr)
    requires NextOpcode(s) in
      {0xE9, 0xC9, 0xD9, 0xC0, 0xC8, 0xD0, 0xD8, 0xC7, 0xCF, 0xD7, 0xDF, 0xE7, 0xEF, 0xF7, 0xFF}
    ensures Defined(NextOpcode(s)) && WellFormed(i) && Execute(s) == Handle(Later(s, 1, 1), i)
    ensures var op := NextOpcode(s);
      && i.name == (if op == 0xE9 then Jp else if op == 0xD9 then Reti else if op % 8 == 7 then Rst else Ret)
      && (i.operand == NoOperand <==> op in {0xC9, 0xD9})
      && (i.condition <==> op !in {0xC0, 0xC8, 0xD0, 0xD8} || Condition(s.r[1], op / 8 % 4))
      && (op == 0xE9 ==> i.address == 0x100 * (s.r[6] as int) + s.r[7])
      && (op % 8 == 7 ==> i.data == op / 8 % 8 * 8)
  {
    hide Decode, Handle, FetchInstruction, Condition, FirstReg, SecondReg, Execute, NextOpcode, Later, WellFormed;
    var op := NextOpcode(s);
    PlainEntry(op);
    var u, j := ExecuteAs(s);
    i := j;
    FetchFields(Later(s, 1, 1), op);
    LaterKeeps(s, 1, 1);
    assert op / 8 % 8 % 4 == op / 8 % 4;
  }

  /** JP HL takes two ticks. */
  lemma JumpHlExact(s: State)
    requires NextOpcode(s) == 0xE9
    ensures Defined(NextOpcode(s))
    ensures Execute(s) == TickN(s, 2).(pc := 0x100 * (s.r[6] as int) + s.r[7])
  {
    hide Handle, Condition, Execute, NextOpcode, WellFormed, Defined, TickN, TimerTicks, Decode;
    var i := PlainFetched(s);
    HandleJump(Later(s, 1, 1), i);
    LaterTick(s, 1, 1);
  }

  lemma RestartAs(s: State, next: u16)
    requires NextOpcode(s) in {0xC7, 0xCF, 0xD7, 0xDF, 0xE7, 0xEF, 0xF7, 0xFF} && next == (s.pc + 1) % 0x10000
    ensures Defined(NextOpcode(s))
    ensures Execute(s) == Bus.Push16(TickN(s, 2).(pc := next), next).(pc := NextOpcode(s) / 8 % 8 * 8)
  {
    hide Handle, Condition, Execute, NextOpcode, WellFormed, Defined, TickN, TimerTicks, Bus.Push16, Later;
    var i := PlainFetched(s);
    HandleRestart(Later(s, 1, 1), i);
    LaterKeeps(s, 1, 1);
    LaterTick(s, 1, 1);
    LaterMeans(s, 2, 1);
  }

  lemma VectorOf(op: u8)
    requires op in {0xC7, 0xCF, 0xD7, 0xDF, 0xE7, 0xEF, 0xF7, 0xFF}
    ensures op / 8 % 8 * 8 == op - 0xC7
  {
  }

  /** RST pushes the address of the next instruction and goes to 0x00, 0x08,
      up to 0x38. */
  lemma RestartExact(s: State)
    requires NextOpcode(s) in {0xC7, 0xCF, 0xD7, 0xDF, 0xE7, 0xEF, 0xF7, 0xFF}
    ensures Defined(NextOpcode(s))
    ensures var next := (s.pc + 1) % 0x10000;
      Execute(s) == Bus.Push16(TickN(s, 2).(pc := next), next).(pc := NextOpcode(s) - 0xC7)
  {
    hide Execute, NextOpcode, Defined, TickN, Bus.Push16;
    RestartAs(s, (s.pc + 1) % 0x10000);
    VectorOf(NextOpcode(s));
  }

  lemma ReturnIs(s: State)
    ensures var (t, target) := Bus.Pop16(s); Return(s) == Tick(t).(pc := target)
  {
    hide Bus.Pop16, TimerTicks;
  }

  /** Return, from the state in which the stack is read. */
  function ReturnFrom(s: State, ime: bool): State {
    var (t, target) := Bus.Pop16(s);
    if ime then Tick(t).(pc := target, ime := true) else Tick(t).(pc := target)
  }

  lemma ReturnAs(s: State, op: u8)
    requires NextOpcode(s) == op && op in {0xC9, 0xD9, 0xC0, 0xC8, 0xD0, 0xD8}
    ensures Defined(op)
    ensures op in {0xC9, 0xD9} ==> Execute(s) == ReturnFrom(Later(s, 1, 1), op == 0xD9)
    ensures op !in {0xC9, 0xD9} ==>
      Execute(s) == if Condition(s.r[1], op / 8 % 4) then ReturnFrom(Later(s, 2, 1), false) else Later(s, 2, 1)
  {
    hide Handle, Condition, Execute, NextOpcode, WellFormed, Defined, TickN, TimerTicks, Bus.Pop16, Return, Later;
    var i := PlainFetched(s);
    HandleReturn(Later(s, 1, 1), i);
    ReturnIs(Later(s, 1, 1));
    ReturnIs(Later(s, 2, 1));
    LaterTick(s, 1, 1);
  }

  /** RET, RETI and RET NZ, Z, NC, C: PC from the stack and one tick more; the
      conditional forms spend a tick first, taken or not; RETI sets IME. */
  lemma ReturnExact(s: State)
    requires NextOpcode(s) in {0xC9, 0xD9, 0xC0, 0xC8, 0xD0, 0xD8}
    ensures Defined(NextOpcode(s))
    ensures var op, z, c := NextOpcode(s), s.r[1] / 0x80 % 2, s.r[1] / 0x10 % 2;
      var taken := if op == 0xC0 then z == 0 else if op == 0xC8 then z == 1
                   else if op == 0xD0 then c == 0 else if op == 0xD8 then c == 1 else true;
      var t := TickN(s, if op in {0xC9, 0xD9} then 1 else 2).(pc := (s.pc + 1) % 0x10000);
      Execute(s) == if taken then ReturnFrom(t, op == 0xD9) else t
  {
    hide Condition, Execute, NextOpcode, Defined, TickN, ReturnFrom, Later;
    ReturnAs(s, NextOpcode(s));
    TakenByBits(NextOpcode(s), s.r[1]);
    LaterMeans(s, 1, 1);
    LaterMeans(s, 2, 1);
  }
}
