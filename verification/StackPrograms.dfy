/** Well-nested use of the stack: PUSH/POP, CALL or RST/RET, and interrupts
    with RETI, to any depth and in any order. */
module StackPrograms {
  import opened Words
  import opened MachineState
  import opened TimerModel
  import opened TimerBatch
  import opened Opcodes
  import opened Fetch
  import opened Instructions
  import opened Runs
  import Bus

  // ----- the stack instructions, by opcode -----

  /** PUSH and POP with pair code p: BC, DE, HL, AF. */
  predicate IsPush(s: State, p: nat) { !s.halt && p < 4 && NextOpcode(s) == 0xC5 + 0x10 * p }
  predicate IsPop(s: State, p: nat) { !s.halt && p < 4 && NextOpcode(s) == 0xC1 + 0x10 * p }

  predicate IsRst(s: State) { !s.halt && NextOpcode(s) >= 0xC0 && NextOpcode(s) % 8 == 7 }

  predicate IsTakenCall(s: State) {
    var op := NextOpcode(s);
    !s.halt && (op == 0xCD || (op in {0xC4, 0xCC, 0xD4, 0xDC} && Condition(F(s), Y(op) % 4)))
  }

  predicate IsTakenRet(s: State) {
    var op := NextOpcode(s);
    !s.halt && (op == 0xC9 || (op in {0xC0, 0xC8, 0xD0, 0xD8} && Condition(F(s), Y(op) % 4)))
  }

  predicate IsReti(s: State) { !s.halt && NextOpcode(s) == 0xD9 }

  /** The address of the instruction after a call. */
  function ReturnAddress(s: State): u16 { (s.pc + if IsRst(s) then 1 else 3) % 0x10000 }

  function Pair(s: State, p: nat): u16
    requires p < 4
  {
    ReadReg16(s, PairReg(p))
  }

  lemma FetchWordFrame(s: State)
    ensures var t := FetchWord(s).0;
      t.r == s.r && t.sp == s.sp && t.mem == s.mem && t.halt == s.halt && t.pc == (s.pc + 2) % 0x10000
  {
    hide FetchByte;
    FetchByteFrame(s);
    FetchByteFrame(FetchByte(s).0);
  }

  /** Effect of a push at stack level, as far as a caller can see it. */
  predicate Pushed(s: State, t: State, w: u16) {
    && s.sp >= 2 && t.sp == s.sp - 2 && t.r == s.r && t.halt == s.halt
    && t.mem == s.mem[s.sp - 1 := Msb(w)][s.sp - 2 := Lsb(w)]
  }

  predicate Popped(s: State, t: State, w: u16) {
    && s.sp + 2 < 0x10000 && t.sp == s.sp + 2 && t.halt == s.halt && t.mem == s.mem
    && w == Word(s.mem[s.sp + 1], s.mem[s.sp])
  }

  predicate CanPop(s: State) { s.sp + 2 < 0x10000 && Bus.Ram(s.sp) && Bus.Ram(s.sp + 1) }

  lemma Push16AfterTick(s: State, w: u16)
    requires Bus.Room(s, 2)
    ensures Pushed(s, Bus.Push16(Tick(s), w), w)
  {
    hide TimerTicks, Bus.Push16;
    Bus.TickKeeps(s);
    Bus.PushEffect(Tick(s), w);
    TickNState(Tick(s), 2);
  }

  lemma Pop16Frame(s: State)
    requires CanPop(s)
    ensures var (t, w) := Bus.Pop16(s); Popped(s, t, w) && t.r == s.r
  {
    hide TimerTicks, Bus.Pop16;
    Bus.PopEffect(s);
    TickNState(s, 2);
  }

  /** Handling a stack instruction is its effect. */
  lemma HandleStack(s: State, i: Instr)
    requires WellFormed(i)
    ensures i.name == Push ==> Handle(s, i) == PushReg(s, i)
    ensures i.name == Pop ==> Handle(s, i) == PopReg(s, i)
    ensures i.name == Call ==> Handle(s, i) == CallTo(s, i)
    ensures i.name == Rst ==> Handle(s, i) == Restart(s, i)
    ensures i.name == Ret ==> Handle(s, i) == ReturnIf(s, i)
    ensures i.name == Reti ==> Handle(s, i) == Return(s).(ime := true)
  {
    hide PushReg, PopReg, CallTo, Restart, ReturnIf, Return;
  }

  lemma PushEntry(p: nat)
    requires p < 4
    ensures Decode(0xC5 + 0x10 * p) == Entry(Push, R16, 4, 0) && Decode(0xC1 + 0x10 * p) == Entry(Pop, R16, 3, 0)
    ensures P(0xC5 + 0x10 * p) == p == P(0xC1 + 0x10 * p)
  {
    if p == 0 {} else if p == 1 {} else if p == 2 {} else {}
  }

  lemma ExecutePush(s: State, p: nat)
    requires IsPush(s, p) && Bus.Room(s, 2)
    ensures CanStep(s) && Pushed(s, Execute(s), Pair(s, p))
  {
    PushEntry(p);
    hide Execute, NextOpcode, Handle, WellFormed, Decode, FetchByte, FetchInstruction, Bus.Push16, TimerTicks;
    FetchByteFrame(s);
    var t := FetchByte(s).0;
    FetchPlain(t, NextOpcode(s));
    ExecuteInParts(s);
    var (u, i) := FetchInstruction(t, NextOpcode(s));
    HandleStack(u, i);
    Push16AfterTick(t, Pair(t, p));
  }

  /** Loading pair p and clearing F's unused bits. */
  lemma LoadPair(s: State, p: nat, w: u16)
    requires p < 4
    ensures var u := WriteReg16(s, PairReg(p), w);
      var t := SetF(u, DropNibble(F(u)));
      && t == s.(r := t.r)
      && Pair(t, p) == (if p == 3 then DropNibble(w) else w)
      && (forall q :: 0 <= q < 3 && q != p ==> Pair(t, q) == Pair(s, q))
      && (p != 3 ==> Pair(t, 3) == DropNibble(Pair(s, 3)))
  {
    hide DropNibble, Msb, Lsb, Word;
    WordOfBytes(w);
    LowNibble(s.r[REG_A], s.r[REG_F]);
    LowNibble(Msb(w), Lsb(w));
    if p == 0 {} else if p == 1 {} else if p == 2 {} else {}
  }

  lemma WordOfBytes(w: u16)
    ensures Word(Msb(w), Lsb(w)) == w
  {
  }

  lemma LowNibble(hi: u8, lo: u8)
    ensures Word(hi, DropNibble(lo)) == DropNibble(Word(hi, lo))
  {
  }

  /** POP pair p: the popped word, F's unused bits cleared. */
  lemma ExecutePop(s: State, p: nat)
    requires IsPop(s, p) && CanPop(s)
    ensures CanStep(s)
    ensures var t, w := Execute(s), Word(s.mem[s.sp + 1], s.mem[s.sp]);
      && Popped(s, t, w)
      && Pair(t, p) == (if p == 3 then DropNibble(w) else w)
      && (forall q :: 0 <= q < 3 && q != p ==> Pair(t, q) == Pair(s, q))
      && (p != 3 ==> Pair(t, 3) == DropNibble(Pair(s, 3)))
  {
    PushEntry(p);
    hide Execute, NextOpcode, Handle, Decode, FetchByte, FetchInstruction, Bus.Pop16, WriteReg16, ReadReg16, SetF;
    FetchByteFrame(s);
    var t := FetchByte(s).0;
    FetchPlain(t, NextOpcode(s));
    ExecuteInParts(s);
    HandleStack(t, FetchInstruction(t, NextOpcode(s)).1);
    Pop16Frame(t);
    var (u, w) := Bus.Pop16(t);
    LoadPair(u, p, w);
    SamePairs(s, u);
  }

  lemma SamePairs(s: State, t: State)
    requires s.r == t.r
    ensures forall p :: 0 <= p < 4 ==> Pair(s, p) == Pair(t, p)
  {
  }

  lemma CallEntry(op: u8)
    ensures op == 0xCD ==> Decode(op) == Entry(Call, A16, 6, 0)
    ensures op in {0xC4, 0xCC, 0xD4, 0xDC} ==> Decode(op) == Entry(Call, FlagA16, 6, 3)
    ensures op >= 0xC0 && op % 8 == 7 ==> Decode(op) == Entry(Rst, Vec, 4, 0)
  {
  }

  /** CALL and RST: the return address on the stack, nothing else but PC. */
  lemma ExecuteCall(s: State)
    requires (IsTakenCall(s) || IsRst(s)) && Bus.Room(s, 2)
    ensures CanStep(s) && Pushed(s, Execute(s), ReturnAddress(s))
  {
    hide Execute, Pushed, NextOpcode, Condition, Bus.Room;
    if IsRst(s) {
      ExecuteRst(s);
    } else {
      ExecuteTakenCall(s);
    }
  }

  lemma ExecuteRst(s: State)
    requires IsRst(s) && Bus.Room(s, 2)
    ensures CanStep(s) && Pushed(s, Execute(s), ReturnAddress(s))
  {
    hide Execute, Handle, FetchByte, FetchInstruction, WellFormed, Bus.Push16, TimerTicks, Decode, NextOpcode, Pushed,
      Advance, PushReg, PopReg, CallTo, ReturnIf, Return;
    CallEntry(NextOpcode(s));
    FetchByteFrame(s);
    var t := FetchByte(s).0;
    FetchPlain(t, NextOpcode(s));
    ExecuteInParts(s);
    var (u, i) := FetchInstruction(t, NextOpcode(s));
    HandleStack(u, i);
    PushFromFetch(s, u, i.data);
  }

  /** The entry of a call that is taken, and that it is no RST. */
  lemma TakenCallEntry(s: State)
    requires IsTakenCall(s)
    ensures var e := Decode(NextOpcode(s));
      && Defined(NextOpcode(s)) && !IsRst(s) && e.name == Call && e.operand in {A16, FlagA16}
      && (e.operand == A16 || Condition(F(s), Y(NextOpcode(s)) % 4))
  {
    hide Decode, NextOpcode, Condition, Y;
    CallEntry(NextOpcode(s));
  }

  /** What fetching a call that is taken leaves. */
  lemma CallFetches(s: State)
    requires IsTakenCall(s)
    ensures var (u, i) := FetchInstruction(FetchByte(s).0, NextOpcode(s));
      && i.name == Call && i.condition
      && u.r == s.r && u.sp == s.sp && u.mem == s.mem && u.halt == s.halt && u.pc == (s.pc + 3) % 0x10000
  {
    hide FetchByte, FetchWord, FetchInstruction, Condition, Decode, Y, NextOpcode, Defined, Advance, IsTakenCall, IsRst;
    TakenCallEntry(s);
    FetchByteFrame(s);
    var t := FetchByte(s).0;
    FetchCallTarget(t, NextOpcode(s));
    FetchWordFrame(t);
    ThreeOn(s.pc);
  }

  lemma CallExecutes(s: State) returns (u: State, pc: u16)
    requires IsTakenCall(s)
    ensures CanStep(s) && Execute(s) == Bus.Push16(Tick(u), u.pc).(pc := pc)
    ensures u.r == s.r && u.sp == s.sp && u.mem == s.mem && u.halt == s.halt && u.pc == (s.pc + 3) % 0x10000
  {
    hide Execute, Handle, FetchByte, FetchInstruction, WellFormed, Bus.Push16, TimerTicks, Decode, NextOpcode, Defined,
      PushReg, PopReg, Restart, ReturnIf, Return, CallTo, IsTakenCall, IsRst;
    TakenCallEntry(s);
    CallFetches(s);
    ExecuteInParts(s);
    var i := FetchInstruction(FetchByte(s).0, NextOpcode(s)).1;
    u := FetchInstruction(FetchByte(s).0, NextOpcode(s)).0;
    pc := i.address;
    HandleStack(u, i);
    CallTaken(u, i);
  }

  lemma CallTaken(s: State, i: Instr)
    requires i.condition
    ensures CallTo(s, i) == Bus.Push16(Tick(s), s.pc).(pc := i.address)
  {
  }

  lemma ExecuteTakenCall(s: State)
    requires IsTakenCall(s) && Bus.Room(s, 2)
    ensures CanStep(s) && !IsRst(s) && Pushed(s, Execute(s), (s.pc + 3) % 0x10000)
  {
    hide Execute, IsTakenCall, IsRst, CanStep, Pushed, Bus.Room, Bus.Push16, TimerTicks;
    TakenCallEntry(s);
    var u, pc := CallExecutes(s);
    PushFromFetch(s, u, pc);
  }

  /** A push after operands were fetched is a push from where they were not. */
  lemma PushFromFetch(s: State, u: State, pc: u16)
    requires Bus.Room(s, 2) && u.r == s.r && u.sp == s.sp && u.mem == s.mem && u.halt == s.halt
    ensures Pushed(s, Bus.Push16(Tick(u), u.pc).(pc := pc), u.pc)
  {
    hide TimerTicks, Bus.Push16;
    Push16AfterTick(u, u.pc);
  }

  lemma ThreeOn(pc: u16)
    ensures ((pc + 1) % 0x10000 + 2) % 0x10000 == (pc + 3) % 0x10000
  {
  }

  lemma ReturnFrame(s: State)
    requires CanPop(s)
    ensures var t := Return(s); Popped(s, t, t.pc) && t.r == s.r
  {
    hide TimerTicks, Bus.Pop16;
    Pop16Frame(s);
    Bus.TickKeeps(Bus.Pop16(s).0);
  }

  lemma ReturnEntry(op: u8)
    ensures op == 0xC9 ==> Decode(op) == Entry(Ret, NoOperand, 4, 0)
    ensures op == 0xD9 ==> Decode(op) == Entry(Reti, NoOperand, 4, 0)
    ensures op in {0xC0, 0xC8, 0xD0, 0xD8} ==> Decode(op) == Entry(Ret, Flag, 5, 2)
  {
  }

  lemma ReturnsAsCoded(s: State)
    requires IsTakenRet(s) || IsReti(s)
    ensures CanStep(s)
    ensures var t := FetchByte(s).0;
      Execute(s) == if IsReti(s) then Return(t).(ime := true)
                    else if NextOpcode(s) == 0xC9 then Return(t) else Return(Tick(t))
  {
    hide Execute, NextOpcode, Handle, FetchByte, FetchInstruction, WellFormed, Return, TimerTicks, Condition, Decode, Y;
    FetchByteFrame(s);
    ReturnEntry(NextOpcode(s));
    var t := FetchByte(s).0;
    FetchPlain(t, NextOpcode(s));
    ExecuteInParts(s);
    HandleStack(t, FetchInstruction(t, NextOpcode(s)).1);
  }

  /** RET, taken RET cc and RETI: PC from the stack. */
  lemma ExecuteReturn(s: State)
    requires (IsTakenRet(s) || IsReti(s)) && CanPop(s)
    ensures CanStep(s)
    ensures var t := Execute(s); Popped(s, t, t.pc) && t.r == s.r && (IsReti(s) ==> t.ime)
  {
    hide FetchByte, Execute, Return, TimerTicks, Condition, NextOpcode;
    ReturnsAsCoded(s);
    FetchByteFrame(s);
    var t := FetchByte(s).0;
    Bus.TickKeeps(t);
    ReturnFrame(t);
    ReturnFrame(Tick(t));
  }
}
