/** Well-nested programs: SP, the stack above it, return addresses and saved
    registers come back, whatever happens in between.  The stack is the memory
    from SP up to an address top; what lies beyond, code may write. */
module Nesting {
  import opened Words
  import opened MachineState
  import opened Fetch
  import opened Opcodes
  import opened Instructions
  import opened Interrupts
  import opened Effects
  import opened Runs
  import opened StackPrograms
  import Bus

  /** The nesting of a stretch of execution, in half passes of the run loop.
      Quiet: an instruction (or halted tick) that leaves SP and the stack
      alone.  Idle: `handle_interrupts` without a dispatch.  The bracketed
      forms open and close a stack frame around a body. */
  datatype Nest =
    | Done
    | Quiet(rest: Nest)
    | Idle(rest: Nest)
    | PushPop(p: nat, body: Nest, q: nat, rest: Nest)
    | CallReturn(body: Nest, rest: Nest)
    | Interrupt(body: Nest, rest: Nest)

  predicate WillDispatch(s: State) { s.ime && PendingList(s) != [] }

  ghost predicate IsQuiet(s: State, top: nat) {
    CanStep(s) && Half(s).sp == s.sp && Bus.SameBetween(s, Half(s), s.sp, top)
  }

  /** A return is the next instruction. */
  predicate Returns(s: State) { (IsTakenRet(s) || IsReti(s)) && Defined(NextOpcode(s)) }

  /** The state after the stretch, if execution from s is nested as t says. */
  ghost function After(s: State, t: Nest, top: nat): Option<State>
    decreases t
  {
    match t
    case Done => Some(s)
    case Quiet(rest) => if IsQuiet(s, top) then After(Half(s), rest, top) else None
    case Idle(rest) => if WillDispatch(s) then None else After(HandleInterrupts(s), rest, top)
    case PushPop(p, body, q, rest) =>
      if !(IsPush(s, p) && Defined(NextOpcode(s))) then None
      else (match After(Execute(s), body, top)
        case None => None
        case Some(m) => if IsPop(m, q) && Defined(NextOpcode(m)) then After(Execute(m), rest, top) else None)
    case CallReturn(body, rest) =>
      if !((IsTakenCall(s) || IsRst(s)) && Defined(NextOpcode(s))) then None
      else (match After(Execute(s), body, top)
        case None => None
        case Some(m) => if Returns(m) then After(Execute(m), rest, top) else None)
    case Interrupt(body, rest) =>
      if !WillDispatch(s) then None
      else (match After(HandleInterrupts(s), body, top)
        case None => None
        case Some(m) => if Returns(m) then After(Execute(m), rest, top) else None)
  }

  function Max(a: nat, b: nat): nat { if a < b then b else a }

  /** Bytes of stack the stretch needs. */
  function Bytes(t: Nest): nat {
    match t
    case Done => 0
    case Quiet(rest) => Bytes(rest)
    case Idle(rest) => Bytes(rest)
    case PushPop(_, body, _, rest) => Max(2 + Bytes(body), Bytes(rest))
    case CallReturn(body, rest) => Max(2 + Bytes(body), Bytes(rest))
    case Interrupt(body, rest) => Max(2 + Bytes(body), Bytes(rest))
  }

  lemma IdleFrame(s: State)
    requires !WillDispatch(s)
    ensures var t := HandleInterrupts(s); t.r == s.r && t.sp == s.sp && t.mem == s.mem && t.pc == s.pc
  {
    hide PendingList;
  }

  lemma DispatchFrame(s: State)
    requires WillDispatch(s) && Bus.Room(s, 2)
    ensures var t := HandleInterrupts(s);
      Pushed(s.(halt := false), t, s.pc) && t.pc == Vector(PendingList(s)[0]) && t.ime
  {
    hide Dispatch, PendingList;
    var v := s.(halt := false);
    assert Bus.Room(v, 2);
    DispatchEffect(v, PendingList(s)[0]);
  }

  /** After a push, the frame's own two bytes are what a later pop reads, as
      long as SP and everything from it up has come back. */
  lemma FrameCloses(s: State, inner: State, m: State, w: u16, top: nat)
    requires Bus.Room(s, 2) && Pushed(s, inner, w) && s.sp <= top
    requires m.sp == inner.sp && Bus.SameBetween(inner, m, inner.sp, top)
    ensures CanPop(m) && Word(m.mem[m.sp + 1], m.mem[m.sp]) == w
    ensures forall u: State, x :: Popped(m, u, x) ==> x == w && u.sp == s.sp && Bus.SameBetween(s, u, s.sp, top)
  {
    assert m.mem[m.sp] == inner.mem[m.sp] && m.mem[m.sp + 1] == inner.mem[m.sp + 1];
  }

  lemma RoomInside(s: State, inner: State, w: u16, k: nat)
    requires Bus.Room(s, 2 + k) && Pushed(s, inner, w)
    ensures Bus.Room(s, 2) && Bus.Room(inner, k) && inner.sp <= s.sp && inner.r == s.r
  {
  }

  lemma RoomAgain(s: State, t: State, k: nat, l: nat)
    requires Bus.Room(s, k) && l <= k && t.sp == s.sp
    ensures Bus.Room(t, l)
  {
  }

  /** Every well-nested stretch restores SP and touches no byte of the stack
      from it up. */
  lemma {:induction false} NestIsBalanced(s: State, t: Nest, top: nat)
    requires After(s, t, top).Some? && Bus.Room(s, Bytes(t)) && s.sp <= top
    ensures var e := After(s, t, top).value; e.sp == s.sp && Bus.SameBetween(s, e, s.sp, top)
    decreases t, 0
  {
    hide Execute, HandleInterrupts, Half, CanStep, NextOpcode, Bus.Room, WillDispatch, Pushed, Popped,
      IsTakenRet, IsReti, IsPush, IsPop, IsTakenCall, IsRst;
    match t
    case Done =>
    case Quiet(rest) =>
      RoomAgain(s, Half(s), Bytes(t), Bytes(rest));
      NestIsBalanced(Half(s), rest, top);
    case Idle(rest) =>
      IdleFrame(s);
      RoomAgain(s, HandleInterrupts(s), Bytes(t), Bytes(rest));
      NestIsBalanced(HandleInterrupts(s), rest, top);
    case PushPop(p, body, q, rest) =>
      RoomAgain(s, s, Bytes(t), 2 + Bytes(body));
      PushPopCloses(s, p, body, q, top);
      RestIsBalanced(s, Execute(After(Execute(s), body, top).value), rest, Bytes(t), top);
    case CallReturn(body, rest) =>
      RoomAgain(s, s, Bytes(t), 2 + Bytes(body));
      CallReturnCloses(s, body, top);
      RestIsBalanced(s, Execute(After(Execute(s), body, top).value), rest, Bytes(t), top);
    case Interrupt(body, rest) =>
      RoomAgain(s, s, Bytes(t), 2 + Bytes(body));
      InterruptCloses(s, body, top);
      RestIsBalanced(s, Execute(After(HandleInterrupts(s), body, top).value), rest, Bytes(t), top);
  }

  /** What follows a closed frame. */
  lemma {:induction false} RestIsBalanced(s: State, u: State, rest: Nest, room: nat, top: nat)
    requires After(u, rest, top).Some? && Bus.Room(s, room) && Bytes(rest) <= room && s.sp <= top
    requires u.sp == s.sp && Bus.SameBetween(s, u, s.sp, top)
    ensures var e := After(u, rest, top).value; e.sp == s.sp && Bus.SameBetween(s, e, s.sp, top)
    decreases rest, 1
  {
    hide After, Bus.Room;
    RoomAgain(s, u, room, Bytes(rest));
    NestIsBalanced(u, rest, top);
  }

  /** PUSH p, any balanced body, POP q: SP and the stack are back, and pair q
      holds what pair p held (less F's unused bits if q is AF). */
  lemma {:induction false} PushPopCloses(s: State, p: nat, body: Nest, q: nat, top: nat)
    requires IsPush(s, p) && Defined(NextOpcode(s)) && Bus.Room(s, 2 + Bytes(body)) && s.sp <= top
    requires After(Execute(s), body, top).Some?
    requires var m := After(Execute(s), body, top).value; IsPop(m, q) && Defined(NextOpcode(m))
    ensures var m := After(Execute(s), body, top).value;
      var e := Execute(m);
      && e.sp == s.sp && Bus.SameBetween(s, e, s.sp, top)
      && Pair(e, q) == (if q == 3 then DropNibble(Pair(s, p)) else Pair(s, p))
      && (forall x :: 0 <= x < 3 && x != q ==> Pair(e, x) == Pair(m, x))
      && (q != 3 ==> Pair(e, 3) == DropNibble(Pair(m, 3)))
    decreases body, 1
  {
    hide Execute, Defined, NextOpcode, IsPush, IsPop, Bus.Room, Pushed, Popped, After, ReadReg16;
    RoomAgain(s, s, 2 + Bytes(body), 2);
    ExecutePush(s, p);
    RoomInside(s, Execute(s), Pair(s, p), Bytes(body));
    NestIsBalanced(Execute(s), body, top);
    var m := After(Execute(s), body, top).value;
    FrameCloses(s, Execute(s), m, Pair(s, p), top);
    ExecutePop(m, q);
  }

  /** CALL or RST, any balanced body, a return: execution resumes just after
      the call with SP and the stack as they were. */
  lemma {:induction false} CallReturnCloses(s: State, body: Nest, top: nat)
    requires (IsTakenCall(s) || IsRst(s)) && Defined(NextOpcode(s)) && Bus.Room(s, 2 + Bytes(body)) && s.sp <= top
    requires After(Execute(s), body, top).Some?
    requires var m := After(Execute(s), body, top).value; Returns(m)
    ensures var m := After(Execute(s), body, top).value;
      var e := Execute(m);
      e.pc == ReturnAddress(s) && e.sp == s.sp && e.r == m.r && Bus.SameBetween(s, e, s.sp, top)
    decreases body, 1
  {
    hide Execute, Defined, NextOpcode, IsTakenCall, IsRst, IsTakenRet, IsReti, Bus.Room, Pushed, Popped, After,
      ReturnAddress;
    RoomAgain(s, s, 2 + Bytes(body), 2);
    ExecuteCall(s);
    RoomInside(s, Execute(s), ReturnAddress(s), Bytes(body));
    NestIsBalanced(Execute(s), body, top);
    var m := After(Execute(s), body, top).value;
    FrameCloses(s, Execute(s), m, ReturnAddress(s), top);
    ExecuteReturn(m);
  }

  /** A dispatch, any balanced handler, RETI: the interrupted PC, SP and stack
      are back, IME is set, and the registers are as the handler leaves them. */
  lemma {:induction false} InterruptCloses(s: State, body: Nest, top: nat)
    requires WillDispatch(s) && Bus.Room(s, 2 + Bytes(body)) && s.sp <= top
    requires After(HandleInterrupts(s), body, top).Some?
    requires var m := After(HandleInterrupts(s), body, top).value; Returns(m)
    ensures var m := After(HandleInterrupts(s), body, top).value;
      var e := Execute(m);
      && e.pc == s.pc && e.sp == s.sp && e.r == m.r && Bus.SameBetween(s, e, s.sp, top)
      && (IsReti(m) ==> e.ime)
      && HandleInterrupts(s).r == s.r
    decreases body, 1
  {
    hide Execute, Defined, NextOpcode, HandleInterrupts, WillDispatch, IsTakenRet, IsReti, Bus.Room, Popped, After;
    RoomAgain(s, s, 2 + Bytes(body), 2);
    DispatchFrame(s);
    var v := s.(halt := false);
    RoomAgain(s, v, 2 + Bytes(body), 2 + Bytes(body));
    RoomInside(v, HandleInterrupts(s), s.pc, Bytes(body));
    NestIsBalanced(HandleInterrupts(s), body, top);
    var m := After(HandleInterrupts(s), body, top).value;
    FrameCloses(v, HandleInterrupts(s), m, s.pc, top);
    ExecuteReturn(m);
  }

  // ----- what can stand inside -----

  /** Instructions on registers only are quiet in every state. */
  predicate RegisterOnly(op: u8) {
    var e := Decode(op);
    || e.name in {Nop, Ccf, Scf, Daa, Cpl, Rla, Rlca, Rra, Rrca, Adc, Sub, Sbc, And, Or, Xor, Cp}
    || (e.name == Add && e.operand != SpS8)
  }

  lemma FetchForArithmetic(s: State, op: u8)
    requires Decode(op).operand in {NoOperand, AR8, AD8, AHlRel, HlR16}
    ensures var t := FetchInstruction(s, op).0; t.sp == s.sp && t.mem == s.mem
  {
    hide Decode, FirstReg, SecondReg, Bus.Read;
    Bus.TickKeeps(s);
  }

  lemma RegisterOnlyIsQuiet(s: State, top: nat)
    requires !s.halt && Defined(NextOpcode(s)) && RegisterOnly(NextOpcode(s))
    ensures IsQuiet(s, top)
  {
    hide Decode, FetchInstruction, FetchByte, Handle, Execute, NextOpcode;
    var t, op := FetchByte(s).0, NextOpcode(s);
    FetchByteFrame(s);
    DecodedFits(op);
    FetchForArithmetic(t, op);
    ExecuteInParts(s);
    var (u, i) := FetchInstruction(t, op);
    assert i.name == Decode(op).name && i.operand == Decode(op).operand by { SameEntry(t, op); }
    RegisterOnlyKeeps(u, i);
  }

  lemma SameEntry(s: State, op: u8)
    ensures var i := FetchInstruction(s, op).1; i.name == Decode(op).name && i.operand == Decode(op).operand
  {
    hide Decode;
  }

  lemma HighStoreEntry(op: u8)
    requires op == 0xE0 || op == 0xE2
    ensures Decode(op) == (if op == 0xE0 then Entry(Ldh, D8RelA, 3, 0) else Entry(Ldh, CRelA, 2, 0))
    ensures FirstReg(op) == REG_A
  {
  }

  lemma FetchHighStore(s: State, op: u8)
    requires op == 0xE0 || op == 0xE2
    ensures var (t, i) := FetchInstruction(s, op);
      && i.name == Ldh && i.operand !in {ACRel, AD8Rel} && WellFormed(i)
      && i.address >= 0xFF00 && t.sp == s.sp && t.mem == s.mem
  {
    hide FetchByte, Decode, Condition, FirstReg, SecondReg;
    HighStoreEntry(op);
    FetchByteFrame(s);
  }

  lemma WriteKeepsOthers(s: State, a: u16, v: u8, b: nat)
    requires b < 0x10000 && a != b
    ensures Bus.Write(s, a, v).mem[b] == s.mem[b]
  {
  }

  lemma HandleHighStore(s: State, i: Instr)
    requires i.name == Ldh && i.operand !in {ACRel, AD8Rel} && WellFormed(i)
    ensures Handle(s, i) == Bus.Write(s, i.address, A(s))
  {
    hide Bus.Write;
  }

  /** Stores to the I/O page and high RAM are quiet if the stack lies below. */
  lemma HighStoreIsQuiet(s: State, top: nat)
    requires !s.halt && (NextOpcode(s) == 0xE0 || NextOpcode(s) == 0xE2) && top <= 0xFF00
    ensures IsQuiet(s, top)
  {
    hide FetchInstruction, FetchByte, Handle, WellFormed, Execute, NextOpcode, Bus.Write;
    assert Defined(0xE0) && Defined(0xE2);
    var t, op := FetchByte(s).0, NextOpcode(s);
    FetchByteFrame(s);
    FetchHighStore(t, op);
    ExecuteInParts(s);
    var (u, i) := FetchInstruction(t, op);
    HandleHighStore(u, i);
    forall b | s.sp <= b < top && b < 0x10000
      ensures Half(s).mem[b] == s.mem[b]
    {
      WriteKeepsOthers(u, i.address, A(u), b);
    }
  }
}
