/** Saving registers: which register pairs a well-nested stretch gives back, and
    interrupts the interrupted code cannot notice. */
module Transparency {
  import opened Words
  import opened MachineState
  import opened Opcodes
  import opened Instructions
  import opened Interrupts
  import opened Effects
  import opened Runs
  import opened RunProperties
  import opened StackPrograms
  import opened Nesting
  import TimerModel
  import Bus

  /** Pairs in ps hold the same words in both states. */
  predicate SamePairsIn(s: State, t: State, ps: set<nat>) {
    forall p :: 0 <= p < 4 && p in ps ==> Pair(s, p) == Pair(t, p)
  }

  /** The stretch saves what it changes, as far as the pairs in ps go: every
      quiet instruction keeps them, except that between PUSH p and the POP p
      that closes it pair p may be put to any use; and a POP into such a pair
      closes a PUSH of the same.  Subroutines and nested interrupts do so too. */
  ghost predicate Preserves(s: State, t: Nest, ps: set<nat>, top: nat)
    requires After(s, t, top).Some?
    decreases t
  {
    match t
    case Done => true
    case Quiet(rest) => SamePairsIn(s, Half(s), ps) && Preserves(Half(s), rest, ps, top)
    case Idle(rest) => Preserves(HandleInterrupts(s), rest, ps, top)
    case PushPop(p, body, q, rest) =>
      && (q in ps ==> p == q)
      && Preserves(Execute(s), body, ps - {q}, top)
      && Preserves(Execute(After(Execute(s), body, top).value), rest, ps, top)
    case CallReturn(body, rest) =>
      && Preserves(Execute(s), body, ps, top)
      && Preserves(Execute(After(Execute(s), body, top).value), rest, ps, top)
    case Interrupt(body, rest) =>
      && Preserves(HandleInterrupts(s), body, ps, top)
      && Preserves(Execute(After(HandleInterrupts(s), body, top).value), rest, ps, top)
  }

  /** Inside brackets around all four pairs anything well nested may stand. */
  lemma {:induction false} NothingToPreserve(s: State, t: Nest, top: nat)
    requires After(s, t, top).Some?
    ensures Preserves(s, t, {}, top)
    decreases t
  {
    hide Execute, HandleInterrupts, Half, CanStep, NextOpcode, WillDispatch, IsTakenRet, IsReti, IsPush, IsPop,
      IsTakenCall, IsRst;
    match t
    case Done =>
    case Quiet(rest) => NothingToPreserve(Half(s), rest, top);
    case Idle(rest) => NothingToPreserve(HandleInterrupts(s), rest, top);
    case PushPop(p, body, q, rest) =>
      NothingToPreserve(Execute(s), body, top);
      NothingToPreserve(Execute(After(Execute(s), body, top).value), rest, top);
      assert {} - {q} == {};
    case CallReturn(body, rest) =>
      NothingToPreserve(Execute(s), body, top);
      NothingToPreserve(Execute(After(Execute(s), body, top).value), rest, top);
    case Interrupt(body, rest) =>
      NothingToPreserve(HandleInterrupts(s), body, top);
      NothingToPreserve(Execute(After(HandleInterrupts(s), body, top).value), rest, top);
  }

  lemma CleanPair(s: State)
    ensures CleanF(s) <==> DropNibble(Pair(s, 3)) == Pair(s, 3)
  {
  }

  lemma ExecuteClean(s: State)
    requires Defined(NextOpcode(s)) && CleanF(s)
    ensures CleanF(Execute(s))
  {
    hide Execute, NextOpcode;
    ExecuteEffect(s);
  }

  lemma HalfClean(s: State)
    requires CanStep(s) && CleanF(s)
    ensures CleanF(Half(s))
  {
    hide Execute, NextOpcode, TimerModel.TimerTicks;
    if s.halt {
      Bus.TickKeeps(s);
    } else {
      ExecuteClean(s);
    }
  }

  /** The unused bits of F stay clear through any stretch. */
  lemma {:induction false} AfterClean(s: State, t: Nest, top: nat)
    requires After(s, t, top).Some? && CleanF(s)
    ensures CleanF(After(s, t, top).value)
    decreases t
  {
    hide Execute, HandleInterrupts, Half, CanStep, NextOpcode, Defined, WillDispatch, IsPush, IsPop, IsTakenCall, IsRst,
      IsTakenRet, IsReti;
    match t
    case Done =>
    case Quiet(rest) =>
      HalfClean(s);
      AfterClean(Half(s), rest, top);
    case Idle(rest) =>
      HandleInterruptsEffect(s);
      AfterClean(HandleInterrupts(s), rest, top);
    case PushPop(p, body, q, rest) =>
      ExecuteClean(s);
      AfterClean(Execute(s), body, top);
      ExecuteClean(After(Execute(s), body, top).value);
      AfterClean(Execute(After(Execute(s), body, top).value), rest, top);
    case CallReturn(body, rest) =>
      ExecuteClean(s);
      AfterClean(Execute(s), body, top);
      ExecuteClean(After(Execute(s), body, top).value);
      AfterClean(Execute(After(Execute(s), body, top).value), rest, top);
    case Interrupt(body, rest) =>
      HandleInterruptsEffect(s);
      AfterClean(HandleInterrupts(s), body, top);
      ExecuteClean(After(HandleInterrupts(s), body, top).value);
      AfterClean(Execute(After(HandleInterrupts(s), body, top).value), rest, top);
  }

  /** PUSH p, body, POP q, as the pairs in ps see it. */
  lemma BracketKeepsPairs(s: State, p: nat, body: Nest, q: nat, ps: set<nat>, top: nat)
    requires IsPush(s, p) && Defined(NextOpcode(s)) && Bus.Room(s, 2 + Bytes(body)) && s.sp <= top && CleanF(s)
    requires After(Execute(s), body, top).Some?
    requires var m := After(Execute(s), body, top).value; IsPop(m, q) && Defined(NextOpcode(m))
    requires q in ps ==> p == q
    requires SamePairsIn(Execute(s), After(Execute(s), body, top).value, ps - {q})
    ensures SamePairsIn(s, Execute(After(Execute(s), body, top).value), ps)
  {
    hide Execute, Defined, NextOpcode, IsPush, IsPop, Bus.Room, Pushed, After, ReadReg16, DropNibble, CleanF;
    RoomAgain(s, s, 2 + Bytes(body), 2);
    PushPopCloses(s, p, body, q, top);
    ExecutePush(s, p);
    RoomInside(s, Execute(s), Pair(s, p), Bytes(body));
    SamePairs(s, Execute(s));
    ExecuteClean(s);
    AfterClean(Execute(s), body, top);
    CleanPair(s);
    CleanPair(After(Execute(s), body, top).value);
  }

  /** The pairs a stretch preserves in this sense come back as they were. */
  lemma {:induction false} PreservedPairsReturn(s: State, t: Nest, ps: set<nat>, top: nat)
    requires After(s, t, top).Some? && Bus.Room(s, Bytes(t)) && s.sp <= top && CleanF(s)
    requires Preserves(s, t, ps, top)
    ensures SamePairsIn(s, After(s, t, top).value, ps)
    decreases t
  {
    hide Execute, HandleInterrupts, Half, CanStep, Defined, NextOpcode, Bus.Room, WillDispatch, Returns, CleanF,
      IsPush, IsPop, IsTakenCall, IsRst, Pair;
    match t
    case Done =>
    case Quiet(rest) =>
      RoomAgain(s, Half(s), Bytes(t), Bytes(rest));
      HalfClean(s);
      PreservedPairsReturn(Half(s), rest, ps, top);
    case Idle(rest) =>
      IdleFrame(s);
      RoomAgain(s, HandleInterrupts(s), Bytes(t), Bytes(rest));
      SameRegistersIn(s, HandleInterrupts(s), ps);
      PreservedPairsReturn(HandleInterrupts(s), rest, ps, top);
    case PushPop(p, body, q, rest) => PushPopPreserves(s, t, ps, top);
    case CallReturn(body, rest) => CallPreserves(s, t, ps, top);
    case Interrupt(body, rest) => InterruptPreserves(s, t, ps, top);
  }

  lemma SameRegistersIn(s: State, t: State, ps: set<nat>)
    requires CleanF(s) && s.r == t.r
    ensures SamePairsIn(s, t, ps) && CleanF(t)
  {
    SamePairs(s, t);
  }

  lemma {:induction false} PushPopPreserves(s: State, t: Nest, ps: set<nat>, top: nat)
    requires t.PushPop? && After(s, t, top).Some? && Bus.Room(s, Bytes(t)) && s.sp <= top && CleanF(s)
    requires Preserves(s, t, ps, top)
    ensures SamePairsIn(s, After(s, t, top).value, ps)
    decreases t, 0
  {
    hide Execute, Defined, NextOpcode, Bus.Room, CleanF, IsPop, ReadReg16, Pushed;
    var (p, body, q, rest) := (t.p, t.body, t.q, t.rest);
    var u := Execute(s);
    var m := After(u, body, top).value;
    RoomAgain(s, s, Bytes(t), 2 + Bytes(body));
    RoomAgain(s, s, Bytes(t), 2);
    ExecutePush(s, p);
    RoomInside(s, u, Pair(s, p), Bytes(body));
    ExecuteClean(s);
    PreservedPairsReturn(u, body, ps - {q}, top);
    BracketKeepsPairs(s, p, body, q, ps, top);
    PushPopCloses(s, p, body, q, top);
    AfterClean(u, body, top);
    ExecuteClean(m);
    RoomAgain(s, Execute(m), Bytes(t), Bytes(rest));
    PreservedPairsReturn(Execute(m), rest, ps, top);
  }

  lemma {:induction false} CallPreserves(s: State, t: Nest, ps: set<nat>, top: nat)
    requires t.CallReturn? && After(s, t, top).Some? && Bus.Room(s, Bytes(t)) && s.sp <= top && CleanF(s)
    requires Preserves(s, t, ps, top)
    ensures SamePairsIn(s, After(s, t, top).value, ps)
    decreases t, 0
  {
    hide Execute, Defined, NextOpcode, Bus.Room, CleanF, IsTakenCall, IsRst, IsTakenRet, IsReti, Pair, Pushed,
      ReturnAddress;
    var (body, rest) := (t.body, t.rest);
    var u := Execute(s);
    var m := After(u, body, top).value;
    RoomAgain(s, s, Bytes(t), 2 + Bytes(body));
    RoomAgain(s, s, Bytes(t), 2);
    ExecuteCall(s);
    RoomInside(s, u, ReturnAddress(s), Bytes(body));
    SameRegistersIn(s, u, ps);
    PreservedPairsReturn(u, body, ps, top);
    CallReturnCloses(s, body, top);
    AfterClean(u, body, top);
    SameRegistersIn(m, Execute(m), ps);
    RoomAgain(s, Execute(m), Bytes(t), Bytes(rest));
    PreservedPairsReturn(Execute(m), rest, ps, top);
  }

  lemma {:induction false} InterruptPreserves(s: State, t: Nest, ps: set<nat>, top: nat)
    requires t.Interrupt? && After(s, t, top).Some? && Bus.Room(s, Bytes(t)) && s.sp <= top && CleanF(s)
    requires Preserves(s, t, ps, top)
    ensures SamePairsIn(s, After(s, t, top).value, ps)
    decreases t, 0
  {
    hide Execute, HandleInterrupts, Defined, NextOpcode, Bus.Room, CleanF, WillDispatch, IsTakenRet, IsReti, Pair;
    var (body, rest) := (t.body, t.rest);
    var u := HandleInterrupts(s);
    var m := After(u, body, top).value;
    RoomAgain(s, s, Bytes(t), 2 + Bytes(body));
    DispatchHasRoom(s, Bytes(body));
    InterruptCloses(s, body, top);
    SameRegistersIn(s, u, ps);
    PreservedPairsReturn(u, body, ps, top);
    AfterClean(u, body, top);
    SameRegistersIn(m, Execute(m), ps);
    RoomAgain(s, Execute(m), Bytes(t), Bytes(rest));
    PreservedPairsReturn(Execute(m), rest, ps, top);
  }

  lemma DispatchHasRoom(s: State, k: nat)
    requires WillDispatch(s) && Bus.Room(s, 2 + k)
    ensures Bus.Room(HandleInterrupts(s), k) && HandleInterrupts(s).sp <= s.sp
  {
    hide HandleInterrupts, WillDispatch;
    DispatchFrame(s);
  }

  /** Where a pair is in the register file, in pairs of bytes. */
  function PairSlot(p: nat): nat
    requires p < 4
  {
    if p == 3 then 0 else p + 1
  }

  lemma PairsAreAllRegisters(s: State, t: State)
    requires SamePairsIn(s, t, {0, 1, 2, 3})
    ensures s.r == t.r
  {
    forall p | 0 <= p < 4
      ensures s.r[2 * PairSlot(p)] == t.r[2 * PairSlot(p)] && s.r[2 * PairSlot(p) + 1] == t.r[2 * PairSlot(p) + 1]
    {
      assert Pair(s, p) == Pair(t, p);
    }
    assert PairSlot(0) == 1 && PairSlot(1) == 2 && PairSlot(2) == 3 && PairSlot(3) == 0;
  }

  /** Interrupt transparency: an interrupt whose handler preserves the four
      pairs gives the interrupted code back its PC, SP, stack and every
      register, and IME set. */
  lemma InterruptIsTransparent(s: State, body: Nest, top: nat)
    requires WillDispatch(s) && Bus.Room(s, 2 + Bytes(body)) && s.sp <= top && CleanF(s)
    requires After(HandleInterrupts(s), body, top).Some?
    requires IsReti(After(HandleInterrupts(s), body, top).value)
    requires Preserves(HandleInterrupts(s), body, {0, 1, 2, 3}, top)
    ensures Defined(NextOpcode(After(HandleInterrupts(s), body, top).value))
    ensures var e := Execute(After(HandleInterrupts(s), body, top).value);
      e.pc == s.pc && e.sp == s.sp && e.r == s.r && e.ime && Bus.SameBetween(s, e, s.sp, top)
  {
    hide Execute, Defined, NextOpcode, HandleInterrupts, WillDispatch, Bus.Room, After, Preserves, CleanF, SamePairsIn;
    var u := HandleInterrupts(s);
    var m := After(u, body, top).value;
    RetiDefined(m);
    InterruptCloses(s, body, top);
    DispatchHasRoom(s, Bytes(body));
    SameRegistersIn(s, u, {});
    PreservedPairsReturn(u, body, {0, 1, 2, 3}, top);
    PairsAreAllRegisters(u, m);
  }

  lemma RetiDefined(s: State)
    requires IsReti(s)
    ensures Defined(NextOpcode(s)) && Returns(s)
  {
    hide NextOpcode;
    ReturnEntry(NextOpcode(s));
  }

  /** PUSH AF; POP AF, with a well-nested stretch in between, gives AF back
      exactly when the unused bits of F were clear. */
  lemma PushPopAf(s: State, body: Nest, top: nat)
    requires IsPush(s, 3) && Defined(NextOpcode(s)) && Bus.Room(s, 2 + Bytes(body)) && s.sp <= top
    requires After(Execute(s), body, top).Some?
    requires var m := After(Execute(s), body, top).value; IsPop(m, 3) && Defined(NextOpcode(m))
    ensures var e := Execute(After(Execute(s), body, top).value);
      Pair(e, 3) == Pair(s, 3) <==> CleanF(s)
  {
    hide Execute, Defined, NextOpcode, IsPush, IsPop, After;
    PushPopCloses(s, 3, body, 3, top);
    CleanPair(s);
  }
}
