/** Well-nested stretches as pieces of runs of the loop in src/main.c, whose
    passes are an instruction (or halted tick) and then `handle_interrupts`. */
module NestedRuns {
  import opened Words
  import opened MachineState
  import opened Opcodes
  import opened Instructions
  import opened Interrupts
  import opened Effects
  import opened Runs
  import opened RunProperties
  import opened StackPrograms
  import opened Nesting
  import opened Transparency
  import Bus

  /** n half passes; due tells whether `handle_interrupts` comes first. */
  function HalfSteps(s: State, due: bool, n: nat): State
    decreases n
  {
    if n == 0 then s
    else HalfSteps(if due then HandleInterrupts(s) else if CanStep(s) then Half(s) else s, !due, n - 1)
  }

  /** Half passes in a stretch. */
  function Halves(t: Nest): nat {
    match t
    case Done => 0
    case Quiet(rest) => 1 + Halves(rest)
    case Idle(rest) => 1 + Halves(rest)
    case PushPop(_, body, _, rest) => 2 + Halves(body) + Halves(rest)
    case CallReturn(body, rest) => 2 + Halves(body) + Halves(rest)
    case Interrupt(body, rest) => 2 + Halves(body) + Halves(rest)
  }

  /** The stretch alternates as the loop does: if `handle_interrupts` is due
      first (or is not), the other way round after every half pass. */
  predicate Alternates(t: Nest, due: bool)
    decreases t
  {
    match t
    case Done => true
    case Quiet(rest) => !due && Alternates(rest, true)
    case Idle(rest) => due && Alternates(rest, false)
    case PushPop(_, body, _, rest) =>
      !due && Alternates(body, true) && Halves(body) % 2 == 1 && Alternates(rest, true)
    case CallReturn(body, rest) =>
      !due && Alternates(body, true) && Halves(body) % 2 == 1 && Alternates(rest, true)
    case Interrupt(body, rest) =>
      due && Alternates(body, false) && Halves(body) % 2 == 0 && Alternates(rest, true)
  }

  /** m half passes and then n more. */
  lemma {:induction false} StepsAdd(s: State, due: bool, m: nat, n: nat)
    ensures HalfSteps(s, due, m + n) == HalfSteps(HalfSteps(s, due, m), if m % 2 == 0 then due else !due, n)
    decreases m
  {
    hide HandleInterrupts, CanStep, Half;
    if m > 0 {
      StepsAdd(if due then HandleInterrupts(s) else if CanStep(s) then Half(s) else s, !due, m - 1, n);
    }
  }

  lemma OneStep(s: State)
    ensures HalfSteps(s, true, 1) == HandleInterrupts(s)
    ensures CanStep(s) ==> HalfSteps(s, false, 1) == Half(s)
    ensures !s.halt && Defined(NextOpcode(s)) ==> HalfSteps(s, false, 1) == Execute(s)
  {
    hide HandleInterrupts, Execute, Defined, NextOpcode;
    assert HalfSteps(HandleInterrupts(s), false, 0) == HandleInterrupts(s);
  }

  /** What the stretch describes is what the half passes do. */
  lemma {:induction false} StretchIsRun(s: State, t: Nest, due: bool, top: nat)
    requires After(s, t, top).Some? && Alternates(t, due)
    ensures After(s, t, top).value == HalfSteps(s, due, Halves(t))
    decreases t
  {
    hide Execute, HandleInterrupts, Half, CanStep, Defined, NextOpcode, WillDispatch, HalfSteps;
    hide IsTakenCall, IsRst, IsTakenRet, IsReti;
    OneStep(s);
    match t
    case Done => NoSteps(s, due);
    case Quiet(rest) =>
      StretchIsRun(Half(s), rest, true, top);
      StepsAdd(s, due, 1, Halves(rest));
    case Idle(rest) =>
      StretchIsRun(HandleInterrupts(s), rest, false, top);
      StepsAdd(s, due, 1, Halves(rest));
    case PushPop(p, body, q, rest) =>
      BracketIsRun(s, t, Execute(s), body, rest, false, top);
    case CallReturn(body, rest) =>
      NotHalted(s);
      NotHalted(After(Execute(s), body, top).value);
      BracketIsRun(s, t, Execute(s), body, rest, false, top);
    case Interrupt(body, rest) =>
      NotHalted(After(HandleInterrupts(s), body, top).value);
      BracketIsRun(s, t, HandleInterrupts(s), body, rest, true, top);
  }

  lemma NoSteps(s: State, due: bool)
    ensures HalfSteps(s, due, 0) == s
  {
  }

  lemma NotHalted(s: State)
    ensures IsTakenCall(s) || IsRst(s) || Returns(s) ==> !s.halt
  {
    hide NextOpcode, Defined;
  }

  /** The same for a bracketed stretch whose opening half pass leads to u. */
  lemma {:induction false} BracketIsRun(s: State, t: Nest, u: State, body: Nest, rest: Nest, due: bool, top: nat)
    requires body < t && rest < t
    requires u == HalfSteps(s, due, 1)
    requires After(u, body, top).Some? && Alternates(body, !due) && Halves(body) % 2 == (if due then 0 else 1)
    requires var m := After(u, body, top).value;
      !m.halt && Defined(NextOpcode(m)) && After(Execute(m), rest, top).Some? && Alternates(rest, true)
    ensures After(Execute(After(u, body, top).value), rest, top).value
         == HalfSteps(s, due, 2 + Halves(body) + Halves(rest))
    decreases t, 0
  {
    hide Execute, Half, CanStep, Defined, NextOpcode, HalfSteps, After, Halves, Alternates;
    StretchIsRun(u, body, !due, top);
    var m := After(u, body, top).value;
    OneStep(m);
    StretchIsRun(Execute(m), rest, true, top);
    StepsInBrackets(s, due, Halves(body), Halves(rest));
  }

  /** One half pass, a body, the closing half pass, the rest. */
  lemma StepsInBrackets(s: State, due: bool, b: nat, r: nat)
    requires b % 2 == if due then 0 else 1
    ensures HalfSteps(s, due, 2 + b + r)
         == HalfSteps(HalfSteps(HalfSteps(HalfSteps(s, due, 1), !due, b), false, 1), true, r)
  {
    hide HalfSteps;
    StepsAdd(s, due, 1, b);
    StepsAdd(s, due, 1 + b, 1);
    assert (1 + b) % 2 == (if due then 1 else 0) && (1 + b + 1) % 2 == if due then 0 else 1;
    StepsAdd(s, due, 1 + b + 1, r);
    assert 1 + b + 1 == 2 + b;
  }

  /** Boundary n of a run is 2n half passes on, and its half pass one more. */
  lemma {:induction false} RunIsHalfSteps(ss: seq<State>, i: nat, n: nat)
    requires IsRun(ss) && i + n < |ss|
    ensures ss[i + n] == HalfSteps(ss[i], false, 2 * n)
    decreases n
  {
    hide Half, CanStep, HandleInterrupts;
    if n > 0 {
      RunIsHalfSteps(ss, i + 1, n - 1);
      var h := Half(ss[i]);
      assert HalfSteps(ss[i], false, 2 * n) == HalfSteps(h, true, 2 * n - 1);
      assert HalfSteps(h, true, 2 * n - 1) == HalfSteps(HandleInterrupts(h), false, 2 * n - 2);
    }
  }

  /** Balance in runs: where a run follows a well-nested stretch, SP and the
      stack from it up are back at its end. */
  lemma BalancedInRuns(ss: seq<State>, i: nat, t: Nest, top: nat)
    requires IsRun(ss) && Alternates(t, false) && Halves(t) % 2 == 0 && i + Halves(t) / 2 < |ss|
    requires After(ss[i], t, top).Some? && Bus.Room(ss[i], Bytes(t)) && ss[i].sp <= top
    ensures var e := ss[i + Halves(t) / 2]; e.sp == ss[i].sp && Bus.SameBetween(ss[i], e, ss[i].sp, top)
  {
    hide After, Bus.Room, Pass, CanStep, HalfSteps, Bus.SameBetween;
    NestIsBalanced(ss[i], t, top);
    StretchIsRun(ss[i], t, false, top);
    RunIsHalfSteps(ss, i, Halves(t) / 2);
  }

  /** Transparency in runs: if pass i of a run ends in a dispatch and from
      there on the run follows a handler that preserves the register pairs,
      its RETI, n passes later, gives the state that pass i interrupted its
      PC, SP, stack and registers back. */
  lemma TransparentInRuns(ss: seq<State>, i: nat, body: Nest, top: nat)
    requires IsRun(ss) && Alternates(body, false) && Halves(body) % 2 == 0
    requires i + 1 + Halves(body) / 2 < |ss| && CanStep(ss[i]) && Dispatches(ss[i])
    requires var h := Half(ss[i]); Bus.Room(h, 2 + Bytes(body)) && h.sp <= top && CleanF(h)
    requires After(ss[i + 1], body, top).Some? && Preserves(ss[i + 1], body, {0, 1, 2, 3}, top)
    requires IsReti(ss[i + 1 + Halves(body) / 2])
    ensures var m := ss[i + 1 + Halves(body) / 2];
      CanStep(m) &&
      var h, e := Half(ss[i]), Half(m);
      e.pc == h.pc && e.sp == h.sp && e.r == h.r && e.ime && Bus.SameBetween(h, e, h.sp, top)
  {
    hide Half, Execute, HandleInterrupts, Preserves, After, NextOpcode, Defined, Bus.Room, PendingList, HalfSteps;
    var h, n := Half(ss[i]), Halves(body) / 2;
    var m := ss[i + 1 + n];
    assert ss[i + 1] == HandleInterrupts(h);
    StretchIsRun(ss[i + 1], body, false, top);
    RunIsHalfSteps(ss, i + 1, n);
    InterruptIsTransparent(h, body, top);
    RetiIsHalf(m);
  }

  lemma RetiIsHalf(s: State)
    requires IsReti(s)
    ensures CanStep(s) && Half(s) == Execute(s)
  {
    hide Execute, NextOpcode;
    RetiDefined(s);
  }

  /** A pass that neither moves the stack nor dispatches is two tokens; one
      that does dispatch opens an interrupt frame, and only such a pass does. */
  lemma PassAsTokens(s: State, body: Nest, rest: Nest, top: nat)
    requires CanStep(s) && IsQuiet(s, top)
    ensures !WillDispatch(Half(s)) ==> After(s, Quiet(Idle(rest)), top) == After(Pass(s), rest, top)
    ensures WillDispatch(Half(s)) ==>
      (After(s, Quiet(Interrupt(body, rest)), top) ==
        match After(Pass(s), body, top)
        case None => None
        case Some(m) => if Returns(m) then After(Execute(m), rest, top) else None)
    ensures WillDispatch(Half(s)) <==> After(s, Quiet(Idle(Done)), top).None?
  {
    hide IsQuiet, Half, HandleInterrupts, WillDispatch, CanStep, Execute, IsTakenRet, IsReti;
    assert After(s, Quiet(Idle(rest)), top) == After(Half(s), Idle(rest), top);
    assert After(s, Quiet(Interrupt(body, rest)), top) == After(Half(s), Interrupt(body, rest), top);
    assert After(s, Quiet(Idle(Done)), top) == After(Half(s), Idle(Done), top);
  }
}
