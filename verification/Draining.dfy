/** Several requests at once, over runs of the loop in src/main.c: dispatching
    leaves IME set, so each handler is interrupted after its first instruction
    until the list of pending sources is empty. */
module Draining {
  import opened Words
  import opened MachineState
  import opened TimerModel
  import opened Opcodes
  import opened Fetch
  import opened Instructions
  import opened Interrupts
  import opened Runs
  import opened RunProperties
  import Bus

  /** The first half of the pass from s raises and withdraws no request and
      enables or disables no source; and if a dispatch is due at its end, IME
      is set, the stack has room and the timer adds no source. */
  predicate Undisturbed(s: State)
    requires CanStep(s)
  {
    var h := Half(s);
    && (forall k: Source :: Pending(h, k) == Pending(s, k))
    && (PendingList(s) != [] ==> h.ime && Bus.Room(h, 2) && !TimerJoins(h))
  }

  lemma StoppedTimer(t: Timer, n: u8)
    requires !t.overflow && !Enabled(t.tac)
    ensures var u := Advance(t, n); !u.overflow && !Enabled(u.tac)
  {
  }

  lemma StoppedTimerIsSilent(s: State)
    requires !s.timer.overflow && !Enabled(s.timer.tac)
    ensures !TimerJoins(s)
  {
    hide Advance, Enabled, Bit;
    StoppedTimer(s.timer, 2);
    var u := Advance(s.timer, 2);
    StoppedTimer(u, 1);
    StoppedTimer(Advance(u, 1), 1);
    assert AdvanceN(u, 1) == Advance(AdvanceN(u, 0), 1);
  }

  /** For instance a NOP, with the timer stopped, IME set and stack to spare. */
  lemma NopIsUndisturbed(s: State)
    requires !s.halt && NextOpcode(s) == 0x00 && s.ime && Bus.Room(s, 2)
    requires !s.timer.overflow && !Enabled(s.timer.tac)
    ensures CanStep(s) && Undisturbed(s)
  {
    hide FetchByte, FetchInstruction, Execute, NextOpcode, Advance, Enabled, TimerJoins, PendingFrom;
    assert Decode(0x00) == Entry(Nop, NoOperand, 1, 0);
    var t := FetchByte(s).0;
    FetchByteFrame(s);
    FetchPlain(t, 0x00);
    ExecuteInParts(s);
    FetchKeepsRequests(s);
    StoppedTimer(s.timer, 1);
    StoppedTimerIsSilent(t);
  }

  lemma FetchKeepsRequests(s: State)
    requires !s.timer.overflow
    ensures var t := FetchByte(s).0; t.iflag == s.iflag && t.ie == s.ie
  {
    hide Advance, Bus.Read;
  }

  /** One undisturbed pass takes the head off the list, or dispatches nothing. */
  lemma UndisturbedPass(s: State)
    requires CanStep(s) && Undisturbed(s)
    ensures var h, t := Half(s), Pass(s);
      && PendingList(h) == PendingList(s)
      && (PendingList(s) == [] ==> t == h)
      && (PendingList(s) != [] ==>
            && PendingList(t) == PendingList(s)[1..]
            && t.pc == Vector(PendingList(s)[0]) && t.ime && !t.halt
            && t.sp == h.sp - 2 && Word(t.mem[t.sp + 1], t.mem[t.sp]) == h.pc
            && Bus.SameFrom(h, t, h.sp) && t.clock == h.clock + 5)
  {
    hide Half, Pending, PendingFrom, TimerJoins, HandleInterrupts;
    var h := Half(s);
    SamePending(s, h, 0);
    if PendingList(s) == [] {
      NothingPending(h);
    } else {
      HandleOne(h);
    }
  }

  /** Draining: in every run whose first n passes are undisturbed, the pending
      sources are taken one per pass in order of priority.  Pass i <= n, while
      sources are left, jumps to the vector of the i-th with the PC of the
      instruction it interrupts on top of the stack; once the list is empty, a
      pass dispatches nothing. */
  lemma {:induction false} DrainingOrder(ss: seq<State>, n: nat)
    requires IsRun(ss) && n < |ss|
    requires forall i :: 0 <= i < n ==> Undisturbed(ss[i])
    ensures var ks := PendingList(ss[0]);
      && PendingList(ss[n]) == (if n <= |ks| then ks[n..] else [])
      && (0 < n <= |ks| ==>
            var h, t := Half(ss[n - 1]), ss[n];
            && t.pc == Vector(ks[n - 1]) && t.ime && !t.halt
            && t.sp == h.sp - 2 && Word(t.mem[t.sp + 1], t.mem[t.sp]) == h.pc
            && Bus.SameFrom(h, t, h.sp) && t.clock == h.clock + 5)
      && (n > |ks| ==> ss[n] == Half(ss[n - 1]) && !Dispatches(ss[n - 1]))
  {
    hide Half, Pass, CanStep, Undisturbed, PendingList, Bus.SameFrom;
    var ks := PendingList(ss[0]);
    if n > 0 {
      DrainingOrder(ss, n - 1);
      UndisturbedPass(ss[n - 1]);
      if n <= |ks| {
        assert ks[n - 1..] != [] && ks[n - 1..][0] == ks[n - 1] && ks[n - 1..][1..] == ks[n..];
      }
    } else {
      assert ks[0..] == ks;
    }
  }

  /** So as many passes dispatch as there were pending sources, and no two of
      them for the same one. */
  lemma DrainingStops(ss: seq<State>, n: nat)
    requires IsRun(ss) && n < |ss|
    requires forall i :: 0 <= i < n ==> Undisturbed(ss[i])
    ensures forall i :: 0 <= i < n ==> (Dispatches(ss[i]) <==> i < |PendingList(ss[0])|)
    ensures forall i, j :: 0 < i < j <= n && j <= |PendingList(ss[0])| ==> ss[i].pc < ss[j].pc
  {
    hide Half, Pass, CanStep, Undisturbed, PendingList, Dispatches, Bus.SameFrom;
    forall i | 0 <= i < n
      ensures Dispatches(ss[i]) <==> i < |PendingList(ss[0])|
    {
      DrainingOrder(ss, i);
      DueDispatches(ss[i]);
    }
    forall i, j | 0 < i < j <= n && j <= |PendingList(ss[0])|
      ensures ss[i].pc < ss[j].pc
    {
      DrainingOrder(ss, i);
      DrainingOrder(ss, j);
      ListIsSorted(ss[0], i - 1, j - 1);
    }
  }

  lemma ListIsSorted(s: State, i: nat, j: nat)
    requires i < j < |PendingList(s)|
    ensures PendingList(s)[i] < PendingList(s)[j]
  {
    PendingListed(s, 0);
  }

  lemma DueDispatches(s: State)
    requires CanStep(s) && Undisturbed(s)
    ensures Dispatches(s) <==> PendingList(s) != []
  {
    hide Half, PendingFrom, TimerJoins, Pending;
    SamePending(s, Half(s), 0);
  }
}
