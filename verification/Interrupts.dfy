/** src/cpu/interrupt.c: priority and dispatch. */
module Interrupts {
  import opened Words
  import opened MachineState
  import opened TimerModel
  import opened Bus

  /** The number of interrupt sources, VBLANK (0) to JOYPAD (4). */
  const SOURCES: nat := 5

  type Source = k: int | 0 <= k < 5

  function Vector(k: Source): u16 { 0x40 + 8 * k }

  /** Requested and enabled. */
  predicate Pending(s: State, k: Source) { Bit(s.iflag, k) && Bit(s.ie, k) }

  /** The pending sources from k on, in order of priority. */
  function PendingFrom(s: State, k: nat): (ks: seq<Source>)
    requires k <= SOURCES
    decreases SOURCES - k
  {
    if k == SOURCES then [] else if Pending(s, k) then [k] + PendingFrom(s, k + 1) else PendingFrom(s, k + 1)
  }

  function PendingList(s: State): seq<Source> { PendingFrom(s, 0) }

  /** `handle_interrupt` and the clearing of the request bit after it. */
  function Dispatch(s: State, k: Source): State {
    var pushed := Tick(Push16(TimerTicks(s, 2), s.pc));
    pushed.(pc := Vector(k), iflag := WithBit(pushed.iflag, k, false))
  }

  /** `handle_interrupts`: a pending source ends HALT; it is dispatched if IME is set. */
  function HandleInterrupts(s: State): State {
    var ks := PendingList(s);
    if ks == [] then s
    else if s.ime then Dispatch(s.(halt := false), ks[0])
    else s.(halt := false)
  }

  /** The list holds exactly the pending sources, in increasing order. */
  lemma {:induction false} PendingListed(s: State, k: nat)
    requires k <= SOURCES
    ensures var ks := PendingFrom(s, k);
      && (forall j: Source :: j in ks <==> k <= j && Pending(s, j))
      && (forall i, j :: 0 <= i < j < |ks| ==> ks[i] < ks[j])
    decreases SOURCES - k
  {
    hide Pending;
    if k < SOURCES {
      PendingListed(s, k + 1);
      var tail := PendingFrom(s, k + 1);
      if Pending(s, k) {
        assert PendingFrom(s, k) == [k] + tail;
        assert forall i :: 0 <= i < |tail| ==> tail[i] in tail;
        assert forall j: Source :: j in [k] + tail <==> j == k || j in tail;
      }
    }
  }

  // ----- what one dispatch does -----

  /** Some overflow is requested during the five ticks of a dispatch. */
  predicate RequestsMeanwhile(t: Timer) {
    var u := Advance(t, 2);
    t.overflow || u.overflow || Advance(u, 1).overflow || AdvanceN(u, 2).overflow
  }

  /** The request register as the dispatch of source k leaves it. */
  function FlagAfterDispatch(s: State, k: Source): u8 {
    WithBit(if RequestsMeanwhile(s.timer) then WithBit(s.iflag, IRQ_TIMA, true) else s.iflag, k, false)
  }

  /** A dispatch with room on the stack: the return address is pushed, control
      is at the vector, five ticks have passed, the source's own request is
      gone and no other is, whatever the timer raised in between is there. */
  lemma DispatchEffect(s: State, k: Source)
    requires Room(s, 2)
    ensures Dispatch(s, k) == s.(
      pc := Vector(k),
      sp := s.sp - 2,
      mem := s.mem[s.sp - 1 := Msb(s.pc)][s.sp - 2 := Lsb(s.pc)],
      timer := AdvanceN(Advance(s.timer, 2), 3),
      iflag := FlagAfterDispatch(s, k),
      ime := s.ime || s.imeScheduled,
      imeScheduled := false,
      clock := s.clock + 5)
  {
    hide Advance, Push16, WithBit, Increments;
    var t := TimerTicks(s, 2);
    PushEffect(t, s.pc);
    TwoTicks(t);
    WithBitTwice(s.iflag, IRQ_TIMA);
    var u := t.timer;
    assert AdvanceN(u, 1) == Advance(u, 1) by { assert AdvanceN(u, 0) == u; }
    assert AdvanceN(u, 2) == Advance(Advance(u, 1), 1);
    assert AdvanceN(u, 3) == Advance(AdvanceN(u, 2), 1);
  }

  /** The requests a dispatch leaves, bit by bit. */
  lemma DispatchKeepsRequests(s: State, k: Source, j: Source)
    requires Room(s, 2)
    ensures Bit(Dispatch(s, k).iflag, j) <==>
      j != k && (Bit(s.iflag, j) || (j == IRQ_TIMA && RequestsMeanwhile(s.timer)))
  {
    hide Dispatch, RequestsMeanwhile, WithBit;
    DispatchEffect(s, k);
    BitOfWithBit(s.iflag, IRQ_TIMA, true);
    BitOfWithBit(if RequestsMeanwhile(s.timer) then WithBit(s.iflag, IRQ_TIMA, true) else s.iflag, k, false);
  }

  /** `handle_interrupts` in full: nothing pending, nothing happens; something
      pending ends HALT; with IME set, the pending source that no lower one
      precedes is dispatched, in five ticks. */
  lemma HandleInterruptsExact(s: State)
    ensures var t := HandleInterrupts(s);
      && ((forall k: Source :: !Pending(s, k)) ==> t == s)
      && forall k: Source :: Pending(s, k) && (forall j: Source :: j < k ==> !Pending(s, j)) ==>
           t == if s.ime then Dispatch(s.(halt := false), k) else s.(halt := false)
  {
    hide Dispatch, Pending;
    PendingListed(s, 0);
    var ks := PendingList(s);
    if ks != [] {
      assert ks[0] in ks;
      forall k: Source | Pending(s, k) && (forall j: Source :: j < k ==> !Pending(s, j))
        ensures ks[0] == k
      {
        assert k in ks && Pending(s, ks[0]);
      }
    }
  }

  lemma BitsInNumbers(x: u8)
    ensures Bit(x, 0) == (x % 2 == 1) && Bit(x, 1) == (x / 2 % 2 == 1) && Bit(x, 2) == (x / 4 % 2 == 1)
    ensures Bit(x, 3) == (x / 8 % 2 == 1) && Bit(x, 4) == (x / 16 % 2 == 1)
  {
    assert x / 2 / 2 == x / 4 && x / 4 / 2 == x / 8 && x / 8 / 2 == x / 16;
  }

  /** Where `handle_interrupts` goes, by the bits of IF and IE: with IME set, to
      0x40 if bit 0 is set in both, else to 0x48 if bit 1 is, 0x50 for bit 2,
      0x58 for bit 3 and 0x60 for bit 4; with IME clear PC stays, but HALT ends;
      with no bit set in both nothing happens. */
  lemma VectorsByBits(s: State)
    ensures var p0, p1 := s.iflag % 2 == 1 && s.ie % 2 == 1, s.iflag / 2 % 2 == 1 && s.ie / 2 % 2 == 1;
      var p2, p3 := s.iflag / 4 % 2 == 1 && s.ie / 4 % 2 == 1, s.iflag / 8 % 2 == 1 && s.ie / 8 % 2 == 1;
      var p4, t := s.iflag / 16 % 2 == 1 && s.ie / 16 % 2 == 1, HandleInterrupts(s);
      && (s.ime && (p0 || p1 || p2 || p3 || p4) ==>
            t.pc == if p0 then 0x40 else if p1 then 0x48 else if p2 then 0x50 else if p3 then 0x58 else 0x60)
      && (!s.ime && (p0 || p1 || p2 || p3 || p4) ==> t == s.(halt := false))
      && (!(p0 || p1 || p2 || p3 || p4) ==> t == s)
  {
    hide Dispatch, Bit;
    BitsInNumbers(s.iflag);
    BitsInNumbers(s.ie);
    HandleInterruptsExact(s);
    forall k: Source {
      DispatchJumps(s.(halt := false), k);
    }
  }

  lemma DispatchJumps(s: State, k: Source)
    ensures Dispatch(s, k).pc == 0x40 + 8 * k
  {
    hide Push16, TimerTicks, WithBit;
  }

  // ----- one dispatch and the list of pending sources -----

  /** Without its first element the list lists what is left when that goes. */
  lemma {:induction false} PendingAfterClear(s: State, t: State, k: nat)
    requires k <= SOURCES && PendingFrom(s, k) != []
    requires forall j: Source :: k <= j ==> Pending(t, j) == (j != PendingFrom(s, k)[0] && Pending(s, j))
    ensures PendingFrom(t, k) == PendingFrom(s, k)[1..]
    decreases SOURCES - k
  {
    if Pending(s, k) {
      SamePending(s, t, k + 1);
    } else {
      PendingAfterClear(s, t, k + 1);
    }
  }

  lemma {:induction false} SamePending(s: State, t: State, k: nat)
    requires k <= SOURCES
    requires forall j: Source :: k <= j ==> Pending(s, j) == Pending(t, j)
    ensures PendingFrom(t, k) == PendingFrom(s, k)
    decreases SOURCES - k
  {
    if k < SOURCES {
      SamePending(s, t, k + 1);
    }
  }

  lemma NothingPending(s: State)
    ensures PendingList(s) == [] ==> HandleInterrupts(s) == s
  {
  }

  /** A dispatch from s makes the timer pending that was not. */
  predicate TimerJoins(s: State) {
    RequestsMeanwhile(s.timer) && Bit(s.ie, IRQ_TIMA) && !Bit(s.iflag, IRQ_TIMA)
  }

  /** What stays pending after a dispatch, source by source. */
  lemma PendingAfterDispatch(s: State, k: Source, j: Source)
    requires Room(s, 2) && Pending(s, k)
    ensures Pending(Dispatch(s, k), j) <==> j != k && (Pending(s, j) || (j == IRQ_TIMA && TimerJoins(s)))
  {
    hide Dispatch, RequestsMeanwhile, Bit;
    DispatchEffect(s, k);
    DispatchKeepsRequests(s, k, j);
  }

  /** One call with IME set: the first pending source is dispatched, with the
      interrupted PC on top of the stack.  What is left is the rest of the
      list, exactly unless the timer joins it meanwhile. */
  lemma HandleOne(s: State)
    requires s.ime && PendingList(s) != [] && Room(s, 2)
    ensures var t := HandleInterrupts(s);
      && (PendingList(t) == PendingList(s)[1..] <==> !TimerJoins(s))
      && t.ime && t.ie == s.ie && t.sp == s.sp - 2 && t.clock == s.clock + 5 && !t.halt
      && SameFrom(s, t, s.sp)
      && t.pc == Vector(PendingList(s)[0]) && Word(t.mem[t.sp + 1], t.mem[t.sp]) == s.pc
  {
    hide Dispatch, TimerJoins, WithBit, PendingFrom, Pending, AdvanceN, Advance;
    var k := PendingList(s)[0];
    var v := s.(halt := false);
    HeadIsPending(s);
    assert Room(v, 2);
    DispatchEffect(v, k);
    var t := Dispatch(v, k);
    forall j: Source
      ensures Pending(t, j) <==> j != k && (Pending(s, j) || (j == IRQ_TIMA && TimerJoins(s)))
    {
      HaltIsNoSource(s, k);
      HaltIsNoSource(s, j);
      PendingAfterDispatch(v, k, j);
    }
    if TimerJoins(s) {
      JoinsAnew(s, t);
    } else {
      PendingAfterClear(s, t, 0);
    }
  }

  lemma HeadIsPending(s: State)
    requires PendingList(s) != []
    ensures Pending(s, PendingList(s)[0])
  {
    hide Pending;
    PendingListed(s, 0);
    assert PendingList(s)[0] in PendingList(s);
  }

  lemma HaltIsNoSource(s: State, j: Source)
    ensures var v := s.(halt := false); Pending(v, j) == Pending(s, j) && TimerJoins(v) == TimerJoins(s)
  {
  }

  /** A source that was not pending and now is, is not from the old list. */
  lemma JoinsAnew(s: State, t: State)
    requires PendingList(s) != [] && TimerJoins(s)
    requires IRQ_TIMA != PendingList(s)[0] ==> Pending(t, IRQ_TIMA)
    ensures PendingList(t) != PendingList(s)[1..]
  {
    hide PendingFrom, RequestsMeanwhile, Bit;
    PendingListed(s, 0);
    PendingListed(t, 0);
    HeadIsPending(s);
    var ks := PendingList(s);
    assert IRQ_TIMA !in ks;
    assert forall x :: x in ks[1..] ==> x in ks;
    assert IRQ_TIMA in PendingList(t);
  }
}
