/** Properties of every run of the loop in src/main.c: the unused bits of F,
    the delayed EI, and HALT. */
module RunProperties {
  import opened Words
  import opened MachineState
  import opened TimerModel
  import opened TimerBatch
  import opened Opcodes
  import opened Fetch
  import opened Instructions
  import opened Interrupts
  import opened Effects
  import opened Runs
  import Bus

  /** The pass that starts at s ends with a jump to an interrupt vector. */
  predicate Dispatches(s: State)
    requires CanStep(s)
  {
    Half(s).ime && PendingList(Half(s)) != []
  }

  lemma DispatchKeeps(s: State, k: Source)
    ensures Keeps(s, Dispatch(s, k), 5) && Dispatch(s, k).r == s.r
  {
    hide TimerTicks, Bus.Push16, WithBit;
    TicksKeep(s, 2);
    PushKeeps(TimerTicks(s, 2), s.pc);
    TicksKeep(Bus.Push16(TimerTicks(s, 2), s.pc), 1);
  }

  /** The second half of a pass never clears IME, even when it dispatches. */
  lemma HandleInterruptsEffect(s: State)
    ensures var t, taken := HandleInterrupts(s), s.ime && PendingList(s) != [];
      && t.r == s.r && t.ime == s.ime
      && t.imeScheduled == (s.imeScheduled && !taken)
      && t.halt == (s.halt && PendingList(s) == [])
      && t.clock == s.clock + if taken then 5 else 0
  {
    hide Dispatch, PendingList;
    if s.ime && PendingList(s) != [] {
      DispatchKeeps(s.(halt := false), PendingList(s)[0]);
    }
  }

  lemma NamedOpcodes(op: u8)
    ensures Decode(op).name == Ei <==> op == 0xFB
    ensures Decode(op).name == Di <==> op == 0xF3
    ensures Decode(op).name == Halt <==> op == 0x76
    ensures Decode(op).name == Reti <==> op == 0xD9
  {
    hide Block0, Block3;
    NamesBlock0(Y(op), OctalZ(op));
    NamesBlock3(Y(op), OctalZ(op));
  }

  lemma NamesBlock0(y: nat, z: nat)
    requires y < 8 && z < 8
    ensures Block0(y, z).name !in {Ei, Di, Halt, Reti}
  {
  }

  lemma NamesBlock3(y: nat, z: nat)
    requires y < 8 && z < 8
    ensures var n := Block3(y, z).name;
      && (n == Ei <==> y == 7 && z == 3) && (n == Di <==> y == 6 && z == 3)
      && (n == Reti <==> y == 3 && z == 1) && n != Halt
  {
  }

  /** One pass, as far as the flags that steer the loop are concerned. */
  lemma PassEffect(s: State)
    requires CanStep(s)
    ensures var t, op := Pass(s), NextOpcode(s);
      && (t.imeScheduled <==> !s.halt && op == 0xFB && !Dispatches(s))
      && (t.ime <==> if s.halt then s.ime || s.imeScheduled
                     else op == 0xD9 || (op != 0xF3 && (s.ime || s.imeScheduled)))
      && (t.halt <==> (s.halt || op == 0x76) && PendingList(Half(s)) == [])
      && (CleanF(s) ==> CleanF(t))
  {
    hide TimerTicks, Execute, HandleInterrupts, PendingList, Decode;
    HandleInterruptsEffect(Half(s));
    if s.halt {
      TicksKeep(s, 1);
    } else {
      ExecuteEffect(s);
      NamedOpcodes(NextOpcode(s));
    }
  }

  // ----- the unused bits of F -----

  lemma {:induction false} CleanFOverRuns(ss: seq<State>, i: nat)
    requires IsRun(ss) && CleanF(ss[0]) && i < |ss|
    ensures CleanF(ss[i])
  {
    hide Pass, CanStep;
    if i > 0 {
      CleanFOverRuns(ss, i - 1);
      PassEffect(ss[i - 1]);
    }
  }

  /** The low nibble of F is clear at every boundary of every run from reset. */
  lemma CleanFFromReset(s: State, ss: seq<State>, i: nat)
    requires IsRun(ss) && ss[0] == Reset(s) && i < |ss|
    ensures CleanF(ss[i])
  {
    CleanFOverRuns(ss, i);
  }

  // ----- delayed EI -----

  /** In every run, the delayed-IME flag is up at a boundary only when the
      pass just made executed EI, and did not itself end in a dispatch. */
  lemma ScheduledOnlyByEi(ss: seq<State>, i: nat)
    requires IsRun(ss) && 0 < i < |ss|
    ensures ss[i].imeScheduled <==> !ss[i - 1].halt && NextOpcode(ss[i - 1]) == 0xFB && !Dispatches(ss[i - 1])
  {
    hide Pass, CanStep, Dispatches, NextOpcode;
    PassEffect(ss[i - 1]);
  }

  lemma ExecuteEi(s: State)
    requires NextOpcode(s) == 0xFB
    ensures Defined(NextOpcode(s)) && Execute(s) == FetchByte(s).0.(imeScheduled := true)
  {
    hide TimerTicks, Bus.Read;
    assert Decode(0xFB) == Entry(Ei, NoOperand, 1, 0);
    FetchPlain(FetchByte(s).0, 0xFB);
  }

  /** EI with IME clear: its own pass ends without a dispatch, the IME still
      clear and the delayed flag up. */
  lemma EiPass(s: State)
    requires !s.halt && !s.ime && !s.imeScheduled && NextOpcode(s) == 0xFB
    ensures CanStep(s) && !Dispatches(s)
    ensures var t := Pass(s);
      && t.pc == (s.pc + 1) % 0x10000 && t.sp == s.sp && t.r == s.r && t.mem == s.mem
      && !t.halt && !t.ime && t.imeScheduled
  {
    ExecuteEi(s);
    hide Execute, FetchByte, PendingList, Defined, Dispatch;
    FetchByteFrame(s);
  }

  /** The pass after that executes the next instruction, and ends in a
      dispatch exactly when something is pending and the instruction is not
      DI; after DI the IME is clear and nothing is scheduled. */
  lemma EiDelay(s: State)
    requires !s.halt && !s.ime && !s.imeScheduled && NextOpcode(s) == 0xFB
    ensures CanStep(s) && !Dispatches(s) && !Pass(s).halt
    ensures var t := Pass(s);
      CanStep(t) ==>
        && Half(t) == Execute(t)
        && (Dispatches(t) <==> NextOpcode(t) != 0xF3 && PendingList(Half(t)) != [])
        && (NextOpcode(t) == 0xF3 ==> !Pass(t).ime && !Pass(t).imeScheduled)
  {
    EiPass(s);
    var t := Pass(s);
    if CanStep(t) {
      hide Pass, Execute, PendingList, NextOpcode;
      ExecuteEffect(t);
      NamedOpcodes(NextOpcode(t));
      PassEffect(t);
    }
  }

  // ----- HALT -----

  /** Passes until a halted machine leaves HALT, if it ever does: one when
      something is pending or a timer request is already on its way, else the
      ticks to the next TIMA overflow and one more for the request. */
  function WakePasses(s: State): Option<nat> {
    var t := s.timer;
    var f := Period(t.tac);
    if PendingList(s) != [] || (t.overflow && Bit(s.ie, IRQ_TIMA)) then Some(1)
    else if Enabled(t.tac) && Bit(s.ie, IRQ_TIMA) then Some((0x100 - t.tima) * f - t.div % f + 1)
    else None
  }

  lemma {:induction false} RequestsAfterOverflows(t: Timer, n: nat)
    requires n > 0
    ensures Requests(t, n) == Overflows(t, n - 1) + if t.overflow then 1 else 0
  {
    hide Advance;
    if n > 1 {
      RequestsAfterOverflows(t, n - 1);
    } else {
      assert AdvanceN(t, 0) == t && Requests(t, 0) == 0 && Overflows(t, 0) == 0;
    }
  }

  lemma QuotientReaches(x: nat, f: nat, q: nat)
    requires f > 0
    ensures x / f >= q <==> x >= f * q
  {
    var a, b := x / f, x % f;
    assert x == f * a + b;
    if a >= q {
      assert f * a >= f * q;
    } else {
      assert f * q >= f * (a + 1);
    }
  }

  /** The first timer request after a quiet start comes exactly when the
      counter has run from TIMA past 0xFF. */
  lemma FirstRequest(t: Timer, n: nat)
    requires n > 0 && !t.overflow && Enabled(t.tac)
    ensures var f := Period(t.tac);
      Requests(t, n) > 0 <==> n >= (0x100 - t.tima) * f - t.div % f + 1
  {
    hide Period, AdvanceN, Overflows, Requests, OverflowCount, CounterAfter;
    var f, q, k := Period(t.tac), 0x100 - t.tima, Increments(t.tac, t.div, n - 1);
    RequestsAfterOverflows(t, n);
    TimerClosedForm(t, n - 1);
    OverflowStarts(t.tima, t.tma, k);
    ReachesAfter(t.div, n, f, q);
  }

  lemma ReachesAfter(div: nat, n: nat, f: nat, q: nat)
    requires n > 0 && f > 0
    ensures (div + n - 1) / f - div / f >= q <==> n >= q * f - div % f + 1
  {
    var a := div / f;
    assert div == f * a + div % f;
    QuotientReaches(div + n - 1, f, q + a);
    assert f * (q + a) == q * f + f * a;
  }

  lemma OverflowStarts(e: u8, tma: u8, k: nat)
    ensures OverflowCount(e, tma, k) > 0 <==> k >= 0x100 - e
  {
  }

  lemma NeverRequested(t: Timer, n: nat)
    requires !t.overflow && !Enabled(t.tac)
    ensures Requests(t, n) == 0
  {
    if n > 0 {
      RequestsAfterOverflows(t, n);
      TimerClosedForm(t, n - 1);
    }
  }

  /** While it only ticks, a quiet machine has something pending exactly when
      an enabled timer request has been raised. */
  lemma PendingAfterTicks(s: State, n: nat)
    requires PendingList(s) == []
    ensures PendingList(TickN(s, n)) != [] <==> Bit(s.ie, IRQ_TIMA) && Requests(s.timer, n) > 0
  {
    hide PendingFrom, Bit;
    var t := TickN(s, n);
    TickNState(s, n);
    BitOfWithBit(s.iflag, IRQ_TIMA, true);
    PendingListed(s, 0);
    PendingListed(t, 0);
    assert !Pending(s, IRQ_TIMA);
    if Pending(t, IRQ_TIMA) {
      assert IRQ_TIMA in PendingList(t);
    }
    if PendingList(t) != [] {
      assert PendingList(t)[0] in PendingList(t);
      assert Pending(t, PendingList(t)[0]);
      assert !Pending(s, PendingList(t)[0]);
    }
  }

  /** Whether n > 0 ticks are enough, in terms of WakePasses. */
  lemma WakesAfter(s: State, n: nat)
    requires n > 0
    ensures PendingList(s) == [] ==>
      (PendingList(TickN(s, n)) != [] <==> WakePasses(s).Some? && n >= WakePasses(s).value)
  {
    hide PendingList, Period, Requests;
    if PendingList(s) == [] {
      PendingAfterTicks(s, n);
      if s.timer.overflow {
        RequestsAfterOverflows(s.timer, n);
      } else if Enabled(s.timer.tac) {
        FirstRequest(s.timer, n);
      } else {
        NeverRequested(s.timer, n);
      }
    }
  }

  /** A tick never withdraws a request. */
  lemma PendingStays(s: State)
    requires PendingList(s) != []
    ensures PendingList(Tick(s)) != []
  {
    hide Bit, PendingFrom, Advance;
    BitOfWithBit(s.iflag, IRQ_TIMA, true);
    PendingListed(s, 0);
    PendingListed(Tick(s), 0);
    var k := PendingList(s)[0];
    assert k in PendingList(s);
    assert Pending(s, k) && Bit(s.iflag, k) && Bit(Tick(s).iflag, k);
    assert Tick(s).ie == s.ie && Pending(Tick(s), k);
  }

  /** One pass of a machine that has only ticked since HALT. */
  lemma HaltPass(s: State, n: nat)
    requires s.halt && (PendingList(s) == [] || n == 0)
    ensures var u := TickN(s, n);
      && u.halt && CanStep(u) && Pass(u) == HandleInterrupts(TickN(s, n + 1))
      && (PendingList(TickN(s, n + 1)) == [] ==> Pass(u) == TickN(s, n + 1))
      && (PendingList(TickN(s, n + 1)) != [] ==> !Pass(u).halt)
  {
    hide PendingList, TimerTicks, Execute, HandleInterrupts;
    TickNState(s, n);
    HandleInterruptsEffect(TickN(s, n + 1));
    NothingPending(TickN(s, n + 1));
  }

  /** Exact wake-up: in any run that starts halted, every state before pass
      WakePasses differs from the first only by timer ticks, HALT still up;
      at that pass HALT is down; and if there is no such pass it stays up for
      as long as the run goes on. */
  lemma {:induction false} HaltWakesExactly(ss: seq<State>, n: nat)
    requires IsRun(ss) && ss[0].halt && n < |ss|
    ensures (WakePasses(ss[0]).Some? ==> n < WakePasses(ss[0]).value) ==> ss[n] == TickN(ss[0], n)
    ensures WakePasses(ss[0]) == Some(n) ==> !ss[n].halt
  {
    hide PendingList, WakePasses, Pass, CanStep, TickN;
    var s := ss[0];
    WakeIsLater(s);
    if n > 0 {
      HaltWakesExactly(ss, n - 1);
      if WakePasses(s).Some? ==> n - 1 < WakePasses(s).value {
        HaltPass(s, n - 1);
        if PendingList(s) == [] {
          WakesAfter(s, n);
        } else {
          PendingStays(s);
          NoTicksYet(s);
        }
      }
    } else {
      NoTicksYet(s);
    }
  }

  lemma NoTicksYet(s: State)
    ensures TickN(s, 0) == s && TickN(s, 1) == Tick(s)
  {
    hide TimerTicks;
    assert TickN(s, 1) == Tick(TickN(s, 0));
  }

  lemma WakeIsLater(s: State)
    ensures WakePasses(s).Some? ==> WakePasses(s).value > 0
    ensures PendingList(s) != [] ==> WakePasses(s) == Some(1)
  {
    var f := Period(s.timer.tac);
    assert (0x100 - s.timer.tima) * f >= f;
  }
}
