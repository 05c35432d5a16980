/** The timer in numbers: rates by TAC, closed values, the registers as the bus
    shows them, and the wake-up from HALT.  (src/cpu/timer.c) */
module TimerNumbers {
  import opened Words
  import opened MachineState
  import opened TimerModel
  import opened TimerBatch
  import opened Interrupts
  import opened RunProperties
  import Bus

  /** The rates: off, or by the low two bits of TAC. */
  lemma RateByTac(tac: u8)
    ensures Enabled(tac) <==> tac % 8 >= 4
    ensures tac % 8 in {0, 4} ==> Period(tac) == 256
    ensures tac % 8 in {1, 5} ==> Period(tac) == 4
    ensures tac % 8 in {2, 6} ==> Period(tac) == 16
    ensures tac % 8 in {3, 7} ==> Period(tac) == 64
  {
  }

  /** Increments owed to n ticks from divider value div: none with bit 2 of TAC
      clear, else one for every 256, 4, 16 or 64 ticks by its low two bits,
      counted from where the divider is. */
  lemma IncrementsByTac(tac: u8, div: nat, n: nat)
    ensures tac % 8 < 4 ==> Increments(tac, div, n) == 0
    ensures tac % 8 == 4 ==> Increments(tac, div, n) == (div + n) / 256 - div / 256
    ensures tac % 8 == 5 ==> Increments(tac, div, n) == (div + n) / 4 - div / 4
    ensures tac % 8 == 6 ==> Increments(tac, div, n) == (div + n) / 16 - div / 16
    ensures tac % 8 == 7 ==> Increments(tac, div, n) == (div + n) / 64 - div / 64
  {
    hide Period, Enabled;
    RateByTac(tac);
  }

  /** k is that number. */
  ghost predicate Owed(tac: u8, div: nat, n: nat, k: nat) {
    k == if tac % 8 < 4 then 0 else if tac % 8 == 4 then (div + n) / 256 - div / 256
         else if tac % 8 == 5 then (div + n) / 4 - div / 4
         else if tac % 8 == 6 then (div + n) / 16 - div / 16 else (div + n) / 64 - div / 64
  }

  lemma OwedIncrements(tac: u8, div: nat, n: nat, k: nat)
    requires Owed(tac, div, n, k)
    ensures k == Increments(tac, div, n)
  {
    hide Increments;
    IncrementsByTac(tac, div, n);
  }

  lemma OverflowsGrow(t: Timer, n: nat)
    requires n > 0
    ensures Overflows(t, n - 1) <= Overflows(t, n)
  {
    hide AdvanceN;
  }

  /** The closed form without the model's own terms: after n ticks that owe k
      increments, DIV has moved by n; TIMA has moved by k from its start (TMA,
      if a reload was owed) and not overflowed if k leaves it below 256; else
      it has overflowed once and then once for every 256 - TMA increments, and
      counts on from TMA.  In the tick after an overflow it shows 0. */
  lemma TimerByNumbers(t: Timer, n: nat, k: nat)
    requires n > 0 && Owed(t.tac, t.div, n, k)
    ensures var u, e: int := AdvanceN(t, n), if t.overflow then t.tma else t.tima;
      && u.div == (t.div + n) % 0x10000 && u.tma == t.tma && u.tac == t.tac
      && (e + k < 0x100 ==> Overflows(t, n) == 0 && !u.overflow && u.tima == e + k)
      && (e + k >= 0x100 ==>
            && Overflows(t, n) == 1 + (e + k - 0x100) / (0x100 - t.tma)
            && u.tima == if u.overflow then 0 else t.tma + (e + k - 0x100) % (0x100 - t.tma))
  {
    hide Increments, AdvanceN, Overflows, OverflowCount, CounterAfter, Owed;
    OwedIncrements(t.tac, t.div, n, k);
    TimerClosedForm(t, n);
    TimerClosedForm(t, n - 1);
    OverflowsGrow(t, n);
    if Effective(t) + k < 0x100 {
      NoOverflow(Effective(t), t.tma, k);
    } else {
      Reloaded(Effective(t), t.tma, k);
    }
  }

  lemma Reloaded(e: u8, tma: u8, k: nat)
    requires e + k >= 0x100
    ensures OverflowCount(e, tma, k) == 1 + (e + k - 0x100) / (0x100 - tma)
    ensures CounterAfter(e, tma, k) == tma + (e + k - 0x100) % (0x100 - tma)
  {
    assert k - (0x100 - e) == e + k - 0x100;
  }

  /** The timer seen from the bus: TAC is written to 0xFF07, n ticks pass, and
      DIV, TIMA and IF are read at 0xFF04, 0xFF05 and 0xFF0F.  IF has bit 2 if
      it had, if a reload was owed, or if TIMA overflowed before the last tick. */
  lemma TimerOnBus(s: State, v: u8, n: nat, k: nat, before: nat)
    requires n > 0 && Owed(v, s.timer.div, n, k) && Owed(v, s.timer.div, n - 1, before)
    ensures var t, e: int := TickN(Bus.Write(s, 0xFF07, v), n), if s.timer.overflow then s.timer.tma else s.timer.tima;
      && Bus.Read(t, 0xFF04) == (s.timer.div + n) % 0x10000 / 0x100
      && (e + k < 0x100 ==> Bus.Read(t, 0xFF05) == e + k)
      && (e + k >= 0x100 ==>
            Bus.Read(t, 0xFF05) in {0, s.timer.tma + (e + k - 0x100) % (0x100 - s.timer.tma)})
      && (Bit(Bus.Read(t, 0xFF0F), 2) <==> Bit(s.iflag, 2) || s.timer.overflow || s.timer.tima + before >= 0x100)
  {
    hide Increments, AdvanceN, Overflows, Requests, Bit, WithBit, TickN;
    TacWritten(s, v);
    var w := Bus.Write(s, 0xFF07, v);
    TickNState(w, n);
    OwedByLowBits(s.timer.tac / 8 * 8 + v % 8, v, s.timer.div, n, k);
    OwedByLowBits(s.timer.tac / 8 * 8 + v % 8, v, s.timer.div, n - 1, before);
    TimerByNumbers(w.timer, n, k);
    RequestedBy(w.timer, n, before);
    BitOfWithBit(s.iflag, 2, true);
    RegistersShown(TickN(w, n));
  }

  lemma TacWritten(s: State, v: u8)
    ensures Bus.Write(s, 0xFF07, v) == s.(timer := s.timer.(tac := s.timer.tac / 8 * 8 + v % 8))
  {
  }

  /** Where the registers are. */
  lemma RegistersShown(s: State)
    ensures Bus.Read(s, 0xFF04) == s.timer.div / 0x100 && Bus.Read(s, 0xFF05) == s.timer.tima
    ensures Bus.Read(s, 0xFF06) == s.timer.tma && Bus.Read(s, 0xFF07) == s.timer.tac % 8
    ensures Bus.Read(s, 0xFF0F) == s.iflag && Bus.Read(s, 0xFFFF) == s.ie
  {
  }

  lemma OwedByLowBits(tac: u8, v: u8, div: nat, n: nat, k: nat)
    requires tac % 8 == v % 8
    ensures Owed(tac, div, n, k) == Owed(v, div, n, k)
  {
  }

  /** A request has been raised within n ticks if a reload was owed or TIMA
      overflowed in all but the last. */
  lemma RequestedBy(t: Timer, n: nat, k: nat)
    requires n > 0 && Owed(t.tac, t.div, n - 1, k)
    ensures Requests(t, n) > 0 <==> t.overflow || t.tima + k >= 0x100
  {
    hide Increments, AdvanceN, Overflows, Requests, OverflowCount, CounterAfter, Owed;
    RequestsAfterOverflows(t, n);
    OwedIncrements(t.tac, t.div, n - 1, k);
    TimerClosedForm(t, n - 1);
    OverflowStarts(Effective(t), t.tma, k);
  }

  /** The wake-up from HALT in numbers: with TAC 4, 5, 6 or 7, bit 2 of IE set,
      no source both requested and enabled and no reload owed, after 256 - TIMA
      periods of 256, 4, 16 or 64 ticks, less what of one has passed, and one. */
  lemma WakeByNumbers(s: State)
    requires 4 <= s.timer.tac % 8 && Bit(s.ie, 2) && !s.timer.overflow
    requires forall k: Source :: !(Bit(s.iflag, k) && Bit(s.ie, k))
    ensures var c := s.timer.tac % 8;
      var f := if c == 4 then 256 else if c == 5 then 4 else if c == 6 then 16 else 64;
      WakePasses(s) == Some((0x100 - s.timer.tima) * f - s.timer.div % f + 1)
  {
    hide Bit, Period, Enabled;
    RateByTac(s.timer.tac);
    assert PendingList(s) == [];
  }
}
