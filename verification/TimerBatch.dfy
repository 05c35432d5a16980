/** `timer_ticks(n)` against n calls of `timer_ticks(1)`. */
module TimerBatch {
  import opened Words
  import opened MachineState
  import opened TimerModel

  /** A run of ticks touches the timer, IF and the IME flags; nothing else. */
  lemma {:induction false} TickNState(s: State, n: nat)
    ensures TickN(s, n) == if n == 0 then s else s.(
      timer := AdvanceN(s.timer, n),
      iflag := if Requests(s.timer, n) > 0 then WithBit(s.iflag, IRQ_TIMA, true) else s.iflag,
      ime := s.ime || s.imeScheduled,
      imeScheduled := false,
      clock := s.clock + n)
  {
    if n > 0 {
      TickNState(s, n - 1);
      WithBitTwice(s.iflag, IRQ_TIMA);
      assert Requests(s.timer, 0) == 0;
    }
  }

  lemma NoOverflow(e: u8, tma: u8, k: nat)
    requires e + k <= 0xFF
    ensures OverflowCount(e, tma, k) == 0 && CounterAfter(e, tma, k) == e + k
  {
  }

  /** One batch is the same as that many single ticks as long as the counter
      does not pass 0xFF on the way. */
  lemma BatchIsSingles(s: State, n: u8)
    requires n > 0
    requires Effective(s.timer) + Increments(s.timer.tac, s.timer.div, n) <= 0xFF
    ensures TimerTicks(s, n) == TickN(s, n)
  {
    hide Increments, OverflowCount, CounterAfter, AdvanceN, Requests, WithBit;
    var t := s.timer;
    TickNState(s, n);
    TimerClosedForm(t, n);
    OverflowsAreRequested(t, n);
    NoOverflow(Effective(t), t.tma, Increments(t.tac, t.div, n));
    assert Overflows(t, n) == 0 && Overflows(t, n - 1) == 0;
    assert !AdvanceN(t, n).overflow;
  }

  /** The last of n ticks is one at which an enabled timer counts. */
  predicate LastCounts(t: Timer, n: nat) { (t.div + n) % Period(t.tac) == 0 }

  /** Exactly when a batch of n ticks does what n single ticks do.  Either the
      counter does not pass 0xFF on the way; or it starts from there and the
      last tick wraps it, for the first time unless the request is already
      in IF or on its way; or it wraps without reload (TMA is zero), the
      request is already there, and the wrap is not the last tick's. */
  predicate BatchFits(s: State, n: u8) {
    var t := s.timer;
    var e, k := Effective(t), Increments(t.tac, t.div, n);
    var requested := t.overflow || Bit(s.iflag, IRQ_TIMA);
    if n == 0 then !t.overflow && !s.imeScheduled
    else if e + k <= 0xFF then true
    else if e == 0xFF then LastCounts(t, n) && (k - 1) % (0x100 - t.tma) == 0 && (requested || k == 1)
    else t.tma == 0 && requested && !(LastCounts(t, n) && e + k == 0x100)
  }

  /** The number of increments at which the counter wraps. */
  lemma WrapPoint(e: u8, tma: u8, k: nat)
    requires k > 0
    ensures CounterAfter(e, tma, k - 1) == 0xFF <==> k >= 0x100 - e && (k - (0x100 - e)) % (0x100 - tma) == 0
  {
    if k > 0x100 - e {
      DivModSucc(k - 1 - (0x100 - e), 0x100 - tma);
    } else if k == 0x100 - e {
      DivModUnique(0, 0x100 - tma, 0, 0);
    }
  }

  /** After n single ticks TIMA has just overflowed exactly if the last of
      them counts and the counter wraps at it. */
  lemma OverflowsAtLast(t: Timer, n: nat)
    requires n > 0
    ensures var e, k := Effective(t), Increments(t.tac, t.div, n);
      AdvanceN(t, n).overflow <==>
        LastCounts(t, n) && k > 0 && k >= 0x100 - e && (k - (0x100 - e)) % (0x100 - t.tma) == 0
  {
    hide AdvanceN, Overflows, OverflowCount, CounterAfter;
    var e, k, j := Effective(t), Increments(t.tac, t.div, n), Increments(t.tac, t.div, n - 1);
    TimerClosedForm(t, n);
    TimerClosedForm(t, n - 1);
    IncrementsStep(t.tac, t.div, n - 1);
    CounterStep(e, t.tma, j);
    if k == j + 1 {
      WrapPoint(e, t.tma, k);
    }
  }

  lemma IncrementsBound(tac: u8, div: u16, n: u8)
    ensures Increments(tac, div, n) <= 0x40
  {
    var f := Period(tac);
    if f == 4 {} else if f == 16 {} else if f == 64 {} else {}
  }

  lemma RequestAgain(v: u8)
    ensures WithBit(v, IRQ_TIMA, true) == v <==> Bit(v, IRQ_TIMA)
  {
    BitOfPutBit(8, v, IRQ_TIMA, true, IRQ_TIMA);
    PutBitNoop(8, v, IRQ_TIMA);
  }

  /** The parts in which batch and singles can differ. */
  lemma BatchByParts(s: State, n: u8)
    requires n > 0
    ensures var b, u := Advance(s.timer, n), AdvanceN(s.timer, n);
      TimerTicks(s, n) == TickN(s, n) <==>
        && b.overflow == u.overflow && b.tima == u.tima
        && (s.timer.overflow || Requests(s.timer, n) == 0 || Bit(s.iflag, IRQ_TIMA))
  {
    hide Increments, AdvanceN, Requests, Overflows, WithBit, Bit;
    TickNState(s, n);
    DividerClosedForm(s.timer, n);
    RequestAgain(s.iflag);
    InitialIsRequested(s.timer, n);
  }

  lemma {:induction false} InitialIsRequested(t: Timer, n: nat)
    requires n > 0
    ensures t.overflow ==> Requests(t, n) > 0
  {
    hide Advance;
    if n > 1 {
      InitialIsRequested(t, n - 1);
    } else {
      assert AdvanceN(t, 0) == t;
    }
  }

  /** From 0xFF, an increment at which the counter wraps is the first to do so
      only if it is the first of all. */
  lemma WrapsOnce(tma: u8, k: nat)
    requires k > 0
    ensures OverflowCount(0xFF, tma, k) >= 1
    ensures (k - 1) % (0x100 - tma) == 0 ==> (OverflowCount(0xFF, tma, k) == 1 <==> k == 1)
  {
    ZeroQuotient(k - 1, 0x100 - tma);
  }

  lemma ZeroQuotient(x: nat, m: nat)
    requires m > 0
    ensures x / m >= 0
    ensures x % m == 0 ==> (x / m == 0 <==> x == 0)
  {
    var q, r := x / m, x % m;
    assert x == m * q + r;
    if x == 0 {
      DivModUnique(0, m, 0, 0);
    }
  }

  lemma WrapFromTop(s: State, n: u8)
    requires n > 0 && Effective(s.timer) == 0xFF && Increments(s.timer.tac, s.timer.div, n) > 0
    ensures TimerTicks(s, n) == TickN(s, n) <==> BatchFits(s, n)
  {
    hide TimerTicks, TickN, Increments, AdvanceN, Requests, Overflows, OverflowCount, CounterAfter, Bit, LastCounts;
    var t := s.timer;
    var k := Increments(t.tac, t.div, n);
    BatchByParts(s, n);
    TimerClosedForm(t, n);
    OverflowsAreRequested(t, n);
    OverflowsAtLast(t, n);
    WrapsOnce(t.tma, k);
  }

  lemma CountedPast(e: u8, tma: u8, k: nat, x: nat)
    requires e + k == 0x100 + x
    ensures OverflowCount(e, tma, k) >= 1 && CounterAfter(e, tma, k) == tma + x % (0x100 - tma)
  {
    assert k - (0x100 - e) == x;
    assert x / (0x100 - tma) >= 0;
  }

  /** Single ticks that take the counter from below 0xFF past it. */
  lemma SinglesWrap(t: Timer, n: nat, x: nat)
    requires n > 0 && Effective(t) + Increments(t.tac, t.div, n) == 0x100 + x
    ensures var u, m := AdvanceN(t, n), 0x100 - t.tma;
      && (u.overflow <==> LastCounts(t, n) && x % m == 0)
      && (!u.overflow ==> u.tima == t.tma + x % m && Requests(t, n) > 0)
  {
    hide Increments, AdvanceN, Requests, Overflows, OverflowCount, CounterAfter, LastCounts;
    var e: int, k := Effective(t), Increments(t.tac, t.div, n);
    assert k > 0 && k - (0x100 - e) == x;
    TimerClosedForm(t, n);
    OverflowsAreRequested(t, n);
    OverflowsAtLast(t, n);
    CountedPast(e, t.tma, k, x);
  }

  lemma BatchWraps(t: Timer, n: u8, x: nat)
    requires Effective(t) < 0xFF && Effective(t) + Increments(t.tac, t.div, n) == 0x100 + x
    ensures x < 0x3F && !Advance(t, n).overflow && Advance(t, n).tima == x
  {
    hide Increments;
    IncrementsBound(t.tac, t.div, n);
  }

  lemma WrapInside(s: State, n: u8, x: nat)
    requires n > 0 && Effective(s.timer) < 0xFF
    requires Effective(s.timer) + Increments(s.timer.tac, s.timer.div, n) == 0x100 + x
    ensures TimerTicks(s, n) == TickN(s, n) <==> BatchFits(s, n)
  {
    hide TimerTicks, TickN, Increments, AdvanceN, Advance, Requests, Bit, LastCounts;
    var t := s.timer;
    BatchByParts(s, n);
    BatchWraps(t, n, x);
    SinglesWrap(t, n, x);
    ReloadShows(x, t.tma);
  }

  /** A reload value other than zero shows in the counter after few increments. */
  lemma ReloadShows(x: nat, tma: u8)
    requires x < 0x40
    ensures tma + x % (0x100 - tma) == x <==> tma == 0
    ensures tma == 0 ==> (x % (0x100 - tma) == 0 <==> x == 0)
  {
    if x < 0x100 - tma {
      DivModUnique(x, 0x100 - tma, 0, x);
    }
  }

  /** The exact condition, for batches of every size. */
  lemma BatchExact(s: State, n: u8)
    ensures TimerTicks(s, n) == TickN(s, n) <==> BatchFits(s, n)
  {
    var e, k := Effective(s.timer), Increments(s.timer.tac, s.timer.div, n);
    if n == 0 {
      NoTicks(s);
    } else if e + k <= 0xFF {
      BatchIsSingles(s, n);
    } else if e == 0xFF {
      WrapFromTop(s, n);
    } else {
      WrapInside(s, n, e + k - 0x100);
    }
  }

  lemma NoTicks(s: State)
    ensures TimerTicks(s, 0) == TickN(s, 0) <==> !s.timer.overflow && !s.imeScheduled
  {
  }

  /** For the batches of at most four ticks (the source's own are of one and
      two): they agree unless TIMA wraps inside the batch, before its last tick. */
  lemma SmallBatchExact(s: State, n: u8)
    requires 1 <= n <= 4
    ensures TimerTicks(s, n) == TickN(s, n) <==>
      !(&& Effective(s.timer) == 0xFF
        && Increments(s.timer.tac, s.timer.div, n) == 1
        && (s.timer.div + n) % Period(s.timer.tac) != 0)
  {
    hide TimerTicks, TickN, Increments, Period;
    AtMostOne(s.timer.tac, s.timer.div, n);
    BatchExact(s, n);
    DivModUnique(0, 0x100 - s.timer.tma, 0, 0);
  }

  lemma AtMostOne(tac: u8, div: u16, n: nat)
    requires n <= 4
    ensures Increments(tac, div, n) <= 1
  {
    var f := Period(tac);
    if f == 4 {} else if f == 16 {} else if f == 64 {} else {}
  }

  /** The condition does fail: from TIMA 0xFF three clocks into a period of
      four, two single ticks reload TIMA, one batch of two leaves it at 0. */
  lemma SmallBatchCanDiffer(s: State)
    requires s.timer == Timer(3, 0xFF, 0x15, 5, false)
    ensures TimerTicks(s, 2).timer == Timer(5, 0, 0x15, 5, true)
    ensures TickN(s, 2).timer == Timer(5, 0x15, 0x15, 5, false)
  {
    assert Advance(Timer(3, 0xFF, 0x15, 5, false), 1) == Timer(4, 0, 0x15, 5, true);
    assert Advance(Timer(4, 0, 0x15, 5, true), 1) == Timer(5, 0x15, 0x15, 5, false);
    hide Advance;
    assert AdvanceN(s.timer, 1) == Advance(AdvanceN(s.timer, 0), 1);
    TickNState(s, 2);
  }
}
