/** src/cpu/timer.c: DIV, TIMA, the delayed reload and the delayed IME. */
module TimerModel {
  import opened Words
  import opened MachineState

  const IRQ_TIMA: BitIndex := 2

  /** Ticks between two TIMA increments: `g_freq_divider[tac & 3] / 4`. */
  function Period(tac: u8): (f: nat)
    ensures f == 4 || f == 16 || f == 64 || f == 256
  {
    if tac % 4 == 0 then 256 else if tac % 4 == 1 then 4 else if tac % 4 == 2 then 16 else 64
  }

  predicate Enabled(tac: u8) { tac / 4 % 2 == 1 }

  /** The value TIMA counts on from: the reload still owed wins. */
  function Effective(t: Timer): u8 { if t.overflow then t.tma else t.tima }

  /** TIMA increments owed to n ticks that start from divider value div. */
  function Increments(tac: u8, div: nat, n: nat): (k: nat)
  {
    var f := Period(tac);
    DivMonotonic(div, div + n, f);
    if Enabled(tac) then (div + n) / f - div / f else 0
  }

  lemma DivMonotonic(x: nat, y: nat, f: nat)
    requires x <= y && f in {4, 16, 64, 256}
    ensures x / f <= y / f
  {
  }

  /** The timer registers after one call `timer_ticks(n)`. */
  function Advance(t: Timer, n: u8): Timer {
    var k := Increments(t.tac, t.div, n);
    var tima := Effective(t);
    Timer((t.div + n) % 0x10000,
          if k == 0 then tima else if tima == 0xFF then 0 else (tima + k) % 0x100,
          t.tma, t.tac,
          k != 0 && tima == 0xFF)
  }

  /** The machine after one call `timer_ticks(n)`. */
  function TimerTicks(s: State, n: u8): State {
    s.(timer := Advance(s.timer, n),
       iflag := if s.timer.overflow then WithBit(s.iflag, IRQ_TIMA, true) else s.iflag,
       ime := s.ime || s.imeScheduled,
       imeScheduled := false,
       clock := s.clock + n)
  }

  function Tick(s: State): State { TimerTicks(s, 1) }

  // ----- any number of single ticks -----

  function AdvanceN(t: Timer, n: nat): Timer {
    if n == 0 then t else Advance(AdvanceN(t, n - 1), 1)
  }

  function TickN(s: State, n: nat): State {
    if n == 0 then s else Tick(TickN(s, n - 1))
  }

  /** How many of n single ticks overflow TIMA. */
  function Overflows(t: Timer, n: nat): nat {
    if n == 0 then 0 else Overflows(t, n - 1) + (if AdvanceN(t, n).overflow then 1 else 0)
  }

  /** How many of n single ticks raise the timer interrupt. */
  function Requests(t: Timer, n: nat): nat {
    if n == 0 then 0 else Requests(t, n - 1) + (if AdvanceN(t, n - 1).overflow then 1 else 0)
  }

  // ----- closed forms -----

  /** Overflows caused by k increments of a counter at e that reloads with tma. */
  function OverflowCount(e: u8, tma: u8, k: nat): nat {
    if k < 0x100 - e then 0 else 1 + (k - (0x100 - e)) / (0x100 - tma)
  }

  /** The counter after those k increments. */
  function CounterAfter(e: u8, tma: u8, k: nat): nat {
    if k < 0x100 - e then e + k else tma + (k - (0x100 - e)) % (0x100 - tma)
  }

  lemma DivModSucc(x: nat, m: nat)
    requires m > 0
    ensures if x % m == m - 1 then (x + 1) / m == x / m + 1 && (x + 1) % m == 0
            else (x + 1) / m == x / m && (x + 1) % m == x % m + 1
  {
    var q, r := x / m, x % m;
    assert x == m * q + r;
    if r == m - 1 {
      assert x + 1 == m * (q + 1);
      DivModUnique(x + 1, m, q + 1, 0);
    } else {
      DivModUnique(x + 1, m, q, r + 1);
    }
  }

  lemma DivModUnique(x: nat, m: nat, q: nat, r: nat)
    requires m > 0 && r < m && x == m * q + r
    ensures x / m == q && x % m == r
  {
    var q', r' := x / m, x % m;
    assert x == m * q' + r';
    if q > q' {
      MulAtLeast(m, q - q');
    } else if q < q' {
      MulAtLeast(m, q' - q);
    }
  }

  lemma MulAtLeast(m: nat, d: nat)
    requires d > 0
    ensures m * d >= m
  {
    if d > 1 {
      MulAtLeast(m, d - 1);
    }
  }

  /** One more increment moves the counter by one, or reloads it from 0xFF. */
  lemma CounterStep(e: u8, tma: u8, k: nat)
    ensures CounterAfter(e, tma, k) < 0x100
    ensures CounterAfter(e, tma, k + 1) == if CounterAfter(e, tma, k) == 0xFF then tma else CounterAfter(e, tma, k) + 1
    ensures OverflowCount(e, tma, k + 1) == OverflowCount(e, tma, k) + if CounterAfter(e, tma, k) == 0xFF then 1 else 0
  {
    var m := 0x100 - tma;
    if k >= 0x100 - e {
      DivModSucc(k - (0x100 - e), m);
    } else if k + 1 == 0x100 - e {
      DivModUnique(0, m, 0, 0);
    }
  }

  lemma PeriodStep(f: nat, x: nat)
    requires f == 4 || f == 16 || f == 64 || f == 256
    ensures (x + 1) / f == x / f + if (x + 1) % f == 0 then 1 else 0
    ensures (x % 0x10000 + 1) % f == (x + 1) % f
  {
    DivModSucc(x, f);
    var c := if f == 4 then 0x4000 else if f == 16 then 0x1000 else if f == 64 then 0x400 else 0x100;
    WrapKeepsPhase(f, c, x);
  }

  lemma WrapKeepsPhase(f: nat, c: nat, x: nat)
    requires f > 0 && f * c == 0x10000
    ensures (x % 0x10000 + 1) % f == (x + 1) % f
  {
    var q, y := x / 0x10000, x % 0x10000;
    var a, b := (y + 1) / f, (y + 1) % f;
    assert y + 1 == f * a + b;
    assert f * (c * q) == f * c * q;
    assert f * (a + c * q) == f * a + f * (c * q);
    DivModUnique(x + 1, f, a + c * q, b);
  }

  /** One more tick gives at most one more increment, wherever DIV wraps. */
  lemma IncrementsStep(tac: u8, div: nat, n: nat)
    ensures Increments(tac, div, n + 1) == Increments(tac, div, n) + Increments(tac, (div + n) % 0x10000, 1)
    ensures Increments(tac, (div + n) % 0x10000, 1)
         == if Enabled(tac) && (div + n + 1) % Period(tac) == 0 then 1 else 0
  {
    var x, f := div + n, Period(tac);
    PeriodStep(f, x);
    PeriodStep(f, x % 0x10000);
    assert x % 0x10000 % 0x10000 == x % 0x10000;
    DivMonotonic(div, x, f);
  }

  /** What one tick does, given how many increments (0 or 1) it owes. */
  lemma AdvanceOne(t: Timer, k: nat)
    requires k == Increments(t.tac, t.div, 1) <= 1
    ensures var u := Advance(t, 1);
      && u.div == (t.div + 1) % 0x10000 && u.tma == t.tma && u.tac == t.tac
      && (u.overflow <==> k == 1 && Effective(t) == 0xFF)
      && u.tima == (if k == 0 then Effective(t) else if Effective(t) == 0xFF then 0 else Effective(t) + 1)
  {
  }

  lemma WrapSucc(d: nat)
    ensures (d % 0x10000 + 1) % 0x10000 == (d + 1) % 0x10000
  {
  }

  lemma {:induction false} DividerClosedForm(t: Timer, n: nat)
    ensures var u := AdvanceN(t, n); u.div == (t.div + n) % 0x10000 && u.tma == t.tma && u.tac == t.tac
  {
    if n > 0 {
      DividerClosedForm(t, n - 1);
      WrapSucc(t.div + n - 1);
    } else {
      assert t.div % 0x10000 == t.div;
    }
  }

  /** Closed form of the timer over any number of ticks, across any number of
      DIV wraps and TIMA reloads. */
  lemma {:induction false} TimerClosedForm(t: Timer, n: nat)
    ensures var u := AdvanceN(t, n);
      var k := Increments(t.tac, t.div, n);
      && u.div == (t.div + n) % 0x10000 && u.tma == t.tma && u.tac == t.tac
      && Effective(u) == CounterAfter(Effective(t), t.tma, k)
      && Overflows(t, n) == OverflowCount(Effective(t), t.tma, k)
      && (u.overflow <==> if n == 0 then t.overflow else Overflows(t, n) > Overflows(t, n - 1))
      && u.tima == if n == 0 then t.tima else if u.overflow then 0 else CounterAfter(Effective(t), t.tma, k)
  {
    hide Increments, Advance, OverflowCount, CounterAfter;
    DividerClosedForm(t, n);
    var e := Effective(t);
    if n > 0 {
      TimerClosedForm(t, n - 1);
      var v := AdvanceN(t, n - 1);
      var k, d := Increments(t.tac, t.div, n - 1), Increments(t.tac, v.div, 1);
      IncrementsStep(t.tac, t.div, n - 1);
      AdvanceOne(v, d);
      CounterStep(e, t.tma, k);
    } else {
      NoIncrements(t, e);
    }
  }

  lemma NoIncrements(t: Timer, e: u8)
    ensures Increments(t.tac, t.div, 0) == 0
    ensures CounterAfter(e, t.tma, 0) == e && OverflowCount(e, t.tma, 0) == 0
  {
  }

  /** Every overflow is requested exactly once, one tick later: none is lost
      and none is invented, in any run of single ticks. */
  lemma {:induction false} OverflowsAreRequested(t: Timer, n: nat)
    ensures Overflows(t, n) + (if t.overflow then 1 else 0)
         == Requests(t, n) + (if AdvanceN(t, n).overflow then 1 else 0)
  {
    if n > 0 {
      OverflowsAreRequested(t, n - 1);
    }
  }
}
