/** src/cartridge/mbc3.c: the real-time clock, `update_rtc` and `latch_rtc`. */
module RtcModel {
  import opened Words

  const MINUTE: nat := 60
  const HOUR: nat := 3600
  const DAY: nat := 86400
  /** What the four counting fields below the day's high bit can hold. */
  const SPAN: nat := 0x100 * DAY

  /** Seconds, minutes, hours, days (low byte), days (high bit, halt, carry). */
  type Fields = w: seq<u8> | |w| == 5 witness [0, 0, 0, 0, 0]

  datatype Clock = Clock(time: int, writable: Fields, readable: Fields)

  /** Seconds the code accepts as elapsed: none when bit 6 of the stored time
      is set or the host clock has not moved on. */
  function Accepted(time: int, now: int): nat {
    if time / 64 % 2 == 0 && now > time then now - time else 0
  }

  /** Seconds in the fields without and with the day's high bit. */
  function LowSeconds(w: Fields): nat { w[0] + MINUTE * w[1] + HOUR * w[2] + DAY * w[3] }
  function Seconds(w: Fields): nat { LowSeconds(w) + SPAN * (w[4] % 2) }

  /** How often the low fields wrap when seconds are carried into them. */
  function Wraps(seconds: nat): nat { seconds / SPAN }

  /** The fields after carrying: mixed radix 60, 60, 24, 256, and the flag byte
      the code makes of the number of wraps. */
  function Carried(seconds: nat, flags: u8): Fields {
    var q := Wraps(seconds);
    [seconds % 60, seconds / MINUTE % 60, seconds / HOUR % 24, seconds / DAY % 0x100,
     WithBit(WithBit(flags, 0, q / 2 % 2 == 1), 7, Bit(flags, 7) || q > 0)]
  }

  /** `update_rtc` at host time now. */
  function Update(c: Clock, now: int): Clock {
    c.(time := now, writable := Carried(Accepted(c.time, now) + Seconds(c.writable), c.writable[4]))
  }

  datatype Event = Updated(now: int) | Latched(now: int)

  function Apply(c: Clock, e: Event): Clock {
    var u := Update(c, e.now);
    if e.Latched? then u.(readable := u.writable) else u
  }

  function Run(c: Clock, es: seq<Event>): Clock
    decreases |es|
  {
    if es == [] then c else Apply(Run(c, es[..|es| - 1]), es[|es| - 1])
  }

  /** The elapsed time accepted over a run. */
  function Elapsed(c: Clock, es: seq<Event>): nat
    decreases |es|
  {
    if es == [] then 0
    else Elapsed(c, es[..|es| - 1]) + Accepted(Run(c, es[..|es| - 1]).time, es[|es| - 1].now)
  }

  predicate InRange(w: Fields) { w[0] < 60 && w[1] < 60 && w[2] < 24 }

  lemma MixedRadix(n: nat)
    ensures n % 60 + MINUTE * (n / MINUTE % 60) + HOUR * (n / HOUR % 24) + DAY * (n / DAY % 0x100) == n % SPAN
  {
    var m, h, d := n / MINUTE, n / HOUR, n / DAY;
    assert m / 60 == h && h / 24 == d && d / 0x100 == n / SPAN;
  }

  /** One update carries exactly: nothing of the old value or of the elapsed
      time is lost but whole spans. */
  lemma UpdateConserves(c: Clock, now: int)
    ensures var w := Update(c, now).writable;
      InRange(w) && LowSeconds(w) == (Accepted(c.time, now) + Seconds(c.writable)) % SPAN
  {
    MixedRadix(Accepted(c.time, now) + Seconds(c.writable));
  }

  /** Elapsed time is conserved modulo 256 days over any run of updates and
      latches. */
  lemma {:induction false} RunConserves(c: Clock, es: seq<Event>)
    ensures LowSeconds(Run(c, es).writable) % SPAN == (LowSeconds(c.writable) + Elapsed(c, es)) % SPAN
    ensures es != [] ==> InRange(Run(c, es).writable) && Run(c, es).time == es[|es| - 1].now
    decreases |es|
  {
    if es != [] {
      var n := |es| - 1;
      RunConserves(c, es[..n]);
      var before := Run(c, es[..n]);
      UpdateConserves(before, es[n].now);
      ModSum(LowSeconds(before.writable), before.writable[4] % 2, Accepted(before.time, es[n].now),
             LowSeconds(c.writable) + Elapsed(c, es[..n]));
    }
  }

  /** One update in numbers: the fields come to the seconds they held, the high
      day bit's 256 days, and what the host clock has moved on by, unless it
      has not or bit 6 of the stored time is set; modulo 256 days. */
  lemma UpdateByNumbers(c: Clock, now: int)
    ensures var v, w := c.writable, Update(c, now).writable;
      var elapsed := if now <= c.time || c.time / 64 % 2 == 1 then 0 else now - c.time;
      && w[0] < 60 && w[1] < 60 && w[2] < 24
      && w[0] + 60 * w[1] + 3600 * w[2] + 86400 * (w[3] as int)
      == (v[0] + 60 * v[1] + 3600 * v[2] + 86400 * (v[3] as int) + 22118400 * (v[4] as int % 2) + elapsed) % 22118400
      && Update(c, now).time == now
  {
    UpdateConserves(c, now);
  }

  /** The time the clock was last set to before event i. */
  function TimeBefore(c: Clock, es: seq<Event>, i: nat): int
    requires i <= |es|
  {
    if i == 0 then c.time else es[i - 1].now
  }

  /** While the host clock does not go back and no time stored on the way has
      bit 6 set, what is accepted is all that passes. */
  lemma {:induction false} AcceptsAllThatPasses(c: Clock, es: seq<Event>)
    requires forall i :: 0 <= i < |es| ==> TimeBefore(c, es, i) <= es[i].now && TimeBefore(c, es, i) / 64 % 2 == 0
    ensures Elapsed(c, es) == TimeBefore(c, es, |es|) - c.time
    decreases |es|
  {
    if es != [] {
      var n := |es| - 1;
      forall i | 0 <= i < n
        ensures TimeBefore(c, es[..n], i) == TimeBefore(c, es, i)
      {
      }
      AcceptsAllThatPasses(c, es[..n]);
      RunConserves(c, es[..n]);
      assert TimeBefore(c, es[..n], n) == TimeBefore(c, es, n);
      assert Run(c, es[..n]).time == TimeBefore(c, es, n);
    }
  }

  /** So over such a run the clock runs by the host's: nothing is lost. */
  lemma KeepsTime(c: Clock, es: seq<Event>)
    requires forall i :: 0 <= i < |es| ==> TimeBefore(c, es, i) <= es[i].now && TimeBefore(c, es, i) / 64 % 2 == 0
    ensures LowSeconds(Run(c, es).writable) % SPAN
         == (LowSeconds(c.writable) + (TimeBefore(c, es, |es|) - c.time)) % SPAN
  {
    hide LowSeconds, Run, Elapsed, InRange;
    AcceptsAllThatPasses(c, es);
    RunConserves(c, es);
  }

  lemma ModSum(low: nat, high: nat, add: nat, other: nat)
    requires low % SPAN == other % SPAN
    ensures (add + (low + SPAN * high)) % SPAN % SPAN == (other + add) % SPAN
  {
    var a, b := low / SPAN, other / SPAN;
    var x := other + add;
    var q, m := x / SPAN, x % SPAN;
    assert add + low + SPAN * high == SPAN * (q + a - b + high) + m;
    Unique(add + low + SPAN * high, q + a - b + high, m);
    assert m % SPAN == m;
  }

  lemma Unique(x: nat, q: int, m: nat)
    requires m < SPAN && x == SPAN * q + m
    ensures x % SPAN == m
  {
  }

  /** The flag byte: bits 1 to 6 stay, the carry is never cleared. */
  lemma FlagsKept(c: Clock, now: int, j: BitIndex)
    requires j > 0
    ensures var before, after := c.writable[4], Update(c, now).writable[4];
      Bit(after, j) == (Bit(before, j) || (j == 7 && Wraps(Accepted(c.time, now) + Seconds(c.writable)) > 0))
  {
    hide Bit, WithBit, Wraps, Seconds, Accepted;
    FlagByteBits(c.writable[4], Wraps(Accepted(c.time, now) + Seconds(c.writable)), j);
  }

  lemma FlagByteBits(f: u8, q: nat, j: BitIndex)
    requires j > 0
    ensures Bit(WithBit(WithBit(f, 0, q / 2 % 2 == 1), 7, Bit(f, 7) || q > 0), j) == (Bit(f, j) || (j == 7 && q > 0))
  {
    hide Bit, PutBit;
    var low := q / 2 % 2 == 1;
    var g := WithBit(f, 0, low);
    BitOfPutBit(8, f, 0, low, j);
    BitOfPutBit(8, g, 7, Bit(f, 7) || q > 0, j);
  }

  /** The readable registers change only at a latch, and then show the clock. */
  lemma {:induction false} ReadableOnlyLatched(c: Clock, es: seq<Event>)
    ensures (forall i :: 0 <= i < |es| ==> es[i].Updated?) ==> Run(c, es).readable == c.readable
    ensures es != [] && es[|es| - 1].Latched? ==> Run(c, es).readable == Run(c, es).writable
    decreases |es|
  {
    if es != [] {
      ReadableOnlyLatched(c, es[..|es| - 1]);
    }
  }

  // ----- the ninth bit of the day counter -----

  const NINTH_BIT: nat := 0x100

  /** The day counter as Pan Docs describe it, 9 bits. */
  function Days(w: Fields): nat { w[3] + NINTH_BIT * (w[4] % 2) }

  lemma LowBit(flags: u8, q: nat)
    ensures var f := WithBit(WithBit(flags, 0, q / 2 % 2 == 1), 7, Bit(flags, 7) || q > 0);
      f % 2 == q / 2 % 2
  {
    var g := WithBit(flags, 0, q / 2 % 2 == 1);
    BitOfWithBit(flags, 0, q / 2 % 2 == 1);
    BitOfWithBit(g, 7, Bit(flags, 7) || q > 0);
    assert Bit(WithBit(g, 7, Bit(flags, 7) || q > 0), 0) == (q / 2 % 2 == 1);
  }

  /** The code takes the ninth day bit from bit 1 of the wrap count instead of
      bit 0, so the counter is the number of days modulo 512 exactly when those
      two bits agree; and it raises the carry from 256 days on instead of 512,
      so a clear carry becomes what it should exactly when the count is not 1. */
  lemma NinthDayBit(c: Clock, now: int)
    ensures var total := Accepted(c.time, now) + Seconds(c.writable);
      var w, q := Update(c, now).writable, Wraps(total);
      && (Days(w) == total / DAY % 0x200 <==> q % 4 == 0 || q % 4 == 3)
      && (!Bit(c.writable[4], 7) ==> ((Bit(w[4], 7) <==> total / DAY >= 0x200) <==> q != 1))
  {
    hide Accepted, Seconds, Bit, WithBit, Wraps;
    var total := Accepted(c.time, now) + Seconds(c.writable);
    var w, q := Update(c, now).writable, Wraps(total);
    DaysBySpans(total);
    LowBit(c.writable[4], q);
    FlagsKept(c, now, 7);
    assert w[3] == total / DAY % 0x100 && w[4] % 2 == q / 2 % 2;
    BitPairs(q);
  }

  lemma DaysBySpans(total: nat)
    ensures var q := Wraps(total);
      total / DAY % 0x200 == total / DAY % 0x100 + 0x100 * (q % 2) && (total / DAY >= 0x200 <==> q >= 2)
  {
    var d := total / DAY;
    assert d / 0x100 == Wraps(total);
  }

  lemma BitPairs(q: nat)
    ensures q / 2 % 2 == q % 2 <==> q % 4 == 0 || q % 4 == 3
  {
  }

  /** It does fail: one day after day 255 the counter shows day 0, carry set. */
  lemma DayAfter255(r: Fields)
    ensures var c := Update(Clock(0, [0, 0, 0, 0xFF, 0], r), 0x15180);
      Days(c.writable) == 0 && Bit(c.writable[4], 7)
  {
    var c := Clock(0, [0, 0, 0, 0xFF, 0], r);
    assert Accepted(0, 0x15180) + Seconds(c.writable) == SPAN;
    LowBit(0, 1);
    FlagsKept(c, 0x15180, 7);
  }

  // ----- the clock as the source keeps it -----

  class Rtc {
    var time: int
    const writable: array<u8>
    const readable: array<u8>

    ghost predicate Valid() { writable.Length == 5 && readable.Length == 5 && writable != readable }

    ghost function View(): Clock
      requires Valid()
      reads this, writable, readable
    {
      Clock(time, writable[..], readable[..])
    }

    /** Bit 6 of the stored time, by shifting. */
    function Halted(): bool
      reads this
    {
      time / 64 % 2 == 1
    }

    /** The first half of `update_rtc`: everything as one number of seconds. */
    method Gather(now: int) returns (diff: nat)
      requires Valid()
      ensures diff == Accepted(time, now) + Seconds(writable[..])
    {
      var sum: int := 0;
      if !Halted() && now > time {
        sum := now - time;
      }
      sum := sum + writable[0];
      sum := sum + MINUTE * writable[1];
      sum := sum + HOUR * writable[2];
      sum := sum + DAY * writable[3];
      sum := sum + SPAN * (writable[4] % 2);
      diff := sum;
    }

    /** `update_rtc`; the host clock is an argument. */
    method UpdateRtc(now: int)
      requires Valid()
      modifies this, writable
      ensures View() == Update(old(View()), now)
    {
      hide Accepted, Seconds, Carried;
      var diff := Gather(now);
      Spread(diff);
      time := now;
    }

    /** The second half: seconds, minutes, hours, days and flags from diff. */
    method Spread(diff: nat)
      requires Valid()
      modifies writable
      ensures writable[..] == Carried(diff, old(writable[4]))
    {
      hide Accepted, Seconds, Bit, WithBit;
      DivideDown(diff);
      FlagSteps(writable[4], Wraps(diff));
      var minutes := diff / 60;
      var hours := minutes / 60;
      var days := hours / 24;
      var wraps := days / 256;
      var flags := WithBit(writable[4], 0, wraps / 2 % 2 == 1);
      if wraps > 0 {
        flags := WithBit(flags, 7, true);
      }
      ghost var carried := Carried(diff, writable[4]);
      assert [diff % 60, minutes % 60, hours % 24, days % 256, flags] == carried;
      writable[0], writable[1], writable[2], writable[3] := diff % 60, minutes % 60, hours % 24, days % 256;
      writable[4] := flags;
      assert writable[..] == carried;
    }

    /** `latch_rtc`. */
    method LatchRtc(now: int)
      requires Valid()
      modifies this, writable, readable
      ensures View() == Apply(old(View()), Latched(now))
    {
      UpdateRtc(now);
      forall i | 0 <= i < 5 {
        readable[i] := writable[i];
      }
      assert readable[..] == writable[..];
    }
  }

  /** Dividing step by step is dividing by the products. */
  lemma DivideDown(n: nat)
    ensures n / 60 / 60 == n / HOUR && n / 60 / 60 / 24 == n / DAY && n / 60 / 60 / 24 / 256 == n / SPAN
  {
  }

  lemma FlagSteps(flags: u8, q: nat)
    ensures var f := WithBit(flags, 0, q / 2 % 2 == 1);
      (if q > 0 then WithBit(f, 7, true) else f) == WithBit(f, 7, Bit(flags, 7) || q > 0)
  {
    var f := WithBit(flags, 0, q / 2 % 2 == 1);
    BitOfWithBit(flags, 0, q / 2 % 2 == 1);
    PutBitNoop(8, f, 7);
  }
}
