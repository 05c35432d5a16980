/** INC (HL) and DEC (HL) (src/cpu/instruction.c): the flags come from the byte
    before two ticks, the result from the byte after.  When that shows. */
module StepMemory {
  import opened Words
  import opened MachineState
  import opened TimerModel
  import opened Opcodes
  import opened Fetch
  import opened Instructions
  import opened MachineSteps
  import TimerBatch
  import Alu
  import Bus

  predicate IsStep(i: Instr) { i.name in {Inc, Dec} && WellFormed(i) && i.operand == HlRel }

  /** Z, N and H say of the result w what they are there to say: that it is
      zero, that it comes from DEC, and that its low nibble wrapped. */
  predicate Describes(n: Mnemonic, f: u8, w: u8) {
    && (Alu.Z(f) <==> w == 0)
    && (Alu.N(f) <==> n == Dec)
    && (Alu.H(f) <==> w % 0x10 == if n == Inc then 0 else 0xF)
  }

  /** What two ticks add to the byte at a timer register that counts. */
  function Drift(s: State, a: u16): nat {
    if a == Bus.TIMER_DIV then if s.timer.div % 0x100 >= 0xFE then 1 else 0
    else Increments(s.timer.tac, s.timer.div, 2)
  }

  /** The byte two ticks later: DIV and TIMA may have moved on or, if TIMA has
      overflowed, been reloaded; IF may have the timer request; every other
      byte is the same. */
  lemma TwoTicksLater(s: State, a: u16)
    ensures var v := Bus.Read(TimerTicks(s, 2), a);
      if a == Bus.TIMER_DIV then v == (Bus.Read(s, a) + Drift(s, a)) % 0x100
      else if a == Bus.TIMER_TIMA then v == (Effective(s.timer) + Drift(s, a)) % 0x100
      else if a == Bus.IF_ADDRESS then v == if s.timer.overflow then WithBit(s.iflag, IRQ_TIMA, true) else s.iflag
      else v == Bus.Read(s, a)
    ensures Drift(s, a) <= 1
  {
    hide Increments, WithBit;
    TimerBatch.AtMostOne(s.timer.tac, s.timer.div, 2);
    if a == Bus.TIMER_DIV {
      HighByteLater(s.timer.div);
    }
  }

  lemma HighByteLater(div: u16)
    ensures Msb((div + 2) % 0x10000) == (Msb(div) + if div % 0x100 >= 0xFE then 1 else 0) % 0x100
  {
    var h, l := div / 0x100, div % 0x100;
    assert div == 0x100 * h + l;
    if l < 0xFE {
      DivModUnique(div + 2, 0x100, h, l + 2);
    } else if h < 0xFF {
      DivModUnique(div + 2, 0x100, h + 1, l - 0xFE);
    } else {
      assert (div + 2) % 0x10000 == l - 0xFE;
    }
  }

  /** The bytes for which one more changes what the flags would say. */
  predicate AtEdge(n: Mnemonic, v: u8) {
    if n == Inc then v % 0x10 >= 0xE else v % 0x10 == 0 || v % 0x10 == 0xF || v == 1
  }

  /** The flags of n taken from v differ from those taken from w. */
  predicate Differ(n: Mnemonic, v: u8, w: u8) {
    if n == Inc then (v % 0x10 == 0xF) != (w % 0x10 == 0xF) || (v == 0xFF) != (w == 0xFF)
    else (v % 0x10 == 0) != (w % 0x10 == 0) || (v == 1) != (w == 1)
  }

  /** The handler's flags will not fit its result: DIV or TIMA is about to
      count past an edge, TIMA to be reloaded from the other side of one, or
      the timer request to arrive in IF at one. */
  predicate Misleads(s: State, n: Mnemonic, a: u16) {
    if a == Bus.TIMER_DIV then Drift(s, a) == 1 && AtEdge(n, Msb(s.timer.div))
    else if a == Bus.TIMER_TIMA && s.timer.overflow then
      Differ(n, s.timer.tima, (s.timer.tma + Drift(s, a)) % 0x100)
    else if a == Bus.TIMER_TIMA then Drift(s, a) == 1 && AtEdge(n, s.timer.tima)
    else
      && a == Bus.IF_ADDRESS && s.timer.overflow
      && if n == Inc then s.iflag % 0x10 == 0xB else s.iflag % 0x10 == 0 || s.iflag == 1
  }

  /** Bit 2 is worth 4. */
  lemma WithTimerBit(v: u8)
    ensures WithBit(v, IRQ_TIMA, true) == if v / 4 % 2 == 1 then v else v + 4
  {
    assert v / 2 / 2 == v / 4;
    assert Pow2(2) == 4 by { assert Pow2(1) == 2; }
    PutBitWeight(8, v, 2, true);
  }

  lemma EdgeIsDifference(n: Mnemonic, v: u8)
    requires n in {Inc, Dec}
    ensures AtEdge(n, v) <==> Differ(n, v, (v + 1) % 0x100)
  {
  }

  lemma RequestAtEdge(n: Mnemonic, v: u8)
    requires n in {Inc, Dec}
    ensures (if n == Inc then v % 0x10 == 0xB else v % 0x10 == 0 || v == 1)
       <==> Differ(n, v, if v / 4 % 2 == 1 then v else v + 4)
  {
    assert v / 4 % 2 == v % 0x10 / 4 % 2;
  }

  lemma FlagsOf(n: Mnemonic, v: u8, w: u8, f: u8)
    requires n in {Inc, Dec}
    ensures Describes(n, StepFlags(n, v, f), Stepped(n, w)) <==> !Differ(n, v, w)
  {
    hide Alu.Flags, Alu.Z, Alu.N, Alu.H, Alu.C;
  }

  /** For every state: the handler writes one more (or less) than the byte two
      ticks on, and Z, N and H describe what it writes exactly unless the
      state it starts from misleads it. */
  lemma StepFlagsExact(s: State, i: Instr)
    requires IsStep(i)
    ensures var w := Stepped(i.name, Bus.Read(TimerTicks(s, 2), i.address));
      var t := Handle(s, i);
      && t == SetF(Bus.Write(TimerTicks(s, 2), i.address, w), F(t))
      && (Describes(i.name, F(t), w) <==> !Misleads(s, i.name, i.address))
  {
    hide Describes, Differ, Stepped, StepFlags, TimerTicks, Bus.Read, Bus.Write, WithBit, Misleads;
    var a, n := i.address, i.name;
    var v, w := Bus.Read(s, a), Bus.Read(TimerTicks(s, 2), a);
    StepMemoryInParts(s, i);
    FlagsOf(n, v, w, F(s));
    MisleadsIsDiffer(s, n, a);
  }

  lemma MisleadsIsDiffer(s: State, n: Mnemonic, a: u16)
    requires n in {Inc, Dec}
    ensures Misleads(s, n, a) <==> Differ(n, Bus.Read(s, a), Bus.Read(TimerTicks(s, 2), a))
  {
    hide Differ, AtEdge, TimerTicks, WithBit, Drift;
    TwoTicksLater(s, a);
    if a == Bus.TIMER_DIV {
      EdgeIsDifference(n, Msb(s.timer.div));
      SameDoesNotDiffer(n, Msb(s.timer.div));
    } else if a == Bus.TIMER_TIMA {
      EdgeIsDifference(n, s.timer.tima);
      SameDoesNotDiffer(n, s.timer.tima);
    } else if a == Bus.IF_ADDRESS {
      WithTimerBit(s.iflag);
      RequestAtEdge(n, s.iflag);
      SameDoesNotDiffer(n, s.iflag);
    } else {
      SameDoesNotDiffer(n, Bus.Read(s, a));
    }
  }

  lemma SameDoesNotDiffer(n: Mnemonic, v: u8)
    ensures !Differ(n, v, v)
  {
  }

  /** It does happen: INC (HL) on TIMA, about to count from 0xFE, stores zero
      and leaves Z clear. */
  lemma StepCanMislead(s: State, i: Instr)
    requires IsStep(i) && i.name == Inc && i.address == Bus.TIMER_TIMA && s.timer == Timer(2, 0xFE, 0, 5, false)
    ensures Handle(s, i).timer.tima == 0 && !Alu.Z(F(Handle(s, i)))
  {
    hide TimerTicks, Alu.Flags;
    StepMemoryInParts(s, i);
    CountsTo0xFF(s);
  }

  lemma CountsTo0xFF(s: State)
    requires s.timer == Timer(2, 0xFE, 0, 5, false)
    ensures TimerTicks(s, 2).timer == Timer(4, 0xFF, 0, 5, false)
  {
  }
}
