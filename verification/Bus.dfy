/** src/cpu/memory.c, src/io.c and include/cpu/stack.h: address routing and the stack. */
module Bus {
  import opened Words
  import opened MachineState
  import opened TimerModel

  const ROM_END: u16 := 0x8000
  const TIMER_DIV: u16 := 0xFF04
  const TIMER_TIMA: u16 := 0xFF05
  const TIMER_TMA: u16 := 0xFF06
  const TIMER_TAC: u16 := 0xFF07
  const IF_ADDRESS: u16 := 0xFF0F
  const IE_ADDRESS: u16 := 0xFFFF

  /** Addresses answered by a device register instead of a memory cell. */
  predicate Device(a: u16) {
    TIMER_DIV <= a <= TIMER_TAC || a == IF_ADDRESS || a == IE_ADDRESS
  }

  /** Addresses that are plain memory cells. */
  predicate Ram(a: int) { ROM_END <= a < 0x10000 && !Device(a) }

  function Read(s: State, a: u16): u8 {
    if a < ROM_END then s.cart.Read(a)
    else if a == TIMER_DIV then Msb(s.timer.div)
    else if a == TIMER_TIMA then s.timer.tima
    else if a == TIMER_TMA then s.timer.tma
    else if a == TIMER_TAC then s.timer.tac % 8
    else if a == IF_ADDRESS then s.iflag
    else if a == IE_ADDRESS then s.ie
    else s.mem[a]
  }

  /** A write never touches the registers, the IME flags, HALT or the clock. */
  function Write(s: State, a: u16, v: u8): (t: State)
    ensures t.r == s.r && t.pc == s.pc && t.sp == s.sp
    ensures t.ime == s.ime && t.imeScheduled == s.imeScheduled && t.halt == s.halt && t.clock == s.clock
  {
    if a < ROM_END then s.(cart := s.cart.Write(a, v))
    else if a == TIMER_DIV then s.(timer := s.timer.(div := 0))
    else if a == TIMER_TIMA then s.(timer := s.timer.(tima := v))
    else if a == TIMER_TMA then s.(timer := s.timer.(tma := v))
    else if a == TIMER_TAC then s.(timer := s.timer.(tac := s.timer.tac / 8 * 8 + v % 8))
    else if a == IF_ADDRESS then s.(iflag := v)
    else if a == IE_ADDRESS then s.(ie := v)
    else s.(mem := s.mem[a := v])
  }

  function Write16(s: State, a: u16, v: u16): State {
    Write(Write(s, a, Lsb(v)), (a + 1) % 0x10000, Msb(v))
  }

  /** `read_memory_16bit`.  At 0x8000 and above it reads the memory array,
      whatever device answers there.  At 0xFFFF the source reads one byte past
      the array; that high byte, 0 here, reaches no register. */
  function Read16(s: State, a: u16): u16 {
    if a < ROM_END then Word(s.cart.Read(a + 1), s.cart.Read(a))
    else Word(if a < 0xFFFF then s.mem[a + 1] else 0, s.mem[a])
  }

  // ----- the bus as a flat byte map -----

  /** What a device keeps of the byte written to it. */
  function Kept(a: u16, v: u8): u8 {
    if a == TIMER_DIV then 0 else if a == TIMER_TAC then v % 8 else v
  }

  function WriteAll(s: State, ws: seq<(u16, u8)>): State {
    if ws == [] then s else Write(WriteAll(s, ws[..|ws| - 1]), ws[|ws| - 1].0, ws[|ws| - 1].1)
  }

  /** The flat map after a list of writes: the last one to each address wins. */
  function Flat(init: u16 -> u8, ws: seq<(u16, u8)>, a: u16): u8
    decreases |ws|
  {
    if ws == [] then init(a)
    else if ws[|ws| - 1].0 == a then Kept(a, ws[|ws| - 1].1)
    else Flat(init, ws[..|ws| - 1], a)
  }

  lemma ReadAfterWrite(s: State, a: u16, v: u8, b: u16)
    requires a >= ROM_END
    ensures Read(Write(s, a, v), b) == if a == b then Kept(a, v) else Read(s, b)
  {
    assert (s.timer.tac / 8 * 8 + v % 8) % 8 == v % 8;
  }

  /** Reads of the bus agree with a flat map of bytes, after any sequence of
      writes to 0x8000 and above and at every address, devices included. */
  lemma {:induction false} BusIsFlat(s: State, ws: seq<(u16, u8)>, a: u16)
    requires forall i :: 0 <= i < |ws| ==> ws[i].0 >= ROM_END
    ensures Read(WriteAll(s, ws), a) == Flat(b => Read(s, b), ws, a)
    decreases |ws|
  {
    if ws != [] {
      var n := |ws| - 1;
      BusIsFlat(s, ws[..n], a);
      ReadAfterWrite(WriteAll(s, ws[..n]), ws[n].0, ws[n].1, a);
    }
  }

  /** The 16-bit read, low byte first. */
  lemma Read16ByBytes(s: State, a: u16)
    requires a < 0xFFFF
    ensures a < 0x8000 ==> Read16(s, a) == 0x100 * (s.cart.Read(a + 1) as int) + s.cart.Read(a)
    ensures a >= 0x8000 ==> Read16(s, a) == 0x100 * (s.mem[a + 1] as int) + s.mem[a]
  {
  }

  /** The 16-bit read equals two byte reads in every state exactly at the
      addresses where both bytes are ROM, or both plain memory cells. */
  lemma Read16Exact(a: u16, some: State)
    requires a < 0xFFFF
    ensures (forall s: State :: Read16(s, a) == 0x100 * (Read(s, a + 1) as int) + Read(s, a))
       <==> a < 0x7FFF || (Ram(a) && Ram(a + 1))
  {
    hide Read16;
    forall s: State
      ensures a < 0x7FFF || (Ram(a) && Ram(a + 1)) ==>
        Read16(s, a) == 0x100 * (Read(s, a + 1) as int) + Read(s, a)
    {
      Read16ByBytes(s, a);
    }
    var w := some.(timer := Timer(0, 0, 0, 0, false), iflag := 0, ie := 0, mem := seq(0x10000, _ => 1),
                   cart := Cartridge([], (_, _) => 0));
    Read16ByBytes(w, a);
    if Device(a) || Device(a + 1) || a == 0x7FFF {
      assert Read16(w, a) != 0x100 * (Read(w, a + 1) as int) + Read(w, a);
    }
  }

  /** Where the device registers are: the routing in numbers. */
  lemma WriteByNumbers(s: State, v: u8)
    ensures Write(s, 0xFF04, v) == s.(timer := s.timer.(div := 0))
    ensures Write(s, 0xFF05, v) == s.(timer := s.timer.(tima := v))
    ensures Write(s, 0xFF06, v) == s.(timer := s.timer.(tma := v))
    ensures Write(s, 0xFF07, v) == s.(timer := s.timer.(tac := s.timer.tac - s.timer.tac % 8 + v % 8))
    ensures Write(s, 0xFF0F, v) == s.(iflag := v) && Write(s, 0xFFFF, v) == s.(ie := v)
    ensures forall a: u16 :: a < 0x8000 ==> Write(s, a, v) == s.(cart := s.cart.(history := s.cart.history + [(a, v)]))
    ensures forall a: u16 :: a >= 0x8000 && !(0xFF04 <= a <= 0xFF07) && a != 0xFF0F && a != 0xFFFF ==>
      Write(s, a, v) == s.(mem := s.mem[a := v])
  {
  }

  lemma ReadByNumbers(s: State, a: u16)
    ensures Read(s, a) ==
      if a < 0x8000 then s.cart.respond(s.cart.history, a)
      else if a == 0xFF04 then s.timer.div / 0x100 else if a == 0xFF05 then s.timer.tima
      else if a == 0xFF06 then s.timer.tma else if a == 0xFF07 then s.timer.tac % 8
      else if a == 0xFF0F then s.iflag else if a == 0xFFFF then s.ie else s.mem[a]
  {
  }

  // ----- the stack -----

  function Push(s: State, v: u8): State {
    var t := Tick(s).(sp := (s.sp - 1) % 0x10000);
    Write(t, t.sp, v)
  }

  function Push16(s: State, w: u16): State { Push(Push(s, Msb(w)), Lsb(w)) }

  function Pop(s: State): (State, u8) {
    var t := Tick(s);
    (t.(sp := (s.sp + 1) % 0x10000), Read(t, s.sp))
  }

  function Pop16(s: State): (State, u16) {
    var (t, lo) := Pop(s);
    var (u, hi) := Pop(t);
    (u, Word(hi, lo))
  }

  /** The k bytes below the stack pointer are plain memory. */
  predicate Room(s: State, k: nat) {
    ROM_END <= s.sp - k && forall a :: s.sp - k <= a < s.sp ==> Ram(a)
  }

  /** No byte from address a up to, and not including, address top differs. */
  predicate SameBetween(s: State, t: State, a: nat, top: nat) {
    forall b :: a <= b < top && b < 0x10000 ==> s.mem[b] == t.mem[b]
  }

  /** No byte at or above address a differs. */
  predicate SameFrom(s: State, t: State, a: nat) { SameBetween(s, t, a, 0x10000) }

  lemma TwoTicks(s: State)
    ensures TickN(s, 2) == Tick(Tick(s))
  {
    hide Advance;
    assert TickN(s, 1) == Tick(TickN(s, 0));
  }

  lemma PushByte(s: State, v: u8)
    requires s.sp > 0 && Ram(s.sp - 1)
    ensures Push(s, v) == Tick(s).(sp := s.sp - 1, mem := s.mem[s.sp - 1 := v])
  {
    hide TimerTicks;
    TickKeeps(s);
  }

  lemma TickKeeps(s: State)
    ensures var t := Tick(s);
      && t.r == s.r && t.pc == s.pc && t.sp == s.sp && t.mem == s.mem && t.cart == s.cart
      && t.ie == s.ie && t.halt == s.halt
  {
    hide Advance;
  }

  lemma TickIgnoresStack(s: State, sp: u16, mem: Memory)
    ensures Tick(Tick(s).(sp := sp, mem := mem)) == Tick(Tick(s)).(sp := sp, mem := mem)
  {
    hide Advance;
  }

  lemma BytesOfWord(w: u16)
    ensures Msb(w) == w / 0x100 && Lsb(w) == w % 0x100
  {
  }

  /** A push moves SP down two, writes the two bytes it uncovers and changes
      nothing else but what the clock changes. */
  lemma PushEffect(s: State, w: u16)
    requires Room(s, 2)
    ensures Push16(s, w) == TickN(s, 2).(
      sp := s.sp - 2, mem := s.mem[s.sp - 1 := w / 0x100][s.sp - 2 := w % 0x100])
  {
    hide TimerTicks, TickN, Push, Msb, Lsb;
    BytesOfWord(w);
    TwoTicks(s);
    PushByte(s, Msb(w));
    TickIgnoresStack(s, s.sp - 1, s.mem[s.sp - 1 := Msb(w)]);
    PushByte(Push(s, Msb(w)), Lsb(w));
  }

  lemma PopEffect(s: State)
    requires s.sp + 2 < 0x10000 && Ram(s.sp) && Ram(s.sp + 1)
    ensures var (t, w) := Pop16(s);
      t == TickN(s, 2).(sp := s.sp + 2) && w == 0x100 * (s.mem[s.sp + 1] as int) + s.mem[s.sp]
  {
    hide Pop, TimerTicks, Read;
    PopByte(s);
    var t := Pop(s).0;
    TickKeeps(s);
    PopByte(t);
    TwoTicks(s);
    TickIgnoresSp(s, s.sp + 1);
  }

  lemma PopByte(s: State)
    requires s.sp + 1 < 0x10000 && Ram(s.sp)
    ensures Pop(s) == (Tick(s).(sp := s.sp + 1), s.mem[s.sp])
  {
    hide TimerTicks, Read;
    TickKeeps(s);
    RamReads(Tick(s), s.sp);
  }

  lemma RamReads(s: State, a: u16)
    ensures Ram(a) ==> Read(s, a) == s.mem[a]
  {
  }

  lemma TickIgnoresSp(s: State, sp: u16)
    ensures Tick(Tick(s).(sp := sp)) == Tick(Tick(s)).(sp := sp)
  {
    hide Advance;
  }

  /** Popping right after pushing gives the word back and restores SP. */
  lemma PushPop(s: State, w: u16)
    requires Room(s, 2)
    ensures var (t, v) := Pop16(Push16(s, w)); v == w && t.sp == s.sp && SameFrom(s, t, s.sp)
  {
    PushEffect(s, w);
    PopEffect(Push16(s, w));
  }
}
