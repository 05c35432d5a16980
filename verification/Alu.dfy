/** The arithmetic of src/cpu/instruction.c and src/cpu/instruction_cb.c, by
    meaning: result and flags as functions of the operands and the old F. */
module Alu {
  import opened Words

  /** A result byte and the F register that goes with it. */
  datatype Out = Out(val: u8, f: u8)

  // ----- include/cpu/flag.h -----

  predicate Z(f: u8) { f / 0x80 % 2 == 1 }
  predicate N(f: u8) { f / 0x40 % 2 == 1 }
  predicate H(f: u8) { f / 0x20 % 2 == 1 }
  predicate C(f: u8) { f / 0x10 % 2 == 1 }

  /** F with the four flags given; `set_flag` keeps its low nibble,
      `set_all_flags` clears it. */
  function Flags(z: bool, n: bool, h: bool, c: bool, low: nat): (f: u8)
    requires low < 0x10
    ensures Z(f) == z && N(f) == n && H(f) == h && C(f) == c && f % 0x10 == low
  {
    (if z then 0x80 else 0) + (if n then 0x40 else 0) + (if h then 0x20 else 0) + (if c then 0x10 else 0) + low
  }

  function Carry(c: bool): nat { if c then 1 else 0 }

  // ----- 8-bit arithmetic -----

  function Add(a: u8, b: u8, c: bool, f: u8): Out {
    var sum := a + b + Carry(c);
    Out(sum % 0x100, Flags(sum % 0x100 == 0, false, a % 0x10 + b % 0x10 + Carry(c) >= 0x10, sum >= 0x100, f % 0x10))
  }

  function Sub(a: u8, b: u8, c: bool, f: u8): Out {
    var diff := a - b - Carry(c);
    Out(diff % 0x100, Flags(diff % 0x100 == 0, true, a % 0x10 < b % 0x10 + Carry(c), diff < 0, f % 0x10))
  }

  function IncFlags(v: u8, f: u8): u8 { Flags(v == 0xFF, false, v % 0x10 == 0xF, C(f), f % 0x10) }
  function DecFlags(v: u8, f: u8): u8 { Flags(v == 1, true, v % 0x10 == 0, C(f), f % 0x10) }

  /** The decimal adjustment: what to add to A, and the decimal carry. */
  function Daa(a: u8, f: u8): Out {
    var high := C(f) || (!N(f) && a > 0x99);
    var low := H(f) || (!N(f) && a % 0x10 > 9);
    var fix := (if high then 0x60 else 0) + (if low then 6 else 0);
    var v := (if N(f) then a - fix else a + fix) % 0x100;
    Out(v, Flags(v == 0, N(f), false, high, f % 0x10))
  }

  // ----- rotates and shifts, in the order of `g_rot_list` -----

  datatype Shift = Rlc | Rrc | Rl | Rr | Sla | Sra | Swap | Srl

  function ShiftValue(k: Shift, v: u8, c: bool): u8 {
    match k
    case Rlc => v * 2 % 0x100 + v / 0x80
    case Rrc => v / 2 + v % 2 * 0x80
    case Rl => v * 2 % 0x100 + Carry(c)
    case Rr => v / 2 + Carry(c) * 0x80
    case Sla => v * 2 % 0x100
    case Sra => v / 2 + v / 0x80 * 0x80
    case Swap => v / 0x10 + v % 0x10 * 0x10
    case Srl => v / 2
  }

  predicate ShiftOut(k: Shift, v: u8) {
    match k
    case Rlc | Rl | Sla => v >= 0x80
    case Swap => false
    case _ => v % 2 == 1
  }

  function ShiftBy(k: Shift, v: u8, f: u8): Out {
    var w := ShiftValue(k, v, C(f));
    Out(w, Flags(w == 0, false, false, ShiftOut(k, v), f % 0x10))
  }
}
