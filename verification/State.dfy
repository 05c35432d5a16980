/** The state of the emulated machine as one value: what `g_cpu`, `g_timer`,
    `g_tima_overflow` and the interrupt registers hold between two C calls. */
module MachineState {
  import opened Words

  /** Register names, numbered as in `cpu_register_name`. */
  type Reg = x: int | 0 <= x < 14
  const REG_A: Reg := 0
  const REG_F: Reg := 1
  const REG_B: Reg := 2
  const REG_C: Reg := 3
  const REG_PC: Reg := 8
  const REG_SP: Reg := 9
  const REG_AF: Reg := 10
  const REG_BC: Reg := 11
  const REG_DE: Reg := 12
  const REG_HL: Reg := 13

  /** The eight byte registers a, f, b, c, d, e, h, l in memory order. */
  type ByteRegisters = r: seq<u8> | |r| == 8 witness [0, 0, 0, 0, 0, 0, 0, 0]

  type Memory = m: seq<u8> | |m| == 0x10000 witness seq(0x10000, _ => 0)

  /** `struct timer` with the pending-overflow flag `g_tima_overflow`. */
  datatype Timer = Timer(div: u16, tima: u8, tma: u8, tac: u8, overflow: bool)

  /** The cartridge as the bus sees it.  A device is any function from the
      register writes it has received to the byte it shows at an address, so
      whatever is proved of the machine holds for every cartridge type. */
  datatype Cartridge = Cartridge(history: seq<(u16, u8)>, respond: (seq<(u16, u8)>, u16) -> u8) {
    function Read(a: u16): u8 { respond(history, a) }
    function Write(a: u16, v: u8): Cartridge { this.(history := history + [(a, v)]) }
  }

  /** `clock` counts every timer tick since the start; the source has no such
      counter, it is the measure in which timing is stated. */
  datatype State = State(
    r: ByteRegisters, pc: u16, sp: u16,
    mem: Memory, cart: Cartridge, timer: Timer,
    iflag: u8, ie: u8, ime: bool, imeScheduled: bool, halt: bool,
    clock: nat)

  /** `read_register_16bit`: a byte register reads as itself, a pair as high:low. */
  function ReadReg16(s: State, reg: Reg): u16 {
    if reg < REG_PC then s.r[reg]
    else if reg == REG_PC then s.pc
    else if reg == REG_SP then s.sp
    else Word(s.r[2 * (reg - REG_AF)], s.r[2 * (reg - REG_AF) + 1])
  }

  /** `write_register_16bit`: a byte register keeps the low byte only. */
  function WriteReg16(s: State, reg: Reg, v: u16): State {
    if reg < REG_PC then s.(r := s.r[reg := Lsb(v)])
    else if reg == REG_PC then s.(pc := v)
    else if reg == REG_SP then s.(sp := v)
    else s.(r := s.r[2 * (reg - REG_AF) := Msb(v)][2 * (reg - REG_AF) + 1 := Lsb(v)])
  }

  function Hl(s: State): u16 { ReadReg16(s, REG_HL) }

  /** A register reads back what was written, cut to its width; writing it
      changes no register that does not share a byte with it. */
  lemma ReadRegAfterWrite(s: State, reg: Reg, v: u16, other: Reg)
    ensures ReadReg16(WriteReg16(s, reg, v), reg) == if reg < REG_PC then Lsb(v) else v
    ensures other < REG_PC && reg >= REG_AF && other / 2 != reg - REG_AF
      ==> ReadReg16(WriteReg16(s, reg, v), other) == ReadReg16(s, other)
    ensures other != reg && (other >= REG_PC) == (reg >= REG_PC)
      ==> ReadReg16(WriteReg16(s, reg, v), other) == ReadReg16(s, other)
  {
  }
}
