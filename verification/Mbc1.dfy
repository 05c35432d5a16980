/** src/cartridge/mbc1.c: the bank registers and the address translation. */
module Mbc1Model {
  import opened Words

  /** An operation, or the abort of the source's assertions. */
  datatype Result<+T> = Ok(value: T) | Abort

  /** `g_chip_registers` and `g_ram_access`. */
  datatype Chip = Chip(ramG: u8, romBank: u8, ramBank: u8, mode: bool, ramAccess: bool)

  const INITIAL: Chip := Chip(0, 1, 0, false, false)

  datatype Cart = Cart(chip: Chip, rom: seq<u8>, ram: seq<u8>, multicart: bool)

  predicate InRam(a: u16) { 0xA000 <= a < 0xC000 }

  /** The RAM bank an access goes to. */
  function RamSelect(c: Chip): u8 { if c.mode then c.ramBank else 0 }

  /** What a write below 0x8000 does to the registers. */
  function WriteChip(c: Chip, a: u16, v: u8): Chip {
    if a < 0x2000 then c.(ramG := v % 0x10, ramAccess := v % 0x10 == 0xA)
    else if a < 0x4000 then c.(romBank := if v % 0x20 == 0 then 1 else v % 0x20)
    else if a < 0x6000 then c.(ramBank := v % 4)
    else if a < 0x8000 then c.(mode := v % 2 == 1)
    else c
  }

  /** `compute_physical_address`, in its 8-bit bank arithmetic. */
  function Physical(c: Chip, multicart: bool, a: u16): Result<nat> {
    var high := c.ramBank * (if multicart then 0x10 else 0x20) % 0x100;
    if InRam(a) then Ok(a % 0x2000 + RamSelect(c) * 0x2000)
    else if a < 0x4000 then Ok(a + (if c.mode then high else 0) * 0x4000)
    else if a < 0x8000 then
      var low := if c.romBank == 0 then 1 else if multicart then c.romBank % 0x10 else c.romBank;
      Ok(a % 0x4000 + (high + low) % 0x100 * 0x4000)
    else Abort
  }

  function Write(m: Cart, a: u16, v: u8): Result<Cart> {
    if InRam(a) && m.chip.ramAccess then
      var p := Physical(m.chip, m.multicart, a).value % 0x10000;
      if p < |m.ram| then Ok(m.(ram := m.ram[p := v])) else Abort
    else Ok(m.(chip := WriteChip(m.chip, a, v)))
  }

  function Read(m: Cart, a: u16): Result<u8> {
    if InRam(a) && !m.chip.ramAccess then Ok(0xFF)
    else match Physical(m.chip, m.multicart, a)
      case Abort => Abort
      case Ok(p) =>
        var bytes := if InRam(a) then m.ram else m.rom;
        if p < |bytes| then Ok(bytes[p]) else Abort
  }

  function WriteAll(m: Cart, ws: seq<(u16, u8)>): Result<Cart>
    decreases |ws|
  {
    if ws == [] then Ok(m)
    else match WriteAll(m, ws[..|ws| - 1])
      case Abort => Abort
      case Ok(n) => Write(n, ws[|ws| - 1].0, ws[|ws| - 1].1)
  }

  function ChipAfter(c: Chip, ws: seq<(u16, u8)>): Chip
    decreases |ws|
  {
    if ws == [] then c else WriteChip(ChipAfter(c, ws[..|ws| - 1]), ws[|ws| - 1].0, ws[|ws| - 1].1)
  }

  // ----- the register invariant -----

  predicate RegistersOk(c: Chip) {
    1 <= c.romBank <= 0x1F && c.ramBank <= 3 && c.ramG < 0x10 && (c.ramAccess <==> c.ramG == 0xA)
  }

  lemma {:induction false} RegistersStayOk(c: Chip, ws: seq<(u16, u8)>)
    requires RegistersOk(c)
    ensures RegistersOk(ChipAfter(c, ws))
    decreases |ws|
  {
    if ws != [] {
      RegistersStayOk(c, ws[..|ws| - 1]);
    }
  }

  /** Any sequence of writes from the initial registers: the registers are
      what the register writes alone make of them, in range, the ROM is as it
      was, and with 32 KiB of RAM no write aborts. */
  lemma {:induction false} WritesKeepInvariant(m: Cart, ws: seq<(u16, u8)>)
    requires RegistersOk(m.chip)
    ensures |m.ram| >= 0x8000 ==> WriteAll(m, ws).Ok?
    ensures WriteAll(m, ws).Ok? ==>
      var n := WriteAll(m, ws).value;
      && n.chip == ChipAfter(m.chip, ws) && RegistersOk(n.chip)
      && n.rom == m.rom && |n.ram| == |m.ram| && n.multicart == m.multicart
    decreases |ws|
  {
    RegistersStayOk(m.chip, ws);
    if ws != [] {
      WritesKeepInvariant(m, ws[..|ws| - 1]);
      RegistersStayOk(m.chip, ws[..|ws| - 1]);
    }
  }

  /** Physical addresses stay inside the largest ROM and RAM the chip drives,
      and without multicart wiring the upper window never shows a bank whose
      five low bits are zero. */
  lemma PhysicalBounds(c: Chip, multicart: bool, a: u16)
    requires RegistersOk(c) && (a < 0x8000 || InRam(a))
    ensures var p := Physical(c, multicart, a);
      && p.Ok?
      && (InRam(a) ==> p.value < 0x8000 && p.value == RamSelect(c) * 0x2000 + (a - 0xA000))
      && (!InRam(a) ==> p.value % 0x4000 == a % 0x4000 && p.value < if multicart then 0x10_0000 else 0x20_0000)
      && (0x4000 <= a < 0x8000 && !multicart ==> p.value / 0x4000 % 0x20 != 0)
  {
    if InRam(a) {
      assert a % 0x2000 == a - 0xA000;
    } else {
      RomBounds(c, multicart, a);
    }
  }

  lemma RomBounds(c: Chip, multicart: bool, a: u16)
    requires RegistersOk(c) && a < 0x8000
    ensures var p := Physical(c, multicart, a);
      && p.Ok? && p.value % 0x4000 == a % 0x4000 && p.value < (if multicart then 0x10_0000 else 0x20_0000)
      && (0x4000 <= a && !multicart ==> p.value / 0x4000 % 0x20 == c.romBank)
  {
    hide Physical;
    var bank := ShownBank(c, multicart, a);
    RomAddress(c, multicart, a);
    InBank(bank, a % 0x4000);
  }

  /** The bank a ROM window shows while the registers are in range. */
  function ShownBank(c: Chip, multicart: bool, a: u16): (bank: nat)
    requires RegistersOk(c) && a < 0x8000
    ensures bank < if multicart then 0x40 else 0x80
    ensures a >= 0x4000 && !multicart ==> bank % 0x20 == c.romBank
  {
    if a < 0x4000 && !c.mode then 0
    else if multicart then c.ramBank * 0x10 + (if a < 0x4000 then 0 else c.romBank % 0x10)
    else c.ramBank * 0x20 + (if a < 0x4000 then 0 else c.romBank)
  }

  lemma RomAddress(c: Chip, multicart: bool, a: u16)
    requires RegistersOk(c) && a < 0x8000
    ensures Physical(c, multicart, a) == Ok(a % 0x4000 + ShownBank(c, multicart, a) * 0x4000)
  {
    hide Physical, ShownBank;
    if a < 0x4000 {
      LowWindow(c, multicart, a);
    } else {
      HighWindow(c, multicart, a);
    }
  }

  lemma LowWindow(c: Chip, multicart: bool, a: u16)
    requires RegistersOk(c) && a < 0x4000
    ensures Physical(c, multicart, a) == Ok(a % 0x4000 + ShownBank(c, multicart, a) * 0x4000)
  {
    assert a % 0x4000 == a;
  }

  lemma HighWindow(c: Chip, multicart: bool, a: u16)
    requires RegistersOk(c) && 0x4000 <= a < 0x8000
    ensures Physical(c, multicart, a) == Ok(a % 0x4000 + ShownBank(c, multicart, a) * 0x4000)
  {
    var high, low := c.ramBank * (if multicart then 0x10 else 0x20), if multicart then c.romBank % 0x10 else c.romBank;
    assert high % 0x100 == high && (high + low) % 0x100 == high + low;
  }

  lemma InBank(bank: nat, offset: nat)
    requires offset < 0x4000
    ensures (offset + bank * 0x4000) % 0x4000 == offset && (offset + bank * 0x4000) / 0x4000 == bank
  {
  }

  /** With multicart wiring it does show such a bank, exactly at bank code 16. */
  lemma MulticartShowsBankZero(c: Chip, a: u16)
    requires RegistersOk(c) && 0x4000 <= a < 0x8000
    ensures Physical(c, true, a).value / 0x4000 % 0x10 == 0 <==> c.romBank == 0x10
  {
  }

  // ----- banked RAM as a bank-by-offset array -----

  /** The write goes to RAM cell (bank, offset) while the chip is in state c. */
  predicate Hits(c: Chip, w: (u16, u8), bank: nat, offset: nat) {
    InRam(w.0) && c.ramAccess && RamSelect(c) == bank && w.0 - 0xA000 == offset
  }

  /** The last value written to cell (bank, offset), or the one it began with. */
  function LastValue(m: Cart, ws: seq<(u16, u8)>, bank: nat, offset: nat): u8
    requires bank < 4 && offset < 0x2000 && |m.ram| >= 0x8000
    decreases |ws|
  {
    if ws == [] then m.ram[bank * 0x2000 + offset]
    else
      var n := |ws| - 1;
      if Hits(ChipAfter(m.chip, ws[..n]), ws[n], bank, offset) then ws[n].1
      else LastValue(m, ws[..n], bank, offset)
  }

  /** Where a hit lands: cells of different (bank, offset) never alias. */
  lemma CellAddress(c: Chip, multicart: bool, a: u16, bank: nat, offset: nat)
    requires RegistersOk(c) && InRam(a) && bank < 4 && offset < 0x2000
    ensures Physical(c, multicart, a).value < 0x8000
    ensures Physical(c, multicart, a).value == bank * 0x2000 + offset <==> RamSelect(c) == bank && a - 0xA000 == offset
  {
    assert a % 0x2000 == a - 0xA000;
  }

  /** One write, as a RAM cell sees it. */
  lemma CellAfterWrite(k: Cart, w: (u16, u8), bank: nat, offset: nat)
    requires RegistersOk(k.chip) && |k.ram| >= 0x8000 && bank < 4 && offset < 0x2000
    ensures Write(k, w.0, w.1).Ok? && |Write(k, w.0, w.1).value.ram| == |k.ram|
    ensures Write(k, w.0, w.1).value.ram[bank * 0x2000 + offset]
         == if Hits(k.chip, w, bank, offset) then w.1 else k.ram[bank * 0x2000 + offset]
  {
    hide WriteChip;
    if InRam(w.0) {
      CellAddress(k.chip, k.multicart, w.0, bank, offset);
    }
  }

  /** After any sequence of register and RAM writes every cell of the RAM
      holds the last value written to it while enabled. */
  lemma {:induction false} RamIsBanked(m: Cart, ws: seq<(u16, u8)>, bank: nat, offset: nat)
    requires RegistersOk(m.chip) && |m.ram| >= 0x8000 && bank < 4 && offset < 0x2000
    ensures WriteAll(m, ws).Ok? && |WriteAll(m, ws).value.ram| == |m.ram|
    ensures WriteAll(m, ws).value.ram[bank * 0x2000 + offset] == LastValue(m, ws, bank, offset)
    decreases |ws|
  {
    hide Write, Hits, WriteChip;
    WritesKeepInvariant(m, ws);
    if ws != [] {
      var n := |ws| - 1;
      WritesKeepInvariant(m, ws[..n]);
      RamIsBanked(m, ws[..n], bank, offset);
      CellAfterWrite(WriteAll(m, ws[..n]).value, ws[n], bank, offset);
    }
  }

  /** So an enabled read returns the last value written to its cell, and a
      disabled one 0xFF. */
  lemma ReadsLastValue(m: Cart, ws: seq<(u16, u8)>, a: u16)
    requires RegistersOk(m.chip) && |m.ram| >= 0x8000 && InRam(a)
    ensures WriteAll(m, ws).Ok? && RegistersOk(ChipAfter(m.chip, ws))
    ensures var c := ChipAfter(m.chip, ws);
      Read(WriteAll(m, ws).value, a) ==
        Ok(if c.ramAccess then LastValue(m, ws, RamSelect(c), a - 0xA000) else 0xFF)
  {
    WritesKeepInvariant(m, ws);
    var c := ChipAfter(m.chip, ws);
    RamIsBanked(m, ws, RamSelect(c), a - 0xA000);
    CellAddress(c, m.multicart, a, RamSelect(c), a - 0xA000);
  }
}
