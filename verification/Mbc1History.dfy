/** What an MBC1 cartridge shows, by the list of writes it has received since
    power-on: the last write to each register range decides.
    (src/cartridge/mbc1.c) */
module Mbc1History {
  import opened Words
  import opened Mbc1Model

  /** The value of the last write to an address from lo up to hi, or init. */
  function Last(ws: seq<(u16, u8)>, lo: nat, hi: nat, init: u8): u8
    decreases |ws|
  {
    if ws == [] then init
    else if lo <= ws[|ws| - 1].0 < hi then ws[|ws| - 1].1
    else Last(ws[..|ws| - 1], lo, hi, init)
  }

  /** RAM is enabled: the last write below 0x2000 had low nibble 0xA. */
  predicate Enabled(ws: seq<(u16, u8)>) { Last(ws, 0x0000, 0x2000, 0) % 0x10 == 0xA }

  /** The two bits last written to 0x4000 to 0x5FFF. */
  function High(ws: seq<(u16, u8)>): nat { Last(ws, 0x4000, 0x6000, 0) % 4 }

  /** The five bits last written to 0x2000 to 0x3FFF, 1 for 0. */
  function Low(ws: seq<(u16, u8)>): nat {
    if Last(ws, 0x2000, 0x4000, 0) % 0x20 == 0 then 1 else Last(ws, 0x2000, 0x4000, 0) % 0x20
  }

  /** The last write to 0x6000 to 0x7FFF was odd. */
  predicate Advanced(ws: seq<(u16, u8)>) { Last(ws, 0x6000, 0x8000, 0) % 2 == 1 }

  /** The RAM bank an access goes to. */
  function RamBank(ws: seq<(u16, u8)>): nat { if Advanced(ws) then High(ws) else 0 }

  /** The value last stored in a RAM cell: by a write to its offset while RAM
      was enabled and its bank selected. */
  function Stored(ram: seq<u8>, ws: seq<(u16, u8)>, bank: nat, offset: nat): u8
    requires bank < 4 && offset < 0x2000 && |ram| >= 0x8000
    decreases |ws|
  {
    if ws == [] then ram[bank * 0x2000 + offset]
    else
      var before, w := ws[..|ws| - 1], ws[|ws| - 1];
      if w.0 == 0xA000 + offset && Enabled(before) && RamBank(before) == bank then w.1
      else Stored(ram, before, bank, offset)
  }

  /** The ROM bank each window shows. */
  function RomBank(ws: seq<(u16, u8)>, multicart: bool, a: u16): nat {
    var high := High(ws) * if multicart then 0x10 else 0x20;
    if a < 0x4000 then if Advanced(ws) then high else 0
    else high + if multicart then Low(ws) % 0x10 else Low(ws)
  }

  /** The registers are what the last writes make them. */
  lemma {:induction false} ChipByLast(ws: seq<(u16, u8)>)
    ensures var c := ChipAfter(INITIAL, ws);
      && c.ramAccess == Enabled(ws) && c.ramBank == High(ws) && c.romBank == Low(ws) && c.mode == Advanced(ws)
      && RegistersOk(c)
    decreases |ws|
  {
    if ws != [] {
      ChipByLast(ws[..|ws| - 1]);
    }
  }

  lemma {:induction false} StoredIsLastValue(m: Cart, ws: seq<(u16, u8)>, bank: nat, offset: nat)
    requires m.chip == INITIAL && bank < 4 && offset < 0x2000 && |m.ram| >= 0x8000
    ensures LastValue(m, ws, bank, offset) == Stored(m.ram, ws, bank, offset)
    decreases |ws|
  {
    hide Enabled, RamBank, WriteChip;
    if ws != [] {
      var before := ws[..|ws| - 1];
      StoredIsLastValue(m, before, bank, offset);
      SelectByLast(before);
    }
  }

  lemma SelectByLast(ws: seq<(u16, u8)>)
    ensures var c := ChipAfter(INITIAL, ws);
      c.ramAccess == Enabled(ws) && RamSelect(c) == RamBank(ws) && RamBank(ws) < 4 && RegistersOk(c)
  {
    hide Enabled, Advanced, High, Low;
    ChipByLast(ws);
  }

  /** RAM by the write list: with 32 KiB of it, a read from 0xA000 to 0xBFFF
      returns what was last stored at its offset in the selected bank if RAM is
      enabled, and 0xFF if not. */
  lemma RamByHistory(m: Cart, ws: seq<(u16, u8)>, a: u16)
    requires m.chip == INITIAL && |m.ram| >= 0x8000 && 0xA000 <= a < 0xC000
    ensures WriteAll(m, ws).Ok? && RamBank(ws) < 4
    ensures Read(WriteAll(m, ws).value, a)
         == Ok(if Enabled(ws) then Stored(m.ram, ws, RamBank(ws), a - 0xA000) else 0xFF)
  {
    hide Enabled, RamBank, WriteChip, Read, LastValue, Stored, RamSelect;
    SelectByLast(ws);
    ReadsLastValue(m, ws, a);
    StoredIsLastValue(m, ws, RamBank(ws), a - 0xA000);
  }

  /** ROM by the write list: a read below 0x8000 returns the byte at its offset
      in the bank its window shows, or aborts beyond the end of the ROM. */
  lemma RomByHistory(m: Cart, ws: seq<(u16, u8)>, a: u16)
    requires m.chip == INITIAL && a < 0x8000 && WriteAll(m, ws).Ok?
    ensures var p := RomBank(ws, m.multicart, a) * 0x4000 + a % 0x4000;
      Read(WriteAll(m, ws).value, a) == if p < |m.rom| then Ok(m.rom[p]) else Abort
  {
    hide Enabled, Advanced, High, Low, WriteChip, ChipAfter, Physical;
    ChipByLast(ws);
    WritesKeepInvariant(m, ws);
    var c := ChipAfter(INITIAL, ws);
    RomAddress(c, m.multicart, a);
  }

  /** Which accesses the source aborts on: to enabled RAM beyond the RAM there
      is, and reads of ROM beyond the ROM or of neither. */
  lemma AbortsExactly(m: Cart, a: u16, v: u8)
    requires RegistersOk(m.chip)
    ensures var bank := if m.chip.mode then m.chip.ramBank else 0;
      var beyond := 0xA000 <= a < 0xC000 && m.chip.ramAccess && bank * 0x2000 + (a - 0xA000) >= |m.ram|;
      && (Write(m, a, v).Abort? <==> beyond)
      && (Read(m, a).Abort? <==> beyond || 0x8000 <= a < 0xA000 || a >= 0xC000
                                 || (a < 0x8000 && Physical(m.chip, m.multicart, a).value >= |m.rom|))
  {
    if InRam(a) {
      assert a % 0x2000 == a - 0xA000;
    }
  }

  /** For instance: RAM is enabled with 0x0A, a byte is stored and read back. */
  lemma EnableStoreLoad(m: Cart, v: u8)
    requires m.chip == INITIAL && |m.ram| >= 0x8000
    ensures var ws: seq<(u16, u8)> := [(0x0000, 0x0A), (0xA000, v)];
      WriteAll(m, ws).Ok? && Read(WriteAll(m, ws).value, 0xA000) == Ok(v)
  {
    var a: (u16, u8), b: (u16, u8) := (0x0000, 0x0A), (0xA000, v);
    var ws := [a, b];
    assert ws[..1] == [a] && [a][..0] == [];
    RamByHistory(m, ws, 0xA000);
    assert Last([a], 0, 0x2000, 0) == 0x0A && Last([a], 0x6000, 0x8000, 0) == 0;
    assert Last(ws, 0, 0x2000, 0) == 0x0A && Last(ws, 0x6000, 0x8000, 0) == 0;
  }
}
