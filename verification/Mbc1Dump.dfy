/** The MBC1 chip as the source keeps it, and the loop that dumps its ROM. */
module Mbc1Device {
  import opened Words
  import opened Mbc1Model

  /** ROM-size code in the cartridge header. */
  const ROM_SIZE: nat := 0x148

  /** `u8 num_banks = 2 << (rom_size + 1)`. */
  function NumBanks(code: nat): u8 { Pow2(code + 2) % 0x100 }

  /** Bytes the whole dump asks for. */
  function DumpLength(code: nat): nat { NumBanks(code) * 0x4000 }

  /** The physical address of the k-th byte of a dump. */
  function DumpAddress(multicart: bool, k: nat): nat { if multicart then k % 0x10_0000 else k }

  /** How much ROM a complete dump needs. */
  function DumpNeeds(multicart: bool, length: nat): nat {
    if multicart && length > 0x10_0000 then 0x10_0000 else length
  }

  /** The sum of the first n bytes of a dump. */
  function DumpSum(rom: seq<u8>, multicart: bool, n: nat): nat
    requires forall k :: 0 <= k < n ==> DumpAddress(multicart, k) < |rom|
  {
    if n == 0 then 0 else DumpSum(rom, multicart, n - 1) + rom[DumpAddress(multicart, n - 1)]
  }

  function ByteSum(bytes: seq<u8>): nat {
    if bytes == [] then 0 else ByteSum(bytes[..|bytes| - 1]) + bytes[|bytes| - 1]
  }

  /** The registers after the three writes that select a bank. */
  function Selected(multicart: bool, bank: u8, c: Chip): Chip {
    WriteChip(WriteChip(c.(mode := true), 0x2000, bank), 0x4000, bank / (if multicart then 0x10 else 0x20))
  }

  /** The window that shows the bank. */
  function BankStart(multicart: bool, bank: u8): u16 {
    if bank % (if multicart then 0x10 else 0x20) != 0 then 0x4000 else 0
  }

  /** The register writes invert the address translation: the selected bank,
      0x20, 0x40 and 0x60 included, shows all its bytes through its window. */
  lemma SelectShowsBank(c: Chip, multicart: bool, bank: u8, offset: nat)
    requires bank < 0x80 && offset < 0x4000
    ensures Physical(Selected(multicart, bank, c), multicart, BankStart(multicart, bank) + offset)
         == Ok(DumpAddress(multicart, bank * 0x4000 + offset))
  {
    hide Selected, BankStart, DumpAddress, Physical;
    if multicart {
      MulticartShowsBank(c, bank, offset);
    } else {
      PlainShowsBank(c, bank, offset);
    }
  }

  lemma PlainShowsBank(c: Chip, bank: u8, offset: nat)
    requires bank < 0x80 && offset < 0x4000
    ensures Physical(Selected(false, bank, c), false, BankStart(false, bank) + offset)
         == Ok(DumpAddress(false, bank * 0x4000 + offset))
  {
    hide Selected;
    SelectedRegisters(c, false, bank);
    var s := Selected(false, bank, c);
    assert s.ramBank == bank / 0x20;
  }

  lemma MulticartShowsBank(c: Chip, bank: u8, offset: nat)
    requires bank < 0x80 && offset < 0x4000
    ensures Physical(Selected(true, bank, c), true, BankStart(true, bank) + offset)
         == Ok(DumpAddress(true, bank * 0x4000 + offset))
  {
    hide Selected;
    SelectedRegisters(c, true, bank);
    WrapAt20(bank, offset);
  }

  lemma SelectedRegisters(c: Chip, multicart: bool, bank: u8)
    requires bank < 0x80
    ensures var s := Selected(multicart, bank, c);
      && s.mode && s.romBank == (if bank % 0x20 == 0 then 1 else bank % 0x20)
      && s.ramBank == bank / (if multicart then 0x10 else 0x20) % 4
  {
  }

  lemma WrapAt20(bank: u8, offset: nat)
    requires bank < 0x80 && offset < 0x4000
    ensures (bank * 0x4000 + offset) % 0x10_0000 == (bank / 0x10 % 4 * 0x10 + bank % 0x10) * 0x4000 + offset
    ensures bank % 0x20 % 0x10 == bank % 0x10
  {
    LowSixBits(bank);
    var x, low := bank * 0x4000 + offset, bank % 0x40 * 0x4000 + offset;
    if bank < 0x40 {
      assert x == low < 0x10_0000;
    } else {
      assert x == low + 0x10_0000 && low < 0x10_0000;
    }
  }

  lemma LowSixBits(bank: u8)
    ensures bank / 0x10 % 4 * 0x10 + bank % 0x10 == bank % 0x40
  {
  }

  lemma OneTurnBack(n: nat)
    requires n >= 0x10_0000
    ensures DumpAddress(true, n - 0x10_0000) == DumpAddress(true, n)
  {
  }

  lemma ReadsRom(m: Cart, a: u16)
    requires a < 0x8000
    ensures Physical(m.chip, m.multicart, a).Ok?
    ensures Mbc1Model.Read(m, a) == var p := Physical(m.chip, m.multicart, a).value;
      if p < |m.rom| then Ok(m.rom[p]) else Abort
  {
  }

  /** Where a dump that runs off the ROM stops: when it has read all of it. */
  lemma StopsAtEnd(multicart: bool, n: nat, size: nat)
    requires forall k :: 0 <= k < n ==> DumpAddress(multicart, k) < size
    requires DumpAddress(multicart, n) >= size
    ensures n == size && (multicart ==> size < 0x10_0000)
  {
    if multicart && n >= 0x10_0000 {
      OneTurnBack(n);
    } else if n > 0 {
      assert DumpAddress(multicart, n - 1) == n - 1;
    }
  }

  /** A dump that does not has enough ROM. */
  lemma CompleteNeeds(multicart: bool, n: nat, size: nat)
    requires forall k :: 0 <= k < n ==> DumpAddress(multicart, k) < size
    ensures size >= DumpNeeds(multicart, n)
  {
    var m := DumpNeeds(multicart, n);
    if m > 0 {
      assert DumpAddress(multicart, m - 1) == m - 1;
    }
  }

  lemma StartBounds(multicart: bool, bank: u8)
    ensures BankStart(multicart, bank) <= 0x4000
  {
  }

  /** Header codes the dump handles give up to 128 banks; from 6 on the bank
      count wraps to zero and nothing is read. */
  lemma BankCounts(code: nat)
    ensures NumBanks(code) <= 0x80
    ensures code >= 6 ==> NumBanks(code) == 0
    ensures code <= 5 ==> NumBanks(code) == Pow2(code + 2)
  {
    if code >= 6 {
      PowMultiple(code + 2);
    } else if code == 0 {} else if code == 1 {} else if code == 2 {} else if code == 3 {} else if code == 4 {} else {}
  }

  lemma LengthByCode(code: nat)
    ensures DumpLength(code) == if code <= 5 then 0x10000 * Pow2(code) else 0
  {
    BankCounts(code);
    assert Pow2(code + 2) == 4 * Pow2(code) by { assert Pow2(code + 1) == 2 * Pow2(code); }
  }

  lemma {:induction false} PowMultiple(k: nat)
    requires k >= 8
    ensures Pow2(k) % 0x100 == 0
  {
    if k > 8 {
      PowMultiple(k - 1);
    } else {
      assert Pow2(8) == 0x100;
    }
  }

  class Mbc1 {
    var ramG: u8
    var romBank: u8
    var ramBank: u8
    var mode: bool
    var ramAccess: bool
    const rom: seq<u8>
    const ram: array<u8>
    const multicart: bool

    ghost function View(): Cart
      reads this, ram
    {
      Cart(Chip(ramG, romBank, ramBank, mode, ramAccess), rom, ram[..], multicart)
    }

    constructor (rom: seq<u8>, ram: array<u8>, multicart: bool)
      ensures View() == Cart(INITIAL, rom, ram[..], multicart) && this.ram == ram
    {
      ramG, romBank, ramBank, mode, ramAccess := 0, 1, 0, false, false;
      this.rom, this.ram, this.multicart := rom, ram, multicart;
    }

    /** `write_mbc1`; ok is false where the source's assertion fails. */
    method Write(address: u16, data: u8) returns (ok: bool)
      modifies this, ram
      ensures ok == Mbc1Model.Write(old(View()), address, data).Ok?
      ensures View() == if ok then Mbc1Model.Write(old(View()), address, data).value else old(View())
    {
      ok := true;
      if address < 0x2000 {
        ramG := data % 0x10;
        ramAccess := ramG == 0xA;
      } else if address < 0x4000 {
        romBank := data % 0x20;
        if romBank == 0 {
          romBank := 1;
        }
      } else if address < 0x6000 {
        ramBank := data % 4;
      } else if address < 0x8000 {
        mode := data % 2 == 1;
      } else if 0xA000 <= address < 0xC000 && ramAccess {
        var physical := PhysicalAddress(address).value % 0x10000;
        if physical >= ram.Length {
          return false;
        }
        ram[physical] := data;
      }
    }

    /** `compute_physical_address`. */
    function PhysicalAddress(address: u16): (p: Result<nat>)
      reads this, ram
      ensures p == Physical(View().chip, multicart, address)
    {
      var bankSize := if multicart then 0x10 else 0x20;
      if 0xA000 <= address < 0xC000 then
        Ok(address % 0x2000 + (if mode then ramBank else 0) * 0x2000)
      else if address >= 0x8000 then Abort
      else
        var high := ramBank * bankSize % 0x100;
        var bank :=
          if address < 0x4000 then if mode then high else 0
          else (high + if romBank == 0 then 1 else if multicart then romBank % 0x10 else romBank) % 0x100;
        Ok(address % 0x4000 + bank * 0x4000)
    }

    /** `read_mbc1`. */
    function Read(address: u16): (b: Result<u8>)
      reads this, ram
      ensures b == Mbc1Model.Read(View(), address)
    {
      var isRam := 0xA000 <= address < 0xC000;
      if isRam && !ramAccess then Ok(0xFF)
      else if PhysicalAddress(address).Abort? then Abort
      else
        var p := PhysicalAddress(address).value;
        if isRam then if p < ram.Length then Ok(ram[p]) else Abort
        else if p < |rom| then Ok(rom[p]) else Abort
    }

    method SelectBank(bank: u8)
      requires mode && bank < 0x80
      modifies this, ram
      ensures View() == old(View()).(chip := Selected(multicart, bank, old(View()).chip)) && mode
    {
      var _ := Write(0x2000, bank);
      if multicart {
        var _ := Write(0x4000, bank / 0x10);
      } else {
        var _ := Write(0x4000, bank / 0x20);
      }
    }

    /** What a dump has done so far: the addresses read and their sum. */
    ghost predicate Progress(read: seq<nat>, buf: u32) {
      && (forall k :: 0 <= k < |read| ==> read[k] == DumpAddress(multicart, k) < |rom|)
      && (forall k :: 0 <= k < |read| ==> DumpAddress(multicart, k) < |rom|)
      && buf == DumpSum(rom, multicart, |read|) % 0x1_0000_0000
    }

    /** The inner loop: one bank through its window, read on from where the
        bank before it ended; ok is false if the ROM ends first. */
    method DumpBank(bank: u8, buf0: u32, ghost read0: seq<nat>, ghost c: Chip)
      returns (ok: bool, buf: u32, ghost read: seq<nat>)
      requires bank < 0x80 && View().chip == Selected(multicart, bank, c)
      requires |read0| == bank * 0x4000 && Progress(read0, buf0)
      ensures Progress(read, buf)
      ensures ok ==> |read| == (bank + 1) * 0x4000
      ensures !ok ==> |read| == |rom| < (bank + 1) * 0x4000 && (multicart ==> |rom| < 0x10_0000)
    {
      hide Physical, Mbc1Model.Read, Selected, BankStart, DumpAddress, Progress;
      StartBounds(multicart, bank);
      ok, buf, read := true, buf0, read0;
      var start: int := BankStart(multicart, bank);
      var address: int := start;
      while address < start + 0x4000
        invariant start <= address <= start + 0x4000
        invariant |read| == bank * 0x4000 + (address - start) && Progress(read, buf)
      {
        SelectShowsBank(c, multicart, bank, address - start);
        ReadsRom(View(), address);
        var b := Read(address);
        if b.Abort? {
          StopsHere(read, buf);
          ok := false;
          return;
        }
        ReadOne(read, buf);
        buf := (buf + b.value) % 0x1_0000_0000;
        read := read + [DumpAddress(multicart, |read|)];
        address := address + 1;
      }
    }

    /** `dump_mbc1`.  Every byte up to the header's bank count is read exactly
        once, in increasing order (read is the list of addresses), and buf is
        their sum in 32 bits; the dump aborts exactly when the ROM is too
        short, and then has read all of it. */
    method Dump() returns (ok: bool, buf: u32, ghost read: seq<nat>)
      requires |rom| > 0x148
      modifies this, ram
      ensures var length := if rom[0x148] <= 5 then 0x10000 * Pow2(rom[0x148]) else 0;
        && (ok <==> |rom| >= DumpNeeds(multicart, length))
        && |read| == (if ok then length else |rom|)
      ensures Progress(read, buf)
      ensures ram[..] == old(ram[..])
    {
      hide Physical, Selected, NumBanks, Pow2, DumpAddress, Progress;
      var numBanks := NumBanks(rom[ROM_SIZE]);
      BankCounts(rom[ROM_SIZE]);
      LengthByCode(rom[ROM_SIZE]);
      ok, buf, read := true, 0, [];
      NothingRead();
      var _ := Write(0x6000, 1);
      var bank: int := 0;
      while bank < numBanks
        invariant 0 <= bank <= numBanks && ok && mode && ram[..] == old(ram[..])
        invariant |read| == bank * 0x4000 && Progress(read, buf)
      {
        ghost var c := View().chip;
        SelectBank(bank);
        ok, buf, read := DumpBank(bank, buf, read, c);
        if !ok {
          return;
        }
        bank := bank + 1;
      }
      EnoughRom(read, buf);
    }

    lemma StopsHere(read: seq<nat>, buf: u32)
      requires Progress(read, buf) && DumpAddress(multicart, |read|) >= |rom|
      ensures |read| == |rom| && (multicart ==> |rom| < 0x10_0000)
    {
      StopsAtEnd(multicart, |read|, |rom|);
    }

    lemma ReadOne(read: seq<nat>, buf: u32)
      requires Progress(read, buf) && DumpAddress(multicart, |read|) < |rom|
      ensures var a := DumpAddress(multicart, |read|); Progress(read + [a], (buf + rom[a]) % 0x1_0000_0000)
    {
      hide DumpAddress;
      var a, sum := DumpAddress(multicart, |read|), DumpSum(rom, multicart, |read|);
      assert (sum % 0x1_0000_0000 + rom[a]) % 0x1_0000_0000 == (sum + rom[a]) % 0x1_0000_0000;
    }

    lemma NothingRead()
      ensures Progress([], 0)
    {
    }

    lemma EnoughRom(read: seq<nat>, buf: u32)
      requires Progress(read, buf)
      ensures |rom| >= DumpNeeds(multicart, |read|)
    {
      CompleteNeeds(multicart, |read|, |rom|);
    }
  }

  // ----- what the dump comes to -----

  /** Without multicart wiring a complete dump's sum is the sum of the ROM
      bytes up to its length. */
  lemma {:induction false} DumpSumIsByteSum(rom: seq<u8>, n: nat)
    requires n <= |rom|
    ensures DumpSum(rom, false, n) == ByteSum(rom[..n])
  {
    if n > 0 {
      DumpSumIsByteSum(rom, n - 1);
      assert rom[..n][..n - 1] == rom[..n - 1];
    }
  }

  /** The bank count is twice what the header promises (32 KiB << code, as
      the cartridge header is documented).  So the dump of a ROM exactly as
      long as its header says aborts half-way for every code that gives a
      count at all, with one exception: with multicart wiring and code 5, the
      1 MiB that wiring can address, it reads the ROM twice over. */
  lemma HonestRomAborts(multicart: bool, code: nat, size: nat)
    requires size == 0x8000 * Pow2(code)
    ensures DumpLength(code) == if code <= 5 then 2 * size else 0
    ensures size < DumpNeeds(multicart, DumpLength(code)) <==> code <= 5 && !(multicart && code == 5)
  {
    BankCounts(code);
    if code == 0 {} else if code == 1 {} else if code == 2 {} else if code == 3 {} else if code == 4 {} else {}
  }
}
