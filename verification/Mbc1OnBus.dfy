/** An MBC1 cartridge behind the CPU bus (src/cartridge/memory.c). */
module Mbc1OnBus {
  import opened Words
  import opened MachineState
  import Bus
  import Mbc1Model
  import Mbc1Device

  /** The byte a chip shows at an address; 0 where the source would abort. */
  function Shown(m: Mbc1Model.Result<Mbc1Model.Cart>, a: u16): u8 {
    match m
    case Abort => 0
    case Ok(n) => match Mbc1Model.Read(n, a) case Ok(b) => b case Abort => 0
  }

  /** The chip as a bus device: it answers as its register writes left it. */
  ghost predicate Plugged(s: State, m: Mbc1Model.Cart) {
    s.cart.history == [] && forall h, a :: s.cart.respond(h, a) == Shown(Mbc1Model.WriteAll(m, h), a)
  }

  /** Bus writes below 0x8000 arrive at the chip, in order. */
  lemma {:induction false} HistoryIsWrites(s: State, ws: seq<(u16, u8)>)
    requires s.cart.history == []
    requires forall i :: 0 <= i < |ws| ==> ws[i].0 < Bus.ROM_END
    ensures var t := Bus.WriteAll(s, ws); t.cart.history == ws && t.cart.respond == s.cart.respond
    decreases |ws|
  {
    if ws != [] {
      HistoryIsWrites(s, ws[..|ws| - 1]);
      assert ws == ws[..|ws| - 1] + [ws[|ws| - 1]];
    }
  }

  /** Bank switching seen from the CPU: after the three register writes the
      window reads the ROM bytes of the bank. */
  lemma BankThroughBus(s: State, m: Mbc1Model.Cart, bank: u8, offset: nat)
    requires Plugged(s, m) && bank < 0x80 && offset < 0x4000
    requires Mbc1Device.DumpAddress(m.multicart, bank * 0x4000 + offset) < |m.rom|
    ensures var k: u8 := bank / (if m.multicart then 0x10 else 0x20);
      var t := Bus.WriteAll(s, [(0x6000, 1), (0x2000, bank), (0x4000, k)]);
      Bus.Read(t, Mbc1Device.BankStart(m.multicart, bank) + offset)
      == m.rom[Mbc1Device.DumpAddress(m.multicart, bank * 0x4000 + offset)]
  {
    hide Bus.WriteAll, Mbc1Model.Physical, Mbc1Device.DumpAddress, Mbc1Device.BankStart;
    var k: u8 := bank / (if m.multicart then 0x10 else 0x20);
    var ws := [(0x6000, 1), (0x2000, bank), (0x4000, k)];
    HistoryIsWrites(s, ws);
    ThreeWrites(m, bank, k);
    Mbc1Device.SelectShowsBank(m.chip, m.multicart, bank, offset);
    Mbc1Device.StartBounds(m.multicart, bank);
    var n := Mbc1Model.WriteAll(m, ws).value;
    Mbc1Device.ReadsRom(n, Mbc1Device.BankStart(m.multicart, bank) + offset);
  }

  lemma ThreeWrites(m: Mbc1Model.Cart, bank: u8, k: u8)
    requires k == bank / (if m.multicart then 0x10 else 0x20)
    ensures Mbc1Model.WriteAll(m, [(0x6000, 1), (0x2000, bank), (0x4000, k)])
         == Mbc1Model.Ok(m.(chip := Mbc1Device.Selected(m.multicart, bank, m.chip)))
  {
    var a: (u16, u8), b: (u16, u8), c: (u16, u8) := (0x6000, 1), (0x2000, bank), (0x4000, k);
    assert [a, b, c][..2] == [a, b] && [a, b][..1] == [a] && [a][..0] == [];
    assert Mbc1Model.WriteAll(m, [a]) == Mbc1Model.Write(m, 0x6000, 1);
    var m1 := Mbc1Model.Write(m, 0x6000, 1).value;
    assert Mbc1Model.WriteAll(m, [a, b]) == Mbc1Model.Write(m1, 0x2000, bank);
  }
}
