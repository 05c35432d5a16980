/** The emulator as the source runs it: global state changed in place, one
    method per C function, each proved against its specification function. */
module Emulator {
  import opened Words
  import opened MachineState
  import opened Opcodes
  import opened Fetch
  import opened Instructions
  import TimerModel
  import Interrupts
  import Alu
  import Bus
  import Runs
  import RunProperties
  import opened Effects
  import opened MachineSteps

  class Machine {
    // g_cpu
    const r: array<u8>
    const memory: array<u8>
    var pc: u16
    var sp: u16
    var halt: bool
    var imeScheduled: bool
    // g_timer, g_tima_overflow
    var div: u16
    var tima: u8
    var tma: u8
    var tac: u8
    var overflow: bool
    // g_if_reg, g_ie_reg, g_ime
    var iflag: u8
    var ie: u8
    var ime: bool
    // the cartridge as a device, and the tick count of the specification
    var cart: Cartridge
    ghost var clock: nat

    ghost predicate Valid() { r.Length == 8 && memory.Length == 0x10000 && r != memory }

    ghost function View(): State
      requires Valid()
      reads this, r, memory
    {
      State(r[..], pc, sp, memory[..], cart, Timer(div, tima, tma, tac, overflow),
            iflag, ie, ime, imeScheduled, halt, clock)
    }

    /** The static initial state: all zero, IME set. */
    constructor (cart: Cartridge)
      ensures Valid() && fresh(r) && fresh(memory)
      ensures View() == State(seq(8, _ => 0), 0, 0, seq(0x10000, _ => 0), cart, Timer(0, 0, 0, 0, false),
                              0, 0, true, false, false, 0)
    {
      r := new u8[8](_ => 0);
      memory := new u8[0x10000](_ => 0);
      pc, sp, halt, imeScheduled := 0, 0, false, false;
      div, tima, tma, tac, overflow := 0, 0, 0, 0, false;
      iflag, ie, ime := 0, 0, true;
      this.cart, clock := cart, 0;
      new;
      assert r[..] == seq(8, _ => 0);
      assert memory[..] == seq(0x10000, _ => 0);
    }

    // ----- src/cpu/cpu.c -----

    method Reset()
      requires Valid()
      modifies this, r
      ensures View() == Runs.Reset(old(View()))
    {
      pc := 0x0100;
      sp := 0xFFFE;
      var defaults: seq<u8> := Runs.RESET_REGISTERS;
      forall i | 0 <= i < 8 {
        r[i] := defaults[i];
      }
      assert r[..] == defaults;
      halt := false;
      imeScheduled := false;
      div := 0xABCC;
    }

    method WriteRegister16(reg: Reg, val: u16)
      requires Valid()
      modifies this`pc, this`sp, r
      ensures View() == WriteReg16(old(View()), reg, val)
    {
      if reg < REG_PC {
        r[reg] := val % 0x100;
      } else if reg == REG_PC {
        pc := val;
      } else if reg == REG_SP {
        sp := val;
      } else {
        r[PairIndex(reg)] := val / 0x100;
        r[PairIndex(reg) + 1] := val % 0x100;
      }
    }

    function ReadRegister16(reg: Reg): (val: u16)
      requires Valid()
      reads this, r, memory
      ensures val == ReadReg16(View(), reg)
    {
      if reg < REG_PC then r[reg]
      else if reg == REG_PC then pc
      else if reg == REG_SP then sp
      else Word(r[PairIndex(reg)], r[PairIndex(reg) + 1])
    }

    // ----- include/cpu/flag.h -----

    method SetFlag(flag: FlagName, value: bool)
      requires Valid()
      modifies r
      ensures r[..] == old(r[..])[REG_F := FlagSet(old(r[REG_F]), flag, value)]
    {
      MaskIsFlagSet(r[REG_F], flag, value);
      r[REG_F] := WithBit(r[REG_F], FlagBit(flag), value);
    }

    /** The four `set_flag` calls an arithmetic handler makes. */
    method SetFlags(z: bool, n: bool, h: bool, c: bool)
      requires Valid()
      modifies r
      ensures r[..] == old(r[..])[REG_F := Alu.Flags(z, n, h, c, old(r[REG_F]) % 0x10)]
    {
      hide Alu.Z, Alu.N, Alu.H, Alu.C;
      SetFlag(NFlag, n);
      SetFlag(HFlag, h);
      SetFlag(CFlag, c);
      SetFlag(ZFlag, z);
    }

    method SetAllFlags(z: bool, n: bool, h: bool, c: bool)
      requires Valid()
      modifies r
      ensures r[..] == old(r[..])[REG_F := Alu.Flags(z, n, h, c, 0)]
    {
      r[REG_F] := (if z then 1 else 0) * 0x80 + (if n then 1 else 0) * 0x40
                  + (if h then 1 else 0) * 0x20 + (if c then 1 else 0) * 0x10;
    }

    function GetFlag(flag: FlagName): (v: bool)
      requires Valid()
      reads r
      ensures v == match flag case ZFlag => Alu.Z(r[REG_F]) case NFlag => Alu.N(r[REG_F])
                              case HFlag => Alu.H(r[REG_F]) case CFlag => Alu.C(r[REG_F])
    {
      FlagBits(r[REG_F]);
      Bit(r[REG_F], FlagBit(flag))
    }

    // ----- src/cpu/timer.c -----

    /** The effects left over from the previous tick: the delayed IME, then
        the reload and the request that follow an overflow. */
    method DelayedEffects()
      modifies this`ime, this`imeScheduled, this`overflow, this`iflag, this`tima
      ensures ime == (old(ime) || old(imeScheduled)) && !imeScheduled && !overflow
      ensures iflag == (if old(overflow) then WithBit(old(iflag), 2, true) else old(iflag))
      ensures tima == (if old(overflow) then tma else old(tima))
    {
      if imeScheduled {
        ime := true;
        imeScheduled := false;
      }
      if overflow {
        overflow := false;
        InterruptRequest(0x50);
        tima := tma;
      }
    }

    method CountTima(increase: u8)
      modifies this`overflow, this`tima
      requires !overflow
      ensures overflow == (increase != 0 && Bit(tac % 8, 2) && old(tima) == 0xFF)
      ensures tima == (if increase == 0 || !Bit(tac % 8, 2) then old(tima)
                       else if old(tima) == 0xFF then 0 else (old(tima) + increase) % 0x100)
    {
      if increase != 0 && Bit(tac % 8, 2) {
        if tima == 0xFF {
          tima := 0;
          overflow := true;
        } else {
          tima := (tima + increase) % 0x100;
        }
      }
    }

    /** `timer_ticks`, its three stages in order. */
    method TimerTicks(ticks: u8)
      requires Valid()
      modifies this
      ensures View() == TimerModel.TimerTicks(old(View()), ticks)
    {
      hide Bit, WithBit, RawIncrease, TimerModel.Advance;
      AdvanceInSteps(View().timer, ticks);
      var increase := RawIncrease(tac % 8, div, ticks);
      div := (div + ticks) % 0x10000;
      clock := clock + ticks;
      DelayedEffects();
      CountTima(increase);
    }

    method TimerTick()
      requires Valid()
      modifies this
      ensures View() == TimerModel.Tick(old(View()))
    {
      TimerTicks(1);
    }

    method InterruptRequest(vector: u16)
      requires 0x40 <= vector <= 0x60
      modifies this`iflag
      ensures iflag == WithBit(old(iflag), (vector - 0x40) / 8, true)
    {
      iflag := WithBit(iflag, (vector - 0x40) / 8, true);
    }

    method WriteTimer(address: u16, data: u8)
      requires Valid() && 0xFF04 <= address <= 0xFF07
      modifies this`div, this`tima, this`tma, this`tac
      ensures View() == Bus.Write(old(View()), address, data)
    {
      if address == 0xFF04 {
        div := 0;
      } else if address == 0xFF07 {
        tac := tac - tac % 8 + data % 8;
      } else if address == 0xFF06 {
        tma := data;
      } else {
        tima := data;
      }
    }

    function ReadTimer(address: u16): u8
      requires 0xFF04 <= address <= 0xFF07
      reads this
    {
      if address == 0xFF07 then tac % 8 else if address == 0xFF04 then div / 0x100
      else if address == 0xFF06 then tma else tima
    }

    // ----- src/io.c and src/cpu/memory.c -----

    method WriteIo(address: u16, data: u8)
      requires Valid() && 0xFF00 <= address < 0xFF7F
      modifies this, memory
      ensures View() == Bus.Write(old(View()), address, data)
    {
      if 0xFF04 <= address <= 0xFF07 {
        WriteTimer(address, data);
      } else if address == 0xFF0F {
        iflag := data;
      } else {
        memory[address] := data;
      }
    }

    method WriteMemory(address: u16, val: u8)
      requires Valid()
      modifies this, memory
      ensures View() == Bus.Write(old(View()), address, val)
    {
      if address < 0x8000 {
        cart := cart.Write(address, val);
      } else if 0xFF00 <= address < 0xFF80 - 1 {
        WriteIo(address, val);
      } else if address == 0xFFFF {
        ie := val;
      } else {
        memory[address] := val;
      }
    }

    method WriteMemory16(address: u16, val: u16)
      requires Valid()
      modifies this, memory
      ensures View() == Bus.Write16(old(View()), address, val)
    {
      WriteMemory(address, val % 0x100);
      WriteMemory((address + 1) % 0x10000, val / 0x100);
    }

    function ReadIo(address: u16): u8
      requires Valid() && 0xFF00 <= address < 0xFF7F
      reads this, memory
    {
      if 0xFF04 <= address <= 0xFF07 then ReadTimer(address)
      else if address == 0xFF0F then iflag
      else memory[address]
    }

    function ReadMemory(address: u16): (val: u8)
      requires Valid()
      reads this, r, memory
      ensures val == Bus.Read(View(), address)
    {
      if address < 0x8000 then cart.Read(address)
      else if 0xFF00 <= address < 0xFF80 - 1 then ReadIo(address)
      else if address == 0xFFFF then ie
      else memory[address]
    }

    /** At 0xFFFF the high byte comes from beyond the array; see Bus.Read16. */
    function ReadMemory16(address: u16): (val: u16)
      requires Valid()
      reads this, r, memory
      ensures val == Bus.Read16(View(), address)
    {
      if address < 0x8000 then Word(cart.Read(address + 1), cart.Read(address))
      else Word(if address < 0xFFFF then memory[address + 1] else 0, memory[address])
    }

    // ----- include/cpu/stack.h -----

    method StackPush(data: u8)
      requires Valid()
      modifies this, memory
      ensures View() == Bus.Push(old(View()), data)
    {
      TimerTick();
      sp := (sp - 1) % 0x10000;
      WriteMemory(sp, data);
    }

    method StackPush16(data: u16)
      requires Valid()
      modifies this, memory
      ensures View() == Bus.Push16(old(View()), data)
    {
      StackPush(data / 0x100);
      StackPush(data % 0x100);
    }

    method StackPop() returns (data: u8)
      requires Valid()
      modifies this
      ensures (View(), data) == Bus.Pop(old(View()))
    {
      TimerTick();
      data := ReadMemory(sp);
      sp := (sp + 1) % 0x10000;
    }

    method StackPop16() returns (data: u16)
      requires Valid()
      modifies this
      ensures (View(), data) == Bus.Pop16(old(View()))
    {
      var lsb := StackPop();
      var msb := StackPop();
      data := Word(msb, lsb);
    }

    // ----- src/cpu/interrupt.c -----

    method HandleInterrupt(vector: u16)
      requires Valid()
      modifies this, memory
      ensures View() == TimerModel.Tick(Bus.Push16(TimerModel.TimerTicks(old(View()), 2), old(pc))).(pc := vector)
    {
      TimerTicks(2);
      StackPush16(pc);
      TimerTick();
      pc := vector;
    }

    /** The priority loop over the vectors 0x40, 0x48, ..., 0x60. */
    method HandleInterrupts() returns (cycles: u8)
      requires Valid()
      modifies this, memory
      ensures View() == Interrupts.HandleInterrupts(old(View()))
      ensures cycles as int == clock - old(clock)
    {
      hide TimerModel.TimerTicks, Bus.Push16, Bit, WithBit;
      ghost var s := View();
      RunProperties.HandleInterruptsEffect(s);
      var vector: u16 := 0x40;
      while vector <= 0x60
        invariant 0x40 <= vector <= 0x68 && vector % 8 == 0
        invariant View() == s
        invariant Interrupts.PendingList(s) == Interrupts.PendingFrom(s, (vector - 0x40) / 8)
      {
        var k := (vector - 0x40) / 8;
        if Bit(iflag, k) && Bit(ie, k) {
          halt := false;
          if !ime {
            return 0;
          }
          HandleInterrupt(vector);
          iflag := WithBit(iflag, k, false);
          return 5;
        }
        vector := vector + 8;
      }
      return 0;
    }

    // ----- src/cpu/instruction_fetch.c -----

    /** `read_8bit_data` and `fetch_opcode`. */
    method ReadByte() returns (data: u8)
      requires Valid()
      modifies this
      ensures (View(), data) == Fetch.FetchByte(old(View()))
    {
      hide TimerModel.TimerTicks, Bus.Read;
      TickFrame(View());
      TimerTick();
      data := ReadMemory(pc);
      ReadIgnoresPc(View(), pc, (pc + 1) % 0x10000);
      pc := (pc + 1) % 0x10000;
    }

    method ReadWord() returns (data: u16)
      requires Valid()
      modifies this
      ensures (View(), data) == Fetch.FetchWord(old(View()))
    {
      hide Fetch.FetchByte;
      var lsb := ReadByte();
      var msb := ReadByte();
      data := Word(msb, lsb);
    }

    /** HL as an address, stepped on the way. */
    method FetchStepHl(o: Operand, op: u8) returns (address: u16)
      requires Valid() && o in {HldA, HliA}
      modifies this, r
      ensures (View(), address) == Fetch.FetchAddress(old(View()), o, op)
    {
      hide ReadReg16, WriteReg16;
      address := ReadRegister16(REG_HL);
      WriteRegister16(REG_HL, (if o == HldA then address - 1 else address + 1) % 0x10000);
    }

    /** The address operand of an instruction. */
    method FetchAddress(o: Operand, op: u8) returns (address: u16)
      requires Valid()
      modifies this, r
      ensures (View(), address) == Fetch.FetchAddress(old(View()), o, op)
    {
      hide Fetch.FetchByte, Fetch.FetchWord, P, ReadReg16, WriteReg16;
      match o
      case A16 | FlagA16 | D16RelA | D16RelSp => address := ReadWord();
      case HlRel | HlRelR8 | HlRelD8 => address := ReadRegister16(REG_HL);
      case R16RelA => address := ReadRegister16(WordReg(P(op)));
      case HldA | HliA => address := FetchStepHl(o, op);
      case CRelA => address := Word(0xFF, r[REG_C]);
      case D8RelA =>
        var low := ReadByte();
        address := Word(0xFF, low);
      case _ => address := 0;
    }

    /** Operands that need one tick and one read through HL. */
    method FetchThroughHl(o: Operand, op: u8) returns (data: u16)
      requires Valid() && o in {R8HlRel, AHlRel, AHld, AHli}
      modifies this, r
      ensures (View(), data) == Fetch.FetchData(old(View()), o, op)
    {
      hide TimerModel.TimerTicks, Bus.Read, ReadReg16, WriteReg16;
      TickFrame(View());
      TimerTick();
      var hl: int := ReadRegister16(REG_HL);
      data := ReadMemory(hl);
      if o == AHld {
        WriteRegister16(REG_HL, (hl - 1) % 0x10000);
      } else if o == AHli {
        WriteRegister16(REG_HL, (hl + 1) % 0x10000);
      }
    }

    /** The data operand of an instruction. */
    method FetchData(o: Operand, op: u8) returns (data: u16)
      requires Valid()
      modifies this, r
      ensures (View(), data) == Fetch.FetchData(old(View()), o, op)
    {
      hide Fetch.FetchByte, Fetch.FetchWord, P, Y, TimerModel.TimerTicks, Bus.Read, Bus.Read16;
      match o
      case S8 | FlagS8 | R8D8 | AD8 | HlS8 | SpS8 | HlRelD8 => data := ReadByte();
      case R16D16 => data := ReadWord();
      case R8HlRel | AHlRel | AHld | AHli => data := FetchThroughHl(o, op);
      case AR16Rel =>
        var address := ReadRegister16(WordReg(P(op)));
        TimerTick();
        data := ReadMemory16(address);
      case AD16Rel =>
        TimerTick();
        var address := ReadWord();
        data := ReadMemory16(address);
      case ACRel =>
        var low := r[REG_C];
        TimerTick();
        data := ReadMemory(Word(0xFF, low));
      case AD8Rel =>
        TimerTick();
        var low := ReadByte();
        data := ReadMemory(Word(0xFF, low));
      case Vec => data := Y(op) * 8;
      case D16RelSp => data := sp;
      case _ => data := 0;
    }

    /** `fetch_instruction`: one table lookup, then the operands. */
    method FetchInstruction(op: u8) returns (i: Instr)
      requires Valid()
      modifies this, r
      ensures (View(), i) == Fetch.FetchInstruction(old(View()), op)
    {
      hide Fetch.FetchAddress, Fetch.FetchData, FirstReg, SecondReg, Condition, Table, Decode;
      TableIsOctal(op);
      var e := Table(op);
      var f := r[REG_F];
      var address := FetchAddress(e.operand, op);
      var data := FetchData(e.operand, op);
      i := Instr(e.name, e.operand, FirstReg(op), SecondReg(op), address,
                 e.operand !in {FlagA16, FlagS8, Opcodes.Flag} || Condition(f, Y(op) % 4),
                 data, e.cycles, e.cyclesFalse);
    }

    // ----- src/cpu/instruction.c: 8-bit arithmetic -----
    // These handlers touch the byte registers only.

    /** The register or the fetched byte an 8-bit operation works with. */
    function SecondOperand(i: Instr): (data: u8)
      requires Valid() && Loaded(i) && i.operand in {AR8, AD8, AHlRel}
      reads this, r, memory
      ensures data == Operand8(View(), i)
    {
      if i.operand == AR8 then r[i.reg2] else i.data
    }

    /** The flags of an 8-bit result v, then the result itself into A. */
    method StoreResult(v: u8, n: bool, h: bool, c: bool)
      requires Valid()
      modifies r
      ensures r[..] == old(r[..])[REG_A := v][REG_F := Alu.Flags(v == 0, n, h, c, old(r[REG_F]) % 0x10)]
    {
      hide Alu.Flags;
      SetFlags(v == 0, n, h, c);
      r[REG_A] := v;
    }

    method HandleSub(i: Instr)
      requires Valid() && WellFormed(i) && i.name == Sub
      modifies r
      ensures r[..] == Handle(old(View()), i).r
    {
      hide Handle, Alu.Flags, Alu.C, Operand8, WellFormed, Loaded;
      OperandFits(i);
      HandleCompares(View(), i);
      var val: int := r[i.reg1];
      var data: int := SecondOperand(i);
      StoreResult((val - data) % 0x100, true, val % 0x10 - data % 0x10 < 0, data > val);
    }

    method HandleSbc(i: Instr)
      requires Valid() && WellFormed(i) && i.name == Sbc
      modifies r
      ensures r[..] == Handle(old(View()), i).r
    {
      hide Handle, Alu.Flags, Alu.C, Operand8, HalfBorrow, Borrow, WellFormed, Loaded;
      OperandFits(i);
      HandleSubtracts(View(), i);
      var val: int := r[i.reg1];
      var data: int := SecondOperand(i);
      var carry := Alu.Carry(GetFlag(CFlag));
      var half, c := val % 0x10 - data % 0x10 - carry, val - data - carry;
      BorrowIsSign(half, c);
      StoreResult(c % 0x100, true, HalfBorrow(half), Borrow(c));
    }

    method HandleAdd(i: Instr)
      requires Valid() && WellFormed(i) && i.name == Add && i.operand !in {HlR16, SpS8}
      modifies r
      ensures r[..] == Handle(old(View()), i).r
    {
      hide Handle, Alu.Flags, Alu.C, Operand8, Bit, WellFormed, Loaded;
      OperandFits(i);
      HandleAddsMasked(View(), i);
      var val: int := r[i.reg1];
      var data: int := SecondOperand(i);
      var half, sum := val % 0x10 + data % 0x10, val + data;
      StoreResult(sum % 0x100, false, Bit(half, 4), Bit(sum, 8));
    }

    method HandleAdc(i: Instr)
      requires Valid() && WellFormed(i) && i.name == Adc
      modifies r
      ensures r[..] == Handle(old(View()), i).r
    {
      hide Handle, Alu.Flags, Alu.C, Operand8, Bit, WellFormed, Loaded;
      OperandFits(i);
      HandleAddsMasked(View(), i);
      var val: int := r[i.reg1];
      var data: int := SecondOperand(i);
      var carry := Alu.Carry(GetFlag(CFlag));
      var half, sum := val % 0x10 + data % 0x10 + carry, val + data + carry;
      StoreResult(sum % 0x100, false, Bit(half, 4), Bit(sum, 8));
    }

    method HandleLogic(i: Instr)
      requires Valid() && WellFormed(i) && i.name in {And, Or, Xor}
      modifies r
      ensures r[..] == Handle(old(View()), i).r
    {
      hide Handle, Operand8, And8, Or8, Xor8, WellFormed, Loaded;
      OperandFits(i);
      HandleIsOperate(View(), i);
      var a := r[REG_A];
      var data := SecondOperand(i);
      var v := if i.name == And then And8(a, data) else if i.name == Or then Or8(a, data) else Xor8(a, data);
      r[REG_A] := v;
      SetAllFlags(v == 0, false, i.name == And, false);
    }

    method HandleCp(i: Instr)
      requires Valid() && WellFormed(i) && i.name == Cp
      modifies r
      ensures r[..] == Handle(old(View()), i).r
    {
      hide Handle, Alu.Flags, Operand8, WellFormed, Loaded;
      OperandFits(i);
      HandleCompares(View(), i);
      var a: int := r[REG_A];
      var data: int := SecondOperand(i);
      SetFlags(a == data, true, a % 0x10 < data % 0x10, a < data);
    }

    /** A after the correction, and whether C is to be set. */
    method Corrected(a: u8) returns (v: u8, high: bool)
      requires Valid()
      ensures v == Alu.Daa(a, r[REG_F]).val && high == (!GetFlag(NFlag) && (GetFlag(CFlag) || a > 0x99))
    {
      hide Alu.Z, Alu.N, Alu.H, Alu.C, Alu.Flags;
      CorrectionSteps(a);
      var w: int := a;
      high := false;
      if !GetFlag(NFlag) {
        if GetFlag(CFlag) || w > 0x99 {
          w := (w + 0x60) % 0x100;
          high := true;
        }
        if GetFlag(HFlag) || w % 0x10 > 9 {
          w := (w + 6) % 0x100;
        }
      } else {
        if GetFlag(CFlag) {
          w := (w - 0x60) % 0x100;
        }
        if GetFlag(HFlag) {
          w := (w - 6) % 0x100;
        }
      }
      v := w;
    }

    method HandleDaa(i: Instr)
      requires Valid() && WellFormed(i) && i.name == Daa
      modifies r
      ensures r[..] == Handle(old(View()), i).r
    {
      hide Alu.Z, Alu.N, Alu.H, Alu.C, Handle;
      HandleIsAccumulator(View(), i);
      var a, high := Corrected(r[REG_A]);
      SetFlag(CFlag, high || GetFlag(CFlag));
      r[REG_A] := a;
      SetFlag(HFlag, false);
      SetFlag(ZFlag, a == 0);
    }

    method HandleRotateLeft(i: Instr)
      requires Valid() && WellFormed(i) && i.name in {Rla, Rlca}
      modifies r
      ensures r[..] == Handle(old(View()), i).r
    {
      hide Alu.Flags, Alu.C, Handle;
      HandleRotatesLeft(View(), i);
      var a: int := r[REG_A];
      var c := Alu.Carry(GetFlag(CFlag));
      r[REG_A] := a * 2 % 0x100 + if i.name == Rla then c else a / 0x80;
      SetFlags(false, false, false, a / 0x80 % 2 == 1);
    }

    method HandleRotateRight(i: Instr)
      requires Valid() && WellFormed(i) && i.name in {Rra, Rrca}
      modifies r
      ensures r[..] == Handle(old(View()), i).r
    {
      hide Alu.Flags, Alu.C, Handle;
      HandleRotatesRight(View(), i);
      var a: int := r[REG_A];
      var top := if i.name == Rra then GetFlag(CFlag) else a % 2 == 1;
      r[REG_A] := a / 2 + if top then 0x80 else 0;
      SetFlags(false, false, false, a % 2 == 1);
    }

    method HandleFlags(i: Instr)
      requires Valid() && WellFormed(i) && i.name in {Ccf, Scf, Cpl}
      modifies r
      ensures r[..] == Handle(old(View()), i).r
    {
      hide Alu.Z, Alu.N, Alu.H, Alu.C;
      if i.name == Cpl {
        r[REG_A] := 0xFF - r[REG_A];
        SetFlag(NFlag, true);
        SetFlag(HFlag, true);
      } else {
        SetFlag(NFlag, false);
        SetFlag(HFlag, false);
        SetFlag(CFlag, i.name == Scf || !GetFlag(CFlag));
      }
    }

    // ----- src/cpu/instruction.c: control flow -----

    method HandleJp(i: Instr)
      requires Valid()
      modifies this
      ensures View() == Jump(old(View()), i)
    {
      if i.condition {
        TimerTick();
        pc := i.address;
      }
    }

    method HandleJr(i: Instr)
      requires Valid() && i.data < 0x100
      modifies this
      ensures View() == JumpRelative(old(View()), i)
    {
      hide TimerModel.TimerTicks;
      if i.condition {
        TickFrame(View());
        TimerTick();
        pc := (pc + Signed(i.data)) % 0x10000;
      }
    }

    method HandleCall(i: Instr)
      requires Valid()
      modifies this, memory
      ensures View() == CallTo(old(View()), i)
    {
      hide TimerModel.TimerTicks, Bus.Push16;
      if !i.condition {
        return;
      }
      TickFrame(View());
      TimerTick();
      StackPush16(pc);
      pc := i.address;
    }

    method ReturnFromStack()
      requires Valid()
      modifies this
      ensures View() == Instructions.Return(old(View()))
    {
      hide TimerModel.TimerTicks, Bus.Pop16;
      var target := StackPop16();
      TimerTick();
      pc := target;
    }

    method HandleRet(i: Instr)
      requires Valid()
      modifies this
      ensures View() == ReturnIf(old(View()), i)
    {
      hide TimerModel.TimerTicks, Instructions.Return;
      if i.operand != NoOperand {
        TimerTick();
      }
      if i.condition {
        ReturnFromStack();
      }
    }

    method HandleReti()
      requires Valid()
      modifies this
      ensures View() == Instructions.Return(old(View())).(ime := true)
    {
      hide Instructions.Return;
      ReturnFromStack();
      ime := true;
    }

    method HandleRst(i: Instr)
      requires Valid()
      modifies this, memory
      ensures View() == Restart(old(View()), i)
    {
      hide TimerModel.TimerTicks, Bus.Push16;
      TickFrame(View());
      TimerTick();
      StackPush16(pc);
      pc := i.data;
    }

    // ----- src/cpu/instruction.c: loads and the stack -----

    /** LD HL, SP+e. */
    method LoadHlSp(i: Instr)
      requires Valid() && i.name == Ld && WellFormed(i) && i.operand == HlS8
      modifies this, r
      ensures View() == Load(old(View()), i)
    {
      hide TimerModel.TimerTicks, WriteReg16, Alu.Flags, Bit;
      var val: int := sp;
      var half, sum := val % 0x10 + i.data % 0x10, val % 0x100 + i.data;
      CarryBits(half, sum);
      TimerTick();
      WriteRegister16(REG_HL, (val + Signed(i.data)) % 0x10000);
      SetAllFlags(false, false, Bit(half, 4), Bit(sum, 8));
    }

    /** The loads into memory. */
    method StoreToMemory(i: Instr)
      requires Valid() && i.name == Ld && WellFormed(i)
      requires i.operand in {D16RelSp, HlRelD8, HlRelR8, R16RelA, D16RelA, HldA, HliA}
      modifies this, memory
      ensures View() == Load(old(View()), i)
    {
      hide TimerModel.TimerTicks, Bus.Write, Bus.Write16, Fits;
      if i.operand == D16RelSp {
        TimerTicks(2);
        WriteMemory16(i.address, i.data);
      } else {
        var byte: u8 := if i.operand == HlRelD8 then i.data else r[i.reg1];
        TimerTick();
        WriteMemory(i.address, byte);
      }
    }

    /** `ld`, by destination. */
    method HandleLd(i: Instr)
      requires Valid() && i.name == Ld && WellFormed(i)
      modifies this, r, memory
      ensures View() == Load(old(View()), i)
    {
      hide TimerModel.TimerTicks, WriteReg16, ReadReg16;
      if i.operand == HlS8 {
        LoadHlSp(i);
      } else if i.operand in {D16RelSp, HlRelD8, HlRelR8, R16RelA, D16RelA, HldA, HliA} {
        StoreToMemory(i);
      } else if i.operand == SpHl {
        TickFrame(View());
        TimerTick();
        sp := ReadRegister16(REG_HL);
      } else if i.operand == R8R8 {
        r[i.reg1] := r[i.reg2];
      } else {
        WriteRegister16(i.reg1, i.data);
      }
    }

    method HandleLdh(i: Instr)
      requires Valid() && i.name == Ldh && WellFormed(i)
      modifies this, r, memory
      ensures View() == LoadHigh(old(View()), i)
    {
      hide Bus.Write;
      if i.operand in {ACRel, AD8Rel} {
        r[i.reg1] := i.data;
      } else {
        WriteMemory(i.address, r[i.data]);
      }
    }

    method HandlePush(i: Instr)
      requires Valid() && i.name == Push && WellFormed(i)
      modifies this, memory
      ensures View() == PushReg(old(View()), i)
    {
      hide TimerModel.TimerTicks, Bus.Push16;
      TickKeepsRegisters(View(), i.reg1);
      TimerTick();
      StackPush16(ReadRegister16(i.reg1));
    }

    method HandlePop(i: Instr)
      requires Valid() && i.name == Pop && WellFormed(i)
      modifies this, r
      ensures View() == PopReg(old(View()), i)
    {
      hide Bus.Pop16, WriteReg16;
      var word := StackPop16();
      WriteRegister16(i.reg1, word);
      r[REG_F] := r[REG_F] - r[REG_F] % 0x10;
    }

    // ----- src/cpu/instruction.c: INC, DEC and the 16-bit additions -----

    method SetStepFlags(n: Mnemonic, base: u8)
      requires Valid() && n in {Inc, Dec}
      modifies r
      ensures r[..] == old(r[..])[REG_F := StepFlags(n, base, old(r[REG_F]))]
    {
      hide Alu.Z, Alu.N, Alu.H, Alu.C;
      SetFlag(NFlag, n == Dec);
      SetFlag(ZFlag, if n == Inc then base == 0xFF else base - 1 == 0);
      SetFlag(HFlag, if n == Inc then (base % 0x10 + 1) > 0xF else (base - 1) % 0x10 == 0xF);
    }

    /** INC (HL), DEC (HL): two reads of the byte, on either side of the ticks. */
    method StepMemory(i: Instr)
      requires Valid() && i.name in {Inc, Dec} && WellFormed(i) && i.operand == HlRel
      modifies this, r, memory
      ensures View() == Instructions.Step(old(View()), i)
    {
      hide TimerModel.TimerTicks, Bus.Write, Bus.Read, StepFlags, Instructions.Step;
      StepMemoryInParts(View(), i);
      TicksFrame(View(), 2);
      var base := ReadMemory(i.address);
      TimerTicks(2);
      var again := ReadMemory(i.address);
      WriteMemory(i.address, Stepped(i.name, again));
      SetStepFlags(i.name, base);
    }

    /** INC rr, DEC rr. */
    method StepWord(i: Instr)
      requires Valid() && i.name in {Inc, Dec} && WellFormed(i) && i.operand == R16
      modifies this, r
      ensures View() == Instructions.Step(old(View()), i)
    {
      hide TimerModel.TimerTicks, StepFlags, WriteReg16, ReadReg16;
      TickKeepsRegisters(View(), i.reg1);
      TimerTick();
      var val: int := ReadRegister16(i.reg1);
      WriteRegister16(i.reg1, (val + if i.name == Inc then 1 else -1) % 0x10000);
    }

    /** INC r, DEC r. */
    method StepByte(i: Instr)
      requires Valid() && i.name in {Inc, Dec} && WellFormed(i) && i.operand == R8
      modifies r
      ensures View() == Instructions.Step(old(View()), i)
    {
      hide StepFlags, Instructions.Step, Stepped;
      StepByteInParts(View(), i);
      var base := r[i.reg1];
      r[i.reg1] := Stepped(i.name, base);
      SetStepFlags(i.name, base);
    }

    method HandleIncDec(i: Instr)
      requires Valid() && i.name in {Inc, Dec} && WellFormed(i)
      modifies this, r, memory
      ensures View() == Instructions.Step(old(View()), i)
    {
      if i.operand == HlRel {
        StepMemory(i);
      } else if i.operand == R16 {
        StepWord(i);
      } else {
        StepByte(i);
      }
    }

    method HandleAddWord(i: Instr)
      requires Valid() && i.operand == HlR16 && Loaded(i)
      modifies this, r
      ensures View() == AddWord(old(View()), i)
    {
      hide Alu.Z, Bit, ReadReg16, WriteReg16, AddWord;
      AddWordInParts(View(), i);
      var val: int := ReadRegister16(i.reg1);
      var data: int := ReadRegister16(i.reg2);
      var half, sum := val % 0x1000 + data % 0x1000, val + data;
      WideCarryBits(half, sum);
      ghost var s := View();
      SetFlags(GetFlag(ZFlag), false, Bit(half, 12), Bit(sum, 16));
      SetFAfterWrite(s, r[REG_F], sum % 0x10000);
      WriteRegister16(i.reg1, sum % 0x10000);
    }

    method HandleAddToSp(i: Instr)
      requires Valid() && i.operand == SpS8 && Loaded(i)
      modifies this, r
      ensures View() == AddToSp(old(View()), i)
    {
      hide Bit;
      var val: int := sp;
      var half, sum := val % 0x10 + i.data % 0x10, val % 0x100 + i.data;
      CarryBits(half, sum);
      SetFlags(false, false, Bit(half, 4), Bit(sum, 8));
      sp := (val + Signed(i.data)) % 0x10000;
    }

    // ----- src/cpu/instruction_cb.c -----

    /** The flags and the result of one CB operation on val. */
    method CbOperation(op: u8, val: u8) returns (w: u8)
      requires Valid()
      modifies r
      ensures w == CbOperate(op, val, old(r[REG_F])).val
      ensures r[..] == old(r[..])[REG_F := CbOperate(op, val, old(r[REG_F])).f]
    {
      hide Alu.Z, Alu.N, Alu.H, Alu.C, Alu.ShiftValue, Alu.ShiftOut;
      if X(op) == 0 {
        var kind := ShiftKind(Y(op));
        w := Alu.ShiftValue(kind, val, GetFlag(CFlag));
        SetFlag(CFlag, Alu.ShiftOut(kind, val));
        SetFlag(HFlag, false);
        SetFlag(NFlag, false);
        SetFlag(ZFlag, w == 0);
      } else if X(op) == 1 {
        w := val;
        SetFlag(ZFlag, !Bit(val, Y(op)));
        SetFlag(NFlag, false);
        SetFlag(HFlag, true);
      } else {
        w := WithBit(val, Y(op), X(op) == 3);
        assert r[..] == old(r[..])[REG_F := old(r[REG_F])];
      }
    }

    /** `cb_execute_instruction`. */
    method CbExecuteInstruction()
      requires Valid()
      modifies this, r, memory
      ensures View() == CbExecute(old(View()))
    {
      hide Fetch.FetchByte, TimerModel.TimerTicks, CbOperate, Bus.Write, Bus.Read, ReadReg16, X;
      FetchByteFrame(View());
      SameHl(View(), Fetch.FetchByte(View()).0);
      var op := ReadByte();
      if OctalZ(op) == 6 {
        TickFrame(View());
        var address := ReadRegister16(REG_HL);
        TimerTick();
        ghost var u := View();
        var w := CbOperation(op, ReadMemory(address));
        if X(op) != 1 {
          SetFCommutes(u, r[REG_F], address, w);
          TimerTick();
          WriteMemory(address, w);
        }
      } else {
        var reg := ByteReg(OctalZ(op));
        var w := CbOperation(op, r[reg]);
        r[reg] := w;
      }
    }

    // ----- src/cpu/instruction.c: dispatch, and src/main.c -----

    /** Handlers of registers and flags only. */
    method HandleRegisters(i: Instr)
      requires Valid() && WellFormed(i) && ChangesRegistersOnly(i)
      modifies r
      ensures r[..] == Handle(old(View()), i).r
    {
      match i.name
      case Sub => HandleSub(i);
      case Sbc => HandleSbc(i);
      case Add => HandleAdd(i);
      case Adc => HandleAdc(i);
      case And | Or | Xor => HandleLogic(i);
      case Cp => HandleCp(i);
      case Daa => HandleDaa(i);
      case Rla | Rlca => HandleRotateLeft(i);
      case Rra | Rrca => HandleRotateRight(i);
      case Ccf | Scf | Cpl => HandleFlags(i);
    }

    /** `g_instruction_handlers[in.instruction](in)`. */
    method HandleInstruction(i: Instr)
      requires Valid() && WellFormed(i)
      modifies this, r, memory
      ensures View() == Handle(old(View()), i)
    {
      hide Jump, JumpRelative, CallTo, ReturnIf, Instructions.Return, Restart, Load, LoadHigh, PushReg, PopReg,
        Instructions.Step, CbExecute, AddWord, AddToSp, Operate, Bus.Write;
      if ChangesRegistersOnly(i) {
        RegistersOnlyFrame(View(), i);
        HandleRegisters(i);
        return;
      }
      match i.name
      case Nop =>
      case Jp => HandleJp(i);
      case Jr => HandleJr(i);
      case Call => HandleCall(i);
      case Ret => HandleRet(i);
      case Reti => HandleReti();
      case Rst => HandleRst(i);
      case Ld => HandleLd(i);
      case Ldh => HandleLdh(i);
      case Di => ime := false;
      case Ei => imeScheduled := true;
      case Push => HandlePush(i);
      case Pop => HandlePop(i);
      case Inc | Dec => HandleIncDec(i);
      case Stop => WriteMemory(0xFF04, 0);
      case Halt => halt := true;
      case Cb => CbExecuteInstruction();
      case Add =>
        if i.operand == HlR16 {
          HandleAddWord(i);
        } else {
          HandleAddToSp(i);
        }
    }

    method ExecuteInstruction()
      requires Valid() && Defined(NextOpcode(View()))
      modifies this, r, memory
      ensures View() == Execute(old(View()))
    {
      hide Fetch.FetchByte, Fetch.FetchInstruction, Handle, Defined, NextOpcode, Execute, WellFormed;
      Runs.ExecuteInParts(View());
      Runs.FetchByteIsNext(View());
      var opcode := ReadByte();
      var i := FetchInstruction(opcode);
      HandleInstruction(i);
    }

    /** One pass of the loop in `main`. */
    method RunPass()
      requires Valid() && Runs.CanStep(View())
      modifies this, r, memory
      ensures View() == Runs.Pass(old(View()))
    {
      hide Execute, Interrupts.HandleInterrupts, TimerModel.TimerTicks;
      if halt {
        TimerTick();
      } else {
        ExecuteInstruction();
      }
      var _ := HandleInterrupts();
    }

    /** The loop in `main`, for a number of passes; trace lists the states at
        its boundaries. */
    method Run(passes: nat) returns (ghost trace: seq<State>)
      requires Valid() && Runs.CanRun(View(), passes)
      modifies this, r, memory
      ensures Runs.IsRun(trace) && |trace| == passes + 1
      ensures trace[0] == old(View()) && trace[passes] == View()
    {
      hide Runs.CanStep, Runs.Pass;
      trace := [View()];
      var i := 0;
      while i < passes
        invariant 0 <= i <= passes && |trace| == i + 1
        invariant Runs.IsRun(trace) && trace[0] == old(View()) && trace[i] == View()
        invariant Runs.CanRun(View(), passes - i)
      {
        RunPass();
        trace := trace + [View()];
        i := i + 1;
      }
    }
  }
}
