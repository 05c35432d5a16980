/** src/cpu/instruction_fetch.c: fetching an opcode and its operands. */
module Fetch {
  import opened Words
  import opened MachineState
  import opened TimerModel
  import opened Bus
  import opened Opcodes
  import Alu

  /** `struct instruction`.  Registers start out as the values the source's
      initialiser puts there, which name no register. */
  datatype Instr = Instr(name: Mnemonic, operand: Operand, reg1: nat, reg2: nat,
                         address: u16, condition: bool, data: u16, cycles: nat, cyclesFalse: nat)

  const REG_ERR: nat := 14
  const NO_REG2: nat := 0xDEAD

  /** A byte register that an operand field can name: any but F. */
  predicate IsByteReg(r: nat) { r < 8 && r != REG_F }

  /** BC, DE, HL or SP. */
  predicate IsWordReg(r: nat) { r == REG_SP || REG_BC <= r <= REG_HL }

  /** `find_register`, for codes other than 6. */
  function ByteReg(code: nat): (r: Reg)
    requires code < 8 && code != 6
    ensures IsByteReg(r)
  {
    if code == 7 then REG_A else REG_B + code
  }

  function WordReg(code: nat): (r: Reg)
    requires code < 4
    ensures IsWordReg(r)
  {
    if code == 3 then REG_SP else REG_BC + code
  }

  function PairReg(code: nat): (r: Reg)
    requires code < 4
    ensures REG_AF <= r
  {
    if code == 3 then REG_AF else REG_BC + code
  }

  /** `read_flag`: NZ, Z, NC, C. */
  predicate Condition(f: u8, code: nat) {
    if code == 0 then !Alu.Z(f) else if code == 1 then Alu.Z(f) else if code == 2 then !Alu.C(f) else Alu.C(f)
  }

  /** One tick, one byte at PC, PC moved on. */
  function FetchByte(s: State): (State, u8) {
    (Tick(s).(pc := (s.pc + 1) % 0x10000), Read(Tick(s), s.pc))
  }

  /** A fetch moves PC on, lets the delayed IME take effect, and leaves the
      registers, SP, memory and HALT alone. */
  lemma FetchByteFrame(s: State)
    ensures var t := FetchByte(s).0;
      && t.pc == (s.pc + 1) % 0x10000 && t.r == s.r && t.sp == s.sp
      && t.mem == s.mem && t.cart == s.cart && t.halt == s.halt
      && t.ime == (s.ime || s.imeScheduled) && t.timer == Advance(s.timer, 1)
  {
    hide Advance, Read;
  }

  function FetchWord(s: State): (State, u16) {
    var (t, lo) := FetchByte(s);
    var (u, hi) := FetchByte(t);
    (u, Word(hi, lo))
  }

  /** Operand codes that name (HL) where a register is looked up. */
  predicate NamesRegister(op: u8) {
    var o := Decode(op).operand;
    && (o in {R8, R8R8, R8D8, R8HlRel} ==> Y(op) != 6)
    && (o in {R8R8, AR8, HlRelR8} ==> OctalZ(op) != 6)
  }

  lemma OperandsNameRegisters(op: u8)
    ensures NamesRegister(op)
  {
  }

  /** Operands that read memory or an immediate: the state after, and the value. */
  function FetchData(s: State, o: Operand, op: u8): (State, u16) {
    match o
    case S8 | FlagS8 | R8D8 | AD8 | HlS8 | SpS8 | HlRelD8 => FetchByte(s)
    case R16D16 => FetchWord(s)
    case R8HlRel | AHlRel => (Tick(s), Read(Tick(s), Hl(s)))
    case AHld => (WriteReg16(Tick(s), REG_HL, (Hl(s) - 1) % 0x10000), Read(Tick(s), Hl(s)))
    case AHli => (WriteReg16(Tick(s), REG_HL, (Hl(s) + 1) % 0x10000), Read(Tick(s), Hl(s)))
    case AR16Rel => (Tick(s), Read16(Tick(s), ReadReg16(s, WordReg(P(op)))))
    case AD16Rel => var (t, a) := FetchWord(Tick(s)); (t, Read16(t, a))
    case ACRel => (Tick(s), Read(Tick(s), Word(0xFF, s.r[REG_C])))
    case AD8Rel => var (t, a) := FetchByte(Tick(s)); (t, Read(t, Word(0xFF, a)))
    case Vec => (s, Y(op) * 8)
    case D16RelSp => (s, s.sp)
    case _ => (s, 0)
  }

  /** Operands that are addresses. */
  function FetchAddress(s: State, o: Operand, op: u8): (State, u16) {
    match o
    case A16 | FlagA16 | D16RelA | D16RelSp => FetchWord(s)
    case HlRel | HlRelR8 | HlRelD8 => (s, Hl(s))
    case R16RelA => (s, ReadReg16(s, WordReg(P(op))))
    case HldA => (WriteReg16(s, REG_HL, (Hl(s) - 1) % 0x10000), Hl(s))
    case HliA => (WriteReg16(s, REG_HL, (Hl(s) + 1) % 0x10000), Hl(s))
    case CRelA => (s, Word(0xFF, s.r[REG_C]))
    case D8RelA => var (t, a) := FetchByte(s); (t, Word(0xFF, a))
    case _ => (s, 0)
  }

  function FirstReg(op: u8): nat {
    OperandsNameRegisters(op);
    var e := Decode(op);
    match e.operand
    case R8 | R8R8 | R8D8 | R8HlRel => ByteReg(Y(op))
    case R16 => if e.name in {Pop, Push} then PairReg(P(op)) else WordReg(P(op))
    case R16D16 => WordReg(P(op))
    case SpHl | SpS8 => REG_SP
    case HlR16 | HlS8 => REG_HL
    case HlRelR8 => ByteReg(OctalZ(op))
    case AR16Rel | AD16Rel | AHld | AHli | ACRel | AD8Rel | AR8 | AD8 | AHlRel => REG_A
    case R16RelA | D16RelA | HldA | HliA | CRelA | D8RelA => REG_A
    case _ => REG_ERR
  }

  function SecondReg(op: u8): nat {
    OperandsNameRegisters(op);
    match Decode(op).operand
    case R8R8 | AR8 => ByteReg(OctalZ(op))
    case SpHl => REG_HL
    case HlR16 => WordReg(P(op))
    case _ => NO_REG2
  }

  /** `fetch_instruction`. */
  function FetchInstruction(s: State, op: u8): (State, Instr) {
    var e := Decode(op);
    var (t, address) := FetchAddress(s, e.operand, op);
    var (u, data) := FetchData(t, e.operand, op);
    (u, Instr(e.name, e.operand, FirstReg(op), SecondReg(op), address,
              e.operand !in {FlagA16, FlagS8, Flag} || Condition(s.r[REG_F], Y(op) % 4),
              data, e.cycles, e.cyclesFalse))
  }

  /** Shapes whose operands are all in the opcode: nothing is fetched. */
  lemma FetchPlain(s: State, op: u8)
    requires Decode(op).operand in {NoOperand, Flag, R8, R16, R8R8, AR8, Vec}
    ensures var (t, i) := FetchInstruction(s, op);
      && t == s && i.name == Decode(op).name && i.operand == Decode(op).operand
      && i.reg1 == FirstReg(op) && i.reg2 == SecondReg(op)
      && (i.condition <==> i.operand != Flag || Condition(s.r[REG_F], Y(op) % 4))
      && (i.operand == Vec ==> i.data == Y(op) * 8)
  {
    hide Decode, FirstReg, SecondReg, Condition, Y;
  }

  lemma FetchCallTarget(s: State, op: u8)
    requires Decode(op).operand in {A16, FlagA16}
    ensures var (t, i) := FetchInstruction(s, op);
      && (t, i.address) == FetchWord(s) && i.name == Decode(op).name
      && (i.condition <==> i.operand == A16 || Condition(s.r[REG_F], Y(op) % 4)) && i.operand == Decode(op).operand
  {
    hide Decode, FirstReg, SecondReg, Condition, Y, FetchWord;
  }

  // ----- what the handlers may rely on -----

  /** Operand shapes each mnemonic occurs with. */
  predicate Fits(n: Mnemonic, o: Operand) {
    match n
    case Jp => o in {A16, FlagA16, HlRel}
    case Jr => o in {S8, FlagS8}
    case Call => o in {A16, FlagA16}
    case Ret => o in {NoOperand, Flag}
    case Rst => o == Vec
    case Ld => o in {R8R8, R8D8, R8HlRel, AR16Rel, AD16Rel, R16D16, SpHl, AHld, AHli, HlS8,
                     HlRelR8, HlRelD8, R16RelA, D16RelA, D16RelSp, HldA, HliA}
    case Ldh => o in {ACRel, AD8Rel, CRelA, D8RelA}
    case Push | Pop => o == R16
    case Inc | Dec => o in {R8, R16, HlRel}
    case Add => o in {AR8, AD8, AHlRel, HlR16, SpS8}
    case Adc | Sub | Sbc | And | Or | Xor | Cp => o in {AR8, AD8, AHlRel}
    case _ => o == NoOperand
  }

  /** The registers and data an operand shape brings with it. */
  predicate Loaded(i: Instr) {
    match i.operand
    case R8 => IsByteReg(i.reg1)
    case R16 => if i.name in {Push, Pop} then REG_AF <= i.reg1 <= REG_HL else IsWordReg(i.reg1)
    case R8R8 => IsByteReg(i.reg1) && IsByteReg(i.reg2)
    case R8D8 | R8HlRel | HlRelR8 => IsByteReg(i.reg1)
    case R16D16 => IsWordReg(i.reg1)
    case SpHl => i.reg1 == REG_SP && i.reg2 == REG_HL
    case SpS8 => i.reg1 == REG_SP && i.data < 0x100
    case HlS8 => i.reg1 == REG_HL && i.data < 0x100
    case HlR16 => i.reg1 == REG_HL && IsWordReg(i.reg2)
    case AR8 => i.reg1 == REG_A && IsByteReg(i.reg2)
    case AD8 | AHlRel => i.reg1 == REG_A && i.data < 0x100
    case AR16Rel | AD16Rel | AHld | AHli => i.reg1 == REG_A
    case R16RelA | D16RelA | HldA | HliA => i.reg1 == REG_A
    case ACRel | AD8Rel => i.reg1 == REG_A && i.data < 0x100
    case CRelA | D8RelA => i.reg1 == REG_A && i.data == 0
    case S8 | FlagS8 | HlRelD8 | Vec => i.data < 0x100
    case _ => true
  }

  predicate WellFormed(i: Instr) { Fits(i.name, i.operand) && Loaded(i) }

  lemma DecodedFits(op: u8)
    requires Defined(op)
    ensures Fits(Decode(op).name, Decode(op).operand)
  {
    hide Block0, Block3;
    if X(op) == 0 {
      FitsBlock0(Y(op), OctalZ(op));
    } else if X(op) == 3 {
      FitsBlock3(Y(op), OctalZ(op));
    }
  }

  lemma FitsBlock0(y: nat, z: nat)
    requires y < 8 && z < 8
    ensures Fits(Block0(y, z).name, Block0(y, z).operand)
  {
  }

  lemma FitsBlock3(y: nat, z: nat)
    requires y < 8 && z < 8 && Block3(y, z).operand != ErrOperand
    ensures Fits(Block3(y, z).name, Block3(y, z).operand)
  {
    if z < 3 {
      FitsBlock3Low(y, z);
    }
  }

  lemma FitsBlock3Low(y: nat, z: nat)
    requires y < 8 && z < 3
    ensures Fits(Block3(y, z).name, Block3(y, z).operand)
  {
  }

  /** Every defined opcode decodes to something its handler can run. */
  lemma FetchedIsWellFormed(s: State, op: u8)
    requires Defined(op)
    ensures WellFormed(FetchInstruction(s, op).1)
  {
    hide Decode, Read, Read16, TimerTicks, NamesRegister;
    DecodedFits(op);
    OperandsNameRegisters(op);
  }
}
