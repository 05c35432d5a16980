/** Executing by encoding: the fetches of an instruction as ticks and bytes, so
    that the effect of an opcode can be said without the decoder's terms. */
module Encoded {
  import opened Words
  import opened MachineState
  import opened TimerModel
  import opened Opcodes
  import opened Fetch
  import opened Instructions
  import opened Runs
  import Bus

  /** n ticks on, and k bytes further in the code; nothing else has happened. */
  function Later(s: State, n: nat, k: nat): State { TickN(s, n).(pc := (s.pc + k) % 0x10000) }

  /** What the bus shows at address a after n ticks. */
  function Seen(s: State, n: nat, a: u16): u8 { Bus.Read(TickN(s, n), a) }

  /** Byte k of the instruction at PC, read at the n-th tick. */
  function Code(s: State, n: nat, k: nat): u8 { Seen(s, n, (s.pc + k) % 0x10000) }

  /** The word in bytes k (low) and k + 1 (high), read at ticks n and n + 1. */
  function CodeWord(s: State, n: nat, k: nat): u16 { Code(s, n + 1, k + 1) * 0x100 + Code(s, n, k) }

  lemma TickIgnoresPc(s: State, pc: u16)
    ensures Tick(s.(pc := pc)) == Tick(s).(pc := pc)
  {
    hide Advance;
  }

  lemma ReadIgnoresPc(s: State, pc: u16, a: u16)
    ensures Bus.Read(s.(pc := pc), a) == Bus.Read(s, a)
  {
  }

  lemma AddMod(a: nat, b: nat)
    ensures (a % 0x10000 + b) % 0x10000 == (a + b) % 0x10000
  {
  }

  lemma {:induction false} TickNKeeps(s: State, n: nat)
    ensures var t := TickN(s, n);
      && t.r == s.r && t.pc == s.pc && t.sp == s.sp && t.mem == s.mem && t.cart == s.cart
      && t.ie == s.ie && t.halt == s.halt && t.clock == s.clock + n
  {
    hide TimerTicks;
    if n > 0 {
      TickNKeeps(s, n - 1);
      Bus.TickKeeps(TickN(s, n - 1));
      TickCounts(TickN(s, n - 1));
    }
  }

  lemma TickCounts(s: State)
    ensures Tick(s).clock == s.clock + 1
  {
    hide Advance;
  }

  lemma LaterKeeps(s: State, n: nat, k: nat)
    ensures var t := Later(s, n, k);
      && t.r == s.r && t.pc == (s.pc + k) % 0x10000 && t.sp == s.sp && t.mem == s.mem && t.cart == s.cart
      && t.halt == s.halt
  {
    hide TickN;
    TickNKeeps(s, n);
  }

  lemma LaterMeans(s: State, n: nat, k: nat)
    ensures Later(s, n, k) == TickN(s, n).(pc := (s.pc + k) % 0x10000)
  {
  }

  lemma LaterTick(s: State, n: nat, k: nat)
    ensures Tick(Later(s, n, k)) == Later(s, n + 1, k)
  {
    hide TimerTicks;
    TickIgnoresPc(TickN(s, n), (s.pc + k) % 0x10000);
  }

  lemma LaterSeen(s: State, n: nat, k: nat, a: u16)
    ensures Bus.Read(Later(s, n, k), a) == Seen(s, n, a)
  {
    hide TickN;
    ReadIgnoresPc(TickN(s, n), (s.pc + k) % 0x10000, a);
  }

  /** A byte fetch is one tick and the byte at PC. */
  lemma LaterFetch(s: State, n: nat, k: nat)
    ensures FetchByte(Later(s, n, k)) == (Later(s, n + 1, k + 1), Code(s, n + 1, k))
  {
    hide TimerTicks, Bus.Read, TickN;
    LaterTick(s, n, k);
    LaterKeeps(s, n, k);
    LaterSeen(s, n + 1, k, (s.pc + k) % 0x10000);
    AddMod(s.pc + k, 1);
  }

  /** A word fetch is two, the low byte first. */
  lemma LaterFetchWord(s: State, n: nat, k: nat)
    ensures FetchWord(Later(s, n, k)) ==
      (Later(s, n + 2, k + 2), Code(s, n + 2, k + 1) * 0x100 + Code(s, n + 1, k))
  {
    hide FetchByte, Later, Code;
    LaterFetch(s, n, k);
    LaterFetch(s, n + 1, k + 1);
  }

  lemma LaterNow(s: State)
    ensures Later(s, 0, 0) == s && TickN(s, 1) == Tick(s)
  {
    hide TimerTicks;
    assert TickN(s, 1) == Tick(TickN(s, 0));
  }

  /** The opcode is byte 0, read at the first tick. */
  lemma OpcodeIsCode(s: State)
    ensures NextOpcode(s) == Code(s, 1, 0) && FetchByte(s) == (Later(s, 1, 1), NextOpcode(s))
  {
    hide TimerTicks, Bus.Read, FetchByte, Later, TickN;
    LaterNow(s);
    LaterFetch(s, 0, 0);
  }

  /** The fields of a fetched instruction. */
  lemma FetchFields(s: State, op: u8)
    ensures var e, (u, i) := Decode(op), FetchInstruction(s, op);
      && i.name == e.name && i.operand == e.operand && i.reg1 == FirstReg(op) && i.reg2 == SecondReg(op)
      && i.address == FetchAddress(s, e.operand, op).1
      && (u, i.data) == FetchData(FetchAddress(s, e.operand, op).0, e.operand, op)
      && (i.condition <==> e.operand !in {FlagA16, FlagS8, Flag} || Condition(s.r[REG_F], op / 8 % 8 % 4))
  {
    hide Decode, FirstReg, SecondReg, FetchAddress, FetchData, Condition;
  }

  /** An instruction is its handler after its fetches. */
  lemma ExecuteAs(s: State) returns (u: State, i: Instr)
    requires Defined(NextOpcode(s))
    ensures (u, i) == FetchInstruction(Later(s, 1, 1), NextOpcode(s))
    ensures WellFormed(i) && Execute(s) == Handle(u, i)
  {
    hide FetchByte, FetchInstruction, NextOpcode, Handle, WellFormed, Defined, Execute, Later;
    OpcodeIsCode(s);
    ExecuteInParts(s);
    u := FetchInstruction(Later(s, 1, 1), NextOpcode(s)).0;
    i := FetchInstruction(Later(s, 1, 1), NextOpcode(s)).1;
  }

  // ----- the fetches, by operand kind -----

  lemma HlIsPair(s: State)
    ensures Hl(s) == 0x100 * (s.r[6] as int) + s.r[7]
  {
  }

  /** Operands that are all in the opcode. */
  lemma FetchedNothing(s: State, op: u8, e: Entry) returns (i: Instr)
    requires NextOpcode(s) == op && Decode(op) == e && e.operand in {NoOperand, R8, R16, R8R8, AR8, SpHl, HlR16}
    ensures Defined(op) && WellFormed(i) && Execute(s) == Handle(Later(s, 1, 1), i)
    ensures i.name == e.name && i.operand == e.operand && i.reg1 == FirstReg(op) && i.reg2 == SecondReg(op)
  {
    hide Decode, Handle, FetchInstruction, FirstReg, SecondReg, Execute, NextOpcode, WellFormed, Later, Seen, Code,
      Condition;
    var u, j := ExecuteAs(s);
    i := j;
    FetchFields(Later(s, 1, 1), op);
    LaterKeeps(s, 1, 1);
  }

  /** One immediate byte. */
  lemma FetchedByte(s: State, op: u8, e: Entry) returns (i: Instr)
    requires NextOpcode(s) == op && Decode(op) == e && e.operand in {R8D8, AD8, HlS8, SpS8}
    ensures Defined(op) && WellFormed(i) && Execute(s) == Handle(Later(s, 2, 2), i)
    ensures i.name == e.name && i.operand == e.operand && i.reg1 == FirstReg(op) && i.reg2 == SecondReg(op)
    ensures i.data == Code(s, 2, 1)
  {
    hide Decode, Handle, FetchInstruction, FirstReg, SecondReg, Execute, NextOpcode, WellFormed, Later, Seen, Code,
      FetchByte, Condition;
    var u, j := ExecuteAs(s);
    i := j;
    FetchFields(Later(s, 1, 1), op);
    LaterKeeps(s, 1, 1);
    LaterFetch(s, 1, 1);
  }

  /** An immediate word, low byte first. */
  lemma FetchedWord(s: State, op: u8, e: Entry) returns (i: Instr)
    requires NextOpcode(s) == op && Decode(op) == e && e.operand in {R16D16}
    ensures Defined(op) && WellFormed(i) && Execute(s) == Handle(Later(s, 3, 3), i)
    ensures i.name == e.name && i.operand == e.operand && i.reg1 == FirstReg(op) && i.reg2 == SecondReg(op)
    ensures i.data == Code(s, 3, 2) * 0x100 + Code(s, 2, 1)
  {
    hide Decode, Handle, FetchInstruction, FirstReg, SecondReg, Execute, NextOpcode, WellFormed, Later, Seen, Code,
      FetchWord, Condition;
    var u, j := ExecuteAs(s);
    i := j;
    FetchFields(Later(s, 1, 1), op);
    LaterKeeps(s, 1, 1);
    LaterFetchWord(s, 1, 1);
  }

  /** The cell at HL, one tick later. */
  lemma FetchedCell(s: State, op: u8, e: Entry) returns (i: Instr)
    requires NextOpcode(s) == op && Decode(op) == e && e.operand in {R8HlRel, AHlRel}
    ensures Defined(op) && WellFormed(i) && Execute(s) == Handle(Later(s, 2, 1), i)
    ensures i.name == e.name && i.operand == e.operand && i.reg1 == FirstReg(op) && i.reg2 == SecondReg(op)
    ensures i.data == Seen(s, 2, 0x100 * (s.r[6] as int) + s.r[7])
  {
    hide Decode, Handle, FetchInstruction, FirstReg, SecondReg, Execute, NextOpcode, WellFormed, Later, Seen, Code,
      TimerTicks, Bus.Read, Hl, Condition;
    var u, j := ExecuteAs(s);
    i := j;
    FetchFields(Later(s, 1, 1), op);
    LaterKeeps(s, 1, 1);
    HlIsPair(Later(s, 1, 1));
    LaterTick(s, 1, 1);
    LaterSeen(s, 2, 1, Hl(Later(s, 1, 1)));
  }

  /** HL as an address. */
  lemma FetchedHl(s: State, op: u8, e: Entry) returns (i: Instr)
    requires NextOpcode(s) == op && Decode(op) == e && e.operand in {HlRel, HlRelR8}
    ensures Defined(op) && WellFormed(i) && Execute(s) == Handle(Later(s, 1, 1), i)
    ensures i.name == e.name && i.operand == e.operand && i.reg1 == FirstReg(op) && i.reg2 == SecondReg(op)
    ensures i.address == 0x100 * (s.r[6] as int) + s.r[7]
  {
    hide Decode, Handle, FetchInstruction, FirstReg, SecondReg, Execute, NextOpcode, WellFormed, Later, Seen, Code,
      Hl, Condition;
    var u, j := ExecuteAs(s);
    i := j;
    FetchFields(Later(s, 1, 1), op);
    LaterKeeps(s, 1, 1);
    HlIsPair(Later(s, 1, 1));
  }

  lemma LaterSeen16(s: State, n: nat, k: nat, a: u16)
    ensures Bus.Read16(Later(s, n, k), a) == Bus.Read16(TickN(s, n), a)
  {
    hide TickN;
  }

  /** BC and DE, by bit 4 of the opcode. */
  lemma BcOrDe(s: State, op: u8)
    requires op in {0x02, 0x12, 0x0A, 0x1A}
    ensures ReadReg16(s, WordReg(P(op)))
         == if op < 0x10 then 0x100 * (s.r[2] as int) + s.r[3] else 0x100 * (s.r[4] as int) + s.r[5]
  {
  }

  /** The word in places k (high byte) and k + 1 of the register file. */
  function PairAt(s: State, k: nat): (v: u16)
    requires k < 7
  {
    0x100 * (s.r[k] as int) + s.r[k + 1]
  }

  function SetPairAt(s: State, k: nat, v: u16): State
    requires k < 7
  {
    s.(r := s.r[k := v / 0x100][k + 1 := v % 0x100])
  }

  lemma PairMeans(s: State)
    ensures PairAt(s, 6) == 0x100 * (s.r[6] as int) + s.r[7]
  {
  }

  lemma PairLater(s: State, k: nat)
    requires k < 7
    ensures PairAt(Later(s, 1, 1), k) == PairAt(s, k)
  {
    hide Later;
    LaterKeeps(s, 1, 1);
  }

  /** Place k of the register file set to v. */
  function SetByte(s: State, k: nat, v: u8): State
    requires k < 8
  {
    s.(r := s.r[k := v])
  }

  /** HL one less or one more. */
  function StepHl(s: State, down: bool): State {
    SetPairAt(s, 6, (if down then PairAt(s, 6) - 1 else PairAt(s, 6) + 1) % 0x10000)
  }

  /** HL written back is two bytes of the register file. */
  lemma SetHl(s: State, v: u16)
    ensures WriteReg16(s, REG_HL, v) == s.(r := s.r[6 := v / 0x100][7 := v % 0x100])
  {
  }

  lemma HighPage(low: u8)
    ensures Word(0xFF, low) == 0xFF00 + low
  {
  }

  /** HL as an address, then an immediate byte. */
  lemma FetchedHlByte(s: State, op: u8, e: Entry) returns (i: Instr)
    requires NextOpcode(s) == op && Decode(op) == e && e.operand == HlRelD8
    ensures Defined(op) && WellFormed(i) && Execute(s) == Handle(Later(s, 2, 2), i)
    ensures i.name == e.name && i.operand == e.operand && i.reg1 == FirstReg(op)
    ensures i.address == 0x100 * (s.r[6] as int) + s.r[7] && i.data == Code(s, 2, 1)
  {
    hide Decode, Handle, FetchInstruction, FirstReg, SecondReg, Execute, NextOpcode, WellFormed, Later, Seen, Code,
      Condition, FetchByte, Hl;
    var u, j := ExecuteAs(s);
    i := j;
    FetchFields(Later(s, 1, 1), op);
    LaterKeeps(s, 1, 1);
    HlIsPair(Later(s, 1, 1));
    LaterFetch(s, 1, 1);
  }

  /** BC or DE as an address. */
  lemma FetchedPair(s: State, op: u8, e: Entry) returns (i: Instr)
    requires NextOpcode(s) == op && Decode(op) == e && e.operand == R16RelA && op in {0x02, 0x12}
    ensures Defined(op) && WellFormed(i) && Execute(s) == Handle(Later(s, 1, 1), i)
    ensures i.name == e.name && i.operand == e.operand && i.reg1 == FirstReg(op)
    ensures i.address == PairAt(s, if op == 0x02 then 2 else 4)
  {
    hide Decode, Handle, FetchInstruction, FirstReg, SecondReg, Execute, NextOpcode, WellFormed, Later, Seen, Code,
      Condition, ReadReg16, WordReg, P;
    var u, j := ExecuteAs(s);
    i := j;
    FetchFields(Later(s, 1, 1), op);
    LaterKeeps(s, 1, 1);
    BcOrDe(Later(s, 1, 1), op);
  }

  /** An immediate word as an address. */
  lemma FetchedTarget(s: State, op: u8, e: Entry) returns (i: Instr)
    requires NextOpcode(s) == op && Decode(op) == e && e.operand in {D16RelA, D16RelSp}
    ensures Defined(op) && WellFormed(i) && Execute(s) == Handle(Later(s, 3, 3), i)
    ensures i.name == e.name && i.operand == e.operand && i.reg1 == FirstReg(op)
    ensures i.address == Code(s, 3, 2) * 0x100 + Code(s, 2, 1)
    ensures e.operand == D16RelSp ==> i.data == s.sp
  {
    hide Decode, Handle, FetchInstruction, FirstReg, SecondReg, Execute, NextOpcode, WellFormed, Later, Seen, Code,
      Condition, FetchWord;
    var u, j := ExecuteAs(s);
    i := j;
    FetchFields(Later(s, 1, 1), op);
    LaterKeeps(s, 1, 1);
    LaterFetchWord(s, 1, 1);
    LaterKeeps(s, 3, 3);
  }

  /** HL as an address, HL itself stepped. */
  lemma FetchedStep(s: State, op: u8, e: Entry) returns (i: Instr)
    requires NextOpcode(s) == op && Decode(op) == e && e.operand in {HldA, HliA}
    ensures Defined(op) && WellFormed(i) && Execute(s) == Handle(StepHl(Later(s, 1, 1), e.operand == HldA), i)
    ensures i.name == e.name && i.operand == e.operand && i.reg1 == FirstReg(op)
    ensures i.address == 0x100 * (s.r[6] as int) + s.r[7]
  {
    hide Decode, Handle, FetchInstruction, FirstReg, SecondReg, Execute, NextOpcode, WellFormed, Later, Seen, Code,
      Condition, Hl, WriteReg16;
    var u, j := ExecuteAs(s);
    i := j;
    FetchFields(Later(s, 1, 1), op);
    LaterKeeps(s, 1, 1);
    HlIsPair(Later(s, 1, 1));
    SetHl(Later(s, 1, 1), (Hl(Later(s, 1, 1)) + if e.operand == HldA then -1 else 1) % 0x10000);
  }

  /** An address in the high page, from C or an immediate byte. */
  lemma FetchedHigh(s: State, op: u8, e: Entry) returns (i: Instr)
    requires NextOpcode(s) == op && Decode(op) == e && e.operand in {CRelA, D8RelA}
    ensures Defined(op) && WellFormed(i)
    ensures Execute(s) == Handle(if e.operand == CRelA then Later(s, 1, 1) else Later(s, 2, 2), i)
    ensures i.name == e.name && i.operand == e.operand && i.reg1 == FirstReg(op)
    ensures i.address == 0xFF00 + if e.operand == CRelA then s.r[3] else Code(s, 2, 1)
    ensures i.data == 0
  {
    hide Decode, Handle, FetchInstruction, FirstReg, SecondReg, Execute, NextOpcode, WellFormed, Later, Seen, Code,
      Condition, FetchByte, Word;
    var u, j := ExecuteAs(s);
    i := j;
    FetchFields(Later(s, 1, 1), op);
    LaterKeeps(s, 1, 1);
    LaterFetch(s, 1, 1);
    HighPage(s.r[3]);
    HighPage(Code(s, 2, 1));
  }

  /** The cell at HL, one tick later, HL itself stepped. */
  lemma FetchedCellStep(s: State, op: u8, e: Entry) returns (i: Instr)
    requires NextOpcode(s) == op && Decode(op) == e && e.operand in {AHld, AHli}
    ensures Defined(op) && WellFormed(i) && Execute(s) == Handle(StepHl(Later(s, 2, 1), e.operand == AHld), i)
    ensures i.name == e.name && i.operand == e.operand && i.reg1 == FirstReg(op)
    ensures i.data == Seen(s, 2, 0x100 * (s.r[6] as int) + s.r[7])
  {
    hide Decode, Handle, FetchInstruction, FirstReg, SecondReg, Execute, NextOpcode, WellFormed, Later, Seen, Code,
      Condition, TimerTicks, Bus.Read, Hl, WriteReg16;
    var u, j := ExecuteAs(s);
    i := j;
    FetchFields(Later(s, 1, 1), op);
    LaterKeeps(s, 1, 1);
    HlIsPair(Later(s, 1, 1));
    LaterTick(s, 1, 1);
    LaterKeeps(s, 2, 1);
    HlIsPair(Later(s, 2, 1));
    LaterSeen(s, 2, 1, Hl(Later(s, 1, 1)));
    SetHl(Later(s, 2, 1), (Hl(Later(s, 1, 1)) + if e.operand == AHld then -1 else 1) % 0x10000);
  }

  /** The cell at BC or DE, by a 16-bit read. */
  lemma FetchedWordCell(s: State, op: u8, e: Entry) returns (i: Instr)
    requires NextOpcode(s) == op && Decode(op) == e && e.operand == AR16Rel && op in {0x0A, 0x1A}
    ensures Defined(op) && WellFormed(i) && Execute(s) == Handle(Later(s, 2, 1), i)
    ensures i.name == e.name && i.operand == e.operand && i.reg1 == FirstReg(op)
    ensures i.data == Bus.Read16(TickN(s, 2), PairAt(s, if op == 0x0A then 2 else 4))
  {
    hide Decode, Handle, FetchInstruction, FirstReg, SecondReg, Execute, NextOpcode, WellFormed, Later, Seen, Code,
      Condition, ReadReg16, WordReg, P, TimerTicks, Bus.Read16;
    var u, j := ExecuteAs(s);
    i := j;
    FetchFields(Later(s, 1, 1), op);
    LaterKeeps(s, 1, 1);
    BcOrDe(Later(s, 1, 1), op);
    LaterTick(s, 1, 1);
    LaterSeen16(s, 2, 1, ReadReg16(Later(s, 1, 1), WordReg(P(op))));
  }

  /** The cell at an immediate word, by a 16-bit read. */
  lemma FetchedFarCell(s: State, op: u8, e: Entry) returns (i: Instr)
    requires NextOpcode(s) == op && Decode(op) == e && e.operand == AD16Rel
    ensures Defined(op) && WellFormed(i) && Execute(s) == Handle(Later(s, 4, 3), i)
    ensures i.name == e.name && i.operand == e.operand && i.reg1 == FirstReg(op)
    ensures i.data == Bus.Read16(TickN(s, 4), Code(s, 4, 2) * 0x100 + Code(s, 3, 1))
  {
    hide Decode, Handle, FetchInstruction, FirstReg, SecondReg, Execute, NextOpcode, WellFormed, Later, Seen, Code,
      Condition, FetchWord, TimerTicks, Bus.Read16;
    var u, j := ExecuteAs(s);
    i := j;
    FetchFields(Later(s, 1, 1), op);
    LaterKeeps(s, 1, 1);
    LaterTick(s, 1, 1);
    LaterFetchWord(s, 2, 1);
    LaterSeen16(s, 4, 3, Code(s, 4, 2) * 0x100 + Code(s, 3, 1));
  }

  /** A cell of the high page, at C or an immediate byte. */
  lemma FetchedHighCell(s: State, op: u8, e: Entry) returns (i: Instr)
    requires NextOpcode(s) == op && Decode(op) == e && e.operand in {ACRel, AD8Rel}
    ensures Defined(op) && WellFormed(i)
    ensures Execute(s) == Handle(if e.operand == ACRel then Later(s, 2, 1) else Later(s, 3, 2), i)
    ensures i.name == e.name && i.operand == e.operand && i.reg1 == FirstReg(op)
    ensures i.data == if e.operand == ACRel then Seen(s, 2, 0xFF00 + s.r[3] as int)
      else Seen(s, 3, 0xFF00 + Code(s, 3, 1) as int)
  {
    hide Decode, Handle, FetchInstruction, FirstReg, SecondReg, Execute, NextOpcode, WellFormed, Later, Seen, Code,
      Condition, FetchByte, TimerTicks, Bus.Read, Word;
    var u, j := ExecuteAs(s);
    i := j;
    FetchFields(Later(s, 1, 1), op);
    LaterKeeps(s, 1, 1);
    LaterTick(s, 1, 1);
    LaterFetch(s, 2, 1);
    HighPage(s.r[3]);
    HighPage(Code(s, 3, 1));
    LaterSeen(s, 2, 1, 0xFF00 + s.r[3] as int);
    LaterSeen(s, 3, 2, 0xFF00 + Code(s, 3, 1) as int);
  }
}
