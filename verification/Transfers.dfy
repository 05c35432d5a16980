/** Loads by opcode: which register or cell goes where, at which tick, and what
    the whole state is afterwards.  Registers are places in the register file,
    which holds A, F, B, C, D, E, H, L in this order.  (src/cpu/instruction.c) */
module Transfers {
  import opened Words
  import opened MachineState
  import opened TimerModel
  import opened Opcodes
  import opened Fetch
  import opened Instructions
  import opened Encoded
  import Bus

  // ----- what the handlers of LD and LDH do with what was fetched -----

  lemma HandleCopy(s: State, i: Instr)
    requires WellFormed(i) && i.name == Ld && i.operand == R8R8
    ensures i.reg1 < 8 && i.reg2 < 8 && Handle(s, i) == s.(r := s.r[i.reg1 := s.r[i.reg2]])
  {
  }

  lemma HandleLoaded(s: State, i: Instr)
    requires WellFormed(i) && i.name == Ld && i.reg1 < 8
    requires i.operand in {R8D8, R8HlRel, AR16Rel, AD16Rel, AHld, AHli}
    ensures Handle(s, i) == SetByte(s, i.reg1, i.data % 0x100)
  {
  }

  /** The same for a byte. */
  lemma HandleLoadedByte(s: State, i: Instr, v: u8)
    requires WellFormed(i) && i.name == Ld && i.reg1 < 8 && i.data == v
    requires i.operand in {R8D8, R8HlRel, AR16Rel, AD16Rel, AHld, AHli}
    ensures Handle(s, i) == SetByte(s, i.reg1, v)
  {
    hide Handle, WellFormed;
    HandleLoaded(s, i);
  }

  lemma HandleStore(s: State, i: Instr)
    requires WellFormed(i) && i.name == Ld && i.operand in {HlRelR8, R16RelA, D16RelA, HldA, HliA}
    ensures i.reg1 < 8 && Handle(s, i) == Bus.Write(Tick(s), i.address, s.r[i.reg1])
  {
    hide TimerTicks, Bus.Write;
  }

  lemma HandleStoreFrom(s: State, i: Instr, a: u16, k: nat)
    requires WellFormed(i) && i.name == Ld && i.operand in {HlRelR8, R16RelA, D16RelA, HldA, HliA}
    requires i.address == a && i.reg1 == k < 8
    ensures Handle(s, i) == Bus.Write(Tick(s), a, s.r[k])
  {
    hide Handle, WellFormed, TimerTicks, Bus.Write;
    HandleStore(s, i);
  }

  lemma HandleStoreByte(s: State, i: Instr)
    requires WellFormed(i) && i.name == Ld && i.operand == HlRelD8
    ensures i.data < 0x100 && Handle(s, i) == Bus.Write(Tick(s), i.address, i.data)
  {
    hide TimerTicks, Bus.Write;
  }

  lemma HandleHigh(s: State, i: Instr)
    requires WellFormed(i) && i.name == Ldh
    ensures i.operand in {ACRel, AD8Rel} ==> i.data < 0x100 && Handle(s, i) == s.(r := s.r[0 := i.data])
    ensures i.operand in {CRelA, D8RelA} ==> Handle(s, i) == Bus.Write(s, i.address, s.r[0])
  {
    hide Bus.Write;
  }

  lemma HandleWord(s: State, i: Instr)
    requires WellFormed(i) && i.name == Ld && i.operand == R16D16
    ensures i.reg1 == 9 ==> Handle(s, i) == s.(sp := i.data)
    ensures 11 <= i.reg1 < 14 ==> Handle(s, i) == SetPairAt(s, 2 * i.reg1 - 20, i.data)
  {
  }

  // ----- between byte registers, and immediates -----

  lemma RegisterEntry(op: u8)
    requires 0x40 <= op < 0x80 && op % 8 != 6 && op / 8 % 8 != 6
    ensures Decode(op) == Entry(Ld, R8R8, 1, 0)
    ensures FirstReg(op) == (if op / 8 % 8 == 7 then 0 else 2 + op / 8 % 8)
    ensures SecondReg(op) == (if op % 8 == 7 then 0 else 2 + op % 8)
  {
  }

  /** LD r,r': bits 3 to 5 of the opcode name the destination, bits 0 to 2 the
      source. */
  lemma LoadRegisterExact(s: State)
    requires 0x40 <= NextOpcode(s) < 0x80 && NextOpcode(s) % 8 != 6 && NextOpcode(s) / 8 % 8 != 6
    ensures Defined(NextOpcode(s))
    ensures var y, z := NextOpcode(s) / 8 % 8, NextOpcode(s) % 8;
      Execute(s) == TickN(s, 1).(pc := (s.pc + 1) % 0x10000,
        r := s.r[(if y == 7 then 0 else 2 + y) := s.r[if z == 7 then 0 else 2 + z]])
  {
    hide Decode, Handle, FirstReg, SecondReg, Execute, NextOpcode, WellFormed, TimerTicks, Seen, Code, Defined, TickN,
      Bus.Read16, Bus.Write;
    var op := NextOpcode(s);
    RegisterEntry(op);
    var i := FetchedNothing(s, op, Entry(Ld, R8R8, 1, 0));
    HandleCopy(Later(s, 1, 1), i);
    LaterKeeps(s, 1, 1);
  }

  lemma ImmediateEntry(op: u8)
    requires op in {0x06, 0x0E, 0x16, 0x1E, 0x26, 0x2E, 0x3E}
    ensures Decode(op) == Entry(Ld, R8D8, 2, 0)
    ensures FirstReg(op) == (if op == 0x3E then 0 else 2 + op / 8)
  {
  }

  /** LD r,n. */
  lemma LoadImmediateExact(s: State)
    requires NextOpcode(s) in {0x06, 0x0E, 0x16, 0x1E, 0x26, 0x2E, 0x3E}
    ensures Defined(NextOpcode(s))
    ensures var op := NextOpcode(s);
      Execute(s) == TickN(s, 2).(pc := (s.pc + 2) % 0x10000,
        r := s.r[(if op == 0x3E then 0 else 2 + op / 8) := Code(s, 2, 1)])
  {
    hide Decode, Handle, FirstReg, SecondReg, Execute, NextOpcode, WellFormed, TimerTicks, Seen, Code, Defined, TickN,
      Bus.Read16, Bus.Write;
    var op := NextOpcode(s);
    ImmediateEntry(op);
    var i := FetchedByte(s, op, Entry(Ld, R8D8, 2, 0));
    HandleLoadedByte(Later(s, 2, 2), i, Code(s, 2, 1));
    LaterKeeps(s, 2, 2);
  }

  // ----- through HL -----

  lemma FromHlEntry(op: u8)
    requires op in {0x46, 0x4E, 0x56, 0x5E, 0x66, 0x6E, 0x7E}
    ensures Decode(op) == Entry(Ld, R8HlRel, 2, 0)
    ensures FirstReg(op) == (if op == 0x7E then 0 else 2 + (op - 0x40) / 8)
  {
  }

  lemma LoadFromHlAs(s: State, op: u8, k: nat)
    requires NextOpcode(s) == op && Decode(op) == Entry(Ld, R8HlRel, 2, 0) && FirstReg(op) == k < 8
    ensures Defined(op)
    ensures Execute(s) == SetByte(TickN(s, 2).(pc := (s.pc + 1) % 0x10000), k, Seen(s, 2, PairAt(s, 6)))
  {
    hide Decode, Handle, Execute, NextOpcode, WellFormed, TimerTicks, TickN, FirstReg, SecondReg, Later,
      Seen, PairAt, SetByte;
    PairMeans(s);
    var i := FetchedCell(s, op, Entry(Ld, R8HlRel, 2, 0));
    HandleLoadedByte(Later(s, 2, 1), i, Seen(s, 2, PairAt(s, 6)));
    LaterMeans(s, 2, 1);
  }

  /** LD r,(HL). */
  lemma LoadFromHlExact(s: State)
    requires NextOpcode(s) in {0x46, 0x4E, 0x56, 0x5E, 0x66, 0x6E, 0x7E}
    ensures Defined(NextOpcode(s))
    ensures var op := NextOpcode(s);
      Execute(s) == SetByte(TickN(s, 2).(pc := (s.pc + 1) % 0x10000),
                            if op == 0x7E then 0 else 2 + (op - 0x40) / 8, Seen(s, 2, PairAt(s, 6)))
  {
    hide Decode, Execute, NextOpcode, Defined, TickN, FirstReg, Seen, PairAt, SetByte;
    FromHlEntry(NextOpcode(s));
    LoadFromHlAs(s, NextOpcode(s), FirstReg(NextOpcode(s)));
  }

  lemma ToHlEntry(op: u8)
    requires op in {0x70, 0x71, 0x72, 0x73, 0x74, 0x75, 0x77}
    ensures Decode(op) == Entry(Ld, HlRelR8, 2, 0)
    ensures FirstReg(op) == (if op == 0x77 then 0 else op - 0x6E)
  {
  }

  lemma StoreToHlAs(s: State, op: u8, k: nat)
    requires NextOpcode(s) == op && Decode(op) == Entry(Ld, HlRelR8, 2, 0) && FirstReg(op) == k < 8
    ensures Defined(op)
    ensures Execute(s) == Bus.Write(TickN(s, 2).(pc := (s.pc + 1) % 0x10000), PairAt(s, 6), s.r[k])
  {
    hide Decode, Handle, Execute, NextOpcode, WellFormed, TimerTicks, TickN, FirstReg, SecondReg, Later,
      Bus.Write, PairAt;
    PairMeans(s);
    var i := FetchedHl(s, op, Entry(Ld, HlRelR8, 2, 0));
    HandleStoreFrom(Later(s, 1, 1), i, PairAt(s, 6), k);
    StoredNow(s);
  }

  lemma StoredNow(s: State)
    ensures var t := Later(s, 1, 1); Tick(t) == TickN(s, 2).(pc := (s.pc + 1) % 0x10000) && t.r == s.r
  {
    hide TimerTicks, TickN;
    LaterKeeps(s, 1, 1);
    LaterTick(s, 1, 1);
  }

  /** LD (HL),r. */
  lemma StoreToHlExact(s: State)
    requires NextOpcode(s) in {0x70, 0x71, 0x72, 0x73, 0x74, 0x75, 0x77}
    ensures Defined(NextOpcode(s))
    ensures var op := NextOpcode(s);
      Execute(s) == Bus.Write(TickN(s, 2).(pc := (s.pc + 1) % 0x10000), PairAt(s, 6),
                              s.r[if op == 0x77 then 0 else op - 0x6E])
  {
    hide Decode, Execute, NextOpcode, Defined, TickN, FirstReg, Bus.Write, PairAt;
    ToHlEntry(NextOpcode(s));
    StoreToHlAs(s, NextOpcode(s), FirstReg(NextOpcode(s)));
  }

  lemma ByteToHlEntry(op: u8)
    requires op == 0x36
    ensures Decode(op) == Entry(Ld, HlRelD8, 3, 0)
  {
  }

  /** LD (HL),n. */
  lemma StoreByteToHlExact(s: State)
    requires NextOpcode(s) == 0x36
    ensures Defined(NextOpcode(s))
    ensures Execute(s) == Bus.Write(TickN(s, 3).(pc := (s.pc + 2) % 0x10000),
                                    0x100 * (s.r[6] as int) + s.r[7], Code(s, 2, 1))
  {
    hide Decode, Handle, FirstReg, SecondReg, Execute, NextOpcode, WellFormed, TimerTicks, Seen, Code, Defined, TickN,
      Bus.Read16, Bus.Write;
    var op := NextOpcode(s);
    ByteToHlEntry(op);
    var i := FetchedHlByte(s, op, Entry(Ld, HlRelD8, 3, 0));
    HandleStoreByte(Later(s, 2, 2), i);
    LaterTick(s, 2, 2);
  }

  lemma StoreStepEntry(op: u8)
    requires op in {0x22, 0x32}
    ensures Decode(op) == Entry(Ld, if op == 0x22 then HliA else HldA, 2, 0) && FirstReg(op) == 0
  {
  }

  /** Stepping HL moves the number in H and L by one, and nothing else. */
  lemma StepHlMoves(s: State, down: bool)
    ensures var t := StepHl(s, down);
      && t == s.(r := t.r) && t.r[..6] == s.r[..6]
      && 0x100 * (t.r[6] as int) + t.r[7]
      == (0x100 * (s.r[6] as int) + s.r[7] + if down then 0xFFFF else 1) % 0x10000
  {
  }

  lemma StepHlTicks(s: State, down: bool)
    ensures Tick(StepHl(s, down)) == StepHl(Tick(s), down) && StepHl(s, down).r[0] == s.r[0]
  {
    hide Advance;
  }

  lemma StoredStep(s: State, down: bool)
    ensures var t := StepHl(Later(s, 1, 1), down);
      Tick(t) == StepHl(TickN(s, 2).(pc := (s.pc + 1) % 0x10000), down) && t.r[0] == s.r[0]
  {
    hide TimerTicks, TickN, StepHl, Later;
    LaterKeeps(s, 1, 1);
    LaterTick(s, 1, 1);
    LaterMeans(s, 2, 1);
    StepHlTicks(Later(s, 1, 1), down);
  }

  lemma StoreStepAs(s: State, op: u8, o: Operand)
    requires NextOpcode(s) == op && Decode(op) == Entry(Ld, o, 2, 0) && FirstReg(op) == 0 && o in {HldA, HliA}
    ensures Defined(op)
    ensures Execute(s)
         == Bus.Write(StepHl(TickN(s, 2).(pc := (s.pc + 1) % 0x10000), o == HldA), PairAt(s, 6), s.r[0])
  {
    hide Decode, Handle, Execute, NextOpcode, WellFormed, TimerTicks, TickN, FirstReg, SecondReg, Later,
      StepHl, Bus.Write, PairAt;
    PairMeans(s);
    var i := FetchedStep(s, op, Entry(Ld, o, 2, 0));
    HandleStoreFrom(StepHl(Later(s, 1, 1), o == HldA), i, PairAt(s, 6), 0);
    StoredStep(s, o == HldA);
  }

  /** LD (HL+),A and LD (HL-),A: stored at the old HL. */
  lemma StoreStepExact(s: State)
    requires NextOpcode(s) in {0x22, 0x32}
    ensures Defined(NextOpcode(s))
    ensures Execute(s) == Bus.Write(StepHl(TickN(s, 2).(pc := (s.pc + 1) % 0x10000), NextOpcode(s) == 0x32),
                                    PairAt(s, 6), s.r[0])
  {
    hide Decode, Execute, NextOpcode, Defined, TickN, FirstReg, StepHl, Bus.Write, PairAt;
    StoreStepEntry(NextOpcode(s));
    StoreStepAs(s, NextOpcode(s), if NextOpcode(s) == 0x22 then HliA else HldA);
  }

  lemma LoadStepEntry(op: u8)
    requires op in {0x2A, 0x3A}
    ensures Decode(op) == Entry(Ld, if op == 0x2A then AHli else AHld, 2, 0) && FirstReg(op) == 0
  {
  }

  lemma LoadStepAs(s: State, op: u8, o: Operand, down: bool, v: u8)
    requires NextOpcode(s) == op && Decode(op) == Entry(Ld, o, 2, 0) && FirstReg(op) == 0
    requires o == (if down then AHld else AHli) && v == Seen(s, 2, PairAt(s, 6))
    ensures Defined(op)
    ensures Execute(s) == SetByte(StepHl(TickN(s, 2).(pc := (s.pc + 1) % 0x10000), down), 0, v)
  {
    hide Decode, Handle, Execute, NextOpcode, WellFormed, TimerTicks, TickN, FirstReg, SecondReg, Later,
      StepHl, Seen, PairAt, SetByte;
    PairMeans(s);
    var i := FetchedCellStep(s, op, Entry(Ld, o, 2, 0));
    assert i.data == v && i.reg1 == 0;
    HandleLoadedByte(StepHl(Later(s, 2, 1), down), i, v);
    LaterMeans(s, 2, 1);
  }

  /** LD A,(HL+) and LD A,(HL-): loaded from the old HL. */
  lemma LoadStepExact(s: State)
    requires NextOpcode(s) in {0x2A, 0x3A}
    ensures Defined(NextOpcode(s))
    ensures Execute(s) == SetByte(StepHl(TickN(s, 2).(pc := (s.pc + 1) % 0x10000), NextOpcode(s) == 0x3A), 0,
                                  Seen(s, 2, PairAt(s, 6)))
  {
    hide Decode, Execute, NextOpcode, Defined, TickN, FirstReg, StepHl, Seen, PairAt, SetByte;
    LoadStepEntry(NextOpcode(s));
    LoadStepAs(s, NextOpcode(s), if NextOpcode(s) == 0x2A then AHli else AHld, NextOpcode(s) == 0x3A,
               Seen(s, 2, PairAt(s, 6)));
  }

  // ----- A through BC, DE and immediate addresses -----

  lemma PairStoreEntry(op: u8)
    requires op in {0x02, 0x12}
    ensures Decode(op) == Entry(Ld, R16RelA, 2, 0) && FirstReg(op) == 0
  {
  }

  lemma StorePairAs(s: State, op: u8, k: nat)
    requires NextOpcode(s) == op && Decode(op) == Entry(Ld, R16RelA, 2, 0) && FirstReg(op) == 0
    requires op in {0x02, 0x12} && k == if op == 0x02 then 2 else 4
    ensures Defined(op)
    ensures Execute(s) == Bus.Write(TickN(s, 2).(pc := (s.pc + 1) % 0x10000), PairAt(s, k), s.r[0])
  {
    hide Decode, Handle, Execute, NextOpcode, WellFormed, TimerTicks, TickN, FirstReg, SecondReg, Later,
      Bus.Write;
    var i := FetchedPair(s, op, Entry(Ld, R16RelA, 2, 0));
    HandleStoreFrom(Later(s, 1, 1), i, PairAt(s, k), 0);
    StoredNow(s);
  }

  /** LD (BC),A and LD (DE),A. */
  lemma StorePairExact(s: State)
    requires NextOpcode(s) in {0x02, 0x12}
    ensures Defined(NextOpcode(s))
    ensures Execute(s) == Bus.Write(TickN(s, 2).(pc := (s.pc + 1) % 0x10000),
                                    PairAt(s, if NextOpcode(s) == 0x02 then 2 else 4), s.r[0])
  {
    hide Decode, Execute, NextOpcode, Defined, TickN, FirstReg, Bus.Write, PairAt;
    PairStoreEntry(NextOpcode(s));
    StorePairAs(s, NextOpcode(s), if NextOpcode(s) == 0x02 then 2 else 4);
  }

  lemma PairLoadEntry(op: u8)
    requires op in {0x0A, 0x1A}
    ensures Decode(op) == Entry(Ld, AR16Rel, 2, 0) && FirstReg(op) == 0
  {
  }

  lemma LoadPairAs(s: State, op: u8, k: nat)
    requires NextOpcode(s) == op && Decode(op) == Entry(Ld, AR16Rel, 2, 0) && FirstReg(op) == 0
    requires op in {0x0A, 0x1A} && k == if op == 0x0A then 2 else 4
    ensures Defined(op)
    ensures Execute(s)
         == SetByte(TickN(s, 2).(pc := (s.pc + 1) % 0x10000), 0, Bus.Read16(TickN(s, 2), PairAt(s, k)) % 0x100)
  {
    hide Decode, Handle, Execute, NextOpcode, WellFormed, TimerTicks, TickN, FirstReg, SecondReg, Later,
      Bus.Read16, SetByte;
    var i := FetchedWordCell(s, op, Entry(Ld, AR16Rel, 2, 0));
    HandleLoaded(Later(s, 2, 1), i);
    LaterMeans(s, 2, 1);
  }

  /** LD A,(BC) and LD A,(DE), by the low byte of a 16-bit read. */
  lemma LoadPairExact(s: State)
    requires NextOpcode(s) in {0x0A, 0x1A}
    ensures Defined(NextOpcode(s))
    ensures var a := PairAt(s, if NextOpcode(s) == 0x0A then 2 else 4);
      Execute(s) == SetByte(TickN(s, 2).(pc := (s.pc + 1) % 0x10000), 0, Bus.Read16(TickN(s, 2), a) % 0x100)
  {
    hide Decode, Execute, NextOpcode, Defined, TickN, FirstReg, PairAt, SetByte, Bus.Read16;
    PairLoadEntry(NextOpcode(s));
    LoadPairAs(s, NextOpcode(s), if NextOpcode(s) == 0x0A then 2 else 4);
  }

  lemma FarStoreEntry(op: u8)
    requires op == 0xEA
    ensures Decode(op) == Entry(Ld, D16RelA, 4, 0) && FirstReg(op) == 0
  {
  }

  /** LD (nn),A. */
  lemma StoreFarExact(s: State)
    requires NextOpcode(s) == 0xEA
    ensures Defined(NextOpcode(s))
    ensures Execute(s) == Bus.Write(TickN(s, 4).(pc := (s.pc + 3) % 0x10000),
                                    Code(s, 3, 2) * 0x100 + Code(s, 2, 1), s.r[0])
  {
    hide Decode, Handle, FirstReg, SecondReg, Execute, NextOpcode, WellFormed, TimerTicks, Seen, Code, Defined, TickN,
      Bus.Read16, Bus.Write;
    var op := NextOpcode(s);
    FarStoreEntry(op);
    var i := FetchedTarget(s, op, Entry(Ld, D16RelA, 4, 0));
    HandleStore(Later(s, 3, 3), i);
    LaterTick(s, 3, 3);
    LaterKeeps(s, 3, 3);
  }

  lemma FarLoadEntry(op: u8)
    requires op == 0xFA
    ensures Decode(op) == Entry(Ld, AD16Rel, 4, 0) && FirstReg(op) == 0
  {
  }

  /** LD A,(nn): a tick before the address is fetched, then as LD A,(BC). */
  lemma LoadFarExact(s: State)
    requires NextOpcode(s) == 0xFA
    ensures Defined(NextOpcode(s))
    ensures var a := Code(s, 4, 2) * 0x100 + Code(s, 3, 1);
      Execute(s) == TickN(s, 4).(pc := (s.pc + 3) % 0x10000, r := s.r[0 := Bus.Read16(TickN(s, 4), a) % 0x100])
  {
    hide Decode, Handle, FirstReg, SecondReg, Execute, NextOpcode, WellFormed, TimerTicks, Seen, Code, Defined, TickN,
      Bus.Read16, Bus.Write;
    var op := NextOpcode(s);
    FarLoadEntry(op);
    var i := FetchedFarCell(s, op, Entry(Ld, AD16Rel, 4, 0));
    HandleLoaded(Later(s, 4, 3), i);
    LaterKeeps(s, 4, 3);
  }

  // ----- the high page -----

  lemma HighStoreEntry(op: u8)
    requires op in {0xE0, 0xE2}
    ensures Decode(op) == if op == 0xE0 then Entry(Ldh, D8RelA, 3, 0) else Entry(Ldh, CRelA, 2, 0)
  {
  }

  /** LDH (n),A: no tick for the store. */
  lemma StoreHighExact(s: State)
    requires NextOpcode(s) == 0xE0
    ensures Defined(NextOpcode(s))
    ensures Execute(s) == Bus.Write(TickN(s, 2).(pc := (s.pc + 2) % 0x10000), 0xFF00 + Code(s, 2, 1) as int, s.r[0])
  {
    hide Decode, Handle, Execute, NextOpcode, WellFormed, TimerTicks, TickN, FirstReg, SecondReg, Later,
      Code, Bus.Write;
    HighStoreEntry(0xE0);
    var i := FetchedHigh(s, 0xE0, Entry(Ldh, D8RelA, 3, 0));
    HandleHigh(Later(s, 2, 2), i);
    LaterKeeps(s, 2, 2);
    LaterMeans(s, 2, 2);
  }

  /** LD (C),A. */
  lemma StoreHighCExact(s: State)
    requires NextOpcode(s) == 0xE2
    ensures Defined(NextOpcode(s))
    ensures Execute(s) == Bus.Write(TickN(s, 1).(pc := (s.pc + 1) % 0x10000), 0xFF00 + s.r[3] as int, s.r[0])
  {
    hide Decode, Handle, Execute, NextOpcode, WellFormed, TimerTicks, TickN, FirstReg, SecondReg, Later,
      Bus.Write;
    HighStoreEntry(0xE2);
    var i := FetchedHigh(s, 0xE2, Entry(Ldh, CRelA, 2, 0));
    HandleHigh(Later(s, 1, 1), i);
    LaterKeeps(s, 1, 1);
    LaterMeans(s, 1, 1);
  }

  lemma HighLoadEntry(op: u8)
    requires op in {0xF0, 0xF2}
    ensures Decode(op) == if op == 0xF0 then Entry(Ldh, AD8Rel, 3, 0) else Entry(Ldh, ACRel, 2, 0)
  {
  }

  /** LDH A,(n) and LD A,(C). */
  lemma LoadHighExact(s: State)
    requires NextOpcode(s) in {0xF0, 0xF2}
    ensures Defined(NextOpcode(s))
    ensures Execute(s) ==
      if NextOpcode(s) == 0xF0 then
        TickN(s, 3).(pc := (s.pc + 2) % 0x10000, r := s.r[0 := Seen(s, 3, 0xFF00 + Code(s, 3, 1) as int)])
      else TickN(s, 2).(pc := (s.pc + 1) % 0x10000, r := s.r[0 := Seen(s, 2, 0xFF00 + s.r[3] as int)])
  {
    hide Decode, Handle, FirstReg, SecondReg, Execute, NextOpcode, WellFormed, TimerTicks, Seen, Code, Defined, TickN,
      Bus.Read16, Bus.Write;
    var op := NextOpcode(s);
    HighLoadEntry(op);
    var i := FetchedHighCell(s, op, if op == 0xF0 then Entry(Ldh, AD8Rel, 3, 0) else Entry(Ldh, ACRel, 2, 0));
    HandleHigh(if op == 0xF2 then Later(s, 2, 1) else Later(s, 3, 2), i);
    LaterKeeps(s, 2, 1);
    LaterKeeps(s, 3, 2);
  }

  // ----- words -----

  lemma WordEntry(op: u8)
    requires op in {0x01, 0x11, 0x21, 0x31}
    ensures Decode(op) == Entry(Ld, R16D16, 3, 0)
    ensures FirstReg(op) == if op == 0x31 then 9 else 11 + op / 0x10
  {
  }

  lemma LoadWordAs(s: State, op: u8, k: nat)
    requires NextOpcode(s) == op && Decode(op) == Entry(Ld, R16D16, 3, 0)
    requires FirstReg(op) == 9 || (11 <= FirstReg(op) < 14 && k == 2 * FirstReg(op) - 20)
    ensures Defined(op)
    ensures FirstReg(op) == 9 ==>
      Execute(s) == TickN(s, 3).(pc := (s.pc + 3) % 0x10000, sp := CodeWord(s, 2, 1))
    ensures FirstReg(op) != 9 ==>
      Execute(s) == SetPairAt(TickN(s, 3).(pc := (s.pc + 3) % 0x10000), k, CodeWord(s, 2, 1))
  {
    hide Decode, Handle, Execute, NextOpcode, WellFormed, TimerTicks, TickN, FirstReg, SecondReg, Later,
      Code, SetPairAt;
    var i := FetchedWord(s, op, Entry(Ld, R16D16, 3, 0));
    HandleWord(Later(s, 3, 3), i);
    LaterMeans(s, 3, 3);
  }

  /** LD BC,nn, LD DE,nn, LD HL,nn and LD SP,nn, low byte first. */
  lemma LoadWordExact(s: State)
    requires NextOpcode(s) in {0x01, 0x11, 0x21, 0x31}
    ensures Defined(NextOpcode(s))
    ensures var op, t := NextOpcode(s), TickN(s, 3).(pc := (s.pc + 3) % 0x10000);
      Execute(s) ==
        if op == 0x31 then t.(sp := CodeWord(s, 2, 1)) else SetPairAt(t, 2 + op / 0x10 * 2, CodeWord(s, 2, 1))
  {
    hide Decode, Execute, NextOpcode, Defined, TickN, FirstReg, SetPairAt, CodeWord;
    var op := NextOpcode(s);
    WordEntry(op);
    LoadWordAs(s, op, 2 + op / 0x10 * 2);
  }

  lemma SpEntry(op: u8)
    ensures op == 0xF9 ==> Decode(op) == Entry(Ld, SpHl, 2, 0)
    ensures op == 0xF8 ==> Decode(op) == Entry(Ld, HlS8, 4, 0)
    ensures op == 0x08 ==> Decode(op) == Entry(Ld, D16RelSp, 5, 0)
  {
  }

  lemma HandleSp(s: State, i: Instr)
    requires WellFormed(i) && i.name == Ld && i.operand in {SpHl, D16RelSp}
    ensures i.operand == SpHl ==> Handle(s, i) == Tick(s).(sp := Hl(s))
    ensures i.operand == D16RelSp ==> Handle(s, i) == Bus.Write16(TimerTicks(s, 2), i.address, i.data)
  {
    hide TimerTicks, Bus.Write16;
  }

  /** A word stored low byte first. */
  function StoreWord(s: State, a: u16, v: u16): State {
    Bus.Write(Bus.Write(s, a, v % 0x100), (a + 1) % 0x10000, v / 0x100)
  }

  lemma TwoWrites(s: State, a: u16, v: u16)
    ensures Bus.Write16(s, a, v) == StoreWord(s, a, v)
  {
    hide Bus.Write;
  }

  /** LD SP,HL. */
  lemma LoadSpExact(s: State)
    requires NextOpcode(s) == 0xF9
    ensures Defined(NextOpcode(s))
    ensures Execute(s) == TickN(s, 2).(pc := (s.pc + 1) % 0x10000, sp := 0x100 * (s.r[6] as int) + s.r[7])
  {
    hide Decode, Handle, Execute, NextOpcode, WellFormed, TimerTicks, Defined, TickN, Hl;
    SpEntry(0xF9);
    var i := FetchedNothing(s, 0xF9, Entry(Ld, SpHl, 2, 0));
    HandleSp(Later(s, 1, 1), i);
    LaterTick(s, 1, 1);
    LaterKeeps(s, 1, 1);
    HlIsPair(Later(s, 1, 1));
  }

  /** LD (nn),SP: one batch of two ticks, then the low byte and the high byte. */
  lemma StoreSpExact(s: State)
    requires NextOpcode(s) == 0x08
    ensures Defined(NextOpcode(s))
    ensures Execute(s)
         == StoreWord(TimerTicks(TickN(s, 3).(pc := (s.pc + 3) % 0x10000), 2), CodeWord(s, 2, 1), s.sp)
  {
    hide Decode, Handle, Execute, NextOpcode, WellFormed, TimerTicks, TickN, FirstReg, SecondReg, Later,
      Code, StoreWord, Bus.Write16;
    SpEntry(0x08);
    var i := FetchedTarget(s, 0x08, Entry(Ld, D16RelSp, 5, 0));
    HandleSp(Later(s, 3, 3), i);
    TwoWrites(TimerTicks(Later(s, 3, 3), 2), CodeWord(s, 2, 1), s.sp);
    LaterMeans(s, 3, 3);
  }

  /** HL becomes SP plus the signed byte e; H and C from the unsigned low byte. */
  function HlFromSp(s: State, e: u8): State {
    SetByte(SetPairAt(s, 6, (s.sp + if e < 0x80 then e else e - 0x100) % 0x10000), 1,
            (if s.sp % 0x10 + e % 0x10 >= 0x10 then 0x20 else 0) + (if s.sp % 0x100 + e >= 0x100 then 0x10 else 0))
  }

  lemma HandleHlSp(s: State, i: Instr)
    requires WellFormed(i) && i.name == Ld && i.operand == HlS8
    ensures i.data < 0x100 && Handle(s, i) == HlFromSp(Tick(s), i.data)
  {
    hide TimerTicks;
    Bus.TickKeeps(s);
  }

  /** LD HL,SP+e. */
  lemma LoadHlSpExact(s: State)
    requires NextOpcode(s) == 0xF8
    ensures Defined(NextOpcode(s))
    ensures Execute(s) == HlFromSp(TickN(s, 3).(pc := (s.pc + 2) % 0x10000), Code(s, 2, 1))
  {
    hide Decode, Handle, Execute, NextOpcode, WellFormed, TimerTicks, TickN, FirstReg, SecondReg, Later,
      Code, HlFromSp;
    SpEntry(0xF8);
    var i := FetchedByte(s, 0xF8, Entry(Ld, HlS8, 4, 0));
    HandleHlSp(Later(s, 2, 2), i);
    LaterTick(s, 2, 2);
    LaterMeans(s, 3, 2);
  }
}
