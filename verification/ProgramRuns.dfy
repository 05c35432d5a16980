/** Machine code for multi-byte arithmetic: the block
      LD A,(DE); ADC A,(HL) or SBC A,(HL); [DAA;] LD (HL+),A; INC DE
    unrolled n times, as bytes in memory or ROM, run by the loop in src/main.c
    with interrupts disabled. */
module ProgramRuns {
  import opened Words
  import opened MachineState
  import opened Opcodes
  import opened Instructions
  import opened Runs
  import opened Programs
  import opened MultiByte
  import Interrupts
  import RunProperties
  import TimerModel
  import Alu
  import Bus

  predicate IsDecimal(op: Op) { op in {DecimalAdd, DecimalSub} }
  predicate IsSub(op: Op) { op in {SubC, DecimalSub} }

  /** The code of one step of a chain. */
  function Block(op: Op): seq<u8> {
    [0x1A, if IsSub(op) then 0x9E else 0x8E] + (if IsDecimal(op) then [0x27] else []) + [0x22, 0x13]
  }

  /** The code of n steps. */
  function Code(op: Op, n: nat): seq<u8> {
    if n == 0 then [] else Block(op) + Code(op, n - 1)
  }

  /** Running with interrupts disabled. */
  predicate Steady(s: State) { !s.halt && !s.ime && !s.imeScheduled }

  /** The byte at a is v, in ROM or plain memory. */
  predicate ByteAt(s: State, a: u16, v: u8) { !Bus.Device(a) && Bus.Read(s, a) == v }

  /** The code is what the next fetches will find. */
  predicate CodeAt(s: State, code: seq<u8>) {
    s.pc + |code| < 0x10000 && forall j :: 0 <= j < |code| ==> ByteAt(s, s.pc + j, code[j])
  }

  /** n passes, as far as they can be made. */
  function PassN(s: State, n: nat): State
    decreases n
  {
    if n == 0 then s else if CanStep(s) then PassN(Pass(s), n - 1) else s
  }

  lemma {:induction false} PassesAdd(s: State, m: nat, n: nat)
    requires CanRun(s, m) && CanRun(PassN(s, m), n)
    ensures CanRun(s, m + n) && PassN(s, m + n) == PassN(PassN(s, m), n)
    decreases m
  {
    hide Pass, CanStep;
    if m > 0 {
      PassesAdd(Pass(s), m - 1, n);
    }
  }

  /** The boundaries of a run are what its passes lead to. */
  lemma {:induction false} RunIsPasses(ss: seq<State>, i: nat, n: nat)
    requires IsRun(ss) && i + n < |ss|
    ensures ss[i + n] == PassN(ss[i], n)
    decreases n
  {
    hide Pass, CanStep;
    if n > 0 {
      RunIsPasses(ss, i + 1, n - 1);
    }
  }

  // ----- one instruction, one pass -----

  lemma NextIs(s: State, code: seq<u8>)
    requires CodeAt(s, code) && code != []
    ensures NextOpcode(s) == code[0]
  {
    hide TimerModel.Advance;
    assert ByteAt(s, s.pc + 0, code[0]);
  }

  lemma NothingDue(s: State)
    requires !s.ime && !s.halt
    ensures Interrupts.HandleInterrupts(s) == s
  {
    hide Interrupts.PendingList;
  }

  /** With interrupts disabled a pass is an instruction, and they stay so. */
  lemma SteadyPass(s: State)
    requires Steady(s) && Defined(NextOpcode(s)) && NextOpcode(s) !in {0xFB, 0xD9, 0x76}
    ensures CanStep(s) && Pass(s) == Exec(s) && Steady(Exec(s))
  {
    hide Execute, NextOpcode, Decode, Interrupts.HandleInterrupts;
    ExecuteEffect(s);
    RunProperties.NamedOpcodes(NextOpcode(s));
    NothingDue(Execute(s));
  }

  /** What is left of the code is next, if the instruction stored outside it. */
  lemma CodeMoves(s: State, t: State, code: seq<u8>)
    requires CodeAt(s, code) && code != [] && t.pc == (s.pc + 1) % 0x10000 && t.cart == s.cart
    requires forall b :: s.pc < b < s.pc + |code| ==> t.mem[b] == s.mem[b]
    ensures CodeAt(t, code[1..])
  {
    forall j | 0 <= j < |code| - 1
      ensures ByteAt(t, t.pc + j, code[1..][j])
    {
      assert ByteAt(s, s.pc + (j + 1), code[j + 1]);
    }
  }

  /** One pass of such code. */
  lemma Advances(s: State, code: seq<u8>)
    requires Steady(s) && CodeAt(s, code) && code != [] && code[0] in {0x1A, 0x8E, 0x9E, 0x27, 0x22, 0x13}
    requires var t := Exec(s);
      && t.pc == (s.pc + 1) % 0x10000 && t.cart == s.cart
      && forall b :: s.pc < b < s.pc + |code| ==> t.mem[b] == s.mem[b]
    ensures CanRun(s, 1) && PassN(s, 1) == Exec(s) && Steady(Exec(s)) && CodeAt(Exec(s), code[1..])
  {
    hide Exec, Pass, NextOpcode, CodeAt, Steady;
    NextIs(s, code);
    assert Defined(0x1A) && Defined(0x8E) && Defined(0x9E) && Defined(0x27) && Defined(0x22) && Defined(0x13);
    SteadyPass(s);
    CodeMoves(s, Exec(s), code);
    assert CanRun(Pass(s), 0) && PassN(Pass(s), 0) == Pass(s);
  }

  // ----- one block -----

  /** Where the block's data are. */
  predicate DataAt(s: State, code: seq<u8>) {
    && Bus.Ram(De(s)) && Bus.Ram(Hl(s)) && De(s) < 0xFFFF && Hl(s) < 0xFFFF
    && !(s.pc <= Hl(s) < s.pc + |code|)
  }

  /** The state after the load and the arithmetic, and its DAA if it has one. */
  lemma FirstHalf(s: State, op: Op, rest: seq<u8>) returns (t: State)
    requires Steady(s) && CodeAt(s, Block(op) + rest) && DataAt(s, Block(op) + rest)
    ensures var k := if IsDecimal(op) then 3 else 2; CanRun(s, k) && t == PassN(s, k) && t.pc == s.pc + k
    ensures Steady(t) && CodeAt(t, [0x22, 0x13] + rest) && t.cart == s.cart
    ensures var o := MultiByte.Step(op, s.mem[De(s)], s.mem[Hl(s)], F(s)); Holds(t, o.val, o.f, De(s), Hl(s), s.mem)
  {
    hide Exec, CodeAt, Steady, CanRun, PassN, NextOpcode, Alu.Add, Alu.Sub, Alu.Daa, ReadReg16;
    var code := Block(op) + rest;
    assert code[0] == 0x1A && code[1] == (if IsSub(op) then 0x9E else 0x8E);
    Bounded(s, code);
    NextIs(s, code);
    LoadThroughDe(s);
    Advances(s, code);
    var u := Exec(s);
    NextIs(u, code[1..]);
    ArithmeticThroughHl(u, IsSub(op));
    Advances(u, code[1..]);
    t := Exec(u);
    PassesAdd(s, 1, 1);
    if IsDecimal(op) {
      var v := t;
      assert code[1..][1..] == [0x27, 0x22, 0x13] + rest;
      NextIs(v, code[1..][1..]);
      Adjust(v);
      Advances(v, code[1..][1..]);
      t := Exec(v);
      PassesAdd(s, 2, 1);
      assert code[1..][1..][1..] == [0x22, 0x13] + rest;
    } else {
      assert code[1..][1..] == [0x22, 0x13] + rest;
    }
  }

  lemma Bounded(s: State, code: seq<u8>)
    requires CodeAt(s, code)
    ensures s.pc + |code| < 0x10000
  {
  }

  lemma SecondHalf(s: State, rest: seq<u8>) returns (t: State)
    requires Steady(s) && CodeAt(s, [0x22, 0x13] + rest)
    requires Bus.Ram(Hl(s)) && De(s) < 0xFFFF && Hl(s) < 0xFFFF && !(s.pc <= Hl(s) < s.pc + 2 + |rest|)
    ensures CanRun(s, 2) && t == PassN(s, 2) && t.pc == s.pc + 2
    ensures Steady(t) && CodeAt(t, rest) && t.cart == s.cart
    ensures Holds(t, A(s), F(s), De(s) + 1, Hl(s) + 1, s.mem[Hl(s) := A(s)])
  {
    hide Exec, CodeAt, Steady, CanRun, PassN, NextOpcode, ReadReg16;
    var code := [0x22, 0x13] + rest;
    Bounded(s, code);
    NextIs(s, code);
    StoreAndStep(s);
    Advances(s, code);
    var u := Exec(s);
    assert code[1..] == [0x13] + rest && code[1..][1..] == rest;
    NextIs(u, code[1..]);
    StepDe(u);
    Advances(u, code[1..]);
    t := Exec(u);
    PassesAdd(s, 1, 1);
  }

  /** One block, in as many passes as it has bytes: the byte at HL becomes one
      step of the chain on the bytes at DE and HL, F is handed on, and both
      pointers move up. */
  lemma BlockEffect(s: State, op: Op, rest: seq<u8>)
    requires Steady(s) && CodeAt(s, Block(op) + rest) && DataAt(s, Block(op) + rest)
    ensures var t, o := PassN(s, |Block(op)|), MultiByte.Step(op, s.mem[De(s)], s.mem[Hl(s)], F(s));
      && CanRun(s, |Block(op)|) && t.pc == s.pc + |Block(op)| && t.cart == s.cart
      && Steady(t) && CodeAt(t, rest)
      && Holds(t, o.val, o.f, De(s) + 1, Hl(s) + 1, s.mem[Hl(s) := o.val])
  {
    hide CodeAt, Steady, CanRun, PassN, ReadReg16, MultiByte.Step;
    var u := FirstHalf(s, op, rest);
    var _ := SecondHalf(u, rest);
    PassesAdd(s, |Block(op)| - 2, 2);
  }

  // ----- n blocks -----

  /** n bytes from a on are plain memory below the last address. */
  predicate PlainBytes(a: nat, n: nat) {
    a + n < 0x10000 && forall b :: a <= b < a + n ==> Bus.Ram(b)
  }

  predicate Apart(a: nat, m: nat, b: nat, n: nat) { a + m <= b || b + n <= a }

  /** The program for n steps is next, interrupts are disabled, and the n bytes
      at HL, which take the result, overlap neither the other operand, the n
      bytes at DE, nor the program. */
  predicate Ready(s: State, op: Op, n: nat) {
    && Steady(s) && CodeAt(s, Code(op, n))
    && PlainBytes(De(s), n) && PlainBytes(Hl(s), n)
    && Apart(De(s), n, Hl(s), n) && Apart(s.pc, |Code(op, n)|, Hl(s), n)
  }

  lemma ReadyStep(s: State, op: Op, n: nat, t: State)
    requires n > 0 && Ready(s, op, n) && Steady(t) && CodeAt(t, Code(op, n - 1))
    requires De(t) == De(s) + 1 && Hl(t) == Hl(s) + 1 && t.pc == s.pc + |Block(op)|
    ensures Ready(t, op, n - 1)
  {
    hide CodeAt, Steady, ReadReg16, Block;
  }

  lemma ReadyData(s: State, op: Op, n: nat)
    requires n > 0 && Ready(s, op, n)
    ensures Steady(s) && CodeAt(s, Block(op) + Code(op, n - 1)) && DataAt(s, Block(op) + Code(op, n - 1))
  {
    hide CodeAt, Steady, ReadReg16, Block;
  }

  /** The program runs the chain over the n bytes at DE and HL, one pass for
      each of its bytes, leaving the result at HL and the last F, and changes
      no other byte. */
  lemma {:induction false} CodeIsChain(s: State, op: Op, n: nat)
    requires Ready(s, op, n)
    ensures CanRun(s, |Code(op, n)|)
    ensures var t, d, h := PassN(s, |Code(op, n)|), De(s), Hl(s);
      && (t.mem[h..h + n], F(t)) == Chain(op, s.mem[d..d + n], s.mem[h..h + n], F(s))
      && (forall b :: 0 <= b < 0x10000 && !(h <= b < h + n) ==> t.mem[b] == s.mem[b])
      && t.pc == s.pc + |Code(op, n)|
    decreases n
  {
    hide Ready, CanRun, PassN, CodeAt, Steady, ReadReg16, MultiByte.Step, Chain, Block;
    var d, h := De(s), Hl(s);
    if n > 0 {
      ReadyData(s, op, n);
      BlockEffect(s, op, Code(op, n - 1));
      var u := PassN(s, |Block(op)|);
      ReadyStep(s, op, n, u);
      CodeIsChain(u, op, n - 1);
      PassesAdd(s, |Block(op)|, |Code(op, n - 1)|);
      ReadyBounds(s, op, n);
      ChainStep(s, u, PassN(u, |Code(op, n - 1)|), op, d, h, n);
    } else {
      NoPasses(s, op);
    }
  }

  lemma NoPasses(s: State, op: Op)
    ensures CanRun(s, 0) && PassN(s, 0) == s && Chain(op, [], [], F(s)) == ([], F(s))
    ensures forall a: u16 :: s.mem[a..a] == []
  {
  }

  lemma ReadyBounds(s: State, op: Op, n: nat)
    requires Ready(s, op, n)
    ensures De(s) + n < 0x10000 && Hl(s) + n < 0x10000 && Apart(De(s), n, Hl(s), n)
  {
  }

  /** A first step and a chain over the rest are the whole chain, in memory. */
  lemma ChainStep(s: State, u: State, t: State, op: Op, d: u16, h: u16, n: nat)
    requires 0 < n && d + n < 0x10000 && h + n < 0x10000 && Apart(d, n, h, n)
    requires var o := MultiByte.Step(op, s.mem[d], s.mem[h], F(s)); u.mem == s.mem[h := o.val] && F(u) == o.f
    requires (t.mem[h + 1..h + n], F(t)) == Chain(op, u.mem[d + 1..d + n], u.mem[h + 1..h + n], F(u))
    requires forall b :: 0 <= b < 0x10000 && !(h + 1 <= b < h + n) ==> t.mem[b] == u.mem[b]
    ensures (t.mem[h..h + n], F(t)) == Chain(op, s.mem[d..d + n], s.mem[h..h + n], F(s))
  {
    hide MultiByte.Step;
    assert s.mem[d..d + n][1..] == s.mem[d + 1..d + n] == u.mem[d + 1..d + n];
    assert s.mem[h..h + n][1..] == s.mem[h + 1..h + n] == u.mem[h + 1..h + n];
    assert t.mem[h..h + n] == [t.mem[h]] + t.mem[h + 1..h + n];
  }

  // ----- what runs of the program compute -----

  /** n bytes of memory from a on (none where there are not so many). */
  function Bytes(s: State, a: u16, n: nat): seq<u8> {
    if a + n <= 0x10000 then s.mem[a..a + n] else []
  }

  /** In every run the program runs the chain, in as many passes as it has bytes. */
  lemma ProgramIsChain(ss: seq<State>, op: Op, n: nat)
    requires IsRun(ss) && |Code(op, n)| < |ss| && Ready(ss[0], op, n)
    ensures var s, t, d, h := ss[0], ss[|Code(op, n)|], De(ss[0]), Hl(ss[0]);
      && |Bytes(s, d, n)| == |Bytes(s, h, n)| == n
      && (Bytes(t, h, n), F(t)) == Chain(op, Bytes(s, d, n), Bytes(s, h, n), F(s))
      && (forall b :: 0 <= b < 0x10000 && !(h <= b < h + n) ==> t.mem[b] == s.mem[b])
      && t.pc == s.pc + |Code(op, n)|
  {
    hide IsRun, Ready, CanRun, PassN, Chain, Code, ReadReg16, Bytes;
    var s, t, d, h := ss[0], ss[|Code(op, n)|], De(ss[0]), Hl(ss[0]);
    ReadyBounds(s, op, n);
    BytesAre(s, d, n);
    BytesAre(s, h, n);
    BytesAre(t, h, n);
    RunIsPasses(ss, 0, |Code(op, n)|);
    CodeIsChain(s, op, n);
  }

  lemma BytesAre(s: State, a: u16, n: nat)
    requires a + n <= 0x10000
    ensures Bytes(s, a, n) == s.mem[a..a + n] && |Bytes(s, a, n)| == n
  {
  }

  /** In every run the program takes n-byte binary numbers of any length to
      their sum, with C the carry. */
  lemma ProgramAdds(ss: seq<State>, n: nat)
    requires IsRun(ss) && |Code(AddC, n)| < |ss| && Ready(ss[0], AddC, n)
    ensures var s, t, d, h, p := ss[0], ss[|Code(AddC, n)|], De(ss[0]), Hl(ss[0]), Pow(0x100, n);
      var sum := Le(Bytes(s, d, n)) + Le(Bytes(s, h, n)) + Alu.Carry(Alu.C(F(s)));
      && Le(Bytes(t, h, n)) == (if sum >= p then sum - p else sum)
      && (Alu.C(F(t)) <==> sum >= p)
  {
    hide IsRun, Ready, Chain, Code, ReadReg16, Bytes, AllBcd;
    var s := ss[0];
    ProgramIsChain(ss, AddC, n);
    AdcChain(Bytes(s, De(s), n), Bytes(s, Hl(s), n), F(s));
  }

  /** With SBC instead, it subtracts the number at HL from the one at DE. */
  lemma ProgramSubtracts(ss: seq<State>, n: nat)
    requires IsRun(ss) && |Code(SubC, n)| < |ss| && Ready(ss[0], SubC, n)
    ensures var s, t, d, h, p := ss[0], ss[|Code(SubC, n)|], De(ss[0]), Hl(ss[0]), Pow(0x100, n);
      var diff := Le(Bytes(s, d, n)) - Le(Bytes(s, h, n)) - Alu.Carry(Alu.C(F(s)));
      && Le(Bytes(t, h, n)) == (if diff < 0 then diff + p else diff)
      && (Alu.C(F(t)) <==> diff < 0)
  {
    hide IsRun, Ready, Chain, Code, ReadReg16, Bytes, AllBcd;
    var s := ss[0];
    ProgramIsChain(ss, SubC, n);
    SbcChain(Bytes(s, De(s), n), Bytes(s, Hl(s), n), F(s));
  }

  /** With DAA, it adds 2n-digit decimal numbers. */
  lemma ProgramAddsDecimals(ss: seq<State>, n: nat)
    requires IsRun(ss) && |Code(DecimalAdd, n)| < |ss| && Ready(ss[0], DecimalAdd, n)
    requires AllBcd(Bytes(ss[0], De(ss[0]), n)) && AllBcd(Bytes(ss[0], Hl(ss[0]), n))
    ensures var s, t, d, h, p := ss[0], ss[|Code(DecimalAdd, n)|], De(ss[0]), Hl(ss[0]), Pow(100, n);
      var sum := Decimal(Bytes(s, d, n)) + Decimal(Bytes(s, h, n)) + Alu.Carry(Alu.C(F(s)));
      && AllBcd(Bytes(t, h, n))
      && Decimal(Bytes(t, h, n)) == (if sum >= p then sum - p else sum)
      && (Alu.C(F(t)) <==> sum >= p)
  {
    hide IsRun, Ready, Chain, Code, ReadReg16, Bytes, AllBcd;
    var s := ss[0];
    ProgramIsChain(ss, DecimalAdd, n);
    BcdAddChain(Bytes(s, De(s), n), Bytes(s, Hl(s), n), F(s));
  }

  /** And subtracts them. */
  lemma ProgramSubtractsDecimals(ss: seq<State>, n: nat)
    requires IsRun(ss) && |Code(DecimalSub, n)| < |ss| && Ready(ss[0], DecimalSub, n)
    requires AllBcd(Bytes(ss[0], De(ss[0]), n)) && AllBcd(Bytes(ss[0], Hl(ss[0]), n))
    ensures var s, t, d, h, p := ss[0], ss[|Code(DecimalSub, n)|], De(ss[0]), Hl(ss[0]), Pow(100, n);
      var diff := Decimal(Bytes(s, d, n)) - Decimal(Bytes(s, h, n)) - Alu.Carry(Alu.C(F(s)));
      && AllBcd(Bytes(t, h, n))
      && Decimal(Bytes(t, h, n)) == (if diff < 0 then diff + p else diff)
      && (Alu.C(F(t)) <==> diff < 0)
  {
    hide IsRun, Ready, Chain, Code, ReadReg16, Bytes, AllBcd;
    var s := ss[0];
    ProgramIsChain(ss, DecimalSub, n);
    BcdSubChain(Bytes(s, De(s), n), Bytes(s, Hl(s), n), F(s));
  }
}
