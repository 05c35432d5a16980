/** Every opcode has its statement: the ranges the lemmas about single opcodes
    are for make up the instruction set.  (src/cpu/instruction_fetch.c) */
module OpcodeMap {
  import opened Words
  import opened Opcodes

  /** Jumps, calls and returns: ControlFlow. */
  predicate Flow(op: u8) {
    || op in {0x18, 0x20, 0x28, 0x30, 0x38} || op in {0xC3, 0xC2, 0xCA, 0xD2, 0xDA, 0xE9}
    || op in {0xCD, 0xC4, 0xCC, 0xD4, 0xDC} || op in {0xC9, 0xD9, 0xC0, 0xC8, 0xD0, 0xD8}
    || (op >= 0xC0 && op % 8 == 7)
  }

  /** Loads: Transfers. */
  predicate Transfer(op: u8) {
    || (0x40 <= op < 0x80 && op != 0x76)
    || (op < 0x40 && op % 8 == 6)
    || op in {0x02, 0x12, 0x22, 0x32, 0x0A, 0x1A, 0x2A, 0x3A}
    || op in {0x01, 0x11, 0x21, 0x31, 0x08, 0xF8, 0xF9}
    || op in {0xE0, 0xE2, 0xEA, 0xF0, 0xF2, 0xFA}
  }

  /** Arithmetic, steps, the stack and the loop's flags: Operations,
      WordOperations and Accumulator. */
  predicate Operation(op: u8) {
    || 0x80 <= op < 0xC0 || (op >= 0xC0 && op % 8 == 6)
    || (op < 0x40 && op % 8 in {3, 4, 5, 7})
    || op in {0x09, 0x19, 0x29, 0x39, 0xE8}
    || op in {0xC5, 0xD5, 0xE5, 0xF5, 0xC1, 0xD1, 0xE1, 0xF1}
    || op in {0x00, 0x10, 0x76, 0xF3, 0xFB}
  }

  lemma LowQuarter(op: u8)
    requires op < 0x40
    ensures Defined(op) && (Flow(op) || Transfer(op) || Operation(op))
  {
    var z := op % 8;
    if z == 0 {} else if z == 1 {} else if z == 2 {} else {}
  }

  lemma MiddleHalf(op: u8)
    requires 0x40 <= op < 0xC0
    ensures Defined(op) && (Flow(op) || Transfer(op) || Operation(op))
  {
  }

  lemma HighQuarter(op: u8, z: nat)
    requires op >= 0xC0 && z == op % 8
    ensures Defined(op) <==> Flow(op) || Transfer(op) || Operation(op) || op == 0xCB
    ensures Defined(op) <==> op !in {0xD3, 0xDB, 0xDD, 0xE3, 0xE4, 0xEB, 0xEC, 0xED, 0xF4, 0xFC, 0xFD}
  {
    if z == 0 {} else if z == 1 {} else if z == 2 {} else if z == 3 {} else if z == 4 {} else if z == 5 {} else {}
  }

  /** An opcode is defined exactly if one of the statements covers it, and all
      are but eleven. */
  lemma EveryOpcodeIsStated(op: u8)
    ensures Defined(op) <==> Flow(op) || Transfer(op) || Operation(op) || op == 0xCB
    ensures Defined(op) <==> op !in {0xD3, 0xDB, 0xDD, 0xE3, 0xE4, 0xEB, 0xEC, 0xED, 0xF4, 0xFC, 0xFD}
  {
    hide Defined, Flow, Transfer, Operation;
    if op < 0x40 {
      LowQuarter(op);
    } else if op < 0xC0 {
      MiddleHalf(op);
    } else {
      HighQuarter(op, op % 8);
    }
  }
}
