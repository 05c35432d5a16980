/** src/cpu/instruction_fetch.c: the opcode table, and the octal structure it follows. */
module Opcodes {
  import opened Words

  /** `in_name`, without the error entry. */
  datatype Mnemonic =
    | Adc | Add | And | Call | Cb | Ccf | Cp | Cpl | Daa | Dec | Di | Ei | Halt | Inc | Jp | Jr | Ld | Ldh
    | Nop | Or | Pop | Push | Ret | Reti | Rla | Rlca | Rra | Rrca | Rst | Sbc | Scf | Stop | Sub | Xor

  /** `operand_type`, without D8, which no opcode uses; Vec is RST. */
  datatype Operand =
    | ErrOperand | NoOperand
    | R8 | R16 | A16 | HlRel | S8 | Flag | Vec
    | FlagA16 | FlagS8
    | R8R8 | R8D8 | R8HlRel | AR16Rel | AD16Rel | R16D16 | SpHl | SpS8 | AHld | AHli | ACRel | AD8Rel
    | AR8 | AD8 | AHlRel | HlR16 | HlS8
    | HlRelR8 | HlRelD8 | R16RelA | D16RelA | D16RelSp | HldA | HliA | CRelA | D8RelA

  /** `struct in_type`: mnemonic, operands, ticks when taken, ticks when not. */
  datatype Entry = Entry(name: Mnemonic, operand: Operand, cycles: nat, cyclesFalse: nat)

  /** What an index without an initialiser holds. */
  const MISSING := Entry(Adc, ErrOperand, 0, 0)

  // ----- `g_opcodes`, row by row -----

  function Rows0To3(op: u8): Entry {
    match op
    case 0x00 => Entry(Nop, NoOperand, 1, 0)
    case 0x01 => Entry(Ld, R16D16, 3, 0)
    case 0x02 => Entry(Ld, R16RelA, 2, 0)
    case 0x03 => Entry(Inc, R16, 2, 0)
    case 0x04 | 0x0C => Entry(Inc, R8, 1, 0)
    case 0x05 | 0x0D => Entry(Dec, R8, 1, 0)
    case 0x06 | 0x0E => Entry(Ld, R8D8, 2, 0)
    case 0x07 => Entry(Rlca, NoOperand, 1, 0)
    case 0x08 => Entry(Ld, D16RelSp, 5, 0)
    case 0x09 => Entry(Add, HlR16, 2, 0)
    case 0x0A => Entry(Ld, AR16Rel, 2, 0)
    case 0x0B => Entry(Dec, R16, 2, 0)
    case 0x0F => Entry(Rrca, NoOperand, 1, 0)
    case 0x10 => Entry(Stop, NoOperand, 1, 0)
    case 0x11 => Entry(Ld, R16D16, 3, 0)
    case 0x12 => Entry(Ld, R16RelA, 2, 0)
    case 0x13 => Entry(Inc, R16, 2, 0)
    case 0x14 | 0x1C => Entry(Inc, R8, 1, 0)
    case 0x15 | 0x1D => Entry(Dec, R8, 1, 0)
    case 0x16 | 0x1E => Entry(Ld, R8D8, 2, 0)
    case 0x17 => Entry(Rla, NoOperand, 1, 0)
    case 0x18 => Entry(Jr, S8, 3, 0)
    case 0x19 => Entry(Add, HlR16, 2, 0)
    case 0x1A => Entry(Ld, AR16Rel, 2, 0)
    case 0x1B => Entry(Dec, R16, 2, 0)
    case 0x1F => Entry(Rra, NoOperand, 1, 0)
    case 0x20 | 0x28 => Entry(Jr, FlagS8, 3, 2)
    case 0x21 => Entry(Ld, R16D16, 3, 0)
    case 0x22 => Entry(Ld, HliA, 2, 0)
    case 0x23 => Entry(Inc, R16, 2, 0)
    case 0x24 | 0x2C => Entry(Inc, R8, 1, 0)
    case 0x25 | 0x2D => Entry(Dec, R8, 1, 0)
    case 0x26 | 0x2E => Entry(Ld, R8D8, 2, 0)
    case 0x27 => Entry(Daa, NoOperand, 1, 0)
    case 0x29 => Entry(Add, HlR16, 2, 0)
    case 0x2A => Entry(Ld, AHli, 2, 0)
    case 0x2B => Entry(Dec, R16, 2, 0)
    case 0x2F => Entry(Cpl, NoOperand, 1, 0)
    case 0x30 | 0x38 => Entry(Jr, FlagS8, 3, 2)
    case 0x31 => Entry(Ld, R16D16, 3, 0)
    case 0x32 => Entry(Ld, HldA, 2, 0)
    case 0x33 => Entry(Inc, R16, 2, 0)
    case 0x34 => Entry(Inc, HlRel, 3, 0)
    case 0x35 => Entry(Dec, HlRel, 3, 0)
    case 0x36 => Entry(Ld, HlRelD8, 3, 0)
    case 0x37 => Entry(Scf, NoOperand, 1, 0)
    case 0x39 => Entry(Add, HlR16, 2, 0)
    case 0x3A => Entry(Ld, AHld, 2, 0)
    case 0x3B => Entry(Dec, R16, 2, 0)
    case 0x3C => Entry(Inc, R8, 1, 0)
    case 0x3D => Entry(Dec, R8, 1, 0)
    case 0x3E => Entry(Ld, R8D8, 2, 0)
    case 0x3F => Entry(Ccf, NoOperand, 1, 0)
    case _ => MISSING
  }

  function Rows4To7(op: u8): Entry {
    match op
    case 0x40 | 0x41 | 0x42 | 0x43 | 0x44 | 0x45
       | 0x47 | 0x48 | 0x49 | 0x4A | 0x4B | 0x4C | 0x4D | 0x4F => Entry(Ld, R8R8, 1, 0)
    case 0x46 | 0x4E => Entry(Ld, R8HlRel, 2, 0)
    case 0x50 | 0x51 | 0x52 | 0x53 | 0x54 | 0x55
       | 0x57 | 0x58 | 0x59 | 0x5A | 0x5B | 0x5C | 0x5D | 0x5F => Entry(Ld, R8R8, 1, 0)
    case 0x56 | 0x5E => Entry(Ld, R8HlRel, 2, 0)
    case 0x60 | 0x61 | 0x62 | 0x63 | 0x64 | 0x65
       | 0x67 | 0x68 | 0x69 | 0x6A | 0x6B | 0x6C | 0x6D | 0x6F => Entry(Ld, R8R8, 1, 0)
    case 0x66 | 0x6E => Entry(Ld, R8HlRel, 2, 0)
    case 0x70 | 0x71 | 0x72 | 0x73 | 0x74 | 0x75 | 0x77 => Entry(Ld, HlRelR8, 2, 0)
    case 0x76 => Entry(Halt, NoOperand, 1, 0)
    case 0x78 | 0x79 | 0x7A | 0x7B | 0x7C | 0x7D | 0x7F => Entry(Ld, R8R8, 1, 0)
    case 0x7E => Entry(Ld, R8HlRel, 2, 0)
    case _ => MISSING
  }

  function Rows8ToB(op: u8): Entry {
    match op
    case 0x80 | 0x81 | 0x82 | 0x83 | 0x84 | 0x85 | 0x87 => Entry(Add, AR8, 1, 0)
    case 0x86 => Entry(Add, AHlRel, 2, 0)
    case 0x88 | 0x89 | 0x8A | 0x8B | 0x8C | 0x8D | 0x8F => Entry(Adc, AR8, 1, 0)
    case 0x8E => Entry(Adc, AHlRel, 2, 0)
    case 0x90 | 0x91 | 0x92 | 0x93 | 0x94 | 0x95 | 0x97 => Entry(Sub, AR8, 1, 0)
    case 0x96 => Entry(Sub, AHlRel, 2, 0)
    case 0x98 | 0x99 | 0x9A | 0x9B | 0x9C | 0x9D | 0x9F => Entry(Sbc, AR8, 1, 0)
    case 0x9E => Entry(Sbc, AHlRel, 2, 0)
    case 0xA0 | 0xA1 | 0xA2 | 0xA3 | 0xA4 | 0xA5 | 0xA7 => Entry(And, AR8, 1, 0)
    case 0xA6 => Entry(And, AHlRel, 2, 0)
    case 0xA8 | 0xA9 | 0xAA | 0xAB | 0xAC | 0xAD | 0xAF => Entry(Xor, AR8, 1, 0)
    case 0xAE => Entry(Xor, AHlRel, 2, 0)
    case 0xB0 | 0xB1 | 0xB2 | 0xB3 | 0xB4 | 0xB5 | 0xB7 => Entry(Or, AR8, 1, 0)
    case 0xB6 => Entry(Or, AHlRel, 2, 0)
    case 0xB8 | 0xB9 | 0xBA | 0xBB | 0xBC | 0xBD | 0xBF => Entry(Cp, AR8, 1, 0)
    case 0xBE => Entry(Cp, AHlRel, 2, 0)
    case _ => MISSING
  }

  function RowsCToF(op: u8): Entry {
    match op
    case 0xC0 | 0xC8 => Entry(Ret, Flag, 5, 2)
    case 0xC1 => Entry(Pop, R16, 3, 0)
    case 0xC2 | 0xCA => Entry(Jp, FlagA16, 4, 3)
    case 0xC3 => Entry(Jp, A16, 4, 0)
    case 0xC4 | 0xCC => Entry(Call, FlagA16, 6, 3)
    case 0xC5 => Entry(Push, R16, 4, 0)
    case 0xC6 => Entry(Add, AD8, 2, 0)
    case 0xC7 | 0xCF => Entry(Rst, Vec, 4, 0)
    case 0xC9 => Entry(Ret, NoOperand, 4, 0)
    case 0xCB => Entry(Cb, NoOperand, 1, 0)
    case 0xCD => Entry(Call, A16, 6, 0)
    case 0xCE => Entry(Adc, AD8, 2, 0)
    case 0xD0 | 0xD8 => Entry(Ret, Flag, 5, 2)
    case 0xD1 => Entry(Pop, R16, 3, 0)
    case 0xD2 | 0xDA => Entry(Jp, FlagA16, 4, 3)
    case 0xD4 | 0xDC => Entry(Call, FlagA16, 6, 3)
    case 0xD5 => Entry(Push, R16, 4, 0)
    case 0xD6 => Entry(Sub, AD8, 2, 0)
    case 0xD7 | 0xDF => Entry(Rst, Vec, 4, 0)
    case 0xD9 => Entry(Reti, NoOperand, 4, 0)
    case 0xDE => Entry(Sbc, AD8, 2, 0)
    case 0xE0 => Entry(Ldh, D8RelA, 3, 0)
    case 0xE1 => Entry(Pop, R16, 3, 0)
    case 0xE2 => Entry(Ldh, CRelA, 2, 0)
    case 0xE5 => Entry(Push, R16, 4, 0)
    case 0xE6 => Entry(And, AD8, 2, 0)
    case 0xE7 | 0xEF => Entry(Rst, Vec, 4, 0)
    case 0xE8 => Entry(Add, SpS8, 4, 0)
    case 0xE9 => Entry(Jp, HlRel, 1, 0)
    case 0xEA => Entry(Ld, D16RelA, 4, 0)
    case 0xEE => Entry(Xor, AD8, 2, 0)
    case 0xF0 => Entry(Ldh, AD8Rel, 3, 0)
    case 0xF1 => Entry(Pop, R16, 3, 0)
    case 0xF2 => Entry(Ldh, ACRel, 2, 0)
    case 0xF3 => Entry(Di, NoOperand, 1, 0)
    case 0xF5 => Entry(Push, R16, 4, 0)
    case 0xF6 => Entry(Or, AD8, 2, 0)
    case 0xF7 | 0xFF => Entry(Rst, Vec, 4, 0)
    case 0xF8 => Entry(Ld, HlS8, 4, 0)
    case 0xF9 => Entry(Ld, SpHl, 2, 0)
    case 0xFA => Entry(Ld, AD16Rel, 4, 0)
    case 0xFB => Entry(Ei, NoOperand, 1, 0)
    case 0xFE => Entry(Cp, AD8, 2, 0)
    case _ => MISSING
  }

  function Table(op: u8): Entry {
    if op < 0x40 then Rows0To3(op) else if op < 0x80 then Rows4To7(op)
    else if op < 0xC0 then Rows8ToB(op) else RowsCToF(op)
  }

  // ----- the octal structure: x = bits 7-6, y = bits 5-3, z = bits 2-0 -----

  function X(op: u8): (x: nat) ensures x < 4 { op / 64 }
  function Y(op: u8): (y: nat) ensures y < 8 { op / 8 % 8 }
  function OctalZ(op: u8): (z: nat) ensures z < 8 { op % 8 }
  function P(op: u8): (p: nat) ensures p < 4 { op / 16 % 4 }

  /** The eight A-with-operand operations, by y. */
  function Arithmetic(y: nat): Mnemonic
    requires y < 8
  {
    if y == 0 then Add else if y == 1 then Adc else if y == 2 then Sub else if y == 3 then Sbc
    else if y == 4 then And else if y == 5 then Xor else if y == 6 then Or else Cp
  }

  /** The eight one-byte operations on A and F, by y. */
  function Accumulator(y: nat): Mnemonic
    requires y < 8
  {
    if y == 0 then Rlca else if y == 1 then Rrca else if y == 2 then Rla else if y == 3 then Rra
    else if y == 4 then Daa else if y == 5 then Cpl else if y == 6 then Scf else Ccf
  }

  // ----- decoding by structure instead of by lookup -----

  function Block0(y: nat, z: nat): Entry
    requires y < 8 && z < 8
  {
    var p, even := y / 2, y % 2 == 0;
    if z == 0 then
      if y == 0 then Entry(Nop, NoOperand, 1, 0)
      else if y == 1 then Entry(Ld, D16RelSp, 5, 0)
      else if y == 2 then Entry(Stop, NoOperand, 1, 0)
      else if y == 3 then Entry(Jr, S8, 3, 0)
      else Entry(Jr, FlagS8, 3, 2)
    else if z == 1 then if even then Entry(Ld, R16D16, 3, 0) else Entry(Add, HlR16, 2, 0)
    else if z == 2 then
      if even then Entry(Ld, if p < 2 then R16RelA else if p == 2 then HliA else HldA, 2, 0)
      else Entry(Ld, if p < 2 then AR16Rel else if p == 2 then AHli else AHld, 2, 0)
    else if z == 3 then Entry(if even then Inc else Dec, R16, 2, 0)
    else if z == 4 then if y == 6 then Entry(Inc, HlRel, 3, 0) else Entry(Inc, R8, 1, 0)
    else if z == 5 then if y == 6 then Entry(Dec, HlRel, 3, 0) else Entry(Dec, R8, 1, 0)
    else if z == 6 then if y == 6 then Entry(Ld, HlRelD8, 3, 0) else Entry(Ld, R8D8, 2, 0)
    else Entry(Accumulator(y), NoOperand, 1, 0)
  }

  function Block1(y: nat, z: nat): Entry
    requires y < 8 && z < 8
  {
    if y == 6 && z == 6 then Entry(Halt, NoOperand, 1, 0)
    else if z == 6 then Entry(Ld, R8HlRel, 2, 0)
    else if y == 6 then Entry(Ld, HlRelR8, 2, 0)
    else Entry(Ld, R8R8, 1, 0)
  }

  function Block2(y: nat, z: nat): Entry
    requires y < 8 && z < 8
  {
    if z == 6 then Entry(Arithmetic(y), AHlRel, 2, 0) else Entry(Arithmetic(y), AR8, 1, 0)
  }

  function Block3(y: nat, z: nat): Entry
    requires y < 8 && z < 8
  {
    var p, even := y / 2, y % 2 == 0;
    if z == 0 then
      if y < 4 then Entry(Ret, Flag, 5, 2)
      else if y == 4 then Entry(Ldh, D8RelA, 3, 0)
      else if y == 5 then Entry(Add, SpS8, 4, 0)
      else if y == 6 then Entry(Ldh, AD8Rel, 3, 0)
      else Entry(Ld, HlS8, 4, 0)
    else if z == 1 then
      if even then Entry(Pop, R16, 3, 0)
      else if p == 0 then Entry(Ret, NoOperand, 4, 0)
      else if p == 1 then Entry(Reti, NoOperand, 4, 0)
      else if p == 2 then Entry(Jp, HlRel, 1, 0)
      else Entry(Ld, SpHl, 2, 0)
    else if z == 2 then
      if y < 4 then Entry(Jp, FlagA16, 4, 3)
      else if y == 4 then Entry(Ldh, CRelA, 2, 0)
      else if y == 5 then Entry(Ld, D16RelA, 4, 0)
      else if y == 6 then Entry(Ldh, ACRel, 2, 0)
      else Entry(Ld, AD16Rel, 4, 0)
    else if z == 3 then
      if y == 0 then Entry(Jp, A16, 4, 0)
      else if y == 1 then Entry(Cb, NoOperand, 1, 0)
      else if y == 6 then Entry(Di, NoOperand, 1, 0)
      else if y == 7 then Entry(Ei, NoOperand, 1, 0)
      else MISSING
    else if z == 4 then if y < 4 then Entry(Call, FlagA16, 6, 3) else MISSING
    else if z == 5 then
      if even then Entry(Push, R16, 4, 0)
      else if p == 0 then Entry(Call, A16, 6, 0)
      else MISSING
    else if z == 6 then Entry(Arithmetic(y), AD8, 2, 0)
    else Entry(Rst, Vec, 4, 0)
  }

  function Decode(op: u8): Entry {
    var x, y, z := X(op), Y(op), OctalZ(op);
    if x == 0 then Block0(y, z) else if x == 1 then Block1(y, z) else if x == 2 then Block2(y, z) else Block3(y, z)
  }

  lemma Quarter0Column0(op: u8)
    requires op < 0x40 && op % 8 == 0
    ensures Rows0To3(op) == Block0(op / 8, 0)
  {
  }

  lemma Quarter0Low(op: u8, z: nat)
    requires op < 0x40 && z == op % 8 && 0 < z < 4
    ensures Rows0To3(op) == Block0(op / 8, z)
  {
    if z == 1 {} else if z == 2 {} else {}
  }

  lemma Quarter0High(op: u8, z: nat)
    requires op < 0x40 && z == op % 8 && z >= 4
    ensures Rows0To3(op) == Block0(op / 8, z)
  {
    if z == 4 {} else if z == 5 {} else if z == 6 {} else {}
  }

  lemma Quarter1(op: u8)
    requires 0x40 <= op < 0x80
    ensures Rows4To7(op) == Block1(op / 8 - 8, op % 8)
  {
  }

  lemma Quarter2(op: u8)
    requires 0x80 <= op < 0xC0
    ensures Rows8ToB(op) == Block2(op / 8 - 16, op % 8)
  {
  }

  lemma Quarter3Low(op: u8, z: nat)
    requires 0xC0 <= op && z == op % 8 && z < 4
    ensures RowsCToF(op) == Block3(op / 8 - 24, z)
  {
    if z == 0 {} else if z == 1 {} else if z == 2 {} else {}
  }

  lemma Quarter3High(op: u8, z: nat)
    requires 0xC0 <= op && z == op % 8 && z >= 4
    ensures RowsCToF(op) == Block3(op / 8 - 24, z)
  {
    if z == 4 {} else if z == 5 {} else if z == 6 {} else {}
  }

  /** Opcodes the table has an entry for; the others are not instructions. */
  predicate Defined(op: u8) { Decode(op).operand != ErrOperand }

  /** Every entry of the table, missing ones included, is what the octal
      structure of its index calls for. */
  lemma TableIsOctal(op: u8)
    ensures Table(op) == Decode(op)
  {
    hide Rows0To3, Rows4To7, Rows8ToB, RowsCToF, Block0, Block1, Block2, Block3;
    var z := op % 8;
    if op < 0x40 {
      if z == 0 {
        Quarter0Column0(op);
      } else if z < 4 {
        Quarter0Low(op, z);
      } else {
        Quarter0High(op, z);
      }
    } else if op < 0x80 {
      Quarter1(op);
    } else if op < 0xC0 {
      Quarter2(op);
    } else if z < 4 {
      Quarter3Low(op, z);
    } else {
      Quarter3High(op, z);
    }
  }
}
