/** Fixed-width unsigned integers of the emulator and the bit operations it
    applies to them.  Values are mathematical integers in range; every place
    where C wraps or truncates says so with `%`. */
module Words {
  type u8 = x: int | 0 <= x < 0x100
  type u16 = x: int | 0 <= x < 0x10000
  type u32 = x: int | 0 <= x < 0x1_0000_0000
  type BitIndex = k: int | 0 <= k < 8

  datatype Option<+T> = None | Some(value: T)

  /** `1 << k`. */
  function Pow2(k: nat): (w: nat)
    ensures w > 0
  {
    if k == 0 then 1 else 2 * Pow2(k - 1)
  }

  /** `(x >> k) & 1`. */
  predicate Bit(x: nat, k: nat)
    decreases k
  {
    if k == 0 then x % 2 == 1 else Bit(x / 2, k - 1)
  }

  /** The top bit of a number below twice its weight tells whether it carries. */
  lemma {:induction false} TopBit(x: nat, k: nat)
    requires x < 2 * Pow2(k)
    ensures Bit(x, k) <==> x >= Pow2(k)
  {
    if k > 0 {
      TopBit(x / 2, k - 1);
    }
  }

  /** On an n-bit word: `x | (1 << k)` when v holds, `x & ~(1 << k)` otherwise. */
  function PutBit(n: nat, x: nat, k: nat, v: bool): (r: nat)
    requires k < n && x < Pow2(n)
    ensures r < Pow2(n)
    decreases k
  {
    if k == 0 then x / 2 * 2 + (if v then 1 else 0) else x % 2 + 2 * PutBit(n - 1, x / 2, k - 1, v)
  }

  function WithBit(x: u8, k: BitIndex, v: bool): u8 {
    PutBit(8, x, k, v)
  }

  lemma {:induction false} BitOfPutBit(n: nat, x: nat, k: nat, v: bool, j: nat)
    requires k < n && x < Pow2(n)
    ensures Bit(PutBit(n, x, k, v), j) == if j == k then v else Bit(x, j)
  {
    if k > 0 {
      var y := PutBit(n - 1, x / 2, k - 1, v);
      assert (x % 2 + 2 * y) / 2 == y && (x % 2 + 2 * y) % 2 == x % 2;
      if j > 0 {
        BitOfPutBit(n - 1, x / 2, k - 1, v, j - 1);
      }
    } else {
      var y := PutBit(n, x, k, v);
      assert y / 2 == x / 2 && (y % 2 == 1) == v;
    }
  }

  lemma {:induction false} PutBitNoop(n: nat, x: nat, k: nat)
    requires k < n && x < Pow2(n)
    ensures PutBit(n, x, k, Bit(x, k)) == x
  {
    if k > 0 {
      PutBitNoop(n - 1, x / 2, k - 1);
    }
  }

  /** Setting or clearing a bit adds or removes its weight. */
  lemma {:induction false} PutBitWeight(n: nat, x: nat, k: nat, v: bool)
    requires k < n && x < Pow2(n)
    ensures PutBit(n, x, k, v) == x + (if v then Pow2(k) else 0) - (if Bit(x, k) then Pow2(k) else 0)
  {
    if k > 0 {
      PutBitWeight(n - 1, x / 2, k - 1, v);
    }
  }

  /** Setting one bit sets that bit and leaves the other seven alone. */
  lemma BitOfWithBit(x: u8, k: BitIndex, v: bool)
    ensures forall j: nat :: Bit(WithBit(x, k, v), j) == if j == k then v else Bit(x, j)
  {
    forall j: nat {
      BitOfPutBit(8, x, k, v, j);
    }
  }

  /** Setting a bit again changes nothing. */
  lemma WithBitTwice(x: u8, k: BitIndex)
    ensures WithBit(WithBit(x, k, true), k, true) == WithBit(x, k, true)
  {
    BitOfPutBit(8, x, k, true, k);
    PutBitNoop(8, WithBit(x, k, true), k);
  }

  /** The number whose bits, least significant first, are b. */
  function FromBits(b: seq<bool>): (x: nat)
    ensures x < Pow2(|b|)
    decreases |b|
  {
    if b == [] then 0 else (if b[0] then 1 else 0) + 2 * FromBits(b[1..])
  }

  lemma {:induction false} BitOfFromBits(b: seq<bool>, j: nat)
    requires j < |b|
    ensures Bit(FromBits(b), j) == b[j]
  {
    var h, t := if b[0] then 1 else 0, FromBits(b[1..]);
    assert (h + 2 * t) / 2 == t && (h + 2 * t) % 2 == h;
    if j > 0 {
      BitOfFromBits(b[1..], j - 1);
    }
  }

  /** A bit-by-bit combination of two bytes: `&`, `|` and `^` are instances. */
  function Bitwise(x: u8, y: u8, op: (bool, bool) -> bool): u8 {
    assert Pow2(8) == 0x100;
    FromBits(seq(8, k requires 0 <= k < 8 => op(Bit(x, k), Bit(y, k))))
  }

  lemma BitOfBitwise(x: u8, y: u8, op: (bool, bool) -> bool, j: BitIndex)
    ensures Bit(Bitwise(x, y, op), j) == op(Bit(x, j), Bit(y, j))
  {
    BitOfFromBits(seq(8, k requires 0 <= k < 8 => op(Bit(x, k), Bit(y, k))), j);
  }

  function And8(x: u8, y: u8): u8 { Bitwise(x, y, (p, q) => p && q) }
  function Or8(x: u8, y: u8): u8 { Bitwise(x, y, (p, q) => p || q) }
  function Xor8(x: u8, y: u8): u8 { Bitwise(x, y, (p, q) => p != q) }

  /** `x & ~0xF`. */
  function DropNibble(x: nat): (y: nat)
    ensures y <= x
  {
    x - x % 0x10
  }

  /** `MSB` and `LSB` of a 16-bit word, and the word they make up. */
  function Msb(w: u16): u8 { w / 0x100 }
  function Lsb(w: u16): u8 { w % 0x100 }
  function Word(hi: u8, lo: u8): u16 { hi * 0x100 + lo }

  /** The value of a byte read as `i8`. */
  function Signed(x: u8): int { if x < 0x80 then x else x - 0x100 }
}
