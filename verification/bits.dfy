/**
  Bytes, 16-bit words and the bitwise operators the interpreter applies to
  them.

  Registers and bus values are C `uint8_t`/`uint16_t`; here they are bounded
  integers, so every place where C arithmetic wraps is written out with
  `Wrap8`/`Wrap16`. The bitwise operators are defined one bit at a time on
  natural numbers and related to the single-bit view `Bit`.
 */
module Bits {

  /** An unsigned 8-bit value. */
  type Byte = x: int | 0 <= x < 0x100

  /** An unsigned 16-bit value: addresses and the program counter. */
  type Addr = x: int | 0 <= x < 0x1_0000

  /** Truncation to `uint8_t`, as a C assignment of an `int` to a byte performs it. */
  function Wrap8(v: int): (r: Byte)
    ensures 0 <= v < 0x100 ==> r == v
  {
    v % 0x100
  }

  /** Truncation to `uint16_t`. */
  function Wrap16(v: int): (r: Addr)
    ensures 0 <= v < 0x1_0000 ==> r == v
  {
    v % 0x1_0000
  }

  /** Truncating an intermediate result does not change a later truncation. */
  lemma WrapShift8(v: int, j: int)
    ensures Wrap8(Wrap8(v) + j) == Wrap8(v + j)
  {
  }

  lemma WrapShift16(v: int, j: int)
    ensures Wrap16(Wrap16(v) + j) == Wrap16(v + j)
  {
  }

  /** 2 to the power `k`. */
  function Pow2(k: nat): (r: nat)
    ensures r >= 1
  {
    if k == 0 then 1 else 2 * Pow2(k - 1)
  }

  /** Bit `k` of `v`, counting from the least significant bit. */
  function Bit(v: nat, k: nat): bool
  {
    if k == 0 then v % 2 == 1 else Bit(v / 2, k - 1)
  }

  /** The contribution of one bit to a number: 1 if set, 0 if clear. */
  function Digit(b: bool): (r: nat)
    ensures r < 2
  {
    if b then 1 else 0
  }

  /** Bitwise AND (C `&`). */
  function And(a: nat, b: nat): (r: nat)
    ensures r <= a && r <= b
    decreases a
  {
    if a == 0 || b == 0 then 0
    else 2 * And(a / 2, b / 2) + Digit(a % 2 == 1 && b % 2 == 1)
  }

  /** Bitwise inclusive OR (C `|`). */
  function Or(a: nat, b: nat): (r: nat)
    ensures a <= r <= a + b && b <= r
    decreases a + b
  {
    if a == 0 then b
    else if b == 0 then a
    else 2 * Or(a / 2, b / 2) + Digit(a % 2 == 1 || b % 2 == 1)
  }

  /** Bitwise exclusive OR (C `^`). */
  function Xor(a: nat, b: nat): (r: nat)
    ensures r <= a + b
    decreases a + b
  {
    if a == 0 then b
    else if b == 0 then a
    else 2 * Xor(a / 2, b / 2) + Digit((a % 2 == 1) != (b % 2 == 1))
  }

  /** Splitting off the lowest bit: the remaining bits are the bits of `v / 2`. */
  lemma BitOfHalf(v: nat, k: nat)
    ensures Bit(v, k + 1) == Bit(v / 2, k)
  {
  }

  /** A number whose bits are all clear is zero. */
  lemma BitOfZero(k: nat)
    ensures !Bit(0, k)
  {
  }

  /** AND sets exactly the bits set in both operands. */
  lemma {:induction false} AndBit(a: nat, b: nat, k: nat)
    ensures Bit(And(a, b), k) == (Bit(a, k) && Bit(b, k))
    decreases k
  {
    if a == 0 || b == 0 {
      BitOfZero(k);
    } else if k > 0 {
      AndBit(a / 2, b / 2, k - 1);
    }
  }

  /** OR sets exactly the bits set in either operand. */
  lemma {:induction false} OrBit(a: nat, b: nat, k: nat)
    ensures Bit(Or(a, b), k) == (Bit(a, k) || Bit(b, k))
    decreases k
  {
    if a == 0 {
      BitOfZero(k);
    } else if b == 0 {
      BitOfZero(k);
    } else if k > 0 {
      OrBit(a / 2, b / 2, k - 1);
    }
  }

  /** XOR sets exactly the bits in which the operands differ. */
  lemma {:induction false} XorBit(a: nat, b: nat, k: nat)
    ensures Bit(Xor(a, b), k) == (Bit(a, k) != Bit(b, k))
    decreases k
  {
    if a == 0 {
      BitOfZero(k);
    } else if b == 0 {
      BitOfZero(k);
    } else if k > 0 {
      XorBit(a / 2, b / 2, k - 1);
    }
  }

  /** OR and XOR of two numbers below `2^n` stay below `2^n`, so they never leave a byte. */
  lemma {:induction false} OrXorBound(a: nat, b: nat, n: nat)
    requires a < Pow2(n) && b < Pow2(n)
    ensures Or(a, b) < Pow2(n) && Xor(a, b) < Pow2(n)
    decreases n
  {
    if a != 0 && b != 0 && n > 0 {
      OrXorBound(a / 2, b / 2, n - 1);
    }
  }

  /** The byte operators: the bit-wise results of two bytes are bytes. */
  function AndByte(a: Byte, b: Byte): (r: Byte)
    ensures forall k :: Bit(r, k) == (Bit(a, k) && Bit(b, k))
  {
    forall k ensures Bit(And(a, b), k) == (Bit(a, k) && Bit(b, k)) {
      AndBit(a, b, k);
    }
    And(a, b)
  }

  function OrByte(a: Byte, b: Byte): (r: Byte)
    ensures forall k :: Bit(r, k) == (Bit(a, k) || Bit(b, k))
  {
    forall k ensures Bit(Or(a, b), k) == (Bit(a, k) || Bit(b, k)) {
      OrBit(a, b, k);
    }
    OrXorBound(a, b, 8);
    Or(a, b)
  }

  function XorByte(a: Byte, b: Byte): (r: Byte)
    ensures forall k :: Bit(r, k) == (Bit(a, k) != Bit(b, k))
  {
    forall k ensures Bit(Xor(a, b), k) == (Bit(a, k) != Bit(b, k)) {
      XorBit(a, b, k);
    }
    OrXorBound(a, b, 8);
    Xor(a, b)
  }

  /** Bit 7 of a byte is its sign bit: set exactly for the values 0x80 and above. */
  lemma SignBit(v: Byte)
    ensures Bit(v, 7) == (v >= 0x80)
  {
    BitOfHalf(v, 6);
    OverflowBitOf(v / 2);
  }

  /** Bit 6 of a byte is set exactly when its value modulo 0x80 is 0x40 or more. */
  lemma OverflowBit(v: Byte)
    ensures Bit(v, 6) == (v % 0x80 >= 0x40)
  {
    OverflowBitOf(v);
  }

  /** Bit 6 of any number is the parity of its quotient by 0x40. */
  lemma OverflowBitOf(v: nat)
    ensures Bit(v, 6) == (v / 0x40 % 2 == 1)
  {
    BitOfHalf(v, 5);
    BitOfHalf(v / 2, 4);
    BitOfHalf(v / 4, 3);
    BitOfHalf(v / 8, 2);
    BitOfHalf(v / 16, 1);
    BitOfHalf(v / 32, 0);
  }

  /** The number whose bits, least significant first, are `bs`. */
  function FromBits(bs: seq<bool>): nat
  {
    if |bs| == 0 then 0 else Digit(bs[0]) + 2 * FromBits(bs[1..])
  }

  /** A sequence of `n` bits denotes a number below `2^n`. */
  lemma {:induction false} FromBitsBound(bs: seq<bool>)
    ensures FromBits(bs) < Pow2(|bs|)
    decreases |bs|
  {
    if |bs| > 0 {
      FromBitsBound(bs[1..]);
    }
  }

  /** The lowest `n` bits of `v`, least significant first. */
  function ToBits(v: nat, n: nat): (bs: seq<bool>)
    ensures |bs| == n
  {
    if n == 0 then [] else [v % 2 == 1] + ToBits(v / 2, n - 1)
  }

  /** Bit `k` of `FromBits(bs)` is `bs[k]`, and clear beyond the sequence. */
  lemma {:induction false} FromBitsBit(bs: seq<bool>, k: nat)
    ensures Bit(FromBits(bs), k) == (k < |bs| && bs[k])
    decreases |bs|
  {
    if |bs| == 0 {
      BitOfZero(k);
    } else if k > 0 {
      FromBitsBit(bs[1..], k - 1);
    }
  }

  /** `ToBits` lists the bits `Bit` reads. */
  lemma {:induction false} ToBitsBit(v: nat, n: nat, k: nat)
    requires k < n
    ensures ToBits(v, n)[k] == Bit(v, k)
    decreases n
  {
    if k > 0 {
      ToBitsBit(v / 2, n - 1, k - 1);
    }
  }

  /** Reassembling the lowest `n` bits of a number below `2^n` gives the number back. */
  lemma {:induction false} FromToBits(v: nat, n: nat)
    requires v < Pow2(n)
    ensures FromBits(ToBits(v, n)) == v
    decreases n
  {
    if n > 0 {
      FromToBits(v / 2, n - 1);
      assert ToBits(v, n)[1..] == ToBits(v / 2, n - 1);
    }
  }

  /** The low byte of a word. */
  function Lo(w: Addr): Byte
  {
    w % 0x100
  }

  /** The high byte of a word. */
  function Hi(w: Addr): Byte
  {
    w / 0x100
  }

  /** The word with the given high and low bytes (`hi << 8 | lo` in the source). */
  function Word(hi: Byte, lo: Byte): (w: Addr)
    ensures Hi(w) == hi && Lo(w) == lo
  {
    hi * 0x100 + lo
  }

  /** A word is determined by its two bytes. */
  lemma WordOfBytes(w: Addr)
    ensures Word(Hi(w), Lo(w)) == w
  {
  }

  /** The 256-byte page holding a word (`w & 0xFF00`). */
  function Page(w: Addr): (r: Addr)
    ensures Lo(r) == 0 && Hi(r) == Hi(w)
  {
    Hi(w) * 0x100
  }

  /** A byte read as a two's-complement number. */
  function Signed(v: Byte): (r: int)
    ensures -0x80 <= r < 0x80
    ensures Wrap8(r) == v
  {
    if v < 0x80 then v else v - 0x100
  }
}
