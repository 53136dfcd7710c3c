/**
  The byte arithmetic inside the handlers: add with carry (ADC, and SBC on
  the complemented operand), compare, and the four shifts and rotates.

  Each function follows the handler's own steps (which bits it tests, what
  it assigns in which order) and its contract states the arithmetic meaning
  of the result: a sum with carry out, a difference with borrow, a doubled or
  halved byte with the bit shifted out.
 */
module Alu {
  import opened Bits
  import opened Status

  /** The bits an ALU step produces: a result byte and the four flags it may assign. */
  datatype Outcome = Outcome(value: Byte, c: bool, z: bool, n: bool, v: bool)

  /** The flags after an ALU step: C, Z, N and V from the outcome, the rest as before. */
  function Apply(p: Flags, o: Outcome): (q: Flags)
    ensures q.(c := p.c, z := p.z, n := p.n, v := p.v) == p
    ensures q.c == o.c && q.z == o.z && q.n == o.n && q.v == o.v
  {
    p.(c := o.c, z := o.z, n := o.n, v := o.v)
  }

  /** The signed value range of a byte. */
  predicate FitsSigned(x: int)
  {
    -0x80 <= x < 0x80
  }

  /**
    ADC: `temp = A + m + C` as a 16-bit sum; C is `temp > 0xFF`, Z tests the
    low byte, N is bit 7 of `temp`, V is bit 7 of `~(A ^ m) & (A ^ temp)`
    (the complement flips bit 7, the AND needs both bits), and A receives
    the low byte. The decimal flag is never read.
   */
  function AddWithCarry(a: Byte, m: Byte, carry: bool): (o: Outcome)
    ensures o.value + 0x100 * Digit(o.c) == a + m + Digit(carry)
    ensures o.z == (o.value == 0) && o.n == (o.value >= 0x80)
    ensures o.v == !FitsSigned(Signed(a) + Signed(m) + Digit(carry))
  {
    var temp := a + m + Digit(carry);
    var c := temp > 0xFF;
    var z := temp % 0x100 == 0;
    var n := Bit(temp, 7);
    var v := !Bit(Xor(a, m), 7) && Bit(Xor(a, temp), 7);
    SumBits(a, m, carry);
    CarryOut(temp);
    Outcome(temp % 0x100, c, z, n, v)
  }

  /** A sum below 0x200 is its low byte plus 0x100 when it exceeds 0xFF. */
  lemma CarryOut(t: nat)
    requires t < 0x200
    ensures t % 0x100 + 0x100 * Digit(t > 0xFF) == t
  {
  }

  /** Bit 7 of a sum below 0x200 is the sign bit of its low byte. */
  lemma SumSignBit(t: nat)
    requires t < 0x200
    ensures Bit(t, 7) == (t % 0x100 >= 0x80)
  {
    if t >= 0x100 {
      BitOfHalf(t, 6);
      BitOfHalf(t - 0x100, 6);
      assert (t - 0x100) / 2 == t / 2 - 0x80;
      OverflowBitOf(t / 2);
      OverflowBitOf(t / 2 - 0x80);
    }
    SignBit(t % 0x100);
    if t < 0x100 {
      assert t % 0x100 == t;
    }
  }

  /** The V test of ADC is the signed-overflow condition, and N is the sign of the low byte. */
  lemma SumBits(a: Byte, m: Byte, carry: bool)
    ensures var t := a + m + Digit(carry);
      && Bit(t, 7) == (t % 0x100 >= 0x80)
      && (!Bit(Xor(a, m), 7) && Bit(Xor(a, t), 7)) == !FitsSigned(Signed(a) + Signed(m) + Digit(carry))
  {
    var t := a + m + Digit(carry);
    SumSignBit(t);
    XorBit(a, m, 7);
    XorBit(a, t, 7);
    SignBit(a);
    SignBit(m);
    SignOfSum(a, m, Digit(carry));
  }

  /** Signed overflow happens exactly when both operands have one sign and the low byte of the sum the other. */
  lemma SignOfSum(a: Byte, m: Byte, d: nat)
    requires d < 2
    ensures var t := a + m + d;
      !FitsSigned(Signed(a) + Signed(m) + d) == ((a >= 0x80) == (m >= 0x80) && (a >= 0x80) != (t % 0x100 >= 0x80))
  {
  }

  /** The byte with every bit of `m` flipped: `m ^ 0xFF`. */
  function Complement(m: Byte): (r: Byte)
    ensures r == 0xFF - m
  {
    assert Pow2(8) == 0x100;
    XorAllOnes(m, 8);
    XorByte(m, 0xFF)
  }

  /** XOR with all ones below `2^n` subtracts from all ones. */
  lemma {:induction false} XorAllOnes(a: nat, n: nat)
    requires a < Pow2(n)
    ensures Xor(a, Pow2(n) - 1) == Pow2(n) - 1 - a
    decreases n
  {
    if a != 0 && n > 0 {
      XorAllOnes(a / 2, n - 1);
    }
  }

  /** SBC: ADC of the complemented operand. */
  function SubtractWithBorrow(a: Byte, m: Byte, carry: bool): (o: Outcome)
    ensures o.value == Wrap8(a - m - (1 - Digit(carry)))
    ensures o.c == (a - m - (1 - Digit(carry)) >= 0)
    ensures o.z == (o.value == 0) && o.n == (o.value >= 0x80)
    ensures o.v == !FitsSigned(Signed(a) - Signed(m) - (1 - Digit(carry)))
  {
    var r := AddWithCarry(a, Complement(m), carry);
    assert Signed(Complement(m)) == -1 - Signed(m);
    r
  }

  /** CMP, CPX, CPY: C is `reg >= m`; N and Z come from the wrapped difference. */
  function Compare(reg: Byte, m: Byte): (o: Outcome)
    ensures o.c == (reg >= m)
    ensures o.z == (reg == m)
    ensures o.n == (Wrap8(reg - m) >= 0x80)
    ensures o.value == Wrap8(reg - m)
  {
    var c := reg >= m;
    var diff := Wrap8(reg - m);
    SignBit(diff);
    Outcome(diff, c, diff == 0, Bit(diff, 7), false)
  }

  /** The four shift and rotate instructions. */
  datatype ShiftKind = Asl | Lsr | Rol | Ror

  /**
    One shift step on a byte, as the handler computes it: C from the bit
    shifted out, N and Z from bits of the operand BEFORE shifting (ASL and
    ROL read bit 6, ROR copies the old carry, LSR clears N), the value
    truncated to a byte.
   */
  function Shift(kind: ShiftKind, v: Byte, carry: bool): (o: Outcome)
    ensures kind == Asl ==> o.value + 0x100 * Digit(o.c) == 2 * v
    ensures kind == Rol ==> o.value + 0x100 * Digit(o.c) == 2 * v + Digit(carry)
    ensures kind == Lsr ==> 2 * o.value + Digit(o.c) == v
    ensures kind == Ror ==> 2 * o.value + Digit(o.c) == v + 0x100 * Digit(carry)
    ensures o.n == (o.value >= 0x80) && o.z == (o.value == 0)
  {
    match kind
    case Asl => ShiftLeft(v)
    case Lsr => ShiftRight(v)
    case Rol => RotateLeft(v, carry)
    case Ror => RotateRight(v, carry)
  }

  /** ASL: C from bit 7, N from bit 6, Z from the low seven bits (`& 0x7F`), then `<<= 1`. */
  function ShiftLeft(v: Byte): (o: Outcome)
    ensures o.value + 0x100 * Digit(o.c) == 2 * v
    ensures o.n == (o.value >= 0x80) && o.z == (o.value == 0)
  {
    OverflowBit(v);
    SignBit(v);
    Outcome(Wrap8(2 * v), Bit(v, 7), v % 0x80 == 0, Bit(v, 6), false)
  }

  /** LSR: C from bit 0, N cleared, Z from the upper seven bits (`& 0xFE`), then `>>= 1`. */
  function ShiftRight(v: Byte): (o: Outcome)
    ensures 2 * o.value + Digit(o.c) == v
    ensures o.n == (o.value >= 0x80) && o.z == (o.value == 0)
  {
    Outcome(v / 2, v % 2 == 1, v / 2 == 0, false, false)
  }

  /** ROL: N from bit 6, C from bit 7, then `(v << 1) | carry` truncated; Z from the result. */
  function RotateLeft(v: Byte, carry: bool): (o: Outcome)
    ensures o.value + 0x100 * Digit(o.c) == 2 * v + Digit(carry)
    ensures o.n == (o.value >= 0x80) && o.z == (o.value == 0)
  {
    OverflowBit(v);
    SignBit(v);
    var r := Wrap8(2 * v + Digit(carry));
    Outcome(r, Bit(v, 7), r == 0, Bit(v, 6), false)
  }

  /** ROR: N from the old carry, C from bit 0, then `(v >> 1) | 0x80` when the carry was set; Z from the result. */
  function RotateRight(v: Byte, carry: bool): (o: Outcome)
    ensures 2 * o.value + Digit(o.c) == v + 0x100 * Digit(carry)
    ensures o.n == (o.value >= 0x80) && o.z == (o.value == 0)
  {
    var r := v / 2 + 0x80 * Digit(carry);
    Outcome(r, v % 2 == 1, r == 0, carry, false)
  }

  /** ADC example: 0x50 + 0x50 overflows into the sign bit. */
  lemma AddOverflowExample()
    ensures AddWithCarry(0x50, 0x50, false) == Outcome(0xA0, false, false, true, true)
  {
  }

  /** ADC example: 0xFF + 0x01 carries out and leaves zero. */
  lemma AddCarryExample()
    ensures AddWithCarry(0xFF, 0x01, false) == Outcome(0x00, true, true, false, false)
  {
  }
}
