/**
  The processor status register.

  The source overlays eight one-bit fields on a single byte (a C union of a
  bitfield struct and a `uint8_t`). Handlers assign single flags; PLP and RTI
  load the whole byte from the stack, PHP and BRK store it. This module keeps
  the flags as a record of booleans and gives the byte view through `Pack`
  and `Unpack`, which are inverse to each other.
 */
module Status {
  import opened Bits

  /** The eight flags, in the order the bitfield declares them. */
  datatype Flags = Flags(c: bool, z: bool, i: bool, d: bool, b: bool, u: bool, v: bool, n: bool)

  /** Names for the individual flags, so one assignment can be stated once for all eight. */
  datatype Flag = C | Z | I | D | B | U | V | N

  /** Bit position of each flag in the byte: bitfields allocated least significant bit first. */
  function Position(f: Flag): (k: nat)
    ensures k < 8
  {
    match f
    case C => 0
    case Z => 1
    case I => 2
    case D => 3
    case B => 4
    case U => 5
    case V => 6
    case N => 7
  }

  function Get(p: Flags, f: Flag): bool
  {
    match f
    case C => p.c
    case Z => p.z
    case I => p.i
    case D => p.d
    case B => p.b
    case U => p.u
    case V => p.v
    case N => p.n
  }

  /** Assigning one bitfield member, as `statusRegister.c = 1` does. */
  function Set(p: Flags, f: Flag, value: bool): (q: Flags)
    ensures Get(q, f) == value
    ensures forall g :: g != f ==> Get(q, g) == Get(p, g)
  {
    match f
    case C => p.(c := value)
    case Z => p.(z := value)
    case I => p.(i := value)
    case D => p.(d := value)
    case B => p.(b := value)
    case U => p.(u := value)
    case V => p.(v := value)
    case N => p.(n := value)
  }

  /** The flags in bit order, least significant first. */
  function Sequence(p: Flags): (bs: seq<bool>)
    ensures |bs| == 8
    ensures forall f :: bs[Position(f)] == Get(p, f)
  {
    [p.c, p.z, p.i, p.d, p.b, p.u, p.v, p.n]
  }

  /** Reading the union through its `reg` member. */
  function Pack(p: Flags): Byte
  {
    FromBitsBound(Sequence(p));
    assert Pow2(8) == 0x100;
    FromBits(Sequence(p))
  }

  /** Writing the union through its `reg` member. */
  function Unpack(r: Byte): Flags
  {
    Flags(Bit(r, 0), Bit(r, 1), Bit(r, 2), Bit(r, 3), Bit(r, 4), Bit(r, 5), Bit(r, 6), Bit(r, 7))
  }

  /** Packing puts every flag into its own bit of the byte. */
  lemma PackBits(p: Flags)
    ensures forall f :: Bit(Pack(p), Position(f)) == Get(p, f)
  {
    forall f ensures Bit(Pack(p), Position(f)) == Get(p, f) {
      FromBitsBit(Sequence(p), Position(f));
    }
  }

  /** Storing the flags into the byte and reading them back gives the same flags. */
  lemma UnpackPack(p: Flags)
    ensures Unpack(Pack(p)) == p
  {
    PackBits(p);
    var q := Unpack(Pack(p));
    assert Get(q, C) == Get(p, C) && Get(q, Z) == Get(p, Z) && Get(q, I) == Get(p, I) && Get(q, D) == Get(p, D);
    assert Get(q, B) == Get(p, B) && Get(q, U) == Get(p, U) && Get(q, V) == Get(p, V) && Get(q, N) == Get(p, N);
  }

  /** Loading a byte into the flags and storing it back gives the same byte. */
  lemma PackUnpack(r: Byte)
    ensures Pack(Unpack(r)) == r
  {
    var bs := Sequence(Unpack(r));
    forall k | 0 <= k < 8 ensures bs[k] == ToBits(r, 8)[k] {
      ToBitsBit(r, 8, k);
    }
    assert bs == ToBits(r, 8);
    assert Pow2(8) == 0x100;
    FromToBits(r, 8);
  }

  /** Pack is injective: two flag records with the same byte are equal. */
  lemma PackInjective(p: Flags, q: Flags)
    requires Pack(p) == Pack(q)
    ensures p == q
  {
    UnpackPack(p);
    UnpackPack(q);
  }

  /** Assigning one flag field changes exactly that flag's bit of the byte; every other bit keeps its value. */
  lemma PackSet(p: Flags, f: Flag, value: bool)
    ensures Bit(Pack(Set(p, f, value)), Position(f)) == value
    ensures forall g :: g != f ==> Bit(Pack(Set(p, f, value)), Position(g)) == Bit(Pack(p), Position(g))
  {
    PackBits(p);
    PackBits(Set(p, f, value));
  }
}
