/**
  The machine state the interpreter reads and mutates: the register record
  (`struct NES`) and the 64 KiB bus it reads and writes.

  A, X, Y and the stack pointer are bytes and the program counter is a
  16-bit word, so every increment and decrement of them wraps. The two
  transient cycle counters are C `int`s.
 */
module Nes {
  import opened Bits
  import opened Status

  /** The bus as the interpreter sees it: a total map from addresses to bytes, read without side effects. */
  type Memory = Addr -> Byte

  /** A bus write: the written address now holds `v`, every other address is unchanged. */
  function Write(mem: Memory, addr: Addr, v: Byte): (r: Memory)
    ensures r(addr) == v
    ensures forall a :: a != addr ==> r(a) == mem(a)
  {
    a => if a == addr then v else mem(a)
  }

  /** The register record. `branchCycle` and `oopsCycle` carry per-instruction cycle penalties. */
  datatype Cpu = Cpu(
    a: Byte,
    x: Byte,
    y: Byte,
    sp: Byte,
    pc: Addr,
    p: Flags,
    branchCycle: int,
    oopsCycle: int)

  /** The registers together with the bus contents. */
  datatype State = State(cpu: Cpu, mem: Memory)

  /** A state between two instructions: both cycle penalties have been consumed. */
  predicate Quiescent(s: Cpu)
  {
    s.branchCycle == 0 && s.oopsCycle == 0
  }

  /** The register record as the console's entry point creates it: every field zero. */
  const PowerOn: Cpu := Cpu(0, 0, 0, 0, 0, Flags(false, false, false, false, false, false, false, false), 0, 0)

  /**
    The zero record has both cycle counters clear, its status byte reads 0
    (so U is 0, unlike the processor's reset state), and its first push
    lands at 0x0100.
   */
  lemma PowerOnZero()
    ensures Quiescent(PowerOn)
    ensures Pack(PowerOn.p) == 0
    ensures StackAddress(PowerOn.sp) == 0x0100
  {
    PackUnpack(0);
    assert Unpack(0) == PowerOn.p;
  }

  /** The sign bit of a byte (`v & 0x80`). */
  predicate Negative(v: Byte)
  {
    Bit(v, 7)
  }

  /** Recompute N and Z from a byte result, leaving the other flags alone. */
  function WithNZ(p: Flags, v: Byte): (q: Flags)
    ensures q.n == (v >= 0x80) && q.z == (v == 0)
    ensures q.(n := p.n, z := p.z) == p
  {
    SignBit(v);
    p.(n := Negative(v), z := v == 0)
  }

  /** The stack lives in page one: address `0x0100 + sp`. */
  function StackAddress(sp: Byte): (addr: Addr)
    ensures Hi(addr) == 0x01 && Lo(addr) == sp
  {
    0x0100 + sp
  }

  /** Write a byte at the stack pointer, then move the stack pointer down (wrapping in the page). */
  function Push(s: State, v: Byte): (r: State)
    ensures r.cpu == s.cpu.(sp := Wrap8(s.cpu.sp - 1))
    ensures r.mem(StackAddress(s.cpu.sp)) == v
    ensures forall a :: a != StackAddress(s.cpu.sp) ==> r.mem(a) == s.mem(a)
  {
    State(s.cpu.(sp := Wrap8(s.cpu.sp - 1)), Write(s.mem, StackAddress(s.cpu.sp), v))
  }

  /** Move the stack pointer up (wrapping in the page) and read the byte it then designates. */
  function Pull(s: Cpu, mem: Memory): (r: (Cpu, Byte))
    ensures r.0 == s.(sp := Wrap8(s.sp + 1))
    ensures r.1 == mem(StackAddress(r.0.sp))
  {
    var sp := Wrap8(s.sp + 1);
    (s.(sp := sp), mem(StackAddress(sp)))
  }

  /** Three consecutive stack slots below `sp` are distinct, and moving down twice or three times wraps in the page. */
  lemma StackSlots(sp: Byte)
    ensures Wrap8(Wrap8(sp - 1) - 1) == Wrap8(sp - 2)
    ensures Wrap8(Wrap8(sp - 2) - 1) == Wrap8(sp - 3)
    ensures StackAddress(sp) != StackAddress(Wrap8(sp - 1))
    ensures StackAddress(sp) != StackAddress(Wrap8(sp - 2))
    ensures StackAddress(Wrap8(sp - 1)) != StackAddress(Wrap8(sp - 2))
  {
  }

  /** Two pushes in a row: the bytes land in the two slots from `sp` down, and no other address changes. */
  function PushTwo(s: State, first: Byte, second: Byte): (r: State)
    ensures r.cpu == s.cpu.(sp := Wrap8(s.cpu.sp - 2))
    ensures r.mem(StackAddress(s.cpu.sp)) == first
    ensures r.mem(StackAddress(Wrap8(s.cpu.sp - 1))) == second
    ensures forall a :: a != StackAddress(s.cpu.sp) && a != StackAddress(Wrap8(s.cpu.sp - 1)) ==> r.mem(a) == s.mem(a)
  {
    StackSlots(s.cpu.sp);
    Push(Push(s, first), second)
  }

  /** Three pushes in a row: the bytes land in the three slots from `sp` down, and no other address changes. */
  function PushThree(s: State, first: Byte, second: Byte, third: Byte): (r: State)
    ensures r.cpu == s.cpu.(sp := Wrap8(s.cpu.sp - 3))
    ensures r.mem(StackAddress(s.cpu.sp)) == first
    ensures r.mem(StackAddress(Wrap8(s.cpu.sp - 1))) == second
    ensures r.mem(StackAddress(Wrap8(s.cpu.sp - 2))) == third
    ensures forall a :: a != StackAddress(s.cpu.sp) && a != StackAddress(Wrap8(s.cpu.sp - 1)) && a != StackAddress(Wrap8(s.cpu.sp - 2)) ==> r.mem(a) == s.mem(a)
  {
    StackSlots(s.cpu.sp);
    Push(Push(Push(s, first), second), third)
  }

  /** A pushed byte is the next one pulled, and the stack pointer is back where it started. */
  lemma PushPull(s: State, v: Byte)
    ensures var r := Push(s, v); Pull(r.cpu, r.mem) == (s.cpu, v)
  {
  }
}
