/**
  The thirteen addressing-mode resolvers.

  Each resolver advances the program counter past the instruction's bytes
  and yields an effective address (0 for the modes that have none). The
  indexed modes and the relative mode also record in `oopsCycle` whether
  the effective address lies on another page than the one the address was
  formed from. The source masks with 0xFF, 0xFF00, 0x7F and tests 0x80;
  on the values involved these are the remainders, quotients and
  comparisons written here.
 */
module Addressing {
  import opened Bits
  import opened Status
  import opened Nes

  /** Mode tags, one per resolver function of the source. */
  datatype Mode = Imp | Acc | Imm | Rel | Abl | Zpa | Ind | Aix | Aiy | Zpx | Zpy | Idx | Idy

  /** What a resolver returns: the updated registers and the effective address. */
  datatype Resolved = Resolved(cpu: Cpu, addr: Addr)

  /** Instruction length in bytes, opcode included, for each addressing mode. */
  function Length(mode: Mode): nat
  {
    match mode
    case Imp => 1
    case Acc => 1
    case Imm => 2
    case Rel => 2
    case Zpa => 2
    case Zpx => 2
    case Zpy => 2
    case Idx => 2
    case Idy => 2
    case Abl => 3
    case Ind => 3
    case Aix => 3
    case Aiy => 3
  }

  /** The modes whose resolver assigns `oopsCycle`. */
  predicate SetsPageFlag(mode: Mode)
  {
    mode == Rel || mode == Aix || mode == Aiy || mode == Idy
  }

  /**
    The branch target as the source computes it: the low seven offset bits
    are added to the next instruction's address, or to that address minus
    128 when the sign bit is set.
   */
  function BranchTarget(next: Addr, off: Byte): (r: Addr)
    ensures off < 0x80 ==> r == Wrap16(next + off)
    ensures off >= 0x80 ==> r == Wrap16(next - (0x100 - off))
  {
    var from := if off >= 0x80 then Wrap16(next - 128) else next;
    WrapShift16(next - 128, off % 0x80);
    Wrap16(from + off % 0x80)
  }

  /** A forward branch: with the sign bit clear the offset is added as it is. */
  lemma ForwardTarget(next: Addr, off: Byte)
    requires off < 0x80
    ensures BranchTarget(next, off) == Wrap16(next + Signed(off))
  {
  }

  /** A backward branch: subtracting 128 and adding the low seven bits adds the negative offset. */
  lemma BackwardTarget(next: Addr, off: Byte)
    requires off >= 0x80
    ensures BranchTarget(next, off) == Wrap16(next + Signed(off))
  {
    WrapShift16(next - 128, off % 0x80);
    assert off % 0x80 == off - 0x80;
  }

  /** The source's sign-and-magnitude branch target is the next address plus the two's-complement offset. */
  lemma SignMagnitude(next: Addr, off: Byte)
    ensures BranchTarget(next, off) == Wrap16(next + Signed(off))
  {
    if off < 0x80 {
      ForwardTarget(next, off);
    } else {
      BackwardTarget(next, off);
    }
  }

  /**
    The source reads operand bytes just behind the advanced program counter;
    those are the bytes just after the instruction's own address.
   */
  lemma Behind(pc: Addr, n: nat, k: nat)
    requires k <= n
    ensures Wrap16(Wrap16(pc + n) - k) == Wrap16(pc + (n - k))
  {
  }

  /** The pointer's second byte as the indirect jump finds it: the low byte steps without carry. */
  lemma NextInPage(hi: Byte, lo: Byte)
    ensures (if lo == 0xFF then Page(Word(hi, lo)) else Wrap16(Word(hi, lo) + 1)) == Word(hi, Wrap8(lo + 1))
  {
  }

  /** The 16-bit base address an absolute-indexed instruction indexes from. */
  function AbsoluteBase(s: Cpu, mem: Memory): Addr
  {
    Word(mem(Wrap16(s.pc + 2)), mem(Wrap16(s.pc + 1)))
  }

  /** The pointer an indirect-indexed instruction finds in page zero. */
  function ZeroPagePointer(s: Cpu, mem: Memory): Addr
  {
    var zp := mem(Wrap16(s.pc + 1));
    Word(mem(Wrap8(zp + 1)), mem(zp))
  }

  /**
    Adding a byte index to a 16-bit base: the source's test for a carry out
    of the low byte is a change of the high byte.
   */
  lemma IndexedCarry(hi: Byte, lo: Byte, index: Byte)
    ensures ((lo + index) / 0x100 != 0) == (Hi(Wrap16(Word(hi, lo) + index)) != hi)
  {
    var sum := Word(hi, lo) + index;
    if lo + index < 0x100 {
      assert sum == hi * 0x100 + (lo + index);
    } else if hi < 0xFF {
      assert sum == (hi + 1) * 0x100 + (lo + index - 0x100);
    } else {
      assert Wrap16(sum) == lo + index - 0x100;
    }
  }

  /** Implied: the opcode alone; no address. */
  function Implied(s: Cpu): (r: Resolved)
    ensures r.cpu == s.(pc := Wrap16(s.pc + 1)) && r.addr == 0
  {
    Resolved(s.(pc := Wrap16(s.pc + 1)), 0x00)
  }

  /** Accumulator: like Implied; the handler operates on A. */
  function Accumulator(s: Cpu): (r: Resolved)
    ensures r.cpu == s.(pc := Wrap16(s.pc + 1)) && r.addr == 0
  {
    Resolved(s.(pc := Wrap16(s.pc + 1)), 0x00)
  }

  /** Immediate: the operand is the byte after the opcode, so its address is returned. */
  function Immediate(s: Cpu): (r: Resolved)
    ensures r.cpu == s.(pc := Wrap16(s.pc + 2))
    ensures r.addr == Wrap16(s.pc + 1)
  {
    var pc := Wrap16(s.pc + 2);
    Resolved(s.(pc := pc), Wrap16(pc - 1))
  }

  /**
    Relative: the target is the next instruction's address plus the signed
    offset byte; the page flag records whether the target lies on another
    page than the next instruction.
   */
  function Relative(s: Cpu, mem: Memory): (r: Resolved)
    ensures r.addr == Wrap16(Wrap16(s.pc + 2) + Signed(mem(Wrap16(s.pc + 1))))
    ensures r.cpu.oopsCycle == (if Hi(r.addr) != Hi(Wrap16(s.pc + 2)) then 1 else 0)
    ensures r.cpu == s.(pc := Wrap16(s.pc + 2), oopsCycle := r.cpu.oopsCycle)
  {
    var pc := Wrap16(s.pc + 2);
    var off := mem(Wrap16(pc - 1));
    var dest := BranchTarget(pc, off);
    SignMagnitude(pc, off);
    Resolved(s.(pc := pc, oopsCycle := if Page(dest) != Page(pc) then 1 else 0), dest)
  }

  /** Absolute: the two bytes after the opcode, low byte first. */
  function Absolute(s: Cpu, mem: Memory): (r: Resolved)
    ensures r.cpu == s.(pc := Wrap16(s.pc + 3))
    ensures Lo(r.addr) == mem(Wrap16(s.pc + 1)) && Hi(r.addr) == mem(Wrap16(s.pc + 2))
  {
    var pc := Wrap16(s.pc + 3);
    var lo := mem(Wrap16(pc - 2));
    var hi := mem(Wrap16(pc - 1));
    Resolved(s.(pc := pc), Word(hi, lo))
  }

  /** Zero page: one operand byte, high byte of the address zero. */
  function ZeroPage(s: Cpu, mem: Memory): (r: Resolved)
    ensures r.cpu == s.(pc := Wrap16(s.pc + 2))
    ensures Hi(r.addr) == 0 && Lo(r.addr) == mem(Wrap16(s.pc + 1))
  {
    var pc := Wrap16(s.pc + 2);
    Resolved(s.(pc := pc), mem(Wrap16(pc - 1)))
  }

  /**
    Indirect (JMP only): the operand is a pointer to the target. The pointer's
    second byte is read with the low byte incremented WITHOUT carry into the
    high byte: for a pointer ending in 0xFF the high byte of the target comes
    from the start of the same page (the historical page-wrap quirk).
   */
  function Indirect(s: Cpu, mem: Memory): (r: Resolved)
    ensures r.cpu == s.(pc := Wrap16(s.pc + 3))
    ensures var ptr := Word(mem(Wrap16(s.pc + 2)), mem(Wrap16(s.pc + 1)));
      Lo(r.addr) == mem(ptr) && Hi(r.addr) == mem(Word(Hi(ptr), Wrap8(Lo(ptr) + 1)))
  {
    var pc := Wrap16(s.pc + 3);
    var lo := mem(Wrap16(pc - 2));
    var hi := mem(Wrap16(pc - 1));
    var ptr := Word(hi, lo);
    Behind(s.pc, 3, 2);
    Behind(s.pc, 3, 1);
    NextInPage(hi, lo);
    var target :=
      if lo == 0xFF then Word(mem(Page(ptr)), mem(ptr))
      else Word(mem(Wrap16(ptr + 1)), mem(ptr));
    Resolved(s.(pc := pc), target)
  }

  /**
    Absolute indexed (`aix` with X, `aiy` with Y): the absolute address plus the
    index, wrapping in 16 bits. The page flag is the carry out of the low byte.
   */
  function AbsoluteIndexed(s: Cpu, mem: Memory, index: Byte): (r: Resolved)
    ensures r.cpu == s.(pc := Wrap16(s.pc + 3), oopsCycle := r.cpu.oopsCycle)
    ensures var base := AbsoluteBase(s, mem);
      && r.addr == Wrap16(base + index)
      && r.cpu.oopsCycle == (if Hi(r.addr) != Hi(base) then 1 else 0)
  {
    var pc := Wrap16(s.pc + 3);
    var lo := mem(Wrap16(pc - 2));
    var hi := mem(Wrap16(pc - 1));
    var oops := if (lo + index) / 0x100 != 0 then 1 else 0;
    Behind(s.pc, 3, 2);
    Behind(s.pc, 3, 1);
    IndexedCarry(hi, lo, index);
    Resolved(s.(pc := pc, oopsCycle := oops), Wrap16(Word(hi, lo) + index))
  }

  /** Zero page indexed (`zpx`, `zpy`): the operand byte plus the index, wrapping inside page zero. */
  function ZeroPageIndexed(s: Cpu, mem: Memory, index: Byte): (r: Resolved)
    ensures r.cpu == s.(pc := Wrap16(s.pc + 2))
    ensures Hi(r.addr) == 0 && r.addr == Wrap8(mem(Wrap16(s.pc + 1)) + index)
  {
    var pc := Wrap16(s.pc + 2);
    Resolved(s.(pc := pc), (mem(Wrap16(pc - 1)) + index) % 0x100)
  }

  /** Indexed indirect `(zp,X)`: both pointer bytes are read inside page zero. */
  function IndexedIndirect(s: Cpu, mem: Memory): (r: Resolved)
    ensures r.cpu == s.(pc := Wrap16(s.pc + 2))
    ensures var ptr := Wrap8(mem(Wrap16(s.pc + 1)) + s.x);
      Lo(r.addr) == mem(ptr) && Hi(r.addr) == mem(Wrap8(ptr + 1))
  {
    var pc := Wrap16(s.pc + 2);
    var zp := mem(Wrap16(pc - 1));
    var lo := mem((zp + s.x) % 0x100);
    Resolved(s.(pc := pc), Word(mem((zp + s.x + 1) % 0x100), lo))
  }

  /**
    Indirect indexed `(zp),Y`: the zero-page pointer (both bytes inside page
    zero) plus Y, wrapping in 16 bits; the page flag records a carry into the
    pointer's high byte.
   */
  function IndirectIndexed(s: Cpu, mem: Memory): (r: Resolved)
    ensures r.cpu == s.(pc := Wrap16(s.pc + 2), oopsCycle := r.cpu.oopsCycle)
    ensures var base := ZeroPagePointer(s, mem);
      && r.addr == Wrap16(base + s.y)
      && r.cpu.oopsCycle == (if Hi(r.addr) != Hi(base) then 1 else 0)
  {
    var pc := Wrap16(s.pc + 2);
    var zp := mem(Wrap16(pc - 1));
    var high := mem((zp + 1) % 0x100) * 0x100;
    var operand := Wrap16(mem(zp) + s.y);
    var addr := Wrap16(operand + high);
    Behind(s.pc, 2, 1);
    PointerCarry(mem((zp + 1) % 0x100), mem(zp), s.y);
    Resolved(s.(pc := pc, oopsCycle := if high != Page(addr) then 1 else 0), addr)
  }

  /**
    The source adds Y to the pointer's low byte first and the high byte
    after; that is the 16-bit pointer plus Y, and the high byte changes
    exactly when the sum leaves the pointer's page.
   */
  lemma PointerCarry(hi: Byte, lo: Byte, index: Byte)
    ensures var addr := Wrap16(Wrap16(lo + index) + hi * 0x100);
      && addr == Wrap16(Word(hi, lo) + index)
      && ((hi * 0x100 != Page(addr)) == (Hi(addr) != hi))
  {
  }

  /** The instruction's indexed or branch target lies on another page than the address it was formed from. */
  predicate Crossed(mode: Mode, s: Cpu, mem: Memory)
  {
    match mode
    case Aix => Hi(Wrap16(AbsoluteBase(s, mem) + s.x)) != Hi(AbsoluteBase(s, mem))
    case Aiy => Hi(Wrap16(AbsoluteBase(s, mem) + s.y)) != Hi(AbsoluteBase(s, mem))
    case Idy => Hi(Wrap16(ZeroPagePointer(s, mem) + s.y)) != Hi(ZeroPagePointer(s, mem))
    case Rel => Hi(Wrap16(Wrap16(s.pc + 2) + Signed(mem(Wrap16(s.pc + 1))))) != Hi(Wrap16(s.pc + 2))
    case _ => false
  }

  /** Run the resolver a mode tag stands for: the program counter moves past the instruction and only the page flag may change besides. */
  function Resolve(mode: Mode, s: Cpu, mem: Memory): (r: Resolved)
    ensures r.cpu == s.(pc := Wrap16(s.pc + Length(mode)), oopsCycle := r.cpu.oopsCycle)
  {
    match mode
    case Imp => Implied(s)
    case Acc => Accumulator(s)
    case Imm => Immediate(s)
    case Rel => Relative(s, mem)
    case Abl => Absolute(s, mem)
    case Zpa => ZeroPage(s, mem)
    case Ind => Indirect(s, mem)
    case Aix => AbsoluteIndexed(s, mem, s.x)
    case Aiy => AbsoluteIndexed(s, mem, s.y)
    case Zpx => ZeroPageIndexed(s, mem, s.x)
    case Zpy => ZeroPageIndexed(s, mem, s.y)
    case Idx => IndexedIndirect(s, mem)
    case Idy => IndirectIndexed(s, mem)
  }

  /** The four page-flag modes set it to 1 exactly when the address crosses a page; the others leave it alone. */
  lemma ResolvePageFlag(mode: Mode, s: Cpu, mem: Memory)
    ensures SetsPageFlag(mode) ==> Resolve(mode, s, mem).cpu.oopsCycle == (if Crossed(mode, s, mem) then 1 else 0)
    ensures !SetsPageFlag(mode) ==> Resolve(mode, s, mem).cpu.oopsCycle == s.oopsCycle
  {
  }

  /** The example of the indirect-jump quirk: pointer 0x30FF takes its high byte from 0x3000, not 0x3100. */
  lemma IndirectPageWrapExample(s: Cpu, mem: Memory)
    requires mem(Wrap16(s.pc + 1)) == 0xFF && mem(Wrap16(s.pc + 2)) == 0x30
    requires mem(0x30FF) == 0x40 && mem(0x3000) == 0x80 && mem(0x3100) == 0x50
    ensures Indirect(s, mem).addr == 0x8040
  {
  }
}
