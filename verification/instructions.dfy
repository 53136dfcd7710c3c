/**
  The instruction handlers: one state transformer per handler function of
  the source, over the registers, the flags and the bus.

  A handler receives the addressing-mode tag its table entry names. The
  read-type handlers (loads, logic, ADC, SBC, CMP) add one to `oopsCycle`
  after resolving, so that a page-crossing indexed read leaves it at 2; ASL
  and LSR add one BEFORE resolving, which an indexed resolver then
  overwrites. The flag, transfer, stack and branch handlers ignore the tag
  and run the implied (or relative) resolver themselves, as the source
  does.
 */
module Instructions {
  import opened Bits
  import opened Status
  import opened Nes
  import opened Addressing
  import opened Alu

  /** The handler functions of the source, one tag each; `NUL` is the handler of every undocumented opcode. */
  datatype Op =
    | ADC | AND | ASL | BCC | BCS | BEQ | BIT | BMI | BNE | BPL | BRK | BVC | BVS | CLC | CLD | CLI
    | CLV | CMP | CPX | CPY | DEC | DEX | DEY | EOR | INC | INX | INY | JMP | JSR | LDA | LDX | LDY
    | LSR | NOP | ORA | PHA | PHP | PLA | PLP | ROL | ROR | RTI | RTS | SBC | SEC | SED | SEI | STA
    | STX | STY | TAX | TAY | TSX | TXA | TXS | TYA | NUL

  /** The byte registers a handler can name. */
  datatype Register = A | X | Y | S

  function Value(c: Cpu, reg: Register): Byte
  {
    match reg
    case A => c.a
    case X => c.x
    case Y => c.y
    case S => c.sp
  }

  /** Assign one byte register; nothing else changes. */
  function Assign(c: Cpu, reg: Register, v: Byte): (d: Cpu)
    ensures Value(d, reg) == v
    ensures forall other :: other != reg ==> Value(d, other) == Value(c, other)
    ensures d.(a := c.a, x := c.x, y := c.y, sp := c.sp) == c
  {
    match reg
    case A => c.(a := v)
    case X => c.(x := v)
    case Y => c.(y := v)
    case S => c.(sp := v)
  }

  /** N and Z describe `v`; every other flag is as in `p`. */
  predicate DescribesNZ(q: Flags, p: Flags, v: Byte)
  {
    q.n == (v >= 0x80) && q.z == (v == 0) && q.(n := p.n, z := p.z) == p
  }

  /** The operand a read-type handler fetches: the byte at the resolved address. */
  function Operand(mode: Mode, s: State): Byte
  {
    s.mem(Resolve(mode, s.cpu, s.mem).addr)
  }

  /** The registers after resolving, before the handler's own effect. */
  function Resolved(mode: Mode, s: State): Cpu
  {
    Resolve(mode, s.cpu, s.mem).cpu
  }

  // ---------------------------------------------------------------- bitwise

  /** AND: A keeps the bits set in both A and the operand. */
  function AndAccumulator(mode: Mode, s: State): (r: State)
    ensures r.mem == s.mem
    ensures forall k :: Bit(r.cpu.a, k) == (Bit(s.cpu.a, k) && Bit(Operand(mode, s), k))
    ensures DescribesNZ(r.cpu.p, s.cpu.p, r.cpu.a)
    ensures r.cpu == Resolved(mode, s).(a := r.cpu.a, p := r.cpu.p, oopsCycle := Resolved(mode, s).oopsCycle + 1)
  {
    var c := Resolved(mode, s);
    var v := AndByte(c.a, Operand(mode, s));
    State(c.(a := v, p := WithNZ(c.p, v), oopsCycle := c.oopsCycle + 1), s.mem)
  }

  /** ORA: A gains the bits set in the operand. */
  function OrAccumulator(mode: Mode, s: State): (r: State)
    ensures r.mem == s.mem
    ensures forall k :: Bit(r.cpu.a, k) == (Bit(s.cpu.a, k) || Bit(Operand(mode, s), k))
    ensures DescribesNZ(r.cpu.p, s.cpu.p, r.cpu.a)
    ensures r.cpu == Resolved(mode, s).(a := r.cpu.a, p := r.cpu.p, oopsCycle := Resolved(mode, s).oopsCycle + 1)
  {
    var c := Resolved(mode, s);
    var v := OrByte(c.a, Operand(mode, s));
    State(c.(a := v, p := WithNZ(c.p, v), oopsCycle := c.oopsCycle + 1), s.mem)
  }

  /** EOR: A flips the bits set in the operand. */
  function XorAccumulator(mode: Mode, s: State): (r: State)
    ensures r.mem == s.mem
    ensures forall k :: Bit(r.cpu.a, k) == (Bit(s.cpu.a, k) != Bit(Operand(mode, s), k))
    ensures DescribesNZ(r.cpu.p, s.cpu.p, r.cpu.a)
    ensures r.cpu == Resolved(mode, s).(a := r.cpu.a, p := r.cpu.p, oopsCycle := Resolved(mode, s).oopsCycle + 1)
  {
    var c := Resolved(mode, s);
    var v := XorByte(c.a, Operand(mode, s));
    State(c.(a := v, p := WithNZ(c.p, v), oopsCycle := c.oopsCycle + 1), s.mem)
  }

  // ------------------------------------------------------ shifts and rotates

  /** The flags after a shift: C, N and Z from the step, the rest unchanged. */
  function ShiftFlags(p: Flags, o: Outcome): (q: Flags)
    ensures q.c == o.c && q.n == o.n && q.z == o.z
    ensures q.(c := p.c, n := p.n, z := p.z) == p
  {
    p.(c := o.c, n := o.n, z := o.z)
  }

  /**
    ASL, LSR, ROL, ROR. With the accumulator mode the step applies to A and
    memory is untouched; otherwise it applies to the byte at the resolved
    address, written back there, and A is untouched. ASL and LSR add one to
    `oopsCycle` before resolving.
   */
  function ShiftOp(kind: ShiftKind, mode: Mode, s: State): (r: State)
    ensures var before := if kind == Asl || kind == Lsr then s.cpu.(oopsCycle := s.cpu.oopsCycle + 1) else s.cpu;
      var res := Resolve(mode, before, s.mem);
      var o := Shift(kind, if mode == Acc then s.cpu.a else s.mem(res.addr), s.cpu.p.c);
      && r.cpu.p == ShiftFlags(s.cpu.p, o)
      && (mode == Acc ==> r.mem == s.mem && r.cpu == res.cpu.(a := o.value, p := r.cpu.p))
      && (mode != Acc ==> r.mem == Write(s.mem, res.addr, o.value) && r.cpu == res.cpu.(p := r.cpu.p))
  {
    var before := if kind == Asl || kind == Lsr then s.cpu.(oopsCycle := s.cpu.oopsCycle + 1) else s.cpu;
    var res := Resolve(mode, before, s.mem);
    if mode == Acc then
      var o := Shift(kind, res.cpu.a, res.cpu.p.c);
      State(res.cpu.(a := o.value, p := ShiftFlags(res.cpu.p, o)), s.mem)
    else
      var o := Shift(kind, s.mem(res.addr), s.cpu.p.c);
      State(res.cpu.(p := ShiftFlags(res.cpu.p, o)), Write(s.mem, res.addr, o.value))
  }

  // ---------------------------------------------------------------- branches

  /** The flag test of each branch instruction; false for every other op. */
  predicate Taken(op: Op, p: Flags)
    ensures Taken(op, p) ==> IsBranch(op)
  {
    match op
    case BPL => !p.n
    case BMI => p.n
    case BVC => !p.v
    case BVS => p.v
    case BCC => !p.c
    case BCS => p.c
    case BNE => !p.z
    case BEQ => p.z
    case _ => false
  }

  predicate IsBranch(op: Op)
  {
    match op
    case BPL | BMI | BVC | BVS | BCC | BCS | BNE | BEQ => true
    case _ => false
  }

  /** The eight branches come in four pairs on one flag each; in every pair exactly one is taken. */
  lemma BranchPairs(p: Flags)
    ensures Taken(BPL, p) != Taken(BMI, p) && Taken(BVC, p) != Taken(BVS, p)
    ensures Taken(BCC, p) != Taken(BCS, p) && Taken(BNE, p) != Taken(BEQ, p)
  {
  }

  /**
    A branch: when the condition holds, PC becomes the relative target,
    `branchCycle` becomes 1 and `oopsCycle` is the page flag plus one. When it
    does not hold NOTHING happens, not even the step past the instruction.
   */
  function Branch(taken: bool, s: State): (r: State)
    ensures !taken ==> r == s
    ensures taken ==> (r.mem == s.mem
      && r.cpu == s.cpu.(pc := Wrap16(Wrap16(s.cpu.pc + 2) + Signed(s.mem(Wrap16(s.cpu.pc + 1)))),
                         branchCycle := 1,
                         oopsCycle := (if Crossed(Rel, s.cpu, s.mem) then 1 else 0) + 1))
  {
    if taken then
      var res := Relative(s.cpu, s.mem);
      State(res.cpu.(pc := res.addr, branchCycle := 1, oopsCycle := res.cpu.oopsCycle + 1), s.mem)
    else
      s
  }

  // ------------------------------------------------------------- comparisons

  /** CMP: flags from comparing A with the operand; registers unchanged; `oopsCycle` plus one. */
  function CompareAccumulator(mode: Mode, s: State): (r: State)
    ensures var m := Operand(mode, s);
      && r.cpu.p.c == (s.cpu.a >= m) && r.cpu.p.z == (s.cpu.a == m) && r.cpu.p.n == (Wrap8(s.cpu.a - m) >= 0x80)
    ensures r.cpu.p.(c := s.cpu.p.c, z := s.cpu.p.z, n := s.cpu.p.n) == s.cpu.p
    ensures r.mem == s.mem
    ensures r.cpu == Resolved(mode, s).(p := r.cpu.p, oopsCycle := Resolved(mode, s).oopsCycle + 1)
  {
    var c := Resolved(mode, s);
    var o := Compare(c.a, Operand(mode, s));
    State(c.(p := c.p.(c := o.c, n := o.n, z := o.z), oopsCycle := c.oopsCycle + 1), s.mem)
  }

  /** CPX, CPY: as CMP with X or Y, without touching `oopsCycle`. */
  function CompareIndex(reg: Register, mode: Mode, s: State): (r: State)
    ensures var m := Operand(mode, s); var v := Value(s.cpu, reg);
      && r.cpu.p.c == (v >= m) && r.cpu.p.z == (v == m) && r.cpu.p.n == (Wrap8(v - m) >= 0x80)
    ensures r.cpu.p.(c := s.cpu.p.c, z := s.cpu.p.z, n := s.cpu.p.n) == s.cpu.p
    ensures r.mem == s.mem
    ensures r.cpu == Resolved(mode, s).(p := r.cpu.p)
  {
    var c := Resolved(mode, s);
    var o := Compare(Value(c, reg), Operand(mode, s));
    State(c.(p := c.p.(c := o.c, n := o.n, z := o.z)), s.mem)
  }

  /** BIT: V and N are bits 6 and 7 of the operand; Z tells whether it shares no set bit with A. */
  function BitTest(mode: Mode, s: State): (r: State)
    ensures var m := Operand(mode, s);
      && r.cpu.p.n == (m >= 0x80) && r.cpu.p.v == (m % 0x80 >= 0x40)
      && r.cpu.p.z == (AndByte(m, s.cpu.a) == 0)
    ensures r.cpu.p.(v := s.cpu.p.v, n := s.cpu.p.n, z := s.cpu.p.z) == s.cpu.p
    ensures r.mem == s.mem
    ensures r.cpu == Resolved(mode, s).(p := r.cpu.p)
  {
    var c := Resolved(mode, s);
    var m := Operand(mode, s);
    SignBit(m);
    OverflowBit(m);
    State(c.(p := c.p.(v := Bit(m, 6), n := Bit(m, 7), z := AndByte(m, c.a) == 0)), s.mem)
  }

  // ------------------------------------------------------------------- flags

  /** CLC, CLD, CLI, CLV, SEC, SED, SEI: step past the opcode and assign one flag. */
  function SetFlag(f: Flag, value: bool, s: State): (r: State)
    ensures r.mem == s.mem
    ensures Get(r.cpu.p, f) == value
    ensures forall g :: g != f ==> Get(r.cpu.p, g) == Get(s.cpu.p, g)
    ensures r.cpu == s.cpu.(pc := Wrap16(s.cpu.pc + 1), p := r.cpu.p)
  {
    var c := Implied(s.cpu).cpu;
    State(c.(p := Set(c.p, f, value)), s.mem)
  }

  // ------------------------------------------------------------------- jumps

  /** JMP: PC becomes the resolved address (absolute, or indirect with its page-wrap quirk). */
  function Jump(mode: Mode, s: State): (r: State)
    ensures r.mem == s.mem
    ensures mode == Abl ==> Lo(r.cpu.pc) == s.mem(Wrap16(s.cpu.pc + 1)) && Hi(r.cpu.pc) == s.mem(Wrap16(s.cpu.pc + 2))
    ensures mode == Ind ==> var ptr := AbsoluteBase(s.cpu, s.mem);
      Lo(r.cpu.pc) == s.mem(ptr) && Hi(r.cpu.pc) == s.mem(Word(Hi(ptr), Wrap8(Lo(ptr) + 1)))
    ensures r.cpu == Resolved(mode, s).(pc := r.cpu.pc)
  {
    var res := Resolve(mode, s.cpu, s.mem);
    State(res.cpu.(pc := res.addr), s.mem)
  }

  /**
    JSR: PC is first decremented, its high and then low byte are pushed, and
    only then is the operand resolved, from the decremented PC. The target
    is therefore read one byte early: its low byte is the JSR opcode itself
    and its high byte the operand's low byte, both read after the pushes.
    The handler runs the resolver its table entry names, and the only entry
    naming it (0x20) names the absolute one, which is called here directly.
   */
  function JumpSubroutine(s: State): (r: State)
    ensures r.cpu == s.cpu.(sp := Wrap8(s.cpu.sp - 2), pc := Word(r.mem(Wrap16(s.cpu.pc + 1)), r.mem(s.cpu.pc)))
    ensures var back := Wrap16(s.cpu.pc - 1);
      && r.mem(StackAddress(s.cpu.sp)) == Hi(back)
      && r.mem(StackAddress(Wrap8(s.cpu.sp - 1))) == Lo(back)
      && (forall a :: a != StackAddress(s.cpu.sp) && a != StackAddress(Wrap8(s.cpu.sp - 1)) ==> r.mem(a) == s.mem(a))
  {
    var back := Wrap16(s.cpu.pc - 1);
    var pushed := PushTwo(State(s.cpu.(pc := back), s.mem), Hi(back), Lo(back));
    var res := Absolute(pushed.cpu, pushed.mem);
    assert Wrap16(back + 1) == s.cpu.pc && Wrap16(back + 2) == Wrap16(s.cpu.pc + 1);
    State(res.cpu.(pc := res.addr), pushed.mem)
  }

  /** RTS: pull the low and then the high byte of the return address and continue one past it. */
  function ReturnFromSubroutine(s: State): (r: State)
    ensures var lo := s.mem(StackAddress(Wrap8(s.cpu.sp + 1)));
      var hi := s.mem(StackAddress(Wrap8(s.cpu.sp + 2)));
      r.cpu == s.cpu.(sp := Wrap8(s.cpu.sp + 2), pc := Wrap16(Word(hi, lo) + 1))
    ensures r.mem == s.mem
  {
    var c := Implied(s.cpu).cpu;
    WrapShift8(s.cpu.sp + 1, 1);
    var (c1, lo) := Pull(c, s.mem);
    var (c2, hi) := Pull(c1, s.mem);
    assert c2 == s.cpu.(pc := c.pc, sp := Wrap8(s.cpu.sp + 2));
    State(c2.(pc := Wrap16(Word(hi, lo) + 1)), s.mem)
  }

  /** RTI: pull the status byte, then the low and high byte of PC (no increment); B is cleared and U set. */
  function ReturnFromInterrupt(s: State): (r: State)
    ensures var status := s.mem(StackAddress(Wrap8(s.cpu.sp + 1)));
      var lo := s.mem(StackAddress(Wrap8(s.cpu.sp + 2)));
      var hi := s.mem(StackAddress(Wrap8(s.cpu.sp + 3)));
      && r.cpu.p == Unpack(status).(b := false, u := true)
      && r.cpu == s.cpu.(sp := Wrap8(s.cpu.sp + 3), pc := Word(hi, lo), p := r.cpu.p)
    ensures r.mem == s.mem
  {
    var c := Implied(s.cpu).cpu;
    WrapShift8(s.cpu.sp + 1, 1);
    WrapShift8(s.cpu.sp + 2, 1);
    var (c1, status) := Pull(c, s.mem);
    var (c2, lo) := Pull(c1.(p := Unpack(status)), s.mem);
    var (c3, hi) := Pull(c2, s.mem);
    State(c3.(pc := Word(hi, lo), p := c3.p.(b := false, u := true)), s.mem)
  }

  // -------------------------------------------------------------- arithmetic

  /** ADC: A and C receive the 9-bit sum A + operand + C; V flags signed overflow; `oopsCycle` plus one. */
  function AddToAccumulator(mode: Mode, s: State): (r: State)
    ensures var m := Operand(mode, s);
      && r.cpu.a + 0x100 * Digit(r.cpu.p.c) == s.cpu.a + m + Digit(s.cpu.p.c)
      && r.cpu.p.v == !FitsSigned(Signed(s.cpu.a) + Signed(m) + Digit(s.cpu.p.c))
    ensures r.cpu.p.n == (r.cpu.a >= 0x80) && r.cpu.p.z == (r.cpu.a == 0)
    ensures r.cpu.p.(c := s.cpu.p.c, z := s.cpu.p.z, n := s.cpu.p.n, v := s.cpu.p.v) == s.cpu.p
    ensures r.mem == s.mem
    ensures r.cpu == Resolved(mode, s).(a := r.cpu.a, p := r.cpu.p, oopsCycle := Resolved(mode, s).oopsCycle + 1)
  {
    var c := Resolved(mode, s);
    var o := AddWithCarry(c.a, Operand(mode, s), c.p.c);
    State(c.(a := o.value, p := Apply(c.p, o), oopsCycle := c.oopsCycle + 1), s.mem)
  }

  /** SBC: ADC of the complemented operand, that is A − operand − (1 − C) with C as "no borrow". */
  function SubtractFromAccumulator(mode: Mode, s: State): (r: State)
    ensures var m := Operand(mode, s); var diff := s.cpu.a - m - (1 - Digit(s.cpu.p.c));
      && r.cpu.a == Wrap8(diff) && r.cpu.p.c == (diff >= 0)
      && r.cpu.p.v == !FitsSigned(Signed(s.cpu.a) - Signed(m) - (1 - Digit(s.cpu.p.c)))
    ensures r.cpu.p.n == (r.cpu.a >= 0x80) && r.cpu.p.z == (r.cpu.a == 0)
    ensures r.cpu.p.(c := s.cpu.p.c, z := s.cpu.p.z, n := s.cpu.p.n, v := s.cpu.p.v) == s.cpu.p
    ensures r.mem == s.mem
    ensures r.cpu == Resolved(mode, s).(a := r.cpu.a, p := r.cpu.p, oopsCycle := Resolved(mode, s).oopsCycle + 1)
  {
    var c := Resolved(mode, s);
    var o := SubtractWithBorrow(c.a, Operand(mode, s), c.p.c);
    State(c.(a := o.value, p := Apply(c.p, o), oopsCycle := c.oopsCycle + 1), s.mem)
  }

  // ---------------------------------------------------- loads, stores, steps

  /** LDA, LDX, LDY: the register receives the operand; N, Z from it; `oopsCycle` plus one. */
  function Load(reg: Register, mode: Mode, s: State): (r: State)
    ensures Value(r.cpu, reg) == Operand(mode, s)
    ensures DescribesNZ(r.cpu.p, s.cpu.p, Operand(mode, s))
    ensures r.mem == s.mem
    ensures r.cpu == Assign(Resolved(mode, s), reg, Value(r.cpu, reg)).(p := r.cpu.p, oopsCycle := Resolved(mode, s).oopsCycle + 1)
  {
    var c := Resolved(mode, s);
    var m := Operand(mode, s);
    State(Assign(c, reg, m).(p := WithNZ(c.p, m), oopsCycle := c.oopsCycle + 1), s.mem)
  }

  /** STA, STX, STY: the register is written at the resolved address; no flag changes. */
  function Store(reg: Register, mode: Mode, s: State): (r: State)
    ensures var addr := Resolve(mode, s.cpu, s.mem).addr;
      && r.mem(addr) == Value(s.cpu, reg)
      && (forall a :: a != addr ==> r.mem(a) == s.mem(a))
    ensures r.cpu == Resolved(mode, s)
  {
    var res := Resolve(mode, s.cpu, s.mem);
    State(res.cpu, Write(s.mem, res.addr, Value(res.cpu, reg)))
  }

  /** INC, DEC: the byte at the resolved address steps by one, wrapping; N, Z from the new byte. */
  function StepMemory(up: bool, mode: Mode, s: State): (r: State)
    ensures var addr := Resolve(mode, s.cpu, s.mem).addr;
      && r.mem(addr) == Wrap8(s.mem(addr) + (if up then 1 else -1))
      && (forall a :: a != addr ==> r.mem(a) == s.mem(a))
      && DescribesNZ(r.cpu.p, s.cpu.p, r.mem(addr))
    ensures r.cpu == Resolved(mode, s).(p := r.cpu.p)
  {
    var res := Resolve(mode, s.cpu, s.mem);
    var v := Wrap8(s.mem(res.addr) + (if up then 1 else -1));
    State(res.cpu.(p := WithNZ(res.cpu.p, v)), Write(s.mem, res.addr, v))
  }

  /** INX, INY, DEX, DEY: the register steps by one, wrapping; N, Z from the new value. */
  function StepRegister(reg: Register, up: bool, s: State): (r: State)
    ensures Value(r.cpu, reg) == Wrap8(Value(s.cpu, reg) + (if up then 1 else -1))
    ensures DescribesNZ(r.cpu.p, s.cpu.p, Value(r.cpu, reg))
    ensures r.mem == s.mem
    ensures r.cpu == Assign(s.cpu, reg, Value(r.cpu, reg)).(pc := Wrap16(s.cpu.pc + 1), p := r.cpu.p)
  {
    var c := Implied(s.cpu).cpu;
    var v := Wrap8(Value(c, reg) + (if up then 1 else -1));
    State(Assign(c, reg, v).(p := WithNZ(c.p, v)), s.mem)
  }

  /** TAX, TAY, TXA, TYA, TSX set N and Z from the copied byte; TXS (into the stack pointer) sets no flag. */
  function Transfer(from: Register, to: Register, s: State): (r: State)
    ensures Value(r.cpu, to) == Value(s.cpu, from)
    ensures to == S ==> r.cpu.p == s.cpu.p
    ensures to != S ==> DescribesNZ(r.cpu.p, s.cpu.p, Value(s.cpu, from))
    ensures r.mem == s.mem
    ensures r.cpu == Assign(s.cpu, to, Value(s.cpu, from)).(pc := Wrap16(s.cpu.pc + 1), p := r.cpu.p)
  {
    var c := Implied(s.cpu).cpu;
    var v := Value(c, from);
    var d := Assign(c, to, v);
    State(if to == S then d else d.(p := WithNZ(d.p, v)), s.mem)
  }

  // ------------------------------------------------------------------- stack

  /** PHA: A is pushed. */
  function PushAccumulator(s: State): (r: State)
    ensures r.mem(StackAddress(s.cpu.sp)) == s.cpu.a
    ensures forall a :: a != StackAddress(s.cpu.sp) ==> r.mem(a) == s.mem(a)
    ensures r.cpu == s.cpu.(pc := Wrap16(s.cpu.pc + 1), sp := Wrap8(s.cpu.sp - 1))
  {
    var c := Implied(s.cpu).cpu;
    Push(State(c, s.mem), c.a)
  }

  /** PHP: U is set in the live register, the whole byte (with the live B bit) is pushed, then B is cleared. */
  function PushStatus(s: State): (r: State)
    ensures r.mem(StackAddress(s.cpu.sp)) == Pack(s.cpu.p.(u := true))
    ensures forall a :: a != StackAddress(s.cpu.sp) ==> r.mem(a) == s.mem(a)
    ensures r.cpu == s.cpu.(pc := Wrap16(s.cpu.pc + 1), sp := Wrap8(s.cpu.sp - 1), p := s.cpu.p.(u := true, b := false))
  {
    var c := Implied(s.cpu).cpu;
    var c1 := c.(p := c.p.(u := true));
    var pushed := Push(State(c1, s.mem), Pack(c1.p));
    State(pushed.cpu.(p := pushed.cpu.p.(b := false)), pushed.mem)
  }

  /** PLA: A is pulled; N, Z from it. */
  function PullAccumulator(s: State): (r: State)
    ensures var v := s.mem(StackAddress(Wrap8(s.cpu.sp + 1)));
      && r.cpu.a == v
      && DescribesNZ(r.cpu.p, s.cpu.p, v)
      && r.cpu == s.cpu.(pc := Wrap16(s.cpu.pc + 1), sp := Wrap8(s.cpu.sp + 1), a := v, p := r.cpu.p)
    ensures r.mem == s.mem
  {
    var c := Implied(s.cpu).cpu;
    var (c1, v) := Pull(c, s.mem);
    State(c1.(a := v, p := WithNZ(c1.p, v)), s.mem)
  }

  /** PLP: the status byte is pulled wholesale, then U is set and B cleared. */
  function PullStatus(s: State): (r: State)
    ensures var v := s.mem(StackAddress(Wrap8(s.cpu.sp + 1)));
      r.cpu == s.cpu.(pc := Wrap16(s.cpu.pc + 1), sp := Wrap8(s.cpu.sp + 1), p := Unpack(v).(u := true, b := false))
    ensures r.mem == s.mem
  {
    var c := Implied(s.cpu).cpu;
    var (c1, v) := Pull(c, s.mem);
    State(c1.(p := Unpack(v).(u := true, b := false)), s.mem)
  }

  // ------------------------------------------------------------------- other

  /**
    BRK: PC steps past the opcode and the padding byte, I and B are set, the
    high and low byte of PC and then the status byte are pushed, B is
    cleared and PC is loaded from the vector at 0xFFFE/0xFFFF. Because I is
    set before the push, the pushed status always has I = 1.
   */
  function Break(s: State): (r: State)
    ensures r.cpu == s.cpu.(pc := Word(s.mem(0xFFFF), s.mem(0xFFFE)), sp := Wrap8(s.cpu.sp - 3), p := s.cpu.p.(i := true, b := false))
    ensures var ret := Wrap16(s.cpu.pc + 2);
      && r.mem(StackAddress(s.cpu.sp)) == Hi(ret)
      && r.mem(StackAddress(Wrap8(s.cpu.sp - 1))) == Lo(ret)
      && r.mem(StackAddress(Wrap8(s.cpu.sp - 2))) == Pack(s.cpu.p.(i := true, b := true))
    ensures forall a :: a != StackAddress(s.cpu.sp) && a != StackAddress(Wrap8(s.cpu.sp - 1)) && a != StackAddress(Wrap8(s.cpu.sp - 2)) ==> r.mem(a) == s.mem(a)
  {
    // the opcode (`imp`) and then the padding byte: PC moves on by two
    Interrupt(s, Wrap16(s.cpu.pc + 2), s.cpu.p.(i := true, b := true), s.cpu.p.(i := true, b := false))
  }

  /** The frame BRK builds for a return address and a status byte: push both, then load the flags `after` and jump through the vector at 0xFFFE/0xFFFF. */
  function Interrupt(s: State, ret: Addr, flags: Flags, after: Flags): (r: State)
    ensures r.mem(StackAddress(s.cpu.sp)) == Hi(ret)
    ensures r.mem(StackAddress(Wrap8(s.cpu.sp - 1))) == Lo(ret)
    ensures r.mem(StackAddress(Wrap8(s.cpu.sp - 2))) == Pack(flags)
    ensures forall a :: a != StackAddress(s.cpu.sp) && a != StackAddress(Wrap8(s.cpu.sp - 1)) && a != StackAddress(Wrap8(s.cpu.sp - 2)) ==> r.mem(a) == s.mem(a)
    ensures r.cpu == s.cpu.(pc := Word(s.mem(0xFFFF), s.mem(0xFFFE)), sp := Wrap8(s.cpu.sp - 3), p := after)
  {
    var t := PushThree(State(s.cpu.(pc := ret, p := flags), s.mem), Hi(ret), Lo(ret), Pack(flags));
    assert t.mem(0xFFFF) == s.mem(0xFFFF) && t.mem(0xFFFE) == s.mem(0xFFFE);
    State(t.cpu.(p := after, pc := Word(t.mem(0xFFFF), t.mem(0xFFFE))), t.mem)
  }

  /**
    NOP and the undocumented opcodes: only the resolver runs, so PC still
    steps past the operand bytes the mode implies, and nothing else changes
    but the page flag.
   */
  function NoOperation(mode: Mode, s: State): (r: State)
    ensures r.mem == s.mem
    ensures r.cpu == s.cpu.(pc := Wrap16(s.cpu.pc + Length(mode)), oopsCycle := r.cpu.oopsCycle)
  {
    State(Resolved(mode, s), s.mem)
  }

  /** Run the handler an op tag stands for, with the mode tag of its table entry. */
  function Perform(op: Op, mode: Mode, s: State): (r: State)
    ensures !IsBranch(op) ==> r.cpu.branchCycle == s.cpu.branchCycle
  {
    match op
    case ADC => AddToAccumulator(mode, s)
    case AND => AndAccumulator(mode, s)
    case ASL => ShiftOp(Asl, mode, s)
    case BCC => Branch(Taken(op, s.cpu.p), s)
    case BCS => Branch(Taken(op, s.cpu.p), s)
    case BEQ => Branch(Taken(op, s.cpu.p), s)
    case BIT => BitTest(mode, s)
    case BMI => Branch(Taken(op, s.cpu.p), s)
    case BNE => Branch(Taken(op, s.cpu.p), s)
    case BPL => Branch(Taken(op, s.cpu.p), s)
    case BRK => Break(s)
    case BVC => Branch(Taken(op, s.cpu.p), s)
    case BVS => Branch(Taken(op, s.cpu.p), s)
    case CLC => SetFlag(C, false, s)
    case CLD => SetFlag(D, false, s)
    case CLI => SetFlag(I, false, s)
    case CLV => SetFlag(V, false, s)
    case CMP => CompareAccumulator(mode, s)
    case CPX => CompareIndex(X, mode, s)
    case CPY => CompareIndex(Y, mode, s)
    case DEC => StepMemory(false, mode, s)
    case DEX => StepRegister(X, false, s)
    case DEY => StepRegister(Y, false, s)
    case EOR => XorAccumulator(mode, s)
    case INC => StepMemory(true, mode, s)
    case INX => StepRegister(X, true, s)
    case INY => StepRegister(Y, true, s)
    case JMP => Jump(mode, s)
    case JSR => JumpSubroutine(s)
    case LDA => Load(A, mode, s)
    case LDX => Load(X, mode, s)
    case LDY => Load(Y, mode, s)
    case LSR => ShiftOp(Lsr, mode, s)
    case NOP => NoOperation(mode, s)
    case ORA => OrAccumulator(mode, s)
    case PHA => PushAccumulator(s)
    case PHP => PushStatus(s)
    case PLA => PullAccumulator(s)
    case PLP => PullStatus(s)
    case ROL => ShiftOp(Rol, mode, s)
    case ROR => ShiftOp(Ror, mode, s)
    case RTI => ReturnFromInterrupt(s)
    case RTS => ReturnFromSubroutine(s)
    case SBC => SubtractFromAccumulator(mode, s)
    case SEC => SetFlag(C, true, s)
    case SED => SetFlag(D, true, s)
    case SEI => SetFlag(I, true, s)
    case STA => Store(A, mode, s)
    case STX => Store(X, mode, s)
    case STY => Store(Y, mode, s)
    case TAX => Transfer(A, X, s)
    case TAY => Transfer(A, Y, s)
    case TSX => Transfer(S, X, s)
    case TXA => Transfer(X, A, s)
    case TXS => Transfer(X, S, s)
    case TYA => Transfer(Y, A, s)
    case NUL => NoOperation(mode, s)
  }
}
