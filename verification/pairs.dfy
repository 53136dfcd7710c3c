/**
  What pairs of handlers do together: a push followed by the matching pull,
  a subroutine call followed by a return, a break followed by a return from
  interrupt, a store followed by a load, a step or a transfer followed by
  the one that undoes it. These are the places where the handlers' choices show up, and
  the lemmas state the outcome the handlers produce as they stand, including
  where it departs from the 6502.
 */
module Pairs {
  import opened Bits
  import opened Status
  import opened Nes
  import opened Addressing
  import opened Instructions
  import opened Table
  import opened Interpreter

  /** PHA then PLA: A and the stack pointer are back, PC has moved past both, and N, Z describe A. */
  lemma PushPullAccumulator(s: State)
    ensures var r := PullAccumulator(PushAccumulator(s));
      && r.cpu == s.cpu.(pc := Wrap16(s.cpu.pc + 2), p := r.cpu.p)
      && DescribesNZ(r.cpu.p, s.cpu.p, s.cpu.a)
  {
    var t := PushAccumulator(s);
    assert Wrap8(t.cpu.sp + 1) == s.cpu.sp;
    assert Wrap16(t.cpu.pc + 1) == Wrap16(s.cpu.pc + 2);
  }

  /** PHP then PLP: the flags come back except that U reads 1 and B reads 0. */
  lemma PushPullStatus(s: State)
    ensures PullStatus(PushStatus(s)).cpu == s.cpu.(pc := Wrap16(s.cpu.pc + 2), p := s.cpu.p.(u := true, b := false))
  {
    WrapShift8(s.cpu.sp - 1, 1);
    WrapShift16(s.cpu.pc + 1, 1);
    PullPacked(PushStatus(s), s.cpu.p.(u := true));
  }

  /** PLP of a packed status byte loads the packed flags, with U set and B cleared. */
  lemma PullPacked(t: State, q: Flags)
    requires t.mem(StackAddress(Wrap8(t.cpu.sp + 1))) == Pack(q)
    ensures PullStatus(t).cpu.p == q.(u := true, b := false)
  {
    UnpackPack(q);
  }

  /**
    JSR then RTS: every register is exactly as before the call, PC included.
    JSR pushes the address of its own opcode minus one and RTS adds one, so
    the return lands on the JSR opcode again rather than on the instruction
    after the three-byte call.
   */
  lemma CallReturnsToCall(s: State)
    ensures ReturnFromSubroutine(JumpSubroutine(s)).cpu == s.cpu
  {
    var back := Wrap16(s.cpu.pc - 1);
    WrapShift8(s.cpu.sp - 2, 1);
    WrapShift8(s.cpu.sp - 2, 2);
    WrapShift16(s.cpu.pc - 1, 1);
    PullReturn(JumpSubroutine(s), back);
  }

  /** RTS over a stacked address: the stack pointer moves up two and PC is one past that address. */
  lemma PullReturn(t: State, back: Addr)
    requires t.mem(StackAddress(Wrap8(t.cpu.sp + 1))) == Lo(back)
    requires t.mem(StackAddress(Wrap8(t.cpu.sp + 2))) == Hi(back)
    ensures ReturnFromSubroutine(t).cpu == t.cpu.(sp := Wrap8(t.cpu.sp + 2), pc := Wrap16(back + 1))
  {
    WordOfBytes(back);
  }

  /**
    BRK then RTI: the stack pointer is back and PC is two past the BRK
    opcode, but I stays set, because BRK set it before pushing the status
    byte; B is cleared and U set.
   */
  lemma BreakReturn(s: State)
    ensures ReturnFromInterrupt(Break(s)).cpu == s.cpu.(pc := Wrap16(s.cpu.pc + 2), p := s.cpu.p.(i := true, b := false, u := true))
  {
    WrapShift8(s.cpu.sp - 3, 1);
    WrapShift8(s.cpu.sp - 3, 2);
    WrapShift8(s.cpu.sp - 3, 3);
    PullFrame(Break(s), Wrap16(s.cpu.pc + 2), s.cpu.p.(i := true, b := true));
  }

  /** RTI over a stacked frame: the packed flags come back with B cleared and U set, and PC is the stacked address. */
  lemma PullFrame(t: State, ret: Addr, q: Flags)
    requires t.mem(StackAddress(Wrap8(t.cpu.sp + 1))) == Pack(q)
    requires t.mem(StackAddress(Wrap8(t.cpu.sp + 2))) == Lo(ret)
    requires t.mem(StackAddress(Wrap8(t.cpu.sp + 3))) == Hi(ret)
    ensures ReturnFromInterrupt(t).cpu == t.cpu.(sp := Wrap8(t.cpu.sp + 3), pc := ret, p := q.(b := false, u := true))
  {
    UnpackPack(q);
    WordOfBytes(ret);
  }

  /**
    A branch whose condition fails leaves the machine exactly as it was,
    PC included, and costs the entry's base cycles: the next pass finds the
    same branch under PC.
   */
  lemma BranchNotTakenStalls(opcode: Byte, s: State)
    requires Quiescent(s.cpu)
    requires IsBranch(Decode(opcode).op) && !Taken(Decode(opcode).op, s.cpu.p)
    ensures Execute(opcode, s).state == s
    ensures Execute(opcode, s).cycles == Decode(opcode).cycles
  {
    BranchDispatch(Decode(opcode).op, Decode(opcode).mode, s);
  }

  /**
    A taken branch continues at the signed displacement from the byte
    after the operand, and costs one cycle more, or two when the target
    is in another page than that byte.
   */
  lemma BranchTakenTiming(opcode: Byte, s: State)
    requires Quiescent(s.cpu)
    requires IsBranch(Decode(opcode).op) && Taken(Decode(opcode).op, s.cpu.p)
    ensures var next := Wrap16(s.cpu.pc + 2);
      var target := Wrap16(next + Signed(s.mem(Wrap16(s.cpu.pc + 1))));
      && Execute(opcode, s).state == State(s.cpu.(pc := target), s.mem)
      && Execute(opcode, s).cycles == Decode(opcode).cycles + 1 + (if Hi(target) != Hi(next) then 1 else 0)
  {
    BranchDispatch(Decode(opcode).op, Decode(opcode).mode, s);
    TakenBranch(s);
  }

  /** The taken branch handler, with its counters cleared, is a jump to the target; its counters sum to one plus the page crossing. */
  lemma TakenBranch(s: State)
    requires Quiescent(s.cpu)
    ensures var next := Wrap16(s.cpu.pc + 2);
      var target := Wrap16(next + Signed(s.mem(Wrap16(s.cpu.pc + 1))));
      var t := Branch(true, s);
      && t.mem == s.mem
      && t.cpu.(oopsCycle := 0, branchCycle := 0) == s.cpu.(pc := target)
      && Surcharge(t.cpu) == 1 + (if Hi(target) != Hi(next) then 1 else 0)
  {
  }

  /** Every branch opcode runs the one branch handler on its own condition, whatever the mode tag. */
  lemma BranchDispatch(op: Op, mode: Mode, s: State)
    requires IsBranch(op)
    ensures Perform(op, mode, s) == Branch(Taken(op, s.cpu.p), s)
  {
  }

  // ------------------------------------------------ stores, loads, steps, transfers

  /**
    A store and then a load through an address that resolves to the same
    place (the store may have overwritten a pointer the load goes through)
    read back the stored register, with N and Z describing it.
   */
  lemma StoreLoad(reg: Register, back: Register, ms: Mode, ml: Mode, s: State)
    requires var t := Store(reg, ms, s); Resolve(ml, t.cpu, t.mem).addr == Resolve(ms, s.cpu, s.mem).addr
    ensures var r := Load(back, ml, Store(reg, ms, s));
      && Value(r.cpu, back) == Value(s.cpu, reg)
      && r.cpu.p.n == (Value(s.cpu, reg) >= 0x80) && r.cpu.p.z == (Value(s.cpu, reg) == 0)
  {
  }

  /** INC then DEC (or DEC then INC) on the same resolved address gives every byte back. */
  lemma StepMemoryBack(up: bool, m1: Mode, m2: Mode, s: State)
    requires var t := StepMemory(up, m1, s); Resolve(m2, t.cpu, t.mem).addr == Resolve(m1, s.cpu, s.mem).addr
    ensures var r := StepMemory(!up, m2, StepMemory(up, m1, s));
      forall a :: r.mem(a) == s.mem(a)
  {
    var addr := Resolve(m1, s.cpu, s.mem).addr;
    WrapShift8(s.mem(addr) + (if up then 1 else -1), if up then -1 else 1);
  }

  /** INX then DEX (and the other three pairs): the register is back, PC has moved by two, and N, Z describe the register. */
  lemma StepRegisterBack(reg: Register, up: bool, s: State)
    ensures var r := StepRegister(reg, !up, StepRegister(reg, up, s));
      && r.mem == s.mem
      && r.cpu == s.cpu.(pc := Wrap16(s.cpu.pc + 2), p := r.cpu.p)
      && DescribesNZ(r.cpu.p, s.cpu.p, Value(s.cpu, reg))
  {
    var t := StepRegister(reg, up, s);
    WrapShift8(Value(s.cpu, reg) + (if up then 1 else -1), if up then -1 else 1);
    WrapShift16(s.cpu.pc + 1, 1);
    assert Value(StepRegister(reg, !up, t).cpu, reg) == Value(s.cpu, reg);
  }

  /**
    A transfer and the one back (TAX then TXA, TSX then TXS, and so on):
    the source register keeps its value, the target holds a copy, PC has
    moved by two, and unless both ends are S the flags describe the value.
   */
  lemma TransferBack(from: Register, to: Register, s: State)
    ensures var r := Transfer(to, from, Transfer(from, to, s));
      && r.mem == s.mem
      && r.cpu == Assign(s.cpu, to, Value(s.cpu, from)).(pc := Wrap16(s.cpu.pc + 2), p := r.cpu.p)
      && (from != S || to != S ==> DescribesNZ(r.cpu.p, s.cpu.p, Value(s.cpu, from)))
      && (from == S && to == S ==> r.cpu.p == s.cpu.p)
  {
    WrapShift16(s.cpu.pc + 1, 1);
  }
}
