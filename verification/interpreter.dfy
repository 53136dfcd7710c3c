/**
  One pass of the interpreter's main loop, and what happens before it: the
  program counter is loaded from the reset vector and the first opcode is
  fetched. A pass looks the opcode up in the table, runs the handler with
  the entry's resolver, computes the cycle count (the entry's base cycles,
  plus one for a taken branch, plus one when the page flag has reached 2)
  and clears both transient counters. The source reaches the clearing only
  when its wait loop falls through, which `WaitFallsThrough` shows happens
  only for the unassigned entries.
 */
module Interpreter {
  import opened Bits
  import opened Status
  import opened Nes
  import opened Addressing
  import opened Alu
  import opened Instructions
  import opened Table

  /** The reset sequence: PC is loaded little-endian from 0xFFFC/0xFFFD; nothing else changes. */
  function Reset(s: State): (r: State)
    ensures Lo(r.cpu.pc) == s.mem(0xFFFC) && Hi(r.cpu.pc) == s.mem(0xFFFD)
    ensures r.cpu.(pc := s.cpu.pc) == s.cpu && r.mem == s.mem
  {
    State(s.cpu.(pc := Word(s.mem(0xFFFD), s.mem(0xFFFC))), s.mem)
  }

  /**
    What runs before the loop: the register record starts all zero, PC is
    loaded from the reset vector and the opcode under it is fetched. This
    is the only fetch; the loop executes this one opcode on every pass.
   */
  function Start(mem: Memory): (r: (State, Byte))
    ensures r.0.mem == mem && r.0.cpu.(pc := 0) == PowerOn
    ensures Lo(r.0.cpu.pc) == mem(0xFFFC) && Hi(r.0.cpu.pc) == mem(0xFFFD)
    ensures r.1 == mem(r.0.cpu.pc)
  {
    var s := Reset(State(PowerOn, mem));
    (s, s.mem(s.cpu.pc))
  }

  /** The state after one instruction and the number of cycles it is charged. */
  datatype Step = Step(state: State, cycles: nat)

  /** The cycles charged beyond the base count: the page flag only counts when it has reached 2. */
  function Surcharge(c: Cpu): (r: int)
    ensures Quiescent(c) ==> r == 0
    ensures c.oopsCycle == 1 ==> r == c.branchCycle
  {
    (if c.oopsCycle == 2 then 1 else 0) + c.branchCycle
  }

  /** One pass of the loop body for a given opcode byte. */
  function Execute(opcode: Byte, s: State): (r: Step)
    requires Quiescent(s.cpu)
    ensures Quiescent(r.state.cpu)
    ensures var t := Perform(Decode(opcode).op, Decode(opcode).mode, s);
      && r.state.mem == t.mem
      && r.state.cpu == t.cpu.(oopsCycle := 0, branchCycle := 0)
      && r.cycles == Decode(opcode).cycles + Surcharge(t.cpu)
  {
    var e := Decode(opcode);
    var t := Perform(e.op, e.mode, s);
    PenaltyOf(e.op, e.mode, s);
    Step(State(t.cpu.(oopsCycle := 0, branchCycle := 0), t.mem), e.cycles + Surcharge(t.cpu))
  }

  // ------------------------------------------------------------ cycle count

  /** The read-type handlers, which pay for a page crossing. */
  predicate PaysPageCrossing(op: Op)
  {
    match op
    case LDA | LDX | LDY | AND | ORA | EOR | ADC | SBC | CMP => true
    case _ => false
  }

  /**
    The extra cycles an instruction costs, stated from the processor's
    timing rules rather than from the counters: a taken branch costs one
    cycle and one more when its target lies in another page; a read through
    an indexed resolver costs one when the indexed address crosses a page;
    nothing else costs extra.
   */
  function Penalty(op: Op, mode: Mode, s: State): nat
  {
    if IsBranch(op) then
      if Taken(op, s.cpu.p) then 1 + (if Crossed(Rel, s.cpu, s.mem) then 1 else 0) else 0
    else if PaysPageCrossing(op) && SetsPageFlag(mode) && Crossed(mode, s.cpu, s.mem) then 1
    else 0
  }

  /** Read-type handlers: the page flag reaches 2 exactly on a crossing. */
  lemma ReadPenalty(op: Op, mode: Mode, s: State)
    requires Quiescent(s.cpu) && PaysPageCrossing(op)
    ensures Surcharge(Perform(op, mode, s).cpu) == Penalty(op, mode, s)
  {
    ResolvePageFlag(mode, s.cpu, s.mem);
    ReadCounters(op, mode, s);
  }

  /** A read-type handler adds one to the page flag the resolver left and does not touch the branch counter. */
  lemma ReadCounters(op: Op, mode: Mode, s: State)
    requires PaysPageCrossing(op)
    ensures Perform(op, mode, s).cpu.oopsCycle == Resolve(mode, s.cpu, s.mem).cpu.oopsCycle + 1
    ensures Perform(op, mode, s).cpu.branchCycle == s.cpu.branchCycle
  {
  }

  /** Branches: only a taken branch costs, one cycle plus the page flag plus one. */
  lemma BranchPenalty(op: Op, mode: Mode, s: State)
    requires Quiescent(s.cpu) && IsBranch(op)
    ensures Surcharge(Perform(op, mode, s).cpu) == Penalty(op, mode, s)
  {
  }

  /** ASL and LSR: the early increment is either kept at 1 or overwritten by the resolver's 0 or 1. */
  lemma ShiftPenalty(kind: ShiftKind, mode: Mode, s: State)
    requires Quiescent(s.cpu) && (kind == Asl || kind == Lsr)
    ensures Surcharge(ShiftOp(kind, mode, s).cpu) == 0
  {
    var before := s.cpu.(oopsCycle := 1);
    ResolvePageFlag(mode, before, s.mem);
    assert ShiftOp(kind, mode, s).cpu.oopsCycle == Resolve(mode, before, s.mem).cpu.oopsCycle;
  }

  /** ROL and ROR: only the resolver touches the page flag. */
  lemma RotatePenalty(kind: ShiftKind, mode: Mode, s: State)
    requires Quiescent(s.cpu) && (kind == Rol || kind == Ror)
    ensures Surcharge(ShiftOp(kind, mode, s).cpu) == 0
  {
    ResolvePageFlag(mode, s.cpu, s.mem);
  }

  predicate StoreGroup(op: Op)
  {
    match op
    case STA | STX | STY => true
    case _ => false
  }

  /** Stores resolve their address but pay nothing for a crossing. */
  lemma StorePenalty(op: Op, mode: Mode, s: State)
    requires Quiescent(s.cpu) && StoreGroup(op)
    ensures Surcharge(Perform(op, mode, s).cpu) == 0
  {
    ResolvePageFlag(mode, s.cpu, s.mem);
  }

  predicate StepGroup(op: Op)
  {
    match op
    case INC | DEC => true
    case _ => false
  }

  /** INC and DEC on memory pay nothing for a crossing. */
  lemma StepPenalty(op: Op, mode: Mode, s: State)
    requires Quiescent(s.cpu) && StepGroup(op)
    ensures Surcharge(Perform(op, mode, s).cpu) == 0
  {
    ResolvePageFlag(mode, s.cpu, s.mem);
  }

  predicate TestGroup(op: Op)
  {
    match op
    case CPX | CPY | BIT => true
    case _ => false
  }

  /** CPX, CPY and BIT pay nothing for a crossing. */
  lemma TestPenalty(op: Op, mode: Mode, s: State)
    requires Quiescent(s.cpu) && TestGroup(op)
    ensures Surcharge(Perform(op, mode, s).cpu) == 0
  {
    ResolvePageFlag(mode, s.cpu, s.mem);
  }

  predicate IdleGroup(op: Op)
  {
    match op
    case JMP | NOP | NUL => true
    case _ => false
  }

  /** JMP, NOP and the unassigned entries pay nothing for a crossing. */
  lemma IdlePenalty(op: Op, mode: Mode, s: State)
    requires Quiescent(s.cpu) && IdleGroup(op)
    ensures Surcharge(Perform(op, mode, s).cpu) == 0
  {
    ResolvePageFlag(mode, s.cpu, s.mem);
  }

  predicate ImpliedGroup(op: Op)
  {
    match op
    case CLC | CLD | CLI | CLV | SEC | SED | SEI | DEX | DEY | INX | INY | TAX | TAY | TSX | TXA | TXS | TYA => true
    case _ => false
  }

  /** Flag, step and transfer instructions touch neither counter. */
  lemma ImpliedPenalty(op: Op, mode: Mode, s: State)
    requires Quiescent(s.cpu) && ImpliedGroup(op)
    ensures Surcharge(Perform(op, mode, s).cpu) == 0
  {
  }

  predicate StackGroup(op: Op)
  {
    match op
    case BRK | JSR | PHA | PHP | PLA | PLP | RTI | RTS => true
    case _ => false
  }

  /** Stack instructions touch neither counter. */
  lemma StackPenalty(op: Op, mode: Mode, s: State)
    requires Quiescent(s.cpu) && StackGroup(op)
    ensures Surcharge(Perform(op, mode, s).cpu) == 0
  {
  }

  /** The handlers that never pay extra leave the page flag below 2 and the branch flag clear. */
  lemma FreePenalty(op: Op, mode: Mode, s: State)
    requires Quiescent(s.cpu) && !IsBranch(op) && !PaysPageCrossing(op)
    ensures Surcharge(Perform(op, mode, s).cpu) == 0
  {
    if op == ASL {
      ShiftPenalty(Asl, mode, s);
    } else if op == LSR {
      ShiftPenalty(Lsr, mode, s);
    } else if op == ROL {
      RotatePenalty(Rol, mode, s);
    } else if op == ROR {
      RotatePenalty(Ror, mode, s);
    } else if StoreGroup(op) {
      StorePenalty(op, mode, s);
    } else if StepGroup(op) {
      StepPenalty(op, mode, s);
    } else if TestGroup(op) {
      TestPenalty(op, mode, s);
    } else if IdleGroup(op) {
      IdlePenalty(op, mode, s);
    } else if ImpliedGroup(op) {
      ImpliedPenalty(op, mode, s);
    } else {
      StackPenalty(op, mode, s);
    }
  }

  /** The counters a handler leaves behind always add up to the reference penalty. */
  lemma PenaltyOf(op: Op, mode: Mode, s: State)
    requires Quiescent(s.cpu)
    ensures Surcharge(Perform(op, mode, s).cpu) == Penalty(op, mode, s)
  {
    if IsBranch(op) {
      BranchPenalty(op, mode, s);
    } else if PaysPageCrossing(op) {
      ReadPenalty(op, mode, s);
    } else {
      FreePenalty(op, mode, s);
    }
  }

  /** The cycle count of a pass is the table's base count plus the reference penalty. */
  lemma CycleCount(opcode: Byte, s: State)
    requires Quiescent(s.cpu)
    ensures Execute(opcode, s).cycles == Decode(opcode).cycles + Penalty(Decode(opcode).op, Decode(opcode).mode, s)
  {
    PenaltyOf(Decode(opcode).op, Decode(opcode).mode, s);
  }

  /**
    The wait loop after a pass, `while (cycles > 0) { }`, never changes
    `cycles`, so it only falls through when the count is zero, which happens
    exactly for the unassigned entries.
   */
  lemma WaitFallsThrough(opcode: Byte, s: State)
    requires Quiescent(s.cpu)
    ensures Execute(opcode, s).cycles == 0 <==> Decode(opcode).op == NUL
  {
    CycleCount(opcode, s);
  }
}
