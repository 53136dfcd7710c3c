/**
  The 256-entry opcode table: for every opcode byte, the mnemonic, the
  base cycle count, the addressing-mode resolver and the handler.

  Undocumented opcodes keep their conventional mnemonic but have zero
  cycles and the do-nothing handler; the one documented NOP (0xEA) has its
  own handler and two cycles.
 */
module Table {
  import opened Bits
  import opened Addressing
  import opened Instructions

  /** One row of the table, in the order of the source's `struct Instruction`. */
  datatype Entry = Entry(name: string, opcode: Byte, cycles: nat, mode: Mode, op: Op)

  /** Opcodes 0x00 to 0x0F. */
  const Row0: seq<Entry> := [
    Entry("BRK", 0x00, 7, Imp, BRK),
    Entry("ORA", 0x01, 6, Idx, ORA),
    Entry("STP", 0x02, 0, Imp, NUL),
    Entry("SLO", 0x03, 0, Idx, NUL),
    Entry("NOP", 0x04, 0, Zpa, NUL),
    Entry("ORA", 0x05, 3, Zpa, ORA),
    Entry("ASL", 0x06, 5, Zpa, ASL),
    Entry("SLO", 0x07, 0, Zpa, NUL),
    Entry("PHP", 0x08, 3, Imp, PHP),
    Entry("ORA", 0x09, 2, Imm, ORA),
    Entry("ASL", 0x0A, 2, Acc, ASL),
    Entry("ANC", 0x0B, 0, Imm, NUL),
    Entry("NOP", 0x0C, 0, Abl, NUL),
    Entry("ORA", 0x0D, 4, Abl, ORA),
    Entry("ASL", 0x0E, 6, Abl, ASL),
    Entry("SLO", 0x0F, 0, Abl, NUL)
  ]

  /** Opcodes 0x10 to 0x1F. */
  const Row1: seq<Entry> := [
    Entry("BPL", 0x10, 2, Rel, BPL),
    Entry("ORA", 0x11, 5, Idy, ORA),
    Entry("STP", 0x12, 0, Imp, NUL),
    Entry("SLO", 0x13, 0, Idy, NUL),
    Entry("NOP", 0x14, 0, Zpx, NUL),
    Entry("ORA", 0x15, 4, Zpx, ORA),
    Entry("ASL", 0x16, 6, Zpx, ASL),
    Entry("SLO", 0x17, 0, Zpx, NUL),
    Entry("CLC", 0x18, 2, Imp, CLC),
    Entry("ORA", 0x19, 4, Aiy, ORA),
    Entry("NOP", 0x1A, 0, Imp, NUL),
    Entry("SLO", 0x1B, 0, Aiy, NUL),
    Entry("NOP", 0x1C, 0, Aix, NUL),
    Entry("ORA", 0x1D, 4, Aix, ORA),
    Entry("ASL", 0x1E, 7, Aix, ASL),
    Entry("SLO", 0x1F, 0, Aix, NUL)
  ]

  /** Opcodes 0x20 to 0x2F. */
  const Row2: seq<Entry> := [
    Entry("JSR", 0x20, 6, Abl, JSR),
    Entry("AND", 0x21, 6, Idx, AND),
    Entry("STP", 0x22, 0, Imp, NUL),
    Entry("RLA", 0x23, 0, Idx, NUL),
    Entry("BIT", 0x24, 3, Zpa, BIT),
    Entry("AND", 0x25, 3, Zpa, AND),
    Entry("ROL", 0x26, 5, Zpa, ROL),
    Entry("RLA", 0x27, 0, Zpa, NUL),
    Entry("PLP", 0x28, 4, Imp, PLP),
    Entry("AND", 0x29, 2, Imm, AND),
    Entry("ROL", 0x2A, 2, Acc, ROL),
    Entry("ANC", 0x2B, 0, Imm, NUL),
    Entry("BIT", 0x2C, 4, Abl, BIT),
    Entry("AND", 0x2D, 4, Abl, AND),
    Entry("ROL", 0x2E, 6, Abl, ROL),
    Entry("RLA", 0x2F, 0, Abl, NUL)
  ]

  /** Opcodes 0x30 to 0x3F. */
  const Row3: seq<Entry> := [
    Entry("BMI", 0x30, 2, Rel, BMI),
    Entry("AND", 0x31, 5, Idy, AND),
    Entry("STP", 0x32, 0, Imp, NUL),
    Entry("RLA", 0x33, 0, Idy, NUL),
    Entry("NOP", 0x34, 0, Zpx, NUL),
    Entry("AND", 0x35, 4, Zpx, AND),
    Entry("ROL", 0x36, 6, Zpx, ROL),
    Entry("RLA", 0x37, 0, Zpx, NUL),
    Entry("SEC", 0x38, 2, Imp, SEC),
    Entry("AND", 0x39, 4, Aiy, AND),
    Entry("NOP", 0x3A, 0, Imp, NUL),
    Entry("RLA", 0x3B, 0, Aiy, NUL),
    Entry("NOP", 0x3C, 0, Aix, NUL),
    Entry("AND", 0x3D, 4, Aix, AND),
    Entry("ROL", 0x3E, 7, Aix, ROL),
    Entry("RLA", 0x3F, 0, Aix, NUL)
  ]

  /** Opcodes 0x40 to 0x4F. */
  const Row4: seq<Entry> := [
    Entry("RTI", 0x40, 6, Imp, RTI),
    Entry("EOR", 0x41, 6, Idx, EOR),
    Entry("STP", 0x42, 0, Imp, NUL),
    Entry("SRE", 0x43, 0, Idx, NUL),
    Entry("NOP", 0x44, 0, Zpa, NUL),
    Entry("EOR", 0x45, 3, Zpa, EOR),
    Entry("LSR", 0x46, 5, Zpa, LSR),
    Entry("SRE", 0x47, 0, Zpa, NUL),
    Entry("PHA", 0x48, 3, Imp, PHA),
    Entry("EOR", 0x49, 2, Imm, EOR),
    Entry("LSR", 0x4A, 2, Acc, LSR),
    Entry("ALR", 0x4B, 0, Imm, NUL),
    Entry("JMP", 0x4C, 3, Abl, JMP),
    Entry("EOR", 0x4D, 4, Abl, EOR),
    Entry("LSR", 0x4E, 6, Abl, LSR),
    Entry("SRE", 0x4F, 0, Abl, NUL)
  ]

  /** Opcodes 0x50 to 0x5F. */
  const Row5: seq<Entry> := [
    Entry("BVC", 0x50, 2, Rel, BVC),
    Entry("EOR", 0x51, 5, Idy, EOR),
    Entry("STP", 0x52, 0, Imp, NUL),
    Entry("SRE", 0x53, 0, Idy, NUL),
    Entry("NOP", 0x54, 0, Zpx, NUL),
    Entry("EOR", 0x55, 4, Zpx, EOR),
    Entry("LSR", 0x56, 6, Zpx, LSR),
    Entry("SRE", 0x57, 0, Zpx, NUL),
    Entry("CLI", 0x58, 2, Imp, CLI),
    Entry("EOR", 0x59, 4, Aiy, EOR),
    Entry("NOP", 0x5A, 0, Imp, NUL),
    Entry("SRE", 0x5B, 0, Aiy, NUL),
    Entry("NOP", 0x5C, 0, Aix, NUL),
    Entry("EOR", 0x5D, 4, Aix, EOR),
    Entry("LSR", 0x5E, 7, Aix, LSR),
    Entry("SRE", 0x5F, 0, Aix, NUL)
  ]

  /** Opcodes 0x60 to 0x6F. */
  const Row6: seq<Entry> := [
    Entry("RTS", 0x60, 6, Imp, RTS),
    Entry("ADC", 0x61, 6, Idx, ADC),
    Entry("STP", 0x62, 0, Imp, NUL),
    Entry("RRA", 0x63, 0, Idx, NUL),
    Entry("NOP", 0x64, 0, Zpa, NUL),
    Entry("ADC", 0x65, 3, Zpa, ADC),
    Entry("ROR", 0x66, 5, Zpa, ROR),
    Entry("RRA", 0x67, 0, Zpa, NUL),
    Entry("PLA", 0x68, 4, Imp, PLA),
    Entry("ADC", 0x69, 2, Imm, ADC),
    Entry("ROR", 0x6A, 2, Acc, ROR),
    Entry("ARR", 0x6B, 0, Imm, NUL),
    Entry("JMP", 0x6C, 3, Ind, JMP),
    Entry("ADC", 0x6D, 4, Abl, ADC),
    Entry("ROR", 0x6E, 6, Abl, ROR),
    Entry("RRA", 0x6F, 0, Abl, NUL)
  ]

  /** Opcodes 0x70 to 0x7F. */
  const Row7: seq<Entry> := [
    Entry("BVS", 0x70, 2, Rel, BVS),
    Entry("ADC", 0x71, 5, Idy, ADC),
    Entry("STP", 0x72, 0, Imp, NUL),
    Entry("RRA", 0x73, 0, Idy, NUL),
    Entry("NOP", 0x74, 0, Zpx, NUL),
    Entry("ADC", 0x75, 4, Zpx, ADC),
    Entry("ROR", 0x76, 6, Zpx, ROR),
    Entry("RRA", 0x77, 0, Zpx, NUL),
    Entry("SEI", 0x78, 2, Imp, SEI),
    Entry("ADC", 0x79, 4, Aiy, ADC),
    Entry("NOP", 0x7A, 0, Imp, NUL),
    Entry("RRA", 0x7B, 0, Aiy, NUL),
    Entry("NOP", 0x7C, 0, Aix, NUL),
    Entry("ADC", 0x7D, 4, Aix, ADC),
    Entry("ROR", 0x7E, 7, Aix, ROR),
    Entry("RRA", 0x7F, 0, Aix, NUL)
  ]

  /** Opcodes 0x80 to 0x8F. */
  const Row8: seq<Entry> := [
    Entry("NOP", 0x80, 0, Imm, NUL),
    Entry("STA", 0x81, 6, Idx, STA),
    Entry("NOP", 0x82, 0, Imm, NUL),
    Entry("SAX", 0x83, 0, Idx, NUL),
    Entry("STY", 0x84, 3, Zpa, STY),
    Entry("STA", 0x85, 3, Zpa, STA),
    Entry("STX", 0x86, 3, Zpa, STX),
    Entry("SAX", 0x87, 0, Zpa, NUL),
    Entry("DEY", 0x88, 2, Imp, DEY),
    Entry("NOP", 0x89, 0, Imm, NUL),
    Entry("TXA", 0x8A, 2, Imp, TXA),
    Entry("ANE", 0x8B, 0, Imm, NUL),
    Entry("STY", 0x8C, 4, Abl, STY),
    Entry("STA", 0x8D, 4, Abl, STA),
    Entry("STX", 0x8E, 4, Abl, STX),
    Entry("SAX", 0x8F, 0, Abl, NUL)
  ]

  /** Opcodes 0x90 to 0x9F. */
  const Row9: seq<Entry> := [
    Entry("BCC", 0x90, 2, Rel, BCC),
    Entry("STA", 0x91, 6, Idy, STA),
    Entry("STP", 0x92, 0, Imp, NUL),
    Entry("SHA", 0x93, 0, Idy, NUL),
    Entry("STY", 0x94, 4, Zpx, STY),
    Entry("STA", 0x95, 4, Zpx, STA),
    Entry("STX", 0x96, 4, Zpy, STX),
    Entry("SAX", 0x97, 0, Zpy, NUL),
    Entry("TYA", 0x98, 2, Imp, TYA),
    Entry("STA", 0x99, 5, Aiy, STA),
    Entry("TXS", 0x9A, 2, Imp, TXS),
    Entry("TAS", 0x9B, 0, Aiy, NUL),
    Entry("SHY", 0x9C, 0, Aix, NUL),
    Entry("STA", 0x9D, 5, Aix, STA),
    Entry("SHX", 0x9E, 0, Aiy, NUL),
    Entry("SHA", 0x9F, 0, Aix, NUL)
  ]

  /** Opcodes 0xA0 to 0xAF. */
  const RowA: seq<Entry> := [
    Entry("LDY", 0xA0, 2, Imm, LDY),
    Entry("LDA", 0xA1, 6, Idx, LDA),
    Entry("LDX", 0xA2, 2, Imm, LDX),
    Entry("LAX", 0xA3, 0, Idx, NUL),
    Entry("LDY", 0xA4, 3, Zpa, LDY),
    Entry("LDA", 0xA5, 3, Zpa, LDA),
    Entry("LDX", 0xA6, 3, Zpa, LDX),
    Entry("LAX", 0xA7, 0, Zpa, NUL),
    Entry("TAY", 0xA8, 2, Imp, TAY),
    Entry("LDA", 0xA9, 2, Imm, LDA),
    Entry("TAX", 0xAA, 2, Imp, TAX),
    Entry("LXA", 0xAB, 0, Imm, NUL),
    Entry("LDY", 0xAC, 4, Abl, LDY),
    Entry("LDA", 0xAD, 4, Abl, LDA),
    Entry("LDX", 0xAE, 4, Abl, LDX),
    Entry("LAX", 0xAF, 0, Abl, NUL)
  ]

  /** Opcodes 0xB0 to 0xBF. */
  const RowB: seq<Entry> := [
    Entry("BCS", 0xB0, 2, Rel, BCS),
    Entry("LDA", 0xB1, 5, Idy, LDA),
    Entry("STP", 0xB2, 0, Imp, NUL),
    Entry("LAX", 0xB3, 0, Idy, NUL),
    Entry("LDY", 0xB4, 4, Zpx, LDY),
    Entry("LDA", 0xB5, 4, Zpx, LDA),
    Entry("LDX", 0xB6, 4, Zpy, LDX),
    Entry("LAX", 0xB7, 0, Zpy, NUL),
    Entry("CLV", 0xB8, 2, Imp, CLV),
    Entry("LDA", 0xB9, 4, Aiy, LDA),
    Entry("TSX", 0xBA, 2, Imp, TSX),
    Entry("LAS", 0xBB, 0, Aiy, NUL),
    Entry("LDY", 0xBC, 4, Aix, LDY),
    Entry("LDA", 0xBD, 4, Aix, LDA),
    Entry("LDX", 0xBE, 4, Aiy, LDX),
    Entry("LAX", 0xBF, 0, Aiy, NUL)
  ]

  /** Opcodes 0xC0 to 0xCF. */
  const RowC: seq<Entry> := [
    Entry("CPY", 0xC0, 2, Imm, CPY),
    Entry("CMP", 0xC1, 6, Idx, CMP),
    Entry("NOP", 0xC2, 0, Imm, NUL),
    Entry("DCP", 0xC3, 0, Idx, NUL),
    Entry("CPY", 0xC4, 3, Zpa, CPY),
    Entry("CMP", 0xC5, 3, Zpa, CMP),
    Entry("DEC", 0xC6, 5, Zpa, DEC),
    Entry("DCP", 0xC7, 0, Zpa, NUL),
    Entry("INY", 0xC8, 2, Imp, INY),
    Entry("CMP", 0xC9, 2, Imm, CMP),
    Entry("DEX", 0xCA, 2, Imp, DEX),
    Entry("SBX", 0xCB, 0, Imm, NUL),
    Entry("CPY", 0xCC, 4, Abl, CPY),
    Entry("CMP", 0xCD, 4, Abl, CMP),
    Entry("DEC", 0xCE, 6, Abl, DEC),
    Entry("DCP", 0xCF, 0, Abl, NUL)
  ]

  /** Opcodes 0xD0 to 0xDF. */
  const RowD: seq<Entry> := [
    Entry("BNE", 0xD0, 2, Rel, BNE),
    Entry("CMP", 0xD1, 5, Idy, CMP),
    Entry("STP", 0xD2, 0, Imp, NUL),
    Entry("DCP", 0xD3, 0, Idy, NUL),
    Entry("NOP", 0xD4, 0, Zpx, NUL),
    Entry("CMP", 0xD5, 4, Zpx, CMP),
    Entry("DEC", 0xD6, 6, Zpx, DEC),
    Entry("DCP", 0xD7, 0, Zpx, NUL),
    Entry("CLD", 0xD8, 2, Imp, CLD),
    Entry("CMP", 0xD9, 4, Aiy, CMP),
    Entry("NOP", 0xDA, 0, Imp, NUL),
    Entry("DCP", 0xDB, 0, Aiy, NUL),
    Entry("NOP", 0xDC, 0, Aix, NUL),
    Entry("CMP", 0xDD, 4, Aix, CMP),
    Entry("DEC", 0xDE, 7, Aix, DEC),
    Entry("DCP", 0xDF, 0, Aix, NUL)
  ]

  /** Opcodes 0xE0 to 0xEF. */
  const RowE: seq<Entry> := [
    Entry("CPX", 0xE0, 2, Imm, CPX),
    Entry("SBC", 0xE1, 6, Idx, SBC),
    Entry("NOP", 0xE2, 0, Imm, NUL),
    Entry("ISC", 0xE3, 0, Idx, NUL),
    Entry("CPX", 0xE4, 3, Zpa, CPX),
    Entry("SBC", 0xE5, 3, Zpa, SBC),
    Entry("INC", 0xE6, 5, Zpa, INC),
    Entry("ISC", 0xE7, 0, Zpa, NUL),
    Entry("INX", 0xE8, 2, Imp, INX),
    Entry("SBC", 0xE9, 2, Imm, SBC),
    Entry("NOP", 0xEA, 2, Imp, NOP),
    Entry("SBC", 0xEB, 0, Imm, NUL),
    Entry("CPX", 0xEC, 4, Abl, CPX),
    Entry("SBC", 0xED, 4, Abl, SBC),
    Entry("INC", 0xEE, 6, Abl, INC),
    Entry("ISC", 0xEF, 0, Abl, NUL)
  ]

  /** Opcodes 0xF0 to 0xFF. */
  const RowF: seq<Entry> := [
    Entry("BEQ", 0xF0, 2, Rel, BEQ),
    Entry("SBC", 0xF1, 5, Idy, SBC),
    Entry("STP", 0xF2, 0, Imp, NUL),
    Entry("ISC", 0xF3, 0, Idy, NUL),
    Entry("NOP", 0xF4, 0, Zpx, NUL),
    Entry("SBC", 0xF5, 4, Zpx, SBC),
    Entry("INC", 0xF6, 6, Zpx, INC),
    Entry("ISC", 0xF7, 0, Zpx, NUL),
    Entry("SED", 0xF8, 2, Imp, SED),
    Entry("SBC", 0xF9, 4, Aiy, SBC),
    Entry("NOP", 0xFA, 0, Imp, NUL),
    Entry("ISC", 0xFB, 0, Aiy, NUL),
    Entry("NOP", 0xFC, 0, Aix, NUL),
    Entry("SBC", 0xFD, 4, Aix, SBC),
    Entry("INC", 0xFE, 7, Aix, INC),
    Entry("ISC", 0xFF, 0, Aix, NUL)
  ]

  /** The row of the table that holds opcodes `0xk0` to `0xkF`. */
  function Row(k: nat): seq<Entry>
  {
    match k
    case 0 => Row0
    case 1 => Row1
    case 2 => Row2
    case 3 => Row3
    case 4 => Row4
    case 5 => Row5
    case 6 => Row6
    case 7 => Row7
    case 8 => Row8
    case 9 => Row9
    case 10 => RowA
    case 11 => RowB
    case 12 => RowC
    case 13 => RowD
    case 14 => RowE
    case _ => RowF
  }

  /** The table entry for an opcode byte. */
  function Decode(b: Byte): (e: Entry)
    ensures e.opcode == b
    ensures e.cycles == 0 <==> e.op == NUL
  {
    RowFacts(b / 16);
    Row(b / 16)[b % 16]
  }

  /** The mnemonic each documented handler implements. */
  function Mnemonic(op: Op): string
  {
    match op
    case ADC => "ADC"
    case AND => "AND"
    case ASL => "ASL"
    case BCC => "BCC"
    case BCS => "BCS"
    case BEQ => "BEQ"
    case BIT => "BIT"
    case BMI => "BMI"
    case BNE => "BNE"
    case BPL => "BPL"
    case BRK => "BRK"
    case BVC => "BVC"
    case BVS => "BVS"
    case CLC => "CLC"
    case CLD => "CLD"
    case CLI => "CLI"
    case CLV => "CLV"
    case CMP => "CMP"
    case CPX => "CPX"
    case CPY => "CPY"
    case DEC => "DEC"
    case DEX => "DEX"
    case DEY => "DEY"
    case EOR => "EOR"
    case INC => "INC"
    case INX => "INX"
    case INY => "INY"
    case JMP => "JMP"
    case JSR => "JSR"
    case LDA => "LDA"
    case LDX => "LDX"
    case LDY => "LDY"
    case LSR => "LSR"
    case NOP => "NOP"
    case ORA => "ORA"
    case PHA => "PHA"
    case PHP => "PHP"
    case PLA => "PLA"
    case PLP => "PLP"
    case ROL => "ROL"
    case ROR => "ROR"
    case RTI => "RTI"
    case RTS => "RTS"
    case SBC => "SBC"
    case SEC => "SEC"
    case SED => "SED"
    case SEI => "SEI"
    case STA => "STA"
    case STX => "STX"
    case STY => "STY"
    case TAX => "TAX"
    case TAY => "TAY"
    case TSX => "TSX"
    case TXA => "TXA"
    case TXS => "TXS"
    case TYA => "TYA"
    case NUL => ""
  }

  /**
    An entry sits at the index of its own opcode, has zero cycles exactly
    when it runs the do-nothing handler, and runs JSR only at 0x20, with the
    absolute resolver.
   */
  predicate Indexed(e: Entry, b: Byte)
  {
    && e.opcode == b
    && (e.cycles == 0 <==> e.op == NUL)
    && (e.op == JSR ==> b == 0x20 && e.mode == Abl)
  }

  /** A documented handler appears under its own mnemonic. */
  predicate Named(e: Entry)
  {
    e.op != NUL ==> e.name == Mnemonic(e.op)
  }

  /** The entries of one row, checked one row at a time. */
  lemma RowFacts(k: nat)
    requires k < 16
    ensures |Row(k)| == 16
    ensures forall j :: 0 <= j < 16 ==> Indexed(Row(k)[j], 16 * k + j) && Named(Row(k)[j])
  {
    match k
    case 0 => Row0Indexed(); Row0Named0(); Row0Named1(); Row0Named2(); Row0Named3();
    case 1 => Row1Indexed(); Row1Named0(); Row1Named1(); Row1Named2(); Row1Named3();
    case 2 => Row2Indexed(); Row2Named0(); Row2Named1(); Row2Named2(); Row2Named3();
    case 3 => Row3Indexed(); Row3Named0(); Row3Named1(); Row3Named2(); Row3Named3();
    case 4 => Row4Indexed(); Row4Named0(); Row4Named1(); Row4Named2(); Row4Named3();
    case 5 => Row5Indexed(); Row5Named0(); Row5Named1(); Row5Named2(); Row5Named3();
    case 6 => Row6Indexed(); Row6Named0(); Row6Named1(); Row6Named2(); Row6Named3();
    case 7 => Row7Indexed(); Row7Named0(); Row7Named1(); Row7Named2(); Row7Named3();
    case 8 => Row8Indexed(); Row8Named0(); Row8Named1(); Row8Named2(); Row8Named3();
    case 9 => Row9Indexed(); Row9Named0(); Row9Named1(); Row9Named2(); Row9Named3();
    case 10 => RowAIndexed(); RowANamed0(); RowANamed1(); RowANamed2(); RowANamed3();
    case 11 => RowBIndexed(); RowBNamed0(); RowBNamed1(); RowBNamed2(); RowBNamed3();
    case 12 => RowCIndexed(); RowCNamed0(); RowCNamed1(); RowCNamed2(); RowCNamed3();
    case 13 => RowDIndexed(); RowDNamed0(); RowDNamed1(); RowDNamed2(); RowDNamed3();
    case 14 => RowEIndexed(); RowENamed0(); RowENamed1(); RowENamed2(); RowENamed3();
    case _ => RowFIndexed(); RowFNamed0(); RowFNamed1(); RowFNamed2(); RowFNamed3();
  }

  lemma Row0Indexed()
    ensures forall j :: 0 <= j < 16 ==> Indexed(Row0[j], 0x00 + j)
  {
  }

  lemma Row0Named0()
    ensures forall j :: 0 <= j < 4 ==> Named(Row0[j])
  {
  }

  lemma Row0Named1()
    ensures forall j :: 4 <= j < 8 ==> Named(Row0[j])
  {
  }

  lemma Row0Named2()
    ensures forall j :: 8 <= j < 12 ==> Named(Row0[j])
  {
  }

  lemma Row0Named3()
    ensures forall j :: 12 <= j < 16 ==> Named(Row0[j])
  {
  }

  lemma Row1Indexed()
    ensures forall j :: 0 <= j < 16 ==> Indexed(Row1[j], 0x10 + j)
  {
  }

  lemma Row1Named0()
    ensures forall j :: 0 <= j < 4 ==> Named(Row1[j])
  {
  }

  lemma Row1Named1()
    ensures forall j :: 4 <= j < 8 ==> Named(Row1[j])
  {
  }

  lemma Row1Named2()
    ensures forall j :: 8 <= j < 12 ==> Named(Row1[j])
  {
  }

  lemma Row1Named3()
    ensures forall j :: 12 <= j < 16 ==> Named(Row1[j])
  {
  }

  lemma Row2Indexed()
    ensures forall j :: 0 <= j < 16 ==> Indexed(Row2[j], 0x20 + j)
  {
  }

  lemma Row2Named0()
    ensures forall j :: 0 <= j < 4 ==> Named(Row2[j])
  {
  }

  lemma Row2Named1()
    ensures forall j :: 4 <= j < 8 ==> Named(Row2[j])
  {
  }

  lemma Row2Named2()
    ensures forall j :: 8 <= j < 12 ==> Named(Row2[j])
  {
  }

  lemma Row2Named3()
    ensures forall j :: 12 <= j < 16 ==> Named(Row2[j])
  {
  }

  lemma Row3Indexed()
    ensures forall j :: 0 <= j < 16 ==> Indexed(Row3[j], 0x30 + j)
  {
  }

  lemma Row3Named0()
    ensures forall j :: 0 <= j < 4 ==> Named(Row3[j])
  {
  }

  lemma Row3Named1()
    ensures forall j :: 4 <= j < 8 ==> Named(Row3[j])
  {
  }

  lemma Row3Named2()
    ensures forall j :: 8 <= j < 12 ==> Named(Row3[j])
  {
  }

  lemma Row3Named3()
    ensures forall j :: 12 <= j < 16 ==> Named(Row3[j])
  {
  }

  lemma Row4Indexed()
    ensures forall j :: 0 <= j < 16 ==> Indexed(Row4[j], 0x40 + j)
  {
  }

  lemma Row4Named0()
    ensures forall j :: 0 <= j < 4 ==> Named(Row4[j])
  {
  }

  lemma Row4Named1()
    ensures forall j :: 4 <= j < 8 ==> Named(Row4[j])
  {
  }

  lemma Row4Named2()
    ensures forall j :: 8 <= j < 12 ==> Named(Row4[j])
  {
  }

  lemma Row4Named3()
    ensures forall j :: 12 <= j < 16 ==> Named(Row4[j])
  {
  }

  lemma Row5Indexed()
    ensures forall j :: 0 <= j < 16 ==> Indexed(Row5[j], 0x50 + j)
  {
  }

  lemma Row5Named0()
    ensures forall j :: 0 <= j < 4 ==> Named(Row5[j])
  {
  }

  lemma Row5Named1()
    ensures forall j :: 4 <= j < 8 ==> Named(Row5[j])
  {
  }

  lemma Row5Named2()
    ensures forall j :: 8 <= j < 12 ==> Named(Row5[j])
  {
  }

  lemma Row5Named3()
    ensures forall j :: 12 <= j < 16 ==> Named(Row5[j])
  {
  }

  lemma Row6Indexed()
    ensures forall j :: 0 <= j < 16 ==> Indexed(Row6[j], 0x60 + j)
  {
  }

  lemma Row6Named0()
    ensures forall j :: 0 <= j < 4 ==> Named(Row6[j])
  {
  }

  lemma Row6Named1()
    ensures forall j :: 4 <= j < 8 ==> Named(Row6[j])
  {
  }

  lemma Row6Named2()
    ensures forall j :: 8 <= j < 12 ==> Named(Row6[j])
  {
  }

  lemma Row6Named3()
    ensures forall j :: 12 <= j < 16 ==> Named(Row6[j])
  {
  }

  lemma Row7Indexed()
    ensures forall j :: 0 <= j < 16 ==> Indexed(Row7[j], 0x70 + j)
  {
  }

  lemma Row7Named0()
    ensures forall j :: 0 <= j < 4 ==> Named(Row7[j])
  {
  }

  lemma Row7Named1()
    ensures forall j :: 4 <= j < 8 ==> Named(Row7[j])
  {
  }

  lemma Row7Named2()
    ensures forall j :: 8 <= j < 12 ==> Named(Row7[j])
  {
  }

  lemma Row7Named3()
    ensures forall j :: 12 <= j < 16 ==> Named(Row7[j])
  {
  }

  lemma Row8Indexed()
    ensures forall j :: 0 <= j < 16 ==> Indexed(Row8[j], 0x80 + j)
  {
  }

  lemma Row8Named0()
    ensures forall j :: 0 <= j < 4 ==> Named(Row8[j])
  {
  }

  lemma Row8Named1()
    ensures forall j :: 4 <= j < 8 ==> Named(Row8[j])
  {
  }

  lemma Row8Named2()
    ensures forall j :: 8 <= j < 12 ==> Named(Row8[j])
  {
  }

  lemma Row8Named3()
    ensures forall j :: 12 <= j < 16 ==> Named(Row8[j])
  {
  }

  lemma Row9Indexed()
    ensures forall j :: 0 <= j < 16 ==> Indexed(Row9[j], 0x90 + j)
  {
  }

  lemma Row9Named0()
    ensures forall j :: 0 <= j < 4 ==> Named(Row9[j])
  {
  }

  lemma Row9Named1()
    ensures forall j :: 4 <= j < 8 ==> Named(Row9[j])
  {
  }

  lemma Row9Named2()
    ensures forall j :: 8 <= j < 12 ==> Named(Row9[j])
  {
  }

  lemma Row9Named3()
    ensures forall j :: 12 <= j < 16 ==> Named(Row9[j])
  {
  }

  lemma RowAIndexed()
    ensures forall j :: 0 <= j < 16 ==> Indexed(RowA[j], 0xA0 + j)
  {
  }

  lemma RowANamed0()
    ensures forall j :: 0 <= j < 4 ==> Named(RowA[j])
  {
  }

  lemma RowANamed1()
    ensures forall j :: 4 <= j < 8 ==> Named(RowA[j])
  {
  }

  lemma RowANamed2()
    ensures forall j :: 8 <= j < 12 ==> Named(RowA[j])
  {
  }

  lemma RowANamed3()
    ensures forall j :: 12 <= j < 16 ==> Named(RowA[j])
  {
  }

  lemma RowBIndexed()
    ensures forall j :: 0 <= j < 16 ==> Indexed(RowB[j], 0xB0 + j)
  {
  }

  lemma RowBNamed0()
    ensures forall j :: 0 <= j < 4 ==> Named(RowB[j])
  {
  }

  lemma RowBNamed1()
    ensures forall j :: 4 <= j < 8 ==> Named(RowB[j])
  {
  }

  lemma RowBNamed2()
    ensures forall j :: 8 <= j < 12 ==> Named(RowB[j])
  {
  }

  lemma RowBNamed3()
    ensures forall j :: 12 <= j < 16 ==> Named(RowB[j])
  {
  }

  lemma RowCIndexed()
    ensures forall j :: 0 <= j < 16 ==> Indexed(RowC[j], 0xC0 + j)
  {
  }

  lemma RowCNamed0()
    ensures forall j :: 0 <= j < 4 ==> Named(RowC[j])
  {
  }

  lemma RowCNamed1()
    ensures forall j :: 4 <= j < 8 ==> Named(RowC[j])
  {
  }

  lemma RowCNamed2()
    ensures forall j :: 8 <= j < 12 ==> Named(RowC[j])
  {
  }

  lemma RowCNamed3()
    ensures forall j :: 12 <= j < 16 ==> Named(RowC[j])
  {
  }

  lemma RowDIndexed()
    ensures forall j :: 0 <= j < 16 ==> Indexed(RowD[j], 0xD0 + j)
  {
  }

  lemma RowDNamed0()
    ensures forall j :: 0 <= j < 4 ==> Named(RowD[j])
  {
  }

  lemma RowDNamed1()
    ensures forall j :: 4 <= j < 8 ==> Named(RowD[j])
  {
  }

  lemma RowDNamed2()
    ensures forall j :: 8 <= j < 12 ==> Named(RowD[j])
  {
  }

  lemma RowDNamed3()
    ensures forall j :: 12 <= j < 16 ==> Named(RowD[j])
  {
  }

  lemma RowEIndexed()
    ensures forall j :: 0 <= j < 16 ==> Indexed(RowE[j], 0xE0 + j)
  {
  }

  lemma RowENamed0()
    ensures forall j :: 0 <= j < 4 ==> Named(RowE[j])
  {
  }

  lemma RowENamed1()
    ensures forall j :: 4 <= j < 8 ==> Named(RowE[j])
  {
  }

  lemma RowENamed2()
    ensures forall j :: 8 <= j < 12 ==> Named(RowE[j])
  {
  }

  lemma RowENamed3()
    ensures forall j :: 12 <= j < 16 ==> Named(RowE[j])
  {
  }

  lemma RowFIndexed()
    ensures forall j :: 0 <= j < 16 ==> Indexed(RowF[j], 0xF0 + j)
  {
  }

  lemma RowFNamed0()
    ensures forall j :: 0 <= j < 4 ==> Named(RowF[j])
  {
  }

  lemma RowFNamed1()
    ensures forall j :: 4 <= j < 8 ==> Named(RowF[j])
  {
  }

  lemma RowFNamed2()
    ensures forall j :: 8 <= j < 12 ==> Named(RowF[j])
  {
  }

  lemma RowFNamed3()
    ensures forall j :: 12 <= j < 16 ==> Named(RowF[j])
  {
  }

  /** Every entry of the table sits at its own opcode, names its handler and routes JSR to the absolute resolver. */
  lemma TableConsistent(b: Byte)
    ensures Indexed(Decode(b), b)
    ensures Decode(b).op != NUL ==> Decode(b).name == Mnemonic(Decode(b).op)
  {
    RowFacts(b / 16);
  }
}
