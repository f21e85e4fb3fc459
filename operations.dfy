/** The opcode decoder: turns the byte at the program counter, and the one
    or two operand bytes after it when the opcode has any, into an operation
    descriptor or an error. This is the decoder as the core has it, not the
    hardware table: 16-bit immediates take the first byte as the high byte,
    0x36 decodes to SCF, (HL+) and (HL-) both name HL, and a number of bytes
    (0x18, 0x37, 0x76, the LD r,(HL) column, ...) have no entry. */
module Operations {
  import opened Gameboy
  import opened MemoryMap

  /** 8-bit registers. */
  datatype Reg8 = B | C | D | E | H | L | A {
    /** The declared discriminant, which is also the 3-bit register field. */
    function Code(): (c: u8)
      ensures c <= 7 && c != 6
    {
      match this
      case B => 0
      case C => 1
      case D => 2
      case E => 3
      case H => 4
      case L => 5
      case A => 7
    }
  }

  /** 16-bit register pairs. */
  datatype Reg16 = BC | DE | HL | SP | AF {
    /** The declared discriminant. */
    function Code(): (c: u8)
      ensures c <= 4
    {
      match this
      case BC => 0
      case DE => 1
      case HL => 2
      case SP => 3
      case AF => 4
    }
  }

  /** Jump conditions. */
  datatype Condition = Z | NZ | C | NC {
    /** The 2-bit condition field that selects this condition. */
    function Field(): (f: u8)
      ensures f <= 3
    {
      match this
      case NZ => 0
      case Z => 1
      case NC => 2
      case C => 3
    }
  }

  /** The operations the decoder produces. */
  datatype Opcode =
    | Adc8AccHl
    | Adc8Imm(imm8: Imm8)
    | Adc8Reg(reg: Reg8)
    | Add16HlReg(pair: Reg16)
    | Add8AccHl
    | Add8Imm(imm8: Imm8)
    | Add8Reg(reg: Reg8)
    | AddSp(offset: Offset8)
    | And8AccHl
    | And8Imm(imm8: Imm8)
    | And8Reg(reg: Reg8)
    | Call(imm16: Imm16)
    | CallCond(cond: Condition, imm16: Imm16)
    | Ccf
    | Cp8AccHl
    | Cp8Imm(imm8: Imm8)
    | Cp8Reg(reg: Reg8)
    | Cpl
    | Daa
    | Dec16Reg(pair: Reg16)
    | Dec8MemHl
    | Dec8Reg(reg: Reg8)
    | Di
    | Ei
    | Inc16Reg(pair: Reg16)
    | Inc8MemHl
    | Inc8Reg(reg: Reg8)
    | Jp(cond: Condition, imm16: Imm16)
    | JpHl
    | JpImm(imm16: Imm16)
    | Jr(cond: Condition, offset: Offset8)
    | Ld16RegImm(pair: Reg16, imm16: Imm16)
    | Ld8AccMem(pair: Reg16)
    | Ld8AccMemImm(imm16: Imm16)
    | St8MemImmAcc(imm16: Imm16)
    | Ld8RegImm(reg: Reg8, imm8: Imm8)
    | Ld8RegReg(dst: Reg8, src: Reg8)
    | LdHlSp(offset: Offset8)
    | LdSpHl
    | LdcAccMem
    | LdcMemAcc
    | LdhAccMem(imm8: Imm8)
    | LdhMemAcc(imm8: Imm8)
    | Nop
    | Or8AccHl
    | Or8Imm(imm8: Imm8)
    | Or8Reg(reg: Reg8)
    | Pop(pair: Reg16)
    | Push(pair: Reg16)
    | Ret
    | RetCond(cond: Condition)
    | Reti
    | Rla
    | Rlca
    | Rra
    | Rrca
    | Rst(vector: Imm8)
    | Sbc8AccHl
    | Sbc8Imm(imm8: Imm8)
    | Sbc8Reg(reg: Reg8)
    | Scf
    | St16MemSp(imm16: Imm16)
    | St8MemRegAcc(pair: Reg16)
    | Stop
    | Sub8AccHl
    | Sub8Imm(imm8: Imm8)
    | Sub8Reg(reg: Reg8)
    | Xor8AccHl
    | Xor8Imm(imm8: Imm8)
    | Xor8Reg(reg: Reg8)

  /** A decoded operation together with the byte it was decoded from. */
  datatype Operation = Operation(opcode: Opcode, prefix: u8)

  /** Opcodes whose operand is an 8-bit register named by bits 2-0 or 5-3. */
  predicate ReadsRegister(op: Opcode) {
    op.Adc8Reg? || op.Add8Reg? || op.And8Reg? || op.Cp8Reg? || op.Dec8Reg? || op.Inc8Reg? || op.Or8Reg?
    || op.Sbc8Reg? || op.Sub8Reg? || op.Xor8Reg?
  }

  /** Opcodes carrying an 8-bit immediate read from the byte after the prefix. */
  predicate HasImm8(op: Opcode) {
    op.Adc8Imm? || op.Add8Imm? || op.And8Imm? || op.Cp8Imm? || op.Ld8RegImm? || op.LdhAccMem?
    || op.LdhMemAcc? || op.Or8Imm? || op.Sbc8Imm? || op.Sub8Imm? || op.Xor8Imm?
  }

  /** Opcodes carrying a 16-bit immediate read from the two bytes after the prefix. */
  predicate HasImm16(op: Opcode) {
    op.Call? || op.CallCond? || op.Jp? || op.JpImm? || op.Ld16RegImm? || op.Ld8AccMemImm?
    || op.St8MemImmAcc? || op.St16MemSp?
  }

  /** Opcodes carrying a signed offset read from the byte after the prefix. */
  predicate HasOffset8(op: Opcode) {
    op.AddSp? || op.Jr? || op.LdHlSp?
  }

  /** Number of operand bytes an opcode carries. */
  function OperandLength(op: Opcode): nat {
    if HasImm16(op) then 2 else if HasImm8(op) || HasOffset8(op) then 1 else 0
  }

  /** Prefixes whose operation takes a 16-bit immediate. Like the two
      predicates after it, it is written row by row of the opcode grid: the
      high nibble selects the row, the low nibble the cell. */
  predicate TakesImm16(p: u8) {
    var lo := p & 0xF;
    match p >> 4
    case 0x0 => lo == 0x1 || lo == 0x8
    case 0x1 | 0x2 | 0x3 => lo == 0x1
    case 0xC => lo == 0x2 || lo == 0x3 || lo == 0x4 || lo == 0xA || lo == 0xC || lo == 0xD
    case 0xD => lo == 0x2 || lo == 0x4 || lo == 0xA || lo == 0xC
    case 0xE | 0xF => lo == 0xA
    case _ => false
  }

  /** Prefixes whose operation takes an 8-bit immediate or offset, row by row. */
  predicate TakesImm8(p: u8) {
    var lo := p & 0xF;
    match p >> 4
    case 0x0 | 0x1 => lo == 0x6 || lo == 0xE
    case 0x2 => lo == 0x0 || lo == 0x6 || lo == 0x8 || lo == 0xE
    case 0x3 => lo == 0x0 || lo == 0x8 || lo == 0xE
    case 0xC | 0xD => lo == 0x6 || lo == 0xE
    case 0xE | 0xF => lo == 0x0 || lo == 0x6 || lo == 0x8 || lo == 0xE
    case _ => false
  }

  /** Bytes the decoder has no entry for, row by row. */
  predicate IsUndefined(p: u8) {
    var lo := p & 0xF;
    match p >> 4
    case 0x1 => lo == 0x8
    case 0x3 => lo == 0x7
    case 0x4 | 0x5 | 0x6 => lo == 0x6 || lo == 0xE
    case 0x7 => lo <= 0x7 || lo == 0xE
    case 0xD => lo == 0x3 || lo == 0xB || lo == 0xD
    case 0xE => lo == 0x3 || lo == 0x4 || lo == 0xB || lo == 0xC || lo == 0xD
    case 0xF => lo == 0x4 || lo == 0xC || lo == 0xD
    case _ => false
  }

  /** The prefix of the extended (ALU) table. */
  const AluPrefix: u8 := 0xCB

  /** How many bytes after the prefix the decoder reads. */
  function OperandBytes(prefix: u8): (n: nat)
    ensures n <= 2
  {
    if TakesImm16(prefix) then 2
    else if TakesImm8(prefix) || prefix == AluPrefix then 1
    else 0
  }

  /** The byte reinterpreted as a two's-complement signed offset. */
  function AsOffset8(b: u8): (o: Offset8)
    ensures (o + 256) % 256 == b as int
    ensures o < 0 <==> b & 0x80 == 0x80
  {
    if b < 0x80 then b as int else b as int - 256
  }

  /** Register from bits 5-3 of the prefix; field value 6 gives A. */
  function PrefixIntoReg8Hi(prefix: u8): (r: Reg8)
    ensures (prefix >> 3) & 7 != 6 ==> r.Code() == (prefix >> 3) & 7
    ensures (prefix >> 3) & 7 == 6 ==> r == A
  {
    match (prefix >> 3) & 0x07
    case 0 => B
    case 1 => Reg8.C
    case 2 => D
    case 3 => E
    case 4 => H
    case 5 => L
    case _ => A
  }

  /** Register from bits 2-0 of the prefix; field value 6 gives A. */
  function PrefixIntoReg8Lo(prefix: u8): (r: Reg8)
    ensures prefix & 7 != 6 ==> r.Code() == prefix & 7
    ensures prefix & 7 == 6 ==> r == A
  {
    match prefix & 0x07
    case 0 => B
    case 1 => Reg8.C
    case 2 => D
    case 3 => E
    case 4 => H
    case 5 => L
    case _ => A
  }

  /** Register pair from bits 5-4 of the prefix, 3 naming SP. */
  function PrefixIntoReg16(prefix: u8): (r: Reg16)
    ensures r != AF && r.Code() == (prefix >> 4) & 3
  {
    match (prefix >> 4) & 0x03
    case 0 => BC
    case 1 => DE
    case 2 => HL
    case _ => SP
  }

  /** Register pair from bits 5-4 of the prefix for the (HL+)/(HL-) forms:
      both 2 and 3 name HL. */
  function PrefixIntoReg16Hl(prefix: u8): (r: Reg16)
    ensures r in {BC, DE, HL}
    ensures (prefix >> 4) & 3 <= 2 ==> r.Code() == (prefix >> 4) & 3
    ensures (prefix >> 4) & 3 == 3 ==> r == HL
  {
    match (prefix >> 4) & 0x03
    case 0 => BC
    case 1 => DE
    case _ => HL
  }

  /** Register pair from bits 5-4 of the prefix for PUSH/POP, 3 naming AF. */
  function PrefixIntoReg16Af(prefix: u8): (r: Reg16)
    ensures r != SP
    ensures (prefix >> 4) & 3 <= 2 ==> r.Code() == (prefix >> 4) & 3
    ensures (prefix >> 4) & 3 == 3 ==> r == AF
  {
    match (prefix >> 4) & 0x03
    case 0 => BC
    case 1 => DE
    case 2 => HL
    case _ => AF
  }

  /** Condition from bits 4-3 of the prefix: NZ, Z, NC, C in that order. */
  function PrefixIntoCond(prefix: u8): (c: Condition)
    ensures c.Field() == (prefix >> 3) & 3
  {
    match (prefix >> 3) & 0x03
    case 0 => NZ
    case 1 => Z
    case 2 => NC
    case _ => Condition.C
  }

  /** The extended table: every byte after 0xCB is unknown. */
  function FromAluPrefix(prefix: u8): (r: GameboyResult<Operation>)
    ensures r.Err? && r.error.kind == UnknownAluOpcodePrefix(prefix)
  {
    Err(NewError(UnknownAluOpcodePrefix(prefix)))
  }

  /** Prefixes 0x00-0x0F: NOP, the 16-bit loads, stores and arithmetic on
      BC, the 8-bit increments, decrements and immediate loads of B and C,
      LD (a16),SP, RLCA and RRCA. */
  function Row0(prefix: u8, imm8: u8, imm16: u16): (r: Option<Opcode>)
    requires prefix >> 4 == 0x0
    ensures r.None? <==> IsUndefined(prefix) || prefix == AluPrefix
    ensures r.Some? ==> OperandLength(r.value) == OperandBytes(prefix)
    ensures r.Some? && HasImm8(r.value) ==> r.value.imm8 == imm8
    ensures r.Some? && HasImm16(r.value) ==> r.value.imm16 == imm16
    ensures r.Some? && HasOffset8(r.value) ==> r.value.offset == AsOffset8(imm8)
    ensures r == Some(Nop) ==> prefix == 0x00
  {
    match prefix & 0xF
    case 0x0 => Some(Nop)
    case 0x1 => Some(Ld16RegImm(PrefixIntoReg16(prefix), imm16))
    case 0x2 => Some(St8MemRegAcc(PrefixIntoReg16Hl(prefix)))
    case 0x3 => Some(Inc16Reg(PrefixIntoReg16(prefix)))
    case 0x4 | 0xC => Some(Inc8Reg(PrefixIntoReg8Hi(prefix)))
    case 0x5 | 0xD => Some(Dec8Reg(PrefixIntoReg8Hi(prefix)))
    case 0x6 | 0xE => Some(Ld8RegImm(PrefixIntoReg8Hi(prefix), imm8))
    case 0x7 => Some(Rlca)
    case 0x8 => Some(St16MemSp(imm16))
    case 0x9 => Some(Add16HlReg(PrefixIntoReg16(prefix)))
    case 0xA => Some(Ld8AccMem(PrefixIntoReg16Hl(prefix)))
    case 0xB => Some(Dec16Reg(PrefixIntoReg16(prefix)))
    case 0xF => Some(Rrca)
  }

  /** Prefixes 0x10-0x1F: STOP, the same groups on DE, D and E, RLA and RRA;
      0x18 has no entry. */
  function Row1(prefix: u8, imm8: u8, imm16: u16): (r: Option<Opcode>)
    requires prefix >> 4 == 0x1
    ensures r.None? <==> IsUndefined(prefix) || prefix == AluPrefix
    ensures r.Some? ==> OperandLength(r.value) == OperandBytes(prefix)
    ensures r.Some? && HasImm8(r.value) ==> r.value.imm8 == imm8
    ensures r.Some? && HasImm16(r.value) ==> r.value.imm16 == imm16
    ensures r.Some? && HasOffset8(r.value) ==> r.value.offset == AsOffset8(imm8)
    ensures r != Some(Nop)
  {
    match prefix & 0xF
    case 0x0 => Some(Stop)
    case 0x1 => Some(Ld16RegImm(PrefixIntoReg16(prefix), imm16))
    case 0x2 => Some(St8MemRegAcc(PrefixIntoReg16Hl(prefix)))
    case 0x3 => Some(Inc16Reg(PrefixIntoReg16(prefix)))
    case 0x4 | 0xC => Some(Inc8Reg(PrefixIntoReg8Hi(prefix)))
    case 0x5 | 0xD => Some(Dec8Reg(PrefixIntoReg8Hi(prefix)))
    case 0x6 | 0xE => Some(Ld8RegImm(PrefixIntoReg8Hi(prefix), imm8))
    case 0x7 => Some(Rla)
    case 0x8 => None
    case 0x9 => Some(Add16HlReg(PrefixIntoReg16(prefix)))
    case 0xA => Some(Ld8AccMem(PrefixIntoReg16Hl(prefix)))
    case 0xB => Some(Dec16Reg(PrefixIntoReg16(prefix)))
    case 0xF => Some(Rra)
  }

  /** Prefixes 0x20-0x2F: JR NZ/Z, the same groups on HL, H and L, DAA and
      CPL. */
  function Row2(prefix: u8, imm8: u8, imm16: u16): (r: Option<Opcode>)
    requires prefix >> 4 == 0x2
    ensures r.None? <==> IsUndefined(prefix) || prefix == AluPrefix
    ensures r.Some? ==> OperandLength(r.value) == OperandBytes(prefix)
    ensures r.Some? && HasImm8(r.value) ==> r.value.imm8 == imm8
    ensures r.Some? && HasImm16(r.value) ==> r.value.imm16 == imm16
    ensures r.Some? && HasOffset8(r.value) ==> r.value.offset == AsOffset8(imm8)
    ensures r != Some(Nop)
  {
    match prefix & 0xF
    case 0x0 | 0x8 => Some(Jr(PrefixIntoCond(prefix), AsOffset8(imm8)))
    case 0x1 => Some(Ld16RegImm(PrefixIntoReg16(prefix), imm16))
    case 0x2 => Some(St8MemRegAcc(PrefixIntoReg16Hl(prefix)))
    case 0x3 => Some(Inc16Reg(PrefixIntoReg16(prefix)))
    case 0x4 | 0xC => Some(Inc8Reg(PrefixIntoReg8Hi(prefix)))
    case 0x5 | 0xD => Some(Dec8Reg(PrefixIntoReg8Hi(prefix)))
    case 0x6 | 0xE => Some(Ld8RegImm(PrefixIntoReg8Hi(prefix), imm8))
    case 0x7 => Some(Daa)
    case 0x9 => Some(Add16HlReg(PrefixIntoReg16(prefix)))
    case 0xA => Some(Ld8AccMem(PrefixIntoReg16Hl(prefix)))
    case 0xB => Some(Dec16Reg(PrefixIntoReg16(prefix)))
    case 0xF => Some(Cpl)
  }

  /** Prefixes 0x30-0x3F: JR NC/C, the same groups on SP and A, INC/DEC
      (HL), CCF; 0x36 gives SCF and 0x37 has no entry. */
  function Row3(prefix: u8, imm8: u8, imm16: u16): (r: Option<Opcode>)
    requires prefix >> 4 == 0x3
    ensures r.None? <==> IsUndefined(prefix) || prefix == AluPrefix
    ensures r.Some? ==> OperandLength(r.value) == OperandBytes(prefix)
    ensures r.Some? && HasImm8(r.value) ==> r.value.imm8 == imm8
    ensures r.Some? && HasImm16(r.value) ==> r.value.imm16 == imm16
    ensures r.Some? && HasOffset8(r.value) ==> r.value.offset == AsOffset8(imm8)
    ensures r != Some(Nop)
  {
    match prefix & 0xF
    case 0x0 | 0x8 => Some(Jr(PrefixIntoCond(prefix), AsOffset8(imm8)))
    case 0x1 => Some(Ld16RegImm(PrefixIntoReg16(prefix), imm16))
    case 0x2 => Some(St8MemRegAcc(PrefixIntoReg16Hl(prefix)))
    case 0x3 => Some(Inc16Reg(PrefixIntoReg16(prefix)))
    case 0x4 => Some(Inc8MemHl)
    case 0x5 => Some(Dec8MemHl)
    case 0x6 => Some(Scf)
    case 0x7 => None
    case 0x9 => Some(Add16HlReg(PrefixIntoReg16(prefix)))
    case 0xA => Some(Ld8AccMem(PrefixIntoReg16Hl(prefix)))
    case 0xB => Some(Dec16Reg(PrefixIntoReg16(prefix)))
    case 0xC => Some(Inc8Reg(PrefixIntoReg8Hi(prefix)))
    case 0xD => Some(Dec8Reg(PrefixIntoReg8Hi(prefix)))
    case 0xE => Some(Ld8RegImm(PrefixIntoReg8Hi(prefix), imm8))
    case 0xF => Some(Ccf)
  }

  /** Prefixes 0x40-0x4F: LD B,r and LD C,r; the (HL) sources have no entry. */
  function Row4(prefix: u8, imm8: u8, imm16: u16): (r: Option<Opcode>)
    requires prefix >> 4 == 0x4
    ensures r.None? <==> IsUndefined(prefix) || prefix == AluPrefix
    ensures r.Some? ==> OperandLength(r.value) == OperandBytes(prefix)
    ensures r.Some? && HasImm8(r.value) ==> r.value.imm8 == imm8
    ensures r.Some? && HasImm16(r.value) ==> r.value.imm16 == imm16
    ensures r.Some? && HasOffset8(r.value) ==> r.value.offset == AsOffset8(imm8)
    ensures r != Some(Nop)
  {
    match prefix & 0xF
    case 0x0 | 0x1 | 0x2 | 0x3 | 0x4 | 0x5 | 0x7 | 0x8 | 0x9 | 0xA | 0xB | 0xC | 0xD | 0xF =>
      Some(Ld8RegReg(PrefixIntoReg8Hi(prefix), PrefixIntoReg8Lo(prefix)))
    case 0x6 | 0xE => None
  }

  /** Prefixes 0x50-0x5F: LD D,r and LD E,r; the (HL) sources have no entry. */
  function Row5(prefix: u8, imm8: u8, imm16: u16): (r: Option<Opcode>)
    requires prefix >> 4 == 0x5
    ensures r.None? <==> IsUndefined(prefix) || prefix == AluPrefix
    ensures r.Some? ==> OperandLength(r.value) == OperandBytes(prefix)
    ensures r.Some? && HasImm8(r.value) ==> r.value.imm8 == imm8
    ensures r.Some? && HasImm16(r.value) ==> r.value.imm16 == imm16
    ensures r.Some? && HasOffset8(r.value) ==> r.value.offset == AsOffset8(imm8)
    ensures r != Some(Nop)
  {
    match prefix & 0xF
    case 0x0 | 0x1 | 0x2 | 0x3 | 0x4 | 0x5 | 0x7 | 0x8 | 0x9 | 0xA | 0xB | 0xC | 0xD | 0xF =>
      Some(Ld8RegReg(PrefixIntoReg8Hi(prefix), PrefixIntoReg8Lo(prefix)))
    case 0x6 | 0xE => None
  }

  /** Prefixes 0x60-0x6F: LD H,r and LD L,r; the (HL) sources have no entry. */
  function Row6(prefix: u8, imm8: u8, imm16: u16): (r: Option<Opcode>)
    requires prefix >> 4 == 0x6
    ensures r.None? <==> IsUndefined(prefix) || prefix == AluPrefix
    ensures r.Some? ==> OperandLength(r.value) == OperandBytes(prefix)
    ensures r.Some? && HasImm8(r.value) ==> r.value.imm8 == imm8
    ensures r.Some? && HasImm16(r.value) ==> r.value.imm16 == imm16
    ensures r.Some? && HasOffset8(r.value) ==> r.value.offset == AsOffset8(imm8)
    ensures r != Some(Nop)
  {
    match prefix & 0xF
    case 0x0 | 0x1 | 0x2 | 0x3 | 0x4 | 0x5 | 0x7 | 0x8 | 0x9 | 0xA | 0xB | 0xC | 0xD | 0xF =>
      Some(Ld8RegReg(PrefixIntoReg8Hi(prefix), PrefixIntoReg8Lo(prefix)))
    case 0x6 | 0xE => None
  }

  /** Prefixes 0x70-0x7F: LD A,r; the stores to (HL), HALT and LD A,(HL)
      have no entry. */
  function Row7(prefix: u8, imm8: u8, imm16: u16): (r: Option<Opcode>)
    requires prefix >> 4 == 0x7
    ensures r.None? <==> IsUndefined(prefix) || prefix == AluPrefix
    ensures r.Some? ==> OperandLength(r.value) == OperandBytes(prefix)
    ensures r.Some? && HasImm8(r.value) ==> r.value.imm8 == imm8
    ensures r.Some? && HasImm16(r.value) ==> r.value.imm16 == imm16
    ensures r.Some? && HasOffset8(r.value) ==> r.value.offset == AsOffset8(imm8)
    ensures r != Some(Nop)
  {
    match prefix & 0xF
    case 0x0 | 0x1 | 0x2 | 0x3 | 0x4 | 0x5 | 0x6 | 0x7 | 0xE => None
    case 0x8 | 0x9 | 0xA | 0xB | 0xC | 0xD | 0xF =>
      Some(Ld8RegReg(PrefixIntoReg8Hi(prefix), PrefixIntoReg8Lo(prefix)))
  }

  /** Prefixes 0x80-0x8F: ADD A,r and ADC A,r. */
  function Row8(prefix: u8, imm8: u8, imm16: u16): (r: Option<Opcode>)
    requires prefix >> 4 == 0x8
    ensures r.None? <==> IsUndefined(prefix) || prefix == AluPrefix
    ensures r.Some? ==> OperandLength(r.value) == OperandBytes(prefix)
    ensures r.Some? && HasImm8(r.value) ==> r.value.imm8 == imm8
    ensures r.Some? && HasImm16(r.value) ==> r.value.imm16 == imm16
    ensures r.Some? && HasOffset8(r.value) ==> r.value.offset == AsOffset8(imm8)
    ensures r != Some(Nop)
  {
    match prefix & 0xF
    case 0x0 | 0x1 | 0x2 | 0x3 | 0x4 | 0x5 | 0x7 => Some(Add8Reg(PrefixIntoReg8Lo(prefix)))
    case 0x6 => Some(Add8AccHl)
    case 0x8 | 0x9 | 0xA | 0xB | 0xC | 0xD | 0xF => Some(Adc8Reg(PrefixIntoReg8Lo(prefix)))
    case 0xE => Some(Adc8AccHl)
  }

  /** Prefixes 0x90-0x9F: SUB r and SBC A,r. */
  function Row9(prefix: u8, imm8: u8, imm16: u16): (r: Option<Opcode>)
    requires prefix >> 4 == 0x9
    ensures r.None? <==> IsUndefined(prefix) || prefix == AluPrefix
    ensures r.Some? ==> OperandLength(r.value) == OperandBytes(prefix)
    ensures r.Some? && HasImm8(r.value) ==> r.value.imm8 == imm8
    ensures r.Some? && HasImm16(r.value) ==> r.value.imm16 == imm16
    ensures r.Some? && HasOffset8(r.value) ==> r.value.offset == AsOffset8(imm8)
    ensures r != Some(Nop)
  {
    match prefix & 0xF
    case 0x0 | 0x1 | 0x2 | 0x3 | 0x4 | 0x5 | 0x7 => Some(Sub8Reg(PrefixIntoReg8Lo(prefix)))
    case 0x6 => Some(Sub8AccHl)
    case 0x8 | 0x9 | 0xA | 0xB | 0xC | 0xD | 0xF => Some(Sbc8Reg(PrefixIntoReg8Lo(prefix)))
    case 0xE => Some(Sbc8AccHl)
  }

  /** Prefixes 0xA0-0xAF: AND r and XOR r. */
  function RowA(prefix: u8, imm8: u8, imm16: u16): (r: Option<Opcode>)
    requires prefix >> 4 == 0xA
    ensures r.None? <==> IsUndefined(prefix) || prefix == AluPrefix
    ensures r.Some? ==> OperandLength(r.value) == OperandBytes(prefix)
    ensures r.Some? && HasImm8(r.value) ==> r.value.imm8 == imm8
    ensures r.Some? && HasImm16(r.value) ==> r.value.imm16 == imm16
    ensures r.Some? && HasOffset8(r.value) ==> r.value.offset == AsOffset8(imm8)
    ensures r != Some(Nop)
  {
    match prefix & 0xF
    case 0x0 | 0x1 | 0x2 | 0x3 | 0x4 | 0x5 | 0x7 => Some(And8Reg(PrefixIntoReg8Lo(prefix)))
    case 0x6 => Some(And8AccHl)
    case 0x8 | 0x9 | 0xA | 0xB | 0xC | 0xD | 0xF => Some(Xor8Reg(PrefixIntoReg8Lo(prefix)))
    case 0xE => Some(Xor8AccHl)
  }

  /** Prefixes 0xB0-0xBF: OR r and CP r. */
  function RowB(prefix: u8, imm8: u8, imm16: u16): (r: Option<Opcode>)
    requires prefix >> 4 == 0xB
    ensures r.None? <==> IsUndefined(prefix) || prefix == AluPrefix
    ensures r.Some? ==> OperandLength(r.value) == OperandBytes(prefix)
    ensures r.Some? && HasImm8(r.value) ==> r.value.imm8 == imm8
    ensures r.Some? && HasImm16(r.value) ==> r.value.imm16 == imm16
    ensures r.Some? && HasOffset8(r.value) ==> r.value.offset == AsOffset8(imm8)
    ensures r != Some(Nop)
  {
    match prefix & 0xF
    case 0x0 | 0x1 | 0x2 | 0x3 | 0x4 | 0x5 | 0x7 => Some(Or8Reg(PrefixIntoReg8Lo(prefix)))
    case 0x6 => Some(Or8AccHl)
    case 0x8 | 0x9 | 0xA | 0xB | 0xC | 0xD | 0xF => Some(Cp8Reg(PrefixIntoReg8Lo(prefix)))
    case 0xE => Some(Cp8AccHl)
  }

  /** Prefixes 0xC0-0xCF: RET NZ/Z, POP/PUSH BC, JP, CALL, RST 0x00/0x08,
      RET, ADD/ADC A,d8; 0xCB belongs to the extended table. */
  function RowC(prefix: u8, imm8: u8, imm16: u16): (r: Option<Opcode>)
    requires prefix >> 4 == 0xC
    ensures r.None? <==> IsUndefined(prefix) || prefix == AluPrefix
    ensures r.Some? ==> OperandLength(r.value) == OperandBytes(prefix)
    ensures r.Some? && HasImm8(r.value) ==> r.value.imm8 == imm8
    ensures r.Some? && HasImm16(r.value) ==> r.value.imm16 == imm16
    ensures r.Some? && HasOffset8(r.value) ==> r.value.offset == AsOffset8(imm8)
    ensures r != Some(Nop)
  {
    match prefix & 0xF
    case 0x0 | 0x8 => Some(RetCond(PrefixIntoCond(prefix)))
    case 0x1 => Some(Pop(PrefixIntoReg16Af(prefix)))
    case 0x2 | 0xA => Some(Jp(PrefixIntoCond(prefix), imm16))
    case 0x3 => Some(JpImm(imm16))
    case 0x4 | 0xC => Some(CallCond(PrefixIntoCond(prefix), imm16))
    case 0x5 => Some(Push(PrefixIntoReg16Af(prefix)))
    case 0x6 => Some(Add8Imm(imm8))
    case 0x7 | 0xF => Some(Rst(prefix & 0x38))
    case 0x9 => Some(Ret)
    case 0xB => None // 0xCB: handled before the table is consulted
    case 0xD => Some(Call(imm16))
    case 0xE => Some(Adc8Imm(imm8))
  }

  /** Prefixes 0xD0-0xDF: RET NC/C, POP/PUSH DE, conditional JP and CALL,
      RST 0x10/0x18, RETI, SUB/SBC d8. */
  function RowD(prefix: u8, imm8: u8, imm16: u16): (r: Option<Opcode>)
    requires prefix >> 4 == 0xD
    ensures r.None? <==> IsUndefined(prefix) || prefix == AluPrefix
    ensures r.Some? ==> OperandLength(r.value) == OperandBytes(prefix)
    ensures r.Some? && HasImm8(r.value) ==> r.value.imm8 == imm8
    ensures r.Some? && HasImm16(r.value) ==> r.value.imm16 == imm16
    ensures r.Some? && HasOffset8(r.value) ==> r.value.offset == AsOffset8(imm8)
    ensures r != Some(Nop)
  {
    match prefix & 0xF
    case 0x0 | 0x8 => Some(RetCond(PrefixIntoCond(prefix)))
    case 0x1 => Some(Pop(PrefixIntoReg16Af(prefix)))
    case 0x2 | 0xA => Some(Jp(PrefixIntoCond(prefix), imm16))
    case 0x3 | 0xB | 0xD => None
    case 0x4 | 0xC => Some(CallCond(PrefixIntoCond(prefix), imm16))
    case 0x5 => Some(Push(PrefixIntoReg16Af(prefix)))
    case 0x6 => Some(Sub8Imm(imm8))
    case 0x7 | 0xF => Some(Rst(prefix & 0x38))
    case 0x9 => Some(Reti)
    case 0xE => Some(Sbc8Imm(imm8))
  }

  /** Prefixes 0xE0-0xEF: LDH (a8),A, LD (C),A, POP/PUSH HL, AND/XOR d8, ADD
      SP,r8, JP HL, LD (a16),A, RST 0x20/0x28. */
  function RowE(prefix: u8, imm8: u8, imm16: u16): (r: Option<Opcode>)
    requires prefix >> 4 == 0xE
    ensures r.None? <==> IsUndefined(prefix) || prefix == AluPrefix
    ensures r.Some? ==> OperandLength(r.value) == OperandBytes(prefix)
    ensures r.Some? && HasImm8(r.value) ==> r.value.imm8 == imm8
    ensures r.Some? && HasImm16(r.value) ==> r.value.imm16 == imm16
    ensures r.Some? && HasOffset8(r.value) ==> r.value.offset == AsOffset8(imm8)
    ensures r != Some(Nop)
  {
    match prefix & 0xF
    case 0x0 => Some(LdhMemAcc(imm8))
    case 0x1 => Some(Pop(PrefixIntoReg16Af(prefix)))
    case 0x2 => Some(LdcMemAcc)
    case 0x3 | 0x4 | 0xB | 0xC | 0xD => None
    case 0x5 => Some(Push(PrefixIntoReg16Af(prefix)))
    case 0x6 => Some(And8Imm(imm8))
    case 0x7 | 0xF => Some(Rst(prefix & 0x38))
    case 0x8 => Some(AddSp(AsOffset8(imm8)))
    case 0x9 => Some(JpHl)
    case 0xA => Some(St8MemImmAcc(imm16))
    case 0xE => Some(Xor8Imm(imm8))
  }

  /** Prefixes 0xF0-0xFF: LDH A,(a8), LD A,(C), POP/PUSH AF, DI, EI, OR/CP
      d8, LD HL,SP+r8, LD SP,HL, LD A,(a16), RST 0x30/0x38. */
  function RowF(prefix: u8, imm8: u8, imm16: u16): (r: Option<Opcode>)
    requires prefix >> 4 == 0xF
    ensures r.None? <==> IsUndefined(prefix) || prefix == AluPrefix
    ensures r.Some? ==> OperandLength(r.value) == OperandBytes(prefix)
    ensures r.Some? && HasImm8(r.value) ==> r.value.imm8 == imm8
    ensures r.Some? && HasImm16(r.value) ==> r.value.imm16 == imm16
    ensures r.Some? && HasOffset8(r.value) ==> r.value.offset == AsOffset8(imm8)
    ensures r != Some(Nop)
  {
    match prefix & 0xF
    case 0x0 => Some(LdhAccMem(imm8))
    case 0x1 => Some(Pop(PrefixIntoReg16Af(prefix)))
    case 0x2 => Some(LdcAccMem)
    case 0x3 => Some(Di)
    case 0x4 | 0xC | 0xD => None
    case 0x5 => Some(Push(PrefixIntoReg16Af(prefix)))
    case 0x6 => Some(Or8Imm(imm8))
    case 0x7 | 0xF => Some(Rst(prefix & 0x38))
    case 0x8 => Some(LdHlSp(AsOffset8(imm8)))
    case 0x9 => Some(LdSpHl)
    case 0xA => Some(Ld8AccMemImm(imm16))
    case 0xB => Some(Ei)
    case 0xE => Some(Cp8Imm(imm8))

  }

  /** The decoding table: the cell of the prefix byte. `imm8` is the byte
      after the prefix and `imm16` the word after it; a cell that has no such
      operand ignores them. No cell answers for 0xCB, which `Decode` hands to
      the extended table. */
  function Table(prefix: u8, imm8: u8, imm16: u16): (r: Option<Opcode>)
    ensures r.None? <==> IsUndefined(prefix) || prefix == AluPrefix
    ensures r.Some? ==> OperandLength(r.value) == OperandBytes(prefix)
    ensures r.Some? && HasImm8(r.value) ==> r.value.imm8 == imm8
    ensures r.Some? && HasImm16(r.value) ==> r.value.imm16 == imm16
    ensures r.Some? && HasOffset8(r.value) ==> r.value.offset == AsOffset8(imm8)
    ensures r == Some(Nop) <==> prefix == 0x00
  {
    match prefix >> 4
    case 0x0 => Row0(prefix, imm8, imm16)
    case 0x1 => Row1(prefix, imm8, imm16)
    case 0x2 => Row2(prefix, imm8, imm16)
    case 0x3 => Row3(prefix, imm8, imm16)
    case 0x4 => Row4(prefix, imm8, imm16)
    case 0x5 => Row5(prefix, imm8, imm16)
    case 0x6 => Row6(prefix, imm8, imm16)
    case 0x7 => Row7(prefix, imm8, imm16)
    case 0x8 => Row8(prefix, imm8, imm16)
    case 0x9 => Row9(prefix, imm8, imm16)
    case 0xA => RowA(prefix, imm8, imm16)
    case 0xB => RowB(prefix, imm8, imm16)
    case 0xC => RowC(prefix, imm8, imm16)
    case 0xD => RowD(prefix, imm8, imm16)
    case 0xE => RowE(prefix, imm8, imm16)
    case _ => RowF(prefix, imm8, imm16)
  }

  /** Decodes one operation: 0xCB goes to the extended table with the byte
      after it, a filled cell becomes an operation tagged with its prefix,
      an empty cell an unknown-prefix error. */
  function Decode(prefix: u8, imm8: u8, imm16: u16): (r: GameboyResult<Operation>)
    ensures r.Ok? ==> r.value.prefix == prefix
    ensures r.Err? <==> IsUndefined(prefix) || prefix == AluPrefix
    ensures IsUndefined(prefix) ==> r == Err(NewError(UnknownOpcodePrefix(prefix)))
    ensures prefix == AluPrefix ==> r == Err(NewError(UnknownAluOpcodePrefix(imm8)))
    ensures r.Ok? ==> OperandLength(r.value.opcode) == OperandBytes(prefix)
    ensures r.Ok? && HasImm8(r.value.opcode) ==> r.value.opcode.imm8 == imm8
    ensures r.Ok? && HasImm16(r.value.opcode) ==> r.value.opcode.imm16 == imm16
    ensures r.Ok? && HasOffset8(r.value.opcode) ==> r.value.opcode.offset == AsOffset8(imm8)
    ensures r.Ok? && r.value.opcode == Nop <==> prefix == 0x00
  {
    if prefix == AluPrefix then FromAluPrefix(imm8)
    else match Table(prefix, imm8, imm16)
      case Some(opcode) => Ok(Operation(opcode, prefix))
      case None => Err(NewError(UnknownOpcodePrefix(prefix)))
  }

  /** The decoder can read everything it needs at `pc`: the prefix, and the
      operand bytes when the prefix has any (reads that would abort, and a
      `pc + 1` past the top of the address space, are excluded). */
  ghost predicate CanDecodeAt(memory: Memory, pc: Address)
    reads memory, memory.data, memory.cartridge
  {
    && memory.Valid()
    && memory.ByteReadable(pc)
    && var n := OperandBytes(memory.ReadByte(pc));
    && (n == 1 ==> pc < 0xFFFF && memory.ByteReadable(pc + 1))
    && (n == 2 ==> pc < 0xFFFF && memory.WordReadable(pc + 1))
  }

  /** Decodes the operation at `pc`, reading operand bytes only when the
      prefix calls for them. */
  function FromMemory(pc: Address, memory: Memory): (r: GameboyResult<Operation>)
    reads memory, memory.data, memory.cartridge
    requires CanDecodeAt(memory, pc)
    ensures r.Ok? ==> r.value.prefix == memory.ReadByte(pc)
    ensures r.Err? <==> IsUndefined(memory.ReadByte(pc)) || memory.ReadByte(pc) == AluPrefix
    ensures IsUndefined(memory.ReadByte(pc)) ==>
              r == Err(NewError(UnknownOpcodePrefix(memory.ReadByte(pc))))
    ensures memory.ReadByte(pc) == AluPrefix ==>
              pc < 0xFFFF && memory.ByteReadable(pc + 1)
              && r == Err(NewError(UnknownAluOpcodePrefix(memory.ReadByte(pc + 1))))
    ensures r.Ok? && HasImm8(r.value.opcode) ==>
              pc < 0xFFFF && memory.ByteReadable(pc + 1) && r.value.opcode.imm8 == memory.ReadByte(pc + 1)
    ensures r.Ok? && r.value.opcode == Nop <==> memory.ReadByte(pc) == 0x00
  {
    var prefix := memory.ReadByte(pc);
    var n := OperandBytes(prefix);
    var imm8 := if n >= 1 then memory.ReadByte(pc + 1) else 0;
    var imm16 := if n == 2 then memory.ReadWord(pc + 1) else 0;
    Decode(prefix, imm8, imm16)
  }

  /** Decoding at `pc` is `Decode` of the byte at `pc` with some operand
      values, so every fact proved about `Decode` for all operands holds of
      it; `FromMemoryOperands` and `FromMemory` say which bytes those
      operands are. */
  lemma FromMemoryDecodes(pc: Address, memory: Memory)
    requires CanDecodeAt(memory, pc)
    ensures exists imm8: u8, imm16: u16 :: FromMemory(pc, memory) == Decode(memory.ReadByte(pc), imm8, imm16)
  {
    var n := OperandBytes(memory.ReadByte(pc));
    var imm8 := if n >= 1 then memory.ReadByte(pc + 1) else 0;
    var imm16 := if n == 2 then memory.ReadWord(pc + 1) else 0;
    assert FromMemory(pc, memory) == Decode(memory.ReadByte(pc), imm8, imm16);
  }

  /** The offset and 16-bit operands of the operation decoded at `pc` are
      the bytes that follow the prefix, the first one being the high byte of
      a 16-bit immediate. */
  lemma FromMemoryOperands(pc: Address, memory: Memory)
    requires CanDecodeAt(memory, pc)
    ensures var r := FromMemory(pc, memory);
      r.Ok? && HasOffset8(r.value.opcode) ==>
        pc < 0xFFFF && memory.ByteReadable(pc + 1)
        && r.value.opcode.offset == AsOffset8(memory.ReadByte(pc + 1))
    ensures var r := FromMemory(pc, memory);
      r.Ok? && HasImm16(r.value.opcode) ==>
        pc < 0xFFFE && memory.ByteReadable(pc + 1) && memory.ByteReadable(pc + 2)
        && r.value.opcode.imm16 == MakeU16(memory.ReadByte(pc + 1), memory.ReadByte(pc + 2))
  {
  }

  /** The LD r,r' block: bits 5-3 name the destination and bits 2-0 the
      source, in the order B, C, D, E, H, L, -, A. */
  lemma RegisterLoads(prefix: u8, imm8: u8, imm16: u16)
    requires 0x40 <= prefix <= 0x7F && !IsUndefined(prefix)
    ensures var r := Decode(prefix, imm8, imm16);
      && r.Ok? && r.value.opcode.Ld8RegReg?
      && r.value.opcode.dst.Code() == (prefix >> 3) & 7
      && r.value.opcode.src.Code() == prefix & 7
  {
  }

  /** The accumulator block, operands: bits 2-0 name the register in the
      order B, C, D, E, H, L, -, A, and field 6 selects the (HL) form. */
  lemma AccumulatorOperands(prefix: u8, imm8: u8, imm16: u16)
    requires 0x80 <= prefix <= 0xBF
    ensures var r := Decode(prefix, imm8, imm16);
      r.Ok? && (prefix & 7 == 6 <==> !ReadsRegister(r.value.opcode))
    ensures var r := Decode(prefix, imm8, imm16);
      r.Ok? && ReadsRegister(r.value.opcode) ==> r.value.opcode.reg.Code() == prefix & 7
  {
    // one row of the grid at a time
    if prefix < 0x90 {
    } else if prefix < 0xA0 {
    } else if prefix < 0xB0 {
    } else {
    }
  }

  /** The accumulator block, operations: bits 5-3 choose ADD, ADC, SUB,
      SBC, AND, XOR, OR or CP. */
  lemma AccumulatorOperations(prefix: u8, imm8: u8, imm16: u16)
    requires 0x80 <= prefix <= 0xBF
    ensures var r := Decode(prefix, imm8, imm16);
      && r.Ok?
      && var op := r.value.opcode;
      && (op.Add8Reg? || op == Add8AccHl <==> (prefix >> 3) & 7 == 0)
      && (op.Adc8Reg? || op == Adc8AccHl <==> (prefix >> 3) & 7 == 1)
      && (op.Sub8Reg? || op == Sub8AccHl <==> (prefix >> 3) & 7 == 2)
      && (op.Sbc8Reg? || op == Sbc8AccHl <==> (prefix >> 3) & 7 == 3)
      && (op.And8Reg? || op == And8AccHl <==> (prefix >> 3) & 7 == 4)
      && (op.Xor8Reg? || op == Xor8AccHl <==> (prefix >> 3) & 7 == 5)
      && (op.Or8Reg? || op == Or8AccHl <==> (prefix >> 3) & 7 == 6)
      && (op.Cp8Reg? || op == Cp8AccHl <==> (prefix >> 3) & 7 == 7)
  {
  }

  /** RST: the eight bytes 0xC7, 0xCF, ..., 0xFF restart at eight times
      their bits 5-3. */
  lemma RestartVectors(prefix: u8, imm8: u8, imm16: u16)
    requires prefix & 0xC7 == 0xC7
    ensures var r := Decode(prefix, imm8, imm16);
      && r.Ok? && r.value.opcode.Rst?
      && r.value.opcode.vector as int == ((prefix >> 3) & 7) as int * 8
  {
  }

  /** The register-pair columns of rows 0x0-0x3: column 1 is LD rr,d16,
      3 INC rr, 9 ADD HL,rr and B DEC rr, each on the pair whose code is the
      row (3 naming SP); column 2 is LD (rr),A and A is LD A,(rr), on BC
      and DE in rows 0 and 1 and on HL for both (HL+) and (HL-). */
  lemma PairColumns(prefix: u8, imm8: u8, imm16: u16)
    requires prefix < 0x40
    ensures var r := Decode(prefix, imm8, imm16);
      prefix & 0xF == 0x1 ==>
        r.Ok? && r.value.opcode.Ld16RegImm? && r.value.opcode.pair.Code() == prefix >> 4
        && r.value.opcode.imm16 == imm16
    ensures var r := Decode(prefix, imm8, imm16);
      prefix & 0xF == 0x3 ==> r.Ok? && r.value.opcode.Inc16Reg? && r.value.opcode.pair.Code() == prefix >> 4
    ensures var r := Decode(prefix, imm8, imm16);
      prefix & 0xF == 0x9 ==> r.Ok? && r.value.opcode.Add16HlReg? && r.value.opcode.pair.Code() == prefix >> 4
    ensures var r := Decode(prefix, imm8, imm16);
      prefix & 0xF == 0xB ==> r.Ok? && r.value.opcode.Dec16Reg? && r.value.opcode.pair.Code() == prefix >> 4
    ensures var r := Decode(prefix, imm8, imm16);
      prefix & 0xF == 0x2 ==>
        r.Ok? && r.value.opcode.St8MemRegAcc?
        && r.value.opcode.pair == (if prefix < 0x20 then PrefixIntoReg16(prefix) else HL)
    ensures var r := Decode(prefix, imm8, imm16);
      prefix & 0xF == 0xA ==>
        r.Ok? && r.value.opcode.Ld8AccMem?
        && r.value.opcode.pair == (if prefix < 0x20 then PrefixIntoReg16(prefix) else HL)
  {
  }

  /** The 8-bit columns of rows 0x0-0x3: columns 4/C are INC r, 5/D DEC r
      and 6/E LD r,d8, on the register whose code is bits 5-3; where those
      bits are 6, 0x34 is INC (HL), 0x35 DEC (HL) and 0x36 SCF. */
  lemma ByteColumns(prefix: u8, imm8: u8, imm16: u16)
    requires prefix < 0x40
    ensures var r := Decode(prefix, imm8, imm16);
      prefix & 7 == 4 ==>
        r.Ok? && (if (prefix >> 3) & 7 == 6 then r.value.opcode == Inc8MemHl
                  else r.value.opcode.Inc8Reg? && r.value.opcode.reg.Code() == (prefix >> 3) & 7)
    ensures var r := Decode(prefix, imm8, imm16);
      prefix & 7 == 5 ==>
        r.Ok? && (if (prefix >> 3) & 7 == 6 then r.value.opcode == Dec8MemHl
                  else r.value.opcode.Dec8Reg? && r.value.opcode.reg.Code() == (prefix >> 3) & 7)
    ensures var r := Decode(prefix, imm8, imm16);
      prefix & 7 == 6 ==>
        r.Ok? && (if (prefix >> 3) & 7 == 6 then r.value.opcode == Scf
                  else r.value.opcode.Ld8RegImm? && r.value.opcode.reg.Code() == (prefix >> 3) & 7
                       && r.value.opcode.imm8 == imm8)
  {
  }

  /** The immediate accumulator column (0xC6, 0xCE, ..., 0xFE): bits 5-3
      choose ADD, ADC, SUB, SBC, AND, XOR, OR or CP with the byte after the
      prefix. */
  lemma ImmediateArithmetic(prefix: u8, imm8: u8, imm16: u16)
    requires prefix & 0xC7 == 0xC6
    ensures var r := Decode(prefix, imm8, imm16);
      && r.Ok? && HasImm8(r.value.opcode) && r.value.opcode.imm8 == imm8
      && var op := r.value.opcode;
      && (op.Add8Imm? <==> (prefix >> 3) & 7 == 0)
      && (op.Adc8Imm? <==> (prefix >> 3) & 7 == 1)
      && (op.Sub8Imm? <==> (prefix >> 3) & 7 == 2)
      && (op.Sbc8Imm? <==> (prefix >> 3) & 7 == 3)
      && (op.And8Imm? <==> (prefix >> 3) & 7 == 4)
      && (op.Xor8Imm? <==> (prefix >> 3) & 7 == 5)
      && (op.Or8Imm? <==> (prefix >> 3) & 7 == 6)
      && (op.Cp8Imm? <==> (prefix >> 3) & 7 == 7)
  {
  }

  /** POP and PUSH: field 3 of bits 5-4 names AF. */
  lemma StackPairs(prefix: u8, imm8: u8, imm16: u16)
    requires prefix >= 0xC0 && (prefix & 0xF == 0x1 || prefix & 0xF == 0x5)
    ensures var r := Decode(prefix, imm8, imm16);
      && r.Ok? && (r.value.opcode.Pop? <==> prefix & 0xF == 0x1)
      && (r.value.opcode.Pop? || r.value.opcode.Push?)
      && r.value.opcode.pair == (if prefix >= 0xF0 then AF else PrefixIntoReg16(prefix))
  {
  }

  /** The conditional forms, whose bits 4-3 give NZ, Z, NC, C: JR at
      0x20-0x38, RET at 0xC0-0xD8, JP at 0xC2-0xDA and CALL at 0xC4-0xDC. */
  lemma ConditionFields(prefix: u8, imm8: u8, imm16: u16)
    ensures var r := Decode(prefix, imm8, imm16);
      prefix & 0xE7 == 0x20 ==>
        r.Ok? && r.value.opcode.Jr? && r.value.opcode.cond.Field() == (prefix >> 3) & 3
        && r.value.opcode.offset == AsOffset8(imm8)
    ensures var r := Decode(prefix, imm8, imm16);
      prefix & 0xE7 == 0xC0 ==>
        r.Ok? && r.value.opcode.RetCond? && r.value.opcode.cond.Field() == (prefix >> 3) & 3
    ensures var r := Decode(prefix, imm8, imm16);
      prefix & 0xE7 == 0xC2 ==>
        r.Ok? && r.value.opcode.Jp? && r.value.opcode.cond.Field() == (prefix >> 3) & 3
        && r.value.opcode.imm16 == imm16
    ensures var r := Decode(prefix, imm8, imm16);
      prefix & 0xE7 == 0xC4 ==>
        r.Ok? && r.value.opcode.CallCond? && r.value.opcode.cond.Field() == (prefix >> 3) & 3
        && r.value.opcode.imm16 == imm16
  {
  }

  /** The accumulator rotations: RLCA, RRCA, RLA, RRA. */
  lemma RotateBytes(prefix: u8, imm8: u8, imm16: u16)
    ensures prefix == 0x07 ==> Decode(prefix, imm8, imm16) == Ok(Operation(Rlca, prefix))
    ensures prefix == 0x0F ==> Decode(prefix, imm8, imm16) == Ok(Operation(Rrca, prefix))
    ensures prefix == 0x17 ==> Decode(prefix, imm8, imm16) == Ok(Operation(Rla, prefix))
    ensures prefix == 0x1F ==> Decode(prefix, imm8, imm16) == Ok(Operation(Rra, prefix))
  {
  }

  /** STOP, DAA, CPL and CCF. */
  lemma MiscLowBytes(prefix: u8, imm8: u8, imm16: u16)
    ensures prefix == 0x10 ==> Decode(prefix, imm8, imm16) == Ok(Operation(Stop, prefix))
    ensures prefix == 0x27 ==> Decode(prefix, imm8, imm16) == Ok(Operation(Daa, prefix))
    ensures prefix == 0x2F ==> Decode(prefix, imm8, imm16) == Ok(Operation(Cpl, prefix))
    ensures prefix == 0x3F ==> Decode(prefix, imm8, imm16) == Ok(Operation(Ccf, prefix))
  {
  }

  /** The stack-pointer cells: LD (a16),SP, ADD SP,r8, LD HL,SP+r8 and
      LD SP,HL. */
  lemma StackPointerBytes(prefix: u8, imm8: u8, imm16: u16)
    ensures prefix == 0x08 ==> Decode(prefix, imm8, imm16) == Ok(Operation(St16MemSp(imm16), prefix))
    ensures prefix == 0xE8 ==> Decode(prefix, imm8, imm16) == Ok(Operation(AddSp(AsOffset8(imm8)), prefix))
    ensures prefix == 0xF8 ==> Decode(prefix, imm8, imm16) == Ok(Operation(LdHlSp(AsOffset8(imm8)), prefix))
    ensures prefix == 0xF9 ==> Decode(prefix, imm8, imm16) == Ok(Operation(LdSpHl, prefix))
  {
  }

  /** The unconditional transfers: JP a16, RET, CALL a16, RETI and JP HL. */
  lemma JumpBytes(prefix: u8, imm8: u8, imm16: u16)
    ensures prefix == 0xC3 ==> Decode(prefix, imm8, imm16) == Ok(Operation(JpImm(imm16), prefix))
    ensures prefix == 0xC9 ==> Decode(prefix, imm8, imm16) == Ok(Operation(Ret, prefix))
    ensures prefix == 0xCD ==> Decode(prefix, imm8, imm16) == Ok(Operation(Call(imm16), prefix))
    ensures prefix == 0xD9 ==> Decode(prefix, imm8, imm16) == Ok(Operation(Reti, prefix))
    ensures prefix == 0xE9 ==> Decode(prefix, imm8, imm16) == Ok(Operation(JpHl, prefix))
  {
  }

  /** The high-page loads: LDH (a8),A, LD (C),A, LDH A,(a8) and LD A,(C). */
  lemma HighPageLoads(prefix: u8, imm8: u8, imm16: u16)
    ensures prefix == 0xE0 ==> Decode(prefix, imm8, imm16) == Ok(Operation(LdhMemAcc(imm8), prefix))
    ensures prefix == 0xE2 ==> Decode(prefix, imm8, imm16) == Ok(Operation(LdcMemAcc, prefix))
    ensures prefix == 0xF0 ==> Decode(prefix, imm8, imm16) == Ok(Operation(LdhAccMem(imm8), prefix))
    ensures prefix == 0xF2 ==> Decode(prefix, imm8, imm16) == Ok(Operation(LdcAccMem, prefix))
  {
  }

  /** LD (a16),A, LD A,(a16), DI and EI. */
  lemma AbsoluteLoadsAndInterrupts(prefix: u8, imm8: u8, imm16: u16)
    ensures prefix == 0xEA ==> Decode(prefix, imm8, imm16) == Ok(Operation(St8MemImmAcc(imm16), prefix))
    ensures prefix == 0xFA ==> Decode(prefix, imm8, imm16) == Ok(Operation(Ld8AccMemImm(imm16), prefix))
    ensures prefix == 0xF3 ==> Decode(prefix, imm8, imm16) == Ok(Operation(Di, prefix))
    ensures prefix == 0xFB ==> Decode(prefix, imm8, imm16) == Ok(Operation(Ei, prefix))
  {
  }

  /** 0x36, LD (HL),d8 on the hardware, decodes to SCF and takes no
      operand. */
  lemma ScfAt0x36(imm8: u8, imm16: u16)
    ensures Decode(0x36, imm8, imm16) == Ok(Operation(Scf, 0x36))
    ensures OperandBytes(0x36) == 0
  {
  }

  /** The bytes 0x01, 0x12, 0x34 decode to LD BC,0x1234: the first operand
      byte is the high byte. */
  lemma ImmediateHighByteFirst()
    ensures Decode(0x01, 0x12, MakeU16(0x12, 0x34)) == Ok(Operation(Ld16RegImm(BC, 0x1234), 0x01))
  {
  }

  /** Offsets are two's complement: 0x01 is +1 and 0xFE is -2. */
  lemma OffsetExamples()
    ensures AsOffset8(0x01) == 1 && AsOffset8(0xFE) == -2
    ensures Decode(0xF8, 0xFE, 0) == Ok(Operation(LdHlSp(-2), 0xF8))
    ensures Decode(0x20, 0x01, 0) == Ok(Operation(Jr(NZ, 1), 0x20))
  {
  }

  /** Both (HL+) and (HL-) stores name HL. */
  lemma HlIncrementForms()
    ensures Decode(0x22, 0, 0) == Ok(Operation(St8MemRegAcc(HL), 0x22))
    ensures Decode(0x32, 0, 0) == Ok(Operation(St8MemRegAcc(HL), 0x32))
  {
  }

  /** 0xCB reports the byte after it; a byte without an entry reports
      itself. */
  lemma ErrorExamples()
    ensures Decode(0xCB, 0x37, 0) == Err(NewError(UnknownAluOpcodePrefix(0x37)))
    ensures Decode(0x18, 0x05, 0) == Err(NewError(UnknownOpcodePrefix(0x18)))
  {
  }

  /** Three bytes 0x01, 0x12, 0x34 at `pc` decode to LD BC,0x1234. */
  lemma FromMemoryExample(pc: Address, memory: Memory)
    requires memory.Valid() && pc < 0xFFFE
    requires memory.ByteReadable(pc) && memory.WordReadable(pc + 1) && memory.ByteReadable(pc + 2)
    requires memory.ReadByte(pc) == 0x01 && memory.ReadByte(pc + 1) == 0x12 && memory.ReadByte(pc + 2) == 0x34
    ensures CanDecodeAt(memory, pc)
    ensures FromMemory(pc, memory) == Ok(Operation(Ld16RegImm(BC, 0x1234), 0x01))
  {
  }
}
