/** The instruction set: an instruction's form, and the decode by bit fields that the opcode map of the manual
    prescribes. */
module Isa {
  import opened Types

  datatype Register = A | B | C | D | E | H | L

  /** A three-bit operand field: a register, or the byte HL points at. */
  datatype Operand = R(reg: Register) | M

  datatype RegisterPair = BC | DE | HL | SP

  datatype StackPair = Pair(pair: RegisterPair) | Psw

  datatype Flag = Zero | Carry | Parity | Sign

  datatype Condition = Always | If(flag: Flag, wanted: bool)

  datatype AluOp = Add | Adc | Sub | Sbb | Ana | Xra | Ora | Cmp

  /** `SkipTwo` is what the undefined opcodes 0xDD, 0xED and 0xFD do; every other
      undefined opcode, and HLT, fails an assertion. */
  datatype Instr =
    | Nop | Hlt | Undefined | SkipTwo
    | Lxi(pair: RegisterPair) | Stax(pair: RegisterPair) | Ldax(pair: RegisterPair)
    | Inx(pair: RegisterPair) | Dcx(pair: RegisterPair) | Dad(pair: RegisterPair)
    | Inr(operand: Operand) | Dcr(operand: Operand) | Mvi(operand: Operand)
    | Rlc | Rrc | Ral | Rar | Daa | Cma | Stc | Cmc
    | Shld | Lhld | Sta | Lda
    | Mov(dst: Register, src: Register) | MovFromMemory(dst: Register) | MovToMemory(src: Register)
    | Arith(op: AluOp, operand: Operand) | ArithImmediate(op: AluOp)
    | Ret(cond: Condition) | Jmp(cond: Condition) | Call(cond: Condition) | Rst(vector: byte)
    | Push(stackPair: StackPair) | Pop(stackPair: StackPair)
    | In | Out | Xthl | Pchl | Xchg | Sphl | Di | Ei

  /** Instructions that stay inside the processor. */
  predicate Internal(i: Instr) {
    i.Nop? || i.SkipTwo? || i.Inx? || i.Dcx? || i.Dad? || i.Rlc? || i.Rrc? || i.Ral? || i.Rar? || i.Daa? || i.Cma?
    || i.Stc? || i.Cmc? || i.Mov? || i.Pchl? || i.Xchg? || i.Sphl? || i.Di? || i.Ei?
  }

  /** Of those, the ones on the accumulator and the flags. */
  predicate Adjusts(i: Instr) {
    i.Rlc? || i.Rrc? || i.Ral? || i.Rar? || i.Daa? || i.Cma? || i.Stc? || i.Cmc?
  }

  predicate Loads(i: Instr) {
    i.Lxi? || i.Ldax? || i.Lhld? || i.Lda? || i.MovFromMemory?
  }

  predicate Stores(i: Instr) {
    i.Stax? || i.Mvi? || i.Shld? || i.Sta? || i.MovToMemory?
  }

  predicate Computes(i: Instr) {
    i.Inr? || i.Dcr? || i.Arith? || i.ArithImmediate?
  }

  predicate Controls(i: Instr) {
    !Internal(i) && !Loads(i) && !Stores(i) && !Computes(i)
  }

  /** The encoded length in bytes. */
  function Length(i: Instr): nat {
    match i
    case Lxi(_) | Shld | Lhld | Sta | Lda | Jmp(_) | Call(_) => 3
    case Mvi(_) | ArithImmediate(_) | In | Out | SkipTwo => 2
    case _ => 1
  }

  /** Three-bit register field: B C D E H L M A. */
  function OperandField(n: nat): Operand
    requires n < 8
  {
    match n
    case 0 => R(B)
    case 1 => R(C)
    case 2 => R(D)
    case 3 => R(E)
    case 4 => R(H)
    case 5 => R(L)
    case 6 => M
    case _ => R(A)
  }

  /** Two-bit register-pair field: BC DE HL SP. */
  function PairField(n: nat): RegisterPair
    requires n < 4
  {
    match n
    case 0 => BC
    case 1 => DE
    case 2 => HL
    case _ => SP
  }

  /** The same field in PUSH and POP, where the last pair is the status word. */
  function StackField(n: nat): StackPair
    requires n < 4
  {
    if n == 3 then Psw else Pair(PairField(n))
  }

  function FlagField(n: nat): Flag
    requires n < 4
  {
    match n
    case 0 => Zero
    case 1 => Carry
    case 2 => Parity
    case _ => Sign
  }

  /** Three-bit condition field: NZ Z NC C PO PE P M. */
  function ConditionField(n: nat): Condition
    requires n < 8
  {
    If(FlagField(n / 2), n % 2 == 1)
  }

  function AluField(n: nat): AluOp
    requires n < 8
  {
    match n
    case 0 => Add
    case 1 => Adc
    case 2 => Sub
    case 3 => Sbb
    case 4 => Ana
    case 5 => Xra
    case 6 => Ora
    case _ => Cmp
  }

  /** Opcodes 00yyyzzz. */
  function DecodeLow(y: nat, z: nat): Instr
    requires y < 8 && z < 8
  {
    match z
    case 0 => if y == 0 then Nop else Undefined
    case 1 => if y % 2 == 0 then Lxi(PairField(y / 2)) else Dad(PairField(y / 2))
    case 2 =>
      if y < 4 then if y % 2 == 0 then Stax(PairField(y / 2)) else Ldax(PairField(y / 2))
      else if y < 6 then if y == 4 then Shld else Lhld
      else if y == 6 then Sta else Lda
    case 3 => if y % 2 == 0 then Inx(PairField(y / 2)) else Dcx(PairField(y / 2))
    case 4 => Inr(OperandField(y))
    case 5 => Dcr(OperandField(y))
    case 6 => Mvi(OperandField(y))
    case _ =>
      match y
      case 0 => Rlc
      case 1 => Rrc
      case 2 => Ral
      case 3 => Rar
      case 4 => Daa
      case 5 => Cma
      case 6 => Stc
      case _ => Cmc
  }

  /** Opcodes 01yyyzzz: moves, of which a register onto itself is a no-operation. */
  function DecodeMove(y: nat, z: nat): Instr
    requires y < 8 && z < 8
  {
    match (OperandField(y), OperandField(z))
    case (M, M) => Hlt
    case (R(d), M) => MovFromMemory(d)
    case (M, R(s)) => MovToMemory(s)
    case (R(d), R(s)) => if d == s then Nop else Mov(d, s)
  }

  /** Opcodes 11yyyzzz. */
  function DecodeHigh(y: nat, z: nat): Instr
    requires y < 8 && z < 8
  {
    match z
    case 0 => Ret(ConditionField(y))
    case 1 => if y % 2 == 0 then Pop(StackField(y / 2)) else
        (match y / 2
        case 0 => Ret(Always)
        case 1 => Undefined
        case 2 => Pchl
        case _ => Sphl)
    case 2 => Jmp(ConditionField(y))
    case 3 =>
      (match y
      case 0 => Jmp(Always)
      case 1 => Undefined
      case 2 => Out
      case 3 => In
      case 4 => Xthl
      case 5 => Xchg
      case 6 => Di
      case _ => Ei)
    case 4 => Call(ConditionField(y))
    case 5 => if y % 2 == 0 then Push(StackField(y / 2)) else if y == 1 then Call(Always) else SkipTwo
    case 6 => ArithImmediate(AluField(y))
    case _ => Rst(y)
  }

  /** Decode by bit fields: group in bits 6-7, destination or condition in 3-5, source in 0-2. */
  function Decode(op: byte): Instr {
    var y, z := op / 8 % 8, op % 8;
    match op / 64
    case 0 => DecodeLow(y, z)
    case 1 => DecodeMove(y, z)
    case 2 => Arith(AluField(y), OperandField(z))
    case _ => DecodeHigh(y, z)
  }
}
