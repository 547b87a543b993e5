/** The architectural machine: registers, memory and the step function the bus-level
    interpreter refines. Every instruction is stated as its effect on registers, flags,
    memory, ports and clock ticks. */
module Core {
  import opened Types
  import opened Alu
  import opened Isa

  datatype Cpu = Cpu(a: byte, b: byte, c: byte, d: byte, e: byte, h: byte, l: byte,
                     f: Status, pc: word, sp: word, iff: bool)

  datatype State = State(cpu: Cpu, mem: Mem)

  datatype IoEvent = Input(port: word, value: byte) | Output(port: word, value: byte)

  /** `Trap` stands for a failed assertion: HLT and most undefined opcodes. */
  datatype Outcome = Trap | Next(s: State, ticks: nat, io: seq<IoEvent>)

  /** What the environment supplies to one instruction: an interrupt raised on the bus
      since the last one, and the value each input port would return. */
  datatype Env = Env(irq: Option<byte>, input: word -> byte)

  // ---------- registers ----------

  function Reg(u: Cpu, r: Register): byte {
    match r
    case A => u.a case B => u.b case C => u.c case D => u.d case E => u.e case H => u.h case L => u.l
  }

  function SetReg(u: Cpu, r: Register, v: byte): Cpu {
    match r
    case A => u.(a := v) case B => u.(b := v) case C => u.(c := v) case D => u.(d := v)
    case E => u.(e := v) case H => u.(h := v) case L => u.(l := v)
  }

  function PairValue(u: Cpu, p: RegisterPair): word {
    match p
    case BC => Word(u.b, u.c) case DE => Word(u.d, u.e) case HL => Word(u.h, u.l) case SP => u.sp
  }

  function SetPair(u: Cpu, p: RegisterPair, w: word): Cpu {
    match p
    case BC => u.(b := Hi(w), c := Lo(w)) case DE => u.(d := Hi(w), e := Lo(w))
    case HL => u.(h := Hi(w), l := Lo(w)) case SP => u.(sp := w)
  }

  function StackValue(u: Cpu, p: StackPair): word {
    match p
    case Psw => Word(u.a, StatusByte(u.f))
    case Pair(q) => PairValue(u, q)
  }

  /** A popped status byte is forced into the canonical pattern. */
  function SetStackPair(u: Cpu, p: StackPair, w: word): Cpu {
    match p
    case Psw => u.(a := Hi(w), f := Canonicalise(ByteStatus(Lo(w))))
    case Pair(q) => SetPair(u, q, w)
  }

  function Operated(s: State, o: Operand): byte {
    match o
    case R(r) => Reg(s.cpu, r)
    case M => s.mem[PairValue(s.cpu, HL)]
  }

  function Holds(f: Status, c: Condition): bool {
    match c
    case Always => true
    case If(Zero, w) => f.z == w
    case If(Carry, w) => f.c == w
    case If(Parity, w) => f.p == w
    case If(Sign, w) => f.s == w
  }

  // ---------- memory ----------

  function Code(s: State, k: int): byte
    requires 0 <= k <= 2
  {
    s.mem[Plus(s.cpu.pc, k)]
  }

  function Direct(s: State): word {
    Word(Code(s, 2), Code(s, 1))
  }

  function ReadWord(m: Mem, w: word): word {
    Word(m[Plus(w, 1)], m[w])
  }

  function WriteWord(m: Mem, w: word, high: byte, low: byte): Mem {
    m[w := low][Plus(w, 1) := high]
  }

  /** The stack grows down; the high byte is written first. */
  function PushBytes(s: State, high: byte, low: byte): State {
    State(s.cpu.(sp := Plus(s.cpu.sp, -2)), s.mem[Plus(s.cpu.sp, -1) := high][Plus(s.cpu.sp, -2) := low])
  }

  function PushWord(s: State, v: word): State {
    PushBytes(s, Hi(v), Lo(v))
  }

  /** Step over `n` bytes of code. */
  function Skip(u: Cpu, n: nat): Cpu
    requires n <= 3
  {
    u.(pc := Plus(u.pc, n))
  }

  // ---------- instructions ----------

  function Arithmetic(op: AluOp, u: Cpu, v: byte): Cpu {
    match op
    case Add => Accumulate(u, Add8(u.a, v, false, u.f))
    case Adc => Accumulate(u, Add8(u.a, v, u.f.c, u.f))
    case Sub => Accumulate(u, Sub8(u.a, v, false, u.f))
    case Sbb => Accumulate(u, Sub8(u.a, v, u.f.c, u.f))
    case Ana => Accumulate(u, And8(u.a, v, u.f))
    case Xra => Accumulate(u, Xor8(u.a, v, u.f))
    case Ora => Accumulate(u, Or8(u.a, v, u.f))
    case Cmp => u.(f := Sub8(u.a, v, false, u.f).f)
  }

  function Accumulate(u: Cpu, r: Result): Cpu {
    u.(a := r.value, f := r.f)
  }

  function DoubleAdd(u: Cpu, v: word): Cpu {
    var sum := PairValue(u, HL) + v;
    SetPair(u, HL, sum % 0x10000).(f := u.f.(c := sum > 0xFFFF))
  }

  function RotatedLeft(u: Cpu, entering: bool): Cpu {
    u.(a := Shifted(u.a) + Bit(entering), f := u.f.(c := u.a >= 0x80))
  }

  function RotatedRight(u: Cpu, entering: bool): Cpu {
    u.(a := u.a / 2 + 0x80 * Bit(entering), f := u.f.(c := u.a % 2 == 1))
  }

  /** Fall through over `n` bytes of code with registers `u` and memory `m`. */
  function Through(n: nat, u: Cpu, m: Mem, ticks: nat): Outcome
    requires n <= 3
  {
    Next(State(Skip(u, n), m), ticks, [])
  }

  function Jump(s: State, target: word, ticks: nat): Outcome {
    Next(s.(cpu := s.cpu.(pc := target)), ticks, [])
  }

  /** Push the return address and transfer control. */
  function Enter(s: State, back: word, target: word, ticks: nat): Outcome {
    Jump(PushWord(s, back), target, ticks)
  }

  /** INR and DCR: a result for a register or for the byte at HL. */
  function ExecBump(s: State, o: Operand, r: Result): Outcome {
    match o
    case R(reg) => Through(1, SetReg(s.cpu, reg, r.value).(f := r.f), s.mem, 5)
    case M => Through(1, s.cpu.(f := r.f), s.mem[PairValue(s.cpu, HL) := r.value], 10)
  }

  function ExecMvi(s: State, o: Operand): Outcome {
    match o
    case R(reg) => Through(2, SetReg(s.cpu, reg, Code(s, 1)), s.mem, 7)
    case M => Through(2, s.cpu, s.mem[PairValue(s.cpu, HL) := Code(s, 1)], 10)
  }

  function ExecLxi(s: State, p: RegisterPair): Outcome {
    Through(3, SetPair(s.cpu, p, Direct(s)), s.mem, 10)
  }

  function ExecStax(s: State, p: RegisterPair): Outcome {
    Through(1, s.cpu, s.mem[PairValue(s.cpu, p) := s.cpu.a], 7)
  }

  function ExecLdax(s: State, p: RegisterPair): Outcome {
    Through(1, s.cpu.(a := s.mem[PairValue(s.cpu, p)]), s.mem, 7)
  }

  /** INX and DCX. */
  function ExecCount(s: State, p: RegisterPair, n: int): Outcome
    requires -1 <= n <= 1
  {
    Through(1, SetPair(s.cpu, p, Plus(PairValue(s.cpu, p), n)), s.mem, 5)
  }

  function ExecDad(s: State, p: RegisterPair): Outcome {
    Through(1, DoubleAdd(s.cpu, PairValue(s.cpu, p)), s.mem, 10)
  }

  function ExecShld(s: State): Outcome {
    Through(3, s.cpu, WriteWord(s.mem, Direct(s), s.cpu.h, s.cpu.l), 16)
  }

  function ExecLhld(s: State): Outcome {
    Through(3, s.cpu.(h := s.mem[Plus(Direct(s), 1)], l := s.mem[Direct(s)]), s.mem, 16)
  }

  function ExecSta(s: State): Outcome {
    Through(3, s.cpu, s.mem[Direct(s) := s.cpu.a], 13)
  }

  function ExecLda(s: State): Outcome {
    Through(3, s.cpu.(a := s.mem[Direct(s)]), s.mem, 13)
  }

  function ExecMov(s: State, dst: Register, src: Register): Outcome {
    Through(1, SetReg(s.cpu, dst, Reg(s.cpu, src)), s.mem, 5)
  }

  function ExecMovFromMemory(s: State, dst: Register): Outcome {
    Through(1, SetReg(s.cpu, dst, s.mem[PairValue(s.cpu, HL)]), s.mem, 7)
  }

  function ExecMovToMemory(s: State, src: Register): Outcome {
    Through(1, s.cpu, s.mem[PairValue(s.cpu, HL) := Reg(s.cpu, src)], 7)
  }

  function ExecArith(s: State, op: AluOp, o: Operand): Outcome {
    match o
    case R(reg) => Through(1, Arithmetic(op, s.cpu, Reg(s.cpu, reg)), s.mem, 4)
    case M => Through(1, Arithmetic(op, s.cpu, s.mem[PairValue(s.cpu, HL)]), s.mem, 7)
  }

  function ExecArithImmediate(s: State, op: AluOp): Outcome {
    Through(2, Arithmetic(op, s.cpu, Code(s, 1)), s.mem, 7)
  }

  function ExecRet(s: State, cond: Condition): Outcome {
    if Holds(s.cpu.f, cond) then
      Jump(s.(cpu := s.cpu.(sp := Plus(s.cpu.sp, 2))), ReadWord(s.mem, s.cpu.sp), if cond.Always? then 10 else 11)
    else Through(1, s.cpu, s.mem, 5)
  }

  function ExecJmp(s: State, cond: Condition): Outcome {
    if Holds(s.cpu.f, cond) then Jump(s, Direct(s), 10) else Through(3, s.cpu, s.mem, 10)
  }

  function ExecCall(s: State, cond: Condition): Outcome {
    if Holds(s.cpu.f, cond) then Enter(s, Plus(s.cpu.pc, 3), Direct(s), 17) else Through(3, s.cpu, s.mem, 11)
  }

  function ExecRst(s: State, vector: byte): Outcome {
    Enter(s, Plus(s.cpu.pc, 1), vector % 8 * 8, 11)
  }

  function ExecPush(s: State, p: StackPair): Outcome {
    var t := PushWord(s, StackValue(s.cpu, p));
    Through(1, t.cpu, t.mem, 11)
  }

  function ExecPop(s: State, p: StackPair): Outcome {
    Through(1, SetStackPair(s.cpu.(sp := Plus(s.cpu.sp, 2)), p, ReadWord(s.mem, s.cpu.sp)), s.mem, 10)
  }

  function ExecIn(s: State, input: word -> byte): Outcome {
    var port := Code(s, 1);
    Next(State(Skip(s.cpu.(a := input(port)), 2), s.mem), 10, [Input(port, input(port))])
  }

  function ExecOut(s: State): Outcome {
    Next(State(Skip(s.cpu, 2), s.mem), 10, [Output(Code(s, 1), s.cpu.a)])
  }

  function ExecXthl(s: State): Outcome {
    Through(1, s.cpu.(h := s.mem[Plus(s.cpu.sp, 1)], l := s.mem[s.cpu.sp]),
            WriteWord(s.mem, s.cpu.sp, s.cpu.h, s.cpu.l), 18)
  }

  /** One-byte instructions that leave memory alone. */
  function ExecNop(s: State): Outcome {
    Through(1, s.cpu, s.mem, 4)
  }

  function ExecSkipTwo(s: State): Outcome {
    Through(2, s.cpu, s.mem, 0)
  }

  function ExecRlc(s: State): Outcome {
    Through(1, RotatedLeft(s.cpu, s.cpu.a >= 0x80), s.mem, 4)
  }

  function ExecRrc(s: State): Outcome {
    Through(1, RotatedRight(s.cpu, s.cpu.a % 2 == 1), s.mem, 4)
  }

  function ExecRal(s: State): Outcome {
    Through(1, RotatedLeft(s.cpu, s.cpu.f.c), s.mem, 4)
  }

  function ExecRar(s: State): Outcome {
    Through(1, RotatedRight(s.cpu, s.cpu.f.c), s.mem, 4)
  }

  function ExecDaa(s: State): Outcome {
    Through(1, Accumulate(s.cpu, Daa8(s.cpu.a, s.cpu.f)), s.mem, 4)
  }

  function ExecCma(s: State): Outcome {
    Through(1, s.cpu.(a := 0xFF - s.cpu.a), s.mem, 4)
  }

  function ExecCarry(s: State, c: bool): Outcome {
    Through(1, s.cpu.(f := s.cpu.f.(c := c)), s.mem, 4)
  }

  function ExecXchg(s: State): Outcome {
    Through(1, s.cpu.(d := s.cpu.h, e := s.cpu.l, h := s.cpu.d, l := s.cpu.e), s.mem, 4)
  }

  function ExecSphl(s: State): Outcome {
    Through(1, s.cpu.(sp := PairValue(s.cpu, HL)), s.mem, 5)
  }

  function ExecFlipFlop(s: State, enabled: bool): Outcome {
    Through(1, s.cpu.(iff := enabled), s.mem, 4)
  }

  function ExecPchl(s: State): Outcome {
    Jump(s, PairValue(s.cpu, HL), 5)
  }

  function ExecInr(s: State, o: Operand): Outcome {
    ExecBump(s, o, Inc8(Operated(s, o), s.cpu.f))
  }

  function ExecDcr(s: State, o: Operand): Outcome {
    ExecBump(s, o, Dec8(Operated(s, o), s.cpu.f))
  }

  /** Instructions on the accumulator and the flags. */
  function ExecAdjust(i: Instr, s: State): Outcome
    requires Adjusts(i)
  {
    match i
    case Rlc => ExecRlc(s)
    case Rrc => ExecRrc(s)
    case Ral => ExecRal(s)
    case Rar => ExecRar(s)
    case Daa => ExecDaa(s)
    case Cma => ExecCma(s)
    case Stc => ExecCarry(s, true)
    case Cmc => ExecCarry(s, !s.cpu.f.c)
  }

  /** The other instructions that stay inside the processor. */
  function ExecInternal(i: Instr, s: State): Outcome
    requires Internal(i) && !Adjusts(i)
  {
    match i
    case Nop => ExecNop(s)
    case SkipTwo => ExecSkipTwo(s)
    case Inx(p) => ExecCount(s, p, 1)
    case Dcx(p) => ExecCount(s, p, -1)
    case Dad(p) => ExecDad(s, p)
    case Mov(d, r) => ExecMov(s, d, r)
    case Pchl => ExecPchl(s)
    case Xchg => ExecXchg(s)
    case Sphl => ExecSphl(s)
    case Di => ExecFlipFlop(s, false)
    case Ei => ExecFlipFlop(s, true)
  }

  function ExecLoad(i: Instr, s: State): Outcome
    requires Loads(i)
  {
    match i
    case Lxi(p) => ExecLxi(s, p)
    case Ldax(p) => ExecLdax(s, p)
    case Lhld => ExecLhld(s)
    case Lda => ExecLda(s)
    case MovFromMemory(d) => ExecMovFromMemory(s, d)
  }

  function ExecStore(i: Instr, s: State): Outcome
    requires Stores(i)
  {
    match i
    case Stax(p) => ExecStax(s, p)
    case Mvi(o) => ExecMvi(s, o)
    case Shld => ExecShld(s)
    case Sta => ExecSta(s)
    case MovToMemory(r) => ExecMovToMemory(s, r)
  }

  function ExecCompute(i: Instr, s: State): Outcome
    requires Computes(i)
  {
    match i
    case Inr(o) => ExecInr(s, o)
    case Dcr(o) => ExecDcr(s, o)
    case Arith(op, o) => ExecArith(s, op, o)
    case ArithImmediate(op) => ExecArithImmediate(s, op)
  }

  /** Branches, the stack, the ports, and what the interpreter does not implement. */
  function ExecControl(i: Instr, s: State, input: word -> byte): Outcome
    requires Controls(i)
  {
    match i
    case Ret(c) => ExecRet(s, c)
    case Jmp(c) => ExecJmp(s, c)
    case Call(c) => ExecCall(s, c)
    case Rst(n) => ExecRst(s, n)
    case Push(p) => ExecPush(s, p)
    case Pop(p) => ExecPop(s, p)
    case In => ExecIn(s, input)
    case Out => ExecOut(s)
    case Xthl => ExecXthl(s)
    case Hlt => Trap
    case Undefined => Trap
  }

  function Exec(i: Instr, s: State, input: word -> byte): Outcome {
    if Adjusts(i) then ExecAdjust(i, s)
    else if Internal(i) then ExecInternal(i, s)
    else if Loads(i) then ExecLoad(i, s)
    else if Stores(i) then ExecStore(i, s)
    else if Computes(i) then ExecCompute(i, s)
    else ExecControl(i, s, input)
  }

  function Fetched(s: State): Instr {
    Decode(s.mem[s.cpu.pc])
  }

  /** An interrupt is acknowledged only when enabled; raised while disabled it is lost. */
  predicate Accepts(s: State, e: Env) {
    e.irq.Some? && s.cpu.iff
  }

  /** One call of the interpreter: acknowledge an interrupt, which pushes the unincremented
      program counter, or fetch and execute. */
  function Step(s: State, e: Env): Outcome {
    if Accepts(s, e) then
      Enter(s.(cpu := s.cpu.(iff := false)), s.cpu.pc, e.irq.value % 8 * 8, 11)
    else
      Exec(Fetched(s), s, e.input)
  }

  // ---------- runs ----------

  /** Facts about runs that do not depend on what a step does are proved for any stepper. */
  type Stepper = (State, Env) -> Outcome

  /** A run over a finite sequence of environments; ticks and port traffic accumulate. */
  function Run(step: Stepper, s: State, es: seq<Env>): Outcome
    decreases |es|, 0
  {
    if es == [] then Next(s, 0, []) else Prepend(step(s, es[0]), step, es[1..])
  }

  /** Continue an outcome over a schedule. */
  function Prepend(o: Outcome, step: Stepper, es: seq<Env>): Outcome
    decreases |es|, 1
  {
    match o
    case Trap => Trap
    case Next(t, ticks, io) => Joined(ticks, io, Run(step, t, es))
  }

  function Joined(ticks: nat, io: seq<IoEvent>, o: Outcome): Outcome {
    match o
    case Trap => Trap
    case Next(u, ticks', io') => Next(u, ticks + ticks', io + io')
  }

  lemma JoinedTwice(t1: nat, io1: seq<IoEvent>, t2: nat, io2: seq<IoEvent>, o: Outcome)
    ensures Joined(t1, io1, Joined(t2, io2, o)) == Joined(t1 + t2, io1 + io2, o)
  {
    if o.Next? {
      assert io1 + (io2 + o.io) == (io1 + io2) + o.io;
    }
  }

  lemma {:induction false} RunConcat(step: Stepper, s: State, es: seq<Env>, fs: seq<Env>)
    ensures Run(step, s, es + fs) == Prepend(Run(step, s, es), step, fs)
    decreases |es|
  {
    if es == [] {
      assert es + fs == fs;
      if Run(step, s, fs).Next? {
        assert [] + Run(step, s, fs).io == Run(step, s, fs).io;
      }
    } else {
      assert (es + fs)[0] == es[0] && (es + fs)[1..] == es[1..] + fs;
      match step(s, es[0])
      case Trap =>
      case Next(t, ticks, io) =>
        RunConcat(step, t, es[1..], fs);
        var rest := Run(step, t, es[1..]);
        if rest.Next? {
          JoinedTwice(ticks, io, rest.ticks, rest.io, Run(step, rest.s, fs));
        }
    }
  }

  lemma RunOne(step: Stepper, s: State, e: Env)
    ensures Run(step, s, [e]) == step(s, e)
  {
    assert [e][1..] == [];
    var o := step(s, e);
    if o.Next? {
      assert Run(step, o.s, []) == Next(o.s, 0, []);
      assert o.io + [] == o.io;
    }
  }

  ghost predicate KeptBy(step: Stepper, inv: State -> bool) {
    forall s, e :: inv(s) && step(s, e).Next? ==> inv(step(s, e).s)
  }

  lemma {:induction false} RunKeeps(step: Stepper, inv: State -> bool, s: State, es: seq<Env>)
    requires KeptBy(step, inv) && inv(s) && Run(step, s, es).Next?
    ensures inv(Run(step, s, es).s)
    decreases |es|
  {
    if es != [] {
      RunKeeps(step, inv, step(s, es[0]).s, es[1..]);
    }
  }

  // ---------- power on ----------

  function ResetCpu(pc: word): Cpu {
    Cpu(0, 0, 0, 0, 0, 0, 0, ByteStatus(2), pc, 0, false)
  }
}
