/** What every step, and so every run, keeps: the status pattern, the price of an
    instruction and the advance of the program counter. */
module Runs {
  import opened Types
  import opened Alu
  import opened Isa
  import opened Core

  // ---------- what every instruction keeps ----------

  predicate Transfers(f: Status, i: Instr) {
    match i
    case Ret(c) => Holds(f, c)
    case Jmp(c) => Holds(f, c)
    case Call(c) => Holds(f, c)
    case Rst(_) => true
    case Pchl => true
    case _ => false
  }

  /** The clock ticks of the data sheet; `taken` says whether a conditional instruction transfers control. */
  function Ticks(i: Instr, taken: bool): nat {
    match i
    case Rlc | Rrc | Ral | Rar | Daa | Cma | Stc | Cmc | Nop | Xchg | Di | Ei => 4
    case Inx(_) | Dcx(_) | Mov(_, _) | Pchl | Sphl => 5
    case Ldax(_) | Stax(_) | MovFromMemory(_) | MovToMemory(_) | ArithImmediate(_) => 7
    case Lxi(_) | Dad(_) | Jmp(_) | Pop(_) | In | Out => 10
    case Rst(_) | Push(_) => 11
    case Sta | Lda => 13
    case Shld | Lhld => 16
    case Xthl => 18
    case Arith(_, o) => if o.M? then 7 else 4
    case Inr(o) => if o.M? then 10 else 5
    case Dcr(o) => if o.M? then 10 else 5
    case Mvi(o) => if o.M? then 10 else 7
    case Ret(c) => if c.Always? then 10 else if taken then 11 else 5
    case Call(_) => if taken then 17 else 11
    case SkipTwo => 0
    case Hlt => 0
    case Undefined => 0
  }

  /** The status pattern is kept, the ticks are those of the data sheet, there is at most one port access, the flip-flop
      changes by EI and DI only, and the counter steps over the instruction unless it transfers control. */
  predicate Lawful(i: Instr, s: State, o: Outcome) {
    o.Next? ==>
      && (Canonical(s.cpu.f) ==> Canonical(o.s.cpu.f))
      && o.ticks == Ticks(i, Transfers(s.cpu.f, i)) && |o.io| <= 1
      && o.s.cpu.iff == (if i.Ei? then true else if i.Di? then false else s.cpu.iff)
      && (!Transfers(s.cpu.f, i) ==> o.s.cpu.pc == Plus(s.cpu.pc, Length(i)))
  }

  lemma ArithmeticKeeps(op: AluOp, u: Cpu, v: byte)
    ensures var w := Arithmetic(op, u, v); w == u.(a := w.a, f := w.f) && (Canonical(u.f) ==> Canonical(w.f))
  {
  }

  lemma AdjustLawful(i: Instr, s: State)
    requires Adjusts(i)
    ensures Lawful(i, s, ExecAdjust(i, s))
  {
  }

  lemma InternalLawful(i: Instr, s: State)
    requires Internal(i) && !Adjusts(i)
    ensures Lawful(i, s, ExecInternal(i, s))
  {
  }

  lemma LoadLawful(i: Instr, s: State)
    requires Loads(i)
    ensures Lawful(i, s, ExecLoad(i, s))
  {
  }

  lemma StoreLawful(i: Instr, s: State)
    requires Stores(i)
    ensures Lawful(i, s, ExecStore(i, s))
  {
  }

  lemma BumpKeeps(a: byte, f: Status)
    requires Canonical(f)
    ensures Canonical(Inc8(a, f).f) && Canonical(Dec8(a, f).f)
  {
  }

  lemma BumpLawful(i: Instr, s: State)
    requires i.Inr? || i.Dcr?
    ensures Lawful(i, s, ExecCompute(i, s))
  {
    hide Inc8, Dec8, Canonical;
    if Canonical(s.cpu.f) {
      BumpKeeps(Operated(s, i.operand), s.cpu.f);
    }
  }

  lemma ArithLawful(i: Instr, s: State)
    requires i.Arith? || i.ArithImmediate?
    ensures Lawful(i, s, ExecCompute(i, s))
  {
    hide Arithmetic, Canonical;
    ArithmeticKeeps(i.op, s.cpu, if i.Arith? then Operated(s, i.operand) else Code(s, 1));
  }

  lemma ComputeLawful(i: Instr, s: State)
    requires Computes(i)
    ensures Lawful(i, s, ExecCompute(i, s))
  {
    hide ExecCompute, Lawful;
    if i.Arith? || i.ArithImmediate? {
      ArithLawful(i, s);
    } else {
      BumpLawful(i, s);
    }
  }

  lemma ControlLawful(i: Instr, s: State, input: word -> byte)
    requires Controls(i)
    ensures Lawful(i, s, ExecControl(i, s, input))
  {
  }

  lemma ExecLawful(i: Instr, s: State, input: word -> byte)
    ensures Lawful(i, s, Exec(i, s, input))
  {
    hide Lawful, ExecAdjust, ExecInternal, ExecLoad, ExecStore, ExecCompute, ExecControl;
    if Adjusts(i) {
      AdjustLawful(i, s);
    } else if Internal(i) {
      InternalLawful(i, s);
    } else if Loads(i) {
      LoadLawful(i, s);
    } else if Stores(i) {
      StoreLawful(i, s);
    } else if Computes(i) {
      ComputeLawful(i, s);
    } else {
      ControlLawful(i, s, input);
    }
  }

  predicate KeepsPattern(f: Status, o: Outcome) {
    Canonical(f) && o.Next? ==> Canonical(o.s.cpu.f)
  }

  /** What every step keeps. Status bit 1 stays set and bits 3 and 5 clear, POP PSW of any memory included; the ticks
      are those of the data sheet, and 11 for an accepted interrupt; only EI, DI and an accepted interrupt change the
      flip-flop; and an instruction that does not transfer control advances the counter by its encoded length. */
  lemma StepLawful(s: State, e: Env)
    ensures KeepsPattern(s.cpu.f, Step(s, e))
    ensures var o := Step(s, e);
            o.Next? ==>
              && |o.io| <= 1
              && if Accepts(s, e) then o.ticks == 11 && !o.s.cpu.iff
                 else
                   && o.s.cpu.iff == (Fetched(s).Ei? || (!Fetched(s).Di? && s.cpu.iff))
                   && o.ticks == Ticks(Fetched(s), Transfers(s.cpu.f, Fetched(s)))
                   && (!Transfers(s.cpu.f, Fetched(s)) ==> o.s.cpu.pc == Plus(s.cpu.pc, Length(Fetched(s))))
  {
    hide Exec, Fetched, Ticks, Transfers, Length, Canonical;
    ExecLawful(Fetched(s), s, e.input);
  }

  lemma TicksAre(i: Instr, taken: bool)
    ensures var k := Ticks(i, taken); k == 0 || k == 4 || k == 5 || 7 <= k <= 18
  {
  }

  /** So every step costs 0, 4, 5 or 7 to 18 ticks. */
  lemma StepPrice(s: State, e: Env)
    requires Step(s, e).Next?
    ensures var k := Step(s, e).ticks; k == 0 || k == 4 || k == 5 || 7 <= k <= 18
  {
    hide Step, Ticks, Fetched;
    StepLawful(s, e);
    TicksAre(Fetched(s), Transfers(s.cpu.f, Fetched(s)));
  }

  /** From power on, every reachable state has the pattern. */
  lemma ReachableStatus(pc: word, m: Mem, es: seq<Env>)
    requires Run(Step, State(ResetCpu(pc), m), es).Next?
    ensures Canonical(Run(Step, State(ResetCpu(pc), m), es).s.cpu.f)
  {
    var inv := (s: State) => Canonical(s.cpu.f);
    assert KeptBy(Step, inv) by {
      hide Step;
      forall s, e ensures inv(s) && Step(s, e).Next? ==> inv(Step(s, e).s) {
        StepLawful(s, e);
      }
    }
    hide Step;
    RunKeeps(Step, inv, State(ResetCpu(pc), m), es);
  }

  /** CMP orders bytes: zero means equal and carry means less, and the accumulator stays. */
  lemma CompareOrders(u: Cpu, v: byte)
    ensures var w := Arithmetic(Cmp, u, v);
            w.a == u.a && (w.f.z <==> u.a == v) && (w.f.c <==> u.a < v)
  {
  }

  /** Rotating left through the carry and back is the identity on accumulator and flags; the plain
      rotates undo each other on the accumulator. */
  lemma RotatesUndo(u: Cpu)
    ensures var v := RotatedLeft(u, u.f.c); RotatedRight(v, v.f.c) == u
    ensures var v := RotatedLeft(u, u.a >= 0x80); RotatedRight(v, v.a % 2 == 1).a == u.a
  {
  }

  lemma PushedWord(s: State, v: word)
    ensures ReadWord(PushWord(s, v).mem, PushWord(s, v).cpu.sp) == v
  {
  }

  lemma WordParts(high: byte, low: byte)
    ensures Hi(Word(high, low)) == high && Lo(Word(high, low)) == low
  {
  }

  /** What POP PSW makes of what PUSH PSW left is the pushed accumulator and, given the pattern, the pushed flags. */
  lemma RestoredPsw(u: Cpu, v: Cpu)
    requires Canonical(v.f)
    ensures SetStackPair(u, Psw, StackValue(v, Psw)) == u.(a := v.a, f := v.f)
  {
    WordParts(v.a, StatusByte(v.f));
    StatusRoundTrip(v.f);
    assert Canonicalise(v.f) == v.f;
  }

  /** PUSH PSW then POP PSW is the identity on everything but the program counter and the two
      bytes below the stack, in every state that has the status pattern. */
  lemma PushPopPsw(s: State)
    requires Canonical(s.cpu.f)
    ensures var t := ExecPush(s, Psw).s;
            ExecPop(t, Psw).s == State(Skip(s.cpu, 2), t.mem)
  {
    var t := ExecPush(s, Psw).s;
    PushedWord(s, StackValue(s.cpu, Psw));
    RestoredPsw(t.cpu.(sp := s.cpu.sp), s.cpu);
  }
}
