/** The opcodes that use the stack, and what well-nested traces of them give: every return lands
    after its call, every pop yields the pushed pair, and an interrupt handler is transparent. */
module Calls {
  import opened Types
  import opened Alu
  import opened Isa
  import opened Core
  import opened Runs
  import opened Footprint
  import opened Stack

  /** The return address, if this step enters a subroutine or a handler. */
  function Entry(s: State, e: Env): Option<word> {
    if Accepts(s, e) then Some(s.cpu.pc)
    else
      match Fetched(s)
      case Call(c) => if Holds(s.cpu.f, c) then Some(Plus(s.cpu.pc, 3)) else None
      case Rst(_) => Some(Plus(s.cpu.pc, 1))
      case _ => None
  }

  predicate Pushes(s: State, e: Env, p: StackPair) {
    !Accepts(s, e) && Fetched(s) == Push(p)
  }

  predicate Pops(s: State, e: Env, p: StackPair) {
    !Accepts(s, e) && Fetched(s) == Pop(p)
  }

  predicate Returns(s: State, e: Env) {
    !Accepts(s, e) && Fetched(s).Ret? && Holds(s.cpu.f, Fetched(s).cond)
  }

  // ---------- what those steps do ----------

  /** One step of the machine. */
  predicate Goes(s: State, e: Env, t: State) {
    Step(s, e).Next? && Step(s, e).s == t
  }

  /** Registers other than program counter, stack pointer and flip-flop. */
  predicate SameRegisters(u: Cpu, v: Cpu) {
    v == u.(pc := v.pc, sp := v.sp, iff := v.iff)
  }

  predicate Entered(s: State, back: word, t: State) {
    Pushed(s, t) && ReadWord(t.mem, t.cpu.sp) == back && SameRegisters(s.cpu, t.cpu)
  }

  predicate PushedPair(s: State, p: StackPair, t: State) {
    && Pushed(s, t) && ReadWord(t.mem, t.cpu.sp) == StackValue(s.cpu, p)
    && t.cpu == Skip(s.cpu, 1).(sp := Plus(s.cpu.sp, -2))
  }

  predicate PoppedPair(s: State, p: StackPair, t: State) {
    && Popped(s, t)
    && t.cpu == Skip(SetStackPair(s.cpu.(sp := Plus(s.cpu.sp, 2)), p, ReadWord(s.mem, s.cpu.sp)), 1)
  }

  predicate Returned(s: State, t: State) {
    Popped(s, t) && t.cpu == s.cpu.(sp := Plus(s.cpu.sp, 2), pc := ReadWord(s.mem, s.cpu.sp))
  }

  predicate Enabled(s: State, t: State) {
    t == State(Skip(s.cpu, 1).(iff := true), s.mem)
  }

  lemma EnterWord(s: State, back: word, target: word, ticks: nat)
    ensures Entered(s, back, Enter(s, back, target, ticks).s)
  {
    PushedWord(s, back);
  }

  lemma PushLeaves(s: State, p: StackPair)
    ensures PushedPair(s, p, ExecPush(s, p).s)
  {
    PushedWord(s, StackValue(s.cpu, p));
  }

  lemma PopLeaves(s: State, p: StackPair)
    requires p != Pair(SP)
    ensures PoppedPair(s, p, ExecPop(s, p).s)
  {
  }

  /** What a step does to the stack, by the instruction at the program counter. */
  ghost predicate StackEffect(s: State, e: Env, t: State) {
    && (Entry(s, e).Some? ==> Entered(s, Entry(s, e).value, t))
    && (!Accepts(s, e) ==>
          match Fetched(s)
          case Push(p) => PushedPair(s, p, t)
          case Pop(p) => PoppedPair(s, p, t)
          case Ret(c) => Holds(s.cpu.f, c) ==> Returned(s, t)
          case Ei => Enabled(s, t)
          case _ => true)
  }

  lemma StackInstruction(i: Instr, s: State, input: word -> byte)
    requires i != Pop(Pair(SP)) && Exec(i, s, input).Next?
    ensures var t := Exec(i, s, input).s;
            match i
            case Call(c) => Holds(s.cpu.f, c) ==> Entered(s, Plus(s.cpu.pc, 3), t)
            case Rst(_) => Entered(s, Plus(s.cpu.pc, 1), t)
            case Push(p) => PushedPair(s, p, t)
            case Pop(p) => PoppedPair(s, p, t)
            case Ret(c) => Holds(s.cpu.f, c) ==> Returned(s, t)
            case Ei => Enabled(s, t)
            case _ => true
  {
    hide Entered, PushedPair, PoppedPair, Enter, ExecPush, ExecPop;
    match i
    case Call(c) => EnterWord(s, Plus(s.cpu.pc, 3), Direct(s), 17);
    case Rst(n) => EnterWord(s, Plus(s.cpu.pc, 1), n % 8 * 8, 11);
    case Push(p) => PushLeaves(s, p);
    case Pop(p) => PopLeaves(s, p);
    case _ =>
  }

  /** Calls, restarts and accepted interrupts push their return address, PUSH and POP their pair, and a taken return
      goes where the word on top says. */
  lemma StackStep(s: State, e: Env, t: State)
    requires Goes(s, e, t)
    ensures StackEffect(s, e, t)
  {
    if Accepts(s, e) {
      hide Exec, Entered, Fetched;
      EnterWord(s.(cpu := s.cpu.(iff := false)), s.cpu.pc, e.irq.value % 8 * 8, 11);
      AfterDisabling(s, s.cpu.pc, t);
    } else {
      hide Exec, Decode, Entered, PushedPair, PoppedPair, Returned, Enabled;
      StackInstruction(Fetched(s), s, e.input);
    }
  }

  /** What is entered with interrupts disabled is entered. */
  lemma AfterDisabling(s: State, back: word, t: State)
    requires Entered(s.(cpu := s.cpu.(iff := false)), back, t)
    ensures Entered(s, back, t)
  {
  }

  // ---------- subroutines ----------

  /** A body run between an entering step and a taken return comes back to the return address with
      the stack as it was. */
  lemma BodyReturns(
      step: Stepper, stores: Touches, s: State, s1: State, body: Trace, u: State, t: State, live: nat,
      back: word)
    requires WritesOnly(step, stores) && Entered(s, back, s1)
    requires RunTrace(step, stores, body, s1, live + 2) == Some(u) && live + 2 + 2 * Depth(body) <= 0x10000
    requires Returned(u, t)
    ensures t.cpu == u.cpu.(pc := back, sp := s.cpu.sp)
    ensures SameAbove(s.mem, t.mem, s.cpu.sp, live)
  {
    PopsWhatWasPushed(step, stores, s, s1, body, u, live);
  }

  lemma MachineWritesOnly()
    ensures WritesOnly(Step, StepWrites)
  {
    hide Step, StepWrites;
    forall s: State, e: Env
      ensures OnlyWrites(s.mem, Step(s, e), StepWrites(s, e))
    {
      StepWritesOnly(s, e);
    }
  }

  /** Every CALL, RST and accepted interrupt whose body is well nested and ends in a taken return
      lands exactly where it left off, with the stack pointer and all live frames as they were. */
  lemma SubroutineReturns(s: State, o: Env, s1: State, body: Trace, u: State, c: Env, t: State, live: nat)
    requires Entry(s, o).Some? && Goes(s, o, s1)
    requires RunTrace(Step, StepWrites, body, s1, live + 2) == Some(u) && live + 2 + 2 * Depth(body) <= 0x10000
    requires Returns(u, c) && Goes(u, c, t)
    ensures t.cpu == u.cpu.(pc := Entry(s, o).value, sp := s.cpu.sp)
    ensures SameAbove(s.mem, t.mem, s.cpu.sp, live)
  {
    hide Step, StepWrites, RunTrace, Fetched, Entered, Returned, SameAbove;
    MachineWritesOnly();
    StackStep(s, o, s1);
    StackStep(u, c, t);
    BodyReturns(Step, StepWrites, s, s1, body, u, t, live, Entry(s, o).value);
  }

  /** Every POP whose matching PUSH opened a well-nested body yields the pushed word. */
  lemma PopYieldsPushed(
      s: State, o: Env, s1: State, p: StackPair, body: Trace, u: State, c: Env, q: StackPair, t: State,
      live: nat)
    requires Pushes(s, o, p) && Goes(s, o, s1)
    requires RunTrace(Step, StepWrites, body, s1, live + 2) == Some(u) && live + 2 + 2 * Depth(body) <= 0x10000
    requires Pops(u, c, q) && Goes(u, c, t)
    ensures t.cpu == Skip(SetStackPair(u.cpu.(sp := s.cpu.sp), q, StackValue(s.cpu, p)), 1)
    ensures SameAbove(s.mem, t.mem, s.cpu.sp, live)
  {
    hide Step, StepWrites, RunTrace, Fetched, Entered, SetStackPair, StackValue, SameAbove;
    MachineWritesOnly();
    StackStep(s, o, s1);
    StackStep(u, c, t);
    PopsWhatWasPushed(Step, StepWrites, s, s1, body, u, live);
  }

  // ---------- saving registers ----------

  const ALL_PAIRS: set<StackPair> := {Pair(BC), Pair(DE), Pair(HL), Psw}

  ghost predicate Keeps(u: Cpu, v: Cpu, pairs: set<StackPair>) {
    forall p :: p in pairs ==> StackValue(u, p) == StackValue(v, p)
  }

  /** Popping what was pushed restores that pair and disturbs no other. */
  lemma SetPairValue(u: Cpu, v: Cpu, p: StackPair, q: StackPair)
    requires p in ALL_PAIRS && q in ALL_PAIRS && (p == Psw ==> Canonical(v.f))
    ensures StackValue(SetStackPair(u, p, StackValue(v, p)), q) == if p == q then StackValue(v, p) else StackValue(u, q)
  {
    if p == Psw {
      RestoredPsw(u, v);
    }
  }

  /** One bracket: if the inside keeps `pairs`, the whole keeps `pairs` and the bracketed pair. */
  lemma BracketKeeps(s: State, p: StackPair, s1: State, u: State, t: State, pairs: set<StackPair>)
    requires p in ALL_PAIRS && pairs <= ALL_PAIRS && Canonical(s.cpu.f)
    requires PushedPair(s, p, s1) && PoppedPair(u, p, t)
    requires ReadWord(u.mem, u.cpu.sp) == ReadWord(s1.mem, s1.cpu.sp)
    requires Keeps(s1.cpu, u.cpu, pairs)
    ensures Keeps(s.cpu, t.cpu, pairs + {p})
  {
    var w := u.cpu.(sp := Plus(u.cpu.sp, 2));
    forall q | q in pairs + {p}
      ensures StackValue(s.cpu, q) == StackValue(t.cpu, q)
    {
      SetPairValue(w, s.cpu, p, q);
      if q != p {
        assert StackValue(s1.cpu, q) == StackValue(s.cpu, q);
        assert StackValue(u.cpu, q) == StackValue(w, q);
      }
      assert StackValue(t.cpu, q) == StackValue(SetStackPair(w, p, StackValue(s.cpu, p)), q);
    }
  }

  function PairsOf(ps: seq<StackPair>): set<StackPair> {
    set p | p in ps
  }

  /** One level of brackets around an inner trace that keeps the pairs inside. */
  lemma BracketedKeeps(
    step: Stepper, stores: Touches, t: Trace, s: State, live: nat, ps: seq<StackPair>, s1: State, u: State)
    requires WritesOnly(step, stores) && Canonical(s.cpu.f) && ps != [] && PairsOf(ps) <= ALL_PAIRS
    requires t.Nested? && t.rest == Done && live + 2 * Depth(t) <= 0x10000
    requires PushedPair(s, ps[0], s1)
    requires RunTrace(step, stores, t.body, s1, live + 2) == Some(u)
    requires step(u, t.closing).Next? && PoppedPair(u, ps[0], step(u, t.closing).s)
    requires Keeps(s1.cpu, u.cpu, PairsOf(ps[1..]))
    ensures Keeps(s.cpu, step(u, t.closing).s.cpu, PairsOf(ps))
  {
    PopsWhatWasPushed(step, stores, s, s1, t.body, u, live);
    BracketKeeps(s, ps[0], s1, u, step(u, t.closing).s, PairsOf(ps[1..]));
  }

  // ---------- interrupts ----------

  lemma KeepsAllIsSame(u: Cpu, v: Cpu)
    requires Keeps(u, v, ALL_PAIRS)
    ensures SameRegisters(u, v)
  {
    StatusRoundTrip(u.f);
    StatusRoundTrip(v.f);
    assert StackValue(u, Psw) == StackValue(v, Psw);
    WordParts(u.a, StatusByte(u.f));
    WordParts(v.a, StatusByte(v.f));
    forall p | p in [BC, DE, HL]
      ensures PairValue(u, p) == PairValue(v, p)
    {
      assert StackValue(u, Pair(p)) == StackValue(v, Pair(p));
    }
    assert BC in [BC, DE, HL] && DE in [BC, DE, HL] && HL in [BC, DE, HL];
    WordParts(u.b, u.c);
    WordParts(v.b, v.c);
    WordParts(u.d, u.e);
    WordParts(v.d, v.e);
    WordParts(u.h, u.l);
    WordParts(v.h, v.l);
  }

  /** Transparency for any stepper: enter, run a body that restores the registers, enable, return. */
  lemma BodyTransparent(step: Stepper, stores: Touches, s: State, s1: State, body: Trace, u: State, v: State, t: State)
    requires WritesOnly(step, stores) && s.cpu.iff && Entered(s, s.cpu.pc, s1)
    requires RunTrace(step, stores, body, s1, 2) == Some(u) && 2 + 2 * Depth(body) <= 0x10000
    requires Keeps(s1.cpu, u.cpu, ALL_PAIRS) && Enabled(u, v) && Returned(v, t)
    ensures t.cpu == s.cpu
    ensures ChangedOnly(s.mem, t.mem, Touched(step, stores, body, s1, 2), s.cpu.sp, 2 + 2 * Depth(body))
  {
    PopsWhatWasPushed(step, stores, s, s1, body, u, 0);
    KeepsAllIsSame(s1.cpu, u.cpu);
    BodyChangesOnly(step, stores, s, s1, body, u);
  }

  lemma BodyChangesOnly(step: Stepper, stores: Touches, s: State, s1: State, body: Trace, u: State)
    requires WritesOnly(step, stores) && Pushed(s, s1)
    requires RunTrace(step, stores, body, s1, 2) == Some(u) && 2 + 2 * Depth(body) <= 0x10000
    ensures ChangedOnly(s.mem, u.mem, Touched(step, stores, body, s1, 2), s.cpu.sp, 2 + 2 * Depth(body))
  {
    forall x: word | x !in Touched(step, stores, body, s1, 2) && !Below(x, s.cpu.sp, 2 + 2 * Depth(body))
      ensures u.mem[x] == s.mem[x]
    {
      ChangesOnlyBelow(step, stores, body, s1, 2, x);
    }
  }

  /** Memory differs only on `touched` and on the `n` bytes just below the stack pointer. */
  ghost predicate ChangedOnly(m: Mem, m': Mem, touched: set<word>, sp: word, n: nat) {
    forall x: word :: x !in touched && !Below(x, sp, n) ==> m'[x] == m[x]
  }

  /** Interrupt transparency. An interrupt is accepted in `s`; a well-nested body runs from `s1` to
      `u`, leaving the register pairs and the status word as it found them; then EI and, with no
      interrupt between, RET. Execution is back at the interrupted instruction with the same
      registers, flags, stack pointer and flip-flop, and memory differs only where the body's plain
      steps wrote or just below the interrupted stack pointer. */
  lemma InterruptTransparent(s: State, o: Env, s1: State, body: Trace, u: State, e: Env, v: State, c: Env, t: State)
    requires Accepts(s, o) && Goes(s, o, s1)
    requires RunTrace(Step, StepWrites, body, s1, 2) == Some(u) && 2 + 2 * Depth(body) <= 0x10000
    requires Keeps(s1.cpu, u.cpu, ALL_PAIRS)
    requires !Accepts(u, e) && Fetched(u) == Ei && Goes(u, e, v)
    requires Returns(v, c) && Goes(v, c, t)
    ensures t.cpu == s.cpu
    ensures ChangedOnly(s.mem, t.mem, Touched(Step, StepWrites, body, s1, 2), s.cpu.sp, 2 + 2 * Depth(body))
  {
    hide Step, StepWrites, RunTrace, Fetched, Entered, Returned, Enabled, Keeps, Touched, ChangedOnly;
    MachineWritesOnly();
    StackStep(s, o, s1);
    StackStep(u, e, v);
    StackStep(v, c, t);
    BodyTransparent(Step, StepWrites, s, s1, body, u, v, t);
  }

  // ---------- handlers that save what they use ----------

  /** The body is bracketed by PUSH and POP instructions of the pairs `ps`. */
  ghost predicate Brackets(t: Trace, s: State, live: nat, ps: seq<StackPair>)
    requires RunTrace(Step, StepWrites, t, s, live).Some?
    decreases |ps|
  {
    ps == [] || (
      && t.Nested? && t.rest == Done
      && Pushes(s, t.opening, ps[0])
      && var s1 := Step(s, t.opening).s;
      && Brackets(t.body, s1, live + 2, ps[1..])
      && Pops(RunTrace(Step, StepWrites, t.body, s1, live + 2).value, t.closing, ps[0]))
  }

  /** The outermost bracket and what is inside. */
  lemma OpenBracket(t: Trace, s: State, live: nat, ps: seq<StackPair>) returns (s1: State, u: State, t1: State)
    requires RunTrace(Step, StepWrites, t, s, live).Some? && ps != [] && Brackets(t, s, live, ps)
    ensures t.Nested? && t.rest == Done
    ensures Pushes(s, t.opening, ps[0]) && Goes(s, t.opening, s1)
    ensures RunTrace(Step, StepWrites, t.body, s1, live + 2) == Some(u) && Brackets(t.body, s1, live + 2, ps[1..])
    ensures Pops(u, t.closing, ps[0]) && Goes(u, t.closing, t1)
    ensures RunTrace(Step, StepWrites, t, s, live) == Some(t1)
  {
    hide Step, StepWrites, Fetched, Accepts, Calm, Pushes, Pops;
    s1 := Step(s, t.opening).s;
    u := RunTrace(Step, StepWrites, t.body, s1, live + 2).value;
    t1 := Step(u, t.closing).s;
  }

  lemma StepPushes(s: State, e: Env, p: StackPair, t: State)
    requires Pushes(s, e, p) && Goes(s, e, t)
    ensures PushedPair(s, p, t) && t.cpu.f == s.cpu.f
  {
    hide Exec, Fetched;
    StackStep(s, e, t);
  }

  lemma StepPops(s: State, e: Env, p: StackPair, t: State)
    requires Pops(s, e, p) && Goes(s, e, t)
    ensures PoppedPair(s, p, t)
  {
    hide Exec, Fetched;
    StackStep(s, e, t);
  }

  /** A body that pushes these pairs first and pops them last keeps them, whatever its middle does, nested calls and
      further interrupts included. */
  lemma {:induction false} BracketedBodyKeeps(t: Trace, s: State, live: nat, ps: seq<StackPair>)
    requires Canonical(s.cpu.f) && live + 2 * Depth(t) <= 0x10000
    requires RunTrace(Step, StepWrites, t, s, live).Some?
    requires Brackets(t, s, live, ps) && PairsOf(ps) <= ALL_PAIRS
    ensures Keeps(s.cpu, RunTrace(Step, StepWrites, t, s, live).value.cpu, PairsOf(ps))
    decreases |ps|
  {
    if ps == [] {
      hide Step, StepWrites, Keeps;
      KeepsNone(s.cpu, RunTrace(Step, StepWrites, t, s, live).value.cpu);
    } else {
      hide Step, StepWrites, RunTrace, Brackets, Keeps, PushedPair, PoppedPair, Pushes, Pops;
      var s1, u, t1 := OpenBracket(t, s, live, ps);
      StepPushes(s, t.opening, ps[0], s1);
      StepPops(u, t.closing, ps[0], t1);
      BracketedBodyKeeps(t.body, s1, live + 2, ps[1..]);
      MachineWritesOnly();
      BracketedKeeps(Step, StepWrites, t, s, live, ps, s1, u);
    }
  }

  lemma KeepsNone(u: Cpu, v: Cpu)
    ensures Keeps(u, v, PairsOf([]))
  {
  }

  /** A handler that pushes every pair and the status word, pops them last, and ends in EI and RET is
      transparent, whatever it does in between: the interrupted program goes on with every register
      as it was, and memory differs only where the handler meant to write or below the stack pointer. */
  lemma SavingHandlerTransparent(s: State, o: Env, s1: State, body: Trace, u: State, ps: seq<StackPair>,
                                 e: Env, v: State, c: Env, t: State)
    requires Canonical(s.cpu.f) && Accepts(s, o) && Goes(s, o, s1)
    requires RunTrace(Step, StepWrites, body, s1, 2) == Some(u) && 2 + 2 * Depth(body) <= 0x10000
    requires Brackets(body, s1, 2, ps) && PairsOf(ps) == ALL_PAIRS
    requires !Accepts(u, e) && Fetched(u) == Ei && Goes(u, e, v)
    requires Returns(v, c) && Goes(v, c, t)
    ensures t.cpu == s.cpu
    ensures ChangedOnly(s.mem, t.mem, Touched(Step, StepWrites, body, s1, 2), s.cpu.sp, 2 + 2 * Depth(body))
  {
    hide Step, StepWrites, RunTrace, Brackets, Fetched, Returned, Keeps, Touched, ChangedOnly;
    StackStep(s, o, s1);
    BracketedBodyKeeps(body, s1, 2, ps);
    InterruptTransparent(s, o, s1, body, u, e, v, c, t);
  }

  lemma HandlerOpcodes()
    ensures Decode(0xFB) == Ei && Decode(0xC9) == Ret(Always)
  {
  }

  predicate InstalledAt(m: Mem, at: word) {
    m[at] == 0xFB && m[Plus(at, 1)] == 0xC9
  }

  lemma EnablesAt(s: State, e: Env)
    requires e.irq.None? && s.mem[s.cpu.pc] == 0xFB
    ensures !Accepts(s, e) && Fetched(s) == Ei && Goes(s, e, ExecFlipFlop(s, true).s)
  {
    HandlerOpcodes();
  }

  lemma ReturnsAt(s: State, e: Env)
    requires e.irq.None? && s.mem[s.cpu.pc] == 0xC9
    ensures Returns(s, e) && Goes(s, e, ExecRet(s, Always).s)
  {
    HandlerOpcodes();
  }

  /** The smallest handler, EI and RET at the vector clear of the stack, satisfies all that is asked of
      a handler: accepted anywhere, it resumes the interrupted program after three steps. */
  lemma SmallestHandler(s: State, o: Env, e: Env) returns (s1: State, v: State, t: State)
    requires Accepts(s, o) && e.irq.None?
    requires var at := o.irq.value % 8 * 8;
             InstalledAt(s.mem, at) && Plus(s.cpu.sp, -1) !in {at, at + 1} && Plus(s.cpu.sp, -2) !in {at, at + 1}
    ensures Goes(s, o, s1) && Goes(s1, e, v) && Goes(v, e, t)
    ensures t.cpu == s.cpu && ChangedOnly(s.mem, t.mem, {}, s.cpu.sp, 2)
  {
    hide Exec;
    var entered := Step(s, o);
    s1 := entered.s;
    EnablesAt(s1, e);
    v := ExecFlipFlop(s1, true).s;
    ReturnsAt(v, e);
    t := ExecRet(v, Always).s;
    assert RunTrace(Step, StepWrites, Done, s1, 2) == Some(s1);
    InterruptTransparent(s, o, s1, Done, s1, e, v, e, t);
  }

  // ---------- enabling interrupts ----------

  /** EI takes effect at once: the very next step acknowledges an interrupt if and only if one is raised. */
  lemma EnabledAtOnce(s: State, e: Env, t: State, o: Env)
    requires !Accepts(s, e) && Fetched(s) == Ei && Goes(s, e, t)
    ensures Accepts(t, o) <==> o.irq.Some?
  {
    hide Exec;
    StackStep(s, e, t);
  }

  /** So an interrupt can come between EI and the RET after it: control is at the vector, with interrupts disabled and
      the address of the RET, still to execute, on top of the word it was to return to. */
  lemma ReturnNotProtected(s: State, e: Env, t: State, o: Env, u: State)
    requires !Accepts(s, e) && Fetched(s) == Ei && Goes(s, e, t)
    requires s.mem[Plus(s.cpu.pc, 1)] == 0xC9 && o.irq.Some? && Goes(t, o, u)
    ensures Fetched(t) == Ret(Always) && !Returns(t, o)
    ensures u.cpu.pc == o.irq.value % 8 * 8 && !u.cpu.iff
    ensures ReadWord(u.mem, u.cpu.sp) == Plus(s.cpu.pc, 1) && u.cpu.sp == Plus(s.cpu.sp, -2)
  {
    hide Exec;
    StackStep(s, e, t);
    EnabledAtOnce(s, e, t, o);
    HandlerOpcodes();
    StackStep(t, o, u);
  }
}
