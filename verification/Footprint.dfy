/** The memory footprint of the machine: which addresses a step reads and writes, and that runs
    started from memories agreeing on what is read stay in agreement. */
module Footprint {
  import opened Types
  import opened Isa
  import opened Core

  function CodeBytes(u: Cpu, i: Instr): set<word> {
    match i
    case Lxi(_) | Shld | Lhld | Sta | Lda | Jmp(_) | Call(_) => {u.pc, Plus(u.pc, 1), Plus(u.pc, 2)}
    case Mvi(_) | ArithImmediate(_) | In | Out => {u.pc, Plus(u.pc, 1)}
    case _ => {u.pc}
  }

  function TwoFrom(w: word): set<word> {
    {w, Plus(w, 1)}
  }

  /** The two bytes a push writes. */
  function TwoBelow(w: word): set<word> {
    {Plus(w, -1), Plus(w, -2)}
  }

  function AtHL(u: Cpu, o: Operand): set<word> {
    if o.M? then {PairValue(u, HL)} else {}
  }

  /** Operand bytes read, given the direct address in the code. */
  function DataReads(u: Cpu, direct: word, i: Instr): set<word> {
    match i
    case Ldax(p) => {PairValue(u, p)}
    case Inr(o) => AtHL(u, o)
    case Dcr(o) => AtHL(u, o)
    case Arith(_, o) => AtHL(u, o)
    case MovFromMemory(_) => {PairValue(u, HL)}
    case Lhld => TwoFrom(direct)
    case Lda => {direct}
    case Ret(c) => if Holds(u.f, c) then TwoFrom(u.sp) else {}
    case Pop(_) => TwoFrom(u.sp)
    case Xthl => TwoFrom(u.sp)
    case _ => {}
  }

  function Writes(u: Cpu, direct: word, i: Instr): set<word> {
    match i
    case Stax(p) => {PairValue(u, p)}
    case Inr(o) => AtHL(u, o)
    case Dcr(o) => AtHL(u, o)
    case Mvi(o) => AtHL(u, o)
    case MovToMemory(_) => {PairValue(u, HL)}
    case Shld => TwoFrom(direct)
    case Sta => {direct}
    case Call(c) => if Holds(u.f, c) then TwoBelow(u.sp) else {}
    case Rst(_) => TwoBelow(u.sp)
    case Push(_) => TwoBelow(u.sp)
    case Xthl => TwoFrom(u.sp)
    case _ => {}
  }

  function StepReads(s: State, e: Env): set<word> {
    if Accepts(s, e) then {} else Reads(s, Fetched(s))
  }

  function StepWrites(s: State, e: Env): set<word> {
    if Accepts(s, e) then TwoBelow(s.cpu.sp) else Writes(s.cpu, Direct(s), Fetched(s))
  }

  ghost predicate Agree(m: Mem, n: Mem, region: set<word>) {
    forall x :: x in region ==> m[x] == n[x]
  }

  /** Memory outside the writes is as it was. */
  ghost predicate OnlyWrites(m: Mem, o: Outcome, writes: set<word>) {
    o.Next? ==> forall x: word :: x !in writes ==> o.s.mem[x] == m[x]
  }

  lemma AdjustWrites(i: Instr, s: State)
    requires Adjusts(i)
    ensures OnlyWrites(s.mem, ExecAdjust(i, s), Writes(s.cpu, Direct(s), i))
  {
  }

  lemma InternalWrites(i: Instr, s: State)
    requires Internal(i) && !Adjusts(i)
    ensures OnlyWrites(s.mem, ExecInternal(i, s), Writes(s.cpu, Direct(s), i))
  {
  }

  lemma LoadWrites(i: Instr, s: State)
    requires Loads(i)
    ensures OnlyWrites(s.mem, ExecLoad(i, s), Writes(s.cpu, Direct(s), i))
  {
  }

  lemma StoreWrites(i: Instr, s: State)
    requires Stores(i)
    ensures OnlyWrites(s.mem, ExecStore(i, s), Writes(s.cpu, Direct(s), i))
  {
  }

  lemma ComputeWrites(i: Instr, s: State)
    requires Computes(i)
    ensures OnlyWrites(s.mem, ExecCompute(i, s), Writes(s.cpu, Direct(s), i))
  {
  }

  lemma ControlWrites(i: Instr, s: State, input: word -> byte)
    requires Controls(i)
    ensures OnlyWrites(s.mem, ExecControl(i, s, input), Writes(s.cpu, Direct(s), i))
  {
  }

  lemma ExecWrites(i: Instr, s: State, input: word -> byte)
    ensures OnlyWrites(s.mem, Exec(i, s, input), Writes(s.cpu, Direct(s), i))
  {
    if Adjusts(i) {
      AdjustWrites(i, s);
    } else if Internal(i) {
      InternalWrites(i, s);
    } else if Loads(i) {
      LoadWrites(i, s);
    } else if Stores(i) {
      StoreWrites(i, s);
    } else if Computes(i) {
      ComputeWrites(i, s);
    } else {
      ControlWrites(i, s, input);
    }
  }

  lemma StepWritesOnly(s: State, e: Env)
    ensures OnlyWrites(s.mem, Step(s, e), StepWrites(s, e))
  {
    hide Exec, Decode;
    if !Accepts(s, e) {
      ExecWrites(Fetched(s), s, e.input);
    }
  }

  /** Two outcomes that cannot be told apart by processor, ports, ticks or the memory in `region`. */
  ghost predicate Alike(o: Outcome, q: Outcome, region: set<word>) {
    && o.Trap? == q.Trap?
    && (o.Next? && q.Next? ==>
          o.s.cpu == q.s.cpu && o.ticks == q.ticks && o.io == q.io && Agree(o.s.mem, q.s.mem, region))
  }

  function Reads(s: State, i: Instr): set<word> {
    CodeBytes(s.cpu, i) + DataReads(s.cpu, Direct(s), i)
  }

  lemma AdjustAlike(i: Instr, s: State, t: State, region: set<word>)
    requires Adjusts(i)
    requires s.cpu == t.cpu && Agree(s.mem, t.mem, region) && Reads(s, i) <= region
    ensures Alike(ExecAdjust(i, s), ExecAdjust(i, t), region + Writes(s.cpu, Direct(s), i))
  {
  }

  lemma InternalAlike(i: Instr, s: State, t: State, region: set<word>)
    requires Internal(i) && !Adjusts(i)
    requires s.cpu == t.cpu && Agree(s.mem, t.mem, region) && Reads(s, i) <= region
    ensures Alike(ExecInternal(i, s), ExecInternal(i, t), region + Writes(s.cpu, Direct(s), i))
  {
  }

  lemma LoadAlike(i: Instr, s: State, t: State, region: set<word>)
    requires Loads(i)
    requires s.cpu == t.cpu && Agree(s.mem, t.mem, region) && Reads(s, i) <= region
    ensures Alike(ExecLoad(i, s), ExecLoad(i, t), region + Writes(s.cpu, Direct(s), i))
  {
  }

  lemma StoreAlike(i: Instr, s: State, t: State, region: set<word>)
    requires Stores(i)
    requires s.cpu == t.cpu && Agree(s.mem, t.mem, region) && Reads(s, i) <= region
    ensures Alike(ExecStore(i, s), ExecStore(i, t), region + Writes(s.cpu, Direct(s), i))
  {
  }

  lemma BumpAlike(i: Instr, s: State, t: State, region: set<word>)
    requires i.Inr? || i.Dcr?
    requires s.cpu == t.cpu && Agree(s.mem, t.mem, region) && Reads(s, i) <= region
    ensures Alike(ExecCompute(i, s), ExecCompute(i, t), region + Writes(s.cpu, Direct(s), i))
  {
  }

  lemma ArithAlike(i: Instr, s: State, t: State, region: set<word>)
    requires i.Arith?
    requires s.cpu == t.cpu && Agree(s.mem, t.mem, region) && Reads(s, i) <= region
    ensures Alike(ExecCompute(i, s), ExecCompute(i, t), region + Writes(s.cpu, Direct(s), i))
  {
    var v := Operated(s, i.operand);
    assert v == Operated(t, i.operand) by {
      assert i.operand.M? ==> PairValue(s.cpu, HL) in Reads(s, i);
    }
    var u, ticks := Arithmetic(i.op, s.cpu, v), if i.operand.M? then 7 else 4;
    assert ExecCompute(i, s) == Through(1, u, s.mem, ticks);
    assert ExecCompute(i, t) == Through(1, u, t.mem, ticks);
  }

  lemma ImmediateAlike(i: Instr, s: State, t: State, region: set<word>)
    requires i.ArithImmediate?
    requires s.cpu == t.cpu && Agree(s.mem, t.mem, region) && Reads(s, i) <= region
    ensures Alike(ExecCompute(i, s), ExecCompute(i, t), region + Writes(s.cpu, Direct(s), i))
  {
    assert Plus(s.cpu.pc, 1) in Reads(s, i);
    assert Code(s, 1) == Code(t, 1);
    var u := Arithmetic(i.op, s.cpu, Code(s, 1));
    assert ExecCompute(i, s) == Through(2, u, s.mem, 7);
    assert ExecCompute(i, t) == Through(2, u, t.mem, 7);
  }

  lemma ComputeAlike(i: Instr, s: State, t: State, region: set<word>)
    requires Computes(i)
    requires s.cpu == t.cpu && Agree(s.mem, t.mem, region) && Reads(s, i) <= region
    ensures Alike(ExecCompute(i, s), ExecCompute(i, t), region + Writes(s.cpu, Direct(s), i))
  {
    if i.Inr? || i.Dcr? {
      BumpAlike(i, s, t, region);
    } else if i.Arith? {
      ArithAlike(i, s, t, region);
    } else {
      ImmediateAlike(i, s, t, region);
    }
  }

  lemma ControlAlike(i: Instr, s: State, t: State, input: word -> byte, region: set<word>)
    requires Controls(i)
    requires s.cpu == t.cpu && Agree(s.mem, t.mem, region) && Reads(s, i) <= region
    ensures Alike(ExecControl(i, s, input), ExecControl(i, t, input), region + Writes(s.cpu, Direct(s), i))
  {
  }

  /** An instruction does the same in two memories that agree on what it reads. */
  lemma ExecAlike(i: Instr, s: State, t: State, input: word -> byte, region: set<word>)
    requires s.cpu == t.cpu && Agree(s.mem, t.mem, region) && Reads(s, i) <= region
    ensures Alike(Exec(i, s, input), Exec(i, t, input), region + Writes(s.cpu, Direct(s), i))
  {
    if Adjusts(i) {
      AdjustAlike(i, s, t, region);
    } else if Internal(i) {
      InternalAlike(i, s, t, region);
    } else if Loads(i) {
      LoadAlike(i, s, t, region);
    } else if Stores(i) {
      StoreAlike(i, s, t, region);
    } else if Computes(i) {
      ComputeAlike(i, s, t, region);
    } else {
      ControlAlike(i, s, t, input, region);
    }
  }

  lemma StepAlike(s: State, t: State, e: Env, region: set<word>)
    requires s.cpu == t.cpu && Agree(s.mem, t.mem, region) && StepReads(s, e) <= region
    ensures Alike(Step(s, e), Step(t, e), region + StepWrites(s, e))
  {
    hide Exec, Decode;
    if !Accepts(s, e) {
      assert s.cpu.pc in CodeBytes(s.cpu, Fetched(s));
      ExecAlike(Fetched(s), s, t, e.input, region);
    }
  }

  // ---------- runs ----------

  type Touches = (State, Env) -> set<word>

  /** The step of two states alike on what it reads is alike, on what it writes too. */
  ghost predicate Framed(step: Stepper, loads: Touches, stores: Touches) {
    forall s: State, t: State, e, region :: s.cpu == t.cpu && Agree(s.mem, t.mem, region) && loads(s, e) <= region
      ==> Alike(step(s, e), step(t, e), region + stores(s, e))
  }

  /** Along this run every address read lies in `region` or was written earlier in the run. */
  predicate Covered(step: Stepper, loads: Touches, stores: Touches, s: State, es: seq<Env>, region: set<word>)
    decreases |es|
  {
    es == [] || (
      && loads(s, es[0]) <= region
      && (step(s, es[0]).Next? ==> Covered(step, loads, stores, step(s, es[0]).s, es[1..], region + stores(s, es[0]))))
  }

  /** `region` and everything the run writes. */
  function Extent(step: Stepper, stores: Touches, s: State, es: seq<Env>, region: set<word>): (r: set<word>)
    ensures region <= r
    decreases |es|
  {
    if es == [] || step(s, es[0]).Trap? then region
    else Extent(step, stores, step(s, es[0]).s, es[1..], region + stores(s, es[0]))
  }

  lemma {:induction false} RunAlike(
      step: Stepper, loads: Touches, stores: Touches, s: State, t: State, es: seq<Env>, region: set<word>)
    requires Framed(step, loads, stores)
    requires s.cpu == t.cpu && Agree(s.mem, t.mem, region) && Covered(step, loads, stores, s, es, region)
    ensures Alike(Run(step, s, es), Run(step, t, es), Extent(step, stores, s, es, region))
    decreases |es|
  {
    if es != [] {
      var e := es[0];
      assert Alike(step(s, e), step(t, e), region + stores(s, e));
      if step(s, e).Next? {
        RunAlike(step, loads, stores, step(s, e).s, step(t, e).s, es[1..], region + stores(s, e));
      }
    }
  }

  lemma MachineFramed()
    ensures Framed(Step, StepReads, StepWrites)
  {
    hide Step, StepReads, StepWrites;
    forall s: State, t: State, e, region | s.cpu == t.cpu && Agree(s.mem, t.mem, region) && StepReads(s, e) <= region
      ensures Alike(Step(s, e), Step(t, e), region + StepWrites(s, e))
    {
      StepAlike(s, t, e, region);
    }
  }
}
