/** The status pattern over whole runs of the machine, state loads included. */
module Pattern {
  import opened Types
  import opened Alu
  import opened Isa
  import opened Core
  import opened Runs
  import opened Snapshot
  import opened Protocol
  import opened History

  /** The status number of the reply has bit 1 set and bits 3 and 5 clear. */
  predicate Sound(r: Reply) {
    r.Parsed? && r.cpu.s.Some? ==> Bits(r.cpu.s.value)
  }

  /** The reply a service consumes, if any. */
  function Consumes(c: Config, x: Machine, e: Event): Option<Reply> {
    match e.isr
    case LoadRequest => if c.canLoad && Free(x) && (!c.loadAsync || e.loadDone) then Some(e.reply) else None
    case Quit =>
      (match x.load
      case NoLoad => None
      case LoadReady(r) => Some(r)
      case _ => Some(e.reply))
    case NoInterrupt =>
      (match x.load
      case LoadDeferred => Some(e.reply)
      case LoadReady(r) => Some(r)
      case _ => None)
    case _ => None
  }

  /** The reply that replaces the processor in the turn that executed to `x`, if any. */
  function Lands(c: Config, x: Machine, e: Event): Option<Reply> {
    match Consumes(c, x, e)
    case Some(r) => if Due(c, x) && Acceptable(c.layout, x.core.mem, r) then Some(r) else None
    case None => None
  }

  lemma AcceptLoadCore(c: Config, x: Machine, e: Event)
    requires Free(x)
    ensures AcceptLoad(c, x, e).core == if !c.loadAsync || e.loadDone then Load(c.layout, x.core, e.reply) else x.core
  {
  }

  lemma ServeCore(c: Config, x: Machine, e: Event)
    ensures Serve(c, x, e).core == match Consumes(c, x, e) case Some(r) => Load(c.layout, x.core, r) case None => x.core
  {
    match e.isr
    case LoadRequest => if Free(x) { AcceptLoadCore(c, x, e); }
    case _ =>
  }

  /** From a status word with the pattern, a turn leaves the pattern exactly if no reply without it lands. */
  lemma SettleStatus(c: Config, x: Machine, e: Event)
    requires Canonical(x.core.cpu.f)
    ensures Canonical(Settle(c, x, e).core.cpu.f) <==> (Lands(c, x, e).Some? ==> Sound(Lands(c, x, e).value))
  {
    ServeCore(c, x, e);
    match Consumes(c, x, e)
    case Some(r) =>
      if Due(c, x) && Acceptable(c.layout, x.core.mem, r) {
        LoadPattern(x.core.cpu, r.cpu);
      }
    case None =>
  }

  // ---------- runs ----------

  /** The replies that land in a run, in order. */
  function Landed(step: Stepper, c: Config, m: Machine, es: seq<Event>): seq<Reply>
    decreases |es|
  {
    if es == [] || m.off || Turn(step, c, m, es[0]).None? then []
    else
      var r := Lands(c, Executed(step, m, es[0]).value.0, es[0]);
      (if r.Some? then [r.value] else []) + Landed(step, c, Turn(step, c, m, es[0]).value, es[1..])
  }

  /** The status word after each turn of a run. */
  function Statuses(step: Stepper, c: Config, m: Machine, es: seq<Event>): seq<Status>
    decreases |es|
  {
    if es == [] || m.off || Turn(step, c, m, es[0]).None? then []
    else
      var m' := Turn(step, c, m, es[0]).value;
      [m'.core.cpu.f] + Statuses(step, c, m', es[1..])
  }

  predicate AllCanonical(fs: seq<Status>) {
    forall k :: 0 <= k < |fs| ==> Canonical(fs[k])
  }

  predicate AllSound(rs: seq<Reply>) {
    forall k :: 0 <= k < |rs| ==> Sound(rs[k])
  }

  ghost predicate KeepsStatus(step: Stepper) {
    forall s: State, e: Env :: KeepsPattern(s.cpu.f, step(s, e))
  }

  lemma TurnStatus(step: Stepper, c: Config, m: Machine, e: Event)
    requires KeepsStatus(step) && Canonical(m.core.cpu.f) && Turn(step, c, m, e).Some?
    ensures var x := Executed(step, m, e).value.0;
            && Canonical(x.core.cpu.f)
            && (Canonical(Turn(step, c, m, e).value.core.cpu.f)
                <==> (Lands(c, x, e).Some? ==> Sound(Lands(c, x, e).value)))
  {
    assert KeepsPattern(m.core.cpu.f, step(m.core, Env(m.irq, e.input)));
    SettleStatus(c, Executed(step, m, e).value.0, e);
  }

  /** Over any run the status word has its pattern after every turn if and only if every reply that lands has it. */
  lemma {:induction false} StatusIffSound(step: Stepper, c: Config, m: Machine, es: seq<Event>)
    requires KeepsStatus(step) && Canonical(m.core.cpu.f)
    ensures AllCanonical(Statuses(step, c, m, es)) <==> AllSound(Landed(step, c, m, es))
    decreases |es|
  {
    if es != [] && !m.off && Turn(step, c, m, es[0]).Some? {
      TurnStatus(step, c, m, es[0]);
      var m' := Turn(step, c, m, es[0]).value;
      var r := Lands(c, Executed(step, m, es[0]).value.0, es[0]);
      var fs, rs := Statuses(step, c, m', es[1..]), Landed(step, c, m', es[1..]);
      assert AllCanonical([m'.core.cpu.f] + fs) <==> Canonical(m'.core.cpu.f) && AllCanonical(fs) by {
        AllCanonicalSplit(m'.core.cpu.f, fs);
      }
      if r.Some? {
        AllSoundSplit(r.value, rs);
      } else {
        assert [] + rs == rs;
      }
      if Canonical(m'.core.cpu.f) {
        StatusIffSound(step, c, m', es[1..]);
      }
    }
  }

  lemma AllCanonicalSplit(f: Status, fs: seq<Status>)
    ensures AllCanonical([f] + fs) <==> Canonical(f) && AllCanonical(fs)
  {
    assert ([f] + fs)[0] == f;
    assert forall k :: 0 <= k < |fs| ==> ([f] + fs)[k + 1] == fs[k];
  }

  lemma AllSoundSplit(r: Reply, rs: seq<Reply>)
    ensures AllSound([r] + rs) <==> Sound(r) && AllSound(rs)
  {
    assert ([r] + rs)[0] == r;
    assert forall k :: 0 <= k < |rs| ==> ([r] + rs)[k + 1] == rs[k];
  }

  /** Loading any of these states, once saved, would land soundly. */
  predicate AllReload(y: Layout, states: seq<State>) {
    forall k :: 0 <= k < |states| ==> Sound(AsReply(Save(y, states[k])))
  }

  lemma AllReloadSplit(y: Layout, s: State, states: seq<State>)
    requires Sound(AsReply(Save(y, s))) && AllReload(y, states)
    ensures AllReload(y, [s] + states)
  {
  }

  /** If every reply that lands is sound, every state a save captures is one that would land soundly. */
  lemma {:induction false} SavesSound(step: Stepper, c: Config, m: Machine, es: seq<Event>)
    requires KeepsStatus(step) && Canonical(m.core.cpu.f) && AllSound(Landed(step, c, m, es))
    ensures AllReload(c.layout, SavePoints(step, c, m, es))
    decreases |es|
  {
    if es != [] && !m.off && Turn(step, c, m, es[0]).Some? {
      TurnStatus(step, c, m, es[0]);
      var m' := Turn(step, c, m, es[0]).value;
      var x := Executed(step, m, es[0]).value.0;
      var r := Lands(c, x, es[0]);
      var rs := Landed(step, c, m', es[1..]);
      if r.Some? {
        AllSoundSplit(r.value, rs);
      } else {
        assert [] + rs == rs;
      }
      SavesSound(step, c, m', es[1..]);
      SavedIsSound(c.layout, x.core);
      var points := SavePoints(step, c, m', es[1..]);
      AllReloadSplit(c.layout, x.core, points);
      assert [] + points == points;
    }
  }

  /** A saved state lands soundly exactly if the saved status word has the pattern. */
  lemma SavedIsSound(y: Layout, s: State)
    ensures Sound(AsReply(Save(y, s))) <==> Canonical(s.cpu.f)
  {
    StatusRoundTrip(s.cpu.f);
    LoadPattern(s.cpu, ImageAsText(SaveCpu(y.cpuUuid, s.cpu)));
  }

  lemma MachineKeepsStatus()
    ensures KeepsStatus(Step)
  {
    hide Step;
    forall s: State, e: Env
      ensures KeepsPattern(s.cpu.f, Step(s, e))
    {
      StepLawful(s, e);
    }
  }

  /** From power on, over every run with loads and saves: the status word has its pattern throughout if and only
      if every reply that lands has it, and then every state captured for a save is such a reply. */
  lemma MachineStatus(c: Config, counter: word, mem: Mem, es: seq<Event>)
    ensures var start := Start(State(ResetCpu(counter), mem));
            && (AllCanonical(Statuses(Step, c, start, es)) <==> AllSound(Landed(Step, c, start, es)))
            && (AllSound(Landed(Step, c, start, es)) ==> AllReload(c.layout, SavePoints(Step, c, start, es)))
  {
    hide Step;
    MachineKeepsStatus();
    StatusOfRun(Step, c, State(ResetCpu(counter), mem), es);
  }

  lemma StatusOfRun(step: Stepper, c: Config, s: State, es: seq<Event>)
    requires KeepsStatus(step) && Canonical(s.cpu.f)
    ensures AllCanonical(Statuses(step, c, Start(s), es)) <==> AllSound(Landed(step, c, Start(s), es))
    ensures AllSound(Landed(step, c, Start(s), es)) ==> AllReload(c.layout, SavePoints(step, c, Start(s), es))
  {
    StatusIffSound(step, c, Start(s), es);
    if AllSound(Landed(step, c, Start(s), es)) {
      SavesSound(step, c, Start(s), es);
    }
  }

  // ---------- a run that loses the pattern ----------

  /** A saved state of this memory, but for a status number of zero. */
  function Zeroed(y: Layout, s: State): Reply {
    var r := Save(y, s);
    Parsed(ImageAsText(r.cpu).(s := Some(0)), Some(r.memUuid), Some(r.rom), Some(r.ram))
  }

  /** For every layout that can be loaded at all: one no-operation, a load request, and this reply leave a
      running machine whose status word lacks the pattern. */
  lemma LoadLosesPattern(c: Config, s: State, e: Event)
    requires c.canLoad && !c.loadAsync && c.ticksPerIsr <= 0 && CanSave(c.layout)
    requires Canonical(s.cpu.f) && s.mem[s.cpu.pc] == 0
    requires e.isr == LoadRequest && e.reply == Zeroed(c.layout, s)
    ensures Turns(Step, c, Start(s), [e]).Some? && !Canonical(Turns(Step, c, Start(s), [e]).value.core.cpu.f)
  {
    hide Serve, Load, Save;
    assert Step(s, Env(None, e.input)) == ExecNop(s) by {
      assert Decode(0) == Nop;
    }
    LosesPattern(Step, c, s, e);
  }

  lemma LosesPattern(step: Stepper, c: Config, s: State, e: Event)
    requires c.canLoad && !c.loadAsync && c.ticksPerIsr <= 0 && CanSave(c.layout)
    requires Canonical(s.cpu.f) && step(s, Env(None, e.input)) == ExecNop(s)
    requires e.isr == LoadRequest && e.reply == Zeroed(c.layout, s)
    ensures Turns(step, c, Start(s), [e]).Some? && !Canonical(Turns(step, c, Start(s), [e]).value.core.cpu.f)
  {
    var x := Executed(step, Start(s), e).value.0;
    assert Lands(c, x, e) == Some(e.reply);
    SettleStatus(c, x, e);
    var m := Turn(step, c, Start(s), e).value;
    assert [e][1..] == [] && Turns(step, c, m, []) == Some(m);
  }
}
