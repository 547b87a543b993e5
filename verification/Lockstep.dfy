/** The pacing clock and the run loop side by side: each instruction's ticks go to both. */
module Lockstep {
  import opened Types
  import opened Isa
  import opened Core
  import opened Runs
  import opened Protocol
  import opened Pacing
  import opened Snapshot
  import H = History

  function PoweredOn(counter: word, mem: Mem): Machine {
    Start(State(ResetCpu(counter), mem))
  }

  /** The ticks of each instruction of a run. */
  function Costs(step: Stepper, c: Config, m: Machine, es: seq<Event>): seq<nat>
    decreases |es|
  {
    if es == [] || m.off || Executed(step, m, es[0]).None? then []
    else [step(m.core, Env(m.irq, es[0].input)).ticks] + Costs(step, c, Turn(step, c, m, es[0]).value, es[1..])
  }

  /** Whether the loop serviced interrupts after each instruction of a run. */
  function Services(step: Stepper, c: Config, m: Machine, es: seq<Event>): seq<bool>
    decreases |es|
  {
    if es == [] || m.off || Executed(step, m, es[0]).None? then []
    else [Due(c, Executed(step, m, es[0]).value.0)] + Services(step, c, Turn(step, c, m, es[0]).value, es[1..])
  }

  /** Whether the clock took the time at each call of a run. */
  function Stamps(c: Clock, calls: seq<Call>): seq<bool>
    decreases |calls|
  {
    if calls == [] then []
    else
      [c.resolution < 0 || Syncs(c.resolution, c.tickCount, calls[0].ticks)]
      + Stamps(Ticked(c, calls[0].ticks, calls[0].x), calls[1..])
  }

  lemma {:induction false} CostsOneMore(step: Stepper, c: Config, m: Machine, es: seq<Event>, e: Event)
    requires Turns(step, c, m, es).Some? && !Turns(step, c, m, es).value.off
    ensures var m' := Turns(step, c, m, es).value;
            Costs(step, c, m, es + [e]) == Costs(step, c, m, es)
              + if Executed(step, m', e).Some? then [step(m'.core, Env(m'.irq, e.input)).ticks] else []
    decreases |es|
  {
    if es == [] {
      assert es + [e] == [e] && [e][1..] == [];
    } else {
      assert (es + [e])[0] == es[0] && (es + [e])[1..] == es[1..] + [e];
      CostsOneMore(step, c, Turn(step, c, m, es[0]).value, es[1..], e);
    }
  }

  lemma {:induction false} ServicesAreFlags(step: Stepper, c: Config, m: Machine, es: seq<Event>)
    ensures Services(step, c, m, es) == ServiceFlags(c.ticksPerIsr, m.total - m.last, Costs(step, c, m, es))
    decreases |es|
  {
    if es != [] && !m.off && Executed(step, m, es[0]).Some? {
      H.ServeLeaves(c, Executed(step, m, es[0]).value.0, es[0]);
      ServicesAreFlags(step, c, Turn(step, c, m, es[0]).value, es[1..]);
    }
  }

  lemma {:induction false} StampsAreFlags(c: Clock, calls: seq<Call>)
    ensures Stamps(c, calls) == SyncFlags(c.resolution, c.tickCount, TicksOf(calls))
    decreases |calls|
  {
    if calls != [] {
      var d := Ticked(c, calls[0].ticks, calls[0].x);
      StampsAreFlags(d, calls[1..]);
      var ks := TicksOf(calls);
      assert ks[0] == calls[0].ticks && ks[1..] == TicksOf(calls[1..]);
    }
  }

  // ---------- runs in step ----------

  /** Over every run from power on, given each instruction's ticks and whatever the host clock reads, the clock
      takes the time at exactly the instructions after which the loop services interrupts. */
  ghost predicate RunsInStep(step: Stepper, c: Config, clock: Clock) {
    forall counter: word, mem: Mem, es: seq<Event>, calls: seq<Call> ::
      TicksOf(calls) == Costs(step, c, PoweredOn(counter, mem), es) && PlausibleRun(clock, calls)
      ==> Stamps(clock, calls) == Services(step, c, PoweredOn(counter, mem), es)
  }

  ghost predicate TallyCosts(step: Stepper) {
    forall s: State, e: Env :: step(s, e).Next? ==> Tally(step(s, e).ticks)
  }

  lemma {:induction false} CostsTally(step: Stepper, c: Config, m: Machine, es: seq<Event>)
    requires TallyCosts(step)
    ensures Tallies(Costs(step, c, m, es))
    decreases |es|
  {
    if es != [] && !m.off && Executed(step, m, es[0]).Some? {
      CostsTally(step, c, Turn(step, c, m, es[0]).value, es[1..]);
    }
  }

  lemma MachineTallyCosts()
    ensures TallyCosts(Step)
  {
    hide Step;
    forall s: State, e: Env | Step(s, e).Next?
      ensures Tally(Step(s, e).ticks)
    {
      StepPrice(s, e);
    }
  }

  /** A locked clock and loop are in step, over every run. */
  lemma RunInStep(step: Stepper, c: Config, s: State, es: seq<Event>, clock: Clock, calls: seq<Call>)
    requires TallyCosts(step) && clock.tickCount >= 0
    requires Locked(clock.resolution, clock.tickCount, c.ticksPerIsr)
    requires TicksOf(calls) == Costs(step, c, Start(s), es)
    ensures Stamps(clock, calls) == Services(step, c, Start(s), es)
  {
    StampsAreFlags(clock, calls);
    ServicesAreFlags(step, c, Start(s), es);
    CostsTally(step, c, Start(s), es);
    LockedInStep(clock.resolution, clock.tickCount, c.ticksPerIsr, 0, TicksOf(calls));
  }

  lemma Refutes(step: Stepper, c: Config, clock: Clock, counter: word, mem: Mem, es: seq<Event>, ks: seq<nat>)
    requires ks == Costs(step, c, PoweredOn(counter, mem), es)
    requires SyncFlags(clock.resolution, clock.tickCount, ks) != ServiceFlags(c.ticksPerIsr, 0, ks)
    ensures !RunsInStep(step, c, clock)
  {
    var calls := Hosted(clock, ks, 0);
    HostedPlausible(clock, ks, 0);
    StampsAreFlags(clock, calls);
    ServicesAreFlags(step, c, PoweredOn(counter, mem), es);
  }

  // ---------- programs with given costs ----------

  const CALM: Event := Event((port: word) => 0, NoInterrupt, false, false, Nothing)
  const QUIT: Event := CALM.(isr := Quit)

  function Calms(n: nat): seq<Event> {
    if n == 0 then [] else [CALM] + Calms(n - 1)
  }

  function FullOf(v: byte): Mem {
    seq(0x10000, i => v)
  }

  predicate Simple(op: byte) {
    op == 0x00 || op == 0x0A || op == 0xE9 || op == 0xDD
  }

  /** A no-operation, a load, a jump and a skipped opcode: 4, 7, 5 and 0 ticks. */
  function SimpleEffect(s: State): Outcome {
    match s.mem[s.cpu.pc]
    case 0x00 => ExecNop(s)
    case 0x0A => ExecLdax(s, BC)
    case 0xE9 => ExecPchl(s)
    case 0xDD => ExecSkipTwo(s)
    case _ => Trap
  }

  ghost predicate ObeysSimple(step: Stepper) {
    forall s: State, e: Env {:trigger step(s, e), SimpleEffect(s)} ::
      e.irq.None? && Simple(s.mem[s.cpu.pc]) ==> step(s, e) == SimpleEffect(s)
  }

  lemma SimpleOpcodes()
    ensures Decode(0x00) == Nop && Decode(0x0A) == Ldax(BC) && Decode(0xE9) == Pchl && Decode(0xDD) == SkipTwo
  {
  }

  lemma StepSimple(s: State, e: Env)
    requires e.irq.None? && Simple(s.mem[s.cpu.pc])
    ensures Step(s, e) == SimpleEffect(s)
  {
    SimpleOpcodes();
  }

  lemma MachineObeysSimple()
    ensures ObeysSimple(Step)
  {
    hide Step;
    forall s: State, e: Env | e.irq.None? && Simple(s.mem[s.cpu.pc])
      ensures Step(s, e) == SimpleEffect(s)
    {
      StepSimple(s, e);
    }
  }

  predicate Unasked(m: Machine) {
    Free(m) && !m.off && m.irq.None? && m.last <= m.total
  }

  /** The turn of an instruction with nothing asked for, the first of `n`. */
  lemma CalmTurn(step: Stepper, c: Config, m: Machine, n: nat, t: State, ticks: nat) returns (m': Machine)
    requires Unasked(m) && n > 0 && step(m.core, Env(None, CALM.input)) == Next(t, ticks, [])
    ensures Unasked(m') && m'.core == t
    ensures Costs(step, c, m, Calms(n)) == [ticks] + Costs(step, c, m', Calms(n - 1))
  {
    m' := Turn(step, c, m, CALM).value;
    assert Calms(n)[0] == CALM && Calms(n)[1..] == Calms(n - 1);
  }

  lemma NopStep(step: Stepper, s: State)
    requires ObeysSimple(step) && s.mem[s.cpu.pc] == 0
    ensures step(s, Env(None, CALM.input)) == Next(State(Skip(s.cpu, 1), s.mem), 4, [])
  {
    assert SimpleEffect(s) == ExecNop(s);
  }

  lemma {:induction false} NopCosts(step: Stepper, c: Config, m: Machine, n: nat)
    requires ObeysSimple(step) && Unasked(m) && m.core.mem == FullOf(0)
    ensures Costs(step, c, m, Calms(n)) == Nops(n)
    decreases n
  {
    if n > 0 {
      var t := State(Skip(m.core.cpu, 1), m.core.mem);
      NopStep(step, m.core);
      var m' := CalmTurn(step, c, m, n, t, 4);
      NopCosts(step, c, m', n - 1);
    }
  }

  lemma SkipStep(step: Stepper, s: State)
    requires ObeysSimple(step) && s.mem[s.cpu.pc] == 0xDD
    ensures step(s, Env(None, CALM.input)) == Next(State(Skip(s.cpu, 2), s.mem), 0, [])
  {
    assert SimpleEffect(s) == ExecSkipTwo(s);
  }

  lemma SkipCosts(step: Stepper, c: Config, m: Machine)
    requires ObeysSimple(step) && Unasked(m) && m.core.mem == FullOf(0xDD)
    ensures Costs(step, c, m, Calms(2)) == [0, 0]
  {
    SkipStep(step, m.core);
    var m' := CalmTurn(step, c, m, 2, State(Skip(m.core.cpu, 2), m.core.mem), 0);
    SkipStep(step, m'.core);
    var m'' := CalmTurn(step, c, m', 1, State(Skip(m'.core.cpu, 2), m'.core.mem), 0);
    assert Costs(step, c, m'', Calms(0)) == [];
  }

  function Fives(n: nat): seq<nat> {
    if n == 0 then [] else [5] + Fives(n - 1)
  }

  /** At the jump to itself: PCHL at address 0 with HL at 0. */
  predicate Spinning(s: State) {
    s.cpu.pc == 0 && s.cpu.h == 0 && s.cpu.l == 0 && s.mem[0] == 0xE9
  }

  lemma SpinStep(step: Stepper, s: State)
    requires ObeysSimple(step) && Spinning(s)
    ensures step(s, Env(None, CALM.input)) == Next(s, 5, [])
  {
    SpinEffect(s);
    assert Simple(s.mem[s.cpu.pc]);
  }

  lemma SpinEffect(s: State)
    requires Spinning(s)
    ensures SimpleEffect(s) == Next(s, 5, [])
  {
    assert SimpleEffect(s) == ExecPchl(s);
    assert s.(cpu := s.cpu.(pc := 0)) == s;
  }

  lemma SpinTurn(step: Stepper, c: Config, m: Machine, n: nat) returns (m': Machine)
    requires ObeysSimple(step) && Unasked(m) && Spinning(m.core) && n > 0
    ensures Unasked(m') && Spinning(m'.core)
    ensures Costs(step, c, m, Calms(n)) == [5] + Costs(step, c, m', Calms(n - 1))
  {
    SpinStep(step, m.core);
    m' := CalmTurn(step, c, m, n, m.core, 5);
  }

  lemma {:induction false} SpinCosts(step: Stepper, c: Config, m: Machine, n: nat)
    requires ObeysSimple(step) && Unasked(m) && Spinning(m.core)
    ensures Costs(step, c, m, Calms(n)) == Fives(n)
    decreases n
  {
    if n > 0 {
      var m' := SpinTurn(step, c, m, n);
      SpinCosts(step, c, m', n - 1);
    }
  }

  lemma {:induction false} CalmsMore(k: nat, n: nat)
    ensures Calms(k + n) == Calms(k) + Calms(n) && |Calms(n)| == n
    decreases k + n
  {
    if k > 0 {
      CalmsMore(k - 1, n);
      assert [CALM] + (Calms(k - 1) + Calms(n)) == ([CALM] + Calms(k - 1)) + Calms(n);
    } else if n > 0 {
      CalmsMore(0, n - 1);
      assert [] + Calms(n) == Calms(n);
    }
  }

  /** `k` no-operations at the top of memory, then the jump to itself. */
  predicate Approaching(s: State, k: nat) {
    && k <= 5 && s.cpu.h == 0 && s.cpu.l == 0 && s.mem[0] == 0xE9
    && s.cpu.pc == (if k == 0 then 0 else 0x10000 - k)
    && forall x :: 0x10000 - k <= x < 0x10000 ==> s.mem[x] == 0
  }

  lemma ApproachTurn(step: Stepper, c: Config, m: Machine, k: nat, n: nat) returns (m': Machine)
    requires ObeysSimple(step) && Unasked(m) && 0 < k && Approaching(m.core, k) && n > 0
    ensures Unasked(m') && Approaching(m'.core, k - 1)
    ensures Costs(step, c, m, Calms(n)) == [4] + Costs(step, c, m', Calms(n - 1))
  {
    NopStep(step, m.core);
    m' := CalmTurn(step, c, m, n, State(Skip(m.core.cpu, 1), m.core.mem), 4);
  }

  lemma NopFirst(k: nat, rest: seq<nat>)
    requires k > 0
    ensures Nops(k) + rest == [4] + (Nops(k - 1) + rest)
  {
  }

  lemma {:induction false} ApproachCosts(step: Stepper, c: Config, m: Machine, k: nat, j: nat, n: nat)
    requires ObeysSimple(step) && Unasked(m) && Approaching(m.core, k) && n == k + j
    ensures Costs(step, c, m, Calms(n)) == Nops(k) + Fives(j)
    decreases k
  {
    if k == 0 {
      SpinCosts(step, c, m, n);
      assert Nops(0) + Fives(j) == Fives(j);
    } else {
      var m' := ApproachTurn(step, c, m, k, n);
      ApproachCosts(step, c, m', k - 1, j, n - 1);
      NopFirst(k, Fives(j));
    }
  }

  /** A load at most, some no-operations and some jumps: the costs of a run that comes to a given sum. */
  function Mixed(load: bool, k: nat, j: nat): seq<nat> {
    (if load then [7] else []) + (Nops(k) + Fives(j))
  }

  function Program(load: bool, k: nat): Mem
    requires k <= 4
  {
    var m := FullOf(0)[0 := 0xE9];
    if load then m[0xFFFF - k := 0x0A] else m
  }

  function EntryAt(load: bool, k: nat): word
    requires k <= 4
  {
    if load then 0xFFFF - k else if k == 0 then 0 else 0x10000 - k
  }

  /** The state after the load at the entry of the program. */
  function Loaded(k: nat): State
    requires k <= 4
  {
    State(ResetCpu(0xFFFF - k).(a := 0xE9, pc := Plus(0xFFFF - k, 1)), Program(true, k))
  }

  lemma LoadEffect(s: State)
    requires s.mem[s.cpu.pc] == 0x0A && s.cpu.b == 0 && s.cpu.c == 0
    ensures SimpleEffect(s) == Next(s.(cpu := s.cpu.(a := s.mem[0], pc := Plus(s.cpu.pc, 1))), 7, [])
  {
    assert SimpleEffect(s) == ExecLdax(s, BC);
    assert PairValue(s.cpu, BC) == 0;
  }

  lemma LoadStep(step: Stepper, k: nat)
    requires ObeysSimple(step) && k <= 4
    ensures step(State(ResetCpu(0xFFFF - k), Program(true, k)), Env(None, CALM.input)) == Next(Loaded(k), 7, [])
    ensures Approaching(Loaded(k), k)
  {
    var s := State(ResetCpu(0xFFFF - k), Program(true, k));
    LoadEffect(s);
    assert Simple(s.mem[s.cpu.pc]);
  }

  lemma LoadTurn(step: Stepper, c: Config, k: nat, n: nat) returns (m': Machine)
    requires ObeysSimple(step) && k <= 4 && n > 0
    ensures Unasked(m') && Approaching(m'.core, k)
    ensures Costs(step, c, PoweredOn(EntryAt(true, k), Program(true, k)), Calms(n))
            == [7] + Costs(step, c, m', Calms(n - 1))
  {
    LoadStep(step, k);
    m' := CalmTurn(step, c, PoweredOn(EntryAt(true, k), Program(true, k)), n, Loaded(k), 7);
  }

  lemma LoadedCosts(step: Stepper, c: Config, k: nat, j: nat, n: nat)
    requires ObeysSimple(step) && k <= 4 && n == 1 + k + j
    ensures Costs(step, c, PoweredOn(EntryAt(true, k), Program(true, k)), Calms(n)) == [7] + (Nops(k) + Fives(j))
  {
    var m' := LoadTurn(step, c, k, n);
    ApproachCosts(step, c, m', k, j, n - 1);
  }

  lemma PlainCosts(step: Stepper, c: Config, k: nat, j: nat, n: nat)
    requires ObeysSimple(step) && k <= 4 && n == k + j
    ensures Costs(step, c, PoweredOn(EntryAt(false, k), Program(false, k)), Calms(n)) == Nops(k) + Fives(j)
  {
    ApproachCosts(step, c, PoweredOn(EntryAt(false, k), Program(false, k)), k, j, n);
  }

  lemma MixedCosts(step: Stepper, c: Config, load: bool, k: nat, j: nat, n: nat)
    requires ObeysSimple(step) && k <= 4 && n == (if load then 1 else 0) + k + j
    ensures Costs(step, c, PoweredOn(EntryAt(load, k), Program(load, k)), Calms(n)) == Mixed(load, k, j)
  {
    if load {
      LoadedCosts(step, c, k, j, n);
    } else {
      PlainCosts(step, c, k, j, n);
      assert [] + (Nops(k) + Fives(j)) == Nops(k) + Fives(j);
    }
  }

  lemma {:induction false} SumConcat(a: seq<nat>, b: seq<nat>)
    ensures Sum(a + b) == Sum(a) + Sum(b)
  {
    if a == [] {
      assert a + b == b;
    } else {
      assert (a + b)[1..] == a[1..] + b;
      SumConcat(a[1..], b);
    }
  }

  lemma {:induction false} FivesSum(n: nat)
    ensures Sum(Fives(n)) == 5 * n && forall i :: 0 <= i < |Fives(n)| ==> Fives(n)[i] == 5
  {
    if n > 0 {
      assert Fives(n)[1..] == Fives(n - 1);
      FivesSum(n - 1);
    }
  }

  lemma {:induction false} NopsAreFour(n: nat)
    ensures forall i :: 0 <= i < |Nops(n)| ==> Nops(n)[i] == 4
  {
    if n > 0 {
      NopsAreFour(n - 1);
    }
  }

  predicate Paid(ks: seq<nat>) {
    forall i :: 0 <= i < |ks| ==> ks[i] >= 4
  }

  lemma MixedSum(load: bool, k: nat, j: nat)
    ensures Sum(Mixed(load, k, j)) == (if load then 7 else 0) + 4 * k + 5 * j
    ensures Paid(Mixed(load, k, j))
  {
    SumConcat(if load then [7] else [], Nops(k) + Fives(j));
    SumConcat(Nops(k), Fives(j));
    NopsSum(k);
    FivesSum(j);
    NopsAreFour(k);
    assert [7][1..] == [] && Sum([7]) == 7 + Sum([]);
  }

  /** Every sum of instruction costs is one of a load at most, at most four no-operations, and jumps. */
  lemma Parts(v: nat) returns (load: bool, k: nat, j: nat)
    requires Tally(v)
    ensures v == (if load then 7 else 0) + 4 * k + 5 * j && k <= 4
  {
    load := v == 7 || v == 11;
    var rest := if load then v - 7 else v;
    k := 4 * rest % 5;
    j := (rest - 4 * k) / 5;
  }

  lemma {:induction false} CalmsRun(step: Stepper, c: Config, m: Machine, n: nat, i: nat)
    requires Unasked(m) && |Costs(step, c, m, Calms(n))| == n && i <= n
    ensures Turns(step, c, m, Calms(i)).Some? && Unasked(Turns(step, c, m, Calms(i)).value)
    ensures i < n ==> Executed(step, Turns(step, c, m, Calms(i)).value, CALM).Some?
    decreases n
  {
    if n > 0 {
      assert Calms(n)[0] == CALM && Calms(n)[1..] == Calms(n - 1);
      if i > 0 {
        assert Calms(i)[0] == CALM && Calms(i)[1..] == Calms(i - 1);
        CalmsRun(step, c, Turn(step, c, m, CALM).value, n - 1, i - 1);
      }
    }
  }

  lemma {:induction false} CostsLength(step: Stepper, c: Config, m: Machine, es: seq<Event>)
    ensures |Costs(step, c, m, es)| <= |es|
    decreases |es|
  {
    if es != [] && !m.off && Executed(step, m, es[0]).Some? {
      CostsLength(step, c, Turn(step, c, m, es[0]).value, es[1..]);
    }
  }

  /** The last of `n` calm turns: what it costs, and that ending it with a quit costs the same and powers off. */
  lemma LastTurn(step: Stepper, c: Config, m: Machine, n: nat)
    requires n > 0 && Unasked(m) && |Costs(step, c, m, Calms(n))| == n
    ensures var ks := Costs(step, c, m, Calms(n));
            && Costs(step, c, m, Calms(n - 1)) == ks[..n - 1]
            && Costs(step, c, m, Calms(n - 1) + [QUIT]) == ks
    ensures c.ticksPerIsr <= 0 ==>
              Turns(step, c, m, Calms(n - 1) + [QUIT]).Some? && Turns(step, c, m, Calms(n - 1) + [QUIT]).value.off
  {
    CalmsRun(step, c, m, n, n - 1);
    CalmsMore(n - 1, 1);
    assert Calms(1) == [CALM] + Calms(0) && Calms(0) == [];
    var last := Turns(step, c, m, Calms(n - 1)).value;
    CostsOneMore(step, c, m, Calms(n - 1), CALM);
    CostsOneMore(step, c, m, Calms(n - 1), QUIT);
    assert Executed(step, last, QUIT) == Executed(step, last, CALM);
    assert Calms(n - 1) + [CALM] == Calms(n);
    CostsLength(step, c, m, Calms(n - 1));
    TurnsOneMore(step, c, m, Calms(n - 1), QUIT);
  }

  /** Every sum of instruction costs is met: a run from power on whose costs add up to it. */
  lemma MixMet(step: Stepper, c: Config, v: nat) returns (counter: word, mem: Mem, n: nat)
    requires ObeysSimple(step) && Tally(v)
    ensures var all := Costs(step, c, PoweredOn(counter, mem), Calms(n));
            |all| == n && Sum(all) == v && Paid(all)
  {
    var load, nops, jumps := Parts(v);
    counter, mem := EntryAt(load, nops), Program(load, nops);
    n := (if load then 1 else 0) + nops + jumps;
    MixedCosts(step, c, load, nops, jumps, n);
    MixedSum(load, nops, jumps);
    MixedLength(load, nops, jumps);
  }

  /** The same, split before its last instruction, which the run can quit after. */
  lemma SumMet(step: Stepper, c: Config, v: nat) returns (counter: word, mem: Mem, n: nat, ks: seq<nat>, k: nat)
    requires ObeysSimple(step) && Tally(v) && v > 0
    ensures n > 0 && |Costs(step, c, PoweredOn(counter, mem), Calms(n))| == n
    ensures Costs(step, c, PoweredOn(counter, mem), Calms(n)) == ks + [k] && k > 0 && Sum(ks) + k == v
  {
    counter, mem, n := MixMet(step, c, v);
    var all := Costs(step, c, PoweredOn(counter, mem), Calms(n));
    ks, k := all[..n - 1], all[n - 1];
    assert all == ks + [k];
    SumOneMore(ks, k);
  }

  lemma MixedLength(load: bool, k: nat, j: nat)
    ensures |Mixed(load, k, j)| == (if load then 1 else 0) + k + j
  {
    NopsSum(k);
    FivesLength(j);
  }

  lemma {:induction false} FivesLength(n: nat)
    ensures |Fives(n)| == n
  {
    if n > 0 {
      FivesLength(n - 1);
    }
  }

  // ---------- exactly when runs are in step ----------

  lemma {:induction false} TallySum(ks: seq<nat>)
    requires Tallies(ks)
    ensures Tally(Sum(ks))
  {
    if ks != [] {
      TallySum(ks[1..]);
    }
  }

  /** Skipped opcodes tell a threshold that is reached without a tick from one that is not. */
  lemma SkipsTellApart(resolution: int, count: nat, period: int)
    requires (resolution <= 0 <==> period > 0) || (0 < resolution <= count && period > 0)
    ensures SyncFlags(resolution, count, [0, 0]) != ServiceFlags(period, 0, [0, 0])
  {
    var zeros: seq<nat> := [0, 0];
    assert zeros[1..] == [0] && zeros[1..][1..] == [];
    if resolution <= 0 {
      assert SyncFlags(resolution, count, zeros)[0] && !ServiceFlags(period, 0, zeros)[0];
    } else if period > 0 {
      assert SyncFlags(resolution, count, zeros)[0] && !ServiceFlags(period, 0, zeros)[0];
    } else if count < resolution {
      assert !SyncFlags(resolution, count, zeros)[0] && ServiceFlags(period, 0, zeros)[0];
    } else {
      assert SyncFlags(resolution, count, zeros)[1] == SyncFlags(resolution, 0, zeros[1..])[0];
      assert ServiceFlags(period, 0, zeros)[1] == ServiceFlags(period, 0, zeros[1..])[0];
    }
  }

  lemma OutOfStepBySkips(step: Stepper, c: Config, clock: Clock)
    requires ObeysSimple(step) && clock.tickCount >= 0
    requires (clock.resolution <= 0 <==> c.ticksPerIsr > 0)
             || (0 < clock.resolution <= clock.tickCount && c.ticksPerIsr > 0)
    ensures !RunsInStep(step, c, clock)
  {
    SkipCosts(step, c, PoweredOn(0, FullOf(0xDD)));
    SkipsTellApart(clock.resolution, clock.tickCount, c.ticksPerIsr);
    Refutes(step, c, clock, 0, FullOf(0xDD), Calms(2), [0, 0]);
  }

  /** A first round: the clock is `reach` ticks from its sync and the service a period away. */
  lemma OutOfStepAtOnce(step: Stepper, c: Config, clock: Clock)
    requires ObeysSimple(step) && TallyCosts(step) && clock.tickCount >= 0
    requires c.ticksPerIsr > 0 && clock.resolution > clock.tickCount
    requires Rounded(clock.resolution - clock.tickCount) != Rounded(c.ticksPerIsr)
    ensures !RunsInStep(step, c, clock)
  {
    var reach := clock.resolution - clock.tickCount;
    var v := Rounded(if reach < c.ticksPerIsr then reach else c.ticksPerIsr);
    var counter, mem, n, ks, k := SumMet(step, c, v);
    CostsTally(step, c, PoweredOn(counter, mem), Calms(n));
    assert forall i :: 0 <= i < |ks| ==> (ks + [k])[i] == ks[i];
    TallySum(ks);
    SumTellsApart(clock.resolution, clock.tickCount, c.ticksPerIsr, ks, k);
    SyncsLikeService(clock.resolution, clock.tickCount, ks + [k]);
    Refutes(step, c, clock, counter, mem, Calms(n), ks + [k]);
  }

  /** A second round, of no-operations: the left-over ticks brought the clock forward only once. */
  lemma OutOfStepLater(step: Stepper, c: Config, clock: Clock)
    requires ObeysSimple(step) && Tally(clock.tickCount) && clock.tickCount > 0
    requires c.ticksPerIsr > 0 && clock.resolution > clock.tickCount
    requires Rounded(clock.resolution - clock.tickCount) == Rounded(c.ticksPerIsr)
    ensures !RunsInStep(step, c, clock)
  {
    var n := (c.ticksPerIsr + 3) / 4;
    LeftOverTellsApart(clock.resolution, clock.tickCount, c.ticksPerIsr, n);
    SyncsLikeService(clock.resolution, clock.tickCount, Nops(n) + Nops(n));
    NopsMore(n, n);
    OutOfStepByNops(step, c, clock, n + n);
  }

  lemma OutOfStepByNops(step: Stepper, c: Config, clock: Clock, n: nat)
    requires ObeysSimple(step)
    requires SyncFlags(clock.resolution, clock.tickCount, Nops(n)) != ServiceFlags(c.ticksPerIsr, 0, Nops(n))
    ensures !RunsInStep(step, c, clock)
  {
    NopCosts(step, c, PoweredOn(0, FullOf(0)), n);
    Refutes(step, c, clock, 0, FullOf(0), Calms(n), Nops(n));
  }

  lemma {:induction false} NopsMore(k: nat, n: nat)
    ensures Nops(k + n) == Nops(k) + Nops(n)
  {
    if k > 0 {
      NopsMore(k - 1, n);
      assert [4] + (Nops(k - 1) + Nops(n)) == ([4] + Nops(k - 1)) + Nops(n);
    } else {
      assert Nops(0) + Nops(n) == Nops(n);
    }
  }

  /** Lockstep, exactly: with any tick count earlier runs can leave, every run is in step if and only if no sum
      of instruction costs tells the resolution from the service period and no ticks are left over, or both act
      at every instruction. */
  lemma InStepIffLocked(step: Stepper, c: Config, clock: Clock)
    requires ObeysSimple(step) && TallyCosts(step) && Tally(clock.tickCount)
    ensures RunsInStep(step, c, clock) <==> Locked(clock.resolution, clock.tickCount, c.ticksPerIsr)
  {
    var r, n, p := clock.resolution, clock.tickCount, c.ticksPerIsr;
    if Locked(r, n, p) {
      forall counter: word, mem: Mem, es: seq<Event>, calls: seq<Call>
        | TicksOf(calls) == Costs(step, c, PoweredOn(counter, mem), es) && PlausibleRun(clock, calls)
        ensures Stamps(clock, calls) == Services(step, c, PoweredOn(counter, mem), es)
      {
        RunInStep(step, c, State(ResetCpu(counter), mem), es, clock, calls);
      }
    } else if r <= 0 || p <= 0 || r <= n {
      OutOfStepBySkips(step, c, clock);
    } else if Rounded(r - n) != Rounded(p) {
      OutOfStepAtOnce(step, c, clock);
    } else {
      OutOfStepLater(step, c, clock);
    }
  }

  lemma MachineInStepIffLocked(c: Config, clock: Clock)
    requires Tally(clock.tickCount)
    ensures RunsInStep(Step, c, clock) <==> Locked(clock.resolution, clock.tickCount, c.ticksPerIsr)
  {
    hide Step;
    MachineObeysSimple();
    MachineTallyCosts();
    InStepIffLocked(Step, c, clock);
  }

  // ---------- the tick counts runs leave ----------

  /** No run leaves any other tick count, whatever the resolution. */
  lemma {:induction false} LeavesTally(c: Clock, calls: seq<Call>)
    requires Tally(c.tickCount) && Tallies(TicksOf(calls))
    ensures Tally(Ran(c, calls).tickCount)
    decreases |calls|
  {
    if calls != [] {
      assert Tally(TicksOf(calls)[0]);
      assert TicksOf(calls)[1..] == TicksOf(calls[1..]);
      LeavesTally(Ticked(c, calls[0].ticks, calls[0].x), calls[1..]);
    }
  }

  /** And every one is left, with the default service after each instruction: by a run from power on that quits
      before the clock first syncs. */
  lemma EveryTallyLeft(step: Stepper, c: Config, clock: Clock, n: nat) returns (counter: word, mem: Mem, es: seq<Event>)
    requires ObeysSimple(step) && c.ticksPerIsr <= 0 && Tally(n) && n > 0
    requires clock.tickCount == 0 && clock.resolution > n
    ensures Turns(step, c, PoweredOn(counter, mem), es).Some? && Turns(step, c, PoweredOn(counter, mem), es).value.off
    ensures forall calls :: TicksOf(calls) == Costs(step, c, PoweredOn(counter, mem), es) && PlausibleRun(clock, calls)
                       ==> Ran(clock, calls).tickCount == n
  {
    var length, ks, k;
    counter, mem, length, ks, k := SumMet(step, c, n);
    es := Calms(length - 1) + [QUIT];
    LastTurn(step, c, PoweredOn(counter, mem), length);
    SumOneMore(ks, k);
    NoSync(clock.resolution, 0, ks + [k]);
    PendingBound(clock.resolution, 0, ks + [k]);
    forall calls | TicksOf(calls) == Costs(step, c, PoweredOn(counter, mem), es) && PlausibleRun(clock, calls)
      ensures Ran(clock, calls).tickCount == n
    {
      TimeAtSync(clock, calls);
    }
  }

  lemma {:induction false} NoSync(resolution: int, count: nat, ks: seq<nat>)
    requires count + Sum(ks) < resolution
    ensures !SyncsIn(resolution, count, ks)
    decreases |ks|
  {
    if ks != [] {
      NoSync(resolution, count + ks[0], ks[1..]);
    }
  }

  // ---------- pacing ----------

  /** A machine whose memory is all no-operations, run twice to a quit in its first sync: the first run oversleeps
      by any time, and the second can report less than it emulates. */
  lemma OversleepShows(step: Stepper, c: Config, clock: Clock, n: nat, late: nat, now: int)
    returns (es: seq<Event>, first: seq<Call>, second: seq<Call>)
    requires ObeysSimple(step) && c.ticksPerIsr <= 0 && late > 0 && NopsSync(clock.resolution, 0, n)
    requires clock.resolution >= 0 && clock.error == 0 && clock.tickCount == 0 && clock.period >= 1
    ensures var m := PoweredOn(0, FullOf(0));
            var d := Restarted(Ran(clock, first), now);
            && Turns(step, c, m, es).Some? && Turns(step, c, m, es).value.off
            && TicksOf(first) == Costs(step, c, m, es) == TicksOf(second)
            && PlausibleRun(clock, first) && Ran(clock, first).error == 0 - late
            && PlausibleRun(d, second) && Ran(d, second).time < Sum(Costs(step, c, m, es)) * clock.period
  {
    es := Calms(n - 1) + [QUIT];
    NopCosts(step, c, PoweredOn(0, FullOf(0)), n);
    NopsSum(n);
    LastTurn(step, c, PoweredOn(0, FullOf(0)), n);
    first, second := SecondRunFallsShort(clock, n, late, now);
  }

  /** For the machine itself, every gap between services lies within 17 ticks above a positive period. */
  lemma MachineCadence(c: Config, s: State, es: seq<Event>)
    requires c.ticksPerIsr > 0
    ensures forall g :: g in H.Gaps(Step, c, Start(s), es) ==> c.ticksPerIsr <= g <= c.ticksPerIsr + 17
  {
    hide Step;
    forall s: State, e: Env | Step(s, e).Next?
      ensures Step(s, e).ticks <= 18
    {
      StepPrice(s, e);
    }
    H.Cadence(Step, c, Start(s), es);
  }
}
