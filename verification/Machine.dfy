/** The machine as it is written: the run loop over interpreter, clock and handlers, refining the
    turns of the protocol. */
module MachineLoop {
  import opened Types
  import opened Core
  import opened Bus
  import opened Snapshot
  import opened Protocol
  import opened Intel8080
  import opened CpuClock
  import opened Runs
  import opened Pacing
  import opened Lockstep
  import opened Controllers
  import opened Chronicle

  /** A `double` converted to an integer type: truncated toward zero. */
  function Truncated(r: real): int {
    if r >= 0.0 then r.Floor else -(-r).Floor
  }

  /** The ticks between interrupt services for a frequency relative to the clock's resolution. */
  function ServicePeriod(isrFreq: real, resolutionInTicks: int): int {
    Truncated(isrFreq * resolutionInTicks as real)
  }

  /** The service period is the frequency's share of the resolution, with its fraction dropped: the ticks of no
      resolution, -1, give a period of zero or less, so service after every instruction. */
  lemma PeriodIsShare(isrFreq: real, ticks: int)
    requires isrFreq >= 0.0
    ensures var share, p := isrFreq * ticks as real, ServicePeriod(isrFreq, ticks);
            && (ticks >= 0 ==> p as real <= share < p as real + 1.0)
            && (ticks < 0 ==> p as real - 1.0 < share <= p as real && p <= 0)
  {
    var share := isrFreq * ticks as real;
    assert ticks >= 0 ==> share >= 0.0;
    assert ticks < 0 ==> share <= 0.0;
    assert share < 0.0 ==> ServicePeriod(isrFreq, ticks) == -(-share).Floor;
  }

  /** With an interrupt frequency of one the service period is the clock's resolution in ticks. */
  lemma UnitFrequency(ticks: int)
    ensures ServicePeriod(1.0, ticks) == ticks
  {
  }

  /** With an interrupt frequency of one, clock and loop are locked if and only if no ticks are left over (or there is
      no resolution of a tick or more) and, should the resolution have drawn a warning, the old service period
      cannot be told from it. */
  lemma FrequencyOneLocked(ticks: int, count: nat, stale: int, warned: bool)
    ensures Locked(ticks, count, if warned then stale else ServicePeriod(1.0, ticks))
            <==> (ticks <= 0 || count == 0) && (warned ==> SameReach(ticks, stale))
  {
  }

  /** A stale period: on a fresh machine, with its period of zero, a resolution of four ticks that draws a warning
      puts some run out of step. */
  lemma StalePeriodOutOfStep(c: Config, clock: Clock)
    requires c.ticksPerIsr == 0 && clock.resolution == InTicks(2000, 500) && clock.tickCount == 0
    ensures !RunsInStep(Step, c, clock)
  {
    hide Step;
    assert InTicks(2000, 500) == 4;
    MachineInStepIffLocked(c, clock);
  }

  /** Options that stay fixed while the machine runs. `wiring` says how the i/o controller
      uses the request latch. */
  datatype Options = Options(layout: Layout, isrFreq: real, clockResolution: int,
                             canLoad: bool, canSave: bool, loadAsync: bool, saveAsync: bool, wiring: Wiring)

  /** `Rejected`: an exception before the loop. `Trapped`: a failed assertion of the interpreter.
      `Suspended`: the finite schedule of events ran out. */
  datatype RunResult = Rejected | Trapped | Suspended | Finished(time: int)

  /** The processor of the machine is the 8080. */
  ghost predicate Is8080(step: Stepper) {
    forall s: State, e: Env {:trigger step(s, e), Step(s, e)} :: step(s, e) == Step(s, e)
  }

  /** What a turn makes of the outcome of its instruction. */
  lemma ExecutedOutcome(step: Stepper, m: Machine, x: Event, p: Machine, o: Outcome)
    requires step(m.core, Env(m.irq, x.input)) == o && p == SaveProgress(LoadProgress(m, x), x)
    ensures o.Trap? ==> Executed(step, m, x).None? && TicksIn(step, m, x) == 0
    ensures o.Next? ==>
              && Executed(step, m, x) == Some((p.(core := o.s, irq := None, total := p.total + o.ticks), o.io))
              && TicksIn(step, m, x) == o.ticks
  {
  }

  lemma ExecutedTraffic(step: Stepper, m: Machine, e: Event)
    requires Is8080(step) && Executed(step, m, e).Some?
    ensures |Executed(step, m, e).value.1| <= 1
  {
    hide Exec, Fetched;
    StepLawful(m.core, Env(m.irq, e.input));
  }

  lemma Tallies8080(step: Stepper)
    requires Is8080(step)
    ensures TallyCosts(step)
  {
    hide Step;
    forall s: State, e: Env | step(s, e).Next?
      ensures Tally(step(s, e).ticks)
    {
      assert step(s, e) == Step(s, e);
      StepPrice(s, e);
    }
  }

  /** The machine is at the head of the loop, at its exit, or neither. */
  datatype Standing = Heading | PoweringOff | Elsewhere

  class Machine8080 {
    const cpu: Interpreter
    const clock: PacingClock
    const latch: BaseIoController
    const options: Options
    /** One call of the processor and one turn of the loop, for contracts. */
    ghost const step: Stepper
    ghost const turn: Turner
    var ticksPerIsr: int
    var running: bool
    var totalTicks: int
    var lastTicks: int
    var onLoad: LoadFuture
    var onSave: SaveFuture
    ghost var history: seq<Action>

    constructor (cpu: Interpreter, clock: PacingClock, latch: BaseIoController, options: Options)
      ensures this.cpu == cpu && this.clock == clock && this.latch == latch && this.options == options
      ensures !running && ticksPerIsr == 0 && step == Step && Genuine()
    {
      step := Step;
      turn := (c, s, t) => NextTurn(Step, c, options.wiring, s, t);
      this.cpu := cpu;
      this.clock := clock;
      this.latch := latch;
      this.options := options;
      ticksPerIsr, running := 0, false;
      totalTicks, lastTicks := 0, 0;
      onLoad, onSave, history := NoLoad, NoSave, [];
    }

    predicate Valid() {
      cpu.board.Valid()
    }

    /** The processor is the 8080 and a turn is the loop's. */
    ghost predicate Genuine() {
      Is8080(step) && TurnsLike(turn, step, options.wiring)
    }

    ghost function Contents(): Mem
      requires Valid()
      reads cpu.board.memory.memory
    {
      cpu.board.Contents()
    }

    ghost function Abs(off: bool): Machine
      requires Valid()
      reads this`totalTicks, this`lastTicks, this`onLoad, this`onSave, this`history
      reads cpu, cpu.board.memory.memory, cpu.board.dataBus, cpu.board.controlBus
    {
      Machine(cpu.Abs(), cpu.Raised(), totalTicks, lastTicks, onLoad, onSave, off, history)
    }

    ghost function Now(off: bool): Situation
      requires Valid()
      reads this`totalTicks, this`lastTicks, this`onLoad, this`onSave, this`history
      reads cpu, cpu.board.memory.memory, cpu.board.dataBus, cpu.board.controlBus, latch, clock
    {
      Situation(Abs(off), latch.Abs(), clock.Abs())
    }

    ghost function Configured(): Config
      reads this`ticksPerIsr
    {
      Config(options.layout, ticksPerIsr, options.canLoad, options.canSave, options.loadAsync, options.saveAsync)
    }

    ghost function Frame(): set<object> {
      {this, clock, clock.host, latch} + cpu.Frame()
    }

    // ---------- memory blocks ----------

    /** The inner gathering loop of a save: one block, counting in 16 bits. */
    method GatherBlock(b: Block) returns (mem: seq<byte>)
      requires Valid() && b.offset + b.size <= 0xFFFF
      ensures mem == Gather(Contents(), Span(b.offset, b.size))
    {
      mem := [];
      ghost var m, k := Contents(), 0;
      var addr := b.offset;
      while addr < b.offset + b.size
        invariant 0 <= k <= b.size && addr == b.offset + k <= 0xFFFF
        invariant mem == Gather(m, Span(b.offset, k)) && Contents() == m
        decreases b.size - k
      {
        var v := cpu.board.memory.Read(addr);
        GatherOneMore(m, b.offset, k);
        mem := mem + [v];
        addr := Plus(addr, 1);
        k := k + 1;
      }
    }

    /** The gathering loops of a save. */
    method GatherBlocks(blocks: seq<Block>) returns (mem: seq<byte>)
      requires Valid() && Gatherable(blocks)
      ensures mem == Gather(Contents(), Addresses(blocks))
    {
      mem := [];
      ghost var m := Contents();
      for i := 0 to |blocks|
        invariant mem == Gather(m, Addresses(blocks[..i])) && Contents() == m
      {
        var bytes := GatherBlock(blocks[i]);
        mem := mem + bytes;
        AddressesOneMore(blocks, i);
        GatherConcat(m, Addresses(blocks[..i]), Span(blocks[i].offset, blocks[i].size));
      }
      assert blocks[..|blocks|] == blocks;
    }

    /** The inner gathering loop of a load: one block, counting in a wider integer narrowed at each read. */
    method GatherBlockWrapping(b: Block) returns (mem: seq<byte>)
      requires Valid()
      ensures mem == Gather(Contents(), Span(b.offset, b.size))
    {
      mem := [];
      ghost var m := Contents();
      for addr := b.offset to b.offset + b.size
        invariant mem == Gather(m, Span(b.offset, addr - b.offset)) && Contents() == m
      {
        assert addr % 0x10000 == Plus(b.offset, addr - b.offset);
        var v := cpu.board.memory.Read(addr % 0x10000);
        GatherOneMore(m, b.offset, addr - b.offset);
        mem := mem + [v];
      }
    }

    /** The gathering loops of a load. */
    method GatherWrapping(blocks: seq<Block>) returns (mem: seq<byte>)
      requires Valid()
      ensures mem == Gather(Contents(), Addresses(blocks))
    {
      mem := [];
      ghost var m := Contents();
      for i := 0 to |blocks|
        invariant mem == Gather(m, Addresses(blocks[..i])) && Contents() == m
      {
        var bytes := GatherBlockWrapping(blocks[i]);
        mem := mem + bytes;
        AddressesOneMore(blocks, i);
        GatherConcat(m, Addresses(blocks[..i]), Span(blocks[i].offset, blocks[i].size));
      }
      assert blocks[..|blocks|] == blocks;
    }

    /** The inner restoring loop of a load: one block, from the bytes at `start`. */
    method ScatterBlock(b: Block, ram: seq<byte>, start: nat) returns (ramIndex: nat)
      requires Valid() && start + b.size <= |ram|
      modifies cpu.board.memory.memory
      ensures ramIndex == start + b.size
      ensures Contents() == old(Scatter(Contents(), Span(b.offset, b.size), ram[start..ramIndex]))
    {
      ramIndex := start;
      ghost var before := Contents();
      for addr := b.offset to b.offset + b.size
        invariant ramIndex == start + (addr - b.offset)
        invariant Contents() == Scatter(before, Span(b.offset, addr - b.offset), ram[start..ramIndex])
      {
        ghost var k := addr - b.offset;
        ScatterOneMore(before, b.offset, k, ram[start..ramIndex], ram[ramIndex]);
        assert ram[start..ramIndex + 1] == ram[start..ramIndex] + [ram[ramIndex]];
        assert addr % 0x10000 == Plus(b.offset, k);
        cpu.board.memory.Write(addr % 0x10000, ram[ramIndex]);
        ramIndex := ramIndex + 1;
      }
    }

    /** The restoring loops of a load. */
    method ScatterBlocks(blocks: seq<Block>, ram: seq<byte>)
      requires Valid() && |ram| == Total(blocks)
      modifies cpu.board.memory.memory
      ensures Contents() == old(Scatter(Contents(), Addresses(blocks), ram))
    {
      var ramIndex := 0;
      ghost var m := Contents();
      for i := 0 to |blocks|
        invariant ramIndex == Total(blocks[..i]) <= |ram|
        invariant Contents() == Scatter(m, Addresses(blocks[..i]), ram[..ramIndex])
      {
        ghost var start := ramIndex;
        AddressesOneMore(blocks, i);
        TotalOfPrefix(blocks, i);
        ramIndex := ScatterBlock(blocks[i], ram, ramIndex);
        ScatterConcat(m, Addresses(blocks[..i]), Span(blocks[i].offset, blocks[i].size),
                      ram[..start], ram[start..ramIndex]);
        assert ram[..ramIndex] == ram[..start] + ram[start..ramIndex];
      }
      assert blocks[..|blocks|] == blocks && ram[..|ram|] == ram;
    }

    // ---------- handlers ----------

    /** Load a reply, all or nothing: every check comes before the first change. */
    method LoadMachineState(r: Reply)
      requires Valid()
      modifies cpu`cpu, cpu.board.memory.memory
      ensures cpu.Abs() == old(Snapshot.Load(options.layout, cpu.Abs(), r))
    {
      if r.Nothing? || options.layout.memUuid == NO_UUID {
        return;
      }
      if !r.Parsed? || r.memUuid != Some(options.layout.memUuid) {
        return;
      }
      var rom := GatherWrapping(options.layout.rom);
      if r.rom != Some(options.layout.md5(rom)) {
        return;
      }
      if r.ram.None? || |r.ram.value| != Total(options.layout.ram) {
        return;
      }
      var ok := cpu.Load(options.layout.cpuUuid, r.cpu);
      if ok {
        ScatterBlocks(options.layout.ram, r.ram.value);
      }
    }

    method TakeReply(r: Reply, ghost off: bool)
      requires Valid()
      modifies this`onLoad, this`history, cpu`cpu, cpu.board.memory.memory
      ensures Abs(off) == ConsumeLoad(options.layout, old(Abs(off)), r)
    {
      LoadMachineState(r);
      onLoad := NoLoad;
      history := history + [LoadConsumed(r)];
    }

    /** Look at the load handler; wait for it if it is deferred, or if told to. */
    method CheckLoad(e: Event, wait: bool, ghost off: bool)
      requires Valid()
      modifies this`onLoad, this`history, cpu`cpu, cpu.board.memory.memory
      ensures Abs(off) == old(if wait then AwaitLoad(options.layout, Abs(off), e)
                              else PollLoad(options.layout, Abs(off), e))
    {
      match onLoad
      case NoLoad =>
      case LoadDeferred => TakeReply(e.reply, off);
      case LoadReady(r) => TakeReply(r, off);
      case LoadRunning =>
        if wait {
          TakeReply(e.reply, off);
        }
    }

    method CheckSave(wait: bool, ghost off: bool)
      requires Valid()
      modifies this`onSave, this`history
      ensures Abs(off) == old(if wait then AwaitSave(Abs(off)) else PollSave(Abs(off)))
    {
      match onSave
      case NoSave =>
      case SaveDeferred(s) =>
        onSave := NoSave;
        history := history + [SaveDelivered(s)] + [SaveConsumed];
      case SaveReady =>
        onSave := NoSave;
        history := history + [SaveConsumed];
      case SaveRunning(s) =>
        if wait {
          onSave := NoSave;
          history := history + [SaveDelivered(s)] + [SaveConsumed];
        }
    }

    /** What running handlers do on their own threads. */
    method HandlersProgress(e: Event, ghost off: bool)
      requires Valid()
      modifies this`onLoad, this`onSave, this`history
      ensures Abs(off) == SaveProgress(LoadProgress(old(Abs(off)), e), e)
    {
      if onLoad.LoadRunning? && e.loadDone {
        onLoad := LoadReady(e.reply);
      }
      if onSave.SaveRunning? && e.saveDone {
        history := history + [SaveDelivered(onSave.saved)];
        onSave := SaveReady;
      }
    }

    /** The blocks a save gathers stop short of the last address; otherwise the save hangs. */
    predicate Savable() {
      options.canSave ==> Gatherable(options.layout.ram) && Gatherable(options.layout.rom)
    }

    method RequestLoad(e: Event, ghost off: bool)
      requires Valid()
      modifies this`onLoad, this`onSave, this`history, cpu`cpu, cpu.board.memory.memory
      ensures var m := old(Abs(off));
              Abs(off) == if options.canLoad && Free(m) then AcceptLoad(old(Configured()), m, e) else m
    {
      if options.canLoad && onLoad.NoLoad? && onSave.NoSave? {
        onLoad := if options.loadAsync then LoadRunning else LoadDeferred;
        history := history + [LoadAccepted];
        if onLoad.LoadRunning? && e.loadDone {
          onLoad := LoadReady(e.reply);
        }
        CheckLoad(e, false, off);
      }
    }

    method Capture() returns (state: Saved)
      requires Valid() && Gatherable(options.layout.ram) && Gatherable(options.layout.rom)
      ensures state == Snapshot.Save(options.layout, cpu.Abs())
    {
      var ram := GatherBlocks(options.layout.ram);
      var rom := GatherBlocks(options.layout.rom);
      state := Saved(SaveCpu(options.layout.cpuUuid, cpu.cpu), options.layout.memUuid, options.layout.md5(rom), ram);
    }

    /** Start the save handler on a captured state; on its own thread it may finish at once. */
    method LaunchSave(state: Saved, e: Event, ghost off: bool)
      requires Valid()
      modifies this`onSave, this`history
      ensures var m := old(Abs(off));
              var launched := m.(save := if options.saveAsync then SaveRunning(state) else SaveDeferred(state));
              Abs(off) == SaveProgress(Log(launched, SaveAccepted(state)), e)
    {
      onSave := if options.saveAsync then SaveRunning(state) else SaveDeferred(state);
      history := history + [SaveAccepted(state)];
      if onSave.SaveRunning? && e.saveDone {
        history := history + [SaveDelivered(state)];
        onSave := SaveReady;
      }
    }

    method RequestSave(e: Event, ghost off: bool)
      requires Valid() && Savable()
      modifies this`onSave, this`history
      ensures var m := old(Abs(off));
              Abs(off) == if options.canSave && Free(m) && CanSave(options.layout)
                          then AcceptSave(old(Configured()), m, e) else m
    {
      if options.canSave && onSave.NoSave? && onLoad.NoLoad? && options.layout.memUuid != NO_UUID {
        var state := Capture();
        LaunchSave(state, e, off);
        CheckSave(false, off);
      }
    }

    // ---------- the loop ----------

    /** Between turns the machine is at an instruction boundary with no lane up but an interrupt's. */
    ghost predicate AtHead()
      reads clock, clock.host, cpu.board.addressBus, cpu.board.dataBus, cpu.board.controlBus
    {
      Valid() && cpu.AtBoundary() && clock.Valid() && cpu.board.Lanes() <= {Interrupt}
    }

    /** Quiet for the next run. */
    ghost predicate AtRest()
      reads clock, clock.host, cpu.board.addressBus, cpu.board.dataBus, cpu.board.controlBus
    {
      Valid() && cpu.board.Quiet() && cpu.board.Lanes() == {} && clock.Valid()
    }

    ghost function Standing(): Standing
      requires Valid()
      reads clock, clock.host, cpu.board.addressBus, cpu.board.dataBus, cpu.board.controlBus
    {
      if AtHead() then Heading
      else if cpu.AtBoundary() && clock.Valid() && cpu.board.Lanes() == {PowerOff} then PoweringOff
      else Elsewhere
    }

    /** The switch over the controller's answer. A quit raises the power-off lane. */
    method ServiceInterrupts(e: Event) returns (quit: bool)
      requires Valid() && Savable() && cpu.board.Quiet() && cpu.board.Lanes() == {}
      modifies this`onLoad, this`onSave, this`history
      modifies cpu`cpu, cpu.board.memory.memory, cpu.board.dataBus, cpu.board.controlBus
      ensures quit == e.isr.Quit?
      ensures Abs(quit) == Serve(old(Configured()), old(Abs(false)), e)
      ensures cpu.AtBoundary()
      ensures cpu.board.Lanes() == if quit then {PowerOff} else if e.isr.Vector? then {Interrupt} else {}
    {
      quit := false;
      match e.isr
      case Vector(n) =>
        cpu.board.controlBus.Send(Interrupt);
        cpu.board.dataBus.Send(n);
      case LoadRequest => RequestLoad(e, false);
      case SaveRequest => RequestSave(e, false);
      case Quit =>
        CheckLoad(e, true, false);
        CheckSave(true, false);
        cpu.board.controlBus.Send(PowerOff);
        quit := true;
      case NoInterrupt =>
        CheckLoad(e, false, false);
        CheckSave(false, false);
      case Unrecognised =>
    }

    /** The processor's part of a turn. */
    method CallProcessor() returns (ticks: Option<nat>, ghost o: Outcome)
      requires Valid() && Is8080(step) && cpu.AtBoundary() && cpu.board.Lanes() <= {Interrupt}
      modifies cpu.Frame()
      ensures o == old(step(cpu.Abs(), Env(cpu.Raised(), cpu.board.Ports())))
      ensures cpu.board.Quiet() && cpu.board.Lanes() == {} && cpu.Raised() == None
      ensures if ticks.None? then o.Trap? && cpu.board.io.log == old(cpu.board.io.log)
              else
                && o.Next? && o == Next(cpu.Abs(), ticks.value, o.io)
                && cpu.board.io.log == old(cpu.board.io.log) + o.io
    {
      o := Step(cpu.Abs(), Env(cpu.Raised(), cpu.board.Ports()));
      ticks := cpu.Execute();
    }

    /** The same, with its ticks counted. */
    method CountTicks() returns (ticks: Option<nat>, ghost o: Outcome)
      requires Valid() && Is8080(step) && cpu.AtBoundary() && cpu.board.Lanes() <= {Interrupt}
      modifies this`totalTicks, cpu.Frame()
      ensures o == old(step(cpu.Abs(), Env(cpu.Raised(), cpu.board.Ports())))
      ensures cpu.board.Quiet() && cpu.board.Lanes() == {}
      ensures if ticks.None? then o.Trap? && cpu.board.io.log == old(cpu.board.io.log)
              else
                && o.Next? && o.ticks == ticks.value
                && Abs(false) == old(Abs(false)).(core := o.s, irq := None, total := old(totalTicks) + o.ticks)
                && cpu.board.io.log == old(cpu.board.io.log) + o.io
    {
      ticks, o := CallProcessor();
      if ticks.Some? {
        totalTicks := totalTicks + ticks.value;
      }
    }

    /** Handlers make progress and the next instruction executes. */
    method ExecuteInstruction(x: Event) returns (ticks: Option<nat>, ghost io: seq<IoEvent>)
      requires AtHead() && Is8080(step)
      requires x.input == cpu.board.Ports()
      modifies this`onLoad, this`onSave, this`history, this`totalTicks, cpu.Frame()
      ensures Executed(step, old(Abs(false)), x) == if ticks.None? then None else Some((Abs(false), io))
      ensures ticks.Some? ==> ticks.value == TicksIn(step, old(Abs(false)), x)
      ensures cpu.board.io.log == old(cpu.board.io.log) + io
      ensures cpu.board.Quiet() && cpu.board.Lanes() == {}
    {
      ghost var m, o := Abs(false), Trap;
      HandlersProgress(x, false);
      ghost var p := Abs(false);
      ticks, o := CountTicks();
      io := if o.Next? then o.io else [];
      ExecutedOutcome(step, m, x, p, o);
    }

    /** What a port write of the instruction just executed does to a controller built on the latch: unless the
        controller keeps the port, the latch hears it. */
    method HearWrite(mark: nat, ghost io: seq<IoEvent>)
      requires mark + |io| == |cpu.board.io.log| && cpu.board.io.log[mark..] == io && |io| <= 1
      modifies latch
      ensures latch.Abs() == Hears(options.wiring, old(latch.Abs()), io)
    {
      if options.wiring.OnLatch? && mark < |cpu.board.io.log| {
        var last := cpu.board.io.log[mark];
        assert io == [last];
        LatchedOne(options.wiring.kept, latch.Abs(), last);
        if last.Output? && last.port !in options.wiring.kept {
          latch.Write(last.port, last.value);
        }
      }
    }

    /** The instruction executes and the clock ticks. */
    method ExecuteAndTick(h: Event) returns (trapped: bool, ghost x: Readings)
      requires AtHead() && clock.host.Runs() && Is8080(step) && h.input == cpu.board.Ports()
      modifies this`onLoad, this`onSave, this`history, this`totalTicks, cpu.Frame(), clock, clock.host, latch
      ensures AfterInstruction(step, options.wiring, old(Now(false)), h, x)
              == if trapped then None else Some(Now(false))
      ensures !trapped ==> Saw(step, old(Now(false)), h, x)
      ensures AtRest()
    {
      var mark := |cpu.board.io.log|;
      ghost var s := Now(false);
      ghost var io;
      var ticks;
      ticks, io := ExecuteInstruction(h);
      AfterInstructionIs(step, options.wiring, s, h, Readings(0, 0, 0, 0, 0, 0),
                         if ticks.None? then None else Some((Abs(false), io)));
      trapped := ticks.None?;
      if trapped {
        x := Readings(0, 0, 0, 0, 0, 0);
      } else {
        var now;
        now, x := clock.Tick(ticks.value);
        AfterInstructionIs(step, options.wiring, s, h, x, Some((Abs(false), io)));
        ExecutedTraffic(step, s.machine, h);
        HearWrite(mark, io);
      }
    }

    /** Ask the controller. One built on the latch gives its own interrupt only if the latch has no request. */
    method Ask(h: Event) returns (x: Event)
      modifies latch
      ensures var q := old(Answer(latch.Abs(), totalTicks, h.isr));
              && x == h.(isr := if options.wiring.OnLatch? then q.1 else h.isr)
              && latch.Abs() == if options.wiring.OnLatch? then q.0 else old(latch.Abs())
    {
      x := h;
      if options.wiring.OnLatch? {
        var isr := latch.ServiceInterrupts(totalTicks);
        if !isr.NoInterrupt? {
          x := h.(isr := isr);
        }
      }
    }

    /** Check if it is time to service interrupts. */
    method Settled(h: Event) returns (quit: bool)
      requires Valid() && Savable() && AtRest()
      modifies this`onLoad, this`onSave, this`history, this`lastTicks, latch
      modifies cpu`cpu, cpu.board.memory.memory, cpu.board.dataBus, cpu.board.controlBus
      ensures Now(quit) == old(AfterService(Configured(), options.wiring, Now(false), h))
      ensures Standing() == if quit then PoweringOff else Heading
    {
      quit := false;
      AfterServiceIs(Configured(), options.wiring, Now(false), h);
      if totalTicks - lastTicks >= ticksPerIsr {
        var x := Ask(h);
        quit := ServiceInterrupts(x);
        lastTicks := totalTicks;
      }
    }

    /** One turn of the loop. The port inputs are what the i/o controller answers, the interrupt what it or its
        latch does, and the clock is given exactly the ticks of the instruction. */
    method OneTurn(h: Event) returns (trapped: bool, quit: bool, ghost t: Turned)
      requires Valid() && Standing() == Heading && Savable() && h.input == cpu.board.Ports()
      requires clock.host.Runs() && Genuine()
      modifies this`onLoad, this`onSave, this`history, this`totalTicks, this`lastTicks
      modifies cpu.Frame(), clock, clock.host, latch
      ensures t.h == h
      ensures turn(old(Configured()), old(Now(false)), t) == if trapped then Stuck else At(Now(quit))
      ensures !trapped ==> Standing() == if quit then PoweringOff else Heading
    {
      ghost var s := Now(false);
      quit := false;
      ghost var x;
      trapped, x := ExecuteAndTick(h);
      t := Turned(h, x);
      TurnIs(turn, step, Configured(), options.wiring, s, t, if trapped then None else Some(Now(false)));
      if !trapped {
        quit := Settled(h);
      }
    }

    /** The head of the loop, and its exit. */
    method TakePowerOff(ghost quit: bool) returns (off: bool)
      requires Valid() && Standing() == if quit then PoweringOff else Heading
      modifies cpu.board.controlBus
      ensures off == quit && Now(quit) == old(Now(quit))
      ensures if off then AtRest() else Standing() == Heading
    {
      off := cpu.board.controlBus.Receive(PowerOff);
    }

    /** The service period follows a successful change of the clock resolution only: a resolution finer
        than the host clock leaves the old period in place. */
    method SetClockResolution(resolution: int) returns (ok: bool, err: ErrorCode)
      requires !running && clock.period >= 1
      modifies this`ticksPerIsr, clock`totalTicks
      ensures ok <==> -1 <= resolution <= 10000000000
      ensures !ok ==> ticksPerIsr == old(ticksPerIsr) && clock.totalTicks == old(clock.totalTicks)
      ensures clock.Valid() == old(clock.Valid())
      ensures ok ==> clock.totalTicks == InTicks(resolution, clock.period)
      ensures ok ==> err == if 0 <= resolution < clock.maxResolution then ClockResolution else NoError
      ensures ok ==> ticksPerIsr == if err == NoError then ServicePeriod(options.isrFreq, clock.totalTicks)
                                    else old(ticksPerIsr)
    {
      ok, err := -1 <= resolution <= 10000000000, NoError;
      if ok {
        var resInTicks;
        err, resInTicks := clock.SetTickResolution(resolution);
        if err == NoError {
          ticksPerIsr := ServicePeriod(options.isrFreq, resInTicks);
        }
      }
    }

    /** Where a run is that ended with this result. */
    ghost function Reached(result: RunResult): Progress
      requires Valid()
      reads this`totalTicks, this`lastTicks, this`onLoad, this`onSave, this`history
      reads cpu, cpu.board.memory.memory, cpu.board.dataBus, cpu.board.controlBus, latch, clock
    {
      match result
      case Rejected => Astray
      case Trapped => Stuck
      case Suspended => At(Now(false))
      case Finished(_) => At(Now(true))
    }

    /** One more turn of a run, back to the head of the loop or out of it. */
    method OnceAround(
        h: Event, ghost start: Situation, ghost ts: Course) returns (trapped: bool, off: bool, ghost t: Turned)
      requires Valid() && Standing() == Heading && Savable() && h.input == cpu.board.Ports()
      requires clock.host.Runs() && Genuine()
      requires RunFrom(turn, Configured(), start, ts) == At(Now(false))
      modifies this`onLoad, this`onSave, this`history, this`totalTicks, this`lastTicks
      modifies cpu.Frame(), clock, clock.host, latch
      ensures t.h == h
      ensures RunFrom(turn, Configured(), start, Then(ts, t)) == if trapped then Stuck else At(Now(off))
      ensures !trapped ==> if off then AtRest() else Standing() == Heading
    {
      ghost var c, s := Configured(), Now(false);
      trapped, off, t := OneTurn(h);
      RunOneMore(turn, c, start, ts, s, t);
      if !trapped {
        off := TakePowerOff(off);
      }
    }

    /** The loop, until the power-off lane is up. It need not end, so it is given finitely many events. */
    method Loop(events: seq<Event>) returns (trapped: bool, off: bool, ghost ts: Course)
      requires Valid() && Standing() == Heading && Savable() && clock.host.Runs() && Genuine()
      modifies this`onLoad, this`onSave, this`history, this`totalTicks, this`lastTicks
      modifies cpu.Frame(), clock, clock.host, latch
      ensures Takes(ts, events)
      ensures RunFrom(turn, Configured(), old(Now(false)), ts) == if trapped then Stuck else At(Now(off))
      ensures Configured() == old(Configured())
      ensures !trapped ==> if off then AtRest() else Size(ts) == |events|
    {
      ts := Begun;
      ghost var start := Now(false);
      var i := 0;
      trapped := false;
      off := TakePowerOff(false);
      while i < |events| && !off && !trapped
        invariant 0 <= i == Size(ts) <= |events| && Takes(ts, events)
        invariant RunFrom(turn, Configured(), start, ts) == if trapped then Stuck else At(Now(off))
        invariant !trapped ==> if off then AtRest() else Standing() == Heading
      {
        ghost var t;
        trapped, off, t := OnceAround(events[i].(input := cpu.board.Ports()), start, ts);
        ts := Then(ts, t);
        i := i + 1;
      }
    }

    /** The configuration of a run whose resolution is `ticks`: its service period is what the resolution gives, or
        the old one if the resolution drew a warning. */
    ghost function NewlyConfigured(ticks: int): Config
      reads this`ticksPerIsr
    {
      if 0 <= options.clockResolution < clock.maxResolution then Configured()
      else Configured().(ticksPerIsr := ServicePeriod(options.isrFreq, ticks))
    }

    /** Where a run starts: power on, the latch and the clock as earlier runs left them but for the clock's reset
        and its resolution. */
    ghost function Starting(counter: word, epoch: int, ticks: int): Situation
      requires Valid()
      reads cpu.board.memory.memory, clock, latch
    {
      Situation(PoweredOn(counter, Contents()), latch.Abs(), Restarted(clock.Abs(), epoch).(resolution := ticks))
    }

    /** Restart processor and clock. */
    method Restarting(counter: word)
      requires Valid() && clock.host.Runs() && clock.period >= 1 && clock.Carries()
      modifies cpu`cpu, clock, clock.host
      ensures cpu.cpu == ResetCpu(counter) && clock.Valid()
      ensures clock.Abs() == Restarted(old(clock.Abs()), clock.epoch)
    {
      cpu.Reset(counter);
      clock.Reset();
    }

    /** Where a loop starts that has nothing behind it. */
    ghost function Fresh(): Situation
      requires Valid()
      reads cpu, cpu.board.memory.memory, clock, latch
    {
      Situation(Start(cpu.Abs()), latch.Abs(), clock.Abs())
    }

    /** The counters and futures of a run. */
    method Clear()
      requires AtRest()
      modifies this`onLoad, this`onSave, this`history, this`totalTicks, this`lastTicks, this`running
      ensures Now(false) == old(Fresh()) && Standing() == Heading && running && Configured() == old(Configured())
    {
      running := true;
      totalTicks, lastTicks := 0, 0;
      onLoad, onSave, history := NoLoad, NoSave, [];
    }

    /** The loop from its start, once processor and clock are ready. */
    method RunLoop(events: seq<Event>) returns (result: RunResult, ghost ts: Course)
      requires AtRest() && Savable() && clock.host.Runs() && Genuine()
      modifies this`onLoad, this`onSave, this`history, this`totalTicks, this`lastTicks, this`running
      modifies cpu.Frame(), clock, clock.host, latch
      ensures Takes(ts, events) && !result.Rejected?
      ensures RunFrom(turn, old(Configured()), old(Fresh()), ts) == Reached(result)
      ensures result.Finished? ==> AtRest() && !running && result.time == clock.time
    {
      Clear();
      var trapped, off;
      trapped, off, ts := Loop(events);
      result := Conclude(trapped, off);
    }

    /** What a run comes to. A finished run is no longer running; nothing else changes. */
    method Conclude(trapped: bool, off: bool) returns (result: RunResult)
      requires Valid()
      modifies this`running
      ensures Reached(result) == old(if trapped then Stuck else At(Now(off)))
      ensures match result
              case Rejected => false
              case Trapped => trapped
              case Suspended => !trapped && !off
              case Finished(time) => !trapped && off && !running && time == clock.time && AtRest() == old(AtRest())
    {
      if trapped {
        result := Trapped;
      } else if off {
        running := false;
        result := Finished(clock.time);
      } else {
        result := Suspended;
      }
    }

    /** A run from power on. Its turns are the turns of the protocol, over the given events with the port
        inputs and answers of the i/o controller; the clock is given each instruction's ticks and its last
        time is returned; and when it finishes the bus is quiet with every lane down, ready for the next run. A run
        rejected because another one is running changes nothing; one rejected for its resolution has already reset
        processor and clock. */
    method Run(counter: word, events: seq<Event>)
      returns (result: RunResult, ghost epoch: int, ghost ticks: int, ghost ts: Course)
      requires Valid() && Genuine() && Savable() && clock.host.Runs() && clock.period >= 1 && clock.Carries()
      requires cpu.board.Quiet() && cpu.board.Lanes() == {}
      modifies Frame()
      ensures result.Rejected? <==> old(running) || !(-1 <= options.clockResolution <= 10000000000)
      ensures !result.Rejected? ==> ticks == InTicks(options.clockResolution, clock.period) && Takes(ts, events)
      ensures !result.Rejected? ==>
                RunFrom(turn, old(NewlyConfigured(ticks)), old(Starting(counter, epoch, ticks)), ts) == Reached(result)
      ensures result.Finished? ==> AtRest() && !running && result.time == clock.time
      ensures result.Rejected? ==> running == old(running) && Configured() == old(Configured())
      ensures result.Rejected? ==>
                Fresh() == old(if running then Fresh() else Starting(counter, epoch, clock.totalTicks))
    {
      ts, result, epoch, ticks := Begun, Rejected, 0, 0;
      var ok := !running;
      if ok {
        ok, epoch, ticks := PowerUp(counter);
      }
      if ok {
        result, ts := RunLoop(events);
      }
    }

    /** What `Run` gives of a run that has not been rejected, and what follows from it: see `RunEnds`. */
    lemma RunGives(c: Config, start: Situation, s0: State, ts: Course)
      requires Genuine() && start.clock.error <= 0 <= start.clock.tickCount && start.machine == Start(s0)
      requires RunFrom(turn, c, start, ts) != Astray
      ensures var r := RecordOf(turn, step, c, options.wiring, start, ts);
              && Promises(step, c, start.machine, start.latch, options.wiring, r)
              && match RunFrom(turn, c, start, ts)
                 case At(s) => CameTo(step, c, options.wiring, start, r, s)
                 case _ => CameToTrap(step, c, options.wiring, start, r)
    {
      hide Promises, CameTo, CameToTrap, RecordOf, RunFrom, Step;
      Tallies8080(step);
      RunEnds(turn, step, c, options.wiring, start, s0, ts);
    }

    /** Everything a run does before its loop. */
    method PowerUp(counter: word) returns (ok: bool, ghost epoch: int, ghost ticks: int)
      requires Valid() && !running && clock.host.Runs() && clock.period >= 1 && clock.Carries()
      requires cpu.board.Quiet() && cpu.board.Lanes() == {}
      modifies this`ticksPerIsr, cpu`cpu, clock, clock.host
      ensures ok <==> -1 <= options.clockResolution <= 10000000000
      ensures AtRest()
      ensures ok ==> ticks == InTicks(options.clockResolution, clock.period)
      ensures Fresh() == old(Starting(counter, epoch, ticks))
      ensures Configured() == if ok then old(NewlyConfigured(ticks)) else old(Configured())
      ensures !ok ==> ticks == old(clock.totalTicks)
    {
      Restarting(counter);
      epoch := clock.epoch;
      var err;
      ok, err := SetClockResolution(options.clockResolution);
      ticks := clock.totalTicks;
    }
  }
}
