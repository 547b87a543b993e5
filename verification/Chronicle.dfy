/** What is known of a run of the machine once its clock calls and its controller's answers are on record:
    the theorems on pacing, lockstep, termination and requests, put together for one run. */
module Chronicle {
  import opened Types
  import opened Core
  import opened Protocol
  import opened Pacing
  import opened Lockstep
  import opened Controllers
  import History

  /** How the i/o controller hangs together with the request latch: not at all, or built on it, keeping some ports. */
  datatype Wiring = Unlatched | OnLatch(kept: Kept)

  /** The latch after some port traffic. */
  function Hears(w: Wiring, a: Latch, io: seq<IoEvent>): Latch {
    match w
    case Unlatched => a
    case OnLatch(kept) => Latched(kept, a, io)
  }

  /** Where a run stands between turns: machine, request latch and clock. */
  datatype Situation = Situation(machine: Machine, latch: Latch, clock: Clock)

  /** `clock` is the clock the run started with, `heard` the events with the controller's own interrupts,
      `used` the same with the controller's answers, `calls` the calls of the clock. */
  datatype Record = Record(clock: Clock, heard: seq<Event>, used: seq<Event>, calls: seq<Call>)

  // ---------- one turn ----------

  /** The ticks of the instruction of a turn. */
  function TicksIn(step: Stepper, m: Machine, h: Event): nat {
    match step(m.core, Env(m.irq, h.input))
    case Trap => 0
    case Next(_, ticks, _) => ticks
  }

  /** The instruction executes, a controller built on the latch hears its port writes, and the clock is given its
      ticks. */
  function AfterInstruction(step: Stepper, w: Wiring, s: Situation, h: Event, x: Readings): Option<Situation> {
    match Executed(step, s.machine, h)
    case None => None
    case Some(r) =>
      Some(Situation(r.0, Hears(w, s.latch, r.1), Ticked(s.clock, TicksIn(step, s.machine, h), x)))
  }

  lemma AfterInstructionIs(
      step: Stepper, w: Wiring, s: Situation, h: Event, x: Readings, o: Option<(Machine, seq<IoEvent>)>)
    requires Executed(step, s.machine, h) == o
    ensures AfterInstruction(step, w, s, h, x) ==
              if o.None? then None
              else Some(Situation(o.value.0, Hears(w, s.latch, o.value.1),
                                  Ticked(s.clock, TicksIn(step, s.machine, h), x)))
  {
  }

  /** What the controller answers, if it is asked. A controller that is not built on the latch has its own
      interrupts only. */
  function Consulted(c: Config, w: Wiring, s: Situation, h: Event): (Event, Latch) {
    if w.OnLatch? then Asking(c, s.latch, s.machine, h) else (h, s.latch)
  }

  function AfterService(c: Config, w: Wiring, s: Situation, h: Event): Situation {
    var q := Consulted(c, w, s, h);
    Situation(Settle(c, s.machine, q.0), q.1, s.clock)
  }

  lemma AfterServiceIs(c: Config, w: Wiring, s: Situation, h: Event)
    ensures var q := Answer(s.latch, s.machine.total, h.isr);
            var x := if w.OnLatch? then h.(isr := q.1) else h;
            AfterService(c, w, s, h) ==
              if Due(c, s.machine) then
                Situation(Serve(c, s.machine, x).(last := s.machine.total),
                          if w.OnLatch? then q.0 else s.latch, s.clock)
              else s
  {
  }

  /** One turn of the loop. */
  function TurnFrom(step: Stepper, c: Config, w: Wiring, s: Situation, h: Event, x: Readings): Option<Situation> {
    match AfterInstruction(step, w, s, h, x)
    case None => None
    case Some(t) => Some(AfterService(c, w, t, h))
  }

  /** The readings of the clock in this turn are ones its call can see. */
  predicate Saw(step: Stepper, s: Situation, h: Event, x: Readings) {
    Seen(s.clock, TicksIn(step, s.machine, h), x)
  }

  // ---------- a run, turn by turn ----------

  /** A turn's event, with the controller's own interrupt, and the clock's readings in it. */
  datatype Turned = Turned(h: Event, x: Readings)

  /** The turns of a run so far. */
  datatype Course = Begun | Then(before: Course, t: Turned)

  function Size(ts: Course): nat {
    match ts
    case Begun => 0
    case Then(before, _) => Size(before) + 1
  }

  /** The turns take these events in order, with the port inputs filled in. */
  ghost predicate Takes(ts: Course, events: seq<Event>) {
    match ts
    case Begun => true
    case Then(before, t) =>
      && Size(before) < |events|
      && t.h == events[Size(before)].(input := t.h.input)
      && Takes(before, events)
  }

  /** Where a run is after some turns. `Astray` is no run: a turn after the end, or readings no host clock gives. */
  datatype Progress = At(s: Situation) | Stuck | Astray

  /** One turn of a run. */
  function NextTurn(step: Stepper, c: Config, w: Wiring, s: Situation, t: Turned): Progress {
    if s.machine.off then Astray
    else
      match TurnFrom(step, c, w, s, t.h, t.x)
      case None => Stuck
      case Some(s') => if Saw(step, s, t.h, t.x) then At(s') else Astray
  }

  /** The loop is stated for any turn; the machine's is `NextTurn`. */
  type Turner = (Config, Situation, Turned) -> Progress

  ghost predicate TurnsLike(turn: Turner, step: Stepper, w: Wiring) {
    forall c: Config, s: Situation, t: Turned {:trigger turn(c, s, t), NextTurn(step, c, w, s, t)} ::
      turn(c, s, t) == NextTurn(step, c, w, s, t)
  }

  /** A turn is an instruction and a service. */
  lemma TurnIs(turn: Turner, step: Stepper, c: Config, w: Wiring, s: Situation, t: Turned, mid: Option<Situation>)
    requires TurnsLike(turn, step, w) && !s.machine.off
    requires AfterInstruction(step, w, s, t.h, t.x) == mid
    requires mid.Some? ==> Saw(step, s, t.h, t.x)
    ensures turn(c, s, t) == if mid.None? then Stuck else At(AfterService(c, w, mid.value, t.h))
  {
    assert turn(c, s, t) == NextTurn(step, c, w, s, t);
  }

  function Onto(turn: Turner, c: Config, p: Progress, t: Turned): Progress {
    match p
    case At(s) => turn(c, s, t)
    case _ => Astray
  }

  function RunFrom(turn: Turner, c: Config, start: Situation, ts: Course): Progress {
    match ts
    case Begun => At(start)
    case Then(before, t) => Onto(turn, c, RunFrom(turn, c, start, before), t)
  }

  lemma RunOneMore(turn: Turner, c: Config, start: Situation, ts: Course, s: Situation, t: Turned)
    requires RunFrom(turn, c, start, ts) == At(s)
    ensures RunFrom(turn, c, start, Then(ts, t)) == turn(c, s, t)
  {
  }

  // ---------- the record of a run ----------

  /** The event as the machine gets it, and the latch afterwards. */
  function Response(step: Stepper, c: Config, m: Machine, a: Latch, w: Wiring, e: Event): (Event, Latch) {
    match w
    case Unlatched => (e, a)
    case OnLatch(kept) => Heard(step, c, kept, m, a, e)
  }

  function LatchNow(step: Stepper, c: Config, m: Machine, a: Latch, w: Wiring, es: seq<Event>): Latch {
    match w
    case Unlatched => a
    case OnLatch(kept) => LatchAfter(step, c, kept, m, a, es)
  }

  /** The answers are the latch's, and the clock was given each instruction's ticks and saw plausible readings. */
  ghost predicate Chronicled(step: Stepper, c: Config, start: Machine, a: Latch, w: Wiring, r: Record) {
    && |r.heard| == |r.used|
    && r.used == (if w.OnLatch? then Filled(step, c, w.kept, start, a, r.heard) else r.heard)
    && TicksOf(r.calls) == Costs(step, c, start, r.used)
    && PlausibleRun(r.clock, r.calls)
  }

  /** The record after one more turn from `s`. */
  function Recorded(step: Stepper, c: Config, w: Wiring, r: Record, s: Situation, h: Event, x: Readings): Record {
    r.(heard := r.heard + [h],
       used := r.used + [Response(step, c, s.machine, s.latch, w, h).0],
       calls := if Executed(step, s.machine, h).None? then r.calls
                else r.calls + [Call(TicksIn(step, s.machine, h), x)])
  }

  /** The run on record from `start` has come to `s`. */
  ghost predicate CameTo(step: Stepper, c: Config, w: Wiring, start: Situation, r: Record, s: Situation) {
    && r.clock == start.clock
    && Chronicled(step, c, start.machine, start.latch, w, r)
    && Turns(step, c, start.machine, r.used) == Some(s.machine)
    && LatchNow(step, c, start.machine, start.latch, w, r.heard) == s.latch
    && Ran(r.clock, r.calls) == s.clock
  }

  /** The run on record from `start` has trapped. */
  ghost predicate CameToTrap(step: Stepper, c: Config, w: Wiring, start: Situation, r: Record) {
    && r.clock == start.clock
    && Chronicled(step, c, start.machine, start.latch, w, r)
    && Turns(step, c, start.machine, r.used).None?
  }

  lemma Begins(step: Stepper, c: Config, w: Wiring, start: Situation)
    ensures CameTo(step, c, w, start, Record(start.clock, [], [], []), start)
  {
  }

  /** The answer does not change what executes. */
  lemma ResponseTurn(step: Stepper, c: Config, w: Wiring, s: Situation, h: Event, x: Readings)
    ensures var q := Response(step, c, s.machine, s.latch, w, h);
            && Executed(step, s.machine, q.0) == Executed(step, s.machine, h)
            && q.0.input == h.input
            && match TurnFrom(step, c, w, s, h, x)
               case None => Executed(step, s.machine, h).None? && Turn(step, c, s.machine, q.0).None?
               case Some(t) =>
                 && Executed(step, s.machine, h).Some? && Turn(step, c, s.machine, q.0) == Some(t.machine)
                 && t.latch == q.1 && t.clock == Ticked(s.clock, TicksIn(step, s.machine, h), x)
  {
    var isr := Response(step, c, s.machine, s.latch, w, h).0.isr;
    assert Executed(step, s.machine, h.(isr := isr)) == Executed(step, s.machine, h);
    assert Response(step, c, s.machine, s.latch, w, h).0 == h.(isr := isr);
  }

  /** One more turn on record. */
  lemma ChronicleOneMore(
      step: Stepper, c: Config, w: Wiring, start: Situation, r: Record, s: Situation, h: Event, x: Readings)
    requires CameTo(step, c, w, start, r, s) && !start.machine.off && !s.machine.off
    requires Executed(step, s.machine, h).Some? ==> Saw(step, s, h, x)
    ensures var r' := Recorded(step, c, w, r, s, h, x);
            match TurnFrom(step, c, w, s, h, x)
            case None => CameToTrap(step, c, w, start, r')
            case Some(t) => CameTo(step, c, w, start, r', t)
  {
    var q := Response(step, c, s.machine, s.latch, w, h);
    ResponseTurn(step, c, w, s, h, x);
    TurnsOneMore(step, c, start.machine, r.used, q.0);
    CostsOneMore(step, c, start.machine, r.used, q.0);
    if w.OnLatch? {
      FilledOneMore(step, c, w.kept, start.machine, start.latch, r.heard, h);
    }
    RanOneMore(r.clock, r.calls, Call(TicksIn(step, s.machine, h), x));
  }

  /** The record of a run. */
  function RecordOf(turn: Turner, step: Stepper, c: Config, w: Wiring, start: Situation, ts: Course): Record {
    match ts
    case Begun => Record(start.clock, [], [], [])
    case Then(before, t) =>
      var r := RecordOf(turn, step, c, w, start, before);
      match RunFrom(turn, c, start, before)
      case At(s) => Recorded(step, c, w, r, s, t.h, t.x)
      case _ => r
  }

  /** Every run is a run of the protocol, over the answers on its record. */
  lemma {:induction false} RunIsChronicled(
      turn: Turner, step: Stepper, c: Config, w: Wiring, start: Situation, ts: Course)
    requires TurnsLike(turn, step, w) && !start.machine.off
    ensures var r := RecordOf(turn, step, c, w, start, ts);
            match RunFrom(turn, c, start, ts)
            case At(s) => CameTo(step, c, w, start, r, s)
            case Stuck => CameToTrap(step, c, w, start, r)
            case Astray => true
    decreases ts
  {
    match ts
    case Begun => Begins(step, c, w, start);
    case Then(before, t) =>
      RunIsChronicled(turn, step, c, w, start, before);
      match RunFrom(turn, c, start, before)
      case At(s) =>
        assert turn(c, s, t) == NextTurn(step, c, w, s, t);
        if !s.machine.off && (Executed(step, s.machine, t.h).Some? ==> Saw(step, s, t.h, t.x)) {
          ChronicleOneMore(step, c, w, start, RecordOf(turn, step, c, w, start, before), s, t.h, t.x);
        }
      case _ =>
  }

  // ---------- what a run keeps ----------

  /** A pacing clock reports no less than the least time its costs allow; one that never waits tells the time. */
  ghost predicate Timed(step: Stepper, c: Config, start: Machine, r: Record) {
    if r.clock.resolution >= 0 then Ran(r.clock, r.calls).time >= Least(r.clock, Costs(step, c, start, r.used))
    else TellsTime(r.clock, r.calls)
  }

  /** If clock and loop are locked, the clock took the time exactly where interrupts were serviced. */
  predicate InStep(step: Stepper, c: Config, start: Machine, r: Record) {
    Locked(r.clock.resolution, r.clock.tickCount, c.ticksPerIsr) ==>
      Stamps(r.clock, r.calls) == Services(step, c, start, r.used)
  }

  /** Every service of a controller built on the latch answers right, the run ends in the first service that answers
      quit, and with a service after every instruction each hears the traffic of that instruction. */
  ghost predicate Answered(step: Stepper, c: Config, start: Machine, a: Latch, w: Wiring, r: Record) {
    && |r.used| <= |r.heard|
    && var hs := Hearings(step, c, start, r.heard, r.used, []);
    && (w.OnLatch? && OneRequest(a) ==> AnswersRight(w.kept, a.saveAt, Holding(a), hs))
    && (Turns(step, c, start, r.used).Some? ==> EndsAtQuit(Turns(step, c, start, r.used).value.off, hs))
    && (c.ticksPerIsr <= 0 ==> HearsEach(hs, Traffic(step, c, start, r.used)))
  }

  /** Every accepted request is consumed or the one outstanding, and none is outstanding once the machine is off. */
  predicate Settles(step: Stepper, c: Config, start: Machine, r: Record) {
    Turns(step, c, start, r.used).Some? ==>
      var m := Turns(step, c, start, r.used).value;
      && History.Accepted(m.history) == History.Consumed(m.history) + (if Free(m) then 0 else 1)
      && (m.off ==> Free(m))
  }

  ghost predicate Promises(step: Stepper, c: Config, start: Machine, a: Latch, w: Wiring, r: Record) {
    && Timed(step, c, start, r) && InStep(step, c, start, r)
    && Answered(step, c, start, a, w, r) && Settles(step, c, start, r)
  }

  lemma RunAnswered(step: Stepper, c: Config, s: State, a: Latch, w: Wiring, r: Record)
    requires Chronicled(step, c, Start(s), a, w, r)
    ensures Answered(step, c, Start(s), a, w, r)
  {
    if w.OnLatch? && OneRequest(a) {
      AnswersHeard(step, c, w.kept, Start(s), a, [], r.heard);
    }
    if Turns(step, c, Start(s), r.used).Some? {
      StopsAtFirstQuit(step, c, Start(s), r.heard, r.used, []);
    }
    if c.ticksPerIsr <= 0 {
      HearingsEvery(step, c, Start(s), r.heard, r.used);
    }
  }

  lemma RunPromises(step: Stepper, c: Config, s: State, a: Latch, w: Wiring, r: Record)
    requires TallyCosts(step) && r.clock.error <= 0 <= r.clock.tickCount
    requires Chronicled(step, c, Start(s), a, w, r)
    ensures Promises(step, c, Start(s), a, w, r)
  {
    hide Answered;
    RunAnswered(step, c, s, a, w, r);
    if r.clock.resolution >= 0 {
      LeastTime(r.clock, r.calls);
    } else {
      AlwaysTellsTime(r.clock, r.calls);
    }
    if Locked(r.clock.resolution, r.clock.tickCount, c.ticksPerIsr) {
      RunInStep(step, c, s, r.used, r.clock, r.calls);
    }
    if Turns(step, c, Start(s), r.used).Some? {
      History.RequestsConserved(step, c, s, r.used);
      RunOrderly(step, c, Start(s), r.used);
    }
  }

  /** Of every run of the machine, as its `Run` method gives it, finished or not: it is a run of the protocol on
      record that has come to this machine, latch and clock (or to a trap), and keeps what `Promises` says. A pacing
      clock reports no less than the least time its costs allow, one that never waits the time of its last reading;
      a locked clock and loop act at the same instructions; every service answers with the last write to reach the
      latch, and the run ends in the first that answers quit; and once off it has nothing outstanding. */
  lemma RunEnds(turn: Turner, step: Stepper, c: Config, w: Wiring, start: Situation, s0: State, ts: Course)
    requires TurnsLike(turn, step, w) && TallyCosts(step)
    requires start.clock.error <= 0 <= start.clock.tickCount && start.machine == Start(s0)
    requires RunFrom(turn, c, start, ts) != Astray
    ensures var r := RecordOf(turn, step, c, w, start, ts);
            && Promises(step, c, start.machine, start.latch, w, r)
            && match RunFrom(turn, c, start, ts)
               case At(s) => CameTo(step, c, w, start, r, s)
               case _ => CameToTrap(step, c, w, start, r)
  {
    hide Promises, RecordOf;
    RunIsChronicled(turn, step, c, w, start, ts);
    RunPromises(step, c, s0, start.latch, w, RecordOf(turn, step, c, w, start, ts));
  }
}
