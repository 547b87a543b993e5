/** The machine's run loop between instructions: when interrupts are serviced, and the load and
    save requests whose handlers may finish at any time. Stated for any processor. */
module Protocol {
  import opened Types
  import opened Core
  import opened Snapshot

  type RestartNumber = n: int | 0 <= n < 8

  /** What the i/o controller answers when interrupts are serviced. */
  datatype Isr = Vector(n: RestartNumber) | SaveRequest | LoadRequest | Quit | NoInterrupt | Unrecognised

  /** The futures of the load and save handlers. A deferred handler runs when it is waited for. */
  datatype LoadFuture = NoLoad | LoadDeferred | LoadRunning | LoadReady(reply: Reply)
  datatype SaveFuture = NoSave | SaveDeferred(saved: Saved) | SaveRunning(saved: Saved) | SaveReady

  datatype Config = Config(layout: Layout, ticksPerIsr: int,
                           canLoad: bool, canSave: bool, loadAsync: bool, saveAsync: bool)

  datatype Action =
    | LoadAccepted
    | LoadConsumed(reply: Reply)
    | SaveAccepted(saved: Saved)
    | SaveDelivered(saved: Saved)
    | SaveConsumed

  datatype Machine = Machine(core: State, irq: Option<byte>, total: int, last: int,
                             load: LoadFuture, save: SaveFuture, off: bool, history: seq<Action>)

  /** The environment of one turn of the loop: port inputs, the controller's answer if it is asked,
      whether an asynchronous handler finishes before it is next looked at, and the reply of the
      load handler if it runs to its end in this turn. */
  datatype Event = Event(input: word -> byte, isr: Isr, loadDone: bool, saveDone: bool, reply: Reply)

  function Start(s: State): Machine {
    Machine(s, None, 0, 0, NoLoad, NoSave, false, [])
  }

  // ---------- handlers ----------

  function Log(m: Machine, a: Action): Machine {
    m.(history := m.history + [a])
  }

  /** A running handler may finish. */
  function LoadProgress(m: Machine, e: Event): Machine {
    if m.load.LoadRunning? && e.loadDone then m.(load := LoadReady(e.reply)) else m
  }

  function SaveProgress(m: Machine, e: Event): Machine {
    if m.save.SaveRunning? && e.saveDone then Log(m.(save := SaveReady), SaveDelivered(m.save.saved)) else m
  }

  /** Take the reply and apply it to the machine, all or nothing. */
  function ConsumeLoad(y: Layout, m: Machine, r: Reply): Machine {
    Log(m.(core := Load(y, m.core, r), load := NoLoad), LoadConsumed(r))
  }

  function ConsumeSave(m: Machine): Machine {
    Log(m.(save := NoSave), SaveConsumed)
  }

  function Deliver(m: Machine, s: Saved): Machine {
    Log(m, SaveDelivered(s))
  }

  /** Look at the load future without waiting; a deferred handler is run. */
  function PollLoad(y: Layout, m: Machine, e: Event): Machine {
    match m.load
    case LoadDeferred => ConsumeLoad(y, m, e.reply)
    case LoadReady(r) => ConsumeLoad(y, m, r)
    case _ => m
  }

  function PollSave(m: Machine): Machine {
    match m.save
    case SaveDeferred(s) => ConsumeSave(Deliver(m, s))
    case SaveReady => ConsumeSave(m)
    case _ => m
  }

  /** Wait for the handler. */
  function AwaitLoad(y: Layout, m: Machine, e: Event): Machine {
    if m.load.LoadRunning? then ConsumeLoad(y, m, e.reply) else PollLoad(y, m, e)
  }

  function AwaitSave(m: Machine): Machine {
    if m.save.SaveRunning? then ConsumeSave(Deliver(m, m.save.saved)) else PollSave(m)
  }

  // ---------- service ----------

  function AcceptLoad(c: Config, m: Machine, e: Event): Machine {
    var launched := Log(m.(load := if c.loadAsync then LoadRunning else LoadDeferred), LoadAccepted);
    PollLoad(c.layout, LoadProgress(launched, e), e)
  }

  /** The state is captured when the request is accepted. */
  function AcceptSave(c: Config, m: Machine, e: Event): Machine {
    var s := Save(c.layout, m.core);
    var launched := Log(m.(save := if c.saveAsync then SaveRunning(s) else SaveDeferred(s)), SaveAccepted(s));
    PollSave(SaveProgress(launched, e))
  }

  predicate Free(m: Machine) {
    m.load.NoLoad? && m.save.NoSave?
  }

  function Serve(c: Config, m: Machine, e: Event): Machine {
    match e.isr
    case Vector(n) => m.(irq := Some(n))
    case LoadRequest => if c.canLoad && Free(m) then AcceptLoad(c, m, e) else m
    case SaveRequest => if c.canSave && Free(m) && CanSave(c.layout) then AcceptSave(c, m, e) else m
    case Quit => AwaitSave(AwaitLoad(c.layout, m, e)).(off := true)
    case NoInterrupt => PollSave(PollLoad(c.layout, m, e))
    case Unrecognised => m
  }

  // ---------- turns ----------

  /** Handlers may finish; the next instruction executes, acknowledging the interrupt raised last turn. */
  function Executed(step: Stepper, m: Machine, e: Event): Option<(Machine, seq<IoEvent>)> {
    var m' := SaveProgress(LoadProgress(m, e), e);
    match step(m.core, Env(m.irq, e.input))
    case Trap => None
    case Next(s, ticks, io) => Some((m'.(core := s, irq := None, total := m.total + ticks), io))
  }

  predicate Due(c: Config, m: Machine) {
    m.total - m.last >= c.ticksPerIsr
  }

  function Settle(c: Config, m: Machine, e: Event): Machine {
    if Due(c, m) then Serve(c, m, e).(last := m.total) else m
  }

  /** One turn of the loop. */
  function Turn(step: Stepper, c: Config, m: Machine, e: Event): Option<Machine> {
    match Executed(step, m, e)
    case None => None
    case Some(r) => Some(Settle(c, r.0, e))
  }

  /** The loop, until it is powered off or the events run out. */
  function Turns(step: Stepper, c: Config, m: Machine, es: seq<Event>): Option<Machine>
    decreases |es|
  {
    if es == [] || m.off then Some(m)
    else
      match Turn(step, c, m, es[0])
      case None => None
      case Some(m') => Turns(step, c, m', es[1..])
  }

  lemma {:induction false} TurnsOneMore(step: Stepper, c: Config, m: Machine, es: seq<Event>, e: Event)
    requires Turns(step, c, m, es).Some? && !Turns(step, c, m, es).value.off
    ensures Turns(step, c, m, es + [e]) == Turn(step, c, Turns(step, c, m, es).value, e)
    decreases |es|
  {
    if es == [] {
      assert [] + [e] == [e] && [e][1..] == [];
      if Turn(step, c, m, e).Some? {
        assert Turns(step, c, Turn(step, c, m, e).value, []) == Turn(step, c, m, e);
      }
    } else {
      assert (es + [e])[0] == es[0] && (es + [e])[1..] == es[1..] + [e];
      TurnsOneMore(step, c, Turn(step, c, m, es[0]).value, es[1..], e);
    }
  }

  // ---------- the protocol as an automaton over its history ----------

  datatype Phase = Idle | Loading | Saving(saved: Saved) | Delivered

  function Advance(p: Phase, a: Action): Option<Phase> {
    match a
    case LoadAccepted => if p.Idle? then Some(Loading) else None
    case LoadConsumed(_) => if p.Loading? then Some(Idle) else None
    case SaveAccepted(s) => if p.Idle? then Some(Saving(s)) else None
    case SaveDelivered(s) => if p == Saving(s) then Some(Delivered) else None
    case SaveConsumed => if p.Delivered? then Some(Idle) else None
  }

  /** Where a history leads, if the protocol allows it at all. */
  function Replay(history: seq<Action>): Option<Phase> {
    if history == [] then Some(Idle)
    else
      match Replay(history[..|history| - 1])
      case None => None
      case Some(p) => Advance(p, history[|history| - 1])
  }

  lemma ReplayOne(h: seq<Action>, a: Action)
    ensures Replay(h + [a]) == match Replay(h) case None => None case Some(p) => Advance(p, a)
  {
    assert (h + [a])[..|h|] == h;
  }

  /** The phase the two futures are in; nothing if both are in use. */
  function PhaseOf(m: Machine): Option<Phase> {
    if m.save.NoSave? then Some(if m.load.NoLoad? then Idle else Loading)
    else if !m.load.NoLoad? then None
    else if m.save.SaveReady? then Some(Delivered)
    else Some(Saving(m.save.saved))
  }

  /** The futures are where the history says, and a machine that is off has nothing outstanding. */
  predicate Orderly(m: Machine) {
    PhaseOf(m).Some? && Replay(m.history) == PhaseOf(m) && (m.off ==> Free(m))
  }

  lemma LogAdvances(m: Machine, a: Action)
    ensures Replay(Log(m, a).history) == match Replay(m.history) case None => None case Some(p) => Advance(p, a)
  {
    ReplayOne(m.history, a);
  }

  lemma ProgressOrderly(m: Machine, e: Event)
    requires Orderly(m)
    ensures Orderly(LoadProgress(m, e)) && Orderly(SaveProgress(m, e))
  {
    if m.save.SaveRunning? {
      LogAdvances(m.(save := SaveReady), SaveDelivered(m.save.saved));
    }
  }

  lemma ConsumeLoadOrderly(y: Layout, m: Machine, r: Reply)
    requires Orderly(m) && !m.load.NoLoad?
    ensures Orderly(ConsumeLoad(y, m, r)) && Free(ConsumeLoad(y, m, r))
  {
    LogAdvances(m.(core := Load(y, m.core, r), load := NoLoad), LoadConsumed(r));
  }

  lemma AwaitLoadOrderly(y: Layout, m: Machine, e: Event)
    requires Orderly(m)
    ensures Orderly(PollLoad(y, m, e))
    ensures Orderly(AwaitLoad(y, m, e)) && AwaitLoad(y, m, e).load.NoLoad?
  {
    if !m.load.NoLoad? {
      ConsumeLoadOrderly(y, m, e.reply);
      if m.load.LoadReady? {
        ConsumeLoadOrderly(y, m, m.load.reply);
      }
    }
  }

  lemma DeliverOrderly(m: Machine, s: Saved)
    requires Orderly(m) && (m.save == SaveDeferred(s) || m.save == SaveRunning(s))
    ensures Orderly(ConsumeSave(Deliver(m, s)))
  {
    LogAdvances(m, SaveDelivered(s));
    LogAdvances(Deliver(m, s).(save := NoSave), SaveConsumed);
  }

  lemma ConsumeSaveOrderly(m: Machine)
    requires Orderly(m) && m.save.SaveReady?
    ensures Orderly(ConsumeSave(m))
  {
    LogAdvances(m.(save := NoSave), SaveConsumed);
    assert Replay(ConsumeSave(m).history) == Some(Idle);
  }

  lemma AwaitSaveOrderly(m: Machine)
    requires Orderly(m)
    ensures Orderly(PollSave(m))
    ensures Orderly(AwaitSave(m)) && AwaitSave(m).save.NoSave? && AwaitSave(m).load == m.load
  {
    match m.save
    case SaveDeferred(s) => DeliverOrderly(m, s);
    case SaveRunning(s) => DeliverOrderly(m, s);
    case SaveReady => ConsumeSaveOrderly(m);
    case NoSave =>
  }

  lemma AcceptLoadOrderly(c: Config, m: Machine, e: Event)
    requires Orderly(m) && Free(m) && !m.off
    ensures Orderly(AcceptLoad(c, m, e))
  {
    var l := m.(load := if c.loadAsync then LoadRunning else LoadDeferred);
    LogAdvances(l, LoadAccepted);
    ProgressOrderly(Log(l, LoadAccepted), e);
    AwaitLoadOrderly(c.layout, LoadProgress(Log(l, LoadAccepted), e), e);
  }

  lemma AcceptSaveOrderly(c: Config, m: Machine, e: Event)
    requires Orderly(m) && Free(m) && !m.off
    ensures Orderly(AcceptSave(c, m, e))
  {
    var s := Save(c.layout, m.core);
    var v := m.(save := if c.saveAsync then SaveRunning(s) else SaveDeferred(s));
    var w := Log(v, SaveAccepted(s));
    LogAdvances(v, SaveAccepted(s));
    assert Replay(w.history) == Some(Saving(s)) && PhaseOf(w) == Some(Saving(s));
    ProgressOrderly(w, e);
    AwaitSaveOrderly(SaveProgress(w, e));
  }

  lemma QuitOrderly(y: Layout, m: Machine, e: Event)
    requires Orderly(m)
    ensures Orderly(AwaitSave(AwaitLoad(y, m, e)).(off := true))
    ensures Orderly(PollSave(PollLoad(y, m, e)))
  {
    AwaitLoadOrderly(y, m, e);
    AwaitSaveOrderly(AwaitLoad(y, m, e));
    AwaitSaveOrderly(PollLoad(y, m, e));
  }

  lemma ServeOrderly(c: Config, m: Machine, e: Event)
    requires Orderly(m) && !m.off
    ensures Orderly(Serve(c, m, e))
  {
    match e.isr
    case LoadRequest => if Free(m) { AcceptLoadOrderly(c, m, e); }
    case SaveRequest => if Free(m) { AcceptSaveOrderly(c, m, e); }
    case Quit => QuitOrderly(c.layout, m, e);
    case NoInterrupt => QuitOrderly(c.layout, m, e);
    case _ =>
  }

  lemma TurnOrderly(step: Stepper, c: Config, m: Machine, e: Event)
    requires Orderly(m) && !m.off && Turn(step, c, m, e).Some?
    ensures Orderly(Turn(step, c, m, e).value)
  {
    ProgressOrderly(m, e);
    ProgressOrderly(LoadProgress(m, e), e);
    var m' := Executed(step, m, e).value.0;
    assert m'.history == SaveProgress(LoadProgress(m, e), e).history;
    if Due(c, m') {
      ServeOrderly(c, m', e);
    }
  }

  /** Save/load protocol safety: whatever the interleaving of handlers with the loop, every history
      is a sequence of complete requests followed by at most one outstanding one. A load and a save
      are never outstanding together, an accepted request is consumed exactly once, a handler
      receives exactly the state captured for it, and a machine that is off has nothing outstanding. */
  lemma {:induction false} RunOrderly(step: Stepper, c: Config, m: Machine, es: seq<Event>)
    requires Orderly(m) && Turns(step, c, m, es).Some?
    ensures Orderly(Turns(step, c, m, es).value)
    decreases |es|
  {
    if es != [] && !m.off {
      TurnOrderly(step, c, m, es[0]);
      RunOrderly(step, c, Turn(step, c, m, es[0]).value, es[1..]);
    }
  }
}
