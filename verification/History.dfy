/** What the protocol's histories mean for requests, handlers and captured states, and how far
    apart interrupt services are. */
module History {
  import opened Types
  import opened Core
  import opened Snapshot
  import opened Protocol

  // ---------- counting requests ----------

  function Accepted(h: seq<Action>): nat {
    if h == [] then 0
    else
      var a := h[|h| - 1];
      Accepted(h[..|h| - 1]) + if a.LoadAccepted? || a.SaveAccepted? then 1 else 0
  }

  function Consumed(h: seq<Action>): nat {
    if h == [] then 0
    else
      var a := h[|h| - 1];
      Consumed(h[..|h| - 1]) + if a.LoadConsumed? || a.SaveConsumed? then 1 else 0
  }

  /** The states captured for save requests, in order. */
  function Captured(h: seq<Action>): seq<Saved> {
    if h == [] then []
    else
      var a := h[|h| - 1];
      Captured(h[..|h| - 1]) + if a.SaveAccepted? then [a.saved] else []
  }

  /** The states handed to save handlers, in order. */
  function HandedOver(h: seq<Action>): seq<Saved> {
    if h == [] then []
    else
      var a := h[|h| - 1];
      HandedOver(h[..|h| - 1]) + if a.SaveDelivered? then [a.saved] else []
  }

  /** In any allowed history accepted requests are the consumed ones and at most one outstanding, and
      handlers have received exactly the captured states, in order, but for the one still running. */
  lemma {:induction false} AllowedHistory(h: seq<Action>)
    requires Replay(h).Some?
    ensures Accepted(h) == Consumed(h) + if Replay(h).value.Idle? then 0 else 1
    ensures Captured(h) == HandedOver(h) + if Replay(h).value.Saving? then [Replay(h).value.saved] else []
    decreases |h|
  {
    if h != [] {
      AllowedHistory(h[..|h| - 1]);
    }
  }

  /** Over every run from a fresh machine: no load and save outstanding together, nothing lost,
      nothing consumed twice, and nothing outstanding once the machine is off. */
  lemma RequestsConserved(step: Stepper, c: Config, s: State, es: seq<Event>)
    requires Turns(step, c, Start(s), es).Some?
    ensures var m := Turns(step, c, Start(s), es).value;
            && (m.load.NoLoad? || m.save.NoSave?)
            && Accepted(m.history) == Consumed(m.history) + (if Free(m) then 0 else 1)
            && (m.off ==> Accepted(m.history) == Consumed(m.history) && Captured(m.history) == HandedOver(m.history))
            && HandedOver(m.history) <= Captured(m.history)
  {
    var m := Turns(step, c, Start(s), es).value;
    RunOrderly(step, c, Start(s), es);
    AllowedHistory(m.history);
  }

  /** The processor and memory right after each instruction of a run. */
  function Boundaries(step: Stepper, c: Config, m: Machine, es: seq<Event>): seq<State>
    decreases |es|
  {
    if es == [] || m.off || Turn(step, c, m, es[0]).None? then []
    else [Executed(step, m, es[0]).value.0.core] + Boundaries(step, c, Turn(step, c, m, es[0]).value, es[1..])
  }

  /** Whether the turn that executed to `x` accepts a save. */
  predicate TakesSave(c: Config, x: Machine, e: Event) {
    Due(c, x) && e.isr.SaveRequest? && c.canSave && Free(x) && CanSave(c.layout)
  }

  /** The boundaries of exactly the turns that accept a save. */
  function SavePoints(step: Stepper, c: Config, m: Machine, es: seq<Event>): seq<State>
    decreases |es|
  {
    if es == [] || m.off || Turn(step, c, m, es[0]).None? then []
    else
      var x := Executed(step, m, es[0]).value.0;
      (if TakesSave(c, x, es[0]) then [x.core] else []) + SavePoints(step, c, Turn(step, c, m, es[0]).value, es[1..])
  }

  /** What a save handler is to receive for each of these states. */
  function Images(y: Layout, states: seq<State>): (images: seq<Saved>)
    ensures |images| == |states|
    ensures forall k :: 0 <= k < |states| ==> images[k] == Save(y, states[k])
  {
    if states == [] then [] else [Save(y, states[0])] + Images(y, states[1..])
  }

  // ---------- the whole history ----------

  /** A load that is waited for, or only looked at: a deferred handler runs, a running one is waited for. */
  function LoadTaken(x: Machine, e: Event, wait: bool): seq<Action> {
    match x.load
    case NoLoad => []
    case LoadReady(r) => [LoadConsumed(r)]
    case LoadDeferred => [LoadConsumed(e.reply)]
    case LoadRunning => if wait then [LoadConsumed(e.reply)] else []
  }

  function SaveTaken(x: Machine, wait: bool): seq<Action> {
    match x.save
    case NoSave => []
    case SaveReady => [SaveConsumed]
    case SaveDeferred(s) => [SaveDelivered(s), SaveConsumed]
    case SaveRunning(s) => if wait then [SaveDelivered(s), SaveConsumed] else []
  }

  /** What each answer of the controller makes the loop and its handlers do, the machine having executed to `x`. A
      handler that is not asynchronous, or done at once, ends in the turn that starts it. */
  function Deeds(c: Config, x: Machine, e: Event): seq<Action> {
    match e.isr
    case LoadRequest =>
      if !c.canLoad || !Free(x) then []
      else [LoadAccepted] + if !c.loadAsync || e.loadDone then [LoadConsumed(e.reply)] else []
    case SaveRequest =>
      if !c.canSave || !Free(x) || c.layout.memUuid == NO_UUID then []
      else
        var s := Save(c.layout, x.core);
        [SaveAccepted(s)] + if !c.saveAsync || e.saveDone then [SaveDelivered(s), SaveConsumed] else []
    case Quit => LoadTaken(x, e, true) + SaveTaken(x, true)
    case NoInterrupt => LoadTaken(x, e, false) + SaveTaken(x, false)
    case _ => []
  }

  /** What happens in one turn: a save handler may end during the instruction, and a service that is due acts. */
  function TurnDeeds(step: Stepper, c: Config, m: Machine, e: Event): seq<Action>
    requires Executed(step, m, e).Some?
  {
    var x := Executed(step, m, e).value.0;
    (if m.save.SaveRunning? && e.saveDone then [SaveDelivered(m.save.saved)] else [])
    + if Due(c, x) then Deeds(c, x, e) else []
  }

  function RunDeeds(step: Stepper, c: Config, m: Machine, es: seq<Event>): seq<Action>
    decreases |es|
  {
    if es == [] || m.off || Turn(step, c, m, es[0]).None? then []
    else TurnDeeds(step, c, m, es[0]) + RunDeeds(step, c, Turn(step, c, m, es[0]).value, es[1..])
  }

  lemma LoadTakes(y: Layout, m: Machine, e: Event)
    ensures PollLoad(y, m, e).history == m.history + LoadTaken(m, e, false)
    ensures AwaitLoad(y, m, e).history == m.history + LoadTaken(m, e, true)
    ensures PollLoad(y, m, e).save == m.save == AwaitLoad(y, m, e).save
  {
    hide Load;
  }

  lemma SaveTakes(m: Machine)
    ensures PollSave(m).history == m.history + SaveTaken(m, false)
    ensures AwaitSave(m).history == m.history + SaveTaken(m, true)
  {
    hide Load;
  }

  lemma AcceptLoadDoes(c: Config, x: Machine, e: Event)
    requires Free(x)
    ensures AcceptLoad(c, x, e).history
            == x.history + ([LoadAccepted] + if !c.loadAsync || e.loadDone then [LoadConsumed(e.reply)] else [])
  {
    hide Load;
  }

  lemma AcceptSaveDoes(c: Config, x: Machine, e: Event)
    requires Free(x)
    ensures var s := Save(c.layout, x.core);
            AcceptSave(c, x, e).history
            == x.history
               + ([SaveAccepted(s)] + if !c.saveAsync || e.saveDone then [SaveDelivered(s), SaveConsumed] else [])
  {
    hide Load, Save;
  }

  lemma ServeDoes(c: Config, x: Machine, e: Event)
    ensures Serve(c, x, e).history == x.history + Deeds(c, x, e)
  {
    hide Load, Save, LoadTaken, SaveTaken, PollLoad, PollSave, AwaitLoad, AwaitSave, AcceptLoad, AcceptSave;
    match e.isr
    case LoadRequest =>
      if Free(x) {
        AcceptLoadDoes(c, x, e);
      }
    case SaveRequest =>
      if Free(x) {
        AcceptSaveDoes(c, x, e);
      }
    case _ =>
      LoadTakes(c.layout, x, e);
      SaveTakes(PollLoad(c.layout, x, e));
      SaveTakes(AwaitLoad(c.layout, x, e));
      SaveTakenSame(c.layout, x, e);
  }

  lemma SaveTakenSame(y: Layout, x: Machine, e: Event)
    ensures forall wait :: SaveTaken(PollLoad(y, x, e), wait) == SaveTaken(x, wait)
    ensures forall wait :: SaveTaken(AwaitLoad(y, x, e), wait) == SaveTaken(x, wait)
  {
    hide Load;
  }

  lemma TurnDoes(step: Stepper, c: Config, m: Machine, e: Event)
    requires Turn(step, c, m, e).Some?
    ensures Turn(step, c, m, e).value.history == m.history + TurnDeeds(step, c, m, e)
  {
    hide Serve, Deeds;
    ServeDoes(c, Executed(step, m, e).value.0, e);
  }

  /** The history of a run, whatever the interleaving: turn by turn exactly what the answers of the controller call
      for, and what handlers do that end in between. */
  lemma {:induction false} RunDoes(step: Stepper, c: Config, m: Machine, es: seq<Event>)
    requires Turns(step, c, m, es).Some?
    ensures Turns(step, c, m, es).value.history == m.history + RunDeeds(step, c, m, es)
    decreases |es|
  {
    hide Turn, TurnDeeds;
    if es != [] && !m.off {
      TurnDoes(step, c, m, es[0]);
      RunDoes(step, c, Turn(step, c, m, es[0]).value, es[1..]);
    }
  }

  // ---------- captured states ----------

  lemma {:induction false} CapturedConcat(h: seq<Action>, g: seq<Action>)
    ensures Captured(h + g) == Captured(h) + Captured(g)
    decreases |g|
  {
    if g == [] {
      assert h + g == h;
    } else {
      assert (h + g)[..|h + g| - 1] == h + g[..|g| - 1];
      CapturedConcat(h, g[..|g| - 1]);
    }
  }

  lemma {:induction false} CapturedNone(h: seq<Action>)
    requires forall k :: 0 <= k < |h| ==> !h[k].SaveAccepted?
    ensures Captured(h) == []
    decreases |h|
  {
    if h != [] {
      CapturedNone(h[..|h| - 1]);
    }
  }

  lemma CapturedFirst(s: Saved, rest: seq<Action>)
    requires forall k :: 0 <= k < |rest| ==> !rest[k].SaveAccepted?
    ensures Captured([SaveAccepted(s)] + rest) == [s]
  {
    var a: Action := SaveAccepted(s);
    assert [a][..0] == [];
    CapturedConcat([a], rest);
    CapturedNone(rest);
  }

  lemma DeedsCapture(c: Config, x: Machine, e: Event)
    requires Due(c, x)
    ensures Captured(Deeds(c, x, e)) == if TakesSave(c, x, e) then [Save(c.layout, x.core)] else []
  {
    hide Captured, Save;
    var s := Save(c.layout, x.core);
    if TakesSave(c, x, e) {
      CapturedFirst(s, if !c.saveAsync || e.saveDone then [SaveDelivered(s), SaveConsumed] else []);
    } else {
      CapturedNone(Deeds(c, x, e));
    }
  }

  lemma TurnCaptures(step: Stepper, c: Config, m: Machine, e: Event)
    requires Executed(step, m, e).Some?
    ensures var x := Executed(step, m, e).value.0;
            Captured(TurnDeeds(step, c, m, e)) == if TakesSave(c, x, e) then [Save(c.layout, x.core)] else []
  {
    hide Captured, Deeds, Save, Executed;
    var x := Executed(step, m, e).value.0;
    var first := if m.save.SaveRunning? && e.saveDone then [SaveDelivered(m.save.saved)] else [];
    var deeds := if Due(c, x) then Deeds(c, x, e) else [];
    CapturedConcat(first, deeds);
    CapturedNone(first);
    if Due(c, x) {
      DeedsCapture(c, x, e);
    } else {
      CapturedNone(deeds);
    }
  }

  /** Over any run the captured states grow by the snapshots of the boundaries of exactly the accepting turns. */
  lemma {:induction false} CapturedAtBoundary(step: Stepper, c: Config, m: Machine, es: seq<Event>)
    ensures Captured(RunDeeds(step, c, m, es)) == Images(c.layout, SavePoints(step, c, m, es))
    decreases |es|
  {
    hide TurnDeeds, Save, TakesSave;
    if es != [] && !m.off && Turn(step, c, m, es[0]).Some? {
      var m' := Turn(step, c, m, es[0]).value;
      TurnCaptures(step, c, m, es[0]);
      CapturedConcat(TurnDeeds(step, c, m, es[0]), RunDeeds(step, c, m', es[1..]));
      CapturedAtBoundary(step, c, m', es[1..]);
    }
  }

  /** The k-th save handler of a run receives the state at the boundary of the k-th accepting turn, however late
      it runs, and every accepted save but one still running has been handed over. */
  lemma HandlersReceive(step: Stepper, c: Config, s: State, es: seq<Event>)
    requires Turns(step, c, Start(s), es).Some?
    ensures var m := Turns(step, c, Start(s), es).value;
            var points := SavePoints(step, c, Start(s), es);
            var got := HandedOver(m.history);
            && |got| == |points| - (if m.save.SaveDeferred? || m.save.SaveRunning? then 1 else 0)
            && forall k :: 0 <= k < |got| ==> got[k] == Save(c.layout, points[k])
  {
    hide Turns, RunDeeds, SavePoints, Save, Captured, HandedOver;
    var m := Turns(step, c, Start(s), es).value;
    RunOrderly(step, c, Start(s), es);
    AllowedHistory(m.history);
    RunDoes(step, c, Start(s), es);
    assert m.history == RunDeeds(step, c, Start(s), es);
    CapturedAtBoundary(step, c, Start(s), es);
  }

  // ---------- cadence ----------

  /** Ticks from one service to the next, for every service of a run. */
  function Gaps(step: Stepper, c: Config, m: Machine, es: seq<Event>): seq<int>
    decreases |es|
  {
    if es == [] || m.off || Turn(step, c, m, es[0]).None? then []
    else
      var m' := Executed(step, m, es[0]).value.0;
      (if Due(c, m') then [m'.total - m'.last] else []) + Gaps(step, c, Turn(step, c, m, es[0]).value, es[1..])
  }

  ghost predicate CostsAtMost18(step: Stepper) {
    forall s: State, e: Env :: step(s, e).Next? ==> step(s, e).ticks <= 18
  }

  /** What a service leaves alone but for handlers and loads. */
  lemma ServeLeaves(c: Config, m: Machine, e: Event)
    ensures var t := Serve(c, m, e);
            && t.total == m.total
            && t.irq == (if e.isr.Vector? then Some(e.isr.n) else m.irq)
            && t.off == (m.off || e.isr.Quit?)
  {
    hide Load, Save, CanSave, Free;
  }

  /** With a positive period every gap between services lies within 17 ticks above the period. */
  lemma {:induction false} Cadence(step: Stepper, c: Config, m: Machine, es: seq<Event>)
    requires CostsAtMost18(step) && c.ticksPerIsr > 0 && 0 <= m.total - m.last < c.ticksPerIsr
    ensures forall g :: g in Gaps(step, c, m, es) ==> c.ticksPerIsr <= g <= c.ticksPerIsr + 17
    decreases |es|
  {
    if es != [] && !m.off && Turn(step, c, m, es[0]).Some? {
      var m' := Executed(step, m, es[0]).value.0;
      assert step(m.core, Env(m.irq, es[0].input)).ticks <= 18;
      ServeLeaves(c, m', es[0]);
      Cadence(step, c, Turn(step, c, m, es[0]).value, es[1..]);
    }
  }

  /** With a period of zero or less interrupts are serviced after every instruction. */
  lemma {:induction false} EveryInstruction(step: Stepper, c: Config, m: Machine, es: seq<Event>)
    requires c.ticksPerIsr <= 0 && m.last <= m.total
    ensures |Gaps(step, c, m, es)| == |Boundaries(step, c, m, es)|
    decreases |es|
  {
    if es != [] && !m.off && Turn(step, c, m, es[0]).Some? {
      var m' := Executed(step, m, es[0]).value.0;
      ServeLeaves(c, m', es[0]);
      EveryInstruction(step, c, Turn(step, c, m, es[0]).value, es[1..]);
    }
  }
}
