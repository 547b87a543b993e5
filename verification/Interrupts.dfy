/** What becomes of the interrupt a controller answers with: taken by the next instruction, or lost. */
module Interrupts {
  import opened Types
  import opened Core
  import opened Protocol
  import opened Pattern
  import H = History

  // ---------- what a turn leaves ----------

  /** A turn leaves an interrupt raised exactly if its service was due and the controller answered with one. */
  lemma TurnRaises(step: Stepper, c: Config, m: Machine, e: Event)
    requires Turn(step, c, m, e).Some?
    ensures var t := Turn(step, c, m, e).value;
            && t.irq == (if t.total - m.last >= c.ticksPerIsr && e.isr.Vector? then Some(e.isr.n) else None)
            && (!m.off && e.isr.Vector? ==> !t.off)
  {
    hide Serve;
    var x := Executed(step, m, e).value.0;
    H.ServeLeaves(c, x, e);
  }

  lemma TurnsOne(step: Stepper, c: Config, m: Machine, e: Event)
    requires !m.off
    ensures Turns(step, c, m, [e]) == Turn(step, c, m, e)
    ensures Turn(step, c, m, e).Some? ==>
              Landed(step, c, m, [e])
              == match Lands(c, Executed(step, m, e).value.0, e) case Some(r) => [r] case None => []
  {
    hide Turn, Executed, Lands;
    assert [e][1..] == [];
    var t := Turn(step, c, m, e);
    if t.Some? {
      assert Turns(step, c, t.value, []) == t;
      assert Landed(step, c, t.value, []) == [];
    }
  }

  lemma TurnsTwo(step: Stepper, c: Config, m: Machine, e: Event, d: Event)
    requires !m.off && Turn(step, c, m, e).Some? && !Turn(step, c, m, e).value.off
    ensures Turns(step, c, m, [e, d]) == Turn(step, c, Turn(step, c, m, e).value, d)
  {
    hide Turn;
    assert [e, d][1..] == [d];
    TurnsOne(step, c, Turn(step, c, m, e).value, d);
  }

  /** If no reply lands, the service leaves processor and memory to the instruction. */
  lemma CoreUnlessLanded(step: Stepper, c: Config, m: Machine, e: Event)
    requires Turn(step, c, m, e).Some? && Lands(c, Executed(step, m, e).value.0, e).None?
    ensures Turn(step, c, m, e).value.core == Executed(step, m, e).value.0.core
  {
    hide Serve, Executed;
    ServeCore(c, Executed(step, m, e).value.0, e);
  }

  // ---------- the next instruction ----------

  /** `t` is `s` interrupted at vector `n`: the interrupted counter pushed, control at 8n, interrupts off. */
  predicate AtVector(s: State, n: RestartNumber, t: State) {
    && t.cpu == s.cpu.(pc := 8 * n, sp := Plus(s.cpu.sp, -2), iff := false)
    && t.mem == s.mem[Plus(s.cpu.sp, -1) := s.cpu.pc / 0x100][Plus(s.cpu.sp, -2) := s.cpu.pc % 0x100]
  }

  /** An interrupt is acknowledged when enabled. When it is not, the instruction executes as if none were raised. */
  lemma StepInterrupted(s: State, n: RestartNumber, input: word -> byte)
    ensures var o := Step(s, Env(Some(n), input));
            if s.cpu.iff then o.Next? && AtVector(s, n, o.s) && o.ticks == 11 && o.io == []
            else o == Step(s, Env(None, input))
  {
    hide Exec, Fetched;
  }

  /** Interrupts across turns. A service that is due and answered with vector `n` at a boundary with interrupts enabled
      makes the next turn push the interrupted counter, go to 8n and disable interrupts. At a boundary with interrupts
      disabled the interrupt is lost: the next turn is the one of a machine on which none was raised. */
  lemma VectorTaken(c: Config, m: Machine, e: Event, d: Event)
    requires !m.off && Turns(Step, c, m, [e]).Some?
    requires Turns(Step, c, m, [e]).value.total - m.last >= c.ticksPerIsr && e.isr.Vector?
    requires Landed(Step, c, Turns(Step, c, m, [e]).value, [d]) == []
    ensures var at := Turns(Step, c, m, [e]).value;
            if at.core.cpu.iff then
              && Turns(Step, c, m, [e, d]).Some?
              && AtVector(at.core, e.isr.n, Turns(Step, c, m, [e, d]).value.core)
            else Turns(Step, c, m, [e, d]) == Turns(Step, c, at.(irq := None), [d])
  {
    hide Step;
    StepInterrupted(Turns(Step, c, m, [e]).value.core, e.isr.n, d.input);
    VectorTurn(Step, c, m, e, d);
  }

  lemma VectorTurn(step: Stepper, c: Config, m: Machine, e: Event, d: Event)
    requires !m.off && Turns(step, c, m, [e]).Some?
    requires Turns(step, c, m, [e]).value.total - m.last >= c.ticksPerIsr && e.isr.Vector?
    requires Landed(step, c, Turns(step, c, m, [e]).value, [d]) == []
    requires var s := Turns(step, c, m, [e]).value.core;
             var o := step(s, Env(Some(e.isr.n), d.input));
             if s.cpu.iff then o.Next? && AtVector(s, e.isr.n, o.s) else o == step(s, Env(None, d.input))
    ensures var at := Turns(step, c, m, [e]).value;
            if at.core.cpu.iff then
              && Turns(step, c, m, [e, d]).Some?
              && AtVector(at.core, e.isr.n, Turns(step, c, m, [e, d]).value.core)
            else Turns(step, c, m, [e, d]) == Turns(step, c, at.(irq := None), [d])
  {
    hide Settle, Lands, AtVector;
    TurnsOne(step, c, m, e);
    TurnRaises(step, c, m, e);
    TurnsTwo(step, c, m, e, d);
    var at := Turn(step, c, m, e).value;
    TurnsOne(step, c, at, d);
    TurnsOne(step, c, at.(irq := None), d);
    if at.core.cpu.iff {
      CoreUnlessLanded(step, c, at, d);
    }
  }
}
