/** Well-nested stack use. A trace is a tree: plain steps, and nested bodies between a step that
    pushes a word (PUSH, CALL, RST or an accepted interrupt) and a step that pops one. Proved for
    any stepper; the opcodes that push and pop are tied in below. */
module Stack {
  import opened Types
  import opened Core
  import opened Footprint

  datatype Trace =
    | Done
    | Plain(e: Env, rest: Trace)
    | Nested(opening: Env, body: Trace, closing: Env, rest: Trace)

  function Depth(t: Trace): nat {
    match t
    case Done => 0
    case Plain(_, rest) => Depth(rest)
    case Nested(_, body, _, rest) =>
      var d := 1 + Depth(body);
      if d < Depth(rest) then Depth(rest) else d
  }

  function Flatten(t: Trace): seq<Env> {
    match t
    case Done => []
    case Plain(e, rest) => [e] + Flatten(rest)
    case Nested(o, body, c, rest) => [o] + Flatten(body) + [c] + Flatten(rest)
  }

  /** How far an address lies above the stack pointer, around the 64K circle. */
  function Above(x: word, sp: word): word {
    if x >= sp then x - sp else x - sp + 0x10000
  }

  /** `t` is `s` with a word pushed. */
  predicate Pushed(s: State, t: State) {
    t.cpu.sp == Plus(s.cpu.sp, -2) && t.mem == PushWord(s, ReadWord(t.mem, t.cpu.sp)).mem
  }

  /** `t` is `s` with a word popped. */
  predicate Popped(s: State, t: State) {
    t.cpu.sp == Plus(s.cpu.sp, 2) && t.mem == s.mem
  }

  /** `t` is `s` after a step that neither moves the stack pointer nor writes the `live` bytes above it. */
  ghost predicate Calm(s: State, t: State, writes: set<word>, live: nat) {
    t.cpu.sp == s.cpu.sp && forall x :: x in writes ==> Above(x, s.cpu.sp) >= live
  }

  /** The state a trace leads to, or nothing if the run does not have the shape of the trace.
      `live` is the number of bytes of enclosing frames above the stack pointer. */
  ghost function RunTrace(step: Stepper, stores: Touches, t: Trace, s: State, live: nat): Option<State> {
    match t
    case Done => Some(s)
    case Plain(e, rest) =>
      var o := step(s, e);
      if o.Next? && Calm(s, o.s, stores(s, e), live) then RunTrace(step, stores, rest, o.s, live) else None
    case Nested(opening, body, closing, rest) =>
      var o := step(s, opening);
      if !(o.Next? && Pushed(s, o.s)) then None
      else
        match RunTrace(step, stores, body, o.s, live + 2)
        case None => None
        case Some(u) =>
          var q := step(u, closing);
          if q.Next? && Popped(u, q.s) then RunTrace(step, stores, rest, q.s, live) else None
  }

  /** The `live` bytes above the stack pointer are the same in both memories. */
  ghost predicate SameAbove(m: Mem, n: Mem, sp: word, live: nat) {
    forall x: word :: Above(x, sp) < live ==> n[x] == m[x]
  }

  ghost predicate WritesOnly(step: Stepper, stores: Touches) {
    forall s: State, e: Env :: OnlyWrites(s.mem, step(s, e), stores(s, e))
  }

  /** Well-nested stack discipline: the stack pointer returns to its start, wrap-around included, and
      the live bytes above it are untouched, as long as the frames fit the 64K circle. */
  lemma {:induction false} Balanced(step: Stepper, stores: Touches, t: Trace, s: State, live: nat)
    requires WritesOnly(step, stores)
    requires RunTrace(step, stores, t, s, live).Some? && live + 2 * Depth(t) <= 0x10000
    ensures var u := RunTrace(step, stores, t, s, live).value;
            u.cpu.sp == s.cpu.sp && SameAbove(s.mem, u.mem, s.cpu.sp, live)
    decreases t
  {
    match t
    case Done =>
    case Plain(e, rest) =>
      var o := step(s, e);
      assert OnlyWrites(s.mem, o, stores(s, e));
      Balanced(step, stores, rest, o.s, live);
    case Nested(opening, body, closing, rest) =>
      var o := step(s, opening);
      Balanced(step, stores, body, o.s, live + 2);
      var u := RunTrace(step, stores, body, o.s, live + 2).value;
      Balanced(step, stores, rest, step(u, closing).s, live);
  }

  /** What a nested body's closing step pops is what its opening step pushed. */
  lemma PopsWhatWasPushed(step: Stepper, stores: Touches, s: State, s1: State, body: Trace, u: State, live: nat)
    requires WritesOnly(step, stores) && Pushed(s, s1)
    requires RunTrace(step, stores, body, s1, live + 2) == Some(u) && live + 2 + 2 * Depth(body) <= 0x10000
    ensures Plus(u.cpu.sp, 2) == s.cpu.sp
    ensures ReadWord(u.mem, u.cpu.sp) == ReadWord(s1.mem, s1.cpu.sp)
    ensures SameAbove(s.mem, u.mem, s.cpu.sp, live)
  {
    Balanced(step, stores, body, s1, live + 2);
  }

  /** A trace is a run of the machine over its flattened schedule. */
  lemma {:induction false} TraceIsRun(step: Stepper, stores: Touches, t: Trace, s: State, live: nat)
    requires RunTrace(step, stores, t, s, live).Some?
    ensures Run(step, s, Flatten(t)).Next?
    ensures Run(step, s, Flatten(t)).s == RunTrace(step, stores, t, s, live).value
    decreases t
  {
    match t
    case Done =>
    case Plain(e, rest) =>
      RunConcat(step, s, [e], Flatten(rest));
      RunOne(step, s, e);
      TraceIsRun(step, stores, rest, step(s, e).s, live);
    case Nested(o, body, c, rest) =>
      var s1 := step(s, o).s;
      var s2 := RunTrace(step, stores, body, s1, live + 2).value;
      TraceIsRun(step, stores, body, s1, live + 2);
      TraceIsRun(step, stores, rest, step(s2, c).s, live);
      RunOne(step, s, o);
      RunOne(step, s2, c);
      RunConcat(step, s, [o], Flatten(body));
      RunConcat(step, s, [o] + Flatten(body), [c]);
      RunConcat(step, s, [o] + Flatten(body) + [c], Flatten(rest));
  }

  // ---------- what a trace may change ----------

  /** The addresses plain steps of the trace write. */
  ghost function Touched(step: Stepper, stores: Touches, t: Trace, s: State, live: nat): set<word>
    requires RunTrace(step, stores, t, s, live).Some?
  {
    match t
    case Done => {}
    case Plain(e, rest) => stores(s, e) + Touched(step, stores, rest, step(s, e).s, live)
    case Nested(o, body, c, rest) =>
      var s1 := step(s, o).s;
      var s2 := RunTrace(step, stores, body, s1, live + 2).value;
      Touched(step, stores, body, s1, live + 2) + Touched(step, stores, rest, step(s2, c).s, live)
  }

  /** The `n` bytes just below the stack pointer. */
  predicate Below(x: word, sp: word, n: nat) {
    Above(x, sp) + n >= 0x10000
  }

  /** Outside what its plain steps write, a trace changes memory only within two bytes a nesting
      level below the stack pointer it starts from. */
  lemma {:induction false} ChangesOnlyBelow(step: Stepper, stores: Touches, t: Trace, s: State, live: nat, x: word)
    requires WritesOnly(step, stores)
    requires RunTrace(step, stores, t, s, live).Some? && live + 2 * Depth(t) <= 0x10000
    requires x !in Touched(step, stores, t, s, live) && !Below(x, s.cpu.sp, 2 * Depth(t))
    ensures RunTrace(step, stores, t, s, live).value.mem[x] == s.mem[x]
    decreases t
  {
    match t
    case Done =>
    case Plain(e, rest) =>
      var o := step(s, e);
      assert OnlyWrites(s.mem, o, stores(s, e));
      ChangesOnlyBelow(step, stores, rest, o.s, live, x);
    case Nested(opening, body, closing, rest) =>
      var o := step(s, opening);
      Balanced(step, stores, body, o.s, live + 2);
      var u := RunTrace(step, stores, body, o.s, live + 2).value;
      ChangesOnlyBelow(step, stores, body, o.s, live + 2, x);
      ChangesOnlyBelow(step, stores, rest, step(u, closing).s, live, x);
  }
}
