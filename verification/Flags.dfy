/** What arithmetic leaves in the accumulator and the flags, in terms of sums, differences and the lanes of the
    result byte. */
module Flags {
  import opened Types
  import opened Alu
  import opened Isa
  import opened Core

  // ---------- counting lanes ----------

  /** The lanes set among the lowest `n`. */
  ghost function LanesSet(n: nat, x: nat): set<nat> {
    set k: nat | k < n && Lane(x, k)
  }

  /** A set has as many members as one that holds the successors of all of them has at least. */
  lemma {:induction false} OneUp(a: set<nat>, b: set<nat>)
    requires forall k :: k in a ==> k + 1 in b
    ensures |a| <= |b|
    decreases |a|
  {
    if k :| k in a {
      OneUp(a - {k}, b - {k + 1});
    }
  }

  lemma {:induction false} OneDown(a: set<nat>, b: set<nat>)
    requires forall k :: k in a ==> k > 0 && k - 1 in b
    ensures |a| <= |b|
    decreases |a|
  {
    if k :| k in a {
      OneDown(a - {k}, b - {k - 1});
    }
  }

  /** The lanes above the lowest are the lanes of the half, one up. */
  lemma HalfLanesUp(n: nat, x: nat)
    requires n > 0
    ensures |LanesSet(n - 1, x / 2)| <= |LanesSet(n, x) - {0}|
  {
    var half, high := LanesSet(n - 1, x / 2), LanesSet(n, x) - {0};
    forall k | k in half
      ensures k + 1 in high
    {
      assert Lane(x, k + 1) == Lane(x / 2, k);
    }
    OneUp(half, high);
  }

  lemma HalfLanesDown(n: nat, x: nat)
    requires n > 0
    ensures |LanesSet(n, x) - {0}| <= |LanesSet(n - 1, x / 2)|
  {
    OneDown(LanesSet(n, x) - {0}, LanesSet(n - 1, x / 2));
  }

  lemma HalfLanes(n: nat, x: nat)
    requires n > 0
    ensures |LanesSet(n, x)| == x % 2 + |LanesSet(n - 1, x / 2)|
  {
    HalfLanesUp(n, x);
    HalfLanesDown(n, x);
    assert 0 in LanesSet(n, x) <==> x % 2 == 1;
  }

  /** The loop over halves counts the lanes that are set. */
  lemma {:induction false} OnesCountsLanes(n: nat, x: nat)
    requires x < Pow2(n)
    ensures Ones(x) == |LanesSet(n, x)|
  {
    if n > 0 {
      HalfLanes(n, x);
      OnesCountsLanes(n - 1, x / 2);
    }
  }

  /** The top lane. */
  lemma {:induction false} TopLane(n: nat, x: nat)
    requires x < Pow2(n + 1)
    ensures Lane(x, n) <==> x >= Pow2(n)
  {
    if n > 0 {
      TopLane(n - 1, x / 2);
    }
  }

  // ---------- the flags of a result ----------

  /** Zero, sign and parity of the byte `r`: no lane set, the top lane set, an even number of lanes set. */
  ghost predicate Describes(f: Status, r: byte) {
    && (f.z <==> LanesSet(8, r) == {})
    && (f.s <==> Lane(r, 7))
    && (f.p <==> |LanesSet(8, r)| % 2 == 0)
  }

  lemma NoLanes(r: byte)
    ensures LanesSet(8, r) == {} <==> r == 0
  {
    EightLanes();
    OnesCountsLanes(8, r);
    assert r > 0 ==> Ones(r) > 0 by {
      if r > 0 {
        SomeLane(r);
      }
    }
    assert |LanesSet(8, r)| == 0 <==> LanesSet(8, r) == {};
  }

  lemma {:induction false} SomeLane(x: nat)
    requires x > 0
    ensures Ones(x) > 0
  {
    if x % 2 == 0 {
      SomeLane(x / 2);
    }
  }

  lemma FlaggedDescribes(f: Status, r: byte, half: bool, carry: bool)
    ensures Describes(Flagged(f, r, half).(c := carry), r)
  {
    EightLanes();
    OnesCountsLanes(8, r);
    NoLanes(r);
    assert Pow2(7) == 0x80;
    TopLane(7, r);
  }

  /** Sum or difference, carry or borrow, and half carry of `u.a` and `v`; for the bitwise operations the lanes. */
  predicate Computed(op: AluOp, u: Cpu, v: byte, w: Cpu) {
    match op
    case Add => w.a + 0x100 * Bit(w.f.c) == u.a + v && (w.f.ac <==> u.a % 16 + v % 16 > 15)
    case Adc =>
      && w.a + 0x100 * Bit(w.f.c) == u.a + v + Bit(u.f.c)
      && (w.f.ac <==> u.a % 16 + v % 16 + Bit(u.f.c) > 15)
    case Sub => w.a - 0x100 * Bit(w.f.c) == u.a - v && (w.f.ac <==> u.a % 16 >= v % 16)
    case Sbb =>
      && w.a - 0x100 * Bit(w.f.c) == u.a - v - Bit(u.f.c)
      && (w.f.ac <==> u.a % 16 >= v % 16 + Bit(u.f.c))
    case Ana => IsAnd(8, w.a, u.a, v) && !w.f.c && (w.f.ac <==> Lane(u.a, 3) || Lane(v, 3))
    case Xra => IsXor(8, w.a, u.a, v) && !w.f.c && !w.f.ac
    case Ora => IsOr(8, w.a, u.a, v) && !w.f.c && !w.f.ac
    case Cmp => w.a == u.a && (w.f.c <==> u.a < v) && (w.f.ac <==> u.a % 16 >= v % 16)
  }

  /** Only accumulator and flags may differ, and of the flags not those that are no flags. */
  predicate OnlyFlags(f: Status, g: Status) {
    g == f.(z := g.z, s := g.s, p := g.p, ac := g.ac, c := g.c)
  }

  lemma SumComputes(u: Cpu, v: byte, carry: bool)
    ensures var r := Add8(u.a, v, carry, u.f);
            && r.value + 0x100 * Bit(r.f.c) == u.a + v + Bit(carry)
            && (r.f.ac <==> u.a % 16 + v % 16 + Bit(carry) > 15)
            && Describes(r.f, r.value) && OnlyFlags(u.f, r.f)
  {
    hide Describes;
    var r := Add8(u.a, v, carry, u.f);
    FlaggedDescribes(u.f, r.value, r.f.ac, r.f.c);
  }

  lemma DifferenceComputes(u: Cpu, v: byte, borrow: bool)
    ensures var r := Sub8(u.a, v, borrow, u.f);
            && r.value - 0x100 * Bit(r.f.c) == u.a - v - Bit(borrow)
            && (r.f.ac <==> u.a % 16 >= v % 16 + Bit(borrow))
            && r.value == (u.a - v - Bit(borrow)) % 0x100
            && Describes(r.f, r.value) && OnlyFlags(u.f, r.f)
  {
    hide Describes;
    var r := Sub8(u.a, v, borrow, u.f);
    FlaggedDescribes(u.f, r.value, r.f.ac, r.f.c);
  }

  lemma LaneThree(x: byte)
    ensures Lane(x, 3) <==> x / 8 % 2 == 1
  {
    assert Lane(x / 2, 2) <==> Lane(x / 2 / 2, 1);
  }

  /** An operation, what it computes, flags that describe the result byte (for CMP the difference it does not keep),
      and nothing else changed. */
  ghost predicate Explained(op: AluOp, u: Cpu, v: byte, w: Cpu) {
    && Computed(op, u, v, w)
    && Describes(w.f, if op == Cmp then (u.a - v) % 0x100 else w.a)
    && w == u.(a := w.a, f := w.f) && OnlyFlags(u.f, w.f)
  }

  lemma SumExplained(op: AluOp, u: Cpu, v: byte)
    requires op == Add || op == Adc
    ensures Explained(op, u, v, Arithmetic(op, u, v))
  {
    hide Describes, Add8, OnlyFlags;
    SumComputes(u, v, op == Adc && u.f.c);
  }

  lemma DifferenceExplained(op: AluOp, u: Cpu, v: byte)
    requires op == Sub || op == Sbb || op == Cmp
    ensures Explained(op, u, v, Arithmetic(op, u, v))
  {
    hide Describes, Sub8, OnlyFlags;
    DifferenceComputes(u, v, op == Sbb && u.f.c);
  }

  lemma LogicExplained(op: AluOp, u: Cpu, v: byte)
    requires op == Ana || op == Xra || op == Ora
    ensures Explained(op, u, v, Arithmetic(op, u, v))
  {
    hide Describes, Lane, IsAnd, IsOr, IsXor;
    var w := Arithmetic(op, u, v);
    LogicByLanes(u.a, v, u.f, w.a);
    LaneThree(u.a);
    LaneThree(v);
    FlaggedDescribes(u.f, w.a, w.f.ac, w.f.c);
  }

  /** The eight operations. */
  lemma ArithmeticComputes(op: AluOp, u: Cpu, v: byte)
    ensures Explained(op, u, v, Arithmetic(op, u, v))
  {
    hide Explained, Arithmetic;
    if op == Add || op == Adc {
      SumExplained(op, u, v);
    } else if op == Sub || op == Sbb || op == Cmp {
      DifferenceExplained(op, u, v);
    } else {
      LogicExplained(op, u, v);
    }
  }

  /** INR: the next byte modulo 256, its flags, the carry alone. */
  lemma IncrementComputes(a: byte, f: Status)
    ensures var r := Inc8(a, f);
            && r.value == (a + 1) % 0x100 && (r.f.ac <==> a % 16 == 15)
            && Describes(r.f, r.value) && OnlyFlags(f, r.f) && r.f.c == f.c
  {
    hide Describes;
    FlaggedDescribes(f, Inc8(a, f).value, a % 16 == 15, f.c);
  }

  lemma DecrementComputes(a: byte, f: Status)
    ensures var r := Dec8(a, f);
            && r.value == (a - 1) % 0x100 && (r.f.ac <==> a % 16 != 0)
            && Describes(r.f, r.value) && OnlyFlags(f, r.f) && r.f.c == f.c
  {
    hide Describes;
    FlaggedDescribes(f, Dec8(a, f).value, a % 16 != 0, f.c);
  }

  lemma Remainder(n: int, v: byte, q: int)
    requires n == v + 0x100 * q
    ensures n % 0x100 == v
  {
  }

  /** Correcting digit by digit is adding to the byte. */
  lemma AdjustSum(a: byte, f: Status)
    ensures var r := Daa8(a, f);
            && (r.f.c <==> f.c || a > 0x99) && (r.f.ac <==> a % 16 > 9)
            && r.value == (a + (if f.ac || a % 16 > 9 then 6 else 0) + (if r.f.c then 0x60 else 0)) % 0x100
  {
    hide Ones;
    var low := a % 16 + (if a % 16 > 9 || f.ac then 6 else 0);
    var high := a / 16 + Bit(low > 15);
    var r := Daa8(a, f);
    assert a == a / 16 * 16 + a % 16;
    assert r.f.c <==> high > 9 || f.c;
    var top := high + if r.f.c then 6 else 0;
    assert r.value == Digit(top) * 16 + Digit(low);
    Remainder(top * 16 + Digit(low), r.value, Bit(top > 15));
  }

  /** DAA on any accumulator and flags: 6 is added if the low digit is no digit or carried, 0x60 if the byte
      passes 0x99 or carried, and the flags describe the byte. */
  lemma AdjustComputes(a: byte, f: Status)
    ensures var r := Daa8(a, f);
            && (r.f.c <==> f.c || a > 0x99) && (r.f.ac <==> a % 16 > 9)
            && r.value == (a + (if f.ac || a % 16 > 9 then 6 else 0) + (if r.f.c then 0x60 else 0)) % 0x100
            && Describes(r.f, r.value)
            && OnlyFlags(f, r.f)
  {
    hide Describes;
    var r := Daa8(a, f);
    AdjustSum(a, f);
    assert r.f == Flagged(f, r.value, r.f.ac).(c := r.f.c);
    FlaggedDescribes(f, r.value, r.f.ac, r.f.c);
  }

  // ---------- flags and jumps ----------

  const JUMPS: set<byte> := {0xC2, 0xCA, 0xD2, 0xDA, 0xE2, 0xEA, 0xF2, 0xFA}

  /** Whether the conditional jump is taken after ORA A, by the lanes of the accumulator. */
  ghost predicate TakenAfterOra(jump: byte, a: byte) {
    match jump
    case 0xC2 => LanesSet(8, a) != {}
    case 0xCA => LanesSet(8, a) == {}
    case 0xD2 => true
    case 0xDA => false
    case 0xE2 => |LanesSet(8, a)| % 2 == 1
    case 0xEA => |LanesSet(8, a)| % 2 == 0
    case 0xF2 => !Lane(a, 7)
    case _ => Lane(a, 7)
  }

  /** ORA A keeps the accumulator, and its flags describe it. */
  lemma OraKeeps(u: Cpu)
    ensures var w := Arithmetic(Ora, u, u.a); w == u.(f := w.f) && Describes(w.f, u.a) && !w.f.c
  {
    hide Describes;
    ArithmeticComputes(Ora, u, u.a);
    assert IsOr(8, u.a, u.a, u.a);
    LogicByLanes(u.a, u.a, u.f, u.a);
  }

  /** The conditional jump with this opcode, after flags that describe `a`. */
  lemma JumpsOn(jump: byte, f: Status, a: byte) returns (c: Condition)
    requires jump in JUMPS && Describes(f, a) && !f.c
    ensures Decode(jump) == Jmp(c)
    ensures Holds(f, c) <==> TakenAfterOra(jump, a)
  {
    hide LanesSet, Lane;
    c := Decode(jump).cond;
  }

  lemma OraStep(s: State, e: Env)
    requires !Accepts(s, e) && s.mem[s.cpu.pc] == 0xB7
    ensures Step(s, e) == Through(1, Arithmetic(Ora, s.cpu, s.cpu.a), s.mem, 4)
  {
    hide Arithmetic;
  }

  lemma JumpStep(s: State, e: Env, c: Condition)
    requires !Accepts(s, e) && Decode(s.mem[s.cpu.pc]) == Jmp(c)
    ensures Step(s, e) == if Holds(s.cpu.f, c) then Jump(s, Direct(s), 10) else Through(3, s.cpu, s.mem, 10)
  {
    hide Decode;
  }

  lemma TwoSteps(step: Stepper, s: State, e: Env, t: State, d: Env)
    requires step(s, e) == Next(t, 4, []) && step(t, d).Next? && step(t, d).ticks == 10 && step(t, d).io == []
    ensures Run(step, s, [e, d]) == Next(step(t, d).s, 14, [])
  {
    RunConcat(step, s, [e], [d]);
    RunOne(step, s, e);
    RunOne(step, t, d);
    assert [e] + [d] == [e, d];
  }

  /** ORA A and a conditional jump: the jump is taken exactly as the lanes of the accumulator say, to the address in
      the two code bytes after its opcode, low byte first. */
  lemma OraThenJump(s: State, e: Env, d: Env)
    requires !Accepts(s, e) && (d.irq.Some? ==> !s.cpu.iff)
    requires s.mem[s.cpu.pc] == 0xB7 && s.mem[Plus(s.cpu.pc, 1)] in JUMPS
    ensures var o := Run(Step, s, [e, d]);
            && o.Next? && o.s.mem == s.mem && o.s.cpu.a == s.cpu.a && o.ticks == 14
            && o.s.cpu.pc == if TakenAfterOra(s.mem[Plus(s.cpu.pc, 1)], s.cpu.a)
                             then s.mem[Plus(s.cpu.pc, 3)] * 0x100 + s.mem[Plus(s.cpu.pc, 2)]
                             else Plus(s.cpu.pc, 4)
  {
    hide Step, Run, LanesSet, Describes, TakenAfterOra, Arithmetic, Decode, Holds;
    OraStep(s, e);
    OraKeeps(s.cpu);
    var t := State(Skip(Arithmetic(Ora, s.cpu, s.cpu.a), 1), s.mem);
    var c := JumpsOn(s.mem[Plus(s.cpu.pc, 1)], t.cpu.f, t.cpu.a);
    JumpStep(t, d, c);
    TwoSteps(Step, s, e, t, d);
  }
}
