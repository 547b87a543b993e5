/** The manual's decimal addition loop, run instruction by instruction on the machine:

      LOOP: LDAX D ; ADC M ; DAA ; MOV M,A ; INX D ; INX H ; DCR C ; JNZ LOOP

    For every length and every placement of code and operands it leaves the packed decimal
    sum at HL and the decimal overflow in the carry. */
module DecimalProgram {
  import opened Types
  import opened Alu
  import opened Isa
  import opened Snapshot
  import opened Core
  import opened Multibyte

  const LENGTH := 10

  /** The loop is in memory at `p`. */
  predicate Installed(m: Mem, p: word) {
    && m[p] == 0x1A
    && m[Plus(p, 1)] == 0x8E
    && m[Plus(p, 2)] == 0x27
    && m[Plus(p, 3)] == 0x77
    && m[Plus(p, 4)] == 0x13
    && m[Plus(p, 5)] == 0x23
    && m[Plus(p, 6)] == 0x0D
    && m[Plus(p, 7)] == 0xC2
    && Word(m[Plus(p, 9)], m[Plus(p, 8)]) == p
  }

  lemma SumOpcodes()
    ensures Decode(0x1A) == Ldax(DE) && Decode(0x8E) == Arith(Adc, M)
    ensures Decode(0x27) == Daa && Decode(0x77) == MovToMemory(A)
  {
  }

  lemma CountOpcodes()
    ensures Decode(0x13) == Inx(DE) && Decode(0x23) == Inx(HL)
    ensures Decode(0x0D) == Dcr(R(C)) && Decode(0xC2) == Jmp(If(Zero, false))
  {
  }

  predicate Undisturbed(es: seq<Env>) {
    forall k :: 0 <= k < |es| ==> es[k].irq.None?
  }

  // ---------- one instruction ----------

  /** What the eight opcodes of the loop do. The loop is proved for any stepper with these effects. */
  function Effect(s: State): Outcome {
    match s.mem[s.cpu.pc]
    case 0x1A => ExecLdax(s, DE)
    case 0x8E => ExecArith(s, Adc, M)
    case 0x27 => ExecDaa(s)
    case 0x77 => ExecMovToMemory(s, A)
    case 0x13 => ExecCount(s, DE, 1)
    case 0x23 => ExecCount(s, HL, 1)
    case 0x0D => ExecDcr(s, R(C))
    case 0xC2 => ExecJmp(s, If(Zero, false))
    case _ => Trap
  }

  predicate Sums(op: byte) {
    op == 0x1A || op == 0x8E || op == 0x27 || op == 0x77
  }

  predicate Counts(op: byte) {
    op == 0x13 || op == 0x23 || op == 0x0D || op == 0xC2
  }

  predicate InLoop(s: State) {
    var op := s.mem[s.cpu.pc];
    Sums(op) || Counts(op)
  }

  ghost predicate Obeys(step: Stepper) {
    forall s: State, e: Env :: e.irq.None? && InLoop(s) ==> step(s, e) == Effect(s)
  }

  lemma ExecSums(s: State, input: word -> byte)
    requires Sums(s.mem[s.cpu.pc])
    ensures Exec(Fetched(s), s, input) == Effect(s)
  {
    hide Decode;
    SumOpcodes();
  }

  lemma ExecCounts(s: State, input: word -> byte)
    requires Counts(s.mem[s.cpu.pc])
    ensures Exec(Fetched(s), s, input) == Effect(s)
  {
    hide Decode;
    CountOpcodes();
  }

  lemma MachineObeys()
    ensures Obeys(Step)
  {
    hide Exec, Effect, Fetched;
    forall s: State, e: Env | e.irq.None? && InLoop(s)
      ensures Step(s, e) == Effect(s)
    {
      if Sums(s.mem[s.cpu.pc]) {
        ExecSums(s, e.input);
      } else {
        ExecCounts(s, e.input);
      }
    }
  }

  // ---------- one iteration ----------

  predicate Reaches(step: Stepper, s: State, es: seq<Env>, t: State, ticks: nat) {
    Run(step, s, es) == Next(t, ticks, [])
  }

  lemma Extend(step: Stepper, s: State, es: seq<Env>, k: nat, t: State, ticks: nat, u: State, more: nat)
    requires k < |es| && Reaches(step, s, es[..k], t, ticks)
    requires step(t, es[k]) == Next(u, more, [])
    ensures Reaches(step, s, es[..k + 1], u, ticks + more)
  {
    assert es[..k + 1] == es[..k] + [es[k]];
    RunConcat(step, s, es[..k], [es[k]]);
    RunOne(step, t, es[k]);
  }

  /** The sum byte the first four instructions form and store. */
  function ByteSum(s: State): Result {
    AddDecimal(s.mem[PairValue(s.cpu, DE)], s.mem[PairValue(s.cpu, HL)], s.cpu.f)
  }

  function Summed(s: State): State {
    var r := ByteSum(s);
    State(s.cpu.(a := r.value, f := r.f, pc := Plus(s.cpu.pc, 4)), s.mem[PairValue(s.cpu, HL) := r.value])
  }

  /** After the first two. */
  function Added(s: State): State {
    ExecArith(ExecLdax(s, DE).s, Adc, M).s
  }

  lemma AddRun(step: Stepper, s: State, es: seq<Env>)
    requires Obeys(step) && Undisturbed(es) && |es| == 8 && Installed(s.mem, s.cpu.pc)
    ensures Reaches(step, s, es[..2], Added(s), 14)
  {
    var s1 := ExecLdax(s, DE).s;
    assert es[..0] == [];
    assert Reaches(step, s, es[..0], s, 0);
    Extend(step, s, es, 0, s, 0, s1, 7);
    assert s1.cpu.pc == Plus(s.cpu.pc, 1);
    Extend(step, s, es, 1, s1, 7, Added(s), 7);
  }

  lemma AdjustRun(step: Stepper, s0: State, s: State, p: word, es: seq<Env>)
    requires Obeys(step) && Undisturbed(es) && |es| == 8 && Installed(s.mem, p) && s.cpu.pc == Plus(p, 2)
    requires Reaches(step, s0, es[..2], s, 14)
    ensures Reaches(step, s0, es[..4], ExecMovToMemory(ExecDaa(s).s, A).s, 25)
  {
    var s1 := ExecDaa(s).s;
    Extend(step, s0, es, 2, s, 14, s1, 4);
    assert s1.cpu.pc == Plus(p, 3);
    Extend(step, s0, es, 3, s1, 18, ExecMovToMemory(s1, A).s, 7);
  }

  lemma SumRun(step: Stepper, s: State, es: seq<Env>)
    requires Obeys(step) && Undisturbed(es) && |es| == 8 && Installed(s.mem, s.cpu.pc)
    ensures Reaches(step, s, es[..4], Summed(s), 25)
  {
    AddRun(step, s, es);
    AdjustRun(step, s, Added(s), s.cpu.pc, es);
    assert ExecMovToMemory(ExecDaa(Added(s)).s, A).s == Summed(s);
  }

  /** The last four instructions: advance both pointers, count down, and loop unless the count is spent. */
  function Counted(s: State, p: word): State {
    var n := Dec8(s.cpu.c, s.cpu.f);
    var u := SetPair(SetPair(s.cpu, DE, Plus(PairValue(s.cpu, DE), 1)), HL, Plus(PairValue(s.cpu, HL), 1));
    State(u.(c := n.value, f := n.f, pc := if n.value == 0 then Plus(p, LENGTH) else p), s.mem)
  }

  /** Both pointers one on. */
  function Pointed(s: State): State {
    ExecCount(ExecCount(s, DE, 1).s, HL, 1).s
  }

  lemma PointRun(step: Stepper, s0: State, s: State, p: word, es: seq<Env>)
    requires Obeys(step) && Undisturbed(es) && |es| == 8 && Installed(s.mem, p) && s.cpu.pc == Plus(p, 4)
    requires Reaches(step, s0, es[..4], s, 25)
    ensures Reaches(step, s0, es[..6], Pointed(s), 35)
  {
    var s1 := ExecCount(s, DE, 1).s;
    Extend(step, s0, es, 4, s, 25, s1, 5);
    assert s1.cpu.pc == Plus(p, 5);
    Extend(step, s0, es, 5, s1, 30, Pointed(s), 5);
  }

  lemma DecrementRun(step: Stepper, s0: State, s: State, p: word, es: seq<Env>)
    requires Obeys(step) && Undisturbed(es) && |es| == 8 && Installed(s.mem, p) && s.cpu.pc == Plus(p, 6)
    requires Reaches(step, s0, es[..6], s, 35)
    ensures Reaches(step, s0, es[..8], ExecJmp(ExecDcr(s, R(C)).s, If(Zero, false)).s, 50)
  {
    var s1 := ExecDcr(s, R(C)).s;
    Extend(step, s0, es, 6, s, 35, s1, 5);
    assert s1.cpu.pc == Plus(p, 7);
    Extend(step, s0, es, 7, s1, 40, ExecJmp(s1, If(Zero, false)).s, 10);
  }

  lemma CountRun(step: Stepper, s: State, p: word, s0: State, es: seq<Env>)
    requires Obeys(step) && Undisturbed(es) && |es| == 8 && Installed(s.mem, p) && s.cpu.pc == Plus(p, 4)
    requires Reaches(step, s0, es[..4], s, 25)
    ensures Reaches(step, s0, es[..8], Counted(s, p), 50)
  {
    PointRun(step, s0, s, p, es);
    DecrementRun(step, s0, Pointed(s), p, es);
    assert ExecJmp(ExecDcr(Pointed(s), R(C)).s, If(Zero, false)).s == Counted(s, p);
  }

  /** The sum is stored clear of the code, and no addend byte is overwritten before it is read. */
  predicate Apart(p: word, de: word, hl: word, n: nat)
    requires n <= 256
  {
    && (forall i, k :: 0 <= i < n && 0 <= k < LENGTH ==> Plus(hl, i) != Plus(p, k))
    && (forall i, j :: 0 <= j < i < n ==> Plus(hl, j) != Plus(de, i))
  }

  lemma ApartNext(p: word, de: word, hl: word, n: nat)
    requires 0 < n <= 256 && Apart(p, de, hl, n)
    ensures Apart(p, Plus(de, 1), Plus(hl, 1), n - 1)
  {
    forall i, k | 0 <= i < n - 1 && 0 <= k < LENGTH
      ensures Plus(Plus(hl, 1), i) != Plus(p, k)
    {
      assert Plus(Plus(hl, 1), i) == Plus(hl, i + 1);
    }
    forall i, j | 0 <= j < i < n - 1
      ensures Plus(Plus(hl, 1), j) != Plus(Plus(de, 1), i)
    {
      assert Plus(Plus(hl, 1), j) == Plus(hl, j + 1) && Plus(Plus(de, 1), i) == Plus(de, i + 1);
    }
  }

  lemma StillInstalled(m: Mem, p: word, de: word, hl: word, n: nat, v: byte)
    requires 0 < n <= 256 && Apart(p, de, hl, n) && Installed(m, p)
    ensures Installed(m[hl := v], p)
  {
    assert Plus(hl, 0) == hl;
    assert Plus(p, 0) == p;
    assert forall k :: 0 <= k < LENGTH ==> Plus(p, k) != hl;
  }

  /** At the loop head with `n` bytes to go, the code in place and the operands clear of it. */
  predicate Ready(s: State, p: word, n: nat) {
    && 0 < n <= 256
    && s.cpu.pc == p && s.cpu.c == (if n == 0x100 then 0 else n)
    && Installed(s.mem, p)
    && Apart(p, PairValue(s.cpu, DE), PairValue(s.cpu, HL), n)
  }

  /** One pass over the loop, as a run of eight steps. */
  lemma Iterate(step: Stepper, s: State, p: word, es: seq<Env>, n: nat) returns (t: State)
    requires Obeys(step) && Undisturbed(es) && |es| == 8 && Ready(s, p, n)
    ensures Reaches(step, s, es, t, 50)
    ensures PairValue(t.cpu, DE) == Plus(PairValue(s.cpu, DE), 1)
    ensures PairValue(t.cpu, HL) == Plus(PairValue(s.cpu, HL), 1)
    ensures t.mem == s.mem[PairValue(s.cpu, HL) := ByteSum(s).value]
    ensures t.cpu.f.c == ByteSum(s).f.c
    ensures t.cpu.c == n - 1 && t.cpu.pc == if n == 1 then Plus(p, LENGTH) else p
  {
    var u := Summed(s);
    StillInstalled(s.mem, p, PairValue(s.cpu, DE), PairValue(s.cpu, HL), n, ByteSum(s).value);
    SumRun(step, s, es);
    CountRun(step, u, p, s, es);
    assert es[..8] == es;
    t := Counted(u, p);
  }

  lemma ReadyNext(s: State, p: word, n: nat, t: State, v: byte)
    requires Ready(s, p, n) && n > 1 && t.cpu.pc == p && t.cpu.c == n - 1
    requires PairValue(t.cpu, DE) == Plus(PairValue(s.cpu, DE), 1)
    requires PairValue(t.cpu, HL) == Plus(PairValue(s.cpu, HL), 1)
    requires t.mem == s.mem[PairValue(s.cpu, HL) := v]
    ensures Ready(t, p, n - 1)
  {
    StillInstalled(s.mem, p, PairValue(s.cpu, DE), PairValue(s.cpu, HL), n, v);
    ApartNext(p, PairValue(s.cpu, DE), PairValue(s.cpu, HL), n);
  }

  // ---------- what the loop leaves ----------

  /** The `n` bytes from `base` on. */
  function Bytes(m: Mem, base: word, n: nat): (b: seq<byte>)
    ensures |b| == n
  {
    Gather(m, Span(base, n))
  }

  function Stored(m: Mem, base: word, b: seq<byte>): Mem {
    Scatter(m, Span(base, |b|), b)
  }

  lemma BytesSplit(m: Mem, base: word, n: nat)
    requires n > 0
    ensures Bytes(m, base, n) == [m[base]] + Bytes(m, Plus(base, 1), n - 1)
  {
    assert Span(base, n)[1..] == Span(Plus(base, 1), n - 1);
  }

  lemma StoredSplit(m: Mem, base: word, b: seq<byte>)
    requires b != []
    ensures Stored(m, base, b) == Stored(m[base := b[0]], Plus(base, 1), b[1..])
  {
    assert Span(base, |b|)[1..] == Span(Plus(base, 1), |b| - 1);
  }

  lemma {:induction false} BytesUnaffected(m: Mem, x: word, v: byte, base: word, n: nat)
    requires n <= 256 && forall i :: 0 <= i < n ==> Plus(base, i) != x
    ensures Bytes(m[x := v], base, n) == Bytes(m, base, n)
    decreases n
  {
    if n > 0 {
      assert Plus(base, 0) == base;
      forall i | 0 <= i < n - 1 ensures Plus(Plus(base, 1), i) != x {
        assert Plus(Plus(base, 1), i) == Plus(base, i + 1);
      }
      BytesUnaffected(m, x, v, Plus(base, 1), n - 1);
      BytesSplit(m, base, n);
      BytesSplit(m[x := v], base, n);
    }
  }

  lemma {:induction false} StoredElsewhere(m: Mem, base: word, b: seq<byte>, x: word)
    requires |b| <= 256 && forall i :: 0 <= i < |b| ==> Plus(base, i) != x
    ensures Stored(m, base, b)[x] == m[x]
    decreases |b|
  {
    if b != [] {
      assert Plus(base, 0) == base;
      forall i | 0 <= i < |b| - 1 ensures Plus(Plus(base, 1), i) != x {
        assert Plus(Plus(base, 1), i) == Plus(base, i + 1);
      }
      StoredElsewhere(m[base := b[0]], Plus(base, 1), b[1..], x);
      StoredSplit(m, base, b);
    }
  }

  lemma {:induction false} StoredBytes(m: Mem, base: word, b: seq<byte>)
    requires |b| <= 256
    ensures Bytes(Stored(m, base, b), base, |b|) == b
    decreases |b|
  {
    if b != [] {
      var m' := m[base := b[0]];
      forall i | 0 <= i < |b| - 1 ensures Plus(Plus(base, 1), i) != base {
        assert Plus(Plus(base, 1), i) == Plus(base, i + 1);
      }
      StoredElsewhere(m', Plus(base, 1), b[1..], base);
      StoredBytes(m', Plus(base, 1), b[1..]);
      StoredSplit(m, base, b);
      BytesSplit(Stored(m, base, b), base, |b|);
    }
  }

  lemma AddDecimalCarryOnly(a: byte, b: byte, f: Status, g: Status)
    requires f.c == g.c
    ensures AddDecimal(a, b, f).value == AddDecimal(a, b, g).value
    ensures AddDecimal(a, b, f).f.c == AddDecimal(a, b, g).f.c
  {
  }

  lemma {:induction false} AddDecimalsCarryOnly(x: seq<byte>, y: seq<byte>, f: Status, g: Status)
    requires |x| == |y| && f.c == g.c
    ensures AddDecimals(x, y, f).bytes == AddDecimals(x, y, g).bytes
    ensures AddDecimals(x, y, f).f.c == AddDecimals(x, y, g).f.c
  {
    if x != [] {
      AddDecimalCarryOnly(x[0], y[0], f, g);
      AddDecimalsCarryOnly(x[1..], y[1..], AddDecimal(x[0], y[0], f).f, AddDecimal(x[0], y[0], g).f);
    }
  }

  lemma ReachesThen(step: Stepper, s: State, es: seq<Env>, u: State, k: nat, fs: seq<Env>, t: State, more: nat)
    requires Reaches(step, s, es, u, k) && Reaches(step, u, fs, t, more)
    ensures Reaches(step, s, es + fs, t, k + more)
  {
    RunConcat(step, s, es, fs);
  }

  /** Memory `m'` and carry `c` are what adding the numbers at `de` and `hl` leaves of `m`. */
  predicate Leaves(m: Mem, de: word, hl: word, n: nat, f: Status, m': Mem, c: bool) {
    var r := AddDecimals(Bytes(m, de, n), Bytes(m, hl, n), f);
    m' == Stored(m, hl, r.bytes) && c == r.f.c
  }

  /** The whole loop, as a run of eight steps a byte. */
  lemma {:induction false} LoopRun(step: Stepper, s: State, p: word, es: seq<Env>, n: nat) returns (t: State)
    requires Obeys(step) && Undisturbed(es) && |es| == 8 * n && Ready(s, p, n)
    ensures Reaches(step, s, es, t, 50 * n)
    ensures t.cpu.pc == Plus(p, LENGTH)
    ensures Leaves(s.mem, PairValue(s.cpu, DE), PairValue(s.cpu, HL), n, s.cpu.f, t.mem, t.cpu.f.c)
    decreases n
  {
    var first, rest := es[..8], es[8..];
    assert es == first + rest;
    var u := Iterate(step, s, p, first, n);
    if n == 1 {
      assert es == first;
      OneByteSum(s.mem, PairValue(s.cpu, DE), PairValue(s.cpu, HL), s.cpu.f);
      t := u;
    } else {
      ReadyNext(s, p, n, u, ByteSum(s).value);
      t := LoopRun(step, u, p, rest, n - 1);
      LoopJoins(step, s, p, first, rest, n, u, t);
    }
  }

  /** A pass over the loop and the passes after it. */
  lemma LoopJoins(step: Stepper, s: State, p: word, first: seq<Env>, rest: seq<Env>, n: nat, u: State, t: State)
    requires n > 1 && Ready(s, p, n)
    requires Reaches(step, s, first, u, 50) && Reaches(step, u, rest, t, 50 * (n - 1))
    requires PairValue(u.cpu, DE) == Plus(PairValue(s.cpu, DE), 1)
    requires PairValue(u.cpu, HL) == Plus(PairValue(s.cpu, HL), 1)
    requires u.mem == s.mem[PairValue(s.cpu, HL) := ByteSum(s).value] && u.cpu.f.c == ByteSum(s).f.c
    requires Leaves(u.mem, PairValue(u.cpu, DE), PairValue(u.cpu, HL), n - 1, u.cpu.f, t.mem, t.cpu.f.c)
    ensures Reaches(step, s, first + rest, t, 50 * n)
    ensures Leaves(s.mem, PairValue(s.cpu, DE), PairValue(s.cpu, HL), n, s.cpu.f, t.mem, t.cpu.f.c)
  {
    ReachesThen(step, s, first, u, 50, rest, t, 50 * (n - 1));
    RestOfSum(s.mem, PairValue(s.cpu, DE), PairValue(s.cpu, HL), n, s.cpu.f, u.cpu.f, p, t.mem, t.cpu.f.c);
  }

  lemma OneByteSum(m: Mem, de: word, hl: word, f: Status)
    ensures var first := AddDecimal(m[de], m[hl], f);
            Leaves(m, de, hl, 1, f, m[hl := first.value], first.f.c)
  {
    var first := AddDecimal(m[de], m[hl], f);
    BytesSplit(m, de, 1);
    BytesSplit(m, hl, 1);
    StoredSplit(m, hl, [first.value]);
    assert Bytes(m, de, 1) == [m[de]] && Bytes(m, hl, 1) == [m[hl]];
    assert [m[de]][1..] == [] && [m[hl]][1..] == [];
    assert AddDecimals([m[de]], [m[hl]], f) == Chained([first.value] + [], first.f);
    assert [first.value][1..] == [];
    assert Stored(m, hl, [first.value]) == Stored(m[hl := first.value], Plus(hl, 1), []);
  }

  /** Storing the first byte of the sum does not disturb the bytes still to be added. */
  lemma RestOfSum(m: Mem, de: word, hl: word, n: nat, f: Status, g: Status, p: word, m': Mem, c: bool)
    requires 1 < n <= 256 && Apart(p, de, hl, n)
    requires g.c == AddDecimal(m[de], m[hl], f).f.c
    requires Leaves(m[hl := AddDecimal(m[de], m[hl], f).value], Plus(de, 1), Plus(hl, 1), n - 1, g, m', c)
    ensures Leaves(m, de, hl, n, f, m', c)
  {
    var first := AddDecimal(m[de], m[hl], f);
    var x, y := Bytes(m, Plus(de, 1), n - 1), Bytes(m, Plus(hl, 1), n - 1);
    assert Plus(hl, 0) == hl;
    forall i | 0 <= i < n - 1
      ensures Plus(Plus(de, 1), i) != hl && Plus(Plus(hl, 1), i) != hl
    {
      assert Plus(Plus(de, 1), i) == Plus(de, i + 1) && Plus(Plus(hl, 1), i) == Plus(hl, i + 1);
    }
    BytesUnaffected(m, hl, first.value, Plus(de, 1), n - 1);
    BytesUnaffected(m, hl, first.value, Plus(hl, 1), n - 1);
    AddDecimalsCarryOnly(x, y, first.f, g);
    SplitChain(m[de], x, m[hl], y, f);
    BytesSplit(m, de, n);
    BytesSplit(m, hl, n);
    var rest := AddDecimals(x, y, first.f).bytes;
    assert ([first.value] + rest)[1..] == rest;
    StoredSplit(m, hl, [first.value] + rest);
  }

  lemma SplitChain(a: byte, x: seq<byte>, b: byte, y: seq<byte>, f: Status)
    requires |x| == |y|
    ensures var first := AddDecimal(a, b, f);
            var rest := AddDecimals(x, y, first.f);
            AddDecimals([a] + x, [b] + y, f) == Chained([first.value] + rest.bytes, rest.f)
  {
    assert ([a] + x)[1..] == x && ([b] + y)[1..] == y;
  }

  /** The packed number at `hl` in `m'` and the carry `c` are the sum of the packed numbers at `de` and
      `hl` in `m` and the carry in: the sum modulo 100^n, the overflow, and no byte outside the result touched. */
  ghost predicate IsDecimalSum(m: Mem, de: word, hl: word, n: nat, carry: bool, m': Mem, c: bool)
    requires n <= 256
  {
    var sum := Bytes(m', hl, n);
    && AllPacked(sum)
    && Decimal(sum) < Power(100, n)
    && Decimal(sum) + (if c then Power(100, n) else 0)
       == Decimal(Bytes(m, de, n)) + Decimal(Bytes(m, hl, n)) + Bit(carry)
    && forall x: word :: (forall i :: 0 <= i < n ==> Plus(hl, i) != x) ==> m'[x] == m[x]
  }

  lemma LeavesDecimalSum(m: Mem, de: word, hl: word, n: nat, f: Status, m': Mem, c: bool)
    requires n <= 256 && Leaves(m, de, hl, n, f, m', c)
    requires AllPacked(Bytes(m, de, n)) && AllPacked(Bytes(m, hl, n))
    ensures IsDecimalSum(m, de, hl, n, f.c, m', c)
  {
    var x, y := Bytes(m, de, n), Bytes(m, hl, n);
    AddDecimalsIsSum(x, y, f);
    var r := AddDecimals(x, y, f).bytes;
    StoredBytes(m, hl, r);
    forall a: word | forall i :: 0 <= i < n ==> Plus(hl, i) != a
      ensures m'[a] == m[a]
    {
      StoredElsewhere(m, hl, r, a);
    }
  }

  /** The program theorem. Counter C holds the number of bytes (0 meaning 256); DE and HL point at
      two packed decimal numbers, least significant byte first. Eight steps and fifty ticks a byte
      later control is just past the loop and the decimal sum stands at HL. */
  lemma DecimalAddition(s: State, es: seq<Env>, n: nat)
    requires Ready(s, s.cpu.pc, n)
    requires Undisturbed(es) && |es| == 8 * n
    requires AllPacked(Bytes(s.mem, PairValue(s.cpu, DE), n)) && AllPacked(Bytes(s.mem, PairValue(s.cpu, HL), n))
    ensures var o := Run(Step, s, es);
            && o.Next? && o.ticks == 50 * n && o.io == []
            && o.s.cpu.pc == Plus(s.cpu.pc, LENGTH)
            && IsDecimalSum(s.mem, PairValue(s.cpu, DE), PairValue(s.cpu, HL), n, s.cpu.f.c, o.s.mem, o.s.cpu.f.c)
  {
    hide Step;
    MachineObeys();
    var t := LoopRun(Step, s, s.cpu.pc, es, n);
    LeavesDecimalSum(s.mem, PairValue(s.cpu, DE), PairValue(s.cpu, HL), n, s.cpu.f, t.mem, t.cpu.f.c);
  }
}
