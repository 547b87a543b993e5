/** Laws between instructions: what a composite instruction does is what simpler ones do together. */
module Laws {
  import opened Types
  import opened Alu
  import opened Isa
  import opened Core
  import opened Flags

  /** Which registers make a pair, high one first. */
  lemma PairsAreRegisters(u: Cpu)
    ensures PairValue(u, BC) == Reg(u, B) * 0x100 + Reg(u, C)
    ensures PairValue(u, DE) == Reg(u, D) * 0x100 + Reg(u, E)
    ensures PairValue(u, HL) == Reg(u, H) * 0x100 + Reg(u, L)
  {
  }

  lemma WordIsHalves(w: word)
    ensures Word(Hi(w), Lo(w)) == w
  {
  }

  /** LXI is two MVIs, the low byte first in the code. */
  lemma LoadByHalves(s: State)
    ensures var low: int, high: int := s.mem[Plus(s.cpu.pc, 1)], s.mem[Plus(s.cpu.pc, 2)];
            && ExecLxi(s, BC).s.cpu == SetReg(SetReg(Skip(s.cpu, 3), B, high), C, low)
            && ExecLxi(s, DE).s.cpu == SetReg(SetReg(Skip(s.cpu, 3), D, high), E, low)
            && ExecLxi(s, HL).s.cpu == SetReg(SetReg(Skip(s.cpu, 3), H, high), L, low)
            && ExecLxi(s, SP).s.cpu == Skip(s.cpu, 3).(sp := high * 0x100 + low)
  {
  }

  /** MVI loads the byte that LXI would load as the low one. */
  lemma LoadImmediates(s: State, r: Register)
    ensures ExecMvi(s, R(r)).s.cpu == SetReg(Skip(s.cpu, 2), r, ExecLxi(s, BC).s.cpu.c)
    ensures ExecMvi(s, M).s.mem == ExecMovToMemory(ExecMvi(s, R(B)).s, B).s.mem
  {
  }

  /** STAX and LDAX are MOV M,A and MOV A,M with the pair in HL; STA and LDA the same with the direct address there. */
  lemma TransfersThroughHL(s: State, p: RegisterPair)
    ensures var t := s.(cpu := SetPair(s.cpu, HL, PairValue(s.cpu, p)));
            && ExecStax(s, p).s.mem == ExecMovToMemory(t, A).s.mem
            && ExecLdax(s, p).s.cpu == SetReg(Skip(s.cpu, 1), A, ExecMovFromMemory(t, A).s.cpu.a)
    ensures var t := ExecLxi(s, HL).s;
            && ExecSta(s).s.mem == ExecMovToMemory(t, A).s.mem
            && ExecLda(s).s.cpu == SetReg(Skip(s.cpu, 3), A, ExecMovFromMemory(t, A).s.cpu.a)
  {
    hide Hi, Lo, Word;
    WordIsHalves(PairValue(s.cpu, p));
    WordIsHalves(Direct(s));
  }

  /** SPHL and PCHL take the address in HL. */
  lemma TakesHL(s: State)
    ensures ExecSphl(s).s.cpu == Skip(s.cpu, 1).(sp := s.cpu.h * 0x100 + s.cpu.l)
    ensures ExecPchl(s).s.cpu == s.cpu.(pc := s.cpu.h * 0x100 + s.cpu.l)
  {
  }

  /** OUT writes the accumulator to the port in the code, and IN of the same port from a device that gives back what was
      written leaves the accumulator as it was. */
  lemma PortEcho(s: State, port: byte, input: word -> byte)
    requires s.mem[Plus(s.cpu.pc, 1)] == port == s.mem[Plus(s.cpu.pc, 3)] && input(port) == s.cpu.a
    ensures var o := ExecOut(s);
            var i := ExecIn(o.s, input);
            && o.io == [Output(port, s.cpu.a)] && i.io == [Input(port, s.cpu.a)]
            && i.s == State(Skip(Skip(s.cpu, 2), 2), s.mem)
  {
  }

  lemma PushesBytes(s: State, high: byte, low: byte)
    ensures var t := PushBytes(s, high, low);
            t.cpu.sp == Plus(s.cpu.sp, -2) && t.mem[t.cpu.sp] == low && t.mem[Plus(t.cpu.sp, 1)] == high
  {
  }

  lemma WordParts(high: byte, low: byte)
    ensures Hi(Word(high, low)) == high && Lo(Word(high, low)) == low
  {
  }

  /** PUSH leaves the low register at the new stack pointer and the high one above it; for PSW these are the status
      lanes and the accumulator. */
  lemma PushLays(s: State, p: StackPair)
    requires p != Pair(SP)
    ensures var t := ExecPush(s, p).s;
            var at, above := t.mem[t.cpu.sp], t.mem[Plus(t.cpu.sp, 1)];
            && t.cpu.sp == Plus(s.cpu.sp, -2)
            && match p
               case Pair(BC) => at == Reg(s.cpu, C) && above == Reg(s.cpu, B)
               case Pair(DE) => at == Reg(s.cpu, E) && above == Reg(s.cpu, D)
               case Pair(HL) => at == Reg(s.cpu, L) && above == Reg(s.cpu, H)
               case _ => at == StatusByte(s.cpu.f) && above == Reg(s.cpu, A)
  {
    hide PushBytes, StatusByte, Hi, Lo, Word;
    var v := StackValue(s.cpu, p);
    PushesBytes(s, Hi(v), Lo(v));
    match p
    case Pair(BC) => WordParts(s.cpu.b, s.cpu.c);
    case Pair(DE) => WordParts(s.cpu.d, s.cpu.e);
    case Pair(HL) => WordParts(s.cpu.h, s.cpu.l);
    case _ => WordParts(s.cpu.a, StatusByte(s.cpu.f));
  }

  lemma TwoLanesOn(x: nat, k: nat)
    ensures Lane(x, k + 2) <==> Lane(x / 2 / 2, k)
    ensures Lane(x, 0) <==> x % 2 == 1
    ensures Lane(x, 1) <==> x / 2 % 2 == 1
  {
  }

  /** The flags in a status byte: lanes 0, 2, 4, 6 and 7 are carry, parity, half carry, zero and sign. */
  lemma StatusLanes(v: byte)
    ensures var f := ByteStatus(v);
            && (f.c <==> Lane(v, 0)) && (f.p <==> Lane(v, 2)) && (f.ac <==> Lane(v, 4))
            && (f.z <==> Lane(v, 6)) && (f.s <==> Lane(v, 7))
  {
    hide Lane;
    var v2 := v / 2 / 2;
    var v4 := v2 / 2 / 2;
    var v6 := v4 / 2 / 2;
    TwoLanesOn(v, 0);
    TwoLanesOn(v, 2);
    TwoLanesOn(v2, 0);
    TwoLanesOn(v, 4);
    TwoLanesOn(v2, 2);
    TwoLanesOn(v4, 0);
    TwoLanesOn(v, 5);
    TwoLanesOn(v2, 3);
    TwoLanesOn(v4, 1);
    TwoLanesOn(v6, 0);
  }

  /** PUSH D, XTHL, POP D is XCHG, but for what it leaves below the stack pointer. */
  lemma ExchangeOverStack(s: State)
    ensures var t := ExecPop(ExecXthl(ExecPush(s, Pair(DE)).s).s, Pair(DE)).s;
            && t.cpu == ExecXchg(s).s.cpu.(pc := Plus(s.cpu.pc, 3))
            && PairValue(t.cpu, HL) == PairValue(s.cpu, DE) && PairValue(t.cpu, DE) == PairValue(s.cpu, HL)
  {
  }

  /** PUSH H leaves memory as SHLD would at the new stack pointer, and LHLD takes back what SHLD stored. */
  lemma StoreIsPush(s: State)
    requires Direct(s) == Plus(s.cpu.sp, -2)
    ensures ExecShld(s).s.mem == ExecPush(s, Pair(HL)).s.mem
    ensures var t := s.(mem := ExecShld(s).s.mem);
            Direct(t) == Direct(s) ==> ExecLhld(t).s.cpu == Skip(t.cpu, 3)
  {
  }

  lemma SumByHalves(h: byte, l: byte, hv: byte, lv: byte)
    ensures var low, carry := Wrap(l + lv), Bit(l + lv > 0xFF);
            var sum := Word(h, l) + Word(hv, lv);
            && sum % 0x10000 == Word(Wrap(h + hv + carry), low)
            && (sum > 0xFFFF <==> h + hv + carry > 0xFF)
  {
    var carry := Bit(l + lv > 0xFF);
    var w := Word(Wrap(h + hv + carry), Wrap(l + lv));
    assert Word(h, l) + Word(hv, lv) == w + 0x10000 * Bit(h + hv + carry > 0xFF);
  }

  /** DAD is ADD of the low bytes and ADC of the high ones, as far as HL and the carry go. */
  lemma DoubleAddByHalves(s: State, p: RegisterPair)
    ensures var v := PairValue(s.cpu, p);
            var low := Add8(Reg(s.cpu, L), Lo(v), false, s.cpu.f);
            var high := Add8(Reg(s.cpu, H), Hi(v), low.f.c, s.cpu.f);
            ExecDad(s, p).s.cpu
            == SetPair(Skip(s.cpu, 1), HL, Word(high.value, low.value)).(f := s.cpu.f.(c := high.f.c))
  {
    hide Hi, Lo, Word, Wrap, Flagged;
    var v := PairValue(s.cpu, p);
    WordIsHalves(v);
    SumByHalves(s.cpu.h, s.cpu.l, Hi(v), Lo(v));
  }

  /** The registers of a pair. */
  function Halves(p: RegisterPair): set<Register> {
    match p
    case BC => {B, C}
    case DE => {D, E}
    case HL => {H, L}
    case SP => {}
  }

  /** A pair that is set has the value, and only its registers change. */
  lemma PairSet(u: Cpu, p: RegisterPair, w: word, r: Register)
    ensures var v := Skip(SetPair(u, p, w), 1);
            PairValue(v, p) == w && v.f == u.f && (r !in Halves(p) ==> Reg(v, r) == Reg(u, r))
  {
    WordIsHalves(w);
  }

  lemma PlusModulo(w: word, n: int)
    requires n == 1 || n == -1
    ensures Plus(w, n) == (w + n) % 0x10000
  {
  }

  /** INX and DCX count modulo 65536 in their pair, and change nothing else. */
  lemma CountsModulo(s: State, p: RegisterPair, n: int, r: Register)
    requires n == 1 || n == -1
    ensures var t := ExecCount(s, p, n).s;
            && PairValue(t.cpu, p) == (PairValue(s.cpu, p) + n) % 0x10000
            && (r !in Halves(p) ==> Reg(t.cpu, r) == Reg(s.cpu, r))
            && t.cpu.f == s.cpu.f && t.mem == s.mem
  {
    hide Plus, PairValue, SetPair, Hi, Lo, Word;
    var w := Plus(PairValue(s.cpu, p), n);
    PairSet(s.cpu, p, w, r);
    PlusModulo(PairValue(s.cpu, p), n);
  }

  /** MOV copies one register, and no other changes. */
  lemma MoveCopies(s: State, dst: Register, src: Register, r: Register)
    ensures Reg(ExecMov(s, dst, src).s.cpu, r) == Reg(s.cpu, if r == dst then src else r)
    ensures ExecMov(s, dst, src).s.mem == s.mem
  {
  }

  /** A lane on top of the others leaves them alone. */
  lemma {:induction false} LaneOnTop(n: nat, x: nat, top: bool, k: nat)
    requires x < Pow2(n) && k <= n
    ensures Lane(x + Pow2(n) * Bit(top), k) <==> if k == n then top else Lane(x, k)
  {
    if n > 0 && k > 0 {
      assert (x + Pow2(n) * Bit(top)) / 2 == x / 2 + Pow2(n - 1) * Bit(top);
      LaneOnTop(n - 1, x / 2, top, k - 1);
    }
  }

  /** A rotation to the left moves every lane up, with `entering` at the bottom and the top lane in the carry. */
  lemma LeftByLanes(u: Cpu, entering: bool, k: nat)
    requires k < 7
    ensures var w := RotatedLeft(u, entering);
            && (Lane(w.a, k + 1) <==> Lane(u.a, k)) && (Lane(w.a, 0) <==> entering) && (w.f.c <==> Lane(u.a, 7))
            && w == u.(a := w.a, f := u.f.(c := w.f.c))
  {
    var top := u.a >= 0x80;
    var rest := u.a - 0x80 * Bit(top);
    assert Pow2(7) == 0x80 by { assert Pow2(4) == 16; }
    LaneOnTop(7, rest, top, k);
    LaneOnTop(7, rest, top, 7);
    assert (2 * rest + Bit(entering)) / 2 == rest;
  }

  /** A rotation to the right moves every lane down, with `entering` on top and the bottom lane in the carry. */
  lemma RightByLanes(u: Cpu, entering: bool, k: nat)
    requires k < 7
    ensures var w := RotatedRight(u, entering);
            && (Lane(w.a, k) <==> Lane(u.a, k + 1)) && (Lane(w.a, 7) <==> entering) && (w.f.c <==> Lane(u.a, 0))
            && w == u.(a := w.a, f := u.f.(c := w.f.c))
  {
    assert Pow2(7) == 0x80 by { assert Pow2(4) == 16; }
    LaneOnTop(7, u.a / 2, entering, k);
    LaneOnTop(7, u.a / 2, entering, 7);
  }

  /** RLC and RRC carry the lane that leaves round to the other end, RAL and RAR take the old carry there. */
  lemma RotationsByLanes(s: State)
    ensures (Lane(ExecRlc(s).s.cpu.a, 0) <==> Lane(s.cpu.a, 7)) && (Lane(ExecRal(s).s.cpu.a, 0) <==> s.cpu.f.c)
    ensures (Lane(ExecRrc(s).s.cpu.a, 7) <==> Lane(s.cpu.a, 0)) && (Lane(ExecRar(s).s.cpu.a, 7) <==> s.cpu.f.c)
  {
    hide Lane, RotatedLeft, RotatedRight;
    LeftByLanes(s.cpu, s.cpu.a >= 0x80, 0);
    LeftByLanes(s.cpu, s.cpu.f.c, 0);
    RightByLanes(s.cpu, s.cpu.a % 2 == 1, 0);
    RightByLanes(s.cpu, s.cpu.f.c, 0);
    TopAndBottom(s.cpu.a);
  }

  lemma TopAndBottom(a: byte)
    ensures (Lane(a, 7) <==> a >= 0x80) && (Lane(a, 0) <==> a % 2 == 1)
  {
    assert Pow2(7) == 0x80 by { assert Pow2(4) == 16; }
    TopLane(7, a);
  }

  lemma {:induction false} ComplementLanes(n: nat, x: nat, k: nat)
    requires x < Pow2(n) && k < n
    ensures Lane(Pow2(n) - 1 - x, k) <==> !Lane(x, k)
    decreases n
  {
    if k > 0 {
      assert (Pow2(n) - 1 - x) / 2 == Pow2(n - 1) - 1 - x / 2;
      ComplementLanes(n - 1, x / 2, k - 1);
    }
  }

  /** CMA flips every lane of the accumulator, and nothing else. */
  lemma ComplementFlips(s: State, k: nat)
    requires k < 8
    ensures var t := ExecAdjust(Cma, s).s;
            (Lane(t.cpu.a, k) <==> !Lane(s.cpu.a, k)) && t == State(Skip(s.cpu, 1).(a := t.cpu.a), s.mem)
  {
    hide Lane;
    EightLanes();
    ComplementLanes(8, s.cpu.a, k);
  }

  /** CMC flips the carry and STC sets it; neither touches anything else. */
  lemma CarryFlips(s: State)
    ensures var t := ExecAdjust(Cmc, s).s;
            t == State(Skip(s.cpu, 1).(f := s.cpu.f.(c := t.cpu.f.c)), s.mem) && t.cpu.f.c != s.cpu.f.c
    ensures var t := ExecAdjust(Stc, s).s;
            t == State(Skip(s.cpu, 1).(f := s.cpu.f.(c := t.cpu.f.c)), s.mem) && t.cpu.f.c
  {
    hide ExecRlc, ExecRrc, ExecRal, ExecRar, ExecDaa, ExecCma;
  }

  /** INR and DCR of any operand, register or memory: the neighbouring byte, with its flags, and the carry alone. */
  lemma BumpsOperand(s: State, o: Operand)
    ensures var t := ExecInr(s, o).s;
            && Operated(t, o) == (Operated(s, o) + 1) % 0x100 && Describes(t.cpu.f, Operated(t, o))
            && t.cpu.f.c == s.cpu.f.c
    ensures var t := ExecDcr(s, o).s;
            && Operated(t, o) == (Operated(s, o) - 1) % 0x100 && Describes(t.cpu.f, Operated(t, o))
            && t.cpu.f.c == s.cpu.f.c
  {
    hide Describes, Inc8, Dec8;
    IncrementComputes(Operated(s, o), s.cpu.f);
    DecrementComputes(Operated(s, o), s.cpu.f);
  }
}
