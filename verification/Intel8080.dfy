/** The interpreter as it is written: registers updated in place, memory and ports reached
    only through the bus, the program counter advanced piecemeal by dispatcher, helpers and
    adder. Each method is proved to be its instruction of the architectural machine. */
module Intel8080 {
  import opened Types
  import opened Alu
  import opened Isa
  import opened Core
  import opened Bus
  import opened Dispatch
  import opened Snapshot

  /** The adjustment the interpreter adds in one go. */
  function Adjustment(a: byte, f: Status): byte {
    (if a % 16 > 9 || f.ac then 6 else 0) + (if AdjustsHigh(a, f) then 0x60 else 0)
  }

  predicate AdjustsHigh(a: byte, f: Status) {
    a / 16 > 9 || f.c || (a / 16 >= 9 && a % 16 > 9)
  }

  /** What the adder computes: a sum, its flags, and the carry lane only when asked. */
  function Adder(lhs: byte, rhs: byte, carry: byte, setCarry: bool, f: Status): Result
    requires carry <= 1
  {
    var v := Wrap(lhs + rhs + carry);
    Result(v, Flagged(f, v, lhs % 16 + rhs % 16 + carry > 15).(c := if setCarry then lhs + rhs + carry > 0xFF else f.c))
  }

  /** Value, half carry and carry of the one-shot adjustment are those of the two-step decimal adjust. */
  lemma AdjustedValue(a: byte, f: Status)
    ensures Daa8(a, f).value == Wrap(a + Adjustment(a, f))
  {
  }

  lemma AdjustedHalf(a: byte, f: Status)
    ensures Daa8(a, f).f.ac == (a % 16 + Adjustment(a, f) % 16 > 15)
  {
  }

  lemma AdjustedCarry(a: byte, f: Status)
    ensures Daa8(a, f).f.c == AdjustsHigh(a, f)
  {
  }

  function OneShot(a: byte, f: Status): Result {
    Adder(a, Adjustment(a, f), 0, false, f.(c := AdjustsHigh(a, f)))
  }

  lemma OneShotIsDaa(a: byte, f: Status)
    ensures OneShot(a, f) == Daa8(a, f)
  {
    AdjustedValue(a, f);
    AdjustedHalf(a, f);
    AdjustedCarry(a, f);
  }

  /** The two bytes of a seventeen-bit sum. */
  lemma SumBytes(sum: nat)
    requires sum < 0x20000
    ensures sum / 0x100 % 0x100 == Hi(sum % 0x10000) && sum % 0x100 == Lo(sum % 0x10000)
  {
    var w := sum % 0x10000;
    if sum < 0x10000 {
      assert w == sum;
    } else {
      assert sum == w + 0x10000;
    }
  }

  /** Storing the two bytes of the sum, then its carry, is the double add. */
  lemma StoredSum(u: Cpu, v: word)
    ensures var sum := v + PairValue(u, HL);
            u.(h := sum / 0x100 % 0x100, l := sum % 0x100).(f := u.f.(c := sum > 0xFFFF)) == DoubleAdd(u, v)
  {
    SumBytes(v + PairValue(u, HL));
  }

  lemma ComplementAddIsSubtract(a: byte, v: byte, borrow: bool)
    ensures var sum := a + (0xFF - v) + Bit(!borrow);
            && Wrap(sum) == (if a >= v + Bit(borrow) then a - v - Bit(borrow) else a - v - Bit(borrow) + 0x100)
            && (sum > 0xFF <==> a >= v + Bit(borrow))
            && (a % 16 + (0xFF - v) % 16 + Bit(!borrow) > 15 <==> a % 16 >= v % 16 + Bit(borrow))
  {
  }

  /** The opcode of the restart instruction for an interrupt: the vector, shifted up, or-ed into 0xC7. */
  function RestartOpcode(vector: byte): byte {
    0xC7 + vector % 8 * 8
  }

  /** Where a restart opcode goes: its bits 3 to 5 in place. */
  function Target(restart: byte): word {
    restart / 8 % 8 * 8
  }

  lemma TargetOfRestart(vector: byte)
    ensures Target(RestartOpcode(vector)) == vector % 8 * 8
  {
  }

  lemma BumpIsAdd(a: byte, f: Status)
    ensures Adder(a, 1, 0, false, f) == Inc8(a, f)
    ensures Adder(a, 0xFF, 0, false, f) == Dec8(a, f)
  {
  }

  class Interpreter {
    var cpu: Cpu
    var opcode: byte
    const board: Board

    constructor (board: Board)
      ensures this.board == board
      ensures cpu == ResetCpu(0)
    {
      cpu := ResetCpu(0);
      opcode := 0;
      this.board := board;
    }

    ghost function Abs(): State
      requires board.Valid()
      reads this, board.memory.memory
    {
      State(cpu, board.Contents())
    }

    ghost function Frame(): set<object> {
      {this} + board.Frame()
    }

    /** From a quiet bus to a quiet bus with the other lanes as they were, this method had outcome `o`. */
    twostate predicate Did(o: Outcome, ticks: nat)
      requires board.Valid()
      reads Frame()
    {
      && board.Quiet()
      && board.Lanes() == old(board.Lanes())
      && o == Next(Abs(), ticks, if o.Next? then o.io else [])
      && board.io.log == old(board.io.log) + if o.Next? then o.io else []
    }

    method Reset(counter: word)
      modifies this`cpu
      ensures cpu == ResetCpu(counter)
      ensures cpu.a == cpu.b == cpu.c == cpu.d == cpu.e == cpu.h == cpu.l == 0
      ensures cpu.pc == counter && cpu.sp == 0 && StatusByte(cpu.f) == 2 && !cpu.iff
    {
      cpu := cpu.(a := 0, b := 0, c := 0, d := 0, e := 0, h := 0, l := 0);
      cpu := cpu.(pc := counter, sp := 0);
      cpu := cpu.(f := ByteStatus(2), iff := false);
    }

    /** Load a saved processor: every check and every missing field fails before the first register changes. */
    method Load(uuid: seq<byte>, text: ImageText) returns (ok: bool)
      modifies this`cpu
      ensures ok <==> text.uuid == Some(uuid) && Complete(text)
      ensures cpu == if ok then LoadCpu(old(cpu), text) else old(cpu)
    {
      ok := text.uuid == Some(uuid) && Complete(text);
      if ok {
        var f := ByteStatus(Narrow8(text.s.value));
        cpu := cpu.(a := Narrow8(text.a.value), b := Narrow8(text.b.value), c := Narrow8(text.c.value),
                    d := Narrow8(text.d.value), e := Narrow8(text.e.value), h := Narrow8(text.h.value),
                    l := Narrow8(text.l.value), f := f);
        cpu := cpu.(pc := Narrow16(text.pc.value), sp := Narrow16(text.sp.value));
      }
    }

    // ---------- bus transactions ----------

    /** Announce a read, let the controllers serve it, and receive the byte. */
    method ReadFromAddress(signal: Signal, addr: word) returns (v: byte)
      requires board.Valid() && board.Quiet()
      requires signal == MemoryRead || signal == IoRead
      modifies board.Frame()
      ensures board.Quiet() && board.Lanes() == old(board.Lanes())
      ensures board.Contents() == old(board.Contents())
      ensures v == old(if signal == MemoryRead then board.Contents()[addr] else board.Ports()(addr))
      ensures board.io.log == old(board.io.log) + if signal == IoRead then [Input(addr, v)] else []
    {
      board.controlBus.Send(signal);
      board.addressBus.Send(addr);
      board.ProcessControllers();
      v := board.dataBus.Receive();
    }

    method WriteToAddress(signal: Signal, addr: word, v: byte)
      requires board.Valid() && board.Quiet()
      requires signal == MemoryWrite || signal == IoWrite
      modifies board.Frame()
      ensures board.Quiet() && board.Lanes() == old(board.Lanes())
      ensures board.Contents() == old(if signal == MemoryWrite then board.Contents()[addr := v] else board.Contents())
      ensures board.io.log == old(board.io.log) + if signal == IoWrite then [Output(addr, v)] else []
    {
      board.controlBus.Send(signal);
      board.addressBus.Send(addr);
      board.dataBus.Send(v);
      board.ProcessControllers();
    }

    method Read(addr: word) returns (v: byte)
      requires board.Valid() && board.Quiet()
      modifies board.Frame()
      ensures board.Quiet() && board.Lanes() == old(board.Lanes()) && board.io.log == old(board.io.log)
      ensures board.Contents() == old(board.Contents()) && v == board.Contents()[addr]
    {
      v := ReadFromAddress(MemoryRead, addr);
    }

    method Write(addr: word, v: byte)
      requires board.Valid() && board.Quiet()
      modifies board.Frame()
      ensures board.Quiet() && board.Lanes() == old(board.Lanes()) && board.io.log == old(board.io.log)
      ensures board.Contents() == old(board.Contents())[addr := v]
    {
      WriteToAddress(MemoryWrite, addr, v);
    }

    /** Read the byte after the program counter, leaving the counter on it. */
    method ReadNext() returns (v: byte)
      requires board.Valid() && board.Quiet()
      modifies this`cpu, board.Frame()
      ensures board.Quiet() && board.Lanes() == old(board.Lanes()) && board.io.log == old(board.io.log)
      ensures board.Contents() == old(board.Contents())
      ensures cpu == Skip(old(cpu), 1) && v == board.Contents()[cpu.pc]
    {
      cpu := Skip(cpu, 1);
      v := Read(cpu.pc);
    }

    /** Read the two bytes after the program counter, low byte first. */
    method ReadNextWord() returns (w: word)
      requires board.Valid() && board.Quiet()
      modifies this`cpu, board.Frame()
      ensures board.Quiet() && board.Lanes() == old(board.Lanes()) && board.io.log == old(board.io.log)
      ensures board.Contents() == old(board.Contents())
      ensures cpu == Skip(old(cpu), 2) && w == old(Direct(Abs()))
    {
      var low := ReadNext();
      var high := ReadNext();
      w := Word(high, low);
    }

    method PushTwo(high: byte, low: byte)
      requires board.Valid() && board.Quiet()
      modifies this`cpu, board.Frame()
      ensures board.Quiet() && board.Lanes() == old(board.Lanes()) && board.io.log == old(board.io.log)
      ensures Abs() == old(PushBytes(Abs(), high, low))
    {
      cpu := cpu.(sp := Plus(cpu.sp, 0xFFFF));
      Write(cpu.sp, high);
      cpu := cpu.(sp := Plus(cpu.sp, 0xFFFF));
      Write(cpu.sp, low);
    }

    method PopTwo() returns (high: byte, low: byte)
      requires board.Valid() && board.Quiet()
      modifies this`cpu, board.Frame()
      ensures board.Quiet() && board.Lanes() == old(board.Lanes()) && board.io.log == old(board.io.log)
      ensures board.Contents() == old(board.Contents())
      ensures cpu == old(cpu.(sp := Plus(cpu.sp, 2))) && Word(high, low) == ReadWord(board.Contents(), old(cpu.sp))
    {
      low := Read(cpu.sp);
      cpu := cpu.(sp := Plus(cpu.sp, 1));
      high := Read(cpu.sp);
      cpu := cpu.(sp := Plus(cpu.sp, 1));
    }

    // ---------- arithmetic core ----------

    /** The adder: the one place all sums, differences and adjustments go through. It also
        advances the program counter. */
    method AddCore(lhs: byte, rhs: byte, carry: byte, setCarry: bool) returns (v: byte)
      requires carry <= 1
      modifies this`cpu
      ensures v == old(Adder(lhs, rhs, carry, setCarry, cpu.f)).value
      ensures cpu == old(Skip(cpu.(f := Adder(lhs, rhs, carry, setCarry, cpu.f).f), 1))
    {
      if setCarry {
        cpu := cpu.(f := cpu.f.(c := lhs + rhs + carry > 0xFF));
      }
      cpu := cpu.(f := cpu.f.(ac := lhs % 16 + rhs % 16 + carry > 15));
      v := Wrap(lhs + rhs + carry);
      cpu := cpu.(f := cpu.f.(z := v == 0, s := v >= 0x80, p := Ones(v) % 2 == 0));
      cpu := Skip(cpu, 1);
    }

    /** Subtraction as the interpreter does it, adding the complement and flipping the carry,
        is subtraction with borrow. */
    method SubCore(v: byte, borrow: bool) returns (d: byte)
      modifies this`cpu
      ensures d == old(Sub8(cpu.a, v, borrow, cpu.f)).value
      ensures cpu == old(Skip(cpu.(f := Sub8(cpu.a, v, borrow, cpu.f).f), 1))
    {
      ComplementAddIsSubtract(cpu.a, v, borrow);
      d := AddCore(cpu.a, 0xFF - v, Bit(!borrow), true);
      cpu := cpu.(f := cpu.f.(c := !cpu.f.c));
    }

    /** The flags of a logical operation, from the accumulator it left. */
    method LogicFlags()
      modifies this`cpu
      ensures cpu == old(Skip(cpu.(f := Flagged(cpu.f, cpu.a, cpu.f.ac).(c := false)), 1))
    {
      cpu := cpu.(f := cpu.f.(c := false));
      cpu := cpu.(f := cpu.f.(z := cpu.a == 0));
      cpu := cpu.(f := cpu.f.(s := cpu.a >= 0x80));
      cpu := cpu.(f := cpu.f.(p := Ones(cpu.a) % 2 == 0));
      cpu := Skip(cpu, 1);
    }

    method AndCore(v: byte)
      modifies this`cpu
      ensures cpu == old(Skip(Accumulate(cpu, And8(cpu.a, v, cpu.f)), 1))
    {
      EightLanes();
      cpu := cpu.(f := cpu.f.(ac := cpu.a / 8 % 2 == 1 || v / 8 % 2 == 1));
      cpu := cpu.(a := AndBits(8, cpu.a, v));
      LogicFlags();
    }

    method XorCore(v: byte)
      modifies this`cpu
      ensures cpu == old(Skip(Accumulate(cpu, Xor8(cpu.a, v, cpu.f)), 1))
    {
      EightLanes();
      cpu := cpu.(a := XorBits(8, cpu.a, v));
      cpu := cpu.(f := cpu.f.(ac := false));
      LogicFlags();
    }

    method OrCore(v: byte)
      modifies this`cpu
      ensures cpu == old(Skip(Accumulate(cpu, Or8(cpu.a, v, cpu.f)), 1))
    {
      EightLanes();
      cpu := cpu.(a := OrBits(8, cpu.a, v));
      cpu := cpu.(f := cpu.f.(ac := false));
      LogicFlags();
    }

    /** The eight accumulator operations on a byte already at hand. */
    method Combine(op: AluOp, v: byte)
      modifies this`cpu
      ensures cpu == old(Skip(Arithmetic(op, cpu, v), 1))
    {
      var t := 0;
      match op {
        case Add => t := AddCore(cpu.a, v, 0, true);
        case Adc => t := AddCore(cpu.a, v, Bit(cpu.f.c), true);
        case Sub | Cmp => t := SubCore(v, false);
        case Sbb => t := SubCore(v, cpu.f.c);
        case Ana => AndCore(v);
        case Xra => XorCore(v);
        case Ora => OrCore(v);
      }
      if op == Add || op == Adc || op == Sub || op == Sbb {
        cpu := cpu.(a := t);
      }
    }

    // ---------- instructions ----------

    method ArithRegister(op: AluOp, src: Register) returns (ticks: nat)
      requires board.Valid() && board.Quiet()
      modifies this`cpu
      ensures Did(old(ExecArith(Abs(), op, R(src))), ticks)
    {
      Combine(op, Reg(cpu, src));
      ticks := 4;
    }

    /** On the byte at `addr`; the immediate forms pass the program counter, already advanced once. */
    method ArithMemory(op: AluOp, addr: word) returns (ticks: nat)
      requires board.Valid() && board.Quiet()
      modifies Frame()
      ensures Did(old(Through(1, Arithmetic(op, cpu, board.Contents()[addr]), board.Contents(), 7)), ticks)
    {
      var v := Read(addr);
      Combine(op, v);
      ticks := 7;
    }

    method InrRegister(dst: Register) returns (ticks: nat)
      requires board.Valid() && board.Quiet()
      modifies this`cpu
      ensures Did(old(ExecInr(Abs(), R(dst))), ticks)
    {
      BumpIsAdd(Reg(cpu, dst), cpu.f);
      var v := AddCore(Reg(cpu, dst), 1, 0, false);
      cpu := SetReg(cpu, dst, v);
      ticks := 5;
    }

    method InrMemory() returns (ticks: nat)
      requires board.Valid() && board.Quiet()
      modifies Frame()
      ensures Did(old(ExecInr(Abs(), M)), ticks)
    {
      var addr := PairValue(cpu, HL);
      var v := Read(addr);
      BumpIsAdd(v, cpu.f);
      v := AddCore(v, 1, 0, false);
      Write(addr, v);
      ticks := 10;
    }

    method DcrRegister(dst: Register) returns (ticks: nat)
      requires board.Valid() && board.Quiet()
      modifies this`cpu
      ensures Did(old(ExecDcr(Abs(), R(dst))), ticks)
    {
      BumpIsAdd(Reg(cpu, dst), cpu.f);
      var v := AddCore(Reg(cpu, dst), 0xFF, 0, false);
      cpu := SetReg(cpu, dst, v);
      ticks := 5;
    }

    method DcrMemory(addr: word) returns (ticks: nat)
      requires board.Valid() && board.Quiet()
      requires addr == PairValue(cpu, HL)
      modifies Frame()
      ensures Did(old(ExecDcr(Abs(), M)), ticks)
    {
      var v := Read(addr);
      BumpIsAdd(v, cpu.f);
      v := AddCore(v, 0xFF, 0, false);
      Write(addr, v);
      ticks := 10;
    }

    method MviRegister(dst: Register) returns (ticks: nat)
      requires board.Valid() && board.Quiet()
      modifies Frame()
      ensures Did(old(ExecMvi(Abs(), R(dst))), ticks)
    {
      var v := ReadNext();
      cpu := SetReg(cpu, dst, v);
      cpu := Skip(cpu, 1);
      ticks := 7;
    }

    method MviMemory() returns (ticks: nat)
      requires board.Valid() && board.Quiet()
      modifies Frame()
      ensures Did(old(ExecMvi(Abs(), M)), ticks)
    {
      var v := ReadNext();
      Write(PairValue(cpu, HL), v);
      cpu := Skip(cpu, 1);
      ticks := 10;
    }

    method AddAdjustment()
      modifies this`cpu
      ensures cpu == old(Skip(Accumulate(cpu, OneShot(cpu.a, cpu.f)), 1))
    {
      var adjustment := 0;
      var highNibble := cpu.a / 16;
      var lowNibble := cpu.a % 16;
      if lowNibble > 9 || cpu.f.ac {
        adjustment := adjustment + 6;
      }
      if highNibble > 9 || cpu.f.c || (highNibble >= 9 && lowNibble > 9) {
        adjustment := adjustment + 0x60;
        cpu := cpu.(f := cpu.f.(c := true));
      }
      var v := AddCore(cpu.a, adjustment, 0, false);
      cpu := cpu.(a := v);
    }

    method DecimalAdjust() returns (ticks: nat)
      requires board.Valid() && board.Quiet()
      modifies this`cpu
      ensures Did(old(ExecDaa(Abs())), ticks)
    {
      OneShotIsDaa(cpu.a, cpu.f);
      AddAdjustment();
      ticks := 4;
    }

    method RotateLeft() returns (ticks: nat)
      requires board.Valid() && board.Quiet()
      modifies this`cpu
      ensures Did(old(ExecRlc(Abs())), ticks)
    {
      cpu := cpu.(f := cpu.f.(c := cpu.a >= 0x80));
      cpu := cpu.(a := Shifted(cpu.a) + Bit(cpu.f.c));
      assert cpu == old(RotatedLeft(cpu, cpu.a >= 0x80));
      cpu := Skip(cpu, 1);
      ticks := 4;
    }

    method RotateRight() returns (ticks: nat)
      requires board.Valid() && board.Quiet()
      modifies this`cpu
      ensures Did(old(ExecRrc(Abs())), ticks)
    {
      cpu := cpu.(f := cpu.f.(c := cpu.a % 2 == 1));
      cpu := cpu.(a := cpu.a / 2 + 0x80 * Bit(cpu.f.c));
      assert cpu == old(RotatedRight(cpu, cpu.a % 2 == 1));
      cpu := Skip(cpu, 1);
      ticks := 4;
    }

    method RotateLeftThroughCarry() returns (ticks: nat)
      requires board.Valid() && board.Quiet()
      modifies this`cpu
      ensures Did(old(ExecRal(Abs())), ticks)
    {
      var v := Shifted(cpu.a) + Bit(cpu.f.c);
      cpu := cpu.(f := cpu.f.(c := cpu.a >= 0x80));
      cpu := cpu.(a := v);
      assert cpu == old(RotatedLeft(cpu, cpu.f.c));
      cpu := Skip(cpu, 1);
      ticks := 4;
    }

    method RotateRightThroughCarry() returns (ticks: nat)
      requires board.Valid() && board.Quiet()
      modifies this`cpu
      ensures Did(old(ExecRar(Abs())), ticks)
    {
      var tmp := cpu.f.c;
      cpu := cpu.(f := cpu.f.(c := cpu.a % 2 == 1));
      cpu := cpu.(a := cpu.a / 2 + 0x80 * Bit(tmp));
      assert cpu == old(RotatedRight(cpu, cpu.f.c));
      cpu := Skip(cpu, 1);
      ticks := 4;
    }

    method LoadImmediate(p: RegisterPair) returns (ticks: nat)
      requires board.Valid() && board.Quiet()
      modifies Frame()
      ensures Did(old(ExecLxi(Abs(), p)), ticks)
    {
      var w := ReadNextWord();
      cpu := SetPair(cpu, p, w);
      cpu := Skip(cpu, 1);
      ticks := 10;
    }

    method StoreDirectPair() returns (ticks: nat)
      requires board.Valid() && board.Quiet()
      modifies Frame()
      ensures Did(old(ExecShld(Abs())), ticks)
    {
      var addr := ReadNextWord();
      Write(addr, cpu.l);
      Write(Plus(addr, 1), cpu.h);
      cpu := Skip(cpu, 1);
      ticks := 16;
    }

    method LoadDirectPair() returns (ticks: nat)
      requires board.Valid() && board.Quiet()
      modifies Frame()
      ensures Did(old(ExecLhld(Abs())), ticks)
    {
      var addr := ReadNextWord();
      var low := Read(addr);
      cpu := cpu.(l := low);
      var high := Read(Plus(addr, 1));
      cpu := cpu.(h := high);
      cpu := Skip(cpu, 1);
      ticks := 16;
    }

    method StoreIndirect(p: RegisterPair) returns (ticks: nat)
      requires board.Valid() && board.Quiet()
      modifies Frame()
      ensures Did(old(ExecStax(Abs(), p)), ticks)
    {
      Write(PairValue(cpu, p), cpu.a);
      cpu := Skip(cpu, 1);
      ticks := 7;
    }

    method LoadIndirect(p: RegisterPair) returns (ticks: nat)
      requires board.Valid() && board.Quiet()
      modifies Frame()
      ensures Did(old(ExecLdax(Abs(), p)), ticks)
    {
      var v := Read(PairValue(cpu, p));
      cpu := cpu.(a := v);
      cpu := Skip(cpu, 1);
      ticks := 7;
    }

    method StoreDirect() returns (ticks: nat)
      requires board.Valid() && board.Quiet()
      modifies Frame()
      ensures Did(old(ExecSta(Abs())), ticks)
    {
      var addr := ReadNextWord();
      Write(addr, cpu.a);
      cpu := Skip(cpu, 1);
      ticks := 13;
    }

    method LoadDirect() returns (ticks: nat)
      requires board.Valid() && board.Quiet()
      modifies Frame()
      ensures Did(old(ExecLda(Abs())), ticks)
    {
      var addr := ReadNextWord();
      var v := Read(addr);
      cpu := cpu.(a := v);
      cpu := Skip(cpu, 1);
      ticks := 13;
    }

    method IncrementPair(p: RegisterPair) returns (ticks: nat)
      requires board.Valid() && board.Quiet()
      modifies this`cpu
      ensures Did(old(ExecCount(Abs(), p, 1)), ticks)
    {
      cpu := SetPair(cpu, p, Plus(PairValue(cpu, p), 1));
      cpu := Skip(cpu, 1);
      ticks := 5;
    }

    method DecrementPair(p: RegisterPair) returns (ticks: nat)
      requires board.Valid() && board.Quiet()
      modifies this`cpu
      ensures Did(old(ExecCount(Abs(), p, -1)), ticks)
    {
      cpu := SetPair(cpu, p, Plus(PairValue(cpu, p), 0xFFFF));
      cpu := Skip(cpu, 1);
      ticks := 5;
    }

    method AddPair(p: RegisterPair) returns (ticks: nat)
      requires board.Valid() && board.Quiet()
      modifies this`cpu
      ensures Did(old(ExecDad(Abs(), p)), ticks)
    {
      var sum := PairValue(cpu, p) + PairValue(cpu, HL);
      StoredSum(cpu, PairValue(cpu, p));
      cpu := cpu.(h := sum / 0x100 % 0x100, l := sum % 0x100);
      cpu := cpu.(f := cpu.f.(c := sum > 0xFFFF));
      cpu := Skip(cpu, 1);
      ticks := 10;
    }

    method NoOperation() returns (ticks: nat)
      requires board.Valid() && board.Quiet()
      modifies this`cpu
      ensures Did(old(ExecNop(Abs())), ticks)
    {
      cpu := Skip(cpu, 1);
      ticks := 4;
    }

    method ComplementAccumulator() returns (ticks: nat)
      requires board.Valid() && board.Quiet()
      modifies this`cpu
      ensures Did(old(ExecCma(Abs())), ticks)
    {
      cpu := cpu.(a := 0xFF - cpu.a);
      cpu := Skip(cpu, 1);
      ticks := 4;
    }

    method SetCarry() returns (ticks: nat)
      requires board.Valid() && board.Quiet()
      modifies this`cpu
      ensures Did(old(ExecCarry(Abs(), true)), ticks)
    {
      cpu := cpu.(f := cpu.f.(c := true));
      cpu := Skip(cpu, 1);
      ticks := 4;
    }

    method ComplementCarry() returns (ticks: nat)
      requires board.Valid() && board.Quiet()
      modifies this`cpu
      ensures Did(old(ExecCarry(Abs(), !Abs().cpu.f.c)), ticks)
    {
      cpu := cpu.(f := cpu.f.(c := !cpu.f.c));
      cpu := Skip(cpu, 1);
      ticks := 4;
    }

    method Exchange() returns (ticks: nat)
      requires board.Valid() && board.Quiet()
      modifies this`cpu
      ensures Did(old(ExecXchg(Abs())), ticks)
    {
      cpu := cpu.(h := cpu.d, d := cpu.h);
      cpu := cpu.(l := cpu.e, e := cpu.l);
      cpu := Skip(cpu, 1);
      ticks := 4;
    }

    method LoadStackPointer() returns (ticks: nat)
      requires board.Valid() && board.Quiet()
      modifies this`cpu
      ensures Did(old(ExecSphl(Abs())), ticks)
    {
      cpu := cpu.(sp := PairValue(cpu, HL));
      cpu := Skip(cpu, 1);
      ticks := 5;
    }

    method DisableInterrupts() returns (ticks: nat)
      requires board.Valid() && board.Quiet()
      modifies this`cpu
      ensures Did(old(ExecFlipFlop(Abs(), false)), ticks)
    {
      cpu := cpu.(iff := false);
      cpu := Skip(cpu, 1);
      ticks := 4;
    }

    method EnableInterrupts() returns (ticks: nat)
      requires board.Valid() && board.Quiet()
      modifies this`cpu
      ensures Did(old(ExecFlipFlop(Abs(), true)), ticks)
    {
      cpu := cpu.(iff := true);
      cpu := Skip(cpu, 1);
      ticks := 4;
    }

    method Move(dst: Register, src: Register) returns (ticks: nat)
      requires board.Valid() && board.Quiet()
      modifies this`cpu
      ensures Did(old(ExecMov(Abs(), dst, src)), ticks)
    {
      cpu := SetReg(cpu, dst, Reg(cpu, src));
      cpu := Skip(cpu, 1);
      ticks := 5;
    }

    method MoveFrom(dst: Register) returns (ticks: nat)
      requires board.Valid() && board.Quiet()
      modifies Frame()
      ensures Did(old(ExecMovFromMemory(Abs(), dst)), ticks)
    {
      var v := Read(PairValue(cpu, HL));
      cpu := SetReg(cpu, dst, v);
      cpu := Skip(cpu, 1);
      ticks := 7;
    }

    method MoveTo(src: Register) returns (ticks: nat)
      requires board.Valid() && board.Quiet()
      modifies Frame()
      ensures Did(old(ExecMovToMemory(Abs(), src)), ticks)
    {
      Write(PairValue(cpu, HL), Reg(cpu, src));
      cpu := Skip(cpu, 1);
      ticks := 7;
    }

    method RetOnFlag(cond: Condition) returns (ticks: nat)
      requires board.Valid() && board.Quiet()
      modifies Frame()
      ensures Did(old(ExecRet(Abs(), cond)), ticks)
    {
      var taken := Holds(cpu.f, cond);
      cpu := Skip(cpu, 1);
      if taken {
        var high, low := PopTwo();
        cpu := cpu.(pc := Word(high, low));
        ticks := if cond.Always? then 10 else 11;
      } else {
        ticks := 5;
      }
    }

    method JmpOnFlag(cond: Condition) returns (ticks: nat)
      requires board.Valid() && board.Quiet()
      modifies Frame()
      ensures Did(old(ExecJmp(Abs(), cond)), ticks)
    {
      var taken := Holds(cpu.f, cond);
      var addr := ReadNextWord();
      cpu := if taken then cpu.(pc := addr) else Skip(cpu, 1);
      ticks := 10;
    }

    method CallOnFlag(cond: Condition) returns (ticks: nat)
      requires board.Valid() && board.Quiet()
      modifies Frame()
      ensures Did(old(ExecCall(Abs(), cond)), ticks)
    {
      var taken := Holds(cpu.f, cond);
      var addr := ReadNextWord();
      cpu := Skip(cpu, 1);
      if taken {
        PushTwo(Hi(cpu.pc), Lo(cpu.pc));
        cpu := cpu.(pc := addr);
        ticks := 17;
      } else {
        ticks := 11;
      }
    }

    method Restart(vector: byte) returns (ticks: nat)
      requires board.Valid() && board.Quiet()
      modifies Frame()
      ensures Did(old(ExecRst(Abs(), vector)), ticks)
    {
      cpu := Skip(cpu, 1);
      PushTwo(Hi(cpu.pc), Lo(cpu.pc));
      cpu := cpu.(pc := vector % 8 * 8);
      ticks := 11;
    }

    /** The restart of an acknowledged interrupt pushes the program counter as it is. */
    method Vector(restart: byte) returns (ticks: nat)
      requires board.Valid() && board.Quiet()
      modifies Frame()
      ensures Did(old(Enter(Abs(), cpu.pc, Target(restart), 11)), ticks)
    {
      PushTwo(Hi(cpu.pc), Lo(cpu.pc));
      cpu := cpu.(pc := Target(restart));
      ticks := 11;
    }

    method PushPair(p: StackPair) returns (ticks: nat)
      requires board.Valid() && board.Quiet()
      modifies Frame()
      ensures Did(old(ExecPush(Abs(), p)), ticks)
    {
      var w := StackValue(cpu, p);
      PushTwo(Hi(w), Lo(w));
      cpu := Skip(cpu, 1);
      ticks := 11;
    }

    method PopPair(p: StackPair) returns (ticks: nat)
      requires board.Valid() && board.Quiet()
      modifies Frame()
      ensures Did(old(ExecPop(Abs(), p)), ticks)
    {
      var high, low := PopTwo();
      cpu := SetStackPair(cpu, p, Word(high, low));
      cpu := Skip(cpu, 1);
      ticks := 10;
    }

    method WritePort() returns (ticks: nat)
      requires board.Valid() && board.Quiet()
      modifies Frame()
      ensures Did(old(ExecOut(Abs())), ticks)
    {
      var port := ReadNext();
      WriteToAddress(IoWrite, port, cpu.a);
      cpu := Skip(cpu, 1);
      ticks := 10;
    }

    method ReadPort() returns (ticks: nat)
      requires board.Valid() && board.Quiet()
      modifies Frame()
      ensures Did(old(ExecIn(Abs(), board.Ports())), ticks)
    {
      var port := ReadNext();
      var v := ReadFromAddress(IoRead, port);
      cpu := cpu.(a := v);
      cpu := Skip(cpu, 1);
      ticks := 10;
    }

    method ExchangeStack() returns (ticks: nat)
      requires board.Valid() && board.Quiet()
      modifies Frame()
      ensures Did(old(ExecXthl(Abs())), ticks)
    {
      var spl := Read(cpu.sp);
      var sph := Read(Plus(cpu.sp, 1));
      var low, high := cpu.l, cpu.h;
      cpu := cpu.(l := spl, h := sph);
      Write(cpu.sp, low);
      Write(Plus(cpu.sp, 1), high);
      cpu := Skip(cpu, 1);
      ticks := 18;
    }

    method JumpIndirect() returns (ticks: nat)
      requires board.Valid() && board.Quiet()
      modifies this`cpu
      ensures Did(old(ExecPchl(Abs())), ticks)
    {
      cpu := cpu.(pc := PairValue(cpu, HL));
      ticks := 5;
    }

    method SkipUndefined() returns (ticks: nat)
      requires board.Valid() && board.Quiet()
      modifies this`cpu
      ensures Did(old(ExecSkipTwo(Abs())), ticks)
    {
      cpu := Skip(cpu, 1);
      cpu := Skip(cpu, 1);
      ticks := 0;
    }

    // ---------- dispatch ----------

    method ArithIndirect(op: AluOp) returns (ticks: nat)
      requires board.Valid() && board.Quiet()
      modifies Frame()
      ensures Did(old(ExecArith(Abs(), op, M)), ticks)
    {
      ticks := ArithMemory(op, PairValue(cpu, HL));
    }

    method ArithNext(op: AluOp) returns (ticks: nat)
      requires board.Valid() && board.Quiet()
      modifies Frame()
      ensures Did(old(ExecArithImmediate(Abs(), op)), ticks)
    {
      cpu := Skip(cpu, 1);
      ticks := ArithMemory(op, cpu.pc);
    }

    /** The switch over instructions on the accumulator and the flags. */
    method PerformAdjustment(i: Instr) returns (ticks: nat)
      requires board.Valid() && board.Quiet()
      requires Adjusts(i)
      modifies this`cpu
      ensures Did(old(ExecAdjust(i, Abs())), ticks)
    {
      match i
      case Rlc => ticks := RotateLeft();
      case Rrc => ticks := RotateRight();
      case Ral => ticks := RotateLeftThroughCarry();
      case Rar => ticks := RotateRightThroughCarry();
      case Daa => ticks := DecimalAdjust();
      case Cma => ticks := ComplementAccumulator();
      case Stc => ticks := SetCarry();
      case Cmc => ticks := ComplementCarry();
    }

    /** The switch over register instructions. */
    method PerformRegister(i: Instr) returns (ticks: nat)
      requires board.Valid() && board.Quiet()
      requires Internal(i) && !Adjusts(i)
      modifies this`cpu
      ensures Did(old(ExecInternal(i, Abs())), ticks)
    {
      match i
      case Nop => ticks := NoOperation();
      case SkipTwo => ticks := SkipUndefined();
      case Inx(p) => ticks := IncrementPair(p);
      case Dcx(p) => ticks := DecrementPair(p);
      case Dad(p) => ticks := AddPair(p);
      case Mov(d, r) => ticks := Move(d, r);
      case Pchl => ticks := JumpIndirect();
      case Xchg => ticks := Exchange();
      case Sphl => ticks := LoadStackPointer();
      case Di => ticks := DisableInterrupts();
      case Ei => ticks := EnableInterrupts();
    }

    method MoveImmediate(o: Operand) returns (ticks: nat)
      requires board.Valid() && board.Quiet()
      modifies Frame()
      ensures Did(old(ExecMvi(Abs(), o)), ticks)
    {
      match o
      case R(r) => ticks := MviRegister(r);
      case M => ticks := MviMemory();
    }

    /** The switch over loads. */
    method PerformLoad(i: Instr) returns (ticks: nat)
      requires board.Valid() && board.Quiet()
      requires Loads(i)
      modifies Frame()
      ensures Did(old(ExecLoad(i, Abs())), ticks)
    {
      match i
      case Lxi(p) => ticks := LoadImmediate(p);
      case Ldax(p) => ticks := LoadIndirect(p);
      case Lhld => ticks := LoadDirectPair();
      case Lda => ticks := LoadDirect();
      case MovFromMemory(d) => ticks := MoveFrom(d);
    }

    /** The switch over stores. */
    method PerformStore(i: Instr) returns (ticks: nat)
      requires board.Valid() && board.Quiet()
      requires Stores(i)
      modifies Frame()
      ensures Did(old(ExecStore(i, Abs())), ticks)
    {
      match i
      case Stax(p) => ticks := StoreIndirect(p);
      case Mvi(o) => ticks := MoveImmediate(o);
      case Shld => ticks := StoreDirectPair();
      case Sta => ticks := StoreDirect();
      case MovToMemory(r) => ticks := MoveTo(r);
    }

    /** The switch over arithmetic with operands. */
    method PerformArithmetic(i: Instr) returns (ticks: nat)
      requires board.Valid() && board.Quiet()
      requires Computes(i)
      modifies Frame()
      ensures Did(old(ExecCompute(i, Abs())), ticks)
    {
      match i
      case Inr(R(r)) => ticks := InrRegister(r);
      case Inr(M) => ticks := InrMemory();
      case Dcr(R(r)) => ticks := DcrRegister(r);
      case Dcr(M) => ticks := DcrMemory(PairValue(cpu, HL));
      case Arith(op, R(r)) => ticks := ArithRegister(op, r);
      case Arith(op, M) => ticks := ArithIndirect(op);
      case ArithImmediate(op) => ticks := ArithNext(op);
    }

    /** The rest of the switch: control flow, the stack and the ports. `None` is a failed assertion. */
    method PerformControl(i: Instr) returns (ticks: Option<nat>)
      requires board.Valid() && board.Quiet()
      requires Controls(i)
      modifies Frame()
      ensures ticks.Some? ==> Did(old(ExecControl(i, Abs(), board.Ports())), ticks.value)
      ensures ticks.None? ==> old(ExecControl(i, Abs(), board.Ports())).Trap? && Unmoved()
    {
      var t;
      match i {
        case Ret(c) => t := RetOnFlag(c);
        case Jmp(c) => t := JmpOnFlag(c);
        case Call(c) => t := CallOnFlag(c);
        case Rst(n) => t := Restart(n);
        case Push(p) => t := PushPair(p);
        case Pop(p) => t := PopPair(p);
        case In => t := ReadPort();
        case Out => t := WritePort();
        case Xthl => t := ExchangeStack();
        case Hlt => return None;
        case Undefined => return None;
      }
      ticks := Some(t);
    }

    /** The whole switch. */
    method Perform(i: Instr) returns (ticks: Option<nat>)
      requires board.Valid() && board.Quiet()
      modifies Frame()
      ensures ticks.Some? ==> Did(old(Exec(i, Abs(), board.Ports())), ticks.value)
      ensures ticks.None? ==> old(Exec(i, Abs(), board.Ports())).Trap? && Unmoved()
    {
      if Controls(i) {
        ticks := PerformControl(i);
        return;
      }
      var t;
      if Adjusts(i) {
        t := PerformAdjustment(i);
      } else if Internal(i) {
        t := PerformRegister(i);
      } else if Loads(i) {
        t := PerformLoad(i);
      } else if Stores(i) {
        t := PerformStore(i);
      } else {
        t := PerformArithmetic(i);
      }
      ticks := Some(t);
    }

    /** Nothing but the opcode latch changed. */
    twostate predicate Unmoved()
      requires board.Valid()
      reads Frame()
    {
      && board.Quiet() && board.Lanes() == old(board.Lanes())
      && Abs() == old(Abs()) && board.io.log == old(board.io.log)
    }

    method Fetch()
      requires board.Valid() && board.Quiet()
      modifies Frame()
      ensures Unmoved() && opcode == old(Abs().mem[cpu.pc])
    {
      opcode := Read(cpu.pc);
    }

    /** The interrupt on the bus, if the interrupt lane is up: its vector is what the data bus holds. */
    ghost function Raised(): Option<byte>
      reads board.dataBus, board.controlBus
    {
      if Interrupt in board.Lanes() then Some(board.dataBus.data) else None
    }

    /** What holds between two calls of `Execute`: no transaction and no address left over, and a
        byte on the data bus only as the vector of a raised interrupt. */
    ghost predicate AtBoundary()
      reads board.addressBus, board.dataBus, board.controlBus
    {
      && board.addressBus.data == 0
      && board.Lanes() !! TRANSACTIONS
      && (Interrupt !in board.Lanes() ==> board.dataBus.data == 0)
    }

    /** Bus refinement: one call of the interpreter is one step of the architectural machine, and
        no value leaks from this call into the next. */
    method Execute() returns (ticks: Option<nat>)
      requires board.Valid() && AtBoundary()
      modifies Frame()
      ensures board.Quiet() && board.Lanes() == old(board.Lanes()) - {Interrupt}
      ensures match old(Step(Abs(), Env(Raised(), board.Ports())))
              case Trap => ticks.None? && Abs() == old(Abs()) && board.io.log == old(board.io.log)
              case Next(s, t, io) => ticks == Some(t) && Abs() == s && board.io.log == old(board.io.log) + io
    {
      var isr := None;
      var raised := board.controlBus.Receive(Interrupt);
      if raised {
        var interrupt := board.dataBus.Receive();
        if cpu.iff {
          isr := Some(interrupt);
          cpu := cpu.(iff := false);
        }
      }
      if isr.None? {
        Fetch();
        SwitchIsDecode(opcode);
        ticks := Perform(Switch(opcode));
      } else {
        opcode := RestartOpcode(isr.value);
        TargetOfRestart(isr.value);
        var t := Vector(opcode);
        ticks := Some(t);
      }
    }
  }
}
