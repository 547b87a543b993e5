/** The test i/o controllers: the request latch that ends, saves and loads a run, and the console
    that prints a string out of memory. */
module Controllers {
  import opened Types
  import opened Core
  import opened Protocol
  import History

  // ---------- the request latch ----------

  datatype Latch = Latch(powerOff: bool, save: bool, load: bool, saveAt: int)

  const FRESH := Latch(false, false, false, -1)

  /** Each write overwrites all three requests. */
  function Written(a: Latch, port: word): Latch {
    a.(powerOff := port == 0xFF, save := port == 0xFE, load := port == 0xFD)
  }

  /** Quit before save before load; a service clears the one request it reports. */
  function Asked(a: Latch, cycles: int): (Latch, Isr) {
    if a.powerOff then (a.(powerOff := false), Quit)
    else if a.save || a.saveAt == cycles then (a.(save := false), SaveRequest)
    else if a.load then (a.(load := false), LoadRequest)
    else (a, NoInterrupt)
  }

  class BaseIoController {
    var powerOff: bool
    var save: bool
    var load: bool
    var saveCycleCount: int

    constructor ()
      ensures Abs() == FRESH
    {
      powerOff, save, load, saveCycleCount := false, false, false, -1;
    }

    ghost function Abs(): Latch
      reads this
    {
      Latch(powerOff, save, load, saveCycleCount)
    }

    method SaveStateOn(cycleCount: int)
      modifies this`saveCycleCount
      ensures Abs() == old(Abs()).(saveAt := cycleCount)
    {
      saveCycleCount := cycleCount;
    }

    method Write(port: word, value: byte)
      modifies this
      ensures Abs() == Written(old(Abs()), port)
    {
      powerOff := port == 0xFF;
      save := port == 0xFE;
      load := port == 0xFD;
    }

    method ServiceInterrupts(cycles: int) returns (isr: Isr)
      modifies this
      ensures (Abs(), isr) == Asked(old(Abs()), cycles)
    {
      isr := NoInterrupt;
      if powerOff {
        isr := Quit;
        powerOff := false;
      } else if save || saveCycleCount == cycles {
        isr := SaveRequest;
        save := false;
      } else if load {
        isr := LoadRequest;
        load := false;
      }
    }
  }

  /** The ports a controller built on the latch keeps for itself: writes to them never reach the latch. */
  type Kept = ports: set<word> | 0xFF !in ports && 0xFE !in ports && 0xFD !in ports witness {}

  const TEST_KEPT: Kept := {0}
  const CPM_KEPT: Kept := {0, 1, 2}

  /** The event is a write that reaches the latch. */
  predicate IsForLatch(kept: Kept, e: IoEvent) {
    e.Output? && e.port !in kept
  }

  /** The latch after some port traffic. */
  function Latched(kept: Kept, a: Latch, io: seq<IoEvent>): Latch {
    if io == [] then a
    else
      var rest := Latched(kept, a, io[..|io| - 1]);
      if IsForLatch(kept, io[|io| - 1]) then Written(rest, io[|io| - 1].port) else rest
  }

  /** The last port written of those that reach the latch, if any. */
  function LastPort(kept: Kept, io: seq<IoEvent>): Option<word> {
    if io == [] then None
    else if IsForLatch(kept, io[|io| - 1]) then Some(io[|io| - 1].port)
    else LastPort(kept, io[..|io| - 1])
  }

  lemma LatchedOne(kept: Kept, a: Latch, e: IoEvent)
    ensures Latched(kept, a, [e]) == if IsForLatch(kept, e) then Written(a, e.port) else a
  {
    assert [e][..0] == [];
  }

  lemma {:induction false} LatchedConcat(kept: Kept, a: Latch, x: seq<IoEvent>, y: seq<IoEvent>)
    ensures Latched(kept, a, x + y) == Latched(kept, Latched(kept, a, x), y)
    decreases |y|
  {
    if y == [] {
      assert x + y == x;
    } else {
      assert (x + y)[..|x + y| - 1] == x + y[..|y| - 1];
      LatchedConcat(kept, a, x, y[..|y| - 1]);
    }
  }

  /** The request a latch holds, as the port that made it. */
  function Holding(a: Latch): Option<word> {
    if a.powerOff then Some(0xFF) else if a.save then Some(0xFE) else if a.load then Some(0xFD) else None
  }

  /** No two requests at once. */
  predicate OneRequest(a: Latch) {
    !(a.powerOff && a.save) && !(a.powerOff && a.load) && !(a.save && a.load)
  }

  /** The port whose request stands after some traffic: the last one written of those that reach the latch, or if
      none was, the one held before. */
  function Standing(kept: Kept, held: Option<word>, io: seq<IoEvent>): Option<word> {
    if LastPort(kept, io).Some? then LastPort(kept, io) else held
  }

  lemma {:induction false} LatchedByLast(kept: Kept, a: Latch, io: seq<IoEvent>)
    ensures Latched(kept, a, io)
            == match LastPort(kept, io) case None => a case Some(port) => Written(a, port)
    decreases |io|
  {
    if io != [] {
      LatchedByLast(kept, a, io[..|io| - 1]);
    }
  }

  /** What a service answers, whatever the traffic since the previous one: quit exactly if the standing request is
      port 0xFF's, save exactly if it is port 0xFE's or the cycle is the timed one and it is not port 0xFF's, load
      exactly if it is port 0xFD's and the cycle is not the timed one. Afterwards nothing is held but a load that
      stood at the timed cycle. */
  lemma AnswerIff(kept: Kept, a: Latch, io: seq<IoEvent>, cycles: int)
    requires OneRequest(a)
    ensures var p, timed := Standing(kept, Holding(a), io), cycles == a.saveAt;
            var q := Asked(Latched(kept, a, io), cycles);
            && (q.1 == Quit <==> p == Some(0xFF))
            && (q.1 == SaveRequest <==> p == Some(0xFE) || (timed && p != Some(0xFF)))
            && (q.1 == LoadRequest <==> p == Some(0xFD) && !timed)
            && (q.1 == NoInterrupt <==> p != Some(0xFF) && p != Some(0xFE) && p != Some(0xFD) && !timed)
            && Holding(q.0) == (if p == Some(0xFD) && timed then p else None)
            && OneRequest(q.0) && q.0.saveAt == a.saveAt
  {
    LatchedByLast(kept, a, io);
  }

  /** Each request is reported once: a service before which nothing reached the latch since the previous one, away
      from the timed cycle, reports no request, except the load that stood when the previous one was the timed save. */
  lemma ReportedOnce(kept: Kept, a: Latch, io: seq<IoEvent>, cycles: int, quiet: seq<IoEvent>, later: int)
    requires OneRequest(a) && LastPort(kept, quiet).None? && later != a.saveAt
    ensures var p := Standing(kept, Holding(a), io);
            Asked(Latched(kept, Asked(Latched(kept, a, io), cycles).0, quiet), later).1
            == if p == Some(0xFD) && cycles == a.saveAt then LoadRequest else NoInterrupt
  {
    AnswerIff(kept, a, io, cycles);
    AnswerIff(kept, Asked(Latched(kept, a, io), cycles).0, quiet, later);
  }

  /** OUT 0xFF followed by another OUT before the next service: the quit stands exactly if the second goes to the quit
      port again or to a port the controller keeps. */
  lemma QuitStandsIff(kept: Kept, a: Latch, port: word, v: byte, cycles: int)
    requires OneRequest(a)
    ensures Asked(Latched(kept, a, [Output(0xFF, v), Output(port, v)]), cycles).1 == Quit
            <==> port == 0xFF || port in kept
  {
    var io := [Output(0xFF, v), Output(port, v)];
    assert io[..1] == [Output(0xFF, v)];
    AnswerIff(kept, a, io, cycles);
  }

  /** Both test controllers: OUT 0xFF then OUT 3 before the next service is no request at all. */
  lemma QuitCanBeTakenBack(v: byte, cycles: int)
    requires cycles != -1
    ensures Asked(Latched(TEST_KEPT, FRESH, [Output(0xFF, v), Output(3, v)]), cycles).1 == NoInterrupt
    ensures Asked(Latched(CPM_KEPT, FRESH, [Output(0xFF, v), Output(3, v)]), cycles).1 == NoInterrupt
  {
    AnswerIff(TEST_KEPT, FRESH, [Output(0xFF, v), Output(3, v)], cycles);
    AnswerIff(CPM_KEPT, FRESH, [Output(0xFF, v), Output(3, v)], cycles);
  }

  // ---------- run termination ----------

  /** What a controller built on the latch answers: the latch's request, or else its own interrupt. */
  function Answer(a: Latch, cycles: int, own: Isr): (Latch, Isr) {
    var q := Asked(a, cycles);
    if q.1.NoInterrupt? then (q.0, own) else q
  }

  /** What it answers, and the latch afterwards, if it is time to ask. */
  function Asking(c: Config, a: Latch, m: Machine, e: Event): (Event, Latch) {
    if Due(c, m) then
      var q := Answer(a, m.total, e.isr);
      (e.(isr := q.1), q.0)
    else (e, a)
  }

  /** One turn of the machine with a controller built on the latch. The event carries the controller's own
      interrupt; the result carries what it answers, and the latch afterwards. */
  function Heard(step: Stepper, c: Config, kept: Kept, m: Machine, a: Latch, e: Event): (Event, Latch) {
    match Executed(step, m, e)
    case None => (e, a)
    case Some(r) => Asking(c, Latched(kept, a, r.1), r.0, e)
  }

  /** The events of a run with the controller's answers filled in. */
  function Filled(step: Stepper, c: Config, kept: Kept, m: Machine, a: Latch, es: seq<Event>): seq<Event>
    decreases |es|
  {
    if es == [] then []
    else
      var h := Heard(step, c, kept, m, a, es[0]);
      var t := Turn(step, c, m, h.0);
      [h.0] + if t.None? || t.value.off then [] else Filled(step, c, kept, t.value, h.1, es[1..])
  }

  /** The latch after the run. */
  function LatchAfter(step: Stepper, c: Config, kept: Kept, m: Machine, a: Latch, es: seq<Event>): Latch
    decreases |es|
  {
    if es == [] then a
    else
      var h := Heard(step, c, kept, m, a, es[0]);
      var t := Turn(step, c, m, h.0);
      if t.None? || t.value.off then h.1 else LatchAfter(step, c, kept, t.value, h.1, es[1..])
  }

  /** The port traffic of each instruction of a run. */
  function Traffic(step: Stepper, c: Config, m: Machine, es: seq<Event>): seq<seq<IoEvent>>
    decreases |es|
  {
    if es == [] || m.off || Executed(step, m, es[0]).None? then []
    else [Executed(step, m, es[0]).value.1] + Traffic(step, c, Turn(step, c, m, es[0]).value, es[1..])
  }

  /** A service: the port traffic since the one before it, the ticks at it, the controller's own interrupt, and what
      it answered. */
  datatype Hearing = Hearing(io: seq<IoEvent>, cycles: int, own: Isr, answer: Isr)

  /** The services of a run over the events `used`, of which `heard` carry the controller's own interrupts; `pending`
      is the traffic there was already. */
  function Hearings(
    step: Stepper, c: Config, m: Machine, heard: seq<Event>, used: seq<Event>, pending: seq<IoEvent>): seq<Hearing>
    requires |used| <= |heard|
    decreases |used|
  {
    if used == [] || m.off || Executed(step, m, used[0]).None? then []
    else
      var r := Executed(step, m, used[0]).value;
      var t := Turn(step, c, m, used[0]).value;
      if Due(c, r.0) then
        [Hearing(pending + r.1, r.0.total, heard[0].isr, used[0].isr)] + Hearings(step, c, t, heard[1..], used[1..], [])
      else Hearings(step, c, t, heard[1..], used[1..], pending + r.1)
  }

  /** A run that goes on by one more event hears the answer of the latch it has come to. */
  lemma {:induction false} FilledOneMore(
    step: Stepper, c: Config, kept: Kept, m: Machine, a: Latch, es: seq<Event>, e: Event)
    requires var t := Turns(step, c, m, Filled(step, c, kept, m, a, es)); t.Some? && !t.value.off
    requires !m.off
    ensures var m' := Turns(step, c, m, Filled(step, c, kept, m, a, es)).value;
            var h := Heard(step, c, kept, m', LatchAfter(step, c, kept, m, a, es), e);
            && Filled(step, c, kept, m, a, es + [e]) == Filled(step, c, kept, m, a, es) + [h.0]
            && LatchAfter(step, c, kept, m, a, es + [e]) == h.1
    decreases |es|
  {
    if es == [] {
      assert es + [e] == [e] && [e][1..] == [];
      var h := Heard(step, c, kept, m, a, e);
      assert [h.0] + [] == [] + [h.0];
    } else {
      var h := Heard(step, c, kept, m, a, es[0]);
      var t := Turn(step, c, m, h.0);
      assert (es + [e])[0] == es[0] && (es + [e])[1..] == es[1..] + [e];
      assert Filled(step, c, kept, m, a, es)[0] == h.0;
      assert t.Some? && !t.value.off;
      assert Filled(step, c, kept, m, a, es)[1..] == Filled(step, c, kept, t.value, h.1, es[1..]);
      FilledOneMore(step, c, kept, t.value, h.1, es[1..], e);
    }
  }

  /** The answer does not change what executes. */
  lemma HeardTurn(step: Stepper, c: Config, kept: Kept, m: Machine, a: Latch, e: Event)
    requires Executed(step, m, e).Some?
    ensures var r := Executed(step, m, e).value;
            var h := Heard(step, c, kept, m, a, e);
            && h == Asking(c, Latched(kept, a, r.1), r.0, e)
            && Executed(step, m, h.0) == Executed(step, m, e)
            && Turn(step, c, m, h.0) == Some(Settle(c, r.0, h.0))
  {
    var h := Heard(step, c, kept, m, a, e);
    assert Executed(step, m, e.(isr := h.0.isr)) == Executed(step, m, e);
    assert h.0 == e.(isr := h.0.isr);
  }

  /** Every service answers with the standing request, and with the controller's own interrupt only if there is none. */
  ghost predicate AnswersRight(kept: Kept, saveAt: int, held: Option<word>, hs: seq<Hearing>)
    decreases |hs|
  {
    hs == [] || (
      var p, timed := Standing(kept, held, hs[0].io), hs[0].cycles == saveAt;
      && hs[0].answer == (if p == Some(0xFF) then Quit
                          else if p == Some(0xFE) || timed then SaveRequest
                          else if p == Some(0xFD) then LoadRequest
                          else hs[0].own)
      && AnswersRight(kept, saveAt, if p == Some(0xFD) && timed then p else None, hs[1..]))
  }

  lemma {:induction false} FilledLength(step: Stepper, c: Config, kept: Kept, m: Machine, a: Latch, es: seq<Event>)
    ensures |Filled(step, c, kept, m, a, es)| <= |es|
    decreases |es|
  {
    if es != [] {
      var h := Heard(step, c, kept, m, a, es[0]);
      var t := Turn(step, c, m, h.0);
      if t.Some? {
        FilledLength(step, c, kept, t.value, h.1, es[1..]);
      }
    }
  }

  /** One service: the answer, and what the latch holds afterwards. */
  lemma HeardRight(step: Stepper, c: Config, kept: Kept, m: Machine, a: Latch, pending: seq<IoEvent>, e: Event)
    requires OneRequest(a) && Executed(step, m, e).Some?
    ensures var b := Latched(kept, a, pending);
            var h := Heard(step, c, kept, m, b, e);
            var r := Executed(step, m, e).value;
            && Executed(step, m, h.0) == Some(r)
            && Turn(step, c, m, h.0).Some?
            && if Due(c, r.0) then
                 var p, timed := Standing(kept, Holding(a), pending + r.1), r.0.total == a.saveAt;
                 && OneRequest(h.1) && h.1.saveAt == a.saveAt
                 && AnswersRight(kept, a.saveAt, Holding(a), [Hearing(pending + r.1, r.0.total, e.isr, h.0.isr)])
                 && Holding(h.1) == (if p == Some(0xFD) && timed then p else None)
               else h.1 == Latched(kept, a, pending + r.1)
  {
    var b := Latched(kept, a, pending);
    HeardTurn(step, c, kept, m, b, e);
    var r := Executed(step, m, e).value;
    LatchedConcat(kept, a, pending, r.1);
    AnswerIff(kept, a, pending + r.1, r.0.total);
  }

  /** Over every run of a controller built on the latch, each service answers right. */
  lemma {:induction false} AnswersHeard(
    step: Stepper, c: Config, kept: Kept, m: Machine, a: Latch, pending: seq<IoEvent>, es: seq<Event>)
    requires !m.off && OneRequest(a)
    ensures var used := Filled(step, c, kept, m, Latched(kept, a, pending), es);
            |used| <= |es| && AnswersRight(kept, a.saveAt, Holding(a), Hearings(step, c, m, es, used, pending))
    decreases |es|
  {
    var b := Latched(kept, a, pending);
    FilledLength(step, c, kept, m, b, es);
    if es != [] && Executed(step, m, es[0]).Some? {
      HeardRight(step, c, kept, m, a, pending, es[0]);
      var h := Heard(step, c, kept, m, b, es[0]);
      var r := Executed(step, m, es[0]).value;
      var t := Turn(step, c, m, h.0).value;
      var rest := if t.off then [] else Filled(step, c, kept, t, h.1, es[1..]);
      assert Filled(step, c, kept, m, b, es) == [h.0] + rest;
      assert ([h.0] + rest)[1..] == rest;
      if !t.off {
        if Due(c, r.0) {
          AnswersHeard(step, c, kept, t, h.1, [], es[1..]);
        } else {
          AnswersHeard(step, c, kept, t, a, pending + r.1, es[1..]);
        }
      }
    }
  }

  /** Off exactly if the last service answered quit, and no earlier one did. */
  predicate EndsAtQuit(off: bool, hs: seq<Hearing>) {
    && (off <==> hs != [] && hs[|hs| - 1].answer == Quit)
    && forall k :: 0 <= k < |hs| - 1 ==> hs[k].answer != Quit
  }

  /** Run termination, for every run of the protocol: it ends in exactly the first service that answers quit. */
  lemma {:induction false} StopsAtFirstQuit(
    step: Stepper, c: Config, m: Machine, heard: seq<Event>, used: seq<Event>, pending: seq<IoEvent>)
    requires !m.off && |used| <= |heard| && Turns(step, c, m, used).Some?
    ensures EndsAtQuit(Turns(step, c, m, used).value.off, Hearings(step, c, m, heard, used, pending))
    decreases |used|
  {
    if used != [] {
      var r := Executed(step, m, used[0]).value;
      var t := Turn(step, c, m, used[0]).value;
      History.ServeLeaves(c, r.0, used[0]);
      if !t.off {
        StopsAtFirstQuit(step, c, t, heard[1..], used[1..], if Due(c, r.0) then [] else pending + r.1);
      }
    }
  }

  /** The services hear these stretches of traffic, one each. */
  ghost predicate HearsEach(hs: seq<Hearing>, io: seq<seq<IoEvent>>) {
    |hs| == |io| && forall k :: 0 <= k < |io| ==> hs[k].io == io[k]
  }

  /** With a service after every instruction the traffic between services is that of each instruction. */
  lemma {:induction false} HearingsEvery(
    step: Stepper, c: Config, m: Machine, heard: seq<Event>, used: seq<Event>)
    requires c.ticksPerIsr <= 0 && m.last <= m.total && |used| <= |heard|
    ensures HearsEach(Hearings(step, c, m, heard, used, []), Traffic(step, c, m, used))
    decreases |used|
  {
    if used != [] && !m.off && Executed(step, m, used[0]).Some? {
      var r := Executed(step, m, used[0]).value;
      assert [] + r.1 == r.1;
      History.ServeLeaves(c, r.0, used[0]);
      HearingsEvery(step, c, Turn(step, c, m, used[0]).value, heard[1..], used[1..]);
    }
  }

  // ---------- the timer ----------

  /** Unsigned 64-bit time in nanoseconds. */
  type time64 = t: int | 0 <= t < 0x1_0000_0000_0000_0000

  /** Unsigned subtraction wraps. */
  function Since(now: time64, before: time64): time64 {
    if now >= before then now - before else now - before + 0x1_0000_0000_0000_0000
  }

  /** The test controller's own interrupt: one a second. */
  predicate Fires(now: time64, last: time64) {
    Since(now, last) > 1000000000
  }

  /** After the clock has restarted the last time is stale. It is not put back: the difference is unsigned, so the
      interrupt fires at once, unless the clock went back by nearly the whole range of the counter. */
  lemma StaleTimerFires(now: time64, last: time64)
    requires now < last
    ensures Fires(now, last) <==> last - now < 0x1_0000_0000_0000_0000 - 1000000000
  {
  }

  class TestIoController {
    const base: BaseIoController
    var lastTime: time64
    var deviceData: byte

    constructor (base: BaseIoController)
      ensures this.base == base && lastTime == 0 && deviceData == 0xAA
    {
      this.base := base;
      lastTime, deviceData := 0, 0xAA;
    }

    method Read(port: word) returns (v: byte)
      ensures v == if port == 0 then deviceData else 0
    {
      v := if port == 0 then deviceData else 0;
    }

    /** Port 0 is the device's; the others are the latch's. */
    method Write(port: word, value: byte)
      modifies this`deviceData, base
      ensures base.Abs() == Latched(TEST_KEPT, old(base.Abs()), [Output(port, value)])
      ensures deviceData == if port == 0 then value else old(deviceData)
    {
      LatchedOne(TEST_KEPT, base.Abs(), Output(port, value));
      match port
      case 0 => deviceData := value;
      case _ => base.Write(port, value);
    }

    /** The latch's request first, else an interrupt if a second has passed since the last one. */
    method ServiceInterrupts(currTime: time64, cycles: int) returns (isr: Isr)
      modifies this`lastTime, base
      ensures var own := if Fires(currTime, old(lastTime)) then Vector(1) else NoInterrupt;
              && (base.Abs(), isr) == Answer(old(base.Abs()), cycles, own)
              && lastTime == if Asked(old(base.Abs()), cycles).1.NoInterrupt? && own.Vector? then currTime
                             else old(lastTime)
    {
      isr := base.ServiceInterrupts(cycles);
      if isr.NoInterrupt? {
        // The difference is unsigned, so it is never negative and a stale time is never put back.
        if Since(currTime, lastTime) > 1000000000 {
          lastTime := currTime;
          isr := Vector(1);
        }
      }
    }
  }

  // ---------- the console ----------

  /** The address `k` places on from `addr`, around the 64K circle. */
  function Onward(addr: word, k: nat): word
    requires k < 0x10000
  {
    Plus(addr, k)
  }

  /** `d` is how far on the first '$' stands. */
  predicate FirstDollar(m: Mem, addr: word, d: nat) {
    && d < 0x10000
    && m[Onward(addr, d)] == 0x24
    && forall k :: 0 <= k < d ==> m[Onward(addr, k)] != 0x24
  }

  lemma {:induction false} NearestDollar(m: Mem, addr: word, far: nat) returns (d: nat)
    requires far < 0x10000 && m[Onward(addr, far)] == 0x24
    ensures d <= far && FirstDollar(m, addr, d)
    decreases far
  {
    if k :| 0 <= k < far && m[Onward(addr, k)] == 0x24 {
      d := NearestDollar(m, addr, k);
    } else {
      d := far;
    }
  }

  /** A dollar anywhere is some distance on from any address. */
  lemma DollarAhead(m: Mem, addr: word, x: word) returns (d: nat)
    requires m[x] == 0x24
    ensures FirstDollar(m, addr, d)
  {
    var far := if x >= addr then x - addr else x - addr + 0x10000;
    assert Onward(addr, far) == x;
    d := NearestDollar(m, addr, far);
  }

  /** The `d` bytes from `addr` on. */
  function Text(m: Mem, addr: word, d: nat): (t: seq<byte>)
    requires d <= 0x10000
    ensures |t| == d
  {
    seq(d, k requires 0 <= k < d && d <= 0x10000 => m[Onward(addr, k)])
  }

  class CpmIoController {
    const base: BaseIoController
    var message: seq<byte>
    var printMode: byte
    var addrHi: byte

    constructor (base: BaseIoController)
      ensures this.base == base && message == [] && printMode == 0 && addrHi == 0
    {
      this.base := base;
      message, printMode, addrHi := [], 0, 0;
    }

    /** Hand the message over and start an empty one. */
    method Message() returns (text: seq<byte>)
      modifies this`message
      ensures text == old(message) && message == []
    {
      text := message;
      message := [];
    }

    method Read(port: word) returns (v: byte)
      ensures v == 0
    {
      v := 0;
    }

    /** Port 0 sets the mode, port 1 the high address byte, port 2 prints: in mode 9 the string at the
        address up to the first '$', in mode 2 the byte. Other ports are the latch's. Printing a
        string does not end unless there is a '$' in memory. */
    method Write(port: word, value: byte, memory: Mem)
      requires port == 2 && printMode == 9 ==> exists x: word :: memory[x] == 0x24
      modifies this`message, this`printMode, this`addrHi, base
      ensures base.Abs() == Latched(CPM_KEPT, old(base.Abs()), [Output(port, value)])
      ensures printMode == if port == 0 then value else old(printMode)
      ensures addrHi == if port == 1 then value else old(addrHi)
      ensures port == 2 && old(printMode) == 9 ==>
                var addr := Word(old(addrHi), value);
                exists d: nat :: FirstDollar(memory, addr, d) && message == old(message) + Text(memory, addr, d)
      ensures port == 2 && old(printMode) == 2 ==> message == old(message) + [value]
      ensures !(port == 2 && (old(printMode) == 9 || old(printMode) == 2)) ==> message == old(message)
    {
      LatchedOne(CPM_KEPT, base.Abs(), Output(port, value));
      match port
      case 0 => printMode := value;
      case 1 => addrHi := value;
      case 2 =>
        match printMode {
          case 9 =>
            var start := Word(addrHi, value);
            ghost var x: word :| memory[x] == 0x24;
            ghost var d := DollarAhead(memory, start, x);
            var addr := start;
            var aChar := memory[addr];
            ghost var k := 0;
            while aChar != 0x24
              invariant 0 <= k <= d && addr == Onward(start, k) && aChar == memory[addr]
              invariant message == old(message) + Text(memory, start, k)
              invariant base.Abs() == old(base.Abs()) && printMode == old(printMode) && addrHi == old(addrHi)
              decreases d - k
            {
              assert Text(memory, start, k + 1) == Text(memory, start, k) + [aChar];
              message := message + [aChar];
              addr := Plus(addr, 1);
              aChar := memory[addr];
              k := k + 1;
            }
            assert k == d;
          case 2 => message := message + [value];
          case _ =>
        }
      case _ => base.Write(port, value);
    }
  }
}
