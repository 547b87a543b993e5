/** The pacing clock as arithmetic: ticks accumulate until a sync, which sleeps and spins away the
    surplus and carries what it overslept into the next one. Times are nanoseconds. */
module Pacing {
  /** `resolution` is the number of ticks between syncs; negative means never to wait. */
  datatype Clock = Clock(period: int, resolution: int, tickCount: int, error: int, epoch: int, lastTime: int, time: int)

  /** The readings of the host clock during one call: on entry, around the sleep, around the spin,
      and the final stamp. A call that does not sleep or spin has equal readings around it. */
  datatype Readings = Readings(entry: int, sleepStart: int, sleepEnd: int, spinStart: int, spinEnd: int, stamp: int)

  const SLEEP_THRESHOLD := 1000000

  predicate Syncs(resolution: int, count: int, ticks: nat) {
    resolution >= 0 && count + ticks >= resolution
  }

  /** The tick count after a call. */
  function Count(resolution: int, count: int, ticks: nat): int {
    if resolution < 0 then count else if Syncs(resolution, count, ticks) then 0 else count + ticks
  }

  /** How long the ticks should still take. */
  function Surplus(c: Clock, ticks: nat, x: Readings): int {
    (c.tickCount + ticks) * c.period - (x.entry - c.lastTime) + c.error
  }

  function Unslept(c: Clock, ticks: nat, x: Readings): int {
    var n := Surplus(c, ticks, x);
    if n >= SLEEP_THRESHOLD then n - (x.sleepEnd - x.sleepStart) else n
  }

  function NewError(c: Clock, ticks: nat, x: Readings): int {
    var n := Unslept(c, ticks, x);
    if n > 0 then x.spinStart + n - x.spinEnd else n
  }

  function Ticked(c: Clock, ticks: nat, x: Readings): Clock {
    if Syncs(c.resolution, c.tickCount, ticks) then
      c.(tickCount := 0, error := NewError(c, ticks, x), lastTime := x.stamp, time := x.stamp - c.epoch)
    else if c.resolution < 0 then
      c.(lastTime := x.stamp, time := x.stamp - c.epoch)
    else
      c.(tickCount := c.tickCount + ticks)
  }

  /** Readings a nondecreasing host clock can produce: in order, and the spin ends no earlier than it should. */
  predicate Plausible(c: Clock, ticks: nat, x: Readings) {
    && c.lastTime <= x.entry <= x.sleepStart <= x.sleepEnd <= x.spinStart <= x.spinEnd <= x.stamp
    && (Surplus(c, ticks, x) < SLEEP_THRESHOLD ==> x.sleepStart == x.sleepEnd)
    && (if Unslept(c, ticks, x) > 0 then x.spinEnd >= x.spinStart + Unslept(c, ticks, x) else x.spinEnd == x.spinStart)
  }

  /** Readings of a call: plausible if it syncs, and if the clock never waits, no earlier than the last one. */
  predicate Seen(c: Clock, ticks: nat, x: Readings) {
    && (Syncs(c.resolution, c.tickCount, ticks) ==> Plausible(c, ticks, x))
    && (c.resolution < 0 ==> c.lastTime <= x.stamp)
  }

  /** The time of a call no instrument covers: from entry to sleep, from sleep to spin, from spin to stamp. */
  function Uncovered(x: Readings): int {
    (x.sleepStart - x.entry) + (x.spinStart - x.sleepEnd) + (x.stamp - x.spinEnd)
  }

  /** One sync: the time it took is the ticks' time, plus the error carried in, minus the error
      carried out, plus the uncovered time; and the error carried out is an oversleep. */
  lemma SyncConserves(c: Clock, ticks: nat, x: Readings)
    requires Plausible(c, ticks, x)
    ensures NewError(c, ticks, x) <= 0 <= Uncovered(x)
    ensures x.stamp - c.lastTime == (c.tickCount + ticks) * c.period + c.error - NewError(c, ticks, x) + Uncovered(x)
  {
  }

  // ---------- runs ----------

  datatype Call = Call(ticks: nat, x: Readings)

  function Ran(c: Clock, calls: seq<Call>): Clock
    decreases |calls|
  {
    if calls == [] then c else Ran(Ticked(c, calls[0].ticks, calls[0].x), calls[1..])
  }

  /** Every call of the run saw readings it can. */
  predicate PlausibleRun(c: Clock, calls: seq<Call>)
    decreases |calls|
  {
    calls == [] || (
      && Seen(c, calls[0].ticks, calls[0].x)
      && PlausibleRun(Ticked(c, calls[0].ticks, calls[0].x), calls[1..]))
  }

  /** A run that goes on by one more call. */
  lemma {:induction false} RanOneMore(c: Clock, calls: seq<Call>, call: Call)
    ensures Ran(c, calls + [call]) == Ticked(Ran(c, calls), call.ticks, call.x)
    ensures TicksOf(calls + [call]) == TicksOf(calls) + [call.ticks]
    ensures PlausibleRun(c, calls + [call]) <==>
              var d := Ran(c, calls);
              PlausibleRun(c, calls) && Seen(d, call.ticks, call.x)
    decreases |calls|
  {
    if calls == [] {
      assert calls + [call] == [call] && [call][1..] == [];
    } else {
      assert (calls + [call])[0] == calls[0] && (calls + [call])[1..] == calls[1..] + [call];
      RanOneMore(Ticked(c, calls[0].ticks, calls[0].x), calls[1..], call);
    }
  }

  /** Uncovered time summed over the syncs of a run. */
  function Slack(c: Clock, calls: seq<Call>): int
    decreases |calls|
  {
    if calls == [] then 0
    else
      (if Syncs(c.resolution, c.tickCount, calls[0].ticks) then Uncovered(calls[0].x) else 0)
      + Slack(Ticked(c, calls[0].ticks, calls[0].x), calls[1..])
  }

  function TicksOf(calls: seq<Call>): seq<nat> {
    if calls == [] then [] else [calls[0].ticks] + TicksOf(calls[1..])
  }

  function Sum(ks: seq<nat>): nat {
    if ks == [] then 0 else ks[0] + Sum(ks[1..])
  }

  /** Pacing conservation. Over any run with a resolution, what the clock advanced is the time of all
      ticks synced, plus the error it started with minus the error it ends with, plus the uncovered
      time of its syncs: an oversleep is carried exactly once. */
  lemma {:induction false} PacingConserved(c: Clock, calls: seq<Call>)
    requires c.resolution >= 0 && PlausibleRun(c, calls)
    ensures var d := Ran(c, calls);
            && Slack(c, calls) >= 0
            && d.period == c.period && d.epoch == c.epoch && d.resolution == c.resolution
            && d.lastTime - c.lastTime
               == (c.tickCount + Sum(TicksOf(calls)) - d.tickCount) * c.period + c.error - d.error + Slack(c, calls)
            && (c.error <= 0 ==> d.error <= 0)
    decreases |calls|
  {
    if calls != [] {
      var call := calls[0];
      var d := Ticked(c, call.ticks, call.x);
      var done := c.tickCount + call.ticks - d.tickCount;
      var rest := d.tickCount + Sum(TicksOf(calls[1..])) - Ran(d, calls[1..]).tickCount;
      PacingConserved(d, calls[1..]);
      if Syncs(c.resolution, c.tickCount, call.ticks) {
        SyncConserves(c, call.ticks, call.x);
      }
      assert (done + rest) * c.period == done * c.period + rest * c.period;
    }
  }

  // ---------- a clock that never waits ----------

  lemma {:induction false} PlausiblePrefix(c: Clock, calls: seq<Call>, n: nat)
    requires PlausibleRun(c, calls) && n <= |calls|
    ensures PlausibleRun(c, calls[..n])
    decreases n
  {
    if n > 0 {
      assert calls[..n][1..] == calls[1..][..n - 1];
      PlausiblePrefix(Ticked(c, calls[0].ticks, calls[0].x), calls[1..], n - 1);
    }
  }

  /** A clock with a negative resolution tells the time at every call, and carries what it carried. */
  lemma {:induction false} TimeAtEveryCall(c: Clock, calls: seq<Call>)
    requires c.resolution < 0 && PlausibleRun(c, calls) && calls != []
    ensures var now := calls[|calls| - 1].x.stamp;
            Ran(c, calls) == c.(lastTime := now, time := now - c.epoch) && c.lastTime <= calls[0].x.stamp <= now
    decreases |calls|
  {
    var d := Ticked(c, calls[0].ticks, calls[0].x);
    if |calls| > 1 {
      TimeAtEveryCall(d, calls[1..]);
    } else {
      assert Ran(d, calls[1..]) == d;
    }
  }

  /** What a clock that never waits reports after a call is the reading of that call minus the epoch, and that never
      goes back; tick count and error stay. */
  lemma NeverWaits(c: Clock, calls: seq<Call>, i: nat, j: nat)
    requires c.resolution < 0 && PlausibleRun(c, calls) && 0 < i <= j <= |calls|
    ensures var d, e := Ran(c, calls[..i]), Ran(c, calls[..j]);
            && e == c.(lastTime := calls[j - 1].x.stamp, time := calls[j - 1].x.stamp - c.epoch)
            && c.lastTime - c.epoch <= d.time <= e.time
  {
    PlausiblePrefix(c, calls, i);
    TimeAtEveryCall(c, calls[..i]);
    PlausiblePrefix(c, calls, j);
    TimeAtEveryCall(c, calls[..j]);
    ReadingsInOrder(c, calls, i - 1, j - 1);
  }

  lemma {:induction false} ReadingsInOrder(c: Clock, calls: seq<Call>, i: nat, j: nat)
    requires c.resolution < 0 && PlausibleRun(c, calls) && i <= j < |calls|
    ensures calls[i].x.stamp <= calls[j].x.stamp
    decreases |calls|
  {
    var d := Ticked(c, calls[0].ticks, calls[0].x);
    if i > 0 {
      ReadingsInOrder(d, calls[1..], i - 1, j - 1);
    } else if j > 0 {
      PlausiblePrefix(c, calls, j + 1);
      TimeAtEveryCall(c, calls[..j + 1]);
    }
  }

  /** The calls of a clock that never waits tell the time, each and in order. */
  ghost predicate TellsTime(c: Clock, calls: seq<Call>) {
    forall i, j :: 0 < i <= j <= |calls| ==>
      var d, e := Ran(c, calls[..i]), Ran(c, calls[..j]);
      && e == c.(lastTime := calls[j - 1].x.stamp, time := calls[j - 1].x.stamp - c.epoch)
      && c.lastTime - c.epoch <= d.time <= e.time
  }

  lemma AlwaysTellsTime(c: Clock, calls: seq<Call>)
    requires c.resolution < 0 && PlausibleRun(c, calls)
    ensures TellsTime(c, calls)
  {
    forall i, j | 0 < i <= j <= |calls|
      ensures var d, e := Ran(c, calls[..i]), Ran(c, calls[..j]);
              && e == c.(lastTime := calls[j - 1].x.stamp, time := calls[j - 1].x.stamp - c.epoch)
              && c.lastTime - c.epoch <= d.time <= e.time
    {
      NeverWaits(c, calls, i, j);
    }
  }

  // ---------- the least time a run can report ----------

  /** A clock just reset: its epoch is its last reading. Error, tick count and reported time are what they were. */
  function Restarted(c: Clock, now: int): Clock {
    c.(epoch := now, lastTime := now)
  }

  /** The ticks left unsynced after a run of these costs. */
  function Pending(resolution: int, count: int, ks: seq<nat>): int
    decreases |ks|
  {
    if ks == [] then count else Pending(resolution, Count(resolution, count, ks[0]), ks[1..])
  }

  /** Some call of the run syncs. */
  predicate SyncsIn(resolution: int, count: int, ks: seq<nat>)
    decreases |ks|
  {
    ks != [] && (Syncs(resolution, count, ks[0]) || SyncsIn(resolution, Count(resolution, count, ks[0]), ks[1..]))
  }

  function NotNegative(n: int): nat {
    if n < 0 then 0 else n
  }

  /** The ticks a run of these costs syncs. */
  function Synced(c: Clock, ks: seq<nat>): int {
    (c.tickCount - Pending(c.resolution, c.tickCount, ks)) + Sum(ks)
  }

  /** The least time a run of these costs can report: the time an earlier run left if it never syncs. */
  function Least(c: Clock, ks: seq<nat>): int {
    if SyncsIn(c.resolution, c.tickCount, ks) then
      c.lastTime - c.epoch + NotNegative(Synced(c, ks) * c.period + c.error)
    else c.time
  }

  /** After a run that syncs, the reported time is the last reading minus the epoch; before any sync it is
      the time an earlier run left. */
  lemma {:induction false} TimeAtSync(c: Clock, calls: seq<Call>)
    requires c.resolution >= 0 && PlausibleRun(c, calls)
    ensures var d := Ran(c, calls);
            && d.lastTime >= c.lastTime && d.epoch == c.epoch
            && d.tickCount == Pending(c.resolution, c.tickCount, TicksOf(calls))
            && if SyncsIn(c.resolution, c.tickCount, TicksOf(calls)) then d.time == d.lastTime - d.epoch
               else d.time == c.time && d.lastTime == c.lastTime
    decreases |calls|
  {
    if calls != [] {
      var d := Ticked(c, calls[0].ticks, calls[0].x);
      assert TicksOf(calls)[1..] == TicksOf(calls[1..]);
      assert d.tickCount == Count(c.resolution, c.tickCount, calls[0].ticks);
      TimeAtSync(d, calls[1..]);
    }
  }

  /** No host clock makes a run report less. */
  lemma LeastTime(c: Clock, calls: seq<Call>)
    requires c.resolution >= 0 && c.error <= 0 && PlausibleRun(c, calls)
    ensures Ran(c, calls).time >= Least(c, TicksOf(calls))
  {
    PacingConserved(c, calls);
    TimeAtSync(c, calls);
  }

  /** The time the ticks up to this sync should have taken since the last one. */
  function Owed(c: Clock, ticks: nat): int {
    (c.tickCount + ticks) * c.period + c.error
  }

  /** The readings of a host that comes to a sync `late` after the earliest it may. */
  function Arrives(c: Clock, ticks: nat, late: nat): Readings {
    var t := c.lastTime + NotNegative(Owed(c, ticks)) + late;
    Readings(t, t, t, t, t, t)
  }

  /** A run in which every call comes as early as it may, but for the last, which is `late`. */
  function Hosted(c: Clock, ks: seq<nat>, late: nat): seq<Call>
    decreases |ks|
  {
    if ks == [] then []
    else
      var x := Arrives(c, ks[0], if |ks| == 1 then late else 0);
      [Call(ks[0], x)] + Hosted(Ticked(c, ks[0], x), ks[1..], late)
  }

  lemma {:induction false} HostedPlausible(c: Clock, ks: seq<nat>, late: nat)
    ensures PlausibleRun(c, Hosted(c, ks, late)) && TicksOf(Hosted(c, ks, late)) == ks
    decreases |ks|
  {
    if ks != [] {
      var late' := if |ks| == 1 then late else 0;
      var x := Arrives(c, ks[0], late');
      HostedPlausible(Ticked(c, ks[0], x), ks[1..], late);
      assert Hosted(c, ks, late)[1..] == Hosted(Ticked(c, ks[0], x), ks[1..], late);
    }
  }

  lemma {:induction false} PendingBound(resolution: int, count: nat, ks: seq<nat>)
    requires resolution >= 0
    ensures 0 <= Pending(resolution, count, ks) <= count + Sum(ks)
    ensures !SyncsIn(resolution, count, ks) ==> Pending(resolution, count, ks) == count + Sum(ks)
    decreases |ks|
  {
    if ks != [] {
      PendingBound(resolution, Count(resolution, count, ks[0]), ks[1..]);
    }
  }

  /** What is left to make up after a sync, and after the run behind it. */
  lemma SplitOwed(period: nat, ticks: nat, more: nat, error: int)
    requires error <= 0
    ensures var owed := ticks * period + error;
            NotNegative(owed) + NotNegative(more * period + owed - NotNegative(owed))
            == NotNegative((ticks + more) * period + error)
  {
    assert (ticks + more) * period == ticks * period + more * period;
    assert more * period >= 0;
  }

  /** The least time is attained. */
  lemma {:induction false} LeastAttained(c: Clock, ks: seq<nat>)
    requires c.resolution >= 0 && c.error <= 0 && c.tickCount >= 0 && c.period >= 0
    ensures Ran(c, Hosted(c, ks, 0)).time == Least(c, ks)
    decreases |ks|
  {
    if ks != [] {
      var x := Arrives(c, ks[0], 0);
      var d := Ticked(c, ks[0], x);
      LeastAttained(d, ks[1..]);
      assert Hosted(c, ks, 0)[1..] == Hosted(d, ks[1..], 0);
      if Syncs(c.resolution, c.tickCount, ks[0]) {
        PendingBound(c.resolution, 0, ks[1..]);
        SplitOwed(c.period, c.tickCount + ks[0], Synced(d, ks[1..]), c.error);
      }
    }
  }

  // ---------- the promise of the clock ----------

  /** Whatever the host clock reads, a run of these costs reports no less than the time its ticks emulate. */
  ghost predicate NeverShort(c: Clock, ks: seq<nat>) {
    forall calls :: PlausibleRun(c, calls) && TicksOf(calls) == ks ==> Ran(c, calls).time >= Sum(ks) * c.period
  }

  lemma NeverShortIffLeast(c: Clock, ks: seq<nat>)
    requires c.resolution >= 0 && c.error <= 0 && c.tickCount >= 0 && c.period >= 0
    ensures NeverShort(c, ks) <==> Least(c, ks) >= Sum(ks) * c.period
  {
    HostedPlausible(c, ks, 0);
    LeastAttained(c, ks);
    if Least(c, ks) >= Sum(ks) * c.period {
      forall calls | PlausibleRun(c, calls) && TicksOf(calls) == ks
        ensures Ran(c, calls).time >= Sum(ks) * c.period
      {
        LeastTime(c, calls);
      }
    }
  }

  /** The promise, exactly. A run of the reset clock that syncs never reports less than it emulates if and only
      if the ticks left over from an earlier run pay for the oversleep carried in and the ticks pending at the
      end; a run that never syncs reports the time an earlier run left. */
  lemma NeverShortIff(c: Clock, now: int, ks: seq<nat>)
    requires c.resolution >= 0 && c.error <= 0 && c.tickCount >= 0 && c.period >= 1 && Sum(ks) > 0
    ensures NeverShort(Restarted(c, now), ks) <==>
              if SyncsIn(c.resolution, c.tickCount, ks) then
                (c.tickCount - Pending(c.resolution, c.tickCount, ks)) * c.period + c.error >= 0
              else c.time >= Sum(ks) * c.period
  {
    var d := Restarted(c, now);
    NeverShortIffLeast(d, ks);
    Distribute(c.tickCount - Pending(c.resolution, c.tickCount, ks), Sum(ks), c.period);
  }

  lemma Distribute(left: int, sum: nat, period: nat)
    requires sum > 0 && period > 0
    ensures (left + sum) * period == left * period + sum * period
    ensures sum * period > 0
  {
  }

  /** With no ticks left over, a run never reports less than it emulates if and only if no oversleep was
      carried in and its last instruction syncs. */
  lemma NeverShortIffNothingCarried(c: Clock, now: int, ks: seq<nat>, k: nat)
    requires c.resolution >= 0 && c.error <= 0 && c.tickCount == 0 && c.period >= 1 && k > 0
    requires SyncsIn(c.resolution, 0, ks + [k])
    ensures NeverShort(Restarted(c, now), ks + [k])
            <==> c.error == 0 && Syncs(c.resolution, Pending(c.resolution, 0, ks), k)
  {
    var pending := Pending(c.resolution, 0, ks + [k]);
    SumOneMore(ks, k);
    PendingOneMore(c.resolution, 0, ks, k);
    PendingBound(c.resolution, 0, ks);
    PendingBound(c.resolution, 0, ks + [k]);
    NeverShortIff(c, now, ks + [k]);
    assert (0 - pending) * c.period + c.error >= 0 <==> pending == 0 && c.error == 0;
  }

  lemma {:induction false} SumOneMore(ks: seq<nat>, k: nat)
    ensures Sum(ks + [k]) == Sum(ks) + k
  {
    if ks == [] {
      assert ks + [k] == [k] && [k][1..] == [];
    } else {
      assert (ks + [k])[1..] == ks[1..] + [k];
      SumOneMore(ks[1..], k);
    }
  }

  lemma {:induction false} PendingOneMore(resolution: int, count: int, ks: seq<nat>, k: nat)
    ensures Pending(resolution, count, ks + [k]) == Count(resolution, Pending(resolution, count, ks), k)
    decreases |ks|
  {
    if ks == [] {
      assert ks + [k] == [k] && [k][1..] == [];
    } else {
      assert (ks + [k])[1..] == ks[1..] + [k];
      PendingOneMore(resolution, Count(resolution, count, ks[0]), ks[1..], k);
    }
  }

  // ---------- a run that falls short ----------

  /** The costs of `n` no-operations. */
  function Nops(n: nat): seq<nat> {
    if n == 0 then [] else [4] + Nops(n - 1)
  }

  /** `n` no-operations end in the first sync of the run. */
  predicate NopsSync(resolution: int, count: nat, n: nat) {
    n >= 1 && resolution <= count + 4 * n && (n > 1 ==> count + 4 * (n - 1) < resolution)
  }

  /** A run of no-operations that ends in its first sync can be late by any time, and carries that time out. */
  lemma {:induction false} LateRun(c: Clock, n: nat, late: nat)
    requires c.resolution >= 0 && c.error == 0 && c.tickCount >= 0 && c.period >= 0
    requires NopsSync(c.resolution, c.tickCount, n)
    ensures SyncsIn(c.resolution, c.tickCount, Nops(n)) && Pending(c.resolution, c.tickCount, Nops(n)) == 0
    ensures var d := Ran(c, Hosted(c, Nops(n), late));
            d == c.(tickCount := 0, error := 0 - late, lastTime := d.lastTime, time := d.time)
    decreases n
  {
    var late' := if n == 1 then late else 0;
    var x := Arrives(c, 4, late');
    var d := Ticked(c, 4, x);
    assert |Nops(n)| == 1 <==> Nops(n - 1) == [];
    assert Nops(n)[1..] == Nops(n - 1) && Hosted(c, Nops(n), late)[1..] == Hosted(d, Nops(n - 1), late);
    if n > 1 {
      assert |Nops(n)| >= 2 by {
        assert Nops(n) == [4] + ([4] + Nops(n - 2));
      }
      LateRun(d, n - 1, late);
    }
  }

  /** Two runs of the same no-operations on a fresh clock: the first oversleeps, so the second can report less
      than it emulates. */
  lemma SecondRunFallsShort(c: Clock, n: nat, late: nat, now: int) returns (first: seq<Call>, second: seq<Call>)
    requires c.resolution >= 0 && c.error == 0 && c.tickCount == 0 && c.period >= 1 && late > 0
    requires NopsSync(c.resolution, 0, n)
    ensures TicksOf(first) == Nops(n) == TicksOf(second)
    ensures PlausibleRun(c, first) && Ran(c, first).error == 0 - late
    ensures var d := Restarted(Ran(c, first), now);
            PlausibleRun(d, second) && Ran(d, second).time < Sum(Nops(n)) * c.period
  {
    first := Hosted(c, Nops(n), late);
    HostedPlausible(c, Nops(n), late);
    LateRun(c, n, late);
    var d := Restarted(Ran(c, first), now);
    second := Hosted(d, Nops(n), 0);
    HostedPlausible(d, Nops(n), 0);
    LeastAttained(d, Nops(n));
    assert Nops(n) == [4] + Nops(n - 1) && Nops(n)[1..] == Nops(n - 1);
    assert Sum(Nops(n)) >= 4;
    assert Synced(d, Nops(n)) == Sum(Nops(n));
    assert Sum(Nops(n)) * c.period > 0;
  }

  // ---------- lockstep with interrupt service ----------

  /** The calls at which the clock syncs. A clock that never waits takes the time at every call. */
  function SyncFlags(resolution: int, count: int, ks: seq<nat>): seq<bool>
    decreases |ks|
  {
    if ks == [] then []
    else
      [resolution < 0 || Syncs(resolution, count, ks[0])]
      + SyncFlags(resolution, Count(resolution, count, ks[0]), ks[1..])
  }

  /** The instructions after which the machine services interrupts, with `since` ticks since the last service. */
  function ServiceFlags(period: int, since: int, ks: seq<nat>): seq<bool>
    decreases |ks|
  {
    if ks == [] then []
    else
      var due := since + ks[0] >= period;
      [due] + ServiceFlags(period, if due then 0 else since + ks[0], ks[1..])
  }

  /** With a resolution of a tick or more the clock counts the way the service does. */
  lemma {:induction false} SyncsLikeService(resolution: int, count: int, ks: seq<nat>)
    requires resolution > 0
    ensures SyncFlags(resolution, count, ks) == ServiceFlags(resolution, count, ks)
    decreases |ks|
  {
    if ks != [] {
      SyncsLikeService(resolution, Count(resolution, count, ks[0]), ks[1..]);
    }
  }

  /** What costs of instructions add up to: 0 for the skipped opcodes, else 4, 5 or 7 and more. */
  predicate Tally(n: int) {
    n == 0 || n == 4 || n == 5 || n >= 7
  }

  /** The least sum of instruction costs that reaches `x`. */
  function Rounded(x: int): (r: int)
    requires x > 0
    ensures Tally(r) && r >= x
    ensures forall t :: Tally(t) && t >= x ==> t >= r
  {
    if x <= 4 then 4 else if x == 6 then 7 else x
  }

  /** Thresholds that no sum of instruction costs tells apart. */
  predicate SameReach(x: int, y: int) {
    if x <= 0 || y <= 0 then x <= 0 && y <= 0 else Rounded(x) == Rounded(y)
  }

  /** Clock and service are locked: their thresholds cannot be told apart and no ticks are left over, or both
      act at every instruction. */
  predicate Locked(resolution: int, count: int, period: int) {
    SameReach(resolution, period) && (resolution <= 0 || count == 0)
  }

  predicate Tallies(ks: seq<nat>) {
    forall k :: 0 <= k < |ks| ==> Tally(ks[k])
  }

  lemma {:induction false} LockedInStep(resolution: int, count: int, period: int, since: int, ks: seq<nat>)
    requires SameReach(resolution, period) && Tallies(ks) && count >= 0
    requires if resolution <= 0 then since >= 0 else since == count && Tally(count)
    ensures SyncFlags(resolution, count, ks) == ServiceFlags(period, since, ks)
    decreases |ks|
  {
    if ks != [] {
      var due := since + ks[0] >= period;
      if resolution > 0 {
      }
      LockedInStep(resolution, Count(resolution, count, ks[0]), period, if due then 0 else since + ks[0], ks[1..]);
    }
  }

  lemma {:induction false} ServiceLength(period: int, since: int, ks: seq<nat>)
    ensures |ServiceFlags(period, since, ks)| == |ks|
    decreases |ks|
  {
    if ks != [] {
      ServiceLength(period, if since + ks[0] >= period then 0 else since + ks[0], ks[1..]);
    }
  }

  /** If nothing is due before the last instruction, the last flag says whether the sum reaches the period. */
  lemma {:induction false} FirstService(period: int, since: int, ks: seq<nat>, k: nat)
    requires since + Sum(ks) < period
    ensures |ServiceFlags(period, since, ks + [k])| == |ks| + 1
    ensures ServiceFlags(period, since, ks + [k])[|ks|] == (since + Sum(ks) + k >= period)
    decreases |ks|
  {
    if ks == [] {
      assert ks + [k] == [k] && [k][1..] == [];
    } else {
      assert (ks + [k])[1..] == ks[1..] + [k];
      FirstService(period, since + ks[0], ks[1..], k);
    }
  }

  /** The flags of two thresholds differ over costs that add up, for the first time, to a sum between them. */
  lemma SumTellsApart(x: int, count: nat, y: int, ks: seq<nat>, k: nat)
    requires count + Sum(ks) < x && Sum(ks) < y && (count + Sum(ks) + k >= x <==> Sum(ks) + k < y)
    ensures ServiceFlags(x, count, ks + [k]) != ServiceFlags(y, 0, ks + [k])
  {
    FirstService(x, count, ks, k);
    FirstService(y, 0, ks, k);
  }

  /** A round of no-operations up to the first service. */
  lemma {:induction false} NopRound(period: int, since: nat, n: nat, rest: seq<nat>)
    requires NopsSync(period, since, n)
    ensures |ServiceFlags(period, since, Nops(n) + rest)| == n + |rest|
    ensures ServiceFlags(period, since, Nops(n) + rest)[n..] == ServiceFlags(period, 0, rest)
    decreases n
  {
    var more := Nops(n - 1) + rest;
    assert Nops(n) + rest == [4] + more;
    assert ([4] + more)[1..] == more;
    ServiceLength(period, 0, rest);
    var due := since + 4 >= period;
    var flags := ServiceFlags(period, if due then 0 else since + 4, more);
    assert ServiceFlags(period, since, [4] + more) == [due] + flags;
    if n > 1 {
      NopRound(period, since + 4, n - 1, rest);
    } else {
      assert Nops(0) + rest == rest;
    }
    assert ([due] + flags)[n..] == flags[n - 1..];
  }

  lemma {:induction false} NopsSum(n: nat)
    ensures Sum(Nops(n)) == 4 * n && |Nops(n)| == n
  {
    if n > 0 {
      assert Nops(n)[1..] == Nops(n - 1);
      NopsSum(n - 1);
    }
  }

  lemma {:induction false} NopsOneMore(n: nat)
    ensures Nops(n + 1) == Nops(n) + [4]
  {
    if n > 0 {
      NopsOneMore(n - 1);
      assert [4] + (Nops(n - 1) + [4]) == ([4] + Nops(n - 1)) + [4];
    }
  }

  /** Two rounds of no-operations: both thresholds are reached together first, counted from a left-over count,
      and only the lower one the second time. */
  lemma LeftOverTellsApart(resolution: int, count: nat, period: int, n: nat)
    requires NopsSync(resolution, count, n) && NopsSync(period, 0, n) && 0 < period && resolution > 4 * n
    ensures ServiceFlags(resolution, count, Nops(n) + Nops(n)) != ServiceFlags(period, 0, Nops(n) + Nops(n))
  {
    NopRound(resolution, count, n, Nops(n));
    NopRound(period, 0, n, Nops(n));
    NopsSum(n - 1);
    NopsOneMore(n - 1);
    FirstService(resolution, 0, Nops(n - 1), 4);
    FirstService(period, 0, Nops(n - 1), 4);
  }

  // ---------- the 32-bit tick count ----------

  /** The clock keeps its counts in 32 bits. Neither leaves them while the resolution and the starting count stay
      an instruction clear of the limit. */
  lemma {:induction false} CountFits(c: Clock, calls: seq<Call>)
    requires 0 <= c.tickCount <= 0x7FFFFFFF - 18 && c.resolution <= 0x7FFFFFFF - 18
    requires forall k :: 0 <= k < |calls| ==> calls[k].ticks <= 18
    ensures forall k :: 0 <= k < |calls| ==> 0 <= Ran(c, calls[..k]).tickCount + calls[k].ticks <= 0x7FFFFFFF
    decreases |calls|
  {
    if calls != [] {
      var d := Ticked(c, calls[0].ticks, calls[0].x);
      CountFits(d, calls[1..]);
      forall k | 0 <= k < |calls|
        ensures 0 <= Ran(c, calls[..k]).tickCount + calls[k].ticks <= 0x7FFFFFFF
      {
        if k > 0 {
          assert calls[..k][1..] == calls[1..][..k - 1];
          assert 0 <= Ran(d, calls[1..][..k - 1]).tickCount + calls[1..][k - 1].ticks <= 0x7FFFFFFF;
        }
      }
    }
  }
}
