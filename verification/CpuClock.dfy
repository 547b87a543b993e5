/** The pacing clock as it is written, against any host clock that never goes back and does not stop. */
module CpuClock {
  import opened Pacing

  /** A host clock: the n-th reading of it is `at(n)`. Sleeping lets any time pass. */
  class HostClock {
    const at: nat -> int
    var n: nat

    constructor (at: nat -> int)
      ensures this.at == at && n == 0
    {
      this.at := at;
      n := 0;
    }

    ghost predicate Passes(t: int) {
      exists i: nat :: at(i) >= t
    }

    /** The host clock never goes back and passes every time. */
    ghost predicate Runs() {
      && (forall i: nat, j: nat :: i <= j ==> at(i) <= at(j))
      && (forall t: int :: Passes(t))
    }

    method Now() returns (t: int)
      modifies this
      ensures t == at(old(n)) && n == old(n) + 1
    {
      t := at(n);
      n := n + 1;
    }
  }

  /** A number narrowed to 32 bits with a sign: the one in range that differs by a multiple of 2^32. */
  function Int32(n: int): (i: int)
    ensures -0x8000_0000 <= i < 0x8000_0000 && (n - i) % 0x1_0000_0000 == 0
  {
    var r := n % 0x1_0000_0000;
    if r < 0x8000_0000 then r else r - 0x1_0000_0000
  }

  /** A resolution in ticks of `period` nanoseconds, which the clock keeps in 32 bits; negative means never to wait. */
  function InTicks(resolution: int, period: int): int
    requires period >= 1
  {
    if resolution < 0 then -1 else Int32(resolution / period)
  }

  lemma QuotientAtMost(n: int, d: int, bound: nat)
    requires n >= 0 && d >= 1
    ensures n / d <= bound <==> n < (bound + 1) * d
  {
    assert n == n / d * d + n % d;
    if n / d <= bound {
      assert n / d * d <= bound * d;
    } else {
      assert n / d * d >= (bound + 1) * d;
    }
  }

  /** A resolution keeps its length in ticks if and only if that is below 2^31. */
  lemma InTicksExact(resolution: int, period: int)
    requires resolution >= 0 && period >= 1
    ensures InTicks(resolution, period) == resolution / period <==> resolution < 0x8000_0000 * period
  {
    QuotientAtMost(resolution, period, 0x7FFF_FFFF);
  }

  datatype ErrorCode = NoError | ClockResolution

  class PacingClock {
    const host: HostClock
    const period: int
    const maxResolution: int
    var totalTicks: int
    var tickCount: int
    var error: int
    var epoch: int
    var lastTime: int
    var time: int

    constructor (host: HostClock, speed: nat, maxResolution: int)
      requires 1 <= speed <= 1000000000
      ensures this.host == host && this.maxResolution == maxResolution
      ensures Abs() == Clock(1000000000 / speed, -1, 0, 0, 0, 0, 0) && period >= 1
    {
      this.host := host;
      this.maxResolution := maxResolution;
      period := 1000000000 / speed;
      totalTicks, tickCount, error := -1, 0, 0;
      epoch, lastTime, time := 0, 0, 0;
    }

    ghost function Abs(): Clock
      reads this
    {
      Clock(period, totalTicks, tickCount, error, epoch, lastTime, time)
    }

    /** What the clock carries from one sync to the next: an oversleep and unsynced ticks. */
    ghost predicate Carries()
      reads this
    {
      error <= 0 <= tickCount
    }

    /** The last reading lies in the past of the host clock. */
    ghost predicate Valid()
      reads this, host
    {
      period >= 1 && lastTime <= host.at(host.n) && Carries()
    }

    /** A request finer than the host can keep is set all the same, with a warning. */
    method SetTickResolution(resolution: int) returns (err: ErrorCode, resolutionInTicks: int)
      requires period >= 1
      modifies this`totalTicks
      ensures resolutionInTicks == totalTicks
      ensures totalTicks == InTicks(resolution, period)
      ensures err == if 0 <= resolution < maxResolution then ClockResolution else NoError
    {
      err := NoError;
      if resolution >= 0 {
        if resolution < maxResolution {
          err := ClockResolution;
        }
        totalTicks := Int32(resolution / period);
      } else {
        totalTicks := -1;
      }
      resolutionInTicks := totalTicks;
    }

    /** Sleep through part of a long surplus. The readings bracket the sleep. */
    method SleepFor(surplus: int) returns (left: int, ghost start: int, ghost end: int)
      requires host.Runs()
      modifies host
      ensures host.n >= old(host.n)
      ensures surplus < 1000000 ==> left == surplus && host.n == old(host.n)
      ensures surplus >= 1000000 ==>
                left == surplus - (end - start) && host.at(old(host.n)) <= start <= end <= host.at(host.n)
    {
      left, start, end := surplus, 0, 0;
      if surplus >= SLEEP_THRESHOLD {
        var now := host.Now();
        start := now;
        // nanosleep
        var after := host.Now();
        end := after;
        left := surplus - (after - now);
      }
    }

    /** Spin until the surplus has passed; what is left is the overspin, never positive. */
    method SpinFor(surplus: int) returns (left: int, ghost start: int, ghost end: int)
      requires host.Runs()
      modifies host
      ensures host.at(old(host.n)) <= start <= end <= host.at(host.n)
      ensures surplus <= 0 ==> left == surplus && start == end
      ensures surplus > 0 ==> left == start + surplus - end && end >= start + surplus
    {
      left := surplus;
      var now := host.Now();
      start, end := now, now;
      if surplus > 0 {
        var target := now + surplus;
        assert host.Passes(target);
        ghost var enough: nat :| host.at(enough) >= target;
        while now < target
          invariant host.at(old(host.n)) <= start <= now <= host.at(host.n)
          invariant host.n >= 1 && now == host.at(host.n - 1)
          decreases enough - host.n
        {
          now := host.Now();
        }
        end := now;
        left := target - now;
      }
    }

    /** One call of the clock is the paced tick for the readings the host clock gave. */
    method Tick(ticks: nat) returns (t: int, ghost x: Readings)
      requires Valid() && host.Runs()
      modifies this, host
      ensures Valid() && t == time
      ensures Abs() == old(Ticked(Abs(), ticks, x))
      ensures Seen(old(Abs()), ticks, x)
      ensures old(totalTicks) < 0 ==> host.n == old(host.n) + 1 && x.stamp == host.at(old(host.n))
    {
      x := Readings(0, 0, 0, 0, 0, 0);
      if totalTicks >= 0 {
        tickCount := tickCount + ticks;
        if tickCount >= totalTicks {
          var entry := host.Now();
          var nanos := tickCount * period - (entry - lastTime) + error;
          ghost var s0, s1, p0, p1;
          var left;
          left, s0, s1 := SleepFor(nanos);
          if nanos < SLEEP_THRESHOLD {
            s0, s1 := entry, entry;
          }
          left, p0, p1 := SpinFor(left);
          error := left;
          tickCount := 0;
          lastTime := host.Now();
          time := lastTime - epoch;
          x := Readings(entry, s0, s1, p0, p1, lastTime);
        }
      } else {
        lastTime := host.Now();
        time := lastTime - epoch;
        x := x.(stamp := lastTime);
      }
      t := time;
    }

    /** The epoch restarts; error, tick count and reported time stay. */
    method Reset()
      requires host.Runs()
      modifies this, host
      ensures Valid() == (period >= 1 && Carries())
      ensures Abs() == Restarted(old(Abs()), epoch) && epoch == host.at(old(host.n))
    {
      epoch := host.Now();
      lastTime := epoch;
    }
  }
}
