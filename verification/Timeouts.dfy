/** xTaskCheckForTimeOut and xTaskDelayUntil, against an unbounded clock.

    At unbounded time c the tick count is c % n and xNumOfOverflows is (c / n) % m, where TickType_t has
    n values and BaseType_t m.
 */
module Timeouts {
  import opened WrapArithmetic

  function TickAt(c: nat, n: nat): (tick: nat) requires n > 0 { c % n }
  function OverflowsAt(c: nat, n: nat, m: nat): (k: nat) requires n > 0 && m > 0 { (c / n) % m }

  /** C's subtraction of two TickType_t values. */
  function Minus(a: nat, b: nat, n: nat): (d: nat)
    requires n > 0
    ensures d < n
  {
    (a - b) % n
  }

  // ---------------------------------------------------------------- xTaskCheckForTimeOut

  /** TimeOut_t and the caller's remaining wait. */
  datatype Waiting = Waiting(overflows: nat, entered: nat, wait: nat)

  /** Waiting since unbounded time e for `wait` more ticks. */
  function Since(e: nat, wait: nat, n: nat, m: nat): (w: Waiting)
    requires n > 0 && m > 0
  {
    Waiting(OverflowsAt(e, n, m), TickAt(e, n), wait)
  }

  datatype Checked = Checked(expired: bool, w: Waiting)

  /** xTaskCheckForTimeOut at unbounded time c, for a wait that was not aborted. */
  function Check(w: Waiting, c: nat, n: nat, m: nat): (r: Checked)
    requires n > 0 && m > 0
  {
    var elapsed := Minus(TickAt(c, n), w.entered, n);
    if w.wait == n - 1 then Checked(false, w)
    else if OverflowsAt(c, n, m) != w.overflows && TickAt(c, n) >= w.entered then Checked(true, w.(wait := 0))
    else if elapsed < w.wait then Checked(false, Since(c, w.wait - elapsed, n, m))
    else Checked(true, w.(wait := 0))
  }

  /** The elapsed time as the code computes it. */
  lemma ElapsedMod(e: nat, c: nat, n: nat)
    requires n > 0 && e <= c
    ensures Minus(TickAt(c, n), TickAt(e, n), n) == (c - e) % n
  {
    var d := c - e;
    var a := e + d % n;
    assert d == d / n * n + d % n;
    assert c == a + d / n * n;
    ShiftEpochs(a, d / n, n);
    Distance(e, a, n);
  }

  lemma ShiftEpochs(a: nat, k: nat, n: nat)
    requires n > 0
    ensures (a + k * n) % n == a % n && (a + k * n) / n == a / n + k
  {
    assert a + k * n == (a / n + k) * n + a % n;
    DivModUnique(a + k * n, a / n + k, a % n, n);
  }

  /** Whether the code's answer can be trusted: it is, if and only if the wait was checked within one wrap, or the
      wrapped elapsed time alone expires it, or the overflow count shows the wrap. */
  predicate Trusted(e: nat, wait: nat, c: nat, n: nat, m: nat)
    requires n > 0 && m > 0 && e <= c
  {
    c - e < n || wait <= (c - e) % n || ((c / n) % m != (e / n) % m && c % n >= e % n)
  }

  lemma SameEpochMod(c: nat, e: nat, n: nat)
    requires n > 0 && e <= c && c - e < n
    ensures (c - e) % n == c - e
    ensures c % n >= e % n ==> c / n == e / n
  {
    DivModUnique(c - e, 0, c - e, n);
    Distance(e, c, n);
  }

  /** The check is exact precisely when it can be trusted. */
  lemma CheckExactExactlyWhen(e: nat, wait: nat, c: nat, n: nat, m: nat)
    requires n >= 2 && m >= 2 && e <= c && wait < n - 1
    ensures Check(Since(e, wait, n, m), c, n, m).expired == (wait <= c - e) <==> Trusted(e, wait, c, n, m)
  {
    ElapsedMod(e, c, n);
    if c - e < n {
      SameEpochMod(c, e, n);
    }
  }

  /** At most one overflow is enough for trust. */
  lemma OneOverflowSuffices(e: nat, wait: nat, c: nat, n: nat, m: nat)
    requires n >= 2 && m >= 2 && e <= c && c / n <= e / n + 1
    ensures Trusted(e, wait, c, n, m)
  {
    EpochOrder(e, c, n);
    if c / n == e / n + 1 {
      NextDiffers(e / n, m);
    }
  }

  lemma NextDiffers(k: nat, m: nat)
    requires m >= 2
    ensures (k + 1) % m != k % m
  {
    AddWrap(k, 1, m);
  }

  /** In order, with at most one overflow between the two times. */
  ghost predicate Near(e: nat, c: nat, n: nat) { n > 0 && e <= c && c / n <= e / n + 1 }

  /** With at most one overflow since the last check, a finite wait expires exactly when its time is up, and
      otherwise what remains plus what has elapsed is what there was. */
  lemma CheckExact(e: nat, wait: nat, c: nat, n: nat, m: nat)
    requires n >= 2 && m >= 2 && Near(e, c, n) && wait < n - 1
    ensures var r := Check(Since(e, wait, n, m), c, n, m);
      && (r.expired <==> wait <= c - e)
      && (!r.expired ==> r.w == Since(c, wait - (c - e), n, m))
      && (r.expired ==> r.w.wait == 0)
  {
    OneOverflowSuffices(e, wait, c, n, m);
    CheckExactExactlyWhen(e, wait, c, n, m);
    ElapsedMod(e, c, n);
    if c - e < n {
      SameEpochMod(c, e, n);
    }
  }

  /** Without the restriction on overflows the check can miss an expiry. */
  lemma TwoWrapsCanHideAnExpiry() returns (e: nat, wait: nat, c: nat, n: nat, m: nat)
    ensures n >= 2 && m >= 2 && e <= c && wait < n - 1 && wait <= c - e
    ensures !Check(Since(e, wait, n, m), c, n, m).expired
  {
    e, wait, c, n, m := 5, 4, 24, 8, 256;
    CheckExactExactlyWhen(e, wait, c, n, m);
  }

  /** Times of successive checks: in order, with at most one overflow between neighbours. */
  ghost predicate CheckTimes(start: nat, times: seq<nat>, n: nat)
    requires n > 0
  {
    forall i :: 0 <= i < |times| ==> Near(if i == 0 then start else times[i - 1], times[i], n)
  }

  lemma TimesNear(start: nat, times: seq<nat>, i: nat, n: nat)
    requires n > 0 && CheckTimes(start, times, n) && i < |times|
    ensures Near(if i == 0 then start else times[i - 1], times[i], n)
    ensures times[i] >= if i == 0 then start else times[i - 1]
  {
  }

  /** The state after the first i checks, none of which expired. */
  function AfterChecks(w: Waiting, times: seq<nat>, i: nat, n: nat, m: nat): (r: Waiting)
    requires i <= |times| && n > 0 && m > 0
  {
    if i == 0 then w else Check(AfterChecks(w, times, i - 1, n, m), times[i - 1], n, m).w
  }

  /** Repeated checks of one wait: as long as less than the original wait has passed none expires and
      remaining + elapsed = original; the first check at or after that time is the first to expire. */
  lemma {:induction false} RepeatedChecksExact(start: nat, wait: nat, times: seq<nat>, i: nat, n: nat, m: nat)
    requires n >= 2 && m >= 2 && wait < n - 1 && i < |times| && CheckTimes(start, times, n)
    requires forall j :: 0 <= j < i ==> times[j] - start < wait
    ensures var r := Check(AfterChecks(Since(start, wait, n, m), times, i, n, m), times[i], n, m);
      && times[i] >= start
      && (r.expired <==> wait <= times[i] - start)
      && (!r.expired ==> r.w.wait + (times[i] - start) == wait)
      && (!r.expired ==> r.w == Since(times[i], wait - (times[i] - start), n, m))
  {
    hide Check, Near, CheckTimes, TickAt, OverflowsAt;
    TimesNear(start, times, i, n);
    if i == 0 {
      CheckExact(start, wait, times[0], n, m);
    } else {
      RepeatedChecksExact(start, wait, times, i - 1, n, m);
      var e := times[i - 1];
      CheckExact(e, wait - (e - start), times[i], n, m);
    }
  }

  /** A wait of portMAX_DELAY never expires, whenever and however often it is checked, and is never shortened. */
  lemma {:induction false} ForeverNeverExpires(start: nat, times: seq<nat>, i: nat, n: nat, m: nat)
    requires n >= 2 && m >= 2 && i < |times|
    ensures var w := Since(start, n - 1, n, m);
      AfterChecks(w, times, i, n, m) == w && !Check(AfterChecks(w, times, i, n, m), times[i], n, m).expired
  {
    if i > 0 {
      ForeverNeverExpires(start, times, i - 1, n, m);
    }
  }

  /** TimeOut_t with the caller's tick variable and the task's abort flag, updated in place. */
  class TimeOut {
    var overflows: nat
    var entered: nat
    var wait: nat
    var aborted: bool

    ghost function State(): (w: Waiting)
      reads this
    {
      Waiting(overflows, entered, wait)
    }

    /** xTaskCheckForTimeOut at unbounded time c, for a wait that began or was last checked at e: an aborted wait
        expires at once; any other finite one, with at most one overflow since e, expires exactly when its time is up,
        and otherwise goes on for exactly what remains. */
    method CheckForTimeOut(tick: nat, overflowCount: nat, n: nat, m: nat, ghost e: nat, ghost c: nat)
      returns (expired: bool)
      requires n >= 2 && m >= 2 && tick == TickAt(c, n) && overflowCount == OverflowsAt(c, n, m)
      modifies this
      ensures !aborted
      ensures old(aborted) ==> expired && State() == old(State())
      ensures !old(aborted) ==> Checked(expired, State()) == Check(old(State()), c, n, m)
      ensures !old(aborted) && old(State()) == Since(e, old(wait), n, m) && old(wait) < n - 1 && Near(e, c, n) ==>
        && (expired <==> old(wait) <= c - e)
        && (if expired then wait == 0 else State() == Since(c, old(wait) - (c - e), n, m))
      ensures !old(aborted) && old(State()) == Since(e, old(wait), n, m) && old(wait) < n - 1 && e <= c ==>
        ((expired <==> old(wait) <= c - e) <==> Trusted(e, old(wait), c, n, m))
    {
      ghost var was := wait;
      if was < n - 1 && e <= c {
        CheckExactExactlyWhen(e, was, c, n, m);
        if Near(e, c, n) {
          CheckExact(e, was, c, n, m);
        }
      }
      var elapsed := (tick - entered) % n;
      if aborted {
        aborted := false;
        expired := true;
      } else if wait == n - 1 {
        expired := false;
      } else if overflowCount != overflows && tick >= entered {
        expired := true;
        wait := 0;
      } else if elapsed < wait {
        wait := wait - elapsed;
        overflows, entered := overflowCount, tick;
        expired := false;
      } else {
        wait := 0;
        expired := true;
      }
    }
  }

  // ---------------------------------------------------------------- xTaskDelayUntil

  datatype Periodic = Periodic(delay: bool, ticks: nat, previous: nat)

  /** xTaskDelayUntil: whether to delay, the block time if so, and the new previous wake time. */
  function DelayUntil(previous: nat, increment: nat, tick: nat, n: nat): (r: Periodic)
    requires n > 0
  {
    var time := (previous + increment) % n;
    var delay := if tick < previous then time < previous && time > tick else time < previous || time > tick;
    Periodic(delay, Minus(time, tick, n), time)
  }

  /** The caller's pxPreviousWakeTime, updated in place. */
  class WakeTime {
    var previous: nat

    /** xTaskDelayUntil at unbounded time c, p being the previous release: within one wrap of it the task delays
        exactly when the next release is in the future, until exactly then. */
    method TaskDelayUntil(increment: nat, tick: nat, n: nat, ghost p: nat, ghost c: nat)
      returns (delay: bool, ticks: nat)
      requires n >= 2 && 0 < increment < n && previous == p % n && tick == c % n
      modifies this
      ensures previous == (p + increment) % n
      ensures p <= c < p + n ==> (delay <==> p + increment > c) && (delay ==> c + ticks == p + increment)
      ensures (delay <==> p + increment > c) <==>
        if p <= c then c - p < n || increment <= (c - p) % n else increment > (c - p) % n
    {
      DelayUntilExactlyWhen(p, increment, c, n);
      DelayUntilDistance(p, increment, c, n);
      if p <= c < p + n {
        DelayUntilExact(p, increment, c, n);
      }
      var time := (previous + increment) % n;
      delay := false;
      if tick < previous {
        if time < previous && time > tick {
          delay := true;
        }
      } else {
        if time < previous || time > tick {
          delay := true;
        }
      }
      ticks := (time - tick) % n;
      assert Periodic(delay, ticks, time) == DelayUntil(previous, increment, tick, n);
      previous := time;
    }
  }

  /** The branches of xTaskDelayUntil, as one comparison of distances from the previous wake time. */
  lemma DelayBranches(previous: nat, increment: nat, tick: nat, n: nat)
    requires previous < n && tick < n && 0 < increment < n
    ensures DelayUntil(previous, increment, tick, n).delay <==>
      increment > if tick >= previous then tick - previous else tick + n - previous
  {
    if previous + increment < n {
      SmallModulo(previous + increment, n);
    } else {
      DivModUnique(previous + increment, 1, previous + increment - n, n);
    }
  }

  lemma AddModulo(p: nat, d: nat, n: nat)
    requires n > 0 && d < n
    ensures (p % n + d) % n == (p + d) % n
  {
    AddWrap(p, d, n);
    AddWrap(p % n, d, n);
    SmallModulo(p % n, n);
  }

  lemma ModuloShift(x: int, k: nat, n: nat)
    requires n > 0
    ensures (x + k * n) % n == x % n
  {
    assert x + k * n == (x / n + k) * n + x % n;
    DivModUnique(x + k * n, x / n + k, x % n, n);
  }

  lemma DelayUntilForward(p: nat, increment: nat, c: nat, n: nat)
    requires n >= 2 && 0 < increment < n && p <= c
    ensures DelayUntil(p % n, increment, c % n, n).delay <==> increment > (c - p) % n
  {
    hide DelayUntil;
    var d := c - p;
    assert d == d / n * n + d % n;
    ShiftEpochs(p + d % n, d / n, n);
    Distance(p, p + d % n, n);
    DelayBranches(p % n, increment, c % n, n);
  }

  /** Whatever the two times, only the wrapped distance between them matters. */
  lemma DelayUntilDistance(p: nat, increment: nat, c: nat, n: nat)
    requires n >= 2 && 0 < increment < n
    ensures DelayUntil(p % n, increment, c % n, n).delay <==> increment > (c - p) % n
    ensures DelayUntil(p % n, increment, c % n, n).previous == (p + increment) % n
  {
    hide DelayUntil;
    AddModulo(p, increment, n);
    DelayPrevious(p % n, increment, c % n, n);
    assert p <= c + p * n;
    ModuloShift(c, p, n);
    ModuloShift(c - p, p, n);
    DelayUntilForward(p, increment, c + p * n, n);
    assert c + p * n - p == c - p + p * n;
  }

  lemma DelayPrevious(previous: nat, increment: nat, tick: nat, n: nat)
    requires n > 0
    ensures DelayUntil(previous, increment, tick, n).previous == (previous + increment) % n
  {
  }

  lemma SmallModulo(d: nat, n: nat)
    requires n > 0 && d < n
    ensures d % n == d
  {
    DivModUnique(d, 0, d, n);
  }

  /** With p the previous release and c the current time, the code delays exactly when the next release is in the
      future if and only if: at or after p, less than one wrap has passed or the increment is no more than the wrapped
      time passed; before p, the increment is more than the wrapped distance. */
  lemma DelayUntilExactlyWhen(p: nat, increment: nat, c: nat, n: nat)
    requires n >= 2 && 0 < increment < n
    ensures (DelayUntil(p % n, increment, c % n, n).delay <==> p + increment > c)
      <==> if p <= c then c - p < n || increment <= (c - p) % n else increment > (c - p) % n
  {
    hide DelayUntil;
    DelayUntilDistance(p, increment, c, n);
    if p <= c < p + n {
      SmallModulo(c - p, n);
    }
  }

  /** Within one wrap of the last release: the decision is exact, and a delay ends at the next release. */
  lemma DelayUntilExact(p: nat, increment: nat, c: nat, n: nat)
    requires n >= 2 && 0 < increment < n && p <= c < p + n
    ensures var r := DelayUntil(p % n, increment, c % n, n);
      && (r.delay <==> p + increment > c)
      && (r.delay ==> c + r.ticks == p + increment)
      && r.previous == (p + increment) % n
  {
    DelayUntilExactlyWhen(p, increment, c, n);
    DelayUntilDistance(p, increment, c, n);
    if p + increment > c {
      Distance(c, p + increment, n);
    }
  }

  /** After a whole wrap without a call the code can delay although the release is in the past. */
  lemma LateCallCanDelay() returns (p: nat, increment: nat, c: nat, n: nat)
    ensures n >= 2 && 0 < increment < n && p <= c && p + increment <= c
    ensures DelayUntil(p % n, increment, c % n, n).delay
  {
    p, increment, c, n := 1, 5, 10, 8;
    DelayUntilExactlyWhen(p, increment, c, n);
  }

  /** xTaskDelayUntil called again and again: the previous wake time before the i-th call. */
  function PreviousWake(base: nat, increment: nat, calls: seq<nat>, i: nat, n: nat): (p: nat)
    requires i <= |calls| && n > 0
  {
    if i == 0 then base % n
    else DelayUntil(PreviousWake(base, increment, calls, i - 1, n), increment, calls[i - 1] % n, n).previous
  }

  lemma {:induction false} ReleaseTimes(base: nat, increment: nat, calls: seq<nat>, i: nat, n: nat)
    requires n >= 2 && 0 < increment < n && i <= |calls|
    ensures PreviousWake(base, increment, calls, i, n) == (base + i * increment) % n
  {
    if i > 0 {
      ReleaseTimes(base, increment, calls, i - 1, n);
      var p := base + (i - 1) * increment;
      assert p + increment == base + i * increment;
      AddModulo(p, increment, n);
    }
  }

  /** Releases stay at base + k * increment for ever: every call made within one wrap of its previous release
      delays exactly when the next release is in the future, and then until exactly that release. */
  lemma PeriodicReleases(base: nat, increment: nat, calls: seq<nat>, i: nat, n: nat)
    requires n >= 2 && 0 < increment < n && i < |calls|
    requires base + i * increment <= calls[i] < base + i * increment + n
    ensures var r := DelayUntil(PreviousWake(base, increment, calls, i, n), increment, calls[i] % n, n);
      && (r.delay <==> calls[i] < base + (i + 1) * increment)
      && (r.delay ==> calls[i] + r.ticks == base + (i + 1) * increment)
  {
    ReleaseTimes(base, increment, calls, i, n);
    var p := base + i * increment;
    assert p + increment == base + (i + 1) * increment;
    DelayUntilExact(p, increment, calls[i], n);
  }
}
