/** The timer daemon of timers.c: two lists of running timers, one for each tick epoch.

    TickType_t has `n` values.  History that no operation reads: `clock`, the unbounded time of the last sample;
    `epoch`, the epoch of the current list; and for each timer when it was started, how often its callback has
    run since, and when it expires next.
 */
module Timers {
  import opened WrapArithmetic
  import opened TaskLists

  datatype Timer = Timer(period: nat, autoReload: bool, active: bool)

  datatype History = History(start: nat, fired: nat, expiry: nat)

  /** The k-th multiple of the period after the start. */
  function Nth(start: nat, k: nat, period: nat): (time: nat) { start + k * period }

  lemma NthNext(start: nat, k: nat, period: nat)
    ensures Nth(start, k + 1, period) == Nth(start, k, period) + period && Nth(start, 0, period) == start
  {
    assert (k + 1) * period == k * period + period;
  }

  /** v is the TickType_t value of unbounded time c. */
  ghost predicate Wrapped(v: nat, c: nat, n: nat) { n > 0 && v == c % n }

  ghost predicate InEpoch(c: nat, epoch: nat, n: nat) { n > 0 && c / n == epoch }

  /** C's addition of two TickType_t values. */
  function Plus(a: nat, d: nat, n: nat): (r: nat)
    requires n > 0
    ensures r < n
  {
    (a + d) % n
  }

  lemma WrappedPlus(v: nat, c: nat, d: nat, n: nat)
    requires Wrapped(v, c, n) && d < n
    ensures Wrapped(Plus(v, d, n), c + d, n)
  {
    AddWrap(c, d, n);
    AddWrap(c % n, d, n);
    DivModUnique(c % n, 0, c % n, n);
  }

  // ---------------------------------------------------------------- invariants

  /** Each list is in order, the item values are wrapped expiry times, and each list holds one epoch. */
  ghost predicate ListOk(q: seq<Tid>, value: map<Tid, nat>, past: map<Tid, History>, n: nat, epoch: nat) {
    && n > 0 && NoDup(q) && Sorted(q, value)
    && forall t :: t in q ==> t in past && Val(value, t) == past[t].expiry % n && past[t].expiry / n == epoch
  }

  ghost predicate Lists(current: seq<Tid>, overflow: seq<Tid>, value: map<Tid, nat>, past: map<Tid, History>, n: nat,
                        epoch: nat) {
    && n >= 2
    && ListOk(current, value, past, n, epoch) && ListOk(overflow, value, past, n, epoch + 1)
    && forall t :: t in current ==> t !in overflow
  }

  /** A timer never fires early; a running timer's next expiry is one period after the last one; a running one-shot
      has not fired. */
  ghost predicate Counted(tm: Timer, h: History, n: nat, clock: nat) {
    && 0 < tm.period < n && h.start <= clock && Nth(h.start, h.fired, tm.period) <= clock
    && (tm.active ==> h.expiry == Nth(h.start, h.fired + 1, tm.period))
    && (!tm.autoReload ==> h.fired <= (if tm.active then 0 else 1))
  }

  ghost predicate Counts(timers: map<Tid, Timer>, past: map<Tid, History>, n: nat, clock: nat, but: set<Tid>) {
    && timers.Keys == past.Keys
    && (forall t :: t in timers ==> 0 < timers[t].period < n)
    && forall t :: t in timers && t !in but ==> Counted(timers[t], past[t], n, clock)
  }

  ghost predicate Listed(timers: map<Tid, Timer>, current: seq<Tid>, overflow: seq<Tid>, but: set<Tid>) {
    && (forall t :: t in current || t in overflow ==> t in timers)
    && (forall t :: t in timers && t !in but ==> (timers[t].active <==> t in current || t in overflow))
  }

  // ---------------------------------------------------------------- prvInsertTimerInActiveList

  datatype Place = Now | Current | Overflow

  /** The branches of prvInsertTimerInActiveList. */
  function Classify(next: nat, now: nat, command: nat, period: nat, n: nat): (p: Place)
    requires n > 0
  {
    if next <= now then
      if (now - command) % n >= period then Now else Overflow
    else
      if now < command && next >= command then Now else Current
  }

  /** For a command issued at unbounded time c and handled at x, within one wrap, the wrapped comparisons decide
      exactly whether the expiry has passed, and otherwise which epoch it is in. */
  lemma ClassifyExact(c: nat, x: nat, period: nat, n: nat)
    requires n >= 2 && 0 < period < n && c <= x < c + n
    ensures var p := Classify((c + period) % n, x % n, c % n, period, n);
      && (p == Now <==> c + period <= x)
      && (p == Current ==> (c + period) / n == x / n)
      && (p == Overflow ==> (c + period) / n == x / n + 1)
  {
    Distance(c, x, n);
    AddWrap(c, period, n);
    if c + period <= x {
      Distance(c + period, x, n);
    } else {
      Distance(x, c + period, n);
    }
  }

  lemma EnterList(q: seq<Tid>, value: map<Tid, nat>, past: map<Tid, History>, n: nat, epoch: nat, t: Tid, h: History)
    requires ListOk(q, value, past, n, epoch) && t !in q && n > 0 && h.expiry / n == epoch
    ensures ListOk(SortedInsert(q, t, value[t := h.expiry % n]), value[t := h.expiry % n], past[t := h], n, epoch)
    ensures forall u :: u in SortedInsert(q, t, value[t := h.expiry % n]) <==> u in q || u == t
  {
    var v := value[t := h.expiry % n];
    SortedFrame(q, value, v);
    InsertFacts(q, t, v);
    InsertSorted(q, t, v);
  }

  lemma OtherList(q: seq<Tid>, value: map<Tid, nat>, past: map<Tid, History>, n: nat, epoch: nat, t: Tid, v: nat,
                  h: History)
    requires ListOk(q, value, past, n, epoch) && t !in q
    ensures ListOk(q, value[t := v], past[t := h], n, epoch)
  {
    SortedFrame(q, value, value[t := v]);
  }

  lemma LeaveList(q: seq<Tid>, value: map<Tid, nat>, past: map<Tid, History>, n: nat, epoch: nat, t: Tid)
    requires ListOk(q, value, past, n, epoch)
    ensures ListOk(Without(q, t), value, past, n, epoch)
    ensures forall u :: u in Without(q, t) <==> u in q && u != t
    ensures q != [] && q[0] == t ==> Without(q, t) == q[1..]
  {
    WithoutFacts(q, t);
    WithoutSorted(q, t, value);
  }

  /** Both lists, when timer t enters the one its expiry belongs to. */
  lemma EnterLists(current: seq<Tid>, overflow: seq<Tid>, value: map<Tid, nat>, past: map<Tid, History>, n: nat,
                   epoch: nat, t: Tid, h: History)
    requires Lists(current, overflow, value, past, n, epoch) && t !in current && t !in overflow
    ensures h.expiry / n == epoch ==>
      var v := value[t := h.expiry % n]; Lists(SortedInsert(current, t, v), overflow, v, past[t := h], n, epoch)
    ensures h.expiry / n == epoch ==>
      forall u :: u in SortedInsert(current, t, value[t := h.expiry % n]) <==> u in current || u == t
    ensures h.expiry / n == epoch + 1 ==>
      var v := value[t := h.expiry % n]; Lists(current, SortedInsert(overflow, t, v), v, past[t := h], n, epoch)
    ensures h.expiry / n == epoch + 1 ==>
      forall u :: u in SortedInsert(overflow, t, value[t := h.expiry % n]) <==> u in overflow || u == t
  {
    hide ListOk;
    if h.expiry / n == epoch {
      EnterList(current, value, past, n, epoch, t, h);
      OtherList(overflow, value, past, n, epoch + 1, t, h.expiry % n, h);
    } else if h.expiry / n == epoch + 1 {
      EnterList(overflow, value, past, n, epoch + 1, t, h);
      OtherList(current, value, past, n, epoch, t, h.expiry % n, h);
    }
  }

  // ---------------------------------------------------------------- what a sequence of operations does

  datatype Snapshot = Snapshot(timers: map<Tid, Timer>, past: map<Tid, History>, clock: nat)

  /** One timer's progress when no command names it: it may only fire, and a one-shot that fires stops. */
  ghost predicate Served(tm: Timer, h: History, tm': Timer, h': History) {
    && tm'.period == tm.period && tm'.autoReload == tm.autoReload && h'.start == h.start && h.fired <= h'.fired
    && (tm.active ==> tm'.active || (!tm.autoReload && h'.fired == 1))
    && (!tm.active ==> !tm'.active && h'.fired == h.fired)
  }

  ghost predicate Progress(a: Snapshot, b: Snapshot, but: set<Tid>) {
    && a.clock <= b.clock && b.timers.Keys == a.timers.Keys && b.past.Keys == a.past.Keys
    && a.timers.Keys == a.past.Keys
    && forall t :: t in a.timers && t !in but ==> Served(a.timers[t], a.past[t], b.timers[t], b.past[t])
  }

  ghost predicate Untouched(a: Snapshot, b: Snapshot, who: set<Tid>) {
    forall t :: t in who && t in a.timers && t in a.past ==>
      t in b.timers && b.timers[t] == a.timers[t] && t in b.past && b.past[t] == a.past[t]
  }

  lemma ProgressTrans(a: Snapshot, b: Snapshot, c: Snapshot, but: set<Tid>)
    requires Progress(a, b, but) && Progress(b, c, but)
    ensures Progress(a, c, but)
  {
    forall t | t in a.timers && t !in but ensures Served(a.timers[t], a.past[t], c.timers[t], c.past[t]) {
      assert Served(a.timers[t], a.past[t], b.timers[t], b.past[t]);
      assert Served(b.timers[t], b.past[t], c.timers[t], c.past[t]);
    }
  }

  /** The running timers that have expired by time x. */
  ghost function DueBy(s: Snapshot, x: nat): (due: set<Tid>) {
    set t | t in s.timers && s.timers[t].active && t in s.past && s.past[t].expiry <= x
  }

  /** Only timer t has been served: its callback has run at least once, and it has stopped or waits for a time after
      x. */
  ghost predicate ServedAlone(a: Snapshot, b: Snapshot, t: Tid, x: nat) {
    && t in a.timers && t in a.past && t in b.timers && t in b.past
    && b.timers == a.timers[t := b.timers[t]] && b.past == a.past[t := b.past[t]]
    && b.past[t].fired > a.past[t].fired && (b.timers[t].active ==> b.past[t].expiry > x)
  }

  /** What one turn does.  Within an epoch it blocks exactly if no timer is due, and otherwise serves one that expires
      first; across a wrap of the count it does not block while timers run, and every timer due in the old epoch is
      served. */
  ghost predicate TurnOk(a: Snapshot, b: Snapshot, blocked: bool, n: nat) {
    && n > 0
    && (a.clock / n == b.clock / n ==> (blocked <==> DueBy(a, b.clock) == {}))
    && (a.clock / n == b.clock / n && blocked ==> b.timers == a.timers && b.past == a.past)
    && (a.clock / n == b.clock / n && !blocked ==>
          exists t :: t in DueBy(a, b.clock) && ServedAlone(a, b, t, b.clock) &&
                      forall u :: u in DueBy(a, b.clock) ==> a.past[t].expiry <= a.past[u].expiry)
    && (a.clock / n < b.clock / n ==>
          forall t :: t in a.timers && a.timers[t].active && t in a.past && a.past[t].expiry / n < b.clock / n ==>
            t in b.past && b.past[t].fired > a.past[t].fired)
    && (a.clock / n < b.clock / n && blocked ==> forall t :: t in a.timers ==> !a.timers[t].active)
  }

  /** Between its start and now a running timer has fired once for every period that has passed. */
  lemma FiredIsFloor(tm: Timer, h: History, n: nat, clock: nat)
    requires Counted(tm, h, n, clock) && tm.active && clock < h.expiry
    ensures h.fired == (clock - h.start) / tm.period
  {
    NthNext(h.start, h.fired, tm.period);
    DivModUnique(clock - h.start, h.fired, clock - h.start - h.fired * tm.period, tm.period);
  }

  // ---------------------------------------------------------------- the daemon

  /** Timer t leaves the lists. */
  lemma LeaveLists(current: seq<Tid>, overflow: seq<Tid>, value: map<Tid, nat>, past: map<Tid, History>, n: nat,
                   epoch: nat, t: Tid)
    requires Lists(current, overflow, value, past, n, epoch)
    ensures Lists(Without(current, t), Without(overflow, t), value, past, n, epoch)
    ensures forall u :: u in Without(current, t) <==> u in current && u != t
    ensures forall u :: u in Without(overflow, t) <==> u in overflow && u != t
    ensures current != [] && current[0] == t ==> Without(current, t) == current[1..]
    ensures t !in current ==> Without(current, t) == current
    ensures t !in overflow ==> Without(overflow, t) == overflow
  {
    hide ListOk;
    LeaveList(current, value, past, n, epoch, t);
    LeaveList(overflow, value, past, n, epoch + 1, t);
    WithoutAbsent(current, t);
    WithoutAbsent(overflow, t);
  }

  lemma {:induction false} WithoutAbsent(q: seq<Tid>, t: Tid)
    ensures t !in q ==> Without(q, t) == q
  {
    if q != [] && t !in q {
      WithoutAbsent(q[1..], t);
      assert q == [q[0]] + q[1..];
    }
  }

  /** The history of a timer that is in no list, and its item value, may change freely. */
  lemma UnlistedChange(current: seq<Tid>, overflow: seq<Tid>, value: map<Tid, nat>, past: map<Tid, History>, n: nat,
                       epoch: nat,
                       t: Tid, v: nat, h: History)
    requires Lists(current, overflow, value, past, n, epoch) && t !in current && t !in overflow
    ensures Lists(current, overflow, value[t := v], past[t := h], n, epoch)
    ensures Lists(current, overflow, value, past[t := h], n, epoch)
  {
    OtherList(current, value, past, n, epoch, t, v, h);
    OtherList(overflow, value, past, n, epoch + 1, t, v, h);
  }

  /** A listed timer's count of callbacks may change: only its expiry matters to the lists. */
  lemma CountChange(current: seq<Tid>, overflow: seq<Tid>, value: map<Tid, nat>, past: map<Tid, History>, n: nat,
                    epoch: nat, t: Tid, h: History)
    requires Lists(current, overflow, value, past, n, epoch) && t in past && h.expiry == past[t].expiry
    ensures Lists(current, overflow, value, past[t := h], n, epoch)
  {
  }

  /** Only timer t and its history have changed. */
  lemma ChangeOne(timers: map<Tid, Timer>, past: map<Tid, History>, n: nat, clock: nat, but: set<Tid>, t: Tid,
                  tm: Timer, h: History)
    requires Counts(timers, past, n, clock, but) && t in timers && Counted(tm, h, n, clock)
    ensures Counts(timers[t := tm], past[t := h], n, clock, but)
    ensures Served(timers[t], past[t], tm, h) ==>
      Progress(Snapshot(timers, past, clock), Snapshot(timers[t := tm], past[t := h], clock), but)
    ensures Progress(Snapshot(timers, past, clock), Snapshot(timers[t := tm], past[t := h], clock), but + {t})
    ensures Progress(Snapshot(timers, past, clock), Snapshot(timers, past, clock), but)
  {
    assert timers[t := tm].Keys == timers.Keys && past[t := h].Keys == past.Keys;
    hide Counted;
  }

  lemma RestoreOne(timers: map<Tid, Timer>, past: map<Tid, History>, n: nat, clock: nat, t: Tid, tm: Timer, h: History)
    requires Counts(timers, past, n, clock, {t}) && t in timers && Counted(tm, h, n, clock)
    ensures Counts(timers[t := tm], past[t := h], n, clock, {})
    ensures Progress(Snapshot(timers, past, clock), Snapshot(timers[t := tm], past[t := h], clock), {t})
  {
    hide Nth;
    assert timers[t := tm].Keys == timers.Keys && past[t := h].Keys == past.Keys;
  }

  lemma SameTimer(timers: map<Tid, Timer>, t: Tid)
    requires t in timers
    ensures timers[t := timers[t]] == timers
  {
  }

  /** How the lists relate to the active flags when only t has moved. */
  lemma RelistOne(timers: map<Tid, Timer>, current: seq<Tid>, overflow: seq<Tid>, current': seq<Tid>,
                  overflow': seq<Tid>, but: set<Tid>, t: Tid, tm: Timer)
    requires Listed(timers, current, overflow, but) && t in timers
    requires forall u :: u != t ==> (u in current' <==> u in current) && (u in overflow' <==> u in overflow)
    requires tm.active <==> t in current' || t in overflow'
    ensures Listed(timers[t := tm], current', overflow', but - {t})
  {
  }

  class TimerDaemon {
    var current: seq<Tid>
    var overflow: seq<Tid>
    var value: map<Tid, nat>
    var timers: map<Tid, Timer>
    var last: nat
    var n: nat
    ghost var past: map<Tid, History>
    ghost var clock: nat
    ghost var epoch: nat

    ghost function Snap(): (s: Snapshot)
      reads this
    {
      Snapshot(timers, past, clock)
    }

    ghost predicate Part(but: set<Tid>)
      reads this
    {
      && Lists(current, overflow, value, past, n, epoch)
      && Counts(timers, past, n, clock, but) && Listed(timers, current, overflow, but)
    }

    /** The timers in `but` are in no list. */
    ghost predicate Absent(but: set<Tid>)
      reads this
    {
      forall t :: t in but ==> t !in current && t !in overflow
    }

    /** Between operations, `but` is empty; while a command is handled, it is the timer concerned. */
    ghost predicate Valid(but: set<Tid>)
      reads this
    {
      n >= 2 && Part(but) && Absent(but) && last == clock % n && epoch == clock / n
    }

    /** Before any command: no timer runs. */
    constructor (n: nat, timers: map<Tid, Timer>)
      requires n >= 2 && forall t :: t in timers ==> !timers[t].active && 0 < timers[t].period < n
      ensures Valid({}) && this.n == n && this.timers == timers && past.Keys == timers.Keys && clock == 0
    {
      this.n, this.timers, current, overflow, value, last := n, timers, [], [], map[], 0;
      past, clock, epoch := map t | t in timers :: History(0, 0, 0), 0, 0;
      new;
      DivModUnique(0, 0, 0, n);
    }

    /** prvInsertTimerInActiveList. */
    method InsertTimerInActiveList(t: Tid, next: nat, now: nat, command: nat, ghost c: nat, ghost x: nat)
      returns (processNow: bool)
      requires Lists(current, overflow, value, past, n, epoch) && t in timers && t in past && t !in current
      requires t !in overflow
      requires 0 < timers[t].period < n && c <= x < c + n && InEpoch(x, epoch, n)
      requires Wrapped(command, c, n) && Wrapped(now, x, n) && Wrapped(next, c + timers[t].period, n)
      modifies this`current, this`overflow, this`value, this`past
      ensures Lists(current, overflow, value, past, n, epoch)
      ensures processNow <==> c + timers[t].period <= x
      ensures past == if processNow then old(past) else old(past)[t := old(past)[t].(expiry := c + timers[t].period)]
      ensures processNow ==> current == old(current) && overflow == old(overflow)
      ensures !processNow ==> t in current || t in overflow
      ensures forall u :: u != t ==> (u in current <==> u in old(current)) && (u in overflow <==> u in old(overflow))
      ensures !InEpoch(c + timers[t].period, epoch, n) ==> current == old(current)
    {
      hide Lists;
      var period := timers[t].period;
      ClassifyExact(c, x, period, n);
      ghost var h := past[t].(expiry := c + period);
      EnterLists(current, overflow, value, past, n, epoch, t, h);
      UnlistedChange(current, overflow, value, past, n, epoch, t, next, past[t]);
      assert past[t := past[t]] == past;
      value := value[t := next];
      processNow := false;
      if next <= now {
        if (now - command) % n >= period {
          processNow := true;
        } else {
          overflow, past := SortedInsert(overflow, t, value), past[t := h];
        }
      } else {
        if now < command && next >= command {
          processNow := true;
        } else {
          current, past := SortedInsert(current, t, value), past[t := h];
        }
      }
    }

    /** The callback of timer t runs. */
    ghost method Fire(t: Tid)
      requires t in past && Lists(current, overflow, value, past, n, epoch)
      modifies this`past
      ensures past == old(past)[t := old(past)[t].(fired := old(past)[t].fired + 1)]
      ensures Lists(current, overflow, value, past, n, epoch)
    {
      CountChange(current, overflow, value, past, n, epoch, t, past[t].(fired := past[t].fired + 1));
      past := past[t := past[t].(fired := past[t].fired + 1)];
    }

    /** prvReloadTimer: the callback runs for every further expiry up to x, and the timer is listed for the first
        one after x.  The callback for the expiry at e itself is left to the caller. */
    method ReloadTimer(t: Tid, expired: nat, now: nat, ghost e: nat, ghost x: nat)
      requires Lists(current, overflow, value, past, n, epoch) && t in timers && t in past && t !in current
      requires t !in overflow
      requires 0 < timers[t].period < n && e <= x < e + n && InEpoch(x, epoch, n) && Wrapped(expired, e, n)
      requires Wrapped(now, x, n)
      requires e == Nth(past[t].start, past[t].fired + 1, timers[t].period)
      modifies this`current, this`overflow, this`value, this`past
      ensures Lists(current, overflow, value, past, n, epoch) && (t in current || t in overflow)
      ensures t in past && past == old(past)[t := past[t]]
      ensures past[t].start == old(past)[t].start && past[t].fired >= old(past)[t].fired
      ensures past[t].expiry == Nth(past[t].start, past[t].fired + 2, timers[t].period)
      ensures Nth(past[t].start, past[t].fired + 1, timers[t].period) <= x < past[t].expiry
      ensures forall u :: u != t ==> (u in current <==> u in old(current)) && (u in overflow <==> u in old(overflow))
      ensures Wrapped(n - 1, x, n) ==> current == old(current)
    {
      hide Lists, Nth, Wrapped, InEpoch, Plus;
      var period := timers[t].period;
      var time := expired;
      ghost var at := e;
      WrappedPlus(time, at, period, n);
      var again := InsertTimerInActiveList(t, Plus(time, period, n), now, time, at, x);
      while again
        invariant Lists(current, overflow, value, past, n, epoch) && t in past && past == old(past)[t := past[t]]
        invariant again ==> t !in current && t !in overflow && current == old(current) && at + period <= x
        invariant !again ==> (t in current || t in overflow) && past[t].expiry == at + period > x
        invariant !again && !InEpoch(at + period, epoch, n) ==> current == old(current)
        invariant e <= at <= x < at + n && Wrapped(time, at, n)
        invariant at == Nth(past[t].start, past[t].fired + 1, period)
        invariant past[t].start == old(past)[t].start && past[t].fired >= old(past)[t].fired
        invariant forall u :: u != t ==>
          (u in current <==> u in old(current)) && (u in overflow <==> u in old(overflow))
        decreases again, x - at
      {
        NthNext(past[t].start, past[t].fired + 1, period);
        WrappedPlus(time, at, period, n);
        time := Plus(time, period, n);
        at := at + period;
        Fire(t);
        WrappedPlus(time, at, period, n);
        again := InsertTimerInActiveList(t, Plus(time, period, n), now, time, at, x);
      }
      NthNext(past[t].start, past[t].fired + 1, period);
      if Wrapped(n - 1, x, n) {
        AfterEpoch(x, at + period, epoch, n);
      }
    }

    /** prvProcessExpiredTimer: the timer at the head of the current list expired at or before x. */
    method ProcessExpiredTimer(expired: nat, now: nat, ghost x: nat, ghost but: set<Tid>)
      requires Part(but) && Absent(but) && current != [] && current[0] in past && past[current[0]].expiry <= x <= clock
      requires x / n == epoch && now == x % n && expired == Val(value, current[0])
      modifies this`current, this`overflow, this`value, this`past, this`timers
      ensures Part(but) && Absent(but) && Progress(old(Snap()), Snap(), but) && Untouched(old(Snap()), Snap(), but)
      ensures forall u :: u in old(current)[1..] ==> u in current && u in past && past[u] == old(past)[u]
      ensures x % n == n - 1 ==> current == old(current)[1..]
      ensures ServedAlone(old(Snap()), Snap(), old(current)[0], x)
    {
      hide Lists, Counts, Listed, Counted, Served, Progress, Nth;
      var t := current[0];
      HeadFacts(current, overflow, value, past, timers, n, clock, epoch, x, but);
      ghost var h := past[t];
      LeaveLists(current, overflow, value, past, n, epoch, t);
      current := Without(current, t);
      if timers[t].autoReload {
        ReloadTimer(t, expired, now, h.expiry, x);
        SameTimer(timers, t);
      } else {
        timers := timers[t := timers[t].(active := false)];
      }
      ghost var g := past[t];
      Fire(t);
      assert past == old(past)[t := past[t]];
      FiredFacts(old(timers)[t], h, timers[t], g, past[t], n, clock, x);
      ChangeOne(old(timers), old(past), n, clock, but, t, timers[t], past[t]);
      RelistOne(old(timers), old(current), old(overflow), current, overflow, but, t, timers[t]);
      assert but - {t} == but;
      assert timers == old(timers)[t := timers[t]];
    }

    /** prvSwitchTimerLists: what is left in the current list has expired, and is processed up to the end of the
        epoch. */
    method SwitchTimerLists(ghost but: set<Tid>)
      requires Part(but) && Absent(but) && clock / n > epoch
      modifies this`current, this`overflow, this`value, this`past, this`timers, this`epoch
      ensures Part(but) && Absent(but) && epoch == old(epoch) + 1 && Progress(old(Snap()), Snap(), but)
      ensures Untouched(old(Snap()), Snap(), but)
      ensures old(current) == [] && old(overflow) == [] ==> current == [] && overflow == []
    {
      hide Counts, Listed, Counted, Progress, ListOk;
      ghost var end := epoch * n + (n - 1);
      EpochEnd(epoch, n, clock);
      ProgressNone(timers, past, n, clock, but);
      while current != []
        invariant Part(but) && Absent(but) && Progress(old(Snap()), Snap(), but) && epoch == old(epoch)
        invariant Untouched(old(Snap()), Snap(), but)
        invariant old(current) == [] ==> current == [] && overflow == old(overflow)
        decreases |current|
      {
        HeadExpired(current, overflow, value, past, n, epoch, end);
        ghost var before := Snap();
        ProcessExpiredTimer(Val(value, current[0]), n - 1, end, but);
        ProgressTrans(old(Snap()), before, Snap(), but);
      }
      SwapLists(overflow, value, past, n, epoch);
      ListedSwap(timers, current, overflow, but);
      current, overflow := overflow, current;
      epoch := epoch + 1;
    }

    /** prvSampleTimeNow, at unbounded time x: less than one wrap after the last sample, or with no timer running. */
    method SampleTimeNow(tick: nat, ghost x: nat, ghost but: set<Tid>) returns (now: nat, switched: bool)
      requires Valid(but) && clock <= x && tick == x % n && (x < clock + n || (current == [] && overflow == []))
      modifies this`current, this`overflow, this`value, this`past, this`timers, this`epoch, this`last, this`clock
      ensures Valid(but) && clock == x && now == tick && Progress(old(Snap()), Snap(), but)
      ensures Untouched(old(Snap()), Snap(), but)
      ensures old(current) == [] && old(overflow) == [] ==> current == [] && overflow == []
      ensures x < old(clock) + n ==> x / n == old(clock) / n + if switched then 1 else 0
      ensures switched ==> x / n > old(clock) / n
      ensures !switched ==> current == old(current) && overflow == old(overflow) && value == old(value)
      ensures !switched ==> past == old(past) && timers == old(timers)
    {
      hide Counts, Listed, Counted, Progress, ListOk;
      now := tick;
      LaterClock(timers, past, n, clock, x, but);
      if x < clock + n {
        Distance(clock, x, n);
      } else {
        WholeWrap(clock, x, n);
      }
      ghost var before := Snap();
      clock := x;
      switched := now < last;
      if switched {
        SwitchTimerLists(but);
      }
      if x >= before.clock + n {
        EmptyLists(value, past, n, epoch, x / n);
      }
      epoch := x / n;
      last := now;
      ProgressTrans(before, Snapshot(before.timers, before.past, x), Snap(), but);
    }

    /** prvGetNextExpireTime: with the current list not empty, the earliest expiry of all running timers; otherwise 0,
        and no running timer expires before the count next wraps to it. */
    method GetNextExpireTime() returns (next: nat, listWasEmpty: bool)
      requires Valid({})
      ensures listWasEmpty <==> current == []
      ensures next == if current == [] then 0 else Val(value, current[0])
      ensures forall t :: t in timers && timers[t].active ==>
        t in past && (epoch + if listWasEmpty then 1 else 0) * n + next <= past[t].expiry
      ensures !listWasEmpty ==>
        exists t :: t in timers && timers[t].active && t in past && past[t].expiry == epoch * n + next
    {
      NextExpiry(current, overflow, value, past, timers, n, clock, epoch);
      listWasEmpty := current == [];
      next := 0;
      if !listWasEmpty {
        next := Val(value, current[0]);
      }
    }

    /** prvProcessTimerOrBlockTask, at unbounded time x.  When it blocks, every timer has been served up to x, and the
        daemon wakes no later than the next expiry, or never if no timer runs. */
    method ProcessTimerOrBlockTask(next: nat, listWasEmpty: bool, tick: nat, ghost x: nat)
      returns (blocked: bool, ticks: nat, indefinitely: bool)
      requires Valid({}) && clock <= x && tick == x % n && (x < clock + n || (current == [] && overflow == []))
      requires (listWasEmpty <==> current == []) && next == if current == [] then 0 else Val(value, current[0])
      modifies this
      ensures n == old(n) && Valid({}) && clock == x && Progress(old(Snap()), Snap(), {})
      ensures TurnOk(old(Snap()), Snap(), blocked, n) && (blocked ==> Settled(Snap()))
      ensures blocked ==> WaitOk(Snap(), ticks, indefinitely, n)
    {
      hide Counts, Listed, Counted, Progress, Lists, Settled, TurnOk, ServedAlone, WaitOk;
      var now, switched := SampleTimeNow(tick, x, {});
      blocked, ticks, indefinitely := false, 0, false;
      if !switched {
        if !listWasEmpty && next <= now {
          NextExpiry(current, overflow, value, past, timers, n, clock, epoch);
          HeadDue(current, overflow, value, past, n, clock, epoch);
          ghost var before := Snap();
          ProcessExpiredTimer(next, now, x, {});
          ProgressTrans(old(Snap()), before, Snap(), {});
          TurnServes(old(Snap()), before, Snap(), old(current)[0], n);
        } else {
          indefinitely := listWasEmpty && overflow == [];
          blocked, ticks := true, (next - now) % n;
          Waiting(current, overflow, value, past, timers, n, clock, epoch, next);
          TurnBlocks(old(Snap()), Snap(), n);
        }
      } else {
        RunningAhead(current, overflow, value, past, timers, n, epoch);
        TurnSwitches(old(Snap()), Snap(), n);
      }
    }

    /** The first half of a turn of prvTimerTask's loop, at unbounded time x. */
    method ServeOrBlock(tick: nat, ghost x: nat, ghost plans: map<Tid, Plan>) returns (blocked: bool)
      requires Valid({}) && clock <= x && tick == x % n && (x < clock + n || (current == [] && overflow == []))
      requires Obeyed(Snap(), plans)
      modifies this
      ensures n == old(n) && Valid({}) && clock == x && timers.Keys == old(timers).Keys && Obeyed(Snap(), plans)
      ensures TurnOk(old(Snap()), Snap(), blocked, n) && (blocked ==> AllFiredExactly(Snap(), plans))
    {
      hide Counts, Listed, Lists, Absent, AllFiredExactly, Settled, Served, Obeys, TurnOk;
      var next, listWasEmpty := GetNextExpireTime();
      ghost var before := Snap();
      var block, _, _ := ProcessTimerOrBlockTask(next, listWasEmpty, tick, x);
      blocked := block;
      ServedObeyed(before, Snap(), plans);
      if blocked {
        AllSettledExact(Snap(), plans, n);
      }
    }

    /** A turn of prvTimerTask's loop: it serves timers or blocks, then handles the messages it finds.  It is given up
        where a sample comes a wrap or more after the last one while timers run. */
    method Turn(r: Round, last: nat, ghost plans: map<Tid, Plan>)
      returns (served: bool, commanded: bool, blocked: bool, ghost seen: Snapshot)
      requires Valid({}) && clock == last && WellFormed(r, timers.Keys, n) && Obeyed(Snap(), plans)
      modifies this
      ensures !served ==> !InStep(last, r.at, old(n))
      ensures served ==> seen.clock == r.at && (blocked ==> AllFiredExactly(seen, plans))
      ensures served ==> TurnOk(old(Snap()), seen, blocked, old(n))
      ensures served && commanded && r.queue == [] ==> Snap() == seen
      ensures served && !commanded ==> r.times != [] && !InStep(r.at, r.times[0], old(n))
      ensures served && commanded ==>
        && n == old(n) && Valid({}) && clock == EndOf(r) && timers.Keys == old(timers).Keys
        && Obeyed(Snap(), AskAll(plans, r.queue, r.issued, r.times, |r.queue|))
    {
      hide Part, Absent, AllFiredExactly, Obeyed, AskAll, InTime, WrapAll, TurnOk;
      served, commanded, blocked, seen := false, false, false, Snap();
      if r.at < last || !(r.at < last + n || (current == [] && overflow == [])) {
        return;
      }
      blocked := ServeOrBlock(r.at % n, r.at, plans);
      served, seen := true, Snap();
      if r.times != [] && (r.times[0] < r.at || !(r.times[0] < r.at + n || (current == [] && overflow == []))) {
        return;
      }
      ProcessReceivedCommands(r.queue, WrapAll(r.times, n), r.issued, r.times, plans);
      commanded := true;
    }

    /** A commanded timer leaves its list first. */
    method RemoveTimer(t: Tid)
      requires Valid({}) && t in timers
      modifies this`current, this`overflow
      ensures Valid({t}) && Progress(old(Snap()), Snap(), {t}) && t in past && Counted(timers[t], past[t], n, clock)
      ensures old(current) == [] && old(overflow) == [] ==> current == [] && overflow == []
    {
      hide Counted, Progress, Lists;
      LeaveLists(current, overflow, value, past, n, epoch, t);
      FewerCounts(timers, past, n, clock, t);
      current, overflow := Without(current, t), Without(overflow, t);
    }

    /** The timer is settled again: its history is in order and its active flag agrees with the lists. */
    ghost method Settle(t: Tid, timers0: map<Tid, Timer>, past0: map<Tid, History>, current0: seq<Tid>,
                        overflow0: seq<Tid>)
      requires n >= 2 && Lists(current, overflow, value, past, n, epoch) && last == clock % n && epoch == clock / n
      requires Counts(timers0, past0, n, clock, {t}) && Listed(timers0, current0, overflow0, {t}) && t in timers0
      requires t in timers && t in past && timers == timers0[t := timers[t]] && past == past0[t := past[t]]
      requires Counted(timers[t], past[t], n, clock) && (timers[t].active <==> t in current || t in overflow)
      requires forall u :: u != t ==> (u in current <==> u in current0) && (u in overflow <==> u in overflow0)
      ensures Valid({}) && Progress(Snapshot(timers0, past0, clock), Snap(), {t})
    {
      hide Lists, Counts, Listed, Counted, Progress;
      RestoreOne(timers0, past0, n, clock, t, timers[t], past[t]);
      RelistOne(timers0, current0, overflow0, current, overflow, {t}, t, timers[t]);
      assert {t} - {t} == {};
    }

    /** tmrCOMMAND_STOP, and tmrCOMMAND_DELETE of a statically allocated timer. */
    method SetInactive(t: Tid)
      requires Valid({t}) && t in timers && t in past && Counted(timers[t], past[t], n, clock)
      modifies this`timers
      ensures Valid({}) && Progress(old(Snap()), Snap(), {t})
      ensures t in timers && timers[t] == old(timers)[t].(active := false)
    {
      hide Lists, Counts, Listed, Progress, Nth;
      timers := timers[t := timers[t].(active := false)];
      assert past == past[t := past[t]];
      Settle(t, old(timers), past, current, overflow);
    }

    /** tmrCOMMAND_CHANGE_PERIOD. */
    method ChangeTimerPeriod(t: Tid, period: nat, now: nat)
      requires Valid({t}) && t in timers && t in past && 0 < period < n && now == clock % n
      modifies this`timers, this`past, this`current, this`overflow, this`value
      ensures Valid({}) && Progress(old(Snap()), Snap(), {t}) && t in timers && t in past
      ensures past[t].start == clock && past[t].fired == 0
      ensures timers[t] == Timer(period, old(timers)[t].autoReload, true)
      ensures Caught(timers[t], past[t], clock)
    {
      hide Lists, Counts, Listed, Progress, Nth;
      timers := timers[t := Timer(period, timers[t].autoReload, true)];
      UnlistedChange(current, overflow, value, past, n, epoch, t, 0, History(clock, 0, 0));
      past := past[t := History(clock, 0, 0)];
      WrappedPlus(now, clock, period, n);
      var expired := InsertTimerInActiveList(t, Plus(now, period, n), now, now, clock, clock);
      assert past == old(past)[t := past[t]];
      NthNext(clock, 0, period);
      Settle(t, old(timers), old(past), old(current), old(overflow));
    }

    /** tmrCOMMAND_START and tmrCOMMAND_RESET. */
    method StartTimer(t: Tid, time: nat, now: nat, ghost c: nat, ghost x: nat)
      requires Valid({t}) && t in timers && t in past && c <= x < c + n && time == c % n && now == x % n && clock == x
      requires 0 < timers[t].period < n
      modifies this`timers, this`past, this`current, this`overflow, this`value
      ensures Valid({}) && Progress(old(Snap()), Snap(), {t}) && t in timers && t in past
      ensures past[t].start == c && timers[t].period == old(timers)[t].period
      ensures timers[t].autoReload == old(timers)[t].autoReload
      ensures Caught(timers[t], past[t], x)
    {
      hide Lists, Counts, Listed, Progress, Nth;
      var period := timers[t].period;
      timers := timers[t := timers[t].(active := true)];
      UnlistedChange(current, overflow, value, past, n, epoch, t, 0, History(c, 0, 0));
      past := past[t := History(c, 0, 0)];
      WrappedPlus(time, c, period, n);
      NthNext(c, 0, period);
      var expired := InsertTimerInActiveList(t, Plus(time, period, n), now, time, c, x);
      if expired {
        if timers[t].autoReload {
          ReloadTimer(t, Plus(time, period, n), now, c + period, x);
        } else {
          timers := timers[t := timers[t].(active := false)];
        }
        Fire(t);
      }
      assert past == old(past)[t := past[t]];
      assert timers == old(timers)[t := timers[t]];
      Settle(t, old(timers), old(past), old(current), old(overflow));
    }

    /** A command of prvProcessReceivedCommands for timer t, issued at unbounded time c and handled at x, within one
        wrap. */
    method ProcessCommand(t: Tid, command: Command, tick: nat, ghost c: nat, ghost x: nat)
      requires Valid({}) && t in timers && clock <= x && tick == x % n
      requires (x < clock + n || (current == [] && overflow == []))
      requires command.Start? ==> c <= x < c + n && command.time == c % n
      requires command.ChangePeriod? ==> 0 < command.period < n
      modifies this
      ensures n == old(n) && Valid({}) && clock == x && Progress(old(Snap()), Snap(), {t}) && t in timers && t in past
      ensures command.Stop? || command.Delete? ==>
        && !timers[t].active && timers[t].period == old(timers)[t].period
        && timers[t].autoReload == old(timers)[t].autoReload
      ensures command.Start? ==> past[t].start == c && timers[t].period == old(timers)[t].period
      ensures command.ChangePeriod? ==> past[t].start == x && timers[t].period == command.period && past[t].fired == 0
      ensures command.Start? || command.ChangePeriod? ==>
        timers[t].autoReload == old(timers)[t].autoReload && Caught(timers[t], past[t], x)
      ensures Done(old(timers)[t], timers[t], past[t], command, c, x)
    {
      hide Counts, Listed, Counted, Progress, Lists, Nth, Part, Absent, Caught;
      RemoveTimer(t);
      ghost var before := Snap();
      CountedLater(timers[t], past[t], n, clock, x);
      var now, _ := SampleTimeNow(tick, x, {t});
      ghost var sampled := Snap();
      match command {
        case Start(time) => StartTimer(t, time, now, c, x);
        case Stop => SetInactive(t);
        case ChangePeriod(period) => ChangeTimerPeriod(t, period, now);
        case Delete => SetInactive(t);
      }
      ProgressTrans(before, sampled, Snap(), {t});
    }

    /** prvProcessReceivedCommands: the messages in the queue, the i-th handled at unbounded time times[i]. */
    method ProcessReceivedCommands(queue: seq<Message>, ticks: seq<nat>, ghost issued: seq<nat>, ghost times: seq<nat>,
                                   ghost plans: map<Tid, Plan>)
      requires Valid({}) && |ticks| == |queue| && |issued| == |queue| && |times| == |queue|
      requires forall i :: 0 <= i < |queue| ==>
        queue[i].t in timers && InTime(queue[i].command, ticks[i], issued[i], times[i], n)
      requires forall i :: 1 <= i < |times| ==> times[i - 1] <= times[i] < times[i - 1] + n
      requires times != [] ==> clock <= times[0] && (times[0] < clock + n || (current == [] && overflow == []))
      requires Obeyed(Snap(), plans)
      modifies this
      ensures n == old(n) && Valid({}) && Progress(old(Snap()), Snap(), Named(queue, |queue|))
      ensures Obeyed(Snap(), AskAll(plans, queue, issued, times, |queue|))
      ensures clock == if times == [] then old(clock) else times[|times| - 1]
      ensures queue == [] ==> Snap() == old(Snap())
    {
      hide Counts, Listed, Counted, Progress, Lists, Absent, Caught, Named, Obeyed, Ask;
      var i := 0;
      ProgressStart(timers, past, n, clock, queue);
      while i < |queue|
        invariant 0 <= i <= |queue| && n == old(n) && Valid({}) && Progress(old(Snap()), Snap(), Named(queue, i))
        invariant clock == if i == 0 then old(clock) else times[i - 1]
        invariant i == 0 ==> current == old(current) && overflow == old(overflow) && Snap() == old(Snap())
        invariant timers.Keys == old(timers).Keys && Obeyed(Snap(), AskAll(plans, queue, issued, times, i))
      {
        ghost var before := Snap();
        assert InTime(queue[i].command, ticks[i], issued[i], times[i], n);
        ProcessCommand(queue[i].t, queue[i].command, ticks[i], issued[i], times[i]);
        ProgressNamed(old(Snap()), before, Snap(), queue, i);
        AskedObeyed(before, Snap(), AskAll(plans, queue, issued, times, i), queue[i].t, queue[i].command, issued[i],
                    times[i]);
        i := i + 1;
      }
    }
  }

  /** What the users of a timer have asked of it so far. */
  datatype Plan = Plan(period: nat, autoReload: bool, running: bool, start: nat)

  /** A command, issued at c and handled at x, changes what is asked. */
  function Ask(plan: Plan, command: Command, c: nat, x: nat): (r: Plan) {
    match command
    case Start(_) => plan.(running := true, start := c)
    case ChangePeriod(period) => plan.(period := period, running := true, start := x)
    case _ => plan.(running := false)
  }

  /** What is asked of all timers after the first i messages. */
  function AskAll(plans: map<Tid, Plan>, queue: seq<Message>, issued: seq<nat>, times: seq<nat>,
                  i: nat): (r: map<Tid, Plan>)
    requires |issued| == |queue| && |times| == |queue| && i <= |queue|
    ensures r.Keys == plans.Keys
  {
    if i == 0 then plans
    else
      var before := AskAll(plans, queue, issued, times, i - 1);
      var t := queue[i - 1].t;
      if t in before then before[t := Ask(before[t], queue[i - 1].command, issued[i - 1], times[i - 1])] else before
  }

  /** The timer is as it was asked to be; a one-shot that has fired has stopped. */
  ghost predicate Obeys(tm: Timer, h: History, plan: Plan) {
    && tm.period == plan.period && tm.autoReload == plan.autoReload
    && (plan.running ==> h.start == plan.start && (tm.active || (!tm.autoReload && h.fired == 1)))
    && (!plan.running ==> !tm.active)
  }

  ghost predicate Obeyed(s: Snapshot, plans: map<Tid, Plan>) {
    && s.timers.Keys == plans.Keys && s.past.Keys == plans.Keys
    && forall t :: t in plans ==> Obeys(s.timers[t], s.past[t], plans[t])
  }

  /** Serving timers does not change what they have been asked to do. */
  lemma ServedObeyed(a: Snapshot, b: Snapshot, plans: map<Tid, Plan>)
    requires Obeyed(a, plans) && Progress(a, b, {})
    ensures Obeyed(b, plans)
  {
    hide Obeys, Served;
    forall t | t in plans ensures Obeys(b.timers[t], b.past[t], plans[t]) {
      ServedObeys(a.timers[t], a.past[t], b.timers[t], b.past[t], plans[t]);
    }
  }

  /** Timer t has done what a command asked of it. */
  ghost predicate Done(a: Timer, b: Timer, h: History, command: Command, c: nat, x: nat) {
    && b.autoReload == a.autoReload
    && match command
       case Start(_) => h.start == c && b.period == a.period && Caught(b, h, x)
       case ChangePeriod(period) => h.start == x && b.period == period && Caught(b, h, x)
       case _ => !b.active && b.period == a.period
  }

  lemma AskedObeyed(a: Snapshot, b: Snapshot, plans: map<Tid, Plan>, t: Tid, command: Command, c: nat, x: nat)
    requires Obeyed(a, plans) && Progress(a, b, {t}) && t in a.timers && t in b.timers && t in b.past
    requires Done(a.timers[t], b.timers[t], b.past[t], command, c, x)
    ensures t in plans && Obeyed(b, plans[t := Ask(plans[t], command, c, x)])
  {
    hide Obeys, Done, Ask, Served;
    var after := plans[t := Ask(plans[t], command, c, x)];
    forall u | u in after ensures Obeys(b.timers[u], b.past[u], after[u]) {
      if u != t {
        ServedObeys(a.timers[u], a.past[u], b.timers[u], b.past[u], plans[u]);
      } else {
        DoneObeys(a.timers[t], a.past[t], b.timers[t], b.past[t], plans[t], command, c, x);
      }
    }
  }

  lemma DoneObeys(a: Timer, g: History, b: Timer, h: History, plan: Plan, command: Command, c: nat, x: nat)
    requires Obeys(a, g, plan) && Done(a, b, h, command, c, x)
    ensures Obeys(b, h, Ask(plan, command, c, x))
  {
  }

  lemma ServedObeys(a: Timer, g: History, b: Timer, h: History, plan: Plan)
    requires Obeys(a, g, plan) && Served(a, g, b, h)
    ensures Obeys(b, h, plan)
  {
  }

  datatype Message = Message(t: Tid, command: Command)

  /** A command issued at c is handled at x, when the tick count is `tick`, within one wrap. */
  ghost predicate InTime(command: Command, tick: nat, c: nat, x: nat, n: nat) {
    && n > 0 && tick == x % n
    && (command.Start? ==> c <= x < c + n && command.time == c % n)
    && (command.ChangePeriod? ==> 0 < command.period < n)
  }

  /** The timers named by the first i messages. */
  ghost function Named(queue: seq<Message>, i: nat): (who: set<Tid>)
    requires i <= |queue|
  {
    set j | 0 <= j < i :: queue[j].t
  }

  lemma ProgressStart(timers: map<Tid, Timer>, past: map<Tid, History>, n: nat, clock: nat, queue: seq<Message>)
    requires Counts(timers, past, n, clock, {})
    ensures Progress(Snapshot(timers, past, clock), Snapshot(timers, past, clock), Named(queue, 0))
  {
    ProgressNone(timers, past, n, clock, {});
  }

  lemma ProgressNamed(a: Snapshot, b: Snapshot, c: Snapshot, queue: seq<Message>, i: nat)
    requires i < |queue| && Progress(a, b, Named(queue, i)) && Progress(b, c, {queue[i].t})
    ensures Progress(a, c, Named(queue, i + 1)) && c.timers.Keys == b.timers.Keys
  {
    assert Named(queue, i + 1) == Named(queue, i) + {queue[i].t};
    hide Served, Named;
    assert Progress(a, b, Named(queue, i + 1)) && Progress(b, c, Named(queue, i + 1));
    ProgressTrans(a, b, c, Named(queue, i + 1));
  }

  datatype Command = Start(time: nat) | Stop | ChangePeriod(period: nat) | Delete

  /** A timer that has been started is waiting for an expiry after x, or is a one-shot that has fired. */
  ghost predicate Caught(tm: Timer, h: History, x: nat) {
    (tm.active && x < h.expiry) || (!tm.active && !tm.autoReload && h.fired == 1)
  }

  ghost predicate Settled(s: Snapshot) {
    forall t :: t in s.timers && s.timers[t].active ==> t in s.past && s.clock < s.past[t].expiry
  }

  lemma CountedLater(tm: Timer, h: History, n: nat, clock: nat, x: nat)
    requires Counted(tm, h, n, clock) && clock <= x
    ensures Counted(tm, h, n, x) && 0 < tm.period < n
  {
  }

  lemma FewerCounts(timers: map<Tid, Timer>, past: map<Tid, History>, n: nat, clock: nat, t: Tid)
    requires Counts(timers, past, n, clock, {})
    ensures Counts(timers, past, n, clock, {t})
    ensures Progress(Snapshot(timers, past, clock), Snapshot(timers, past, clock), {t})
    ensures t in timers ==> t in past && Counted(timers[t], past[t], n, clock)
  {
  }

  /** The head of the current list, when its item value has been reached. */
  lemma HeadDue(current: seq<Tid>, overflow: seq<Tid>, value: map<Tid, nat>, past: map<Tid, History>, n: nat,
                clock: nat, epoch: nat)
    requires Lists(current, overflow, value, past, n, epoch) && current != [] && epoch == clock / n
    requires Val(value, current[0]) <= clock % n
    ensures current[0] in past && past[current[0]].expiry <= clock
  {
    assert current[0] in current;
    EpochOrder(past[current[0]].expiry, clock, n);
  }

  /** When the head of the current list is in the future, so is every running timer; and with the current list empty
      nothing expires before the count wraps, which is not now. */
  lemma NothingDue(current: seq<Tid>, overflow: seq<Tid>, value: map<Tid, nat>, past: map<Tid, History>,
                   timers: map<Tid, Timer>,
                   n: nat, clock: nat, epoch: nat)
    requires Lists(current, overflow, value, past, n, epoch) && Counts(timers, past, n, clock, {})
    requires Listed(timers, current, overflow, {})
    requires epoch == clock / n && (current != [] ==> Val(value, current[0]) > clock % n)
    ensures Settled(Snapshot(timers, past, clock))
    ensures current != [] ==>
      forall t :: t in timers && timers[t].active ==> clock + Val(value, current[0]) - clock % n <= past[t].expiry
    ensures current == [] ==> forall t :: t in timers && timers[t].active ==> clock + n - clock % n <= past[t].expiry
    ensures current == [] && overflow == [] ==> forall t :: t in timers ==> !timers[t].active
    ensures current == [] && overflow != [] ==> clock % n != 0
    ensures current != [] ==> Val(value, current[0]) < n
  {
    hide Nth;
    forall t | t in timers && timers[t].active
      ensures clock < past[t].expiry
      ensures current != [] ==> clock + Val(value, current[0]) - clock % n <= past[t].expiry
      ensures current == [] ==> clock + n - clock % n <= past[t].expiry
    {
      OneDue(current, overflow, value, past, n, clock, epoch, t);
    }
    if current != [] {
      assert current[0] in current;
    }
    if current == [] && overflow != [] {
      var t := overflow[0];
      assert t in overflow;
      NthNext(past[t].start, past[t].fired, timers[t].period);
    }
  }

  lemma OneDue(current: seq<Tid>, overflow: seq<Tid>, value: map<Tid, nat>, past: map<Tid, History>, n: nat,
               clock: nat, epoch: nat, t: Tid)
    requires n > 0 && Lists(current, overflow, value, past, n, epoch) && epoch == clock / n
    requires t in current || t in overflow
    requires current != [] ==> Val(value, current[0]) > clock % n
    ensures t in past && clock < past[t].expiry
    ensures current != [] ==> clock + Val(value, current[0]) - clock % n <= past[t].expiry
    ensures t in overflow ==> clock + n - clock % n <= past[t].expiry
  {
    hide Lists;
    ExpiryOf(current, overflow, value, past, n, epoch, t);
    assert clock == epoch * n + clock % n && (epoch + 1) * n == epoch * n + n;
    assert t in current ==> current != [];
  }

  /** The first expiry of all running timers, as the head of the current list gives it. */
  lemma NextExpiry(current: seq<Tid>, overflow: seq<Tid>, value: map<Tid, nat>, past: map<Tid, History>,
                   timers: map<Tid, Timer>, n: nat, clock: nat, epoch: nat)
    requires Lists(current, overflow, value, past, n, epoch) && Counts(timers, past, n, clock, {})
    requires Listed(timers, current, overflow, {})
    ensures current == [] ==>
      forall t :: t in timers && timers[t].active ==> t in past && (epoch + 1) * n <= past[t].expiry
    ensures current != [] ==>
      forall t :: t in timers && timers[t].active ==> t in past && epoch * n + Val(value, current[0]) <= past[t].expiry
    ensures current != [] ==> current[0] in timers && timers[current[0]].active && current[0] in past &&
                              past[current[0]].expiry == epoch * n + Val(value, current[0])
  {
    hide Counted, Lists;
    if current != [] {
      assert current[0] in current;
      ExpiryOf(current, overflow, value, past, n, epoch, current[0]);
    }
    forall t | t in timers && timers[t].active
      ensures t in past
      ensures current == [] ==> (epoch + 1) * n <= past[t].expiry
      ensures current != [] ==> epoch * n + Val(value, current[0]) <= past[t].expiry
    {
      ExpiryOf(current, overflow, value, past, n, epoch, t);
    }
  }

  /** A listed timer's expiry, from its list and its item value. */
  lemma ExpiryOf(current: seq<Tid>, overflow: seq<Tid>, value: map<Tid, nat>, past: map<Tid, History>, n: nat,
                 epoch: nat, t: Tid)
    requires Lists(current, overflow, value, past, n, epoch) && (t in current || t in overflow)
    ensures t in past && (t in current ==> past[t].expiry == epoch * n + Val(value, t))
    ensures t in overflow ==> (epoch + 1) * n <= past[t].expiry
    ensures current != [] ==> epoch * n + Val(value, current[0]) <= past[t].expiry
  {
    hide ListOk;
    if t in current {
      ExpiryInList(current, value, past, n, epoch, t);
    } else {
      ExpiryInList(overflow, value, past, n, epoch + 1, t);
      assert (epoch + 1) * n == epoch * n + n;
      if current != [] {
        ExpiryInList(current, value, past, n, epoch, current[0]);
      }
    }
  }

  lemma ExpiryInList(q: seq<Tid>, value: map<Tid, nat>, past: map<Tid, History>, n: nat, epoch: nat, t: Tid)
    requires ListOk(q, value, past, n, epoch) && t in q
    ensures t in past && past[t].expiry == epoch * n + Val(value, t) && Val(value, t) < n
    ensures Val(value, q[0]) <= Val(value, t)
  {
    var e := past[t].expiry;
    assert e == e / n * n + e % n;
    var i :| 0 <= i < |q| && q[i] == t;
  }

  /** A finite wait ends at the next expiry of the current list, or when the count wraps. */
  lemma WaitEnds(next: nat, now: nat, n: nat, clock: nat, epoch: nat, empty: bool)
    requires n >= 2 && now == clock % n && epoch == clock / n
    ensures !empty && now < next < n ==> clock + (next - now) % n == epoch * n + next
    ensures empty && next == 0 && now != 0 ==> (clock + (next - now) % n) % n == 0
  {
    WaitTicks(next, now, n, empty);
    assert clock == epoch * n + now;
    if empty && next == 0 && now != 0 {
      assert (epoch + 1) * n == epoch * n + n;
      DivModUnique(clock + (n - now), epoch + 1, 0, n);
    }
  }

  /** The daemon waits for ever exactly if no timer runs; otherwise until the next expiry, or until the count wraps if
      that is before it. */
  ghost predicate WaitOk(s: Snapshot, ticks: nat, indefinitely: bool, n: nat) {
    && n > 0 && (indefinitely <==> forall t :: t in s.timers ==> !s.timers[t].active)
    && (!indefinitely ==>
          && 0 < ticks < n
          && (forall t :: t in s.timers && s.timers[t].active ==> t in s.past && s.clock + ticks <= s.past[t].expiry)
          && ((s.clock + ticks) % n == 0 ||
              exists t :: t in s.timers && s.timers[t].active && t in s.past && s.past[t].expiry == s.clock + ticks))
  }

  /** The wait that follows when no timer is due. */
  lemma Waiting(current: seq<Tid>, overflow: seq<Tid>, value: map<Tid, nat>, past: map<Tid, History>,
                timers: map<Tid, Timer>, n: nat, clock: nat, epoch: nat, next: nat)
    requires Lists(current, overflow, value, past, n, epoch) && Counts(timers, past, n, clock, {})
    requires Listed(timers, current, overflow, {}) && n >= 2 && epoch == clock / n
    requires next == if current == [] then 0 else Val(value, current[0])
    requires current != [] ==> next > clock % n
    ensures Settled(Snapshot(timers, past, clock))
    ensures current == [] && overflow == [] ==> forall t :: t in timers ==> !timers[t].active
    ensures WaitOk(Snapshot(timers, past, clock), (next - clock % n) % n, current == [] && overflow == [], n)
  {
    hide Lists, Listed, Counted, Settled;
    NothingDue(current, overflow, value, past, timers, n, clock, epoch);
    WaitTicks(next, clock % n, n, current == []);
    WaitEnds(next, clock % n, n, clock, epoch, current == []);
    SomeRunning(timers, current, overflow);
    NextExpiry(current, overflow, value, past, timers, n, clock, epoch);
  }

  /** If either list has a member, some timer runs. */
  lemma SomeRunning(timers: map<Tid, Timer>, current: seq<Tid>, overflow: seq<Tid>)
    requires Listed(timers, current, overflow, {})
    ensures current != [] ==> exists t :: t in timers && timers[t].active
    ensures overflow != [] ==> exists t :: t in timers && timers[t].active
  {
    if current != [] {
      assert current[0] in current;
    }
    if overflow != [] {
      assert overflow[0] in overflow;
    }
  }

  /** A turn in which the timer that expires first is served. */
  lemma TurnServes(a: Snapshot, mid: Snapshot, b: Snapshot, t: Tid, n: nat)
    requires n > 0 && a.clock / n == b.clock / n && mid == a.(clock := b.clock)
    requires ServedAlone(mid, b, t, b.clock) && t in DueBy(a, b.clock)
    requires forall u :: u in a.timers && a.timers[u].active ==> u in a.past && a.past[t].expiry <= a.past[u].expiry
    ensures TurnOk(a, b, false, n)
  {
    assert ServedAlone(a, b, t, b.clock);
    hide ServedAlone;
  }

  /** A timer that was running and is not waiting for the same expiry any more has fired. */
  lemma MovedOnFired(tm: Timer, h: History, tm': Timer, h': History, n: nat, clock: nat, clock': nat)
    requires Counted(tm, h, n, clock) && Counted(tm', h', n, clock') && Served(tm, h, tm', h') && tm.active
    requires tm'.active ==> h'.expiry > h.expiry
    ensures h'.fired > h.fired
  {
  }

  /** No running timer expires in an earlier epoch. */
  lemma RunningAhead(current: seq<Tid>, overflow: seq<Tid>, value: map<Tid, nat>, past: map<Tid, History>,
                     timers: map<Tid, Timer>, n: nat, epoch: nat)
    requires Lists(current, overflow, value, past, n, epoch) && Listed(timers, current, overflow, {})
    ensures n > 0 && forall t :: t in timers && timers[t].active ==> t in past && past[t].expiry / n >= epoch
  {
  }

  /** A turn at which the count has wrapped. */
  lemma TurnSwitches(a: Snapshot, b: Snapshot, n: nat)
    requires n > 0 && a.clock / n < b.clock / n && Progress(a, b, {})
    requires Counts(a.timers, a.past, n, a.clock, {}) && Counts(b.timers, b.past, n, b.clock, {})
    requires forall t :: t in b.timers && b.timers[t].active ==> t in b.past && b.past[t].expiry / n >= b.clock / n
    ensures TurnOk(a, b, false, n)
  {
    hide Counted, Served;
    forall t | t in a.timers && a.timers[t].active && t in a.past && a.past[t].expiry / n < b.clock / n
      ensures t in b.past && b.past[t].fired > a.past[t].fired
    {
      if b.timers[t].active {
        EpochOrder(a.past[t].expiry, b.past[t].expiry, n);
      }
      MovedOnFired(a.timers[t], a.past[t], b.timers[t], b.past[t], n, a.clock, b.clock);
    }
  }

  lemma TurnBlocks(a: Snapshot, b: Snapshot, n: nat)
    requires n > 0 && b.timers == a.timers && b.past == a.past && Settled(b)
    requires a.clock / n == b.clock / n || forall t :: t in a.timers ==> !a.timers[t].active
    ensures TurnOk(a, b, true, n)
  {
    hide ServedAlone;
    assert DueBy(a, b.clock) == {};
  }

  lemma WaitTicks(next: nat, now: nat, n: nat, empty: bool)
    requires now < n && n >= 2
    ensures !empty && now < next < n ==> (next - now) % n == next - now
    ensures next == 0 && now != 0 ==> (next - now) % n == n - now
  {
    if !empty && now < next < n {
      DivModUnique(next - now, 0, next - now, n);
    } else if next == 0 && now != 0 {
      DivModUnique(next - now, -1, n - now, n);
    }
  }

  lemma EpochEnd(epoch: nat, n: nat, clock: nat)
    requires n >= 1 && clock / n > epoch
    ensures var end := epoch * n + (n - 1); end / n == epoch && end % n == n - 1 && end < clock
  {
    var end := epoch * n + (n - 1);
    DivModUnique(end, epoch, n - 1, n);
    EpochOrder(end, clock, n);
  }

  lemma ProgressNone(timers: map<Tid, Timer>, past: map<Tid, History>, n: nat, clock: nat, but: set<Tid>)
    requires Counts(timers, past, n, clock, but)
    ensures Progress(Snapshot(timers, past, clock), Snapshot(timers, past, clock), but)
  {
  }

  /** Every timer of the current list expires by the end of the epoch. */
  lemma HeadExpired(current: seq<Tid>, overflow: seq<Tid>, value: map<Tid, nat>, past: map<Tid, History>, n: nat,
                    epoch: nat, end: nat)
    requires Lists(current, overflow, value, past, n, epoch) && current != [] && end / n == epoch && end % n == n - 1
    ensures current[0] in past && past[current[0]].expiry <= end
  {
    assert current[0] in current;
    EpochOrder(past[current[0]].expiry, end, n);
  }

  lemma SwapLists(overflow: seq<Tid>, value: map<Tid, nat>, past: map<Tid, History>, n: nat, epoch: nat)
    requires Lists([], overflow, value, past, n, epoch)
    ensures Lists(overflow, [], value, past, n, epoch + 1)
  {
  }

  lemma ListedSwap(timers: map<Tid, Timer>, current: seq<Tid>, overflow: seq<Tid>, but: set<Tid>)
    requires Listed(timers, current, overflow, but)
    ensures Listed(timers, overflow, current, but)
  {
  }

  /** Time passes; nothing else happens. */
  lemma LaterClock(timers: map<Tid, Timer>, past: map<Tid, History>, n: nat, clock: nat, x: nat, but: set<Tid>)
    requires Counts(timers, past, n, clock, but) && clock <= x
    ensures Counts(timers, past, n, x, but)
    ensures Progress(Snapshot(timers, past, clock), Snapshot(timers, past, x), but)
    ensures Progress(Snapshot(timers, past, x), Snapshot(timers, past, x), but)
  {
  }

  lemma WholeWrap(a: nat, b: nat, n: nat)
    requires n > 0 && b >= a + n
    ensures b / n > a / n
  {
    assert (a / n + 1) * n == a / n * n + n;
    DivModUnique(a + n, a / n + 1, a % n, n);
    EpochOrder(a + n, b, n);
  }

  lemma EmptyLists(value: map<Tid, nat>, past: map<Tid, History>, n: nat, epoch: nat, epoch': nat)
    requires Lists([], [], value, past, n, epoch)
    ensures Lists([], [], value, past, n, epoch')
  {
  }

  /** The timer at the head of the current list. */
  lemma HeadFacts(current: seq<Tid>, overflow: seq<Tid>, value: map<Tid, nat>, past: map<Tid, History>,
                  timers: map<Tid, Timer>,
                  n: nat, clock: nat, epoch: nat, x: nat, but: set<Tid>)
    requires Lists(current, overflow, value, past, n, epoch) && Counts(timers, past, n, clock, but)
    requires Listed(timers, current, overflow, but)
    requires forall u :: u in but ==> u !in current
    requires current != [] && current[0] in past && past[current[0]].expiry <= x && x / n == epoch
    ensures var t := current[0];
      && t in timers && timers[t].active && 0 < timers[t].period < n && t !in overflow
      && Val(value, t) == past[t].expiry % n && x < past[t].expiry + n
      && past[t].expiry == Nth(past[t].start, past[t].fired + 1, timers[t].period)
      && Counted(timers[t], past[t], n, clock)
      && forall u :: u in current[1..] ==> u in current && u != t && u in past
  {
    var t := current[0];
    assert t in current;
    EpochOrder(past[t].expiry, x, n);
    assert current == [t] + current[1..];
  }

  /** A timer's history g, after any reload, once its callback has run: h' is g with one more firing. */
  lemma FiredFacts(tm: Timer, h: History, tm': Timer, g: History, h': History, n: nat, clock: nat, x: nat)
    requires Counted(tm, h, n, clock) && tm.active && x <= clock && h' == g.(fired := g.fired + 1)
    requires h.expiry <= x
    requires tm.autoReload ==>
      && tm' == tm && g.start == h.start && g.fired >= h.fired && g.expiry == Nth(g.start, g.fired + 2, tm.period)
      && Nth(g.start, g.fired + 1, tm.period) <= x
    requires !tm.autoReload ==> tm' == tm.(active := false) && g == h
    ensures Counted(tm', h', n, clock) && Served(tm, h, tm', h')
  {
  }

  /** Beyond the last tick of an epoch is another epoch. */
  lemma AfterEpoch(x: nat, y: nat, epoch: nat, n: nat)
    requires n >= 1 && Wrapped(n - 1, x, n) && InEpoch(x, epoch, n) && x < y
    ensures !InEpoch(y, epoch, n)
  {
    EpochOrder(x, y, n);
  }

  // ---------------------------------------------------------------- whole runs

  /** One turn of prvTimerTask's loop: the time at which it samples first, and the messages it then finds with the times
      at which they were issued and are handled.  All times are unbounded. */
  datatype Round = Round(at: nat, queue: seq<Message>, issued: seq<nat>, times: seq<nat>)

  predicate Sized(r: Round) { |r.issued| == |r.queue| && |r.times| == |r.queue| }

  /** The messages name existing timers and are handled in order, each within one wrap of its issue and of the one
      before. */
  ghost predicate WellFormed(r: Round, timers: set<Tid>, n: nat) {
    && n > 0 && Sized(r)
    && (forall i :: 0 <= i < |r.queue| ==>
          r.queue[i].t in timers && InTime(r.queue[i].command, r.times[i] % n, r.issued[i], r.times[i], n))
    && (forall i :: 1 <= i < |r.times| ==> r.times[i - 1] <= r.times[i] < r.times[i - 1] + n)
  }

  /** Less than one wrap from one sample to the next. */
  predicate InStep(last: nat, x: nat, n: nat) { last <= x < last + n }

  /** The tick counts at unbounded times. */
  function WrapAll(times: seq<nat>, n: nat): (ticks: seq<nat>)
    requires n > 0
    ensures |ticks| == |times| && forall i :: 0 <= i < |times| ==> ticks[i] == times[i] % n
  {
    if times == [] then [] else [times[0] % n] + WrapAll(times[1..], n)
  }

  /** When the round is over. */
  function EndOf(r: Round): (time: nat) { if r.times == [] then r.at else r.times[|r.times| - 1] }

  /** Time is sampled at least once a wrap throughout. */
  ghost predicate Prompt(rounds: seq<Round>, n: nat) {
    forall i :: 0 <= i < |rounds| ==> PromptRound(if i == 0 then 0 else EndOf(rounds[i - 1]), rounds[i], n)
  }

  predicate PromptRound(last: nat, r: Round, n: nat) {
    InStep(last, r.at, n) && (r.times != [] ==> InStep(r.at, r.times[0], n))
  }

  /** What has been asked of the timers when round i begins. */
  ghost function PlansAt(timers: map<Tid, Timer>, rounds: seq<Round>, i: nat): (plans: map<Tid, Plan>)
    requires i <= |rounds|
    ensures plans.Keys == timers.Keys
  {
    if i == 0 then map t | t in timers :: Plan(timers[t].period, timers[t].autoReload, false, 0)
    else
      var r := rounds[i - 1];
      var before := PlansAt(timers, rounds, i - 1);
      if !Sized(r) then before else AskAll(before, r.queue, r.issued, r.times, |r.queue|)
  }

  /** A running auto-reload timer has fired once for each whole period since its start; a one-shot once if its period
      has passed and not at all before; a timer that was stopped does not run. */
  ghost predicate FiredExactly(tm: Timer, h: History, plan: Plan, x: nat) {
    && (plan.running && plan.autoReload ==>
          tm.active && plan.start <= x && plan.period > 0 && h.fired == (x - plan.start) / plan.period)
    && (plan.running && !plan.autoReload ==>
          h.fired == (if plan.start + plan.period <= x then 1 else 0) && (tm.active <==> h.fired == 0))
    && (!plan.running ==> !tm.active)
  }

  ghost predicate AllFiredExactly(s: Snapshot, plans: map<Tid, Plan>) {
    && s.timers.Keys == plans.Keys && s.past.Keys == plans.Keys
    && forall t :: t in plans ==> FiredExactly(s.timers[t], s.past[t], plans[t], s.clock)
  }

  lemma SettledIsExact(tm: Timer, h: History, plan: Plan, n: nat, x: nat)
    requires Counted(tm, h, n, x) && Obeys(tm, h, plan) && (tm.active ==> x < h.expiry)
    ensures FiredExactly(tm, h, plan, x)
  {
    NthNext(h.start, 0, tm.period);
    if tm.active {
      FiredIsFloor(tm, h, n, x);
    }
  }

  lemma AllSettledExact(s: Snapshot, plans: map<Tid, Plan>, n: nat)
    requires Counts(s.timers, s.past, n, s.clock, {}) && Obeyed(s, plans) && Settled(s)
    ensures AllFiredExactly(s, plans)
  {
    hide Counted, Obeys, FiredExactly;
    forall t | t in plans ensures FiredExactly(s.timers[t], s.past[t], plans[t], s.clock) {
      SettledIsExact(s.timers[t], s.past[t], plans[t], n, s.clock);
    }
  }

  lemma NothingAsked(timers: map<Tid, Timer>, past: map<Tid, History>, rounds: seq<Round>)
    requires timers.Keys == past.Keys && forall t :: t in timers ==> !timers[t].active
    ensures Obeyed(Snapshot(timers, past, 0), PlansAt(timers, rounds, 0))
  {
  }

  /** At each of the turns so far at which the daemon blocked, every timer had fired exactly as often as asked; and a
      turn that follows one without commands does what TurnOk says. */
  ghost predicate ExactSoFar(timers: map<Tid, Timer>, rounds: seq<Round>, n: nat, blocked: seq<bool>,
                             trace: seq<Snapshot>) {
    && |blocked| == |trace| <= |rounds|
    && (forall i :: 0 <= i < |trace| ==> trace[i].clock == rounds[i].at)
    && (forall i :: 0 <= i < |trace| && blocked[i] ==> AllFiredExactly(trace[i], PlansAt(timers, rounds, i)))
    && (forall i, j :: 0 <= i && j == i + 1 && j < |trace| && rounds[i].queue == [] ==>
          TurnOk(trace[i], trace[j], blocked[j], n))
  }

  lemma NoTurnYet(timers: map<Tid, Timer>, rounds: seq<Round>, n: nat)
    ensures ExactSoFar(timers, rounds, n, [], [])
  {
  }

  lemma OneMoreTurn(timers: map<Tid, Timer>, rounds: seq<Round>, n: nat, blocked: seq<bool>, trace: seq<Snapshot>,
                    block: bool, seen: Snapshot)
    requires ExactSoFar(timers, rounds, n, blocked, trace) && |trace| < |rounds| && seen.clock == rounds[|trace|].at
    requires block ==> AllFiredExactly(seen, PlansAt(timers, rounds, |trace|))
    requires var i := |trace| - 1; i >= 0 && rounds[i].queue == [] ==> TurnOk(trace[i], seen, block, n)
    ensures ExactSoFar(timers, rounds, n, blocked + [block], trace + [seen])
  {
    hide AllFiredExactly, PlansAt, TurnOk;
  }

  lemma TurnAt(timers: map<Tid, Timer>, rounds: seq<Round>, n: nat, blocked: seq<bool>, trace: seq<Snapshot>, i: nat)
    requires ExactSoFar(timers, rounds, n, blocked, trace) && i + 1 < |trace| && rounds[i].queue == []
    ensures TurnOk(trace[i], trace[i + 1], blocked[i + 1], n)
    ensures trace[i].clock == rounds[i].at && trace[i + 1].clock == rounds[i + 1].at
  {
    hide TurnOk, AllFiredExactly, PlansAt;
  }

  /** A turn that does not block, at the time of the one before, leaves fewer timers due. */
  lemma DueShrinks(a: Snapshot, b: Snapshot, n: nat)
    requires TurnOk(a, b, false, n) && a.clock == b.clock
    ensures |DueBy(b, b.clock)| < |DueBy(a, a.clock)|
  {
    var t :| t in DueBy(a, b.clock) && ServedAlone(a, b, t, b.clock);
    SubsetCard(DueBy(b, b.clock), DueBy(a, a.clock) - {t});
  }

  lemma {:induction false} SubsetCard(a: set<Tid>, b: set<Tid>)
    requires a <= b
    ensures |a| <= |b|
  {
    if a != {} {
      var t :| t in a;
      SubsetCard(a - {t}, b - {t});
    }
  }

  /** Of the turns at one time, as many fail to block as there are timers due, at most: each serves one of them.  And a
      turn blocks as soon as none is due. */
  lemma {:induction false} BacklogClears(timers: map<Tid, Timer>, rounds: seq<Round>, n: nat, blocked: seq<bool>,
                                         trace: seq<Snapshot>, i: nat, j: nat)
    requires ExactSoFar(timers, rounds, n, blocked, trace) && i <= j < |trace|
    requires forall k :: i < k <= j ==> rounds[k].at == rounds[i].at && !blocked[k]
    requires forall k :: i <= k < j ==> rounds[k].queue == []
    ensures j - i + |DueBy(trace[j], rounds[i].at)| <= |DueBy(trace[i], rounds[i].at)|
    ensures j + 1 < |trace| && rounds[j].queue == [] && rounds[j + 1].at == rounds[i].at ==>
      (blocked[j + 1] <==> DueBy(trace[j], rounds[i].at) == {})
    decreases j - i
  {
    hide AllFiredExactly, PlansAt, TurnOk, DueBy;
    if j > i {
      BacklogClears(timers, rounds, n, blocked, trace, i, j - 1);
      TurnAt(timers, rounds, n, blocked, trace, j - 1);
      DueShrinks(trace[j - 1], trace[j], n);
    }
    if j + 1 < |trace| && rounds[j].queue == [] && rounds[j + 1].at == rounds[i].at {
      TurnAt(timers, rounds, n, blocked, trace, j);
      BlocksWhenSettled(trace[j], trace[j + 1], blocked[j + 1], n);
    }
  }

  lemma BlocksWhenSettled(a: Snapshot, b: Snapshot, blocked: bool, n: nat)
    requires TurnOk(a, b, blocked, n) && a.clock == b.clock
    ensures blocked <==> DueBy(a, a.clock) == {}
  {
    hide ServedAlone, DueBy;
  }

  lemma PromptAt(rounds: seq<Round>, n: nat, i: nat, last: nat)
    requires Prompt(rounds, n) && i < |rounds| && last == if i == 0 then 0 else EndOf(rounds[i - 1])
    ensures PromptRound(last, rounds[i], n)
  {
    var r := rounds[i];
  }

  /** prvTimerTask, from the creation of the daemon, over any schedule of samples and commands.  It goes on as long as
      time is sampled at least once a wrap while timers run, so over the whole schedule if that is prompt; and whenever
      it blocks, every timer has fired exactly as often as it was asked to up to that moment. */
  method TimerTask(n: nat, timers: map<Tid, Timer>, rounds: seq<Round>)
    returns (blocked: seq<bool>, ghost trace: seq<Snapshot>)
    requires n >= 2 && forall t :: t in timers ==> !timers[t].active && 0 < timers[t].period < n
    requires forall i :: 0 <= i < |rounds| ==> WellFormed(rounds[i], timers.Keys, n)
    ensures ExactSoFar(timers, rounds, n, blocked, trace)
    ensures Prompt(rounds, n) ==> |blocked| == |rounds|
  {
    hide ExactSoFar, AllFiredExactly, Obeyed, PlansAt, AskAll, InStep, InTime, Prompt, PromptRound, TurnOk;
    hide TimerDaemon.Valid;
    NoTurnYet(timers, rounds, n);
    blocked, trace := [], [];
    var daemon := new TimerDaemon(n, timers);
    NothingAsked(daemon.timers, daemon.past, rounds);
    var last, i := 0, 0;
    while i < |rounds|
      invariant 0 <= i == |blocked| == |trace| <= |rounds| && ExactSoFar(timers, rounds, n, blocked, trace)
      invariant fresh(daemon) && (i > 0 && rounds[i - 1].queue == [] ==> daemon.Snap() == trace[i - 1])
      invariant daemon.Valid({}) && daemon.n == n && daemon.clock == last && daemon.timers.Keys == timers.Keys
      invariant last == if i == 0 then 0 else EndOf(rounds[i - 1])
      invariant Obeyed(daemon.Snap(), PlansAt(timers, rounds, i))
    {
      PlansNext(timers, rounds, i);
      if Prompt(rounds, n) {
        PromptAt(rounds, n, i, last);
      }
      var served, commanded, block, seen := daemon.Turn(rounds[i], last, PlansAt(timers, rounds, i));
      if !served {
        return;
      }
      OneMoreTurn(timers, rounds, n, blocked, trace, block, seen);
      blocked, trace, last, i := blocked + [block], trace + [seen], EndOf(rounds[i]), i + 1;
      if !commanded {
        return;
      }
    }
  }

  lemma PlansNext(timers: map<Tid, Timer>, rounds: seq<Round>, i: nat)
    requires i < |rounds| && Sized(rounds[i])
    ensures var r := rounds[i];
      PlansAt(timers, rounds, i + 1) == AskAll(PlansAt(timers, rounds, i), r.queue, r.issued, r.times, |r.queue|)
  {
  }
}
