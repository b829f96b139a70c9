/** The task scheduler's state and the operations of tasks.c on it: single core,
    preemption, mutexes, INCLUDE_vTaskSuspend and configUSE_TICKLESS_IDLE on.

    TickType_t takes `n` values.  `clock` is the unbounded count of processed ticks, and
    `wake[t]` the unbounded time at which a delayed task was asked to wake; both are history
    that no operation reads.
 */
module Kernel {
  import opened WrapArithmetic
  import opened TaskLists

  datatype K = K(
    st: Store,                   // xStateListItem of every task
    ev: Store,                   // xEventListItem of every task
    prio: map<Tid, nat>,         // uxPriority; its keys are the tasks that exist
    items: Items,                // values of the event items, and base priorities
    value: map<Tid, nat>,        // item value of the state item
    n: nat,                      // number of TickType_t values
    tick: nat, overflows: nat,   // xTickCount, xNumOfOverflows
    next: nat,                   // xNextTaskUnblockTime
    aIsCurrent: bool,            // pxDelayedTaskList == &xDelayedTaskList1
    suspended: nat, pended: nat, // uxSchedulerSuspended, xPendedTicks
    top: nat,                    // uxTopReadyPriority
    current: Tid, idle: Tid,
    count: nat, deleted: nat,    // uxCurrentNumberOfTasks, uxDeletedTasksWaitingCleanUp
    clock: nat, wake: map<Tid, nat>)

  /** The values of event items.  Normally an item encodes its task's priority, configMAX_PRIORITIES less uxPriority;
      while its top bit is set (taskEVENT_LIST_ITEM_VALUE_IN_USE) it holds event bits instead. */
  datatype Items = Items(
    limit: nat,                  // configMAX_PRIORITIES
    base: map<Tid, nat>,         // uxBasePriority
    value: map<Tid, nat>, inUse: set<Tid>)

  function Encoded(i: Items, p: nat): (v: nat) { if p <= i.limit then i.limit - p else 0 }

  /** A priority is stored in the event item, unless the item is in use. */
  function Encode(i: Items, t: Tid, p: nat): (r: Items) {
    if t in i.inUse then i else i.(value := i.value[t := Encoded(i, p)])
  }

  /** Event bits are stored in the event item. */
  function Occupy(i: Items, t: Tid, v: nat): (r: Items) { i.(value := i.value[t := v], inUse := i.inUse + {t}) }

  /** The event item returns to its normal value. */
  function Vacate(i: Items, t: Tid, p: nat): (r: Items) {
    i.(value := i.value[t := Encoded(i, p)], inUse := i.inUse - {t})
  }

  function Born(i: Items, t: Tid, p: nat): (r: Items) { Vacate(i, t, p).(base := i.base[t := p]) }

  function Gone(i: Items, t: Tid): (r: Items) {
    i.(base := i.base - {t}, value := i.value - {t}, inUse := i.inUse - {t})
  }

  function Cur(k: K): (l: ListId) { if k.aIsCurrent then DelayedA else DelayedB }
  function Ovf(k: K): (l: ListId) { if k.aIsCurrent then DelayedB else DelayedA }
  function MaxDelay(k: K): (m: int) { k.n - 1 }
  function Max(a: nat, b: nat): (m: nat) { if a >= b then a else b }

  predicate Delayed(l: ListId) { l == DelayedA || l == DelayedB }
  predicate Blocked(l: ListId) { Delayed(l) || l == Suspended }
  predicate StateList(l: ListId) { Blocked(l) || l.Ready? || l == Termination }
  predicate EventList(l: ListId) { l == PendingReady || l.Event? }

  // ---------------------------------------------------------------- building blocks

  /** What the loops over lists need in order to be well defined. */
  ghost predicate Sound(k: K) {
    && WellLinked(k.st) && WellLinked(k.ev) && k.n >= 1
    && k.st.home.Keys == k.prio.Keys && k.ev.home.Keys <= k.prio.Keys
  }

  /** A blocked task leaves its state list and any event list, and becomes ready. */
  function Unblock(k: K, t: Tid): (r: K)
    requires t in k.prio
  {
    k.(st := Move(k.st, t, Ready(k.prio[t])), ev := Remove(k.ev, t), top := Max(k.top, k.prio[t]))
  }

  lemma UnblockSound(k: K, t: Tid)
    requires Sound(k) && t in k.prio
    ensures Sound(Unblock(k, t))
    ensures Unblock(k, t).st.home == k.st.home[t := Ready(k.prio[t])]
    ensures Unblock(k, t).ev.home == k.ev.home - {t}
    ensures forall l: ListId :: !l.Ready? ==>
      At(Unblock(k, t).st, l) == if l == k.st.home[t] then Without(At(k.st, l), t) else At(k.st, l)
    ensures forall l :: t in k.ev.home && l == k.ev.home[t] ==> At(Unblock(k, t).ev, l) == Without(At(k.ev, l), t)
    ensures forall l :: !(t in k.ev.home && l == k.ev.home[t]) ==> At(Unblock(k, t).ev, l) == At(k.ev, l)
    ensures t in At(k.st, k.st.home[t])
  {
    hide At, WellLinked, Move, Remove;
    MoveLinked(k.st, t, Ready(k.prio[t]));
    RemoveLinked(k.ev, t);
  }

  /** prvResetNextTaskUnblockTime. */
  function ResetNext(k: K): (r: K)
    requires k.n >= 1
  {
    k.(next := if At(k.st, Cur(k)) == [] then k.n - 1 else Val(k.value, At(k.st, Cur(k))[0]))
  }

  /** The loop of xTaskIncrementTick. */
  function WakeExpired(k: K): (r: K)
    requires Sound(k)
    ensures Sound(r)
    decreases |At(k.st, Cur(k))|
  {
    var q := At(k.st, Cur(k));
    if q == [] || k.tick < Val(k.value, q[0]) then ResetNext(k)
    else
      assert q[0] in q;
      UnblockSound(k, q[0]);
      WakeExpired(Unblock(k, q[0]))
  }

  /** The tick count moves on; when it wraps to 0, taskSWITCH_DELAYED_LISTS. */
  function Advance(k: K): (r: K)
    requires k.n >= 1
  {
    var k1 := k.(tick := (k.tick + 1) % k.n, clock := k.clock + 1);
    if k1.tick == 0 then ResetNext(k1.(aIsCurrent := !k.aIsCurrent, overflows := k.overflows + 1)) else k1
  }

  /** xTaskIncrementTick with the scheduler not suspended. */
  function TickCore(k: K): (r: K)
    requires Sound(k)
    ensures Sound(r)
  {
    var k1 := Advance(k);
    if k1.tick >= k1.next then WakeExpired(k1) else k1
  }

  // ---------------------------------------------------------------- invariants

  /** Which lists items may be in, and that a ready task is in the list of its priority. */
  ghost predicate HomesOk(state: map<Tid, ListId>, event: map<Tid, ListId>, prio: map<Tid, nat>, top: nat) {
    && state.Keys == prio.Keys
    && (forall t :: t in state ==> StateList(state[t]))
    && (forall t :: t in event ==> EventList(event[t]) && t in state && Blocked(state[t]))
    && (forall t :: t in state && state[t].Ready? ==> state[t].p == prio[t] <= top)
  }

  /** Delayed tasks are in the list of the epoch they wake in, and wake after `past`. */
  ghost predicate TimesOk(state: map<Tid, ListId>, value: map<Tid, nat>, wake: map<Tid, nat>,
                          n: nat, clock: nat, past: int, cur: ListId, ovf: ListId) {
    && n >= 2
    && (forall t :: t in state && Delayed(state[t]) ==>
          t in wake && Val(value, t) == wake[t] % n && past < wake[t])
    && (forall t :: t in state && state[t] == cur ==> t in wake && wake[t] / n == clock / n)
    && (forall t :: t in state && state[t] == ovf ==> t in wake && wake[t] / n == clock / n + 1)
  }

  /** The two delayed lists are sorted and xNextTaskUnblockTime is no later than the first wake-up. */
  ghost predicate OrderOk(cur: seq<Tid>, ovf: seq<Tid>, value: map<Tid, nat>, next: nat, n: nat) {
    && Sorted(cur, value) && Sorted(ovf, value) && next <= n - 1
    && forall t :: t in cur ==> next <= Val(value, t)
  }

  ghost predicate Linked(k: K) {
    WellLinked(k.st) && WellLinked(k.ev)
  }

  ghost predicate Counted(k: K) {
    && k.count == |k.st.home| && k.deleted == |At(k.st, Termination)|
    && k.current in k.prio
    && k.idle in k.prio && k.idle in k.st.home && k.st.home[k.idle] == Ready(k.prio[k.idle])
  }

  ghost predicate Clocked(k: K) {
    k.n >= 2 && k.tick == k.clock % k.n && k.overflows == k.clock / k.n
  }

  /** The invariant, with every delayed task due after tick `past`. */
  ghost predicate CoreAt(k: K, past: int) {
    && Linked(k) && HomesOk(k.st.home, k.ev.home, k.prio, k.top) && Counted(k) && Clocked(k)
    && TimesOk(k.st.home, k.value, k.wake, k.n, k.clock, past, Cur(k), Ovf(k))
    && OrderOk(At(k.st, Cur(k)), At(k.st, Ovf(k)), k.value, k.next, k.n)
  }

  /** xNextTaskUnblockTime is still to come. */
  ghost predicate NextAhead(k: K) {
    k.tick < k.next || k.next == k.n - 1
  }

  ghost predicate Core(k: K) {
    CoreAt(k, k.clock) && NextAhead(k)
  }

  ghost predicate NoPending(event: map<Tid, ListId>) {
    forall t :: t in event ==> event[t] != PendingReady
  }

  /** Between operations: nothing is pending once the scheduler runs. */
  ghost predicate Inv(k: K) {
    Core(k) && (k.suspended == 0 ==> k.pended == 0 && NoPending(k.ev.home))
  }

  lemma CoreBasics(k: K, past: int)
    requires CoreAt(k, past)
    ensures Sound(k) && k.n >= 2
  {
    hide At, WellLinked;
  }

  // ---------------------------------------------------------------- unblocking

  /** A list keeps its order, and the bound on it, when an item leaves. */
  lemma OrderShrinks(cur: seq<Tid>, ovf: seq<Tid>, cur': seq<Tid>, ovf': seq<Tid>, t: Tid, value: map<Tid, nat>,
                     next: nat, n: nat)
    requires OrderOk(cur, ovf, value, next, n) && NoDup(cur) && NoDup(ovf)
    requires cur' == cur || cur' == Without(cur, t)
    requires ovf' == ovf || ovf' == Without(ovf, t)
    ensures OrderOk(cur', ovf', value, next, n)
  {
    WithoutSorted(cur, t, value);
    WithoutSorted(ovf, t, value);
    WithoutFacts(cur, t);
    WithoutFacts(ovf, t);
  }

  /** Only task t's event item may have entered a list, and only if t itself is then blocked. */
  ghost predicate EventsFrom(event: map<Tid, ListId>, event': map<Tid, ListId>, t: Tid, l: ListId) {
    forall u :: u in event' ==> EventList(event'[u]) && if u == t then Blocked(l) else u in event
  }

  /** A task's state item moves to another list. */
  lemma HomesMove(state: map<Tid, ListId>, event: map<Tid, ListId>, prio: map<Tid, nat>, top: nat,
                  t: Tid, l: ListId, event': map<Tid, ListId>, top': nat)
    requires HomesOk(state, event, prio, top) && t in state && StateList(l)
    requires top <= top' && (l.Ready? ==> l.p == prio[t] <= top')
    requires EventsFrom(event, event', t, l)
    ensures HomesOk(state[t := l], event', prio, top')
    ensures |state[t := l]| == |state|
  {
    assert state[t := l].Keys == state.Keys;
  }

  /** Leaving the delayed lists cannot upset them. */
  lemma TimesLeave(state: map<Tid, ListId>, value: map<Tid, nat>, wake: map<Tid, nat>, n: nat, clock: nat, past: int,
                   cur: ListId, ovf: ListId, t: Tid, l: ListId)
    requires TimesOk(state, value, wake, n, clock, past, cur, ovf) && !Delayed(l) && Delayed(cur) && Delayed(ovf)
    ensures TimesOk(state[t := l], value, wake, n, clock, past, cur, ovf)
  {
  }

  lemma CurOvf(k: K)
    ensures Cur(k) != Ovf(k) && Delayed(Cur(k)) && Delayed(Ovf(k))
    ensures forall l :: Delayed(l) <==> l == Cur(k) || l == Ovf(k)
  {
  }

  /** The delayed lists when a state item moves to a list that is not a delayed one. */
  lemma OrderMove(k: K, past: int, t: Tid, l: ListId, st: Store)
    requires CoreAt(k, past) && t in k.st.home && !Delayed(l) && st == Move(k.st, t, l)
    ensures OrderOk(At(st, Cur(k)), At(st, Ovf(k)), k.value, k.next, k.n)
    ensures WellLinked(st) && st.home == k.st.home[t := l]
  {
    hide At, WellLinked, Move, OrderOk, HomesOk, TimesOk;
    CurOvf(k);
    LinkedAt(k.st, Cur(k));
    LinkedAt(k.st, Ovf(k));
    MoveLinked(k.st, t, l);
    OrderShrinks(At(k.st, Cur(k)), At(k.st, Ovf(k)), At(st, Cur(k)), At(st, Ovf(k)), t, k.value, k.next, k.n);
  }

  /** A state item moves to a list that is not a delayed one. */
  lemma MoveCore(k: K, past: int, t: Tid, l: ListId, ev: Store, top: nat, deleted: nat)
    requires CoreAt(k, past) && t in k.st.home && StateList(l) && !Delayed(l) && t != k.idle
    requires k.top <= top && (l.Ready? ==> l.p == k.prio[t] <= top)
    requires WellLinked(ev) && EventsFrom(k.ev.home, ev.home, t, l)
    requires deleted == |At(Move(k.st, t, l), Termination)|
    ensures CoreAt(k.(st := Move(k.st, t, l), ev := ev, top := top, deleted := deleted), past)
  {
    hide At, WellLinked, Move, Remove, OrderOk, HomesOk, TimesOk, EventsFrom;
    CurOvf(k);
    OrderMove(k, past, t, l, Move(k.st, t, l));
    HomesMove(k.st.home, k.ev.home, k.prio, k.top, t, l, ev.home, top);
    TimesLeave(k.st.home, k.value, k.wake, k.n, k.clock, past, Cur(k), Ovf(k), t, l);
  }

  /** The termination list when an item moves between other lists. */
  lemma TerminationKept(k: K, t: Tid, l: ListId)
    requires Sound(k) && t in k.st.home && k.st.home[t] != Termination && l != Termination
    ensures At(Move(k.st, t, l), Termination) == At(k.st, Termination)
  {
    hide At, WellLinked, Move;
    MoveLinked(k.st, t, l);
  }

  lemma UnblockCore(k: K, past: int, t: Tid)
    requires CoreAt(k, past) && t in k.st.home && Blocked(k.st.home[t])
    ensures Sound(k) && CoreAt(Unblock(k, t), past)
    ensures Unblock(k, t).st.home == k.st.home[t := Ready(k.prio[t])]
    ensures Unblock(k, t).ev.home == k.ev.home - {t}
  {
    hide At, WellLinked, Move, Remove, OrderOk, TimesOk;
    CoreBasics(k, past);
    UnblockSound(k, t);
    TerminationKept(k, t, Ready(k.prio[t]));
    assert EventsFrom(k.ev.home, k.ev.home - {t}, t, Ready(k.prio[t]));
    assert t != k.idle;
    assert k.deleted == |At(k.st, Termination)|;
    hide CoreAt, EventsFrom;
    MoveCore(k, past, t, Ready(k.prio[t]), Remove(k.ev, t), Max(k.top, k.prio[t]), k.deleted);
  }

  /** prvResetNextTaskUnblockTime yields the first wake-up of the current list. */
  lemma ResetNextOrder(q: seq<Tid>, ovf: seq<Tid>, value: map<Tid, nat>, n: nat)
    requires n >= 2 && Sorted(q, value) && Sorted(ovf, value)
    requires forall t :: t in q ==> Val(value, t) < n
    ensures OrderOk(q, ovf, value, if q == [] then n - 1 else Val(value, q[0]), n)
  {
    if q != [] {
      assert q[0] in q;
      forall t | t in q ensures Val(value, q[0]) <= Val(value, t) {
        var i :| 0 <= i < |q| && q[i] == t;
      }
    }
  }

  /** Item values are tick values. */
  lemma ValuesSmall(k: K, past: int, l: ListId)
    requires CoreAt(k, past) && Delayed(l)
    ensures forall t :: t in At(k.st, l) ==> t in k.wake && Val(k.value, t) == k.wake[t] % k.n < k.n
  {
    LinkedAt(k.st, l);
  }

  lemma ResetNextCore(k: K, past: int)
    requires CoreAt(k, past)
    ensures CoreAt(ResetNext(k), past)
  {
    CurOvf(k);
    ValuesSmall(k, past, Cur(k));
    hide At, WellLinked, HomesOk, TimesOk;
    ResetNextOrder(At(k.st, Cur(k)), At(k.st, Ovf(k)), k.value, k.n);
  }

  /** The cached time is the earliest wake-up of the current delayed list, or as late as can be if that is empty. */
  ghost predicate NextExact(k: K) {
    && (At(k.st, Cur(k)) == [] ==> k.next == k.n - 1)
    && (At(k.st, Cur(k)) != [] ==> exists t :: t in At(k.st, Cur(k)) && k.next == Val(k.value, t))
    && (forall t :: t in At(k.st, Cur(k)) ==> k.next <= Val(k.value, t))
  }

  lemma ResetNextExact(k: K, past: int)
    requires CoreAt(k, past)
    ensures k.n >= 1 && NextExact(ResetNext(k))
  {
    hide WellLinked, HomesOk, TimesOk;
    var q := At(k.st, Cur(k));
    if q != [] {
      assert q[0] in q;
    }
  }

  lemma ResetNextNow(k: K)
    requires CoreAt(k, k.clock)
    ensures Core(ResetNext(k))
  {
    hide At, WellLinked, HomesOk, OrderOk;
    ResetNextCore(k, k.clock);
    LinkedAt(k.st, Cur(k));
    var q := At(k.st, Cur(k));
    if q != [] {
      assert q[0] in q;
      EpochOrder(k.clock, k.wake[q[0]], k.n);
    }
  }

  // ---------------------------------------------------------------- one tick

  /** Everything but the lists, the cached unblock time and uxTopReadyPriority is as before. */
  predicate SameRest(k: K, r: K) {
    r == k.(st := r.st, ev := r.ev, next := r.next, top := r.top)
  }

  /** The tasks in `due` have become ready and left their event lists; nobody else moved. */
  ghost predicate Readied(state: map<Tid, ListId>, event: map<Tid, ListId>, prio: map<Tid, nat>,
                          state': map<Tid, ListId>, event': map<Tid, ListId>, due: set<Tid>) {
    && state'.Keys == state.Keys && state.Keys == prio.Keys
    && (forall t :: t in state ==> state'[t] == if t in due then Ready(prio[t]) else state[t])
    && event' == event - due
  }

  /** The tasks of the current delayed list whose item value has been reached. */
  ghost function Expired(k: K): (due: set<Tid>) {
    set t | t in k.st.home && k.st.home[t] == Cur(k) && Val(k.value, t) <= k.tick
  }

  ghost predicate Woke(k: K, r: K) {
    SameRest(k, r) && Readied(k.st.home, k.ev.home, k.prio, r.st.home, r.ev.home, Expired(k))
  }

  lemma ReadiedMore(state: map<Tid, ListId>, event: map<Tid, ListId>, prio: map<Tid, nat>, state': map<Tid, ListId>,
                    event': map<Tid, ListId>, due: set<Tid>, t: Tid)
    requires t in prio && t in state && state.Keys == prio.Keys
    requires Readied(state[t := Ready(prio[t])], event - {t}, prio, state', event', due)
    ensures Readied(state, event, prio, state', event', due + {t})
  {
    assert (event - {t}) - due == event - (due + {t});
  }

  lemma WokeMore(k: K, m: K, r: K, t: Tid)
    requires t in k.prio && t in k.st.home && k.st.home[t] == Cur(k) && Val(k.value, t) <= k.tick
    requires k.st.home.Keys == k.prio.Keys && SameRest(k, m)
    requires m.st.home == k.st.home[t := Ready(k.prio[t])] && m.ev.home == k.ev.home - {t}
    requires Woke(m, r)
    ensures Woke(k, r)
  {
    assert Expired(k) == Expired(m) + {t};
    hide Readied, Expired;
    ReadiedMore(k.st.home, k.ev.home, k.prio, r.st.home, r.ev.home, Expired(m), t);
  }

  lemma NothingWoke(k: K)
    requires forall t :: t in k.st.home && k.st.home[t] == Cur(k) ==> k.tick < Val(k.value, t)
    requires k.st.home.Keys == k.prio.Keys && k.n >= 1
    ensures Woke(k, k) && Woke(k, ResetNext(k))
  {
    assert Expired(k) == {};
  }

  /** Once the head is in the future, so is the whole current list. */
  lemma NoneDue(k: K, past: int)
    requires CoreAt(k, past)
    requires At(k.st, Cur(k)) == [] || k.tick < Val(k.value, At(k.st, Cur(k))[0])
    ensures forall t :: t in k.st.home && k.st.home[t] == Cur(k) ==> k.tick < Val(k.value, t)
  {
    LinkedAt(k.st, Cur(k));
    var q := At(k.st, Cur(k));
    forall t | t in k.st.home && k.st.home[t] == Cur(k) ensures k.tick < Val(k.value, t) {
      assert t in q;
      var i :| 0 <= i < |q| && q[i] == t;
    }
  }

  /** With nothing of the current list due, every delayed task wakes after the clock. */
  lemma AllLater(k: K, past: int)
    requires CoreAt(k, past)
    requires forall t :: t in k.st.home && k.st.home[t] == Cur(k) ==> k.tick < Val(k.value, t)
    ensures CoreAt(k, k.clock)
  {
    hide At, WellLinked, HomesOk, OrderOk;
    CurOvf(k);
    forall t | t in k.st.home && Delayed(k.st.home[t]) ensures k.clock < k.wake[t] {
      EpochOrder(k.clock, k.wake[t], k.n);
    }
  }

  lemma WakeNone(k: K, past: int)
    requires CoreAt(k, past)
    requires At(k.st, Cur(k)) == [] || k.tick < Val(k.value, At(k.st, Cur(k))[0])
    ensures Core(ResetNext(k)) && Woke(k, ResetNext(k))
  {
    CoreBasics(k, past);
    hide CoreAt, At;
    NoneDue(k, past);
    AllLater(k, past);
    ResetNextNow(k);
    NothingWoke(k);
  }

  /** The head of the current delayed list, and the list once it is unblocked. */
  lemma HeadFacts(k: K, past: int)
    requires CoreAt(k, past) && At(k.st, Cur(k)) != []
    ensures var t := At(k.st, Cur(k))[0];
      && t in k.prio && t in k.st.home && k.st.home[t] == Cur(k)
      && |At(Unblock(k, t).st, Cur(k))| == |At(k.st, Cur(k))| - 1
  {
    var t := At(k.st, Cur(k))[0];
    LinkedAt(k.st, Cur(k));
    assert t in At(k.st, Cur(k));
    MoveLinked(k.st, t, Ready(k.prio[t]));
  }

  lemma {:induction false} WakeExpiredCore(k: K, past: int)
    requires CoreAt(k, past)
    ensures Sound(k) && Core(WakeExpired(k)) && Woke(k, WakeExpired(k)) && NextExact(WakeExpired(k))
    decreases |At(k.st, Cur(k))|
  {
    hide At, CoreAt, Core, Move, Remove, Woke, WellLinked, NextExact;
    CoreBasics(k, past);
    var q := At(k.st, Cur(k));
    if q == [] || k.tick < Val(k.value, q[0]) {
      WakeNone(k, past);
      ResetNextExact(k, past);
    } else {
      HeadFacts(k, past);
      var m := Unblock(k, q[0]);
      UnblockCore(k, past, q[0]);
      WakeExpiredCore(m, past);
      WokeMore(k, m, WakeExpired(m), q[0]);
    }
  }

  /** The assertion in taskSWITCH_DELAYED_LISTS: the current list is empty when the count wraps. */
  lemma EmptyAtSwitch(k: K)
    requires Core(k) && (k.tick + 1) % k.n == 0
    ensures At(k.st, Cur(k)) == []
  {
    LinkedAt(k.st, Cur(k));
    var q := At(k.st, Cur(k));
    if q != [] {
      assert q[0] in q;
      assert k.clock < k.wake[q[0]] && k.wake[q[0]] / k.n == k.clock / k.n;
      hide At, WellLinked, HomesOk, OrderOk, TimesOk;
      EpochOrder(k.clock, k.wake[q[0]], k.n);
      ClockStep(k.clock, k.n);
      assert false;
    }
  }

  /** How the unbounded clock and the wrapped count advance together. */
  lemma ClockStep(clock: nat, n: nat)
    requires n >= 2
    ensures (clock % n + 1) % n == (clock + 1) % n
    ensures (clock + 1) % n == 0 <==> clock % n == n - 1
    ensures (clock + 1) / n == if (clock + 1) % n == 0 then clock / n + 1 else clock / n
  {
    AddWrap(clock, 1, n);
    if clock % n + 1 < n {
      DivModUnique(clock % n + 1, 0, clock % n + 1, n);
    } else {
      DivModUnique(clock % n + 1, 1, 0, n);
    }
  }

  lemma TimesStay(state: map<Tid, ListId>, value: map<Tid, nat>, wake: map<Tid, nat>, n: nat, clock: nat, cur: ListId,
                  ovf: ListId)
    requires TimesOk(state, value, wake, n, clock, clock, cur, ovf) && (clock + 1) / n == clock / n
    ensures TimesOk(state, value, wake, n, clock + 1, clock, cur, ovf)
  {
  }

  lemma TimesSwitch(state: map<Tid, ListId>, value: map<Tid, nat>, wake: map<Tid, nat>, n: nat, clock: nat,
                    cur: ListId, ovf: ListId)
    requires TimesOk(state, value, wake, n, clock, clock, cur, ovf) && (clock + 1) / n == clock / n + 1
    requires forall t :: t in state ==> state[t] != cur
    ensures TimesOk(state, value, wake, n, clock + 1, clock, ovf, cur)
  {
  }

  lemma OrderSwitch(cur: seq<Tid>, ovf: seq<Tid>, value: map<Tid, nat>, next: nat, n: nat)
    requires OrderOk(cur, ovf, value, next, n)
    ensures OrderOk(ovf, cur, value, 0, n)
  {
  }

  lemma AdvanceCore(k: K)
    requires Core(k)
    ensures CoreAt(Advance(k), k.clock) && Advance(k).clock == k.clock + 1
  {
    hide At, WellLinked, HomesOk, OrderOk, TimesOk;
    ClockStep(k.clock, k.n);
    var k1 := k.(tick := (k.tick + 1) % k.n, clock := k.clock + 1);
    if k1.tick == 0 {
      EmptyAtSwitch(k);
      LinkedAt(k.st, Cur(k));
      TimesSwitch(k.st.home, k.value, k.wake, k.n, k.clock, Cur(k), Ovf(k));
      OrderSwitch(At(k.st, Cur(k)), At(k.st, Ovf(k)), k.value, k.next, k.n);
      var zero := k1.(aIsCurrent := !k.aIsCurrent, overflows := k.overflows + 1, next := 0);
      ResetNextCore(zero, k.clock);
    } else {
      TimesStay(k.st.home, k.value, k.wake, k.n, k.clock, Cur(k), Ovf(k));
    }
  }

  /** The delayed tasks asked to wake at unbounded time `c`. */
  ghost function DueAt(k: K, c: nat): (due: set<Tid>) {
    set t | t in k.st.home && Delayed(k.st.home[t]) && t in k.wake && k.wake[t] == c
  }

  /** `r` is `k` one tick later: exactly the tasks due at that tick have become ready. */
  ghost predicate Ticked(k: K, r: K) {
    && r == k.(st := r.st, ev := r.ev, next := r.next, top := r.top, tick := r.tick, clock := k.clock + 1,
               aIsCurrent := r.aIsCurrent, overflows := r.overflows)
    && Readied(k.st.home, k.ev.home, k.prio, r.st.home, r.ev.home, DueAt(k, k.clock + 1))
  }

  /** Due now, in wrapped and in unbounded time. */
  lemma DueNow(k: K, t: Tid)
    requires CoreAt(k, k.clock - 1) && t in k.st.home && Delayed(k.st.home[t])
    ensures t in k.wake
    ensures k.wake[t] == k.clock <==> k.st.home[t] == Cur(k) && Val(k.value, t) <= k.tick
  {
    CurOvf(k);
    EpochOrder(k.clock, k.wake[t], k.n);
    EpochOrder(k.wake[t], k.clock, k.n);
  }

  lemma ExpiredIsDue(k: K)
    requires CoreAt(k, k.clock - 1)
    ensures Expired(k) == DueAt(k, k.clock)
  {
    hide CoreAt;
    forall t | t in k.st.home && Delayed(k.st.home[t])
      ensures t in k.wake && (k.wake[t] == k.clock <==> k.st.home[t] == Cur(k) && Val(k.value, t) <= k.tick)
    {
      DueNow(k, t);
    }
  }

  /** Advance leaves the items alone. */
  lemma AdvanceKeeps(k: K)
    requires k.n >= 1
    ensures var a := Advance(k);
      a == k.(next := a.next, tick := a.tick, clock := k.clock + 1, aIsCurrent := a.aIsCurrent,
              overflows := a.overflows)
  {
    hide At;
  }

  lemma WokeIsTicked(k: K, a: K, r: K)
    requires a == k.(next := a.next, tick := a.tick, clock := k.clock + 1, aIsCurrent := a.aIsCurrent,
                     overflows := a.overflows)
    requires Expired(a) == DueAt(a, a.clock) && Woke(a, r)
    ensures Ticked(k, r)
  {
    assert DueAt(a, a.clock) == DueAt(k, k.clock + 1);
    hide Readied, DueAt, Expired;
  }

  /** Before xNextTaskUnblockTime there is nothing to wake. */
  lemma BeforeNext(k: K, past: int)
    requires CoreAt(k, past) && k.tick < k.next
    ensures Core(k) && Woke(k, k)
  {
    LinkedAt(k.st, Cur(k));
    forall t | t in k.st.home && k.st.home[t] == Cur(k) ensures k.tick < Val(k.value, t) {
      assert t in At(k.st, Cur(k));
    }
    AllLater(k, past);
    NothingWoke(k);
  }

  /** xTaskIncrementTick keeps the invariant and wakes exactly the tasks whose time has come. */
  lemma TickCoreExact(k: K)
    requires Core(k)
    ensures Sound(k) && Core(TickCore(k)) && Ticked(k, TickCore(k))
  {
    hide CoreAt, Advance, Woke, Ticked, Expired, DueAt, WellLinked, WakeExpired;
    CoreBasics(k, k.clock);
    AdvanceCore(k);
    var a := Advance(k);
    AdvanceKeeps(k);
    ExpiredIsDue(a);
    if a.tick >= a.next {
      WakeExpiredCore(a, k.clock);
      WokeIsTicked(k, a, WakeExpired(a));
    } else {
      BeforeNext(a, k.clock);
      WokeIsTicked(k, a, a);
    }
  }
}
