/** The operations of tasks.c on the scheduler's state, and the invariant each of them keeps.

    Each operation is one critical section: interrupts may run, and so further operations
    happen, between any two of them.
 */
module KernelOps {
  import opened WrapArithmetic
  import opened TaskLists
  import opened Kernel

  // ---------------------------------------------------------------- ticks and suspension

  /** m calls of xTaskIncrementTick with the scheduler running. */
  function Ticks(k: K, m: nat): (r: K)
    requires Sound(k)
    ensures Sound(r)
    decreases m
  {
    if m == 0 then k else Ticks(TickCore(k), m - 1)
  }

  /** The first loop of xTaskResumeAll: pending tasks become ready. */
  function Drain(k: K): (r: K)
    requires Sound(k)
    ensures Sound(r)
    decreases |At(k.ev, PendingReady)|
  {
    var q := At(k.ev, PendingReady);
    if q == [] then k
    else
      assert q[0] in q;
      UnblockSound(k, q[0]);
      Drain(Unblock(k, q[0]))
  }

  /** The start of the outermost xTaskResumeAll. */
  function DrainPending(k: K): (r: K)
    requires Sound(k)
    ensures Sound(r)
  {
    if At(k.ev, PendingReady) == [] then k else ResetNext(Drain(k))
  }

  /** The head of the current delayed list is a task in that list. */
  lemma CurrentHead(k: K)
    requires Sound(k) && At(k.st, Cur(k)) != []
    ensures var t := At(k.st, Cur(k))[0]; t in k.prio && t in k.st.home && k.st.home[t] == Cur(k)
  {
    LinkedAt(k.st, Cur(k));
    assert At(k.st, Cur(k))[0] in At(k.st, Cur(k));
  }

  lemma PendingMore(event: map<Tid, ListId>, t: Tid, a: set<Tid>, b: set<Tid>)
    requires t in event && event[t] == PendingReady
    requires forall u :: u in a <==> u in event && event[u] == PendingReady
    requires forall u :: u in b <==> u in event - {t} && event[u] == PendingReady
    ensures a == b + {t}
  {
  }

  /** The head of the pending list, and the list once it is unblocked. */
  lemma PendingHead(k: K, past: int)
    requires CoreAt(k, past) && At(k.ev, PendingReady) != []
    ensures var t := At(k.ev, PendingReady)[0];
      && t in k.ev.home && k.ev.home[t] == PendingReady && t in k.prio && t in k.st.home && Blocked(k.st.home[t])
      && |At(Unblock(k, t).ev, PendingReady)| < |At(k.ev, PendingReady)|
      && Members(k.ev, PendingReady) == Members(Unblock(k, t).ev, PendingReady) + {t}
  {
    CoreBasics(k, past);
    var t := At(k.ev, PendingReady)[0];
    LinkedAt(k.ev, PendingReady);
    assert t in At(k.ev, PendingReady);
    assert Blocked(k.st.home[t]);
    hide CoreAt, Sound, At, WellLinked, Move, Remove;
    UnblockSound(k, t);
    PendingMore(k.ev.home, t, Members(k.ev, PendingReady), Members(Unblock(k, t).ev, PendingReady));
  }

  ghost predicate Drained(k: K, r: K) {
    && SameRest(k, r)
    && Readied(k.st.home, k.ev.home, k.prio, r.st.home, r.ev.home, Members(k.ev, PendingReady))
  }

  lemma DrainedNone(k: K)
    requires Sound(k) && At(k.ev, PendingReady) == []
    ensures Drained(k, k) && NoPending(k.ev.home)
  {
    LinkedAt(k.ev, PendingReady);
    assert Members(k.ev, PendingReady) == {};
    hide At, WellLinked;
  }

  lemma {:induction false} DrainCore(k: K, past: int)
    requires CoreAt(k, past)
    ensures Sound(k) && CoreAt(Drain(k), past) && NoPending(Drain(k).ev.home)
    ensures Drained(k, Drain(k)) && Drain(k).next == k.next
    decreases |At(k.ev, PendingReady)|
  {
    CoreBasics(k, past);
    var q := At(k.ev, PendingReady);
    hide CoreAt, At, Sound, Move, Remove, Readied, Unblock, Members;
    if q != [] {
      PendingHead(k, past);
      var m := Unblock(k, q[0]);
      UnblockCore(k, past, q[0]);
      DrainCore(m, past);
      DrainedMore(k, m, Drain(m), q[0]);
    } else {
      DrainedNone(k);
    }
  }

  lemma DrainedMore(k: K, m: K, r: K, t: Tid)
    requires t in k.prio && t in k.st.home && k.st.home.Keys == k.prio.Keys
    requires m == Unblock(k, t)
    requires m.st.home == k.st.home[t := Ready(k.prio[t])] && m.ev.home == k.ev.home - {t}
    requires Members(k.ev, PendingReady) == Members(m.ev, PendingReady) + {t}
    requires Drained(m, r)
    ensures Drained(k, r)
  {
    hide Readied, Members;
    ReadiedMore(k.st.home, k.ev.home, k.prio, r.st.home, r.ev.home, Members(m.ev, PendingReady), t);
  }

  lemma DrainPendingCore(k: K)
    requires Core(k)
    ensures Sound(k) && Core(DrainPending(k)) && NoPending(DrainPending(k).ev.home)
    ensures Drained(k, DrainPending(k))
  {
    CoreBasics(k, k.clock);
    DrainCore(k, k.clock);
    hide CoreAt, Readied, At, Members, Sound, Drain;
    if At(k.ev, PendingReady) != [] {
      ResetNextNow(Drain(k));
    } else {
      DrainedNone(k);
    }
  }

  /** xTaskResumeAll. */
  function ResumeAll(k: K): (r: K)
    requires Sound(k) && k.suspended > 0
  {
    var k1 := k.(suspended := k.suspended - 1);
    if k1.suspended == 0 && k1.count > 0 then Ticks(DrainPending(k1), k1.pended).(pended := 0) else k1
  }

  /** xTaskIncrementTick. */
  function Tick(k: K): (r: K)
    requires Sound(k)
  {
    if k.suspended == 0 then TickCore(k) else k.(pended := k.pended + 1)
  }

  /** The assertions of vTaskStepTick. */
  predicate StepTickAsserts(k: K, jump: nat)
    requires k.n >= 1
  {
    var updated := (k.tick + jump) % k.n;
    updated <= k.next && (updated == k.next ==> k.suspended != 0 && jump != 0)
  }

  /** vTaskStepTick. */
  function StepTick(k: K, jump: nat): (r: K)
    requires k.n >= 1 && StepTickAsserts(k, jump)
  {
    var updated := (k.tick + jump) % k.n;
    if updated == k.next
    then k.(pended := k.pended + 1, tick := (k.tick + (jump - 1)) % k.n, clock := k.clock + (jump - 1))
    else k.(tick := updated, clock := k.clock + jump)
  }

  /** xTaskCatchUpTicks. */
  function CatchUp(k: K, m: nat): (r: K)
    requires Sound(k)
  {
    ResumeAll(k.(suspended := k.suspended + 1, pended := k.pended + m))
  }

  // ---------------------------------------------------------------- blocking

  /** prvAddCurrentTaskToDelayedList. */
  function AddToDelayed(k: K, ticks: nat, indefinitely: bool): (r: K)
    requires k.n >= 1
  {
    var t := k.current;
    if ticks == MaxDelay(k) && indefinitely then
      k.(st := Move(k.st, t, Suspended))
    else
      var time := (k.tick + ticks) % k.n;
      var k1 := k.(value := k.value[t := time], wake := k.wake[t := k.clock + ticks]);
      if time < k.tick then k1.(st := Insert(Remove(k.st, t), Ovf(k), t, k1.value))
      else k1.(st := Insert(Remove(k.st, t), Cur(k), t, k1.value), next := if time < k.next then time else k.next)
  }

  /** Where a blocking task's event item goes: vTaskPlaceOnEventList, vTaskPlaceOnEventListRestricted, or
      vTaskPlaceOnUnorderedEventList, which stores a value in it. */
  datatype Placement = InOrder | AtEnd | Unordered(v: nat)

  function PlaceEvent(k: K, q: nat, place: Placement): (ev: Store) {
    if place.InOrder? then Insert(k.ev, Event(q), k.current, k.items.value) else PushBack(k.ev, Event(q), k.current)
  }

  function Wait(k: K, q: nat, place: Placement, ticks: nat, indefinitely: bool): (r: K)
    requires k.n >= 1
  {
    var items := if place.Unordered? then Occupy(k.items, k.current, place.v) else k.items;
    AddToDelayed(k.(ev := PlaceEvent(k, q, place), items := items), ticks, indefinitely)
  }

  /** xTaskRemoveFromEventList; the caller has checked that the list is not empty. */
  function Signal(k: K, q: nat): (r: K)
    requires Sound(k) && At(k.ev, Event(q)) != []
  {
    var t := At(k.ev, Event(q))[0];
    assert t in At(k.ev, Event(q));
    if k.suspended == 0 then UnblockSound(k, t); ResetNext(Unblock(k, t))
    else k.(ev := Move(k.ev, t, PendingReady))
  }

  /** vTaskRemoveFromUnorderedEventList: the cached time is reset before the task leaves its list. */
  function Release(k: K, t: Tid, v: nat): (r: K)
    requires Sound(k) && t in k.prio
  {
    Unblock(ResetNext(k.(items := Occupy(k.items, t, v))), t)
  }

  /** uxTaskResetEventItemValue. */
  function ResetItem(k: K): (r: K)
    requires k.current in k.prio
  {
    k.(items := Vacate(k.items, k.current, k.prio[k.current]))
  }

  // ---------------------------------------------------------------- tasks

  /** prvAddNewTaskToReadyList, with the scheduler running. */
  function Create(k: K, t: Tid, p: nat): (r: K) {
    k.(count := k.count + 1, prio := k.prio[t := p], items := Born(k.items, t, p), st := PushBack(k.st, Ready(p), t),
       top := Max(k.top, p))
  }

  /** A task's memory is freed. */
  function Forget(k: K, t: Tid): (r: K) {
    k.(prio := k.prio - {t}, items := Gone(k.items, t), value := k.value - {t}, wake := k.wake - {t})
  }

  /** vTaskDelete. */
  function Delete(k: K, t: Tid): (r: K)
    requires k.n >= 1 && k.count >= 1
  {
    var ev := Remove(k.ev, t);
    if t == k.current then k.(st := Move(k.st, t, Termination), ev := ev, deleted := k.deleted + 1)
    else ResetNext(Forget(k.(st := Remove(k.st, t), ev := ev, count := k.count - 1), t))
  }

  /** One round of prvCheckTasksWaitingTermination. */
  function CleanUp(k: K): (r: K)
    requires At(k.st, Termination) != [] && k.count >= 1 && k.deleted >= 1
  {
    var t := At(k.st, Termination)[0];
    Forget(k.(st := Remove(k.st, t), count := k.count - 1, deleted := k.deleted - 1), t)
  }

  /** The first critical section of vTaskSuspend; the second is prvResetNextTaskUnblockTime. */
  function Suspend(k: K, t: Tid): (r: K) {
    k.(st := Move(k.st, t, Suspended), ev := Remove(k.ev, t))
  }

  /** prvTaskIsTaskSuspended. */
  predicate IsSuspended(k: K, t: Tid) {
    t in k.st.home && k.st.home[t] == Suspended && t !in k.ev.home
  }

  /** The task xTaskAbortDelay unblocks, as Unblock does: eTaskGetState said eBlocked.  An interrupt may since have
      moved its event item to xPendingReadyList. */
  predicate IsBlocked(k: K, t: Tid) {
    t in k.st.home && (Delayed(k.st.home[t]) || (k.st.home[t] == Suspended && t in k.ev.home))
  }

  /** vTaskResume. */
  function Resume(k: K, t: Tid): (r: K)
    requires t in k.prio
  {
    if t != k.current && IsSuspended(k, t)
    then k.(st := Move(k.st, t, Ready(k.prio[t])), top := Max(k.top, k.prio[t]))
    else k
  }

  /** xTaskResumeFromISR. */
  function ResumeFromISR(k: K, t: Tid): (r: K)
    requires t in k.prio
  {
    if !IsSuspended(k, t) then k
    else if k.suspended == 0 then k.(st := Move(k.st, t, Ready(k.prio[t])), top := Max(k.top, k.prio[t]))
    else k.(ev := PushBack(k.ev, PendingReady, t))
  }

  /** A task's uxPriority changes: if it is ready it moves to the end of the list of that priority. */
  function Reprioritise(k: K, t: Tid, p: nat): (r: K)
    requires t in k.prio && t in k.st.home
  {
    var k1 := k.(prio := k.prio[t := p]);
    if k.st.home[t] == Ready(k.prio[t]) then k1.(st := Move(k.st, t, Ready(p)), top := Max(k.top, p)) else k1
  }

  /** How the inheritance functions give a task another priority. */
  function SetPriority(k: K, t: Tid, p: nat): (r: K)
    requires t in k.prio && t in k.st.home
  {
    Reprioritise(k.(items := Encode(k.items, t, p)), t, p)
  }

  /** vTaskPrioritySet: an inherited priority is kept unless the new one is higher. */
  function PrioritySet(k: K, t: Tid, p: nat): (r: K)
    requires t in k.prio && t in k.st.home
  {
    if Val(k.items.base, t) == p then k
    else
      var used := if Val(k.items.base, t) == k.prio[t] || p > k.prio[t] then p else k.prio[t];
      Reprioritise(k.(items := Encode(k.items.(base := k.items.base[t := p]), t, p)), t, used)
  }

  /** The search of taskSELECT_HIGHEST_PRIORITY_TASK, from uxTopReadyPriority downwards. */
  function HighestReady(k: K, from: nat): (p: nat)
    requires exists q: nat :: q <= from && At(k.st, Ready(q)) != []
    ensures p <= from && At(k.st, Ready(p)) != []
    ensures forall q :: p < q <= from ==> At(k.st, Ready(q)) == []
  {
    if At(k.st, Ready(from)) != [] then from else HighestReady(k, from - 1)
  }

  /** vTaskSwitchContext: t is the entry that listGET_OWNER_OF_NEXT_ENTRY yields. */
  function Switch(k: K, t: Tid): (r: K)
    requires exists q: nat :: q <= k.top && At(k.st, Ready(q)) != []
  {
    k.(top := HighestReady(k, k.top), current := t)
  }

  // ---------------------------------------------------------------- time passing

  /** The delayed tasks asked to wake by unbounded time `c`. */
  ghost function DueBy(k: K, c: nat): (due: set<Tid>) {
    set t | t in k.st.home && Delayed(k.st.home[t]) && t in k.wake && k.wake[t] <= c
  }

  /** Ticks have been processed between k and r: exactly the tasks due by then have become ready. */
  ghost predicate Elapsed(k: K, r: K) {
    && r == k.(st := r.st, ev := r.ev, next := r.next, top := r.top, tick := r.tick, clock := r.clock,
               aIsCurrent := r.aIsCurrent, overflows := r.overflows)
    && k.clock <= r.clock
    && Readied(k.st.home, k.ev.home, k.prio, r.st.home, r.ev.home, DueBy(k, r.clock))
  }

  lemma ReadiedTwice(state: map<Tid, ListId>, event: map<Tid, ListId>, prio: map<Tid, nat>, state1: map<Tid, ListId>,
                     event1: map<Tid, ListId>, state2: map<Tid, ListId>, event2: map<Tid, ListId>, a: set<Tid>,
                     b: set<Tid>)
    requires Readied(state, event, prio, state1, event1, a) && Readied(state1, event1, prio, state2, event2, b)
    ensures Readied(state, event, prio, state2, event2, a + b)
  {
    assert (event - a) - b == event - (a + b);
  }

  lemma DueByThen(k: K, m: K, c: nat)
    requires Elapsed(k, m) && m.clock <= c
    ensures DueBy(k, c) == DueBy(k, m.clock) + DueBy(m, c)
  {
  }

  lemma ElapsedThen(k: K, m: K, r: K)
    requires Elapsed(k, m) && Elapsed(m, r)
    ensures Elapsed(k, r)
  {
    DueByThen(k, m, r.clock);
    hide Readied, DueBy;
    ReadiedTwice(k.st.home, k.ev.home, k.prio, m.st.home, m.ev.home, r.st.home, r.ev.home, DueBy(k, m.clock),
                 DueBy(m, r.clock));
  }

  lemma TickedIsElapsed(k: K, r: K)
    requires Core(k) && Ticked(k, r)
    ensures Elapsed(k, r) && r.clock == k.clock + 1
  {
    hide WellLinked, At, HomesOk, OrderOk, Readied;
    assert DueAt(k, k.clock + 1) == DueBy(k, k.clock + 1);
  }

  lemma NoTimeElapsed(k: K)
    requires Core(k)
    ensures Sound(k) && Elapsed(k, k)
  {
    CoreBasics(k, k.clock);
    hide WellLinked, At, OrderOk;
    assert DueBy(k, k.clock) == {};
  }

  lemma TickElapses(k: K)
    requires Core(k)
    ensures Sound(k) && Core(TickCore(k)) && Elapsed(k, TickCore(k)) && TickCore(k).clock == k.clock + 1
  {
    TickCoreExact(k);
    hide TickCore, Ticked, Elapsed, CoreAt, Sound;
    TickedIsElapsed(k, TickCore(k));
  }

  lemma TicksUnfold(k: K, m: nat)
    requires Sound(k)
    ensures m == 0 ==> Ticks(k, m) == k
    ensures m > 0 ==> Ticks(k, m) == Ticks(TickCore(k), m - 1)
  {
    hide Sound, TickCore;
  }

  /** m ticks wake exactly the tasks due within them. */
  lemma {:induction false} TicksExact(k: K, m: nat)
    requires Core(k)
    ensures Sound(k) && Core(Ticks(k, m)) && Elapsed(k, Ticks(k, m)) && Ticks(k, m).clock == k.clock + m
    decreases m
  {
    hide Core, CoreAt, Elapsed, Sound, TickCore, Ticks;
    NoTimeElapsed(k);
    TicksUnfold(k, m);
    if m > 0 {
      TickElapses(k);
      TicksExact(TickCore(k), m - 1);
      ElapsedThen(k, TickCore(k), Ticks(TickCore(k), m - 1));
    }
  }

  // ---------------------------------------------------------------- the invariant, operation by operation

  lemma InvSound(k: K)
    requires Inv(k)
    ensures Core(k) && Sound(k)
  {
    hide CoreAt, Sound;
    CoreSound(k);
  }

  lemma CoreSound(k: K)
    requires Core(k)
    ensures Sound(k)
  {
    CoreBasics(k, k.clock);
  }

  /** Only task t's items have moved, at no cost in time. */
  ghost predicate Only(k: K, r: K, t: Tid) {
    && r.clock == k.clock && r.pended == k.pended && r.suspended == k.suspended && r.n == k.n
    && OnlyMaps(k.st.home, k.wake, r.st.home, r.wake, t)
  }

  ghost predicate OnlyMaps(state: map<Tid, ListId>, wake: map<Tid, nat>, state': map<Tid, ListId>,
                           wake': map<Tid, nat>, t: Tid) {
    forall u :: u in state && u != t ==>
      u in state' && state'[u] == state[u] && (u in wake ==> u in wake' && wake'[u] == wake[u])
  }

  lemma ElapsedPending(k: K, r: K)
    requires Elapsed(k, r) && NoPending(k.ev.home)
    ensures NoPending(r.ev.home)
  {
    hide DueBy;
  }

  lemma TickInv(k: K)
    requires Inv(k)
    ensures Sound(k) && Inv(Tick(k))
    ensures Tick(k).clock + Tick(k).pended == k.clock + k.pended + 1
    ensures k.suspended > 0 ==> Tick(k) == k.(pended := k.pended + 1)
    ensures k.suspended == 0 ==> Elapsed(k, Tick(k))
  {
    hide CoreAt, Sound, TickCore, Elapsed;
    InvSound(k);
    if k.suspended == 0 {
      TickElapses(k);
      ElapsedPending(k, TickCore(k));
      ElapsedKeeps(k, TickCore(k));
    } else {
      PendedIrrelevant(k, k.suspended, k.pended + 1);
    }
  }

  lemma ElapsedKeeps(k: K, r: K)
    requires Elapsed(k, r)
    ensures r.suspended == k.suspended && r.pended == k.pended && r.n == k.n && r.count == k.count && r.prio == k.prio
    ensures r.wake == k.wake
  {
    hide Readied, DueBy;
  }

  /** The two suspension counters are not part of the core invariant. */
  lemma PendedIrrelevant(k: K, suspended: nat, pended: nat)
    requires Core(k)
    ensures Core(k.(suspended := suspended, pended := pended))
  {
    hide At, WellLinked, HomesOk, TimesOk, OrderOk;
  }

  /** Between k and r the scheduler was resumed: pending tasks became ready, then the pended ticks passed. */
  ghost predicate Resumed(k: K, d: K, r: K) {
    && Drained(k.(suspended := 0), d) && Core(d) && NoPending(d.ev.home)
    && (exists e: K :: Elapsed(d, e) && e.clock == k.clock + k.pended && r == e.(pended := 0))
  }

  lemma CoreCounts(k: K)
    requires Core(k)
    ensures k.count > 0
  {
    hide At, WellLinked, HomesOk, TimesOk, OrderOk;
    assert k.idle in k.st.home.Keys;
  }

  lemma DrainedKeeps(k: K, r: K)
    requires Drained(k, r)
    ensures r.suspended == k.suspended && r.pended == k.pended && r.n == k.n && r.count == k.count && r.prio == k.prio
    ensures r.wake == k.wake
    ensures r.clock == k.clock
  {
    hide Readied, Members;
  }

  lemma ResumeAllInv(k: K)
    requires Core(k) && k.suspended > 0
    ensures Sound(k) && Inv(ResumeAll(k))
    ensures ResumeAll(k).clock + ResumeAll(k).pended == k.clock + k.pended
    ensures ResumeAll(k).suspended == k.suspended - 1
    ensures k.suspended > 1 ==> ResumeAll(k) == k.(suspended := k.suspended - 1)
    ensures k.suspended == 1 ==> Resumed(k, DrainPending(k.(suspended := 0)), ResumeAll(k))
  {
    hide Core, Sound, Ticks, DrainPending, Drained, Elapsed, NoPending;
    CoreSound(k);
    CoreCounts(k);
    PendedIrrelevant(k, k.suspended - 1, k.pended);
    var k1 := k.(suspended := k.suspended - 1);
    if k1.suspended == 0 {
      CoreSound(k1);
      DrainPendingCore(k1);
      var d := DrainPending(k1);
      DrainedKeeps(k1, d);
      TicksExact(d, k.pended);
      var e := Ticks(d, k.pended);
      ElapsedPending(d, e);
      ElapsedKeeps(d, e);
      PendedIrrelevant(e, e.suspended, 0);
    }
  }

  // ---------------------------------------------------------------- tickless idle

  lemma TimesJump(state: map<Tid, ListId>, value: map<Tid, nat>, wake: map<Tid, nat>, n: nat, clock: nat, cur: ListId,
                  ovf: ListId, j: nat)
    requires TimesOk(state, value, wake, n, clock, clock, cur, ovf) && clock % n + j < n
    requires forall l :: Delayed(l) <==> l == cur || l == ovf
    requires forall t :: t in state && state[t] == cur ==> clock % n + j < Val(value, t)
    ensures TimesOk(state, value, wake, n, clock + j, clock + j, cur, ovf)
  {
    AddWrap(clock, j, n);
    forall t | t in state && Delayed(state[t]) ensures clock + j < wake[t] {
      EpochOrder(clock + j, wake[t], n);
    }
  }

  /** The tick count may jump ahead as long as it stays below xNextTaskUnblockTime. */
  lemma JumpCore(k: K, j: nat)
    requires Core(k) && (j == 0 || k.tick + j < k.next)
    ensures Core(k.(tick := k.tick + j, clock := k.clock + j)) && k.tick + j < k.n
  {
    hide At, WellLinked, HomesOk, TimesOk, OrderOk;
    CurOvf(k);
    if j > 0 {
      BeyondNext(k);
      TimesJump(k.st.home, k.value, k.wake, k.n, k.clock, Cur(k), Ovf(k), j);
      AddWrap(k.clock, j, k.n);
    }
  }

  lemma BeyondNext(k: K)
    requires Core(k)
    ensures k.next < k.n
    ensures forall t :: t in k.st.home && k.st.home[t] == Cur(k) ==> k.next <= Val(k.value, t)
  {
    hide HomesOk, TimesOk;
    LinkedAt(k.st, Cur(k));
  }

  lemma CoreTick(k: K)
    requires Core(k)
    ensures 2 <= k.n && k.tick < k.n && k.next < k.n && k.tick <= k.next && k.tick == k.clock % k.n
  {
    hide At, WellLinked, HomesOk, TimesOk;
  }

  lemma StepTickInv(k: K, jump: nat)
    requires Inv(k) && jump <= k.next - k.tick
    requires jump == k.next - k.tick ==> k.suspended != 0 && jump != 0
    ensures k.n >= 1 && StepTickAsserts(k, jump) && Inv(StepTick(k, jump))
    ensures StepTick(k, jump).clock + StepTick(k, jump).pended == k.clock + k.pended + jump
    ensures Only(k, StepTick(k, jump).(clock := k.clock, pended := k.pended), k.current)
  {
    hide CoreAt, NoPending;
    CoreTick(k);
    SmallMod(k.tick + jump, k.n);
    if jump == k.next - k.tick {
      SmallMod(k.tick + (jump - 1), k.n);
      JumpCore(k, jump - 1);
      PendedIrrelevant(k.(tick := k.tick + (jump - 1), clock := k.clock + (jump - 1)), k.suspended, k.pended + 1);
    } else {
      JumpCore(k, jump);
    }
  }

  lemma SmallMod(a: nat, n: nat)
    requires a < n
    ensures a % n == a
  {
    DivModUnique(a, 0, a, n);
  }

  /** vTaskStepTick's own assertions do not stop a jump past the wrap.  Given that they hold, the
      jump is correct exactly when it is at most the ticks to xNextTaskUnblockTime. */
  lemma StepTickCorrectExactlyWhen(k: K, jump: nat)
    requires Inv(k) && jump < k.n && k.n >= 1 && StepTickAsserts(k, jump)
    ensures Inv(StepTick(k, jump)) <==> jump <= k.next - k.tick
  {
    CoreTick(k);
    if jump <= k.next - k.tick {
      hide Core, NoPending;
      SmallMod(k.tick + jump, k.n);
      StepTickInv(k, jump);
    } else {
      JumpLosesEpoch(k, jump);
    }
  }

  lemma JumpLosesEpoch(k: K, jump: nat)
    requires Core(k) && jump < k.n && k.n >= 1 && StepTickAsserts(k, jump) && jump > k.next - k.tick
    ensures !Clocked(StepTick(k, jump)) && !Core(StepTick(k, jump))
  {
    hide At, WellLinked, HomesOk, TimesOk;
    CoreTick(k);
    if k.tick + jump < k.n {
      SmallMod(k.tick + jump, k.n);
      assert false;
    }
    DivModUnique(k.tick + jump, 1, k.tick + jump - k.n, k.n);
    AddWrap(k.clock, jump, k.n);
    AddWrap(k.clock, jump - 1, k.n);
  }

  /** Jumping over ticks below xNextTaskUnblockTime is what processing them one by one does. */
  lemma {:induction false} TicksBelowNext(k: K, j: nat)
    requires Core(k) && (j == 0 || k.tick + j < k.next)
    ensures Sound(k) && Ticks(k, j) == k.(tick := k.tick + j, clock := k.clock + j)
    decreases j
  {
    hide Core, Sound;
    CoreSound(k);
    if j > 0 {
      JumpCore(k, 1);
      CoreTick(k);
      SmallMod(k.tick + 1, k.n);
      TicksBelowNext(k.(tick := k.tick + 1, clock := k.clock + 1), j - 1);
    }
  }

  lemma {:induction false} TicksSplit(k: K, a: nat, b: nat)
    requires Sound(k)
    ensures Ticks(k, a + b) == Ticks(Ticks(k, a), b)
    decreases a
  {
    hide Sound, TickCore;
    if a > 0 {
      TicksSplit(TickCore(k), a - 1, b);
    }
  }

  /** Nothing on the tick path reads xPendedTicks. */
  lemma {:induction false} WakeIgnoresPended(k: K, x: nat)
    requires Sound(k)
    ensures Sound(k.(pended := x)) && WakeExpired(k.(pended := x)) == WakeExpired(k).(pended := x)
    decreases |At(k.st, Cur(k))|
  {
    var q := At(k.st, Cur(k));
    if q != [] && k.tick >= Val(k.value, q[0]) {
      assert q[0] in q;
      UnblockSound(k, q[0]);
      hide Move, Remove, WellLinked;
      WakeIgnoresPended(Unblock(k, q[0]), x);
    }
  }

  lemma AdvanceIgnoresPended(k: K, x: nat)
    requires Sound(k)
    ensures Sound(k.(pended := x)) && Sound(Advance(k)) && Advance(k.(pended := x)) == Advance(k).(pended := x)
  {
    hide At, WellLinked;
  }

  lemma TickIgnoresPended(k: K, x: nat)
    requires Sound(k)
    ensures Sound(k.(pended := x)) && TickCore(k.(pended := x)) == TickCore(k).(pended := x)
  {
    hide WellLinked, Advance, WakeExpired;
    AdvanceIgnoresPended(k, x);
    WakeIgnoresPended(Advance(k), x);
  }

  lemma {:induction false} TicksIgnorePended(k: K, m: nat, x: nat)
    requires Sound(k)
    ensures Sound(k.(pended := x)) && Ticks(k.(pended := x), m) == Ticks(k, m).(pended := x)
    decreases m
  {
    hide Sound, TickCore;
    TickIgnoresPended(k, x);
    if m > 0 {
      TicksIgnorePended(TickCore(k), m - 1, x);
    }
  }

  /** Moving the pending tasks does not read the time. */
  lemma {:induction false} DrainIgnoresTime(k: K, tick: nat, clock: nat, pended: nat)
    requires Sound(k)
    ensures var k1 := k.(tick := tick, clock := clock, pended := pended);
      Sound(k1) && Drain(k1) == Drain(k).(tick := tick, clock := clock, pended := pended)
    decreases |At(k.ev, PendingReady)|
  {
    var q := At(k.ev, PendingReady);
    if q != [] {
      assert q[0] in q;
      UnblockSound(k, q[0]);
      hide Move, Remove, WellLinked;
      DrainIgnoresTime(Unblock(k, q[0]), tick, clock, pended);
    }
  }

  lemma ResetNextLater(k: K, past: int)
    requires CoreAt(k, past)
    ensures k.n >= 1 && ResetNext(k).next >= k.next
  {
    hide HomesOk, TimesOk, WellLinked;
    var q := At(k.st, Cur(k));
    if q != [] {
      assert q[0] in q;
    }
  }

  lemma DrainPendingNext(k: K)
    requires Core(k)
    ensures Sound(k) && DrainPending(k).next >= k.next
  {
    hide CoreAt, Sound, Drained;
    CoreSound(k);
    DrainCore(k, k.clock);
    ResetNextLater(Drain(k), k.clock);
  }

  /** j tick interrupts. */
  function TickTimes(k: K, j: nat): (r: K)
    requires Sound(k) && k.suspended > 0
    ensures r == k.(pended := k.pended + j)
    decreases j
  {
    if j == 0 then k else TickTimes(Tick(k), j - 1)
  }

  lemma ResumeWith(k: K, d: K, j: nat, rest: nat)
    requires Core(k) && k.suspended == 0 && Sound(k) && d == DrainPending(k) && (j == 0 || k.tick + j < k.next)
    ensures Sound(d) && Ticks(d, j + rest) == Ticks(d.(tick := d.tick + j, clock := d.clock + j), rest)
  {
    hide CoreAt, Drained, DrainPending, Sound;
    DrainPendingCore(k);
    CoreSound(d);
    DrainPendingNext(k);
    DrainedKeepsTick(k, d);
    TicksSplit(d, j, rest);
    TicksBelowNext(d, j);
  }

  lemma DrainedKeepsTick(k: K, r: K)
    requires Drained(k, r)
    ensures r.tick == k.tick && r.clock == k.clock
  {
    hide Readied, Members;
  }

  lemma SoundIgnoresTime(k: K, tick: nat, clock: nat, suspended: nat, pended: nat)
    requires Sound(k)
    ensures Sound(k.(tick := tick, clock := clock, suspended := suspended, pended := pended))
  {
    hide WellLinked;
  }

  lemma DrainPendingIgnoresTime(k: K, tick: nat, clock: nat, pended: nat)
    requires Sound(k)
    ensures var k1 := k.(tick := tick, clock := clock, pended := pended);
      Sound(k1) && DrainPending(k1) == DrainPending(k).(tick := tick, clock := clock, pended := pended)
  {
    hide WellLinked, Sound;
    DrainIgnoresTime(k, tick, clock, pended);
  }

  /** The outermost resume, from any tick count reached by a jump below xNextTaskUnblockTime. */
  lemma ResumeAfterJump(k: K, j: nat, pended: nat)
    requires Core(k) && k.suspended == 1 && (j == 0 || k.tick + j < k.next)
    ensures var jumped := k.(tick := k.tick + j, clock := k.clock + j, pended := pended);
      && Sound(k) && Sound(jumped) && Sound(k.(pended := pended + j))
      && ResumeAll(jumped) == ResumeAll(k.(pended := pended + j))
  {
    hide Core, Sound, DrainPending, Ticks, Drained;
    CoreSound(k);
    CoreCounts(k);
    PendedIrrelevant(k, 0, k.pended);
    var k0 := k.(suspended := 0);
    CoreSound(k0);
    SoundIgnoresTime(k, k.tick, k.clock, 1, pended + j);
    SoundIgnoresTime(k, k.tick + j, k.clock + j, 1, pended);
    var d := DrainPending(k0);
    DrainPendingCore(k0);
    DrainedKeepsTick(k0, d);
    DrainPendingIgnoresTime(k0, k.tick, k.clock, pended + j);
    DrainPendingIgnoresTime(k0, k.tick + j, k.clock + j, pended);
    ResumeWith(k0, d, j, pended);
    SoundIgnoresTime(d, d.tick + j, d.clock + j, d.suspended, d.pended);
    TicksIgnorePended(d, j + pended, pended + j);
    TicksIgnorePended(d.(tick := d.tick + j, clock := d.clock + j), pended, pended);
  }

  /** Tickless equivalence: a jump of at most the ticks to xNextTaskUnblockTime followed by the
      outermost resume leaves the very state that as many tick interrupts and the resume leave. */
  lemma TicklessEquivalence(k: K, jump: nat)
    requires Inv(k) && k.suspended == 1 && jump <= k.next - k.tick
    requires k.n >= 1 && StepTickAsserts(k, jump)
    ensures Sound(k) && Sound(StepTick(k, jump)) && Sound(TickTimes(k, jump))
    ensures ResumeAll(StepTick(k, jump)) == ResumeAll(TickTimes(k, jump))
  {
    hide Core, Sound, NoPending, ResumeAll;
    CoreSound(k);
    CoreTick(k);
    SmallMod(k.tick + jump, k.n);
    if jump == k.next - k.tick {
      SmallMod(k.tick + (jump - 1), k.n);
      ResumeAfterJump(k, jump - 1, k.pended + 1);
    } else {
      ResumeAfterJump(k, jump, k.pended);
    }
  }

  // ---------------------------------------------------------------- blocking

  /** Entering a delayed list: the list is the one of the epoch of the wake-up. */
  lemma TimesEnter(state: map<Tid, ListId>, value: map<Tid, nat>, wake: map<Tid, nat>, n: nat, clock: nat,
                   cur: ListId, ovf: ListId, t: Tid, ticks: nat)
    requires TimesOk(state, value, wake, n, clock, clock, cur, ovf) && 0 < ticks < n && cur != ovf
    ensures var time := (clock % n + ticks) % n;
      var l := if time < clock % n then ovf else cur;
      TimesOk(state[t := l], value[t := time], wake[t := clock + ticks], n, clock, clock, cur, ovf)
  {
    AddWrap(clock, ticks, n);
    AddWrap(clock % n, ticks, n);
    SmallMod(clock % n, n);
  }

  lemma OrderEnter(cur: seq<Tid>, ovf: seq<Tid>, value: map<Tid, nat>, next: nat, n: nat, t: Tid, time: nat)
    requires OrderOk(cur, ovf, value, next, n) && NoDup(cur) && NoDup(ovf) && t !in cur && t !in ovf && time < n
    ensures var v := value[t := time];
      && OrderOk(cur, SortedInsert(ovf, t, v), v, next, n)
      && OrderOk(SortedInsert(cur, t, v), ovf, v, if time < next then time else next, n)
  {
    var v := value[t := time];
    SortedFrame(cur, value, v);
    SortedFrame(ovf, value, v);
    InsertFacts(cur, t, v);
    InsertFacts(ovf, t, v);
    InsertSorted(cur, t, v);
    InsertSorted(ovf, t, v);
  }

  /** The lists of AddToDelayed, when the wait is finite. */
  lemma DelayLists(k: K, t: Tid, l: ListId, time: nat, st: Store)
    requires Core(k) && t in k.st.home && k.st.home[t].Ready? && Delayed(l) && time < k.n
    requires st == Insert(Remove(k.st, t), l, t, k.value[t := time])
    ensures WellLinked(st) && st.home == k.st.home[t := l] && At(st, Termination) == At(k.st, Termination)
    ensures OrderOk(At(st, Cur(k)), At(st, Ovf(k)), k.value[t := time],
                    if l == Cur(k) && time < k.next then time else k.next, k.n)
  {
    hide At, WellLinked, Insert, Remove, OrderOk, HomesOk, TimesOk;
    CurOvf(k);
    MoveSortedLinked(k.st, t, l, k.value[t := time]);
    LinkedAt(k.st, Cur(k));
    LinkedAt(k.st, Ovf(k));
    OrderEnter(At(k.st, Cur(k)), At(k.st, Ovf(k)), k.value, k.next, k.n, t, time);
  }

  /** The current task may block: it is ready, and it is not the idle task. */
  predicate CanBlock(k: K) {
    k.current in k.st.home && k.st.home[k.current].Ready? && k.current != k.idle
  }

  /** The list prvAddCurrentTaskToDelayedList picks for a finite wait. */
  function DelayList(k: K, ticks: nat): (l: ListId)
    requires k.n >= 1
  {
    if (k.tick + ticks) % k.n < k.tick then Ovf(k) else Cur(k)
  }

  lemma DelayTime(k: K, ticks: nat)
    requires Core(k) && 0 < ticks < k.n
    ensures var time := (k.tick + ticks) % k.n; time < k.n && (time < k.tick || k.tick < time)
  {
    CoreTick(k);
    AddWrap(k.tick, ticks, k.n);
    SmallMod(k.tick, k.n);
  }

  lemma DelayFinite(k: K, ev: Store, ticks: nat)
    requires Core(k) && CanBlock(k) && 0 < ticks < k.n
    requires WellLinked(ev) && EventsFrom(k.ev.home, ev.home, k.current, DelayList(k, ticks))
    ensures var r := AddToDelayed(k.(ev := ev), ticks, false);
      && Core(r) && r.wake == k.wake[k.current := k.clock + ticks]
      && r.st.home == k.st.home[k.current := DelayList(k, ticks)]
  {
    hide At, WellLinked, Insert, Remove, OrderOk, HomesOk, TimesOk, EventsFrom;
    CurOvf(k);
    var t, time := k.current, (k.tick + ticks) % k.n;
    var l := DelayList(k, ticks);
    DelayTime(k, ticks);
    DelayLists(k, t, l, time, Insert(Remove(k.st, t), l, t, k.value[t := time]));
    TimesEnter(k.st.home, k.value, k.wake, k.n, k.clock, Cur(k), Ovf(k), t, ticks);
    HomesMove(k.st.home, k.ev.home, k.prio, k.top, t, l, ev.home, k.top);
  }

  lemma DelayForever(k: K, ev: Store)
    requires Core(k) && CanBlock(k)
    requires WellLinked(ev) && EventsFrom(k.ev.home, ev.home, k.current, Suspended)
    ensures Core(k.(ev := ev, st := Move(k.st, k.current, Suspended)))
    ensures Move(k.st, k.current, Suspended).home == k.st.home[k.current := Suspended]
  {
    hide At, WellLinked, Move, OrderOk, HomesOk, TimesOk, EventsFrom;
    CoreSound(k);
    TerminationKept(k, k.current, Suspended);
    MoveLinked(k.st, k.current, Suspended);
    MoveCore(k, k.clock, k.current, Suspended, ev, k.top, k.deleted);
  }

  /** Blocking keeps the invariant, for any way the event item enters a list. */
  lemma BlockInv(k: K, ev: Store, ticks: nat, indefinitely: bool)
    requires Inv(k) && CanBlock(k) && 0 < ticks < k.n
    requires WellLinked(ev) && EventsFrom(k.ev.home, ev.home, k.current, Suspended)
    requires NoPending(k.ev.home) ==> NoPending(ev.home)
    ensures var r := AddToDelayed(k.(ev := ev), ticks, indefinitely);
      && Inv(r) && Only(k, r, k.current)
      && r.st.home ==
         k.st.home[k.current := if ticks == MaxDelay(k) && indefinitely then Suspended else DelayList(k, ticks)]
      && ((ticks == MaxDelay(k) && indefinitely) || r.wake == k.wake[k.current := k.clock + ticks])
  {
    hide CoreAt, NextAhead, WellLinked, Insert, Remove, Move, NoPending, OnlyMaps, EventsFrom;
    if ticks == MaxDelay(k) && indefinitely {
      DelayForever(k, ev);
      OnlyOne(k.st.home, k.wake, k.wake, k.current, Suspended);
    } else {
      BlockedAnyway(k.ev.home, ev.home, k.current, DelayList(k, ticks));
      DelayFinite(k, ev, ticks);
      OnlyOne(k.st.home, k.wake, k.wake[k.current := k.clock + ticks], k.current, DelayList(k, ticks));
    }
  }

  lemma OnlyOne(state: map<Tid, ListId>, wake: map<Tid, nat>, wake': map<Tid, nat>, t: Tid, l: ListId)
    requires forall u :: u != t && u in wake ==> u in wake' && wake'[u] == wake[u]
    ensures OnlyMaps(state, wake, state[t := l], wake', t)
  {
  }

  lemma BlockedAnyway(event: map<Tid, ListId>, event': map<Tid, ListId>, t: Tid, l: ListId)
    requires EventsFrom(event, event', t, Suspended) && Blocked(l)
    ensures EventsFrom(event, event', t, l)
  {
  }
}
