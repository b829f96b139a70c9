/** Event lists in priority order: as long as tasks enter an event list through vTaskPlaceOnEventList and waiters keep
    their priorities, the list is sorted, so that the highest priority waiter is woken first. */
module EventOrder {
  import opened TaskLists
  import opened Kernel
  import opened KernelOps
  import opened KernelRuns

  /** Event items that are not in use encode their tasks' priorities. */
  ghost predicate Exact(prio: map<Tid, nat>, items: Items) {
    && (forall t :: t in prio ==> prio[t] < items.limit)
    && (forall t :: t in prio && t !in items.inUse ==> Val(items.value, t) == items.limit - prio[t])
  }

  /** An event list d is in order of its items' values, none of which is in use. */
  ghost predicate Ordered(d: seq<Tid>, prio: map<Tid, nat>, items: Items) {
    Exact(prio, items) && Sorted(d, items.value) && forall t :: t in d ==> t !in items.inUse
  }

  ghost predicate InOrder(k: K, q: nat) {
    Ordered(At(k.ev, Event(q)), k.prio, k.items)
  }

  // ---------------------------------------------------------------- items leave

  /** One event item leaves its list, for none or for another one. */
  lemma LeaveInOrder(ev: Store, ev': Store, prio: map<Tid, nat>, items: Items, t: Tid, l: ListId)
    requires WellLinked(ev) && Ordered(At(ev, l), prio, items) && l != PendingReady
    requires ev' == Remove(ev, t) || (t in ev.home && ev' == Move(ev, t, PendingReady))
    ensures Ordered(At(ev', l), prio, items) && t !in At(ev', l)
  {
    hide At, WellLinked, Remove, Move, Sorted, Exact;
    LinkedAt(ev, l);
    RemoveLinked(ev, t);
    WithoutSorted(At(ev, l), t, items.value);
    WithoutFacts(At(ev, l), t);
    if t in ev.home {
      MoveLinked(ev, t, PendingReady);
    }
  }

  lemma UnblockInOrder(k: K, t: Tid, q: nat)
    requires Sound(k) && t in k.prio && InOrder(k, q)
    ensures Sound(Unblock(k, t)) && InOrder(Unblock(k, t), q)
  {
    hide At, WellLinked, Remove, Move, Ordered;
    UnblockSound(k, t);
    LeaveInOrder(k.ev, Remove(k.ev, t), k.prio, k.items, t, Event(q));
  }

  lemma {:induction false} WakeInOrder(k: K, q: nat)
    requires Sound(k) && InOrder(k, q)
    ensures InOrder(WakeExpired(k), q)
    decreases |At(k.st, Cur(k))|
  {
    hide Ordered, WellLinked, Move, Remove;
    var d := At(k.st, Cur(k));
    if d != [] && k.tick >= Val(k.value, d[0]) {
      CurrentHead(k);
      UnblockSound(k, d[0]);
      UnblockInOrder(k, d[0], q);
      WakeInOrder(Unblock(k, d[0]), q);
    }
  }

  lemma TickInOrder(k: K, q: nat)
    requires Sound(k) && InOrder(k, q)
    ensures InOrder(TickCore(k), q)
  {
    hide WellLinked, Ordered, WakeExpired, At;
    AdvanceIgnoresPended(k, k.pended);
    WakeInOrder(Advance(k), q);
  }

  lemma {:induction false} TicksInOrder(k: K, m: nat, q: nat)
    requires Sound(k) && InOrder(k, q)
    ensures InOrder(Ticks(k, m), q)
    decreases m
  {
    hide Sound, InOrder, TickCore;
    if m > 0 {
      TickInOrder(k, q);
      TicksInOrder(TickCore(k), m - 1, q);
    }
  }

  lemma {:induction false} DrainInOrder(k: K, q: nat)
    requires Sound(k) && InOrder(k, q)
    ensures InOrder(Drain(k), q)
    decreases |At(k.ev, PendingReady)|
  {
    hide Ordered, Unblock;
    var d := At(k.ev, PendingReady);
    if d != [] {
      assert d[0] in d;
      UnblockSound(k, d[0]);
      UnblockInOrder(k, d[0], q);
      DrainInOrder(Unblock(k, d[0]), q);
    }
  }

  lemma ResumeInOrder(k: K, q: nat)
    requires Sound(k) && k.suspended > 0 && InOrder(k, q)
    ensures InOrder(ResumeAll(k), q)
  {
    hide WellLinked, Ordered, Drain, Ticks;
    var k1 := k.(suspended := k.suspended - 1);
    SoundIgnoresTime(k, k.tick, k.clock, k.suspended - 1, k.pended);
    DrainInOrder(k1, q);
    TicksInOrder(DrainPending(k1), k1.pended, q);
  }

  lemma CatchUpInOrder(k: K, m: nat, q: nat)
    requires Sound(k) && InOrder(k, q)
    ensures InOrder(CatchUp(k, m), q)
  {
    hide WellLinked, Ordered, At, ResumeAll;
    SoundIgnoresTime(k, k.tick, k.clock, k.suspended + 1, k.pended + m);
    ResumeInOrder(k.(suspended := k.suspended + 1, pended := k.pended + m), q);
  }

  lemma TickOrPendInOrder(k: K, q: nat)
    requires Sound(k) && InOrder(k, q)
    ensures InOrder(Tick(k), q)
  {
    hide WellLinked, Ordered, At, TickCore;
    TickInOrder(k, q);
  }

  lemma SignalInOrder(k: K, p: nat, q: nat)
    requires Inv(k) && Sound(k) && At(k.ev, Event(p)) != [] && InOrder(k, q)
    ensures InOrder(Signal(k, p), q)
  {
    hide Inv, Remove, Move, Ordered, At, WellLinked;
    EventHead(k, p);
    var t := At(k.ev, Event(p))[0];
    var ev := if k.suspended == 0 then Remove(k.ev, t) else Move(k.ev, t, PendingReady);
    LeaveInOrder(k.ev, ev, k.prio, k.items, t, Event(q));
  }

  // ---------------------------------------------------------------- values change

  /** The value of an item outside the list changes; it is then in use, or encodes the task's priority. */
  lemma OutsideChange(d: seq<Tid>, prio: map<Tid, nat>, items: Items, t: Tid, prio': map<Tid, nat>, items': Items)
    requires Ordered(d, prio, items) && t !in d && items'.limit == items.limit
    requires forall u :: u != t ==>
      Val(items'.value, u) == Val(items.value, u) && (u in items'.inUse <==> u in items.inUse)
    requires forall u :: u in prio' && u != t ==> u in prio && prio'[u] == prio[u]
    requires t in prio' ==> prio'[t] < items.limit
    requires t in prio' && t !in items'.inUse ==> Val(items'.value, t) == items.limit - prio'[t]
    ensures Ordered(d, prio', items')
  {
    SortedFrame(d, items.value, items'.value);
  }

  lemma ReleaseInOrder(k: K, t: Tid, v: nat, q: nat)
    requires Sound(k) && t in k.prio && InOrder(k, q)
    ensures InOrder(Release(k, t, v), q)
  {
    hide Remove, Move, Ordered, At, WellLinked;
    LeaveInOrder(k.ev, Remove(k.ev, t), k.prio, k.items, t, Event(q));
    PrioritiesBounded(At(k.ev, Event(q)), k.prio, k.items);
    OutsideChange(At(Remove(k.ev, t), Event(q)), k.prio, k.items, t, k.prio, Occupy(k.items, t, v));
  }

  lemma PrioritiesBounded(d: seq<Tid>, prio: map<Tid, nat>, items: Items)
    requires Ordered(d, prio, items)
    ensures forall t :: t in prio ==> prio[t] < items.limit
  {
  }

  lemma SuspendInOrder(k: K, t: Tid, q: nat)
    requires Sound(k) && InOrder(k, q)
    ensures InOrder(Suspend(k, t), q)
  {
    hide Remove, Move, Ordered, At, WellLinked;
    LeaveInOrder(k.ev, Remove(k.ev, t), k.prio, k.items, t, Event(q));
  }

  lemma DeleteInOrder(k: K, t: Tid, q: nat)
    requires Sound(k) && k.count >= 1 && InOrder(k, q)
    ensures InOrder(Delete(k, t), q)
  {
    hide Remove, Move, Ordered, At, WellLinked;
    LeaveInOrder(k.ev, Remove(k.ev, t), k.prio, k.items, t, Event(q));
    OutsideChange(At(Remove(k.ev, t), Event(q)), k.prio, k.items, t, k.prio - {t}, Gone(k.items, t));
  }

  /** A task whose event item is in no list is not in this one. */
  lemma NotListed(ev: Store, t: Tid, l: ListId)
    requires WellLinked(ev) && (t !in ev.home || ev.home[t] != l)
    ensures t !in At(ev, l)
  {
    LinkedAt(ev, l);
  }

  lemma CleanUpInOrder(k: K, q: nat)
    requires Inv(k) && Sound(k) && k.current == k.idle && k.deleted > 0 && InOrder(k, q)
    ensures At(k.st, Termination) != [] && k.count >= 1 && InOrder(CleanUp(k), q)
  {
    hide Inv, Remove, Ordered, At, WellLinked;
    CleanUpInv(k);
    DeletedHead(k);
    var t := At(k.st, Termination)[0];
    NotListed(k.ev, t, Event(q));
    OutsideChange(At(k.ev, Event(q)), k.prio, k.items, t, k.prio - {t}, Gone(k.items, t));
  }

  lemma CreateInOrder(k: K, t: Tid, p: nat, q: nat)
    requires Sound(k) && t !in k.prio && p < k.items.limit && InOrder(k, q)
    ensures InOrder(Create(k, t, p), q)
  {
    hide PushBack, Ordered, At, WellLinked;
    NotListed(k.ev, t, Event(q));
    OutsideChange(At(k.ev, Event(q)), k.prio, k.items, t, k.prio[t := p], Born(k.items, t, p));
  }

  lemma ResetItemInOrder(k: K, q: nat)
    requires Inv(k) && k.current in k.prio && k.current in k.st.home && k.st.home[k.current].Ready? && InOrder(k, q)
    ensures InOrder(ResetItem(k), q)
  {
    hide Inv, Ordered, At, WellLinked;
    InvTask(k, k.current);
    InvSound(k);
    NotListed(k.ev, k.current, Event(q));
    PrioritiesBounded(At(k.ev, Event(q)), k.prio, k.items);
    OutsideChange(At(k.ev, Event(q)), k.prio, k.items, k.current, k.prio,
                  Vacate(k.items, k.current, k.prio[k.current]));
  }

  lemma SetPriorityInOrder(k: K, t: Tid, p: nat, q: nat)
    requires t in k.prio && t in k.st.home && p < k.items.limit && InOrder(k, q) && t !in At(k.ev, Event(q))
    ensures InOrder(SetPriority(k, t, p), q)
  {
    hide Move, Ordered, At;
    OutsideChange(At(k.ev, Event(q)), k.prio, k.items, t, k.prio[t := p], Encode(k.items, t, p));
  }

  /** What vTaskPrioritySet stores in the event item is the priority the task then has: it is not using an inherited
      priority above the new one, or the item is in use, or nothing changes. */
  predicate StoresPriority(k: K, t: Tid, p: nat)
    requires t in k.prio
  {
    t in k.items.inUse || Val(k.items.base, t) == p || Val(k.items.base, t) == k.prio[t] || p >= k.prio[t]
  }

  lemma PrioritySetInOrder(k: K, t: Tid, p: nat, q: nat)
    requires t in k.prio && t in k.st.home && p < k.items.limit && InOrder(k, q) && t !in At(k.ev, Event(q))
    requires StoresPriority(k, t, p)
    ensures InOrder(PrioritySet(k, t, p), q)
  {
    hide PrioritySet, Ordered, At;
    PrioritySetEffect(k, t, p);
    PrioritiesBounded(At(k.ev, Event(q)), k.prio, k.items);
    if Val(k.items.base, t) != p {
      var used := if Val(k.items.base, t) == k.prio[t] || p > k.prio[t] then p else k.prio[t];
      OutsideChange(At(k.ev, Event(q)), k.prio, k.items, t, k.prio[t := used],
                    Encode(k.items.(base := k.items.base[t := p]), t, p));
    }
  }

  /** After vTaskPrioritySet event items still encode priorities if and only if the task is not using an inherited
      priority above the new one, or its item is in use, or nothing changes. */
  lemma PrioritySetExactlyWhen(k: K, t: Tid, p: nat)
    requires t in k.prio && t in k.st.home && p < k.items.limit && Exact(k.prio, k.items)
    ensures Exact(PrioritySet(k, t, p).prio, PrioritySet(k, t, p).items) <==> StoresPriority(k, t, p)
  {
    hide PrioritySet;
    PrioritySetEffect(k, t, p);
    var r := PrioritySet(k, t, p);
    assert Val(k.items.base, t) != p && t !in k.items.inUse ==> Val(r.items.value, t) == k.items.limit - p;
  }

  /** A task of priority 1 that has inherited 4 is given base priority 2: it keeps 4, and its item says 2. */
  lemma PrioritySetCanMisfile() returns (k: K, t: Tid, p: nat)
    ensures Inv(k) && Exact(k.prio, k.items) && t in k.prio && t in k.st.home && p < k.items.limit
    ensures PrioritySet(k, t, p).prio[t] == 4 && Val(PrioritySet(k, t, p).items.value, t) == k.items.limit - 2
    ensures !Exact(PrioritySet(k, t, p).prio, PrioritySet(k, t, p).items)
  {
    hide Inv, SetPriority, PrioritySet;
    var made := OneTaskMade();
    SetPriorityInv(made, 1, 4);
    SetPriorityKeepsItems(made, 1, 4);
    k, t, p := SetPriority(made, 1, 4), 1, 2;
    InvTask(k, 1);
    PrioritySetEffect(k, 1, 2);
    PrioritySetExactlyWhen(k, 1, 2);
  }

  /** The idle task and a task of priority 1. */
  lemma OneTaskMade() returns (k: K)
    ensures Inv(k) && k.prio == map[0 := 0, 1 := 1] && 1 in k.st.home
    ensures k.items == Items(6, map[0 := 0, 1 := 1], map[0 := 6, 1 := 5], {})
  {
    hide Inv, PushBack;
    var start := Start(8, 0, 0, 6);
    StartInv(8, 0, 0, 6);
    CreateInv(start, 1, 1);
    k := Create(start, 1, 1);
    InvTask(k, 1);
  }

  lemma SetPriorityKeepsItems(k: K, t: Tid, p: nat)
    requires t in k.prio && t in k.st.home
    ensures SetPriority(k, t, p).items == Encode(k.items, t, p)
  {
    hide Move;
  }

  lemma PrioritySetEffect(k: K, t: Tid, p: nat)
    requires t in k.prio && t in k.st.home
    ensures var r := PrioritySet(k, t, p);
      if Val(k.items.base, t) == p then r == k
      else
        && r.items == Encode(k.items.(base := k.items.base[t := p]), t, p)
        && r.prio == k.prio[t := if Val(k.items.base, t) == k.prio[t] || p > k.prio[t] then p else k.prio[t]]
        && r.ev == k.ev
  {
    hide Move, Encode;
  }

  // ---------------------------------------------------------------- waiting

  lemma WaitInOrder(k: K, p: nat, place: Placement, q: nat)
    requires Inv(k) && CanBlock(k) && k.current !in k.items.inUse && InOrder(k, q) && (p == q ==> place.InOrder?)
    ensures var items := if place.Unordered? then Occupy(k.items, k.current, place.v) else k.items;
      Ordered(At(PlaceEvent(k, p, place), Event(q)), k.prio, items)
  {
    hide At, Inv, Insert, PushBack, WellLinked, Sorted, Exact;
    var d, t := At(k.ev, Event(q)), k.current;
    InvDeleted(k);
    InvTask(k, t);
    InvSound(k);
    LinkedAt(k.ev, Event(q));
    InsertLinked(k.ev, Event(p), t, k.items.value);
    PushBackLinked(k.ev, Event(p), t);
    InsertSorted(d, t, k.items.value);
    InsertFacts(d, t, k.items.value);
    if place.Unordered? {
      PrioritiesBounded(d, k.prio, k.items);
      OutsideChange(d, k.prio, k.items, t, k.prio, Occupy(k.items, t, place.v));
    }
  }

  // ---------------------------------------------------------------- runs

  /** The operation respects list q: nobody enters it at the end or with event bits, no waiter's priority changes, and
      vTaskPrioritySet is not used on a task that goes on using a higher inherited priority. */
  ghost predicate Respects(k: K, op: Op, q: nat) {
    && (op.OpWait? && op.q == q ==> op.place.InOrder?)
    && (op.OpSetPriority? ==> op.t !in At(k.ev, Event(q)))
    && (op.OpPrioritySet? && op.t in k.prio ==> op.t !in At(k.ev, Event(q)) && StoresPriority(k, op.t, op.p))
  }

  lemma BlockingInOrder(k: K, op: Op, r: K, q: nat)
    requires Inv(k) && Step(k, op, r) && InOrder(k, q) && Respects(k, op, q) && (op.OpDelay? || op.OpWait?)
    ensures InOrder(r, q)
  {
    hide Inv, PlaceEvent, AddToDelayed, Ordered, At, WellLinked, Occupy;
    match op
    case OpDelay(ticks, indefinitely) => DelayKeepsEvents(k, ticks, indefinitely);
    case OpWait(p, place, ticks, indefinitely) =>
      WaitInOrder(k, p, place, q);
      var items := if place.Unordered? then Occupy(k.items, k.current, place.v) else k.items;
      DelayKeepsEvents(k.(ev := PlaceEvent(k, p, place), items := items), ticks, indefinitely);
  }

  lemma RemovingInOrder(k: K, op: Op, r: K, q: nat)
    requires Inv(k) && Step(k, op, r) && InOrder(k, q)
    requires op.OpSignal? || op.OpRelease? || op.OpAbortDelay? || op.OpSuspend? || op.OpDelete? || op.OpCleanUp?
    ensures InOrder(r, q)
  {
    hide Inv, Sound, InOrder, At, Signal, Release, Unblock, Suspend, Delete, CleanUp;
    match op
    case OpSignal(p) => SignalInOrder(k, p, q);
    case OpRelease(t, v) => ReleaseInOrder(k, t, v, q);
    case OpAbortDelay(t) => UnblockInOrder(k, t, q);
    case OpSuspend(t) => SuspendInOrder(k, t, q);
    case OpDelete(t) => DeleteInOrder(k, t, q);
    case OpCleanUp => CleanUpInOrder(k, q);
  }

  lemma ResumeTaskInOrder(k: K, t: Tid, q: nat)
    requires t in k.prio && InOrder(k, q)
    ensures InOrder(ResumeFromISR(k, t), q) && InOrder(Resume(k, t), q)
  {
    hide Ordered, At, PushBack, Move;
    PendedElsewhere(k.ev, t, Event(q));
  }

  lemma PendedElsewhere(ev: Store, t: Tid, l: ListId)
    requires l != PendingReady
    ensures At(PushBack(ev, PendingReady, t), l) == At(ev, l)
  {
  }

  lemma TaskInOrder(k: K, op: Op, r: K, q: nat)
    requires Inv(k) && Step(k, op, r) && InOrder(k, q) && Respects(k, op, q)
    requires || op.OpCreate? || op.OpResume? || op.OpResumeFromISR? || op.OpSetPriority? || op.OpPrioritySet?
             || op.OpResetItem?
    ensures InOrder(r, q)
  {
    hide Inv, Sound, InOrder, At, Create, Resume, ResumeFromISR, SetPriority, PrioritySet, ResetItem;
    match op
    case OpCreate(t, p) => CreateInOrder(k, t, p, q);
    case OpResume(t) => ResumeTaskInOrder(k, t, q);
    case OpResumeFromISR(t) => ResumeTaskInOrder(k, t, q);
    case OpSetPriority(t, p) => SetPriorityInOrder(k, t, p, q);
    case OpPrioritySet(t, p) => PrioritySetInOrder(k, t, p, q);
    case OpResetItem => ResetItemInOrder(k, q);
  }

  lemma TimeInOrder(k: K, op: Op, r: K, q: nat)
    requires Inv(k) && Step(k, op, r) && InOrder(k, q) && (op.OpTick? || op.OpResumeAll? || op.OpCatchUp?)
    ensures InOrder(r, q)
  {
    hide Inv, Sound, InOrder, At, Tick, ResumeAll, CatchUp;
    match op
    case OpTick => TickOrPendInOrder(k, q);
    case OpResumeAll => ResumeInOrder(k, q);
    case OpCatchUp(m) => CatchUpInOrder(k, m, q);
  }

  /** The remaining operations touch neither event items nor priorities. */
  lemma OtherInOrder(k: K, op: Op, r: K, q: nat)
    requires Step(k, op, r) && InOrder(k, q)
    requires op.OpSuspendAll? || op.OpStepTick? || op.OpResetNext? || op.OpSwitch?
    ensures InOrder(r, q)
  {
    hide Sound, Ordered, At, HighestReady;
  }

  /** Every operation that respects an event list keeps it in order. */
  lemma StepInOrder(k: K, op: Op, r: K, q: nat)
    requires Inv(k) && Step(k, op, r) && InOrder(k, q) && Respects(k, op, q)
    ensures InOrder(r, q)
  {
    hide Inv, Step, InOrder, Respects;
    if op.OpDelay? || op.OpWait? {
      BlockingInOrder(k, op, r, q);
    } else if op.OpSignal? || op.OpRelease? || op.OpAbortDelay? || op.OpSuspend? || op.OpDelete? || op.OpCleanUp? {
      RemovingInOrder(k, op, r, q);
    } else if op.OpTick? || op.OpResumeAll? || op.OpCatchUp? {
      TimeInOrder(k, op, r, q);
    } else if op.OpSuspendAll? || op.OpStepTick? || op.OpResetNext? || op.OpSwitch? {
      OtherInOrder(k, op, r, q);
    } else {
      TaskInOrder(k, op, r, q);
    }
  }

  lemma StartInOrder(k: K, q: nat)
    requires Started(k)
    ensures InOrder(k, q)
  {
  }

  lemma {:induction false} RunInOrder(s: seq<K>, ops: seq<Op>, i: nat, q: nat)
    requires Run(s, ops) && i < |s| && forall j :: 0 <= j < i ==> Respects(s[j], ops[j], q)
    ensures Inv(s[i]) && InOrder(s[i], q)
    decreases i
  {
    hide Step, Inv, Respects, InOrder, Started;
    RunKeeps(s, ops, i);
    if i > 0 {
      RunInOrder(s, ops, i - 1, q);
      StepInOrder(s[i - 1], ops[i - 1], s[i], q);
    } else {
      StartInOrder(s[0], q);
    }
  }

  /** In every run that respects event list q, the task that xTaskRemoveFromEventList takes from it has a priority no
      lower than any other waiter's. */
  lemma HighestWokenFirst(s: seq<K>, ops: seq<Op>, i: nat, q: nat, t: Tid)
    requires Run(s, ops) && i < |s| && forall j :: 0 <= j < i ==> Respects(s[j], ops[j], q)
    requires t in At(s[i].ev, Event(q))
    ensures var head := At(s[i].ev, Event(q))[0];
      head in s[i].prio && t in s[i].prio && s[i].prio[head] >= s[i].prio[t]
  {
    hide Run, Inv, Respects;
    RunInOrder(s, ops, i, q);
    InvSound(s[i]);
    LinkedAt(s[i].ev, Event(q));
    var d := At(s[i].ev, Event(q));
    assert d[0] in d;
    var j :| 0 <= j < |d| && d[j] == t;
  }
}
