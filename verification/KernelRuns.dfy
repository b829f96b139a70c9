/** Every operation keeps the scheduler's invariant, and what that means for whole runs. */
module KernelRuns {
  import opened WrapArithmetic
  import opened TaskLists
  import opened Kernel
  import opened KernelOps

  // ---------------------------------------------------------------- one task moves

  lemma MoveInv(k: K, t: Tid, l: ListId, ev: Store, top: nat, deleted: nat)
    requires Inv(k) && t in k.st.home && StateList(l) && !Delayed(l) && t != k.idle
    requires k.top <= top && (l.Ready? ==> t in k.prio && l.p == k.prio[t] <= top)
    requires WellLinked(ev) && EventsFrom(k.ev.home, ev.home, t, l)
    requires NoPending(k.ev.home) ==> NoPending(ev.home)
    requires deleted == |At(Move(k.st, t, l), Termination)|
    ensures var r := k.(st := Move(k.st, t, l), ev := ev, top := top, deleted := deleted);
      Inv(r) && Only(k, r, t) && r.st.home == k.st.home[t := l]
  {
    hide CoreAt, At, WellLinked, Move, EventsFrom, OnlyMaps, NoPending;
    MoveCore(k, k.clock, t, l, ev, top, deleted);
    InvSound(k);
    MoveLinked(k.st, t, l);
    OnlyOne(k.st.home, k.wake, k.wake, t, l);
  }

  /** As MoveInv, for lists other than the termination list. */
  lemma MoveLive(k: K, t: Tid, l: ListId, ev: Store, top: nat)
    requires Inv(k) && t in k.st.home && StateList(l) && !Delayed(l) && t != k.idle
    requires k.st.home[t] != Termination && l != Termination
    requires k.top <= top && (l.Ready? ==> t in k.prio && l.p == k.prio[t] <= top)
    requires WellLinked(ev) && EventsFrom(k.ev.home, ev.home, t, l)
    requires NoPending(k.ev.home) ==> NoPending(ev.home)
    ensures var r := k.(st := Move(k.st, t, l), ev := ev, top := top);
      Inv(r) && Only(k, r, t) && r.st.home == k.st.home[t := l]
  {
    hide CoreAt, At, WellLinked, Move, EventsFrom, OnlyMaps, NoPending, Inv;
    InvSound(k);
    TerminationKept(k, t, l);
    InvDeleted(k);
    MoveInv(k, t, l, ev, top, k.deleted);
  }

  lemma InvDeleted(k: K)
    requires Inv(k)
    ensures k.deleted == |At(k.st, Termination)| && k.count == |k.st.home|
    ensures k.idle in k.st.home && k.st.home[k.idle] == Ready(k.prio[k.idle]) && k.current in k.prio
  {
    hide At, WellLinked, HomesOk, TimesOk, OrderOk;
  }

  lemma EventsLeave(k: K, t: Tid, l: ListId)
    requires Inv(k)
    ensures WellLinked(Remove(k.ev, t)) && EventsFrom(k.ev.home, Remove(k.ev, t).home, t, l)
    ensures NoPending(k.ev.home) ==> NoPending(Remove(k.ev, t).home)
    ensures Remove(k.ev, t).home == k.ev.home - {t}
  {
    hide At, WellLinked, TimesOk, OrderOk, Remove;
    RemoveLinked(k.ev, t);
  }

  lemma EventsStay(k: K, t: Tid, l: ListId)
    requires Inv(k) && (t in k.ev.home ==> Blocked(l))
    ensures WellLinked(k.ev) && EventsFrom(k.ev.home, k.ev.home, t, l)
  {
    hide At, WellLinked, TimesOk, OrderOk;
  }

  /** What the invariant says of one task. */
  lemma InvTask(k: K, t: Tid)
    requires Inv(k) && t in k.prio
    ensures t in k.st.home && StateList(k.st.home[t]) && (k.st.home[t].Ready? ==> k.st.home[t].p == k.prio[t] <= k.top)
    ensures t in k.ev.home ==> EventList(k.ev.home[t]) && Blocked(k.st.home[t])
    ensures t == k.idle ==> k.st.home[t].Ready?
  {
    hide At, WellLinked, TimesOk, OrderOk;
  }

  lemma ResetNextInv(k: K)
    requires Inv(k)
    ensures k.n >= 1 && Inv(ResetNext(k)) && Only(k, ResetNext(k), k.current) && NextExact(ResetNext(k))
  {
    hide CoreAt, NoPending, NextExact;
    CoreTick(k);
    ResetNextExact(k, k.clock);
    ResetNextNow(k);
  }

  lemma UnblockInv(k: K, t: Tid)
    requires Inv(k) && t in k.prio && t in k.st.home && Blocked(k.st.home[t])
    ensures Inv(Unblock(k, t)) && Only(k, Unblock(k, t), t)
    ensures Unblock(k, t).st.home == k.st.home[t := Ready(k.prio[t])] && Unblock(k, t).ev.home == k.ev.home - {t}
    ensures At(Unblock(k, t).st, Ready(k.prio[t])) == At(k.st, Ready(k.prio[t])) + [t]
  {
    hide Core, At, WellLinked, Move, Remove, EventsFrom, OnlyMaps, NoPending;
    InvTask(k, t);
    EventsLeave(k, t, Ready(k.prio[t]));
    MoveLive(k, t, Ready(k.prio[t]), Remove(k.ev, t), Max(k.top, k.prio[t]));
    JoinsReady(k, t);
  }

  /** A task that becomes ready is last in the list of its priority. */
  lemma JoinsReady(k: K, t: Tid)
    requires Inv(k) && t in k.prio && t in k.st.home && !k.st.home[t].Ready?
    ensures At(Move(k.st, t, Ready(k.prio[t])), Ready(k.prio[t])) == At(k.st, Ready(k.prio[t])) + [t]
  {
    hide At, WellLinked, Move, Core, NoPending;
    InvSound(k);
    MoveLinked(k.st, t, Ready(k.prio[t]));
  }

  // ---------------------------------------------------------------- events

  /** Only an event item moves; its task stays blocked where it is. */
  lemma EventInv(k: K, ev: Store, t: Tid)
    requires Inv(k) && t in k.st.home && Blocked(k.st.home[t])
    requires WellLinked(ev) && EventsFrom(k.ev.home, ev.home, t, Suspended)
    requires k.suspended == 0 ==> NoPending(ev.home)
    ensures Inv(k.(ev := ev))
  {
    hide At, WellLinked, TimesOk, OrderOk;
  }

  lemma WaitEvents(k: K, q: nat, place: Placement)
    requires Inv(k) && CanBlock(k)
    ensures var ev := PlaceEvent(k, q, place);
      && WellLinked(ev) && EventsFrom(k.ev.home, ev.home, k.current, Suspended)
      && ev.home == k.ev.home[k.current := Event(q)]
      && At(ev, Event(q)) == (if place.InOrder? then SortedInsert(At(k.ev, Event(q)), k.current, k.items.value)
                              else At(k.ev, Event(q)) + [k.current])
      && (NoPending(k.ev.home) ==> NoPending(ev.home))
  {
    hide At, WellLinked, TimesOk, OrderOk;
    InsertLinked(k.ev, Event(q), k.current, k.items.value);
    PushBackLinked(k.ev, Event(q), k.current);
  }

  /** Values of event items are not part of the invariant. */
  lemma ItemsIrrelevant(k: K, items: Items)
    requires Inv(k)
    ensures Inv(k.(items := items))
  {
    hide At, WellLinked, HomesOk, TimesOk, OrderOk;
  }

  lemma WaitInv(k: K, q: nat, place: Placement, ticks: nat, indefinitely: bool)
    requires Inv(k) && CanBlock(k) && 0 < ticks < k.n
    ensures Inv(Wait(k, q, place, ticks, indefinitely)) && Only(k, Wait(k, q, place, ticks, indefinitely), k.current)
    ensures Wait(k, q, place, ticks, indefinitely).ev.home == k.ev.home[k.current := Event(q)]
    ensures At(Wait(k, q, place, ticks, indefinitely).ev, Event(q)) ==
            if place.InOrder? then SortedInsert(At(k.ev, Event(q)), k.current, k.items.value)
            else At(k.ev, Event(q)) + [k.current]
    ensures var items := Wait(k, q, place, ticks, indefinitely).items;
      if place.Unordered? then Val(items.value, k.current) == place.v && k.current in items.inUse else items == k.items
  {
    hide Inv, WellLinked, PlaceEvent, EventsFrom, NoPending, OnlyMaps, AddToDelayed;
    WaitEvents(k, q, place);
    var items := if place.Unordered? then Occupy(k.items, k.current, place.v) else k.items;
    ItemsIrrelevant(k, items);
    BlockInv(k.(items := items), PlaceEvent(k, q, place), ticks, indefinitely);
    DelayKeepsEvents(k.(ev := PlaceEvent(k, q, place), items := items), ticks, indefinitely);
  }

  /** uxTaskResetEventItemValue: the event item says the priority again, and is free for other use. */
  lemma ResetItemInv(k: K)
    requires Inv(k) && k.current in k.prio
    ensures Inv(ResetItem(k)) && k.current !in ResetItem(k).items.inUse
    ensures k.prio[k.current] <= k.items.limit ==>
      Val(ResetItem(k).items.value, k.current) == k.items.limit - k.prio[k.current]
    ensures ResetItem(k) == k.(items := ResetItem(k).items)
  {
    hide Inv;
    ItemsIrrelevant(k, ResetItem(k).items);
  }

  /** AddToDelayed does not touch event items. */
  lemma DelayKeepsEvents(k: K, ticks: nat, indefinitely: bool)
    requires k.n >= 1
    ensures AddToDelayed(k, ticks, indefinitely).ev == k.ev && AddToDelayed(k, ticks, indefinitely).items == k.items
    ensures AddToDelayed(k, ticks, indefinitely).prio == k.prio
  {
    hide Insert, Remove, Move;
  }

  lemma DelayInv(k: K, ticks: nat, indefinitely: bool)
    requires Inv(k) && CanBlock(k) && 0 < ticks < k.n
    ensures Inv(AddToDelayed(k, ticks, indefinitely)) && Only(k, AddToDelayed(k, ticks, indefinitely), k.current)
  {
    hide Inv, WellLinked, EventsFrom, NoPending, OnlyMaps, AddToDelayed;
    EventsStay(k, k.current, Suspended);
    BlockInv(k, k.ev, ticks, indefinitely);
  }

  /** The head of an event list is a blocked task. */
  lemma EventHead(k: K, q: nat)
    requires Inv(k) && At(k.ev, Event(q)) != []
    ensures var t := At(k.ev, Event(q))[0];
      t in k.ev.home && k.ev.home[t] == Event(q) && t in k.prio && t in k.st.home && Blocked(k.st.home[t])
  {
    hide TimesOk, OrderOk;
    LinkedAt(k.ev, Event(q));
    assert At(k.ev, Event(q))[0] in At(k.ev, Event(q));
  }

  lemma PendEvents(k: K, t: Tid)
    requires Inv(k) && t in k.ev.home
    ensures WellLinked(Move(k.ev, t, PendingReady))
    ensures EventsFrom(k.ev.home, Move(k.ev, t, PendingReady).home, t, Suspended)
    ensures Move(k.ev, t, PendingReady).home == k.ev.home[t := PendingReady]
  {
    hide At, WellLinked, TimesOk, OrderOk, Move;
    MoveLinked(k.ev, t, PendingReady);
  }

  /** Task t has become ready and left its event list; or, while the scheduler is suspended, its event item has moved
      to xPendingReadyList. */
  ghost predicate ReadyOrPending(k: K, r: K, t: Tid) {
    && t in k.prio
    && if k.suspended == 0 then r.st.home == k.st.home[t := Ready(k.prio[t])] && r.ev.home == k.ev.home - {t}
       else r.st.home == k.st.home && r.ev.home == k.ev.home[t := PendingReady]
  }

  lemma SignalInv(k: K, q: nat)
    requires Inv(k) && At(k.ev, Event(q)) != []
    ensures Sound(k) && Inv(Signal(k, q)) && Only(k, Signal(k, q), At(k.ev, Event(q))[0])
    ensures ReadyOrPending(k, Signal(k, q), At(k.ev, Event(q))[0])
  {
    hide CoreAt, At, WellLinked, Move, NoPending, EventsFrom, Unblock, Core;
    InvSound(k);
    EventHead(k, q);
    var t := At(k.ev, Event(q))[0];
    if k.suspended == 0 {
      UnblockInv(k, t);
      ResetNextInv(Unblock(k, t));
    } else {
      PendEvents(k, t);
      EventInv(k, Move(k.ev, t, PendingReady), t);
    }
  }

  lemma ReleaseInv(k: K, t: Tid, v: nat)
    requires Inv(k) && t in k.ev.home && t in k.prio
    ensures Sound(k) && Inv(Release(k, t, v)) && Only(k, Release(k, t, v), t)
    ensures Release(k, t, v).st.home == k.st.home[t := Ready(k.prio[t])] && Release(k, t, v).ev.home == k.ev.home - {t}
    ensures Val(Release(k, t, v).items.value, t) == v && t in Release(k, t, v).items.inUse
  {
    hide Core, Sound, At, Unblock, NoPending;
    InvSound(k);
    InvTask(k, t);
    var m := k.(items := Occupy(k.items, t, v));
    ItemsIrrelevant(k, m.items);
    ResetNextInv(m);
    UnblockInv(ResetNext(m), t);
    UnblockKeepsItems(ResetNext(m), t);
  }

  lemma UnblockKeepsItems(k: K, t: Tid)
    requires t in k.prio
    ensures Unblock(k, t).items == k.items
  {
    hide Move, Remove;
  }

  // ---------------------------------------------------------------- creating and deleting tasks

  lemma HomesCreate(state: map<Tid, ListId>, event: map<Tid, ListId>, prio: map<Tid, nat>, top: nat, t: Tid, p: nat)
    requires HomesOk(state, event, prio, top) && t !in prio
    ensures HomesOk(state[t := Ready(p)], event, prio[t := p], Max(top, p))
    ensures t !in state && t !in event && |state[t := Ready(p)]| == |state| + 1
  {
    assert state[t := Ready(p)].Keys == prio[t := p].Keys;
    assert state[t := Ready(p)].Keys == state.Keys + {t};
  }

  lemma CreateInv(k: K, t: Tid, p: nat)
    requires Inv(k) && t !in k.prio
    ensures Inv(Create(k, t, p)) && Only(k, Create(k, t, p), t)
    ensures Create(k, t, p).st.home == k.st.home[t := Ready(p)] && Create(k, t, p).count == k.count + 1
    ensures Create(k, t, p).prio == k.prio[t := p] && Val(Create(k, t, p).items.base, t) == p
    ensures At(Create(k, t, p).st, Ready(p)) == At(k.st, Ready(p)) + [t]
  {
    hide At, WellLinked, HomesOk, TimesOk, OrderOk, PushBack, NoPending, OnlyMaps;
    CurOvf(k);
    HomesCreate(k.st.home, k.ev.home, k.prio, k.top, t, p);
    PushBackLinked(k.st, Ready(p), t);
    PushBackHome(k.st, Ready(p), t);
    TimesLeave(k.st.home, k.value, k.wake, k.n, k.clock, k.clock, Cur(k), Ovf(k), t, Ready(p));
    OnlyOne(k.st.home, k.wake, k.wake, t, Ready(p));
  }

  lemma PushBackHome(s: Store, l: ListId, t: Tid)
    ensures PushBack(s, l, t).home == s.home[t := l]
  {
  }

  lemma OneLess(state: map<Tid, ListId>, t: Tid)
    requires t in state
    ensures |state - {t}| == |state| - 1
  {
    assert (state - {t}).Keys == state.Keys - {t};
  }

  /** The delayed lists when a task's memory goes. */
  lemma OrderForget(cur: seq<Tid>, ovf: seq<Tid>, cur': seq<Tid>, ovf': seq<Tid>, t: Tid, value: map<Tid, nat>,
                    next: nat, n: nat)
    requires OrderOk(cur, ovf, value, next, n) && NoDup(cur) && NoDup(ovf)
    requires if t in cur then cur' == Without(cur, t) else cur' == cur
    requires if t in ovf then ovf' == Without(ovf, t) else ovf' == ovf
    ensures OrderOk(cur', ovf', value - {t}, next, n)
  {
    OrderShrinks(cur, ovf, cur', ovf', t, value, next, n);
    WithoutFacts(cur, t);
    WithoutFacts(ovf, t);
    SortedFrame(cur', value, value - {t});
    SortedFrame(ovf', value, value - {t});
  }

  lemma ForgetLists(k: K, t: Tid)
    requires Core(k) && t in k.st.home
    ensures var st := Remove(k.st, t);
      && WellLinked(st) && st.home == k.st.home - {t}
      && OrderOk(At(st, Cur(k)), At(st, Ovf(k)), k.value - {t}, k.next, k.n)
      && At(st, Termination) ==
         if k.st.home[t] == Termination then Without(At(k.st, Termination), t) else At(k.st, Termination)
  {
    hide At, WellLinked, HomesOk, TimesOk, OrderOk, Remove;
    RemoveLinked(k.st, t);
    LinkedAt(k.st, Cur(k));
    LinkedAt(k.st, Ovf(k));
    var st := Remove(k.st, t);
    OrderForget(At(k.st, Cur(k)), At(k.st, Ovf(k)), At(st, Cur(k)), At(st, Ovf(k)), t, k.value, k.next, k.n);
  }

  lemma HomesForget(state: map<Tid, ListId>, event: map<Tid, ListId>, prio: map<Tid, nat>, top: nat, t: Tid)
    requires HomesOk(state, event, prio, top)
    ensures HomesOk(state - {t}, event - {t}, prio - {t}, top)
  {
    assert (state - {t}).Keys == (prio - {t}).Keys;
  }

  lemma TimesForget(state: map<Tid, ListId>, value: map<Tid, nat>, wake: map<Tid, nat>, n: nat, clock: nat,
                    cur: ListId, ovf: ListId, t: Tid)
    requires TimesOk(state, value, wake, n, clock, clock, cur, ovf)
    ensures TimesOk(state - {t}, value - {t}, wake - {t}, n, clock, clock, cur, ovf)
  {
  }

  lemma EventsForget(ev: Store, t: Tid)
    requires WellLinked(ev)
    ensures WellLinked(Remove(ev, t)) && Remove(ev, t).home == ev.home - {t}
  {
    hide At, WellLinked, Remove;
    RemoveLinked(ev, t);
  }

  lemma CountedForget(k: K, t: Tid, r: K)
    requires Counted(k) && t in k.st.home && t != k.current && t != k.idle
    requires r.st.home == k.st.home - {t} && r.prio == k.prio - {t} && r.current == k.current && r.idle == k.idle
    requires r.count == k.count - 1 && r.deleted == |At(r.st, Termination)|
    ensures Counted(r)
  {
    hide At;
    OneLess(k.st.home, t);
  }

  /** A task that is neither running nor the idle task disappears. */
  lemma ForgetCore(k: K, t: Tid, deleted: nat)
    requires Core(k) && t in k.st.home && t != k.current && t != k.idle && k.count >= 1
    requires deleted == |At(Remove(k.st, t), Termination)|
    ensures Core(Forget(k.(st := Remove(k.st, t), ev := Remove(k.ev, t), count := k.count - 1, deleted := deleted), t))
  {
    hide At, WellLinked, HomesOk, TimesOk, OrderOk, Remove, Counted;
    ForgetLists(k, t);
    EventsForget(k.ev, t);
    HomesForget(k.st.home, k.ev.home, k.prio, k.top, t);
    TimesForget(k.st.home, k.value, k.wake, k.n, k.clock, Cur(k), Ovf(k), t);
    var m := k.(st := Remove(k.st, t), ev := Remove(k.ev, t), count := k.count - 1, deleted := deleted);
    CountedForget(k, t, Forget(m, t));
  }

  lemma ForgetOnly(state: map<Tid, ListId>, wake: map<Tid, nat>, t: Tid)
    ensures OnlyMaps(state, wake, state - {t}, wake - {t}, t)
  {
  }

  predicate CanDelete(k: K, t: Tid) {
    t in k.prio && t != k.idle && t in k.st.home && k.st.home[t] != Termination
  }

  lemma DeleteSelfInv(k: K)
    requires Inv(k) && CanDelete(k, k.current)
    ensures k.n >= 1 && k.count >= 1 && Inv(Delete(k, k.current)) && Only(k, Delete(k, k.current), k.current)
    ensures var r := Delete(k, k.current);
      && r.st.home == k.st.home[k.current := Termination] && r.ev.home == k.ev.home - {k.current}
      && r.deleted == k.deleted + 1 && r.count == k.count
  {
    hide Core, At, WellLinked, Move, Remove, EventsFrom, OnlyMaps, NoPending;
    CoreTick(k);
    CoreCounts(k);
    InvSound(k);
    InvDeleted(k);
    EventsLeave(k, k.current, Termination);
    MoveLinked(k.st, k.current, Termination);
    MoveInv(k, k.current, Termination, Remove(k.ev, k.current), k.top, k.deleted + 1);
  }

  lemma DeleteOtherInv(k: K, t: Tid)
    requires Inv(k) && CanDelete(k, t) && t != k.current
    ensures k.n >= 1 && k.count >= 1 && Inv(Delete(k, t)) && Only(k, Delete(k, t), t)
    ensures var r := Delete(k, t);
      && r.st.home == k.st.home - {t} && r.ev.home == k.ev.home - {t} && r.prio == k.prio - {t}
      && r.count == k.count - 1 && r.deleted == k.deleted
  {
    hide Core, At, WellLinked, Remove, OnlyMaps, NoPending;
    CoreTick(k);
    CoreCounts(k);
    InvDeleted(k);
    EventsLeave(k, t, Termination);
    ForgetLists(k, t);
    ForgetCore(k, t, k.deleted);
    ForgetOnly(k.st.home, k.wake, t);
    ResetNextInv(Forget(k.(st := Remove(k.st, t), ev := Remove(k.ev, t), count := k.count - 1), t));
  }

  /** The head of the termination list is not waiting for anything. */
  lemma DeletedHead(k: K)
    requires Inv(k) && k.current == k.idle && k.deleted > 0
    ensures At(k.st, Termination) != []
    ensures var t := At(k.st, Termination)[0];
      t in k.st.home && k.st.home[t] == Termination && t in At(k.st, Termination) && t != k.idle && t !in k.ev.home
  {
    hide TimesOk, OrderOk;
    LinkedAt(k.st, Termination);
    assert At(k.st, Termination)[0] in At(k.st, Termination);
  }

  lemma RemoveNothing(s: Store, t: Tid)
    requires t !in s.home
    ensures Remove(s, t) == s
  {
  }

  lemma CleanUpInv(k: K)
    requires Inv(k) && k.current == k.idle && k.deleted > 0
    ensures At(k.st, Termination) != [] && k.count >= 1
    ensures Inv(CleanUp(k)) && Only(k, CleanUp(k), At(k.st, Termination)[0])
    ensures CleanUp(k).st.home == k.st.home - {At(k.st, Termination)[0]} && CleanUp(k).current == k.idle
  {
    hide Core, At, WellLinked, Remove, OnlyMaps, NoPending;
    CoreCounts(k);
    DeletedHead(k);
    InvDeleted(k);
    var t := At(k.st, Termination)[0];
    RemoveNothing(k.ev, t);
    ForgetLists(k, t);
    ForgetCore(k, t, k.deleted - 1);
    ForgetOnly(k.st.home, k.wake, t);
  }

  // ---------------------------------------------------------------- suspending, resuming and priorities

  lemma SuspendInv(k: K, t: Tid)
    requires Inv(k) && CanDelete(k, t)
    ensures Inv(Suspend(k, t)) && Only(k, Suspend(k, t), t)
    ensures Suspend(k, t).st.home == k.st.home[t := Suspended] && Suspend(k, t).ev.home == k.ev.home - {t}
  {
    hide Core, At, WellLinked, Move, Remove, EventsFrom, OnlyMaps, NoPending;
    EventsLeave(k, t, Suspended);
    MoveLive(k, t, Suspended, Remove(k.ev, t), k.top);
  }

  /** A suspended task becomes ready. */
  lemma MadeReady(k: K, t: Tid)
    requires Inv(k) && t in k.prio && IsSuspended(k, t)
    ensures var r := k.(st := Move(k.st, t, Ready(k.prio[t])), top := Max(k.top, k.prio[t]));
      && Inv(r) && Only(k, r, t) && r.st.home == k.st.home[t := Ready(k.prio[t])]
      && At(r.st, Ready(k.prio[t])) == At(k.st, Ready(k.prio[t])) + [t]
  {
    hide Core, At, WellLinked, Move, EventsFrom, OnlyMaps, NoPending;
    JoinsReady(k, t);
    InvTask(k, t);
    EventsStay(k, t, Ready(k.prio[t]));
    MoveLive(k, t, Ready(k.prio[t]), k.ev, Max(k.top, k.prio[t]));
  }

  lemma ResumeInv(k: K, t: Tid)
    requires Inv(k) && t in k.prio
    ensures Inv(Resume(k, t)) && Only(k, Resume(k, t), t)
    ensures t != k.current && IsSuspended(k, t) ==> Resume(k, t).st.home == k.st.home[t := Ready(k.prio[t])]
    ensures t != k.current && IsSuspended(k, t) ==>
      At(Resume(k, t).st, Ready(k.prio[t])) == At(k.st, Ready(k.prio[t])) + [t]
    ensures t == k.current || !IsSuspended(k, t) ==> Resume(k, t) == k
  {
    hide Core, At, Move, NoPending;
    if t != k.current && IsSuspended(k, t) {
      MadeReady(k, t);
    }
  }

  lemma PendNew(k: K, t: Tid)
    requires Inv(k) && IsSuspended(k, t)
    ensures WellLinked(PushBack(k.ev, PendingReady, t))
    ensures EventsFrom(k.ev.home, PushBack(k.ev, PendingReady, t).home, t, Suspended)
    ensures PushBack(k.ev, PendingReady, t).home == k.ev.home[t := PendingReady]
  {
    hide At, WellLinked, TimesOk, OrderOk;
    PushBackLinked(k.ev, PendingReady, t);
  }

  lemma ResumeFromISRInv(k: K, t: Tid)
    requires Inv(k) && t in k.prio
    ensures Inv(ResumeFromISR(k, t)) && Only(k, ResumeFromISR(k, t), t)
    ensures if IsSuspended(k, t) then ReadyOrPending(k, ResumeFromISR(k, t), t) else ResumeFromISR(k, t) == k
  {
    hide Core, At, Move, NoPending, PushBack, WellLinked, EventsFrom;
    if IsSuspended(k, t) {
      if k.suspended == 0 {
        MadeReady(k, t);
        assert k.ev.home - {t} == k.ev.home;
      } else {
        PendNew(k, t);
        EventInv(k, PushBack(k.ev, PendingReady, t), t);
      }
    }
  }

  lemma HomesPriority(state: map<Tid, ListId>, event: map<Tid, ListId>, prio: map<Tid, nat>, top: nat, t: Tid, p: nat)
    requires HomesOk(state, event, prio, top) && t in state
    ensures !state[t].Ready? ==> HomesOk(state, event, prio[t := p], top)
    ensures state[t].Ready? ==> HomesOk(state[t := Ready(p)], event, prio[t := p], Max(top, p))
    ensures |state[t := Ready(p)]| == |state|
  {
    assert prio[t := p].Keys == prio.Keys;
    assert state[t := Ready(p)].Keys == state.Keys;
  }

  /** The lists once a task has a new priority. */
  ghost predicate Reprioritised(k: K, r: K, t: Tid, p: nat) {
    && t in k.prio && t in k.st.home && r.prio == k.prio[t := p] && r.ev == k.ev && r.wake == k.wake
    && if k.st.home[t].Ready? then r.st.home == k.st.home[t := Ready(p)] else r.st == k.st
  }

  lemma SetPriorityInv(k: K, t: Tid, p: nat)
    requires Inv(k) && t in k.prio && t in k.st.home
    ensures Inv(SetPriority(k, t, p)) && Only(k, SetPriority(k, t, p), t)
    ensures Reprioritised(k, SetPriority(k, t, p), t, p)
  {
    hide Inv, Reprioritise, OnlyMaps;
    ItemsIrrelevant(k, Encode(k.items, t, p));
    ReprioritiseInv(k.(items := Encode(k.items, t, p)), t, p);
  }

  /** vTaskPrioritySet: the new base priority is used unless a higher inherited one is. */
  lemma PrioritySetInv(k: K, t: Tid, p: nat)
    requires Inv(k) && t in k.prio && t in k.st.home
    ensures Inv(PrioritySet(k, t, p)) && Only(k, PrioritySet(k, t, p), t)
    ensures Val(k.items.base, t) != p ==>
      Reprioritised(k, PrioritySet(k, t, p), t,
                    if Val(k.items.base, t) == k.prio[t] || p > k.prio[t] then p else k.prio[t])
    ensures Val(k.items.base, t) == p ==> PrioritySet(k, t, p) == k
    ensures Val(PrioritySet(k, t, p).items.base, t) == p
    ensures forall u :: u != t ==> Val(PrioritySet(k, t, p).items.base, u) == Val(k.items.base, u)
  {
    hide Inv, Reprioritise;
    if Val(k.items.base, t) != p {
      var items := Encode(k.items.(base := k.items.base[t := p]), t, p);
      ItemsIrrelevant(k, items);
      var used := if Val(k.items.base, t) == k.prio[t] || p > k.prio[t] then p else k.prio[t];
      ReprioritiseInv(k.(items := items), t, used);
      ReprioritiseItems(k.(items := items), t, used);
    }
  }

  lemma ReprioritiseItems(k: K, t: Tid, p: nat)
    requires t in k.prio && t in k.st.home
    ensures Reprioritise(k, t, p).items == k.items
  {
    hide Move;
  }

  lemma ReprioritiseInv(k: K, t: Tid, p: nat)
    requires Inv(k) && t in k.prio && t in k.st.home
    ensures Inv(Reprioritise(k, t, p)) && Only(k, Reprioritise(k, t, p), t)
    ensures Reprioritised(k, Reprioritise(k, t, p), t, p)
  {
    hide At, WellLinked, HomesOk, TimesOk, OrderOk, Move, NoPending, OnlyMaps;
    CurOvf(k);
    InvSound(k);
    InvTask(k, t);
    HomesPriority(k.st.home, k.ev.home, k.prio, k.top, t, p);
    if k.st.home[t].Ready? {
      MoveLinked(k.st, t, Ready(p));
      TerminationKept(k, t, Ready(p));
      OrderMove(k, k.clock, t, Ready(p), Move(k.st, t, Ready(p)));
      TimesLeave(k.st.home, k.value, k.wake, k.n, k.clock, k.clock, Cur(k), Ovf(k), t, Ready(p));
      OnlyOne(k.st.home, k.wake, k.wake, t, Ready(p));
    } else {
      OnlyOne(k.st.home, k.wake, k.wake, t, k.st.home[t]);
      assert k.st.home[t := k.st.home[t]] == k.st.home;
    }
  }

  // ---------------------------------------------------------------- selection

  /** uxTopReadyPriority is at or above every non-empty ready list, and the idle task's list is never empty. */
  lemma TopBoundsReady(k: K)
    requires Inv(k)
    ensures k.idle in k.prio && k.idle in At(k.st, Ready(k.prio[k.idle]))
    ensures forall p: nat :: At(k.st, Ready(p)) != [] ==> p <= k.top
  {
    hide TimesOk, OrderOk;
    LinkedAt(k.st, Ready(k.prio[k.idle]));
    forall p: nat | At(k.st, Ready(p)) != [] ensures p <= k.top {
      LinkedAt(k.st, Ready(p));
      assert At(k.st, Ready(p))[0] in At(k.st, Ready(p));
    }
  }

  lemma CanSelect(k: K)
    requires Inv(k)
    ensures exists q: nat :: q <= k.top && At(k.st, Ready(q)) != []
  {
    hide Core, At, NoPending;
    TopBoundsReady(k);
    assert At(k.st, Ready(k.prio[k.idle])) != [];
  }

  /** The search ends, above 0 or at it, on a list whose tasks have the highest priority of all ready tasks. */
  lemma SelectionIsHighest(k: K, t: Tid, u: Tid)
    requires Inv(k)
    ensures exists q: nat :: q <= k.top && At(k.st, Ready(q)) != []
    ensures t in At(k.st, Ready(HighestReady(k, k.top))) ==>
      t in k.prio && t in k.st.home && k.st.home[t] == Ready(k.prio[t]) && k.prio[t] == HighestReady(k, k.top)
    ensures t in At(k.st, Ready(HighestReady(k, k.top))) && u in k.st.home && k.st.home[u].Ready? ==>
      u in k.prio && k.prio[u] <= k.prio[t]
  {
    hide TimesOk, OrderOk;
    CanSelect(k);
    TopBoundsReady(k);
    LinkedAt(k.st, Ready(HighestReady(k, k.top)));
    if u in k.st.home && k.st.home[u].Ready? {
      LinkedAt(k.st, k.st.home[u]);
      assert u in At(k.st, k.st.home[u]);
    }
  }

  lemma SwitchInv(k: K, t: Tid)
    requires Inv(k)
    requires exists q: nat :: q <= k.top && At(k.st, Ready(q)) != []
    requires t in At(k.st, Ready(HighestReady(k, k.top)))
    ensures Inv(Switch(k, t)) && Only(k, Switch(k, t), t)
    ensures Switch(k, t).current == t && Switch(k, t) == k.(current := t, top := Switch(k, t).top)
    ensures t in k.prio && Switch(k, t).top == k.prio[t]
  {
    hide At, WellLinked, TimesOk, OrderOk;
    forall u | u in k.st.home && k.st.home[u].Ready? ensures k.st.home[u].p <= HighestReady(k, k.top) {
      SelectionIsHighest(k, t, u);
    }
    SelectionIsHighest(k, t, t);
  }

  // ---------------------------------------------------------------- operations and runs

  datatype Op =
    | OpTick | OpSuspendAll | OpResumeAll | OpStepTick(jump: nat) | OpCatchUp(ticks: nat) | OpResetNext
    | OpDelay(ticks: nat, indefinitely: bool)
    | OpWait(q: nat, place: Placement, ticks: nat, indefinitely: bool)
    | OpSignal(q: nat) | OpRelease(t: Tid, v: nat) | OpAbortDelay(t: Tid)
    | OpCreate(t: Tid, p: nat) | OpDelete(t: Tid) | OpCleanUp
    | OpSuspend(t: Tid) | OpResume(t: Tid) | OpResumeFromISR(t: Tid)
    | OpSetPriority(t: Tid, p: nat) | OpPrioritySet(t: Tid, p: nat) | OpResetItem
    | OpSwitch(t: Tid)

  /** What the kernel demands of its callers.  A task that has waited in an event group resets its event item before it
      waits again: both blocking calls of event_groups.c do so when they resume. */
  ghost predicate Enabled(k: K, op: Op) {
    match op
    case OpTick | OpSuspendAll | OpResetNext => true
    case OpResumeAll => k.suspended > 0
    case OpStepTick(jump) => jump <= k.next - k.tick && (jump == k.next - k.tick ==> k.suspended != 0 && jump != 0)
    case OpCatchUp(_) => k.suspended == 0
    case OpDelay(ticks, _) => CanBlock(k) && 0 < ticks < k.n
    case OpWait(_, _, ticks, _) => CanBlock(k) && 0 < ticks < k.n && k.current !in k.items.inUse
    case OpSignal(q) => At(k.ev, Event(q)) != []
    case OpRelease(t, _) => k.suspended != 0 && t in k.prio && t in k.ev.home && k.ev.home[t].Event?
    case OpAbortDelay(t) => t in k.prio && t in k.st.home && IsBlocked(k, t)
    case OpCreate(t, p) => t !in k.prio && p < k.items.limit
    case OpDelete(t) => CanDelete(k, t)
    case OpCleanUp => k.current == k.idle && k.deleted > 0
    case OpSuspend(t) => CanDelete(k, t)
    case OpResume(t) => t in k.prio
    case OpResumeFromISR(t) => t in k.prio
    case OpSetPriority(t, p) => t in k.prio && t in k.st.home && p < k.items.limit
    case OpPrioritySet(t, p) => t in k.prio && t in k.st.home && p < k.items.limit
    case OpResetItem => k.current in k.prio && k.current in k.st.home && k.st.home[k.current].Ready?
    case OpSwitch(t) =>
      && k.suspended == 0
      && (exists q: nat :: q <= k.top && At(k.st, Ready(q)) != [])
      && t in At(k.st, Ready(HighestReady(k, k.top)))
  }

  /** One operation takes k to r. */
  ghost predicate Step(k: K, op: Op, r: K) {
    && Sound(k) && Enabled(k, op)
    && match op
       case OpTick => r == Tick(k)
       case OpSuspendAll => r == k.(suspended := k.suspended + 1)
       case OpResumeAll => r == ResumeAll(k)
       case OpStepTick(jump) => StepTickAsserts(k, jump) && r == StepTick(k, jump)
       case OpCatchUp(m) => r == CatchUp(k, m)
       case OpResetNext => r == ResetNext(k)
       case OpDelay(ticks, indefinitely) => r == AddToDelayed(k, ticks, indefinitely)
       case OpWait(q, place, ticks, indefinitely) => r == Wait(k, q, place, ticks, indefinitely)
       case OpSignal(q) => r == Signal(k, q)
       case OpRelease(t, v) => r == Release(k, t, v)
       case OpAbortDelay(t) => r == Unblock(k, t)
       case OpCreate(t, p) => r == Create(k, t, p)
       case OpDelete(t) => k.count >= 1 && r == Delete(k, t)
       case OpCleanUp => At(k.st, Termination) != [] && k.count >= 1 && r == CleanUp(k)
       case OpSuspend(t) => r == Suspend(k, t)
       case OpResume(t) => r == Resume(k, t)
       case OpResumeFromISR(t) => r == ResumeFromISR(k, t)
       case OpSetPriority(t, p) => r == SetPriority(k, t, p)
       case OpPrioritySet(t, p) => r == PrioritySet(k, t, p)
       case OpResetItem => r == ResetItem(k)
       case OpSwitch(t) => r == Switch(k, t)
  }

  /** The ticks an operation accounts for. */
  function TicksOf(op: Op): (m: nat) {
    match op
    case OpTick => 1
    case OpStepTick(jump) => jump
    case OpCatchUp(m) => m
    case _ => 0
  }

  /** The tasks an operation may unblock, suspend or delete, other than by the passing of time. */
  ghost function Subjects(k: K, op: Op): (who: set<Tid>) {
    match op
    case OpResumeAll => Members(k.ev, PendingReady)
    case OpSignal(q) => if At(k.ev, Event(q)) == [] then {} else {At(k.ev, Event(q))[0]}
    case OpRelease(t, _) => {t}
    case OpAbortDelay(t) => {t}
    case OpDelete(t) => {t}
    case OpSuspend(t) => {t}
    case _ => {}
  }

  /** Task u sleeps until unbounded time w. */
  ghost predicate Sleeps(k: K, u: Tid, w: nat) {
    u in k.st.home && Delayed(k.st.home[u]) && u in k.wake && k.wake[u] == w
  }

  /** After a step: asleep until w comes, ready from then on. */
  ghost predicate Kept(r: K, u: Tid, w: nat) {
    if r.clock < w then Sleeps(r, u, w) else u in r.st.home && r.st.home[u].Ready?
  }

  ghost predicate Outcome(k: K, op: Op, r: K) {
    && Inv(r) && r.clock + r.pended == k.clock + k.pended + TicksOf(op)
    && forall u, w :: Sleeps(k, u, w) && u !in Subjects(k, op) ==> Kept(r, u, w)
  }

  lemma SleepsAhead(k: K, u: Tid, w: nat)
    requires Core(k) && Sleeps(k, u, w)
    ensures k.clock < w
  {
    hide At, WellLinked, HomesOk, OrderOk;
  }

  lemma OnlySleeps(k: K, r: K, t: Tid, u: Tid, w: nat)
    requires Inv(k) && Only(k, r, t) && Sleeps(k, u, w)
    requires u == t ==> r.st.home == k.st.home && r.wake == k.wake
    ensures Kept(r, u, w)
  {
    hide CoreAt, NoPending;
    SleepsAhead(k, u, w);
  }

  /** An operation on one task that is not asleep, or that it names as its subject. */
  lemma OnlyOutcome(k: K, op: Op, r: K, t: Tid)
    requires Inv(k) && Inv(r) && Only(k, r, t) && TicksOf(op) == 0
    requires || t in Subjects(k, op) || !(t in k.st.home && Delayed(k.st.home[t]))
             || (r.st.home == k.st.home && r.wake == k.wake)
    ensures Outcome(k, op, r)
  {
    hide Core, NoPending, Only, Subjects, TicksOf;
    assert r.clock + r.pended == k.clock + k.pended by {
      OnlyTime(k, r, t);
    }
    forall u, w | Sleeps(k, u, w) && u !in Subjects(k, op) ensures Kept(r, u, w) {
      OnlySleeps(k, r, t, u, w);
    }
  }

  lemma OnlyTime(k: K, r: K, t: Tid)
    requires Only(k, r, t)
    ensures r.clock == k.clock && r.pended == k.pended && r.suspended == k.suspended
  {
    hide OnlyMaps;
  }

  lemma ElapsedSleeps(k: K, r: K, u: Tid, w: nat)
    requires Elapsed(k, r) && Sleeps(k, u, w)
    ensures Kept(r, u, w)
  {
    if w <= r.clock {
      assert u in DueBy(k, r.clock);
    } else {
      assert u !in DueBy(k, r.clock);
    }
  }

  lemma DrainedSleeps(k: K, r: K, u: Tid, w: nat)
    requires Drained(k, r) && Sleeps(k, u, w) && u !in Members(k.ev, PendingReady)
    ensures Sleeps(r, u, w)
  {
  }

  lemma ResumedSleeps(k: K, d: K, r: K, u: Tid, w: nat)
    requires Resumed(k, d, r) && Sleeps(k, u, w) && u !in Members(k.ev, PendingReady)
    ensures Kept(r, u, w)
  {
    hide Core, Drained, Elapsed, NoPending, Members;
    var e: K :| Elapsed(d, e) && e.clock == k.clock + k.pended && r == e.(pended := 0);
    DrainedSleeps(k.(suspended := 0), d, u, w);
    ElapsedSleeps(d, e, u, w);
  }

  lemma TickOutcome(k: K)
    requires Inv(k)
    ensures Sound(k) && Outcome(k, OpTick, Tick(k))
  {
    hide Core, Sound, NoPending, Elapsed, Subjects, TickCore;
    TickInv(k);
    forall u, w | Sleeps(k, u, w) ensures Kept(Tick(k), u, w) {
      SleepsAhead(k, u, w);
      if k.suspended == 0 {
        TickElapses(k);
        ElapsedSleeps(k, TickCore(k), u, w);
      }
    }
  }

  lemma ResumeSleeps(k: K, u: Tid, w: nat)
    requires Core(k) && k.suspended > 0 && Sleeps(k, u, w) && u !in Members(k.ev, PendingReady)
    ensures Sound(k) && Kept(ResumeAll(k), u, w)
  {
    hide Core, Sound, NoPending, Resumed, Members, Ticks;
    ResumeAllInv(k);
    SleepsAhead(k, u, w);
    if k.suspended == 1 {
      PendedIrrelevant(k, 0, k.pended);
      CoreSound(k.(suspended := 0));
      ResumedSleeps(k, DrainPending(k.(suspended := 0)), ResumeAll(k), u, w);
    }
  }

  lemma ResumeAllOutcome(k: K)
    requires Inv(k) && k.suspended > 0
    ensures Sound(k) && Outcome(k, OpResumeAll, ResumeAll(k))
  {
    hide Core, Sound, NoPending, Resumed, ResumeAll, Members, Sleeps, Kept;
    ResumeAllInv(k);
    forall u, w | Sleeps(k, u, w) && u !in Members(k.ev, PendingReady) ensures Kept(ResumeAll(k), u, w) {
      ResumeSleeps(k, u, w);
    }
  }

  lemma NonePending(k: K)
    requires NoPending(k.ev.home)
    ensures Members(k.ev, PendingReady) == {}
  {
  }

  lemma CatchUpOutcome(k: K, m: nat)
    requires Inv(k) && k.suspended == 0
    ensures Sound(k) && Outcome(k, OpCatchUp(m), CatchUp(k, m))
  {
    hide Core, Sound, NoPending, Resumed, ResumeAll, Members;
    InvSound(k);
    PendedIrrelevant(k, 1, m);
    var k1 := k.(suspended := 1, pended := m);
    ResumeAllInv(k1);
    NonePending(k);
    forall u, w | Sleeps(k, u, w) ensures Kept(CatchUp(k, m), u, w) {
      ResumeSleeps(k1, u, w);
    }
  }

  lemma StepTickOutcome(k: K, jump: nat)
    requires Inv(k) && Enabled(k, OpStepTick(jump))
    ensures k.n >= 1 && StepTickAsserts(k, jump) && Outcome(k, OpStepTick(jump), StepTick(k, jump))
  {
    hide CoreAt, NextAhead, NoPending;
    StepTickInv(k, jump);
    var r := StepTick(k, jump);
    forall u, w | Sleeps(k, u, w) ensures Kept(r, u, w) {
      SleepsAhead(r, u, w);
    }
  }

  /** Blocking, waking, creating and deleting. */
  lemma TaskOutcome(k: K, op: Op, r: K)
    requires Inv(k) && Step(k, op, r)
    requires || op.OpDelay? || op.OpWait? || op.OpSignal? || op.OpRelease? || op.OpAbortDelay? || op.OpCreate?
             || op.OpDelete?
    ensures Outcome(k, op, r)
  {
    hide Inv, Sound, At, Only, Outcome, Delete, Signal, Release, Wait, AddToDelayed, Create;
    match op
    case OpDelay(ticks, indefinitely) => DelayInv(k, ticks, indefinitely); OnlyOutcome(k, op, r, k.current);
    case OpWait(q, place, ticks, indefinitely) =>
      WaitInv(k, q, place, ticks, indefinitely);
      OnlyOutcome(k, op, r, k.current);
    case OpSignal(q) => SignalInv(k, q); OnlyOutcome(k, op, r, At(k.ev, Event(q))[0]);
    case OpRelease(t, v) => ReleaseInv(k, t, v); OnlyOutcome(k, op, r, t);
    case OpAbortDelay(t) => UnblockInv(k, t); OnlyOutcome(k, op, r, t);
    case OpCreate(t, p) => CreateInv(k, t, p); InvKeys(k); OnlyOutcome(k, op, r, t);
    case OpDelete(t) =>
      if t == k.current {
        DeleteSelfInv(k);
      } else {
        DeleteOtherInv(k, t);
      }
      OnlyOutcome(k, op, r, t);
  }

  lemma InvKeys(k: K)
    requires Inv(k)
    ensures k.st.home.Keys == k.prio.Keys
  {
    hide At, WellLinked, TimesOk, OrderOk;
  }

  /** Suspending, resuming, priorities, clean-up and selection. */
  lemma StateOutcome(k: K, op: Op, r: K)
    requires Inv(k) && Step(k, op, r)
    requires op.OpCleanUp? || op.OpSuspend? || op.OpSwitch?
    ensures Outcome(k, op, r)
  {
    hide Inv, Sound, At, Only, Outcome, Suspend, CleanUp, Switch, HighestReady;
    match op
    case OpCleanUp => CleanUpInv(k); DeletedHead(k); OnlyOutcome(k, op, r, At(k.st, Termination)[0]);
    case OpSuspend(t) => SuspendInv(k, t); OnlyOutcome(k, op, r, t);
    case OpSwitch(t) => SwitchInv(k, t); SwitchKeeps(k, t); OnlyOutcome(k, op, r, t);
  }

  /** Operations that leave a sleeping task's lists alone. */
  lemma PriorityOutcome(k: K, op: Op, r: K)
    requires Inv(k) && Step(k, op, r)
    requires op.OpResume? || op.OpResumeFromISR? || op.OpSetPriority? || op.OpPrioritySet?
    ensures Outcome(k, op, r)
  {
    hide Inv, Sound, At, Only, Outcome, SetPriority, PrioritySet;
    match op
    case OpResume(t) => ResumeInv(k, t); OnlyOutcome(k, op, r, t);
    case OpResumeFromISR(t) => ResumeFromISRInv(k, t); OnlyOutcome(k, op, r, t);
    case OpSetPriority(t, p) => SetPriorityInv(k, t, p); OnlyOutcome(k, op, r, t);
    case OpPrioritySet(t, p) => PrioritySetInv(k, t, p); OnlyOutcome(k, op, r, t);
  }

  lemma SwitchKeeps(k: K, t: Tid)
    requires exists q: nat :: q <= k.top && At(k.st, Ready(q)) != []
    ensures Switch(k, t).st == k.st && Switch(k, t).wake == k.wake
  {
    hide At;
  }

  lemma SuspendAllInv(k: K)
    requires Inv(k)
    ensures Inv(k.(suspended := k.suspended + 1))
  {
    hide CoreAt, NextAhead, NoPending;
    PendedIrrelevant(k, k.suspended + 1, k.pended);
  }

  lemma TimeOutcome(k: K, op: Op, r: K)
    requires Inv(k) && Step(k, op, r)
    requires || op.OpTick? || op.OpSuspendAll? || op.OpResumeAll? || op.OpStepTick? || op.OpCatchUp? || op.OpResetNext?
             || op.OpResetItem?
    ensures Outcome(k, op, r)
  {
    hide Inv, Sound, At, Outcome, Tick, ResumeAll, StepTick, CatchUp;
    match op
    case OpTick => TickOutcome(k);
    case OpSuspendAll => SuspendAllInv(k); SuspensionOutcome(k, r);
    case OpResumeAll => ResumeAllOutcome(k);
    case OpStepTick(jump) => StepTickOutcome(k, jump);
    case OpCatchUp(m) => CatchUpOutcome(k, m);
    case OpResetNext => ResetNextInv(k); OnlyOutcome(k, op, r, k.current);
    case OpResetItem => ItemsIrrelevant(k, r.items); OnlyOutcome(k, op, r, k.current);
  }

  lemma SuspensionOutcome(k: K, r: K)
    requires Inv(k) && Inv(r) && r == k.(suspended := k.suspended + 1)
    ensures Outcome(k, OpSuspendAll, r)
  {
    hide CoreAt, NoPending;
    forall u, w | Sleeps(k, u, w) ensures Kept(r, u, w) {
      SleepsAhead(k, u, w);
    }
  }

  /** Every operation keeps the invariant, accounts for its ticks, and leaves sleeping tasks asleep until their time. */
  lemma StepOutcome(k: K, op: Op, r: K)
    requires Inv(k) && Step(k, op, r)
    ensures Outcome(k, op, r)
  {
    hide Inv, Outcome, Step;
    match op
    case OpDelay(_, _) => TaskOutcome(k, op, r);
    case OpWait(_, _, _, _) => TaskOutcome(k, op, r);
    case OpSignal(_) => TaskOutcome(k, op, r);
    case OpRelease(_, _) => TaskOutcome(k, op, r);
    case OpAbortDelay(_) => TaskOutcome(k, op, r);
    case OpCreate(_, _) => TaskOutcome(k, op, r);
    case OpDelete(_) => TaskOutcome(k, op, r);
    case OpCleanUp => StateOutcome(k, op, r);
    case OpSuspend(_) => StateOutcome(k, op, r);
    case OpResume(_) => PriorityOutcome(k, op, r);
    case OpResumeFromISR(_) => PriorityOutcome(k, op, r);
    case OpSetPriority(_, _) => PriorityOutcome(k, op, r);
    case OpPrioritySet(_, _) => PriorityOutcome(k, op, r);
    case OpSwitch(_) => StateOutcome(k, op, r);
    case _ => TimeOutcome(k, op, r);
  }

  // ---------------------------------------------------------------- whole runs

  /** The state in which vTaskStartScheduler leaves a system whose only task is the idle task. */
  function Start(n: nat, idle: Tid, initialTick: nat, limit: nat): (k: K)
    requires n >= 1
  {
    K(Store(map[Ready(0) := [idle]], map[idle := Ready(0)]), Store(map[], map[]), map[idle := 0],
      Items(limit, map[idle := 0], map[idle := limit], {}), map[],
      n, initialTick, 0, n - 1, true, 0, 0, 0, idle, idle, 1, 0, initialTick, map[])
  }

  lemma StartInv(n: nat, idle: Tid, initialTick: nat, limit: nat)
    requires n >= 2 && initialTick < n
    ensures Inv(Start(n, idle, initialTick, limit))
  {
    DivModUnique(initialTick, 0, initialTick, n);
  }

  ghost predicate Started(k: K) {
    exists n: nat, idle: Tid, initialTick: nat, limit: nat ::
      n >= 2 && initialTick < n && limit > 0 && k == Start(n, idle, initialTick, limit)
  }

  ghost predicate Run(s: seq<K>, ops: seq<Op>) {
    && |s| == |ops| + 1 && Started(s[0])
    && forall i :: 0 <= i < |ops| ==> Step(s[i], ops[i], s[i + 1])
  }

  function TicksUpTo(ops: seq<Op>, i: nat): (m: nat)
    requires i <= |ops|
  {
    if i == 0 then 0 else TicksUpTo(ops, i - 1) + TicksOf(ops[i - 1])
  }

  /** Safety over whole runs, and tick conservation under any nesting of suspension. */
  lemma {:induction false} RunKeeps(s: seq<K>, ops: seq<Op>, i: nat)
    requires Run(s, ops) && i < |s|
    ensures Inv(s[i]) && s[i].clock + s[i].pended == s[0].clock + TicksUpTo(ops, i)
    ensures s[i].suspended == 0 ==> s[i].pended == 0
    decreases i
  {
    hide Step, Core, NoPending, Subjects;
    if i == 0 {
      var n: nat, idle: Tid, initialTick: nat, limit: nat :|
        n >= 2 && initialTick < n && limit > 0 && s[0] == Start(n, idle, initialTick, limit);
      StartInv(n, idle, initialTick, limit);
    } else {
      RunKeeps(s, ops, i - 1);
      StepOutcome(s[i - 1], ops[i - 1], s[i]);
    }
  }

  /** No operation in the given range unblocks, suspends or deletes task t. */
  ghost predicate Undisturbed(s: seq<K>, ops: seq<Op>, t: Tid, from: nat, to: nat)
    requires |s| == |ops| + 1 && to <= |ops|
  {
    forall i :: from <= i < to ==> t !in Subjects(s[i], ops[i])
  }

  lemma {:induction false} SleepsThrough(s: seq<K>, ops: seq<Op>, t: Tid, w: nat, i: nat, j: nat)
    requires Run(s, ops) && i <= j < |s| && Sleeps(s[i], t, w) && Undisturbed(s, ops, t, i, j)
    requires forall m :: i <= m < j ==> s[m].clock < w
    ensures Inv(s[j]) && Kept(s[j], t, w)
    decreases j
  {
    hide Step, Core, NoPending, Subjects, Sleeps;
    RunKeeps(s, ops, j);
    if i == j {
      SleepsAhead(s[i], t, w);
    } else {
      SleepsThrough(s, ops, t, w, i, j - 1);
      StepOutcome(s[j - 1], ops[j - 1], s[j]);
    }
  }

  /** The operation blocks the current task for d ticks, d > 0, with or without an event to wait for. */
  predicate BlocksFor(k: K, op: Op, d: nat) {
    match op
    case OpDelay(ticks, indefinitely) => ticks == d && !(indefinitely && d == MaxDelay(k))
    case OpWait(_, _, ticks, indefinitely) => ticks == d && !(indefinitely && d == MaxDelay(k))
    case _ => false
  }

  lemma BlockedSleeps(k: K, op: Op, r: K, d: nat)
    requires Inv(k) && Step(k, op, r) && BlocksFor(k, op, d)
    ensures Sleeps(r, k.current, k.clock + d)
  {
    hide Inv, Sound, WellLinked, EventsFrom, NoPending, OnlyMaps, AddToDelayed, PlaceEvent;
    CurOvf(k);
    match op
    case OpDelay(_, indefinitely) =>
      EventsStay(k, k.current, Suspended);
      BlockInv(k, k.ev, d, indefinitely);
    case OpWait(q, place, _, indefinitely) =>
      WaitEvents(k, q, place);
      var items := if place.Unordered? then Occupy(k.items, k.current, place.v) else k.items;
      ItemsIrrelevant(k, items);
      BlockInv(k.(items := items), PlaceEvent(k, q, place), d, indefinitely);
  }

  /** Exact wake-up across tick overflow: a task that blocks for d ticks at unbounded time T, and is not
      unblocked otherwise, sleeps in every later state before time T + d, and is ready in the first
      state that reaches it. */
  lemma ExactWakeUp(s: seq<K>, ops: seq<Op>, i: nat, j: nat, d: nat)
    requires Run(s, ops) && i < j < |s| && BlocksFor(s[i], ops[i], d)
    requires Undisturbed(s, ops, s[i].current, i + 1, j)
    requires forall m :: i < m < j ==> s[m].clock < s[i].clock + d
    ensures var t := s[i].current;
      if s[j].clock < s[i].clock + d then Sleeps(s[j], t, s[i].clock + d)
      else t in s[j].st.home && s[j].st.home[t].Ready?
  {
    hide Core, NoPending, Subjects, Undisturbed, Step;
    RunKeeps(s, ops, i);
    BlockedSleeps(s[i], ops[i], s[i + 1], d);
    SleepsThrough(s, ops, s[i].current, s[i].clock + d, i + 1, j);
  }

  /** In every run, the task that a context switch selects is the running task then; it is ready, and no ready task has
      a higher priority. */
  lemma SwitchRunsHighest(s: seq<K>, ops: seq<Op>, i: nat, u: Tid)
    requires Run(s, ops) && i < |ops| && ops[i].OpSwitch?
    ensures var k := s[i + 1];
      && k.current == ops[i].t && k.current in k.prio && k.current in k.st.home
      && k.st.home[k.current] == Ready(k.prio[k.current])
      && (u in k.st.home && k.st.home[u].Ready? ==> u in k.prio && k.prio[u] <= k.prio[k.current])
  {
    hide Step, Inv;
    RunKeeps(s, ops, i);
    SwitchStep(s[i], ops[i].t, s[i + 1], u);
  }

  lemma SwitchStep(k: K, t: Tid, r: K, u: Tid)
    requires Inv(k) && Step(k, OpSwitch(t), r)
    ensures r.current == t && t in r.prio && t in r.st.home && r.st.home[t] == Ready(r.prio[t])
    ensures u in r.st.home && r.st.home[u].Ready? ==> u in r.prio && r.prio[u] <= r.prio[t]
  {
    hide Inv, At, Sound, Switch, HighestReady, Only;
    SwitchInv(k, t);
    SelectionIsHighest(k, t, u);
  }

  /** In every reachable state xNextTaskUnblockTime is at most the earliest wake-up in the current delayed
      list, and that list is empty when the next tick wraps the count. */
  lemma NextNeverLate(s: seq<K>, ops: seq<Op>, i: nat)
    requires Run(s, ops) && i < |s|
    ensures s[i].n >= 2 && ((s[i].tick + 1) % s[i].n == 0 ==> At(s[i].st, Cur(s[i])) == [])
    ensures forall t :: t in At(s[i].st, Cur(s[i])) ==> s[i].next <= Val(s[i].value, t)
  {
    hide Run;
    RunKeeps(s, ops, i);
    hide HomesOk, TimesOk, WellLinked, At;
    if (s[i].tick + 1) % s[i].n == 0 {
      EmptyAtSwitch(s[i]);
    }
  }

  // ---------------------------------------------------------------- the state partition

  /** The ready lists up to a priority. */
  function ReadyIds(top: nat): (ids: seq<ListId>)
    ensures |ids| == top + 1 && forall i :: 0 <= i <= top ==> ids[i] == Ready(i)
  {
    (if top == 0 then [] else ReadyIds(top - 1)) + [Ready(top)]
  }

  /** All the lists a state item can be in. */
  function StateIds(top: nat): (ids: seq<ListId>) {
    [DelayedA, DelayedB, Suspended, Termination] + ReadyIds(top)
  }

  lemma StateIdsAt(top: nat)
    ensures var ids := StateIds(top);
      && |ids| == top + 5 && ids[0] == DelayedA && ids[1] == DelayedB && ids[2] == Suspended && ids[3] == Termination
      && (forall i :: 4 <= i < top + 5 ==> ids[i] == Ready(i - 4))
  {
    assert forall i :: 4 <= i < top + 5 ==> StateIds(top)[i] == ReadyIds(top)[i - 4];
  }

  lemma StateIdsDistinct(top: nat)
    ensures var ids := StateIds(top); forall i, j :: 0 <= i < j < |ids| ==> ids[i] != ids[j]
  {
    hide StateIds;
    StateIdsAt(top);
  }

  /** Every list the invariant allows is among them. */
  lemma StateIdsComplete(top: nat, l: ListId)
    requires StateList(l) && (l.Ready? ==> l.p <= top)
    ensures l in StateIds(top)
  {
    hide StateIds;
    StateIdsAt(top);
    assert l.Ready? ==> StateIds(top)[l.p + 4] == l;
  }

  lemma CountIsSum(k: K)
    requires Inv(k)
    ensures k.count == SumLengths(k.st, StateIds(k.top)) && k.deleted == |At(k.st, Termination)|
  {
    hide At, TimesOk, OrderOk, WellLinked, StateIds;
    StateIdsDistinct(k.top);
    LengthsCountItems(k.st, StateIds(k.top));
    forall t | t in k.st.home ensures k.st.home[t] in StateIds(k.top) {
      StateIdsComplete(k.top, k.st.home[t]);
    }
    assert Inside(k.st, StateIds(k.top)) == k.st.home.Keys;
  }

  /** In every reachable state each task's state item is in exactly one state list, a ready task in the list of
      its priority; its event item is in at most one list; and the two counters are exact. */
  lemma StatePartition(s: seq<K>, ops: seq<Op>, i: nat, t: Tid)
    requires Run(s, ops) && i < |s|
    ensures t in s[i].prio <==> exists l :: StateList(l) && t in At(s[i].st, l)
    ensures AtMostOnce(s[i].st, t) && AtMostOnce(s[i].ev, t)
    ensures forall l: ListId :: t in At(s[i].st, l) && l.Ready? ==> t in s[i].prio && l.p == s[i].prio[t]
    ensures forall l :: t in At(s[i].ev, l) ==> EventList(l) && t in s[i].prio
    ensures s[i].count == SumLengths(s[i].st, StateIds(s[i].top)) && s[i].deleted == |At(s[i].st, Termination)|
  {
    hide Run, Inv, SumLengths, StateIds, At, AtMostOnce;
    RunKeeps(s, ops, i);
    CountIsSum(s[i]);
    Placed(s[i], t);
  }

  lemma Placed(k: K, t: Tid)
    requires Inv(k)
    ensures t in k.prio <==> exists l :: StateList(l) && t in At(k.st, l)
    ensures AtMostOnce(k.st, t) && AtMostOnce(k.ev, t)
    ensures forall l: ListId :: t in At(k.st, l) && l.Ready? ==> t in k.prio && l.p == k.prio[t]
    ensures forall l :: t in At(k.ev, l) ==> EventList(l) && t in k.prio
  {
    hide At, WellLinked, TimesOk, OrderOk, AtMostOnce;
    LinkedAtMostOnce(k.st, t);
    LinkedAtMostOnce(k.ev, t);
    forall l ensures t in At(k.st, l) <==> t in k.st.home && k.st.home[t] == l {
      LinkedAt(k.st, l);
    }
    forall l ensures t in At(k.ev, l) <==> t in k.ev.home && k.ev.home[t] == l {
      LinkedAt(k.ev, l);
    }
    if t in k.prio {
      assert t in At(k.st, k.st.home[t]);
    }
  }

  /** vTaskStepTick's assertions accept a jump past the wrap, which loses an epoch. */
  lemma StepTickAcceptsALostEpoch() returns (k: K, jump: nat)
    ensures Inv(k) && jump < k.n && StepTickAsserts(k, jump) && !Inv(StepTick(k, jump))
  {
    k, jump := Start(8, 0, 6, 5), 3;
    StartInv(8, 0, 6, 5);
    StepTickCorrectExactlyWhen(k, jump);
  }
}
