/** The parts of tasks.c that loop or branch over the scheduler's variables, as code on those variables.
    Each method is shown to do what the corresponding function of Kernel or KernelOps does. */
module Schedulers {
  import opened WrapArithmetic
  import opened TaskLists
  import opened Kernel
  import opened KernelOps
  import opened KernelRuns

  class Scheduler {
    var st: Store
    var ev: Store
    var prio: map<Tid, nat>
    var items: Items
    var value: map<Tid, nat>
    const n: nat
    var tick: nat
    var overflows: nat
    var next: nat
    var aIsCurrent: bool
    var suspended: nat
    var pended: nat
    var top: nat
    var current: Tid
    var idle: Tid
    var count: nat
    var deleted: nat
    ghost var clock: nat
    ghost var wake: map<Tid, nat>

    ghost function State(): (k: K)
      reads this
    {
      K(st, ev, prio, items, value, n, tick, overflows, next, aIsCurrent, suspended, pended, top, current, idle,
        count, deleted, clock, wake)
    }

    function CurrentList(): (l: ListId)
      reads this
      ensures l == Cur(State())
    {
      if aIsCurrent then DelayedA else DelayedB
    }

    /** prvAddTaskToReadyList, for a task whose items have just left their lists. */
    method AddTaskToReadyList(t: Tid)
      requires t in prio
      modifies this
      ensures var k := old(State());
        State() == k.(st := PushBack(k.st, Ready(k.prio[t]), t), top := Max(k.top, k.prio[t]))
    {
      if prio[t] > top {
        top := prio[t];
      }
      st := PushBack(st, Ready(prio[t]), t);
    }

    method ResetNextTaskUnblockTime()
      requires n >= 1
      modifies this
      ensures State() == ResetNext(old(State()))
      ensures old(CoreAt(State(), clock)) ==>
        Core(State()) && NextExact(State())
    {
      ghost var k := State();
      if At(st, CurrentList()) == [] {
        next := n - 1;
      } else {
        next := Val(value, At(st, CurrentList())[0]);
      }
      if CoreAt(k, k.clock) {
        ResetNextEarliest(k);
      }
    }

    method UnblockTask(t: Tid)
      requires t in prio
      modifies this
      ensures State() == Unblock(old(State()), t)
    {
      st := Remove(st, t);
      if t in ev.home {
        ev := Remove(ev, t);
      }
      AddTaskToReadyList(t);
    }

    /** The loop that moves expired tasks to the ready lists. */
    method WakeExpiredTasks()
      requires Sound(State())
      modifies this
      ensures State() == WakeExpired(old(State()))
    {
      hide WellLinked, Move, Remove;
      while true
        invariant Sound(State()) && WakeExpired(State()) == WakeExpired(old(State()))
        decreases |At(st, Cur(State()))|
      {
        ghost var k := State();
        if At(st, CurrentList()) == [] {
          next := n - 1;
          return;
        }
        var t := At(st, CurrentList())[0];
        if tick < Val(value, t) {
          next := Val(value, t);
          return;
        }
        CurrentHead(k);
        UnblockSound(k, t);
        UnblockTask(t);
      }
    }

    /** taskSWITCH_DELAYED_LISTS. */
    method SwitchDelayedLists()
      requires n >= 1
      modifies this
      ensures var k := old(State()); State() == ResetNext(k.(aIsCurrent := !k.aIsCurrent, overflows := k.overflows + 1))
    {
      hide ResetNext, CoreAt, Core, NextExact, At;
      aIsCurrent, overflows := !aIsCurrent, overflows + 1;
      ResetNextTaskUnblockTime();
    }

    /** The tick count moves on, switching the delayed lists when it wraps. */
    method AdvanceTick()
      requires n >= 1
      modifies this
      ensures State() == Advance(old(State()))
    {
      hide ResetNext;
      tick, clock := (tick + 1) % n, clock + 1;
      if tick == 0 {
        SwitchDelayedLists();
      }
    }

    method IncrementTick()
      requires Sound(State())
      modifies this
      ensures State() == Tick(old(State()))
    {
      hide WellLinked, Advance, WakeExpired;
      AdvanceIgnoresPended(State(), pended);
      if suspended == 0 {
        AdvanceTick();
        if tick >= next {
          WakeExpiredTasks();
        }
      } else {
        pended := pended + 1;
      }
    }

    /** The loop that empties xPendingReadyList; reports whether it moved anything. */
    method MovePendingTasks() returns (moved: bool)
      requires Sound(State())
      modifies this
      ensures State() == Drain(old(State())) && moved == (At(old(ev), PendingReady) != [])
    {
      hide WellLinked, Unblock;
      moved := false;
      while At(ev, PendingReady) != []
        invariant Sound(State()) && Drain(State()) == Drain(old(State()))
        invariant moved || State() == old(State())
        invariant moved ==> At(old(ev), PendingReady) != []
        decreases |At(ev, PendingReady)|
      {
        ghost var k := State();
        var t := At(ev, PendingReady)[0];
        PendingMember(k);
        UnblockSound(k, t);
        UnblockTask(t);
        moved := true;
      }
    }

    /** The loop that processes the ticks that arrived while the scheduler was suspended. */
    method ProcessPendedTicks()
      requires Sound(State()) && suspended == 0
      modifies this
      ensures State() == Ticks(old(State()), old(pended)).(pended := 0)
    {
      ghost var k := State();
      var remaining := pended;
      while remaining > 0
        invariant Sound(State()) && suspended == 0
        invariant Ticks(State(), remaining) == Ticks(k, k.pended)
      {
        SuspendedKept(State());
        IncrementTick();
        remaining := remaining - 1;
      }
      pended := 0;
    }

    /** Pending tasks become ready, and the cached unblock time is reset if there were any. */
    method ReadyPendingTasks()
      requires Sound(State())
      modifies this
      ensures State() == DrainPending(old(State()))
    {
      hide WellLinked, Unblock;
      var moved := MovePendingTasks();
      if moved {
        ResetNextTaskUnblockTime();
      }
    }

    /** xTaskResumeAll. */
    method ResumeScheduler()
      requires Sound(State()) && suspended > 0
      modifies this
      ensures State() == ResumeAll(old(State()))
    {
      hide WellLinked, DrainPending, Ticks;
      ghost var k := State();
      suspended := suspended - 1;
      SoundIgnoresTime(k, k.tick, k.clock, suspended, k.pended);
      if suspended == 0 && count > 0 {
        DrainKeeps(State());
        ReadyPendingTasks();
        ProcessPendedTicks();
      }
    }

    /** The task's state item gets its wake time and enters a delayed list. */
    method EnterDelayedList(t: Tid, l: ListId, time: nat, ghost due: nat)
      modifies this
      ensures var k := old(State());
        State() == k.(value := k.value[t := time], wake := k.wake[t := due],
                      st := Insert(Remove(k.st, t), l, t, k.value[t := time]))
    {
      hide Remove, Insert;
      value, wake := value[t := time], wake[t := due];
      st := Insert(Remove(st, t), l, t, value);
    }

    /** prvAddCurrentTaskToDelayedList: in a sound state the current task then sleeps until its time, or is
        suspended. */
    method AddCurrentTaskToDelayedList(ticks: nat, indefinitely: bool)
      requires n >= 1
      modifies this
      ensures State() == AddToDelayed(old(State()), ticks, indefinitely)
      ensures old(Inv(State()) && CanBlock(State())) && 0 < ticks < n ==>
        && Inv(State())
        && (ticks == n - 1 && indefinitely ==> st.home == old(st).home[current := Suspended] && next == old(next))
        && (!(ticks == n - 1 && indefinitely) ==>
              && Sleeps(State(), current, clock + ticks)
              && next == if tick + ticks < old(next) then tick + ticks else old(next))
    {
      hide AddToDelayed, Inv, Sleeps;
      ghost var k := State();
      ChooseDelayedList(ticks, indefinitely);
      if Inv(k) && CanBlock(k) && 0 < ticks < n {
        DelayOutcome(k, ticks, indefinitely);
      }
    }

    method ChooseDelayedList(ticks: nat, indefinitely: bool)
      requires n >= 1
      modifies this
      ensures State() == AddToDelayed(old(State()), ticks, indefinitely) && current == old(current)
      ensures clock == old(clock) && tick == old(tick)
    {
      hide Remove, Insert, PushBack;
      if ticks == n - 1 && indefinitely {
        st := PushBack(Remove(st, current), Suspended, current);
      } else {
        var time := (tick + ticks) % n;
        if time < tick {
          EnterDelayedList(current, if aIsCurrent then DelayedB else DelayedA, time, clock + ticks);
        } else {
          EnterDelayedList(current, CurrentList(), time, clock + ticks);
          if time < next {
            next := time;
          }
        }
      }
    }

    /** prvCheckTasksWaitingTermination, run by the idle task: every deleted task goes, and nobody else. */
    method CheckTasksWaitingTermination()
      requires Inv(State()) && current == idle
      modifies this
      ensures Inv(State()) && current == idle && deleted == 0 && At(st, Termination) == []
      ensures st.home == old(st).home - Members(old(st), Termination)
      ensures count == old(count) - old(deleted)
    {
      hide Inv, At, CleanUp, Members;
      ghost var k := State();
      while deleted > 0
        invariant Inv(State()) && current == idle && Cleaned(k.st.home, st.home)
        invariant count - deleted == k.count - k.deleted
        decreases deleted
      {
        ghost var before := State();
        CleanUpInv(before);
        CleanUpOne();
        CleanUpCounts(before);
        CleanedMore(k.st.home, before.st.home, At(before.st, Termination)[0]);
      }
      NoneLeft(State());
      CleanedAll(k.st, st.home);
    }

    /** prvDeleteTCB. */
    method FreeTask(t: Tid)
      modifies this
      ensures State() == Forget(old(State()), t)
    {
      prio, items, value, wake := prio - {t}, Gone(items, t), value - {t}, wake - {t};
    }

    /** One round of it. */
    method CleanUpOne()
      requires deleted > 0 && At(st, Termination) != [] && count >= 1
      modifies this
      ensures State() == CleanUp(old(State()))
    {
      hide Remove, At, Forget;
      var t := At(st, Termination)[0];
      st, count, deleted := Remove(st, t), count - 1, deleted - 1;
      FreeTask(t);
    }

    /** vTaskStepTick. */
    method StepTickCount(jump: nat)
      requires n >= 1 && StepTickAsserts(State(), jump)
      modifies this
      ensures State() == StepTick(old(State()), jump)
      ensures old(Inv(State())) && jump < n ==> (Inv(State()) <==> jump <= old(next) - old(tick))
      ensures clock + pended == old(clock) + old(pended) + jump
    {
      hide Inv;
      ghost var k := State();
      if Inv(k) && jump < n {
        StepTickCorrectExactlyWhen(k, jump);
      }
      var ticks := jump;
      if (tick + jump) % n == next {
        pended := pended + 1;
        ticks := ticks - 1;
      }
      tick, clock := (tick + ticks) % n, clock + ticks;
    }

    /** xTaskRemoveFromEventList; the caller has checked that the list is not empty. */
    method RemoveFromEventList(q: nat)
      requires Sound(State()) && At(ev, Event(q)) != []
      modifies this
      ensures State() == Signal(old(State()), q)
      ensures old(Inv(State())) ==>
        Inv(State()) && ReadyOrPending(old(State()), State(), At(old(ev), Event(q))[0])
    {
      hide WellLinked, Unblock, Move, Inv, ReadyOrPending;
      if Inv(State()) {
        SignalInv(State(), q);
      }
      var t := At(ev, Event(q))[0];
      SignalledTask(State(), q);
      if suspended == 0 {
        UnblockTask(t);
        ResetNextTaskUnblockTime();
      } else {
        ev := Move(ev, t, PendingReady);
      }
    }

    /** vTaskDelete: in a sound state the task is on the termination list if it runs, and gone from all lists if not. */
    method DeleteTask(t: Tid)
      requires n >= 1 && count >= 1
      modifies this
      ensures State() == Delete(old(State()), t)
      ensures old(Inv(State()) && CanDelete(State(), t)) ==>
        && Inv(State()) && ev.home == old(ev).home - {t}
        && st.home == if t == old(current) then old(st).home[t := Termination] else old(st).home - {t}
    {
      hide Delete, Inv;
      ghost var k := State();
      Terminate(t);
      if Inv(k) && CanDelete(k, t) {
        DeleteOutcome(k, t);
      }
    }

    /** A task that does not run leaves its lists and the count. */
    method Unlist(t: Tid)
      requires count >= 1
      modifies this
      ensures var k := old(State());
        State() == k.(st := Remove(k.st, t), ev := Remove(k.ev, t), count := k.count - 1) && current == old(current)
    {
      hide Remove;
      st, ev, count := Remove(st, t), Remove(ev, t), count - 1;
    }

    method Terminate(t: Tid)
      requires n >= 1 && count >= 1
      modifies this
      ensures State() == Delete(old(State()), t)
    {
      hide Remove, PushBack, Forget, ResetNext;
      if t == current {
        st, ev, deleted := PushBack(Remove(st, t), Termination, t), Remove(ev, t), deleted + 1;
      } else {
        Unlist(t);
        FreeTask(t);
        ResetNextTaskUnblockTime();
      }
    }

    /** taskSELECT_HIGHEST_PRIORITY_TASK: the search from uxTopReadyPriority. */
    method SearchReadyLists() returns (p: nat)
      requires Inv(State())
      modifies this
      ensures p == top && State() == old(State()).(top := p)
      ensures At(st, Ready(p)) != [] && forall q: nat :: At(st, Ready(q)) != [] ==> q <= p
      ensures forall t :: t in At(st, Ready(p)) ==> Inv(State().(current := t))
    {
      hide Core, NoPending;
      ghost var k := State();
      CanSelect(k);
      TopBoundsReady(k);
      p := top;
      while At(st, Ready(p)) == []
        invariant p <= k.top
        invariant forall q: nat :: At(k.st, Ready(q)) != [] ==> q <= p
        invariant HighestReady(k, p) == HighestReady(k, k.top)
        decreases p
      {
        assert p > 0;
        p := p - 1;
      }
      top := p;
      assert p == HighestReady(k, k.top);
      SelectedInv(k, p);
    }
  }

  lemma SelectedInv(k: K, p: nat)
    requires Inv(k)
    requires exists q: nat :: q <= k.top && At(k.st, Ready(q)) != []
    requires p == HighestReady(k, k.top)
    ensures forall t :: t in At(k.st, Ready(p)) ==> Inv(k.(top := p, current := t))
  {
    hide Core, NoPending, At;
    forall t | t in At(k.st, Ready(p)) ensures Inv(k.(top := p, current := t)) {
      SwitchInv(k, t);
    }
  }

  lemma {:induction false} WakeKeeps(k: K)
    requires Sound(k)
    ensures WakeExpired(k).suspended == k.suspended
    decreases |At(k.st, Cur(k))|
  {
    var q := At(k.st, Cur(k));
    if q != [] && k.tick >= Val(k.value, q[0]) {
      assert q[0] in q;
      UnblockSound(k, q[0]);
      WakeKeeps(Unblock(k, q[0]));
    }
  }

  lemma SuspendedKept(k: K)
    requires Sound(k) && k.suspended == 0
    ensures Sound(TickCore(k)) && TickCore(k).suspended == 0
  {
    hide WellLinked, WakeExpired;
    AdvanceIgnoresPended(k, k.pended);
    WakeKeeps(Advance(k));
  }

  lemma {:induction false} DrainKeeps(k: K)
    requires Sound(k)
    ensures DrainPending(k).suspended == k.suspended && DrainPending(k).pended == k.pended
    decreases |At(k.ev, PendingReady)|
  {
    var q := At(k.ev, PendingReady);
    if q != [] {
      assert q[0] in q;
      UnblockSound(k, q[0]);
      DrainKeeps(Unblock(k, q[0]));
    }
  }

  lemma NoneLeft(k: K)
    requires Inv(k) && k.deleted == 0
    ensures At(k.st, Termination) == [] && forall t :: t in k.st.home ==> k.st.home[t] != Termination
  {
    hide TimesOk, OrderOk, HomesOk;
    LinkedAt(k.st, Termination);
  }

  /** Only tasks in the termination list have gone. */
  ghost predicate Cleaned(state: map<Tid, ListId>, left: map<Tid, ListId>) {
    && (forall t :: t in left ==> t in state && left[t] == state[t])
    && (forall t :: t in state && state[t] != Termination ==> t in left)
  }

  lemma CleanedMore(state: map<Tid, ListId>, left: map<Tid, ListId>, t: Tid)
    requires Cleaned(state, left) && t in left && left[t] == Termination
    ensures Cleaned(state, left - {t})
  {
  }

  lemma CleanedAll(s: Store, left: map<Tid, ListId>)
    requires Cleaned(s.home, left) && forall t :: t in left ==> left[t] != Termination
    ensures left == s.home - Members(s, Termination)
  {
  }

  lemma CleanUpCounts(k: K)
    requires Inv(k) && k.current == k.idle && k.deleted > 0
    ensures At(k.st, Termination) != [] && k.count >= 1
    ensures CleanUp(k).count == k.count - 1 && CleanUp(k).deleted == k.deleted - 1 && CleanUp(k).idle == k.idle
    ensures var t := At(k.st, Termination)[0]; t in k.st.home && k.st.home[t] == Termination
  {
    hide Inv, Remove, At;
    CleanUpInv(k);
    DeletedHead(k);
  }

  lemma SignalledTask(k: K, q: nat)
    requires Sound(k) && At(k.ev, Event(q)) != []
    ensures At(k.ev, Event(q))[0] in k.prio
  {
    LinkedAt(k.ev, Event(q));
    assert At(k.ev, Event(q))[0] in At(k.ev, Event(q));
  }

  lemma PendingMember(k: K)
    requires Sound(k) && At(k.ev, PendingReady) != []
    ensures var t := At(k.ev, PendingReady)[0]; t in k.prio && t in k.ev.home && k.ev.home[t] == PendingReady
  {
    LinkedAt(k.ev, PendingReady);
    assert At(k.ev, PendingReady)[0] in At(k.ev, PendingReady);
  }

  lemma ResetNextEarliest(k: K)
    requires CoreAt(k, k.clock)
    ensures Core(ResetNext(k)) && NextExact(ResetNext(k))
  {
    hide CoreAt, Core, NextExact;
    ResetNextNow(k);
    ResetNextExact(k, k.clock);
  }

  lemma DelayOutcome(k: K, ticks: nat, indefinitely: bool)
    requires Inv(k) && CanBlock(k) && 0 < ticks < k.n
    ensures var r := AddToDelayed(k, ticks, indefinitely);
      && Inv(r)
      && (ticks == k.n - 1 && indefinitely ==> r.st.home == k.st.home[k.current := Suspended] && r.next == k.next)
      && (!(ticks == k.n - 1 && indefinitely) ==>
            && Sleeps(r, k.current, k.clock + ticks)
            && r.next == if k.tick + ticks < k.next then k.tick + ticks else k.next)
  {
    hide Inv, WellLinked, EventsFrom, NoPending, OnlyMaps, AddToDelayed;
    EventsStay(k, k.current, Suspended);
    BlockInv(k, k.ev, ticks, indefinitely);
    CurOvf(k);
    DelayNext(k, ticks, indefinitely);
  }

  lemma DelayNext(k: K, ticks: nat, indefinitely: bool)
    requires Inv(k) && 0 < ticks < k.n
    ensures AddToDelayed(k, ticks, indefinitely).next ==
            if !(ticks == MaxDelay(k) && indefinitely) && k.tick + ticks < k.next then k.tick + ticks else k.next
  {
    hide Core, Insert, Remove, Move;
    CoreTick(k);
    if k.tick + ticks < k.n {
      SmallMod(k.tick + ticks, k.n);
    } else {
      DivModUnique(k.tick + ticks, 1, k.tick + ticks - k.n, k.n);
    }
  }

  lemma DeleteOutcome(k: K, t: Tid)
    requires Inv(k) && CanDelete(k, t)
    ensures k.n >= 1 && k.count >= 1 && Inv(Delete(k, t)) && Delete(k, t).ev.home == k.ev.home - {t}
    ensures Delete(k, t).st.home == if t == k.current then k.st.home[t := Termination] else k.st.home - {t}
  {
    hide Inv, Delete;
    if t == k.current {
      DeleteSelfInv(k);
    } else {
      DeleteOtherInv(k, t);
    }
  }
}
