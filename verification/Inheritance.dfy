/** Mutexes and priority inheritance: the inheritance functions of tasks.c together with the mutex
    branches of xQueueSemaphoreTake, xQueueGenericSend and prvCopyDataToQueue.

    A task blocks with the scheduler suspended and the queue locked, so inheriting and entering the
    waiting list are one step.  A waiter may leave the list at any time: woken, timed out or suspended.
 */
module Inheritance {

  type Tid = nat
  type Mid = nat

  /** The fields of a TCB that matter here; `item` is the priority its event item encodes, unless the item is in use by
      an event group. */
  datatype Tcb = Tcb(prio: nat, base: nat, held: nat, item: nat, inUse: bool)

  datatype Holder = Nobody | Task(t: Tid)

  datatype Mutex = Mutex(count: nat, holder: Holder, waiters: seq<Tid>)

  datatype System = System(tasks: map<Tid, Tcb>, mutexes: map<Mid, Mutex>)

  // ---------------------------------------------------------------- the functions of tasks.c

  /** A new priority, stored in the event item too unless that is in use. */
  function Use(t: Tcb, p: nat): (r: Tcb) { t.(prio := p, item := if t.inUse then t.item else p) }

  /** xTaskPriorityInherit, for a caller of priority p. */
  function Inherit(h: Tcb, p: nat): (r: Tcb) {
    if h.prio < p then Use(h, p) else h
  }

  /** xTaskPriorityDisinherit. */
  function Disinherit(t: Tcb): (r: Tcb)
    requires t.held > 0
  {
    var t1 := t.(held := t.held - 1);
    if t1.prio != t1.base && t1.held == 0 then t1.(prio := t1.base, item := t1.base, inUse := false) else t1
  }

  /** vTaskPriorityDisinheritAfterTimeout. */
  function DisinheritAfterTimeout(h: Tcb, highest: nat): (r: Tcb) {
    var use := if h.base < highest then highest else h.base;
    if h.prio != use && h.held == 1 then Use(h, use) else h
  }

  /** vTaskPrioritySet. */
  function PrioritySet(t: Tcb, p: nat): (r: Tcb) {
    if t.base == p then t
    else
      var t1 := if t.base == t.prio || p > t.prio then t.(prio := p) else t;
      t1.(base := p, item := if t.inUse then t.item else p)
  }

  /** Where vListInsert puts a task: waiting lists run from the highest priority item down, first come first. */
  function Enqueue(q: seq<Tid>, t: Tid, tasks: map<Tid, Tcb>): (r: seq<Tid>)
    requires t in tasks
  {
    if q == [] then [t]
    else if q[0] in tasks && tasks[q[0]].item < tasks[t].item then [t] + q
    else [q[0]] + Enqueue(q[1..], t, tasks)
  }

  function Dequeue(q: seq<Tid>, t: Tid): (r: seq<Tid>) {
    if q == [] then [] else if q[0] == t then q[1..] else [q[0]] + Dequeue(q[1..], t)
  }

  /** prvGetHighestPriorityOfWaitToReceiveList. */
  function HighestWaiting(q: seq<Tid>, tasks: map<Tid, Tcb>): (p: nat) {
    if q == [] || q[0] !in tasks then 0 else tasks[q[0]].item
  }

  /** A TCB, updated in place as tasks.c does. */
  class TaskControlBlock {
    var prio: nat
    var base: nat
    var held: nat
    var item: nat
    var inUse: bool

    ghost function State(): (c: Tcb)
      reads this
    {
      Tcb(prio, base, held, item, inUse)
    }

    /** xTaskPriorityInherit on the holder; reports whether the caller's priority is above the holder's own. */
    method PriorityInherit(caller: nat) returns (occurred: bool)
      requires TcbOk(State())
      modifies this
      ensures State() == Inherit(old(State()), caller)
      ensures prio == if old(prio) < caller then caller else old(prio)
      ensures base == old(base) && held == old(held) && inUse == old(inUse)
      ensures item == if old(prio) < caller && !inUse then prio else old(item)
      ensures occurred <==> base < caller
    {
      occurred := false;
      if prio < caller {
        if !inUse {
          item := caller;
        }
        prio := caller;
        occurred := true;
      } else if base < caller {
        occurred := true;
      }
    }

    /** xTaskPriorityDisinherit; reports whether the priority dropped. */
    method PriorityDisinherit() returns (dropped: bool)
      requires TcbOk(State()) && held > 0
      modifies this
      ensures State() == Disinherit(old(State())) && TcbOk(State())
      ensures held == old(held) - 1 && base == old(base) && prio == if held == 0 then base else old(prio)
      ensures prio != old(prio) ==> item == prio && !inUse
      ensures prio == old(prio) ==> item == old(item) && inUse == old(inUse)
      ensures dropped <==> prio < old(prio)
    {
      dropped := false;
      held := held - 1;
      if prio != base {
        if held == 0 {
          prio := base;
          item, inUse := prio, false;
          dropped := true;
        }
      }
    }

    /** vTaskPriorityDisinheritAfterTimeout. */
    method PriorityDisinheritAfterTimeout(highest: nat)
      requires TcbOk(State()) && held > 0
      modifies this
      ensures State() == DisinheritAfterTimeout(old(State()), highest) && TcbOk(State())
      ensures held == 1 ==> prio == if base < highest then highest else base
      ensures held != 1 ==> prio == old(prio)
      ensures base == old(base) && held == old(held) && inUse == old(inUse)
      ensures item == if prio != old(prio) && !inUse then prio else old(item)
    {
      var use := base;
      if base < highest {
        use := highest;
      }
      if prio != use && held == 1 {
        prio := use;
        if !inUse {
          item := use;
        }
      }
    }

    /** vTaskPrioritySet. */
    method SetBasePriority(p: nat)
      requires TcbOk(State())
      modifies this
      ensures State() == PrioritySet(old(State()), p) && TcbOk(State()) && base == p
      ensures prio == if old(prio) == old(base) || p > old(prio) then p else old(prio)
      ensures held == old(held) && inUse == old(inUse)
      ensures item == if p == old(base) || inUse then old(item) else p
    {
      if base != p {
        if base == prio || p > prio {
          prio := p;
        }
        base := p;
        if !inUse {
          item := p;
        }
      }
    }
  }

  // ---------------------------------------------------------------- steps

  datatype Step =
    | Take(t: Tid, m: Mid)                       // count was above 0
    | Block(t: Tid, m: Mid)                      // count was 0: inherit and wait
    | Leave(t: Tid, m: Mid)                      // a waiter leaves the list
    | Expire(t: Tid, m: Mid)                     // its call returns after a time-out
    | Give(t: Tid, m: Mid)
    | SetPriority(t: Tid, p: nat)
    | UseItem(t: Tid, v: nat)                    // the task waits in an event group
    | ResetItem(t: Tid)                          // uxTaskResetEventItemValue

  predicate Waiting(s: System, t: Tid) {
    exists m :: m in s.mutexes && t in s.mutexes[m].waiters
  }

  /** Callers are running, so they are not waiting; only holders give. */
  ghost predicate Enabled(s: System, a: Step) {
    match a
    case Take(t, m) => t in s.tasks && m in s.mutexes && s.mutexes[m].count > 0 && !Waiting(s, t)
    case Block(t, m) =>
      t in s.tasks && m in s.mutexes && s.mutexes[m].count == 0 && !Waiting(s, t) && !s.tasks[t].inUse
    case Leave(t, m) => m in s.mutexes && t in s.mutexes[m].waiters
    case Expire(t, m) => t in s.tasks && m in s.mutexes && !Waiting(s, t)
    case Give(t, m) => t in s.tasks && m in s.mutexes && s.mutexes[m].holder == Task(t) && !Waiting(s, t)
    case SetPriority(t, _) => t in s.tasks
    case UseItem(t, _) => t in s.tasks && !Waiting(s, t)
    case ResetItem(t) => t in s.tasks && !Waiting(s, t)
  }

  function UpdateTask(s: System, t: Tid, c: Tcb): (r: System) { s.(tasks := s.tasks[t := c]) }

  function UpdateMutex(s: System, m: Mid, x: Mutex): (r: System) { s.(mutexes := s.mutexes[m := x]) }

  function ApplyTake(s: System, t: Tid, m: Mid): (r: System)
    requires t in s.tasks && m in s.mutexes && s.mutexes[m].count > 0
  {
    var x := s.mutexes[m];
    var s1 := UpdateTask(s, t, s.tasks[t].(held := s.tasks[t].held + 1));
    UpdateMutex(s1, m, x.(count := x.count - 1, holder := Task(t)))
  }

  /** The holder of m, when it has one and that task exists. */
  predicate HasHolder(s: System, m: Mid) {
    m in s.mutexes && s.mutexes[m].holder.Task? && s.mutexes[m].holder.t in s.tasks
  }

  function HolderOf(s: System, m: Mid): (h: Tid)
    requires HasHolder(s, m)
  {
    s.mutexes[m].holder.t
  }

  function ApplyBlock(s: System, t: Tid, m: Mid): (r: System)
    requires t in s.tasks && m in s.mutexes
  {
    var s1 :=
      if HasHolder(s, m) then UpdateTask(s, HolderOf(s, m), Inherit(s.tasks[HolderOf(s, m)], s.tasks[t].prio)) else s;
    var x := s.mutexes[m];
    UpdateMutex(s1, m, x.(waiters := Enqueue(x.waiters, t, s1.tasks)))
  }

  function ApplyExpire(s: System, m: Mid): (r: System)
    requires m in s.mutexes
  {
    if HasHolder(s, m)
    then UpdateTask(s, HolderOf(s, m),
                    DisinheritAfterTimeout(s.tasks[HolderOf(s, m)], HighestWaiting(s.mutexes[m].waiters, s.tasks)))
    else s
  }

  function ApplyGive(s: System, t: Tid, m: Mid): (r: System)
    requires t in s.tasks && m in s.mutexes && s.tasks[t].held > 0
  {
    var x := s.mutexes[m];
    UpdateMutex(UpdateTask(s, t, Disinherit(s.tasks[t])), m, x.(count := x.count + 1, holder := Nobody))
  }

  ghost predicate Next(s: System, a: Step, r: System) {
    && Enabled(s, a)
    && match a
       case Take(t, m) => r == ApplyTake(s, t, m)
       case Block(t, m) => r == ApplyBlock(s, t, m)
       case Leave(t, m) => r == UpdateMutex(s, m, s.mutexes[m].(waiters := Dequeue(s.mutexes[m].waiters, t)))
       case Expire(_, m) => r == ApplyExpire(s, m)
       case Give(t, m) => s.tasks[t].held > 0 && r == ApplyGive(s, t, m)   // configASSERT( pxTCB->uxMutexesHeld )
       case SetPriority(t, p) => r == UpdateTask(s, t, PrioritySet(s.tasks[t], p))
       case UseItem(t, v) => r == UpdateTask(s, t, s.tasks[t].(item := v, inUse := true))
       case ResetItem(t) => r == UpdateTask(s, t, s.tasks[t].(item := s.tasks[t].prio, inUse := false))
  }

  // ---------------------------------------------------------------- bookkeeping

  ghost predicate TcbOk(c: Tcb) {
    c.prio >= c.base && (c.prio > c.base ==> c.held > 0)
  }

  function HeldBy(mutexes: map<Mid, Mutex>, t: Tid): (ms: set<Mid>) {
    set m | m in mutexes && mutexes[m].holder == Task(t)
  }

  ghost predicate NoDup(q: seq<Tid>) { forall i, j :: 0 <= i < j < |q| ==> q[i] != q[j] }

  ghost predicate MutexOk(x: Mutex, tasks: map<Tid, Tcb>) {
    && (x.count == 1 <==> x.holder == Nobody) && x.count <= 1 && NoDup(x.waiters)
    && (x.holder.Task? ==> x.holder.t in tasks)
    && (forall w :: w in x.waiters ==> w in tasks)
  }

  ghost predicate Book(s: System) {
    && (forall t :: t in s.tasks ==> TcbOk(s.tasks[t]))
    && (forall t :: t in s.tasks ==> s.tasks[t].held == |HeldBy(s.mutexes, t)|)
    && (forall m :: m in s.mutexes ==> MutexOk(s.mutexes[m], s.tasks))
  }

  lemma PrioritySetOk(c: Tcb, p: nat)
    requires TcbOk(c)
    ensures TcbOk(PrioritySet(c, p)) && PrioritySet(c, p).held == c.held && PrioritySet(c, p).base == p
  {
  }

  /** Changing a task without touching its count of mutexes. */
  lemma BookTask(s: System, t: Tid, c: Tcb)
    requires Book(s) && t in s.tasks && TcbOk(c) && c.held == s.tasks[t].held
    ensures Book(UpdateTask(s, t, c))
  {
  }

  /** Changing a mutex without touching its holder. */
  lemma BookMutex(s: System, m: Mid, x: Mutex)
    requires Book(s) && m in s.mutexes && MutexOk(x, s.tasks) && x.holder == s.mutexes[m].holder
    ensures Book(UpdateMutex(s, m, x))
  {
    forall t ensures HeldBy(s.mutexes[m := x], t) == HeldBy(s.mutexes, t) {
    }
  }

  /** How the sets of held mutexes change when one mutex changes hands. */
  lemma HeldByChange(mutexes: map<Mid, Mutex>, m: Mid, x: Mutex, t: Tid)
    requires m in mutexes
    ensures var r := HeldBy(mutexes[m := x], t);
      r == if x.holder == Task(t) then HeldBy(mutexes, t) + {m} else HeldBy(mutexes, t) - {m}
    ensures m in HeldBy(mutexes, t) <==> mutexes[m].holder == Task(t)
  {
  }

  /** The number of mutexes each task holds, when m passes between t and nobody. */
  lemma HeldCount(mutexes: map<Mid, Mutex>, m: Mid, x: Mutex, t: Tid, u: Tid)
    requires m in mutexes
    requires || (mutexes[m].holder == Nobody && x.holder == Task(t))
             || (mutexes[m].holder == Task(t) && x.holder == Nobody)
    ensures |HeldBy(mutexes[m := x], u)| ==
      |HeldBy(mutexes, u)| + if u != t then 0 else if x.holder == Nobody then -1 else 1
  {
    HeldByChange(mutexes, m, x, u);
    if u != t {
      assert HeldBy(mutexes[m := x], u) == HeldBy(mutexes, u);
    }
  }

  /** A mutex is taken or given; its holder's count follows. */
  lemma BookHolder(s: System, m: Mid, x: Mutex, t: Tid, c: Tcb)
    requires Book(s) && m in s.mutexes && t in s.tasks && TcbOk(c) && MutexOk(x, s.tasks)
    requires || (s.mutexes[m].holder == Nobody && x.holder == Task(t) && c.held == s.tasks[t].held + 1)
             || (s.mutexes[m].holder == Task(t) && x.holder == Nobody && c.held == s.tasks[t].held - 1)
    ensures Book(UpdateMutex(UpdateTask(s, t, c), m, x))
  {
    hide HeldBy;
    var r := UpdateMutex(UpdateTask(s, t, c), m, x);
    forall u | u in r.tasks ensures r.tasks[u].held == |HeldBy(r.mutexes, u)| {
      HeldCount(s.mutexes, m, x, t, u);
    }
  }

  lemma {:induction false} EnqueueMembers(q: seq<Tid>, t: Tid, tasks: map<Tid, Tcb>)
    requires t in tasks
    ensures forall w :: w in Enqueue(q, t, tasks) <==> w in q || w == t
    ensures NoDup(q) && t !in q ==> NoDup(Enqueue(q, t, tasks))
  {
    if q != [] {
      assert q == [q[0]] + q[1..];
      EnqueueMembers(q[1..], t, tasks);
      assert NoDup(q) ==> NoDup(q[1..]) && q[0] !in q[1..];
    }
  }

  lemma {:induction false} DequeueMembers(q: seq<Tid>, t: Tid)
    ensures forall w :: w in Dequeue(q, t) ==> w in q
    ensures forall w :: w in q && w != t ==> w in Dequeue(q, t)
    ensures NoDup(q) ==> NoDup(Dequeue(q, t)) && t !in Dequeue(q, t)
  {
    if q != [] {
      assert q == [q[0]] + q[1..];
      DequeueMembers(q[1..], t);
      assert NoDup(q) ==> NoDup(q[1..]) && q[0] !in q[1..];
    }
  }

  lemma GiverHolds(s: System, t: Tid, m: Mid)
    requires Book(s) && t in s.tasks && m in s.mutexes && s.mutexes[m].holder == Task(t)
    ensures s.tasks[t].held > 0
  {
    assert m in HeldBy(s.mutexes, t);
  }

  lemma BlockBook(s: System, t: Tid, m: Mid)
    requires Book(s) && Enabled(s, Block(t, m))
    ensures HasHolder(s, m) && Book(ApplyBlock(s, t, m))
  {
    var h := HolderOf(s, m);
    var c := Inherit(s.tasks[h], s.tasks[t].prio);
    GiverHolds(s, h, m);
    BookTask(s, h, c);
    var s1 := UpdateTask(s, h, c);
    var x := s.mutexes[m];
    EnqueueMembers(x.waiters, t, s1.tasks);
    BookMutex(s1, m, x.(waiters := Enqueue(x.waiters, t, s1.tasks)));
  }

  lemma BookTakeGive(s: System, t: Tid, m: Mid)
    requires Book(s) && t in s.tasks && m in s.mutexes
    ensures s.mutexes[m].count > 0 ==> Book(ApplyTake(s, t, m))
    ensures s.mutexes[m].holder == Task(t) ==> s.tasks[t].held > 0 && Book(ApplyGive(s, t, m))
  {
    hide HeldBy;
    var x := s.mutexes[m];
    if x.count > 0 {
      BookHolder(s, m, x.(count := x.count - 1, holder := Task(t)), t, s.tasks[t].(held := s.tasks[t].held + 1));
    } else if x.holder == Task(t) {
      GiverHolds(s, t, m);
      BookHolder(s, m, x.(count := x.count + 1, holder := Nobody), t, Disinherit(s.tasks[t]));
    }
  }

  /** Every step keeps the books. */
  lemma BookPreserved(s: System, a: Step, r: System)
    requires Book(s) && Next(s, a, r)
    ensures Book(r)
  {
    hide HeldBy, ApplyTake, ApplyGive, ApplyBlock;
    match a
    case Take(t, m) => BookTakeGive(s, t, m);
    case Give(t, m) => BookTakeGive(s, t, m);
    case Block(t, m) => BlockBook(s, t, m);
    case Leave(t, m) =>
      var x := s.mutexes[m];
      DequeueMembers(x.waiters, t);
      BookMutex(s, m, x.(waiters := Dequeue(x.waiters, t)));
    case Expire(_, m) =>
      if HasHolder(s, m) {
        var h := HolderOf(s, m);
        BookTask(s, h, DisinheritAfterTimeout(s.tasks[h], HighestWaiting(s.mutexes[m].waiters, s.tasks)));
      }
    case SetPriority(t, p) =>
      PrioritySetOk(s.tasks[t], p);
      BookTask(s, t, PrioritySet(s.tasks[t], p));
    case UseItem(t, v) => BookTask(s, t, s.tasks[t].(item := v, inUse := true));
    case ResetItem(t) => BookTask(s, t, s.tasks[t].(item := s.tasks[t].prio, inUse := false));
  }

  /** What each step does.  A taker holds the mutex; a blocker joins the waiters and lends the holder its priority if
      that is greater; a waiter that leaves is gone; a giver leaves the mutex free and has its own priority back with
      the last one.  Nothing else changes. */
  ghost predicate Effect(s: System, a: Step, r: System) {
    && r.tasks.Keys == s.tasks.Keys && r.mutexes.Keys == s.mutexes.Keys
    && (forall m :: m in s.mutexes && (a.Take? || a.Give? || a.Block? || a.Leave? ==> m != a.m) ==>
          r.mutexes[m] == s.mutexes[m])
    && match a
       case Take(t, m) =>
         && OnlyTask(s, r, t) && t in s.tasks && r.tasks[t] == s.tasks[t].(held := s.tasks[t].held + 1)
         && m in s.mutexes && r.mutexes[m] == Mutex(0, Task(t), s.mutexes[m].waiters)
       case Block(t, m) =>
         && m in s.mutexes && HasHolder(s, m) && t in s.tasks && OnlyTask(s, r, HolderOf(s, m))
         && r.mutexes[m] == s.mutexes[m].(waiters := r.mutexes[m].waiters)
         && (forall u :: u in r.mutexes[m].waiters <==> u in s.mutexes[m].waiters || u == t)
         && var h, p := s.tasks[HolderOf(s, m)], s.tasks[t].prio;
            r.tasks[HolderOf(s, m)] ==
            if h.prio >= p then h else Tcb(p, h.base, h.held, if h.inUse then h.item else p, h.inUse)
       case Leave(t, m) =>
         && m in s.mutexes && r.tasks == s.tasks && r.mutexes[m] == s.mutexes[m].(waiters := r.mutexes[m].waiters)
         && (forall u :: u in r.mutexes[m].waiters <==> u in s.mutexes[m].waiters && u != t)
       case Give(t, m) =>
         && OnlyTask(s, r, t) && t in s.tasks && r.tasks[t].held == s.tasks[t].held - 1
         && r.tasks[t].base == s.tasks[t].base
         && r.tasks[t].prio == (if r.tasks[t].held == 0 then s.tasks[t].base else s.tasks[t].prio)
         && m in s.mutexes && r.mutexes[m] == Mutex(1, Nobody, s.mutexes[m].waiters)
       case Expire(_, m) =>
         (HasHolder(s, m) ==> OnlyTask(s, r, HolderOf(s, m))) && (!HasHolder(s, m) ==> r == s)
       case SetPriority(t, p) => OnlyTask(s, r, t) && t in s.tasks && r.tasks[t].base == p
       case UseItem(t, v) => OnlyTask(s, r, t) && t in s.tasks && r.tasks[t] == s.tasks[t].(item := v, inUse := true)
       case ResetItem(t) =>
         && OnlyTask(s, r, t) && t in s.tasks && r.tasks[t].item == s.tasks[t].prio
         && r.tasks[t] == s.tasks[t].(item := r.tasks[t].item, inUse := false)
  }

  /** No task but t has changed. */
  ghost predicate OnlyTask(s: System, r: System, t: Tid) {
    r.tasks.Keys == s.tasks.Keys && forall u :: u in s.tasks && u != t ==> r.tasks[u] == s.tasks[u]
  }

  lemma StepEffects(s: System, a: Step, r: System)
    requires Book(s) && Next(s, a, r)
    ensures Effect(s, a, r)
  {
    hide HeldBy, Waiting, NoDup, Enqueue, Dequeue, ApplyBlock, ApplyTake, ApplyGive;
    match a {
      case Take(t, m) => TakeGiveEffect(s, t, m);
      case Give(t, m) => TakeGiveEffect(s, t, m);
      case Block(t, m) => BlockEffect(s, t, m);
      case Leave(t, m) =>
        assert MutexOk(s.mutexes[m], s.tasks);
        DequeueMembers(s.mutexes[m].waiters, t);
      case _ =>
    }
  }

  lemma TakeGiveEffect(s: System, t: Tid, m: Mid)
    requires Book(s) && t in s.tasks && m in s.mutexes
    ensures s.mutexes[m].count > 0 ==> Effect(s, Take(t, m), ApplyTake(s, t, m))
    ensures s.mutexes[m].holder == Task(t) && s.tasks[t].held > 0 ==> Effect(s, Give(t, m), ApplyGive(s, t, m))
  {
    hide HeldBy, NoDup;
    assert MutexOk(s.mutexes[m], s.tasks) && TcbOk(s.tasks[t]);
  }

  lemma BlockEffect(s: System, t: Tid, m: Mid)
    requires Book(s) && Enabled(s, Block(t, m))
    ensures Effect(s, Block(t, m), ApplyBlock(s, t, m))
  {
    hide HeldBy, Waiting, NoDup, Enqueue;
    assert MutexOk(s.mutexes[m], s.tasks);
    var h := HolderOf(s, m);
    EnqueueMembers(s.mutexes[m].waiters, t, s.tasks[h := Inherit(s.tasks[h], s.tasks[t].prio)]);
  }

  // ---------------------------------------------------------------- the inheritance bound

  /** An event item encodes its task's priority. */
  predicate ItemOk(c: Tcb) { !c.inUse ==> c.item == c.prio }

  /** Event items that are not in use encode priorities: so it is as long as vTaskPrioritySet is not used. */
  ghost predicate ItemsOk(tasks: map<Tid, Tcb>) {
    forall t :: t in tasks ==> ItemOk(tasks[t])
  }

  /** The event items of a waiting list are not in use. */
  ghost predicate Plain(q: seq<Tid>, tasks: map<Tid, Tcb>) {
    forall w :: w in q ==> w in tasks && !tasks[w].inUse
  }

  ghost predicate Falling(q: seq<Tid>, tasks: map<Tid, Tcb>) {
    forall i, j :: 0 <= i < j < |q| && q[i] in tasks && q[j] in tasks ==> tasks[q[i]].prio >= tasks[q[j]].prio
  }

  /** No waiter has a priority above p. */
  ghost predicate Covers(p: nat, q: seq<Tid>, tasks: map<Tid, Tcb>) {
    forall w :: w in q && w in tasks ==> tasks[w].prio <= p
  }

  /** A holder's priority is never below any waiter's. */
  ghost predicate Bounded(s: System) {
    forall m :: HasHolder(s, m) ==> Covers(s.tasks[HolderOf(s, m)].prio, s.mutexes[m].waiters, s.tasks)
  }

  ghost predicate BoundInv(s: System) {
    && Book(s) && ItemsOk(s.tasks) && Bounded(s)
    && (forall m :: m in s.mutexes ==> Falling(s.mutexes[m].waiters, s.tasks))
    && (forall m :: m in s.mutexes ==> Plain(s.mutexes[m].waiters, s.tasks))
  }

  /** What the bound assumes: no vTaskPrioritySet, no waiting task's priority changes, and a taker is at least
      as high as those still waiting. */
  ghost predicate Fair(s: System, a: Step, r: System) {
    && !a.SetPriority?
    && (a.Take? && a.t in s.tasks && a.m in s.mutexes ==> Covers(s.tasks[a.t].prio, s.mutexes[a.m].waiters, s.tasks))
    && (forall w :: w in s.tasks && w in r.tasks && Waiting(s, w) ==> r.tasks[w].prio == s.tasks[w].prio)
  }

  lemma {:induction false} EnqueueFalling(q: seq<Tid>, t: Tid, tasks: map<Tid, Tcb>)
    requires t in tasks && ItemsOk(tasks) && Falling(q, tasks) && Plain(q, tasks) && !tasks[t].inUse
    ensures Falling(Enqueue(q, t, tasks), tasks)
  {
    if q != [] && tasks[q[0]].item >= tasks[t].item {
      EnqueueFalling(q[1..], t, tasks);
      EnqueueMembers(q[1..], t, tasks);
      var r := Enqueue(q[1..], t, tasks);
      forall i | 0 <= i < |r| ensures tasks[q[0]].prio >= tasks[r[i]].prio {
        assert r[i] in q[1..] || r[i] == t;
      }
    }
  }

  lemma {:induction false} DequeueFalling(q: seq<Tid>, t: Tid, tasks: map<Tid, Tcb>)
    requires Falling(q, tasks)
    ensures Falling(Dequeue(q, t), tasks)
  {
    if q != [] && q[0] != t {
      DequeueFalling(q[1..], t, tasks);
      DequeueMembers(q[1..], t);
      var r := Dequeue(q[1..], t);
      forall i | 0 <= i < |r| && q[0] in tasks && r[i] in tasks ensures tasks[q[0]].prio >= tasks[r[i]].prio {
        assert r[i] in q[1..];
      }
    }
  }

  /** The head of a waiting list is a highest waiter. */
  lemma HighestIsMax(q: seq<Tid>, tasks: map<Tid, Tcb>)
    requires ItemsOk(tasks) && Falling(q, tasks) && Plain(q, tasks)
    ensures Covers(HighestWaiting(q, tasks), q, tasks)
    ensures q != [] ==> q[0] in tasks && tasks[q[0]].prio == HighestWaiting(q, tasks)
    ensures q == [] ==> HighestWaiting(q, tasks) == 0
  {
    if q != [] {
      assert q[0] in q;
    }
  }

  /** A task changes priority: waiting lists keep their order because no waiter's priority changes. */
  lemma ListsKept(s: System, t: Tid, c: Tcb)
    requires BoundInv(s) && t in s.tasks && ItemOk(c) && (Waiting(s, t) ==> c.prio == s.tasks[t].prio && !c.inUse)
    ensures ItemsOk(s.tasks[t := c])
    ensures forall m :: m in s.mutexes ==> Plain(s.mutexes[m].waiters, s.tasks[t := c])
    ensures forall m :: m in s.mutexes ==> Falling(s.mutexes[m].waiters, s.tasks[t := c])
    ensures forall m, p :: m in s.mutexes && Covers(p, s.mutexes[m].waiters, s.tasks) ==>
      Covers(p, s.mutexes[m].waiters, s.tasks[t := c])
  {
    forall m | m in s.mutexes ensures Falling(s.mutexes[m].waiters, s.tasks[t := c]) {
      assert Falling(s.mutexes[m].waiters, s.tasks);
    }
    forall m | m in s.mutexes ensures Plain(s.mutexes[m].waiters, s.tasks[t := c]) {
      assert Plain(s.mutexes[m].waiters, s.tasks);
    }
  }

  /** ... and the bound holds if it holds for the mutexes that task holds. */
  lemma BoundTask(s: System, t: Tid, c: Tcb)
    requires BoundInv(s) && t in s.tasks && ItemOk(c) && (Waiting(s, t) ==> c.prio == s.tasks[t].prio && !c.inUse)
    requires TcbOk(c) && c.held == s.tasks[t].held
    requires forall m :: HasHolder(s, m) && HolderOf(s, m) == t ==> Covers(c.prio, s.mutexes[m].waiters, s.tasks)
    ensures BoundInv(UpdateTask(s, t, c))
  {
    hide Waiting, Falling, Covers, Book, ItemsOk, Plain;
    ListsKept(s, t, c);
    BookTask(s, t, c);
    var r := UpdateTask(s, t, c);
    forall m | HasHolder(r, m) ensures Covers(r.tasks[HolderOf(r, m)].prio, r.mutexes[m].waiters, r.tasks) {
      assert HasHolder(s, m) && HolderOf(s, m) == HolderOf(r, m);
    }
  }

  /** A task no higher than the holder joins the waiting list. */
  lemma BoundEnqueue(s: System, t: Tid, m: Mid)
    requires BoundInv(s) && t in s.tasks && HasHolder(s, m) && s.tasks[t].prio <= s.tasks[HolderOf(s, m)].prio
    requires !s.tasks[t].inUse && t !in s.mutexes[m].waiters
    ensures var x := s.mutexes[m]; BoundInv(UpdateMutex(s, m, x.(waiters := Enqueue(x.waiters, t, s.tasks))))
  {
    hide HeldBy, TcbOk, NoDup, Enqueue;
    var x := s.mutexes[m];
    var y := x.(waiters := Enqueue(x.waiters, t, s.tasks));
    assert Covers(s.tasks[HolderOf(s, m)].prio, x.waiters, s.tasks);
    EnqueueFalling(x.waiters, t, s.tasks);
    EnqueueMembers(x.waiters, t, s.tasks);
    BookMutex(s, m, y);
    var r := UpdateMutex(s, m, y);
    forall m' | HasHolder(r, m') ensures Covers(r.tasks[HolderOf(r, m')].prio, r.mutexes[m'].waiters, r.tasks) {
      assert HasHolder(s, m');
    }
  }

  lemma CoversMore(p: nat, p': nat, q: seq<Tid>, tasks: map<Tid, Tcb>)
    requires Covers(p, q, tasks) && p <= p'
    ensures Covers(p', q, tasks)
  {
  }

  lemma BoundBlock(s: System, t: Tid, m: Mid)
    requires BoundInv(s) && Enabled(s, Block(t, m)) && Fair(s, Block(t, m), ApplyBlock(s, t, m))
    ensures BoundInv(ApplyBlock(s, t, m))
  {
    hide HeldBy, Falling, Plain, Covers, Waiting;
    BlockBook(s, t, m);
    var h := HolderOf(s, m);
    var c := Inherit(s.tasks[h], s.tasks[t].prio);
    GiverHolds(s, h, m);
    assert ItemOk(s.tasks[h]) && TcbOk(s.tasks[h]);
    if Waiting(s, h) {
      WaiterPlain(s, h);
    }
    forall m' | HasHolder(s, m') && HolderOf(s, m') == h ensures Covers(c.prio, s.mutexes[m'].waiters, s.tasks) {
      CoversMore(s.tasks[h].prio, c.prio, s.mutexes[m'].waiters, s.tasks);
    }
    BoundTask(s, h, c);
    NotWaitingFor(s, t, m);
    BoundEnqueue(UpdateTask(s, h, c), t, m);
  }

  lemma NotWaitingFor(s: System, t: Tid, m: Mid)
    requires !Waiting(s, t) && m in s.mutexes
    ensures t !in s.mutexes[m].waiters
  {
  }

  /** A task holding exactly one mutex holds no other. */
  lemma OnlyMutex(s: System, h: Tid, m: Mid, m': Mid)
    requires Book(s) && h in s.tasks && m in s.mutexes && m' in s.mutexes && s.tasks[h].held == 1
    requires s.mutexes[m].holder == Task(h) && s.mutexes[m'].holder == Task(h)
    ensures m == m'
  {
    var ms := HeldBy(s.mutexes, h);
    assert m in ms && m' in ms;
    assert |ms - {m}| == 0;
    assert m' !in ms - {m};
  }

  lemma BoundExpire(s: System, t: Tid, m: Mid)
    requires BoundInv(s) && Enabled(s, Expire(t, m)) && Fair(s, Expire(t, m), ApplyExpire(s, m))
    ensures BoundInv(ApplyExpire(s, m))
  {
    if HasHolder(s, m) {
      var h, q := HolderOf(s, m), s.mutexes[m].waiters;
      var c := DisinheritAfterTimeout(s.tasks[h], HighestWaiting(q, s.tasks));
      HighestIsMax(q, s.tasks);
      forall m' | HasHolder(s, m') && HolderOf(s, m') == h ensures Covers(c.prio, s.mutexes[m'].waiters, s.tasks) {
        assert Covers(s.tasks[h].prio, s.mutexes[m'].waiters, s.tasks);
        if c != s.tasks[h] {
          OnlyMutex(s, h, m, m');
        }
      }
      if Waiting(s, h) {
        WaiterPlain(s, h);
      }
      BoundTask(s, h, c);
    }
  }

  /** A task in a waiting list is not using its event item for anything else. */
  lemma WaiterPlain(s: System, t: Tid)
    requires BoundInv(s) && t in s.tasks && Waiting(s, t)
    ensures !s.tasks[t].inUse
  {
    var m :| m in s.mutexes && t in s.mutexes[m].waiters;
    assert Plain(s.mutexes[m].waiters, s.tasks);
  }

  lemma BoundGive(s: System, t: Tid, m: Mid)
    requires BoundInv(s) && Enabled(s, Give(t, m)) && s.tasks[t].held > 0
    ensures BoundInv(ApplyGive(s, t, m))
  {
    var c, x := Disinherit(s.tasks[t]), s.mutexes[m];
    var r := ApplyGive(s, t, m);
    BookPreserved(s, Give(t, m), r);
    ListsKept(s, t, c);
    forall m' | HasHolder(r, m') ensures Covers(r.tasks[HolderOf(r, m')].prio, r.mutexes[m'].waiters, r.tasks) {
      assert m' != m && HasHolder(s, m');
      assert Covers(s.tasks[HolderOf(s, m')].prio, s.mutexes[m'].waiters, s.tasks);
      if HolderOf(s, m') == t && s.tasks[t].held == 1 {
        OnlyMutex(s, t, m, m');
      }
    }
  }

  lemma BoundTake(s: System, t: Tid, m: Mid)
    requires BoundInv(s) && Enabled(s, Take(t, m)) && Covers(s.tasks[t].prio, s.mutexes[m].waiters, s.tasks)
    ensures BoundInv(ApplyTake(s, t, m))
  {
    hide Book, Falling, Plain, Waiting;
    var r := ApplyTake(s, t, m);
    var c := s.tasks[t].(held := s.tasks[t].held + 1);
    BookPreserved(s, Take(t, m), r);
    ListsKept(s, t, c);
    forall m' | HasHolder(r, m') ensures Covers(r.tasks[HolderOf(r, m')].prio, r.mutexes[m'].waiters, r.tasks) {
      if m' != m {
        assert HasHolder(s, m');
      }
    }
  }

  lemma BoundLeave(s: System, t: Tid, m: Mid)
    requires BoundInv(s) && Enabled(s, Leave(t, m))
    ensures BoundInv(UpdateMutex(s, m, s.mutexes[m].(waiters := Dequeue(s.mutexes[m].waiters, t))))
  {
    var x := s.mutexes[m];
    var r := UpdateMutex(s, m, x.(waiters := Dequeue(x.waiters, t)));
    BookPreserved(s, Leave(t, m), r);
    DequeueMembers(x.waiters, t);
    DequeueFalling(x.waiters, t, s.tasks);
    forall m' | HasHolder(r, m') ensures Covers(r.tasks[HolderOf(r, m')].prio, r.mutexes[m'].waiters, r.tasks) {
      assert HasHolder(s, m');
      assert Covers(s.tasks[HolderOf(s, m')].prio, s.mutexes[m'].waiters, s.tasks);
    }
  }

  lemma BoundPreserved(s: System, a: Step, r: System)
    requires BoundInv(s) && Next(s, a, r) && Fair(s, a, r)
    ensures BoundInv(r)
  {
    hide BoundInv, Waiting, Covers;
    match a
    case Take(t, m) => BoundTake(s, t, m);
    case Block(t, m) => BoundBlock(s, t, m);
    case Leave(t, m) => BoundLeave(s, t, m);
    case Expire(t, m) => BoundExpire(s, t, m);
    case Give(t, m) => BoundGive(s, t, m);
    case UseItem(t, v) => BoundItem(s, t, s.tasks[t].(item := v, inUse := true));
    case ResetItem(t) => BoundItem(s, t, s.tasks[t].(item := s.tasks[t].prio, inUse := false));
  }

  /** The event item of a task that is not waiting changes, and nothing else. */
  lemma BoundItem(s: System, t: Tid, c: Tcb)
    requires BoundInv(s) && t in s.tasks && !Waiting(s, t) && ItemOk(c)
    requires c == s.tasks[t].(item := c.item, inUse := c.inUse)
    ensures BoundInv(UpdateTask(s, t, c))
  {
    assert TcbOk(s.tasks[t]);
    BoundTask(s, t, c);
  }

  // ---------------------------------------------------------------- whole runs

  ghost predicate Initial(s: System) {
    && (forall t :: t in s.tasks ==> s.tasks[t] == Tcb(s.tasks[t].base, s.tasks[t].base, 0, s.tasks[t].base, false))
    && (forall m :: m in s.mutexes ==> s.mutexes[m] == Mutex(1, Nobody, []))
  }

  ghost predicate Run(s: seq<System>, a: seq<Step>) {
    |s| == |a| + 1 && Initial(s[0]) && forall i :: 0 <= i < |a| ==> Next(s[i], a[i], s[i + 1])
  }

  lemma InitialOk(s: System)
    requires Initial(s)
    ensures BoundInv(s)
  {
    forall t ensures HeldBy(s.mutexes, t) == {} {
    }
  }

  /** Inheritance bookkeeping, in every state of every run. */
  lemma {:induction false} BooksInEveryRun(s: seq<System>, a: seq<Step>, i: nat)
    requires Run(s, a) && i < |s|
    ensures Book(s[i])
  {
    hide Book, Next, Initial;
    if i == 0 {
      InitialOk(s[0]);
    } else {
      BooksInEveryRun(s, a, i - 1);
      BookPreserved(s[i - 1], a[i - 1], s[i]);
    }
  }

  /** The inheritance bound, in every state of every fair run. */
  lemma {:induction false} BoundInEveryRun(s: seq<System>, a: seq<Step>, i: nat)
    requires Run(s, a) && i < |s| && forall j :: 0 <= j < i ==> Fair(s[j], a[j], s[j + 1])
    ensures BoundInv(s[i])
  {
    hide BoundInv, Next, Initial, Fair;
    if i == 0 {
      InitialOk(s[0]);
    } else {
      BoundInEveryRun(s, a, i - 1);
      BoundPreserved(s[i - 1], a[i - 1], s[i]);
    }
  }

  /** Where a step that leaves t above or below its base priority found that priority: t had it already and was not at
      its base then, or it is that of a task waiting for a mutex that t holds. */
  lemma PriorityOrigin(s: System, a: Step, r: System, t: Tid) returns (m: Mid, u: Tid)
    requires Book(s) && Next(s, a, r) && t in r.tasks && r.tasks[t].prio != r.tasks[t].base
    ensures t in s.tasks
    ensures || (s.tasks[t].prio == r.tasks[t].prio && s.tasks[t].prio != s.tasks[t].base)
            || Lends(r, t, m, u)
  {
    hide HeldBy, Waiting, NoDup, Enqueue;
    m, u := 0, 0;
    if a.Block? {
      m, u := a.m, a.t;
      assert MutexOk(s.mutexes[m], s.tasks);
      var h := HolderOf(s, m);
      EnqueueMembers(s.mutexes[m].waiters, u, s.tasks[h := Inherit(s.tasks[h], s.tasks[u].prio)]);
    } else if a.Expire? && HasHolder(s, a.m) && s.mutexes[a.m].waiters != [] {
      m, u := a.m, s.mutexes[a.m].waiters[0];
      assert MutexOk(s.mutexes[m], s.tasks);
    }
  }

  /** Task u waits for mutex m, which t holds, and t has u's priority: the one it runs at, or the one its event item
      says. */
  ghost predicate Lends(s: System, t: Tid, m: Mid, u: Tid) {
    && m in s.mutexes && s.mutexes[m].holder == Task(t) && u in s.mutexes[m].waiters && u in s.tasks && t in s.tasks
    && (s.tasks[t].prio == s.tasks[u].prio || s.tasks[t].prio == s.tasks[u].item)
  }

  /** A task above its base priority holds a mutex; and a step led to it. */
  lemma HoldsSome(s: seq<System>, a: seq<Step>, i: nat, t: Tid)
    requires Run(s, a) && i < |s| && t in s[i].tasks && s[i].tasks[t].prio != s[i].tasks[t].base
    ensures |s| == |a| + 1 && s[i].tasks[t].held > 0
    ensures i > 0 && Next(s[i - 1], a[i - 1], s[i]) && Book(s[i - 1])
  {
    BooksInEveryRun(s, a, i);
    assert TcbOk(s[i].tasks[t]);
    hide Book, Next;
    if i > 0 {
      BooksInEveryRun(s, a, i - 1);
    }
  }

  /** The upper bound, in every run: a task that does not run at its base priority has run at its present priority, and
      has held a mutex, without interruption since a moment when a task of that priority waited for a mutex it held. */
  lemma {:induction false} InheritedFromWaiter(s: seq<System>, a: seq<Step>, i: nat, t: Tid)
    returns (j: nat, m: Mid, u: Tid)
    requires Run(s, a) && i < |s| && t in s[i].tasks && s[i].tasks[t].prio != s[i].tasks[t].base
    ensures j <= i && Lends(s[j], t, m, u)
    ensures forall k :: j <= k <= i ==>
      t in s[k].tasks && s[k].tasks[t].prio == s[i].tasks[t].prio && s[k].tasks[t].held > 0
  {
    hide Run, Book, Next, Lends, TcbOk;
    HoldsSome(s, a, i, t);
    m, u := PriorityOrigin(s[i - 1], a[i - 1], s[i], t);
    j := i;
    if !Lends(s[i], t, m, u) {
      j, m, u := InheritedFromWaiter(s, a, i - 1, t);
    }
  }

  /** In a fair run that is the priority the waiter runs at. */
  lemma InheritedExactly(s: seq<System>, a: seq<Step>, i: nat, t: Tid) returns (j: nat, m: Mid, u: Tid)
    requires Run(s, a) && i < |s| && t in s[i].tasks && s[i].tasks[t].prio != s[i].tasks[t].base
    requires forall j :: 0 <= j < i ==> Fair(s[j], a[j], s[j + 1])
    ensures j <= i && m in s[j].mutexes && s[j].mutexes[m].holder == Task(t) && u in s[j].mutexes[m].waiters
    ensures u in s[j].tasks && s[i].tasks[t].prio == s[j].tasks[u].prio
    ensures forall k :: j <= k <= i ==> t in s[k].tasks && s[k].tasks[t].held > 0
  {
    hide Run, Fair, Book, Bounded;
    j, m, u := InheritedFromWaiter(s, a, i, t);
    BoundInEveryRun(s, a, j);
    assert Plain(s[j].mutexes[m].waiters, s[j].tasks) && ItemOk(s[j].tasks[u]);
  }

  /** The configASSERT of xTaskPriorityDisinherit: in every run a holder that gives has uxMutexesHeld above 0,
      so a give is possible exactly when the caller holds the mutex. */
  lemma HolderCanGive(s: seq<System>, a: seq<Step>, i: nat, t: Tid, m: Mid)
    requires Run(s, a) && i < |s| && Enabled(s[i], Give(t, m))
    ensures s[i].tasks[t].held > 0 && s[i].mutexes[m].count == 0
  {
    hide Run;
    BooksInEveryRun(s, a, i);
    GiverHolds(s[i], t, m);
  }

  /** After a time-out, a holder of exactly one mutex has exactly the greater of its base priority and the
      priority of the highest remaining waiter. */
  lemma TimeoutRestoresExactly(s: seq<System>, a: seq<Step>, i: nat)
    requires Run(s, a) && i < |a| && (forall j :: 0 <= j < i ==> Fair(s[j], a[j], s[j + 1]))
    requires a[i].Expire? && HasHolder(s[i], a[i].m) && s[i].tasks[HolderOf(s[i], a[i].m)].held == 1
    ensures var r, q, h := s[i + 1], s[i].mutexes[a[i].m].waiters, HolderOf(s[i], a[i].m);
      && h in r.tasks && r.tasks[h].prio >= r.tasks[h].base && r.tasks[h].base == s[i].tasks[h].base
      && Covers(r.tasks[h].prio, q, s[i].tasks)
      && (|| r.tasks[h].prio == r.tasks[h].base
          || exists w :: w in q && w in s[i].tasks && s[i].tasks[w].prio == r.tasks[h].prio)
  {
    BoundInEveryRun(s, a, i);
    var m := a[i].m;
    assert Next(s[i], a[i], s[i + 1]);
    hide Run, Book, Bounded;
    var q := s[i].mutexes[m].waiters;
    assert forall w :: w in q ==> w in s[i].tasks by {
      WaitersExist(s[i], m);
    }
    HighestIsMax(q, s[i].tasks);
    if q != [] {
      assert q[0] in q;
    }
  }

  lemma WaitersExist(s: System, m: Mid)
    requires Book(s) && m in s.mutexes
    ensures forall w :: w in s.mutexes[m].waiters ==> w in s.tasks
  {
    assert MutexOk(s.mutexes[m], s.tasks);
  }

  /** The assumption on takers is exactly what the bound needs when a mutex changes hands. */
  lemma TakeKeepsBoundExactlyWhen(s: System, t: Tid, m: Mid)
    requires BoundInv(s) && Enabled(s, Take(t, m))
    ensures BoundInv(ApplyTake(s, t, m)) <==> Covers(s.tasks[t].prio, s.mutexes[m].waiters, s.tasks)
  {
    if Covers(s.tasks[t].prio, s.mutexes[m].waiters, s.tasks) {
      BoundTake(s, t, m);
    } else {
      var r := ApplyTake(s, t, m);
      assert HasHolder(r, m) && HolderOf(r, m) == t;
      var w :| w in s.mutexes[m].waiters && w in s.tasks && s.tasks[w].prio > s.tasks[t].prio;
      assert w in r.mutexes[m].waiters && r.tasks[w].prio > r.tasks[t].prio;
    }
  }

  /** While a task's call to take m goes on, it does not become m's holder. */
  lemma {:induction false} NotHolderWhileCalling(s: seq<System>, a: seq<Step>, j: nat, i: nat, t: Tid, m: Mid)
    requires Run(s, a) && j < i < |s| && a[j] == Block(t, m) && m in s[j].mutexes && s[j].mutexes[m].holder != Task(t)
    requires forall k :: j < k < i ==> a[k] != Take(t, m)
    ensures m in s[i].mutexes && s[i].mutexes[m].holder != Task(t)
    decreases i
  {
    hide Waiting, Initial;
    assert Next(s[i - 1], a[i - 1], s[i]);
    if i - 1 > j {
      NotHolderWhileCalling(s, a, j, i - 1, t, m);
    }
  }

  /** The configASSERT of vTaskPriorityDisinheritAfterTimeout: a task that did not hold the mutex when it blocked on it,
      and whose call times out, is not the holder whose priority is restored. */
  lemma ExpiryIsNotTheHolders(s: seq<System>, a: seq<Step>, j: nat, i: nat, t: Tid, m: Mid)
    requires Run(s, a) && j < i < |a| && a[j] == Block(t, m) && a[i] == Expire(t, m)
    requires m in s[j].mutexes && s[j].mutexes[m].holder != Task(t) && forall k :: j < k < i ==> a[k] != Take(t, m)
    ensures HasHolder(s[i], m) ==> HolderOf(s[i], m) != t
  {
    hide Next;
    NotHolderWhileCalling(s, a, j, i, t, m);
  }
}
