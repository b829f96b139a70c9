/** The lock-count protocol of queue.c.

    A task that finds a queue unusable suspends the scheduler, locks the queue, looks
    again, joins an event list, unlocks the queue and resumes the scheduler.  Interrupts may
    post to or drain the queue between any two of those steps; while the queue is
    locked they only count what they did.  One `Label` below is one critical section (or one
    step made while the scheduler is suspended), so a run is an arbitrary
    interleaving of tasks and interrupts.  Overwriting a full queue of length 1 leaves the count at 1, as it does for
    items of size above 0; QueueRing.dfy deals with items of size 0.
 */
module QueueLocking {

  type Tid = nat

  datatype Role = Receive | Peek | Send(overwrite: bool)

  /** What a task does once it has resumed the scheduler. */
  datatype After = Block | Retry | LastLook | GiveUp

  /** Where a task is inside its call. */
  datatype Pc =
    | Idle
    | Trying(role: Role)                      // at the top of the for(;;) loop
    | Waiting(role: Role)                     // saw an unusable queue, may block
    | Suspending(role: Role)                  // scheduler suspended, queue not locked yet
    | Locked(role: Role)                      // queue locked, time-out not checked yet
    | Looking(role: Role)                     // not timed out, about to look again
    | Placing(role: Role)                     // still unusable, about to join the list
    | UnlockingTx(role: Role, after: After)
    | UnlockingRx(role: Role, after: After)
    | Resuming(role: Role, after: After)
    | Blocked(role: Role)                     // off the processor until removed from the list
    | Leaving(role: Role)                     // timed out, one last emptiness check

  datatype Sched = Running | SuspendedBy(owner: Tid)

  const UNLOCKED: int := -1

  datatype State = State(
    tasks: set<Tid>,
    length: nat,
    messages: nat,
    rxLock: int,
    txLock: int,
    toReceive: seq<Tid>,     // xTasksWaitingToReceive, the head is woken first
    toSend: seq<Tid>,        // xTasksWaitingToSend
    wokenReceivers: set<Tid>,  // removed from toReceive by an event, not retried yet
    wokenSenders: set<Tid>,
    sched: Sched,
    pc: map<Tid, Pc>)

  datatype Label =
    | Call(t: Tid, role: Role)
    | Attempt(t: Tid, mayWait: bool)
    | SuspendAll(t: Tid)
    | Lock(t: Tid)
    | CheckTimeOut(t: Tid, expired: bool)
    | Look(t: Tid)
    | Join(t: Tid, at: nat)      // `at` is where the priority order puts the task
    | UnlockTx(t: Tid)
    | UnlockRx(t: Tid)
    | ResumeAll(t: Tid)
    | Wakened(t: Tid)
    | FinalLook(t: Tid)
    | Expire(t: Tid)             // the tick removes a waiter whose time has run out
    | IsrSend(overwrite: bool)
    | IsrReceive
    | Reset(t: Tid)

  // ---------------------------------------------------------------- helpers

  predicate NoDup(q: seq<Tid>) {
    forall i, j :: 0 <= i < j < |q| ==> q[i] != q[j]
  }

  function Pos(n: int): (r: nat)
    ensures n >= 0 ==> r == n
    ensures n < 0 ==> r == 0
  {
    if n < 0 then 0 else n
  }

  function Min(a: nat, b: nat): (r: nat)
    ensures r <= a && r <= b && (r == a || r == b)
  {
    if a <= b then a else b
  }

  function InsertAt(q: seq<Tid>, at: nat, t: Tid): (r: seq<Tid>)
    requires at <= |q|
  {
    q[..at] + [t] + q[at..]
  }

  function RemoveTask(q: seq<Tid>, t: Tid): (r: seq<Tid>)
  {
    if q == [] then [] else if q[0] == t then q[1..] else [q[0]] + RemoveTask(q[1..], t)
  }

  function ToSet(q: seq<Tid>): (r: set<Tid>)
  {
    set x | x in q
  }

  /** xTaskRemoveFromEventList applied `k` times to a list of receivers. */
  function WakeReceivers(s: State, k: nat): (r: State)
    requires k <= |s.toReceive|
  {
    s.(toReceive := s.toReceive[k..], wokenReceivers := s.wokenReceivers + ToSet(s.toReceive[..k]))
  }

  function WakeSenders(s: State, k: nat): (r: State)
    requires k <= |s.toSend|
  {
    s.(toSend := s.toSend[k..], wokenSenders := s.wokenSenders + ToSet(s.toSend[..k]))
  }

  /** prvIncrementQueueTxLock and prvIncrementQueueRxLock. */
  function Bump(lock: int, numberOfTasks: nat): (r: int)
  {
    if lock < numberOfTasks then lock + 1 else lock
  }

  predicate Unusable(s: State, role: Role) {
    if role.Send? then s.messages == s.length else s.messages == 0
  }

  // ---------------------------------------------------------------- steps

  /** A task may take a step only while it runs: nobody else has the scheduler suspended. */
  predicate MayRun(s: State, t: Tid) {
    && t in s.tasks && t in s.pc
    && (s.sched == Running || s.sched == SuspendedBy(t))
  }

  predicate Listed(s: State, t: Tid) {
    t in s.toReceive || t in s.toSend
  }

  predicate Enabled(s: State, l: Label) {
    match l
    case Call(t, role) => MayRun(s, t) && s.pc[t] == Idle && (role.Send? && role.overwrite ==> s.length == 1)
    case Attempt(t, _) => MayRun(s, t) && s.pc[t].Trying?
    case SuspendAll(t) => MayRun(s, t) && s.pc[t].Waiting?
    case Lock(t) => MayRun(s, t) && s.pc[t].Suspending?
    case CheckTimeOut(t, _) => MayRun(s, t) && s.pc[t].Locked?
    case Look(t) => MayRun(s, t) && s.pc[t].Looking?
    case Join(t, at) => MayRun(s, t) && s.pc[t].Placing?
                        && at <= (if s.pc[t].role.Send? then |s.toSend| else |s.toReceive|)
    case UnlockTx(t) => MayRun(s, t) && s.pc[t].UnlockingTx?
    case UnlockRx(t) => MayRun(s, t) && s.pc[t].UnlockingRx?
    case ResumeAll(t) => MayRun(s, t) && s.pc[t].Resuming?
    case Wakened(t) => MayRun(s, t) && s.pc[t].Blocked? && !Listed(s, t)
    case FinalLook(t) => MayRun(s, t) && s.pc[t].Leaving?
    case Expire(t) => MayRun(s, t) && s.sched == Running && s.pc[t].Blocked? && Listed(s, t)
    case IsrSend(overwrite) => overwrite ==> s.length == 1
    case IsrReceive => true
    case Reset(t) => MayRun(s, t) && s.pc[t] == Idle && s.sched == Running
  }

  /** The first critical section of xQueueGenericSend, xQueueReceive and xQueuePeek: a send and a
      peek that succeed wake one receiver, a receive that succeeds wakes one sender. */
  function AttemptStep(s: State, t: Tid, role: Role, mayWait: bool): (r: State)
    requires t in s.pc
  {
    var succeeds := if role.Send? then s.messages < s.length || role.overwrite else s.messages > 0;
    var kr := if succeeds && !role.Receive? then Min(1, |s.toReceive|) else 0;
    var ks := if succeeds && role.Receive? then Min(1, |s.toSend|) else 0;
    s.(messages :=
         if !succeeds || role.Peek? || (role.Send? && role.overwrite && s.messages > 0) then s.messages
         else if role.Send? then s.messages + 1 else s.messages - 1,
       toReceive := s.toReceive[kr..], wokenReceivers := (s.wokenReceivers - {t}) + ToSet(s.toReceive[..kr]),
       toSend := s.toSend[ks..], wokenSenders := (s.wokenSenders - {t}) + ToSet(s.toSend[..ks]),
       pc := s.pc[t := if !succeeds && mayWait then Waiting(role) else Idle])
  }

  /** xQueueGenericSendFromISR. */
  function IsrSendStep(s: State, overwrite: bool): (r: State) {
    if s.messages < s.length || overwrite then
      var stored := s.(messages := if overwrite && s.messages > 0 then s.messages else s.messages + 1);
      if s.txLock == UNLOCKED then WakeReceivers(stored, Min(1, |s.toReceive|))
      else stored.(txLock := Bump(s.txLock, |s.tasks|))
    else s
  }

  /** xQueueReceiveFromISR. */
  function IsrReceiveStep(s: State): (r: State) {
    if s.messages > 0 then
      var taken := s.(messages := s.messages - 1);
      if s.rxLock == UNLOCKED then WakeSenders(taken, Min(1, |s.toSend|))
      else taken.(rxLock := Bump(s.rxLock, |s.tasks|))
    else s
  }

  /** The two critical sections of prvUnlockQueue. */
  function UnlockTxStep(s: State, t: Tid): (r: State)
    requires t in s.pc && s.pc[t].UnlockingTx?
  {
    WakeReceivers(s.(txLock := UNLOCKED, pc := s.pc[t := UnlockingRx(s.pc[t].role, s.pc[t].after)]),
                  Min(Pos(s.txLock), |s.toReceive|))
  }

  function UnlockRxStep(s: State, t: Tid): (r: State)
    requires t in s.pc && s.pc[t].UnlockingRx?
  {
    WakeSenders(s.(rxLock := UNLOCKED, pc := s.pc[t := Resuming(s.pc[t].role, s.pc[t].after)]),
                Min(Pos(s.rxLock), |s.toSend|))
  }

  function JoinStep(s: State, t: Tid, at: nat): (r: State)
    requires t in s.pc && s.pc[t].Placing?
    requires at <= (if s.pc[t].role.Send? then |s.toSend| else |s.toReceive|)
  {
    var role := s.pc[t].role;
    var s1 := s.(pc := s.pc[t := UnlockingTx(role, Block)]);
    if role.Send? then s1.(toSend := InsertAt(s.toSend, at, t))
    else s1.(toReceive := InsertAt(s.toReceive, at, t))
  }

  function Step(s: State, l: Label): (r: State)
    requires Enabled(s, l)
  {
    match l
    case Call(t, role) => s.(pc := s.pc[t := Trying(role)])
    case Attempt(t, mayWait) => AttemptStep(s, t, s.pc[t].role, mayWait)
    case SuspendAll(t) => s.(sched := SuspendedBy(t), pc := s.pc[t := Suspending(s.pc[t].role)])
    case Lock(t) =>
      s.(rxLock := if s.rxLock == UNLOCKED then 0 else s.rxLock,
         txLock := if s.txLock == UNLOCKED then 0 else s.txLock,
         pc := s.pc[t := Locked(s.pc[t].role)])
    case CheckTimeOut(t, expired) =>
      var role := s.pc[t].role;
      s.(pc := s.pc[t := if expired then UnlockingTx(role, if role.Send? then GiveUp else LastLook)
                         else Looking(role)])
    case Look(t) =>
      var role := s.pc[t].role;
      s.(pc := s.pc[t := if Unusable(s, role) then Placing(role) else UnlockingTx(role, Retry)])
    case Join(t, at) => JoinStep(s, t, at)
    case UnlockTx(t) => UnlockTxStep(s, t)
    case UnlockRx(t) => UnlockRxStep(s, t)
    case ResumeAll(t) =>
      var role := s.pc[t].role;
      s.(sched := Running,
         pc := s.pc[t := match s.pc[t].after
                         case Block => Blocked(role)
                         case Retry => Trying(role)
                         case LastLook => Leaving(role)
                         case GiveUp => Idle])
    case Wakened(t) => s.(pc := s.pc[t := Trying(s.pc[t].role)])
    case FinalLook(t) =>
      s.(pc := s.pc[t := if s.messages == 0 then Idle else Trying(s.pc[t].role)])
    case Expire(t) => s.(toReceive := RemoveTask(s.toReceive, t), toSend := RemoveTask(s.toSend, t))
    case IsrSend(overwrite) => IsrSendStep(s, overwrite)
    case IsrReceive => IsrReceiveStep(s)
    case Reset(t) =>
      WakeSenders(s.(messages := 0, rxLock := UNLOCKED, txLock := UNLOCKED), Min(1, |s.toSend|))
  }

  // ---------------------------------------------------------------- invariants

  /** Between suspending and resuming the scheduler. */
  predicate Inside(p: Pc) {
    p.Suspending? || p.Locked? || p.Looking? || p.Placing? || p.UnlockingTx? || p.UnlockingRx? || p.Resuming?
  }

  predicate HoldsTx(p: Pc) {
    p.Locked? || p.Looking? || p.Placing? || p.UnlockingTx?
  }

  predicate HoldsRx(p: Pc) {
    HoldsTx(p) || p.UnlockingRx?
  }

  /** Program points at which the task may sit in an event list. */
  predicate Committed(p: Pc) {
    || p.Blocked?
    || ((p.UnlockingTx? || p.UnlockingRx? || p.Resuming?) && p.after == Block)
  }

  /** Locks are taken and released only inside a scheduler suspension. */
  ghost predicate LocksOk(pc: map<Tid, Pc>, sched: Sched, txLock: int, rxLock: int) {
    && (forall t :: t in pc && Inside(pc[t]) ==> sched == SuspendedBy(t))
    && (sched == Running ==> txLock == UNLOCKED && rxLock == UNLOCKED)
    && (sched.SuspendedBy? ==>
          && sched.owner in pc && Inside(pc[sched.owner])
          && (txLock != UNLOCKED <==> HoldsTx(pc[sched.owner]))
          && (rxLock != UNLOCKED <==> HoldsRx(pc[sched.owner])))
  }

  /** A list (and the tasks woken from it) holds only tasks committed to the matching role. */
  ghost predicate SideOk(pc: map<Tid, Pc>, q: seq<Tid>, woken: set<Tid>, send: bool) {
    && NoDup(q)
    && (forall t :: t in q ==> t in pc && t !in woken && Committed(pc[t]) && pc[t].role.Send? == send)
    && (forall t :: t in woken ==>
          t in pc && (Committed(pc[t]) || pc[t].Trying?) && pc[t].role.Send? == send)
  }

  predicate Bounds(s: State) {
    && s.length >= 1 && s.messages <= s.length && s.pc.Keys == s.tasks
    && UNLOCKED <= s.txLock <= |s.tasks| && UNLOCKED <= s.rxLock <= |s.tasks|
  }

  /** Only a queue of length 1 is overwritten; a send that times out gives up, a receive or peek looks once more. */
  ghost predicate RolesOk(pc: map<Tid, Pc>, length: nat) {
    forall t :: t in pc ==> RoleOk(pc[t], length)
  }

  predicate RoleOk(p: Pc, length: nat) {
    && (p != Idle && p.role.Send? && p.role.overwrite ==> length == 1)
    && ((p.UnlockingTx? || p.UnlockingRx? || p.Resuming?) && p.after == GiveUp ==> p.role.Send?)
    && ((p.UnlockingTx? || p.UnlockingRx? || p.Resuming?) && p.after == LastLook ==> !p.role.Send?)
    && (p.Leaving? ==> !p.role.Send?)
  }

  ghost predicate Shape(s: State) {
    && Bounds(s) && RolesOk(s.pc, s.length) && LocksOk(s.pc, s.sched, s.txLock, s.rxLock)
    && SideOk(s.pc, s.toReceive, s.wokenReceivers, false)
    && SideOk(s.pc, s.toSend, s.wokenSenders, true)
  }

  /** `available` units are accounted for by woken tasks, by the lock count, or by a full count. */
  predicate Covered(available: int, woken: set<Tid>, lock: int, numberOfTasks: nat) {
    available <= |woken| + Pos(lock) || lock == numberOfTasks
  }

  /** Nothing a waiting task of one side could use is unaccounted for, and neither is
      anything that turned up since a task of that side decided to block. */
  ghost predicate CoverOk(pc: map<Tid, Pc>, available: int, q: seq<Tid>, woken: set<Tid>, lock: int, n: nat,
                          send: bool) {
    && (q != [] ==> Covered(available, woken, lock, n))
    && (forall t :: t in pc && pc[t].Placing? && pc[t].role.Send? == send ==> Covered(available, {}, lock, n))
  }

  /** No receiver can be left waiting beside a message nobody was told about. */
  ghost predicate ReceiversOk(s: State) {
    CoverOk(s.pc, s.messages, s.toReceive, s.wokenReceivers, s.txLock, |s.tasks|, false)
  }

  /** The same for senders and free slots. */
  ghost predicate SendersOk(s: State) {
    CoverOk(s.pc, s.length - s.messages, s.toSend, s.wokenSenders, s.rxLock, |s.tasks|, true)
  }

  ghost predicate Init(s: State) {
    && s.length >= 1 && s.messages <= s.length
    && s.pc.Keys == s.tasks && (forall t :: t in s.pc ==> s.pc[t] == Idle)
    && s.rxLock == UNLOCKED && s.txLock == UNLOCKED && s.sched == Running
    && s.toReceive == [] && s.toSend == [] && s.wokenReceivers == {} && s.wokenSenders == {}
  }

  // ---------------------------------------------------------------- list lemmas

  lemma {:induction false} RemoveTaskFacts(q: seq<Tid>, t: Tid)
    requires NoDup(q)
    ensures NoDup(RemoveTask(q, t)) && t !in RemoveTask(q, t)
    ensures forall x :: x in RemoveTask(q, t) <==> x in q && x != t
  {
    if q != [] && q[0] != t {
      RemoveTaskFacts(q[1..], t);
      var r := RemoveTask(q[1..], t);
      assert q == [q[0]] + q[1..];
      assert RemoveTask(q, t) == [q[0]] + r;
      assert q[0] !in q[1..];
    } else if q != [] {
      assert q == [q[0]] + q[1..];
      assert q[0] !in q[1..];
    }
  }

  lemma InsertAtFacts(q: seq<Tid>, at: nat, t: Tid)
    requires at <= |q| && NoDup(q) && t !in q
    ensures NoDup(InsertAt(q, at, t)) && InsertAt(q, at, t)[at] == t
    ensures InsertAt(q, at, t)[..at] == q[..at] && InsertAt(q, at, t)[at + 1..] == q[at..]
    ensures forall x :: x in InsertAt(q, at, t) <==> x in q || x == t
  {
    var r := InsertAt(q, at, t);
    assert r[at] == t;
    forall x | x in q ensures x in r {
      var i :| 0 <= i < |q| && q[i] == x;
      assert r[if i < at then i else i + 1] == x;
    }
  }

  lemma {:induction false} NoDupBound(q: seq<Tid>, all: set<Tid>)
    requires NoDup(q) && forall x :: x in q ==> x in all
    ensures |q| <= |all|
  {
    if q != [] {
      assert forall x :: x in q[1..] ==> x in q;
      assert q[0] !in q[1..];
      NoDupBound(q[1..], all - {q[0]});
    }
  }

  lemma {:induction false} NoDupSize(q: seq<Tid>)
    requires NoDup(q)
    ensures |ToSet(q)| == |q|
  {
    if q == [] {
      assert ToSet(q) == {};
    } else {
      NoDupSize(q[1..]);
      assert q == [q[0]] + q[1..];
      assert ToSet(q) == {q[0]} + ToSet(q[1..]);
    }
  }

  /** Waking the first k tasks of a list adds exactly k woken tasks. */
  lemma WakeFacts(q: seq<Tid>, woken: set<Tid>, k: nat)
    requires NoDup(q) && k <= |q| && forall t :: t in q ==> t !in woken
    ensures |woken + ToSet(q[..k])| == |woken| + k
    ensures NoDup(q[k..]) && forall t :: t in q[k..] ==> t in q && t !in woken + ToSet(q[..k])
    ensures forall t :: t in ToSet(q[..k]) ==> t in q
  {
    NoDupSize(q[..k]);
    assert woken !! ToSet(q[..k]);
  }

  // ---------------------------------------------------------------- preservation

  lemma SideWake(pc: map<Tid, Pc>, q: seq<Tid>, woken: set<Tid>, send: bool, k: nat)
    requires SideOk(pc, q, woken, send) && k <= |q|
    ensures SideOk(pc, q[k..], woken + ToSet(q[..k]), send)
  {
    WakeFacts(q, woken, k);
  }

  /** Moving a task between program points that keep its standing on one side. */
  lemma SideMove(pc: map<Tid, Pc>, q: seq<Tid>, woken: set<Tid>, send: bool, t: Tid, p: Pc)
    requires SideOk(pc, q, woken, send)
    requires t in q ==> Committed(p) && p.role.Send? == send
    requires t in woken ==> (Committed(p) || p.Trying?) && p.role.Send? == send
    ensures SideOk(pc[t := p], q, woken, send)
  {
  }

  /** The program counter a step gives to the task that takes it. */
  function NextPc(s: State, l: Label): (p: Pc)
    requires Enabled(s, l) && !l.IsrSend? && !l.IsrReceive?
  {
    Step(s, l).pc[l.t]
  }

  lemma StepMovesOnePc(s: State, l: Label)
    requires Bounds(s) && Enabled(s, l)
    ensures Step(s, l).pc == if l.IsrSend? || l.IsrReceive? then s.pc else s.pc[l.t := NextPc(s, l)]
    ensures Step(s, l).tasks == s.tasks && Step(s, l).length == s.length
  {
  }

  lemma BoundsPreserved(s: State, l: Label)
    requires Shape(s) && Enabled(s, l)
    ensures Bounds(Step(s, l)) && RolesOk(Step(s, l).pc, s.length)
  {
    StepMovesOnePc(s, l);
  }

  lemma LocksMove(pc: map<Tid, Pc>, sched: Sched, tx: int, rx: int, t: Tid, p: Pc, sched': Sched, tx': int, rx': int)
    requires LocksOk(pc, sched, tx, rx) && (sched == Running || sched == SuspendedBy(t))
    requires sched' == if Inside(p) then SuspendedBy(t) else Running
    requires tx' != UNLOCKED <==> HoldsTx(p)
    requires rx' != UNLOCKED <==> HoldsRx(p)
    ensures LocksOk(pc[t := p], sched', tx', rx')
  {
  }

  lemma LocksPreserved(s: State, l: Label)
    requires Shape(s) && Enabled(s, l)
    ensures var r := Step(s, l); LocksOk(r.pc, r.sched, r.txLock, r.rxLock)
  {
    hide SideOk, RolesOk;
    StepMovesOnePc(s, l);
    if !l.IsrSend? && !l.IsrReceive? {
      var r := Step(s, l);
      LocksMove(s.pc, s.sched, s.txLock, s.rxLock, l.t, NextPc(s, l), r.sched, r.txLock, r.rxLock);
    }
  }

  /** Steps that move one program counter and touch neither list nor the message count. */
  predicate Quiet(l: Label) {
    || l.Call? || l.SuspendAll? || l.Lock? || l.CheckTimeOut? || l.Look? || l.ResumeAll? || l.Wakened? || l.FinalLook?
  }

  lemma QuietSides(s: State, l: Label)
    requires Shape(s) && Enabled(s, l) && Quiet(l)
    ensures BothSides(Step(s, l))
  {
    StepMovesOnePc(s, l);
    SideMove(s.pc, s.toReceive, s.wokenReceivers, false, l.t, NextPc(s, l));
    SideMove(s.pc, s.toSend, s.wokenSenders, true, l.t, NextPc(s, l));
  }

  ghost predicate BothSides(s: State) {
    && SideOk(s.pc, s.toReceive, s.wokenReceivers, false) && SideOk(s.pc, s.toSend, s.wokenSenders, true)
  }

  lemma AttemptSides(s: State, l: Label)
    requires Shape(s) && Enabled(s, l) && l.Attempt?
    ensures BothSides(AttemptStep(s, l.t, s.pc[l.t].role, l.mayWait))
  {
    var r := AttemptStep(s, l.t, s.pc[l.t].role, l.mayWait);
    SideMove(s.pc, s.toReceive, s.wokenReceivers - {l.t}, false, l.t, r.pc[l.t]);
    SideWake(r.pc, s.toReceive, s.wokenReceivers - {l.t}, false, |s.toReceive| - |r.toReceive|);
    SideMove(s.pc, s.toSend, s.wokenSenders - {l.t}, true, l.t, r.pc[l.t]);
    SideWake(r.pc, s.toSend, s.wokenSenders - {l.t}, true, |s.toSend| - |r.toSend|);
  }

  lemma UnlockTxSides(s: State, t: Tid)
    requires Shape(s) && Enabled(s, UnlockTx(t))
    ensures BothSides(UnlockTxStep(s, t))
  {
    var p := UnlockingRx(s.pc[t].role, s.pc[t].after);
    SideMove(s.pc, s.toReceive, s.wokenReceivers, false, t, p);
    SideWake(s.pc[t := p], s.toReceive, s.wokenReceivers, false, Min(Pos(s.txLock), |s.toReceive|));
    SideMove(s.pc, s.toSend, s.wokenSenders, true, t, p);
  }

  lemma UnlockRxSides(s: State, t: Tid)
    requires Shape(s) && Enabled(s, UnlockRx(t))
    ensures BothSides(UnlockRxStep(s, t))
  {
    var p := Resuming(s.pc[t].role, s.pc[t].after);
    SideMove(s.pc, s.toReceive, s.wokenReceivers, false, t, p);
    SideMove(s.pc, s.toSend, s.wokenSenders, true, t, p);
    SideWake(s.pc[t := p], s.toSend, s.wokenSenders, true, Min(Pos(s.rxLock), |s.toSend|));
  }

  lemma IsrSides(s: State, l: Label)
    requires Shape(s) && Enabled(s, l) && (l.IsrSend? || l.IsrReceive? || l.Reset?)
    ensures BothSides(Step(s, l))
  {
    SideWake(s.pc, s.toReceive, s.wokenReceivers, false, Min(1, |s.toReceive|));
    SideWake(s.pc, s.toSend, s.wokenSenders, true, Min(1, |s.toSend|));
  }

  lemma JoinSides(s: State, t: Tid, at: nat)
    requires Shape(s) && Enabled(s, Join(t, at))
    ensures BothSides(JoinStep(s, t, at))
  {
    var p := UnlockingTx(s.pc[t].role, Block);
    SideMove(s.pc, s.toReceive, s.wokenReceivers, false, t, p);
    SideMove(s.pc, s.toSend, s.wokenSenders, true, t, p);
    InsertAtFacts(if s.pc[t].role.Send? then s.toSend else s.toReceive, at, t);
  }

  lemma ExpireSides(s: State, t: Tid)
    requires Shape(s) && Enabled(s, Expire(t))
    ensures BothSides(Step(s, Expire(t)))
  {
    RemoveTaskFacts(s.toReceive, t);
    RemoveTaskFacts(s.toSend, t);
  }

  lemma SidesPreserved(s: State, l: Label)
    requires Shape(s) && Enabled(s, l)
    ensures BothSides(Step(s, l))
  {
    match l
    case Attempt(_, _) => AttemptSides(s, l);
    case UnlockTx(t) => UnlockTxSides(s, t);
    case UnlockRx(t) => UnlockRxSides(s, t);
    case Join(t, at) => JoinSides(s, t, at);
    case Expire(t) => ExpireSides(s, t);
    case IsrSend(_) => IsrSides(s, l);
    case IsrReceive => IsrSides(s, l);
    case Reset(_) => IsrSides(s, l);
    case _ => QuietSides(s, l);
  }

  lemma ShapePreserved(s: State, l: Label)
    requires Shape(s) && Enabled(s, l)
    ensures Shape(Step(s, l))
  {
    BoundsPreserved(s, l);
    LocksPreserved(s, l);
    SidesPreserved(s, l);
    StepMovesOnePc(s, l);
  }

  /** Removing one task from a woken set costs at most one. */
  lemma DropOne(woken: set<Tid>, t: Tid)
    ensures |woken - {t}| >= |woken| - 1 && (t !in woken ==> woken - {t} == woken)
  {
    if t in woken {
      assert woken == (woken - {t}) + {t};
    }
  }

  /** A task retries (perhaps consuming one unit) and one waiter is woken for `gained` new units. */
  lemma CoverRetry(pc: map<Tid, Pc>, avail: int, q: seq<Tid>, woken: set<Tid>, lock: int, n: nat, send: bool,
                   t: Tid, avail': int, k: nat)
    requires CoverOk(pc, avail, q, woken, lock, n, send) && SideOk(pc, q, woken, send)
    requires lock == UNLOCKED && k <= |q|
    requires avail' <= avail + k - (if t in woken then 1 else 0) || avail' == 0 || k == |q|
    requires forall x :: x in pc ==> !pc[x].Placing?
    ensures CoverOk(pc, avail', q[k..], (woken - {t}) + ToSet(q[..k]), lock, n, send)
  {
    DropOne(woken, t);
    WakeFacts(q, woken - {t}, k);
  }

  /** prvUnlockQueue wakes as many waiters as the lock count recorded. */
  lemma CoverUnlock(pc: map<Tid, Pc>, avail: int, q: seq<Tid>, woken: set<Tid>, lock: int, n: nat, send: bool)
    requires CoverOk(pc, avail, q, woken, lock, n, send) && SideOk(pc, q, woken, send)
    requires |q| <= n && forall x :: x in pc ==> !pc[x].Placing?
    ensures var k := Min(Pos(lock), |q|); CoverOk(pc, avail, q[k..], woken + ToSet(q[..k]), UNLOCKED, n, send)
  {
    WakeFacts(q, woken, Min(Pos(lock), |q|));
  }

  /** While the scheduler runs, and while its suspender is not placing itself, nobody is placing itself. */
  lemma NobodyPlacing(s: State, l: Label)
    requires Shape(s) && Enabled(s, l) && (l.Attempt? || l.UnlockTx? || l.UnlockRx?)
    ensures forall x :: x in s.pc ==> !s.pc[x].Placing?
    ensures l.Attempt? ==> s.txLock == UNLOCKED && s.rxLock == UNLOCKED
  {
  }

  lemma UnplacedMove(pc: map<Tid, Pc>, t: Tid, p: Pc, avail: int, q: seq<Tid>, woken: set<Tid>, lock: int, n: nat,
                     send: bool)
    requires CoverOk(pc, avail, q, woken, lock, n, send)
    requires p.Placing? && p.role.Send? == send ==> Covered(avail, {}, lock, n)
    ensures CoverOk(pc[t := p], avail, q, woken, lock, n, send)
  {
  }

  lemma QuietCover(s: State, l: Label)
    requires Shape(s) && Enabled(s, l) && Quiet(l)
    ensures ReceiversOk(s) ==> ReceiversOk(Step(s, l))
    ensures SendersOk(s) ==> SendersOk(Step(s, l))
  {
    StepMovesOnePc(s, l);
    var p := NextPc(s, l);
    var r := Step(s, l);
    if ReceiversOk(s) {
      UnplacedMove(s.pc, l.t, p, s.messages, s.toReceive, s.wokenReceivers, s.txLock, |s.tasks|, false);
    }
    if SendersOk(s) {
      UnplacedMove(s.pc, l.t, p, s.length - s.messages, s.toSend, s.wokenSenders, s.rxLock, |s.tasks|, true);
    }
  }

  /** CoverRetry carried over to the program counter the attempt leaves behind. */
  lemma CoverAttempt(pc: map<Tid, Pc>, avail: int, q: seq<Tid>, woken: set<Tid>, n: nat, send: bool,
                     t: Tid, p: Pc, avail': int, k: nat)
    requires CoverOk(pc, avail, q, woken, UNLOCKED, n, send) && SideOk(pc, q, woken, send)
    requires k <= |q| && !p.Placing?
    requires avail' <= avail + k - (if t in woken then 1 else 0) || avail' == 0 || k == |q|
    requires forall x :: x in pc ==> !pc[x].Placing?
    ensures CoverOk(pc[t := p], avail', q[k..], (woken - {t}) + ToSet(q[..k]), UNLOCKED, n, send)
  {
    CoverRetry(pc, avail, q, woken, UNLOCKED, n, send, t, avail', k);
    UnplacedMove(pc, t, p, avail', q[k..], (woken - {t}) + ToSet(q[..k]), UNLOCKED, n, send);
  }

  lemma AttemptCoversReceivers(s: State, l: Label)
    requires Shape(s) && Enabled(s, l) && l.Attempt? && ReceiversOk(s)
    ensures ReceiversOk(AttemptStep(s, l.t, s.pc[l.t].role, l.mayWait))
  {
    NobodyPlacing(s, l);
    var r := AttemptStep(s, l.t, s.pc[l.t].role, l.mayWait);
    CoverAttempt(s.pc, s.messages, s.toReceive, s.wokenReceivers, |s.tasks|, false, l.t, r.pc[l.t],
                 r.messages, |s.toReceive| - |r.toReceive|);
  }

  lemma AttemptCoversSenders(s: State, l: Label)
    requires Shape(s) && Enabled(s, l) && l.Attempt? && SendersOk(s)
    ensures SendersOk(AttemptStep(s, l.t, s.pc[l.t].role, l.mayWait))
  {
    NobodyPlacing(s, l);
    var r := AttemptStep(s, l.t, s.pc[l.t].role, l.mayWait);
    CoverAttempt(s.pc, s.length - s.messages, s.toSend, s.wokenSenders, |s.tasks|, true, l.t, r.pc[l.t],
                 s.length - r.messages, |s.toSend| - |r.toSend|);
  }

  lemma UnlockTxCover(s: State, t: Tid)
    requires Shape(s) && Enabled(s, UnlockTx(t))
    ensures ReceiversOk(s) ==> ReceiversOk(UnlockTxStep(s, t))
    ensures SendersOk(s) ==> SendersOk(UnlockTxStep(s, t))
  {
    NobodyPlacing(s, UnlockTx(t));
    NoDupBound(s.toReceive, s.tasks);
    var p := UnlockingRx(s.pc[t].role, s.pc[t].after);
    if ReceiversOk(s) {
      CoverUnlock(s.pc, s.messages, s.toReceive, s.wokenReceivers, s.txLock, |s.tasks|, false);
    }
  }

  lemma UnlockRxCover(s: State, t: Tid)
    requires Shape(s) && Enabled(s, UnlockRx(t))
    ensures ReceiversOk(s) ==> ReceiversOk(UnlockRxStep(s, t))
    ensures SendersOk(s) ==> SendersOk(UnlockRxStep(s, t))
  {
    NobodyPlacing(s, UnlockRx(t));
    NoDupBound(s.toSend, s.tasks);
    if SendersOk(s) {
      CoverUnlock(s.pc, s.length - s.messages, s.toSend, s.wokenSenders, s.rxLock, |s.tasks|, true);
    }
  }

  /** One new unit from an interrupt: a waiter is woken, or the lock count grows, or it is at its cap. */
  lemma CoverGain(pc: map<Tid, Pc>, avail: int, q: seq<Tid>, woken: set<Tid>, lock: int, n: nat, send: bool,
                  avail': int)
    requires CoverOk(pc, avail, q, woken, lock, n, send) && SideOk(pc, q, woken, send)
    requires avail' <= avail + 1 && UNLOCKED <= lock <= n
    ensures lock != UNLOCKED ==> CoverOk(pc, avail', q, woken, Bump(lock, n), n, send)
    ensures var k := Min(1, |q|);
      lock == UNLOCKED && (forall x :: x in pc ==> !pc[x].Placing?) ==>
        CoverOk(pc, avail', q[k..], woken + ToSet(q[..k]), lock, n, send)
  {
    WakeFacts(q, woken, Min(1, |q|));
  }

  lemma CoverLoss(pc: map<Tid, Pc>, avail: int, q: seq<Tid>, woken: set<Tid>, lock: int, n: nat, send: bool,
                  avail': int)
    requires CoverOk(pc, avail, q, woken, lock, n, send) && avail' <= avail
    ensures CoverOk(pc, avail', q, woken, lock, n, send)
  {
  }

  lemma PlacingIsLocked(s: State)
    requires Shape(s)
    ensures s.txLock == UNLOCKED || s.rxLock == UNLOCKED ==> forall x :: x in s.pc ==> !s.pc[x].Placing?
  {
  }

  lemma IsrSendCover(s: State, overwrite: bool)
    requires Shape(s) && Enabled(s, IsrSend(overwrite))
    ensures ReceiversOk(s) ==> ReceiversOk(IsrSendStep(s, overwrite))
    ensures SendersOk(s) ==> SendersOk(IsrSendStep(s, overwrite))
  {
    PlacingIsLocked(s);
    var r := IsrSendStep(s, overwrite);
    if ReceiversOk(s) {
      CoverGain(s.pc, s.messages, s.toReceive, s.wokenReceivers, s.txLock, |s.tasks|, false, r.messages);
    }
    if SendersOk(s) {
      CoverLoss(s.pc, s.length - s.messages, s.toSend, s.wokenSenders, s.rxLock, |s.tasks|, true,
                s.length - r.messages);
    }
  }

  lemma IsrReceiveCover(s: State)
    requires Shape(s)
    ensures ReceiversOk(s) ==> ReceiversOk(IsrReceiveStep(s))
    ensures SendersOk(s) ==> SendersOk(IsrReceiveStep(s))
  {
    PlacingIsLocked(s);
    var r := IsrReceiveStep(s);
    if ReceiversOk(s) {
      CoverLoss(s.pc, s.messages, s.toReceive, s.wokenReceivers, s.txLock, |s.tasks|, false, r.messages);
    }
    if SendersOk(s) {
      CoverGain(s.pc, s.length - s.messages, s.toSend, s.wokenSenders, s.rxLock, |s.tasks|, true,
                s.length - r.messages);
    }
  }

  lemma JoinCover(s: State, l: Label)
    requires Shape(s) && Enabled(s, l) && (l.Join? || l.Expire?)
    ensures ReceiversOk(s) ==> ReceiversOk(Step(s, l))
    ensures SendersOk(s) ==> SendersOk(Step(s, l))
  {
    if l.Expire? {
      RemoveTaskFacts(s.toReceive, l.t);
      RemoveTaskFacts(s.toSend, l.t);
    }
  }

  /** Every step keeps waiting receivers covered; every step except a reset keeps waiting
      senders covered. */
  lemma CoverPreserved(s: State, l: Label)
    requires Shape(s) && Enabled(s, l)
    ensures ReceiversOk(s) ==> ReceiversOk(Step(s, l))
    ensures SendersOk(s) && !l.Reset? ==> SendersOk(Step(s, l))
  {
    if Quiet(l) {
      QuietCover(s, l);
    } else if l.Attempt? {
      if ReceiversOk(s) {
        AttemptCoversReceivers(s, l);
      }
      if SendersOk(s) {
        AttemptCoversSenders(s, l);
      }
    } else if l.UnlockTx? {
      UnlockTxCover(s, l.t);
    } else if l.UnlockRx? {
      UnlockRxCover(s, l.t);
    } else if l.IsrSend? {
      IsrSendCover(s, l.overwrite);
    } else if l.IsrReceive? {
      IsrReceiveCover(s);
    } else if l.Join? || l.Expire? {
      JoinCover(s, l);
    } else {
      assert l.Reset?;
    }
  }

  // ---------------------------------------------------------------- whole runs

  /** `run` starts in an initial state and takes the steps named by `labels`. */
  ghost predicate IsRun(run: seq<State>, labels: seq<Label>) {
    && |run| == |labels| + 1 && Init(run[0])
    && forall i :: 0 <= i < |labels| ==> Enabled(run[i], labels[i]) && run[i + 1] == Step(run[i], labels[i])
  }

  lemma {:induction false} RunKeepsReceiversCovered(run: seq<State>, labels: seq<Label>, i: nat)
    requires IsRun(run, labels) && i < |run|
    ensures Shape(run[i]) && ReceiversOk(run[i])
  {
    if i > 0 {
      RunKeepsReceiversCovered(run, labels, i - 1);
      ShapePreserved(run[i - 1], labels[i - 1]);
      CoverPreserved(run[i - 1], labels[i - 1]);
    }
  }

  lemma {:induction false} RunKeepsSendersCovered(run: seq<State>, labels: seq<Label>, i: nat)
    requires IsRun(run, labels) && i < |run|
    requires forall j :: 0 <= j < i ==> !labels[j].Reset?
    ensures SendersOk(run[i])
  {
    if i > 0 {
      RunKeepsSendersCovered(run, labels, i - 1);
      RunKeepsReceiversCovered(run, labels, i - 1);
      CoverPreserved(run[i - 1], labels[i - 1]);
    }
  }

  lemma RunStep(run: seq<State>, labels: seq<Label>, i: nat)
    requires IsRun(run, labels) && i + 1 < |run|
    ensures |run| == |labels| + 1 && Shape(run[i]) && Enabled(run[i], labels[i])
    ensures run[i + 1] == Step(run[i], labels[i])
  {
    hide Shape, Step, Enabled;
    RunKeepsReceiversCovered(run, labels, i);
  }

  /** No lost wake-up for receivers, in every run: a receiver stays in the event list beside
      messages only while enough woken receivers have still to retry or the lock count still
      owes wake-ups; with the queue unlocked and every woken receiver retried, the queue is empty. */
  lemma NoReceiverLeftBehind(run: seq<State>, labels: seq<Label>, i: nat)
    requires IsRun(run, labels) && i < |run| && run[i].toReceive != []
    ensures var s := run[i];
      || s.messages <= |s.wokenReceivers| + Pos(s.txLock)
      || (s.txLock == |s.tasks| && |s.toReceive| <= s.txLock)
    ensures run[i].txLock == UNLOCKED && run[i].wokenReceivers == {} ==> run[i].messages == 0
  {
    RunKeepsReceiversCovered(run, labels, i);
    NoDupBound(run[i].toReceive, run[i].tasks);
  }

  /** The same for senders, in every run without xQueueGenericReset. */
  lemma NoSenderLeftBehind(run: seq<State>, labels: seq<Label>, i: nat)
    requires IsRun(run, labels) && i < |run| && run[i].toSend != []
    requires forall j :: 0 <= j < i ==> !labels[j].Reset?
    ensures var s := run[i];
      || s.length - s.messages <= |s.wokenSenders| + Pos(s.rxLock)
      || (s.rxLock == |s.tasks| && |s.toSend| <= s.rxLock)
    ensures run[i].rxLock == UNLOCKED && run[i].wokenSenders == {} ==> run[i].messages == run[i].length
  {
    RunKeepsReceiversCovered(run, labels, i);
    RunKeepsSendersCovered(run, labels, i);
    NoDupBound(run[i].toSend, run[i].tasks);
  }

  /** The lock counts never pass the number of tasks, so with at most 127 tasks the
      assertion in prvIncrementQueueTxLock and prvIncrementQueueRxLock cannot fail. */
  lemma LockCountsFitInt8(run: seq<State>, labels: seq<Label>, i: nat)
    requires IsRun(run, labels) && i < |run| && |run[i].tasks| <= 127
    ensures UNLOCKED <= run[i].txLock <= |run[i].tasks| && UNLOCKED <= run[i].rxLock <= |run[i].tasks|
    ensures Bump(run[i].txLock, |run[i].tasks|) <= 127 && Bump(run[i].rxLock, |run[i].tasks|) <= 127
  {
    RunKeepsReceiversCovered(run, labels, i);
  }

  // ---------------------------------------------------------------- what a call does

  /** The first critical section of a call.  A send finds the queue usable unless it is full and not to be overwritten,
      a receive and a peek unless it is empty.  On a usable queue the call returns: a send has stored one item more (or
      replaced the one there), a receive has taken one, and the first waiter of the other side (for a peek, of its own)
      is woken.  Otherwise nothing changes but t's own marks, and t goes on to wait if it has a block time. */
  lemma AttemptOutcome(s: State, t: Tid, mayWait: bool)
    requires Shape(s) && Enabled(s, Attempt(t, mayWait))
    ensures var r := Step(s, Attempt(t, mayWait)); var role := s.pc[t].role;
      var usable := if role.Send? then s.messages < s.length || role.overwrite else s.messages > 0;
      && r.pc == s.pc[t := if !usable && mayWait then Waiting(role) else Idle]
      && (!usable || role.Peek? ==> r.messages == s.messages)
      && (usable && role.Send? && s.messages < s.length ==> r.messages == s.messages + 1)
      && (usable && role.Send? && s.messages == s.length ==> r.messages == s.messages)
      && (usable && role.Receive? ==> r.messages == s.messages - 1)
      && (usable && !role.Receive? && s.toReceive != [] ==>
            && r.toReceive == s.toReceive[1..] && s.toReceive[0] in r.wokenReceivers
            && r.wokenReceivers - {s.toReceive[0]} == s.wokenReceivers - {t})
      && (!usable || role.Receive? || s.toReceive == [] ==>
            r.toReceive == s.toReceive && r.wokenReceivers == s.wokenReceivers - {t})
      && (usable && role.Receive? && s.toSend != [] ==>
            && r.toSend == s.toSend[1..] && s.toSend[0] in r.wokenSenders
            && r.wokenSenders - {s.toSend[0]} == s.wokenSenders - {t})
      && (!usable || !role.Receive? || s.toSend == [] ==>
            r.toSend == s.toSend && r.wokenSenders == s.wokenSenders - {t})
      && r.sched == s.sched && r.txLock == s.txLock && r.rxLock == s.rxLock
  {
    hide LocksOk;
    var role := s.pc[t].role;
    var usable := if role.Send? then s.messages < s.length || role.overwrite else s.messages > 0;
    assert s.toReceive != [] ==> ToSet(s.toReceive[..1]) == {s.toReceive[0]} && s.toReceive[0] in s.toReceive;
    assert s.toSend != [] ==> ToSet(s.toSend[..1]) == {s.toSend[0]} && s.toSend[0] in s.toSend;
    assert ToSet(s.toReceive[..0]) == {} && ToSet(s.toSend[..0]) == {};
  }

  /** A call ends in four ways only: it found the queue usable; it found it unusable and had no block time; a receive
      or peek that timed out found it empty once more; or a send timed out. */
  ghost predicate EndsRightly(s: State, l: Label, t: Tid)
    requires t in s.pc && s.pc[t] != Idle
  {
    var role := s.pc[t].role;
    || (l.Attempt? && l.t == t && if role.Send? then s.messages < s.length || role.overwrite else s.messages > 0)
    || (l == Attempt(t, false) && if role.Send? then s.messages == s.length else s.messages == 0)
    || (l == FinalLook(t) && !role.Send? && s.messages == 0)
    || (l == ResumeAll(t) && s.pc[t] == Resuming(role, GiveUp) && role.Send?)
  }

  lemma StepEndsRightly(s: State, l: Label, t: Tid)
    requires Shape(s) && Enabled(s, l) && t in s.pc && s.pc[t] != Idle
    ensures t in Step(s, l).pc && (Step(s, l).pc[t] == Idle ==> EndsRightly(s, l, t))
  {
    hide SideOk, LocksOk;
  }

  lemma CallsEndRightly(run: seq<State>, labels: seq<Label>, i: nat, t: Tid)
    requires IsRun(run, labels) && i < |labels| && t in run[i].pc && run[i].pc[t] != Idle
    ensures t in run[i + 1].pc && (run[i + 1].pc[t] == Idle ==> EndsRightly(run[i], labels[i], t))
  {
    hide Shape, Step, Enabled, EndsRightly;
    RunStep(run, labels, i);
    StepEndsRightly(run[i], labels[i], t);
  }

  /** The next step of a task that has the scheduler suspended, if its time is not up. */
  function NextInside(s: State, t: Tid): (l: Label)
    requires t in s.pc && Inside(s.pc[t])
  {
    match s.pc[t]
    case Suspending(_) => Lock(t)
    case Locked(_) => CheckTimeOut(t, false)
    case Looking(_) => Look(t)
    case Placing(_) => Join(t, 0)
    case UnlockingTx(_, _) => UnlockTx(t)
    case UnlockingRx(_, _) => UnlockRx(t)
    case Resuming(_, _) => ResumeAll(t)
  }

  /** How many steps it still has to take, at most. */
  function StepsInside(p: Pc): (n: nat)
  {
    match p
    case Suspending(_) => 7
    case Locked(_) => 6
    case Looking(_) => 5
    case Placing(_) => 4
    case UnlockingTx(_, _) => 3
    case UnlockingRx(_, _) => 2
    case Resuming(_, _) => 1
    case _ => 0
  }

  lemma InsideMoves(s: State, t: Tid)
    requires Shape(s) && s.sched == SuspendedBy(t)
    ensures t in s.pc && Inside(s.pc[t]) && Enabled(s, NextInside(s, t)) && StepsInside(s.pc[t]) > 0
    ensures var r := Step(s, NextInside(s, t));
      && t in r.pc && StepsInside(r.pc[t]) < StepsInside(s.pc[t])
      && (r.sched == Running || r.sched == SuspendedBy(t))
  {
    hide SideOk, RolesOk;
  }

  /** A task that has suspended the scheduler is never stuck: wherever it is, at most seven steps of its own resume the
      scheduler with the queue unlocked. */
  lemma {:induction false} SuspenderFinishes(s: State, t: Tid) returns (states: seq<State>)
    requires Shape(s) && s.sched == SuspendedBy(t)
    ensures 2 <= |states| <= 8 && states[0] == s
    ensures forall i :: 0 <= i < |states| - 1 ==> StepsAlone(states[i], states[i + 1], t)
    ensures var r := states[|states| - 1]; r.sched == Running && r.txLock == UNLOCKED && r.rxLock == UNLOCKED
    ensures t in s.pc && |states| <= StepsInside(s.pc[t]) + 1
    decreases if t in s.pc then StepsInside(s.pc[t]) else 0
  {
    InsideMoves(s, t);
    var r := Step(s, NextInside(s, t));
    ShapePreserved(s, NextInside(s, t));
    assert StepsAlone(s, r, t);
    hide Inside, NextInside, Enabled, Step, StepsAlone, BothSides, SideOk, RolesOk;
    if r.sched == Running {
      states := [s, r];
    } else {
      var rest := SuspenderFinishes(r, t);
      states := [s] + rest;
    }
  }

  ghost predicate StepsAlone(s: State, r: State, t: Tid) {
    t in s.pc && Inside(s.pc[t]) && Enabled(s, NextInside(s, t)) && r == Step(s, NextInside(s, t))
  }

  /** A waiter whose time runs out leaves its list, and no other does; it can then go on. */
  lemma ExpireOutcome(s: State, t: Tid)
    requires Shape(s) && Enabled(s, Expire(t))
    ensures var r := Step(s, Expire(t));
      && t !in r.toReceive && t !in r.toSend && Enabled(r, Wakened(t))
      && (forall u :: u != t ==> (u in r.toReceive <==> u in s.toReceive) && (u in r.toSend <==> u in s.toSend))
      && r == s.(toReceive := r.toReceive, toSend := r.toSend)
  {
    RemoveTaskFacts(s.toReceive, t);
    RemoveTaskFacts(s.toSend, t);
  }

  /** The step puts one more item into the queue, or takes one out. */
  predicate Stores(s: State, l: Label) {
    s.messages < s.length && (l.IsrSend? || (l.Attempt? && l.t in s.pc && s.pc[l.t].Trying? && s.pc[l.t].role.Send?))
  }

  predicate Takes(s: State, l: Label) {
    s.messages > 0 && (l.IsrReceive? || (l.Attempt? && l.t in s.pc && s.pc[l.t].Trying? && s.pc[l.t].role.Receive?))
  }

  /** How many of the first i steps store an item, and how many take one. */
  function Stored(run: seq<State>, labels: seq<Label>, i: nat): (n: nat)
    requires i <= |labels| < |run|
  {
    if i == 0 then 0 else Stored(run, labels, i - 1) + if Stores(run[i - 1], labels[i - 1]) then 1 else 0
  }

  function Taken(run: seq<State>, labels: seq<Label>, i: nat): (n: nat)
    requires i <= |labels| < |run|
  {
    if i == 0 then 0 else Taken(run, labels, i - 1) + if Takes(run[i - 1], labels[i - 1]) then 1 else 0
  }

  lemma StepBalance(s: State, l: Label)
    requires Shape(s) && Enabled(s, l) && !l.Reset?
    ensures Step(s, l).messages ==
            s.messages + (if Stores(s, l) then 1 else 0) - (if Takes(s, l) then 1 else 0)
  {
    hide SideOk, LocksOk;
  }

  /** Conservation: in every run without a reset, what is in the queue is what was there, plus what was stored, less
      what was taken. */
  lemma {:induction false} MessagesConserved(run: seq<State>, labels: seq<Label>, i: nat)
    requires IsRun(run, labels) && i < |run| && forall j :: 0 <= j < i ==> !labels[j].Reset?
    ensures run[i].messages + Taken(run, labels, i) == run[0].messages + Stored(run, labels, i)
  {
    if i > 0 {
      MessagesConserved(run, labels, i - 1);
      RunKeepsReceiversCovered(run, labels, i - 1);
      hide Shape, ReceiversOk, Step, Stores, Takes;
      StepBalance(run[i - 1], labels[i - 1]);
    }
  }

  /** A post by an interrupt that succeeds, and a removal. */
  predicate IsrPosts(s: State, l: Label) { l.IsrSend? && (s.messages < s.length || l.overwrite) }

  predicate IsrRemoves(s: State, l: Label) { l.IsrReceive? && s.messages > 0 }

  function Posts(run: seq<State>, labels: seq<Label>, i: nat, j: nat): (n: nat)
    requires i <= j <= |labels| < |run|
    decreases j - i
  {
    if i == j then 0 else Posts(run, labels, i, j - 1) + if IsrPosts(run[j - 1], labels[j - 1]) then 1 else 0
  }

  function Removals(run: seq<State>, labels: seq<Label>, i: nat, j: nat): (n: nat)
    requires i <= j <= |labels| < |run|
    decreases j - i
  {
    if i == j then 0 else Removals(run, labels, i, j - 1) + if IsrRemoves(run[j - 1], labels[j - 1]) then 1 else 0
  }

  /** One step of a locked queue that does not unlock it. */
  lemma LockCountStep(s: State, l: Label)
    requires Shape(s) && Enabled(s, l) && !l.Reset?
    ensures s.txLock != UNLOCKED && !l.UnlockTx? ==>
      Step(s, l).txLock == Min(|s.tasks|, s.txLock + if IsrPosts(s, l) then 1 else 0)
    ensures s.rxLock != UNLOCKED && !l.UnlockRx? ==>
      Step(s, l).rxLock == Min(|s.tasks|, s.rxLock + if IsrRemoves(s, l) then 1 else 0)
    ensures l.Lock? ==> Step(s, l).txLock == 0 && Step(s, l).rxLock == 0
    ensures Step(s, l).tasks == s.tasks
  {
    hide SideOk, RolesOk;
  }

  /** While a task holds the queue locked, the lock counts are exactly the numbers of posts and removals that interrupts
      have made since, up to the number of tasks. */
  lemma {:induction false} LockCountsArePosts(run: seq<State>, labels: seq<Label>, i: nat, j: nat)
    requires IsRun(run, labels) && i < j < |run| && labels[i].Lock?
    requires forall k :: i < k < j ==> !labels[k].UnlockTx? && !labels[k].UnlockRx? && !labels[k].Reset?
    ensures run[j].txLock == Min(|run[j].tasks|, Posts(run, labels, i + 1, j))
    ensures run[j].rxLock == Min(|run[j].tasks|, Removals(run, labels, i + 1, j))
    decreases j
  {
    hide Shape, Step, Enabled, IsRun, IsrPosts, IsrRemoves;
    RunStep(run, labels, j - 1);
    LockCountStep(run[j - 1], labels[j - 1]);
    if j > i + 1 {
      LockCountsArePosts(run, labels, i, j - 1);
    }
  }

  // ---------------------------------------------------------------- xQueueGenericReset

  /** A reset frees every slot but wakes one sender, so it keeps the sender-side guarantee
      exactly when at most one sender waited or the woken senders can fill the queue. */
  lemma ResetKeepsSendersExactlyWhen(s: State, t: Tid)
    requires Shape(s) && Enabled(s, Reset(t)) && SendersOk(s)
    ensures SendersOk(Step(s, Reset(t))) <==> |s.toSend| <= 1 || s.length <= |s.wokenSenders| + 1
  {
    NoDupBound(s.toSend, s.tasks);
    WakeFacts(s.toSend, s.wokenSenders, Min(1, |s.toSend|));
    var r := Step(s, Reset(t));
    assert forall x :: x in r.pc ==> !r.pc[x].Placing?;
    assert r.tasks == s.tasks && t in s.tasks;
  }

  /** In terms a caller can read: with at most one sender waiting, or one slot, a reset is safe. */
  lemma ResetSafeWithOneSenderOrSlot(s: State, t: Tid)
    requires Shape(s) && Enabled(s, Reset(t)) && SendersOk(s) && (|s.toSend| <= 1 || s.length == 1)
    ensures SendersOk(Step(s, Reset(t)))
  {
    ResetKeepsSendersExactlyWhen(s, t);
  }

  /** A full queue of two slots with two blocked senders. */
  function TwoBlockedSenders(): (s: State) {
    var tasks: set<Tid> := {1, 2, 3};
    State(tasks, 2, 2, UNLOCKED, UNLOCKED, [], [1, 2], {}, {}, Running,
          map t | t in tasks :: if t == 3 then Idle else Blocked(Send(false)))
  }

  lemma TwoBlockedSendersIsSound()
    ensures var s := TwoBlockedSenders(); Shape(s) && SendersOk(s) && ReceiversOk(s) && Enabled(s, Reset(3))
  {
    hide SideOk, LocksOk, CoverOk;
    TwoBlockedSides(TwoBlockedSenders());
    TwoBlockedRest(TwoBlockedSenders());
  }

  lemma TwoBlockedSides(s: State)
    requires s == TwoBlockedSenders()
    ensures SideOk(s.pc, s.toReceive, s.wokenReceivers, false) && SideOk(s.pc, s.toSend, s.wokenSenders, true)
  {
    assert NoDup(s.toSend);
  }

  lemma TwoBlockedRest(s: State)
    requires s == TwoBlockedSenders()
    ensures LocksOk(s.pc, s.sched, s.txLock, s.rxLock) && SendersOk(s) && ReceiversOk(s)
  {
  }

  // ---------------------------------------------------------------- a run that strands a sender

  lemma Extend(run: seq<State>, labels: seq<Label>, l: Label) returns (run': seq<State>, labels': seq<Label>)
    requires IsRun(run, labels) && Enabled(run[|run| - 1], l)
    ensures run' != [] && IsRun(run', labels') && run'[|run'| - 1] == Step(run[|run| - 1], l)
    ensures |run'| == |run| + 1 && run'[|run'| - 2] == run[|run| - 1] && labels' == labels + [l]
  {
    run', labels' := run + [Step(run[|run| - 1], l)], labels + [l];
  }

  /** Nobody is inside a call's protocol and no wake-up is outstanding. */
  ghost predicate QuietQueue(s: State) {
    && s.sched == Running && s.rxLock == UNLOCKED && s.txLock == UNLOCKED
    && s.wokenSenders == {} && s.wokenReceivers == {}
  }

  /** A caller that finds the queue unusable, for whatever it wants, and locks it. */
  lemma CallerLocks(run: seq<State>, labels: seq<Label>, t: Tid, role: Role)
    returns (run': seq<State>, labels': seq<Label>)
    requires run != [] && IsRun(run, labels) && QuietQueue(run[|run| - 1]) && Unusable(run[|run| - 1], role)
    requires role.Send? ==> !role.overwrite
    requires var s := run[|run| - 1]; t in s.tasks && t in s.pc && s.pc[t] == Idle
    ensures |run'| > |run| && IsRun(run', labels')
    ensures var s := run[|run| - 1];
      run'[|run'| - 1] == s.(sched := SuspendedBy(t), rxLock := 0, txLock := 0, pc := s.pc[t := Locked(role)])
  {
    hide IsRun;
    var s := run[|run| - 1];
    run', labels' := Extend(run, labels, Call(t, role));
    run', labels' := Extend(run', labels', Attempt(t, true));
    assert run'[|run'| - 1] == s.(pc := s.pc[t := Waiting(role)]);
    run', labels' := Extend(run', labels', SuspendAll(t));
    run', labels' := Extend(run', labels', Lock(t));
  }

  /** With a block time left it looks again, joins the list of its side, unlocks the queue and blocks. */
  lemma CallerBlocks(run: seq<State>, labels: seq<Label>, t: Tid, role: Role, at: nat)
    returns (run': seq<State>, labels': seq<Label>)
    requires run != [] && IsRun(run, labels) && QuietQueue(run[|run| - 1]) && Unusable(run[|run| - 1], role)
    requires role.Send? ==> !role.overwrite
    requires var s := run[|run| - 1];
      t in s.tasks && t in s.pc && s.pc[t] == Idle && at <= if role.Send? then |s.toSend| else |s.toReceive|
    ensures run' != [] && IsRun(run', labels')
    ensures var s := run[|run| - 1]; var r := run'[|run'| - 1];
      && (role.Send? ==> r == s.(toSend := InsertAt(s.toSend, at, t), pc := s.pc[t := Blocked(role)]))
      && (!role.Send? ==> r == s.(toReceive := InsertAt(s.toReceive, at, t), pc := s.pc[t := Blocked(role)]))
      && (t in if role.Send? then r.toSend else r.toReceive)
  {
    hide IsRun;
    var s := run[|run| - 1];
    run', labels' := CallerLocks(run, labels, t, role);
    run', labels' := Extend(run', labels', CheckTimeOut(t, false));
    run', labels' := Extend(run', labels', Look(t));
    run', labels' := Extend(run', labels', Join(t, at));
    var j := run'[|run'| - 1];
    assert (if role.Send? then j.toSend else j.toReceive)[at] == t;
    run', labels' := CallerUnlocks(run', labels', t);
  }

  /** Unlocking a queue that no interrupt has touched since it was locked. */
  lemma CallerUnlocks(run: seq<State>, labels: seq<Label>, t: Tid) returns (run': seq<State>, labels': seq<Label>)
    requires run != [] && IsRun(run, labels)
    requires var s := run[|run| - 1];
      MayRun(s, t) && s.pc[t].UnlockingTx? && s.txLock == 0 && s.rxLock == 0
    ensures |run'| > |run| && IsRun(run', labels')
    ensures var s := run[|run| - 1]; var p := s.pc[t];
      run'[|run'| - 1] ==
      s.(sched := Running, rxLock := UNLOCKED, txLock := UNLOCKED,
         pc := s.pc[t := match p.after
                         case Block => Blocked(p.role)
                         case Retry => Trying(p.role)
                         case LastLook => Leaving(p.role)
                         case GiveUp => Idle])
  {
    hide IsRun;
    var s := run[|run| - 1];
    var p := s.pc[t];
    run', labels' := Extend(run, labels, UnlockTx(t));
    assert run'[|run'| - 1] == s.(txLock := UNLOCKED, pc := s.pc[t := UnlockingRx(p.role, p.after)]);
    run', labels' := Extend(run', labels', UnlockRx(t));
    assert run'[|run'| - 1] ==
           s.(rxLock := UNLOCKED, txLock := UNLOCKED, pc := s.pc[t := Resuming(p.role, p.after)]);
    run', labels' := Extend(run', labels', ResumeAll(t));
  }

  /** With its block time used up the caller returns and leaves everything as it was. */
  lemma CallerTimesOut(run: seq<State>, labels: seq<Label>, t: Tid, role: Role)
    returns (run': seq<State>, labels': seq<Label>)
    requires run != [] && IsRun(run, labels) && QuietQueue(run[|run| - 1]) && Unusable(run[|run| - 1], role)
    requires role.Send? ==> !role.overwrite
    requires var s := run[|run| - 1]; t in s.tasks && t in s.pc && s.pc[t] == Idle
    ensures |run'| > |run| && IsRun(run', labels') && run'[|run'| - 1] == run[|run| - 1]
  {
    hide IsRun;
    var s := run[|run| - 1];
    run', labels' := CallerLocks(run, labels, t, role);
    run', labels' := Extend(run', labels', CheckTimeOut(t, true));
    run', labels' := CallerUnlocks(run', labels', t);
    if !role.Send? {
      run', labels' := Extend(run', labels', FinalLook(t));
    }
    assert run'[|run'| - 1].pc == s.pc;
  }

  /** A receiver and a peeker block on an empty queue. */
  lemma ReadersBlock() returns (run: seq<State>, labels: seq<Label>)
    ensures run != [] && IsRun(run, labels)
    ensures var r := run[|run| - 1];
      && r.toReceive == [1, 2] && r.messages == 0 && r.sched == Running
      && r.pc == map[1 := Blocked(Receive), 2 := Blocked(Peek)]
  {
    var tasks: set<Tid> := {1, 2};
    var pc: map<Tid, Pc> := map[1 := Idle, 2 := Idle];
    run, labels := [State(tasks, 2, 0, UNLOCKED, UNLOCKED, [], [], {}, {}, Running, pc)], [];
    assert IsRun(run, labels);
    hide IsRun;
    run, labels := CallerBlocks(run, labels, 1, Receive, 0);
    run, labels := CallerBlocks(run, labels, 2, Peek, 1);
  }

  /** Resetting the queue with its two blocked senders. */
  lemma ResetOfTwo()
    ensures Enabled(TwoBlockedSenders(), Reset(3))
    ensures var r := Step(TwoBlockedSenders(), Reset(3));
      r.messages == 0 && r.toSend == [2] && r.wokenSenders == {1} && !SendersOk(r)
  {
    TwoBlockedSendersIsSound();
    ResetKeepsSendersExactlyWhen(TwoBlockedSenders(), 3);
    hide Shape, SendersOk;
    assert TwoBlockedSenders().toSend[1..] == [2] && TwoBlockedSenders().toSend[..1] == [1];
  }

  /** Three idle tasks and a full queue of two slots. */
  function ThreeTasks(): (s: State) {
    var tasks: set<Tid> := {1, 2, 3};
    State(tasks, 2, 2, UNLOCKED, UNLOCKED, [], [], {}, {}, Running, map t | t in tasks :: Idle)
  }

  lemma TwoSendersBlock() returns (run: seq<State>, labels: seq<Label>)
    ensures run != [] && IsRun(run, labels) && run[|run| - 1] == TwoBlockedSenders()
  {
    run, labels := [ThreeTasks()], [];
    assert IsRun(run, labels);
    hide IsRun;
    run, labels := CallerBlocks(run, labels, 1, Send(false), 0);
    run, labels := CallerBlocks(run, labels, 2, Send(false), 1);
    assert run[|run| - 1].pc == TwoBlockedSenders().pc;
  }

  /** Two tasks block on a full queue of two slots, and a third resets it: in that run the queue is left empty with a
      sender still blocked and only one woken. */
  lemma ResetCanStrandASender() returns (run: seq<State>, labels: seq<Label>)
    ensures run != [] && IsRun(run, labels) && labels != [] && labels[|labels| - 1] == Reset(3)
    ensures var r := run[|run| - 1]; r.messages == 0 && r.toSend == [2] && r.wokenSenders == {1} && !SendersOk(r)
  {
    hide IsRun, Step, Enabled, SendersOk, TwoBlockedSenders;
    run, labels := TwoSendersBlock();
    ResetOfTwo();
    run, labels := Extend(run, labels, Reset(3));
  }

  // ---------------------------------------------------------------- the code

  /** Every waiting task is accounted for. */
  ghost predicate Sound(s: State) {
    Shape(s) && ReceiversOk(s) && SendersOk(s)
  }

  lemma StepSound(s: State, l: Label)
    requires Sound(s) && Enabled(s, l) && !l.Reset?
    ensures Sound(Step(s, l))
  {
    hide Shape, ReceiversOk, SendersOk, Step, Enabled;
    ShapePreserved(s, l);
    CoverPreserved(s, l);
  }

  /** The fields of Queue_t that the protocol updates, with the two sets of woken tasks. */
  class Queue {
    const numberOfTasks: nat
    const length: nat
    var messages: nat
    var rxLock: int
    var txLock: int
    var toReceive: seq<Tid>
    var toSend: seq<Tid>
    var wokenReceivers: set<Tid>
    var wokenSenders: set<Tid>

    ghost predicate Matches(s: State)
      reads this
    {
      && numberOfTasks == |s.tasks| && length == s.length
      && messages == s.messages && rxLock == s.rxLock && txLock == s.txLock
      && toReceive == s.toReceive && toSend == s.toSend
      && wokenReceivers == s.wokenReceivers && wokenSenders == s.wokenSenders
    }

    /** prvUnlockQueue, when no interrupt falls between its two critical sections. */
    method Unlock(ghost s: State, ghost t: Tid)
      requires Matches(s) && t in s.pc && s.pc[t].UnlockingTx?
      modifies this
      ensures Matches(UnlockRxStep(UnlockTxStep(s, t), t))
      ensures messages == old(messages) && txLock == UNLOCKED && rxLock == UNLOCKED
      ensures var k := Min(Pos(old(txLock)), |old(toReceive)|);
        toReceive == old(toReceive)[k..] && wokenReceivers == old(wokenReceivers) + ToSet(old(toReceive)[..k])
      ensures var k := Min(Pos(old(rxLock)), |old(toSend)|);
        toSend == old(toSend)[k..] && wokenSenders == old(wokenSenders) + ToSet(old(toSend)[..k])
    {
      ghost var k := 0;
      var count := txLock;
      while count > 0
        invariant 0 <= k <= |s.toReceive| && Pos(count) + k == Pos(s.txLock)
        invariant toReceive == s.toReceive[k..]
        invariant wokenReceivers == s.wokenReceivers + ToSet(s.toReceive[..k])
        invariant length == s.length && messages == s.messages && rxLock == s.rxLock && txLock == s.txLock
        invariant toSend == s.toSend && wokenSenders == s.wokenSenders
      {
        if toReceive != [] {
          assert s.toReceive[..k + 1] == s.toReceive[..k] + [toReceive[0]];
          wokenReceivers := wokenReceivers + {toReceive[0]};
          toReceive := toReceive[1..];
          k := k + 1;
        } else {
          break;
        }
        count := count - 1;
      }
      txLock := UNLOCKED;
      ghost var s1 := UnlockTxStep(s, t);
      assert k == Min(Pos(s.txLock), |s.toReceive|);
      UnlockReceiveSide(s1);
    }

    /** The second critical section of prvUnlockQueue. */
    method UnlockReceiveSide(ghost s: State)
      requires Matches(s)
      modifies this
      ensures Matches(WakeSenders(s.(rxLock := UNLOCKED), Min(Pos(s.rxLock), |s.toSend|)))
      ensures messages == old(messages) && txLock == old(txLock) && rxLock == UNLOCKED
      ensures toReceive == old(toReceive) && wokenReceivers == old(wokenReceivers)
      ensures var k := Min(Pos(old(rxLock)), |old(toSend)|);
        toSend == old(toSend)[k..] && wokenSenders == old(wokenSenders) + ToSet(old(toSend)[..k])
    {
      ghost var k := 0;
      var count := rxLock;
      while count > 0
        invariant 0 <= k <= |s.toSend| && Pos(count) + k == Pos(s.rxLock)
        invariant toSend == s.toSend[k..]
        invariant wokenSenders == s.wokenSenders + ToSet(s.toSend[..k])
        invariant length == s.length && messages == s.messages && rxLock == s.rxLock && txLock == s.txLock
        invariant toReceive == s.toReceive && wokenReceivers == s.wokenReceivers
      {
        if toSend != [] {
          assert s.toSend[..k + 1] == s.toSend[..k] + [toSend[0]];
          wokenSenders := wokenSenders + {toSend[0]};
          toSend := toSend[1..];
          k := k + 1;
          count := count - 1;
        } else {
          break;
        }
      }
      rxLock := UNLOCKED;
      assert k == Min(Pos(s.rxLock), |s.toSend|);
    }

    /** xQueueGenericSendFromISR, without the data copy: no waiting task is left uncovered, one receiver is woken if the
        queue is not locked, and no event list is touched if it is. */
    method SendFromISR(overwrite: bool, ghost s: State) returns (passed: bool)
      requires Matches(s)
      modifies this
      ensures Matches(IsrSendStep(s, overwrite))
      ensures passed <==> s.messages < s.length || overwrite
      ensures messages == old(messages) + if passed && !(overwrite && old(messages) > 0) then 1 else 0
      ensures Sound(s) && (overwrite ==> s.length == 1) ==> Sound(IsrSendStep(s, overwrite))
      ensures old(txLock) == UNLOCKED && passed && old(toReceive) != [] ==>
        toReceive == old(toReceive)[1..] && wokenReceivers == old(wokenReceivers) + {old(toReceive)[0]}
      ensures old(txLock) != UNLOCKED || !passed || old(toReceive) == [] ==>
        toReceive == old(toReceive) && wokenReceivers == old(wokenReceivers)
      ensures txLock == if old(txLock) != UNLOCKED && passed && old(txLock) < numberOfTasks then old(txLock) + 1
                        else old(txLock)
      ensures toSend == old(toSend) && wokenSenders == old(wokenSenders) && rxLock == old(rxLock)
    {
      hide Sound;
      if Sound(s) && (overwrite ==> s.length == 1) {
        StepSound(s, IsrSend(overwrite));
      }
      passed := messages < length || overwrite;
      if passed {
        if !(overwrite && messages > 0) {
          messages := messages + 1;
        }
        if txLock == UNLOCKED {
          if toReceive != [] {
            assert s.toReceive[..1] == [toReceive[0]];
            wokenReceivers := wokenReceivers + {toReceive[0]};
            toReceive := toReceive[1..];
          }
        } else if txLock < numberOfTasks {
          txLock := txLock + 1;
        }
      }
    }

    /** xQueueReceiveFromISR, without the data copy: the same for senders. */
    method ReceiveFromISR(ghost s: State) returns (passed: bool)
      requires Matches(s)
      modifies this
      ensures Matches(IsrReceiveStep(s))
      ensures passed <==> s.messages > 0
      ensures messages == old(messages) - if passed then 1 else 0
      ensures Sound(s) ==> Sound(IsrReceiveStep(s))
      ensures old(rxLock) == UNLOCKED && passed && old(toSend) != [] ==>
        toSend == old(toSend)[1..] && wokenSenders == old(wokenSenders) + {old(toSend)[0]}
      ensures old(rxLock) != UNLOCKED || !passed || old(toSend) == [] ==>
        toSend == old(toSend) && wokenSenders == old(wokenSenders)
      ensures rxLock == if old(rxLock) != UNLOCKED && passed && old(rxLock) < numberOfTasks then old(rxLock) + 1
                        else old(rxLock)
      ensures toReceive == old(toReceive) && wokenReceivers == old(wokenReceivers) && txLock == old(txLock)
    {
      hide Sound;
      if Sound(s) {
        StepSound(s, IsrReceive);
      }
      passed := messages > 0;
      if passed {
        messages := messages - 1;
        if rxLock == UNLOCKED {
          if toSend != [] {
            assert s.toSend[..1] == [toSend[0]];
            wokenSenders := wokenSenders + {toSend[0]};
            toSend := toSend[1..];
          }
        } else if rxLock < numberOfTasks {
          rxLock := rxLock + 1;
        }
      }
    }
  }
}
