/** Task selection on several cores: tasks.c with configNUMBER_OF_CORES > 1, configRUN_MULTIPLE_PRIORITIES on
    and core affinity off.  Running tasks stay in their ready lists. */
module Smp {
  import opened TaskLists

  /** xTaskRunState. */
  datatype RunState = NotRunning | On(core: nat) | ScheduledToYield

  // ---------------------------------------------------------------- invariants

  /** No task is current on two cores, and a task is marked not running exactly when no core has it. */
  ghost predicate RunOk(cur: seq<Tid>, run: map<Tid, RunState>) {
    && NoDup(cur)
    && (forall c :: 0 <= c < |cur| ==> cur[c] in run)
    && (forall t :: t in run ==> (run[t] == NotRunning <==> t !in cur))
    && (forall t :: t in run && run[t].On? ==> run[t].core < |cur| && cur[run[t].core] == t)
  }

  /** A ready task is once in the list of its priority; no list above uxTopReadyPriority has members. */
  ghost predicate ListsOk(lists: seq<seq<Tid>>, prio: map<Tid, nat>, top: nat) {
    && top < |lists| && (forall t :: t in prio ==> prio[t] < |lists|)
    && (forall p :: 0 <= p < |lists| ==> NoDup(lists[p]))
    && (forall p, t :: 0 <= p < |lists| && t in lists[p] ==> t in prio && prio[t] == p)
    && (forall p :: top < p < |lists| ==> lists[p] == [])
  }

  /** There is one idle task for each core, and idle tasks are always ready. */
  ghost predicate IdleOk(idle: set<Tid>, lists: seq<seq<Tid>>, cores: nat) {
    |idle| == cores && |lists| > 0 && forall t :: t in idle ==> t in lists[0]
  }

  /** Task t is current on a core other than `core`. */
  ghost predicate Elsewhere(cur: seq<Tid>, core: nat, t: Tid) {
    exists c :: 0 <= c < |cur| && c != core && cur[c] == t
  }

  function Range(cur: seq<Tid>): (s: set<Tid>) {
    set c | 0 <= c < |cur| :: cur[c]
  }

  lemma {:induction false} RangeSize(cur: seq<Tid>)
    ensures |Range(cur)| <= |cur|
  {
    if cur != [] {
      var rest := cur[1..];
      RangeSize(rest);
      assert Range(cur) <= Range(rest) + {cur[0]} by {
        forall t | t in Range(cur) ensures t in Range(rest) + {cur[0]} {
          var c :| 0 <= c < |cur| && cur[c] == t;
          assert c > 0 ==> rest[c - 1] == t;
        }
      }
      SubsetSize(Range(cur), Range(rest) + {cur[0]});
    } else {
      assert Range(cur) == {};
    }
  }

  lemma {:induction false} SubsetSize(a: set<Tid>, b: set<Tid>)
    requires a <= b
    ensures |a| <= |b|
  {
    if a != {} {
      var x :| x in a;
      SubsetSize(a - {x}, b - {x});
    }
  }

  /** Pigeonhole: with as many idle tasks as cores, some idle task is not on another core. */
  lemma IdleAvailable(idle: set<Tid>, cur: seq<Tid>, core: nat) returns (t: Tid)
    requires |idle| == |cur| && core < |cur|
    ensures t in idle && !Elsewhere(cur, core, t)
  {
    var others := cur[..core] + cur[core + 1..];
    RangeSize(others);
    if idle <= Range(others) {
      SubsetSize(idle, Range(others));
      assert false;
    }
    t :| t in idle && t !in Range(others);
    forall c | 0 <= c < |cur| && c != core ensures cur[c] != t {
      assert cur[c] == others[if c < core then c else c - 1];
    }
  }

  ghost predicate SameMembers(a: seq<seq<Tid>>, b: seq<seq<Tid>>) {
    |a| == |b| && forall p, t :: 0 <= p < |a| ==> (t in a[p] <==> t in b[p])
  }

  /** Moving a task to the end of its list changes no membership. */
  lemma RotateOk(lists: seq<seq<Tid>>, prio: map<Tid, nat>, top: nat, p: nat, t: Tid)
    requires ListsOk(lists, prio, top) && p < |lists| && t in lists[p]
    ensures ListsOk(lists[p := Without(lists[p], t) + [t]], prio, top)
    ensures SameMembers(lists[p := Without(lists[p], t) + [t]], lists)
  {
    hide NoDup, Without;
    var q := Without(lists[p], t);
    WithoutFacts(lists[p], t);
    EndFacts(q, t);
    var r := lists[p := q + [t]];
    assert forall k :: 0 <= k < |lists| ==> r[k] == if k == p then q + [t] else lists[k];
  }

  lemma EndFacts(q: seq<Tid>, t: Tid)
    requires NoDup(q) && t !in q
    ensures NoDup(q + [t]) && forall u :: u in q + [t] <==> u in q || u == t
  {
  }

  /** Core `core` switches from its current task to t, which no other core has. */
  lemma SwitchOk(cur: seq<Tid>, run: map<Tid, RunState>, core: nat, t: Tid)
    requires RunOk(cur, run) && core < |cur| && t in run && !Elsewhere(cur, core, t)
    ensures RunOk(cur[core := t], run[cur[core] := NotRunning][t := On(core)])
  {
    var cur', run' := cur[core := t], run[cur[core] := NotRunning][t := On(core)];
    assert forall c :: 0 <= c < |cur| && c != core ==> cur'[c] == cur[c] != t;
    assert cur'[core] == t;
    forall u | u in run' ensures run'[u] == NotRunning <==> u !in cur' {
      if u in cur && u != cur[core] {
        var c :| 0 <= c < |cur| && cur[c] == u;
        assert cur'[c] == u;
      }
    }
  }

  class Cores {
    var lists: seq<seq<Tid>>          // pxReadyTasksLists
    var prio: map<Tid, nat>
    var run: map<Tid, RunState>
    var cur: seq<Tid>                 // pxCurrentTCBs
    var top: nat                      // uxTopReadyPriority
    var pending: seq<bool>            // xYieldPendings
    var idle: set<Tid>                // tasks with taskATTRIBUTE_IS_IDLE

    ghost predicate Valid()
      reads this
    {
      && RunOk(cur, run) && ListsOk(lists, prio, top) && IdleOk(idle, lists, |cur|)
      && run.Keys == prio.Keys && |pending| == |cur|
    }

    /** The walk over one ready list: the first task that no other core is running. */
    method FirstAvailable(q: seq<Tid>, core: nat) returns (found: bool, t: Tid)
      requires RunOk(cur, run) && core < |cur| && forall u :: u in q ==> u in run
      ensures found ==> t in q && !Elsewhere(cur, core, t)
      ensures found ==> exists i :: 0 <= i < |q| && q[i] == t && forall j :: 0 <= j < i ==> Elsewhere(cur, core, q[j])
      ensures !found ==> forall u :: u in q ==> Elsewhere(cur, core, u)
    {
      found, t := false, 0;
      for i := 0 to |q|
        invariant !found && forall j :: 0 <= j < i ==> Elsewhere(cur, core, q[j])
      {
        t := q[i];
        if run[t] == NotRunning || t == cur[core] {
          found := true;
          return;
        }
        assert t in cur;
      }
    }

    /** The running task goes to the end of its ready list. */
    method RotateCurrent(core: nat)
      requires Valid() && core < |cur|
      modifies this`lists
      ensures Valid() && SameMembers(lists, old(lists))
      ensures LastInLine(lists, prio, cur, core)
    {
      hide NoDup;
      var c := cur[core];
      if c in lists[prio[c]] {
        RotateOk(lists, prio, top, prio[c], c);
        lists := lists[prio[c] := Without(lists[prio[c]], c) + [c]];
      }
    }

    /** Task t is swapped in on a core. */
    method SwapIn(core: nat, t: Tid)
      requires RunOk(cur, run) && core < |cur| && t in run && !Elsewhere(cur, core, t)
      modifies this`run, this`cur
      ensures RunOk(cur, run) && run.Keys == old(run).Keys && cur == old(cur)[core := t] && run[t] == On(core)
    {
      SwitchOk(cur, run, core, t);
      run := run[cur[core] := NotRunning][t := On(core)];
      cur := cur[core := t];
    }

    /** prvSelectHighestPriorityTask: a task is always found, it has the highest priority of the ready tasks that no
        other core is running, and uxTopReadyPriority comes to rest on a list with members. */
    method SelectHighestPriorityTask(core: nat)
      requires Valid() && core < |cur|
      modifies this`lists, this`run, this`cur, this`top
      ensures Valid() && SameMembers(lists, old(lists)) && cur == old(cur)[core := cur[core]]
      ensures Chosen(lists, prio, old(cur), core, cur[core]) && cur[core] in run && run[cur[core]] == On(core)
      ensures top < |lists| && lists[top] != []
      ensures GivesWay(lists, prio, old(cur), core, cur[core])
    {
      hide NoDup, RunOk, ListsOk, Elsewhere, NoneAbove, Chosen, GivesWay, LastInLine;
      RotateCurrent(core);
      ListsRun(lists, prio, top, run);
      NothingAboveTop(lists, prio, top, cur, core);
      ghost var someIdle := IdleAvailable(idle, cur, core);
      ghost var ready := lists;
      var p, scheduled, decrement := top, false, true;
      while !scheduled
        invariant lists == ready && |cur| == |old(cur)| && 0 <= p <= top < |lists| && ListsOk(lists, prio, top)
        invariant (decrement ==> p == top) && (!decrement ==> lists[top] != [])
        invariant RunOk(cur, run) && run.Keys == prio.Keys && cur == old(cur)[core := cur[core]]
        invariant !scheduled ==> cur == old(cur) && NoneAbove(lists, cur, core, p)
        invariant scheduled ==>
          Chosen(lists, prio, old(cur), core, cur[core]) && cur[core] in run && run[cur[core]] == On(core) && !decrement
        invariant scheduled ==> GivesWay(lists, prio, old(cur), core, cur[core])
        decreases !scheduled, p
      {
        if lists[p] != [] {
          decrement := false;
          var found, t := FirstAvailable(lists[p], core);
          if found {
            ChosenHere(lists, prio, top, cur, core, p, t);
            FirstGivesWay(lists, prio, top, cur, core, p, t);
            SwapIn(core, t);
            scheduled := true;
          }
        } else if decrement {
          LowerTop(lists, prio, top);
          top := top - 1;
        }
        if !scheduled {
          NoneHere(lists, cur, core, p);
          p := p - 1;
        }
      }
    }

    /** At start-up each core runs one of the idle tasks. */
    constructor (idles: seq<Tid>, priorities: nat)
      requires NoDup(idles) && priorities > 0
      ensures Valid() && cur == idles && |lists| == priorities
    {
      hide NoDup, RunOk, ListsOk, IdleRun;
      cur, top := idles, 0;
      lists := [idles] + seq(priorities - 1, p => []);
      prio := map t | t in idles :: 0;
      run := IdleRun(idles);
      pending := seq(|idles|, c => false);
      idle := set t | t in idles;
      new;
      StartLists(idles, lists, prio);
      NoDupSize(idles, idle);
    }

    /** prvAddTaskToReadyList. */
    method MakeReady(t: Tid)
      requires Valid() && t in prio && forall p :: 0 <= p < |lists| ==> t !in lists[p]
      modifies this`lists, this`top
      ensures Valid() && lists == old(lists)[prio[t] := old(lists)[prio[t]] + [t]]
    {
      EnterOk(lists, prio, top, t);
      hide NoDup, RunOk;
      lists := lists[prio[t] := lists[prio[t]] + [t]];
      if prio[t] > top {
        top := prio[t];
      }
    }

    /** uxListRemove on a ready task that blocks, is suspended or is deleted; idle tasks never are. */
    method LeaveReady(t: Tid)
      requires Valid() && t in prio && t in lists[prio[t]] && t !in idle
      modifies this`lists
      ensures Valid() && lists == old(lists)[prio[t] := Without(old(lists)[prio[t]], t)]
    {
      LeaveOk(lists, prio, top, t);
      hide NoDup, RunOk;
      lists := lists[prio[t] := Without(lists[prio[t]], t)];
    }

    /** A new task, not yet ready. */
    method AddTask(t: Tid, p: nat)
      requires Valid() && t !in prio && p < |lists|
      modifies this`prio, this`run
      ensures Valid() && prio == old(prio)[t := p] && run == old(run)[t := NotRunning]
    {
      hide NoDup, RunOk, ListsOk;
      NewTaskOk(cur, run, lists, prio, top, t, p);
      prio, run := prio[t := p], run[t := NotRunning];
    }

    /** A task that no core has and that is in no ready list is gone. */
    method RemoveTask(t: Tid)
      requires Valid() && t in prio && run[t] == NotRunning && forall p :: 0 <= p < |lists| ==> t !in lists[p]
      modifies this`prio, this`run
      ensures Valid() && prio == old(prio) - {t} && run == old(run) - {t}
    {
      hide NoDup;
      prio, run := prio - {t}, run - {t};
    }

    /** A task that is in no ready list changes priority. */
    method ChangePriority(t: Tid, p: nat)
      requires Valid() && t in prio && p < |lists| && forall q :: 0 <= q < |lists| ==> t !in lists[q]
      modifies this`prio
      ensures Valid() && prio == old(prio)[t := p]
    {
      hide NoDup;
      prio := prio[t := p];
    }

    /** prvYieldCore, called on core `self`: the other core is only asked to yield. */
    method YieldCore(self: nat, core: nat)
      requires Valid() && self < |cur| && core < |cur|
      modifies this`run, this`pending
      ensures Valid() && cur == old(cur)
      ensures if core == self then pending == old(pending)[core := true] && run == old(run)
              else pending == old(pending) && run == old(run)[cur[core] := ScheduledToYield]
    {
      hide NoDup;
      if core == self {
        pending := pending[core := true];
      } else if run[cur[core]] != ScheduledToYield {
        run := run[cur[core] := ScheduledToYield];
      } else {
        assert run[cur[core] := ScheduledToYield] == run;
      }
    }

    /** The priority prvYieldForTask compares a core's task by: idle tasks count as lower than any other. */
    function CorePriority(core: nat): (p: int)
      requires core < |cur| && cur[core] in prio
      reads this
    {
      if cur[core] in idle then (prio[cur[core]] as int) - 1 else prio[cur[core]]
    }

    /** Core c could be asked to yield for task t: its task runs, has not been asked to yield, and is idle or lower. */
    predicate MayYield(c: nat, t: Tid)
      requires c < |cur| && c < |pending| && cur[c] in run && cur[c] in prio && t in prio
      reads this
    {
      run[cur[c]].On? && !pending[c] && (cur[c] in idle || prio[cur[c]] < prio[t])
    }

    /** The search of prvYieldForTask over the cores: of those that could be asked to yield, the last one with the
        lowest task, an idle one if there is one. */
    method LowestCore(t: Tid) returns (victim: int)
      requires Valid() && t in prio
      ensures -1 <= victim < |cur|
      ensures victim >= 0 ==> MayYield(victim, t)
      ensures forall c :: 0 <= c < |cur| && MayYield(c, t) ==> victim >= 0 && CorePriority(victim) <= CorePriority(c)
      ensures forall c :: victim < c < |cur| && c >= 0 && MayYield(c, t) ==> CorePriority(victim) < CorePriority(c)
    {
      hide NoDup;
      IdleLowest(lists, prio, top, idle, |cur|);
      victim := -1;
      var lowest: int := (prio[t] as int) - 1;
      for core := 0 to |cur|
        invariant -1 <= victim < core && lowest < prio[t]
        invariant victim < 0 ==> lowest == (prio[t] as int) - 1
        invariant victim >= 0 ==> MayYield(victim, t) && lowest == CorePriority(victim)
        invariant forall c :: 0 <= c < core && MayYield(c, t) ==> victim >= 0 && lowest <= CorePriority(c)
        invariant forall c :: victim < c < core && c >= 0 && MayYield(c, t) ==> lowest < CorePriority(c)
      {
        if CorePriority(core) <= lowest && run[cur[core]].On? && !pending[core] {
          lowest, victim := CorePriority(core), core;
        }
      }
    }

    /** prvYieldForTask, called on core `self` for a task that has become ready: a core whose task runs and is idle or
        lower is asked to yield if there is one, an idle one first and otherwise one with the lowest task. */
    method YieldForTask(self: nat, t: Tid) returns (victim: int)
      requires Valid() && self < |cur| && t in prio
      modifies this`run, this`pending
      ensures Valid() && cur == old(cur) && prio == old(prio) && -1 <= victim < |cur|
      ensures victim >= 0 ==> old(run)[t] == NotRunning || old(run)[t] == ScheduledToYield
      ensures !old(run)[t].On? ==>
        (victim >= 0 <==> exists c :: 0 <= c < |cur| && old(run)[cur[c]].On? && !old(pending)[c] &&
                                      (cur[c] in idle || prio[cur[c]] < prio[t]))
      ensures victim >= 0 ==> old(run)[cur[victim]].On? && !old(pending)[victim]
      ensures victim >= 0 ==> cur[victim] in idle || prio[cur[victim]] < prio[t]
      ensures victim >= 0 ==> forall c :: 0 <= c < |cur| && old(run)[cur[c]].On? && !old(pending)[c] ==>
        && (cur[c] in idle ==> cur[victim] in idle)
        && (cur[victim] in idle || prio[cur[victim]] <= prio[cur[c]])
      ensures victim >= 0 ==> forall c :: victim < c < |cur| && old(run)[cur[c]].On? && !old(pending)[c] ==>
        cur[c] !in idle && (cur[victim] in idle || prio[cur[victim]] < prio[cur[c]])
      ensures victim < 0 ==> run == old(run) && pending == old(pending)
      ensures victim >= 0 ==>
        if victim == self then pending == old(pending)[victim := true] && run == old(run)
        else pending == old(pending) && run == old(run)[cur[victim] := ScheduledToYield]
    {
      hide NoDup;
      victim := -1;
      if !run[t].On? {
        IdleLowest(lists, prio, top, idle, |cur|);
        victim := LowestCore(t);
        assert forall c :: 0 <= c < |cur| && run[cur[c]].On? && !pending[c] && cur[c] in idle ==> MayYield(c, t);
        assert forall c :: 0 <= c < |cur| && run[cur[c]].On? && !pending[c] && !MayYield(c, t) ==>
            prio[t] <= prio[cur[c]];
        if victim >= 0 {
          YieldCore(self, victim);
        }
      }
    }
  }

  lemma IdleLowest(lists: seq<seq<Tid>>, prio: map<Tid, nat>, top: nat, idle: set<Tid>, cores: nat)
    requires ListsOk(lists, prio, top) && IdleOk(idle, lists, cores)
    ensures forall t :: t in idle ==> t in prio && prio[t] == 0
  {
    hide NoDup;
  }

  /** Each core runs the idle task created for it. */
  function IdleRun(idles: seq<Tid>): (run: map<Tid, RunState>)
    requires NoDup(idles)
    ensures RunOk(idles, run) && run.Keys == set t | t in idles
  {
    map c | 0 <= c < |idles| :: idles[c] := On(c)
  }

  lemma StartLists(idles: seq<Tid>, lists: seq<seq<Tid>>, prio: map<Tid, nat>)
    requires NoDup(idles) && |lists| > 0 && lists[0] == idles && forall p :: 1 <= p < |lists| ==> lists[p] == []
    requires forall t :: t in prio <==> t in idles
    requires forall t :: t in prio ==> prio[t] == 0
    ensures ListsOk(lists, prio, 0) && prio.Keys == set t | t in idles
  {
    hide NoDup;
    forall p | 0 <= p < |lists| ensures NoDup(lists[p]) {
      if p > 0 {
        EmptyNoDup(lists[p]);
      }
    }
  }

  lemma EmptyNoDup(q: seq<Tid>)
    requires q == []
    ensures NoDup(q)
  {
  }

  lemma NewTaskOk(cur: seq<Tid>, run: map<Tid, RunState>, lists: seq<seq<Tid>>, prio: map<Tid, nat>, top: nat, t: Tid,
                  p: nat)
    requires RunOk(cur, run) && ListsOk(lists, prio, top) && run.Keys == prio.Keys && t !in prio && p < |lists|
    ensures RunOk(cur, run[t := NotRunning]) && ListsOk(lists, prio[t := p], top)
    ensures run[t := NotRunning].Keys == prio[t := p].Keys
  {
    hide NoDup;
    assert t !in cur;
  }

  lemma LowerTop(lists: seq<seq<Tid>>, prio: map<Tid, nat>, top: nat)
    requires ListsOk(lists, prio, top) && top > 0 && lists[top] == []
    ensures ListsOk(lists, prio, top - 1)
  {
    hide NoDup;
  }

  lemma ChosenHere(lists: seq<seq<Tid>>, prio: map<Tid, nat>, top: nat, cur: seq<Tid>, core: nat, p: nat, t: Tid)
    requires ListsOk(lists, prio, top) && NoneAbove(lists, cur, core, p) && p < |lists| && t in lists[p]
    requires !Elsewhere(cur, core, t)
    ensures Chosen(lists, prio, cur, core, t)
  {
    hide NoDup, Elsewhere;
  }

  lemma NothingAboveTop(lists: seq<seq<Tid>>, prio: map<Tid, nat>, top: nat, cur: seq<Tid>, core: nat)
    requires ListsOk(lists, prio, top)
    ensures NoneAbove(lists, cur, core, top) && top < |lists|
  {
    hide NoDup, Elsewhere;
  }

  lemma NoneHere(lists: seq<seq<Tid>>, cur: seq<Tid>, core: nat, p: nat)
    requires 0 < p < |lists| && NoneAbove(lists, cur, core, p) && forall u :: u in lists[p] ==> Elsewhere(cur, core, u)
    ensures NoneAbove(lists, cur, core, p - 1)
  {
    hide Elsewhere;
  }

  lemma EnterOk(lists: seq<seq<Tid>>, prio: map<Tid, nat>, top: nat, t: Tid)
    requires ListsOk(lists, prio, top) && t in prio && forall p :: 0 <= p < |lists| ==> t !in lists[p]
    ensures ListsOk(lists[prio[t] := lists[prio[t]] + [t]], prio, if prio[t] > top then prio[t] else top)
  {
    EndFacts(lists[prio[t]], t);
    hide NoDup;
  }

  lemma LeaveOk(lists: seq<seq<Tid>>, prio: map<Tid, nat>, top: nat, t: Tid)
    requires ListsOk(lists, prio, top) && t in prio
    ensures ListsOk(lists[prio[t] := Without(lists[prio[t]], t)], prio, top)
    ensures forall u :: u in Without(lists[prio[t]], t) <==> u in lists[prio[t]] && u != t
  {
    WithoutFacts(lists[prio[t]], t);
    WithoutEmpty(lists[prio[t]], t);
    hide NoDup;
  }

  lemma WithoutEmpty(q: seq<Tid>, t: Tid)
    ensures q == [] ==> Without(q, t) == []
  {
  }

  /** The core's own task, if ready, is last in its list. */
  ghost predicate LastInLine(lists: seq<seq<Tid>>, prio: map<Tid, nat>, cur: seq<Tid>, core: nat)
    requires core < |cur|
  {
    var c := cur[core];
    c in prio && prio[c] < |lists| && (c in lists[prio[c]] ==> lists[prio[c]][|lists[prio[c]]| - 1] == c)
  }

  /** The core keeps its task only if every other ready task of that priority is on another core. */
  ghost predicate GivesWay(lists: seq<seq<Tid>>, prio: map<Tid, nat>, cur: seq<Tid>, core: nat, t: Tid) {
    core < |cur| && t == cur[core] && t in prio && prio[t] < |lists| ==>
      forall u :: u in lists[prio[t]] && u != t ==> Elsewhere(cur, core, u)
  }

  lemma FirstGivesWay(lists: seq<seq<Tid>>, prio: map<Tid, nat>, top: nat, cur: seq<Tid>, core: nat, p: nat, t: Tid)
    requires ListsOk(lists, prio, top) && core < |cur| && LastInLine(lists, prio, cur, core) && p < |lists|
    requires t in lists[p]
    requires exists i ::
      0 <= i < |lists[p]| && lists[p][i] == t && forall j :: 0 <= j < i ==> Elsewhere(cur, core, lists[p][j])
    ensures GivesWay(lists, prio, cur, core, t)
  {
    hide Elsewhere;
    var q := lists[p];
    var i :| 0 <= i < |q| && q[i] == t && forall j :: 0 <= j < i ==> Elsewhere(cur, core, q[j]);
    if t == cur[core] {
      assert NoDup(q) && i == |q| - 1;
    }
  }

  /** Every ready task of priority above p is on another core. */
  ghost predicate NoneAbove(lists: seq<seq<Tid>>, cur: seq<Tid>, core: nat, p: nat) {
    forall q, u :: p < q < |lists| && u in lists[q] ==> Elsewhere(cur, core, u)
  }

  lemma ListsRun(lists: seq<seq<Tid>>, prio: map<Tid, nat>, top: nat, run: map<Tid, RunState>)
    requires ListsOk(lists, prio, top) && run.Keys == prio.Keys
    ensures forall p, u :: 0 <= p < |lists| && u in lists[p] ==> u in run
  {
  }

  /** Task t is ready, not on another core, and no such task has a higher priority. */
  ghost predicate Chosen(lists: seq<seq<Tid>>, prio: map<Tid, nat>, cur: seq<Tid>, core: nat, t: Tid) {
    && t in prio && prio[t] < |lists| && t in lists[prio[t]] && !Elsewhere(cur, core, t)
    && forall p, u :: 0 <= p < |lists| && u in lists[p] && !Elsewhere(cur, core, u) ==> p <= prio[t]
  }
}
