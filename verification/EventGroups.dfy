/** Event groups: event_groups.c with 32-bit ticks, so that bits 0..23 are the user's and bits 24..31 are control
    bits.  An EventBits_t value is the set of its bit numbers. */
module EventGroups {
  import opened TaskLists

  type Bits = set<nat>

  const CLEAR: nat := 24       // eventCLEAR_EVENTS_ON_EXIT_BIT
  const UNBLOCKED: nat := 25   // eventUNBLOCKED_DUE_TO_BIT_SET
  const WAIT_ALL: nat := 26    // eventWAIT_FOR_ALL_BITS
  const IN_USE: nat := 31      // taskEVENT_LIST_ITEM_VALUE_IN_USE

  /** v & ~eventEVENT_BITS_CONTROL_BYTES. */
  function User(v: Bits): (u: Bits) { set b | b in v && b < 24 }

  predicate IsUser(v: Bits) { forall b :: b in v ==> b < 24 }

  /** What vTaskPlaceOnUnorderedEventList stores in the event item of a task that waits. */
  function Encode(wait: Bits, clear: bool, all: bool): (v: Bits) {
    wait + (if clear then {CLEAR} else {}) + (if all then {WAIT_ALL} else {}) + {IN_USE}
  }

  lemma EncodeDecode(wait: Bits, clear: bool, all: bool)
    requires IsUser(wait)
    ensures var v := Encode(wait, clear, all);
      User(v) == wait && (CLEAR in v <==> clear) && (WAIT_ALL in v <==> all) && UNBLOCKED !in v
  {
  }

  /** prvTestWaitCondition: every bit waited for is set, or some bit is. */
  predicate TestWaitCondition(bits: Bits, wait: Bits, all: bool): (met: bool)
    ensures all ==> (met <==> wait <= bits)
    ensures !all ==> (met <==> exists b :: b in wait && b in bits)
  {
    assert bits * wait == wait ==> forall b :: b in wait ==> b in bits * wait;
    assert forall b :: b in bits * wait <==> b in wait && b in bits;
    if all then bits * wait == wait else bits * wait != {}
  }

  /** The test of a waiting task's event item. */
  predicate Met(bits: Bits, v: Bits) { TestWaitCondition(bits, User(v), WAIT_ALL in v) }

  /** More bits satisfy more waiters. */
  lemma MetMonotone(bits: Bits, more: Bits, v: Bits)
    requires bits <= more && Met(bits, v)
    ensures Met(more, v)
  {
    if WAIT_ALL in v {
      assert more * User(v) == User(v);
    } else {
      var b :| b in bits * User(v);
      assert b in more * User(v);
    }
  }

  datatype Group = Group(bits: Bits, waiting: seq<Tid>, item: map<Tid, Bits>)

  function Item(item: map<Tid, Bits>, t: Tid): (v: Bits) { if t in item then item[t] else {} }

  // ---------------------------------------------------------------- xEventGroupSetBits, as the loop does it

  /** The tasks that stay in the list. */
  function Kept(q: seq<Tid>, item: map<Tid, Bits>, full: Bits): (r: seq<Tid>) {
    if q == [] then []
    else if Met(full, Item(item, q[0])) then Kept(q[1..], item, full)
    else [q[0]] + Kept(q[1..], item, full)
  }

  /** The bits to clear. */
  function Clears(q: seq<Tid>, item: map<Tid, Bits>, full: Bits): (c: Bits) {
    if q == [] then {}
    else
      var v := Item(item, q[0]);
      (if Met(full, v) && CLEAR in v then User(v) else {}) + Clears(q[1..], item, full)
  }

  /** The waiting tasks satisfied by the given bits. */
  function Satisfied(q: seq<Tid>, item: map<Tid, Bits>, full: Bits): (ts: set<Tid>) {
    set t | t in q && Met(full, Item(item, t))
  }

  /** The event items, with the value handed to the tasks that are unblocked. */
  function Marked(q: seq<Tid>, item: map<Tid, Bits>, full: Bits): (r: map<Tid, Bits>) {
    map t | t in item.Keys + Satisfied(q, item, full) ::
      if t in Satisfied(q, item, full) then full + {UNBLOCKED, IN_USE} else Item(item, t)
  }

  function SetBits(g: Group, s: Bits): (r: Group) {
    var full := g.bits + s;
    Group(full - Clears(g.waiting, g.item, full), Kept(g.waiting, g.item, full), Marked(g.waiting, g.item, full))
  }

  // ---------------------------------------------------------------- what it means

  lemma {:induction false} ClearsIsUnion(q: seq<Tid>, item: map<Tid, Bits>, full: Bits)
    ensures forall b :: b in Clears(q, item, full) <==>
      exists t :: t in q && Met(full, Item(item, t)) && CLEAR in Item(item, t) && b in User(Item(item, t))
  {
    if q != [] {
      hide Met, User;
      ClearsIsUnion(q[1..], item, full);
      assert forall t :: t in q <==> t == q[0] || t in q[1..];
    }
  }

  lemma {:induction false} KeptMembers(q: seq<Tid>, item: map<Tid, Bits>, full: Bits)
    requires NoDup(q)
    ensures NoDup(Kept(q, item, full))
    ensures forall t :: t in Kept(q, item, full) <==> t in q && !Met(full, Item(item, t))
  {
    if q != [] {
      hide Met;
      assert q == [q[0]] + q[1..] && q[0] !in q[1..];
      KeptMembers(q[1..], item, full);
      ConsFacts(q[0], Kept(q[1..], item, full));
    }
  }

  lemma MarkedItems(q: seq<Tid>, item: map<Tid, Bits>, full: Bits)
    ensures forall t :: t in q && Met(full, Item(item, t)) ==>
      Item(Marked(q, item, full), t) == full + {UNBLOCKED, IN_USE}
    ensures forall t :: !(t in q && Met(full, Item(item, t))) ==> Item(Marked(q, item, full), t) == Item(item, t)
  {
    hide Met;
  }

  /** xEventGroupSetBits unblocks exactly the waiters for which, with all of old | set, every bit they wait for is set
      or, if they wait for any, some bit is.  It hands all of them that same value; and of its bits it clears exactly
      those that a task it unblocked waits for and clears on exit. */
  lemma SetBitsExact(g: Group, s: Bits, t: Tid)
    requires NoDup(g.waiting)
    ensures var r, full, v := SetBits(g, s), g.bits + s, Item(g.item, t);
      && NoDup(r.waiting) && (t in r.waiting ==> t in g.waiting)
      && (t in g.waiting ==> (t !in r.waiting <==>
            if WAIT_ALL in v then User(v) <= full else exists b :: b in User(v) && b in full))
      && Item(r.item, t) == (if t in g.waiting && t !in r.waiting then full + {UNBLOCKED, IN_USE} else v)
    ensures var r := SetBits(g, s);
      forall b :: b in r.bits <==>
        && (b in g.bits || b in s)
        && !exists u :: u in g.waiting && u !in r.waiting && CLEAR in Item(g.item, u) && b in User(Item(g.item, u))
  {
    var full := g.bits + s;
    KeptMembers(g.waiting, g.item, full);
    MarkedItems(g.waiting, g.item, full);
    ClearsIsUnion(g.waiting, g.item, full);
    hide TestWaitCondition, User, Kept, Clears, Marked, NoDup;
  }

  /** The order of the waiting list does not matter: the same tasks are unblocked, with the same value, and the same
      bits are left. */
  lemma SetBitsOrderIndependent(g: Group, h: Group, s: Bits)
    requires NoDup(g.waiting) && NoDup(h.waiting) && (forall t :: t in g.waiting <==> t in h.waiting)
    requires g.bits == h.bits && g.item == h.item
    ensures SetBits(g, s).bits == SetBits(h, s).bits
    ensures forall t :: t in SetBits(g, s).waiting <==> t in SetBits(h, s).waiting
    ensures forall t :: Item(SetBits(g, s).item, t) == Item(SetBits(h, s).item, t)
  {
    var full := g.bits + s;
    hide Met, User;
    KeptMembers(g.waiting, g.item, full);
    KeptMembers(h.waiting, h.item, full);
    MarkedItems(g.waiting, g.item, full);
    MarkedItems(h.waiting, h.item, full);
    ClearsIsUnion(g.waiting, g.item, full);
    ClearsIsUnion(h.waiting, h.item, full);
    assert Clears(g.waiting, g.item, full) == Clears(h.waiting, h.item, full);
  }

  // ---------------------------------------------------------------- the other operations

  /** What a call does before it may block. */
  datatype Outcome = Returned(value: Bits) | Blocked

  /** vTaskPlaceOnUnorderedEventList. */
  function Place(g: Group, t: Tid, v: Bits): (r: Group) { g.(waiting := g.waiting + [t], item := g.item[t := v]) }

  /** xEventGroupWaitBits, up to the point where it blocks or returns. */
  function WaitBits(g: Group, t: Tid, wait: Bits, clear: bool, all: bool, mayBlock: bool): (r: (Group, Outcome)) {
    if TestWaitCondition(g.bits, wait, all) then (if clear then g.(bits := g.bits - wait) else g, Returned(g.bits))
    else if !mayBlock then (g, Returned(g.bits))
    else (Place(g, t, Encode(wait, clear, all)), Blocked)
  }

  /** xEventGroupSync, up to the point where it blocks or returns. */
  function Sync(g: Group, t: Tid, s: Bits, wait: Bits, mayBlock: bool): (r: (Group, Outcome)) {
    var g1 := SetBits(g, s);
    if (g.bits + s) * wait == wait then (g1.(bits := g1.bits - wait), Returned(g.bits + s))
    else if mayBlock then (Place(g1, t, Encode(wait, true, true)), Blocked)
    else (g1, Returned(g1.bits))
  }

  /** What a task that blocked returns when it runs again; uxTaskResetEventItemValue has taken its event item. */
  function Exit(g: Group, t: Tid, wait: Bits, clear: bool, all: bool): (r: (Group, Bits)) {
    var v := Item(g.item, t);
    if UNBLOCKED in v then (g, User(v))
    else (if TestWaitCondition(g.bits, wait, all) && clear then g.(bits := g.bits - wait) else g, User(g.bits))
  }

  // ---------------------------------------------------------------- the code

  lemma {:induction false} KeptAppend(q: seq<Tid>, p: seq<Tid>, item: map<Tid, Bits>, full: Bits)
    ensures Kept(q + p, item, full) == Kept(q, item, full) + Kept(p, item, full)
    ensures Clears(q + p, item, full) == Clears(q, item, full) + Clears(p, item, full)
  {
    if q == [] {
      assert q + p == p;
    } else {
      hide Met, User;
      assert (q + p)[1..] == q[1..] + p;
      KeptAppend(q[1..], p, item, full);
    }
  }

  lemma MarkedStep(q: seq<Tid>, t: Tid, item: map<Tid, Bits>, full: Bits)
    requires t !in q
    ensures Marked(q + [t], item, full) ==
      if Met(full, Item(item, t)) then Marked(q, item, full)[t := full + {UNBLOCKED, IN_USE}] else Marked(q, item, full)
    ensures Item(Marked(q, item, full), t) == Item(item, t)
  {
    hide Met;
    var more: set<Tid> := if Met(full, Item(item, t)) then {t} else {};
    assert Satisfied(q + [t], item, full) == Satisfied(q, item, full) + more;
    MarkedItems(q, item, full);
  }

  /** One more waiter examined. */
  lemma LoopStep(w: seq<Tid>, j: nat, item: map<Tid, Bits>, full: Bits)
    requires j < |w| && NoDup(w)
    ensures var v := Item(item, w[j]);
      && Kept(w[..j + 1], item, full) == Kept(w[..j], item, full) + (if Met(full, v) then [] else [w[j]])
      && Clears(w[..j + 1], item, full) ==
         Clears(w[..j], item, full) + (if Met(full, v) && CLEAR in v then User(v) else {})
      && Marked(w[..j + 1], item, full) ==
         (var before := Marked(w[..j], item, full);
          if Met(full, v) then before[w[j] := full + {UNBLOCKED, IN_USE}] else before)
      && Item(Marked(w[..j], item, full), w[j]) == v
  {
    hide Met, User, Marked;
    assert w[..j + 1] == w[..j] + [w[j]] && w[j] !in w[..j];
    KeptAppend(w[..j], [w[j]], item, full);
    MarkedStep(w[..j], w[j], item, full);
  }

  /** The list while it is walked: `kept` has been examined, w[j..] has not. */
  lemma WalkStep(kept: seq<Tid>, w: seq<Tid>, j: nat)
    requires j < |w|
    ensures var q := kept + w[j..];
      && |kept| < |q| && q[|kept|] == w[j] && (kept + [w[j]]) + w[j + 1..] == q
      && q[..|kept|] + q[|kept| + 1..] == kept + w[j + 1..]
  {
  }

  class EventGroup {
    var bits: Bits
    var waiting: seq<Tid>
    var item: map<Tid, Bits>

    ghost function State(): (g: Group)
      reads this
    {
      Group(bits, waiting, item)
    }

    /** One round of the walk: the task at position i is unlinked and handed the bits if they satisfy it; the bits it
        clears on exit are returned, and the position of the next task. */
    method Visit(i: nat) returns (clear: Bits, next: nat)
      requires i < |waiting|
      modifies this`waiting, this`item
      ensures var t, v := old(waiting)[i], Item(old(item), old(waiting)[i]);
        if Met(bits, v) then
          && waiting == old(waiting)[..i] + old(waiting)[i + 1..] && item == old(item)[t := bits + {UNBLOCKED, IN_USE}]
          && next == i && clear == if CLEAR in v then User(v) else {}
        else waiting == old(waiting) && item == old(item) && next == i + 1 && clear == {}
    {
      hide User;
      var t := waiting[i];
      var v := Item(item, t);
      var wait := User(v);
      clear, next := {}, i + 1;
      if TestWaitCondition(bits, wait, WAIT_ALL in v) {
        if CLEAR in v {
          clear := wait;
        }
        item := item[t := bits + {UNBLOCKED, IN_USE}];
        waiting, next := waiting[..i] + waiting[i + 1..], i;
      }
    }

    /** xEventGroupSetBits: walks the list while unlinking tasks from it. */
    method SetEventBits(s: Bits) returns (value: Bits)
      requires NoDup(waiting)
      modifies this
      ensures State() == SetBits(old(State()), s) && value == bits
    {
      hide Met, User, Marked, NoDup, Kept, Clears, Item;
      var i, toClear := 0, {};
      bits := bits + s;
      ghost var w, start, full, j := waiting, item, bits, 0;
      NothingYet(start, full);
      assert w[..0] == [] && w[0..] == w;
      while i < |waiting|
        invariant 0 <= j <= |w| && bits == full
        invariant i == |Kept(w[..j], start, full)| && waiting == Kept(w[..j], start, full) + w[j..]
        invariant toClear == Clears(w[..j], start, full) && item == Marked(w[..j], start, full)
        decreases |waiting| - i
      {
        LoopStep(w, j, start, full);
        WalkStep(Kept(w[..j], start, full), w, j);
        var clear, next := Visit(i);
        toClear, i, j := toClear + clear, next, j + 1;
      }
      assert w[..j] == w;
      bits := bits - toClear;
      value := bits;
    }

    /** xEventGroupWaitBits, before the task blocks: it blocks only unsatisfied, a satisfied call returns bits that
        satisfy it and clears exactly those asked for, and no satisfied waiter is left. */
    method WaitForBits(t: Tid, wait: Bits, clear: bool, all: bool, mayBlock: bool) returns (outcome: Outcome)
      modifies this
      ensures (State(), outcome) == WaitBits(old(State()), t, wait, clear, all, mayBlock)
      ensures old(Inv(State())) && t !in old(waiting) && IsUser(wait) ==> Inv(State())
      ensures all ==> (outcome == Blocked <==> mayBlock && !(wait <= old(bits)))
      ensures !all ==> (outcome == Blocked <==> mayBlock && forall b :: b in wait ==> b !in old(bits))
      ensures outcome == Blocked ==> bits == old(bits) && waiting == old(waiting) + [t]
      ensures outcome == Blocked ==> t in item && item == old(item)[t := item[t]]
      ensures outcome == Blocked && IsUser(wait) ==>
        User(item[t]) == wait && (CLEAR in item[t] <==> clear) && (WAIT_ALL in item[t] <==> all)
      ensures outcome.Returned? ==> outcome.value == old(bits) && waiting == old(waiting) && item == old(item)
      ensures outcome.Returned? && clear && all ==> bits == if wait <= old(bits) then old(bits) - wait else old(bits)
      ensures outcome.Returned? && clear && !all ==> bits == old(bits) - wait
      ensures !clear ==> bits == old(bits)
    {
      hide TestWaitCondition, Encode, Inv, User;
      ghost var g := State();
      if IsUser(wait) {
        EncodeDecode(wait, clear, all);
      }
      assert (forall b :: b in wait ==> b !in bits) ==> bits - wait == bits;
      if Inv(g) && t !in g.waiting && IsUser(wait) {
        WaitBitsInv(g, t, wait, clear, all, mayBlock);
      }
      if TestWaitCondition(bits, wait, all) {
        outcome := Returned(bits);
        if clear {
          bits := bits - wait;
        }
      } else if !mayBlock {
        outcome := Returned(bits);
      } else {
        waiting, item := waiting + [t], item[t := Encode(wait, clear, all)];
        outcome := Blocked;
      }
    }

    /** xEventGroupClearBits: returns the bits from before. */
    method ClearEventBits(s: Bits) returns (value: Bits)
      modifies this`bits
      ensures value == old(bits) && forall b :: b in bits <==> b in old(bits) && b !in s
      ensures old(Inv(State())) ==> Inv(State())
    {
      hide Inv;
      if Inv(State()) {
        LessInv(State(), s);
      }
      value := bits;
      bits := bits - s;
    }

    /** xEventGroupSync, before the task blocks: it returns at once exactly when its bits complete the set, which is
        then cleared; no satisfied waiter is left. */
    method Synchronise(t: Tid, s: Bits, wait: Bits, mayBlock: bool) returns (outcome: Outcome)
      requires NoDup(waiting)
      modifies this
      ensures (State(), outcome) == Sync(old(State()), t, s, wait, mayBlock)
      ensures old(Inv(State())) && t !in old(waiting) && IsUser(s) && IsUser(wait) ==> Inv(State())
      ensures wait <= old(bits) + s ==> outcome == Returned(old(bits) + s) && bits !! wait
      ensures !(wait <= old(bits) + s) && mayBlock ==> outcome == Blocked && t in waiting && t in item
      ensures outcome == Blocked && IsUser(wait) ==>
        t in item && User(item[t]) == wait && CLEAR in item[t] && WAIT_ALL in item[t]
      ensures !(wait <= old(bits) + s) && !mayBlock ==> outcome == Returned(bits)
    {
      hide SetBits, Encode, NoDup, Inv, User;
      ghost var g := State();
      if IsUser(wait) {
        EncodeDecode(wait, true, true);
      }
      if Inv(g) && t !in g.waiting && IsUser(s) && IsUser(wait) {
        SyncInv(g, t, s, wait, mayBlock);
      }
      assert wait <= bits + s <==> (bits + s) * wait == wait;
      var original := bits;
      var _ := SetEventBits(s);
      if (original + s) * wait == wait {
        outcome := Returned(original + s);
        bits := bits - wait;
      } else if mayBlock {
        waiting, item := waiting + [t], item[t := Encode(wait, true, true)];
        outcome := Blocked;
      } else {
        outcome := Returned(bits);
      }
    }

    /** The end of xEventGroupWaitBits and xEventGroupSync, for a task that blocked: one that xEventGroupSetBits
        unblocked returns the bits it set, without the control bits, and changes nothing; one that timed out clears the
        bits only if they satisfy it now; no satisfied waiter is left. */
    method ReturnAfterBlocking(t: Tid, wait: Bits, clear: bool, all: bool) returns (value: Bits)
      modifies this`bits
      ensures (State(), value) == Exit(old(State()), t, wait, clear, all)
      ensures old(Inv(State())) ==> Inv(State()) && IsUser(value)
      ensures forall full :: IsUser(full) && Item(item, t) == full + {UNBLOCKED, IN_USE} ==>
        value == full && bits == old(bits)
      ensures UNBLOCKED !in Item(item, t) && clear && all ==>
        bits == if wait <= old(bits) then old(bits) - wait else old(bits)
      ensures UNBLOCKED !in Item(item, t) && clear && !all ==> bits == old(bits) - wait
      ensures !clear ==> bits == old(bits)
    {
      hide TestWaitCondition, Inv;
      ghost var g := State();
      if Inv(g) {
        LessInv(g, wait);
      }
      HandedBack(Item(item, t));
      assert (forall b :: b in wait ==> b !in bits) ==> bits - wait == bits;
      value := Item(item, t);
      if UNBLOCKED !in value {
        value := bits;
        if TestWaitCondition(value, wait, all) {
          if clear {
            bits := bits - wait;
          }
        }
      }
      value := User(value);
    }
  }

  /** The control bits that xEventGroupSetBits adds to the value it hands over come off again. */
  lemma HandedBack(v: Bits)
    ensures forall full :: IsUser(full) && v == full + {UNBLOCKED, IN_USE} ==> User(v) == full && UNBLOCKED in v
  {
  }

  lemma NothingYet(item: map<Tid, Bits>, full: Bits)
    ensures Kept([], item, full) == [] && Clears([], item, full) == {} && Marked([], item, full) == item
  {
  }

  // ---------------------------------------------------------------- no satisfied waiter

  /** No blocked task's condition is met. */
  ghost predicate NoneMet(bits: Bits, waiting: seq<Tid>, item: map<Tid, Bits>) {
    forall t :: t in waiting ==> !Met(bits, Item(item, t))
  }

  ghost predicate Inv(g: Group) {
    && NoDup(g.waiting) && NoneMet(g.bits, g.waiting, g.item)
    && IsUser(g.bits) && (forall t :: t in g.waiting ==> UNBLOCKED !in Item(g.item, t))
  }

  lemma FewerBits(bits: Bits, fewer: Bits, waiting: seq<Tid>, item: map<Tid, Bits>)
    requires NoneMet(bits, waiting, item) && fewer <= bits
    ensures NoneMet(fewer, waiting, item)
  {
    forall t | t in waiting ensures !Met(fewer, Item(item, t)) {
      if Met(fewer, Item(item, t)) {
        MetMonotone(fewer, bits, Item(item, t));
      }
    }
  }

  lemma SetBitsInv(g: Group, s: Bits)
    requires Inv(g) && IsUser(s)
    ensures Inv(SetBits(g, s)) && NoneMet(g.bits + s, SetBits(g, s).waiting, SetBits(g, s).item)
    ensures forall t :: t in SetBits(g, s).waiting ==> t in g.waiting
  {
    hide Met, Clears, User;
    var full := g.bits + s;
    KeptMembers(g.waiting, g.item, full);
    MarkedItems(g.waiting, g.item, full);
    FewerBits(full, full - Clears(g.waiting, g.item, full), SetBits(g, s).waiting, SetBits(g, s).item);
  }

  lemma PlaceInv(g: Group, t: Tid, wait: Bits, clear: bool, all: bool)
    requires Inv(g) && t !in g.waiting && IsUser(wait) && !TestWaitCondition(g.bits, wait, all)
    ensures Inv(Place(g, t, Encode(wait, clear, all)))
  {
    EncodeDecode(wait, clear, all);
    hide Met, Encode, User;
    var r := Place(g, t, Encode(wait, clear, all));
    assert !Met(g.bits, Encode(wait, clear, all)) by {
      EncodedTest(g.bits, wait, clear, all);
    }
    assert forall u :: u in r.waiting <==> u in g.waiting || u == t;
  }

  lemma EncodedTest(bits: Bits, wait: Bits, clear: bool, all: bool)
    requires IsUser(wait)
    ensures Met(bits, Encode(wait, clear, all)) <==> TestWaitCondition(bits, wait, all)
  {
    EncodeDecode(wait, clear, all);
  }

  // ---------------------------------------------------------------- runs

  datatype Op =
    | OpSet(s: Bits) | OpClear(s: Bits)
    | OpWait(t: Tid, wait: Bits, clear: bool, all: bool, mayBlock: bool)
    | OpSync(t: Tid, s: Bits, wait: Bits, mayBlock: bool)
    | OpTimeout(t: Tid)                                         // the block time of a waiting task expires
    | OpExit(t: Tid, wait: Bits, clear: bool, all: bool)        // a task that blocked runs again

  /** A caller is running, so it is not waiting; it names user bits only. */
  ghost predicate Step(g: Group, op: Op, r: Group) {
    match op
    case OpSet(s) => IsUser(s) && r == SetBits(g, s)
    case OpClear(s) => IsUser(s) && r == g.(bits := g.bits - s)
    case OpWait(t, wait, clear, all, mayBlock) =>
      t !in g.waiting && IsUser(wait) && wait != {} && r == WaitBits(g, t, wait, clear, all, mayBlock).0
    case OpSync(t, s, wait, mayBlock) =>
      t !in g.waiting && IsUser(s) && IsUser(wait) && wait != {} && r == Sync(g, t, s, wait, mayBlock).0
    case OpTimeout(t) => r == g.(waiting := Without(g.waiting, t))
    case OpExit(t, wait, clear, all) =>
      t !in g.waiting && IsUser(wait) && wait != {} && r == Exit(g, t, wait, clear, all).0
  }

  lemma LessInv(g: Group, less: Bits)
    requires Inv(g)
    ensures Inv(g.(bits := g.bits - less))
  {
    hide Met;
    FewerBits(g.bits, g.bits - less, g.waiting, g.item);
  }

  lemma WaitBitsInv(g: Group, t: Tid, wait: Bits, clear: bool, all: bool, mayBlock: bool)
    requires Inv(g) && t !in g.waiting && IsUser(wait)
    ensures Inv(WaitBits(g, t, wait, clear, all, mayBlock).0)
  {
    hide Inv, Encode, TestWaitCondition, Place;
    LessInv(g, wait);
    if !TestWaitCondition(g.bits, wait, all) {
      PlaceInv(g, t, wait, clear, all);
    }
  }

  lemma SyncInv(g: Group, t: Tid, s: Bits, wait: Bits, mayBlock: bool)
    requires Inv(g) && t !in g.waiting && IsUser(s) && IsUser(wait)
    ensures Inv(Sync(g, t, s, wait, mayBlock).0)
  {
    hide Met, Inv, NoneMet;
    SetBitsInv(g, s);
    var g1 := SetBits(g, s);
    if (g.bits + s) * wait == wait {
      LessInv(g1, wait);
    } else if mayBlock {
      assert g1.bits <= g.bits + s;
      assert g1.bits * wait == wait ==> (g.bits + s) * wait == wait;
      PlaceInv(g1, t, wait, true, true);
    }
  }

  lemma StepInv(g: Group, op: Op, r: Group)
    requires Inv(g) && Step(g, op, r)
    ensures Inv(r)
  {
    hide Met, Inv, Encode, Sync, SetBits, Place;
    match op
    case OpSet(s) => SetBitsInv(g, s);
    case OpClear(s) => LessInv(g, s);
    case OpWait(t, wait, clear, all, mayBlock) => WaitBitsInv(g, t, wait, clear, all, mayBlock);
    case OpSync(t, s, wait, mayBlock) => SyncInv(g, t, s, wait, mayBlock);
    case OpTimeout(t) => TimeoutInv(g, t);
    case OpExit(t, wait, clear, all) => LessInv(g, wait);
  }

  lemma TimeoutInv(g: Group, t: Tid)
    requires Inv(g)
    ensures Inv(g.(waiting := Without(g.waiting, t)))
    ensures forall u :: u in Without(g.waiting, t) <==> u in g.waiting && u != t
  {
    hide Met;
    WithoutFacts(g.waiting, t);
  }

  ghost predicate Run(g: seq<Group>, ops: seq<Op>) {
    && |g| == |ops| + 1 && g[0] == Group({}, [], g[0].item)
    && forall i :: 0 <= i < |ops| ==> Step(g[i], ops[i], g[i + 1])
  }

  lemma {:induction false} InvInEveryRun(g: seq<Group>, ops: seq<Op>, i: nat)
    requires Run(g, ops) && i < |g|
    ensures Inv(g[i])
  {
    if i > 0 {
      hide Inv, Step;
      InvInEveryRun(g, ops, i - 1);
      StepInv(g[i - 1], ops[i - 1], g[i]);
    }
  }

  /** The request of a call that may block: the bits, whether they are cleared on exit, and whether all are needed. */
  predicate Requests(op: Op, t: Tid, wait: Bits, clear: bool, all: bool) {
    || op == OpWait(t, wait, clear, all, true)
    || (op.OpSync? && op.t == t && op.wait == wait && op.mayBlock && clear && all)
  }

  /** A waiting task keeps its event item, and one that begins to wait stores what it asks for. */
  lemma StepItem(g: Group, op: Op, r: Group, t: Tid) returns (wait: Bits, clear: bool, all: bool)
    requires Inv(g) && Step(g, op, r) && t in r.waiting
    ensures t in g.waiting ==> Item(r.item, t) == Item(g.item, t)
    ensures t !in g.waiting ==>
      Requests(op, t, wait, clear, all) && IsUser(wait) && Item(r.item, t) == Encode(wait, clear, all)
  {
    wait, clear, all := {}, false, false;
    hide Met, Encode, User, TestWaitCondition, Kept, Clears, Marked, NoneMet, NoDup, Exit;
    match op {
      case OpSet(s) => UnblockedOnly(g, s, t);
      case OpWait(_, w, c, a, _) => wait, clear, all := w, c, a;
      case OpSync(_, s, w, _) =>
        UnblockedOnly(g, s, t);
        wait, clear, all := w, true, true;
      case OpTimeout(u) => TimeoutInv(g, u);
      case OpExit(_, w, c, a) => ExitKeepsItems(g, op.t, w, c, a);
      case OpClear(_) =>
    }
  }

  lemma ExitKeepsItems(g: Group, t: Tid, wait: Bits, clear: bool, all: bool)
    ensures var r := Exit(g, t, wait, clear, all).0; r.waiting == g.waiting && r.item == g.item
  {
  }

  lemma UnblockedOnly(g: Group, s: Bits, t: Tid)
    requires Inv(g)
    ensures var r := SetBits(g, s);
      (t in r.waiting ==> t in g.waiting) && (t !in g.waiting || t in r.waiting ==> Item(r.item, t) == Item(g.item, t))
  {
    SetBitsExact(g, s, t);
  }

  /** No waiter is left satisfied, in every run: whoever waits has asked for its bits in a call since which it has
      waited all along, and now some bit it asked for is not set, or none if it asked for any of them. */
  lemma {:induction false} NoSatisfiedWaiter(g: seq<Group>, ops: seq<Op>, i: nat, t: Tid)
    returns (j: nat, wait: Bits, clear: bool, all: bool)
    requires Run(g, ops) && i < |g| && t in g[i].waiting
    ensures j < i && Requests(ops[j], t, wait, clear, all) && forall k :: j < k <= i ==> t in g[k].waiting
    ensures IsUser(wait) && Item(g[i].item, t) == Encode(wait, clear, all)
    ensures all ==> exists b :: b in wait && b !in g[i].bits
    ensures !all ==> forall b :: b in wait ==> b !in g[i].bits
  {
    hide Inv, Step, Encode, Requests, Met;
    InvInEveryRun(g, ops, i - 1);
    InvInEveryRun(g, ops, i);
    wait, clear, all := StepItem(g[i - 1], ops[i - 1], g[i], t);
    j := i - 1;
    if t in g[i - 1].waiting {
      j, wait, clear, all := NoSatisfiedWaiter(g, ops, i - 1, t);
    }
    NotMet(g[i], t);
    EncodedTest(g[i].bits, wait, clear, all);
  }

  // ---------------------------------------------------------------- rendezvous

  /** The tasks of a rendezvous in order of arrival: their bits are disjoint, not empty, and together make up `all`. */
  ghost predicate Party(a: seq<Tid>, own: map<Tid, Bits>, all: Bits) {
    && a != [] && NoDup(a) && IsUser(all) && all == UpTo(a, own, |a|)
    && (forall i :: 0 <= i < |a| ==> a[i] in own && own[a[i]] != {})
    && (forall i, j :: 0 <= i < j < |a| ==> Item(own, a[i]) !! Item(own, a[j]))
  }

  /** The bits of the first k arrivals. */
  function UpTo(a: seq<Tid>, own: map<Tid, Bits>, k: nat): (bits: Bits)
    requires k <= |a|
  {
    if k == 0 then {} else UpTo(a, own, k - 1) + Item(own, a[k - 1])
  }

  lemma {:induction false} UpToMembers(a: seq<Tid>, own: map<Tid, Bits>, k: nat)
    requires k <= |a|
    ensures forall b :: b in UpTo(a, own, k) <==> exists i :: 0 <= i < k && b in Item(own, a[i])
  {
    if k > 0 {
      UpToMembers(a, own, k - 1);
      forall b ensures b in UpTo(a, own, k) <==> exists i :: 0 <= i < k && b in Item(own, a[i]) {
        if b in Item(own, a[k - 1]) {
        } else if b in UpTo(a, own, k - 1) {
          var i :| 0 <= i < k - 1 && b in Item(own, a[i]);
        }
      }
    }
  }

  lemma {:induction false} UpToGrows(a: seq<Tid>, own: map<Tid, Bits>, k: nat, m: nat)
    requires k <= m <= |a|
    ensures UpTo(a, own, k) <= UpTo(a, own, m)
  {
    if k < m {
      UpToGrows(a, own, k, m - 1);
    }
  }

  /** Until the last arrival some bit is missing. */
  lemma PartyBits(a: seq<Tid>, own: map<Tid, Bits>, all: Bits, k: nat)
    requires Party(a, own, all) && k <= |a|
    ensures UpTo(a, own, k) <= all && IsUser(all)
    ensures k < |a| ==> exists b :: b in all && b !in UpTo(a, own, k)
    ensures k == |a| ==> UpTo(a, own, k) == all
  {
    UpToGrows(a, own, k, |a|);
    if k < |a| {
      var b :| b in own[a[k]];
      UpToGrows(a, own, k + 1, |a|);
      NotYet(a, own, k, b);
    }
  }

  lemma NotYet(a: seq<Tid>, own: map<Tid, Bits>, k: nat, b: nat)
    requires k < |a| && b in Item(own, a[k]) && forall i, j :: 0 <= i < j < |a| ==> Item(own, a[i]) !! Item(own, a[j])
    ensures b !in UpTo(a, own, k)
  {
    hide UpTo;
    UpToMembers(a, own, k);
    assert forall i :: 0 <= i < k ==> b !in Item(own, a[i]);
  }

  /** The group before a rendezvous: none of its bits is set, and nobody else waits for them. */
  ghost predicate Calm(g: Group, all: Bits) {
    Inv(g) && g.bits !! all && forall t :: t in g.waiting ==> User(Item(g.item, t)) !! all
  }

  /** The group after k arrivals. */
  function Arrived(g: Group, a: seq<Tid>, own: map<Tid, Bits>, all: Bits, k: nat): (r: Group)
    requires k <= |a|
  {
    if k == 0 then g else Sync(Arrived(g, a, own, all, k - 1), a[k - 1], Item(own, a[k - 1]), all, true).0
  }

  /** The bits of a rendezvous do not satisfy waiters for other bits. */
  lemma OthersUnmoved(bits: Bits, extra: Bits, v: Bits)
    requires !Met(bits, v) && User(v) !! extra
    ensures !Met(bits + extra, v)
  {
    assert (bits + extra) * User(v) == bits * User(v);
  }

  lemma {:induction false} NobodyMoves(q: seq<Tid>, item: map<Tid, Bits>, full: Bits)
    requires forall t :: t in q ==> !Met(full, Item(item, t))
    ensures Kept(q, item, full) == q && Clears(q, item, full) == {} && Marked(q, item, full) == item
  {
    hide Met;
    assert Satisfied(q, item, full) == {};
    if q != [] {
      NobodyMoves(q[1..], item, full);
    }
  }

  /** What the gathering tasks store in their event items. */
  function Gather(all: Bits): (v: Bits) { Encode(all, true, true) }

  /** k tasks have arrived and wait. */
  ghost predicate Gathered(g: Group, r: Group, a: seq<Tid>, own: map<Tid, Bits>, all: Bits, k: nat)
    requires k <= |a|
  {
    && r.bits == g.bits + UpTo(a, own, k) && r.waiting == g.waiting + a[..k]
    && (forall t :: t !in a[..k] ==> Item(r.item, t) == Item(g.item, t))
    && (forall t :: t in a[..k] ==> Item(r.item, t) == Gather(all))
  }

  lemma ArrivedBits(g: Group, r: Group, a: seq<Tid>, own: map<Tid, Bits>, all: Bits, k: nat)
    requires k < |a| && Gathered(g, r, a, own, all, k)
    ensures r.bits + Item(own, a[k]) == g.bits + UpTo(a, own, k + 1)
  {
    hide Gather;
  }

  /** Nobody is satisfied while a bit is missing. */
  lemma StillWaiting(g: Group, r: Group, a: seq<Tid>, own: map<Tid, Bits>, all: Bits, k: nat)
    requires Calm(g, all) && Party(a, own, all) && k < |a| && (forall t :: t in a ==> t !in g.waiting)
    requires Gathered(g, r, a, own, all, k)
    ensures k + 1 < |a| ==> forall t :: t in r.waiting ==> !Met(r.bits + Item(own, a[k]), Item(r.item, t))
    ensures forall t :: t in g.waiting ==> !Met(r.bits + Item(own, a[k]), Item(r.item, t))
    ensures r.bits + Item(own, a[k]) == g.bits + UpTo(a, own, k + 1)
  {
    hide Met, Party, Inv, User, Gather, UpTo;
    var full := g.bits + UpTo(a, own, k + 1);
    ArrivedBits(g, r, a, own, all, k);
    PartyBits(a, own, all, k + 1);
    assert forall t :: t in a[..k] ==> t in a;
    forall t | t in g.waiting ensures !Met(full, Item(r.item, t)) {
      assert Item(r.item, t) == Item(g.item, t) && User(Item(g.item, t)) !! all;
      NotMet(g, t);
      OthersUnmoved(g.bits, UpTo(a, own, k + 1), Item(g.item, t));
    }
    if k + 1 < |a| {
      var b :| b in all && b !in UpTo(a, own, k + 1);
      GatherUnmet(full, all, b);
    }
  }

  lemma NotMet(g: Group, t: Tid)
    requires Inv(g) && t in g.waiting
    ensures !Met(g.bits, Item(g.item, t))
  {
    hide Met;
  }

  lemma GatherUnmet(full: Bits, all: Bits, b: nat)
    requires IsUser(all) && b in all && b !in full
    ensures !Met(full, Gather(all))
  {
    EncodedTest(full, all, true, true);
    assert b !in full * all;
  }

  /** A task that is not the last to arrive blocks, and nothing else changes but its bits. */
  lemma ArrivalBlocks(g: Group, r: Group, a: seq<Tid>, own: map<Tid, Bits>, all: Bits, k: nat)
    requires Calm(g, all) && Party(a, own, all) && k + 1 < |a| && (forall t :: t in a ==> t !in g.waiting)
    requires Gathered(g, r, a, own, all, k)
    ensures var s := Sync(r, a[k], Item(own, a[k]), all, true); s.1 == Blocked && Gathered(g, s.0, a, own, all, k + 1)
  {
    hide Met, Calm, Party, UpTo, Encode, Gathered, Kept, Clears, Marked, Item;
    StillWaiting(g, r, a, own, all, k);
    var full := r.bits + Item(own, a[k]);
    NobodyMoves(r.waiting, r.item, full);
    MissingBit(g, a, own, all, k + 1);
    assert full - {} == full;
    OneMoreGathered(g, r, a, own, all, k);
  }

  lemma OneMoreGathered(g: Group, r: Group, a: seq<Tid>, own: map<Tid, Bits>, all: Bits, k: nat)
    requires k < |a| && Gathered(g, r, a, own, all, k) && r.bits + Item(own, a[k]) == g.bits + UpTo(a, own, k + 1)
    ensures var next := Group(r.bits + Item(own, a[k]), r.waiting + [a[k]], r.item[a[k] := Gather(all)]);
      Gathered(g, next, a, own, all, k + 1)
  {
    hide UpTo, Gather;
    assert a[..k + 1] == a[..k] + [a[k]];
    assert forall t :: t in a[..k + 1] <==> t in a[..k] || t == a[k];
  }

  lemma MissingBit(g: Group, a: seq<Tid>, own: map<Tid, Bits>, all: Bits, k: nat)
    requires Calm(g, all) && Party(a, own, all) && k < |a|
    ensures (g.bits + UpTo(a, own, k)) * all != all
  {
    hide Party, UpTo, Inv, User;
    PartyBits(a, own, all, k);
    var b :| b in all && b !in UpTo(a, own, k);
    assert b !in (g.bits + UpTo(a, own, k)) * all;
  }

  lemma {:induction false} Gathering(g: Group, a: seq<Tid>, own: map<Tid, Bits>, all: Bits, k: nat)
    requires Calm(g, all) && Party(a, own, all) && k < |a| && (forall t :: t in a ==> t !in g.waiting)
    ensures Gathered(g, Arrived(g, a, own, all, k), a, own, all, k)
    ensures k + 1 < |a| ==> Sync(Arrived(g, a, own, all, k), a[k], Item(own, a[k]), all, true).1 == Blocked
  {
    hide Calm, Party, Sync;
    if k > 0 {
      Gathering(g, a, own, all, k - 1);
      ArrivalBlocks(g, Arrived(g, a, own, all, k - 1), a, own, all, k - 1);
    }
    if k + 1 < |a| {
      ArrivalBlocks(g, Arrived(g, a, own, all, k), a, own, all, k);
    }
  }

  lemma {:induction false} EverybodyLeaves(q: seq<Tid>, item: map<Tid, Bits>, full: Bits)
    requires forall t :: t in q ==> Met(full, Item(item, t))
    ensures Kept(q, item, full) == []
  {
    if q != [] {
      EverybodyLeaves(q[1..], item, full);
    }
  }

  /** The last arrival: everybody is released with all the bits, the bits are cleared, and the others go on waiting. */
  lemma LastArrival(g: Group, r: Group, a: seq<Tid>, own: map<Tid, Bits>, all: Bits, k: nat)
    requires Calm(g, all) && Party(a, own, all) && k + 1 == |a| && (forall t :: t in a ==> t !in g.waiting)
    requires Gathered(g, r, a, own, all, k)
    ensures var s := Sync(r, a[k], Item(own, a[k]), all, true);
      && s.1 == Returned(g.bits + all) && s.0.bits == g.bits && s.0.waiting == g.waiting
      && (forall t :: t in a[..k] ==> Item(s.0.item, t) == g.bits + all + {UNBLOCKED, IN_USE})
      && (forall t :: t in g.waiting ==> Item(s.0.item, t) == Item(g.item, t))
  {
    hide Met, Party, UpTo, Inv, User, IsUser;
    var full := r.bits + Item(own, a[k]);
    StillWaiting(g, r, a, own, all, k);
    LastBit(g, a, own, all);
    assert full == g.bits + all;
    assert forall t :: t in a[..k] ==> t in a;
    forall t | t in a[..k] ensures Met(full, Item(r.item, t)) {
      AllMet(full, all);
    }
    KeptAppend(g.waiting, a[..k], r.item, full);
    NobodyMoves(g.waiting, r.item, full);
    EverybodyLeaves(a[..k], r.item, full);
    MarkedItems(r.waiting, r.item, full);
    ClearsIsUnion(r.waiting, r.item, full);
    GatherClears(g, r, a, all, k, full);
  }

  lemma LastBit(g: Group, a: seq<Tid>, own: map<Tid, Bits>, all: Bits)
    requires Party(a, own, all)
    ensures UpTo(a, own, |a|) == all && (g.bits + all) * all == all && IsUser(all)
  {
    hide Party, UpTo;
    PartyBits(a, own, all, |a|);
  }

  lemma AllMet(full: Bits, all: Bits)
    requires IsUser(all) && all <= full
    ensures Met(full, Gather(all))
  {
    EncodedTest(full, all, true, true);
    assert full * all == all;
  }

  /** Nothing outside the rendezvous is cleared. */
  lemma GatherClears(g: Group, r: Group, a: seq<Tid>, all: Bits, k: nat, full: Bits)
    requires k <= |a| && r.waiting == g.waiting + a[..k] && IsUser(all)
    requires forall t :: t in g.waiting ==> !Met(full, Item(r.item, t))
    requires forall t :: t in a[..k] ==> Item(r.item, t) == Gather(all)
    ensures Clears(r.waiting, r.item, full) <= all
  {
    hide Met;
    ClearsIsUnion(r.waiting, r.item, full);
    EncodeDecode(all, true, true);
    forall b | b in Clears(r.waiting, r.item, full) ensures b in all {
      var t :| t in r.waiting && Met(full, Item(r.item, t)) && CLEAR in Item(r.item, t) && b in User(Item(r.item, t));
      assert t in a[..k];
    }
  }

  /** Rendezvous: tasks with disjoint non-empty bits, in any order of arrival.  All but the last block; the last one
      releases all; every one of them returns a value with all the rendezvous bits; and the group ends as it began, so
      that the barrier can be used again. */
  lemma Rendezvous(g: Group, a: seq<Tid>, own: map<Tid, Bits>, all: Bits, k: nat, wait: Bits)
    requires Calm(g, all) && Party(a, own, all) && k < |a| && (forall t :: t in a ==> t !in g.waiting)
    ensures var called := Sync(Arrived(g, a, own, all, k), a[k], own[a[k]], all, true);
      var last := Arrived(g, a, own, all, |a|);
      && (called.1 == Blocked <==> k + 1 < |a|)
      && (k + 1 < |a| ==> Exit(last, a[k], wait, true, true) == (last, g.bits + all))
      && (k + 1 == |a| ==> called.1 == Returned(g.bits + all))
      && last.bits == g.bits && last.waiting == g.waiting && Calm(last, all)
  {
    hide Met, Inv, User, Sync, Gathered, Calm, Kept, Clears, Marked, UpTo;
    Gathering(g, a, own, all, k);
    var m := |a| - 1;
    Gathering(g, a, own, all, m);
    LastArrival(g, Arrived(g, a, own, all, m), a, own, all, m);
    var last := Arrived(g, a, own, all, |a|);
    if k < m {
      assert a[k] in a[..m];
      UserOfFull(g, all);
    }
    CalmAgain(g, last, all);
  }

  lemma UserOfFull(g: Group, all: Bits)
    requires Calm(g, all) && IsUser(all)
    ensures User(g.bits + all + {UNBLOCKED, IN_USE}) == g.bits + all
  {
  }

  lemma CalmAgain(g: Group, r: Group, all: Bits)
    requires Calm(g, all) && r.bits == g.bits && r.waiting == g.waiting
    requires forall t :: t in g.waiting ==> Item(r.item, t) == Item(g.item, t)
    ensures Calm(r, all)
  {
    hide Met, User;
  }
}
