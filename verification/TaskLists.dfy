/** The lists a task's two list items can be in, as sequences, together with each item's container.

    Lists.dfy proves that the linked lists of list.c behave like these sequences.  A `Store`
    holds one kind of item: the kernel has one store of state items and one of event items.
    listINSERT_END appends here: so it does while pxIndex is at the end marker (List.InsertEnd), where only
    listGET_OWNER_OF_NEXT_ENTRY moves it from, and that is used on the ready lists alone.  Of those only membership
    matters here.
 */
module TaskLists {

  type Tid = nat

  datatype ListId =
    | Ready(p: nat) | DelayedA | DelayedB | Suspended | Termination   // state items
    | PendingReady | Event(q: nat)                                     // event items

  datatype Store = Store(lists: map<ListId, seq<Tid>>, home: map<Tid, ListId>)

  function At(s: Store, l: ListId): (q: seq<Tid>) {
    if l in s.lists then s.lists[l] else []
  }

  ghost predicate NoDup(q: seq<Tid>) {
    forall i, j :: 0 <= i < j < |q| ==> q[i] != q[j]
  }

  /** Containers are exact: an item is in the list its container names, once, and in no other. */
  ghost predicate WellLinked(s: Store) {
    && (forall l :: NoDup(At(s, l)))
    && (forall l, t :: t in At(s, l) <==> t in s.home && s.home[t] == l)
  }

  function Val(value: map<Tid, nat>, t: Tid): (v: nat) {
    if t in value then value[t] else 0
  }

  ghost predicate Sorted(q: seq<Tid>, value: map<Tid, nat>) {
    forall i, j :: 0 <= i < j < |q| ==> Val(value, q[i]) <= Val(value, q[j])
  }

  function Without(q: seq<Tid>, t: Tid): (r: seq<Tid>)
    ensures |r| == if t in q then |q| - 1 else |q|
  {
    if q == [] then [] else if q[0] == t then q[1..] else [q[0]] + Without(q[1..], t)
  }

  /** Where vListInsert puts an item: before the first larger value. */
  function SortedInsert(q: seq<Tid>, t: Tid, value: map<Tid, nat>): (r: seq<Tid>) {
    if q == [] then [t]
    else if Val(value, q[0]) > Val(value, t) then [t] + q
    else [q[0]] + SortedInsert(q[1..], t, value)
  }

  lemma WithoutUnfold(q: seq<Tid>, t: Tid)
    ensures q != [] ==> Without(q, t) == if q[0] == t then q[1..] else [q[0]] + Without(q[1..], t)
  {
  }

  lemma InsertUnfold(q: seq<Tid>, t: Tid, value: map<Tid, nat>)
    ensures q == [] ==> SortedInsert(q, t, value) == [t]
    ensures q != [] && Val(value, q[0]) > Val(value, t) ==> SortedInsert(q, t, value) == [t] + q
    ensures q != [] && Val(value, q[0]) <= Val(value, t) ==>
      SortedInsert(q, t, value) == [q[0]] + SortedInsert(q[1..], t, value)
  {
  }

  // ---------------------------------------------------------------- operations

  /** uxListRemove. */
  function Remove(s: Store, t: Tid): (r: Store) {
    if t in s.home then Store(s.lists[s.home[t] := Without(At(s, s.home[t]), t)], s.home - {t}) else s
  }

  /** listINSERT_END. */
  function PushBack(s: Store, l: ListId, t: Tid): (r: Store) {
    Store(s.lists[l := At(s, l) + [t]], s.home[t := l])
  }

  /** vListInsert. */
  function Insert(s: Store, l: ListId, t: Tid, value: map<Tid, nat>): (r: Store) {
    Store(s.lists[l := SortedInsert(At(s, l), t, value)], s.home[t := l])
  }

  // ---------------------------------------------------------------- sequence facts

  lemma {:induction false} WithoutFacts(q: seq<Tid>, t: Tid)
    requires NoDup(q)
    ensures NoDup(Without(q, t))
    ensures forall x :: x in Without(q, t) <==> x in q && x != t
    ensures q != [] && q[0] == t ==> Without(q, t) == q[1..]
  {
    if q != [] {
      assert q == [q[0]] + q[1..];
      assert q[0] !in q[1..];
      if q[0] != t {
        WithoutFacts(q[1..], t);
      }
    }
  }

  lemma {:induction false} WithoutSorted(q: seq<Tid>, t: Tid, value: map<Tid, nat>)
    requires Sorted(q, value) && NoDup(q)
    ensures Sorted(Without(q, t), value)
  {
    if q != [] && q[0] != t {
      WithoutSorted(q[1..], t, value);
      WithoutFacts(q[1..], t);
      var r := Without(q[1..], t);
      forall i | 0 <= i < |r| ensures Val(value, q[0]) <= Val(value, r[i]) {
        assert r[i] in q[1..];
      }
    }
  }

  lemma ConsFacts(x: Tid, q: seq<Tid>)
    ensures NoDup(q) && x !in q ==> NoDup([x] + q)
    ensures forall y :: y in [x] + q <==> y == x || y in q
    ensures NoDup([x] + q) ==> NoDup(q) && x !in q
  {
    var r := [x] + q;
    assert r[0] == x && r[1..] == q;
    forall i | 0 <= i < |q| ensures r[i + 1] == q[i] {
    }
  }

  lemma {:induction false} InsertFacts(q: seq<Tid>, t: Tid, value: map<Tid, nat>)
    requires NoDup(q) && t !in q
    ensures NoDup(SortedInsert(q, t, value))
    ensures forall x :: x in SortedInsert(q, t, value) <==> x in q || x == t
  {
    if q != [] && Val(value, q[0]) <= Val(value, t) {
      assert q == [q[0]] + q[1..];
      ConsFacts(q[0], q[1..]);
      InsertFacts(q[1..], t, value);
      ConsFacts(q[0], SortedInsert(q[1..], t, value));
    } else if q != [] {
      ConsFacts(t, q);
    }
  }

  lemma {:induction false} InsertSorted(q: seq<Tid>, t: Tid, value: map<Tid, nat>)
    requires NoDup(q) && t !in q && Sorted(q, value)
    ensures Sorted(SortedInsert(q, t, value), value)
  {
    if q != [] && Val(value, q[0]) <= Val(value, t) {
      InsertSorted(q[1..], t, value);
      InsertFacts(q[1..], t, value);
      var r := SortedInsert(q[1..], t, value);
      forall i | 0 <= i < |r| ensures Val(value, q[0]) <= Val(value, r[i]) {
        assert r[i] in q[1..] || r[i] == t;
      }
    }
  }

  lemma SortedFrame(q: seq<Tid>, value: map<Tid, nat>, value': map<Tid, nat>)
    requires Sorted(q, value) && forall x :: x in q ==> Val(value, x) == Val(value', x)
    ensures Sorted(q, value')
  {
  }

  // ---------------------------------------------------------------- store facts

  /** Replacing one list while moving containers to match. */
  lemma Relink(s: Store, l: ListId, q: seq<Tid>, home: map<Tid, ListId>)
    requires WellLinked(s) && NoDup(q)
    requires forall t :: t in q <==> t in home && home[t] == l
    requires forall t :: (t in home && home[t] != l) <==> (t in s.home && s.home[t] != l)
    requires forall t :: t in home && home[t] != l ==> home[t] == s.home[t]
    ensures WellLinked(Store(s.lists[l := q], home))
    ensures forall m :: At(Store(s.lists[l := q], home), m) == if m == l then q else At(s, m)
  {
    var r := Store(s.lists[l := q], home);
    forall m ensures At(r, m) == if m == l then q else At(s, m) {
    }
    forall m ensures NoDup(At(r, m)) {
      assert NoDup(At(s, m));
    }
    forall m, t ensures t in At(r, m) <==> t in r.home && r.home[t] == m {
      assert t in At(s, m) <==> t in s.home && s.home[t] == m;
    }
  }

  lemma RemoveLinked(s: Store, t: Tid)
    requires WellLinked(s)
    ensures WellLinked(Remove(s, t)) && Remove(s, t).home == s.home - {t}
    ensures forall l :: At(Remove(s, t), l) == if t in s.home && l == s.home[t] then Without(At(s, l), t) else At(s, l)
  {
    hide At, WellLinked, NoDup, Without;
    if t in s.home {
      var l := s.home[t];
      LinkedAt(s, l);
      WithoutFacts(At(s, l), t);
      Relink(s, l, Without(At(s, l), t), s.home - {t});
    } else {
      assert s.home - {t} == s.home;
    }
  }

  lemma PushBackLinked(s: Store, l: ListId, t: Tid)
    requires WellLinked(s) && t !in s.home
    ensures WellLinked(PushBack(s, l, t)) && PushBack(s, l, t).home == s.home[t := l]
    ensures forall m :: At(PushBack(s, l, t), m) == if m == l then At(s, l) + [t] else At(s, m)
  {
    assert NoDup(At(s, l));
    assert forall x :: x in At(s, l) <==> x in s.home && s.home[x] == l;
    Relink(s, l, At(s, l) + [t], s.home[t := l]);
  }

  lemma InsertLinked(s: Store, l: ListId, t: Tid, value: map<Tid, nat>)
    requires WellLinked(s) && t !in s.home
    ensures WellLinked(Insert(s, l, t, value))
    ensures forall m :: At(Insert(s, l, t, value), m) == if m == l then SortedInsert(At(s, l), t, value) else At(s, m)
  {
    assert NoDup(At(s, l));
    assert forall x :: x in At(s, l) <==> x in s.home && s.home[x] == l;
    InsertFacts(At(s, l), t, value);
    Relink(s, l, SortedInsert(At(s, l), t, value), s.home[t := l]);
  }

  /** An item leaves its list for another one. */
  function Move(s: Store, t: Tid, l: ListId): (r: Store) {
    PushBack(Remove(s, t), l, t)
  }

  lemma MoveLinked(s: Store, t: Tid, l: ListId)
    requires WellLinked(s) && t in s.home
    ensures WellLinked(Move(s, t, l)) && Move(s, t, l).home == s.home[t := l]
    ensures forall m :: m != l && m != s.home[t] ==> At(Move(s, t, l), m) == At(s, m)
    ensures l != s.home[t] ==> At(Move(s, t, l), s.home[t]) == Without(At(s, s.home[t]), t)
    ensures l != s.home[t] ==> At(Move(s, t, l), l) == At(s, l) + [t]
    ensures t in At(s, s.home[t])
  {
    hide At, WellLinked, NoDup, Without, Remove, PushBack;
    RemoveLinked(s, t);
    PushBackLinked(Remove(s, t), l, t);
    LinkedAt(s, s.home[t]);
  }

  lemma MoveSortedLinked(s: Store, t: Tid, l: ListId, value: map<Tid, nat>)
    requires WellLinked(s) && t in s.home && l != s.home[t]
    ensures var r := Insert(Remove(s, t), l, t, value);
      && WellLinked(r) && r.home == s.home[t := l]
      && (forall m :: m != l && m != s.home[t] ==> At(r, m) == At(s, m))
      && At(r, s.home[t]) == Without(At(s, s.home[t]), t)
      && At(r, l) == SortedInsert(At(s, l), t, value) && t !in At(s, l)
  {
    hide At, WellLinked, NoDup, Without, Remove, SortedInsert;
    RemoveLinked(s, t);
    InsertLinked(Remove(s, t), l, t, value);
    LinkedAt(s, l);
  }

  /** What a well-linked store says about one list. */
  lemma LinkedAt(s: Store, l: ListId)
    requires WellLinked(s)
    ensures NoDup(At(s, l)) && forall t :: t in At(s, l) <==> t in s.home && s.home[t] == l
  {
  }

  /** Item t is in at most one list, and at most once in it. */
  ghost predicate AtMostOnce(s: Store, t: Tid) {
    forall l, m :: t in At(s, l) && t in At(s, m) ==> l == m && NoDup(At(s, l))
  }

  lemma LinkedAtMostOnce(s: Store, t: Tid)
    requires WellLinked(s)
    ensures AtMostOnce(s, t)
  {
    forall l, m | t in At(s, l) && t in At(s, m) ensures l == m && NoDup(At(s, l)) {
      LinkedAt(s, l);
      LinkedAt(s, m);
    }
  }

  // ---------------------------------------------------------------- counting

  function Members(s: Store, l: ListId): (m: set<Tid>) {
    set t | t in s.home && s.home[t] == l
  }

  function SumLengths(s: Store, ids: seq<ListId>): (n: nat) {
    if ids == [] then 0 else |At(s, ids[0])| + SumLengths(s, ids[1..])
  }

  lemma {:induction false} NoDupSize(q: seq<Tid>, m: set<Tid>)
    requires NoDup(q) && forall t :: t in q <==> t in m
    ensures |q| == |m|
  {
    if q == [] {
      assert m == {};
    } else {
      assert q == [q[0]] + q[1..];
      assert q[0] !in q[1..];
      NoDupSize(q[1..], m - {q[0]});
    }
  }

  lemma MembersSize(s: Store, l: ListId)
    requires WellLinked(s)
    ensures |At(s, l)| == |Members(s, l)|
  {
    assert NoDup(At(s, l));
    assert forall x :: x in At(s, l) <==> x in s.home && s.home[x] == l;
    NoDupSize(At(s, l), Members(s, l));
  }

  function Inside(s: Store, ids: seq<ListId>): (m: set<Tid>) {
    set t | t in s.home && s.home[t] in ids
  }

  lemma InsideSplit(home: map<Tid, ListId>, l: ListId, rest: seq<ListId>, all: set<Tid>, a: set<Tid>, b: set<Tid>)
    requires l !in rest
    requires forall t :: t in all <==> t in home && home[t] in [l] + rest
    requires forall t :: t in a <==> t in home && home[t] == l
    requires forall t :: t in b <==> t in home && home[t] in rest
    ensures |all| == |a| + |b|
  {
    assert forall m :: m in [l] + rest <==> m == l || m in rest;
    assert all == a + b;
    assert a !! b;
  }

  /** The lengths of distinct lists add up to the number of items in them. */
  lemma {:induction false} LengthsCountItems(s: Store, ids: seq<ListId>)
    requires WellLinked(s) && forall i, j :: 0 <= i < j < |ids| ==> ids[i] != ids[j]
    ensures SumLengths(s, ids) == |Inside(s, ids)|
  {
    if ids == [] {
      assert Inside(s, ids) == {};
    } else {
      hide WellLinked, At;
      var l, rest := ids[0], ids[1..];
      LengthsCountItems(s, rest);
      MembersSize(s, l);
      assert ids == [l] + rest && l !in rest;
      InsideSplit(s.home, l, rest, Inside(s, ids), Members(s, l), Inside(s, rest));
    }
  }
}
