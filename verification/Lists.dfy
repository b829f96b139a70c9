/** The intrusive lists of list.c: circular doubly linked lists with an end marker and a walking index. */
module Lists {
  import TaskLists

  class ListItem {
    var value: nat                 // xItemValue
    var next: ListItem?
    var prev: ListItem?
    var owner: nat
    var container: List?

    /** vListInitialiseItem; the owner and the value are set by the item's user. */
    constructor (owner: nat, value: nat)
      ensures this.owner == owner && this.value == value && container == null
    {
      this.owner, this.value, container := owner, value, null;
    }
  }

  /** Position of the item picked after position j, in a ring of n items whose end marker is at 0. */
  function NextPosition(j: nat, n: nat): (k: nat)
    requires j <= n && n > 0
    ensures 1 <= k <= n
  {
    if j < n then j + 1 else 1
  }

  ghost predicate Distinct(q: seq<ListItem>) {
    forall i, j :: 0 <= i < j < |q| ==> q[i] != q[j]
  }

  ghost predicate Linked(a: ListItem, b: ListItem)
    reads a`next, b`prev
  {
    a.next == b && b.prev == a
  }

  /** Neighbours are linked. */
  ghost predicate Chained(q: seq<ListItem>)
    reads q`next, q`prev
  {
    forall i, j :: 0 <= i && j == i + 1 && j < |q| ==> Linked(q[i], q[j])
  }

  /** x at position p. */
  ghost function InsertAt(q: seq<ListItem>, p: nat, x: ListItem): (r: seq<ListItem>)
    requires p <= |q|
    ensures |r| == |q| + 1 && r[p] == x
    ensures forall i :: 0 <= i < p ==> r[i] == q[i]
    ensures forall i :: p < i < |r| ==> r[i] == q[i - 1]
  {
    q[..p] + [x] + q[p..]
  }

  lemma InsertDistinct(q: seq<ListItem>, p: nat, x: ListItem)
    requires p <= |q| && Distinct(q) && x !in q
    ensures Distinct(InsertAt(q, p, x))
  {
  }

  ghost function Nexts(q: seq<ListItem>): (r: seq<ListItem?>)
    reads q
    ensures |r| == |q| && forall i :: 0 <= i < |q| ==> r[i] == q[i].next
  {
    seq(|q|, i requires 0 <= i < |q| reads q => q[i].next)
  }

  ghost function Prevs(q: seq<ListItem>): (r: seq<ListItem?>)
    reads q
    ensures |r| == |q| && forall i :: 0 <= i < |q| ==> r[i] == q[i].prev
  {
    seq(|q|, i requires 0 <= i < |q| reads q => q[i].prev)
  }

  /** The ring q was closed when its items' links were `next` and `prev`. */
  ghost predicate WasRing(q: seq<ListItem>, next: seq<ListItem?>, prev: seq<ListItem?>) {
    && |q| >= 1 && |next| == |q| && |prev| == |q|
    && (forall i, j :: 0 <= i && j == i + 1 && j < |q| ==> next[i] == q[j] && prev[j] == q[i])
    && next[|q| - 1] == q[0] && prev[0] == q[|q| - 1]
  }

  lemma RingNow(q: seq<ListItem>)
    requires |q| >= 1 && Chained(q) && Linked(q[|q| - 1], q[0])
    ensures WasRing(q, Nexts(q), Prevs(q))
  {
    forall i, j | 0 <= i && j == i + 1 && j < |q| ensures Nexts(q)[i] == q[j] && Prevs(q)[j] == q[i] {
      assert Linked(q[i], q[j]);
    }
  }

  /** A ring in which x has since been linked in at position p. */
  lemma LinkedIn(q: seq<ListItem>, next: seq<ListItem?>, prev: seq<ListItem?>, p: nat, x: ListItem)
    requires WasRing(q, next, prev) && 1 <= p <= |q|
    requires Linked(q[p - 1], x) && Linked(x, if p == |q| then q[0] else q[p])
    requires forall i :: 0 <= i < |q| && i != p - 1 ==> q[i].next == next[i]
    requires forall i :: 0 <= i < |q| && i != (if p == |q| then 0 else p) ==> q[i].prev == prev[i]
    ensures Chained(InsertAt(q, p, x)) && Linked(InsertAt(q, p, x)[|q|], q[0])
  {
    var r := InsertAt(q, p, x);
    forall i, j | 0 <= i && j == i + 1 && j < |r| ensures Linked(r[i], r[j]) {
      if j < p {
        assert next[i] == q[j] && prev[j] == q[i];
      } else if i > p {
        assert next[i - 1] == q[j - 1] && prev[j - 1] == q[i - 1];
      }
    }
  }

  class List {
    var number: nat                // uxNumberOfItems
    var index: ListItem            // pxIndex
    const end: ListItem            // xListEnd
    const max: nat                 // portMAX_DELAY
    ghost var ring: seq<ListItem>  // the end marker, then the items in order

    /** The items name this list as their container. */
    ghost predicate Owned(q: seq<ListItem>)
      reads q`container, q`value
    {
      forall x :: x in q ==> x.container == this && x.value <= max
    }

    /** Links are inverse to each other, containers and count are exact, and the index is in the ring. */
    ghost predicate Valid()
      reads this, ring
    {
      && |ring| >= 1 && ring[0] == end && number == |ring| - 1 && Distinct(ring)
      && Chained(ring) && Linked(ring[|ring| - 1], end)
      && Owned(ring[1..]) && end.container == null && end.value == max
      && index in ring
    }

    ghost function Position(x: ListItem): (i: nat)
      requires Valid() && x in ring
      reads this, ring
      ensures i < |ring| && ring[i] == x
    {
      var i :| 0 <= i < |ring| && ring[i] == x;
      i
    }

    /** Where listINSERT_END puts an item: before the index, so that it is the last to be picked. */
    ghost function EndPosition(): (p: nat)
      requires Valid()
      reads this, ring
      ensures 1 <= p <= |ring|
    {
      if Position(index) == 0 then |ring| else Position(index)
    }

    /** The items without the end marker. */
    ghost function Items(): (s: seq<ListItem>)
      requires |ring| >= 1
      reads this
    {
      ring[1..]
    }

    /** vListInitialise. */
    constructor (max: nat)
      ensures Valid() && this.max == max && Items() == [] && fresh(end) && index == end
    {
      var e := new ListItem(0, max);
      end, index, number, ring := e, e, 0, [e];
      this.max := max;
      new;
      e.next, e.prev := e, e;
    }

    /** An item between its neighbours. */
    method Link(x: ListItem, before: ListItem, after: ListItem, ghost p: nat)
      requires 1 <= p <= |ring| && Distinct(ring) && x !in ring && Chained(ring) && Linked(ring[|ring| - 1], ring[0])
      requires before == ring[p - 1] && after == if p == |ring| then ring[0] else ring[p]
      modifies x`next, x`prev, before`next, after`prev
      ensures Chained(InsertAt(ring, p, x)) && Linked(InsertAt(ring, p, x)[|ring|], ring[0])
    {
      hide Distinct, Chained, WasRing, InsertAt;
      ghost var q, nexts, prevs := ring, Nexts(ring), Prevs(ring);
      RingNow(q);
      OnlyOne(q, p - 1);
      OnlyOne(q, if p == |q| then 0 else p);
      x.next := after;
      x.prev := before;
      before.next := x;
      after.prev := x;
      LinkedIn(q, nexts, prevs, p, x);
    }

    /** The end of both insertions: x enters the ring between two neighbours. */
    method Place(x: ListItem, before: ListItem, after: ListItem, ghost p: nat)
      requires Valid() && x !in ring && x.container == null && x.value <= max
      requires 1 <= p <= |ring| && before == ring[p - 1] && after == if p == |ring| then ring[0] else ring[p]
      modifies this`number, this`ring, x`next, x`prev, x`container, before`next, after`prev
      ensures Valid() && x.container == this && ring == InsertAt(old(ring), p, x)
    {
      hide Distinct, Chained, InsertAt, Linked;
      InsertDistinct(ring, p, x);
      InsertMembers(ring, p, x);
      Link(x, before, after, p);
      x.container := this;
      number := number + 1;
      ring := InsertAt(ring, p, x);
    }

    /** vListInsertEnd: the new item goes before the index. */
    method InsertEnd(x: ListItem)
      requires Valid() && x !in ring && x.container == null && x.value <= max
      modifies this`number, this`ring, x`next, x`prev, x`container, ring`next, ring`prev
      ensures Valid() && x.container == this && ring == InsertAt(old(ring), old(EndPosition()), x)
      ensures old(index) == end ==> index == end && |ring| >= 1 && Items() == old(Items()) + [x]
      ensures old(index) == end ==> Owners(Items()) == old(Owners(Items())) + [x.owner]
    {
      if index == end {
        EndIsAppend(ring, x);
        OwnersAppend(ring[1..], x);
      }
      ghost var p := EndPosition();
      assert Linked(ring[p - 1], index);
      Place(x, index.prev, index, p);
    }

    /** The search of vListInsert: after all the items whose value is not larger, up to the first that is. */
    method FindPlace(value: nat) returns (at: ListItem, ghost p: nat)
      requires Valid() && value <= max
      ensures 1 <= p <= |ring| && at == ring[p - 1] && at.next == if p == |ring| then ring[0] else ring[p]
      ensures forall i :: 1 <= i < p ==> ring[i].value <= value
      ensures p < |ring| ==> ring[p].value > value
    {
      hide Distinct, Chained;
      if value == max {
        p := |ring|;
        at := end.prev;
        assert forall i :: 1 <= i < |ring| ==> ring[i] in ring[1..];
      } else {
        at, p := end, 1;
        AfterPosition(ring, 0);
        while at.next.value <= value
          invariant 1 <= p <= |ring| && at == ring[p - 1]
          invariant at.next == if p == |ring| then ring[0] else ring[p]
          invariant forall i :: 1 <= i < p ==> ring[i].value <= value
          decreases |ring| - p
        {
          at := at.next;
          p := p + 1;
          AfterPosition(ring, p - 1);
        }
      }
    }

    /** vListInsert. */
    method Insert(x: ListItem) returns (ghost p: nat)
      requires Valid() && x !in ring && x.container == null && x.value <= max
      modifies this`number, this`ring, x`next, x`prev, x`container, ring`next, ring`prev
      ensures Valid() && x.container == this && 1 <= p <= |old(ring)| && ring == InsertAt(old(ring), p, x)
      ensures forall i :: 1 <= i < p ==> old(ring)[i].value <= x.value
      ensures p < |old(ring)| ==> old(ring)[p].value > x.value
      ensures old(Ascending(ring)) ==> Ascending(ring)
    {
      hide Distinct, Chained, InsertAt, Linked, Owned, Ascending;
      var at;
      at, p := FindPlace(x.value);
      InsertAscending(ring, p, x);
      Place(x, at, at.next, p);
    }

    /** listGET_OWNER_OF_NEXT_ENTRY, on a list that is not empty. */
    method NextEntry(ghost j: nat) returns (x: ListItem)
      requires Valid() && |ring| > 1 && j < |ring| && ring[j] == index
      modifies this`index
      ensures Valid() && x == index == ring[NextPosition(j, |ring| - 1)]
    {
      hide Distinct, Chained, Owned;
      AfterPosition(ring, j);
      AfterPosition(ring, 0);
      index := index.next;
      if index == end {
        index := end.next;
      }
      x := index;
      OnlyEnd(ring);
      assert x == ring[NextPosition(j, |ring| - 1)];
    }

    /** As many selections as there are items, with the list unchanged. */
    method SelectRound() returns (picks: seq<ListItem>)
      requires Valid() && |ring| > 1
      modifies this`index
      ensures Valid() && picks == PickOrder(old(ring), old(Position(index)))
    {
      hide Distinct, Chained, Owned, Linked, PickOrder;
      ghost var start := Position(index);
      ghost var j := start;
      picks := [];
      var n := number;
      for k := 0 to n
        invariant Valid() && n == |ring| - 1 && 0 <= j < |ring| && ring == old(ring) && ring[j] == index
        invariant picks == PickOrder(ring, start)[..k] && j == (if start + k <= n then start + k else start + k - n)
      {
        PickAt(ring, start, k);
        var x := NextEntry(j);
        j := NextPosition(j, n);
        picks := picks + [x];
      }
    }

    /** uxListRemove: exactly the item at position k goes; the index steps back if it was there. */
    method Remove(x: ListItem, ghost k: nat) returns (left: nat)
      requires Valid() && 1 <= k < |ring| && x == ring[k]
      modifies this`number, this`ring, this`index, x`container, ring`next, ring`prev
      ensures Valid() && x.container == null && left == number && ring == RemoveAt(old(ring), k)
      ensures index == if old(index) == x then old(ring)[k - 1] else old(index)
    {
      hide Distinct, Chained, RemoveAt, Linked, Owned;
      RemoveFacts(ring, k);
      OwnedRest(this, k);
      PrevIs(ring, k);
      Unlink(x, k);
      if index == x {
        index := x.prev;
      }
      left := Drop(x, k);
    }

    /** The item, already unlinked, is given up. */
    method Drop(x: ListItem, ghost k: nat) returns (left: nat)
      requires 1 <= k < |ring| && x == ring[k] && number == |ring| - 1
      requires var q := RemoveAt(ring, k);
        && q[0] == end && Distinct(q) && Chained(q) && Linked(q[|q| - 1], end) && Owned(q[1..]) && index in q
        && forall i :: 0 <= i < |q[1..]| ==> q[1..][i] != x
      requires x != end && end.container == null && end.value == max
      modifies this`number, this`ring, x`container
      ensures Valid() && x.container == null && left == number && ring == RemoveAt(old(ring), k)
    {
      hide Distinct, Chained, RemoveAt, Linked, Owned;
      x.container := null;
      number := number - 1;
      ring := RemoveAt(ring, k);
      left := number;
    }

    /** The neighbours of x are linked to each other. */
    method Unlink(x: ListItem, ghost k: nat)
      requires 1 <= k < |ring| && x == ring[k] && Distinct(ring) && Chained(ring) && Linked(ring[|ring| - 1], ring[0])
      modifies ring`next, ring`prev
      ensures x.prev == old(x.prev)
      ensures Chained(RemoveAt(ring, k)) && Linked(RemoveAt(ring, k)[|ring| - 2], ring[0])
    {
      hide Distinct, Chained, WasRing, RemoveAt;
      ghost var q, nexts, prevs := ring, Nexts(ring), Prevs(ring);
      RingNow(q);
      AfterPosition(q, k - 1);
      AfterPosition(q, k);
      OnlyOne(q, k);
      OnlyOne(q, k - 1);
      OnlyOne(q, if k == |q| - 1 then 0 else k + 1);
      x.next.prev := x.prev;
      x.prev.next := x.next;
      LinkedOut(q, nexts, prevs, k);
    }
  }

  /** The other items stay owned when the one at position k is given up. */
  lemma OwnedRest(l: List, k: nat)
    requires l.Valid() && 1 <= k < |l.ring|
    ensures var rest := RemoveAt(l.ring, k)[1..]; l.Owned(rest) && forall i :: 0 <= i < |rest| ==> rest[i] != l.ring[k]
    ensures l.ring[k] != l.end
  {
    RemoveFacts(l.ring, k);
    var rest := RemoveAt(l.ring, k)[1..];
    forall i | 0 <= i < |rest| ensures rest[i] != l.ring[k] {
      assert rest[i] in rest;
    }
  }

  lemma PrevIs(q: seq<ListItem>, k: nat)
    requires 1 <= k < |q| && Distinct(q) && Chained(q) && Linked(q[|q| - 1], q[0])
    ensures q[k].prev == q[k - 1] && q[k - 1] in RemoveAt(q, k)
  {
    AfterPosition(q, k - 1);
    assert RemoveAt(q, k)[k - 1] == q[k - 1];
  }

  /** The neighbour after a position. */
  lemma AfterPosition(q: seq<ListItem>, i: nat)
    requires i < |q| && Chained(q) && Linked(q[|q| - 1], q[0])
    ensures Linked(q[i], if i == |q| - 1 then q[0] else q[i + 1])
  {
    if i < |q| - 1 {
      var j := i + 1;
      assert Linked(q[i], q[j]);
    }
  }

  lemma InsertMembers(q: seq<ListItem>, p: nat, x: ListItem)
    requires 1 <= p <= |q|
    ensures InsertAt(q, p, x)[0] == q[0]
    ensures forall y :: y in InsertAt(q, p, x) <==> y in q || y == x
    ensures forall y :: y in InsertAt(q, p, x)[1..] <==> y in q[1..] || y == x
  {
    assert InsertAt(q, p, x)[1..] == q[1..p] + [x] + q[p..];
    assert q[1..] == q[1..p] + q[p..] && q == q[..p] + q[p..];
  }

  ghost function RemoveAt(q: seq<ListItem>, k: nat): (r: seq<ListItem>)
    requires k < |q|
    ensures |r| == |q| - 1
    ensures forall i :: 0 <= i < k ==> r[i] == q[i]
    ensures forall i :: k <= i < |r| ==> r[i] == q[i + 1]
  {
    q[..k] + q[k + 1..]
  }

  lemma RemoveFacts(q: seq<ListItem>, k: nat)
    requires 1 <= k < |q| && Distinct(q)
    ensures Distinct(RemoveAt(q, k)) && RemoveAt(q, k)[0] == q[0]
    ensures forall y :: y in RemoveAt(q, k) <==> y in q && y != q[k]
    ensures forall y :: y in RemoveAt(q, k)[1..] <==> y in q[1..] && y != q[k]
  {
    var r := RemoveAt(q, k);
    assert q == q[..k] + [q[k]] + q[k + 1..] && q[1..] == q[1..k] + [q[k]] + q[k + 1..];
    assert r[1..] == q[1..k] + q[k + 1..];
    assert q[k] !in q[..k] && q[k] !in q[k + 1..] && q[k] !in q[1..k];
  }

  /** A ring from which the item at position k has since been unlinked. */
  lemma LinkedOut(q: seq<ListItem>, next: seq<ListItem?>, prev: seq<ListItem?>, k: nat)
    requires WasRing(q, next, prev) && 1 <= k < |q|
    requires Linked(q[k - 1], if k == |q| - 1 then q[0] else q[k + 1])
    requires forall i :: 0 <= i < |q| && i != k - 1 ==> q[i].next == next[i]
    requires forall i :: 0 <= i < |q| && i != (if k == |q| - 1 then 0 else k + 1) ==> q[i].prev == prev[i]
    ensures Chained(RemoveAt(q, k)) && Linked(RemoveAt(q, k)[|q| - 2], q[0])
  {
    var r := RemoveAt(q, k);
    forall i, j | 0 <= i && j == i + 1 && j < |r| ensures Linked(r[i], r[j]) {
      if j < k {
        assert next[i] == q[j] && prev[j] == q[i];
      } else if i >= k {
        assert next[i + 1] == q[j + 1] && prev[j + 1] == q[i + 1];
      }
    }
  }

  lemma OnlyOne(q: seq<ListItem>, k: nat)
    requires Distinct(q) && k < |q|
    ensures forall i :: 0 <= i < |q| && i != k ==> q[i] != q[k]
  {
  }

  lemma OnlyEnd(q: seq<ListItem>)
    requires |q| >= 1 && Distinct(q)
    ensures forall i :: 1 <= i < |q| ==> q[i] != q[0]
  {
  }

  // ---------------------------------------------------------------- order

  /** The items' values are in ascending order. */
  ghost predicate Ascending(ring: seq<ListItem>)
    reads ring`value
  {
    forall i, j :: 1 <= i < j < |ring| ==> ring[i].value <= ring[j].value
  }

  /** Inserted after the items that are not larger and before the first larger one, x comes after its equals. */
  lemma InsertAscending(q: seq<ListItem>, p: nat, x: ListItem)
    requires 1 <= p <= |q|
    requires (forall i :: 1 <= i < p ==> q[i].value <= x.value) && (p < |q| ==> q[p].value > x.value)
    ensures Ascending(q) ==> Ascending(InsertAt(q, p, x)) && forall i :: p <= i < |q| ==> x.value < q[i].value
  {
  }

  /** The order in which the items are picked, when the index is at position j. */
  ghost function PickOrder(ring: seq<ListItem>, j: nat): (s: seq<ListItem>)
    requires j < |ring|
    ensures |s| == |ring| - 1
  {
    ring[j + 1..] + ring[1..j + 1]
  }

  lemma PickAt(ring: seq<ListItem>, start: nat, k: nat)
    requires start < |ring| && k < |ring| - 1
    ensures var n := |ring| - 1;
      var j := if start + k <= n then start + k else start + k - n;
      && PickOrder(ring, start)[k] == ring[NextPosition(j, n)]
      && PickOrder(ring, start)[..k + 1] == PickOrder(ring, start)[..k] + [PickOrder(ring, start)[k]]
  {
  }

  /** Round robin: each item is picked exactly once in a round. */
  lemma EachPickedOnce(ring: seq<ListItem>, j: nat)
    requires j < |ring|
    ensures multiset(PickOrder(ring, j)) == multiset(ring[1..])
  {
    assert ring[1..] == ring[1..j + 1] + ring[j + 1..];
  }

  /** An item added at the end is picked after every other item, except the one at the index. */
  lemma AddedIsPickedLast(q: seq<ListItem>, j: nat, x: ListItem)
    requires j < |q|
    ensures j == 0 ==> PickOrder(InsertAt(q, |q|, x), 0) == PickOrder(q, 0) + [x]
    ensures j > 0 ==> PickOrder(InsertAt(q, j, x), j + 1) == PickOrder(q, j)[..|q| - 2] + [x, q[j]]
    ensures j > 0 ==> PickOrder(q, j)[|q| - 2] == q[j]
  {
    if j > 0 {
      var r := InsertAt(q, j, x);
      assert r[j + 2..] == q[j + 1..];
      assert r[1..j + 2] == q[1..j] + [x, q[j]];
      assert PickOrder(q, j)[..|q| - 2] == q[j + 1..] + q[1..j];
    }
  }

  // ---------------------------------------------------------------- the sequences of TaskLists

  ghost function Owners(q: seq<ListItem>): (r: seq<TaskLists.Tid>)
    reads q`owner
    ensures |r| == |q| && forall i :: 0 <= i < |q| ==> r[i] == q[i].owner
  {
    if q == [] then [] else [q[0].owner] + Owners(q[1..])
  }

  /** Inserted before the end marker, an item is last. */
  lemma EndIsAppend(ring: seq<ListItem>, x: ListItem)
    requires |ring| >= 1
    ensures InsertAt(ring, |ring|, x)[1..] == ring[1..] + [x]
  {
  }

  /** listINSERT_END on a list that is not walked does to the sequence of owners what appending does. */
  lemma {:induction false} OwnersAppend(q: seq<ListItem>, x: ListItem)
    ensures Owners(q + [x]) == Owners(q) + [x.owner]
  {
    if q != [] {
      OwnersAppend(q[1..], x);
      assert (q + [x])[1..] == q[1..] + [x];
    }
  }

  lemma OwnersCons(y: ListItem, q: seq<ListItem>)
    ensures Owners([y] + q) == [y.owner] + Owners(q)
  {
    assert ([y] + q)[1..] == q;
  }

  /** The map holds the items' values by owner. */
  ghost predicate Carries(value: map<TaskLists.Tid, nat>, q: seq<ListItem>)
    reads q`owner, q`value
  {
    forall i :: 0 <= i < |q| ==> TaskLists.Val(value, q[i].owner) == q[i].value
  }

  /** vListInsert does to the list what SortedInsert does to the sequence of owners. */
  lemma {:induction false} InsertRefines(q: seq<ListItem>, p: nat, x: ListItem, value: map<TaskLists.Tid, nat>)
    requires p <= |q| && Carries(value, q) && TaskLists.Val(value, x.owner) == x.value
    requires (forall i :: 0 <= i < p ==> q[i].value <= x.value) && (p < |q| ==> q[p].value > x.value)
    ensures Owners(InsertAt(q, p, x)) == TaskLists.SortedInsert(Owners(q), x.owner, value)
  {
    hide InsertAt, Owners, TaskLists.SortedInsert, TaskLists.Val;
    TaskLists.InsertUnfold(Owners(q), x.owner, value);
    if p == 0 {
      InsertAtFront(q, x);
      OwnersCons(x, q);
    } else {
      assert q == [q[0]] + q[1..];
      InsertRefines(q[1..], p - 1, x, value);
      InsertAtCons(q, p, x);
      OwnersCons(q[0], InsertAt(q[1..], p - 1, x));
      OwnersCons(q[0], q[1..]);
    }
  }

  lemma InsertAtFront(q: seq<ListItem>, x: ListItem)
    ensures InsertAt(q, 0, x) == [x] + q
  {
  }

  lemma InsertAtCons(q: seq<ListItem>, p: nat, x: ListItem)
    requires 1 <= p <= |q|
    ensures InsertAt(q, p, x) == [q[0]] + InsertAt(q[1..], p - 1, x)
  {
  }

  /** uxListRemove does to the list what Without does to the sequence of owners. */
  lemma RemoveRefines(q: seq<ListItem>, k: nat)
    requires k < |q| && forall i, j :: 0 <= i < j < |q| ==> q[i].owner != q[j].owner
    ensures Owners(RemoveAt(q, k)) == TaskLists.Without(Owners(q), q[k].owner)
  {
    hide Owners, RemoveAt, TaskLists.Without;
    var o := Owners(q);
    assert forall i, j :: 0 <= i < j < |o| ==> o[i] != o[j];
    WithoutAt(o, k);
    OwnersRemove(q, k);
  }

  lemma OwnersRemove(q: seq<ListItem>, k: nat)
    requires k < |q|
    ensures Owners(RemoveAt(q, k)) == Owners(q)[..k] + Owners(q)[k + 1..]
  {
    hide Owners, RemoveAt;
    var o, r := Owners(q), Owners(RemoveAt(q, k));
    forall i | 0 <= i < |r| ensures r[i] == (o[..k] + o[k + 1..])[i] {
      assert i < k ==> RemoveAt(q, k)[i] == q[i];
    }
  }

  lemma {:induction false} WithoutAt(o: seq<TaskLists.Tid>, k: nat)
    requires k < |o| && forall i, j :: 0 <= i < j < |o| ==> o[i] != o[j]
    ensures TaskLists.Without(o, o[k]) == o[..k] + o[k + 1..]
  {
    hide TaskLists.Without;
    TaskLists.WithoutUnfold(o, o[k]);
    if k > 0 {
      WithoutAt(o[1..], k - 1);
    }
  }

  /** Two lists never share an item. */
  lemma ListsDisjoint(a: List, b: List, x: ListItem)
    requires a.Valid() && b.Valid() && a != b && x in a.ring[1..]
    ensures x !in b.ring
  {
    assert x.container == a;
    assert b.ring == [b.end] + b.ring[1..];
  }

  /** An item moves from one list to the end of another; both stay whole, and no other item is touched. */
  method MoveToEnd(a: List, b: List, x: ListItem, ghost k: nat)
    requires a.Valid() && b.Valid() && a != b && a.end != b.end && 1 <= k < |a.ring| && x == a.ring[k]
    requires x.value <= b.max
    modifies a, b, a.ring, b.ring
    ensures a.Valid() && b.Valid() && a.ring == RemoveAt(old(a.ring), k)
    ensures b.ring == InsertAt(old(b.ring), old(b.EndPosition()), x)
  {
    hide List.Valid, InsertAt, RemoveAt;
    RingsApart(a, b);
    NotTheEnd(a, k);
    var _ := a.Remove(x, k);
    RingsApart(a, b);
    NotContained(a, x);
    b.InsertEnd(x);
  }

  lemma ContainerOf(a: List, i: nat)
    requires a.Valid() && i < |a.ring|
    ensures a.ring[i].container == if i == 0 then null else a
    ensures a.ring[0] == a.end && (i > 0 ==> a.ring[i] != a.end)
  {
    if i > 0 {
      assert a.ring[i] in a.ring[1..];
    }
  }

  lemma NotTheEnd(a: List, k: nat)
    requires a.Valid() && 1 <= k < |a.ring|
    ensures a.ring[k] != a.end
  {
    ContainerOf(a, k);
  }

  lemma NotContained(a: List, x: ListItem)
    requires a.Valid() && x.container == null && x != a.end
    ensures forall i :: 0 <= i < |a.ring| ==> a.ring[i] != x
  {
    forall i | 0 <= i < |a.ring| ensures a.ring[i] != x {
      ContainerOf(a, i);
    }
  }

  lemma RingsApart(a: List, b: List)
    requires a.Valid() && b.Valid() && a != b && a.end != b.end
    ensures forall i, j :: 0 <= i < |a.ring| && 0 <= j < |b.ring| ==> a.ring[i] != b.ring[j]
  {
    hide List.Valid;
    forall i, j | 0 <= i < |a.ring| && 0 <= j < |b.ring| ensures a.ring[i] != b.ring[j] {
      ContainerOf(a, i);
      ContainerOf(b, j);
    }
  }
}
