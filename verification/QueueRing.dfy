/** The storage of a queue: queue.c's pcWriteTo and pcReadFrom walking round a buffer of uxLength items, as a bounded
    double-ended queue.  Positions are offsets from pcHead; pcReadFrom is one item behind the next item to be read. */
module QueueRing {

  type byte = x: int | 0 <= x < 256

  datatype Position = ToBack | ToFront | Overwrite

  // ---------------------------------------------------------------- slots

  /** The slot i items after the one following r, in a ring of n slots. */
  function At(r: nat, i: nat, n: nat): (k: nat)
    requires r < n && i <= n
    ensures k < n
  {
    var x := r + 1 + i;
    if x < n then x else if x < 2 * n then x - n else x - 2 * n
  }

  function Next(k: nat, n: nat): (r: nat) { if k + 1 >= n then 0 else k + 1 }

  function Before(k: nat, n: nat): (r: nat)
    requires n > 0
  {
    if k == 0 then n - 1 else k - 1
  }

  lemma SlotBounds(k: nat, n: nat, z: nat)
    requires k < n
    ensures k * z + z <= n * z && (k + 1) * z == k * z + z
  {
    assert n * z == k * z + z + (n - 1 - k) * z;
  }

  function Slot(s: seq<byte>, k: nat, n: nat, z: nat): (item: seq<byte>)
    requires k < n && |s| == n * z
    ensures |item| == z
  {
    SlotBounds(k, n, z);
    s[k * z..k * z + z]
  }

  /** Writing one slot leaves the others alone. */
  lemma WriteSlot(s: seq<byte>, s': seq<byte>, k: nat, m: nat, n: nat, z: nat, x: seq<byte>)
    requires k < n && m < n && |s| == n * z && |x| == z && |s'| == |s|
    requires k * z + z <= |s| && s' == s[..k * z] + x + s[k * z + z..]
    ensures Slot(s', m, n, z) == if m == k then x else Slot(s, m, n, z)
  {
    hide Slot;
    SlotBounds(m, n, z);
    if m < k {
      SlotBounds(m, k, z);
    } else if k < m {
      SlotBounds(k, m, z);
    }
    SlotIs(s, m, n, z);
    SlotIs(s', m, n, z);
    SpliceSlice(s, s', k * z, m * z, z, x);
  }

  /** What a copy of x to offset a does to z bytes at offset b, the same or apart. */
  lemma SpliceSlice(s: seq<byte>, s': seq<byte>, a: nat, b: nat, z: nat, x: seq<byte>)
    requires a + z <= |s| && b + z <= |s| && |x| == z && s' == s[..a] + x + s[a + z..]
    requires a == b || a + z <= b || b + z <= a
    ensures |s'| == |s| && s'[b..b + z] == if a == b then x else s[b..b + z]
  {
  }

  /** The ring holds the items, oldest first, from the slot after r on. */
  ghost predicate Holds(s: seq<byte>, r: nat, n: nat, z: nat, items: seq<seq<byte>>) {
    && r < n && |s| == n * z && |items| <= n
    && forall i :: 0 <= i < |items| ==> items[i] == Slot(s, At(r, i, n), n, z)
  }

  lemma HoldsBack(s: seq<byte>, s': seq<byte>, r: nat, n: nat, z: nat, items: seq<seq<byte>>, x: seq<byte>)
    requires Holds(s, r, n, z, items) && |items| < n && |x| == z && |s'| == |s|
    requires var w := At(r, |items|, n); w * z + z <= |s| && s' == s[..w * z] + x + s[w * z + z..]
    ensures Holds(s', r, n, z, items + [x]) && Next(At(r, |items|, n), n) == At(r, |items| + 1, n)
  {
    var w := At(r, |items|, n);
    hide Slot;
    forall i | 0 <= i < |items| + 1 ensures (items + [x])[i] == Slot(s', At(r, i, n), n, z) {
      WriteSlot(s, s', w, At(r, i, n), n, z, x);
    }
  }

  lemma HoldsFront(s: seq<byte>, s': seq<byte>, r: nat, n: nat, z: nat, items: seq<seq<byte>>, x: seq<byte>)
    requires Holds(s, r, n, z, items) && |items| < n && |x| == z && |s'| == |s|
    requires r * z + z <= |s| && s' == s[..r * z] + x + s[r * z + z..]
    ensures Holds(s', Before(r, n), n, z, [x] + items) && At(Before(r, n), |items| + 1, n) == At(r, |items|, n)
  {
    hide Slot;
    forall i | 0 <= i < |items| + 1 ensures ([x] + items)[i] == Slot(s', At(Before(r, n), i, n), n, z) {
      WriteSlot(s, s', r, At(Before(r, n), i, n), n, z, x);
      if i > 0 {
        assert At(Before(r, n), i, n) == At(r, i - 1, n);
      }
    }
  }

  lemma HoldsRest(s: seq<byte>, r: nat, n: nat, z: nat, items: seq<seq<byte>>)
    requires Holds(s, r, n, z, items) && items != []
    ensures Holds(s, Next(r, n), n, z, items[1..]) && Slot(s, Next(r, n), n, z) == items[0]
    ensures At(Next(r, n), |items| - 1, n) == At(r, |items|, n)
  {
    hide Slot;
    assert At(r, 0, n) == Next(r, n);
    forall i | 0 <= i < |items| - 1 ensures items[1..][i] == Slot(s, At(Next(r, n), i, n), n, z) {
      assert items[1..][i] == items[i + 1] && At(Next(r, n), i, n) == At(r, i + 1, n);
    }
  }

  /** Stepping a position by one item, as the code does with offsets. */
  lemma StepOffset(k: nat, n: nat, z: nat)
    requires k < n && z > 0
    ensures (if k * z + z >= n * z then 0 else k * z + z) == Next(k, n) * z
    ensures (if k * z - z < 0 then n * z - z else k * z - z) == Before(k, n) * z
  {
    SlotBounds(k, n, z);
    if k + 1 < n {
      SlotBounds(k + 1, n, z);
    }
    if k > 0 {
      SlotBounds(k - 1, n, z);
    }
    SlotBounds(n - 1, n, z);
  }

  // ---------------------------------------------------------------- the abstract queue

  /** An overwrite of a full queue whose items have size 0: the one send that is let through and not undone. */
  predicate Overfills(messages: nat, length: nat, itemSize: nat, position: Position) {
    itemSize == 0 && position == Overwrite && messages == length
  }

  // ---------------------------------------------------------------- the code

  class Queue {
    const length: nat            // uxLength
    const itemSize: nat          // uxItemSize
    const storage: array<byte>   // pcHead .. pcTail
    var messages: nat            // uxMessagesWaiting
    var writeTo: nat             // pcWriteTo
    var readFrom: int            // pcReadFrom
    ghost var items: seq<seq<byte>>
    ghost var w: nat
    ghost var r: nat

    /** The positions are inside the storage and on item boundaries, and the storage holds the items. */
    ghost predicate Valid()
      reads this, storage
    {
      && length >= 1 && storage.Length == length * itemSize
      && messages == |items| && |items| <= length && (forall x :: x in items ==> |x| == itemSize)
      && w < length && r < length && writeTo == w * itemSize && readFrom == r * itemSize
      && (itemSize > 0 ==> w == At(r, messages, length) && Holds(storage[..], r, length, itemSize, items))
    }

    /** xQueueGenericReset, on a new queue. */
    constructor (length: nat, itemSize: nat)
      requires length >= 1
      ensures Valid() && items == [] && this.length == length && this.itemSize == itemSize && fresh(storage)
    {
      this.length, this.itemSize := length, itemSize;
      assert 0 <= length * itemSize;
      storage := new byte[length * itemSize](_ => 0);
      messages, writeTo, items, w, r := 0, 0, [], 0, length - 1;
      readFrom := (length - 1) * itemSize;
      new;
      SlotBounds(length - 1, length, itemSize);
    }

    /** xQueueGenericReset. */
    method Reset()
      requires Valid()
      modifies this
      ensures Valid() && items == []
    {
      messages, writeTo, items, w, r := 0, 0, [], 0, length - 1;
      readFrom := (length - 1) * itemSize;
      SlotBounds(length - 1, length, itemSize);
    }

    /** memcpy into the storage. */
    method CopyIn(offset: nat, x: seq<byte>)
      requires offset + |x| <= storage.Length
      modifies storage
      ensures storage[..] == old(storage[..offset]) + x + old(storage[offset + |x|..])
    {
      ghost var before := storage[..];
      for i := 0 to |x|
        invariant forall j :: 0 <= j < storage.Length ==>
          storage[j] == if offset <= j < offset + i then x[j - offset] else before[j]
      {
        storage[offset + i] := x[i];
      }
    }

    /** prvCopyDataToQueue, for a queue that is not a mutex. */
    method CopyDataToQueue(x: seq<byte>, position: Position)
      requires Valid() && |x| == itemSize
      requires messages < length || position == Overwrite
      requires position == Overwrite ==> length == 1
      modifies this, storage
      ensures messages == old(messages) + if itemSize > 0 && position == Overwrite && old(messages) > 0 then 0 else 1
      ensures Valid() <==> !Overfills(old(messages), length, itemSize, position)
      ensures itemSize == 0 || position == ToBack ==> items == old(items) + [x]
      ensures itemSize > 0 && position == ToFront ==> items == [x] + old(items)
      ensures itemSize > 0 && position == Overwrite ==> items == [x]
    {
      hide Holds, Slot;
      if itemSize == 0 {
        items := items + [x];
        messages := messages + 1;
      } else if position == ToBack {
        WriteBack(x);
      } else {
        if position == Overwrite && messages > 0 {
          assert w == 0 && r == 0;
          HoldsNothing(storage[..], r, length, itemSize);
          messages, items := messages - 1, [];
        }
        WriteFront(x);
      }
    }

    /** pcWriteTo moves on by one item. */
    method AdvanceWrite()
      requires itemSize > 0 && w < length && writeTo == w * itemSize && storage.Length == length * itemSize
      modifies this`writeTo, this`w
      ensures w == Next(old(w), length) && w < length && writeTo == w * itemSize
    {
      StepOffset(w, length, itemSize);
      writeTo := writeTo + itemSize;
      if writeTo >= storage.Length {
        writeTo := 0;
      }
      w := Next(w, length);
    }

    /** pcReadFrom moves back by one item. */
    method RetreatRead()
      requires itemSize > 0 && r < length && readFrom == r * itemSize && storage.Length == length * itemSize
      modifies this`readFrom, this`r
      ensures r == Before(old(r), length) && r < length && readFrom == r * itemSize
    {
      StepOffset(r, length, itemSize);
      readFrom := readFrom - itemSize;
      if readFrom < 0 {
        readFrom := storage.Length - itemSize;
      }
      r := Before(r, length);
    }

    method WriteBack(x: seq<byte>)
      requires Valid() && |x| == itemSize > 0 && messages < length
      modifies this, storage
      ensures Valid() && items == old(items) + [x]
    {
      hide Slot, Holds, At, Next;
      SlotBounds(w, length, itemSize);
      ghost var s := storage[..];
      CopyIn(writeTo, x);
      HoldsBack(s, storage[..], r, length, itemSize, items, x);
      AdvanceWrite();
      messages, items := messages + 1, items + [x];
    }

    method WriteFront(x: seq<byte>)
      requires Valid() && |x| == itemSize > 0 && messages < length
      modifies this, storage
      ensures Valid() && items == [x] + old(items)
    {
      hide Slot, Holds, At, Before;
      SlotBounds(r, length, itemSize);
      ghost var s := storage[..];
      CopyIn(readFrom, x);
      HoldsFront(s, storage[..], r, length, itemSize, items, x);
      RetreatRead();
      messages, items := messages + 1, [x] + items;
    }

    /** prvCopyDataFromQueue. */
    method CopyDataFromQueue() returns (x: seq<byte>)
      requires Valid() && messages > 0
      modifies this`readFrom, this`r
      ensures x == items[0]
      ensures itemSize > 0 ==> r == Next(old(r), length) && readFrom == r * itemSize
      ensures itemSize == 0 ==> r == old(r) && readFrom == old(readFrom)
    {
      hide Holds, Slot, At;
      x := [];
      assert items[0] in items;
      if itemSize != 0 {
        StepOffset(r, length, itemSize);
        HoldsRest(storage[..], r, length, itemSize, items);
        readFrom := readFrom + itemSize;
        if readFrom >= storage.Length {
          readFrom := 0;
        }
        r := Next(r, length);
        SlotBounds(r, length, itemSize);
        x := storage[readFrom..readFrom + itemSize];
        SlotIs(storage[..], r, length, itemSize);
      }
    }

    /** The sending step: room, or an overwrite. */
    method Send(x: seq<byte>, position: Position) returns (sent: bool)
      requires Valid() && |x| == itemSize && (position == Overwrite ==> length == 1)
      modifies this, storage
      ensures Valid() <==> !Overfills(old(messages), length, itemSize, position)
      ensures sent <==> |old(items)| < length || position == Overwrite
      ensures !sent ==> items == old(items) && messages == old(messages)
      ensures sent && (itemSize == 0 || position == ToBack) ==> items == old(items) + [x]
      ensures sent && itemSize > 0 && position == ToFront ==> items == [x] + old(items)
      ensures sent && itemSize > 0 && position == Overwrite ==> items == [x]
      ensures sent ==>
        messages == old(messages) + if itemSize > 0 && position == Overwrite && old(messages) > 0 then 0 else 1
      ensures messages <= length <==> !(sent && Overfills(old(messages), length, itemSize, position))
    {
      sent := messages < length || position == Overwrite;
      if sent {
        CopyDataToQueue(x, position);
      }
    }

    /** The receiving step. */
    method Receive() returns (received: bool, x: seq<byte>)
      requires Valid()
      modifies this
      ensures Valid() && (received <==> old(items) != [])
      ensures received ==> old(items) == [x] + items
      ensures !received ==> items == old(items)
    {
      received, x := messages > 0, [];
      if received {
        if itemSize > 0 {
          HoldsRest(storage[..], r, length, itemSize, items);
        }
        x := CopyDataFromQueue();
        messages, items := messages - 1, items[1..];
      }
    }

    /** The peeking step: the read position is put back. */
    method Peek() returns (received: bool, x: seq<byte>)
      requires Valid()
      modifies this`readFrom, this`r
      ensures Valid() && (received <==> items != []) && (received ==> x == items[0])
    {
      received, x := messages > 0, [];
      if received {
        var original := readFrom;
        ghost var slot := r;
        x := CopyDataFromQueue();
        readFrom, r := original, slot;
      }
    }
  }

  lemma HoldsNothing(s: seq<byte>, r: nat, n: nat, z: nat)
    requires r < n && |s| == n * z
    ensures Holds(s, r, n, z, [])
  {
  }

  lemma SlotIs(s: seq<byte>, k: nat, n: nat, z: nat)
    requires k < n && |s| == n * z && k * z + z <= |s|
    ensures Slot(s, k, n, z) == s[k * z..k * z + z]
  {
  }

  /** A queue of length 1 whose items have size 0: one send fills it, and an overwrite leaves it with two messages. */
  method OverwriteCanOverfill() returns (q: Queue)
    ensures q.length == 1 && q.itemSize == 0 && q.messages == 2 && !q.Valid()
  {
    q := new Queue(1, 0);
    var sent := q.Send([], ToBack);
    sent := q.Send([], Overwrite);
  }
}
