/** The code of stream_buffer.c as one call after another sees it: a byte ring that, used as a
    message buffer, behaves as a bounded queue of whole messages. */
module StreamBuffers {
  import opened MessageFraming

  function Wrap(i: nat, len: nat): (r: nat) { if i >= len then i - len else i }

  function Min(a: nat, b: nat): (m: nat) { if a <= b then a else b }

  /** `n` bytes of a ring, starting at index `from`. */
  function Slice(b: seq<Byte>, from: nat, n: nat): (s: seq<Byte>)
    requires from < |b| && n <= |b|
    ensures |s| == n
  {
    if from + n <= |b| then b[from..from + n] else b[from..] + b[..from + n - |b|]
  }

  /** A ring after storing `d` from index `at` on. */
  function Overwrite(b: seq<Byte>, at: nat, d: seq<Byte>): (r: seq<Byte>)
    requires at < |b| && |d| <= |b|
    ensures |r| == |b|
  {
    if at + |d| <= |b| then b[..at] + d + b[at + |d|..]
    else var first := |b| - at; d[first..] + b[|d| - first..at] + d[..first]
  }

  /** The storage after one copy that does not wrap. */
  function Splice(b: seq<Byte>, at: nat, d: seq<Byte>): (r: seq<Byte>)
    requires at + |d| <= |b|
    ensures |r| == |b|
  {
    b[..at] + d + b[at + |d|..]
  }

  /** One copy up to the end of the storage and one from its start make a wrapping store. */
  lemma TwoCopies(b: seq<Byte>, at: nat, d: seq<Byte>, first: nat)
    requires at < |b| && |d| <= |b| && first == Min(|b| - at, |d|)
    ensures first == |d| ==> Splice(b, at, d[..first]) == Overwrite(b, at, d)
    ensures first < |d| ==> Splice(Splice(b, at, d[..first]), 0, d[first..]) == Overwrite(b, at, d)
  {
    if first == |d| {
      assert d[..first] == d;
    } else {
      assert Splice(b, at, d[..first]) == b[..at] + d[..first];
      assert b[..at][|d| - first..] == b[|d| - first..at];
    }
  }

  /** What was stored can be read back. */
  lemma SliceOfOverwrite(b: seq<Byte>, at: nat, d: seq<Byte>)
    requires at < |b| && |d| <= |b|
    ensures Slice(Overwrite(b, at, d), at, |d|) == d
  {
  }

  lemma SliceAt(b: seq<Byte>, from: nat, n: nat, i: nat)
    requires from < |b| && n <= |b| && i < n
    ensures Wrap(from + i, |b|) < |b| && Slice(b, from, n)[i] == b[Wrap(from + i, |b|)]
  {
  }

  /** Storing changes nothing outside the bytes stored. */
  lemma OverwriteOutside(b: seq<Byte>, at: nat, d: seq<Byte>, j: nat)
    requires at < |b| && |d| <= |b| && j < |b|
    requires if at + |d| <= |b| then j < at || at + |d| <= j else at + |d| - |b| <= j < at
    ensures Overwrite(b, at, d)[j] == b[j]
  {
  }

  /** Storing after a slice leaves the slice alone. */
  lemma SliceKept(b: seq<Byte>, from: nat, n: nat, d: seq<Byte>)
    requires from < |b| && n + |d| <= |b|
    ensures Wrap(from + n, |b|) < |b|
    ensures Slice(Overwrite(b, Wrap(from + n, |b|), d), from, n) == Slice(b, from, n)
  {
    hide Slice, Overwrite;
    var c := Overwrite(b, Wrap(from + n, |b|), d);
    forall i | 0 <= i < n ensures Slice(c, from, n)[i] == Slice(b, from, n)[i] {
      SliceAt(b, from, n, i);
      SliceAt(c, from, n, i);
      OverwriteOutside(b, Wrap(from + n, |b|), d, Wrap(from + i, |b|));
    }
  }

  /** Two adjacent slices make one. */
  lemma SliceJoin(b: seq<Byte>, from: nat, n: nat, m: nat)
    requires from < |b| && n + m <= |b|
    ensures Wrap(from + n, |b|) < |b|
    ensures Slice(b, from, n + m) == Slice(b, from, n) + Slice(b, Wrap(from + n, |b|), m)
  {
  }

  /** Storing after the unread bytes appends to them. */
  lemma Append(b: seq<Byte>, tail: nat, used: nat, d: seq<Byte>)
    requires tail < |b| && used + |d| <= |b|
    ensures Wrap(tail + used, |b|) < |b|
    ensures Slice(Overwrite(b, Wrap(tail + used, |b|), d), tail, used + |d|) == Slice(b, tail, used) + d
  {
    var at := Wrap(tail + used, |b|);
    SliceKept(b, tail, used, d);
    SliceOfOverwrite(b, at, d);
    SliceJoin(Overwrite(b, at, d), tail, used, |d|);
  }

  lemma AppendTwice(b: seq<Byte>, tail: nat, used: nat, c: seq<Byte>, d: seq<Byte>, at: nat, at': nat)
    requires tail < |b| && used + |c| + |d| <= |b|
    requires at == Wrap(tail + used, |b|) && at' == Wrap(at + |c|, |b|)
    ensures at < |b| && at' < |b|
    ensures Slice(Overwrite(Overwrite(b, at, c), at', d), tail, used + |c| + |d|) == Slice(b, tail, used) + (c + d)
  {
    hide Slice, Overwrite;
    Append(b, tail, used, c);
    Append(Overwrite(b, at, c), tail, used + |c|, d);
  }

  /** The first message is at the front of the stored bytes. */
  lemma {:induction false} FlattenFront(ms: seq<seq<Byte>>, w: nat)
    requires ms != []
    ensures Flatten(ms, w) == Frame(ms[0], w) + Flatten(ms[1..], w)
  {
    hide Frame, Flatten;
    var n := |ms| - 1;
    FlattenLast(ms, w);
    if n == 0 {
      FlattenNothing(ms[..0], w);
      FlattenNothing(ms[1..], w);
    } else {
      FlattenFront(ms[..n], w);
      FlattenLast(ms[1..], w);
      assert ms[..n][1..] == ms[1..][..n - 1] && ms[1..][n - 1] == ms[n];
    }
  }

  lemma FlattenLast(ms: seq<seq<Byte>>, w: nat)
    requires ms != []
    ensures Flatten(ms, w) == Flatten(ms[..|ms| - 1], w) + Frame(ms[|ms| - 1], w)
  {
    hide Frame;
  }

  lemma FlattenNothing(ms: seq<seq<Byte>>, w: nat)
    requires ms == []
    ensures Flatten(ms, w) == []
  {
  }

  class StreamBuffer {
    const buf: array<Byte>
    const framed: bool
    const prefix: nat
    var head: nat
    var tail: nat
    ghost var msgs: seq<seq<Byte>>   // the unread messages of a message buffer

    ghost predicate RingValid()
      reads this
    {
      buf.Length >= 1 && head < buf.Length && tail < buf.Length && prefix > 0
    }

    ghost function Used(): (n: nat)
      requires RingValid()
      reads this
      ensures n <= buf.Length - 1
    {
      if head >= tail then head - tail else head + buf.Length - tail
    }

    /** The unread bytes. */
    ghost function Contents(): (s: seq<Byte>)
      requires RingValid()
      reads this, buf
      ensures |s| == Used()
    {
      Slice(buf[..], tail, Used())
    }

    ghost predicate Valid()
      reads this, buf
    {
      && RingValid()
      && (framed ==> Contents() == Flatten(msgs, prefix))
      && (forall i :: 0 <= i < |msgs| ==> 0 < |msgs[i]| < Pow256(prefix))
    }

    constructor (size: nat, framed: bool, prefix: nat)
      requires size >= 1 && prefix > 0
      ensures Valid() && fresh(buf) && buf.Length == size && this.framed == framed && this.prefix == prefix
      ensures Contents() == [] && msgs == []
    {
      buf := new Byte[size];
      this.framed, this.prefix := framed, prefix;
      head, tail, msgs := 0, 0, [];
    }

    /** xStreamBufferSpacesAvailable, when the reader does not run between its reads of xTail
        (StreamChannel has the re-read loop under interleaving). */
    method SpacesAvailable() returns (space: nat)
      requires RingValid()
      ensures space + Used() == buf.Length - 1
    {
      space := buf.Length + tail - head - 1;
      if space >= buf.Length {
        space := space - buf.Length;
      }
    }

    /** prvBytesInBuffer. */
    method BytesInBuffer() returns (count: nat)
      requires RingValid()
      ensures count == Used()
    {
      count := buf.Length + head - tail;
      if count >= buf.Length {
        count := count - buf.Length;
      }
    }

    /** memcpy into the buffer. */
    method CopyIn(offset: nat, data: seq<Byte>)
      requires offset + |data| <= buf.Length
      modifies buf
      ensures buf[..] == Splice(old(buf[..]), offset, data)
    {
      ghost var before := buf[..];
      for i := 0 to |data|
        invariant forall j :: 0 <= j < buf.Length ==>
          buf[j] == if offset <= j < offset + i then data[j - offset] else before[j]
      {
        buf[offset + i] := data[i];
      }
      assert forall j :: 0 <= j < buf.Length ==> Splice(before, offset, data)[j] == buf[j];
    }

    /** prvWriteBytesToBuffer: at most two copies, and xHead itself is not moved. */
    method WriteBytes(data: seq<Byte>, at: nat) returns (next: nat)
      requires 0 < |data| <= buf.Length && at < buf.Length
      modifies buf
      ensures next == Wrap(at + |data|, buf.Length) < buf.Length
      ensures buf[..] == Overwrite(old(buf[..]), at, data)
    {
      hide Splice, Overwrite;
      var first := Min(buf.Length - at, |data|);
      TwoCopies(buf[..], at, data, first);
      CopyIn(at, data[..first]);
      if |data| > first {
        CopyIn(0, data[first..]);
      }
      next := at + |data|;
      if next >= buf.Length {
        next := next - buf.Length;
      }
    }

    /** prvReadBytesFromBuffer: at most two copies, and xTail itself is not moved. */
    method ReadBytes(count: nat, at: nat) returns (data: seq<Byte>, next: nat)
      requires 0 < count <= buf.Length && at < buf.Length
      ensures data == Slice(buf[..], at, count)
      ensures next == Wrap(at + count, buf.Length) < buf.Length
    {
      var first := Min(buf.Length - at, count);
      data := buf[at..at + first];
      if count > first {
        data := data + buf[..count - first];
      }
      next := at + count;
      if next >= buf.Length {
        next := next - buf.Length;
      }
    }

    /** The framed half of prvWriteMessageToBuffer: the length and the data are stored
        before xHead moves once; an empty message never moves it. */
    method WriteFrame(data: seq<Byte>)
      requires RingValid() && Used() + prefix + |data| <= buf.Length - 1
      modifies this`head, buf
      ensures RingValid()
      ensures Contents() == if data == [] then old(Contents()) else old(Contents()) + Frame(data, prefix)
    {
      hide Slice, Overwrite, EncodeLength;
      ghost var used, before := Used(), buf[..];
      ghost var length := EncodeLength(|data|, prefix);
      var next := WriteBytes(EncodeLength(|data|, prefix), head);
      SliceKept(before, tail, used, length);
      if data != [] {
        AppendTwice(before, tail, used, length, data, head, next);
        head := WriteBytes(data, next);
      }
    }

    /** The stream half of prvWriteMessageToBuffer. */
    method WriteStream(data: seq<Byte>)
      requires RingValid() && Used() + |data| <= buf.Length - 1
      modifies this`head, buf
      ensures RingValid() && Contents() == old(Contents()) + data
    {
      hide Slice, Overwrite;
      if data != [] {
        Append(buf[..], tail, Used(), data);
        head := WriteBytes(data, head);
      }
    }

    /** prvWriteMessageToBuffer. */
    method WriteMessage(data: seq<Byte>, space: nat) returns (written: nat)
      requires RingValid() && space + Used() == buf.Length - 1
      modifies this`head, buf
      ensures RingValid()
      ensures framed ==> written == if |data| + prefix <= space then |data| else 0
      ensures !framed ==> written == Min(|data|, space)
      ensures Contents() == old(Contents()) +
        if written == 0 then [] else if framed then Frame(data, prefix) else data[..written]
    {
      written := 0;
      if framed {
        if space >= |data| + prefix {
          written := |data|;
          WriteFrame(data);
        }
      } else {
        written := Min(|data|, space);
        WriteStream(data[..written]);
      }
    }

    /** Moves xTail past `n` bytes that have been copied out. */
    method Consume(n: nat, ghost skipped: nat, ghost data: seq<Byte>)
      requires RingValid() && skipped <= n <= Used()
      requires data == Slice(buf[..], Wrap(tail + skipped, buf.Length), n - skipped)
      modifies this`tail
      ensures RingValid()
      ensures Contents() == old(Contents())[n..] && data == old(Contents())[skipped..n]
    {
      hide Slice;
      SliceJoin(buf[..], tail, skipped, n - skipped);
      SliceJoin(buf[..], tail, n, Used() - n);
      tail := Wrap(tail + n, buf.Length);
    }

    /** prvReadMessageFromBuffer, which its callers reach only with something to read. */
    method ReadMessage(max: nat, available: nat) returns (data: seq<Byte>)
      requires RingValid() && available == Used() && available > if framed then prefix else 0
      modifies this`tail
      ensures RingValid()
      ensures !framed ==> var n := Min(max, available);
        data == old(Contents())[..n] && Contents() == old(Contents())[n..]
      ensures framed ==> var n := DecodeLength(old(Contents())[..prefix]);
        if n > max then data == [] && tail == old(tail)
        else var count := Min(n, available - prefix);
          && data == old(Contents())[prefix..prefix + count]
          && (if count == 0 then tail == old(tail) else Contents() == old(Contents())[prefix + count..])
    {
      hide Slice;
      var next := tail;
      var left, want := available, max;
      if framed {
        var header;
        header, next := ReadBytes(prefix, next);
        SliceJoin(buf[..], tail, prefix, available - prefix);
        want := DecodeLength(header);
        left := left - prefix;
        if want > max {
          want := 0;
        }
      }
      var count := Min(want, left);
      data := [];
      if count != 0 {
        var after;
        data, after := ReadBytes(count, next);
        Consume(available - left + count, available - left, data);
      }
    }

    /** xStreamBufferSend once it no longer waits for space. */
    method Send(data: seq<Byte>) returns (written: nat)
      requires Valid() && (framed ==> |data| < Pow256(prefix))
      modifies this`head, this`msgs, buf
      ensures Valid() && tail == old(tail)
      ensures !framed ==>
        written == Min(|data|, buf.Length - 1 - old(Used())) && Contents() == old(Contents()) + data[..written]
      ensures framed ==> (written == |data| || written == 0)
      ensures framed && data != [] ==> (written > 0 <==> old(Used()) + prefix + |data| <= buf.Length - 1)
      ensures framed ==> msgs == if written > 0 then old(msgs) + [data] else old(msgs)
    {
      var space := SpacesAvailable();
      written := WriteMessage(data, space);
      if framed && written > 0 {
        FlattenPush(msgs, data, prefix);
        msgs := msgs + [data];
      }
    }

    /** What the front of a non-empty message buffer decodes to. */
    lemma FrontMessage()
      requires Valid() && framed && msgs != []
      ensures var m := msgs[0];
        && Used() >= prefix + |m| && 0 < |m|
        && DecodeLength(Contents()[..prefix]) == |m|
        && Contents()[prefix..prefix + |m|] == m
        && Contents()[prefix + |m|..] == Flatten(msgs[1..], prefix)
    {
      FlattenFront(msgs, prefix);
      var m := msgs[0];
      LengthRoundTrip(|m|, prefix);
      assert Contents()[..prefix] == Frame(m, prefix)[..prefix] == EncodeLength(|m|, prefix);
    }

    /** xStreamBufferReceive once it no longer waits for data. */
    method Receive(max: nat) returns (data: seq<Byte>)
      requires Valid()
      modifies this`tail, this`msgs
      ensures Valid() && head == old(head)
      ensures framed && (old(msgs) == [] || |old(msgs)[0]| > max) ==>
        data == [] && msgs == old(msgs) && tail == old(tail)
      ensures framed && old(msgs) != [] && |old(msgs)[0]| <= max ==> data == old(msgs)[0] && msgs == old(msgs)[1..]
      ensures !framed ==> var n := Min(max, old(Used()));
        data == old(Contents())[..n] && Contents() == old(Contents())[n..]
    {
      hide Slice, Flatten;
      data := [];
      var available := BytesInBuffer();
      if framed {
        StoredMessages();
        if msgs != [] {
          FrontMessage();
        }
      }
      if available > if framed then prefix else 0 {
        data := ReadMessage(max, available);
        if framed && data != [] {
          msgs := msgs[1..];
        }
      }
    }

    /** A message buffer holds either nothing or more than a length prefix. */
    lemma StoredMessages()
      requires Valid() && framed
      ensures Used() == 0 <==> msgs == []
      ensures Used() == 0 || Used() > prefix
    {
      if msgs != [] {
        FlattenFront(msgs, prefix);
      }
    }
  }
}
