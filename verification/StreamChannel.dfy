/** The length prefix of a message buffer. */
module MessageFraming {

  type Byte = b: nat | b < 256

  function Pow256(w: nat): (r: nat)
    ensures r > 0
  {
    if w == 0 then 1 else 256 * Pow256(w - 1)
  }

  /** A length stored in `w` bytes, least significant byte first. */
  function EncodeLength(n: nat, w: nat): (s: seq<Byte>)
    ensures |s| == w
  {
    if w == 0 then [] else [n % 256] + EncodeLength(n / 256, w - 1)
  }

  function DecodeLength(s: seq<Byte>): (n: nat)
  {
    if s == [] then 0 else s[0] + 256 * DecodeLength(s[1..])
  }

  lemma {:induction false} LengthRoundTrip(n: nat, w: nat)
    requires n < Pow256(w)
    ensures DecodeLength(EncodeLength(n, w)) == n
  {
    if w > 0 {
      LengthRoundTrip(n / 256, w - 1);
      assert EncodeLength(n, w)[1..] == EncodeLength(n / 256, w - 1);
    }
  }

  /** A message as it lies in the buffer: its length, then its bytes. */
  function Frame(m: seq<Byte>, w: nat): (s: seq<Byte>)
    ensures |s| == w + |m|
  {
    EncodeLength(|m|, w) + m
  }

  function Flatten(ms: seq<seq<Byte>>, w: nat): (s: seq<Byte>)
  {
    if ms == [] then [] else Flatten(ms[..|ms| - 1], w) + Frame(ms[|ms| - 1], w)
  }

  lemma FlattenPush(ms: seq<seq<Byte>>, m: seq<Byte>, w: nat)
    ensures Flatten(ms + [m], w) == Flatten(ms, w) + Frame(m, w)
  {
    assert (ms + [m])[..|ms|] == ms;
  }

  /** The frames of an initial run of messages come first, and frame i follows them. */
  lemma {:induction false} FlattenPrefix(ms: seq<seq<Byte>>, i: nat, w: nat)
    requires i <= |ms|
    ensures Flatten(ms[..i], w) <= Flatten(ms, w)
    ensures i < |ms| ==> Flatten(ms[..i], w) + Frame(ms[i], w) <= Flatten(ms, w)
  {
    if i == |ms| {
      assert ms[..i] == ms;
    } else if i == |ms| - 1 {
    } else {
      var front := ms[..|ms| - 1];
      FlattenPrefix(front, i, w);
      assert front[..i] == ms[..i];
    }
  }

  /** Boundaries are strictly ordered: fewer frames take fewer bytes. */
  lemma FlattenStrict(ms: seq<seq<Byte>>, i: nat, j: nat, w: nat)
    requires w > 0 && i < j <= |ms|
    ensures |Flatten(ms[..i], w)| + w + |ms[i]| <= |Flatten(ms[..j], w)|
  {
    var front := ms[..j];
    FlattenPrefix(front, i, w);
    assert front[..i] == ms[..i] && front[i] == ms[i];
  }
}

/** stream_buffer.c with one writer and one reader running concurrently.

    Each step of either side is one access to shared memory: one read of xTail or xHead, one
    byte of a memcpy, or the store that publishes the new index.  The two sides interleave in
    any order.  `sent` and `received` record every byte ever published and consumed, and
    `sentMsgs` and `gotMsgs` the whole messages of a message buffer; no step reads them.
 */
module StreamChannel {
  import opened WrapArithmetic
  import opened MessageFraming

  datatype Writer =
    | WIdle
    | ReadTail(data: seq<Byte>)
    | ReadTailAgain(data: seq<Byte>, original: nat)
    | ReadHead(data: seq<Byte>, original: nat, sum: nat, seen: nat)
    | Recheck(data: seq<Byte>, original: nat, space: int, seen: nat)
    | Copying(data: seq<Byte>, bytes: seq<Byte>, done: nat, publish: bool)

  datatype Stage = Header | Body

  datatype Reader =
    | RIdle
    | LoadHead(max: nat)
    | LoadTail(max: nat, sum: nat, seen: nat, seenMsgs: nat)
    | Fetching(max: nat, available: nat, acc: seq<Byte>, want: nat, stage: Stage, seenMsgs: nat)

  datatype Channel = Channel(
    len: nat,                 // xLength
    framed: bool,             // sbFLAGS_IS_MESSAGE_BUFFER
    prefix: nat,              // sbBYTES_TO_STORE_MESSAGE_LENGTH
    buf: seq<Byte>, head: nat, tail: nat,
    sent: seq<Byte>, received: seq<Byte>,
    sentMsgs: seq<seq<Byte>>, gotMsgs: seq<seq<Byte>>,
    w: Writer, r: Reader)

  datatype Label = StartSend(data: seq<Byte>) | WriterMoves | StartReceive(max: nat) | ReaderMoves

  function Min(a: nat, b: nat): (m: nat) { if a <= b then a else b }

  /** An index at most one lap past the end of the storage. */
  function Wrap(i: nat, len: nat): (r: nat)
  {
    if i >= len then i - len else i
  }

  // ---------------------------------------------------------------- the writer

  /** The last lines of xStreamBufferSpacesAvailable. */
  function Spaces(sum: int, len: nat): (r: int) {
    if sum - 1 >= len then sum - 1 - len else sum - 1
  }

  /** prvWriteMessageToBuffer's decision, given the space that was reported. */
  function Decide(c: Channel, data: seq<Byte>, space: int): (w: Writer) {
    if c.framed then
      if space >= |data| + c.prefix then Copying(data, Frame(data, c.prefix), 0, data != []) else WIdle
    else if data == [] || space <= 0 then WIdle
    else var n := Min(|data|, space); Copying(data, data[..n], 0, true)
  }

  function WriterStep(c: Channel): (r: Channel)
    requires c.w.Copying? && c.w.done < |c.w.bytes| ==> Wrap(c.head + c.w.done, c.len) < |c.buf|
  {
    match c.w
    case WIdle => c
    case ReadTail(data) => c.(w := ReadTailAgain(data, c.tail))
    case ReadTailAgain(data, original) => c.(w := ReadHead(data, original, c.len + c.tail, |c.received|))
    case ReadHead(data, original, sum, seen) => c.(w := Recheck(data, original, sum - c.head, seen))
    case Recheck(data, original, space, seen) =>
      if original != c.tail then c.(w := ReadTail(data))
      else c.(w := Decide(c, data, Spaces(space, c.len)))
    case Copying(data, bytes, done, publish) =>
      if done < |bytes| then
        c.(buf := c.buf[Wrap(c.head + done, c.len) := bytes[done]], w := Copying(data, bytes, done + 1, publish))
      else if publish then
        c.(head := Wrap(c.head + |bytes|, c.len), sent := c.sent + bytes,
           sentMsgs := if c.framed then c.sentMsgs + [data] else c.sentMsgs, w := WIdle)
      else c.(w := WIdle)
  }

  // ---------------------------------------------------------------- the reader

  function BytesIn(sum: int, len: nat): (r: int) {
    if sum >= len then sum - len else sum
  }

  function ReaderStep(c: Channel): (r: Channel)
    requires c.r.Fetching? && |c.r.acc| < c.r.want ==> Wrap(c.tail + |c.r.acc|, c.len) < |c.buf|
  {
    match c.r
    case RIdle => c
    case LoadHead(max) => c.(r := LoadTail(max, c.len + c.head, |c.sent|, |c.sentMsgs|))
    case LoadTail(max, sum, seen, seenMsgs) =>
      var available := BytesIn(sum - c.tail, c.len);
      if c.framed then
        if available > c.prefix then c.(r := Fetching(max, available, [], c.prefix, Header, seenMsgs))
        else c.(r := RIdle)
      else if available <= 0 || max == 0 then c.(r := RIdle)
      else c.(r := Fetching(max, available, [], Min(max, available), Body, seenMsgs))
    case Fetching(max, available, acc, want, stage, seenMsgs) =>
      if |acc| < want then
        c.(r := Fetching(max, available, acc + [c.buf[Wrap(c.tail + |acc|, c.len)]], want, stage, seenMsgs))
      else if stage == Header then
        var next := DecodeLength(acc);
        var count := Min(if next > max then 0 else next, if available >= c.prefix then available - c.prefix else 0);
        if count == 0 then c.(r := RIdle)
        else c.(r := Fetching(max, available, acc, c.prefix + count, Body, seenMsgs))
      else
        c.(tail := Wrap(c.tail + want, c.len), received := c.received + acc,
           gotMsgs := if c.framed && |acc| >= c.prefix then c.gotMsgs + [acc[c.prefix..]] else c.gotMsgs,
           r := RIdle)
  }

  // ---------------------------------------------------------------- runs

  predicate Enabled(c: Channel, l: Label) {
    match l
    case StartSend(data) => c.w.WIdle? && (c.framed ==> |data| < Pow256(c.prefix))
    case WriterMoves => c.w.Copying? && c.w.done < |c.w.bytes| ==> Wrap(c.head + c.w.done, c.len) < |c.buf|
    case StartReceive(_) => c.r.RIdle?
    case ReaderMoves => c.r.Fetching? && |c.r.acc| < c.r.want ==> Wrap(c.tail + |c.r.acc|, c.len) < |c.buf|
  }

  function Step(c: Channel, l: Label): (r: Channel)
    requires Enabled(c, l)
  {
    match l
    case StartSend(data) => c.(w := ReadTail(data))
    case WriterMoves => WriterStep(c)
    case StartReceive(max) => c.(r := LoadHead(max))
    case ReaderMoves => ReaderStep(c)
  }

  predicate Init(c: Channel) {
    && c.len >= 1 && |c.buf| == c.len && c.head == 0 && c.tail == 0 && c.prefix > 0
    && c.sent == [] && c.received == [] && c.sentMsgs == [] && c.gotMsgs == []
    && c.w == WIdle && c.r == RIdle
  }

  ghost predicate IsRun(run: seq<Channel>, labels: seq<Label>) {
    && |run| == |labels| + 1 && Init(run[0])
    && forall i :: 0 <= i < |labels| ==> Enabled(run[i], labels[i]) && run[i + 1] == Step(run[i], labels[i])
  }

  // ---------------------------------------------------------------- the ring

  /** Every published, unread byte is in its slot, and one slot always stays free. */
  ghost predicate Ring(len: nat, buf: seq<Byte>, head: nat, tail: nat, sent: seq<Byte>, received: seq<Byte>) {
    && len >= 1 && |buf| == len
    && head == |sent| % len && tail == |received| % len
    && received <= sent && |sent| - |received| <= len - 1
    && forall k :: |received| <= k < |sent| ==> buf[k % len] == sent[k]
  }

  ghost predicate RingOk(c: Channel) {
    c.prefix > 0 && Ring(c.len, c.buf, c.head, c.tail, c.sent, c.received)
  }

  /** What the writer believes about free space is never more than the truth. */
  ghost predicate WriterOk(c: Channel)
    requires c.len >= 1 && |c.buf| == c.len
  {
    match c.w
    case ReadHead(_, _, sum, seen) =>
      sum == c.len + seen % c.len && seen <= |c.received| && |c.sent| - seen <= c.len - 1
    case Recheck(_, _, space, seen) =>
      space == c.len + seen % c.len - c.head && seen <= |c.received| && |c.sent| - seen <= c.len - 1
    case Copying(_, bytes, done, _) =>
      && done <= |bytes| && |c.sent| - |c.received| + |bytes| <= c.len - 1
      && forall j :: 0 <= j < done ==> c.buf[(|c.sent| + j) % c.len] == bytes[j]
    case _ => true
  }

  /** What the reader believes is available has been published, and it has copied what was sent. */
  ghost predicate ReaderOk(c: Channel) {
    match c.r
    case LoadTail(_, sum, seen, _) =>
      c.len >= 1 && sum == c.len + seen % c.len && |c.received| <= seen <= |c.sent|
    case Fetching(_, available, acc, want, stage, _) =>
      && |acc| <= want <= available && |c.received| + available <= |c.sent|
      && acc == c.sent[|c.received|..|c.received| + |acc|]
      && (c.framed ==> want >= c.prefix)
      && (stage == Header ==> c.framed && want == c.prefix < available)
    case _ => true
  }

  ghost predicate Safe(c: Channel) {
    RingOk(c) && WriterOk(c) && ReaderOk(c)
  }

  /** The slot the writer stores into next. */
  lemma WriterSlot(c: Channel)
    requires RingOk(c) && WriterOk(c) && c.w.Copying? && c.w.done < |c.w.bytes|
    ensures Wrap(c.head + c.w.done, c.len) == (|c.sent| + c.w.done) % c.len < c.len
  {
    AddWrap(|c.sent|, c.w.done, c.len);
  }

  lemma ReaderSlot(c: Channel)
    requires RingOk(c) && ReaderOk(c) && c.r.Fetching? && |c.r.acc| < c.r.want
    ensures Wrap(c.tail + |c.r.acc|, c.len) == (|c.received| + |c.r.acc|) % c.len < c.len
  {
    AddWrap(|c.received|, |c.r.acc|, c.len);
  }

  /** The writer never stores into the slot of an unread byte. */
  lemma WriterSparesUnread(c: Channel, k: nat)
    requires RingOk(c) && WriterOk(c) && c.w.Copying? && c.w.done < |c.w.bytes|
    requires |c.received| <= k < |c.sent|
    ensures Wrap(c.head + c.w.done, c.len) != k % c.len
  {
    WriterSlot(c);
    SlotsDistinct(k, |c.sent| + c.w.done, c.len);
  }

  /** The reader fetches only published bytes. */
  lemma ReaderSeesPublished(c: Channel)
    requires RingOk(c) && ReaderOk(c) && c.r.Fetching? && |c.r.acc| < c.r.want
    ensures |c.received| + |c.r.acc| < |c.sent|
    ensures c.buf[Wrap(c.tail + |c.r.acc|, c.len)] == c.sent[|c.received| + |c.r.acc|]
  {
    ReaderSlot(c);
  }

  /** A stale tail makes xStreamBufferSpacesAvailable report exactly the space there was
      when that tail was read, which is at most the space there is now. */
  lemma SpacesConservative(c: Channel)
    requires RingOk(c) && WriterOk(c) && c.w.Recheck?
    ensures Spaces(c.w.space, c.len) == c.len - 1 - (|c.sent| - c.w.seen)
    ensures 0 <= Spaces(c.w.space, c.len) <= c.len - 1 - (|c.sent| - |c.received|)
  {
    Distance(c.w.seen, |c.sent|, c.len);
  }

  /** A stale head makes prvBytesInBuffer report no more than what is published now. */
  lemma BytesConservative(c: Channel)
    requires RingOk(c) && ReaderOk(c) && c.r.LoadTail?
    ensures BytesIn(c.r.sum - c.tail, c.len) == c.r.seen - |c.received|
  {
    Distance(|c.received|, c.r.seen, c.len);
  }

  /** Storing at a position past the published bytes, but less than a lap past the read ones. */
  lemma RingStore(len: nat, buf: seq<Byte>, head: nat, tail: nat, sent: seq<Byte>, received: seq<Byte>, at: nat,
                  b: Byte)
    requires Ring(len, buf, head, tail, sent, received)
    requires |sent| <= at < |received| + len
    ensures Ring(len, buf[at % len := b], head, tail, sent, received)
  {
    forall k | |received| <= k < |sent| ensures buf[at % len := b][k % len] == sent[k] {
      SlotsDistinct(k, at, len);
    }
  }

  lemma WriterCopySafe(c: Channel)
    requires Safe(c) && c.w.Copying? && c.w.done < |c.w.bytes| && Enabled(c, WriterMoves)
    ensures Safe(WriterStep(c))
  {
    var r := WriterStep(c);
    WriterSlot(c);
    RingStore(c.len, c.buf, c.head, c.tail, c.sent, c.received, |c.sent| + c.w.done, c.w.bytes[c.w.done]);
    forall j | 0 <= j < c.w.done ensures r.buf[(|c.sent| + j) % c.len] == c.w.bytes[j] {
      SlotsDistinct(|c.sent| + j, |c.sent| + c.w.done, c.len);
    }
  }

  lemma WriterPublishSafe(c: Channel)
    requires Safe(c) && c.w.Copying? && c.w.done == |c.w.bytes| && c.w.publish
    ensures Safe(WriterStep(c))
  {
    var r := WriterStep(c);
    AddWrap(|c.sent|, |c.w.bytes|, c.len);
    forall k | |r.received| <= k < |r.sent| ensures r.buf[k % r.len] == r.sent[k] {
      if k >= |c.sent| {
        var j := k - |c.sent|;
        assert c.buf[(|c.sent| + j) % c.len] == c.w.bytes[j];
      }
    }
  }

  lemma WriterDecidesSafe(c: Channel)
    requires Safe(c) && c.w.Recheck?
    ensures Safe(WriterStep(c))
  {
    SpacesConservative(c);
  }

  lemma WriterReadsSafe(c: Channel)
    requires Safe(c) && (c.w.ReadTail? || c.w.ReadTailAgain? || c.w.ReadHead?)
    ensures Safe(WriterStep(c))
  {
  }

  lemma WriterSafe(c: Channel)
    requires Safe(c) && Enabled(c, WriterMoves)
    ensures Safe(WriterStep(c))
  {
    if c.w.ReadTail? || c.w.ReadTailAgain? || c.w.ReadHead? {
      WriterReadsSafe(c);
    } else if c.w.Recheck? {
      WriterDecidesSafe(c);
    } else if c.w.Copying? && c.w.done < |c.w.bytes| {
      WriterCopySafe(c);
    } else if c.w.Copying? && c.w.publish {
      WriterPublishSafe(c);
    }
  }

  lemma ReaderPublishSafe(c: Channel)
    requires Safe(c) && c.r.Fetching? && |c.r.acc| == c.r.want && c.r.stage == Body
    ensures Safe(ReaderStep(c))
  {
    var r := ReaderStep(c);
    AddWrap(|c.received|, |c.r.acc|, c.len);
    assert r.received == c.sent[..|r.received|];
  }

  lemma ReaderLooksSafe(c: Channel)
    requires Safe(c) && (c.r.LoadHead? || c.r.LoadTail?)
    ensures Safe(ReaderStep(c))
  {
    hide Ring, WriterOk;
    RingSizes(c);
    WriterOkKept(c, ReaderStep(c));
    if c.r.LoadTail? {
      BytesConservative(c);
    }
  }

  /** The writer's view does not depend on where the reader is. */
  lemma WriterOkKept(c: Channel, d: Channel)
    requires c.len >= 1 && |c.buf| == c.len && WriterOk(c) && d == c.(r := d.r)
    ensures WriterOk(d)
  {
  }

  lemma RingSizes(c: Channel)
    requires RingOk(c)
    ensures c.len >= 1 && |c.buf| == c.len && c.head == |c.sent| % c.len && |c.received| <= |c.sent|
  {
  }

  lemma ReaderFetchSafe(c: Channel)
    requires Safe(c) && c.r.Fetching? && |c.r.acc| < c.r.want && Enabled(c, ReaderMoves)
    ensures Safe(ReaderStep(c))
  {
    hide Ring, WriterOk;
    RingSizes(c);
    WriterOkKept(c, ReaderStep(c));
    ReaderSeesPublished(c);
    var t, n := |c.received|, |c.r.acc|;
    assert c.sent[t..t + n] + [c.sent[t + n]] == c.sent[t..t + n + 1];
    assert ReaderStep(c).r.acc == c.sent[t..t + n + 1];
  }

  lemma ReaderHeaderSafe(c: Channel)
    requires Safe(c) && c.r.Fetching? && |c.r.acc| == c.r.want && c.r.stage == Header
    ensures Safe(ReaderStep(c))
  {
    hide Ring, WriterOk;
    RingSizes(c);
    WriterOkKept(c, ReaderStep(c));
  }

  lemma ReaderSafe(c: Channel)
    requires Safe(c) && Enabled(c, ReaderMoves)
    ensures Safe(ReaderStep(c))
  {
    if c.r.LoadHead? || c.r.LoadTail? {
      ReaderLooksSafe(c);
    } else if c.r.Fetching? && |c.r.acc| < c.r.want {
      ReaderFetchSafe(c);
    } else if c.r.Fetching? && c.r.stage == Header {
      ReaderHeaderSafe(c);
    } else if c.r.Fetching? {
      ReaderPublishSafe(c);
    }
  }

  lemma StepSafe(c: Channel, l: Label)
    requires Safe(c) && Enabled(c, l)
    ensures Safe(Step(c, l))
  {
    match l
    case WriterMoves => WriterSafe(c);
    case ReaderMoves => ReaderSafe(c);
    case _ =>
  }

  lemma {:induction false} RunSafe(run: seq<Channel>, labels: seq<Label>, i: nat)
    requires IsRun(run, labels) && i < |run|
    ensures Safe(run[i])
  {
    if i > 0 {
      RunSafe(run, labels, i - 1);
      StepSafe(run[i - 1], labels[i - 1]);
    }
  }

  /** In every interleaving the bytes received are a prefix of the bytes sent, a step of the
      writer stores into no slot holding an unread byte, and a byte the reader fetches is
      the next byte that was sent. */
  lemma StreamIsFaithful(run: seq<Channel>, labels: seq<Label>, i: nat)
    requires IsRun(run, labels) && i < |run|
    ensures var c := run[i];
      && c.received <= c.sent && |c.sent| - |c.received| <= c.len - 1
      && (c.w.Copying? && c.w.done < |c.w.bytes| ==>
            forall k :: |c.received| <= k < |c.sent| ==> k % c.len != Wrap(c.head + c.w.done, c.len))
      && (c.r.Fetching? && |c.r.acc| < c.r.want ==>
            && |c.received| + |c.r.acc| < |c.sent| && Wrap(c.tail + |c.r.acc|, c.len) < |c.buf|
            && c.buf[Wrap(c.tail + |c.r.acc|, c.len)] == c.sent[|c.received| + |c.r.acc|])
  {
    RunSafe(run, labels, i);
    var c := run[i];
    if c.w.Copying? && c.w.done < |c.w.bytes| {
      forall k | |c.received| <= k < |c.sent| ensures k % c.len != Wrap(c.head + c.w.done, c.len) {
        WriterSparesUnread(c, k);
      }
    }
    if c.r.Fetching? && |c.r.acc| < c.r.want {
      ReaderSlot(c);
      ReaderSeesPublished(c);
    }
  }

  // ---------------------------------------------------------------- whole messages

  predicate GoodMessage(m: seq<Byte>, w: nat) {
    0 < |m| < Pow256(w)
  }

  ghost predicate History(prefix: nat, sent: seq<Byte>, received: seq<Byte>, sentMsgs: seq<seq<Byte>>,
                          gotMsgs: seq<seq<Byte>>) {
    && prefix > 0 && sent == Flatten(sentMsgs, prefix) && received == Flatten(gotMsgs, prefix)
    && gotMsgs <= sentMsgs
    && (forall i :: 0 <= i < |sentMsgs| ==> GoodMessage(sentMsgs[i], prefix))
  }

  ghost predicate WriterFrames(w: Writer, prefix: nat) {
    match w
    case WIdle => true
    case Copying(data, bytes, _, publish) =>
      |data| < Pow256(prefix) && bytes == Frame(data, prefix) && publish == (data != [])
    case _ => |w.data| < Pow256(prefix)
  }

  ghost predicate ReaderFrames(c: Channel) {
    match c.r
    case LoadTail(_, _, seen, n) =>
      |c.gotMsgs| <= n <= |c.sentMsgs| && seen == |Flatten(c.sentMsgs[..n], c.prefix)|
    case Fetching(_, available, _, want, stage, n) =>
      && |c.gotMsgs| < n <= |c.sentMsgs|
      && |c.received| + available == |Flatten(c.sentMsgs[..n], c.prefix)|
      && (stage == Body ==> want == c.prefix + |c.sentMsgs[|c.gotMsgs|]|)
    case _ => true
  }

  ghost predicate FramesOk(c: Channel) {
    c.framed ==>
      && History(c.prefix, c.sent, c.received, c.sentMsgs, c.gotMsgs)
      && WriterFrames(c.w, c.prefix) && ReaderFrames(c)
  }

  lemma WriterFramesPublish(c: Channel)
    requires FramesOk(c) && c.framed && c.w.Copying? && c.w.done == |c.w.bytes| && c.w.publish
    ensures FramesOk(WriterStep(c))
  {
    hide Flatten, Frame, History, ReaderFrames;
    HistorySend(c.prefix, c.sent, c.received, c.sentMsgs, c.gotMsgs, c.w.data);
    ReaderFramesKept(c, WriterStep(c));
  }

  lemma HistorySend(w: nat, sent: seq<Byte>, received: seq<Byte>, sentMsgs: seq<seq<Byte>>, gotMsgs: seq<seq<Byte>>,
                    m: seq<Byte>)
    requires History(w, sent, received, sentMsgs, gotMsgs) && GoodMessage(m, w)
    ensures History(w, sent + Frame(m, w), received, sentMsgs + [m], gotMsgs)
  {
    hide Flatten, Frame, GoodMessage;
    FlattenPush(sentMsgs, m, w);
  }

  /** Sending more does not change what the reader has seen. */
  lemma ReaderFramesKept(c: Channel, d: Channel)
    requires ReaderFrames(c) && d.r == c.r && d.gotMsgs == c.gotMsgs && d.received == c.received && d.prefix == c.prefix
    requires c.sentMsgs <= d.sentMsgs
    ensures ReaderFrames(d)
  {
    hide Flatten;
    if c.r.LoadTail? || c.r.Fetching? {
      assert d.sentMsgs[..c.r.seenMsgs] == c.sentMsgs[..c.r.seenMsgs];
    }
  }

  lemma WriterFramesStep(c: Channel)
    requires FramesOk(c) && c.framed && Enabled(c, WriterMoves)
    requires c.w.Copying? ==> c.w.done <= |c.w.bytes|
    ensures FramesOk(WriterStep(c))
  {
    if c.w.Copying? && c.w.done == |c.w.bytes| && c.w.publish {
      WriterFramesPublish(c);
    } else {
      WriterFramesQuiet(c);
    }
  }

  /** The writer's steps that publish nothing. */
  lemma WriterFramesQuiet(c: Channel)
    requires FramesOk(c) && c.framed && Enabled(c, WriterMoves) && (c.w.Copying? ==> c.w.done <= |c.w.bytes|)
    requires !(c.w.Copying? && c.w.done == |c.w.bytes| && c.w.publish)
    ensures FramesOk(WriterStep(c))
  {
    hide Flatten, History, ReaderFrames;
    ReaderFramesKept(c, WriterStep(c));
  }

  lemma PrefixSlice(a: seq<Byte>, b: seq<Byte>, c: seq<Byte>, all: seq<Byte>)
    requires a + (b + c) <= all
    ensures |a| + |b| + |c| <= |all|
    ensures all[|a|..|a| + |b| + |c|] == b + c
    ensures all[|a|..|a| + |b|] == b
  {
    var abc := a + (b + c);
    assert all[..|abc|] == abc;
    assert abc[|a|..] == b + c;
    assert all[|a|..|a| + |b|] == (b + c)[..|b|];
  }

  /** Where the next unread message lies. */
  lemma NextFrame(w: nat, sent: seq<Byte>, received: seq<Byte>, sentMsgs: seq<seq<Byte>>, gotMsgs: seq<seq<Byte>>)
    requires History(w, sent, received, sentMsgs, gotMsgs) && |gotMsgs| < |sentMsgs|
    ensures var m := sentMsgs[|gotMsgs|]; var t := |received|;
      && GoodMessage(m, w) && t + w + |m| <= |sent|
      && sent[t..t + w + |m|] == Frame(m, w)
      && sent[t..t + w] == EncodeLength(|m|, w)
  {
    hide Flatten, EncodeLength, GoodMessage;
    var m, t := sentMsgs[|gotMsgs|], |received|;
    FlattenPrefix(sentMsgs, |gotMsgs|, w);
    assert sentMsgs[..|gotMsgs|] == gotMsgs;
    PrefixSlice(received, EncodeLength(|m|, w), m, sent);
  }

  lemma HistoryTake(w: nat, sent: seq<Byte>, received: seq<Byte>, sentMsgs: seq<seq<Byte>>, gotMsgs: seq<seq<Byte>>)
    requires History(w, sent, received, sentMsgs, gotMsgs) && |gotMsgs| < |sentMsgs|
    ensures var m := sentMsgs[|gotMsgs|]; History(w, sent, received + Frame(m, w), sentMsgs, gotMsgs + [m])
  {
    hide Flatten, Frame, GoodMessage;
    FlattenPush(gotMsgs, sentMsgs[|gotMsgs|], w);
  }

  lemma ReaderLooksAtFrames(c: Channel)
    requires Safe(c) && FramesOk(c) && c.framed && (c.r.LoadHead? || c.r.LoadTail?)
    ensures FramesOk(ReaderStep(c))
  {
    assert c.sentMsgs[..|c.sentMsgs|] == c.sentMsgs;
    if c.r.LoadTail? {
      BytesConservative(c);
      var n := c.r.seenMsgs;
      if n == |c.gotMsgs| {
        assert c.sentMsgs[..n] == c.gotMsgs;
      }
    }
  }

  lemma ReaderDecodesLength(c: Channel)
    requires Safe(c) && FramesOk(c) && c.framed && c.r.Fetching? && |c.r.acc| == c.r.want && c.r.stage == Header
    ensures FramesOk(ReaderStep(c))
    ensures ReaderStep(c).r.Fetching? <==> |c.sentMsgs[|c.gotMsgs|]| <= c.r.max
  {
    NextFrame(c.prefix, c.sent, c.received, c.sentMsgs, c.gotMsgs);
    var i, m := |c.gotMsgs|, c.sentMsgs[|c.gotMsgs|];
    LengthRoundTrip(|m|, c.prefix);
    assert c.r.acc == EncodeLength(|m|, c.prefix);
    FlattenStrict(c.sentMsgs, i, c.r.seenMsgs, c.prefix);
    assert c.sentMsgs[..i] == c.gotMsgs;
  }

  lemma ReaderTakesMessage(c: Channel)
    requires Safe(c) && FramesOk(c) && c.framed && c.r.Fetching? && |c.r.acc| == c.r.want && c.r.stage == Body
    ensures FramesOk(ReaderStep(c))
    ensures ReaderStep(c).gotMsgs == c.gotMsgs + [c.sentMsgs[|c.gotMsgs|]]
  {
    NextFrame(c.prefix, c.sent, c.received, c.sentMsgs, c.gotMsgs);
    HistoryTake(c.prefix, c.sent, c.received, c.sentMsgs, c.gotMsgs);
    var m := c.sentMsgs[|c.gotMsgs|];
    assert c.r.acc == Frame(m, c.prefix);
    assert c.r.acc[c.prefix..] == m;
  }

  lemma FramesStep(c: Channel, l: Label)
    requires Safe(c) && FramesOk(c) && Enabled(c, l)
    ensures FramesOk(Step(c, l))
  {
    if c.framed && l.WriterMoves? {
      WriterFramesStep(c);
    } else if c.framed && l.ReaderMoves? {
      if c.r.LoadHead? || c.r.LoadTail? {
        ReaderLooksAtFrames(c);
      } else if c.r.Fetching? && |c.r.acc| == c.r.want {
        if c.r.stage == Header {
          ReaderDecodesLength(c);
        } else {
          ReaderTakesMessage(c);
        }
      }
    }
  }

  /** In every interleaving on a message buffer, the messages received are a prefix of the
      non-empty messages sent: whole, unmerged and in order. */
  lemma {:induction false} MessagesComeOutWhole(run: seq<Channel>, labels: seq<Label>, i: nat)
    requires IsRun(run, labels) && i < |run|
    ensures Safe(run[i]) && FramesOk(run[i])
    ensures run[i].framed ==> run[i].gotMsgs <= run[i].sentMsgs
  {
    if i > 0 {
      MessagesComeOutWhole(run, labels, i - 1);
      StepSafe(run[i - 1], labels[i - 1]);
      FramesStep(run[i - 1], labels[i - 1]);
    }
  }

  // ---------------------------------------------------------------- what a call does

  /** The free space, in bytes. */
  function Free(c: Channel): (n: int) { c.len - 1 - (|c.sent| - |c.received|) }

  /** What a send publishes when `free` bytes are free: a stream buffer takes as much of the data as fits, a message
      buffer the whole of a message, with its length, or nothing. */
  function Accepted(c: Channel, data: seq<Byte>, free: int): (bytes: seq<Byte>) {
    if c.framed then if data != [] && |data| + c.prefix <= free then Frame(data, c.prefix) else []
    else if free <= 0 then [] else if |data| <= free then data else data[..free]
  }

  /** The writer, while a call that began in state c0 goes on and once it is over; `at` is the state in which it read
      the tail. */
  ghost predicate InSend(c0: Channel, c: Channel, data: seq<Byte>, at: Channel) {
    && c.len == c0.len && c.framed == c0.framed && c.prefix == c0.prefix
    && (!c.w.WIdle? ==> c.w.data == data && c.sent == c0.sent && c.sentMsgs == c0.sentMsgs)
    && ((c.w.ReadHead? || c.w.Recheck?) ==> c.w.seen == |at.received|)
    && ((c.w.ReadHead? || c.w.Recheck? || c.w.Copying?) ==> at.sent == c0.sent && at.len == c0.len)
    && (c.w.Copying? ==>
          if c.w.publish then c.w.bytes == Accepted(c0, data, Free(at)) != [] else Accepted(c0, data, Free(at)) == [])
    && (c.w.WIdle? ==>
          && c.sent == c0.sent + Accepted(c0, data, Free(at))
          && c.sentMsgs == if c.framed && Accepted(c0, data, Free(at)) != [] then c0.sentMsgs + [data] else c0.sentMsgs)
  }

  lemma DecideAccepts(c: Channel, data: seq<Byte>, space: int)
    ensures var w := Decide(c, data, space); var bytes := Accepted(c, data, space);
      && (w.WIdle? || w.Copying?)
      && (w.WIdle? ==> bytes == [])
      && (w.Copying? ==> w.data == data && if w.publish then w.bytes == bytes != [] else bytes == [])
  {
  }

  lemma SendStep(c0: Channel, c: Channel, data: seq<Byte>, at: Channel, l: Label)
    requires Safe(c) && Enabled(c, l) && !l.StartSend? && InSend(c0, c, data, at)
    ensures InSend(c0, Step(c, l), data, if l.WriterMoves? && c.w.ReadTailAgain? then c else at)
  {
    hide Ring, Decide, Accepted, ReaderOk;
    if l.WriterMoves? && c.w.Recheck? {
      SpacesConservative(c);
      DecideAccepts(c, data, Spaces(c.w.space, c.len));
      SameAccepted(c0, c, data, Free(at));
    }
  }

  lemma SameAccepted(c: Channel, d: Channel, data: seq<Byte>, free: int)
    requires c.framed == d.framed && c.prefix == d.prefix
    ensures Accepted(c, data, free) == Accepted(d, data, free)
  {
  }

  /** Until the next call of the writer begins, it is in the one that began at i, or that is over. */
  lemma {:induction false} Sending(run: seq<Channel>, labels: seq<Label>, i: nat, j: nat) returns (k: nat)
    requires IsRun(run, labels) && i < j < |run| && labels[i].StartSend?
    requires forall m :: i < m < j ==> !labels[m].StartSend?
    ensures i < k <= j && InSend(run[i], run[j], labels[i].data, run[k])
    decreases j
  {
    hide Safe, InSend;
    k := j;
    if j == i + 1 {
      SendBegins(run[i], labels[i].data, run[j]);
    } else {
      k := Sending(run, labels, i, j - 1);
      RunSafe(run, labels, j - 1);
      SendStep(run[i], run[j - 1], labels[i].data, run[k], labels[j - 1]);
      k := if labels[j - 1].WriterMoves? && run[j - 1].w.ReadTailAgain? then j - 1 else k;
    }
  }

  lemma SendBegins(c: Channel, data: seq<Byte>, at: Channel)
    requires Enabled(c, StartSend(data))
    ensures InSend(c, Step(c, StartSend(data)), data, at)
  {
  }

  /** In every interleaving, a send that has returned has published exactly what the space that was free at some
      moment during the call allows, and nothing else. */
  lemma SendTakesEffect(run: seq<Channel>, labels: seq<Label>, i: nat, j: nat) returns (k: nat)
    requires IsRun(run, labels) && i < j < |run| && labels[i].StartSend? && run[j].w.WIdle?
    requires forall m :: i < m < j ==> !labels[m].StartSend?
    ensures i < k <= j && run[j].sent == run[i].sent + Accepted(run[i], labels[i].data, Free(run[k]))
    ensures run[i].framed ==>
      run[j].sentMsgs == run[i].sentMsgs +
                         if labels[i].data != [] && |labels[i].data| + run[i].prefix <= Free(run[k])
                         then [labels[i].data] else []
  {
    hide IsRun;
    k := Sending(run, labels, i, j);
  }

  /** The reader, likewise; `at` is the state in which it read the head. */
  ghost predicate InReceive(c0: Channel, c: Channel, max: nat, at: Channel) {
    && c.framed == c0.framed && c.prefix == c0.prefix
    && (!c.r.RIdle? ==> c.r.max == max && c.received == c0.received && c.gotMsgs == c0.gotMsgs)
    && (c.r.LoadTail? || c.r.Fetching? ==>
          |c0.received| <= |at.sent| && at.sent <= c.sent && at.sentMsgs <= c.sentMsgs && c.r.seenMsgs == |at.sentMsgs|)
    && (c.r.LoadTail? ==> c.r.seen == |at.sent|)
    && (c.r.Fetching? && !c.framed ==>
          c.r.stage == Body && c.r.want == Min(max, |at.sent| - |c0.received|))
    && (c.r.Fetching? && c.r.stage == Body && c.framed ==>
          |c0.gotMsgs| < |at.sentMsgs| && |at.sentMsgs[|c0.gotMsgs|]| <= max)
    && (c.r.RIdle? ==> Delivered(c0, c, max, at))
  }

  /** What a receive of at most `max` bytes delivers: from a stream buffer as much as was there, from a message buffer
      the next message if there was one and it fits. */
  ghost predicate Delivered(c0: Channel, c: Channel, max: nat, at: Channel) {
    && |c0.received| <= |at.sent|
    && (!c.framed ==> c.received == at.sent[..|c0.received| + Min(max, |at.sent| - |c0.received|)])
    && (c.framed ==>
          c.gotMsgs ==
          if |c0.gotMsgs| < |at.sentMsgs| && |at.sentMsgs[|c0.gotMsgs|]| <= max
          then c0.gotMsgs + [at.sentMsgs[|c0.gotMsgs|]] else c0.gotMsgs)
  }

  lemma ReceiveStep(c0: Channel, c: Channel, max: nat, at: Channel, l: Label)
    requires Safe(c) && FramesOk(c) && Enabled(c, l) && !l.StartReceive? && InReceive(c0, c, max, at)
    ensures InReceive(c0, Step(c, l), max, if l.ReaderMoves? && c.r.LoadHead? then c else at)
  {
    hide Ring, Flatten, WriterOk, WriterFrames, History;
    if l.ReaderMoves? && c.framed {
      ReceiveFramed(c0, c, max, at);
    } else if l.ReaderMoves? {
      ReceiveStream(c0, c, max, at);
    }
  }

  lemma ReceiveStream(c0: Channel, c: Channel, max: nat, at: Channel)
    requires Safe(c) && !c.framed && Enabled(c, ReaderMoves) && InReceive(c0, c, max, at)
    ensures InReceive(c0, ReaderStep(c), max, if c.r.LoadHead? then c else at)
  {
    hide WriterOk;
    if c.r.LoadTail? {
      BytesConservative(c);
    }
  }

  lemma ReceiveFramed(c0: Channel, c: Channel, max: nat, at: Channel)
    requires Safe(c) && FramesOk(c) && c.framed && Enabled(c, ReaderMoves) && InReceive(c0, c, max, at)
    ensures InReceive(c0, ReaderStep(c), max, if c.r.LoadHead? then c else at)
  {
    hide Safe, FramesOk;
    if c.r.LoadHead? || c.r.LoadTail? {
      ReceiveLooks(c0, c, max, at);
    } else if c.r.Fetching? && |c.r.acc| >= c.r.want {
      ReceiveDecides(c0, c, max, at);
    }
  }

  /** With no more than a length's worth of bytes there is no message: every message seen has been taken. */
  lemma NoMessageSeen(c: Channel)
    requires Safe(c) && FramesOk(c) && c.framed && c.r.LoadTail? && c.r.seen - |c.received| <= c.prefix
    ensures c.r.seenMsgs == |c.gotMsgs|
  {
    hide Flatten, WriterOk, WriterFrames, Ring, ReaderOk;
    var n, i := c.r.seenMsgs, |c.gotMsgs|;
    assert c.sentMsgs[..i] == c.gotMsgs;
    if i < n {
      FlattenStrict(c.sentMsgs, i, n, c.prefix);
    }
  }

  lemma ReceiveLooks(c0: Channel, c: Channel, max: nat, at: Channel)
    requires Safe(c) && FramesOk(c) && c.framed && (c.r.LoadHead? || c.r.LoadTail?) && InReceive(c0, c, max, at)
    ensures InReceive(c0, ReaderStep(c), max, if c.r.LoadHead? then c else at)
  {
    hide WriterOk, Ring, FramesOk;
    RingSizes(c);
    if c.r.LoadTail? {
      BytesConservative(c);
      if c.r.seen - |c.received| <= c.prefix {
        NoMessageSeen(c);
      }
    }
  }

  /** The reader has fetched a length, or a message. */
  lemma ReceiveDecides(c0: Channel, c: Channel, max: nat, at: Channel)
    requires Safe(c) && FramesOk(c) && c.framed && c.r.Fetching? && |c.r.acc| >= c.r.want && InReceive(c0, c, max, at)
    ensures InReceive(c0, ReaderStep(c), max, at)
  {
    hide WriterOk, Ring, History, WriterFrames, Flatten;
    assert c.sentMsgs[|c.gotMsgs|] == at.sentMsgs[|c.gotMsgs|];
    if c.r.stage == Header {
      ReaderDecodesLength(c);
    } else {
      ReaderTakesMessage(c);
    }
  }

  /** As for the writer. */
  lemma {:induction false} Receiving(run: seq<Channel>, labels: seq<Label>, i: nat, j: nat) returns (k: nat)
    requires IsRun(run, labels) && i < j < |run| && labels[i].StartReceive?
    requires forall m :: i < m < j ==> !labels[m].StartReceive?
    ensures i < k <= j && InReceive(run[i], run[j], labels[i].max, run[k])
    decreases j
  {
    hide Safe, FramesOk, InReceive;
    k := j;
    if j == i + 1 {
      ReceiveBegins(run[i], labels[i].max, run[j]);
    } else {
      k := Receiving(run, labels, i, j - 1);
      MessagesComeOutWhole(run, labels, j - 1);
      ReceiveStep(run[i], run[j - 1], labels[i].max, run[k], labels[j - 1]);
      k := if labels[j - 1].ReaderMoves? && run[j - 1].r.LoadHead? then j - 1 else k;
    }
  }

  lemma ReceiveBegins(c: Channel, max: nat, at: Channel)
    requires Enabled(c, StartReceive(max))
    ensures InReceive(c, Step(c, StartReceive(max)), max, at)
  {
  }

  /** In every interleaving, a receive that has returned has delivered exactly what was there at some moment during the
      call, up to the space it was given. */
  lemma ReceiveTakesEffect(run: seq<Channel>, labels: seq<Label>, i: nat, j: nat) returns (k: nat)
    requires IsRun(run, labels) && i < j < |run| && labels[i].StartReceive? && run[j].r.RIdle?
    requires forall m :: i < m < j ==> !labels[m].StartReceive?
    ensures i < k <= j && Delivered(run[i], run[j], labels[i].max, run[k])
  {
    hide IsRun, Delivered;
    k := Receiving(run, labels, i, j);
  }

  // ---------------------------------------------------------------- progress

  /** How many more steps the writer takes if the reader does not move. */
  function WriterSteps(c: Channel): (n: nat) {
    match c.w
    case WIdle => 0
    case Copying(_, bytes, done, _) => if done <= |bytes| then 1 + |bytes| - done else 1
    case ReadTail(data) => |data| + c.prefix + 6
    case ReadTailAgain(data, original) => |data| + c.prefix + if original == c.tail then 5 else 9
    case ReadHead(data, original, _, _) => |data| + c.prefix + if original == c.tail then 4 else 8
    case Recheck(data, original, _, _) => |data| + c.prefix + if original == c.tail then 3 else 7
  }

  /** ... and the reader, if it is not given more. */
  function ReaderSteps(c: Channel): (n: nat) {
    match c.r
    case RIdle => 0
    case LoadHead(_) => c.len + 5
    case LoadTail(_, _, _, _) => c.len + 4
    case Fetching(_, available, acc, want, stage, _) =>
      if stage == Header then if |acc| <= available then 2 + available - |acc| else 2
      else if |acc| <= want then 1 + want - |acc| else 1
  }

  lemma WriterStepsFall(c: Channel)
    requires Safe(c)
    ensures Enabled(c, WriterMoves) && (!c.w.WIdle? ==> WriterSteps(WriterStep(c)) < WriterSteps(c))
  {
    hide Frame, ReaderOk, Ring;
    RingSizes(c);
    if c.w.Copying? && c.w.done < |c.w.bytes| {
      WriterSlot(c);
    }
  }

  lemma ReaderStepsFall(c: Channel)
    requires Safe(c)
    ensures Enabled(c, ReaderMoves) && (!c.r.RIdle? ==> ReaderSteps(ReaderStep(c)) < ReaderSteps(c))
  {
    hide DecodeLength, WriterOk;
    if c.r.Fetching? && |c.r.acc| < c.r.want {
      ReaderSlot(c);
    }
    if c.r.LoadTail? {
      BytesConservative(c);
    }
  }

  /** Neither side waits for the other: from any reachable state, and wherever the other side has stopped, a call ends
      within a number of its own steps. */
  lemma {:induction false} WriterFinishes(c: Channel) returns (states: seq<Channel>)
    requires Safe(c)
    ensures 1 <= |states| <= WriterSteps(c) + 1 && states[0] == c && states[|states| - 1].w.WIdle?
    ensures forall i :: 0 <= i < |states| - 1 ==>
      Enabled(states[i], WriterMoves) && states[i + 1] == Step(states[i], WriterMoves)
    decreases WriterSteps(c)
  {
    hide Safe, WriterSteps, WriterStep;
    WriterStepsFall(c);
    states := [c];
    if !c.w.WIdle? {
      StepSafe(c, WriterMoves);
      var rest := WriterFinishes(WriterStep(c));
      states := [c] + rest;
    }
  }

  lemma {:induction false} ReaderFinishes(c: Channel) returns (states: seq<Channel>)
    requires Safe(c)
    ensures 1 <= |states| <= ReaderSteps(c) + 1 && states[0] == c && states[|states| - 1].r.RIdle?
    ensures forall i :: 0 <= i < |states| - 1 ==>
      Enabled(states[i], ReaderMoves) && states[i + 1] == Step(states[i], ReaderMoves)
    decreases ReaderSteps(c)
  {
    hide Safe, ReaderSteps, ReaderStep;
    ReaderStepsFall(c);
    states := [c];
    if !c.r.RIdle? {
      StepSafe(c, ReaderMoves);
      var rest := ReaderFinishes(ReaderStep(c));
      states := [c] + rest;
    }
  }
}
