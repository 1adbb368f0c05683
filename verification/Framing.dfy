/**
  Messages stacked in byte buffers: the queue of a paused message handler and the body of a compound message. Both
  hold the payload first, then the 16-bit id, then a length, and are read from their end.
 */
module Framing {
  import opened Wrappers
  import opened ByteStack
  import MessageTypes

  const ID_BYTES := 2
  const LENGTH_BYTES := 8

  datatype Frame = Frame(id: nat, payload: seq<u8>) {
    /** The id fits its 16 bits and the frame's length its 64. */
    predicate Valid() {
      id < Power256(ID_BYTES) && |payload| + ID_BYTES < Power256(LENGTH_BYTES)
    }
  }

  /** The ids that a registry hands out are those that a frame can carry. */
  lemma FramesHoldIds(f: Frame)
    ensures f.Valid() <==> f.id < MessageTypes.ID_LIMIT && |f.payload| + 2 < 0x1_0000_0000_0000_0000
    ensures MessageTypes.ID_LIMIT == 65536
  {
    hide MessageTypes.CoreNames;
    assert Power256(1) == 256 && Power256(2) == 65536 && Power256(3) == 0x100_0000 && Power256(4) == 0x1_0000_0000;
    assert Power256(5) == 0x100_0000_0000 && Power256(6) == 0x1_0000_0000_0000;
  }

  // ----- the queue

  /** What travels without queueing: the payload and behind it the id. */
  function Body(f: Frame): seq<u8> {
    f.payload + EncodeFixed(f.id, ID_BYTES)
  }

  function Enqueue(buffer: seq<u8>, f: Frame): seq<u8> {
    buffer + Body(f) + EncodeFixed(|Body(f)|, LENGTH_BYTES)
  }

  function EnqueueAll(buffer: seq<u8>, fs: seq<Frame>): seq<u8> {
    if fs == [] then buffer else Enqueue(EnqueueAll(buffer, fs[..|fs| - 1]), fs[|fs| - 1])
  }

  /** `on_message_received(span)`: takes the id off the end, the rest is the payload. */
  function Split(body: seq<u8>): Frame
    requires |body| >= ID_BYTES
  {
    Frame(DecodeFixed(body[|body| - ID_BYTES..]), body[..|body| - ID_BYTES])
  }

  /** The last frame of a queue and what is below it; fails if the buffer is not made of frames. */
  function Dequeue(buffer: seq<u8>): Option<(seq<u8>, seq<u8>)> {
    if |buffer| < LENGTH_BYTES then None
    else
      var size := DecodeFixed(buffer[|buffer| - LENGTH_BYTES..]);
      var rest := buffer[..|buffer| - LENGTH_BYTES];
      if size > |rest| || size < ID_BYTES then None
      else Some((rest[|rest| - size..], rest[..|rest| - size]))
  }

  lemma SplitUndoesBody(f: Frame)
    requires f.Valid()
    ensures Split(Body(f)) == f
  {
    hide EncodeFixed, DecodeFixed, Power256;
    FixedRoundTrip(f.id, ID_BYTES);
    var b := Body(f);
    assert b[|b| - ID_BYTES..] == EncodeFixed(f.id, ID_BYTES) && b[..|b| - ID_BYTES] == f.payload;
  }

  lemma DequeueUndoesEnqueue(buffer: seq<u8>, f: Frame)
    requires f.Valid()
    ensures Dequeue(Enqueue(buffer, f)) == Some((Body(f), buffer))
  {
    hide EncodeFixed, DecodeFixed, Power256;
    var size, b := |Body(f)|, Enqueue(buffer, f);
    FixedRoundTrip(size, LENGTH_BYTES);
    assert b[|b| - LENGTH_BYTES..] == EncodeFixed(size, LENGTH_BYTES);
    var rest := b[..|b| - LENGTH_BYTES];
    assert rest == buffer + Body(f);
    assert rest[|rest| - size..] == Body(f) && rest[..|rest| - size] == buffer;
  }

  ghost predicate AllValid(fs: seq<Frame>) {
    forall f :: f in fs ==> f.Valid()
  }

  /**
    The flush of a handler that was paused: frames are popped last to first and handled in the reverse of that, so
    every message comes through exactly once and in the order in which it was queued.
   */
  method Flush(ghost queued: seq<Frame>, buffer: seq<u8>) returns (handled: seq<Frame>)
    requires AllValid(queued) && buffer == EnqueueAll([], queued)
    ensures handled == queued
  {
    hide Enqueue, Dequeue, Body, Split;
    var messages: seq<seq<u8>>, rest := [], buffer;
    ghost var n := |queued|;
    assert queued[..n] == queued;
    while rest != []
      invariant 0 <= n <= |queued| && rest == EnqueueAll([], queued[..n])
      invariant |messages| == |queued| - n
      invariant forall i :: 0 <= i < |messages| ==> messages[i] == Body(queued[|queued| - 1 - i])
      decreases |rest|
    {
      assert queued[..n][..n - 1] == queued[..n - 1] && queued[n - 1] in queued;
      DequeueUndoesEnqueue(EnqueueAll([], queued[..n - 1]), queued[n - 1]);
      EnqueueGrows(EnqueueAll([], queued[..n - 1]), queued[n - 1]);
      var popped := Dequeue(rest).value;
      messages, rest := messages + [popped.0], popped.1;
      n := n - 1;
    }
    QueueNotEmpty(queued[..n]);
    handled := [];
    var i := |messages|;
    while i > 0
      invariant 0 <= i <= |messages| == |queued|
      invariant handled == queued[..|queued| - i]
    {
      i := i - 1;
      assert queued[|queued| - 1 - i] in queued;
      BodyHasId(queued[|queued| - 1 - i]);
      SplitUndoesBody(queued[|queued| - 1 - i]);
      handled := handled + [Split(messages[i])];
    }
  }

  lemma BodyHasId(f: Frame)
    ensures |Body(f)| >= ID_BYTES
  {}

  lemma EnqueueGrows(buffer: seq<u8>, f: Frame)
    ensures |Enqueue(buffer, f)| > |buffer|
  {}

  lemma QueueNotEmpty(fs: seq<Frame>)
    ensures EnqueueAll([], fs) == [] ==> fs == []
  {}

  // ----- compound messages

  /** `compound_message::push_message`: here the length counts the payload alone. */
  function PushMessage(data: seq<u8>, f: Frame): seq<u8> {
    data + f.payload + EncodeFixed(f.id, ID_BYTES) + EncodeLength(|f.payload|)
  }

  function PushAll(data: seq<u8>, fs: seq<Frame>): seq<u8> {
    if fs == [] then data else PushMessage(PushAll(data, fs[..|fs| - 1]), fs[|fs| - 1])
  }

  /** The message at the end and the data below it; fails if the data is not made of messages. */
  function TakeMessage(data: seq<u8>): Option<(Frame, seq<u8>)> {
    match DecodeLength(data)
    case None => None
    case Some((size, rest)) =>
      if |rest| < size + ID_BYTES then None
      else
        var below := rest[..|rest| - ID_BYTES];
        Some((Frame(DecodeFixed(rest[|rest| - ID_BYTES..]), below[|below| - size..]), below[..|below| - size]))
  }

  lemma TakeUndoesPush(data: seq<u8>, f: Frame)
    requires f.Valid()
    ensures TakeMessage(PushMessage(data, f)) == Some((f, data))
  {
    hide EncodeFixed, DecodeFixed, Power256, EncodeLength, DecodeLength;
    var rest := data + f.payload + EncodeFixed(f.id, ID_BYTES);
    LengthRoundTrip(rest, |f.payload|);
    FixedRoundTrip(f.id, ID_BYTES);
    var below := data + f.payload;
    assert rest[|rest| - ID_BYTES..] == EncodeFixed(f.id, ID_BYTES) && rest[..|rest| - ID_BYTES] == below;
    assert below[|below| - |f.payload|..] == f.payload && below[..|below| - |f.payload|] == data;
  }

  /** `pop_message` computes how much to cut off; it removes exactly the message pushed last. */
  method PopMessage(ghost before: seq<u8>, ghost f: Frame, data: seq<u8>) returns (r: seq<u8>)
    requires f.Valid() && data == PushMessage(before, f)
    ensures r == before
  {
    ghost var rest := before + f.payload + EncodeFixed(f.id, ID_BYTES);
    LengthRoundTrip(rest, |f.payload|);
    var msgSize, span := DecodeVariableLength(data);
    var lengthSize := |data| - |span|;
    assert |data| - msgSize - lengthSize - ID_BYTES == |before|;
    r := data[..|data| - msgSize - lengthSize - ID_BYTES];
  }

  function Reversed<T>(s: seq<T>): (r: seq<T>)
    ensures |r| == |s| && forall i :: 0 <= i < |s| ==> r[i] == s[|s| - 1 - i]
  {
    if s == [] then [] else [s[|s| - 1]] + Reversed(s[..|s| - 1])
  }

  /** `on_msg_compound_received`: delivers exactly the pushed messages, the one pushed last first. */
  method ReceiveCompound(ghost pushed: seq<Frame>, data: seq<u8>) returns (delivered: seq<Frame>)
    requires AllValid(pushed) && data == PushAll([], pushed)
    ensures delivered == Reversed(pushed)
  {
    hide PushMessage, TakeMessage;
    delivered := [];
    var span := data;
    ghost var n := |pushed|;
    assert pushed[..n] == pushed;
    while span != []
      invariant 0 <= n <= |pushed| && span == PushAll([], pushed[..n])
      invariant |delivered| == |pushed| - n
      invariant forall i :: 0 <= i < |delivered| ==> delivered[i] == pushed[|pushed| - 1 - i]
      decreases |span|
    {
      assert pushed[..n][..n - 1] == pushed[..n - 1] && pushed[n - 1] in pushed;
      TakeUndoesPush(PushAll([], pushed[..n - 1]), pushed[n - 1]);
      PushGrows(PushAll([], pushed[..n - 1]), pushed[n - 1]);
      var taken := TakeMessage(span).value;
      delivered, span := delivered + [taken.0], taken.1;
      n := n - 1;
    }
    CompoundNotEmpty(pushed[..n]);
  }

  lemma PushGrows(data: seq<u8>, f: Frame)
    ensures |PushMessage(data, f)| > |data|
  {}

  lemma CompoundNotEmpty(fs: seq<Frame>)
    ensures PushAll([], fs) == [] ==> fs == []
  {}

  /** Two queues that hold the same bytes hold the same messages: the framing loses nothing. */
  lemma {:induction false} QueueIsInjective(fs: seq<Frame>, gs: seq<Frame>)
    requires AllValid(fs) && AllValid(gs) && EnqueueAll([], fs) == EnqueueAll([], gs)
    ensures fs == gs
    decreases |fs|
  {
    hide Enqueue, Dequeue, Body, Split;
    QueueNotEmpty(fs);
    QueueNotEmpty(gs);
    if fs != [] && gs != [] {
      var f, g := fs[|fs| - 1], gs[|gs| - 1];
      assert f in fs && g in gs;
      DequeueUndoesEnqueue(EnqueueAll([], fs[..|fs| - 1]), f);
      DequeueUndoesEnqueue(EnqueueAll([], gs[..|gs| - 1]), g);
      SplitUndoesBody(f);
      SplitUndoesBody(g);
      QueueIsInjective(fs[..|fs| - 1], gs[..|gs| - 1]);
      assert fs == fs[..|fs| - 1] + [f] && gs == gs[..|gs| - 1] + [g];
    }
  }
}
