/** The outgoing queue and its batching into frames, and the incoming stream of frames. */
module MessageQueue {
  import opened Wrappers
  import opened Compact
  import opened Handshake
  import opened Messages
  import opened Framing
  import opened FrameTheorems

  /** How the transport answers one attempt to send: not ready, or ready, taking or refusing the frame. */
  datatype Turn = NotReady | TurnReady(accepts: bool, flush: Flush)
  datatype Flush = Flushed | FlushPending | FlushFailed

  /** The result of driving the queue. */
  datatype Driven = Ready | Pending | Failed

  /** What the encrypted stream produces. A handshake payload may bring the hash and the remote key. */
  datatype StreamEvent =
    | HandshakePayload(hash: Option<Bytes>, remoteKey: Option<Key>)
    | Frame(bytes: seq<byte>)
    | StreamFailure

  datatype Received = Nothing | Messages(messages: seq<ChannelMessage>) | Error

  /** How many messages at the front of the queue go into one frame: an Open or Close alone, or all up to the next one. */
  function FrameLength(q: seq<ChannelMessage>): (n: nat)
    ensures n <= |q| && (q != [] ==> n > 0)
    ensures q != [] && q[0].message.IsControl() ==> n == 1
    ensures q != [] && !q[0].message.IsControl() && n < |q| ==> q[n].message.IsControl()
  {
    if q == [] then 0 else if q[0].message.IsControl() then 1 else 1 + RunLength(q[1..])
  }

  /** The number of messages before the first Open or Close. */
  function RunLength(q: seq<ChannelMessage>): (n: nat)
    ensures n <= |q|
    ensures forall i | 0 <= i < n :: !q[i].message.IsControl()
    ensures n < |q| ==> q[n].message.IsControl()
  {
    if q == [] || q[0].message.IsControl() then 0 else 1 + RunLength(q[1..])
  }

  /** The frames into which a queue is cut: every Open and Close alone, everything else in maximal runs. */
  function Frames(q: seq<ChannelMessage>): seq<seq<ChannelMessage>> {
    if q == [] then [] else [q[..FrameLength(q)]] + Frames(q[FrameLength(q)..])
  }

  predicate AllCarried(s: Schema, q: seq<ChannelMessage>) {
    forall i | 0 <= i < |q| :: Carried(s, q[i])
  }

  /** Lists that the queue cuts: one Open or Close, or at least one of the other messages. */
  predicate IsCut(ms: seq<ChannelMessage>) {
    ms != [] && if ms[0].message.IsControl() then |ms| == 1 else forall i | 0 <= i < |ms| :: !ms[i].message.IsControl()
  }

  /** Lists that the queue cuts and the encoder handles. */
  predicate AllCut(s: Schema, frames: seq<seq<ChannelMessage>>) {
    forall i | 0 <= i < |frames| :: AllSendable(s, frames[i]) && IsCut(frames[i])
  }

  /** Lists that the queue cuts from messages that the protocol carries. */
  predicate AllFrames(s: Schema, frames: seq<seq<ChannelMessage>>) {
    forall i | 0 <= i < |frames| :: AllSendable(s, frames[i]) && IsFrame(s, frames[i])
  }

  lemma FramesCons(q: seq<ChannelMessage>)
    requires q != []
    ensures Frames(q) == [q[..FrameLength(q)]] + Frames(q[FrameLength(q)..])
  {
  }

  lemma FlattenCons(first: seq<ChannelMessage>, rest: seq<seq<ChannelMessage>>)
    ensures Flatten([first] + rest) == first + Flatten(rest)
  {
    assert ([first] + rest)[1..] == rest;
  }

  lemma FlattenOne(ms: seq<ChannelMessage>)
    ensures Flatten([ms]) == ms
  {
    FlattenCons(ms, []);
    assert [ms] + [] == [ms];
    assert ms + [] == ms;
  }

  lemma {:induction false} FramesFlatten(q: seq<ChannelMessage>)
    ensures Flatten(Frames(q)) == q
    decreases |q|
  {
    if q == [] {
    } else {
      hide FrameLength, Flatten, Frames;
      FramesCons(q);
      var n := FrameLength(q);
      FramesFlatten(q[n..]);
      FlattenCons(q[..n], Frames(q[n..]));
      Joined([], q, n);
      assert [] + q[..n] == q[..n] && [] + q == q;
    }
  }

  /** Cutting a queue loses nothing, and yields frames if it holds only messages that the protocol carries. */
  lemma FramesPartition(s: Schema, q: seq<ChannelMessage>)
    requires AllSendable(s, q)
    ensures Flatten(Frames(q)) == q
    ensures AllCut(s, Frames(q))
    ensures AllCarried(s, q) ==> AllFrames(s, Frames(q))
  {
    FramesFlatten(q);
    hide Carried, Sendable, IsFrame, IsCut, FrameLength, Flatten, Frames;
    CutAll(s, q);
    if AllCarried(s, q) {
      CarriedFrames(s, Frames(q));
    }
  }

  lemma {:induction false} CutAll(s: Schema, q: seq<ChannelMessage>)
    requires AllSendable(s, q)
    ensures AllCut(s, Frames(q))
    decreases |q|
  {
    hide Sendable, IsCut, FrameLength;
    if q == [] {
    } else {
      FramesCons(q);
      FirstFrame(s, q);
      var n := FrameLength(q);
      hide AllCut, Frames;
      CutAll(s, q[n..]);
      MoreCut(s, q[..n], Frames(q[n..]));
    }
  }

  lemma MoreCut(s: Schema, first: seq<ChannelMessage>, rest: seq<seq<ChannelMessage>>)
    requires AllSendable(s, first) && IsCut(first) && AllCut(s, rest)
    ensures AllCut(s, [first] + rest)
  {
    hide AllSendable, IsCut;
  }

  lemma FirstFrame(s: Schema, q: seq<ChannelMessage>)
    requires AllSendable(s, q) && q != []
    ensures AllSendable(s, q[..FrameLength(q)]) && IsCut(q[..FrameLength(q)])
  {
    hide Sendable;
    var n := FrameLength(q);
    if !q[0].message.IsControl() {
      forall i | 0 <= i < n ensures !q[i].message.IsControl() {
        if i > 0 {
          assert q[i] == q[1..][i - 1];
        }
      }
    }
  }

  /** A cut of messages that the protocol carries is a frame. */
  lemma {:induction false} CarriedFrames(s: Schema, frames: seq<seq<ChannelMessage>>)
    requires AllCut(s, frames) && AllCarried(s, Flatten(frames))
    ensures AllFrames(s, frames)
  {
    hide Carried, Sendable, IsCut, IsFrame;
    if frames == [] {
    } else {
      var f, later := frames[0], Flatten(frames[1..]);
      assert f + later == Flatten(frames);
      CarriedParts(s, f, later);
      CarriedFrames(s, frames[1..]);
      CarriedCut(s, f);
    }
  }

  lemma CarriedParts(s: Schema, a: seq<ChannelMessage>, b: seq<ChannelMessage>)
    ensures AllCarried(s, a + b) <==> AllCarried(s, a) && AllCarried(s, b)
  {
    hide Carried;
    if AllCarried(s, a + b) {
      assert forall i | 0 <= i < |a| :: a[i] == (a + b)[i];
      assert forall i | 0 <= i < |b| :: b[i] == (a + b)[|a| + i];
    }
  }

  lemma CarriedCut(s: Schema, ms: seq<ChannelMessage>)
    requires IsCut(ms) && AllCarried(s, ms)
    ensures IsFrame(s, ms)
  {
  }

  lemma {:induction false} FlattenAppend(xs: seq<seq<ChannelMessage>>, ys: seq<seq<ChannelMessage>>)
    ensures Flatten(xs + ys) == Flatten(xs) + Flatten(ys)
  {
    if xs == [] {
      assert xs + ys == ys;
    } else {
      var first, rest := xs[0], xs[1..];
      FlattenAppend(rest, ys);
      assert xs + ys == [first] + (rest + ys);
      assert (xs + ys)[1..] == rest + ys;
    }
  }

  /** The buffers of a list of frames. */
  function Buffers(s: Schema, frames: seq<seq<ChannelMessage>>): (b: seq<seq<byte>>)
    requires forall i | 0 <= i < |frames| :: AllSendable(s, frames[i])
    ensures |b| == |frames|
  {
    seq(|frames|, i requires 0 <= i < |frames| => Wire(s, frames[i]))
  }

  /** What a receiver gets from buffers that arrive one by one. */
  function DecodeStream(s: Schema, v: Variant, buffers: seq<seq<byte>>): DecodedList {
    if buffers == [] then Success([])
    else match DecodeAll(s, v, buffers[0])
      case Failure(e) => Failure(e)
      case Success(ms) => Prepend(ms, DecodeStream(s, v, buffers[1..]))
  }

  /** The frames that the source's decoder reads back. */
  predicate Readable(frames: seq<seq<ChannelMessage>>) {
    forall i | 0 <= i < |frames| && frames[i] != [] ::
      SingleChannel(frames[i]) && OpenLongEnough(frames[i][0].message)
  }

  predicate OpensLongEnough(frames: seq<seq<ChannelMessage>>) {
    forall i | 0 <= i < |frames| && frames[i] != [] :: OpenLongEnough(frames[i][0].message)
  }

  /** The receiver that skips separators gets every message, in order. */
  lemma {:induction false} StreamRoundTrip(s: Schema, v: Variant, frames: seq<seq<ChannelMessage>>)
    requires s.Valid() && AllFrames(s, frames) && OpensLongEnough(frames)
    requires v.SeparatorSkipped? || Readable(frames)
    ensures DecodeStream(s, v, Buffers(s, frames)) == Success(Flatten(frames))
  {
    hide Wire, DecodeAll, IsFrame;
    if frames == [] {
    } else {
      assert AllSendable(s, frames[0]) && IsFrame(s, frames[0]);
      FrameNonempty(s, frames[0]);
      FrameRoundTrip(s, v, frames[0]);
      StreamRoundTrip(s, v, frames[1..]);
      assert Buffers(s, frames)[1..] == Buffers(s, frames[1..]);
    }
  }

  lemma FrameNonempty(s: Schema, ms: seq<ChannelMessage>)
    requires IsFrame(s, ms)
    ensures ms != []
    ensures forall i | 0 <= i < |ms| :: ms[i].channel >= 1
  {
  }

  /** Every message of a list of frames is on a channel numbered from one. */
  lemma {:induction false} FlattenPositive(s: Schema, frames: seq<seq<ChannelMessage>>)
    requires AllFrames(s, frames)
    ensures forall i | 0 <= i < |Flatten(frames)| :: Flatten(frames)[i].channel >= 1
  {
    if frames == [] {
    } else {
      FrameNonempty(s, frames[0]);
      FlattenPositive(s, frames[1..]);
    }
  }

  /** The source's receiver gets every message if and only if no frame changes channel and no Open is too short. */
  lemma {:induction false} StreamRoundTripExactly(s: Schema, frames: seq<seq<ChannelMessage>>)
    requires s.Valid() && AllFrames(s, frames)
    ensures DecodeStream(s, AsWritten, Buffers(s, frames)) == Success(Flatten(frames)) <==> Readable(frames)
  {
    hide Wire, DecodeAll, IsFrame, SingleChannel, OpenLongEnough, Readable;
    if frames == [] {
      assert Readable(frames) by { NoFrames(); }
    } else {
      var f, rest := frames[0], frames[1..];
      FrameNonempty(s, f);
      ReadableStep(frames);
      assert Buffers(s, frames)[1..] == Buffers(s, rest);
      var first := DecodeAll(s, AsWritten, Wire(s, f));
      var later := DecodeStream(s, AsWritten, Buffers(s, rest));
      if SingleChannel(f) && OpenLongEnough(f[0].message) {
        FrameRoundTripExactly(s, f);
        StreamRoundTripExactly(s, rest);
        CancelPrefix(f, later, Flatten(rest));
      } else {
        NotReadBack(s, f);
        if first.Success? && later.Success? {
          FlattenPositive(s, frames);
          var i :| 0 <= i < |first.value| && first.value[i].channel == 0;
          assert (first.value + later.value)[i].channel == 0;
        }
      }
    }
  }

  /** What the source's receiver gets from a frame it cannot read is recognisable: a failure or channel zero. */
  lemma NotReadBack(s: Schema, ms: seq<ChannelMessage>)
    requires s.Valid() && AllSendable(s, ms) && IsFrame(s, ms) && !(SingleChannel(ms) && OpenLongEnough(ms[0].message))
    ensures var r := DecodeAll(s, AsWritten, Wire(s, ms));
            r.Failure? || exists i :: 0 <= i < |r.value| && r.value[i].channel == 0
  {
    hide Wire, DecodeAll, Garbled;
    if SingleChannel(ms) {
      assert ms == [ms[0]];
      ShortOpen(s, ms[0]);
    } else {
      FrameMisread(s, ms);
      var k := OnChannel(ms[0].channel, ms);
      var garbled := Garbled(s, ms[k..]);
      if garbled.Success? {
        assert (ms[..k] + garbled.value)[k].channel == 0;
      }
    }
  }

  lemma NoFrames()
    ensures Readable([])
  {
  }

  lemma CancelPrefix(first: seq<ChannelMessage>, r: DecodedList, later: seq<ChannelMessage>)
    ensures Prepend(first, r) == Success(first + later) <==> r == Success(later)
  {
    if r.Success? {
      assert (first + r.value)[|first|..] == r.value;
      assert (first + later)[|first|..] == later;
    }
  }

  lemma ReadableStep(frames: seq<seq<ChannelMessage>>)
    requires frames != [] && frames[0] != []
    ensures Readable(frames) <==>
            SingleChannel(frames[0]) && OpenLongEnough(frames[0][0].message) && Readable(frames[1..])
  {
    assert forall i | 1 <= i < |frames| :: frames[i] == frames[1..][i - 1];
  }

  //
  // The queue
  //

  /** The number of turns in which the transport takes a frame and flushes it, before it does anything else. */
  function Clean(turns: seq<Turn>): (c: nat)
    ensures c <= |turns|
    ensures forall i | 0 <= i < c :: turns[i] == TurnReady(true, Flushed)
    ensures c < |turns| ==> turns[c] != TurnReady(true, Flushed)
  {
    if turns == [] || turns[0] != TurnReady(true, Flushed) then 0 else 1 + Clean(turns[1..])
  }

  /** How many frames are sent, how many (none or one) are refused, and the result. */
  datatype Driving = Driving(sent: nat, refused: nat, result: Driven)

  /** What becomes of a queue of `n` frames when the transport answers as in `turns`. */
  function Outcome(turns: seq<Turn>, n: nat): Driving {
    var c := Clean(turns);
    if turns == [] || turns[0].NotReady? then Driving(0, 0, Pending)
    else if n <= c then Driving(n, 0, Ready)
    else if c == |turns| || turns[c].NotReady? then Driving(c, 0, Ready)
    else if !turns[c].accepts then Driving(c, 1, Failed)
    else Driving(c + 1, 0, if turns[c].flush.FlushFailed? then Failed else Pending)
  }

  /** When driving a queue of `n` frames fails or stalls, and how many frames it sends. */
  lemma OutcomeExactly(turns: seq<Turn>, n: nat)
    ensures var c, d := Clean(turns), Outcome(turns, n);
            var stopped := c < n && c < |turns| && turns[c].TurnReady?;
            && (d.result.Failed? <==> stopped && (!turns[c].accepts || turns[c].flush.FlushFailed?))
            && (d.result.Pending? <==> turns == [] || turns[0].NotReady? || (stopped && turns[c] == TurnReady(true, FlushPending)))
            && d.refused == (if stopped && !turns[c].accepts then 1 else 0)
            && d.sent == if stopped && turns[c].accepts then c + 1 else if c < n then c else n
  {
  }

  lemma CutEmpty(q: seq<ChannelMessage>)
    ensures q == [] <==> Frames(q) == []
  {
  }

  class MessageIo {
    const schema: Schema
    var writeQueue: seq<ChannelMessage>
    var sink: seq<seq<byte>>                     // the buffers handed to the transport, oldest first
    var hash: Option<Bytes>                      // the handshake hash, once known
    var remoteKey: Option<Key>                   // the remote public key, once known
    ghost var enqueued: seq<ChannelMessage>      // everything ever enqueued
    ghost var frames: seq<seq<ChannelMessage>>   // the lists behind the buffers in `sink`
    ghost var lost: bool                         // whether the transport ever refused a frame

    /** Nothing enqueued is lost, duplicated or reordered unless the transport refused a frame. */
    ghost predicate Valid()
      reads this
    {
      && schema.Valid()
      && AllSendable(schema, writeQueue)
      && AllCut(schema, frames)
      && sink == Buffers(schema, frames)
      && (!lost ==> enqueued == Flatten(frames) + writeQueue)
    }

    constructor (schema: Schema)
      requires schema.Valid()
      ensures Valid() && this.schema == schema
      ensures writeQueue == [] && sink == [] && enqueued == [] && !lost
      ensures hash == None && remoteKey == None
    {
      this.schema := schema;
      writeQueue, sink, enqueued, frames, lost := [], [], [], [], false;
      hash, remoteKey := None, None;
    }

    /** Adds a message at the back of the queue. */
    method Enqueue(m: ChannelMessage)
      requires Valid() && Sendable(schema, m)
      modifies this`writeQueue, this`enqueued
      ensures Valid()
      ensures writeQueue == old(writeQueue) + [m] && enqueued == old(enqueued) + [m]
    {
      writeQueue := writeQueue + [m];
      enqueued := enqueued + [m];
    }

    /** Takes the messages of the next frame off the queue. */
    method TakeFrame() returns (messages: seq<ChannelMessage>)
      modifies this`writeQueue
      ensures messages == old(writeQueue)[..FrameLength(old(writeQueue))]
      ensures writeQueue == old(writeQueue)[FrameLength(old(writeQueue))..]
    {
      messages := [];
      ghost var q := writeQueue;
      while writeQueue != []
        invariant |messages| <= |q| && messages == q[..|messages|] && writeQueue == q[|messages|..]
        invariant messages != [] ==>
            !q[0].message.IsControl() && FrameLength(q) == |messages| + RunLength(writeQueue)
        decreases |writeQueue|
      {
        var front := writeQueue[0];
        var isOpenOrClose := front.message.IsControl();
        if isOpenOrClose && messages != [] {
          break;
        }
        assert writeQueue[1..] == q[|messages| + 1..];
        messages := messages + [front];
        writeQueue := writeQueue[1..];
        if isOpenOrClose {
          break;
        }
      }
    }

    /** Encodes the next frame and offers it to the transport, which takes or refuses it. */
    method SendFrame(accepts: bool) returns (ghost frame: seq<ChannelMessage>)
      requires Valid() && writeQueue != []
      modifies this`writeQueue, this`sink, this`frames, this`lost
      ensures Valid()
      ensures Frames(old(writeQueue)) == [frame] + Frames(writeQueue)
      ensures frames == old(frames) + if accepts then [frame] else []
      ensures lost == (old(lost) || !accepts)
    {
      hide Sendable, IsCut, FrameLength, Frames, Flatten, Wire;
      ghost var before := writeQueue;
      FirstFrame(schema, writeQueue);
      var messages := TakeFrame();
      CutOne(schema, frames, before, messages, writeQueue);
      var buffer := ToEncodedBytes(schema, messages);
      frame := messages;
      if accepts {
        sink := sink + [buffer];
        frames := frames + [messages];
      } else {
        lost := true;
      }
    }

    /**
     Drives the queue while the transport answers as in `turns`. The frames sent are the first frames
     into which the queue is cut, as many as the transport takes; only a frame that it refuses is lost.
     */
    method PollOutbound(turns: seq<Turn>) returns (r: Driven, ghost refused: seq<seq<ChannelMessage>>)
      requires Valid()
      modifies this`writeQueue, this`sink, this`frames, this`lost
      ensures Valid()
      ensures old(frames) <= frames
      ensures Frames(old(writeQueue)) == frames[|old(frames)|..] + refused + Frames(writeQueue)
      ensures Outcome(turns, |Frames(old(writeQueue))|) == Driving(|frames| - |old(frames)|, |refused|, r)
      ensures lost == (old(lost) || refused != [])
      ensures var c, n := Clean(turns), |Frames(old(writeQueue))|;
              var stopped := c < n && c < |turns| && turns[c].TurnReady?;
              && (r.Failed? <==> stopped && (!turns[c].accepts || turns[c].flush.FlushFailed?))
              && (r.Pending? <==> turns == [] || turns[0].NotReady? || (stopped && turns[c] == TurnReady(true, FlushPending)))
              && (refused != [] <==> stopped && !turns[c].accepts)
              && |frames| - |old(frames)| == if stopped && turns[c].accepts then c + 1 else if c < n then c else n
      ensures writeQueue == [] <==> |frames| - |old(frames)| + |refused| == |Frames(old(writeQueue))|
    {
      hide Frames, Valid, Outcome, Clean;
      ghost var n := |Frames(writeQueue)|;
      ghost var sent: seq<seq<ChannelMessage>> := [];
      OutcomeExactly(turns, n);
      var pending := true;
      refused := [];
      var i := 0;
      while i < |turns| && turns[i].TurnReady?
        invariant 0 <= i <= Clean(turns) && i <= n
        invariant Valid() && lost == old(lost)
        invariant frames == old(frames) + sent && |sent| == i
        invariant Frames(old(writeQueue)) == sent + Frames(writeQueue)
        invariant pending <==> i == 0
      {
        pending := false;
        CutEmpty(writeQueue);
        if writeQueue == [] {
          break;
        }
        ghost var frame := SendFrame(turns[i].accepts);
        CutEmpty(writeQueue);
        if !turns[i].accepts {
          refused := [frame];
          return Failed, refused;
        }
        sent := sent + [frame];
        if turns[i].flush.FlushFailed? {
          return Failed, refused;
        } else if turns[i].flush.FlushPending? {
          return Pending, refused;
        }
        i := i + 1;
      }
      r := if pending then Pending else Ready;
      CutEmpty(writeQueue);
    }

    /** What a receiver decodes from the buffers sent, followed by what is still queued, is what was enqueued. */
    lemma Delivery(v: Variant)
      requires Valid() && !lost && AllCarried(schema, enqueued) && OpensLongEnough(frames)
      requires v.SeparatorSkipped? || Readable(frames)
      ensures var received := DecodeStream(schema, v, sink);
              received.Success? && received.value + writeQueue == enqueued
    {
      hide Carried;
      CarriedParts(schema, Flatten(frames), writeQueue);
      CarriedFrames(schema, frames);
      StreamRoundTrip(schema, v, frames);
    }

    /**
     Polls the stream for messages, given the events that are ready: skips handshake payloads and
     decodes the next buffer. Returns the events still to come.
     */
    method PollInbound(events: seq<StreamEvent>) returns (r: Received, rest: seq<StreamEvent>)
      requires Valid()
      modifies this`hash, this`remoteKey
      ensures Valid()
      ensures var k := Payloads(events);
              && (hash, remoteKey) == Known(events[..k], old(hash), old(remoteKey))
              && r == (if k == |events| then Nothing else Reading(schema, events[k]))
              && rest == (if k == |events| then [] else events[k + 1..])
      ensures var k := Payloads(events);
              && (k == 0 ==> hash == old(hash) && remoteKey == old(remoteKey))
              && (k > 0 ==> hash == events[k - 1].hash && remoteKey == events[k - 1].remoteKey)
              && (r.Nothing? <==> k == |events|)
              && (k < |events| && events[k].StreamFailure? ==> r.Error?)
              && (k < |events| && events[k].Frame? ==>
                    var d := DecodeAll(schema, AsWritten, events[k].bytes);
                    (r.Error? <==> d.Failure?) && (d.Success? ==> r == Messages(d.value)))
    {
      var k := 0;
      while k < |events|
        invariant 0 <= k <= Payloads(events)
        invariant (hash, remoteKey) == Known(events[..k], old(hash), old(remoteKey))
        invariant Valid()
      {
        match events[k] {
          case HandshakePayload(h, key) =>
            hash, remoteKey := h, key;
            assert events[..k + 1][..k] == events[..k];
          case StreamFailure =>
            return Error, events[k + 1..];
          case Frame(b) =>
            var d, _ := VecDecode(schema, b);
            return if d.Success? then Messages(d.value) else Error, events[k + 1..];
        }
        k := k + 1;
      }
      return Nothing, [];
    }
  }

  /** The number of handshake payloads before anything else. */
  function Payloads(events: seq<StreamEvent>): (k: nat)
    ensures k <= |events|
    ensures forall j | 0 <= j < k :: events[j].HandshakePayload?
    ensures k < |events| ==> !events[k].HandshakePayload?
  {
    if events == [] || !events[0].HandshakePayload? then 0 else 1 + Payloads(events[1..])
  }

  /** What is known of the handshake after the given payloads. */
  function Known(events: seq<StreamEvent>, hash: Option<Bytes>, remoteKey: Option<Key>): (Option<Bytes>, Option<Key>) {
    if events != [] && events[|events| - 1].HandshakePayload?
    then (events[|events| - 1].hash, events[|events| - 1].remoteKey)
    else (hash, remoteKey)
  }

  /** What an event other than a handshake payload brings. */
  function Reading(s: Schema, e: StreamEvent): Received {
    match e
    case Frame(b) =>
      var d := DecodeAll(s, AsWritten, b);
      if d.Success? then Messages(d.value) else Error
    case _ => Error
  }

  /** Sending the first frame of a queue moves it from the queue to the frames sent. */
  lemma CutOne(s: Schema, sent: seq<seq<ChannelMessage>>, before: seq<ChannelMessage>,
               messages: seq<ChannelMessage>, after: seq<ChannelMessage>)
    requires before != []
    requires messages == before[..FrameLength(before)] && after == before[FrameLength(before)..]
    ensures Frames(before) == [messages] + Frames(after)
    ensures Flatten(sent + [messages]) + after == Flatten(sent) + before
  {
    FramesCons(before);
    hide Frames, Flatten, FrameLength;
    FlattenAppend(sent, [messages]);
    FlattenOne(messages);
    Joined(Flatten(sent), before, |messages|);
  }

  lemma Joined(sent: seq<ChannelMessage>, q: seq<ChannelMessage>, n: nat)
    requires n <= |q|
    ensures (sent + q[..n]) + q[n..] == sent + q
  {
  }
}
