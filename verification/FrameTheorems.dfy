/** What survives the wire: round trips of frames and of concatenated frames, for both decoder variants. */
module FrameTheorems {
  import opened Wrappers
  import opened Compact
  import opened Messages
  import opened Framing
  import W = WireSchema

  /** A message as the protocol sends it: on a channel numbered from one, which a control message repeats. */
  predicate Carried(s: Schema, m: ChannelMessage) {
    && Sendable(s, m)
    && m.channel >= 1
    && TextValid(s, m.message)
    && (m.message.Open? ==> m.message.open.channel == m.channel)
    && (m.message.Close? ==> m.message.close.channel == m.channel)
  }

  predicate Batchable(s: Schema, ms: seq<ChannelMessage>) {
    forall i | 0 <= i < |ms| :: Carried(s, ms[i]) && ms[i].message.IsOrdinary()
  }

  /** The lists the queue hands to the encoder: one control message, or a run of ordinary ones. */
  predicate IsFrame(s: Schema, ms: seq<ChannelMessage>) {
    ms != [] && if ms[0].message.IsControl() then |ms| == 1 && Carried(s, ms[0]) else Batchable(s, ms)
  }

  predicate SingleChannel(ms: seq<ChannelMessage>) {
    forall i | 0 <= i < |ms| :: ms[i].channel == ms[0].channel
  }

  /** The decoder refuses Open bodies of five bytes or fewer. */
  predicate OpenLongEnough(m: Message) {
    m.Open? && m.open.channel < U64_LIMIT ==> W.SizeOpen(m.open) > 5
  }

  //
  // Inside a batch
  //

  /** A sized message is read back, and the batch goes on as the following bytes say. */
  lemma ItemRoundTrip(s: Schema, v: Variant, m: ChannelMessage, later: seq<byte>)
    requires s.Valid() && Carried(s, m) && m.message.IsOrdinary()
    ensures DecodeItem(s, v, m.channel, Sized(s, m) + later)
         == match NextChannel(v, m.channel, later)
            case Ok(next, rest) => Ok((m, next), rest)
            case Err(e) => Err(e)
  {
    hide EncodeMessage, SizeMessage, DecodeMessage, EncodeU64, DecodeU64, NextChannel;
    var size, body := SizeMessage(s, m.message), EncodeMessage(s, m.message);
    MessageSize(s, m.message);
    W.Reassociate(EncodeU64(size), body, later);
    U64RoundTrip(size, body + later);
    MessageRoundTrip(s, m.message, later);
  }

  /** Without a channel change the next byte starts a length, which is never zero. */
  lemma NoChange(s: Schema, v: Variant, channel: u64, ms: seq<ChannelMessage>)
    requires s.Valid() && Batchable(s, ms)
    requires ms == [] || ms[0].channel == channel
    ensures var body := BatchBody(s, channel, ms); NextChannel(v, channel, body) == Ok(channel, body)
  {
    hide EncodeMessage, SizeMessage, EncodeU64, DecodeU64;
    if ms != [] {
      var size, body := SizeMessage(s, ms[0].message), EncodeMessage(s, ms[0].message);
      MessageSize(s, ms[0].message);
      var later := BatchBody(s, channel, ms[1..]);
      assert BatchBody(s, channel, ms) == EncodeU64(size) + (body + later) by {
        W.Reassociate(EncodeU64(size), body, later);
        assert [] + (Sized(s, ms[0]) + later) == Sized(s, ms[0]) + later;
      }
      LeadingByte(size, body + later);
    }
  }

  /** On a channel change the separator comes first, then the channel and the batch from there on. */
  lemma Change(s: Schema, channel: u64, ms: seq<ChannelMessage>)
    requires s.Valid() && Batchable(s, ms)
    requires ms != [] && ms[0].channel != channel
    ensures BatchBody(s, channel, ms) == [0] + (EncodeU64(ms[0].channel) + BatchBody(s, ms[0].channel, ms))
  {
    hide EncodeMessage, SizeMessage, EncodeU64;
    var c := ms[0].channel;
    var item := Sized(s, ms[0]) + BatchBody(s, c, ms[1..]);
    assert BatchBody(s, c, ms) == item by { assert [] + item == item; }
    W.Reassociate([0], EncodeU64(c), item);
  }

  lemma ChangeRead(s: Schema, v: Variant, channel: u64, ms: seq<ChannelMessage>)
    requires s.Valid() && Batchable(s, ms)
    requires ms != [] && ms[0].channel != channel
    ensures NextChannel(v, channel, BatchBody(s, channel, ms))
         == if v.SeparatorSkipped? then Ok(ms[0].channel, BatchBody(s, ms[0].channel, ms))
            else Ok(0, EncodeU64(ms[0].channel) + BatchBody(s, ms[0].channel, ms))
  {
    var c := ms[0].channel;
    var after := EncodeU64(c) + BatchBody(s, c, ms);
    Change(s, channel, ms);
    assert ([0] + after)[1..] == after;
    if v.SeparatorSkipped? {
      U64RoundTrip(c, BatchBody(s, c, ms));
    }
  }

  /** A batch is read back in full by the skipping decoder, and by the source's when no channel changes. */
  lemma {:induction false} BatchRoundTrip(s: Schema, v: Variant, channel: u64, ms: seq<ChannelMessage>)
    requires s.Valid() && Batchable(s, ms)
    requires ms == [] || ms[0].channel == channel
    requires v.SeparatorSkipped? || SingleChannel(ms)
    ensures DecodeBatch(s, v, channel, BatchBody(s, channel, ms)) == Success(ms)
    decreases |ms|
  {
    hide NextChannel, Carried, Sized;
    if ms == [] {
    } else {
      var m, rest := ms[0], ms[1..];
      BatchOfFirst(s, v, ms);
      if rest == [] || rest[0].channel == channel {
        NoChange(s, v, channel, rest);
        BatchRoundTrip(s, v, channel, rest);
      } else {
        assert ms[1].channel != ms[0].channel;
        ChangeRead(s, v, channel, rest);
        BatchRoundTrip(s, v, rest[0].channel, rest);
      }
      assert [m] + rest == ms;
    }
  }

  lemma SizedNonempty(s: Schema, m: ChannelMessage)
    requires Sendable(s, m)
    ensures Sized(s, m) != []
  {
    hide EncodeMessage, SizeMessage;
  }

  /** How many messages at the front of a list are on the given channel. */
  function OnChannel(channel: nat, ms: seq<ChannelMessage>): (k: nat)
    ensures k <= |ms|
    ensures forall i | 0 <= i < k :: ms[i].channel == channel
    ensures k < |ms| ==> ms[k].channel != channel
  {
    if ms == [] || ms[0].channel != channel then 0 else 1 + OnChannel(channel, ms[1..])
  }

  /** What the source's decoder makes of the bytes that follow the separator before `ms`: a batch on channel zero. */
  function Garbled(s: Schema, ms: seq<ChannelMessage>): DecodedList
    requires AllSendable(s, ms) && ms != []
  {
    DecodeBatch(s, AsWritten, 0, EncodeU64(ms[0].channel) + BatchBody(s, ms[0].channel, ms))
  }

  /** Ordinary messages on channel zero, which no channel ever has. */
  predicate OnZero(ms: seq<ChannelMessage>) {
    forall i | 0 <= i < |ms| :: ms[i].channel == 0 && ms[i].message.IsOrdinary()
  }

  /** Once on channel zero the source's decoder stays there: a zero byte is read as channel zero again. */
  lemma {:induction false} ZeroBatch(s: Schema, b: seq<byte>)
    ensures var r := DecodeBatch(s, AsWritten, 0, b);
            r.Success? ==> OnZero(r.value) && (b != [] ==> r.value != [])
    decreases |b|
  {
    hide DecodeMessage, DecodeU64;
    if b == [] {
    } else {
      match DecodeItem(s, AsWritten, 0, b) {
        case Err(_) =>
        case Ok((m, next), rest) =>
          ZeroNext(s, b);
          hide DecodeItem;
          ZeroBatch(s, rest);
      }
    }
  }

  lemma ZeroNext(s: Schema, b: seq<byte>)
    requires DecodeItem(s, AsWritten, 0, b).Ok?
    ensures DecodeItem(s, AsWritten, 0, b).value.1 == 0
  {
    hide DecodeMessage;
  }

  /**
   The bytes after a separator can only be misread without a failure if the first message after it is
   under ten bytes, because its size is read as a message type, and if no fewer bytes follow its channel
   than the number of that channel, because that is read as a length.
   */
  lemma GarbledIsShort(s: Schema, ms: seq<ChannelMessage>)
    requires AllSendable(s, ms) && ms != []
    ensures Garbled(s, ms).Success? ==>
              SizeMessage(s, ms[0].message) < 10 && ms[0].channel <= |BatchBody(s, ms[0].channel, ms)|
  {
    hide EncodeMessage, SizeMessage, EncodeU64, DecodeU64;
    var channel, size := ms[0].channel, SizeMessage(s, ms[0].message);
    var later := EncodeMessage(s, ms[0].message) + BatchBody(s, channel, ms[1..]);
    var body := BatchBody(s, channel, ms);
    assert body == EncodeU64(size) + later by {
      W.Reassociate(EncodeU64(size), EncodeMessage(s, ms[0].message), BatchBody(s, channel, ms[1..]));
      assert [] + (Sized(s, ms[0]) + BatchBody(s, channel, ms[1..])) == Sized(s, ms[0]) + BatchBody(s, channel, ms[1..]);
    }
    hide BatchBody, Sized;
    U64RoundTrip(channel, body);
    U64RoundTrip(size, later);
    if Garbled(s, ms).Success? {
      assert DecodeItem(s, AsWritten, 0, EncodeU64(channel) + body).Ok?;
      assert DecodeMessage(s, body).Ok?;
    }
  }

  /**
   With a channel change the source's decoder returns the messages before the change, followed by what
   it makes of the remaining bytes on channel zero; if it cannot read those, it fails.
   */
  lemma {:induction false} BatchMisread(s: Schema, channel: u64, ms: seq<ChannelMessage>)
    requires s.Valid() && Batchable(s, ms)
    requires ms != [] && ms[0].channel == channel && !SingleChannel(ms)
    ensures var k := OnChannel(channel, ms);
            && 0 < k < |ms|
            && DecodeBatch(s, AsWritten, channel, BatchBody(s, channel, ms)) == Prepend(ms[..k], Garbled(s, ms[k..]))
    decreases |ms|
  {
    hide BatchBody, Garbled, Batchable, AllSendable, DecodeBatch, SingleChannel;
    ChangesSomewhere(ms);
    var k := OnChannel(channel, ms);
    var first, second := ms[..k], ms[k..];
    assert first + second == ms;
    BatchableParts(s, first, second);
    MisreadFrom(s, channel, first, second);
  }

  lemma BatchableParts(s: Schema, first: seq<ChannelMessage>, second: seq<ChannelMessage>)
    ensures Batchable(s, first + second) <==> Batchable(s, first) && Batchable(s, second)
  {
    hide Carried;
    if Batchable(s, first + second) {
      assert forall i | 0 <= i < |first| :: first[i] == (first + second)[i];
      assert forall i | 0 <= i < |second| :: second[i] == (first + second)[|first| + i];
    }
  }

  lemma BatchableIsSendable(s: Schema, ms: seq<ChannelMessage>)
    ensures Batchable(s, ms) ==> AllSendable(s, ms)
  {
  }

  lemma {:induction false} MisreadFrom(s: Schema, channel: u64, first: seq<ChannelMessage>, second: seq<ChannelMessage>)
    requires s.Valid() && Batchable(s, first) && Batchable(s, second) && first != [] && second != []
    requires second[0].channel != channel && forall i | 0 <= i < |first| :: first[i].channel == channel
    ensures AllSendable(s, first + second) && AllSendable(s, second)
    ensures DecodeBatch(s, AsWritten, channel, BatchBody(s, channel, first + second)) == Prepend(first, Garbled(s, second))
    decreases |first|
  {
    hide BatchBody, NextChannel, Batchable, AllSendable, DecodeBatch, Garbled;
    var m, rest := first[0], first[1..];
    assert first == [m] + rest;
    BatchableParts(s, first, second);
    BatchableParts(s, [m], rest);
    BatchableParts(s, rest, second);
    BatchableIsSendable(s, first + second);
    BatchableIsSendable(s, second);
    BatchableIsSendable(s, rest + second);
    assert (first + second)[1..] == rest + second;
    BatchOfFirst(s, AsWritten, first + second);
    if rest == [] {
      assert rest + second == second && first == [m];
      ChangeRead(s, AsWritten, channel, second);
      GarbledBytes(s, second);
    } else {
      NoChange(s, AsWritten, channel, rest + second);
      MisreadFrom(s, channel, rest, second);
      PrependTwice([m], rest, Garbled(s, second));
    }
  }

  lemma GarbledBytes(s: Schema, ms: seq<ChannelMessage>)
    requires AllSendable(s, ms) && ms != []
    ensures Garbled(s, ms) == DecodeBatch(s, AsWritten, 0, EncodeU64(ms[0].channel) + BatchBody(s, ms[0].channel, ms))
  {
  }

  lemma ChangesSomewhere(ms: seq<ChannelMessage>)
    requires ms != [] && !SingleChannel(ms)
    ensures 0 < OnChannel(ms[0].channel, ms) < |ms|
  {
  }

  /** A batch after its first message. */
  function GoOn(s: Schema, v: Variant, first: ChannelMessage, next: Decoded<u64>): DecodedList {
    match next
    case Err(e) => Failure(e)
    case Ok(channel, rest) => Prepend([first], DecodeBatch(s, v, channel, rest))
  }

  /** The first message of a batch is read back, and the batch goes on as the following bytes say. */
  lemma BatchOfFirst(s: Schema, v: Variant, ms: seq<ChannelMessage>)
    requires s.Valid() && Batchable(s, ms) && ms != []
    ensures DecodeBatch(s, v, ms[0].channel, BatchBody(s, ms[0].channel, ms))
         == GoOn(s, v, ms[0], NextChannel(v, ms[0].channel, BatchBody(s, ms[0].channel, ms[1..])))
  {
    hide DecodeItem, Sized, NextChannel;
    var m, channel := ms[0], ms[0].channel;
    var later := BatchBody(s, channel, ms[1..]);
    assert BatchBody(s, channel, ms) == Sized(s, m) + later by {
      assert [] + (Sized(s, m) + later) == Sized(s, m) + later;
    }
    ItemRoundTrip(s, v, m, later);
    SizedNonempty(s, m);
  }

  //
  // Whole frames
  //

  /** Frames that say where they end, so that another frame may follow in the same buffer. */
  predicate Delimited(s: Schema, ms: seq<ChannelMessage>) {
    |ms| == 1 && Carried(s, ms[0]) && (ms[0].message.Open? ==> ms[0].message.open.capability.Some?)
  }

  /** A lone message is read back and decoding stops where it ends. */
  lemma SingleRoundTrip(s: Schema, v: Variant, m: ChannelMessage, tail: seq<byte>)
    requires s.Valid() && Carried(s, m) && OpenLongEnough(m.message)
    requires Delimited(s, [m]) || tail == []
    ensures DecodeUnframed(s, v, Wire(s, [m]) + tail) == Success(([m], |Wire(s, [m])|))
  {
    if m.message.Open? {
      OpenFrame(s, v, m, tail);
    } else if m.message.Close? {
      CloseFrame(s, v, m, tail);
    } else {
      PlainFrame(s, v, m, tail);
    }
  }

  lemma OpenFrame(s: Schema, v: Variant, m: ChannelMessage, tail: seq<byte>)
    requires s.Valid() && Carried(s, m) && m.message.Open? && OpenLongEnough(m.message)
    requires m.message.open.capability.Some? || tail == []
    ensures DecodeUnframed(s, v, Wire(s, [m]) + tail) == Success(([m], |Wire(s, [m])|))
  {
    hide W.EncodeOpen, W.DecodeOpen, W.SizeOpen, EncodeBody, EncodeMessage, SizeMessage,
         DecodeBatch, DecodeSingle, DecodeCloseMessage;
    var o := m.message.open;
    var body := W.EncodeOpen(o);
    OpenBytes(s, o);
    var b := Wire(s, [m]) + tail;
    assert b[2..] == body + tail;
    W.OpenRoundTrip(s, o, tail);
  }

  lemma OpenBytes(s: Schema, o: W.Open)
    requires s.Valid() && W.OpenEncodable(o)
    ensures EncodeMessage(s, Open(o)) == W.EncodeOpen(o) && |W.EncodeOpen(o)| == W.SizeOpen(o)
  {
    MessageSize(s, Open(o));
    assert [] + W.EncodeOpen(o) == W.EncodeOpen(o);
  }

  lemma CloseFrame(s: Schema, v: Variant, m: ChannelMessage, tail: seq<byte>)
    requires s.Valid() && Carried(s, m) && m.message.Close?
    ensures DecodeUnframed(s, v, Wire(s, [m]) + tail) == Success(([m], |Wire(s, [m])|))
  {
    hide DecodeU64, DecodeBatch, DecodeSingle, DecodeOpenMessage;
    var body := EncodeU64(m.message.close.channel);
    assert EncodeMessage(s, m.message) == body;
    var b := Wire(s, [m]) + tail;
    assert b[2..] == body + tail;
    U64RoundTrip(m.message.close.channel, tail);
  }

  lemma PlainFrame(s: Schema, v: Variant, m: ChannelMessage, tail: seq<byte>)
    requires s.Valid() && Carried(s, m) && m.message.IsOrdinary()
    ensures DecodeUnframed(s, v, Wire(s, [m]) + tail) == Success(([m], |Wire(s, [m])|))
  {
    hide EncodeMessage, SizeMessage, DecodeMessage, EncodeU64, DecodeU64, DecodeBatch;
    var body := EncodeMessage(s, m.message);
    W.Reassociate(EncodeU64(m.channel), body, tail);
    MessageSize(s, m.message);
    LeadingByte(m.channel, body + tail);
    U64RoundTrip(m.channel, body + tail);
    MessageRoundTrip(s, m.message, tail);
  }

  /** The first frame of a batch buffer is the batch, whatever it decodes to. */
  lemma BatchFrame(s: Schema, v: Variant, ms: seq<ChannelMessage>)
    requires s.Valid() && Batchable(s, ms) && |ms| >= 2
    ensures DecodeAll(s, v, Wire(s, ms)) == DecodeBatch(s, v, ms[0].channel, BatchBody(s, ms[0].channel, ms))
  {
    hide DecodeBatch, BatchBody, EncodeU64, DecodeU64, DecodeSingle, DecodeOpenMessage, DecodeCloseMessage;
    var c := ms[0].channel;
    var body := BatchBody(s, c, ms);
    var b := Wire(s, ms);
    assert b[2..] == EncodeU64(c) + body;
    U64RoundTrip(c, body);
    var r := DecodeBatch(s, v, c, body);
    assert b[|b|..] == [];
    if r.Success? {
      assert r.value + [] == r.value;
    }
  }

  lemma LoneFrame(s: Schema, v: Variant, m: ChannelMessage)
    requires s.Valid() && Carried(s, m) && OpenLongEnough(m.message)
    ensures DecodeAll(s, v, Wire(s, [m])) == Success([m])
  {
    hide Wire, DecodeUnframed;
    SingleRoundTrip(s, v, m, []);
    var b := Wire(s, [m]);
    assert b + [] == b;
    assert b[|b|..] == [];
    assert [m] + [] == [m];
  }

  /** Every frame the queue can produce is read back in full by the decoder that skips separators. */
  lemma FrameRoundTrip(s: Schema, v: Variant, ms: seq<ChannelMessage>)
    requires s.Valid() && IsFrame(s, ms) && OpenLongEnough(ms[0].message)
    requires v.SeparatorSkipped? || SingleChannel(ms)
    ensures DecodeAll(s, v, Wire(s, ms)) == Success(ms)
  {
    if |ms| == 1 {
      assert ms == [ms[0]];
      LoneFrame(s, v, ms[0]);
    } else {
      BatchFrame(s, v, ms);
      BatchRoundTrip(s, v, ms[0].channel, ms);
    }
  }

  /**
   A frame that changes channel: the source's decoder hands over the messages before the change followed
   by ordinary messages on channel zero, or it fails. Nothing reaches another live channel.
   */
  lemma FrameMisread(s: Schema, ms: seq<ChannelMessage>)
    requires s.Valid() && IsFrame(s, ms) && !SingleChannel(ms)
    ensures var k := OnChannel(ms[0].channel, ms);
            && 0 < k < |ms| && AllSendable(s, ms[k..])
            && var garbled := Garbled(s, ms[k..]);
               && DecodeAll(s, AsWritten, Wire(s, ms)) == Prepend(ms[..k], garbled)
               && (garbled.Success? ==> garbled.value != [] && OnZero(garbled.value))
  {
    hide DecodeAll, Wire, DecodeBatch, BatchBody;
    ChangesSomewhere(ms);
    BatchFrame(s, AsWritten, ms);
    BatchMisread(s, ms[0].channel, ms);
    var k := OnChannel(ms[0].channel, ms);
    var b := EncodeU64(ms[k].channel) + BatchBody(s, ms[k].channel, ms[k..]);
    ZeroBatch(s, b);
  }

  /** The source's decoder reads a frame back if and only if it does not change channel and no Open is too short. */
  lemma FrameRoundTripExactly(s: Schema, ms: seq<ChannelMessage>)
    requires s.Valid() && IsFrame(s, ms)
    ensures DecodeAll(s, AsWritten, Wire(s, ms)) == Success(ms)
       <==> SingleChannel(ms) && OpenLongEnough(ms[0].message)
  {
    hide DecodeAll, Wire, Garbled;
    if !SingleChannel(ms) {
      FrameMisread(s, ms);
      var k := OnChannel(ms[0].channel, ms);
      var garbled := Garbled(s, ms[k..]);
      if garbled.Success? {
        assert (ms[..k] + garbled.value)[k].channel == 0;
      }
    } else if OpenLongEnough(ms[0].message) {
      FrameRoundTrip(s, AsWritten, ms);
    } else {
      assert ms == [ms[0]];
      ShortOpen(s, ms[0]);
    }
  }

  /** One message each on channels one and two. */
  function TwoCancels(x: u64): seq<ChannelMessage> {
    [ChannelMessage(1, Cancel(x)), ChannelMessage(2, Cancel(x))]
  }

  lemma TwoCancelsFrame(s: Schema, x: u64)
    ensures AllSendable(s, TwoCancels(x)) && IsFrame(s, TwoCancels(x)) && !SingleChannel(TwoCancels(x))
    ensures OnChannel(1, TwoCancels(x)) == 1 && TwoCancels(x)[1..] == [ChannelMessage(2, Cancel(x))]
  {
    var ms := TwoCancels(x);
    assert ms[1].channel != ms[0].channel;
    assert ms[1..] == [ChannelMessage(2, Cancel(x))];
  }

  /** The bytes of the second message after the separator: 2, 2, 2 and the number. */
  lemma GarbledCancel(s: Schema, x: byte)
    requires x < 253
    ensures var ms := [ChannelMessage(2, Cancel(x))];
            AllSendable(s, ms) && Garbled(s, ms) == DecodeBatch(s, AsWritten, 0, [2, 2, 2, x])
  {
    var m := ChannelMessage(2, Cancel(x));
    assert EncodeMessage(s, m.message) == [2, x];
    assert Sized(s, m) == [2, 2, x];
    assert BatchBody(s, 2, [m]) == [2, 2, x] by {
      assert [m][1..] == [];
      assert [] + ([2, 2, x] + []) == [2, 2, x];
    }
    assert EncodeU64(2) + [2, 2, x] == [2, 2, 2, x];
  }

  /** On channel zero the decoder first finds a message that was never sent. */
  lemma GarbledFirst(s: Schema, x: byte)
    ensures DecodeItem(s, AsWritten, 0, [2, 2, 2, x])
         == match NextChannel(AsWritten, 0, [x])
            case Ok(next, rest) => Ok((ChannelMessage(0, Cancel(2)), next), rest)
            case Err(e) => Err(e)
  {
    var b: seq<byte> := [2, 2, 2, x];
    assert b[1..] == [2, 2, x] && [2, 2, x][1..] == [2, x] && [2, x][1..] == [x];
    assert DecodeU64(b) == Ok(2, [2, 2, x]);
    assert DecodeU64([2, 2, x]) == Ok(2, [2, x]);
    assert DecodeU64([2, x]) == Ok(2, [x]);
    assert DecodeMessage(s, [2, 2, x]) == Ok(Cancel(2), [x]);
  }

  /** An example: two messages on two channels, which only the decoder that skips separators reads back; the source's fails. */
  lemma ChannelChangeExample(s: Schema)
    requires s.Valid()
    ensures AllSendable(s, TwoCancels(7))
    ensures DecodeAll(s, AsWritten, Wire(s, TwoCancels(7))).Failure?
    ensures DecodeAll(s, SeparatorSkipped, Wire(s, TwoCancels(7))) == Success(TwoCancels(7))
  {
    hide IsFrame, Wire, DecodeAll, Garbled;
    TwoCancelsFrame(s, 7);
    FrameRoundTrip(s, SeparatorSkipped, TwoCancels(7));
    FrameMisread(s, TwoCancels(7));
    SevenIsIllegible(s);
  }

  lemma SevenIsIllegible(s: Schema)
    ensures AllSendable(s, [ChannelMessage(2, Cancel(7))]) && Garbled(s, [ChannelMessage(2, Cancel(7))]).Failure?
  {
    GarbledCancel(s, 7);
    GarbledFirst(s, 7);
    hide DecodeItem, Garbled;
    assert NextChannel(AsWritten, 0, [7]) == Ok(0, [7]);
    assert DecodeItem(s, AsWritten, 0, [7]) == Err(InvalidLength) by { LoneByte(s); }
    assert DecodeBatch(s, AsWritten, 0, [7]).Failure?;
  }

  lemma LoneByte(s: Schema)
    ensures DecodeItem(s, AsWritten, 0, [7]) == Err(InvalidLength)
  {
    assert DecodeU64([7]) == Ok(7, []);
  }

  /** An example of a frame that the source's decoder misreads without failing: a message is lost and another made up. */
  lemma SilentMisreadExample(s: Schema)
    requires s.Valid()
    ensures AllSendable(s, TwoCancels(0))
    ensures DecodeAll(s, AsWritten, Wire(s, TwoCancels(0)))
         == Success([ChannelMessage(1, Cancel(0)), ChannelMessage(0, Cancel(2))])
  {
    hide IsFrame, Wire, DecodeAll, Garbled;
    var ms := TwoCancels(0);
    TwoCancelsFrame(s, 0);
    FrameMisread(s, ms);
    ZeroIsMisread(s);
    assert ms[..1] + [ChannelMessage(0, Cancel(2))] == [ChannelMessage(1, Cancel(0)), ChannelMessage(0, Cancel(2))];
  }

  lemma ZeroIsMisread(s: Schema)
    ensures AllSendable(s, [ChannelMessage(2, Cancel(0))])
    ensures Garbled(s, [ChannelMessage(2, Cancel(0))]) == Success([ChannelMessage(0, Cancel(2))])
  {
    GarbledCancel(s, 0);
    GarbledFirst(s, 0);
    hide DecodeItem, Garbled;
    assert NextChannel(AsWritten, 0, [0]) == Ok(0, []) by { assert DecodeU64([0]) == Ok(0, []); }
    assert DecodeBatch(s, AsWritten, 0, []) == Success([]);
    assert [ChannelMessage(0, Cancel(2))] + [] == [ChannelMessage(0, Cancel(2))];
  }

  /** The source's decoder refuses an Open that is too short. */
  lemma ShortOpen(s: Schema, m: ChannelMessage)
    requires s.Valid() && Carried(s, m) && !OpenLongEnough(m.message)
    ensures DecodeAll(s, AsWritten, Wire(s, [m])) == Failure(TooShort)
  {
    MessageSize(s, m.message);
  }

  //
  // Frames one after another
  //

  function WireAll(s: Schema, frames: seq<seq<ChannelMessage>>): seq<byte>
    requires forall i | 0 <= i < |frames| :: AllSendable(s, frames[i])
  {
    if frames == [] then [] else Wire(s, frames[0]) + WireAll(s, frames[1..])
  }

  function Flatten(xs: seq<seq<ChannelMessage>>): seq<ChannelMessage> {
    if xs == [] then [] else xs[0] + Flatten(xs[1..])
  }

  /** Frames that say where they end can be joined in one buffer, and any one frame may come last. */
  lemma {:induction false} Concatenation(
    s: Schema, v: Variant, frames: seq<seq<ChannelMessage>>, last: seq<ChannelMessage>)
    requires s.Valid()
    requires forall i | 0 <= i < |frames| :: AllSendable(s, frames[i]) && Delimited(s, frames[i])
    requires AllSendable(s, last)
    requires last == [] || (IsFrame(s, last) && OpenLongEnough(last[0].message))
    requires v.SeparatorSkipped? || SingleChannel(last)
    ensures DecodeAll(s, v, WireAll(s, frames) + Wire(s, last)) == Success(Flatten(frames) + last)
  {
    hide Wire, DecodeUnframed, Carried, IsFrame, AllSendable, OpenLongEnough, SingleChannel, Sendable;
    if frames == [] {
      assert WireAll(s, frames) + Wire(s, last) == Wire(s, last);
      if last == [] {
        EmptyWire(s);
      } else {
        FrameRoundTrip(s, v, last);
      }
      assert [] + last == last;
    } else {
      var f, tail := frames[0], WireAll(s, frames[1..]) + Wire(s, last);
      var b := Wire(s, f) + tail;
      assert WireAll(s, frames) + Wire(s, last) == b;
      assert f == [f[0]];
      CapabilityIsLong(f[0]);
      SingleRoundTrip(s, v, f[0], tail);
      WireNonempty(s, f);
      assert b[|Wire(s, f)|..] == tail;
      Concatenation(s, v, frames[1..], last);
      assert f + (Flatten(frames[1..]) + last) == Flatten(frames) + last;
    }
  }

  lemma EmptyWire(s: Schema)
    ensures Wire(s, []) == []
  {
  }

  lemma WireNonempty(s: Schema, ms: seq<ChannelMessage>)
    requires AllSendable(s, ms) && ms != []
    ensures Wire(s, ms) != []
  {
    hide EncodeMessage;
  }

  lemma CapabilityIsLong(m: ChannelMessage)
    requires m.message.Open? ==> m.message.open.capability.Some?
    ensures OpenLongEnough(m.message)
  {
  }
}
