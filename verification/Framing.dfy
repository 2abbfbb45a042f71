/**
 Frames: how a list of channel messages is laid out in one buffer and read back.

 A lone Open or Close has a two-byte prefix, any other lone message is its channel followed by the
 message, and two or more messages form a batch that writes the channel once and, where the channel
 changes, a zero byte and the new channel.

 The decoder comes in two variants. `AsWritten` is the decoder of the source. On a channel change it
 reads the separator itself as the new channel. `SeparatorSkipped` steps over the separator first,
 which is what the encoder expects.
 */
module Framing {
  import opened Wrappers
  import opened Compact
  import opened Messages
  import W = WireSchema

  datatype Variant = AsWritten | SeparatorSkipped

  type DecodedList = Result<seq<ChannelMessage>, Error>

  /** Everything the encoder relies on for one message. */
  predicate Sendable(s: Schema, m: ChannelMessage) {
    && Encodable(m.message)
    && m.channel < U64_LIMIT
    && SizeMessage(s, m.message) < U64_LIMIT
  }

  predicate AllSendable(s: Schema, ms: seq<ChannelMessage>) {
    forall i | 0 <= i < |ms| :: Sendable(s, ms[i])
  }

  //
  // Layout
  //

  /** The separator and new channel written before a message whose channel differs from the current one. */
  function ChannelChange(current: nat, channel: u64): seq<byte> {
    if channel != current then [0] + EncodeU64(channel) else []
  }

  /** The length-prefixed message. */
  function Sized(s: Schema, m: ChannelMessage): seq<byte>
    requires Sendable(s, m)
  {
    EncodeU64(SizeMessage(s, m.message)) + EncodeMessage(s, m.message)
  }

  function BatchBody(s: Schema, current: nat, ms: seq<ChannelMessage>): seq<byte>
    requires AllSendable(s, ms)
    decreases |ms|
  {
    if ms == [] then []
    else ChannelChange(current, ms[0].channel) + (Sized(s, ms[0]) + BatchBody(s, ms[0].channel, ms[1..]))
  }

  /** What precedes a message that is alone in its frame. */
  function SinglePrefix(m: ChannelMessage): seq<byte>
    requires m.channel < U64_LIMIT
  {
    if m.message.Open? then [0, 1] else if m.message.Close? then [0, 3] else EncodeU64(m.channel)
  }

  function BatchPrefix(channel: u64): seq<byte> {
    [0, 0] + EncodeU64(channel)
  }

  /** The bytes of a list of messages. */
  function Wire(s: Schema, ms: seq<ChannelMessage>): seq<byte>
    requires AllSendable(s, ms)
  {
    if ms == [] then []
    else if |ms| == 1 then SinglePrefix(ms[0]) + EncodeMessage(s, ms[0].message)
    else BatchPrefix(ms[0].channel) + BatchBody(s, ms[0].channel, ms)
  }

  //
  // Reading back
  //

  function Prepend(ms: seq<ChannelMessage>, r: DecodedList): DecodedList {
    if r.Success? then Success(ms + r.value) else r
  }

  lemma PrependNothing(r: DecodedList)
    ensures Prepend([], r) == r
  {
    if r.Success? {
      assert [] + r.value == r.value;
    }
  }

  lemma PrependTwice(first: seq<ChannelMessage>, second: seq<ChannelMessage>, r: DecodedList)
    ensures Prepend(first, Prepend(second, r)) == Prepend(first + second, r)
  {
    if r.Success? {
      assert first + (second + r.value) == (first + second) + r.value;
    }
  }

  function DecodeWithChannel(s: Schema, b: seq<byte>, channel: u64): (r: Decoded<ChannelMessage>)
    ensures r.Ok? ==> |r.rest| < |b| && r.value.channel == channel && r.value.message.IsOrdinary()
  {
    if |b| <= 1 then Err(TooShort)
    else
      var (m, rest) :- DecodeMessage(s, b);
      Ok(ChannelMessage(channel, m), rest)
  }

  /** The channel and buffer with which a batch goes on after a message. */
  function NextChannel(v: Variant, channel: u64, b: seq<byte>): (r: Decoded<u64>)
    ensures r.Ok? ==> |r.rest| <= |b|
  {
    if b != [] && b[0] == 0 then DecodeU64(if v.SeparatorSkipped? then b[1..] else b) else Ok(channel, b)
  }

  /** One round of a batch: a length, a message, and possibly a channel change. */
  function DecodeItem(s: Schema, v: Variant, channel: u64, b: seq<byte>): (r: Decoded<(ChannelMessage, u64)>)
    ensures r.Ok? ==> |r.rest| < |b| && r.value.0.channel == channel && r.value.0.message.IsOrdinary()
  {
    var (length, rest) :- DecodeU64(b);
    if length > |rest| then Err(InvalidLength)
    else
      var (m, rest) :- DecodeWithChannel(s, rest, channel);
      var (next, rest) :- NextChannel(v, channel, rest);
      Ok((m, next), rest)
  }

  function DecodeBatch(s: Schema, v: Variant, channel: u64, b: seq<byte>): DecodedList
    decreases |b|
  {
    if b == [] then Success([])
    else match DecodeItem(s, v, channel, b)
      case Err(e) => Failure(e)
      case Ok((m, next), rest) => Prepend([m], DecodeBatch(s, v, next, rest))
  }

  /** A decoded message alone in its list, with the number of bytes used. */
  function Alone(d: Decoded<ChannelMessage>, total: nat): Result<(seq<ChannelMessage>, nat), Error>
    requires d.Ok? ==> |d.rest| <= total
  {
    match d
    case Err(e) => Failure(e)
    case Ok(m, rest) => Success(([m], total - |rest|))
  }

  function DecodeOpenMessage(s: Schema, b: seq<byte>): (r: Decoded<ChannelMessage>)
    ensures r.Ok? ==> |r.rest| < |b|
  {
    if |b| <= 5 then Err(TooShort)
    else
      var (o, rest) :- W.DecodeOpen(s, b);
      Ok(ChannelMessage(o.channel, Open(o)), rest)
  }

  function DecodeCloseMessage(b: seq<byte>): (r: Decoded<ChannelMessage>)
    ensures r.Ok? ==> |r.rest| < |b|
  {
    if b == [] then Err(TooShort)
    else
      var (c, rest) :- W.DecodeClose(b);
      Ok(ChannelMessage(c.channel, Close(c)), rest)
  }

  function DecodeSingle(s: Schema, b: seq<byte>): (r: Decoded<ChannelMessage>)
    ensures r.Ok? ==> |r.rest| < |b|
  {
    var (channel, rest) :- DecodeU64(b);
    var (m, rest) :- DecodeMessage(s, rest);
    Ok(ChannelMessage(channel, m), rest)
  }

  /** Decodes one frame from the front of `b`; a batch reads to the end. Returns the bytes used. */
  function DecodeUnframed(s: Schema, v: Variant, b: seq<byte>): (r: Result<(seq<ChannelMessage>, nat), Error>)
    ensures r.Success? ==> 0 < r.value.1 <= |b|
  {
    if |b| >= 3 && b[0] == 0 then
      if b[1] == 0 then
        match DecodeU64(b[2..])
        case Err(e) => Failure(e)
        case Ok(channel, rest) =>
          match DecodeBatch(s, v, channel, rest) {
            case Failure(e) => Failure(e)
            case Success(ms) => Success((ms, |b|))
          }
      else if b[1] == 1 then Alone(DecodeOpenMessage(s, b[2..]), |b|)
      else if b[1] == 3 then Alone(DecodeCloseMessage(b[2..]), |b|)
      else Failure(InvalidSpecial)
    else if |b| >= 2 then Alone(DecodeSingle(s, b), |b|)
    else Failure(TooShort)
  }

  /** Decodes frame after frame until the buffer is used up. */
  function DecodeAll(s: Schema, v: Variant, b: seq<byte>): DecodedList
    decreases |b|
  {
    if b == [] then Success([])
    else match DecodeUnframed(s, v, b)
      case Failure(e) => Failure(e)
      case Success((ms, used)) => Prepend(ms, DecodeAll(s, v, b[used..]))
  }

  //
  // The source's loops, proved against the functions above
  //

  /** The number of bytes a list takes. */
  method EncodedSize(s: Schema, ms: seq<ChannelMessage>) returns (out: nat)
    requires s.Valid() && AllSendable(s, ms)
    ensures out == |Wire(s, ms)|
  {
    hide EncodeMessage, SizeMessage;
    if ms == [] {
      return 0;
    }
    MessageSize(s, ms[0].message);
    if |ms| == 1 {
      var m := ms[0];
      out := if m.message.IsControl() then 2 else SizeU64(m.channel);
      out := out + SizeMessage(s, m.message);
      return;
    }
    out := 2;
    var current := ms[0].channel;
    out := out + SizeU64(current);
    for i := 0 to |ms|
      invariant out + |BatchBody(s, current, ms[i..])| == |Wire(s, ms)|
    {
      assert ms[i..][0] == ms[i] && ms[i..][1..] == ms[i + 1..];
      assert Sendable(s, ms[i]);
      if ms[i].channel != current {
        out := out + 1 + SizeU64(ms[i].channel);
        current := ms[i].channel;
      }
      MessageSize(s, ms[i].message);
      var length := SizeMessage(s, ms[i].message);
      out := out + length + SizeU64(length);
    }
  }

  /** Copies `bytes` into the buffer at `pos`, if there is room. */
  method WriteSlice(buffer: array<byte>, pos: nat, bytes: seq<byte>) returns (r: Option<nat>)
    requires pos <= buffer.Length
    modifies buffer
    ensures r.Some? <==> pos + |bytes| <= buffer.Length
    ensures r.Some? ==>
              && r.value == pos + |bytes|
              && buffer[..r.value] == old(buffer[..pos]) + bytes
              && buffer[r.value..] == old(buffer[r.value..])
    ensures r.None? ==> buffer[..] == old(buffer[..])
  {
    if pos + |bytes| > buffer.Length {
      return None;
    }
    for i := 0 to |bytes|
      invariant buffer[..pos] == old(buffer[..pos])
      invariant buffer[pos..pos + i] == bytes[..i]
      invariant buffer[pos + |bytes|..] == old(buffer[pos + |bytes|..])
    {
      buffer[pos + i] := bytes[i];
    }
    assert buffer[..pos + |bytes|] == buffer[..pos] + buffer[pos..pos + |bytes|];
    return Some(pos + |bytes|);
  }

  /** Writes two slices in a row. */
  method WriteBoth(buffer: array<byte>, pos: nat, first: seq<byte>, second: seq<byte>) returns (r: Option<nat>)
    requires pos <= buffer.Length
    modifies buffer
    ensures r.Some? <==> pos + |first| + |second| <= buffer.Length
    ensures r.Some? ==>
              && r.value == pos + |first| + |second|
              && buffer[..r.value] == old(buffer[..pos]) + first + second
              && buffer[r.value..] == old(buffer[r.value..])
  {
    r := WriteSlice(buffer, pos, first);
    if r.Some? {
      ghost var middle := buffer[r.value..];
      r := WriteSlice(buffer, r.value, second);
      if r.Some? {
        assert buffer[r.value..] == middle[|second|..];
      }
    }
  }

  /** Writes a batch: its prefix, then item after item. */
  method WriteBatch(s: Schema, ms: seq<ChannelMessage>, channel: u64, buffer: array<byte>) returns (r: Option<nat>)
    requires AllSendable(s, ms)
    modifies buffer
    ensures r.Some? <==> |BatchPrefix(channel) + BatchBody(s, channel, ms)| <= buffer.Length
    ensures r.Some? ==>
              && r.value == |BatchPrefix(channel) + BatchBody(s, channel, ms)|
              && buffer[..r.value] == BatchPrefix(channel) + BatchBody(s, channel, ms)
              && buffer[r.value..] == old(buffer[r.value..])
  {
    hide EncodeMessage, SizeMessage, Sized, ChannelChange, Encodable;
    var prefix := BatchPrefix(channel);
    ghost var all := prefix + BatchBody(s, channel, ms);
    r := WriteSlice(buffer, 0, prefix);
    if r.None? {
      return;
    }
    var current: nat, pos: nat := channel, r.value;
    for i := 0 to |ms|
      invariant pos <= buffer.Length
      invariant buffer[..pos] + BatchBody(s, current, ms[i..]) == all
      invariant buffer[pos..] == old(buffer[pos..])
    {
      var item := ms[i];
      assert ms[i..][0] == item && ms[i..][1..] == ms[i + 1..];
      assert Sendable(s, item);
      var change, sized := ChannelChange(current, item.channel), Sized(s, item);
      SplitItem(buffer[..pos], change, sized, BatchBody(s, item.channel, ms[i + 1..]));
      r := WriteBoth(buffer, pos, change, sized);
      if r.None? {
        return;
      }
      pos := r.value;
      current := item.channel;
    }
    r := Some(pos);
  }

  /** Fills the front of the buffer with the bytes of the list; fails exactly when there is no room. */
  method VecEncode(s: Schema, ms: seq<ChannelMessage>, buffer: array<byte>) returns (r: Option<nat>)
    requires AllSendable(s, ms)
    modifies buffer
    ensures r.Some? <==> |Wire(s, ms)| <= buffer.Length
    ensures r.Some? ==> r.value == |Wire(s, ms)| && buffer[..r.value] == Wire(s, ms)
    ensures r.Some? ==> buffer[r.value..] == old(buffer[r.value..])
  {
    hide EncodeMessage, SizeMessage;
    ghost var all := Wire(s, ms);
    if ms == [] {
      r := Some(0);
    } else if |ms| == 1 {
      var prefix, body := SinglePrefix(ms[0]), EncodeMessage(s, ms[0].message);
      assert buffer[..0] + prefix + body == all;
      r := WriteBoth(buffer, 0, prefix, body);
    } else {
      r := WriteBatch(s, ms, ms[0].channel, buffer);
    }
  }

  /** The next item of a batch, told apart from what is written already and what is still to come. */
  lemma SplitItem(done: seq<byte>, change: seq<byte>, item: seq<byte>, later: seq<byte>)
    ensures done + (change + (item + later)) == ((done + change) + item) + later
  {
  }

  /** Allocates a buffer of the announced size and fills it completely. */
  method ToEncodedBytes(s: Schema, ms: seq<ChannelMessage>) returns (b: seq<byte>)
    requires s.Valid() && AllSendable(s, ms)
    ensures b == Wire(s, ms)
  {
    var size := EncodedSize(s, ms);
    var buffer := new byte[size](_ => 0);
    var r := VecEncode(s, ms, buffer);
    assert buffer[..size] == buffer[..];
    b := buffer[..];
  }

  /** The decoder of the source. */
  method DecodeUnframedMessages(s: Schema, b: seq<byte>) returns (r: Result<(seq<ChannelMessage>, nat), Error>)
    ensures r == DecodeUnframed(s, AsWritten, b)
  {
    if |b| >= 3 && b[0] == 0 {
      if b[1] == 0 {
        var first := DecodeU64(b[2..]);
        if first.Err? {
          return Failure(first.error);
        }
        var messages: seq<ChannelMessage> := [];
        var current, rest := first.value, first.rest;
        PrependNothing(DecodeBatch(s, AsWritten, current, rest));
        while rest != []
          invariant DecodeBatch(s, AsWritten, first.value, first.rest)
                 == Prepend(messages, DecodeBatch(s, AsWritten, current, rest))
          decreases |rest|
        {
          var item := DecodeItem(s, AsWritten, current, rest);
          if item.Err? {
            return Failure(item.error);
          }
          var (m, next) := item.value;
          ghost var later := DecodeBatch(s, AsWritten, next, item.rest);
          PrependTwice(messages, [m], later);
          messages := messages + [m];
          current, rest := next, item.rest;
        }
        assert messages + [] == messages;
        return Success((messages, |b| - |rest|));
      } else if b[1] == 1 {
        return Alone(DecodeOpenMessage(s, b[2..]), |b|);
      } else if b[1] == 3 {
        return Alone(DecodeCloseMessage(b[2..]), |b|);
      } else {
        return Failure(InvalidSpecial);
      }
    } else if |b| >= 2 {
      return Alone(DecodeSingle(s, b), |b|);
    } else {
      return Failure(TooShort);
    }
  }

  /** Decodes a whole buffer: terminates on every input and, on success, leaves nothing unread. */
  method VecDecode(s: Schema, b: seq<byte>) returns (r: DecodedList, rest: seq<byte>)
    ensures r == DecodeAll(s, AsWritten, b)
    ensures r.Success? ==> rest == []
  {
    var combined: seq<ChannelMessage> := [];
    rest := b;
    PrependNothing(DecodeAll(s, AsWritten, rest));
    while rest != []
      invariant DecodeAll(s, AsWritten, b) == Prepend(combined, DecodeAll(s, AsWritten, rest))
      decreases |rest|
    {
      var frame := DecodeUnframedMessages(s, rest);
      if frame.Failure? {
        return Failure(frame.error), rest;
      }
      ghost var later := DecodeAll(s, AsWritten, rest[frame.value.1..]);
      PrependTwice(combined, frame.value.0, later);
      rest := rest[frame.value.1..];
      combined := combined + frame.value.0;
    }
    assert combined + [] == combined;
    r := Success(combined);
  }
}
