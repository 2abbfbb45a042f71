/** The wire format written out: the bytes of every kind of message, and buffers that are always refused. */
module WireFormat {
  import opened Wrappers
  import opened Compact
  import opened Messages
  import opened Framing
  import W = WireSchema

  /** One bit of a flag byte. */
  function Flag(b: bool): (n: nat)
    ensures n <= 1
  {
    if b then 1 else 0
  }

  /** A flag byte: the first flag is the least significant bit. */
  function FlagByte(a: bool, b: bool, c: bool, d: bool, e: bool, f: bool): (n: byte)
    ensures n < 64
  {
    Flag(a) + 2 * Flag(b) + 4 * Flag(c) + 8 * Flag(d) + 16 * Flag(e) + 32 * Flag(f)
  }

  /** The number with the given four bytes, the least significant first. */
  function Four(a: nat, b: nat, c: nat, d: nat): nat {
    a + 0x100 * b + 0x1_0000 * c + 0x100_0000 * d
  }

  /** Integers: below 253 one byte, else a byte that tells the width and then the least significant byte first. */
  lemma IntegerBytes(v: u64)
    ensures var b := EncodeU64(v);
            && (v < 0xfd ==> b == [v])
            && (0xfd <= v < 0x1_0000 ==> |b| == 3 && b[0] == 0xfd && v == Four(b[1], b[2], 0, 0))
            && (0x1_0000 <= v < 0x1_0000_0000 ==> |b| == 5 && b[0] == 0xfe && v == Four(b[1], b[2], b[3], b[4]))
            && (0x1_0000_0000 <= v ==>
                  && |b| == 9 && b[0] == 0xff
                  && v == Four(b[1], b[2], b[3], b[4]) + 0x1_0000_0000 * Four(b[5], b[6], b[7], b[8]))
  {
    hide ToLittleEndian, FromLittleEndian, Pow256, Four;
    Powers();
    if 0xfd <= v < 0x1_0000 {
      LittleEndianRoundTrip(v, 2);
      TwoBytes(ToLittleEndian(v, 2));
    } else if 0x1_0000 <= v < 0x1_0000_0000 {
      LittleEndianRoundTrip(v, 4);
      FourBytes(ToLittleEndian(v, 4));
      NoBytes();
    } else if 0x1_0000_0000 <= v {
      LittleEndianRoundTrip(v, 8);
      FourBytes(ToLittleEndian(v, 8));
      FourBytes(ToLittleEndian(v, 8)[4..]);
      NoBytes();
    }
  }

  lemma NoBytes()
    ensures FromLittleEndian([]) == 0
  {
  }

  lemma TwoBytes(b: seq<byte>)
    requires |b| == 2
    ensures FromLittleEndian(b) == Four(b[0], b[1], 0, 0)
  {
    assert b[1..][1..] == [];
  }

  lemma FourBytes(b: seq<byte>)
    requires |b| >= 4
    ensures FromLittleEndian(b) == Four(b[0], b[1], b[2], b[3]) + 0x1_0000_0000 * FromLittleEndian(b[4..])
  {
    var b1, b2, b3 := b[1..], b[2..], b[3..];
    assert b1[1..] == b2 && b2[1..] == b3 && b3[1..] == b[4..];
    assert FromLittleEndian(b1) == b[1] + 256 * FromLittleEndian(b2);
    assert FromLittleEndian(b2) == b[2] + 256 * FromLittleEndian(b3);
    assert FromLittleEndian(b3) == b[3] + 256 * FromLittleEndian(b[4..]);
  }

  lemma TwoFlags(a: bool, b: bool)
    ensures Flags([a, b]) == FlagByte(a, b, false, false, false, false)
  {
    assert [a, b][1..] == [b];
  }

  lemma ThreeFlags(a: bool, b: bool, c: bool)
    ensures Flags([a, b, c]) == FlagByte(a, b, c, false, false, false)
  {
    assert [a, b, c][1..] == [b, c];
    TwoFlags(b, c);
  }

  lemma FourFlags(a: bool, b: bool, c: bool, d: bool)
    ensures Flags([a, b, c, d]) == FlagByte(a, b, c, d, false, false)
  {
    assert [a, b, c, d][1..] == [b, c, d];
    ThreeFlags(b, c, d);
  }

  lemma FiveFlags(a: bool, b: bool, c: bool, d: bool, e: bool)
    ensures Flags([a, b, c, d, e]) == FlagByte(a, b, c, d, e, false)
  {
    assert [a, b, c, d, e][1..] == [b, c, d, e];
    FourFlags(b, c, d, e);
  }

  lemma SixFlags(a: bool, b: bool, c: bool, d: bool, e: bool, f: bool)
    ensures Flags([a, b, c, d, e, f]) == FlagByte(a, b, c, d, e, f)
  {
    assert [a, b, c, d, e, f][1..] == [b, c, d, e, f];
    FiveFlags(b, c, d, e, f);
  }

  //
  // Control messages
  //

  lemma OpenBytes(s: Schema, channel: u64, o: W.Open)
    requires Sendable(s, ChannelMessage(channel, Open(o)))
    ensures Wire(s, [ChannelMessage(channel, Open(o))])
         == [0, 1] + EncodeU64(o.channel) + EncodeU64(|o.protocol|) + o.protocol + EncodeU64(|o.discoveryKey|) + o.discoveryKey
            + if o.capability.Some? then [0] + o.capability.value else []
  {
    hide EncodeU64;
  }

  lemma CloseBytes(s: Schema, channel: u64, c: W.Close)
    requires Sendable(s, ChannelMessage(channel, Close(c)))
    ensures Wire(s, [ChannelMessage(channel, Close(c))]) == [0, 3] + EncodeU64(c.channel)
  {
    hide EncodeU64;
  }

  //
  // Ordinary messages
  //

  /** A message alone in its frame: its channel, its type and its fields. */
  ghost predicate Reads(s: Schema, channel: u64, m: Message, kind: byte, fields: seq<byte>) {
    var cm := ChannelMessage(channel, m);
    Sendable(s, cm) ==> Wire(s, [cm]) == EncodeU64(channel) + [kind] + fields
  }

  lemma BodyReads(s: Schema, channel: u64, m: Message)
    requires m.IsOrdinary()
    ensures Reads(s, channel, m, TypeOf(m), EncodeBody(s, m))
  {
    hide EncodeBody, SizeBody;
    var t := TypeOf(m);
    assert EncodeU64(t) == [t];
    hide EncodeU64;
    assert EncodeU64(channel) + ([t] + EncodeBody(s, m)) == EncodeU64(channel) + [t] + EncodeBody(s, m);
  }

  lemma SynchronizeBytes(s: Schema, channel: u64, x: W.Synchronize)
    ensures Reads(s, channel, Synchronize(x), 0,
                  [FlagByte(x.canUpgrade, x.uploading, x.downloading, false, false, false)]
                  + EncodeU64(x.fork) + EncodeU64(x.length) + EncodeU64(x.remoteLength))
  {
    hide Reads, EncodeU64, Flags, FlagByte;
    BodyReads(s, channel, Synchronize(x));
    ThreeFlags(x.canUpgrade, x.uploading, x.downloading);
    var flags := [FlagByte(x.canUpgrade, x.uploading, x.downloading, false, false, false)];
    assert W.EncodeSynchronize(x) == flags + EncodeU64(x.fork) + EncodeU64(x.length) + EncodeU64(x.remoteLength);
  }

  /** The records of a request, in order, each only if it is there; a priority only if it is not zero. */
  lemma RequestBytes(s: Schema, channel: u64, x: W.Request)
    ensures Reads(s, channel, Request(x), 1,
                  [FlagByte(x.block.Some?, x.hash.Some?, x.seek.Some?, x.upgrade.Some?, x.manifest, x.priority != 0)]
                  + EncodeU64(x.id) + EncodeU64(x.fork)
                  + (if x.block.Some? then s.requestBlock.encode(x.block.value) else [])
                  + (if x.hash.Some? then s.requestBlock.encode(x.hash.value) else [])
                  + (if x.seek.Some? then s.requestSeek.encode(x.seek.value) else [])
                  + (if x.upgrade.Some? then s.requestUpgrade.encode(x.upgrade.value) else [])
                  + (if x.priority != 0 then EncodeU64(x.priority) else []))
  {
    hide Reads, EncodeU64, Flags, FlagByte;
    BodyReads(s, channel, Request(x));
    SixFlags(x.block.Some?, x.hash.Some?, x.seek.Some?, x.upgrade.Some?, x.manifest, x.priority != 0);
    var block, hash := W.EncodeOption(s.requestBlock, x.block), W.EncodeOption(s.requestBlock, x.hash);
    var seek, upgrade := W.EncodeOption(s.requestSeek, x.seek), W.EncodeOption(s.requestUpgrade, x.upgrade);
    Flat([W.EncodeRequest(s, x)[0]], EncodeU64(x.id), EncodeU64(x.fork), block, hash, seek, upgrade, W.EncodePriority(x.priority));
  }

  lemma DataBytes(s: Schema, channel: u64, x: W.Data)
    ensures Reads(s, channel, Data(x), 3,
                  [FlagByte(x.block.Some?, x.hash.Some?, x.seek.Some?, x.upgrade.Some?, false, false)]
                  + EncodeU64(x.request) + EncodeU64(x.fork)
                  + (if x.block.Some? then s.dataBlock.encode(x.block.value) else [])
                  + (if x.hash.Some? then s.dataHash.encode(x.hash.value) else [])
                  + (if x.seek.Some? then s.dataSeek.encode(x.seek.value) else [])
                  + (if x.upgrade.Some? then s.dataUpgrade.encode(x.upgrade.value) else []))
  {
    hide Reads, EncodeU64, Flags, FlagByte;
    BodyReads(s, channel, Data(x));
    FourFlags(x.block.Some?, x.hash.Some?, x.seek.Some?, x.upgrade.Some?);
    var block, hash := W.EncodeOption(s.dataBlock, x.block), W.EncodeOption(s.dataHash, x.hash);
    var seek, upgrade := W.EncodeOption(s.dataSeek, x.seek), W.EncodeOption(s.dataUpgrade, x.upgrade);
    Flat([W.EncodeData(s, x)[0]], EncodeU64(x.request), EncodeU64(x.fork), block, hash, seek, upgrade, []);
  }

  lemma Flat(a: seq<byte>, b: seq<byte>, c: seq<byte>, d: seq<byte>, e: seq<byte>, f: seq<byte>, g: seq<byte>, h: seq<byte>)
    ensures a + ((b + c) + ((d + (e + (f + g))) + h)) == a + b + c + d + e + f + g + h
    ensures a + b + c + d + e + f + g + [] == a + b + c + d + e + f + g
    ensures a + ((b + c) + (d + (e + (f + g)))) == a + b + c + d + e + f + g
  {
  }

  /** The kinds that are one or two integers. */
  lemma IntegerMessageBytes(s: Schema, channel: u64, x: u64, y: u64)
    ensures Reads(s, channel, Cancel(x), 2, EncodeU64(x))
    ensures Reads(s, channel, NoData(x), 4, EncodeU64(x))
    ensures Reads(s, channel, Want(x, y), 5, EncodeU64(x) + EncodeU64(y))
    ensures Reads(s, channel, Unwant(x, y), 6, EncodeU64(x) + EncodeU64(y))
  {
    hide Reads, EncodeU64;
    BodyReads(s, channel, Cancel(x));
    BodyReads(s, channel, NoData(x));
    BodyReads(s, channel, Want(x, y));
    BodyReads(s, channel, Unwant(x, y));
  }

  /** A bitfield: the start, the number of words, and four bytes for each word at its place. */
  lemma BitfieldBytes(s: Schema, channel: u64, x: W.Bitfield)
    ensures var words := EncodeWordArray(x.bitfield);
            && |words| == 4 * |x.bitfield|
            && (forall i | 0 <= i < |x.bitfield| ::
                  x.bitfield[i] == Four(words[4 * i], words[4 * i + 1], words[4 * i + 2], words[4 * i + 3]))
            && Reads(s, channel, Bitfield(x), 7, EncodeU64(x.start) + EncodeU64(|x.bitfield|) + words)
  {
    hide Reads, EncodeU64;
    BodyReads(s, channel, Bitfield(x));
    forall i | 0 <= i < |x.bitfield|
      ensures x.bitfield[i] == Four(EncodeWordArray(x.bitfield)[4 * i], EncodeWordArray(x.bitfield)[4 * i + 1],
                                    EncodeWordArray(x.bitfield)[4 * i + 2], EncodeWordArray(x.bitfield)[4 * i + 3])
    {
      WordAt(x.bitfield, i);
    }
    assert W.EncodeBitfield(x) == EncodeU64(x.start) + EncodeU64(|x.bitfield|) + EncodeWordArray(x.bitfield);
  }

  lemma {:induction false} WordAt(w: seq<u32>, i: nat)
    requires i < |w|
    ensures var b := EncodeWordArray(w); w[i] == Four(b[4 * i], b[4 * i + 1], b[4 * i + 2], b[4 * i + 3])
  {
    hide ToLittleEndian, FromLittleEndian, Four;
    if i == 0 {
      Powers();
      LittleEndianRoundTrip(w[0], 4);
      FourBytes(ToLittleEndian(w[0], 4));
      NoBytes();
    } else {
      WordAt(w[1..], i - 1);
      var b, later := EncodeWordArray(w), EncodeWordArray(w[1..]);
      assert b[4..] == later;
      assert b[4 * i] == later[4 * (i - 1)] && b[4 * i + 1] == later[4 * (i - 1) + 1];
      assert b[4 * i + 2] == later[4 * (i - 1) + 2] && b[4 * i + 3] == later[4 * (i - 1) + 3];
    }
  }

  /** A range of one block carries no length. */
  lemma RangeBytes(s: Schema, channel: u64, x: W.Range)
    ensures Reads(s, channel, Range(x), 8,
                  [FlagByte(x.drop, x.length == 1, false, false, false, false)] + EncodeU64(x.start)
                  + if x.length == 1 then [] else EncodeU64(x.length))
  {
    hide Reads, EncodeU64, Flags, FlagByte;
    BodyReads(s, channel, Range(x));
    TwoFlags(x.drop, x.length == 1);
    var last := if x.length == 1 then [] else EncodeU64(x.length);
    assert W.EncodeRange(x) == [FlagByte(x.drop, x.length == 1, false, false, false, false)] + EncodeU64(x.start) + last;
  }

  lemma ExtensionBytes(s: Schema, channel: u64, x: W.Extension)
    ensures Reads(s, channel, Extension(x), 9, EncodeU64(|x.name|) + x.name + EncodeU64(|x.message|) + x.message)
  {
    hide Reads, EncodeU64;
    BodyReads(s, channel, Extension(x));
    assert W.EncodeExtension(x) == EncodeU64(|x.name|) + x.name + EncodeU64(|x.message|) + x.message;
  }

  //
  // Batches
  //

  /** What one more message adds to a batch: a zero byte and its channel if that differs, its size and the message. */
  function Item(s: Schema, last: u64, m: ChannelMessage): seq<byte>
    requires Sendable(s, m)
  {
    (if m.channel == last then [] else [0] + EncodeU64(m.channel))
    + EncodeU64(SizeMessage(s, m.message)) + EncodeMessage(s, m.message)
  }

  lemma PairBytes(s: Schema, m: ChannelMessage, n: ChannelMessage)
    requires Sendable(s, m) && Sendable(s, n)
    ensures AllSendable(s, [m, n])
    ensures Wire(s, [m, n]) == [0, 0] + EncodeU64(m.channel) + Item(s, m.channel, m) + Item(s, m.channel, n)
  {
    hide EncodeU64, EncodeMessage, SizeMessage;
    assert [m, n][1..] == [n] && [n][1..] == [];
    assert BatchBody(s, m.channel, [n]) == Item(s, m.channel, n);
    assert BatchBody(s, m.channel, [m, n]) == Item(s, m.channel, m) + Item(s, m.channel, n);
  }

  /** A batch grows at its end. */
  lemma LongerBytes(s: Schema, ms: seq<ChannelMessage>, m: ChannelMessage)
    requires |ms| >= 2 && AllSendable(s, ms) && Sendable(s, m)
    ensures AllSendable(s, ms + [m]) && ms[|ms| - 1].channel < U64_LIMIT
    ensures Wire(s, ms + [m]) == Wire(s, ms) + Item(s, ms[|ms| - 1].channel, m)
  {
    hide Sendable, BatchBody, Sized, EncodeU64, EncodeMessage, SizeMessage;
    assert AllSendable(s, ms + [m]) && Sendable(s, ms[0]) && Sendable(s, ms[|ms| - 1]);
    Channels(s, ms[0]);
    Channels(s, ms[|ms| - 1]);
    BatchGrows(s, ms[0].channel, ms, m);
    var prefix := BatchPrefix(ms[0].channel);
    W.Reassociate(prefix, BatchBody(s, ms[0].channel, ms), Item(s, ms[|ms| - 1].channel, m));
  }

  lemma {:induction false} BatchGrows(s: Schema, current: u64, ms: seq<ChannelMessage>, m: ChannelMessage)
    requires AllSendable(s, ms) && Sendable(s, m)
    ensures AllSendable(s, ms + [m])
    ensures var last := if ms == [] then current else ms[|ms| - 1].channel;
            last < U64_LIMIT && BatchBody(s, current, ms + [m]) == BatchBody(s, current, ms) + Item(s, last, m)
    decreases |ms|
  {
    hide EncodeU64, EncodeMessage, SizeMessage, Sendable;
    assert AllSendable(s, ms + [m]);
    if ms == [] {
      assert ms + [m] == [m] && [m][1..] == [];
      assert BatchBody(s, current, [m]) == Item(s, current, m);
    } else {
      assert Sendable(s, ms[0]) && Sendable(s, ms[|ms| - 1]);
      Channels(s, ms[0]);
      Channels(s, ms[|ms| - 1]);
      BatchGrows(s, ms[0].channel, ms[1..], m);
      assert (ms + [m])[0] == ms[0] && (ms + [m])[1..] == ms[1..] + [m];
      var last := ms[|ms| - 1].channel;
      Joins(ChannelChange(current, ms[0].channel), Sized(s, ms[0]), BatchBody(s, ms[0].channel, ms[1..]), Item(s, last, m));
    }
  }

  lemma Channels(s: Schema, m: ChannelMessage)
    requires Sendable(s, m)
    ensures m.channel < U64_LIMIT
  {
  }

  lemma Joins(a: seq<byte>, b: seq<byte>, c: seq<byte>, d: seq<byte>)
    ensures a + (b + (c + d)) == (a + (b + c)) + d
  {
  }

  //
  // Refusals
  //

  /** Buffers that no decoder accepts, with the error each gives. */
  lemma Refusals(s: Schema, v: Variant, b: seq<byte>)
    ensures |b| == 1 ==> DecodeAll(s, v, b) == Failure(TooShort)
    ensures |b| >= 3 && b[0] == 0 && b[1] !in {0, 1, 3} ==> DecodeAll(s, v, b) == Failure(InvalidSpecial)
    ensures 3 <= |b| <= 7 && b[0] == 0 && b[1] == 1 ==> DecodeAll(s, v, b) == Failure(TooShort)
    ensures |b| >= 2 && 0 < b[0] < 0xfd && 10 <= b[1] < 0xfd ==> DecodeAll(s, v, b) == Failure(InvalidType)
  {
    hide DecodeBatch;
    if |b| >= 2 && 0 < b[0] < 0xfd && 10 <= b[1] < 0xfd {
      assert DecodeU64(b) == Ok(b[0], b[1..]);
    }
  }
}
