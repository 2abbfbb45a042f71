/**
 The records carried by the protocol's messages: their encoded sizes, encoders and decoders.

 The records of the `hypercore_schema` crate (block, hash, seek and upgrade parts of requests and
 responses) are foreign: a `Schema` supplies a codec for each, about which nothing is known except,
 where a theorem says so, that it is sound.
 */
module WireSchema {
  import opened Wrappers
  import opened Compact

  //
  // Foreign records
  //

  datatype RequestBlock = RequestBlock(index: u64, nodes: u64)
  datatype RequestSeek = RequestSeek(bytes: u64)
  datatype RequestUpgrade = RequestUpgrade(start: u64, length: u64)
  datatype Node = Node(index: u64, hash: Bytes, length: u64)
  datatype DataBlock = DataBlock(index: u64, nodes: seq<Node>, value: Bytes)
  datatype DataHash = DataHash(index: u64, nodes: seq<Node>)
  datatype DataSeek = DataSeek(bytes: u64, nodes: seq<Node>)
  datatype DataUpgrade = DataUpgrade(
    start: u64, length: u64, nodes: seq<Node>, additionalNodes: seq<Node>, signature: Bytes)

  /** A foreign codec. `decode` returns the value and the number of bytes it used. */
  datatype Codec<!T> = Codec(
    size: T -> nat,
    encode: T -> seq<byte>,
    decode: seq<byte> -> Option<(T, nat)>)
  {
    /** Decoding hands back a sub-slice of its input, so it can never use more than there is. */
    function Decode(b: seq<byte>): (r: Decoded<T>)
      ensures r.Ok? ==> |r.rest| <= |b|
    {
      match decode(b)
      case None => Err(OutOfBounds)
      case Some((x, used)) => if used <= |b| then Ok(x, b[used..]) else Err(OutOfBounds)
    }
  }

  /** A codec is sound when it is self-delimiting and its announced sizes are right. */
  ghost predicate Sound<T(!new)>(c: Codec<T>) {
    && (forall x, tail: seq<byte> {:trigger c.Decode(c.encode(x) + tail)} :: c.Decode(c.encode(x) + tail) == Ok(x, tail))
    && (forall x :: c.size(x) == |c.encode(x)|)
  }

  datatype Schema = Schema(
    utf8: seq<byte> -> bool,
    requestBlock: Codec<RequestBlock>,
    requestSeek: Codec<RequestSeek>,
    requestUpgrade: Codec<RequestUpgrade>,
    dataBlock: Codec<DataBlock>,
    dataHash: Codec<DataHash>,
    dataSeek: Codec<DataSeek>,
    dataUpgrade: Codec<DataUpgrade>)
  {
    ghost predicate Valid() {
      && Sound(requestBlock) && Sound(requestSeek) && Sound(requestUpgrade)
      && Sound(dataBlock) && Sound(dataHash) && Sound(dataSeek) && Sound(dataUpgrade)
    }
  }

  function SizeOption<T>(c: Codec<T>, x: Option<T>): nat {
    if x.Some? then c.size(x.value) else 0
  }

  function EncodeOption<T>(c: Codec<T>, x: Option<T>): seq<byte> {
    if x.Some? then c.encode(x.value) else []
  }

  function DecodeOption<T>(c: Codec<T>, present: bool, b: seq<byte>): (r: Decoded<Option<T>>)
    ensures r.Ok? ==> |r.rest| <= |b|
  {
    if present then
      var (x, rest) :- c.Decode(b);
      Ok(Some(x), rest)
    else
      Ok(None, b)
  }

  lemma OptionRoundTrip<T(!new)>(c: Codec<T>, x: Option<T>, tail: seq<byte>)
    requires Sound(c)
    ensures DecodeOption(c, x.Some?, EncodeOption(c, x) + tail) == Ok(x, tail)
    ensures SizeOption(c, x) == |EncodeOption(c, x)|
  {
    if x.None? {
      assert EncodeOption(c, x) + tail == tail;
    }
  }

  /** Re-association used to walk an encoding followed by a tail. */
  lemma Reassociate(a: seq<byte>, b: seq<byte>, tail: seq<byte>)
    ensures (a + b) + tail == a + (b + tail)
  {
  }

  /** Reads one byte. */
  function DecodeByte(b: seq<byte>): (r: Decoded<byte>)
    ensures r.Ok? ==> |r.rest| < |b|
  {
    if b == [] then Err(OutOfBounds) else Ok(b[0], b[1..])
  }

  //
  // Pairs of integers, the shape of several records
  //

  function EncodePair(x: u64, y: u64): (b: seq<byte>)
    ensures |b| == SizeU64(x) + SizeU64(y)
  {
    EncodeU64(x) + EncodeU64(y)
  }

  function DecodePair(b: seq<byte>): (r: Decoded<(u64, u64)>)
    ensures r.Ok? ==> |r.rest| < |b|
  {
    var (x, rest) :- DecodeU64(b);
    var (y, rest) :- DecodeU64(rest);
    Ok((x, y), rest)
  }

  lemma PairRoundTrip(x: u64, y: u64, tail: seq<byte>)
    ensures DecodePair(EncodePair(x, y) + tail) == Ok((x, y), tail)
  {
    Reassociate(EncodeU64(x), EncodeU64(y), tail);
    U64RoundTrip(x, EncodeU64(y) + tail);
    U64RoundTrip(y, tail);
  }

  //
  // Open and Close
  //

  datatype Open = Open(channel: nat, protocol: Bytes, discoveryKey: Bytes, capability: Option<Bytes>)
  datatype Close = Close(channel: nat)

  /** What the encoder relies on: the channel is a 64-bit integer and a capability has 32 bytes. */
  predicate OpenEncodable(o: Open) {
    o.channel < U64_LIMIT && (o.capability.Some? ==> |o.capability.value| == 32)
  }

  function SizeOpen(o: Open): nat
    requires o.channel < U64_LIMIT
  {
    SizeU64(o.channel) + SizeBytes(o.protocol) + SizeBytes(o.discoveryKey)
    + if o.capability.Some? then 1 + 32 else 0
  }

  function EncodeCapability(c: Option<Bytes>): seq<byte> {
    if c.Some? then [0] + c.value else []
  }

  function EncodeOpen(o: Open): seq<byte>
    requires o.channel < U64_LIMIT
  {
    EncodeU64(o.channel) + (EncodeBytes(o.protocol) + (EncodeBytes(o.discoveryKey) + EncodeCapability(o.capability)))
  }

  /** Whatever follows the discovery key is read as a flag byte and a 32-byte capability. */
  function DecodeCapability(b: seq<byte>): (r: Decoded<Option<Bytes>>)
    ensures r.Ok? ==> |r.rest| <= |b|
  {
    if b == [] then Ok(None, b)
    else if |b| < 33 then Err(OutOfBounds)
    else Ok(Some(b[1..33]), b[33..])
  }

  function DecodeOpen(s: Schema, b: seq<byte>): (r: Decoded<Open>)
    ensures r.Ok? ==> |r.rest| < |b|
  {
    var (channel, rest) :- DecodeU64(b);
    var (protocol, rest) :- DecodeText(s.utf8, rest);
    var (discoveryKey, rest) :- DecodeBytes(rest);
    var (capability, rest) :- DecodeCapability(rest);
    Ok(Open(channel, protocol, discoveryKey, capability), rest)
  }

  /** An Open with a capability is self-delimiting; one without must end the buffer. */
  lemma OpenRoundTrip(s: Schema, o: Open, tail: seq<byte>)
    requires OpenEncodable(o) && s.utf8(o.protocol)
    requires o.capability.Some? || tail == []
    ensures DecodeOpen(s, EncodeOpen(o) + tail) == Ok(o, tail)
  {
    var e3 := EncodeCapability(o.capability);
    var e2 := EncodeBytes(o.discoveryKey) + e3;
    var e1 := EncodeBytes(o.protocol) + e2;
    Reassociate(EncodeU64(o.channel), e1, tail);
    Reassociate(EncodeBytes(o.protocol), e2, tail);
    Reassociate(EncodeBytes(o.discoveryKey), e3, tail);
    U64RoundTrip(o.channel, e1 + tail);
    BytesRoundTrip(o.protocol, e2 + tail);
    BytesRoundTrip(o.discoveryKey, e3 + tail);
    CapabilityRoundTrip(o.capability, tail);
  }

  lemma CapabilityRoundTrip(c: Option<Bytes>, tail: seq<byte>)
    requires c.Some? ==> |c.value| == 32
    requires c.Some? || tail == []
    ensures DecodeCapability(EncodeCapability(c) + tail) == Ok(c, tail)
  {
    if c.Some? {
      var b := EncodeCapability(c) + tail;
      assert b[1..33] == c.value && b[33..] == tail;
    }
  }

  function DecodeClose(b: seq<byte>): (r: Decoded<Close>)
    ensures r.Ok? ==> |r.rest| < |b|
  {
    var (channel, rest) :- DecodeU64(b);
    Ok(Close(channel), rest)
  }

  //
  // Synchronize
  //

  datatype Synchronize = Synchronize(
    fork: u64, length: u64, remoteLength: u64, downloading: bool, uploading: bool, canUpgrade: bool)

  function SizeSynchronize(x: Synchronize): nat {
    1 + SizeU64(x.fork) + SizeU64(x.length) + SizeU64(x.remoteLength)
  }

  function EncodeSynchronize(x: Synchronize): (b: seq<byte>)
    ensures |b| == SizeSynchronize(x)
  {
    var bits := [x.canUpgrade, x.uploading, x.downloading];
    FlagsFit(bits);
    [Flags(bits)] + (EncodeU64(x.fork) + EncodePair(x.length, x.remoteLength))
  }

  function DecodeSynchronize(b: seq<byte>): (r: Decoded<Synchronize>)
    ensures r.Ok? ==> |r.rest| < |b|
  {
    var (flags, rest) :- DecodeByte(b);
    var (fork, rest) :- DecodeU64(rest);
    var ((length, remoteLength), rest) :- DecodePair(rest);
    Ok(Synchronize(fork, length, remoteLength, Bit(flags, 2), Bit(flags, 1), Bit(flags, 0)), rest)
  }

  lemma SynchronizeRoundTrip(x: Synchronize, tail: seq<byte>)
    ensures DecodeSynchronize(EncodeSynchronize(x) + tail) == Ok(x, tail)
  {
    var bits := [x.canUpgrade, x.uploading, x.downloading];
    FlagsFit(bits);
    var e := EncodeU64(x.fork) + EncodePair(x.length, x.remoteLength);
    Reassociate([Flags(bits)], e, tail);
    Reassociate(EncodeU64(x.fork), EncodePair(x.length, x.remoteLength), tail);
    U64RoundTrip(x.fork, EncodePair(x.length, x.remoteLength) + tail);
    PairRoundTrip(x.length, x.remoteLength, tail);
    forall k: nat | k < 3 ensures Bit(Flags(bits), k) == bits[k] { FlagsRoundTrip(bits, k); }
    assert ([Flags(bits)] + (e + tail))[1..] == e + tail;
  }

  //
  // Request
  //

  datatype Request = Request(
    id: u64, fork: u64,
    block: Option<RequestBlock>, hash: Option<RequestBlock>,
    seek: Option<RequestSeek>, upgrade: Option<RequestUpgrade>,
    manifest: bool, priority: u64)

  function SizeRequest(s: Schema, x: Request): nat {
    1 + SizeU64(x.id) + SizeU64(x.fork)
    + SizeOption(s.requestBlock, x.block) + SizeOption(s.requestBlock, x.hash)
    + SizeOption(s.requestSeek, x.seek) + SizeOption(s.requestUpgrade, x.upgrade)
    + if x.priority != 0 then SizeU64(x.priority) else 0
  }

  function RequestBits(x: Request): seq<bool> {
    [x.block.Some?, x.hash.Some?, x.seek.Some?, x.upgrade.Some?, x.manifest, x.priority != 0]
  }

  /** A zero priority is not written. */
  function EncodePriority(priority: u64): seq<byte> {
    if priority != 0 then EncodeU64(priority) else []
  }

  /** The optional records of a request. */
  function EncodeRequestRecords(s: Schema, x: Request): seq<byte> {
    EncodeOption(s.requestBlock, x.block) + (EncodeOption(s.requestBlock, x.hash)
    + (EncodeOption(s.requestSeek, x.seek) + EncodeOption(s.requestUpgrade, x.upgrade)))
  }

  /** Everything after the flag byte and the two integers. */
  function EncodeRequestParts(s: Schema, x: Request): seq<byte> {
    EncodeRequestRecords(s, x) + EncodePriority(x.priority)
  }

  function EncodeRequest(s: Schema, x: Request): seq<byte> {
    FlagsFit(RequestBits(x));
    [Flags(RequestBits(x))] + (EncodePair(x.id, x.fork) + EncodeRequestParts(s, x))
  }

  function DecodeRequestRecords(s: Schema, flags: byte, id: u64, fork: u64, b: seq<byte>): (r: Decoded<Request>)
    ensures r.Ok? ==> |r.rest| <= |b|
  {
    var (block, rest) :- DecodeOption(s.requestBlock, Bit(flags, 0), b);
    var (hash, rest) :- DecodeOption(s.requestBlock, Bit(flags, 1), rest);
    var (seek, rest) :- DecodeOption(s.requestSeek, Bit(flags, 2), rest);
    var (upgrade, rest) :- DecodeOption(s.requestUpgrade, Bit(flags, 3), rest);
    Ok(Request(id, fork, block, hash, seek, upgrade, Bit(flags, 4), 0), rest)
  }

  function DecodeRequestParts(s: Schema, flags: byte, id: u64, fork: u64, b: seq<byte>): (r: Decoded<Request>)
    ensures r.Ok? ==> |r.rest| <= |b|
  {
    var (x, rest) :- DecodeRequestRecords(s, flags, id, fork, b);
    if Bit(flags, 5) then
      var (priority, rest) :- DecodeU64(rest);
      Ok(x.(priority := priority), rest)
    else
      Ok(x, rest)
  }

  function DecodeRequest(s: Schema, b: seq<byte>): (r: Decoded<Request>)
    ensures r.Ok? ==> |r.rest| < |b|
  {
    var (flags, rest) :- DecodeByte(b);
    var ((id, fork), rest) :- DecodePair(rest);
    DecodeRequestParts(s, flags, id, fork, rest)
  }

  lemma RequestRecordsRoundTrip(s: Schema, x: Request, flags: byte, tail: seq<byte>)
    requires s.Valid()
    requires forall k: nat | k < 5 :: Bit(flags, k) == RequestBits(x)[k]
    ensures DecodeRequestRecords(s, flags, x.id, x.fork, EncodeRequestRecords(s, x) + tail)
         == Ok(x.(priority := 0), tail)
  {
    var e3 := EncodeOption(s.requestUpgrade, x.upgrade);
    var e2 := EncodeOption(s.requestSeek, x.seek) + e3;
    var e1 := EncodeOption(s.requestBlock, x.hash) + e2;
    Reassociate(EncodeOption(s.requestBlock, x.block), e1, tail);
    Reassociate(EncodeOption(s.requestBlock, x.hash), e2, tail);
    Reassociate(EncodeOption(s.requestSeek, x.seek), e3, tail);
    OptionRoundTrip(s.requestBlock, x.block, e1 + tail);
    OptionRoundTrip(s.requestBlock, x.hash, e2 + tail);
    OptionRoundTrip(s.requestSeek, x.seek, e3 + tail);
    OptionRoundTrip(s.requestUpgrade, x.upgrade, tail);
    assert Bit(flags, 0) == x.block.Some? && Bit(flags, 1) == x.hash.Some?;
    assert Bit(flags, 2) == x.seek.Some? && Bit(flags, 3) == x.upgrade.Some?;
    assert Bit(flags, 4) == x.manifest;
  }

  lemma RequestPartsRoundTrip(s: Schema, x: Request, flags: byte, tail: seq<byte>)
    requires s.Valid()
    requires forall k: nat | k < 6 :: Bit(flags, k) == RequestBits(x)[k]
    ensures DecodeRequestParts(s, flags, x.id, x.fork, EncodeRequestParts(s, x) + tail) == Ok(x, tail)
  {
    var last := EncodePriority(x.priority);
    Reassociate(EncodeRequestRecords(s, x), last, tail);
    RequestRecordsRoundTrip(s, x, flags, last + tail);
    assert Bit(flags, 5) == (x.priority != 0);
    if x.priority != 0 {
      U64RoundTrip(x.priority, tail);
    } else {
      assert last + tail == tail;
    }
  }

  /** A request survives the wire whichever of its parts are present, with or without a priority. */
  lemma RequestRoundTrip(s: Schema, x: Request, tail: seq<byte>)
    requires s.Valid()
    ensures DecodeRequest(s, EncodeRequest(s, x) + tail) == Ok(x, tail)
  {
    var bits := RequestBits(x);
    FlagsFit(bits);
    var parts := EncodeRequestParts(s, x);
    var e := EncodePair(x.id, x.fork) + parts;
    Reassociate([Flags(bits)], e, tail);
    Reassociate(EncodePair(x.id, x.fork), parts, tail);
    assert ([Flags(bits)] + (e + tail))[1..] == e + tail;
    PairRoundTrip(x.id, x.fork, parts + tail);
    forall k: nat | k < 6 ensures Bit(Flags(bits), k) == bits[k] { FlagsRoundTrip(bits, k); }
    RequestPartsRoundTrip(s, x, Flags(bits), tail);
  }

  lemma RequestSize(s: Schema, x: Request)
    requires s.Valid()
    ensures |EncodeRequest(s, x)| == SizeRequest(s, x)
  {
    OptionRoundTrip(s.requestBlock, x.block, []);
    OptionRoundTrip(s.requestBlock, x.hash, []);
    OptionRoundTrip(s.requestSeek, x.seek, []);
    OptionRoundTrip(s.requestUpgrade, x.upgrade, []);
  }

  //
  // Data
  //

  datatype Data = Data(
    request: u64, fork: u64,
    block: Option<DataBlock>, hash: Option<DataHash>,
    seek: Option<DataSeek>, upgrade: Option<DataUpgrade>)

  function SizeData(s: Schema, x: Data): nat {
    1 + SizeU64(x.request) + SizeU64(x.fork)
    + SizeOption(s.dataBlock, x.block) + SizeOption(s.dataHash, x.hash)
    + SizeOption(s.dataSeek, x.seek) + SizeOption(s.dataUpgrade, x.upgrade)
  }

  function DataBits(x: Data): seq<bool> {
    [x.block.Some?, x.hash.Some?, x.seek.Some?, x.upgrade.Some?]
  }

  function EncodeDataParts(s: Schema, x: Data): seq<byte> {
    EncodeOption(s.dataBlock, x.block) + (EncodeOption(s.dataHash, x.hash)
    + (EncodeOption(s.dataSeek, x.seek) + EncodeOption(s.dataUpgrade, x.upgrade)))
  }

  function EncodeData(s: Schema, x: Data): seq<byte> {
    FlagsFit(DataBits(x));
    [Flags(DataBits(x))] + (EncodePair(x.request, x.fork) + EncodeDataParts(s, x))
  }

  function DecodeDataParts(s: Schema, flags: byte, request: u64, fork: u64, b: seq<byte>): (r: Decoded<Data>)
    ensures r.Ok? ==> |r.rest| <= |b|
  {
    var (block, rest) :- DecodeOption(s.dataBlock, Bit(flags, 0), b);
    var (hash, rest) :- DecodeOption(s.dataHash, Bit(flags, 1), rest);
    var (seek, rest) :- DecodeOption(s.dataSeek, Bit(flags, 2), rest);
    var (upgrade, rest) :- DecodeOption(s.dataUpgrade, Bit(flags, 3), rest);
    Ok(Data(request, fork, block, hash, seek, upgrade), rest)
  }

  function DecodeData(s: Schema, b: seq<byte>): (r: Decoded<Data>)
    ensures r.Ok? ==> |r.rest| < |b|
  {
    var (flags, rest) :- DecodeByte(b);
    var ((request, fork), rest) :- DecodePair(rest);
    DecodeDataParts(s, flags, request, fork, rest)
  }

  lemma DataPartsRoundTrip(s: Schema, x: Data, flags: byte, tail: seq<byte>)
    requires s.Valid()
    requires forall k: nat | k < 4 :: Bit(flags, k) == DataBits(x)[k]
    ensures DecodeDataParts(s, flags, x.request, x.fork, EncodeDataParts(s, x) + tail) == Ok(x, tail)
  {
    var e3 := EncodeOption(s.dataUpgrade, x.upgrade);
    var e2 := EncodeOption(s.dataSeek, x.seek) + e3;
    var e1 := EncodeOption(s.dataHash, x.hash) + e2;
    Reassociate(EncodeOption(s.dataBlock, x.block), e1, tail);
    Reassociate(EncodeOption(s.dataHash, x.hash), e2, tail);
    Reassociate(EncodeOption(s.dataSeek, x.seek), e3, tail);
    OptionRoundTrip(s.dataBlock, x.block, e1 + tail);
    OptionRoundTrip(s.dataHash, x.hash, e2 + tail);
    OptionRoundTrip(s.dataSeek, x.seek, e3 + tail);
    OptionRoundTrip(s.dataUpgrade, x.upgrade, tail);
    assert Bit(flags, 0) == x.block.Some? && Bit(flags, 1) == x.hash.Some?;
    assert Bit(flags, 2) == x.seek.Some? && Bit(flags, 3) == x.upgrade.Some?;
  }

  lemma DataRoundTrip(s: Schema, x: Data, tail: seq<byte>)
    requires s.Valid()
    ensures DecodeData(s, EncodeData(s, x) + tail) == Ok(x, tail)
  {
    var bits := DataBits(x);
    FlagsFit(bits);
    var parts := EncodeDataParts(s, x);
    var e := EncodePair(x.request, x.fork) + parts;
    Reassociate([Flags(bits)], e, tail);
    Reassociate(EncodePair(x.request, x.fork), parts, tail);
    assert ([Flags(bits)] + (e + tail))[1..] == e + tail;
    PairRoundTrip(x.request, x.fork, parts + tail);
    forall k: nat | k < 4 ensures Bit(Flags(bits), k) == bits[k] { FlagsRoundTrip(bits, k); }
    DataPartsRoundTrip(s, x, Flags(bits), tail);
  }

  lemma DataSize(s: Schema, x: Data)
    requires s.Valid()
    ensures |EncodeData(s, x)| == SizeData(s, x)
  {
    OptionRoundTrip(s.dataBlock, x.block, []);
    OptionRoundTrip(s.dataHash, x.hash, []);
    OptionRoundTrip(s.dataSeek, x.seek, []);
    OptionRoundTrip(s.dataUpgrade, x.upgrade, []);
  }

  //
  // Bitfield, Range, Extension
  //

  datatype Bitfield = Bitfield(start: u64, bitfield: Words)
  datatype Range = Range(drop: bool, start: u64, length: u64)
  datatype Extension = Extension(name: Bytes, message: Bytes)

  function EncodeBitfield(x: Bitfield): (b: seq<byte>)
    ensures |b| == SizeU64(x.start) + SizeWords(x.bitfield)
  {
    EncodeU64(x.start) + EncodeWords(x.bitfield)
  }

  function DecodeBitfield(b: seq<byte>): (r: Decoded<Bitfield>)
    ensures r.Ok? ==> |r.rest| < |b|
  {
    var (start, rest) :- DecodeU64(b);
    var (bitfield, rest) :- DecodeWords(rest);
    Ok(Bitfield(start, bitfield), rest)
  }

  lemma BitfieldRoundTrip(x: Bitfield, tail: seq<byte>)
    ensures DecodeBitfield(EncodeBitfield(x) + tail) == Ok(x, tail)
  {
    Reassociate(EncodeU64(x.start), EncodeWords(x.bitfield), tail);
    U64RoundTrip(x.start, EncodeWords(x.bitfield) + tail);
    WordsRoundTrip(x.bitfield, tail);
  }

  function SizeRange(x: Range): nat {
    1 + SizeU64(x.start) + if x.length != 1 then SizeU64(x.length) else 0
  }

  function EncodeRange(x: Range): (b: seq<byte>)
    ensures |b| == SizeRange(x)
  {
    var bits := [x.drop, x.length == 1];
    FlagsFit(bits);
    [Flags(bits)] + (EncodeU64(x.start) + if x.length != 1 then EncodeU64(x.length) else [])
  }

  function DecodeRange(b: seq<byte>): (r: Decoded<Range>)
    ensures r.Ok? ==> |r.rest| < |b|
  {
    var (flags, rest) :- DecodeByte(b);
    var (start, rest) :- DecodeU64(rest);
    var (length, rest) :- if Bit(flags, 1) then Ok(1, rest) else DecodeU64(rest);
    Ok(Range(Bit(flags, 0), start, length), rest)
  }

  /** A length of one is carried by a flag alone. */
  lemma RangeRoundTrip(x: Range, tail: seq<byte>)
    ensures DecodeRange(EncodeRange(x) + tail) == Ok(x, tail)
  {
    var bits := [x.drop, x.length == 1];
    FlagsFit(bits);
    var last := if x.length != 1 then EncodeU64(x.length) else [];
    var e := EncodeU64(x.start) + last;
    Reassociate([Flags(bits)], e, tail);
    Reassociate(EncodeU64(x.start), last, tail);
    assert ([Flags(bits)] + (e + tail))[1..] == e + tail;
    FlagsRoundTrip(bits, 0);
    FlagsRoundTrip(bits, 1);
    U64RoundTrip(x.start, last + tail);
    if x.length != 1 {
      U64RoundTrip(x.length, tail);
    } else {
      assert last + tail == tail;
    }
  }

  function EncodeExtension(x: Extension): (b: seq<byte>)
    ensures |b| == SizeBytes(x.name) + SizeBytes(x.message)
  {
    EncodeBytes(x.name) + EncodeBytes(x.message)
  }

  function DecodeExtension(s: Schema, b: seq<byte>): (r: Decoded<Extension>)
    ensures r.Ok? ==> |r.rest| < |b|
  {
    var (name, rest) :- DecodeText(s.utf8, b);
    var (message, rest) :- DecodeBytes(rest);
    Ok(Extension(name, message), rest)
  }

  lemma ExtensionRoundTrip(s: Schema, x: Extension, tail: seq<byte>)
    requires s.utf8(x.name)
    ensures DecodeExtension(s, EncodeExtension(x) + tail) == Ok(x, tail)
  {
    Reassociate(EncodeBytes(x.name), EncodeBytes(x.message), tail);
    BytesRoundTrip(x.name, EncodeBytes(x.message) + tail);
    BytesRoundTrip(x.message, tail);
  }
}
