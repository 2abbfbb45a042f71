/** Protocol messages and messages on a channel: wire types, sizes, encoders and decoders. */
module Messages {
  import opened Compact
  import W = WireSchema

  type Schema = W.Schema

  datatype Message =
    | Open(open: W.Open)
    | Close(close: W.Close)
    | Synchronize(synchronize: W.Synchronize)
    | Request(request: W.Request)
    | Cancel(cancelled: u64)
    | Data(data: W.Data)
    | NoData(refused: u64)
    | Want(start: u64, length: u64)
    | Unwant(start: u64, length: u64)
    | Bitfield(bitfield: W.Bitfield)
    | Range(range: W.Range)
    | Extension(extension: W.Extension)
    | LocalSignal(name: seq<byte>, payload: seq<byte>)  // never sent over the wire
  {
    /** Open and Close manage channels and travel in frames of their own. */
    predicate IsControl() { Open? || Close? }

    /** The messages a channel exists to carry. */
    predicate IsOrdinary() { !IsControl() && !LocalSignal? }
  }

  datatype ChannelMessage = ChannelMessage(channel: nat, message: Message)

  /** The wire type of an ordinary message. */
  function TypeOf(m: Message): (t: u64)
    requires m.IsOrdinary()
    ensures t < 10
  {
    match m
    case Synchronize(_) => 0
    case Request(_) => 1
    case Cancel(_) => 2
    case Data(_) => 3
    case NoData(_) => 4
    case Want(_, _) => 5
    case Unwant(_, _) => 6
    case Bitfield(_) => 7
    case Range(_) => 8
    case Extension(_) => 9
  }

  /** What encoding relies on: no local signal, and control messages whose fields fit their fields on the wire. */
  predicate Encodable(m: Message) {
    && !m.LocalSignal?
    && (m.Open? ==> W.OpenEncodable(m.open))
    && (m.Close? ==> m.close.channel < U64_LIMIT)
  }

  function SizeBody(s: Schema, m: Message): nat
    requires Encodable(m)
  {
    match m
    case Open(x) => W.SizeOpen(x)
    case Close(x) => SizeU64(x.channel)
    case Synchronize(x) => W.SizeSynchronize(x)
    case Request(x) => W.SizeRequest(s, x)
    case Cancel(x) => SizeU64(x)
    case Data(x) => W.SizeData(s, x)
    case NoData(x) => SizeU64(x)
    case Want(start, length) => SizeU64(start) + SizeU64(length)
    case Unwant(start, length) => SizeU64(start) + SizeU64(length)
    case Bitfield(x) => SizeU64(x.start) + SizeWords(x.bitfield)
    case Range(x) => W.SizeRange(x)
    case Extension(x) => SizeBytes(x.name) + SizeBytes(x.message)
  }

  function SizeMessage(s: Schema, m: Message): nat
    requires Encodable(m)
  {
    (if m.IsControl() then 0 else SizeU64(TypeOf(m))) + SizeBody(s, m)
  }

  function EncodeBody(s: Schema, m: Message): seq<byte>
    requires Encodable(m)
  {
    match m
    case Open(x) => W.EncodeOpen(x)
    case Close(x) => EncodeU64(x.channel)
    case Synchronize(x) => W.EncodeSynchronize(x)
    case Request(x) => W.EncodeRequest(s, x)
    case Cancel(x) => EncodeU64(x)
    case Data(x) => W.EncodeData(s, x)
    case NoData(x) => EncodeU64(x)
    case Want(start, length) => W.EncodePair(start, length)
    case Unwant(start, length) => W.EncodePair(start, length)
    case Bitfield(x) => W.EncodeBitfield(x)
    case Range(x) => W.EncodeRange(x)
    case Extension(x) => W.EncodeExtension(x)
  }

  /** The body, preceded by the wire type unless the message is an Open or a Close. */
  function EncodeMessage(s: Schema, m: Message): seq<byte>
    requires Encodable(m)
  {
    (if m.IsControl() then [] else EncodeU64(TypeOf(m))) + EncodeBody(s, m)
  }

  function DecodeBody(s: Schema, t: u64, b: seq<byte>): (r: Decoded<Message>)
    ensures r.Ok? ==> |r.rest| < |b| && r.value.IsOrdinary()
  {
    match t
    case 0 =>
      var (x, rest) :- W.DecodeSynchronize(b);
      Ok(Synchronize(x), rest)
    case 1 =>
      var (x, rest) :- W.DecodeRequest(s, b);
      Ok(Request(x), rest)
    case 2 =>
      var (x, rest) :- DecodeU64(b);
      Ok(Cancel(x), rest)
    case 3 =>
      var (x, rest) :- W.DecodeData(s, b);
      Ok(Data(x), rest)
    case 4 =>
      var (x, rest) :- DecodeU64(b);
      Ok(NoData(x), rest)
    case 5 =>
      var ((start, length), rest) :- W.DecodePair(b);
      Ok(Want(start, length), rest)
    case 6 =>
      var ((start, length), rest) :- W.DecodePair(b);
      Ok(Unwant(start, length), rest)
    case 7 =>
      var (x, rest) :- W.DecodeBitfield(b);
      Ok(Bitfield(x), rest)
    case 8 =>
      var (x, rest) :- W.DecodeRange(b);
      Ok(Range(x), rest)
    case 9 =>
      var (x, rest) :- W.DecodeExtension(s, b);
      Ok(Extension(x), rest)
    case _ => Err(InvalidType)
  }

  function DecodeMessage(s: Schema, b: seq<byte>): (r: Decoded<Message>)
    ensures r.Ok? ==> |r.rest| < |b| && r.value.IsOrdinary()
  {
    var (t, rest) :- DecodeU64(b);
    DecodeBody(s, t, rest)
  }

  /** Rust strings are valid UTF-8 by type; here it is a condition on the message. */
  predicate TextValid(s: Schema, m: Message) {
    && (m.Extension? ==> s.utf8(m.extension.name))
    && (m.Open? ==> s.utf8(m.open.protocol))
  }

  /** The messages built from foreign records. */
  lemma RecordBodyRoundTrip(s: Schema, m: Message, tail: seq<byte>)
    requires s.Valid() && (m.Request? || m.Data?)
    ensures DecodeBody(s, TypeOf(m), EncodeBody(s, m) + tail) == Ok(m, tail)
  {
    if m.Request? {
      W.RequestRoundTrip(s, m.request, tail);
    } else {
      W.DataRoundTrip(s, m.data, tail);
    }
  }

  /** The messages that are one or two integers. */
  lemma IntegerBodyRoundTrip(s: Schema, m: Message, tail: seq<byte>)
    requires m.Cancel? || m.NoData? || m.Want? || m.Unwant?
    ensures DecodeBody(s, TypeOf(m), EncodeBody(s, m) + tail) == Ok(m, tail)
  {
    match m
    case Cancel(x) => U64RoundTrip(x, tail);
    case NoData(x) => U64RoundTrip(x, tail);
    case Want(start, length) => W.PairRoundTrip(start, length, tail);
    case Unwant(start, length) => W.PairRoundTrip(start, length, tail);
  }

  lemma FlaggedBodyRoundTrip(s: Schema, m: Message, tail: seq<byte>)
    requires m.Synchronize? || m.Range?
    ensures DecodeBody(s, TypeOf(m), EncodeBody(s, m) + tail) == Ok(m, tail)
  {
    if m.Synchronize? {
      W.SynchronizeRoundTrip(m.synchronize, tail);
    } else {
      W.RangeRoundTrip(m.range, tail);
    }
  }

  lemma BitfieldBodyRoundTrip(s: Schema, x: W.Bitfield, tail: seq<byte>)
    ensures DecodeBody(s, 7, EncodeBody(s, Bitfield(x)) + tail) == Ok(Bitfield(x), tail)
  {
    W.BitfieldRoundTrip(x, tail);
  }

  lemma ExtensionBodyRoundTrip(s: Schema, x: W.Extension, tail: seq<byte>)
    requires s.utf8(x.name)
    ensures DecodeBody(s, 9, EncodeBody(s, Extension(x)) + tail) == Ok(Extension(x), tail)
  {
    W.ExtensionRoundTrip(s, x, tail);
  }

  /** Every ordinary message is self-delimiting: decoding stops exactly where its encoding ends. */
  lemma MessageRoundTrip(s: Schema, m: Message, tail: seq<byte>)
    requires s.Valid() && m.IsOrdinary() && TextValid(s, m)
    ensures DecodeMessage(s, EncodeMessage(s, m) + tail) == Ok(m, tail)
  {
    W.Reassociate(EncodeU64(TypeOf(m)), EncodeBody(s, m), tail);
    U64RoundTrip(TypeOf(m), EncodeBody(s, m) + tail);
    if m.Request? || m.Data? {
      RecordBodyRoundTrip(s, m, tail);
    } else if m.Synchronize? || m.Range? {
      FlaggedBodyRoundTrip(s, m, tail);
    } else if m.Bitfield? {
      BitfieldBodyRoundTrip(s, m.bitfield, tail);
    } else if m.Extension? {
      ExtensionBodyRoundTrip(s, m.extension, tail);
    } else {
      IntegerBodyRoundTrip(s, m, tail);
    }
  }

  /** The announced size is the number of bytes written, and an ordinary message has at least two. */
  lemma MessageSize(s: Schema, m: Message)
    requires s.Valid() && Encodable(m)
    ensures |EncodeMessage(s, m)| == SizeMessage(s, m)
    ensures m.IsOrdinary() ==> SizeMessage(s, m) >= 2
  {
    match m
    case Request(x) => W.RequestSize(s, x);
    case Data(x) => W.DataSize(s, x);
    case _ =>
  }
}
