/**
 The compact encoding the wire format is built from: a one/three/five/nine byte variable-length
 unsigned integer, length-prefixed byte strings, text and arrays of 32-bit words.

 A decoder reads from the front of a buffer and returns the value with the unread rest.
 */
module Compact {
  const U64_LIMIT: nat := 0x1_0000_0000_0000_0000

  type byte = x: int | 0 <= x < 256
  type u32 = x: nat | x < 0x1_0000_0000
  type u64 = x: nat | x < U64_LIMIT

  /** A byte vector whose length is a machine word. */
  type Bytes = b: seq<byte> | |b| < U64_LIMIT
  type Words = w: seq<u32> | |w| < U64_LIMIT

  datatype Error =
    | OutOfBounds      // the buffer ends inside a value
    | InvalidUtf8
    | InvalidType      // unknown message type
    | InvalidLength    // a length prefix beyond the buffer
    | InvalidSpecial   // unknown special frame
    | TooShort         // a frame or a message shorter than its minimum

  /** What a decoder returns: a value and the rest of the buffer, or an error. */
  datatype Decoded<+T> = Ok(value: T, rest: seq<byte>) | Err(error: Error) {
    predicate IsFailure() { Err? }

    function PropagateFailure<U>(): Decoded<U>
      requires Err?
    {
      Err(error)
    }

    function Extract(): (T, seq<byte>)
      requires Ok?
    {
      (value, rest)
    }
  }

  //
  // Little-endian integers
  //

  function Pow256(n: nat): (p: nat)
    ensures p >= 1
  {
    if n == 0 then 1 else 256 * Pow256(n - 1)
  }

  function ToLittleEndian(v: nat, n: nat): (b: seq<byte>)
    ensures |b| == n
  {
    if n == 0 then [] else [v % 256] + ToLittleEndian(v / 256, n - 1)
  }

  function FromLittleEndian(b: seq<byte>): (v: nat)
    ensures v < Pow256(|b|)
  {
    if b == [] then 0 else b[0] + 256 * FromLittleEndian(b[1..])
  }

  lemma {:induction false} LittleEndianRoundTrip(v: nat, n: nat)
    requires v < Pow256(n)
    ensures FromLittleEndian(ToLittleEndian(v, n)) == v
  {
    if n == 0 {
    } else {
      LittleEndianRoundTrip(v / 256, n - 1);
      assert ToLittleEndian(v, n)[1..] == ToLittleEndian(v / 256, n - 1);
    }
  }

  lemma Powers()
    ensures Pow256(2) == 0x1_0000
    ensures Pow256(4) == 0x1_0000_0000
    ensures Pow256(8) == U64_LIMIT
  {
    assert Pow256(1) == 256;
    assert Pow256(3) == 256 * Pow256(2);
    assert Pow256(5) == 256 * Pow256(4);
    assert Pow256(6) == 256 * Pow256(5);
    assert Pow256(7) == 256 * Pow256(6);
    assert Pow256(8) == 256 * Pow256(7);
  }

  //
  // Variable-length unsigned integers
  //

  function SizeU64(v: u64): nat {
    if v < 0xfd then 1 else if v <= 0xffff then 3 else if v <= 0xffff_ffff then 5 else 9
  }

  function EncodeU64(v: u64): (b: seq<byte>)
    ensures |b| == SizeU64(v)
  {
    if v < 0xfd then [v]
    else if v <= 0xffff then [0xfd] + ToLittleEndian(v, 2)
    else if v <= 0xffff_ffff then [0xfe] + ToLittleEndian(v, 4)
    else [0xff] + ToLittleEndian(v, 8)
  }

  /** Decodes the `n`-byte integer that follows a tag byte. */
  function DecodeTagged(b: seq<byte>, n: nat): (r: Decoded<u64>)
    requires |b| >= 1 && n <= 8
    ensures r.Ok? ==> |r.rest| < |b|
  {
    if |b| < 1 + n then Err(OutOfBounds)
    else
      var word := b[1..1 + n];
      TaggedFits(word);
      Ok(FromLittleEndian(word), b[1 + n..])
  }

  function DecodeU64(b: seq<byte>): (r: Decoded<u64>)
    ensures r.Ok? ==> |r.rest| < |b|
  {
    if b == [] then Err(OutOfBounds)
    else if b[0] < 0xfd then Ok(b[0], b[1..])
    else DecodeTagged(b, if b[0] == 0xfd then 2 else if b[0] == 0xfe then 4 else 8)
  }

  lemma {:induction false} PowMonotone(m: nat, n: nat)
    requires m <= n
    ensures Pow256(m) <= Pow256(n)
    decreases n - m
  {
    if m == n {
    } else {
      PowMonotone(m + 1, n);
    }
  }

  lemma TaggedFits(word: seq<byte>)
    requires |word| <= 8
    ensures FromLittleEndian(word) < U64_LIMIT
  {
    PowMonotone(|word|, 8);
    Powers();
  }

  lemma TaggedRoundTrip(tag: byte, v: u64, n: nat, tail: seq<byte>)
    requires n <= 8 && v < Pow256(n)
    ensures DecodeTagged([tag] + ToLittleEndian(v, n) + tail, n) == Ok(v, tail)
  {
    var b := [tag] + ToLittleEndian(v, n) + tail;
    assert b[1..1 + n] == ToLittleEndian(v, n);
    assert b[1 + n..] == tail;
    LittleEndianRoundTrip(v, n);
  }

  /** Integers are self-delimiting. */
  lemma U64RoundTrip(v: u64, tail: seq<byte>)
    ensures DecodeU64(EncodeU64(v) + tail) == Ok(v, tail)
  {
    Powers();
    if v < 0xfd {
      assert (EncodeU64(v) + tail)[1..] == tail;
    } else if v <= 0xffff {
      TaggedRoundTrip(0xfd, v, 2, tail);
    } else if v <= 0xffff_ffff {
      TaggedRoundTrip(0xfe, v, 4, tail);
    } else {
      TaggedRoundTrip(0xff, v, 8, tail);
    }
  }

  /** Only zero is written with a leading zero byte; this is what makes the 0x00 markers unambiguous. */
  lemma LeadingByte(v: u64, tail: seq<byte>)
    ensures (EncodeU64(v) + tail)[0] == 0 <==> v == 0
  {
  }

  //
  // Byte strings, text and word arrays
  //

  function SizeBytes(x: Bytes): nat {
    SizeU64(|x|) + |x|
  }

  function EncodeBytes(x: Bytes): (b: seq<byte>)
    ensures |b| == SizeBytes(x)
  {
    EncodeU64(|x|) + x
  }

  function DecodeBytes(b: seq<byte>): (r: Decoded<Bytes>)
    ensures r.Ok? ==> |r.rest| < |b|
  {
    var (len, rest) :- DecodeU64(b);
    if len > |rest| then Err(OutOfBounds) else Ok(rest[..len], rest[len..])
  }

  lemma BytesRoundTrip(x: Bytes, tail: seq<byte>)
    ensures DecodeBytes(EncodeBytes(x) + tail) == Ok(x, tail)
  {
    U64RoundTrip(|x|, x + tail);
    assert EncodeBytes(x) + tail == EncodeU64(|x|) + (x + tail);
    assert (x + tail)[..|x|] == x && (x + tail)[|x|..] == tail;
  }

  /** Text is a byte string that must pass the given UTF-8 check. */
  function DecodeText(utf8: seq<byte> -> bool, b: seq<byte>): (r: Decoded<Bytes>)
    ensures r.Ok? ==> |r.rest| < |b|
  {
    var (x, rest) :- DecodeBytes(b);
    if utf8(x) then Ok(x, rest) else Err(InvalidUtf8)
  }

  function EncodeWordArray(w: seq<u32>): (b: seq<byte>)
    ensures |b| == 4 * |w|
  {
    if w == [] then [] else ToLittleEndian(w[0], 4) + EncodeWordArray(w[1..])
  }

  function DecodeWordArray(n: nat, b: seq<byte>): (r: Decoded<seq<u32>>)
    ensures r.Ok? ==> |r.value| == n && |r.rest| <= |b|
  {
    if n == 0 then Ok([], b)
    else if |b| < 4 then Err(OutOfBounds)
    else
      Powers();
      var word := FromLittleEndian(b[..4]);
      var (words, rest) :- DecodeWordArray(n - 1, b[4..]);
      Ok([word] + words, rest)
  }

  lemma {:induction false} WordArrayRoundTrip(w: seq<u32>, tail: seq<byte>)
    ensures DecodeWordArray(|w|, EncodeWordArray(w) + tail) == Ok(w, tail)
  {
    if w == [] {
      assert EncodeWordArray(w) + tail == tail;
    } else {
      Powers();
      LittleEndianRoundTrip(w[0], 4);
      hide ToLittleEndian, FromLittleEndian, Pow256;
      WordArrayRoundTrip(w[1..], tail);
      var word, later := ToLittleEndian(w[0], 4), EncodeWordArray(w[1..]);
      var b := (word + later) + tail;
      assert b[..4] == word;
      assert b[4..] == later + tail;
      assert [w[0]] + w[1..] == w;
    }
  }

  function SizeWords(w: Words): nat {
    SizeU64(|w|) + 4 * |w|
  }

  function EncodeWords(w: Words): (b: seq<byte>)
    ensures |b| == SizeWords(w)
  {
    EncodeU64(|w|) + EncodeWordArray(w)
  }

  function DecodeWords(b: seq<byte>): (r: Decoded<Words>)
    ensures r.Ok? ==> |r.rest| < |b|
  {
    var (n, rest) :- DecodeU64(b);
    var (words, rest') :- DecodeWordArray(n, rest);
    Ok(words, rest')
  }

  lemma WordsRoundTrip(w: Words, tail: seq<byte>)
    ensures DecodeWords(EncodeWords(w) + tail) == Ok(w, tail)
  {
    hide EncodeU64, DecodeU64, EncodeWordArray, DecodeWordArray;
    var words := EncodeWordArray(w);
    U64RoundTrip(|w|, words + tail);
    WordArrayRoundTrip(w, tail);
    assert (EncodeU64(|w|) + words) + tail == EncodeU64(|w|) + (words + tail);
  }

  //
  // Flag bytes
  //

  function Pow2(n: nat): (p: nat)
    ensures p >= 1
  {
    if n == 0 then 1 else 2 * Pow2(n - 1)
  }

  /** The flag byte with bit `k` set exactly when `bits[k]` holds. */
  function Flags(bits: seq<bool>): (f: nat)
    ensures f < Pow2(|bits|)
  {
    if bits == [] then 0 else (if bits[0] then 1 else 0) + 2 * Flags(bits[1..])
  }

  /** Whether bit `k` of `flags` is set. */
  predicate Bit(flags: nat, k: nat) {
    if k == 0 then flags % 2 == 1 else Bit(flags / 2, k - 1)
  }

  lemma {:induction false} FlagsRoundTrip(bits: seq<bool>, k: nat)
    requires k < |bits|
    ensures Bit(Flags(bits), k) == bits[k]
  {
    if k == 0 {
    } else {
      FlagsRoundTrip(bits[1..], k - 1);
      assert Flags(bits) / 2 == Flags(bits[1..]);
    }
  }

  /** The six flags of the widest message fit a byte. */
  lemma FlagsFit(bits: seq<bool>)
    requires |bits| <= 6
    ensures Flags(bits) < 64
  {
    assert Pow2(6) == 4 * Pow2(4) == 16 * Pow2(2) == 64;
    assert Pow2(5) == 4 * Pow2(3);
  }
}
