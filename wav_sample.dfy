/** The sample encodings a decoder can be instantiated with (the `WavSample`
    impls for `u8`, `i16` and `f32`) and the decoding of raw sample bytes. */
module WavSample {
  import opened Binary
  import opened Outcomes
  import opened Reader

  /** The statically chosen target encoding: 8-bit unsigned PCM, 16-bit
      signed PCM, or 32-bit IEEE float. */
  datatype Encoding = U8 | I16 | F32 {

    /** `FORMAT`: the RIFF audio-format code, 1 for integer PCM, 3 for IEEE float. */
    function Format(): (code: u16)
      ensures code == 1 || code == 3
      ensures code == 3 <==> this == F32
    {
      if this == F32 then 3 else 1
    }

    /** `BITS`: the bits per sample the `fmt ` chunk must declare. */
    function Bits(): (bits: u16)
      ensures bits == 8 || bits == 16 || bits == 32
    {
      match this
      case U8 => 8
      case I16 => 16
      case F32 => 32
    }

    /** `BYTES = BITS / 8`: how many bytes one sample occupies. */
    function Bytes(): (n: nat)
      ensures 8 * n == Bits()
      ensures 1 <= n <= 4
    {
      Bits() / 8
    }
  }

  /** A decoded sample: a 16-bit integer for both PCM encodings, or the
      32-bit IEEE pattern of a float. The floating-point value itself is not
      interpreted. */
  datatype Sample = Int(value: i16) | Float(bits: u32)

  /** The 8-bit decode `(b as i16 - 128) * 256`: the unsigned byte is
      re-centred on zero and scaled into the 16-bit range. */
  function WidenU8(b: Byte): (r: i16)
    ensures r % 0x100 == 0 && r / 0x100 + 0x80 == b
    ensures -0x8000 <= r <= 0x7F00
    ensures r == 0 <==> b == 0x80
  {
    (b - 0x80) * 0x100
  }

  /** `i16::from_le_bytes`: the two's-complement reading of two bytes, that is
      the one 16-bit signed value congruent to their unsigned value modulo 2^16. */
  function I16FromLe(raw: seq<Byte>): (r: i16)
    requires |raw| == 2
    ensures (r - Le16(raw)) % 0x1_0000 == 0
    ensures r < 0 <==> raw[1] >= 0x80
  {
    var u := Le16(raw);
    if u < 0x8000 then u else u - 0x1_0000
  }

  /** `i16::to_le_bytes`, the inverse of `I16FromLe`. */
  function I16Le(v: i16): (raw: seq<Byte>)
    ensures |raw| == 2 && I16FromLe(raw) == v
  {
    U16Le(if v < 0 then v + 0x1_0000 else v)
  }

  /** One sample from exactly `Bytes()` raw bytes, as the encoding's `next`
      maps them. */
  function DecodeSample(enc: Encoding, raw: seq<Byte>): (s: Sample)
    requires |raw| == enc.Bytes()
    ensures s.Float? <==> enc == F32
  {
    match enc
    case U8 => Int(WidenU8(raw[0]))
    case I16 => Int(I16FromLe(raw))
    case F32 => Float(Le32(raw))
  }

  /** The samples that repeated reads take from `rest`: every whole sample in
      order; a trailing partial sample is dropped. */
  function Samples(enc: Encoding, rest: seq<Byte>): (r: seq<Sample>)
    decreases |rest|
    ensures |r| == |rest| / enc.Bytes()
  {
    if |rest| < enc.Bytes() then []
    else [DecodeSample(enc, rest[..enc.Bytes()])] + Samples(enc, rest[enc.Bytes()..])
  }

  /** Sample `k` is decoded from bytes `k * Bytes()` up to `(k + 1) * Bytes()`. */
  lemma SampleAt(enc: Encoding, rest: seq<Byte>, k: nat)
    requires k < |rest| / enc.Bytes()
    ensures (k + 1) * enc.Bytes() <= |rest|
    ensures Samples(enc, rest)[k] == DecodeSample(enc, rest[k * enc.Bytes()..(k + 1) * enc.Bytes()])
  {
    var n := enc.Bytes();
    var off := k * n;
    WidthArith(n, |rest|, k);
    var prefix, suffix := rest[..off], rest[off..];
    assert rest == prefix + suffix;
    SamplesAppend(enc, prefix, suffix);
    assert suffix[..n] == rest[off..off + n];
  }

  /** The arithmetic behind `SampleAt`, for a sample width of 1, 2 or 4. */
  lemma WidthArith(n: nat, len: nat, k: nat)
    requires n == 1 || n == 2 || n == 4
    requires k < len / n
    ensures k * n + n == (k + 1) * n <= len
    ensures (k * n) % n == 0 && (k * n) / n == k
  {
  }

  /** Decoding is chunk-wise: bytes split at a sample boundary decode to the
      concatenation of the two parts' samples. */
  lemma {:induction false} SamplesAppend(enc: Encoding, whole: seq<Byte>, more: seq<Byte>)
    requires |whole| % enc.Bytes() == 0
    ensures Samples(enc, whole + more) == Samples(enc, whole) + Samples(enc, more)
    decreases |whole|
  {
    var n := enc.Bytes();
    if |whole| == 0 {
      assert whole + more == more;
    } else {
      ModStep(n, |whole|);
      assert (whole + more)[..n] == whole[..n];
      assert (whole + more)[n..] == whole[n..] + more;
      SamplesAppend(enc, whole[n..], more);
    }
  }

  /** Removing one sample from a whole number of samples leaves a whole number. */
  lemma ModStep(n: nat, len: nat)
    requires n == 1 || n == 2 || n == 4
    requires 0 < len && len % n == 0
    ensures n <= len && (len - n) % n == 0
  {
  }

  /** A stream that ends in the middle of a sample yields the whole samples
      before it and nothing for the partial one. */
  lemma PartialSampleDropped(enc: Encoding, whole: seq<Byte>, tail: seq<Byte>)
    requires |whole| % enc.Bytes() == 0 && |tail| < enc.Bytes()
    ensures Samples(enc, whole + tail) == Samples(enc, whole)
  {
    SamplesAppend(enc, whole, tail);
  }

  /** The header check identifies the encoding: no two encodings share both
      their format code and their bit depth. */
  lemma EncodingDetermined(e1: Encoding, e2: Encoding)
    requires e1.Format() == e2.Format() && e1.Bits() == e2.Bits()
    ensures e1 == e2
  {
  }

  /** `WavSample::next`: read exactly one sample's bytes and decode them, or
      yield `None` on a short read. */
  method ReadSample(enc: Encoding, reader: ByteReader) returns (r: Option<Sample>)
    requires reader.Valid()
    modifies reader
    ensures reader.Valid()
    ensures r.Some? <==> enc.Bytes() <= |old(reader.Unread())|
    ensures r.Some? ==> reader.pos == old(reader.pos) + enc.Bytes()
    ensures r.None? ==> reader.Unread() == []
    ensures Samples(enc, old(reader.Unread())) ==
            if r.Some? then [r.value] + Samples(enc, reader.Unread()) else []
  {
    ghost var before := reader.Unread();
    var buf := reader.ReadExact(enc.Bytes());
    if buf.None? {
      return None;
    }
    assert buf.value == before[..enc.Bytes()];
    assert reader.Unread() == before[enc.Bytes()..];
    r := Some(DecodeSample(enc, buf.value));
  }
}
