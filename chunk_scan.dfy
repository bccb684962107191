/** The construction-time scan of a RIFF/WAVE container, as pure functions
    over the bytes the source delivers: the 12-byte RIFF header, then chunk
    after chunk until the `data` chunk is reached. Positions are offsets
    into the whole input `s`. */
module ChunkScan {
  import opened Binary
  import opened Outcomes
  import opened WavSample

  /** ASCII "RIFF" */
  const RIFF_TAG: seq<Byte> := [0x52, 0x49, 0x46, 0x46]
  /** ASCII "WAVE" */
  const WAVE_TAG: seq<Byte> := [0x57, 0x41, 0x56, 0x45]
  /** ASCII "fmt " */
  const FMT_TAG: seq<Byte> := [0x66, 0x6D, 0x74, 0x20]
  /** ASCII "data" */
  const DATA_TAG: seq<Byte> := [0x64, 0x61, 0x74, 0x61]

  /** The four bytes of `s` from offset `i` spell `tag`. */
  predicate HasTag(s: seq<Byte>, i: nat, tag: seq<Byte>)
    requires i + 4 <= |s| && |tag| == 4
  {
    s[i] == tag[0] && s[i + 1] == tag[1] && s[i + 2] == tag[2] && s[i + 3] == tag[3]
  }

  /** `HasTag` is the comparison of a four-byte slice with the tag. */
  lemma HasTagSlice(s: seq<Byte>, i: nat, tag: seq<Byte>)
    requires i + 4 <= |s| && |tag| == 4
    ensures HasTag(s, i, tag) <==> s[i..i + 4] == tag
  {
    if HasTag(s, i, tag) {
      assert s[i..i + 4] == tag;
    }
  }

  /** The fields an accepted `fmt ` chunk contributes. */
  datatype FmtInfo = FmtInfo(channels: u16, sampleRate: u32)

  /** A successful scan: the offset of the first sample byte, and the
      channel count and sample rate in force when the `data` chunk was
      reached. */
  datatype Header = Header(dataStart: nat, channels: u16, sampleRate: u32)

  /** What a caller of a successfully opened stream observes. */
  datatype Stream = Stream(channels: u16, sampleRate: u32, samples: seq<Sample>)

  /** RIFF pads every chunk payload to an even length: the least even
      number not below `size`. */
  function PaddedSize(size: u32): (n: nat)
    ensures n % 2 == 0 && size <= n <= size + 1
  {
    if size % 2 == 1 then size + 1 else size
  }

  /** The checks on a `fmt ` chunk, in the source's order: the format code
      (a panic first if the chunk cannot hold it), then the bit depth (a
      panic first if the chunk is shorter than 16 bytes). */
  function ParseFmt(enc: Encoding, chunk: seq<Byte>): (r: Outcome<FmtInfo>)
    ensures r.Ok? ==> |chunk| >= 16
    ensures r.Err? ==> r.error.UnsupportedAudioFormat? || r.error.UnsupportedBitsPerSample?
  {
    if |chunk| < 2 then Abort
    else
      var format := Le16At(chunk, 0);
      if format != enc.Format() then Err(UnsupportedAudioFormat(format))
      else if |chunk| < 16 then Abort
      else
        var bits := Le16At(chunk, 14);
        if bits != enc.Bits() then Err(UnsupportedBitsPerSample(bits))
        else Ok(FmtInfo(Le16At(chunk, 2), Le32At(chunk, 4)))
  }

  /** What one pass of the chunk loop in `StreamingWav::new` ends with: the
      `data` chunk reached, the next chunk header at offset `next` with the
      channel count and sample rate then in force, an error, or a panic. */
  datatype ChunkStep =
    | DataFound
    | NextChunk(next: nat, channels: u16, sampleRate: u32)
    | Failed(error: StreamingWavError)
    | Panicked

  /** One pass of the chunk loop at offset `pos`: the 8-byte chunk header
      (a short read is `Io`), then a `fmt ` chunk read in full and checked,
      a `data` chunk stopped at, or any other chunk skipped with its padding
      byte, as far as the input reaches. */
  function ChunkAt(enc: Encoding, s: seq<Byte>, pos: nat, channels: u16, sampleRate: u32): (r: ChunkStep)
    ensures r.NextChunk? ==> pos + 8 <= r.next <= |s|
    ensures r.DataFound? ==> pos + 8 <= |s| && HasTag(s, pos, DATA_TAG)
    ensures r.Failed? ==> r.error.Io? || r.error.UnsupportedAudioFormat? || r.error.UnsupportedBitsPerSample?
  {
    if |s| < pos + 8 then Failed(Io)
    else
      var size := Le32At(s, pos + 4);
      if HasTag(s, pos, FMT_TAG) then
        if |s| < pos + 8 + size then Failed(Io)
        else
          match ParseFmt(enc, s[pos + 8..pos + 8 + size])
          case Ok(info) => NextChunk(pos + 8 + size, info.channels, info.sampleRate)
          case Err(e) => Failed(e)
          case Abort => Panicked
      else if HasTag(s, pos, DATA_TAG) then DataFound
      else NextChunk(pos + 8 + Min(PaddedSize(size), |s| - (pos + 8)), channels, sampleRate)
  }

  /** The chunk loop from offset `pos`, with the channel count and sample
      rate found so far. A successful scan ends just past the 8-byte header
      of a `data` chunk; a failed one reports a short read or a rejected
      `fmt ` chunk, never a marker error. */
  function ScanChunks(enc: Encoding, s: seq<Byte>, pos: nat, channels: u16, sampleRate: u32): (r: Outcome<Header>)
    decreases |s| - pos
    ensures r.Ok? ==> pos + 8 <= r.value.dataStart <= |s|
    ensures r.Err? ==> r.error.Io? || r.error.UnsupportedAudioFormat? || r.error.UnsupportedBitsPerSample?
  {
    match ChunkAt(enc, s, pos, channels, sampleRate)
    case DataFound => Ok(Header(pos + 8, channels, sampleRate))
    case NextChunk(next, ch, sr) => ScanChunks(enc, s, next, ch, sr)
    case Failed(e) => Err(e)
    case Panicked => Abort
  }

  /** `StreamingWav::new` on a source that delivers the bytes of `s` from
      offset `at` on. */
  function Open(enc: Encoding, s: seq<Byte>, at: nat): (r: Outcome<Header>)
    ensures r.Ok? ==> at + 20 <= r.value.dataStart <= |s|
  {
    if |s| < at + 12 then Err(Io)
    else if !HasTag(s, at, RIFF_TAG) then Err(InvalidRiffFormat)
    else if !HasTag(s, at + 8, WAVE_TAG) then Err(InvalidWaveFormat)
    else ScanChunks(enc, s, at + 12, 0, 0)
  }

  /** Construction followed by iteration to the end, on the input `s`: a
      stream exactly when construction succeeds, with every whole sample
      after the `data` header, so that the samples fit in the input behind
      a header of at least 20 bytes. */
  function Decode(enc: Encoding, s: seq<Byte>): (r: Outcome<Stream>)
    ensures r.Ok? <==> Open(enc, s, 0).Ok?
    ensures r.Ok? ==> |r.value.samples| == (|s| - Open(enc, s, 0).value.dataStart) / enc.Bytes()
    ensures r.Ok? ==> 20 + enc.Bytes() * |r.value.samples| <= |s|
  {
    match Open(enc, s, 0)
    case Ok(h) => Ok(Stream(h.channels, h.sampleRate, Samples(enc, s[h.dataStart..])))
    case Err(e) => Err(e)
    case Abort => Abort
  }

  /** The header checks and their order: a short header is `Io`; a wrong
      RIFF marker is reported whatever the WAVE marker holds; a wrong WAVE
      marker is reported only behind a correct RIFF marker. */
  lemma HeaderErrorOrder(enc: Encoding, s: seq<Byte>, at: nat)
    ensures |s| < at + 12 ==> Open(enc, s, at) == Err(Io)
    ensures Open(enc, s, at) == Err(InvalidRiffFormat) <==>
            |s| >= at + 12 && s[at..at + 4] != RIFF_TAG
    ensures Open(enc, s, at) == Err(InvalidWaveFormat) <==>
            |s| >= at + 12 && s[at..at + 4] == RIFF_TAG && s[at + 8..at + 12] != WAVE_TAG
  {
    if |s| >= at + 12 {
      HasTagSlice(s, at, RIFF_TAG);
      HasTagSlice(s, at + 8, WAVE_TAG);
    }
  }

  /** A `fmt ` chunk of declared size `n` is read in full (a short read is
      `Io`) and checked by `ParseFmt`; an accepted one is consumed exactly,
      with no padding byte, and its channel count and sample rate replace the
      ones found so far. */
  lemma FmtChunkStep(enc: Encoding, s: seq<Byte>, pos: nat, channels: u16, sampleRate: u32)
    requires pos + 8 <= |s| && s[pos..pos + 4] == FMT_TAG
    ensures var n := Le32(s[pos + 4..pos + 8]);
      ChunkAt(enc, s, pos, channels, sampleRate) ==
      if |s| < pos + 8 + n then Failed(Io)
      else match ParseFmt(enc, s[pos + 8..pos + 8 + n])
        case Ok(info) => NextChunk(pos + 8 + n, info.channels, info.sampleRate)
        case Err(e) => Failed(e)
        case Abort => Panicked
  {
    HasTagSlice(s, pos, FMT_TAG);
    Le32AtSlice(s, pos + 4);
  }

  /** A pass that moves on to the next chunk leaves the rest of the scan to
      start there, with the format that pass left in force. */
  lemma ScanMovesOn(enc: Encoding, s: seq<Byte>, pos: nat, channels: u16, sampleRate: u32)
    requires ChunkAt(enc, s, pos, channels, sampleRate).NextChunk?
    ensures var step := ChunkAt(enc, s, pos, channels, sampleRate);
      ScanChunks(enc, s, pos, channels, sampleRate) == ScanChunks(enc, s, step.next, step.channels, step.sampleRate)
  {
  }

  /** The scan stops at the first `data` chunk header, whatever size the
      chunk declares, with the format found so far. */
  lemma DataChunkStep(enc: Encoding, s: seq<Byte>, pos: nat, channels: u16, sampleRate: u32)
    requires pos + 8 <= |s| && s[pos..pos + 4] == DATA_TAG
    ensures ChunkAt(enc, s, pos, channels, sampleRate) == DataFound
    ensures ScanChunks(enc, s, pos, channels, sampleRate) == Ok(Header(pos + 8, channels, sampleRate))
  {
    HasTagSlice(s, pos, FMT_TAG);
    HasTagSlice(s, pos, DATA_TAG);
  }

  /** A chunk that is neither `fmt ` nor `data` of declared size `n` is
      skipped with its padding whatever its payload holds: the scan moves on
      by exactly `8 + n + n % 2` bytes, or to the end of a shorter input. */
  lemma SkipChunkStep(enc: Encoding, s: seq<Byte>, pos: nat, channels: u16, sampleRate: u32)
    requires pos + 8 <= |s| && s[pos..pos + 4] != FMT_TAG && s[pos..pos + 4] != DATA_TAG
    ensures var n := Le32(s[pos + 4..pos + 8]);
      ChunkAt(enc, s, pos, channels, sampleRate) ==
      NextChunk(Min(pos + 8 + n + n % 2, |s|), channels, sampleRate)
  {
    HasTagSlice(s, pos, FMT_TAG);
    HasTagSlice(s, pos, DATA_TAG);
    Le32AtSlice(s, pos + 4);
  }

  /** A successful scan stops immediately after the 8-byte header of a
      `data` chunk: no byte of the chunk's payload has been consumed. */
  lemma {:induction false} ScanStopsAfterDataHeader(enc: Encoding, s: seq<Byte>, pos: nat, channels: u16, sampleRate: u32)
    requires ScanChunks(enc, s, pos, channels, sampleRate).Ok?
    ensures var start := ScanChunks(enc, s, pos, channels, sampleRate).value.dataStart;
      HasTag(s, start - 8, DATA_TAG)
    decreases |s| - pos
  {
    var step := ChunkAt(enc, s, pos, channels, sampleRate);
    if step.NextChunk? {
      ScanStopsAfterDataHeader(enc, s, step.next, step.channels, step.sampleRate);
    }
  }

  /** On success the source is positioned just past a `data` chunk header. */
  lemma OpenStopsAfterDataHeader(enc: Encoding, s: seq<Byte>, at: nat)
    requires Open(enc, s, at).Ok?
    ensures var start := Open(enc, s, at).value.dataStart;
      at + 20 <= start <= |s| && s[start - 8..start - 4] == DATA_TAG
  {
    ScanStopsAfterDataHeader(enc, s, at + 12, 0, 0);
    HasTagSlice(s, Open(enc, s, at).value.dataStart - 8, DATA_TAG);
  }

  /** One step of the chunk loop looks only at bytes from its own offset on. */
  lemma {:induction false} ChunkAtReadsOnlyFrom(enc: Encoding, s: seq<Byte>, t: seq<Byte>, pos: nat, channels: u16, sampleRate: u32)
    requires pos <= |s| == |t| && forall i | pos <= i < |s| :: s[i] == t[i]
    ensures ChunkAt(enc, s, pos, channels, sampleRate) == ChunkAt(enc, t, pos, channels, sampleRate)
  {
    if pos + 8 <= |s| {
      var size := Le32At(s, pos + 4);
      if pos + 8 + size <= |s| {
        assert s[pos + 8..pos + 8 + size] == t[pos + 8..pos + 8 + size];
      }
    }
  }

  /** The chunk loop looks only at bytes from its own offset on. */
  lemma {:induction false} ScanReadsOnlyFrom(enc: Encoding, s: seq<Byte>, t: seq<Byte>, pos: nat, channels: u16, sampleRate: u32)
    requires pos <= |s| == |t| && s[pos..] == t[pos..]
    ensures ScanChunks(enc, s, pos, channels, sampleRate) == ScanChunks(enc, t, pos, channels, sampleRate)
    decreases |s| - pos
  {
    if pos + 8 <= |s| {
      assert forall i | pos <= i < |s| :: s[i] == s[pos..][i - pos] == t[i];
      ChunkAtReadsOnlyFrom(enc, s, t, pos, channels, sampleRate);
      var step := ChunkAt(enc, s, pos, channels, sampleRate);
      if step.NextChunk? {
        assert s[step.next..] == s[pos..][step.next - pos..];
        assert t[step.next..] == t[pos..][step.next - pos..];
        ScanReadsOnlyFrom(enc, s, t, step.next, step.channels, step.sampleRate);
      }
    }
  }

  /** The declared RIFF size (bytes 4 to 7 of the header) never affects
      construction. */
  lemma RiffSizeIgnored(enc: Encoding, s: seq<Byte>, t: seq<Byte>, at: nat)
    requires |s| == |t| && at + 8 <= |s|
    requires s[..at + 4] == t[..at + 4] && s[at + 8..] == t[at + 8..]
    ensures Open(enc, t, at) == Open(enc, s, at)
  {
    if at + 12 <= |s| {
      assert s[at..at + 4] == s[..at + 4][at..] == t[..at + 4][at..] == t[at..at + 4];
      assert s[at + 8..at + 12] == s[at + 8..][..4] == t[at + 8..][..4] == t[at + 8..at + 12];
      HasTagSlice(s, at, RIFF_TAG);
      HasTagSlice(t, at, RIFF_TAG);
      HasTagSlice(s, at + 8, WAVE_TAG);
      HasTagSlice(t, at + 8, WAVE_TAG);
      assert s[at + 12..] == s[at + 8..][4..];
      assert t[at + 12..] == t[at + 8..][4..];
      ScanReadsOnlyFrom(enc, s, t, at + 12, 0, 0);
    }
  }
}
