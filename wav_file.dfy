/** Whole files as the decoder sees them: a RIFF header, a run of leading
    chunks laid out back to back, then a `data` chunk header and the sample
    bytes. What construction and iteration report for such a file follows
    from the chunks alone. */
module WavFile {
  import opened Binary
  import opened Outcomes
  import opened WavSample
  import opened ChunkScan

  /** A chunk: its four-byte tag and its payload. */
  datatype Chunk = Chunk(tag: seq<Byte>, payload: seq<Byte>)

  /** ASCII "JUNK", a tag the decoder does not know. */
  const JUNK_TAG: seq<Byte> := [0x4A, 0x55, 0x4E, 0x4B]

  /** A chunk that may stand before the `data` chunk: a four-byte tag other
      than `data`, a payload whose size fits the 32-bit size field, and,
      because the decoder skips no padding byte after a `fmt ` chunk, an
      even-sized payload when the chunk is `fmt `. */
  predicate IsLeading(c: Chunk)
  {
    && |c.tag| == 4 && c.tag != DATA_TAG
    && |c.payload| < 0x1_0000_0000
    && (c.tag == FMT_TAG ==> |c.payload| % 2 == 0)
  }

  type LeadingChunk = c: Chunk | IsLeading(c) witness Chunk(JUNK_TAG, [])

  /** The fields of a `fmt ` chunk in their order: format code, channel
      count, sample rate, byte rate, block alignment, bits per sample, and
      any extension bytes. */
  datatype FmtFields = FmtFields(
    format: u16, channels: u16, sampleRate: u32, byteRate: u32,
    blockAlign: u16, bitsPerSample: u16, extension: seq<Byte>)

  /** The payload of a `fmt ` chunk holding the given fields. */
  function EncodeFmt(f: FmtFields): (b: seq<Byte>)
    ensures |b| == 16 + |f.extension|
  {
    U16Le(f.format) + U16Le(f.channels) + U32Le(f.sampleRate) + U32Le(f.byteRate)
      + U16Le(f.blockAlign) + U16Le(f.bitsPerSample) + f.extension
  }

  /** The decoder reads back the format code, then the bit depth, and keeps
      the channel count and sample rate; the byte rate, the block alignment
      and the extension are never checked. */
  lemma {:induction false} ParseEncodedFmt(enc: Encoding, f: FmtFields)
    ensures ParseFmt(enc, EncodeFmt(f)) ==
      if f.format != enc.Format() then Err(UnsupportedAudioFormat(f.format))
      else if f.bitsPerSample != enc.Bits() then Err(UnsupportedBitsPerSample(f.bitsPerSample))
      else Ok(FmtInfo(f.channels, f.sampleRate))
  {
    var b := EncodeFmt(f);
    assert b[0..2] == U16Le(f.format);
    assert b[2..4] == U16Le(f.channels);
    assert b[4..8] == U32Le(f.sampleRate);
    assert b[14..16] == U16Le(f.bitsPerSample);
  }

  /** What one leading chunk does to the format in force: a `fmt ` chunk is
      checked and replaces it, any other chunk leaves it as it was. */
  function FmtStep(enc: Encoding, c: LeadingChunk, channels: u16, sampleRate: u32): Outcome<FmtInfo>
  {
    if c.tag == FMT_TAG then ParseFmt(enc, c.payload) else Ok(FmtInfo(channels, sampleRate))
  }

  /** The format a run of leading chunks leaves in force: each accepted
      `fmt ` chunk replaces the channel count and sample rate, other chunks
      change nothing, and the first rejected `fmt ` chunk ends the run. */
  function ChunksEffect(enc: Encoding, cs: seq<LeadingChunk>, channels: u16, sampleRate: u32): Outcome<FmtInfo>
  {
    if cs == [] then Ok(FmtInfo(channels, sampleRate))
    else
      match FmtStep(enc, cs[0], channels, sampleRate)
      case Ok(info) => ChunksEffect(enc, cs[1..], info.channels, info.sampleRate)
      case Err(e) => Err(e)
      case Abort => Abort
  }

  /** The first chunk's effect, then the rest's. */
  lemma {:induction false} ChunksEffectCons(enc: Encoding, cs: seq<LeadingChunk>, channels: u16, sampleRate: u32)
    requires cs != []
    ensures var step := FmtStep(enc, cs[0], channels, sampleRate);
      && (step.Ok? ==> ChunksEffect(enc, cs, channels, sampleRate) == ChunksEffect(enc, cs[1..], step.value.channels, step.value.sampleRate))
      && (step.Err? ==> ChunksEffect(enc, cs, channels, sampleRate) == Err(step.error))
      && (step.Abort? ==> ChunksEffect(enc, cs, channels, sampleRate) == Abort)
  {
  }

  /** Chunks that are not `fmt ` leave the format as it was. */
  lemma {:induction false} OtherChunksKeepFormat(enc: Encoding, cs: seq<LeadingChunk>, channels: u16, sampleRate: u32)
    requires forall i | 0 <= i < |cs| :: cs[i].tag != FMT_TAG
    ensures ChunksEffect(enc, cs, channels, sampleRate) == Ok(FmtInfo(channels, sampleRate))
    decreases |cs|
  {
    if cs != [] {
      assert cs[0].tag != FMT_TAG;
      OtherChunksKeepFormat(enc, cs[1..], channels, sampleRate);
    }
  }

  /** The effect of two runs of chunks is the effect of the first followed
      by that of the second. */
  lemma {:induction false} ChunksEffectAppend(enc: Encoding, a: seq<LeadingChunk>, b: seq<LeadingChunk>,
                                              channels: u16, sampleRate: u32)
    ensures ChunksEffect(enc, a + b, channels, sampleRate) ==
      match ChunksEffect(enc, a, channels, sampleRate)
      case Ok(info) => ChunksEffect(enc, b, info.channels, info.sampleRate)
      case Err(e) => Err(e)
      case Abort => Abort
    decreases |a|
  {
    if a == [] {
      assert a + b == b;
    } else {
      assert (a + b)[0] == a[0] && (a + b)[1..] == a[1..] + b;
      match FmtStep(enc, a[0], channels, sampleRate)
      case Ok(info) =>
        ChunksEffectAppend(enc, a[1..], b, info.channels, info.sampleRate);
        assert ChunksEffect(enc, a, channels, sampleRate) == ChunksEffect(enc, a[1..], info.channels, info.sampleRate);
        assert ChunksEffect(enc, a + b, channels, sampleRate) == ChunksEffect(enc, a[1..] + b, info.channels, info.sampleRate);
      case Err(e) =>
        assert ChunksEffect(enc, a, channels, sampleRate) == Err(e);
        assert ChunksEffect(enc, a + b, channels, sampleRate) == Err(e);
      case Abort =>
        assert ChunksEffect(enc, a, channels, sampleRate) == Abort;
        assert ChunksEffect(enc, a + b, channels, sampleRate) == Abort;
    }
  }

  /** The channel count and sample rate in force are those of the last
      `fmt ` chunk, once every earlier one has been accepted. */
  lemma {:induction false} LastFmtWins(enc: Encoding, before: seq<LeadingChunk>, fmt: LeadingChunk, after: seq<LeadingChunk>,
                    channels: u16, sampleRate: u32)
    requires fmt.tag == FMT_TAG
    requires ChunksEffect(enc, before, channels, sampleRate).Ok?
    requires forall i | 0 <= i < |after| :: after[i].tag != FMT_TAG
    ensures ChunksEffect(enc, before + [fmt] + after, channels, sampleRate) == ParseFmt(enc, fmt.payload)
  {
    var mid := ChunksEffect(enc, before, channels, sampleRate).value;
    ChunksEffectAppend(enc, before + [fmt], after, channels, sampleRate);
    ChunksEffectAppend(enc, before, [fmt], channels, sampleRate);
    assert [fmt][1..] == [];
    assert ChunksEffect(enc, [fmt], mid.channels, mid.sampleRate) == ParseFmt(enc, fmt.payload);
    match ParseFmt(enc, fmt.payload)
    case Ok(info) => OtherChunksKeepFormat(enc, after, info.channels, info.sampleRate);
    case Err(e) =>
    case Abort =>
  }

  /** Offset `pos` of `s` holds chunk `c`: its tag, its payload size, its
      payload, and room for its padding byte. */
  predicate HoldsChunk(s: seq<Byte>, pos: nat, c: LeadingChunk)
  {
    && pos + 8 + PaddedSize(|c.payload|) <= |s|
    && HasTag(s, pos, c.tag)
    && Le32At(s, pos + 4) == |c.payload|
    && forall k | 0 <= k < |c.payload| :: s[pos + 8 + k] == c.payload[k]
  }

  /** `s` holds the chunks `cs` back to back, each padded to even length:
      chunk `i` at offset `offs[i]`, and `offs[|cs|]` just past the last. */
  predicate HoldsChunks(s: seq<Byte>, offs: seq<nat>, cs: seq<LeadingChunk>)
  {
    && |offs| == |cs| + 1
    && forall i {:trigger cs[i]} | 0 <= i < |cs| ::
         HoldsChunk(s, offs[i], cs[i]) && offs[i + 1] == offs[i] + 8 + PaddedSize(|cs[i].payload|)
  }

  /** The chunk loop meets a held leading chunk: a `fmt ` chunk is checked
      and consumed, any other chunk is skipped with its padding byte. */
  lemma {:induction false} ChunkAtHeld(enc: Encoding, s: seq<Byte>, pos: nat, c: LeadingChunk, channels: u16, sampleRate: u32)
    requires HoldsChunk(s, pos, c)
    ensures var next := pos + 8 + PaddedSize(|c.payload|);
      ChunkAt(enc, s, pos, channels, sampleRate) ==
      match FmtStep(enc, c, channels, sampleRate)
      case Ok(info) => NextChunk(next, info.channels, info.sampleRate)
      case Err(e) => Failed(e)
      case Abort => Panicked
  {
    HasTagSlice(s, pos, FMT_TAG);
    HasTagSlice(s, pos, DATA_TAG);
    assert s[pos + 8..pos + 8 + |c.payload|] == c.payload;
  }

  /** The rest of the scan once the leading chunks up to offset `end`
      have had the effect `o`. */
  function ScanAfter(enc: Encoding, s: seq<Byte>, end: nat, o: Outcome<FmtInfo>): Outcome<Header>
  {
    match o
    case Ok(info) => ScanChunks(enc, s, end, info.channels, info.sampleRate)
    case Err(e) => Err(e)
    case Abort => Abort
  }

  /** The same pass seen from the whole scan. */
  lemma {:induction false} ScanOverChunk(enc: Encoding, s: seq<Byte>, pos: nat, c: LeadingChunk, channels: u16, sampleRate: u32)
    requires HoldsChunk(s, pos, c)
    ensures ScanChunks(enc, s, pos, channels, sampleRate) ==
            ScanAfter(enc, s, pos + 8 + PaddedSize(|c.payload|), FmtStep(enc, c, channels, sampleRate))
  {
    ChunkAtHeld(enc, s, pos, c, channels, sampleRate);
    if FmtStep(enc, c, channels, sampleRate).Ok? {
      ScanMovesOn(enc, s, pos, channels, sampleRate);
    }
  }

  /** Chunk `i` in front of the chunks after it, whose scan is known. */
  lemma {:induction false} ScanOverFirst(enc: Encoding, s: seq<Byte>, offs: seq<nat>, cs: seq<LeadingChunk>, i: nat,
                      channels: u16, sampleRate: u32)
    requires i < |cs| && |offs| == |cs| + 1
    requires HoldsChunk(s, offs[i], cs[i]) && offs[i + 1] == offs[i] + 8 + PaddedSize(|cs[i].payload|)
    requires var step := FmtStep(enc, cs[i], channels, sampleRate);
      step.Ok? ==>
        ScanChunks(enc, s, offs[i + 1], step.value.channels, step.value.sampleRate) ==
        ScanAfter(enc, s, offs[|cs|], ChunksEffect(enc, cs[i + 1..], step.value.channels, step.value.sampleRate))
    ensures ScanChunks(enc, s, offs[i], channels, sampleRate) ==
            ScanAfter(enc, s, offs[|cs|], ChunksEffect(enc, cs[i..], channels, sampleRate))
  {
    ScanOverChunk(enc, s, offs[i], cs[i], channels, sampleRate);
    assert cs[i..][0] == cs[i] && cs[i..][1..] == cs[i + 1..];
    ChunksEffectCons(enc, cs[i..], channels, sampleRate);
  }

  /** The chunk loop runs through held leading chunks, from chunk `i` on,
      with their combined effect, and carries on just after them. */
  lemma {:induction false} ScanOverChunks(enc: Encoding, s: seq<Byte>, offs: seq<nat>, cs: seq<LeadingChunk>, i: nat,
                                          channels: u16, sampleRate: u32)
    requires HoldsChunks(s, offs, cs) && i <= |cs|
    ensures ScanChunks(enc, s, offs[i], channels, sampleRate) ==
            ScanAfter(enc, s, offs[|cs|], ChunksEffect(enc, cs[i..], channels, sampleRate))
    decreases |cs| - i
  {
    if i == |cs| {
      assert cs[i..] == [];
    } else {
      var step := FmtStep(enc, cs[i], channels, sampleRate);
      if step.Ok? {
        ScanOverChunks(enc, s, offs, cs, i + 1, step.value.channels, step.value.sampleRate);
      }
      ScanOverFirst(enc, s, offs, cs, i, channels, sampleRate);
    }
  }

  /** A valid RIFF header: the RIFF marker, any declared size, the WAVE marker. */
  predicate RiffHeaderAt(s: seq<Byte>)
  {
    12 <= |s| && HasTag(s, 0, RIFF_TAG) && HasTag(s, 8, WAVE_TAG)
  }

  /** `s` is a file of leading chunks `cs`, held at offsets `offs` from 12
      on, followed by a `data` chunk header at offset `offs[|cs|]`; the
      declared RIFF and `data` sizes can be anything. */
  predicate LaidOut(s: seq<Byte>, cs: seq<LeadingChunk>, offs: seq<nat>)
  {
    && RiffHeaderAt(s)
    && HoldsChunks(s, offs, cs) && offs[0] == 12
    && offs[|cs|] + 8 <= |s| && HasTag(s, offs[|cs|], DATA_TAG)
  }

  /** Construction on a laid-out file: the format the leading chunks leave
      (0 channels at 0 Hz with no `fmt ` chunk), or the first rejection;
      on success the samples start just past the `data` chunk header. */
  lemma {:induction false} OpenLaidOut(enc: Encoding, s: seq<Byte>, cs: seq<LeadingChunk>, offs: seq<nat>)
    requires LaidOut(s, cs, offs)
    ensures Open(enc, s, 0) ==
      match ChunksEffect(enc, cs, 0, 0)
      case Ok(info) => Ok(Header(offs[|cs|] + 8, info.channels, info.sampleRate))
      case Err(e) => Err(e)
      case Abort => Abort
  {
    var d := offs[|cs|];
    ScanOverChunks(enc, s, offs, cs, 0, 0, 0);
    assert cs[0..] == cs;
    var r := ChunksEffect(enc, cs, 0, 0);
    if r.Ok? {
      HasTagSlice(s, d, DATA_TAG);
      DataChunkStep(enc, s, d, r.value.channels, r.value.sampleRate);
    }
  }

  /** What a decoder reports when the leading chunks had the effect `o`
      and `rest` follows the `data` chunk header. */
  function Reported(enc: Encoding, o: Outcome<FmtInfo>, rest: seq<Byte>): Outcome<Stream>
  {
    match o
    case Ok(info) => Ok(Stream(info.channels, info.sampleRate, Samples(enc, rest)))
    case Err(e) => Err(e)
    case Abort => Abort
  }

  /** What the decoder reports for a laid-out file: on success every sample
      in the bytes after the `data` header, whatever the declared sizes say. */
  lemma {:induction false} DecodeLaidOut(enc: Encoding, s: seq<Byte>, cs: seq<LeadingChunk>, offs: seq<nat>)
    requires LaidOut(s, cs, offs)
    ensures Decode(enc, s) == Reported(enc, ChunksEffect(enc, cs, 0, 0), s[offs[|cs|] + 8..])
  {
    OpenLaidOut(enc, s, cs, offs);
  }

  /** A file whose chunks run to the end of the input without a `data`
      chunk fails with `Io`, unless a `fmt ` chunk was rejected first. */
  lemma {:induction false} NoDataChunk(enc: Encoding, s: seq<Byte>, cs: seq<LeadingChunk>, offs: seq<nat>)
    requires RiffHeaderAt(s) && HoldsChunks(s, offs, cs) && offs[0] == 12 && offs[|cs|] == |s|
    ensures Decode(enc, s) ==
      match ChunksEffect(enc, cs, 0, 0)
      case Ok(_) => Err(Io)
      case Err(e) => Err(e)
      case Abort => Abort
  {
    ScanOverChunks(enc, s, offs, cs, 0, 0, 0);
    assert cs[0..] == cs;
    assert Open(enc, s, 0) == ScanChunks(enc, s, 12, 0, 0);
  }

  /** A chunk that is not `fmt ` leaves the combined effect of the chunks
      around it unchanged. */
  lemma {:induction false} OtherChunkNoEffect(enc: Encoding, before: seq<LeadingChunk>, other: LeadingChunk, after: seq<LeadingChunk>,
                           channels: u16, sampleRate: u32)
    requires other.tag != FMT_TAG
    ensures ChunksEffect(enc, before + [other] + after, channels, sampleRate) ==
            ChunksEffect(enc, before + after, channels, sampleRate)
  {
    ChunksEffectAppend(enc, before + [other], after, channels, sampleRate);
    ChunksEffectAppend(enc, before, [other], channels, sampleRate);
    ChunksEffectAppend(enc, before, after, channels, sampleRate);
    match ChunksEffect(enc, before, channels, sampleRate)
    case Ok(info) => OtherChunksKeepFormat(enc, [other], info.channels, info.sampleRate);
    case Err(e) =>
    case Abort =>
  }

  /** Two laid-out files whose leading chunks have the same effect and
      whose bytes after the `data` chunk header agree decode alike. */
  lemma {:induction false} SameEffectSameDecode(enc: Encoding, s: seq<Byte>, cs: seq<LeadingChunk>, offs: seq<nat>,
                                                t: seq<Byte>, ct: seq<LeadingChunk>, offt: seq<nat>)
    requires LaidOut(s, cs, offs) && LaidOut(t, ct, offt)
    requires ChunksEffect(enc, cs, 0, 0) == ChunksEffect(enc, ct, 0, 0)
    requires s[offs[|cs|] + 8..] == t[offt[|ct|] + 8..]
    ensures Decode(enc, s) == Decode(enc, t)
  {
    DecodeLaidOut(enc, s, cs, offs);
    DecodeLaidOut(enc, t, ct, offt);
  }

  /** A chunk the decoder does not know, of any size and content, can be
      inserted anywhere among the leading chunks without changing the
      channel count, the sample rate, the samples or the error. */
  lemma {:induction false} UnknownChunkTransparent(enc: Encoding, s: seq<Byte>, t: seq<Byte>, before: seq<LeadingChunk>,
                                junk: LeadingChunk, after: seq<LeadingChunk>, offs: seq<nat>, offt: seq<nat>)
    requires junk.tag != FMT_TAG
    requires LaidOut(s, before + [junk] + after, offs) && LaidOut(t, before + after, offt)
    requires s[offs[|offs| - 1] + 8..] == t[offt[|offt| - 1] + 8..]
    ensures Decode(enc, s) == Decode(enc, t)
  {
    OtherChunkNoEffect(enc, before, junk, after, 0, 0);
    SameEffectSameDecode(enc, s, before + [junk] + after, offs, t, before + after, offt);
  }
}
