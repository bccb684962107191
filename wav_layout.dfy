/** Writing WAVE files: the bytes of a RIFF header, a run of leading chunks,
    a `data` chunk header and the sample bytes. Decoding what is written
    gives back the format the chunks carry and the samples of the body. */
module WavLayout {
  import opened Binary
  import opened Outcomes
  import opened WavSample
  import opened ChunkScan
  import opened WavFile

  /** The padding byte after an odd-sized payload. */
  function Padding(c: LeadingChunk): (p: seq<Byte>)
    ensures |c.payload| + |p| == PaddedSize(|c.payload|)
  {
    if |c.payload| % 2 == 1 then [0] else []
  }

  /** One chunk as it is stored: tag, little-endian size, payload, padding. */
  function ChunkBytes(c: LeadingChunk): (b: seq<Byte>)
    ensures |b| == 8 + PaddedSize(|c.payload|)
  {
    c.tag + U32Le(|c.payload|) + c.payload + Padding(c)
  }

  /** Chunks stored back to back. */
  function ChunksBytes(cs: seq<LeadingChunk>): seq<Byte>
    decreases |cs|
  {
    if cs == [] then [] else ChunkBytes(cs[0]) + ChunksBytes(cs[1..])
  }

  /** Where each of the chunks `cs` starts when they are stored from offset
      `base`, followed by the offset just past the last one. */
  function Offsets(base: nat, cs: seq<LeadingChunk>): (offs: seq<nat>)
    decreases |cs|
    ensures |offs| == |cs| + 1 && offs[0] == base
    ensures offs[|cs|] == base + |ChunksBytes(cs)|
  {
    if cs == [] then [base] else [base] + Offsets(base + |ChunkBytes(cs[0])|, cs[1..])
  }

  /** A whole file: any declared RIFF size, the leading chunks, then a
      `data` chunk of any declared size holding `body`. */
  function WaveFile(riffSize: u32, cs: seq<LeadingChunk>, dataSize: u32, body: seq<Byte>): seq<Byte>
  {
    WaveFile'(riffSize, ChunksBytes(cs), dataSize, body)
  }

  /** A whole file around the stored leading chunks `mid`. */
  function WaveFile'(riffSize: u32, mid: seq<Byte>, dataSize: u32, body: seq<Byte>): seq<Byte>
  {
    RIFF_TAG + U32Le(riffSize) + WAVE_TAG + mid + DATA_TAG + U32Le(dataSize) + body
  }

  /** `s` holds the bytes `b` from offset `p` on. */
  predicate StoredAt(s: seq<Byte>, p: nat, b: seq<Byte>)
  {
    p + |b| <= |s| && forall k | 0 <= k < |b| :: s[p + k] == b[k]
  }

  /** Where `s` holds `a + b`, it holds `a` and then `b`. */
  lemma SplitStored(s: seq<Byte>, p: nat, a: seq<Byte>, b: seq<Byte>)
    requires StoredAt(s, p, a + b)
    ensures StoredAt(s, p, a) && StoredAt(s, p + |a|, b)
  {
    forall k | 0 <= k < |a| ensures s[p + k] == a[k] {
      assert (a + b)[k] == a[k];
    }
    forall k | 0 <= k < |b| ensures s[p + |a| + k] == b[k] {
      assert (a + b)[|a| + k] == b[k];
    }
  }

  /** A stored chunk is held where it was stored. */
  lemma {:induction false} ChunkHeldAt(s: seq<Byte>, p: nat, c: LeadingChunk)
    requires StoredAt(s, p, ChunkBytes(c))
    ensures HoldsChunk(s, p, c)
  {
    var n := |c.payload|;
    SplitStored(s, p, c.tag + U32Le(n) + c.payload, Padding(c));
    SplitStored(s, p, c.tag + U32Le(n), c.payload);
    SplitStored(s, p, c.tag, U32Le(n));
    var size := U32Le(n);
    assert s[p] == c.tag[0] && s[p + 1] == c.tag[1] && s[p + 2] == c.tag[2] && s[p + 3] == c.tag[3];
    assert s[p + 4] == size[0] && s[p + 5] == size[1] && s[p + 6] == size[2] && s[p + 7] == size[3];
  }

  /** Offset `i` of the chunks is offset `i - 1` of all but the first,
      stored after the first. */
  lemma {:induction false} OffsetsTail(p: nat, cs: seq<LeadingChunk>, i: nat)
    requires 0 < i < |cs|
    ensures cs[1..][i - 1] == cs[i]
    ensures Offsets(p, cs)[i] == Offsets(p + |ChunkBytes(cs[0])|, cs[1..])[i - 1]
  {
    assert Offsets(p, cs) == [p] + Offsets(p + |ChunkBytes(cs[0])|, cs[1..]);
  }

  /** Each offset is the one before it plus the size of the chunk between. */
  lemma {:induction false} OffsetsStep(p: nat, cs: seq<LeadingChunk>, i: nat)
    requires i < |cs|
    ensures Offsets(p, cs)[i + 1] == Offsets(p, cs)[i] + |ChunkBytes(cs[i])|
    decreases i
  {
    var next := p + |ChunkBytes(cs[0])|;
    var rest := Offsets(next, cs[1..]);
    assert Offsets(p, cs) == [p] + rest;
    if 0 < i {
      OffsetsStep(next, cs[1..], i - 1);
      assert cs[1..][i - 1] == cs[i];
      assert Offsets(p, cs)[i] == rest[i - 1] && Offsets(p, cs)[i + 1] == rest[i];
    }
  }

  /** Where the chunks `cs` are stored, the first of them is. */
  lemma {:induction false} FirstStored(s: seq<Byte>, p: nat, cs: seq<LeadingChunk>)
    requires cs != [] && StoredAt(s, p, ChunksBytes(cs))
    ensures StoredAt(s, p, ChunkBytes(cs[0]))
  {
    SplitStored(s, p, ChunkBytes(cs[0]), ChunksBytes(cs[1..]));
  }

  /** Where the chunks `cs` are stored, the rest follow the first. */
  lemma {:induction false} RestStored(s: seq<Byte>, p: nat, cs: seq<LeadingChunk>)
    requires cs != [] && StoredAt(s, p, ChunksBytes(cs))
    ensures StoredAt(s, p + |ChunkBytes(cs[0])|, ChunksBytes(cs[1..]))
  {
    SplitStored(s, p, ChunkBytes(cs[0]), ChunksBytes(cs[1..]));
  }

  /** Chunk `i` of the stored chunks is stored at its offset. */
  lemma {:induction false} StoredChunk(s: seq<Byte>, p: nat, cs: seq<LeadingChunk>, i: nat)
    requires StoredAt(s, p, ChunksBytes(cs)) && i < |cs|
    ensures StoredAt(s, Offsets(p, cs)[i], ChunkBytes(cs[i]))
    decreases i
  {
    if i == 0 {
      FirstStored(s, p, cs);
    } else {
      RestStored(s, p, cs);
      StoredChunk(s, p + |ChunkBytes(cs[0])|, cs[1..], i - 1);
      OffsetsTail(p, cs, i);
    }
  }

  /** Stored chunks are held at their offsets. */
  lemma {:induction false} ChunksHeld(s: seq<Byte>, p: nat, cs: seq<LeadingChunk>)
    requires StoredAt(s, p, ChunksBytes(cs))
    ensures HoldsChunks(s, Offsets(p, cs), cs)
  {
    var offs := Offsets(p, cs);
    forall i | 0 <= i < |cs|
      ensures HoldsChunk(s, offs[i], cs[i]) && offs[i + 1] == offs[i] + 8 + PaddedSize(|cs[i].payload|)
    {
      StoredChunk(s, p, cs, i);
      OffsetsStep(p, cs, i);
      ChunkHeldAt(s, offs[i], cs[i]);
    }
  }

  /** The bytes of a written file around its stored leading chunks `mid`:
      a valid RIFF header, `mid` from offset 12, a `data` chunk header
      behind it, then `body`. */
  lemma {:induction false} FrameAround(riffSize: u32, mid: seq<Byte>, dataSize: u32, body: seq<Byte>)
    ensures var s, d := WaveFile'(riffSize, mid, dataSize, body), 12 + |mid|;
      && RiffHeaderAt(s) && d + 8 <= |s| && HasTag(s, d, DATA_TAG) && s[d + 8..] == body
      && StoredAt(s, 12, mid)
  {
    var s, d := WaveFile'(riffSize, mid, dataSize, body), 12 + |mid|;
    assert s[0..4] == RIFF_TAG && s[8..12] == WAVE_TAG;
    assert forall k | 0 <= k < |mid| :: s[12 + k] == mid[k];
    assert s[d..d + 4] == DATA_TAG;
    assert s[d + 8..] == body;
    HasTagSlice(s, 0, RIFF_TAG);
    HasTagSlice(s, 8, WAVE_TAG);
    HasTagSlice(s, d, DATA_TAG);
  }

  /** A written file is laid out as the decoder expects, with `body` just
      after the `data` chunk header. */
  lemma {:induction false} WaveFileLaidOut(riffSize: u32, cs: seq<LeadingChunk>, dataSize: u32, body: seq<Byte>)
    ensures var s, offs := WaveFile(riffSize, cs, dataSize, body), Offsets(12, cs);
      LaidOut(s, cs, offs) && s[offs[|cs|] + 8..] == body
  {
    FrameAround(riffSize, ChunksBytes(cs), dataSize, body);
    ChunksHeld(WaveFile(riffSize, cs, dataSize, body), 12, cs);
  }

  /** Decoding a written file: the first rejection among its `fmt ` chunks,
      or the format its last `fmt ` chunk carries (0 channels at 0 Hz with
      none) and every whole sample of the body, whatever the declared RIFF
      and `data` sizes. */
  lemma {:induction false} DecodeWaveFile(enc: Encoding, riffSize: u32, cs: seq<LeadingChunk>, dataSize: u32, body: seq<Byte>)
    ensures Decode(enc, WaveFile(riffSize, cs, dataSize, body)) == Reported(enc, ChunksEffect(enc, cs, 0, 0), body)
  {
    WaveFileLaidOut(riffSize, cs, dataSize, body);
    DecodeLaidOut(enc, WaveFile(riffSize, cs, dataSize, body), cs, Offsets(12, cs));
  }

  /** Adding or removing a chunk the decoder does not know, anywhere before
      the `data` chunk, does not change what a written file decodes to. */
  lemma {:induction false} WrittenUnknownChunkIgnored(enc: Encoding, riffSize: u32, before: seq<LeadingChunk>,
                                                      junk: LeadingChunk, after: seq<LeadingChunk>,
                                                      dataSize: u32, body: seq<Byte>)
    requires junk.tag != FMT_TAG
    ensures Decode(enc, WaveFile(riffSize, before + [junk] + after, dataSize, body)) ==
            Decode(enc, WaveFile(riffSize, before + after, dataSize, body))
  {
    DecodeWaveFile(enc, riffSize, before + [junk] + after, dataSize, body);
    DecodeWaveFile(enc, riffSize, before + after, dataSize, body);
    OtherChunkNoEffect(enc, before, junk, after, 0, 0);
  }
}
