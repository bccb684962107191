/** Concrete files and what the decoder makes of them. */
module Scenarios {
  import opened Binary
  import opened Outcomes
  import opened WavSample
  import opened ChunkScan
  import opened WavFile
  import opened WavLayout

  /** A mono 16-bit PCM format at 44.1 kHz. */
  const MONO_16: FmtFields := FmtFields(1, 1, 44100, 88200, 2, 16, [])

  /** Three 16-bit samples: 0, the largest and the smallest value. */
  const PCM16_BODY: seq<Byte> := [0x00, 0x00, 0xFF, 0x7F, 0x00, 0x80]

  /** The `fmt ` chunk holding `f`. */
  function FmtChunk(f: FmtFields): LeadingChunk
    requires |f.extension| % 2 == 0 && |f.extension| < 0x1_0000_0000 - 16
  {
    Chunk(FMT_TAG, EncodeFmt(f))
  }

  /** One chunk's effect is its own step. */
  lemma {:induction false} SingleChunkEffect(enc: Encoding, c: LeadingChunk)
    ensures ChunksEffect(enc, [c], 0, 0) == FmtStep(enc, c, 0, 0)
  {
    assert [c][0] == c && [c][1..] == [];
  }

  /** Little-endian two's complement: `00 00`, `FF 7F`, `00 80` are 0, 32767 and -32768. */
  lemma Pcm16Values()
    ensures Samples(I16, PCM16_BODY) == [Int(0), Int(32767), Int(-32768)]
  {
    var b := PCM16_BODY;
    assert b[2..][2..] == [0x00, 0x80] && b[2..][2..][2..] == [];
    assert b[..2] == [0x00, 0x00] && b[2..][..2] == [0xFF, 0x7F];
  }

  /** The 8-bit midpoint is silence; the extremes map to -32768 and 32512. */
  lemma U8Values()
    ensures Samples(U8, [0x80, 0x00, 0xFF]) == [Int(0), Int(-32768), Int(32512)]
  {
    var b: seq<Byte> := [0x80, 0x00, 0xFF];
    assert b[1..][1..] == [0xFF] && b[1..][1..][1..] == [];
    assert b[..1] == [0x80] && b[1..][..1] == [0x00] && b[1..][1..][..1] == [0xFF];
  }

  /** A mono 16-bit file of 50 bytes (RIFF size 42) yields its format and
      its three samples. */
  lemma Pcm16File()
    ensures |WaveFile(42, [FmtChunk(MONO_16)], 6, PCM16_BODY)| == 8 + 42
    ensures Decode(I16, WaveFile(42, [FmtChunk(MONO_16)], 6, PCM16_BODY)) ==
            Ok(Stream(1, 44100, [Int(0), Int(32767), Int(-32768)]))
  {
    assert ChunksBytes([FmtChunk(MONO_16)]) == ChunkBytes(FmtChunk(MONO_16)) + ChunksBytes([]);
    DecodeWaveFile(I16, 42, [FmtChunk(MONO_16)], 6, PCM16_BODY);
    SingleChunkEffect(I16, FmtChunk(MONO_16));
    ParseEncodedFmt(I16, MONO_16);
    Pcm16Values();
  }

  /** A 24-bit PCM file is refused by a 16-bit decoder with the bit depth it declares. */
  lemma Bits24Rejected(riffSize: u32, dataSize: u32, body: seq<Byte>)
    ensures var f := MONO_16.(bitsPerSample := 24);
      Decode(I16, WaveFile(riffSize, [FmtChunk(f)], dataSize, body)) == Err(UnsupportedBitsPerSample(24))
  {
    var f := MONO_16.(bitsPerSample := 24);
    DecodeWaveFile(I16, riffSize, [FmtChunk(f)], dataSize, body);
    SingleChunkEffect(I16, FmtChunk(f));
    ParseEncodedFmt(I16, f);
  }

  /** A float decoder refuses an integer PCM file with the format code it declares,
      before looking at the bit depth. */
  lemma PcmRejectedAsFloat(riffSize: u32, dataSize: u32, body: seq<Byte>)
    ensures Decode(F32, WaveFile(riffSize, [FmtChunk(MONO_16)], dataSize, body)) == Err(UnsupportedAudioFormat(1))
  {
    DecodeWaveFile(F32, riffSize, [FmtChunk(MONO_16)], dataSize, body);
    SingleChunkEffect(F32, FmtChunk(MONO_16));
    ParseEncodedFmt(F32, MONO_16);
  }

  /** A 3-byte `JUNK` chunk (with its padding byte) in front of the `fmt `
      chunk changes nothing. */
  lemma Junk3Ignored(enc: Encoding, riffSize: u32, dataSize: u32, body: seq<Byte>)
    ensures Decode(enc, WaveFile(riffSize, [Chunk(JUNK_TAG, [1, 2, 3]), FmtChunk(MONO_16)], dataSize, body)) ==
            Decode(enc, WaveFile(riffSize, [FmtChunk(MONO_16)], dataSize, body))
  {
    var junk: LeadingChunk := Chunk(JUNK_TAG, [1, 2, 3]);
    assert [] + [junk] + [FmtChunk(MONO_16)] == [junk, FmtChunk(MONO_16)];
    assert [] + [FmtChunk(MONO_16)] == [FmtChunk(MONO_16)];
    WrittenUnknownChunkIgnored(enc, riffSize, [], junk, [FmtChunk(MONO_16)], dataSize, body);
  }

  /** Without a `fmt ` chunk the decoder reports 0 channels at 0 Hz and
      still yields the samples. */
  lemma NoFmtChunk(enc: Encoding, riffSize: u32, dataSize: u32, body: seq<Byte>)
    ensures Decode(enc, WaveFile(riffSize, [], dataSize, body)) == Ok(Stream(0, 0, Samples(enc, body)))
  {
    DecodeWaveFile(enc, riffSize, [], dataSize, body);
  }

  /** A `fmt ` chunk with the right format code, a channel count and a
      sample rate but only 8 bytes makes the decoder panic when it reads the
      bit depth at bytes 14 and 15. */
  lemma ShortFmtPanics(riffSize: u32, dataSize: u32, body: seq<Byte>)
    ensures Decode(I16, WaveFile(riffSize, [Chunk(FMT_TAG, [1, 0, 1, 0, 0x44, 0xAC, 0, 0])], dataSize, body)) == Abort
  {
    var c: LeadingChunk := Chunk(FMT_TAG, [1, 0, 1, 0, 0x44, 0xAC, 0, 0]);
    assert FmtStep(I16, c, 0, 0) == ParseFmt(I16, c.payload) == Abort;
    DecodeWaveFile(I16, riffSize, [c], dataSize, body);
    SingleChunkEffect(I16, c);
  }
}
