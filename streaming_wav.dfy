/** The streaming decoder itself: construction scans the container up to
    its `data` chunk, after which the decoder yields one sample per call. */
module Decoder {
  import opened Binary
  import opened Outcomes
  import opened Reader
  import opened WavSample
  import opened ChunkScan

  class StreamingWav {
    /** The target encoding, fixed when the decoder is created. */
    const enc: Encoding
    /** The owned byte source. */
    const reader: ByteReader
    const sampleRate: u32
    const channels: u16

    ghost predicate Valid()
      reads this, reader
    {
      reader.Valid()
    }

    /** The samples the decoder will still yield. */
    ghost function Pending(): seq<Sample>
      reads this, reader
      requires Valid()
    {
      Samples(enc, reader.Unread())
    }

    constructor FromParts(enc: Encoding, reader: ByteReader, sampleRate: u32, channels: u16)
      ensures this.enc == enc && this.reader == reader
      ensures this.sampleRate == sampleRate && this.channels == channels
    {
      this.enc := enc;
      this.reader := reader;
      this.sampleRate := sampleRate;
      this.channels := channels;
    }

    /** `StreamingWav::new`: check the RIFF header, then read chunk headers
        until a `data` chunk, checking each `fmt ` chunk and skipping every
        other chunk with its padding byte. The outcome is `Open` of the
        bytes the source had left; on success the source is positioned at
        the first sample byte. */
    static method New(enc: Encoding, reader: ByteReader) returns (r: Outcome<StreamingWav>)
      requires reader.Valid()
      modifies reader
      ensures reader.Valid()
      ensures var spec := Open(enc, reader.data, old(reader.pos));
        && (spec.Err? <==> r.Err?)
        && (spec.Err? ==> r.error == spec.error)
        && (spec.Abort? <==> r.Abort?)
        && (spec.Ok? <==> r.Ok?)
        && (spec.Ok? ==>
              && fresh(r.value)
              && r.value.enc == enc && r.value.reader == reader
              && r.value.channels == spec.value.channels
              && r.value.sampleRate == spec.value.sampleRate
              && reader.pos == spec.value.dataStart)
    {
      ghost var start := reader.pos;
      var riffHeader := reader.ReadExact(12);
      if riffHeader.None? {
        return Err(Io);
      }
      var header := riffHeader.value;
      assert header[0..4] == reader.data[start..start + 4];
      assert header[8..12] == reader.data[start + 8..start + 12];
      HasTagSlice(reader.data, start, RIFF_TAG);
      HasTagSlice(reader.data, start + 8, WAVE_TAG);
      if header[0..4] != RIFF_TAG {
        return Err(InvalidRiffFormat);
      }
      if header[8..12] != WAVE_TAG {
        return Err(InvalidWaveFormat);
      }
      var sampleRate: u32 := 0;
      var channels: u16 := 0;
      ghost var spec := Open(enc, reader.data, start);
      while true
        invariant reader.Valid()
        invariant spec == ScanChunks(enc, reader.data, reader.pos, channels, sampleRate)
        decreases |reader.data| - reader.pos
      {
        var step := ReadChunk(enc, reader, channels, sampleRate);
        if step.DataFound? {
          var decoder := new StreamingWav.FromParts(enc, reader, sampleRate, channels);
          return Ok(decoder);
        } else if step.Failed? {
          return Err(step.error);
        } else if step.Panicked? {
          return Abort;
        }
        channels, sampleRate := step.channels, step.sampleRate;
      }
    }

    /** `Iterator::next`: the next sample, or `None` once fewer than
        `Bytes()` bytes remain; after `None` the decoder stays exhausted. */
    method Next() returns (r: Option<Sample>)
      requires Valid()
      modifies reader
      ensures Valid()
      ensures r.None? <==> old(Pending()) == []
      ensures r.Some? ==> old(Pending()) == [r.value] + Pending()
      ensures r.Some? ==> reader.pos == old(reader.pos) + enc.Bytes()
      ensures r.None? ==> Pending() == [] && reader.Unread() == []
    {
      r := ReadSample(enc, reader);
    }

    /** `Source::channels`: the count fixed at construction. */
    function Channels(): (n: u16)
      ensures n == channels
    {
      channels
    }

    /** `Source::sample_rate`: the rate fixed at construction. */
    function SampleRate(): (hz: u32)
      ensures hz == sampleRate
    {
      sampleRate
    }

    /** `Source::current_frame_len`: no frame boundaries are tracked. */
    function CurrentFrameLen(): (len: Option<nat>)
      ensures len.None?
    {
      None
    }

    /** `Source::total_duration`, in nanoseconds: unknown for a stream. */
    function TotalDuration(): (nanos: Option<nat>)
      ensures nanos.None?
    {
      None
    }
  }

  /** One pass of the chunk loop in `StreamingWav::new`: read an 8-byte
      chunk header, then check a `fmt ` chunk, stop at a `data` chunk, or
      skip any other chunk with its padding byte. The step is `ChunkAt` at
      the source's position, and the source moves on to the next chunk. */
  method ReadChunk(enc: Encoding, reader: ByteReader, channels: u16, sampleRate: u32)
      returns (step: ChunkStep)
    requires reader.Valid()
    modifies reader
    ensures reader.Valid()
    ensures step == ChunkAt(enc, reader.data, old(reader.pos), channels, sampleRate)
    ensures step.DataFound? ==> reader.pos == old(reader.pos) + 8
    ensures step.NextChunk? ==> reader.pos == step.next
  {
    ghost var at := reader.pos;
    var chunkHeader := reader.ReadExact(8);
    if chunkHeader.None? {
      return Failed(Io);
    }
    var chunkId := chunkHeader.value[0..4];
    var chunkSize := Le32(chunkHeader.value[4..8]);
    assert chunkId == reader.data[at..at + 4];
    assert chunkHeader.value[4..8] == reader.data[at + 4..at + 8];
    step := DispatchChunk(enc, reader, chunkId, chunkSize, channels, sampleRate);
  }

  /** The rest of the pass once the 8-byte header of a chunk has just been
      read: the chunk id decides between checking a `fmt ` chunk, stopping
      at a `data` chunk, or skipping the chunk. */
  method DispatchChunk(enc: Encoding, reader: ByteReader, chunkId: seq<Byte>, chunkSize: u32,
                       channels: u16, sampleRate: u32) returns (step: ChunkStep)
    requires reader.Valid() && 8 <= reader.pos
    requires chunkId == reader.data[reader.pos - 8..reader.pos - 4]
    requires chunkSize == Le32(reader.data[reader.pos - 4..reader.pos])
    modifies reader
    ensures reader.Valid()
    ensures step == ChunkAt(enc, reader.data, old(reader.pos) - 8, channels, sampleRate)
    ensures step.DataFound? ==> reader.pos == old(reader.pos)
    ensures step.NextChunk? ==> reader.pos == step.next
  {
    ghost var at := reader.pos - 8;
    if chunkId == FMT_TAG {
      FmtChunkStep(enc, reader.data, at, channels, sampleRate);
      var fmt := ReadFmtChunk(enc, reader, chunkSize);
      if fmt.Err? {
        return Failed(fmt.error);
      } else if fmt.Abort? {
        return Panicked;
      }
      step := NextChunk(reader.pos, fmt.value.channels, fmt.value.sampleRate);
    } else if chunkId == DATA_TAG {
      DataChunkStep(enc, reader.data, at, channels, sampleRate);
      step := DataFound;
    } else {
      SkipChunkStep(enc, reader.data, at, channels, sampleRate);
      SkipChunk(reader, chunkSize);
      step := NextChunk(reader.pos, channels, sampleRate);
    }
  }

  /** The body of any other chunk of declared size `size`: skip it and its
      padding byte, or to the end of a shorter source. */
  method SkipChunk(reader: ByteReader, size: u32)
    requires reader.Valid()
    modifies reader
    ensures reader.Valid()
    ensures reader.pos == Min(old(reader.pos) + size + size % 2, |reader.data|)
  {
    var skip: nat := size;
    if skip % 2 == 1 {
      skip := skip + 1;  // the padding byte
    }
    reader.Skip(skip);
  }

  /** The body of a `fmt ` chunk of `size` bytes: read it in full, check its
      format code, then its bit depth, and take its channel count and sample
      rate. The outcome is `ParseFmt` of the chunk, or `Io` on a short read. */
  method ReadFmtChunk(enc: Encoding, reader: ByteReader, size: u32) returns (r: Outcome<FmtInfo>)
    requires reader.Valid()
    modifies reader
    ensures reader.Valid()
    ensures old(reader.pos) + size > |reader.data| ==> r == Err(Io)
    ensures old(reader.pos) + size <= |reader.data| ==>
      && r == ParseFmt(enc, reader.data[old(reader.pos)..old(reader.pos) + size])
      && reader.pos == old(reader.pos) + size
  {
    var fmtRead := reader.ReadExact(size);
    if fmtRead.None? {
      return Err(Io);
    }
    var fmtChunk := fmtRead.value;
    // Slicing [0..2] panics on a shorter chunk.
    if |fmtChunk| < 2 {
      return Abort;
    }
    Le16AtSlice(fmtChunk, 0);
    var audioFormat := Le16(fmtChunk[0..2]);
    if audioFormat != enc.Format() {
      return Err(UnsupportedAudioFormat(audioFormat));
    }
    // Slicing [2..4], [4..8] and [14..16] panics on a chunk under 16 bytes.
    if |fmtChunk| < 16 {
      return Abort;
    }
    Le16AtSlice(fmtChunk, 2);
    Le32AtSlice(fmtChunk, 4);
    Le16AtSlice(fmtChunk, 14);
    var channels := Le16(fmtChunk[2..4]);
    var sampleRate := Le32(fmtChunk[4..8]);
    var bitsPerSample := Le16(fmtChunk[14..16]);
    if bitsPerSample != enc.Bits() {
      return Err(UnsupportedBitsPerSample(bitsPerSample));
    }
    return Ok(FmtInfo(channels, sampleRate));
  }

  /** Pull samples from `decoder` until `None`: all the samples it had
      pending, in order, after which none are pending. */
  method Drain(decoder: StreamingWav) returns (samples: seq<Sample>)
    requires decoder.Valid()
    modifies decoder.reader
    ensures decoder.Valid()
    ensures samples == old(decoder.Pending()) && decoder.Pending() == []
  {
    samples := [];
    while true
      invariant decoder.Valid()
      invariant samples + decoder.Pending() == old(decoder.Pending())
      decreases |decoder.reader.data| - decoder.reader.pos
    {
      var next := decoder.Next();
      if next.None? {
        return;
      }
      samples := samples + [next.value];
    }
  }

  /** A caller's whole use of the decoder over an in-memory input `data`:
      construct it, then pull samples until `None`, then pull once more.
      The outcome is `Decode` of the input. Once exhausted, the decoder
      stays exhausted: the extra pull `afterEnd` is `None` too. */
  method ReadAll(enc: Encoding, data: seq<Byte>) returns (r: Outcome<Stream>, afterEnd: Option<Sample>)
    ensures r == Decode(enc, data)
    ensures r.Ok? ==> afterEnd.None?
  {
    var reader := new ByteReader(data);
    ghost var spec := Open(enc, data, 0);
    var made := StreamingWav.New(enc, reader);
    afterEnd := None;
    match made
    case Err(e) => r := Err(e);
    case Abort => r := Abort;
    case Ok(decoder) =>
      assert decoder.Pending() == Samples(enc, data[spec.value.dataStart..]);
      var samples := Drain(decoder);
      afterEnd := decoder.Next();
      r := Ok(Stream(decoder.Channels(), decoder.SampleRate(), samples));
  }
}
