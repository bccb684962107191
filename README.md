# stream-wav: a verified model of the streaming WAVE decoder

`StreamingWav<S, R>` wraps a byte source `R: Read` as an audio source that
yields one sample at a time. Construction (`StreamingWav::new`) does two things:
- It checks the 12-byte RIFF header: `RIFF`, a declared size that is
  ignored, then `WAVE`.
- It walks the chunks that follow. Each `fmt ` chunk is checked against the
  target encoding `S` (its `FORMAT` code and `BITS` depth) and supplies the
  channel count and sample rate. Construction stops just past the header of
  the first `data` chunk. Any other chunk is skipped, together with its
  padding byte when its size is odd.

From then on, `Iterator::next` reads `S::BYTES` bytes per call and decodes
them:
- `u8`: `(b - 128) * 256`
- `i16`: little-endian two's complement
- `f32`: the IEEE bit pattern

A short read ends the iteration.

The model has these modules:
- `Binary`: bytes and fixed-width integers, and the little-endian readings
  `from_le_bytes` together with their inverses.
- `Outcomes`: `Option`, the error enum `StreamingWavError`, and `Outcome`.
  `Outcome` is `Ok`, `Err` or `Abort`; `Abort` stands for a slicing panic.
- `Reader`: the byte source, as a class with a cursor over a finite input.
  It has `read_exact` and "skip up to n bytes".
- `WavSample`: the three encodings with their constants, the per-sample
  decoding, and `Samples`, the whole sample stream that a run of bytes
  yields.
- `ChunkScan`: pure functions for what construction computes.
  - `ChunkAt` is one pass of the chunk loop.
  - `ScanChunks` is the loop.
  - `Open` is the whole of `new`.
  - `Decode` is construction followed by iteration.
- `Decoder`: the imperative model. `StreamingWav.New` reads the header and
  runs the chunk loop on the byte source, with loop invariant
  `spec == ScanChunks(..., reader.pos, channels, sampleRate)`. It is
  proved to end exactly as `Open` says. `Next` is proved to pop the head of
  the pending `Samples`.
- `WavFile`: files described by their chunks. In a "laid-out" file,
  chunks sit back to back after the RIFF header, followed by a `data`
  chunk header. Decoding such a file is determined by the combined effect
  of its chunks (`ChunksEffect`) and the bytes after the `data` header.
  The last accepted `fmt ` chunk wins, and unknown chunks are transparent.
- `WavLayout`: writing files (`WaveFile`). Decoding what was written gives
  back the chunks' effect and the samples of the body.
- `Scenarios`: concrete files and sample bytes.

Where the code and a plain reading of the WAVE layout differ, the model
follows the code:
- A `fmt ` chunk is read for exactly its declared size, and no padding
  byte is skipped after it. This differs from the general chunk layout
  (tag, size, payload, one padding byte if the size is odd). So
  `WavFile.LeadingChunk` only admits even-sized `fmt ` payloads, the only
  ones after which an unpadded read meets the next chunk header.
- A `fmt ` chunk too short for the fields being read makes the source panic
  on a slice: under 2 bytes before the format code, under 16 bytes before
  the bit depth. A typed error is never reported in that case. The model
  has a separate outcome, `Abort`, for it, and keeps the order: short
  chunk, then format code, then short chunk, then bit depth.
- The declared `data` size is ignored. Samples are read until the source
  ends.

## Model

| member | source | states |
|---|---|---|
| Binary.Le16 | src/streaming_wav.rs:49-56 | `u16::from_le_bytes`: the first byte is the value modulo 256, the second the value divided by 256 |
| Binary.Le32 | src/streaming_wav.rs:42-55 | `u32::from_le_bytes`: bytes 0 and 1 are the low 16 bits of the value, bytes 2 and 3 the high 16 bits |
| Binary.U16Le | src/streaming_wav.rs:49 | the little-endian layout of a u16; `u16::from_le_bytes` reads the value back |
| Binary.U32Le | src/streaming_wav.rs:42 | the little-endian layout of a u32; `u32::from_le_bytes` reads the value back |
| Binary.Le32Halves | src/streaming_wav.rs:42 | a u32 read is the low u16 read plus 2^16 times the high u16 read |
| Binary.Le16Bytes | src/streaming_wav.rs:49 | two bytes are recovered from their u16 reading (the reading is injective) |
| Binary.Le32Bytes | src/streaming_wav.rs:42 | four bytes are recovered from their u32 reading (the reading is injective) |
| Binary.Le16At | src/streaming_wav.rs:49-56 | `u16::from_le_bytes` of two bytes read in place, as the `fmt ` checks use it; `Binary.Le16AtSlice` states that it is the reading of the 2-byte slice |
| Binary.Le32At | src/streaming_wav.rs:42-55 | `u32::from_le_bytes` of four bytes read in place, as the chunk size and the sample rate are read; `Binary.Le32AtSlice` states that it is the reading of the 4-byte slice |
| Binary.Le16AtSlice | src/streaming_wav.rs:49 | reading a u16 in place equals reading the 2-byte slice at that offset |
| Binary.Le32AtSlice | src/streaming_wav.rs:42 | reading a u32 in place equals reading the 4-byte slice at that offset |
| Reader.ByteReader.Unread | src/streaming_wav.rs:13 | the bytes not yet consumed number `|data| - pos` |
| Reader.ByteReader.constructor | src/streaming_wav.rs:20 | a fresh source over `data`, nothing consumed |
| Reader.ByteReader.ReadExact | src/streaming_wav.rs:23 | exactly the next `n` bytes and the cursor moves by `n`; with fewer left, failure and the rest consumed |
| Reader.ByteReader.Skip | src/streaming_wav.rs:75 | `io::copy` of `take(n)` moves the cursor by `n`, or to the end of a shorter input, never failing |
| WavSample.Encoding.Format | src/streaming_wav.rs:127-164 | `FORMAT` is 1 for `u8` and `i16` and 3 exactly for `f32` |
| WavSample.Encoding.Bits | src/streaming_wav.rs:128-165 | `BITS` is 8, 16 or 32 |
| WavSample.Encoding.Bytes | src/streaming_wav.rs:129 | `BYTES` is `BITS / 8`: 1, 2 or 4, with `8 * BYTES == BITS` |
| WavSample.WidenU8 | src/streaming_wav.rs:142 | `(b - 128) * 256` is a multiple of 256 that gives `b` back, lies in [-32768, 32512], and is 0 exactly for `0x80` |
| WavSample.I16FromLe | src/streaming_wav.rs:156 | `i16::from_le_bytes` is congruent to the unsigned reading modulo 2^16 and negative exactly when the high byte's top bit is set |
| WavSample.I16Le | src/streaming_wav.rs:156 | the inverse layout: reading it back with `I16FromLe` gives the value |
| WavSample.DecodeSample | src/streaming_wav.rs:139-173 | one sample from `BYTES` raw bytes; a float pattern exactly for `f32` |
| WavSample.Samples | src/streaming_wav.rs:99-105 | repeated `next` yields `|rest| / BYTES` samples from `rest` |
| WavSample.SampleAt | src/streaming_wav.rs:139-173 | sample `k` is decoded from bytes `k * BYTES` up to `(k + 1) * BYTES` |
| WavSample.SamplesAppend | src/streaming_wav.rs:99-105 | decoding bytes split at a sample boundary concatenates the two parts' samples |
| WavSample.PartialSampleDropped | src/streaming_wav.rs:141-143 | a trailing partial sample yields nothing |
| WavSample.EncodingDetermined | src/streaming_wav.rs:127-165 | no two encodings share both `FORMAT` and `BITS`, so the `fmt ` checks identify the encoding |
| WavSample.ReadSample | src/streaming_wav.rs:139-173 | `WavSample::next`: a sample exactly when `BYTES` bytes remain, consuming exactly them; it is the head of the pending samples; `None` on a short read |
| ChunkScan.HasTag | src/streaming_wav.rs:26-61 | the tag comparisons (`RIFF`, `WAVE`, `fmt `, `data`), made in place; `ChunkScan.HasTagSlice` states that each is the comparison of the 4-byte slice |
| ChunkScan.HasTagSlice | src/streaming_wav.rs:26-44 | comparing four bytes in place with a tag is comparing the 4-byte slice |
| ChunkScan.PaddedSize | src/streaming_wav.rs:71-74 | the skip length is the least even number not below the chunk size |
| ChunkScan.ParseFmt | src/streaming_wav.rs:46-60 | the `fmt ` checks: an accepted chunk has at least 16 bytes, and the only errors are the format and bit-depth errors |
| ChunkScan.ChunkAt | src/streaming_wav.rs:38-76 | one loop pass moves at least 8 bytes on and stays inside the input; it stops only on a `data` tag; its only errors are `Io`, format and bit depth |
| ChunkScan.ScanChunks | src/streaming_wav.rs:37-77 | the loop ends just past a header inside the input, or with `Io`, a format or a bit-depth error, never a marker error |
| ChunkScan.Open | src/streaming_wav.rs:20-78 | on success the samples start at least 20 bytes in, within the input |
| ChunkScan.Decode | src/streaming_wav.rs:20-105 | construction then iteration: a stream exactly when construction succeeds, holding every whole sample after the `data` header, so the samples fit behind a header of at least 20 bytes; what it yields on written files is `WavLayout.DecodeWaveFile`, and `WavFile.SameEffectSameDecode` says what it depends on |
| ChunkScan.HeaderErrorOrder | src/streaming_wav.rs:22-31 | fewer than 12 bytes give `Io`; a wrong `RIFF` marker gives `InvalidRiffFormat` whatever the rest holds; `InvalidWaveFormat` exactly when `RIFF` is right and `WAVE` is wrong |
| ChunkScan.RiffSizeIgnored | src/streaming_wav.rs:22-31 | bytes 4 to 7 of the header never change the outcome |
| ChunkScan.FmtChunkStep | src/streaming_wav.rs:44-60 | a `fmt ` chunk is read in full (a short read is `Io`), checked, consumed with no padding byte, and replaces the channel count and sample rate (a proof step: `ChunkAt` unfolded on a `fmt ` tag) |
| ChunkScan.DataChunkStep | src/streaming_wav.rs:61-68 | a `data` tag ends the scan just past its header, whatever size it declares, with the format found so far |
| ChunkScan.SkipChunkStep | src/streaming_wav.rs:69-76 | any other chunk of size `n` moves the scan on by exactly `8 + n + n % 2`, or to the end, whatever its payload, and keeps the format |
| ChunkScan.ScanMovesOn | src/streaming_wav.rs:37-77 | after a pass that moves on, the scan continues from the next chunk with the format it left (a proof step: `ScanChunks` unfolded once) |
| ChunkScan.ScanStopsAfterDataHeader | src/streaming_wav.rs:61-68 | a successful scan stops right after a `data` chunk header |
| ChunkScan.OpenStopsAfterDataHeader | src/streaming_wav.rs:61-68 | on success no byte of the `data` payload has been consumed |
| ChunkScan.ChunkAtReadsOnlyFrom | src/streaming_wav.rs:38-76 | one loop pass depends only on the bytes from its own offset on |
| ChunkScan.ScanReadsOnlyFrom | src/streaming_wav.rs:37-77 | the loop depends only on the bytes from its own offset on |
| Decoder.StreamingWav.New | src/streaming_wav.rs:20-78 | construction ends as `Open` of the input does: same error, panic or success; on success the decoder has the scanned channels and rate, and the cursor is at the first sample byte |
| Decoder.StreamingWav.FromParts | src/streaming_wav.rs:63-68 | the decoder owns the source with the scanned channel count and sample rate |
| Decoder.StreamingWav.Next | src/streaming_wav.rs:99-105 | pops the head of the pending samples, consuming `BYTES` bytes; `None` exactly when none are pending, and then none stay pending |
| Decoder.StreamingWav.Channels | src/streaming_wav.rs:86-88 | the channel count fixed at construction |
| Decoder.StreamingWav.SampleRate | src/streaming_wav.rs:90-92 | the sample rate fixed at construction |
| Decoder.StreamingWav.CurrentFrameLen | src/streaming_wav.rs:82-84 | always unknown |
| Decoder.StreamingWav.TotalDuration | src/streaming_wav.rs:94-96 | always unknown |
| Decoder.Drain | src/streaming_wav.rs:99-105 | pulling until `None` yields every pending sample, in order, after which none are pending |
| Decoder.ReadAll | src/streaming_wav.rs:20-105 | constructing the decoder over a fresh source and pulling until `None` gives exactly `Decode` of the input, the channel count and rate included; one more pull after that is `None` |
| Decoder.ReadChunk | src/streaming_wav.rs:38-76 | one loop pass on the source is `ChunkAt` at its position, and the cursor ends where the next pass starts |
| Decoder.DispatchChunk | src/streaming_wav.rs:44-76 | the branch on the chunk id after its header was read is `ChunkAt` of that chunk |
| Decoder.SkipChunk | src/streaming_wav.rs:71-75 | skipping a chunk of size `n` moves the cursor by `n + n % 2`, or to the end |
| Decoder.ReadFmtChunk | src/streaming_wav.rs:46-60 | reading a `fmt ` chunk is `Io` on a short read, else `ParseFmt` of exactly the `size` bytes read |
| WavFile.EncodeFmt | src/streaming_wav.rs:49-56 | the `fmt ` payload layout: 16 bytes of fields plus the extension |
| WavFile.ParseEncodedFmt | src/streaming_wav.rs:49-59 | the format code is checked first, then the bit depth, with the codes read reported; the channel count and rate are kept; byte rate, block alignment and extension are never checked |
| WavFile.FmtStep | src/streaming_wav.rs:44-76 | what one leading chunk does to the format: a `fmt ` chunk is parsed, any other chunk keeps it; `WavFile.ChunkAtHeld` states that a loop pass over a laid-out chunk has this effect |
| WavFile.ChunksEffect | src/streaming_wav.rs:37-77 | the reference semantics of the loop's effect on `channels` and `sample_rate` (:54-55): a fold of `FmtStep` over the leading chunks that stops at the first rejection; every file-level lemma is stated against it |
| WavFile.ChunksEffectCons | src/streaming_wav.rs:37-77 | the first chunk's effect, then the rest's; a rejection ends the run |
| WavFile.OtherChunksKeepFormat | src/streaming_wav.rs:69-76 | chunks other than `fmt ` leave the channel count and rate unchanged |
| WavFile.ChunksEffectAppend | src/streaming_wav.rs:37-77 | two runs of chunks act one after the other |
| WavFile.LastFmtWins | src/streaming_wav.rs:54-55 | the channel count and rate in force are those of the last `fmt ` chunk |
| WavFile.ChunkAtHeld | src/streaming_wav.rs:38-76 | a pass over a chunk laid out in the input does what the chunk's effect says and lands on the next chunk |
| WavFile.ScanOverChunk | src/streaming_wav.rs:37-77 | the scan over one laid-out chunk continues with that chunk's effect |
| WavFile.ScanOverFirst | src/streaming_wav.rs:37-77 | one chunk in front of chunks whose scan is known |
| WavFile.ScanOverChunks | src/streaming_wav.rs:37-77 | the scan runs through laid-out chunks with their combined effect and carries on just after them |
| WavFile.OpenLaidOut | src/streaming_wav.rs:20-78 | construction on a laid-out file gives the chunks' effect (0 channels at 0 Hz with no `fmt `) or their first rejection, with samples just past the `data` header |
| WavFile.DecodeLaidOut | src/streaming_wav.rs:20-105 | a laid-out file yields the chunks' format and every whole sample after the `data` header, whatever the declared sizes |
| WavFile.NoDataChunk | src/streaming_wav.rs:37-42 | chunks that run to the end of the input without a `data` chunk give `Io`, unless a `fmt ` chunk was rejected first |
| WavFile.OtherChunkNoEffect | src/streaming_wav.rs:69-76 | a chunk other than `fmt ` can be inserted anywhere without changing the effect |
| WavFile.SameEffectSameDecode | src/streaming_wav.rs:20-105 | files with the same chunk effect and the same bytes after the `data` header decode alike |
| WavFile.UnknownChunkTransparent | src/streaming_wav.rs:69-76 | an unknown chunk of any size and content is invisible to channels, rate, samples and errors |
| WavLayout.Padding | src/streaming_wav.rs:72-74 | the padding makes a payload's stored length its padded size |
| WavLayout.ChunkBytes | src/streaming_wav.rs:39-42 | a stored chunk takes 8 header bytes plus its padded payload |
| WavLayout.Offsets | src/streaming_wav.rs:37-77 | chunk offsets start at the base and end just past the stored chunks |
| WavLayout.ChunkHeldAt | src/streaming_wav.rs:39-42 | a stored chunk's tag, size and payload are read back where it was stored |
| WavLayout.OffsetsStep | src/streaming_wav.rs:37-77 | each chunk offset is the previous one plus the stored size of the chunk between |
| WavLayout.StoredChunk | src/streaming_wav.rs:39-42 | chunk `i` of the stored chunks is stored at offset `i` |
| WavLayout.ChunksHeld | src/streaming_wav.rs:37-77 | stored chunks are held at their offsets |
| WavLayout.FrameAround | src/streaming_wav.rs:22-31 | a written file has a valid RIFF header, its chunks from offset 12, then a `data` header and the body |
| WavLayout.WaveFileLaidOut | src/streaming_wav.rs:20-78 | a written file is laid out, with the body right after the `data` header |
| WavLayout.DecodeWaveFile | src/streaming_wav.rs:20-105 | decoding a written file gives back the chunks' effect and the samples of its body, whatever the declared sizes |
| WavLayout.WrittenUnknownChunkIgnored | src/streaming_wav.rs:69-76 | adding an unknown chunk to a written file does not change what it decodes to |
| Scenarios.SingleChunkEffect | src/streaming_wav.rs:37-77 | one chunk's effect is its own step (a proof step: `ChunksEffect` unfolded on one chunk) |
| Scenarios.Pcm16Values | src/streaming_wav.rs:156 | `00 00`, `FF 7F`, `00 80` decode to 0, 32767 and -32768 |
| Scenarios.U8Values | src/streaming_wav.rs:142 | `80`, `00`, `FF` decode to 0, -32768 and 32512 |
| Scenarios.Pcm16File | src/streaming_wav.rs:20-105 | a 50-byte mono 16-bit 44.1 kHz file, declaring its true RIFF size 42, yields 1 channel, 44100 Hz and its three samples |
| Scenarios.Bits24Rejected | src/streaming_wav.rs:56-59 | a 24-bit file is refused by a 16-bit decoder with `UnsupportedBitsPerSample(24)` |
| Scenarios.PcmRejectedAsFloat | src/streaming_wav.rs:49-51 | an integer PCM file is refused by a float decoder with `UnsupportedAudioFormat(1)` |
| Scenarios.Junk3Ignored | src/streaming_wav.rs:69-76 | a 3-byte `JUNK` chunk before `fmt ` changes nothing |
| Scenarios.NoFmtChunk | src/streaming_wav.rs:33-34 | without a `fmt ` chunk the decoder reports 0 channels at 0 Hz and still yields the samples |
| Scenarios.ShortFmtPanics | src/streaming_wav.rs:56 | an 8-byte `fmt ` chunk with the right code, a channel count and a sample rate panics on the bit-depth slice `[14..16]` |

## Left out

- `src/lib.rs` (HTTP acquisition and its error wrapping) is not part of this model: it holds no format logic.
- The `rodio` `Sample` and `Source` traits and `std::time::Duration` are not modelled. The four getters are plain functions, and `TotalDuration` returns an optional nanosecond count that is always `None`.
- `WavSample.DecodeSample`: does not interpret `f32::from_le_bytes`. An `f32` sample is kept as its 32-bit pattern, because floating-point values are outside the model.
- The `thiserror` display strings are not modelled. Neither is the `std::io::Error` inside `Io`: every short read is the single `Io` value.
- I/O faults other than running out of input are left out. The source is a finite in-memory input, so a fault and a clean end look the same, as they do to the decoder.
- `Reader.ByteReader.ReadExact`: `read_exact` leaves the amount consumed by a failed read unspecified. The model takes "a failed read consumes the rest of the input"; nothing in the decoder observes the choice.
- `Reader.ByteReader.Skip`: the buffering inside `io::copy` is not modelled, only the number of bytes it consumes.
- Allocation failure of `vec![0u8; chunk_size]` is not modelled. Neither is overflow of `skip + 1` on a 32-bit `usize`: sizes are unbounded integers, and `chunk_size + 1` cannot overflow on a 64-bit target.
- `WavFile.LeadingChunk`: a `fmt ` chunk of odd size is left out of laid-out files. The decoder skips no padding byte after it, so the next header is read one byte early. `ChunkScan.ChunkAt` still models that read exactly.
- `Decoder.StreamingWav.New`: `new` takes the reader by value and the decoder owns it. The model's decoder holds a reference to the caller's `Reader.ByteReader`, so exclusive ownership is not captured, and neither is the absence of aliasing that it guarantees.
- Blocking on a source that never ends is not modelled, because inputs are finite.
