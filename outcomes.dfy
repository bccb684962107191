/** The results that construction and iteration of a streaming WAVE decoder
    can produce. */
module Outcomes {
  import opened Binary

  datatype Option<T> = None | Some(value: T)

  /** The typed construction errors of `StreamingWavError`. The wrapped
      `std::io::Error` cause is not modelled: every short read is `Io`. */
  datatype StreamingWavError =
    | Io
    | InvalidRiffFormat
    | InvalidWaveFormat
    | UnsupportedAudioFormat(code: u16)
    | UnsupportedBitsPerSample(bits: u16)

  /** The end of a construction: a value, a typed error, or `Abort`, the
      panic raised by slicing a `fmt ` chunk that is too short to hold the
      fields being read. `Abort` is not an error value of the source. */
  datatype Outcome<T> = Ok(value: T) | Err(error: StreamingWavError) | Abort
}
