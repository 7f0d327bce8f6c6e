/**
  The audio library's values as the core sees them: a stream format, a
  decoded buffer known by its length and format, and streamers as opaque
  tokens that record how they were built. Sample data, mixing and
  resampling arithmetic stay inside the library and are not modelled.
 */
module Beep {

  /** `beep.Format`; `precision` is the sample width in bytes, 0 when left unset. */
  datatype Format = Format(sampleRate: nat, numChannels: nat, precision: nat)

  /** `beep.Buffer`: decoded audio of `len` samples, identified by `id`. */
  datatype Buffer = Buffer(id: nat, format: Format, len: nat)

  /** A `beep.Streamer`, by the way it was built. */
  datatype Streamer =
      /** A live source, such as a PCM streamer, identified by `id`. */
    | Live(id: nat)
      /** `buffer.Streamer(from, to)`: samples `from` up to `to` of a buffer. */
    | Window(buffer: Buffer, from: nat, to: nat)
      /** `effects.Volume` with base 2 and volume -0.5. */
    | Attenuated(inner: Streamer)
      /** `beep.Resample(quality, from, to, inner)`. */
    | Resampled(quality: nat, fromRate: nat, toRate: nat, inner: Streamer)

  /** What a `GetStreamer` call hands back on success. */
  datatype Opened = Opened(streamer: Streamer, format: Format)
}
