/**
  The PCM side of the ffmpeg bridge: 16-bit little-endian sample coding and
  the provider that cuts ffmpeg's output pipe into fixed-size frames of 960
  samples per channel.

  The output pipe is the sequence of bytes it will still yield; spawning and
  waiting for the ffmpeg process are not modelled.
 */
module Ffmpg {
  import opened Wrappers

  const Channels: nat := 2
  const SampleRate: nat := 48000
  const BufferSize: nat := 65307
  /** Samples per channel in one frame (20 ms at 48 kHz). */
  const FrameSamples: nat := 960

  type Byte = x: int | 0 <= x < 256
  type Int16 = x: int | -0x8000 <= x < 0x8000

  // ----- one sample -----

  /** `int16(binary.LittleEndian.Uint16([lo, hi]))`: the unsigned value read as two's complement. */
  function DecodeSample(lo: Byte, hi: Byte): (s: Int16)
    ensures 0 <= s ==> s == hi * 256 + lo
    ensures s < 0 ==> s == hi * 256 + lo - 0x1_0000
  {
    var u := hi * 256 + lo;
    if u < 0x8000 then u else u - 0x1_0000
  }

  /** `binary.LittleEndian.PutUint16(b, uint16(s))`: low byte first, of `s` taken modulo 2^16. */
  function EncodeLow(s: Int16): Byte {
    (s % 0x1_0000) % 256
  }

  function EncodeHigh(s: Int16): Byte {
    (s % 0x1_0000) / 256
  }

  lemma DecodeEncodeSample(s: Int16)
    ensures DecodeSample(EncodeLow(s), EncodeHigh(s)) == s
  {
    var u := (s as int) % 0x1_0000;
    assert EncodeHigh(s) * 256 + EncodeLow(s) == u;
  }

  lemma EncodeDecodeSample(lo: Byte, hi: Byte)
    ensures EncodeLow(DecodeSample(lo, hi)) == lo && EncodeHigh(DecodeSample(lo, hi)) == hi
  {
    var s: int := DecodeSample(lo, hi);
    assert s % 0x1_0000 == hi * 256 + lo;
  }

  // ----- sample streams -----

  /** The samples of a little-endian byte stream, two bytes each; a trailing odd byte is ignored. */
  function DecodeLE(bytes: seq<Byte>): (samples: seq<Int16>)
    ensures |samples| == |bytes| / 2
    decreases |bytes|
  {
    if |bytes| < 2 then [] else [DecodeSample(bytes[0], bytes[1])] + DecodeLE(bytes[2..])
  }

  /** The little-endian bytes of a sample stream. */
  function EncodeLE(samples: seq<Int16>): (bytes: seq<Byte>)
    ensures |bytes| == 2 * |samples|
    decreases |samples|
  {
    if samples == [] then [] else [EncodeLow(samples[0]), EncodeHigh(samples[0])] + EncodeLE(samples[1..])
  }

  /** Sample `i` comes from bytes `2i` and `2i+1`. */
  lemma {:induction false} DecodeLEAt(bytes: seq<Byte>, i: nat)
    requires i < |bytes| / 2
    ensures DecodeLE(bytes)[i] == DecodeSample(bytes[2 * i], bytes[2 * i + 1])
    decreases i
  {
    if i > 0 {
      DecodeLEAt(bytes[2..], i - 1);
    }
  }

  /** Bytes `2i` and `2i+1` are the low and high byte of sample `i`. */
  lemma {:induction false} EncodeLEAt(samples: seq<Int16>, i: nat)
    requires i < |samples|
    ensures EncodeLE(samples)[2 * i] == EncodeLow(samples[i])
    ensures EncodeLE(samples)[2 * i + 1] == EncodeHigh(samples[i])
    decreases i
  {
    if i > 0 {
      EncodeLEAt(samples[1..], i - 1);
    }
  }

  /** Decoding what was encoded gives the samples back. */
  lemma {:induction false} DecodeEncode(samples: seq<Int16>)
    ensures DecodeLE(EncodeLE(samples)) == samples
    decreases |samples|
  {
    if samples != [] {
      DecodeEncode(samples[1..]);
      DecodeEncodeSample(samples[0]);
      var b := EncodeLE(samples);
      assert b[2..] == EncodeLE(samples[1..]);
    }
  }

  /** Encoding what was decoded gives an even-length byte stream back. */
  lemma {:induction false} EncodeDecode(bytes: seq<Byte>)
    requires |bytes| % 2 == 0
    ensures EncodeLE(DecodeLE(bytes)) == bytes
    decreases |bytes|
  {
    if |bytes| >= 2 {
      EncodeDecode(bytes[2..]);
      EncodeDecodeSample(bytes[0], bytes[1]);
      assert bytes == [bytes[0], bytes[1]] + bytes[2..];
    }
  }

  /** Decoding is compositional over even-length windows: successive frames decode successive windows. */
  lemma {:induction false} DecodeAppend(a: seq<Byte>, b: seq<Byte>)
    requires |a| % 2 == 0
    ensures DecodeLE(a + b) == DecodeLE(a) + DecodeLE(b)
    decreases |a|
  {
    if |a| >= 2 {
      DecodeAppend(a[2..], b);
      assert (a + b)[2..] == a[2..] + b;
    } else {
      assert a + b == b;
    }
  }

  // ----- the frame provider -----

  /** How a call to `ProvidePCMFrame` ends. */
  datatype FrameOutcome =
    | FullFrame
      /** `io.EOF`: the pipe had nothing left, or was closed. */
    | EndOfStream
      /** A partial frame: `error reading PCM data: unexpected EOF`. */
    | ReadError(message: string)

  const PartialFrameError: string := "error reading PCM data: unexpected EOF"

  /** Fills a fresh sample array from a frame's bytes, sample `i` from bytes `2i` and `2i+1`. */
  method DecodeFrame(buf: seq<Byte>) returns (samples: array<Int16>)
    ensures fresh(samples)
    ensures samples[..] == DecodeLE(buf)
  {
    samples := new Int16[|buf| / 2];
    var i := 0;
    while i < samples.Length
      invariant 0 <= i <= samples.Length
      invariant forall k :: 0 <= k < i ==> samples[k] == DecodeLE(buf)[k]
    {
      DecodeLEAt(buf, i);
      samples[i] := DecodeSample(buf[2 * i], buf[2 * i + 1]);
      i := i + 1;
    }
  }

  /** Reading a full frame after the framed prefix extends the framed prefix by that frame. */
  lemma AdvanceFrame(consumed: seq<Byte>, pending: seq<Byte>, framedBytes: nat, frameSize: nat)
    requires framedBytes == |consumed| && framedBytes % 2 == 0
    requires frameSize <= |pending| && frameSize % 2 == 0
    ensures var next := consumed + pending[..frameSize];
      && next + pending[frameSize..] == consumed + pending
      && next[..|next|] == next
      && consumed[..framedBytes] == consumed
      && DecodeLE(next) == DecodeLE(consumed) + DecodeLE(pending[..frameSize])
  {
    DecodeAppend(consumed, pending[..frameSize]);
    assert pending[..frameSize] + pending[frameSize..] == pending;
  }

  /** Bytes in one frame of `channels` interleaved channels. */
  function FrameBytes(channels: nat): nat {
    FrameSamples * channels * 2
  }

  /** `AudioProvider`: ffmpeg's output pipe read through a buffered reader. */
  class AudioProvider {
    const channels: nat
    /** Everything ffmpeg writes to its output pipe. */
    const output: seq<Byte>
    /** What the pipe has yielded so far. */
    var consumed: seq<Byte>
    /** What the pipe will still yield. */
    var pending: seq<Byte>
    /** How many of the consumed bytes were read as full frames. */
    var framedBytes: nat
    /** Every sample handed out so far, frame after frame. */
    var delivered: seq<Int16>
    var pipeClosed: bool
    /** Whether `doneFunc` has been called. */
    var done: bool

    /**
      The pipe is split into what was consumed and what is pending; the
      samples handed out are the decode of the consumed full frames, and
      only a final partial frame is consumed without being framed.
     */
    ghost predicate Valid()
      reads this
    {
      && channels >= 1
      && consumed + pending == output
      && framedBytes <= |consumed| && framedBytes % 2 == 0
      && (framedBytes < |consumed| ==> pending == [])
      && delivered == DecodeLE(consumed[..framedBytes])
    }

    /** `New`, once the process runs: nothing read yet. */
    constructor (channels: nat, output: seq<Byte>)
      requires channels >= 1
      ensures Valid()
      ensures this.channels == channels && this.output == output
      ensures consumed == [] && pending == output && delivered == [] && !pipeClosed && !done
    {
      this.channels := channels;
      this.output := output;
      consumed := [];
      pending := output;
      framedBytes := 0;
      delivered := [];
      pipeClosed := false;
      done := false;
    }

    /**
      Reads one frame: a full frame decodes to exactly 960 * channels samples
      of exactly the next frame's bytes; an empty or closed pipe is end of
      stream and fires `done`; a partial frame is an error that drains the pipe.
     */
    method ProvidePCMFrame() returns (samples: array<Int16>, outcome: FrameOutcome)
      requires Valid()
      modifies this
      ensures Valid()
      ensures fresh(samples)
      ensures pipeClosed == old(pipeClosed)
      ensures (old(pipeClosed) || old(pending) == []) ==>
        && outcome == EndOfStream && samples.Length == 0 && done
        && pending == old(pending) && consumed == old(consumed) && delivered == old(delivered)
      ensures !old(pipeClosed) && 0 < |old(pending)| < FrameBytes(channels) ==>
        && outcome == ReadError(PartialFrameError) && samples.Length == 0
        && pending == [] && consumed == output && delivered == old(delivered) && done == old(done)
      ensures !old(pipeClosed) && |old(pending)| >= FrameBytes(channels) ==>
        && outcome == FullFrame && done == old(done)
        && delivered == old(delivered) + samples[..]
        && consumed == old(consumed) + old(pending)[..FrameBytes(channels)]
        && pending == old(pending)[FrameBytes(channels)..]
        && samples[..] == DecodeLE(old(pending)[..FrameBytes(channels)])
        && samples.Length == FrameSamples * channels
    {
      var frameSize := FrameBytes(channels);
      if pipeClosed || pending == [] {
        done := true;
        samples := new Int16[0];
        return samples, EndOfStream;
      }
      if |pending| < frameSize {
        assert (consumed + pending)[..framedBytes] == consumed[..framedBytes];
        consumed := consumed + pending;
        pending := [];
        samples := new Int16[0];
        return samples, ReadError(PartialFrameError);
      }
      var buf := pending[..frameSize];
      AdvanceFrame(consumed, pending, framedBytes, frameSize);
      consumed := consumed + buf;
      pending := pending[frameSize..];
      framedBytes := |consumed|;
      samples := DecodeFrame(buf);
      delivered := delivered + samples[..];
      outcome := FullFrame;
    }

    /** Closes the pipe and fires `done`; later reads are end of stream. */
    method Close()
      requires Valid()
      modifies this
      ensures Valid()
      ensures pipeClosed && done
      ensures consumed == old(consumed) && pending == old(pending) && delivered == old(delivered)
    {
      pipeClosed := true;
      done := true;
    }
  }
}
