/**
  `PCMStreamer`: a cursor over a FIFO of interleaved stereo PCM packets that
  fills the audio library's frame arrays two samples per frame.

  The packet channel is a shared `PacketFeed` holding the packets that reach
  it before the current call ends; samples are kept as 16-bit integers (the
  division by 32767 into floating point is left to the library).
 */
module PcmStreamer {
  import opened Wrappers
  import opened Ffmpg
  import opened Beep

  const ErrAlreadyClosed: string := "already closed"
  const StreamerRate: nat := 48000
  /** Samples in the silence packet: 20 ms at 48 kHz, two channels. */
  const SilenceSamples: nat := 960 * 2

  /** One stereo frame, `[2]float64` before scaling. */
  datatype Frame = Frame(left: Int16, right: Int16)

  /** The packet channel: the packets sent and not yet received, oldest first. */
  class PacketFeed {
    var packets: seq<seq<Int16>>

    constructor (packets: seq<seq<Int16>>)
      ensures this.packets == packets
    {
      this.packets := packets;
    }
  }

  predicate EvenPackets(packets: seq<seq<Int16>>) {
    forall i :: 0 <= i < |packets| ==> |packets[i]| % 2 == 0
  }

  /** A cursor position: an even index into an even-length packet. */
  predicate Cursor(pcm: seq<Int16>, idx: nat) {
    |pcm| % 2 == 0 && idx % 2 == 0 && idx <= |pcm|
  }

  /** Every sample still to be streamed: the rest of the current packet, then the queued packets. */
  function Remaining(pcm: seq<Int16>, idx: nat, packets: seq<seq<Int16>>): seq<Int16>
    requires idx <= |pcm|
  {
    pcm[idx..] + Flatten(packets)
  }

  function Flatten(packets: seq<seq<Int16>>): seq<Int16>
    decreases |packets|
  {
    if packets == [] then [] else packets[0] + Flatten(packets[1..])
  }

  /**
    What `want` frames of streaming do: the frames produced, the cursor and
    queue afterwards, and whether the queue ran dry (the call then waits).
   */
  datatype Fill = Fill(frames: seq<Frame>, pcm: seq<Int16>, idx: nat, packets: seq<seq<Int16>>, starved: bool)

  /**
    The frames the loop of `Stream` writes: a new packet is taken only when
    the current one is used up, and each frame is the next two samples.
   */
  function FillFrames(pcm: seq<Int16>, idx: nat, packets: seq<seq<Int16>>, want: nat): (r: Fill)
    requires Cursor(pcm, idx) && EvenPackets(packets)
    ensures Cursor(r.pcm, r.idx) && EvenPackets(r.packets)
    ensures !r.starved ==> |r.frames| == want
    ensures r.starved ==> |r.frames| < want && r.packets == [] && r.idx == |r.pcm|
    decreases want, |packets|
  {
    if want == 0 then Fill([], pcm, idx, packets, false)
    else if idx >= |pcm| then
      if packets == [] then Fill([], pcm, idx, packets, true)
      else FillFrames(packets[0], 0, packets[1..], want)
    else
      var rest := FillFrames(pcm, idx + 2, packets, want - 1);
      rest.(frames := [Frame(pcm[idx], pcm[idx + 1])] + rest.frames)
  }

  /** `fill` with `frames` written before it. */
  function Prepend(frames: seq<Frame>, fill: Fill): Fill {
    fill.(frames := frames + fill.frames)
  }

  /** With samples left in the current packet, the next frame written is its next two samples. */
  lemma FillAdvance(written: seq<Frame>, pcm: seq<Int16>, idx: nat, packets: seq<seq<Int16>>, want: nat)
    requires Cursor(pcm, idx) && EvenPackets(packets)
    requires idx < |pcm| && want > 0
    ensures Cursor(pcm, idx + 2)
    ensures Prepend(written, FillFrames(pcm, idx, packets, want))
      == Prepend(written + [Frame(pcm[idx], pcm[idx + 1])], FillFrames(pcm, idx + 2, packets, want - 1))
  {
    var rest := FillFrames(pcm, idx + 2, packets, want - 1);
    assert written + ([Frame(pcm[idx], pcm[idx + 1])] + rest.frames)
      == (written + [Frame(pcm[idx], pcm[idx + 1])]) + rest.frames;
  }

  /** With the current packet used up, streaming goes on from the next queued packet. */
  lemma FillTake(pcm: seq<Int16>, idx: nat, packets: seq<seq<Int16>>, want: nat)
    requires Cursor(pcm, idx) && EvenPackets(packets)
    requires idx >= |pcm| && packets != [] && want > 0
    ensures FillFrames(pcm, idx, packets, want) == FillFrames(packets[0], 0, packets[1..], want)
  {
  }

  /**
    Streaming `want` frames is a FIFO read of the sample stream: frame `k` is
    samples `2k` and `2k+1` of what remained, the leftover samples carry over
    to the next call, and the queue runs dry exactly when fewer than
    `2 * want` samples remained.
   */
  ghost predicate StreamsInOrder(pcm: seq<Int16>, idx: nat, packets: seq<seq<Int16>>, want: nat)
    requires Cursor(pcm, idx) && EvenPackets(packets)
  {
    var r := FillFrames(pcm, idx, packets, want);
    var s := Remaining(pcm, idx, packets);
    && 2 * |r.frames| <= |s|
    && (forall k :: 0 <= k < |r.frames| ==> r.frames[k] == Frame(s[2 * k], s[2 * k + 1]))
    && Remaining(r.pcm, r.idx, r.packets) == s[2 * |r.frames|..]
    && (r.starved <==> |s| < 2 * want)
  }

  lemma {:induction false} FillFramesStream(pcm: seq<Int16>, idx: nat, packets: seq<seq<Int16>>, want: nat)
    requires Cursor(pcm, idx) && EvenPackets(packets)
    ensures StreamsInOrder(pcm, idx, packets, want)
    decreases want, |packets|
  {
    if want == 0 {
      assert Remaining(pcm, idx, packets)[0..] == Remaining(pcm, idx, packets);
    } else if idx >= |pcm| {
      if packets != [] {
        FillFramesStream(packets[0], 0, packets[1..], want);
        assert Remaining(packets[0], 0, packets[1..]) == Remaining(pcm, idx, packets);
      }
    } else {
      FillFramesStream(pcm, idx + 2, packets, want - 1);
      StreamsInOrderStep(pcm, idx, packets, want);
    }
  }

  /** One frame taken from the current packet keeps the frames in stream order. */
  lemma StreamsInOrderStep(pcm: seq<Int16>, idx: nat, packets: seq<seq<Int16>>, want: nat)
    requires Cursor(pcm, idx) && EvenPackets(packets)
    requires idx < |pcm| && want > 0
    requires StreamsInOrder(pcm, idx + 2, packets, want - 1)
    ensures StreamsInOrder(pcm, idx, packets, want)
  {
    var s := Remaining(pcm, idx, packets);
    var rest := FillFrames(pcm, idx + 2, packets, want - 1);
    var r := FillFrames(pcm, idx, packets, want);
    assert Remaining(pcm, idx + 2, packets) == s[2..];
    assert r.frames == [Frame(pcm[idx], pcm[idx + 1])] + rest.frames;
    forall k | 0 <= k < |r.frames|
      ensures r.frames[k] == Frame(s[2 * k], s[2 * k + 1])
    {
      if k > 0 {
        assert r.frames[k] == rest.frames[k - 1];
      }
    }
  }

  /**
    The loop of `Stream`: writes frames into `samples` from the cursor
    `(pcm, idx)` and the queue until the array is full or the queue runs dry,
    and hands back the number written and the cursor and queue left over.
   */
  method CopyFrames(samples: array<Frame>, pcm: seq<Int16>, idx: nat, packets: seq<seq<Int16>>)
    returns (n: nat, pcmAfter: seq<Int16>, idxAfter: nat, packetsAfter: seq<seq<Int16>>, starved: bool)
    requires Cursor(pcm, idx) && EvenPackets(packets)
    modifies samples
    ensures var r := FillFrames(pcm, idx, packets, samples.Length);
      && n == |r.frames| && samples[..n] == r.frames
      && pcmAfter == r.pcm && idxAfter == r.idx && packetsAfter == r.packets && starved == r.starved
  {
    ghost var total := FillFrames(pcm, idx, packets, samples.Length);
    pcmAfter, idxAfter, packetsAfter := pcm, idx, packets;
    n := 0;
    starved := false;
    while n < samples.Length
      invariant 0 <= n <= samples.Length
      invariant Cursor(pcmAfter, idxAfter) && EvenPackets(packetsAfter)
      invariant !starved
      invariant total == Prepend(samples[..n], FillFrames(pcmAfter, idxAfter, packetsAfter, samples.Length - n))
      decreases samples.Length - n, |packetsAfter|
    {
      if idxAfter >= |pcmAfter| {
        if packetsAfter == [] {
          starved := true;
          break;
        }
        FillTake(pcmAfter, idxAfter, packetsAfter, samples.Length - n);
        pcmAfter, idxAfter, packetsAfter := packetsAfter[0], 0, packetsAfter[1..];
      } else {
        var frame := Frame(pcmAfter[idxAfter], pcmAfter[idxAfter + 1]);
        ghost var written := samples[..n];
        FillAdvance(written, pcmAfter, idxAfter, packetsAfter, samples.Length - n);
        samples[n] := frame;
        assert samples[..n + 1] == written + [frame];
        idxAfter := idxAfter + 2;
        n := n + 1;
      }
    }
  }

  /** How a call to `Stream` ends. */
  datatype StreamResult =
      /** `Stream` returned `(n, ok)`. */
    | Streamed(n: nat, ok: bool)
      /** The queue ran dry after `written` frames; the call is still waiting for a packet. */
    | Waiting(written: nat)

  class PCMStreamer {
    const feed: PacketFeed
    const silence: seq<Int16>
    var pcm: seq<Int16>
    var pcmIdx: nat
    var closed: bool

    ghost predicate Valid()
      reads this, feed
    {
      Cursor(pcm, pcmIdx) && EvenPackets(feed.packets)
    }

    /** `NewPCMStreamer`: an open streamer with an empty buffer and a 20 ms silence packet. */
    constructor (feed: PacketFeed)
      requires EvenPackets(feed.packets)
      ensures Valid()
      ensures this.feed == feed && pcm == [] && pcmIdx == 0 && !closed
      ensures silence == seq(SilenceSamples, _ => 0)
    {
      this.feed := feed;
      silence := seq(SilenceSamples, _ => 0);
      pcm := [];
      pcmIdx := 0;
      closed := false;
    }

    /**
      Fills `samples` from the packet queue. A closed streamer yields
      `(0, false)` and touches nothing; otherwise the array holds the frames
      `FillFrames` describes. If the queue runs dry and a concurrent `Close`
      signals meanwhile (`closedWhileWaiting`), the call yields `(0, false)`
      although frames were written; without that signal it keeps waiting.
     */
    method Stream(samples: array<Frame>, closedWhileWaiting: bool) returns (res: StreamResult)
      requires Valid()
      modifies this, feed, samples
      ensures Valid()
      ensures old(closed) ==>
        && res == Streamed(0, false) && closed
        && pcm == old(pcm) && pcmIdx == old(pcmIdx) && feed.packets == old(feed.packets)
        && samples[..] == old(samples[..])
      ensures !old(closed) ==>
        var r := FillFrames(old(pcm), old(pcmIdx), old(feed.packets), samples.Length);
        && samples[..|r.frames|] == r.frames
        && pcm == r.pcm && pcmIdx == r.idx && feed.packets == r.packets
        && (!r.starved ==> res == Streamed(samples.Length, true) && !closed)
        && (r.starved && closedWhileWaiting ==> res == Streamed(0, false) && closed)
        && (r.starved && !closedWhileWaiting ==> res == Waiting(|r.frames|) && !closed)
    {
      if closed {
        return Streamed(0, false);
      }
      var n, buf, idx, queue, starved := CopyFrames(samples, pcm, pcmIdx, feed.packets);
      pcm, pcmIdx, feed.packets := buf, idx, queue;
      if starved {
        if closedWhileWaiting {
          closed := true;
          return Streamed(0, false);
        }
        return Waiting(n);
      }
      return Streamed(n, true);
    }

    /** Marks the streamer closed; a second call reports `ErrAlreadyClosed`. */
    method Close() returns (err: Option<string>)
      modifies this
      ensures closed
      ensures err == (if old(closed) then Some(ErrAlreadyClosed) else None)
      ensures pcm == old(pcm) && pcmIdx == old(pcmIdx)
    {
      if closed {
        return Some(ErrAlreadyClosed);
      }
      closed := true;
      err := None;
    }

    /** A new open streamer on the same packet queue and silence packet, with an empty buffer. */
    method Reopen() returns (s: PCMStreamer)
      requires Valid()
      ensures fresh(s) && s.Valid()
      ensures s.feed == feed && s.silence == silence
      ensures s.pcm == [] && s.pcmIdx == 0 && !s.closed
    {
      s := new PCMStreamer.Share(feed, silence);
    }

    constructor Share(feed: PacketFeed, silence: seq<Int16>)
      requires EvenPackets(feed.packets)
      ensures Valid()
      ensures this.feed == feed && this.silence == silence && pcm == [] && pcmIdx == 0 && !closed
    {
      this.feed := feed;
      this.silence := silence;
      pcm := [];
      pcmIdx := 0;
      closed := false;
    }

    /** `GetStreamer`: the streamer itself, at 48000 Hz in two channels. */
    function GetStreamerFormat(): (f: Format)
      ensures f.sampleRate == StreamerRate && f.numChannels == 2
    {
      Format(StreamerRate, 2, 0)
    }
  }

  /** Streaming successfully fills every frame of the array. */
  lemma StreamFillsAll(pcm: seq<Int16>, idx: nat, packets: seq<seq<Int16>>, want: nat)
    requires Cursor(pcm, idx) && EvenPackets(packets)
    requires 2 * want <= |Remaining(pcm, idx, packets)|
    ensures !FillFrames(pcm, idx, packets, want).starved
    ensures |FillFrames(pcm, idx, packets, want).frames| == want
  {
    FillFramesStream(pcm, idx, packets, want);
    assert StreamsInOrder(pcm, idx, packets, want);
  }
}
