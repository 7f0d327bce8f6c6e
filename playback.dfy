/**
  The playback bus: one mixer feeding the speaker, holding the prompt queue
  and every live stream added to it, behind a pause switch.

  The speaker device is outside the model: its initialisation result is a
  parameter, and the mixer is the list of what it holds, not the mixed audio.
 */
module Playback {
  import opened Wrappers
  import opened Beep
  import opened Assets
  import opened Sources

  /** The quality every resampler of the bus is built with. */
  const ResampleQuality: nat := 4
  const ClosedError: string := "playback is closed"
  const StreamerErrorPrefix: string := "failed to get streamer: "
  const SpeakerErrorPrefix: string := "failed to initialize speaker: "

  /** What the mixer holds: the prompt queue, or one added stream. */
  datatype MixEntry = PromptQueue | Track(streamer: Streamer)

  /** The streamer the bus plays for a source of the given format: resampled iff the rates differ. */
  function Conformed(got: Opened, sampleRate: nat): (s: Streamer)
    ensures got.format.sampleRate == sampleRate ==> s == got.streamer
    ensures got.format.sampleRate != sampleRate ==>
      s == Resampled(ResampleQuality, got.format.sampleRate, sampleRate, got.streamer)
  {
    if got.format.sampleRate != sampleRate
    then Resampled(ResampleQuality, got.format.sampleRate, sampleRate, got.streamer)
    else got.streamer
  }

  class Playback {
    const sampleRate: nat
    var closed: bool
    /** `ctrl.Paused`. */
    var paused: bool
    var streamers: seq<Streamer>
    var mixer: seq<MixEntry>
    /** The prompt queue's streamers, in the order they were queued. */
    var queue: seq<Streamer>

    /** The bus `NewPlayback` builds once the speaker is ready: open, playing, mixing only the prompt queue. */
    constructor (sampleRate: nat)
      ensures this.sampleRate == sampleRate
      ensures !closed && !paused && streamers == [] && mixer == [PromptQueue] && queue == []
    {
      this.sampleRate := sampleRate;
      closed := false;
      paused := false;
      streamers := [];
      mixer := [PromptQueue];
      queue := [];
    }

    /**
      Adds the stream `source.GetStreamer()` returned (`got`): refused on
      a closed bus or a failing source, otherwise appended once to both the
      mixer and `streamers`, resampled iff its rate differs from the bus's.
     */
    method AddStream(got: Result<Opened, string>) returns (err: Option<string>)
      modifies this
      ensures closed == old(closed) && paused == old(paused) && queue == old(queue)
      ensures old(closed) ==> err == Some(ClosedError) && streamers == old(streamers) && mixer == old(mixer)
      ensures !old(closed) && got.Failure? ==>
        err == Some(StreamerErrorPrefix + got.error) && streamers == old(streamers) && mixer == old(mixer)
      ensures !old(closed) && got.Success? ==>
        var s := Conformed(got.value, sampleRate);
        err == None && streamers == old(streamers) + [s] && mixer == old(mixer) + [Track(s)]
    {
      if closed {
        return Some(ClosedError);
      }
      if got.Failure? {
        return Some(StreamerErrorPrefix + got.error);
      }
      var s := Conformed(got.value, sampleRate);
      mixer := mixer + [Track(s)];
      streamers := streamers + [s];
      err := None;
    }

    /**
      Queues the prompt at `path`, always through a resampler, whether or not
      the bus is closed; a prompt missing from the cache is an error.
     */
    method AddPredecoded(cache: map<string, PredecodedAudio>, path: string) returns (err: Option<string>)
      requires Playable(cache, path)
      modifies this
      ensures closed == old(closed) && paused == old(paused)
      ensures streamers == old(streamers) && mixer == old(mixer)
      ensures path !in cache ==> err == Some(StreamerErrorPrefix + NotFoundPrefix + path) && queue == old(queue)
      ensures path in cache ==>
        && err == None
        && |queue| == |old(queue)| + 1 && queue[..|old(queue)|] == old(queue)
        && queue[|old(queue)|] == Resampled(ResampleQuality, cache[path].format.sampleRate, sampleRate,
                                            PredecodedGetStreamer(cache, path).value.streamer)
    {
      var got := PredecodedGetStreamer(cache, path);
      if got.Failure? {
        assert StreamerErrorPrefix + got.error == StreamerErrorPrefix + NotFoundPrefix + path;
        return Some(StreamerErrorPrefix + got.error);
      }
      var resampled := Resampled(ResampleQuality, got.value.format.sampleRate, sampleRate, got.value.streamer);
      queue := queue + [resampled];
      err := None;
    }

    /** Pauses an open bus; a closed one is left as it is. */
    method Pause()
      modifies this
      ensures paused == (old(paused) || !old(closed))
      ensures closed == old(closed) && streamers == old(streamers) && mixer == old(mixer) && queue == old(queue)
    {
      if !closed {
        paused := true;
      }
    }

    /** Resumes an open bus; a closed one is left as it is. */
    method Resume()
      modifies this
      ensures paused == (old(paused) && old(closed))
      ensures closed == old(closed) && streamers == old(streamers) && mixer == old(mixer) && queue == old(queue)
    {
      if !closed {
        paused := false;
      }
    }

    /** Empties the mixer, prompt queue included, and `streamers` of an open bus. */
    method Stop()
      modifies this
      ensures !old(closed) ==> mixer == [] && streamers == []
      ensures old(closed) ==> mixer == old(mixer) && streamers == old(streamers)
      ensures closed == old(closed) && paused == old(paused) && queue == old(queue)
    {
      if !closed {
        mixer := [];
        streamers := [];
      }
    }

    /** Closes the bus and empties it the first time; later calls change nothing. Never fails. */
    method Close() returns (err: Option<string>)
      modifies this
      ensures err == None && closed
      ensures !old(closed) ==> mixer == [] && streamers == []
      ensures old(closed) ==> mixer == old(mixer) && streamers == old(streamers)
      ensures paused == old(paused) && queue == old(queue)
    {
      if closed {
        return None;
      }
      closed := true;
      mixer := [];
      streamers := [];
      err := None;
    }

    /** Playing means open and not paused. */
    function IsPlaying(): (playing: bool)
      reads this
      ensures playing ==> !closed
      ensures !closed ==> playing == !paused
    {
      !closed && !paused
    }
  }

  /**
    `NewPlayback`: a speaker that fails to start yields only the error;
    otherwise a fresh open bus.
   */
  method NewPlayback(sampleRate: nat, speakerError: Option<string>) returns (p: Playback?, err: Option<string>)
    ensures speakerError.Some? ==> p == null && err == Some(SpeakerErrorPrefix + speakerError.value)
    ensures speakerError.None? ==>
      && err == None && p != null && fresh(p) && p.sampleRate == sampleRate
      && !p.closed && !p.paused && p.streamers == [] && p.mixer == [PromptQueue] && p.queue == []
  {
    if speakerError.Some? {
      return null, Some(SpeakerErrorPrefix + speakerError.value);
    }
    p := new Playback(sampleRate);
    err := None;
  }
}
