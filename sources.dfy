/**
  `PredecodedSource.GetStreamer`: a prompt looked up in the predecoded cache
  and played from sample 3000 up to 7000 samples before its end, at a
  volume of 2^-0.5.

  The cache is passed as the contents of the loaded singleton.
 */
module Sources {
  import opened Wrappers
  import opened Beep
  import opened Assets

  const NotFoundPrefix: string := "predecoded audio not found: "
  /** Samples skipped at the start of every prompt. */
  const LeadIn: nat := 3000
  /** Samples cut from the end of every prompt. */
  const TailCut: nat := 7000

  /** A buffer long enough for the window: shorter ones make the slice in `Buffer.Streamer` panic. */
  predicate Playable(cache: map<string, PredecodedAudio>, path: string) {
    path in cache ==> cache[path].buffer.len >= LeadIn + TailCut
  }

  /** The samples a streamer plays, as a window `[from, to)` of a buffer, if it is built on one. */
  function WindowOf(s: Streamer): Option<(Buffer, nat, nat)> {
    match s
    case Window(b, from, to) => Some((b, from, to))
    case Attenuated(inner) => WindowOf(inner)
    case Resampled(_, _, _, inner) => WindowOf(inner)
    case Live(_) => None
  }

  /**
    The streamer and format for the prompt at `path`, or the not-found error.
    A found prompt plays exactly the samples `[3000, len - 7000)` of the
    cached buffer itself, which the lookup leaves as it was.
   */
  function PredecodedGetStreamer(cache: map<string, PredecodedAudio>, path: string): (r: Result<Opened, string>)
    requires Playable(cache, path)
    ensures r.Failure? <==> path !in cache
    ensures r.Failure? ==> r.error == NotFoundPrefix + path
    ensures r.Success? ==> r.value.format == cache[path].format
    ensures r.Success? ==>
      && WindowOf(r.value.streamer) == Some((cache[path].buffer, LeadIn, cache[path].buffer.len - TailCut))
      && LeadIn <= cache[path].buffer.len - TailCut <= cache[path].buffer.len
  {
    if path !in cache then Failure(NotFoundPrefix + path)
    else
      var audio := cache[path];
      Success(Opened(Attenuated(Window(audio.buffer, LeadIn, audio.buffer.len - TailCut)), audio.format))
  }
}
