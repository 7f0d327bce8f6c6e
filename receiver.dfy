/**
  The receiving side of the ffmpeg bridge: a single ffmpeg process fed with
  the 16-bit little-endian PCM of every speaking user, and the set of users
  heard so far.

  Writes to ffmpeg's standard input are modelled by the bytes the pipe has
  accepted; how many bytes a write accepts is a parameter, since the pipe's
  reader is outside the model.
 */
module Receiver {
  import opened Wrappers
  import opened Ffmpg

  /** A Discord user id (`snowflake.ID`). */
  type UserId = nat

  const StdinUnavailable: string := "ffmpeg stdin is not available"
  const WriteFailedPrefix: string := "failed to write to ffmpeg stdin: "

  /** `ALSAReceiver`. */
  class ALSAReceiver {
    /** Users that sent a frame since they were last cleaned up (the keys of the `users` map). */
    var users: set<UserId>
    /** Whether `stdin` is non-nil. */
    var stdinOpen: bool
    /** Every byte ffmpeg's standard input has accepted, in order. */
    var written: seq<Byte>
    var cancelled: bool
    /** Whether `done` has been closed; closing it a second time panics. */
    var doneClosed: bool

    /** `NewALSAReceiver` once ffmpeg has started: no users, an open pipe. */
    constructor ()
      ensures users == {} && stdinOpen && written == [] && !cancelled && !doneClosed
    {
      users := {};
      stdinOpen := true;
      written := [];
      cancelled := false;
      doneClosed := false;
    }

    /**
      Records `user` as active, then writes the frame's samples as 16-bit
      little-endian bytes. `accepted` is how many bytes the pipe takes; a
      short write is an error carrying `writeError`.
     */
    method ReceivePCMFrame(user: UserId, pcm: seq<Int16>, accepted: nat, writeError: string)
      returns (err: Option<string>)
      modifies this
      ensures users == old(users) + {user}
      ensures stdinOpen == old(stdinOpen) && cancelled == old(cancelled) && doneClosed == old(doneClosed)
      ensures !old(stdinOpen) ==> err == Some(StdinUnavailable) && written == old(written)
      ensures old(stdinOpen) && accepted >= 2 * |pcm| ==>
        err == None && written == old(written) + EncodeLE(pcm)
      ensures old(stdinOpen) && accepted < 2 * |pcm| ==>
        err == Some(WriteFailedPrefix + writeError) && written == old(written) + EncodeLE(pcm)[..accepted]
    {
      users := users + {user};
      if !stdinOpen {
        return Some(StdinUnavailable);
      }
      var buf := new Byte[2 * |pcm|];
      var i := 0;
      while i < |pcm|
        modifies buf
        invariant 0 <= i <= |pcm|
        invariant forall k :: 0 <= k < 2 * i ==> buf[k] == EncodeLE(pcm)[k]
      {
        EncodeLEAt(pcm, i);
        buf[2 * i] := EncodeLow(pcm[i]);
        buf[2 * i + 1] := EncodeHigh(pcm[i]);
        i := i + 1;
      }
      assert buf[..] == EncodeLE(pcm);
      if accepted < buf.Length {
        written := written + buf[..accepted];
        return Some(WriteFailedPrefix + writeError);
      }
      written := written + buf[..];
      err := None;
    }

    /** Forgets `user`. */
    method CleanupUser(user: UserId)
      modifies this
      ensures users == old(users) - {user}
      ensures stdinOpen == old(stdinOpen) && written == old(written)
      ensures cancelled == old(cancelled) && doneClosed == old(doneClosed)
    {
      users := users - {user};
    }

    /** Forgets every user, closes the pipe, cancels the process and signals `done`. */
    method Close()
      requires !doneClosed
      modifies this
      ensures users == {} && !stdinOpen && cancelled && doneClosed
      ensures written == old(written)
    {
      users := {};
      stdinOpen := false;
      cancelled := true;
      doneClosed := true;
    }

    /** The monitoring goroutine: the process ended; on an error exit the pipe is dropped. */
    method ProcessExited(withError: bool)
      modifies this
      ensures cancelled
      ensures stdinOpen == (old(stdinOpen) && !withError)
      ensures users == old(users) && written == old(written) && doneClosed == old(doneClosed)
    {
      cancelled := true;
      if withError {
        stdinOpen := false;
      }
    }
  }

  /**
    What the receiver writes is what the provider reads back: ffmpeg sees
    exactly the samples it was handed, frame after frame.
   */
  lemma {:induction false} WrittenFramesDecode(before: seq<Int16>, pcm: seq<Int16>)
    ensures DecodeLE(EncodeLE(before) + EncodeLE(pcm)) == before + pcm
  {
    DecodeAppend(EncodeLE(before), EncodeLE(pcm));
    DecodeEncode(before);
    DecodeEncode(pcm);
  }
}
