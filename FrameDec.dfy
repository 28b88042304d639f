/** The host-side twin of the video player (ui/framedec.c): the same
    run-length frames decoded into a 1024-byte frame buffer, but playback
    counts frames and stops after exactly BADAPPLE_FRAMES of them instead of
    looking at the video's length. */
module FrameDec {
  import opened Ints
  import opened Rle

  const BADAPPLE_FRAMES: int := 5257
  const FRAME_BYTES: int := 1024

  /** The decoder's statics: the frame buffer, the read index (the frame's
      runs start there, its length is in the two bytes before), the frame
      counter and the running flag. */
  class HostPlayer {
    const video: seq<int>
    const frame: array<int>
    /** The frame count, BADAPPLE_FRAMES from construction on (a field, so
        that proofs do not unfold the frame chain on a literal count). */
    const frames: int
    var frread: int
    var curFrame: int
    var running: bool

    /** The video holds `frames` frames that fit the buffer. */
    ghost predicate Config()
    {
      && frames > 0 && AllBytes(video) && Chain(video, 2, frames, FRAME_BYTES)
      && frame.Length == FRAME_BYTES
    }

    /** The read index is always the start of frame `curFrame`, one of the
        `frames` frames. */
    ghost predicate Valid()
      reads this
    {
      && Config()
      && 0 <= curFrame < frames
      && Chain(video, 2, curFrame, FRAME_BYTES)
      && frread == PosAfter(video, 2, curFrame, FRAME_BYTES)
      && FrameFits(video, frread, FRAME_BYTES)
    }

    /** The statics. */
    constructor (v: seq<int>, buf: array<int>)
      requires AllBytes(v) && Chain(v, 2, BADAPPLE_FRAMES, FRAME_BYTES) && buf.Length == FRAME_BYTES
      ensures Valid() && video == v && frame == buf && frames == BADAPPLE_FRAMES
      ensures frread == 2 && curFrame == 0 && !running
    {
      video := v;
      frame := buf;
      frames := BADAPPLE_FRAMES;
      frread := 2;
      curFrame := 0;
      running := false;
    }

    /** `badapple_start`: play from the first frame. */
    method Start()
      requires Config()
      modifies this`frread, this`curFrame, this`running
      ensures Valid() && curFrame == 0 && frread == 2 && running
    {
      curFrame := 0;
      frread := 2;
      running := true;
    }

    /** `badapple_stop`: the same rewind as `Start`, with running cleared. */
    method Stop()
      requires Config()
      modifies this`frread, this`curFrame, this`running
      ensures Valid() && curFrame == 0 && frread == 2 && !running
    {
      curFrame := 0;
      frread := 2;
      running := false;
    }

    /** The first half of `badapple_next_frame`: read the frame's length and
        decode its runs into the frame buffer; the decoder's result is the
        number of bytes written. */
    method DecodeFrame() returns (rleLen: int, outLen: int)
      requires Valid()
      modifies frame
      ensures rleLen == FrameLen(video, frread)
      ensures var runs := FrameRuns(video, frread, FRAME_BYTES);
              outLen == RunTotal(runs) && frame[..outLen] == Expand(runs) && frame[outLen..] == old(frame[outLen..])
    {
      rleLen := video[frread - 2] * 256 + video[frread - 1];
      assert video[frread..][..2 * Pairs(rleLen)] == FrameRuns(video, frread, FRAME_BYTES);
      outLen := Decode(frame, video[frread..], rleLen);
    }

    /** `badapple_next_frame`: decode the frame at the read index, step past
        it, and count it; the count reaching `frames` stops playback and
        rewinds. */
    method NextFrame()
      requires Valid()
      modifies this`frread, this`curFrame, this`running, frame
      ensures Valid()
      ensures var runs := FrameRuns(video, old(frread), FRAME_BYTES);
              frame[..RunTotal(runs)] == Expand(runs) && frame[RunTotal(runs)..] == old(frame[RunTotal(runs)..])
      ensures old(curFrame) + 1 == frames ==> curFrame == 0 && frread == 2 && !running
      ensures old(curFrame) + 1 < frames ==>
                curFrame == old(curFrame) + 1 && frread == NextIdx(video, old(frread)) && running == old(running)
    {
      var rleLen, outLen := DecodeFrame();
      Advance(rleLen);
      if curFrame == frames {
        Stop();
      }
    }

    /** The read index steps past the frame and the counter counts it. */
    method Advance(rleLen: int)
      requires Valid() && rleLen == FrameLen(video, frread)
      modifies this`frread, this`curFrame
      ensures curFrame == old(curFrame) + 1 && frread == NextIdx(video, old(frread))
      ensures Config() && (curFrame < frames ==> Valid())
    {
      ChainSplit(video, 2, frames, curFrame, FRAME_BYTES);
      if curFrame + 1 < frames {
        ChainSplit(video, 2, frames, curFrame + 1, FRAME_BYTES);
      }
      frread := frread + rleLen + 2;
      curFrame := curFrame + 1;
    }
  }
}
