/** The firmware video player (ui/badapple.c): on every tick of a 41 ms
    timer the next run-length frame is decoded straight into the OLED
    driver's frame buffer and pushed to the screen, until the read index
    runs off the end of the video. While it plays, LVGL's own drawing is
    paused through the display port's flag. */
module BadApple {
  import opened Ints
  import opened Rle
  import LvPortDisp

  /** `SSD1306_BUFFER_SIZE`: one bit per pixel of the 128 x 64 panel. */
  const SCREEN_BYTES: int := 128 * 64 / 8

  /** From `idx` on, every frame fits the screen buffer until the read index
      reaches or passes the end of the video. */
  predicate Playable(video: seq<int>, idx: int)
    requires AllBytes(video)
    decreases |video| - idx
  {
    idx >= |video| || (FrameFits(video, idx, SCREEN_BYTES) && Playable(video, NextIdx(video, idx)))
  }

  /** The number of frames played from `idx` on. */
  function FramesFrom(video: seq<int>, idx: int): (n: nat)
    requires AllBytes(video) && Playable(video, idx)
    ensures n == 0 <==> idx >= |video|
    decreases |video| - idx
  {
    if idx >= |video| then 0 else 1 + FramesFrom(video, NextIdx(video, idx))
  }

  /** After `k` of the frames playable from `idx`, the read index is where
      the rest of the video still plays, with `k` frames fewer to go. */
  lemma {:induction false} PlayablePos(video: seq<int>, idx: int, k: nat)
    requires AllBytes(video) && Playable(video, idx) && k <= FramesFrom(video, idx)
    ensures Chain(video, idx, k, SCREEN_BYTES)
    ensures Playable(video, PosAfter(video, idx, k, SCREEN_BYTES))
    ensures FramesFrom(video, PosAfter(video, idx, k, SCREEN_BYTES)) == FramesFrom(video, idx) - k
    decreases k
  {
    if k > 0 {
      PlayablePos(video, NextIdx(video, idx), k - 1);
    }
  }

  /** Stepping past frame `k` of a playable video lands on frame `k + 1`,
      which runs off the video exactly when `k` was the last frame and
      otherwise fits the screen buffer. */
  lemma NextFramePos(video: seq<int>, k: nat)
    requires AllBytes(video) && Playable(video, 2) && k < FramesFrom(video, 2)
    ensures Chain(video, 2, k, SCREEN_BYTES) && Chain(video, 2, k + 1, SCREEN_BYTES)
    ensures FrameFits(video, PosAfter(video, 2, k, SCREEN_BYTES), SCREEN_BYTES)
    ensures PosAfter(video, 2, k + 1, SCREEN_BYTES) == NextIdx(video, PosAfter(video, 2, k, SCREEN_BYTES))
    ensures PosAfter(video, 2, k + 1, SCREEN_BYTES) >= |video| <==> k + 1 == FramesFrom(video, 2)
    ensures k + 1 < FramesFrom(video, 2) ==> FrameFits(video, PosAfter(video, 2, k + 1, SCREEN_BYTES), SCREEN_BYTES)
  {
    PlayablePos(video, 2, k + 1);
    ChainSplit(video, 2, k + 1, k, SCREEN_BYTES);
  }

  /** The player's statics: the read index into the video (the frame's
      runs start there, its length is in the two bytes before), the frame
      counter, the running flag, whether the frame timer is resumed, and the
      frame buffer contents pushed to the panel so far. */
  class Player {
    const video: seq<int>
    const screen: array<int>
    var frByteIdx: int
    var curFrame: int
    var running: bool
    var timerRunning: bool
    var shown: seq<seq<int>>

    /** The video plays from its first frame and the buffer is the screen's. */
    ghost predicate Config()
    {
      AllBytes(video) && Playable(video, 2) && |video| > 2 && screen.Length == SCREEN_BYTES
    }

    /** The read index is always the start of frame `curFrame`, and that
        frame exists. */
    ghost predicate Valid()
      reads this
    {
      && Config()
      && 0 <= curFrame < FramesFrom(video, 2)
      && Chain(video, 2, curFrame, SCREEN_BYTES)
      && frByteIdx == PosAfter(video, 2, curFrame, SCREEN_BYTES)
      && FrameFits(video, frByteIdx, SCREEN_BYTES)
    }

    /** The statics and `badapple_init`: the timer is created paused. */
    constructor (v: seq<int>, buf: array<int>)
      requires AllBytes(v) && Playable(v, 2) && |v| > 2 && buf.Length == SCREEN_BYTES
      ensures Valid() && video == v && screen == buf
      ensures frByteIdx == 2 && curFrame == 0 && !running && !timerRunning && shown == []
    {
      video := v;
      screen := buf;
      frByteIdx := 2;
      curFrame := 0;
      running := false;
      timerRunning := false;
      shown := [];
    }

    /** `badapple_start`: pause LVGL drawing, resume the timer, and play
        from the first frame. */
    method Start(disp: LvPortDisp.Display)
      requires Config()
      modifies this`frByteIdx, this`curFrame, this`running, this`timerRunning, disp`pauseDrawing
      ensures Valid() && disp.pauseDrawing == 1 && timerRunning
      ensures curFrame == 0 && frByteIdx == 2 && running
    {
      disp.pauseDrawing := 1;
      timerRunning := true;
      curFrame := 0;
      frByteIdx := 2;
      running := true;
    }

    /** `badapple_stop`: give drawing back to LVGL, rewind to the first
        frame and pause the timer. */
    method Stop(disp: LvPortDisp.Display)
      requires Config()
      modifies this`frByteIdx, this`curFrame, this`running, this`timerRunning, disp`pauseDrawing
      ensures Valid() && disp.pauseDrawing == 0 && !timerRunning
      ensures curFrame == 0 && frByteIdx == 2 && !running
    {
      disp.pauseDrawing := 0;
      curFrame := 0;
      frByteIdx := 2;
      running := false;
      timerRunning := false;
    }

    /** The first half of `badapple_next_frame`: read the frame's length
        from the two bytes before the read index and decode its runs into
        the screen buffer. */
    method DecodeFrame() returns (rleLen: int)
      requires Valid()
      modifies screen
      ensures rleLen == FrameLen(video, frByteIdx)
      ensures var runs := FrameRuns(video, frByteIdx, SCREEN_BYTES);
              screen[..RunTotal(runs)] == Expand(runs) && screen[RunTotal(runs)..] == old(screen[RunTotal(runs)..])
    {
      rleLen := video[frByteIdx - 2] * 256 + video[frByteIdx - 1];
      assert video[frByteIdx..][..2 * Pairs(rleLen)] == FrameRuns(video, frByteIdx, SCREEN_BYTES);
      var _ := Decode(screen, video[frByteIdx..], rleLen);
    }

    /** `badapple_next_frame`: decode the frame at the read index into the
        screen buffer and step past it. If that was the last frame the
        player stops and the frame is not pushed; otherwise it is. */
    method NextFrame(disp: LvPortDisp.Display)
      requires Valid()
      modifies this`frByteIdx, this`curFrame, this`running, this`timerRunning, this`shown, screen, disp`pauseDrawing
      ensures Valid()
      ensures var runs := FrameRuns(video, old(frByteIdx), SCREEN_BYTES);
              screen[..RunTotal(runs)] == Expand(runs) && screen[RunTotal(runs)..] == old(screen[RunTotal(runs)..])
      ensures old(curFrame) + 1 == FramesFrom(video, 2) ==>
                && curFrame == 0 && frByteIdx == 2 && !running && !timerRunning
                && disp.pauseDrawing == 0 && shown == old(shown)
      ensures old(curFrame) + 1 < FramesFrom(video, 2) ==>
                && curFrame == old(curFrame) + 1 && frByteIdx == NextIdx(video, old(frByteIdx))
                && running == old(running) && timerRunning == old(timerRunning)
                && disp.pauseDrawing == old(disp.pauseDrawing) && shown == old(shown) + [screen[..]]
    {
      var rleLen := DecodeFrame();
      Advance(rleLen);
      if frByteIdx >= |video| {
        Stop(disp);
        return;
      }
      shown := shown + [screen[..]];
    }

    /** The read index steps past the frame and the counter counts it; the
        index runs off the video exactly after the last frame. */
    method Advance(rleLen: int)
      requires Valid() && rleLen == FrameLen(video, frByteIdx)
      modifies this`frByteIdx, this`curFrame
      ensures curFrame == old(curFrame) + 1 && frByteIdx == NextIdx(video, old(frByteIdx))
      ensures frByteIdx >= |video| <==> curFrame == FramesFrom(video, 2)
      ensures Config() && (curFrame < FramesFrom(video, 2) ==> Valid())
    {
      NextFramePos(video, curFrame);
      frByteIdx := frByteIdx + rleLen + 2;
      curFrame := curFrame + 1;
    }
  }
}
