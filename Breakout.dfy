/** The integer game state of the Breakout screen (ui/breakout.c): five
    rows of seven bricks kept as one bit per broken brick, the paddle
    driven by the encoder, the lives and broken-brick counters, and the
    win / lose / restart logic. The ball's floating-point flight is not
    modelled: each frame, whether the ball fell past the bottom and which
    bricks it overlaps arrive as inputs. */
module Breakout {
  import opened Ints
  import Encoder
  import LvPortDisp

  const N_ROWS: int := 5
  const N_COLS: int := 7
  const CANVAS_W: int := 128
  const CANVAS_H: int := 64
  const BRICK_START_X: int := 7
  const PADDLE_W: int := 24
  const PADDLE_H: int := 3

  /** Where `init_paddle_pos` puts the paddle. */
  const PADDLE_HOME_X: int := CANVAS_W / 2 - BRICK_START_X
  const PADDLE_HOME_Y: int := CANVAS_H - (PADDLE_H + 2)
  /** The paddle's rightmost position, `CANVAS_W - (PADDLE_W + 1)`. */
  const PADDLE_MAX_X: int := CANVAS_W - (PADDLE_W + 1)

  /** `1 << col` as a brick-row mask. */
  function Mask(col: int): bv8
    requires 0 <= col < 8
  {
    [1, 2, 4, 8, 16, 32, 64, 128][col]
  }

  /** Brick `col` of a row is broken. */
  predicate Bit(m: bv8, col: int)
    requires 0 <= col < 8
  {
    m & Mask(col) != 0
  }

  /** Setting bit `c` sets that bit and leaves every other bit as it was. */
  lemma BitOfOr(m: bv8, c: int, k: int)
    requires 0 <= c < 8 && 0 <= k < 8
    ensures Bit(m | Mask(c), k) <==> Bit(m, k) || k == c
  {
    if k != c {
      assert Mask(c) & Mask(k) == 0;
    }
  }

  /** The number of broken bricks among the first `n` columns of a row. */
  function Count(m: bv8, n: int): (k: int)
    requires 0 <= n <= 8
    ensures 0 <= k <= n
  {
    if n == 0 then 0 else Count(m, n - 1) + (if Bit(m, n - 1) then 1 else 0)
  }

  /** Breaking a brick that was whole adds exactly one to the row's count. */
  lemma {:induction false} CountSet(m: bv8, c: int, n: int)
    requires 0 <= c < 8 && 0 <= n <= 8 && !Bit(m, c)
    ensures Count(m | Mask(c), n) == Count(m, n) + (if c < n then 1 else 0)
  {
    if n > 0 {
      CountSet(m, c, n - 1);
      BitOfOr(m, c, n - 1);
    }
  }

  /** The broken bricks over all rows. */
  function Broken(rows: seq<bv8>): (k: int)
    ensures 0 <= k <= N_COLS * |rows|
  {
    if rows == [] then 0 else Broken(rows[..|rows| - 1]) + Count(rows[|rows| - 1], N_COLS)
  }

  /** Changing one row changes the total by that row's difference. */
  lemma {:induction false} BrokenUpdate(rows: seq<bv8>, r: int, v: bv8)
    requires 0 <= r < |rows|
    ensures Broken(rows[r := v]) == Broken(rows) - Count(rows[r], N_COLS) + Count(v, N_COLS)
  {
    var last := |rows| - 1;
    if r < last {
      assert rows[r := v][..last] == rows[..last][r := v];
      BrokenUpdate(rows[..last], r, v);
    } else {
      assert rows[r := v][..last] == rows[..last];
    }
  }

  predicate AllClear(rows: seq<bv8>)
  {
    forall r :: 0 <= r < |rows| ==> rows[r] == 0
  }

  /** A cleared wall has no broken bricks. */
  lemma {:induction false} BrokenClear(rows: seq<bv8>)
    requires AllClear(rows)
    ensures Broken(rows) == 0
  {
    if rows != [] {
      BrokenClear(rows[..|rows| - 1]);
      CountZero(N_COLS);
    }
  }

  /** An empty row counts no broken bricks. */
  lemma {:induction false} CountZero(n: int)
    requires 0 <= n <= 8
    ensures Count(0, n) == 0
  {
    if n > 0 {
      CountZero(n - 1);
    }
  }

  /** A row after the brick test of one frame, from column `col` on: the
      first whole brick the ball overlaps breaks, and the scan of the row
      stops there. */
  function RowAfter(m: bv8, hits: seq<bool>, col: int): bv8
    requires |hits| == N_COLS && 0 <= col <= N_COLS
    decreases N_COLS - col
  {
    if col == N_COLS then m
    else if !Bit(m, col) && hits[col] then m | Mask(col)
    else RowAfter(m, hits, col + 1)
  }

  /** The first whole brick the ball overlaps is the one that breaks, and
      breaking it changes the row. */
  lemma BreakAt(m: bv8, hits: seq<bool>, col: int)
    requires |hits| == N_COLS && 0 <= col < N_COLS && !Bit(m, col) && hits[col]
    ensures RowAfter(m, hits, col) == m | Mask(col) != m
  {
    BitOfOr(m, col, col);
  }

  /** In one frame a row either stays as it was or gains exactly one broken
      brick, one that was whole and that the ball overlaps; the row's count
      grows by one exactly when it changes. */
  lemma {:induction false} RowAfterProperties(m: bv8, hits: seq<bool>, col: int)
    requires |hits| == N_COLS && 0 <= col <= N_COLS
    ensures var r := RowAfter(m, hits, col);
            || (r == m && Count(r, N_COLS) == Count(m, N_COLS))
            || (exists c :: col <= c < N_COLS && hits[c] && !Bit(m, c) && r == m | Mask(c))
    ensures RowAfter(m, hits, col) != m ==> Count(RowAfter(m, hits, col), N_COLS) == Count(m, N_COLS) + 1
    ensures (forall c :: col <= c < N_COLS ==> !hits[c]) ==> RowAfter(m, hits, col) == m
    decreases N_COLS - col
  {
    if col < N_COLS {
      if !Bit(m, col) && hits[col] {
        CountSet(m, col, N_COLS);
      } else {
        RowAfterProperties(m, hits, col + 1);
      }
    }
  }

  /** The paddle after a frame's encoder delta: `paddle.x += 2 * enc_delta`
      in int arithmetic, then clamped into 1..PADDLE_MAX_X. */
  function PaddleAfter(x: int, delta: int): int
  {
    var moved := ToInt32(x + ToInt32(2 * delta));
    var low := if moved < 1 then 1 else moved;
    if low > PADDLE_MAX_X then PADDLE_MAX_X else low
  }

  /** The paddle always ends up within 1..103; without overflow it moves
      by two pixels per count unless it hits an edge, where it stops. */
  lemma PaddleAfterProperties(x: int, delta: int)
    ensures 1 <= PaddleAfter(x, delta) <= PADDLE_MAX_X
    ensures IsInt32(2 * delta) && IsInt32(x + 2 * delta) ==>
              PaddleAfter(x, delta) == if x + 2 * delta < 1 then 1
                                       else if x + 2 * delta > PADDLE_MAX_X then PADDLE_MAX_X
                                       else x + 2 * delta
  {
  }

  /** One row's brick test keeps the counter in step with the wall: when
      it counted the broken bricks it still does, and it never wraps. A row
      the ball overlaps nowhere changes neither. */
  lemma RowStep(rows: seq<bv8>, row: int, hitsRow: seq<bool>, broken: int)
    requires 0 <= row < |rows| == N_ROWS && |hitsRow| == N_COLS && IsByte(broken)
    requires broken == Broken(rows) || forall c :: 0 <= c < N_COLS ==> !hitsRow[c]
    ensures var v := RowAfter(rows[row], hitsRow, 0);
            var b := if v == rows[row] then broken else ToUint8(broken + 1);
            && IsByte(b) && b - Broken(rows[row := v]) == broken - Broken(rows)
            && ((forall c :: 0 <= c < N_COLS ==> !hitsRow[c]) ==> v == rows[row])
  {
    var v := RowAfter(rows[row], hitsRow, 0);
    RowAfterProperties(rows[row], hitsRow, 0);
    BrokenUpdate(rows, row, v);
  }

  predicate NoHits(hits: seq<seq<bool>>)
  {
    forall r, c :: 0 <= r < |hits| && 0 <= c < |hits[r]| ==> !hits[r][c]
  }

  predicate Shaped(hits: seq<seq<bool>>)
  {
    |hits| == N_ROWS && forall r :: 0 <= r < N_ROWS ==> |hits[r]| == N_COLS
  }

  /** The game's statics: the brick rows, the paddle, whether the ball is
      in flight, whether a game is on, the counters, whether the 40 ms
      refresh timer is resumed, and the input driver's pause flag. */
  class Game {
    const bricks: array<bv8>
    var paddleX: int
    var paddleY: int
    var ballMoving: bool
    var running: bool
    var bricksBroken: int
    var lives: int
    var timerRunning: bool
    var pauseEncoder: int

    /** What holds between the steps of a frame: during a game the counter
        is the number of broken bricks and the paddle is on the screen; a
        resumed timer with no game on means the wall was cleared and the
        ball is at rest. */
    ghost predicate Consistent()
      reads this, bricks
    {
      && bricks.Length == N_ROWS && IsByte(bricksBroken) && IsByte(lives) && IsInt32(paddleX)
      && (running ==> bricksBroken == Broken(bricks[..]) && 0 <= lives <= 3 && 1 <= paddleX <= PADDLE_MAX_X)
      && (timerRunning ==> (ballMoving ==> running) && (!running ==> AllClear(bricks[..])))
    }

    /** Between frames: a game on has a life left and a brick standing. */
    ghost predicate Valid()
      reads this, bricks
    {
      Consistent() && (running ==> 1 <= lives && bricksBroken < N_ROWS * N_COLS)
    }

    /** The statics and `breakout_init`: the timer is created paused. */
    constructor ()
      ensures Valid() && fresh(bricks) && bricks[..] == seq(N_ROWS, _ => 0)
      ensures !running && !ballMoving && !timerRunning && lives == 0 && bricksBroken == 0
    {
      bricks := new bv8[N_ROWS](_ => 0);
      paddleX := 0;
      paddleY := 0;
      ballMoving := false;
      running := false;
      bricksBroken := 0;
      lives := 0;
      timerRunning := false;
      pauseEncoder := 0;
    }

    /** `init_paddle_pos`: the ball comes to rest and the paddle goes home
        (the ball is placed on it). */
    method InitPaddlePos()
      modifies this`ballMoving, this`paddleX, this`paddleY
      ensures !ballMoving && paddleX == PADDLE_HOME_X && paddleY == PADDLE_HOME_Y
    {
      ballMoving := false;
      paddleX := PADDLE_HOME_X;
      paddleY := PADDLE_HOME_Y;
    }

    /** The loop that clears every brick row. */
    method ClearRows()
      requires bricks.Length == N_ROWS
      modifies bricks
      ensures AllClear(bricks[..]) && Broken(bricks[..]) == 0
    {
      var row := 0;
      while row < N_ROWS
        invariant 0 <= row <= N_ROWS
        invariant forall r :: 0 <= r < row ==> bricks[r] == 0
      {
        bricks[row] := 0;
        row := row + 1;
      }
      BrokenClear(bricks[..]);
    }

    /** `breakout_start`: take the encoder and the display from LVGL, count
        microsteps, drop the pending delta, clear the wall and start a game
        with three lives. */
    method Start(enc: Encoder.QuadEncoder, disp: LvPortDisp.Display)
      requires bricks.Length == N_ROWS && enc.Valid()
      modifies this`pauseEncoder, this`paddleX, this`paddleY, this`ballMoving, this`bricksBroken, this`lives
      modifies this`running, this`timerRunning, bricks, enc, disp`pauseDrawing
      ensures Valid() && enc.Valid()
      ensures pauseEncoder == 1 && disp.pauseDrawing == 1 && enc.countMicrosteps
      ensures enc.lastCapturedCount == enc.count && enc.Snapshot() == old(enc.Snapshot())
      ensures AllClear(bricks[..]) && paddleX == PADDLE_HOME_X && !ballMoving
      ensures bricksBroken == 0 && lives == 3 && running && timerRunning
    {
      pauseEncoder := 1;
      disp.pauseDrawing := 1;
      enc.countMicrosteps := true;
      var _ := enc.GetDelta();
      ClearRows();
      InitPaddlePos();
      bricksBroken := 0;
      lives := 3;
      running := true;
      timerRunning := true;
    }

    /** `breakout_stop`: pause the timer, drop the pending delta, stop
        counting microsteps, hand the encoder and the display back to LVGL
        and end the game. */
    method Stop(enc: Encoder.QuadEncoder, disp: LvPortDisp.Display)
      requires Valid() && enc.Valid()
      modifies this`timerRunning, this`pauseEncoder, this`running, enc, disp`pauseDrawing
      ensures Valid() && enc.Valid()
      ensures !timerRunning && !enc.countMicrosteps && pauseEncoder == 0 && disp.pauseDrawing == 0 && !running
      ensures enc.lastCapturedCount == enc.count && enc.Snapshot() == old(enc.Snapshot())
    {
      timerRunning := false;
      var _ := enc.GetDelta();
      enc.countMicrosteps := false;
      pauseEncoder := 0;
      disp.pauseDrawing := 0;
      running := false;
    }

    /** The column loop of `update_ball` for one row: the first whole brick
        the ball overlaps breaks and is counted (`bricks_broken` is a
        uint8_t), and the row is left. */
    method BreakInRow(row: int, hitsRow: seq<bool>)
      requires bricks.Length == N_ROWS && 0 <= row < N_ROWS && |hitsRow| == N_COLS
      modifies bricks, this`bricksBroken
      ensures bricks[..] == old(bricks[..])[row := RowAfter(old(bricks[row]), hitsRow, 0)]
      ensures bricksBroken == if bricks[row] == old(bricks[row]) then old(bricksBroken) else ToUint8(old(bricksBroken) + 1)
    {
      ghost var m := bricks[row];
      var col := 0;
      while col < N_COLS
        invariant 0 <= col <= N_COLS && unchanged(bricks) && bricksBroken == old(bricksBroken)
        invariant RowAfter(m, hitsRow, col) == RowAfter(m, hitsRow, 0)
      {
        if !Bit(bricks[row], col) && hitsRow[col] {
          BreakAt(m, hitsRow, col);
          BreakBrick(row, col);
          return;
        }
        col := col + 1;
      }
      assert bricks[..] == old(bricks[..])[row := m];
    }

    /** The body of the scan's hit branch: brick `col` of `row` breaks and
        the uint8_t counter counts it. */
    method BreakBrick(row: int, col: int)
      requires bricks.Length == N_ROWS && 0 <= row < N_ROWS && 0 <= col < N_COLS
      modifies bricks, this`bricksBroken
      ensures bricks[..] == old(bricks[..])[row := old(bricks[row]) | Mask(col)]
      ensures bricksBroken == ToUint8(old(bricksBroken) + 1)
    {
      bricks[row] := bricks[row] | Mask(col);
      bricksBroken := ToUint8(bricksBroken + 1);
    }

    /** `update_ball` with the ball's flight given: `fell` says the ball
        went past the bottom wall, `hits[row][col]` that it overlaps brick
        (row, col) when the row is scanned. A fall costs a life, rests the
        ball and skips the bricks; otherwise each row loses at most one
        brick and the counter counts exactly the bricks broken. A ball at
        rest neither falls nor reaches a brick. */
    method UpdateBall(fell: bool, hits: seq<seq<bool>>)
      requires Valid() && timerRunning && Shaped(hits) && (!ballMoving ==> !fell && NoHits(hits))
      modifies bricks, this`bricksBroken, this`lives, this`ballMoving, this`paddleX, this`paddleY
      ensures Consistent() && running == old(running)
      ensures fell ==>
                && lives == old(lives) - 1 && !ballMoving && paddleX == PADDLE_HOME_X
                && bricks[..] == old(bricks[..]) && bricksBroken == old(bricksBroken)
      ensures !fell ==>
                && lives == old(lives) && ballMoving == old(ballMoving) && paddleX == old(paddleX)
                && (forall r :: 0 <= r < N_ROWS ==> bricks[r] == RowAfter(old(bricks[r]), hits[r], 0))
                && bricksBroken - Broken(bricks[..]) == old(bricksBroken) - Broken(old(bricks[..]))
    {
      if fell {
        InitPaddlePos();
        lives := ToUint8(lives - 1);
        return;
      }
      ScanBricks(hits);
    }

    /** The row loop of `update_ball`'s brick test. */
    method ScanBricks(hits: seq<seq<bool>>)
      requires bricks.Length == N_ROWS && Shaped(hits) && IsByte(bricksBroken)
      requires bricksBroken == Broken(bricks[..]) || NoHits(hits)
      modifies bricks, this`bricksBroken
      ensures IsByte(bricksBroken)
      ensures forall r :: 0 <= r < N_ROWS ==> bricks[r] == RowAfter(old(bricks[r]), hits[r], 0)
      ensures bricksBroken - Broken(bricks[..]) == old(bricksBroken) - Broken(old(bricks[..]))
      ensures NoHits(hits) ==> bricks[..] == old(bricks[..]) && bricksBroken == old(bricksBroken)
    {
      var row := 0;
      while row < N_ROWS
        invariant 0 <= row <= N_ROWS && IsByte(bricksBroken)
        invariant forall r :: 0 <= r < N_ROWS ==>
                    bricks[r] == if r < row then RowAfter(old(bricks[r]), hits[r], 0) else old(bricks[r])
        invariant bricksBroken - Broken(bricks[..]) == old(bricksBroken) - Broken(old(bricks[..]))
        invariant NoHits(hits) ==> bricks[..] == old(bricks[..]) && bricksBroken == old(bricksBroken)
      {
        if NoHits(hits) {
          assert forall c :: 0 <= c < N_COLS ==> !hits[row][c];
        }
        RowStep(bricks[..], row, hits[row], bricksBroken);
        BreakInRow(row, hits[row]);
        row := row + 1;
      }
    }

    /** `draw_paddle` without its drawing: take the encoder's delta; with no
        game on, a non-zero delta starts one (the wall is not touched); in a
        game the paddle follows the delta within the screen, and a resting
        ball is launched by a non-zero delta. */
    method DrawPaddle(enc: Encoder.QuadEncoder) returns (delta: int)
      requires Consistent() && timerRunning && enc.Valid()
      modifies this`paddleX, this`paddleY, this`ballMoving, this`bricksBroken, this`lives, this`running, enc
      ensures Consistent() && enc.Valid() && delta == Encoder.Delta(old(enc.count), old(enc.lastCapturedCount))
      ensures enc.lastCapturedCount == enc.count && enc.Snapshot() == old(enc.Snapshot())
      ensures !old(running) && delta != 0 ==>
                running && lives == 3 && bricksBroken == 0 && paddleX == PaddleAfter(PADDLE_HOME_X, delta)
      ensures !old(running) && delta == 0 ==>
                !running && lives == old(lives) && bricksBroken == old(bricksBroken) && paddleX == old(paddleX)
      ensures old(running) ==>
                running && lives == old(lives) && bricksBroken == old(bricksBroken)
                && paddleX == PaddleAfter(old(paddleX), delta)
      ensures ballMoving == (old(ballMoving) || (running && delta != 0))
    {
      delta := enc.GetDelta();
      if !running && delta != 0 {
        Restart();
      }
      if running {
        MovePaddle(delta);
      }
      if running && !ballMoving && delta != 0 {
        ballMoving := true;
      }
    }

    /** The restart branch of `draw_paddle`: a new game with three lives on
        the wall as it stands, which with no game on is a cleared one. */
    method Restart()
      requires Consistent() && timerRunning && !running
      modifies this`paddleX, this`paddleY, this`ballMoving, this`bricksBroken, this`lives, this`running
      ensures Consistent() && running && lives == 3 && bricksBroken == 0
      ensures paddleX == PADDLE_HOME_X && !ballMoving
    {
      InitPaddlePos();
      bricksBroken := 0;
      lives := 3;
      running := true;
      BrokenClear(bricks[..]);
    }

    /** The paddle update of `draw_paddle`: two pixels per count, clamped
        to the screen. */
    method MovePaddle(delta: int)
      modifies this`paddleX
      ensures paddleX == PaddleAfter(old(paddleX), delta)
    {
      paddleX := ToInt32(paddleX + ToInt32(2 * delta));
      if paddleX < 1 {
        paddleX := 1;
      }
      if paddleX > PADDLE_MAX_X {
        paddleX := PADDLE_MAX_X;
      }
    }

    /** `check_win`: all 35 bricks broken wins, otherwise no lives left
        loses; either way the game ends, and a game that was on has its wall
        cleared and its ball put to rest. */
    method CheckWin()
      requires Consistent()
      modifies bricks, this`running, this`ballMoving, this`paddleX, this`paddleY
      ensures Valid() && lives == old(lives) && bricksBroken == old(bricksBroken)
      ensures var over := bricksBroken == N_ROWS * N_COLS || lives == 0;
              && (over ==> !running)
              && (over && old(running) ==> AllClear(bricks[..]) && !ballMoving && paddleX == PADDLE_HOME_X)
              && (!over || !old(running) ==> bricks[..] == old(bricks[..]))
              && (!over ==> running == old(running) && ballMoving == old(ballMoving) && paddleX == old(paddleX))
    {
      if bricksBroken == N_ROWS * N_COLS {
        if running {
          ClearRows();
          InitPaddlePos();
        }
        running := false;
      } else if lives == 0 {
        if running {
          ClearRows();
          InitPaddlePos();
        }
        running := false;
      }
    }

    /** `draw_screen`, the refresh timer's callback, without its drawing:
        move the ball, read the encoder, then decide the game. */
    method Frame(enc: Encoder.QuadEncoder, fell: bool, hits: seq<seq<bool>>)
      requires Valid() && timerRunning && enc.Valid()
      requires Shaped(hits) && (!ballMoving ==> !fell && NoHits(hits))
      modifies this, bricks, enc
      ensures Valid() && enc.Valid() && timerRunning
      ensures enc.lastCapturedCount == enc.count && enc.Snapshot() == old(enc.Snapshot())
      ensures old(running) ==>
                && lives == old(lives) - (if fell then 1 else 0)
                && (running <==> bricksBroken < N_ROWS * N_COLS && lives > 0)
                && (!running ==> AllClear(bricks[..]) && !ballMoving && paddleX == PADDLE_HOME_X)
                && (running && !fell ==>
                      forall r :: 0 <= r < N_ROWS ==> bricks[r] == RowAfter(old(bricks[r]), hits[r], 0))
      ensures var delta := Encoder.Delta(old(enc.count), old(enc.lastCapturedCount));
              && (!old(running) && delta != 0 ==> running && lives == 3 && bricksBroken == 0)
              && (!old(running) && delta == 0 ==> !running && bricks[..] == old(bricks[..]))
    {
      UpdateBall(fell, hits);
      var _ := DrawPaddle(enc);
      CheckWin();
    }
  }
}
