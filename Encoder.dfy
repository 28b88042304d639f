/** The quadrature rotary encoder of encoder.c. A PIO state machine pushes
    one 32-bit word per pin change: bits 31..28 hold the current and the
    previous levels of pins A and B, bits 27..0 the time since the previous
    word. The interrupt handler drains those words and turns each
    (previous, current) pair into a count step, either on every transition
    or once per detent, and `encoder_get_delta` hands out the count change
    since the last call. */
module Encoder {
  import opened Ints

  const STATE_A_MASK: int := 0x8000_0000
  const STATE_B_MASK: int := 0x4000_0000
  const TIME_MASK: int := 0x0fff_ffff

  /** The four pin states as two-bit values A * 2 + B, in clockwise order. */
  const MICROSTEP_0: int := 0
  const MICROSTEP_1: int := 2
  const MICROSTEP_2: int := 3
  const MICROSTEP_3: int := 1

  /** Values of `last_travel_dir`. */
  const NO_DIR: int := 0
  const CLOCKWISE: int := 1
  const COUNTERCLOCK: int := -1

  predicate IsDir(d: int) { d == NO_DIR || d == CLOCKWISE || d == COUNTERCLOCK }

  /** `a + b` on int32_t with the handler's guard `a + b < a`: the sum
      saturates at INT32_MAX instead of wrapping. Signed overflow is read as
      two's-complement wrap-around. */
  function SatAdd(a: int, b: int): (r: int)
    requires 0 <= a <= INT32_MAX && 0 <= b <= INT32_MAX
    ensures r == if a + b > INT32_MAX then INT32_MAX else a + b
  {
    var sum := ToInt32(a + b);
    if sum < a then INT32_MAX else sum
  }

  /** What one (previous, current) pin-state pair does: the count step
      (+1, -1 or 0) and the new travel direction. With `microsteps` every
      single-pin change counts; without, only the last transition of a
      detent whose first transition set the matching direction. */
  function Transition(last: int, curr: int, microsteps: bool, dir: int): (r: (int, int))
    requires 0 <= last < 4 && 0 <= curr < 4
  {
    if last == MICROSTEP_0 && curr == MICROSTEP_1 then (if microsteps then 1 else 0, dir)
    else if last == MICROSTEP_0 && curr == MICROSTEP_3 then (if microsteps then -1 else 0, dir)
    else if last == MICROSTEP_1 && curr == MICROSTEP_2 then (if microsteps || dir == CLOCKWISE then 1 else 0, NO_DIR)
    else if last == MICROSTEP_1 && curr == MICROSTEP_0 then (if microsteps then -1 else 0, dir)
    else if last == MICROSTEP_2 && curr == MICROSTEP_3 then (if microsteps then 1 else 0, CLOCKWISE)
    else if last == MICROSTEP_2 && curr == MICROSTEP_1 then (if microsteps then -1 else 0, COUNTERCLOCK)
    else if last == MICROSTEP_3 && curr == MICROSTEP_0 then (if microsteps then 1 else 0, dir)
    else if last == MICROSTEP_3 && curr == MICROSTEP_2 then (if microsteps || dir == COUNTERCLOCK then -1 else 0, NO_DIR)
    else (0, dir)
  }

  /** The position of a pin state in the clockwise cycle 00, 10, 11, 01. */
  function Phase(s: int): (p: int)
    requires 0 <= s < 4
    ensures 0 <= p < 4
  {
    if s == MICROSTEP_0 then 0 else if s == MICROSTEP_1 then 1 else if s == MICROSTEP_2 then 2 else 3
  }

  /** With microsteps counted, a single-pin change one phase clockwise
      counts +1, one phase counter-clockwise counts -1, and anything else
      (no change, or both pins changing) counts nothing and keeps the
      direction. Without microsteps nothing but the detent-closing pairs
      ever counts. In either mode an unlisted pair (no change, or both pins
      changing) counts nothing and keeps the direction. */
  lemma TransitionTable(last: int, curr: int, dir: int)
    requires 0 <= last < 4 && 0 <= curr < 4
    ensures Phase(curr) == Phase(last) || Phase(curr) == (Phase(last) + 2) % 4 ==>
              Transition(last, curr, false, dir) == (0, dir) && Transition(last, curr, true, dir) == (0, dir)
    ensures Transition(last, curr, true, dir).0 == 1 <==> Phase(curr) == (Phase(last) + 1) % 4
    ensures Transition(last, curr, true, dir).0 == -1 <==> Phase(last) == (Phase(curr) + 1) % 4
    ensures Transition(last, curr, true, dir).0 == 0 ==> Transition(last, curr, true, dir).1 == dir
    ensures Transition(last, curr, false, dir).0 != 0 ==>
              (last == MICROSTEP_1 && curr == MICROSTEP_2 && dir == CLOCKWISE)
              || (last == MICROSTEP_3 && curr == MICROSTEP_2 && dir == COUNTERCLOCK)
    ensures IsDir(dir) ==> IsDir(Transition(last, curr, false, dir).1) && IsDir(Transition(last, curr, true, dir).1)
  {
  }

  /** The encoder's globals that the handler changes. */
  datatype Counters = Counters(count: int, timeSince: int, lastTravelDir: int,
                               microstepTime: int, cumulativeTime: int, stateA: int, stateB: int)

  predicate CountersValid(c: Counters)
  {
    && IsInt32(c.count) && IsInt32(c.timeSince) && IsDir(c.lastTravelDir)
    && 0 <= c.microstepTime <= INT32_MAX && 0 <= c.cumulativeTime <= INT32_MAX
  }

  /** `stateA = (received & STATE_A_MASK)` as written: the 32-bit mask is
      stored in a uint8_t, which keeps only its low byte. */
  function StoredPinAsWritten(received: int, mask: int): (r: int)
    requires IsUint32(received) && (mask == STATE_A_MASK || mask == STATE_B_MASK)
  {
    ToUint8((received / mask % 2) * mask)
  }

  /** The pin level the assignment evidently means to keep: 1 when the bit is set. */
  function PinLevel(received: int, mask: int): (r: int)
    requires IsUint32(received) && (mask == STATE_A_MASK || mask == STATE_B_MASK)
    ensures r == 0 || r == 1
    ensures r == 1 <==> (received / mask) % 2 == 1
  {
    (received / mask) % 2
  }

  /** As written the stored pin level is always 0, whatever the pin does. */
  lemma StoredPinFinding(received: int)
    requires IsUint32(received)
    ensures StoredPinAsWritten(received, STATE_A_MASK) == 0 && StoredPinAsWritten(received, STATE_B_MASK) == 0
    ensures PinLevel(STATE_A_MASK, STATE_A_MASK) == 1 && PinLevel(STATE_B_MASK, STATE_B_MASK) == 1
  {
    var a := received / STATE_A_MASK % 2;
    var b := received / STATE_B_MASK % 2;
    assert a * STATE_A_MASK == 256 * (a * 0x80_0000);
    assert b * STATE_B_MASK == 256 * (b * 0x40_0000);
  }

  /** `microstep_up` / `microstep_down` (step = +1 / -1) with the time the
      handler computed. */
  function Counted(c: Counters, step: int, time: int): (r: Counters)
    requires CountersValid(c) && (step == 1 || step == -1) && 0 <= time <= INT32_MAX
    ensures CountersValid(r)
    ensures (r.count - c.count - step) % TWO_32 == 0
    ensures r.timeSince == step * time && r.microstepTime == 0
    ensures r.cumulativeTime == if c.cumulativeTime + time > INT32_MAX then INT32_MAX else c.cumulativeTime + time
  {
    c.(count := ToInt32(c.count + step), timeSince := ToInt32(0 + step * time), microstepTime := 0,
       cumulativeTime := SatAdd(time, c.cumulativeTime))
  }

  /** The handler's effect of one received word. */
  function Step(c: Counters, received: int, microsteps: bool, debounce: int): (r: Counters)
    requires CountersValid(c) && IsUint32(received) && 0 <= debounce <= INT32_MAX - TIME_MASK
    ensures CountersValid(r)
  {
    var states := received / 0x1000_0000;
    var timeReceived := received % 0x1000_0000 + debounce;
    var time := if microsteps then timeReceived else SatAdd(timeReceived, c.microstepTime);
    var c1 := c.(stateA := PinLevel(received, STATE_A_MASK), stateB := PinLevel(received, STATE_B_MASK),
                 microstepTime := if microsteps then c.microstepTime else time);
    var t := Transition(states % 4, states / 4, microsteps, c.lastTravelDir);
    var c2 := c1.(lastTravelDir := t.1);
    if t.0 == 0 then c2 else Counted(c2, t.0, time)
  }

  /** The handler's effect of a run of words, oldest first. */
  function Drain(c: Counters, words: seq<int>, microsteps: bool, debounce: int): (r: Counters)
    requires CountersValid(c) && (forall i :: 0 <= i < |words| ==> IsUint32(words[i]))
    requires 0 <= debounce <= INT32_MAX - TIME_MASK
    ensures CountersValid(r)
    decreases |words|
  {
    if words == [] then c else Drain(Step(c, words[0], microsteps, debounce), words[1..], microsteps, debounce)
  }

  /** A word the PIO program pushes for the pin change `last` -> `curr`
      after `time` cycles. */
  function Word(last: int, curr: int, time: int): (w: int)
    requires 0 <= last < 4 && 0 <= curr < 4 && 0 <= time <= TIME_MASK
    ensures IsUint32(w)
    ensures w / 0x1000_0000 % 4 == last && w / 0x1000_0000 / 4 == curr && w % 0x1000_0000 == time
  {
    (curr * 4 + last) * 0x1000_0000 + time
  }

  /** One word's count step and direction follow the transition table; a
      counted step resets the accumulated microstep time. */
  lemma StepWord(c: Counters, last: int, curr: int, time: int, microsteps: bool, debounce: int)
    requires CountersValid(c) && 0 <= last < 4 && 0 <= curr < 4 && 0 <= time <= TIME_MASK
    requires 0 <= debounce <= INT32_MAX - TIME_MASK
    ensures var t := Transition(last, curr, microsteps, c.lastTravelDir);
            var r := Step(c, Word(last, curr, time), microsteps, debounce);
            && r.lastTravelDir == t.1
            && (r.count - c.count - t.0) % TWO_32 == 0
            && (t.0 != 0 ==> r.microstepTime == 0)
            && (t.0 == 0 ==> r.count == c.count)
  {
  }

  /** A full clockwise detent 11 -> 01 -> 00 -> 10 -> 11 with microsteps off
      adds exactly one to the count and ends with no direction pending. */
  lemma ClockwiseDetent(c: Counters, t1: int, t2: int, t3: int, t4: int, debounce: int)
    requires CountersValid(c) && 0 <= debounce <= INT32_MAX - TIME_MASK
    requires 0 <= t1 <= TIME_MASK && 0 <= t2 <= TIME_MASK && 0 <= t3 <= TIME_MASK && 0 <= t4 <= TIME_MASK
    ensures var r := Drain(c, [Word(3, 1, t1), Word(1, 0, t2), Word(0, 2, t3), Word(2, 3, t4)], false, debounce);
            r.count == ToInt32(c.count + 1) && r.lastTravelDir == NO_DIR && r.microstepTime == 0
  {
    var ws := [Word(3, 1, t1), Word(1, 0, t2), Word(0, 2, t3), Word(2, 3, t4)];
    var c1 := Step(c, ws[0], false, debounce);
    StepWord(c, 3, 1, t1, false, debounce);
    var c2 := Step(c1, ws[1], false, debounce);
    StepWord(c1, 1, 0, t2, false, debounce);
    var c3 := Step(c2, ws[2], false, debounce);
    StepWord(c2, 0, 2, t3, false, debounce);
    var c4 := Step(c3, ws[3], false, debounce);
    StepWord(c3, 2, 3, t4, false, debounce);
    DrainFour(c, ws, false, debounce);
    ToInt32Congruent(c4.count, c.count + 1);
  }

  /** A full counter-clockwise detent 11 -> 10 -> 00 -> 01 -> 11 with
      microsteps off subtracts exactly one from the count. */
  lemma CounterClockwiseDetent(c: Counters, t1: int, t2: int, t3: int, t4: int, debounce: int)
    requires CountersValid(c) && 0 <= debounce <= INT32_MAX - TIME_MASK
    requires 0 <= t1 <= TIME_MASK && 0 <= t2 <= TIME_MASK && 0 <= t3 <= TIME_MASK && 0 <= t4 <= TIME_MASK
    ensures var r := Drain(c, [Word(3, 2, t1), Word(2, 0, t2), Word(0, 1, t3), Word(1, 3, t4)], false, debounce);
            r.count == ToInt32(c.count - 1) && r.lastTravelDir == NO_DIR && r.microstepTime == 0
  {
    var ws := [Word(3, 2, t1), Word(2, 0, t2), Word(0, 1, t3), Word(1, 3, t4)];
    var c1 := Step(c, ws[0], false, debounce);
    StepWord(c, 3, 2, t1, false, debounce);
    var c2 := Step(c1, ws[1], false, debounce);
    StepWord(c1, 2, 0, t2, false, debounce);
    var c3 := Step(c2, ws[2], false, debounce);
    StepWord(c2, 0, 1, t3, false, debounce);
    var c4 := Step(c3, ws[3], false, debounce);
    StepWord(c3, 1, 3, t4, false, debounce);
    DrainFour(c, ws, false, debounce);
    ToInt32Congruent(c4.count, c.count - 1);
  }

  /** A detent started and turned back (11 -> 01 -> 11, or 11 -> 10 -> 11)
      with microsteps off leaves the count alone and clears the direction. */
  lemma ReversedDetent(c: Counters, t1: int, t2: int, debounce: int)
    requires CountersValid(c) && 0 <= debounce <= INT32_MAX - TIME_MASK
    requires 0 <= t1 <= TIME_MASK && 0 <= t2 <= TIME_MASK
    ensures var r := Drain(c, [Word(3, 1, t1), Word(1, 3, t2)], false, debounce);
            r.count == c.count && r.lastTravelDir == NO_DIR
    ensures var r := Drain(c, [Word(3, 2, t1), Word(2, 3, t2)], false, debounce);
            r.count == c.count && r.lastTravelDir == NO_DIR
  {
    StepWord(c, 3, 1, t1, false, debounce);
    StepWord(Step(c, Word(3, 1, t1), false, debounce), 1, 3, t2, false, debounce);
    DrainTwo(c, Word(3, 1, t1), Word(1, 3, t2), false, debounce);
    StepWord(c, 3, 2, t1, false, debounce);
    StepWord(Step(c, Word(3, 2, t1), false, debounce), 2, 3, t2, false, debounce);
    DrainTwo(c, Word(3, 2, t1), Word(2, 3, t2), false, debounce);
  }

  /** Draining four words is four steps. */
  lemma DrainFour(c: Counters, ws: seq<int>, microsteps: bool, debounce: int)
    requires CountersValid(c) && |ws| == 4 && (forall i :: 0 <= i < 4 ==> IsUint32(ws[i]))
    requires 0 <= debounce <= INT32_MAX - TIME_MASK
    ensures Drain(c, ws, microsteps, debounce)
            == Step(Step(Step(Step(c, ws[0], microsteps, debounce), ws[1], microsteps, debounce),
                         ws[2], microsteps, debounce), ws[3], microsteps, debounce)
  {
    var c1 := Step(c, ws[0], microsteps, debounce);
    var c2 := Step(c1, ws[1], microsteps, debounce);
    var c3 := Step(c2, ws[2], microsteps, debounce);
    assert ws[1..][0] == ws[1] && ws[1..][1..] == ws[2..];
    assert ws[2..][0] == ws[2] && ws[2..][1..] == ws[3..];
    assert ws[3..][0] == ws[3] && ws[3..][1..] == [];
    assert Drain(c, ws, microsteps, debounce) == Drain(c1, ws[1..], microsteps, debounce);
    assert Drain(c1, ws[1..], microsteps, debounce) == Drain(c2, ws[2..], microsteps, debounce);
    assert Drain(c2, ws[2..], microsteps, debounce) == Drain(c3, ws[3..], microsteps, debounce);
  }

  /** Draining two words is two steps. */
  lemma DrainTwo(c: Counters, w0: int, w1: int, microsteps: bool, debounce: int)
    requires CountersValid(c) && IsUint32(w0) && IsUint32(w1)
    requires 0 <= debounce <= INT32_MAX - TIME_MASK
    ensures Drain(c, [w0, w1], microsteps, debounce)
            == Step(Step(c, w0, microsteps, debounce), w1, microsteps, debounce)
  {
    var ws := [w0, w1];
    var c1 := Step(c, w0, microsteps, debounce);
    assert ws[1..] == [w1] && ws[1..][1..] == [];
    assert Drain(c, ws, microsteps, debounce) == Drain(c1, [w1], microsteps, debounce);
    assert [w1][1..] == [];
    assert Drain(c1, [w1], microsteps, debounce) == Drain(Step(c1, w1, microsteps, debounce), [], microsteps, debounce);
  }

  /** The count change `encoder_get_delta` reports: the negated int32_t
      difference since the last capture. */
  function Delta(count: int, lastCaptured: int): (d: int)
    requires IsInt32(count) && IsInt32(lastCaptured)
    ensures IsInt32(d) && (d + (count - lastCaptured)) % TWO_32 == 0
  {
    ToInt32(ToInt32(count - lastCaptured) * -1)
  }

  /** Successive deltas add up (as int32_t) to the negated total change, and
      a capture right after a capture reports 0. */
  lemma DeltasTelescope(c0: int, c1: int, c2: int)
    requires IsInt32(c0) && IsInt32(c1) && IsInt32(c2)
    ensures ToInt32(Delta(c1, c0) + Delta(c2, c1)) == Delta(c2, c0)
    ensures Delta(c0, c0) == 0
  {
    var d1, d2, d := Delta(c1, c0), Delta(c2, c1), Delta(c2, c0);
    var k1, k2, k := (d1 + (c1 - c0)) / TWO_32, (d2 + (c2 - c1)) / TWO_32, (d + (c2 - c0)) / TWO_32;
    assert d1 + (c1 - c0) == TWO_32 * k1;
    assert d2 + (c2 - c1) == TWO_32 * k2;
    assert d + (c2 - c0) == TWO_32 * k;
    assert d1 + d2 == d + TWO_32 * (k1 + k2 - k);
    ToInt32Shift(d, k1 + k2 - k);
  }

  /** The encoder driver's state. `countMicrosteps` is the mode flag (the
      game switches it on and off); `debounce` is the PIO program's
      ENC_DEBOUNCE_TIME. */
  class QuadEncoder {
    var count: int
    var timeSince: int
    var lastTravelDir: int
    var microstepTime: int
    var cumulativeTime: int
    var stateA: int
    var stateB: int
    var lastCapturedCount: int
    var countMicrosteps: bool
    const debounce: int

    function Snapshot(): Counters
      reads this
    {
      Counters(count, timeSince, lastTravelDir, microstepTime, cumulativeTime, stateA, stateB)
    }

    ghost predicate Valid()
      reads this
    {
      CountersValid(Snapshot()) && IsInt32(lastCapturedCount) && 0 <= debounce <= INT32_MAX - TIME_MASK
    }

    /** The globals' initial values; microsteps are off by default. */
    constructor (debounceTime: int)
      requires 0 <= debounceTime <= INT32_MAX - TIME_MASK
      ensures Valid() && debounce == debounceTime && !countMicrosteps
      ensures Snapshot() == Counters(0, 0, NO_DIR, 0, 0, 0, 0) && lastCapturedCount == 0
    {
      count := 0;
      timeSince := 0;
      lastTravelDir := NO_DIR;
      microstepTime := 0;
      cumulativeTime := 0;
      stateA := 0;
      stateB := 0;
      lastCapturedCount := 0;
      countMicrosteps := false;
      debounce := debounceTime;
    }

    /** `microstep_up`. */
    method MicrostepUp(time: int)
      requires Valid() && 0 <= time <= INT32_MAX
      modifies this
      ensures Valid() && Snapshot() == Counted(old(Snapshot()), 1, time)
      ensures lastCapturedCount == old(lastCapturedCount) && countMicrosteps == old(countMicrosteps)
    {
      count := ToInt32(count + 1);
      timeSince := time;
      microstepTime := 0;
      if ToInt32(time + cumulativeTime) < time {
        cumulativeTime := INT32_MAX;
      } else {
        cumulativeTime := ToInt32(cumulativeTime + time);
      }
    }

    /** `microstep_down`. */
    method MicrostepDown(time: int)
      requires Valid() && 0 <= time <= INT32_MAX
      modifies this
      ensures Valid() && Snapshot() == Counted(old(Snapshot()), -1, time)
      ensures lastCapturedCount == old(lastCapturedCount) && countMicrosteps == old(countMicrosteps)
    {
      count := ToInt32(count - 1);
      timeSince := ToInt32(0 - time);
      microstepTime := 0;
      if ToInt32(time + cumulativeTime) < time {
        cumulativeTime := INT32_MAX;
      } else {
        cumulativeTime := ToInt32(cumulativeTime + time);
      }
    }

    /** One word of `pio1_interrupt_callback`. */
    method HandleWord(received: int)
      requires Valid() && IsUint32(received)
      modifies this
      ensures Valid() && Snapshot() == Step(old(Snapshot()), received, countMicrosteps, debounce)
      ensures lastCapturedCount == old(lastCapturedCount) && countMicrosteps == old(countMicrosteps)
    {
      stateA := PinLevel(received, STATE_A_MASK);
      stateB := PinLevel(received, STATE_B_MASK);
      var states := received / 0x1000_0000;
      var timeReceived := received % 0x1000_0000 + debounce;
      if !countMicrosteps {
        if ToInt32(timeReceived + microstepTime) < timeReceived {
          timeReceived := INT32_MAX;
        } else {
          timeReceived := timeReceived + microstepTime;
        }
        microstepTime := timeReceived;
      }
      Dispatch(states % 4, states / 4, timeReceived);
    }

    /** The handler's switch on the (previous, current) pin states. */
    method Dispatch(last: int, curr: int, time: int)
      requires Valid() && 0 <= last < 4 && 0 <= curr < 4 && 0 <= time <= INT32_MAX
      modifies this
      ensures var t := Transition(last, curr, countMicrosteps, old(lastTravelDir));
              var c := old(Snapshot()).(lastTravelDir := t.1);
              Valid() && Snapshot() == if t.0 == 0 then c else Counted(c, t.0, time)
      ensures lastCapturedCount == old(lastCapturedCount) && countMicrosteps == old(countMicrosteps)
    {
      if last == MICROSTEP_0 {
        if curr == MICROSTEP_1 {
          if countMicrosteps { MicrostepUp(time); }
        } else if curr == MICROSTEP_3 {
          if countMicrosteps { MicrostepDown(time); }
        }
      } else if last == MICROSTEP_1 {
        if curr == MICROSTEP_2 {
          if countMicrosteps || lastTravelDir == CLOCKWISE { MicrostepUp(time); }
          lastTravelDir := NO_DIR;
        } else if curr == MICROSTEP_0 {
          if countMicrosteps { MicrostepDown(time); }
        }
      } else if last == MICROSTEP_2 {
        if curr == MICROSTEP_3 {
          if countMicrosteps { MicrostepUp(time); }
          lastTravelDir := CLOCKWISE;
        } else if curr == MICROSTEP_1 {
          if countMicrosteps { MicrostepDown(time); }
          lastTravelDir := COUNTERCLOCK;
        }
      } else {
        if curr == MICROSTEP_0 {
          if countMicrosteps { MicrostepUp(time); }
        } else if curr == MICROSTEP_2 {
          if countMicrosteps || lastTravelDir == COUNTERCLOCK { MicrostepDown(time); }
          lastTravelDir := NO_DIR;
        }
      }
    }

    /** `pio1_interrupt_callback`: drain the receive FIFO, oldest word first. */
    method Interrupt(fifo: seq<int>)
      requires Valid() && forall i :: 0 <= i < |fifo| ==> IsUint32(fifo[i])
      modifies this
      ensures Valid() && Snapshot() == Drain(old(Snapshot()), fifo, countMicrosteps, debounce)
      ensures lastCapturedCount == old(lastCapturedCount) && countMicrosteps == old(countMicrosteps)
    {
      var i := 0;
      while i < |fifo|
        invariant 0 <= i <= |fifo| && Valid()
        invariant countMicrosteps == old(countMicrosteps) && lastCapturedCount == old(lastCapturedCount)
        invariant Drain(Snapshot(), fifo[i..], countMicrosteps, debounce)
                  == Drain(old(Snapshot()), fifo, countMicrosteps, debounce)
      {
        assert fifo[i..][1..] == fifo[i + 1..];
        HandleWord(fifo[i]);
        i := i + 1;
      }
    }

    /** `encoder_get_delta`: report and capture. */
    method GetDelta() returns (delta: int)
      requires Valid()
      modifies this
      ensures Valid() && delta == Delta(count, old(lastCapturedCount)) && lastCapturedCount == count
      ensures Snapshot() == old(Snapshot()) && countMicrosteps == old(countMicrosteps)
    {
      var d := ToInt32(count - lastCapturedCount);
      lastCapturedCount := count;
      delta := ToInt32(d * -1);
    }
  }
}
