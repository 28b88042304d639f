/** The eight-band equaliser editor screen (ui/eq_curve.c): the encoder
    moves the selected band's value within 0..40, every change is pushed to
    the equaliser as a stage gain of value - 20 dB, the coefficients are
    recomputed and all bands are persisted; the band cursor cycles. */
module EqCurve {
  import opened Ints
  import Encoder

  const NUM_BANDS: int := 8
  const MAX_RANGE: int := 40

  /** Calls into the equaliser and the persistent store, in order. A stage
      gain is `mapRange(0, 40, -20, 20, value)`, which for an integer value
      in float arithmetic is exactly `value - 20`. */
  datatype Effect =
    | SetStageGain(stage: int, gainDb: int)
    | UpdateCoeffs
    | PersistWrite(bytes: seq<int>)

  /** A band value after an encoder step: int32_t addition, then clamped
      into 0..MAX_RANGE. */
  function BandAfter(value: int, delta: int): (r: int)
    requires IsInt32(value) && IsInt32(delta)
  {
    var curr := ToInt32(value + delta);
    if curr < 0 then 0 else if curr > MAX_RANGE then MAX_RANGE else curr
  }

  /** The new value is the old one plus the delta, clamped into 0..40 (when
      the int32_t sum does not overflow); it always lies in 0..40 and moves
      in the direction of the delta from any in-range value. */
  lemma BandAfterProperties(value: int, delta: int)
    requires IsInt32(value) && IsInt32(delta)
    ensures 0 <= BandAfter(value, delta) <= MAX_RANGE
    ensures IsInt32(value + delta) ==>
              BandAfter(value, delta) == if value + delta < 0 then 0
                                          else if value + delta > MAX_RANGE then MAX_RANGE else value + delta
    ensures 0 <= value <= MAX_RANGE && 0 <= delta && IsInt32(value + delta) ==> value <= BandAfter(value, delta)
    ensures 0 <= value <= MAX_RANGE && delta <= 0 ==> BandAfter(value, delta) <= value
  {
  }

  /** The band cursor after `k` presses of `eq_curve_next_band` from `band`. */
  function CursorAfter(band: int, k: nat): (b: int)
    requires 0 <= band < NUM_BANDS
    ensures 0 <= b < NUM_BANDS
  {
    if k == 0 then band else (CursorAfter(band, k - 1) + 1) % NUM_BANDS
  }

  /** The cursor walks the bands in order and wraps: after `k` presses it
      is `(band + k) mod 8`. */
  lemma {:induction false} CursorCycles(band: int, k: nat)
    requires 0 <= band < NUM_BANDS
    ensures CursorAfter(band, k) == (band + k) % NUM_BANDS
  {
    if k > 0 {
      CursorCycles(band, k - 1);
      var q := (band + k - 1) / NUM_BANDS;
      var r := (band + k - 1) % NUM_BANDS;
      assert band + k - 1 == NUM_BANDS * q + r;
      assert band + k == NUM_BANDS * q + (r + 1);
      if r + 1 == NUM_BANDS {
        assert band + k == NUM_BANDS * (q + 1);
      }
    }
  }

  /** Eight presses bring the cursor back, and every band is reached on
      the way: band `b` after `(b - band) mod 8` presses. */
  lemma CursorFullTurn(band: int, b: int)
    requires 0 <= band < NUM_BANDS && 0 <= b < NUM_BANDS
    ensures CursorAfter(band, NUM_BANDS) == band
    ensures CursorAfter(band, (b - band + NUM_BANDS) % NUM_BANDS) == b
  {
    CursorCycles(band, NUM_BANDS);
    ModOffset(band, 1);
    CursorReaches(band, b, (b - band + NUM_BANDS) % NUM_BANDS);
  }

  /** The presses `(b - band) mod 8` lead from `band` to `b`. */
  lemma CursorReaches(band: int, b: int, k: nat)
    requires 0 <= band < NUM_BANDS && 0 <= b < NUM_BANDS && k == (b - band + NUM_BANDS) % NUM_BANDS
    ensures CursorAfter(band, k) == b
  {
    CursorCycles(band, k);
    if b >= band {
      ModOffset(b - band, 1);
      assert band + k == b;
    } else {
      ModOffset(b - band + NUM_BANDS, 0);
      assert band + k == b + NUM_BANDS;
      ModOffset(b, 1);
    }
  }

  /** Adding whole turns to a value in 0..7 does not change it mod 8. */
  lemma ModOffset(r: int, q: nat)
    requires 0 <= r < NUM_BANDS
    ensures (r + NUM_BANDS * q) % NUM_BANDS == r
  {
  }

  /** The gain calls `eq_load` makes for the loaded values, band by band. */
  function LoadGains(values: seq<int>, n: nat): (es: seq<Effect>)
    requires n <= |values|
    ensures |es| == n
    ensures forall i :: 0 <= i < n ==> es[i] == SetStageGain(i, values[i] - 20)
  {
    if n == 0 then [] else LoadGains(values, n - 1) + [SetStageGain(n - 1, values[n - 1] - 20)]
  }

  /** The editor's state: the chart's band values, the persisted copy and
      the defaults (bytes), the selected band, the encoder-pause flag shared
      with the input driver, whether the 100 ms update timer runs, and the
      calls made so far. */
  class EqEditor {
    const valueArray: array<int>
    const persist: array<int>
    const defaults: array<int>
    var currentBand: int
    var pauseEncoder: int
    var timerRunning: bool
    var effects: seq<Effect>

    ghost predicate Valid()
      reads this, valueArray, persist, defaults
    {
      && valueArray.Length == NUM_BANDS && persist.Length == NUM_BANDS && defaults.Length == NUM_BANDS
      && valueArray != persist && valueArray != defaults && persist != defaults
      && AllBytes(valueArray[..]) && AllBytes(persist[..]) && AllBytes(defaults[..])
      && 0 <= currentBand < NUM_BANDS
    }

    /** The statics before `eq_curve_init`. */
    constructor ()
      ensures Valid() && fresh(valueArray) && fresh(persist) && fresh(defaults)
      ensures currentBand == 0 && pauseEncoder == 0 && !timerRunning && effects == []
    {
      valueArray := new int[NUM_BANDS](_ => 0);
      persist := new int[NUM_BANDS](_ => 0);
      defaults := new int[NUM_BANDS](_ => 0);
      currentBand := 0;
      pauseEncoder := 0;
      timerRunning := false;
      effects := [];
    }

    /** `eq_store`: copy every band into the persisted bytes and write them. */
    method Store()
      requires Valid()
      modifies persist, this`effects
      ensures Valid() && persist[..] == valueArray[..]
      ensures effects == old(effects) + [PersistWrite(valueArray[..])]
    {
      var i := 0;
      while i < NUM_BANDS
        invariant 0 <= i <= NUM_BANDS && Valid() && effects == old(effects)
        invariant forall k :: 0 <= k < NUM_BANDS ==> persist[k] == if k < i then valueArray[k] else old(persist[k])
      {
        persist[i] := ToUint8(valueArray[i]);
        i := i + 1;
      }
      effects := effects + [PersistWrite(persist[..])];
    }

    /** `persist_read` of the curve file into the persisted bytes:
        `readBytes` is what the file read delivered, and anything short of
        the full size falls back to the defaults. */
    method PersistRead(readBytes: seq<int>)
      requires Valid() && AllBytes(readBytes) && |readBytes| <= NUM_BANDS
      modifies persist
      ensures Valid()
      ensures persist[..] == if |readBytes| == NUM_BANDS then readBytes else defaults[..]
    {
      if |readBytes| == NUM_BANDS {
        forall k | 0 <= k < NUM_BANDS {
          persist[k] := readBytes[k];
        }
      } else {
        forall k | 0 <= k < NUM_BANDS {
          persist[k] := defaults[k];
        }
      }
    }

    /** `eq_load`: read the stored curve (or the defaults); every band takes
        the loaded byte unclamped and gets its gain, in band order, then one
        coefficient update follows. */
    method Load(readBytes: seq<int>)
      requires Valid() && AllBytes(readBytes) && |readBytes| <= NUM_BANDS
      modifies persist, valueArray, this`effects
      ensures Valid()
      ensures var loaded := if |readBytes| == NUM_BANDS then readBytes else old(defaults[..]);
              persist[..] == loaded && valueArray[..] == loaded
              && effects == old(effects) + LoadGains(loaded, NUM_BANDS) + [UpdateCoeffs]
    {
      PersistRead(readBytes);
      ghost var loaded := persist[..];
      var i := 0;
      while i < NUM_BANDS
        invariant 0 <= i <= NUM_BANDS && Valid() && persist[..] == loaded
        invariant forall k :: 0 <= k < i ==> valueArray[k] == loaded[k]
        invariant effects == old(effects) + LoadGains(loaded, i)
      {
        valueArray[i] := persist[i];
        effects := effects + [SetStageGain(i, valueArray[i] - 20)];
        i := i + 1;
      }
      assert valueArray[..] == loaded;
      effects := effects + [UpdateCoeffs];
    }

    /** `eq_curve_init` (its chart calls left aside): defaults and values
        become MAX_RANGE / 2 = 20 for every band, the update timer is
        created paused, then the stored curve is loaded. */
    method Init(readBytes: seq<int>)
      requires Valid() && AllBytes(readBytes) && |readBytes| <= NUM_BANDS
      modifies persist, valueArray, defaults, this`effects, this`timerRunning
      ensures Valid() && !timerRunning && currentBand == old(currentBand)
      ensures defaults[..] == seq(NUM_BANDS, _ => MAX_RANGE / 2)
      ensures var loaded := if |readBytes| == NUM_BANDS then readBytes else seq(NUM_BANDS, _ => MAX_RANGE / 2);
              valueArray[..] == loaded && effects == old(effects) + LoadGains(loaded, NUM_BANDS) + [UpdateCoeffs]
    {
      var i := 0;
      while i < NUM_BANDS
        invariant 0 <= i <= NUM_BANDS && Valid() && effects == old(effects)
        invariant forall k :: 0 <= k < i ==> valueArray[k] == MAX_RANGE / 2 && defaults[k] == MAX_RANGE / 2
      {
        valueArray[i] := MAX_RANGE / 2;
        defaults[i] := MAX_RANGE / 2;
        i := i + 1;
      }
      timerRunning := false;
      Load(readBytes);
    }

    /** `eq_update`, the timer callback: take the encoder's delta; a zero
        delta does nothing at all, otherwise the selected band moves (and
        only it), its gain is set, the coefficients are recomputed once and
        the whole curve is stored once. */
    method Update(enc: Encoder.QuadEncoder) returns (delta: int)
      requires Valid() && enc.Valid()
      modifies valueArray, persist, this`effects, enc
      ensures Valid() && enc.Valid() && delta == Encoder.Delta(old(enc.count), old(enc.lastCapturedCount))
      ensures enc.Snapshot() == old(enc.Snapshot()) && enc.lastCapturedCount == old(enc.count)
      ensures delta == 0 ==>
                valueArray[..] == old(valueArray[..]) && persist[..] == old(persist[..]) && effects == old(effects)
      ensures delta != 0 ==>
                var curr := BandAfter(old(valueArray[currentBand]), delta);
                && valueArray[..] == old(valueArray[..])[currentBand := curr]
                && persist[..] == valueArray[..]
                && effects == old(effects) + [SetStageGain(currentBand, curr - 20), UpdateCoeffs, PersistWrite(valueArray[..])]
    {
      delta := enc.GetDelta();
      if delta != 0 {
        var curr := ToInt32(valueArray[currentBand] + delta);
        if curr < 0 {
          curr := 0;
        } else if curr > MAX_RANGE {
          curr := MAX_RANGE;
        }
        valueArray[currentBand] := curr;
        effects := effects + [SetStageGain(currentBand, curr - 20), UpdateCoeffs];
        Store();
      }
    }

    /** `eq_curve_next_band`: the cursor moves to the next band, wrapping. */
    method NextBand()
      requires Valid()
      modifies this`currentBand
      ensures Valid() && currentBand == CursorAfter(old(currentBand), 1)
    {
      currentBand := (currentBand + 1) % NUM_BANDS;
    }

    /** `eq_curve_start`: take the encoder away from the input driver,
        discard whatever delta has piled up, and start the update timer. */
    method Start(enc: Encoder.QuadEncoder)
      requires Valid() && enc.Valid()
      modifies this`pauseEncoder, this`timerRunning, enc
      ensures Valid() && enc.Valid() && pauseEncoder == 1 && timerRunning
      ensures enc.lastCapturedCount == enc.count && enc.Snapshot() == old(enc.Snapshot())
    {
      pauseEncoder := 1;
      var _ := enc.GetDelta();
      timerRunning := true;
    }

    /** `eq_curve_stop`: hand the encoder back and pause the timer. */
    method Stop()
      requires Valid()
      modifies this`pauseEncoder, this`timerRunning
      ensures Valid() && pauseEncoder == 0 && !timerRunning
    {
      pauseEncoder := 0;
      timerRunning := false;
    }
  }
}
