/** The in-place equaliser stage of the audio path (dsp/biquad_eq.c).

    biquad_eq_process_inplace splits an interleaved stereo int16 buffer into
    blocks of 16 frames; for every block and for channel 0 then channel 1 it
    widens the channel's samples to Q31 in a scratch buffer, scales them down
    by 1/8, runs one stateful direct-form-I biquad stage over them and narrows
    the result back to int16 in place. The two CMSIS-DSP kernels it calls
    (arm_scale_q31 and arm_biquad_cascade_df1_q31) are not part of this model:
    they are passed in as functions, and everything around them (block
    partition, channel separation, the untouched tail, the per-channel state
    regions, the Q15/Q31 conversions) is modelled and proved. */
module BiquadEq {
  import opened Ints

  const BLOCKSIZE: nat := 16
  /** Words of filter state per channel (the source reserves 8 per channel). */
  const STATE_WORDS: nat := 8
  const NUM_COEFFS: nat := 5
  /** arm_biquad_cascade_df1_init_q31 is called with one stage and post-shift 3
      (coefficients stored as Q28). */
  const NUM_STAGES: nat := 1
  const POST_SHIFT: nat := 3
  /** 1.0 in Q28: the scale factor applied to each designed coefficient. */
  const Q28_ONE: int := 268435456

  const Q31_MIN: int := -0x8000_0000
  const Q31_MAX: int := 0x7fff_ffff
  const TWO_16: int := 65536

  predicate IsQ31(x: int) { Q31_MIN <= x <= Q31_MAX }

  /** The two foreign kernels, one stage each. `scale` is arm_scale_q31 with
      scale 0x7FFFFFFF and shift -3, which works sample by sample.
      arm_biquad_cascade_df1_q31 on one instance is given by `state` and
      `output`: from the shared coefficients, the channel's state region and
      the input block, word w of the new state region and sample m of the
      output block. */
  datatype Kernels = Kernels(
    scale: int -> int,
    state: (seq<int>, seq<int>, seq<int>, nat) -> int,
    output: (seq<int>, seq<int>, seq<int>, nat) -> int)

  /** `((q31_t) x) << 16`: an int16 sample as Q31. */
  function Widen(x: int): int
  {
    x * 65536
  }

  /** `(int16_t) (y >> 16)`: arithmetic shift (floor), then truncation to 16 bits. */
  function Narrow(y: int): int
  {
    ToInt16(y / 65536)
  }

  /** Widening then narrowing gives back every int16 sample unchanged. */
  lemma NarrowWiden(x: int)
    requires IsInt16(x)
    ensures Narrow(Widen(x)) == x
  {
    assert Widen(x) / 65536 == x;
  }

  /** `len / BLOCKSIZE` with C's truncating division; the loop runs no block
      when that is not positive. */
  function NumBlocks(len: int): nat
  {
    if len <= 0 then 0 else len / BLOCKSIZE
  }

  /** The Q31 input of channel c for block i: samples 32i + 2m + c, m < 16. */
  function ChannelBlock(s: seq<int>, c: nat, i: nat): (b: seq<int>)
    requires c < 2 && 32 * (i + 1) <= |s|
    ensures |b| == BLOCKSIZE
  {
    seq(BLOCKSIZE, m requires 0 <= m < BLOCKSIZE => Widen(s[32 * i + 2 * m + c]))
  }

  /** arm_scale_q31 on one block. */
  function Scale(k: Kernels, xs: seq<int>): (r: seq<int>)
    ensures |r| == |xs|
  {
    seq(|xs|, m requires 0 <= m < |xs| => k.scale(xs[m]))
  }

  /** arm_biquad_cascade_df1_q31 on one block: the new state region and the output. */
  function Biquad(k: Kernels, co: seq<int>, st: seq<int>, xs: seq<int>): (r: (seq<int>, seq<int>))
    ensures |r.0| == |st| && |r.1| == |xs|
  {
    (seq(|st|, w requires 0 <= w < |st| => k.state(co, st, xs, w)),
     seq(|xs|, m requires 0 <= m < |xs| => k.output(co, st, xs, m)))
  }

  /** One channel's pass over one block: scale, then the biquad stage. */
  function ChannelStep(k: Kernels, co: seq<int>, st: seq<int>, block: seq<int>): (r: (seq<int>, seq<int>))
    ensures |r.0| == |st| && |r.1| == |block|
  {
    Biquad(k, co, st, Scale(k, block))
  }

  /** Channel c on its own, over blocks 0 .. n-1 in order: its state region
      after them and its concatenated Q31 output (16 values per block). */
  function RunChannel(k: Kernels, co: seq<int>, st: seq<int>, s: seq<int>, c: nat, n: nat): (r: (seq<int>, seq<int>))
    requires c < 2 && 32 * n <= |s|
    ensures |r.0| == |st| && |r.1| == 16 * n
  {
    if n == 0 then (st, [])
    else
      var prev := RunChannel(k, co, st, s, c, n - 1);
      var step := ChannelStep(k, co, prev.0, ChannelBlock(s, c, n - 1));
      (step.0, prev.1 + step.1)
  }

  /** Two channels' output blocks narrowed to int16 and interleaved into frames. */
  function Interleave(y0: seq<int>, y1: seq<int>): (f: seq<int>)
    requires |y0| == |y1|
    ensures |f| == 2 * |y0|
  {
    if y0 == [] then [] else [Narrow(y0[0]), Narrow(y1[0])] + Interleave(y0[1..], y1[1..])
  }

  /** Frame m of an interleaved block holds the two channels' sample m. */
  lemma {:induction false} InterleaveAt(y0: seq<int>, y1: seq<int>, m: nat)
    requires |y0| == |y1| && m < |y0|
    ensures Interleave(y0, y1)[2 * m] == Narrow(y0[m])
    ensures Interleave(y0, y1)[2 * m + 1] == Narrow(y1[m])
  {
    if m > 0 {
      InterleaveAt(y0[1..], y1[1..], m - 1);
    }
  }

  /** Interleaving distributes over appending blocks to both channels. */
  lemma {:induction false} InterleaveAppend(y0: seq<int>, y1: seq<int>, z0: seq<int>, z1: seq<int>)
    requires |y0| == |y1| && |z0| == |z1|
    ensures Interleave(y0 + z0, y1 + z1) == Interleave(y0, y1) + Interleave(z0, z1)
  {
    if y0 != [] {
      assert (y0 + z0)[1..] == y0[1..] + z0;
      assert (y1 + z1)[1..] == y1[1..] + z1;
      InterleaveAppend(y0[1..], y1[1..], z0, z1);
    } else {
      assert y0 + z0 == z0 && y1 + z1 == z1;
    }
  }

  /** Block i of a buffer overwritten with two channels' output blocks. */
  function WriteBlock(b: seq<int>, i: nat, y0: seq<int>, y1: seq<int>): (r: seq<int>)
    requires 32 * (i + 1) <= |b| && |y0| == |y1| == BLOCKSIZE
    ensures |r| == |b|
  {
    b[..32 * i] + Interleave(y0, y1) + b[32 * (i + 1)..]
  }

  /** Outside block i, WriteBlock keeps the buffer. */
  lemma WriteBlockOutside(b: seq<int>, i: nat, y0: seq<int>, y1: seq<int>, j: nat)
    requires 32 * (i + 1) <= |b| && |y0| == |y1| == BLOCKSIZE && j < |b|
    requires j < 32 * i || 32 * (i + 1) <= j
    ensures WriteBlock(b, i, y0, y1)[j] == b[j]
  {
  }

  /** Frame m of block i holds the two channels' narrowed sample m. */
  lemma WriteBlockSlot(b: seq<int>, i: nat, y0: seq<int>, y1: seq<int>, m: nat)
    requires 32 * (i + 1) <= |b| && |y0| == |y1| == BLOCKSIZE && m < BLOCKSIZE
    ensures WriteBlock(b, i, y0, y1)[32 * i + 2 * m] == Narrow(y0[m])
    ensures WriteBlock(b, i, y0, y1)[32 * i + 2 * m + 1] == Narrow(y1[m])
  {
    InterleaveAt(y0, y1, m);
  }

  /** Both state regions and the buffer. */
  datatype Progress = Progress(st0: seq<int>, st1: seq<int>, buf: seq<int>)

  /** The reference result after blocks 0 .. n-1: each channel filtered on
      its own over its samples of those blocks, the two outputs narrowed and
      interleaved into the first 16n frames, and the rest of the buffer as
      it was. */
  function Run(k: Kernels, co: seq<int>, st0: seq<int>, st1: seq<int>, s: seq<int>, n: nat): (r: Progress)
    requires 32 * n <= |s|
    ensures |r.st0| == |st0| && |r.st1| == |st1| && |r.buf| == |s|
  {
    var a := RunChannel(k, co, st0, s, 0, n);
    var b := RunChannel(k, co, st1, s, 1, n);
    Progress(a.0, b.0, Interleave(a.1, b.1) + s[32 * n..])
  }

  /** The buffer biquad_eq_process_inplace leaves behind, given the shared
      coefficients, the two channels' state regions and the input buffer. */
  function EqOutput(k: Kernels, co: seq<int>, st0: seq<int>, st1: seq<int>, s: seq<int>, len: int): (r: seq<int>)
    requires 32 * NumBlocks(len) <= |s|
  {
    Run(k, co, st0, st1, s, NumBlocks(len)).buf
  }

  /** Processing block i on channel 0 and then on channel 1 and writing both
      back extends the reference result by one block. */
  lemma RunStep(k: Kernels, co: seq<int>, st0: seq<int>, st1: seq<int>, s: seq<int>, i: nat)
    requires 32 * (i + 1) <= |s|
    ensures var r := Run(k, co, st0, st1, s, i);
            var a := ChannelStep(k, co, r.st0, ChannelBlock(s, 0, i));
            var b := ChannelStep(k, co, r.st1, ChannelBlock(s, 1, i));
            Run(k, co, st0, st1, s, i + 1) == Progress(a.0, b.0, WriteBlock(r.buf, i, a.1, b.1))
  {
    var p0 := RunChannel(k, co, st0, s, 0, i);
    var p1 := RunChannel(k, co, st1, s, 1, i);
    var a := ChannelStep(k, co, p0.0, ChannelBlock(s, 0, i));
    var b := ChannelStep(k, co, p1.0, ChannelBlock(s, 1, i));
    RunStepBuffer(p0.1, p1.1, a.1, b.1, s, i);
  }

  /** The buffer half of RunStep: appending one block to both channels'
      outputs writes their interleaving into block i. */
  lemma RunStepBuffer(o0: seq<int>, o1: seq<int>, y0: seq<int>, y1: seq<int>, s: seq<int>, i: nat)
    requires |o0| == |o1| == 16 * i && |y0| == |y1| == BLOCKSIZE && 32 * (i + 1) <= |s|
    ensures Interleave(o0 + y0, o1 + y1) + s[32 * (i + 1)..]
            == WriteBlock(Interleave(o0, o1) + s[32 * i..], i, y0, y1)
  {
    var buf := Interleave(o0, o1) + s[32 * i..];
    InterleaveAppend(o0, o1, y0, y1);
    assert buf[..32 * i] == Interleave(o0, o1);
    assert buf[32 * (i + 1)..] == s[32 * (i + 1)..];
  }

  /** Block i is still the original input when block i is about to be processed. */
  lemma BlockUntouched(k: Kernels, co: seq<int>, st0: seq<int>, st1: seq<int>, s: seq<int>, i: nat, c: nat)
    requires 32 * (i + 1) <= |s| && c < 2
    ensures ChannelBlock(Run(k, co, st0, st1, s, i).buf, c, i) == ChannelBlock(s, c, i)
  {
    var buf := Run(k, co, st0, st1, s, i).buf;
    assert buf[32 * i..] == s[32 * i..];
    forall m | 0 <= m < BLOCKSIZE ensures buf[32 * i + 2 * m + c] == s[32 * i + 2 * m + c] {
      assert buf[32 * i + 2 * m + c] == buf[32 * i..][2 * m + c];
    }
  }

  /** Frame f < 16n of the output holds each channel's own filtered sample f,
      narrowed to int16. */
  lemma OutputFrame(k: Kernels, co: seq<int>, st0: seq<int>, st1: seq<int>, s: seq<int>, len: int, f: nat)
    requires 32 * NumBlocks(len) <= |s| && f < 16 * NumBlocks(len)
    ensures EqOutput(k, co, st0, st1, s, len)[2 * f] == Narrow(RunChannel(k, co, st0, s, 0, NumBlocks(len)).1[f])
    ensures EqOutput(k, co, st0, st1, s, len)[2 * f + 1] == Narrow(RunChannel(k, co, st1, s, 1, NumBlocks(len)).1[f])
  {
    var n := NumBlocks(len);
    InterleaveAt(RunChannel(k, co, st0, s, 0, n).1, RunChannel(k, co, st1, s, 1, n).1, f);
  }

  /** Only the first NumBlocks(len) * 16 frames are rewritten: the output has
      the input's length, the trailing samples are the input's, and a buffer
      shorter than one block comes back unchanged. */
  lemma TailUntouched(k: Kernels, co: seq<int>, st0: seq<int>, st1: seq<int>, s: seq<int>, len: int)
    requires 32 * NumBlocks(len) <= |s|
    ensures |EqOutput(k, co, st0, st1, s, len)| == |s|
    ensures forall j :: 32 * NumBlocks(len) <= j < |s| ==> EqOutput(k, co, st0, st1, s, len)[j] == s[j]
    ensures len < BLOCKSIZE ==> EqOutput(k, co, st0, st1, s, len) == s
  {
  }

  /** Two buffers that agree on channel c's samples within the first n blocks. */
  predicate SameChannel(s: seq<int>, t: seq<int>, c: nat, n: nat)
    requires c < 2 && 32 * n <= |s| && 32 * n <= |t|
  {
    forall f :: 0 <= f < 16 * n ==> s[2 * f + c] == t[2 * f + c]
  }

  /** A channel's filter run reads only that channel's samples. */
  lemma {:induction false} RunChannelReadsOwnChannel(k: Kernels, co: seq<int>, st: seq<int>, s: seq<int>, t: seq<int>, c: nat, n: nat)
    requires c < 2 && 32 * n <= |s| && 32 * n <= |t|
    requires SameChannel(s, t, c, n)
    ensures RunChannel(k, co, st, s, c, n) == RunChannel(k, co, st, t, c, n)
  {
    if n > 0 {
      RunChannelReadsOwnChannel(k, co, st, s, t, c, n - 1);
      var bs := ChannelBlock(s, c, n - 1);
      var bt := ChannelBlock(t, c, n - 1);
      forall m | 0 <= m < BLOCKSIZE ensures bs[m] == bt[m] {
        var f := 16 * (n - 1) + m;
        assert 32 * (n - 1) + 2 * m + c == 2 * f + c;
      }
      assert bs == bt;
    }
  }

  /** Neither channel's output depends on the other channel's input: two
      buffers with the same left (c = 0) or right (c = 1) samples give the same
      left or right output, and the same state for that channel. */
  lemma ChannelsIndependent(k: Kernels, co: seq<int>, st0: seq<int>, st1: seq<int>, s: seq<int>, t: seq<int>, len: int, c: nat)
    requires c < 2 && |s| == |t| && 32 * NumBlocks(len) <= |s|
    requires SameChannel(s, t, c, NumBlocks(len))
    ensures forall f :: 0 <= f < 16 * NumBlocks(len) ==>
              EqOutput(k, co, st0, st1, s, len)[2 * f + c] == EqOutput(k, co, st0, st1, t, len)[2 * f + c]
    ensures c == 0 ==> Run(k, co, st0, st1, s, NumBlocks(len)).st0 == Run(k, co, st0, st1, t, NumBlocks(len)).st0
    ensures c == 1 ==> Run(k, co, st0, st1, s, NumBlocks(len)).st1 == Run(k, co, st0, st1, t, NumBlocks(len)).st1
  {
    var n := NumBlocks(len);
    if c == 0 {
      RunChannelReadsOwnChannel(k, co, st0, s, t, 0, n);
    } else {
      RunChannelReadsOwnChannel(k, co, st1, s, t, 1, n);
    }
    forall f | 0 <= f < 16 * n
      ensures EqOutput(k, co, st0, st1, s, len)[2 * f + c] == EqOutput(k, co, st0, st1, t, len)[2 * f + c]
    {
      OutputFrame(k, co, st0, st1, s, len, f);
      OutputFrame(k, co, st0, st1, t, len, f);
    }
  }

  /** Kernels that leave the samples and the state as they are. */
  function IdentityKernels(): Kernels
  {
    Kernels(x => x,
            (co, st: seq<int>, xs, w: nat) => if w < |st| then st[w] else 0,
            (co, st, xs: seq<int>, m: nat) => if m < |xs| then xs[m] else 0)
  }

  /** With pass-through kernels a channel's output is its widened input. */
  lemma {:induction false} RunChannelIdentity(co: seq<int>, st: seq<int>, s: seq<int>, c: nat, n: nat)
    requires c < 2 && 32 * n <= |s|
    ensures var r := RunChannel(IdentityKernels(), co, st, s, c, n);
            r.0 == st && forall f :: 0 <= f < 16 * n ==> r.1[f] == Widen(s[2 * f + c])
  {
    if n > 0 {
      RunChannelIdentity(co, st, s, c, n - 1);
      var prev := RunChannel(IdentityKernels(), co, st, s, c, n - 1);
      var r := RunChannel(IdentityKernels(), co, st, s, c, n);
      assert r.1 == prev.1 + ChannelBlock(s, c, n - 1);
      forall f | 16 * (n - 1) <= f < 16 * n
        ensures r.1[f] == Widen(s[2 * f + c])
      {
        var m := f - 16 * (n - 1);
        assert 32 * (n - 1) + 2 * m + c == 2 * f + c;
      }
    }
  }

  /** The Q15 -> Q31 -> Q15 round trip is exact: with pass-through kernels the
      equaliser returns every int16 buffer unchanged. */
  lemma WideningRoundTrip(co: seq<int>, st0: seq<int>, st1: seq<int>, s: seq<int>, len: int)
    requires AllInt16(s) && 32 * NumBlocks(len) <= |s|
    ensures EqOutput(IdentityKernels(), co, st0, st1, s, len) == s
  {
    var n := NumBlocks(len);
    TailUntouched(IdentityKernels(), co, st0, st1, s, len);
    var r := EqOutput(IdentityKernels(), co, st0, st1, s, len);
    forall f | 0 <= f < 16 * n ensures r[2 * f] == s[2 * f] && r[2 * f + 1] == s[2 * f + 1] {
      IdentityFrame(co, st0, st1, s, len, f);
    }
    forall j | 0 <= j < 32 * n ensures r[j] == s[j] {
      var f := j / 2;
      assert j == 2 * f || j == 2 * f + 1;
    }
  }

  /** With pass-through kernels frame f comes back as it went in. */
  lemma IdentityFrame(co: seq<int>, st0: seq<int>, st1: seq<int>, s: seq<int>, len: int, f: nat)
    requires AllInt16(s) && 32 * NumBlocks(len) <= |s| && f < 16 * NumBlocks(len)
    ensures EqOutput(IdentityKernels(), co, st0, st1, s, len)[2 * f] == s[2 * f]
    ensures EqOutput(IdentityKernels(), co, st0, st1, s, len)[2 * f + 1] == s[2 * f + 1]
  {
    var n := NumBlocks(len);
    RunChannelIdentity(co, st0, s, 0, n);
    RunChannelIdentity(co, st1, s, 1, n);
    OutputFrame(IdentityKernels(), co, st0, st1, s, len, f);
    NarrowWiden(s[2 * f + 0]);
    NarrowWiden(s[2 * f + 1]);
  }

  /** `after` is `before` with the narrowed samples y written into channel
      c's slots of block i, and nothing else changed. */
  ghost predicate Written(before: seq<int>, after: seq<int>, i: nat, c: nat, y: seq<int>)
    requires c < 2 && 32 * (i + 1) <= |before| && |y| == BLOCKSIZE
  {
    && |after| == |before|
    && (forall m :: 0 <= m < BLOCKSIZE ==> after[32 * i + 2 * m + c] == Narrow(y[m]))
    && (forall m :: 0 <= m < BLOCKSIZE ==> after[32 * i + 2 * m + (1 - c)] == before[32 * i + 2 * m + (1 - c)])
    && (forall j :: 0 <= j < |before| && (j < 32 * i || 32 * (i + 1) <= j) ==> after[j] == before[j])
  }

  /** Writing channel c leaves the other channel's block as it was. */
  lemma WrittenKeepsOther(before: seq<int>, after: seq<int>, i: nat, c: nat, y: seq<int>)
    requires c < 2 && 32 * (i + 1) <= |before| && |y| == BLOCKSIZE
    requires Written(before, after, i, c, y)
    ensures ChannelBlock(after, 1 - c, i) == ChannelBlock(before, 1 - c, i)
  {
    var x := ChannelBlock(after, 1 - c, i);
    var z := ChannelBlock(before, 1 - c, i);
    forall m | 0 <= m < BLOCKSIZE ensures x[m] == z[m] {
      assert after[32 * i + 2 * m + (1 - c)] == before[32 * i + 2 * m + (1 - c)];
    }
  }

  /** Channel 0's then channel 1's narrowed output written into their slots
      of block i is WriteBlock. */
  lemma WriteBlockStep(before: seq<int>, mid: seq<int>, after: seq<int>, i: nat, y0: seq<int>, y1: seq<int>)
    requires 32 * (i + 1) <= |before| && |y0| == |y1| == BLOCKSIZE
    requires Written(before, mid, i, 0, y0) && Written(mid, after, i, 1, y1)
    ensures after == WriteBlock(before, i, y0, y1)
  {
    var w := WriteBlock(before, i, y0, y1);
    forall j | 0 <= j < |before| ensures after[j] == w[j] {
      if 32 * i <= j < 32 * (i + 1) {
        var m := (j - 32 * i) / 2;
        WriteBlockSlot(before, i, y0, y1, m);
        if j == 32 * i + 2 * m {
          assert after[32 * i + 2 * m + 0] == mid[32 * i + 2 * m + 0];
        } else {
          assert j == 32 * i + 2 * m + 1;
          assert mid[32 * i + 2 * m + (1 - 0)] == before[32 * i + 2 * m + (1 - 0)];
        }
      } else {
        WriteBlockOutside(before, i, y0, y1, j);
      }
    }
  }

  /** One block of biquad_eq_process_inplace on sequences: starting from the
      reference result after i blocks, channel 0's pass and then channel 1's
      pass (each reading its block from the buffer as it stands) give the
      reference result after i + 1 blocks. */
  lemma BlockPasses(k: Kernels, co: seq<int>, st0: seq<int>, st1: seq<int>, s: seq<int>, i: nat,
                    mid: seq<int>, after: seq<int>)
    requires 32 * (i + 1) <= |s|
    requires var r := Run(k, co, st0, st1, s, i);
             Written(r.buf, mid, i, 0, ChannelStep(k, co, r.st0, ChannelBlock(r.buf, 0, i)).1)
    requires var r := Run(k, co, st0, st1, s, i);
             |mid| == |s| && Written(mid, after, i, 1, ChannelStep(k, co, r.st1, ChannelBlock(mid, 1, i)).1)
    ensures var r := Run(k, co, st0, st1, s, i);
            var q := Run(k, co, st0, st1, s, i + 1);
            && q.st0 == ChannelStep(k, co, r.st0, ChannelBlock(r.buf, 0, i)).0
            && q.st1 == ChannelStep(k, co, r.st1, ChannelBlock(mid, 1, i)).0
            && q.buf == after
  {
    var r := Run(k, co, st0, st1, s, i);
    var a := ChannelStep(k, co, r.st0, ChannelBlock(s, 0, i));
    var b := ChannelStep(k, co, r.st1, ChannelBlock(s, 1, i));
    BlockUntouched(k, co, st0, st1, s, i, 0);
    BlockUntouched(k, co, st0, st1, s, i, 1);
    assert a == ChannelStep(k, co, r.st0, ChannelBlock(r.buf, 0, i));
    WrittenKeepsOther(r.buf, mid, i, 0, a.1);
    assert ChannelBlock(mid, 1, i) == ChannelBlock(s, 1, i);
    assert b == ChannelStep(k, co, r.st1, ChannelBlock(mid, 1, i));
    WriteBlockStep(r.buf, mid, after, i, a.1, b.1);
    RunStep(k, co, st0, st1, s, i);
  }

  /** `clip_q63_to_q31` as CMSIS-DSP defines it:
      `((q31_t) (x >> 32) != ((q31_t) x >> 31)) ? (0x7FFFFFFF ^ ((q31_t) (x >> 63))) : (q31_t) x`,
      on a 64-bit two's complement value. Shifts are arithmetic (floor), the
      casts keep the low 32 bits, and XOR with 0 or -1 is identity or NOT. */
  function ClipQ63ToQ31(x: int): (r: int)
    requires -0x8000_0000_0000_0000 <= x < 0x8000_0000_0000_0000
    ensures IsQ31(r)
    ensures IsQ31(x) ==> r == x
    ensures x > Q31_MAX ==> r == Q31_MAX
    ensures x < Q31_MIN ==> r == Q31_MIN
  {
    var hi := x / 0x1_0000_0000;              // (q31_t) (x >> 32)
    var lo := x % 0x1_0000_0000;
    var low32 := if lo < 0x8000_0000 then lo else lo - 0x1_0000_0000;  // (q31_t) x
    var sign32 := if low32 < 0 then -1 else 0;                  // (q31_t) x >> 31
    var sign64 := if x < 0 then -1 else 0;                      // x >> 63
    if hi != sign32 then
      (if sign64 == 0 then Q31_MAX else -Q31_MAX - 1)          // 0x7FFFFFFF ^ sign64
    else
      low32
  }

  /** Every stored coefficient is the designed Q28 value saturated into Q31. */
  function StoreCoeffs(raw: seq<int>): (co: seq<int>)
    requires forall i :: 0 <= i < |raw| ==> -0x8000_0000_0000_0000 <= raw[i] < 0x8000_0000_0000_0000
    ensures |co| == |raw|
    ensures forall i :: 0 <= i < |raw| ==> IsQ31(co[i])
    ensures forall i :: 0 <= i < |raw| && IsQ31(raw[i]) ==> co[i] == raw[i]
    ensures forall i :: 0 <= i < |raw| && !IsQ31(raw[i]) ==> co[i] == (if raw[i] > 0 then Q31_MAX else Q31_MIN)
  {
    seq(|raw|, i requires 0 <= i < |raw| => ClipQ63ToQ31(raw[i]))
  }

  /** The equaliser's static state: the 16-word state array (channel c owns
      words 8c .. 8c+7), the five shared coefficients and the 16-word Q31
      scratch block. */
  class Equaliser {
    const state: array<int>
    const coeffs: array<int>
    const scratch: array<int>
    ghost predicate Valid()
      reads this
    {
      && state.Length == 2 * STATE_WORDS
      && coeffs.Length == NUM_COEFFS
      && scratch.Length == BLOCKSIZE
      && state != coeffs && state != scratch && coeffs != scratch
    }

    /** Channel c's state region, words 8c .. 8c+7. */
    function Region(c: nat): (r: seq<int>)
      requires Valid() && c < 2
      reads this, state
      ensures |r| == STATE_WORDS
    {
      state[8 * c .. 8 * c + STATE_WORDS]
    }

    /** biquad_eq_init: the five designed coefficients (`raw`, computed in
        floating point and converted to 64-bit integers, which this model
        leaves out) are saturated into the shared coefficient array, and both
        instances start from a zero state (as arm_biquad_cascade_df1_init_q31
        does) in their own 8-word region. */
    constructor Init(raw: seq<int>)
      requires |raw| == NUM_COEFFS
      requires forall i :: 0 <= i < |raw| ==> -0x8000_0000_0000_0000 <= raw[i] < 0x8000_0000_0000_0000
      ensures Valid() && fresh(state) && fresh(coeffs) && fresh(scratch)
      ensures coeffs[..] == StoreCoeffs(raw)
      ensures Region(0) == Region(1) == seq(STATE_WORDS, _ => 0)
    {
      var co := StoreCoeffs(raw);
      coeffs := new int[NUM_COEFFS](i requires 0 <= i < NUM_COEFFS => co[i]);
      state := new int[2 * STATE_WORDS](_ => 0);
      scratch := new int[BLOCKSIZE](_ => 0);
    }

    /** The first inner loop: channel c of block i, widened into the scratch block. */
    method WidenBlock(samples: array<int>, i: nat, c: nat)
      requires Valid() && c < 2 && 32 * (i + 1) <= samples.Length
      requires samples != scratch
      modifies scratch
      ensures scratch[..] == ChannelBlock(samples[..], c, i)
    {
      var n := 0;
      var j := 0;
      while j < 32
        invariant 0 <= j <= 32 && j == 2 * n
        invariant forall m :: 0 <= m < n ==> scratch[m] == Widen(samples[32 * i + 2 * m + c])
      {
        scratch[n] := Widen(samples[32 * i + j + c]);
        n := n + 1;
        j := j + 2;
      }
    }

    /** The two kernel calls on channel c: the scratch block is scaled and
        filtered in place, and only channel c's state region is updated. */
    method FilterBlock(c: nat, k: Kernels)
      requires Valid() && c < 2
      modifies state, scratch
      ensures Valid()
      ensures Region(c) == ChannelStep(k, coeffs[..], old(Region(c)), old(scratch[..])).0
      ensures scratch[..] == ChannelStep(k, coeffs[..], old(Region(c)), old(scratch[..])).1
      ensures Region(1 - c) == old(Region(1 - c))
    {
      ghost var other := Region(1 - c);
      ghost var co0 := coeffs[..];
      ghost var st0 := Region(c);
      ghost var before := scratch[..];
      ghost var step := ChannelStep(k, co0, st0, before);
      var scaled := Scale(k, scratch[..]);
      forall m | 0 <= m < BLOCKSIZE {
        scratch[m] := scaled[m];
      }
      assert scratch[..] == scaled;
      assert coeffs[..] == co0;
      assert Region(c) == st0;
      assert scaled == Scale(k, before);
      var r := Biquad(k, coeffs[..], Region(c), scratch[..]);
      assert r == step;
      forall j | 8 * c <= j < 8 * c + STATE_WORDS {
        state[j] := r.0[j - 8 * c];
      }
      forall m | 0 <= m < BLOCKSIZE {
        scratch[m] := r.1[m];
      }
      assert Region(c) == step.0;
      assert scratch[..] == step.1;
      assert state[8 * (1 - c) .. 8 * (1 - c) + STATE_WORDS] == other;
      assert coeffs[..] == co0;
      assert old(Region(c)) == st0;
      assert old(scratch[..]) == before;
    }

    /** The second inner loop: the scratch block narrowed back into channel c
        of block i; no other sample changes. */
    method NarrowBlock(samples: array<int>, i: nat, c: nat)
      requires Valid() && c < 2 && 32 * (i + 1) <= samples.Length
      requires samples != scratch
      modifies samples
      ensures Written(old(samples[..]), samples[..], i, c, scratch[..])
    {
      var n := 0;
      var j := 0;
      while j < 32
        invariant 0 <= j <= 32 && j == 2 * n
        invariant forall m :: 0 <= m < n ==> samples[32 * i + 2 * m + c] == Narrow(scratch[m])
        invariant forall m :: n <= m < BLOCKSIZE ==> samples[32 * i + 2 * m + c] == old(samples[32 * i + 2 * m + c])
        invariant forall m :: 0 <= m < BLOCKSIZE ==> samples[32 * i + 2 * m + (1 - c)] == old(samples[32 * i + 2 * m + (1 - c)])
        invariant forall jj :: 0 <= jj < samples.Length && (jj < 32 * i || 32 * (i + 1) <= jj) ==> samples[jj] == old(samples[jj])
      {
        samples[32 * i + j + c] := Narrow(scratch[n]);
        n := n + 1;
        j := j + 2;
      }
    }

    /** One channel's pass over block i (the body of the `chan` loop). */
    method ChannelPass(samples: array<int>, i: nat, c: nat, k: Kernels)
      requires Valid() && c < 2
      requires 32 * (i + 1) <= samples.Length
      requires samples != state && samples != coeffs && samples != scratch
      modifies samples, state, scratch
      ensures Valid()
      ensures var r := ChannelStep(k, coeffs[..], old(Region(c)), ChannelBlock(old(samples[..]), c, i));
              && Region(c) == r.0
              && Region(1 - c) == old(Region(1 - c))
              && Written(old(samples[..]), samples[..], i, c, r.1)
    {
      WidenBlock(samples, i, c);
      FilterBlock(c, k);
      NarrowBlock(samples, i, c);
    }

    /** The buffer and both state regions are where the reference leaves
        them after blocks 0 .. i-1. */
    ghost predicate Reached(samples: array<int>, k: Kernels, co: seq<int>, st0: seq<int>, st1: seq<int>,
                            s0: seq<int>, i: nat)
      reads this, state, coeffs, samples
    {
      && Valid() && coeffs[..] == co && |s0| == samples.Length && 32 * i <= |s0|
      && var r := Run(k, co, st0, st1, s0, i);
         samples[..] == r.buf && Region(0) == r.st0 && Region(1) == r.st1
    }

    /** biquad_eq_process_inplace(samples, len). */
    method ProcessInPlace(samples: array<int>, len: int, k: Kernels)
      requires Valid()
      requires IsInt16(len)
      requires 32 * NumBlocks(len) <= samples.Length
      requires samples != state && samples != coeffs && samples != scratch
      modifies samples, state, scratch
      ensures Valid()
      ensures var r := Run(k, coeffs[..], old(Region(0)), old(Region(1)), old(samples[..]), NumBlocks(len));
              samples[..] == r.buf && Region(0) == r.st0 && Region(1) == r.st1
    {
      ghost var s0 := samples[..];
      ghost var st0 := Region(0);
      ghost var st1 := Region(1);
      ghost var co := coeffs[..];
      var numBlocks := if len <= 0 then 0 else len / BLOCKSIZE;
      var i := 0;
      while i < numBlocks
        invariant 0 <= i <= numBlocks == NumBlocks(len)
        invariant Reached(samples, k, co, st0, st1, s0, i)
      {
        BlockStep(samples, s0, st0, st1, co, i, k);
        i := i + 1;
      }
    }

    /** Both channel passes of block i (one iteration of the block loop). */
    method BlockStep(samples: array<int>, ghost s0: seq<int>, ghost st0: seq<int>, ghost st1: seq<int>,
                     ghost co: seq<int>, i: nat, k: Kernels)
      requires 32 * (i + 1) <= samples.Length
      requires samples != state && samples != coeffs && samples != scratch
      requires Reached(samples, k, co, st0, st1, s0, i)
      modifies samples, state, scratch
      ensures Reached(samples, k, co, st0, st1, s0, i + 1)
    {
      ChannelPass(samples, i, 0, k);
      ghost var mid := samples[..];
      ChannelPass(samples, i, 1, k);
      BlockPasses(k, co, st0, st1, s0, i, mid, samples[..]);
    }
  }
}
