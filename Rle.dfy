/** The run-length video format shared by the firmware player
    (ui/badapple.c) and its host-side twin (ui/framedec.c): a frame is a
    big-endian 16-bit length followed by that many bytes of (count, byte)
    runs, and frames follow each other from offset 2 of the video. */
module Rle {
  import opened Ints

  /** How many (count, byte) pairs `rle_decode` reads for a length `l`: the
      loop runs while `l > 0`, stepping by two, so an odd length reads one
      pair more than half of it. */
  function Pairs(l: int): (n: nat)
    ensures l <= 0 ==> n == 0
    ensures l > 0 ==> l <= 2 * n <= l + 1
  {
    if l <= 0 then 0 else (l + 1) / 2
  }

  /** The total of the run counts. */
  function RunTotal(runs: seq<int>): int
    requires |runs| % 2 == 0
  {
    if runs == [] then 0 else RunTotal(runs[..|runs| - 2]) + runs[|runs| - 2]
  }

  /** The bytes a run list stands for: each run's byte repeated `count`
      times, runs in order (a zero count stands for nothing). */
  function Expand(runs: seq<int>): (out: seq<int>)
    requires |runs| % 2 == 0 && AllBytes(runs)
    ensures |out| == RunTotal(runs)
    ensures AllBytes(out)
  {
    if runs == [] then []
    else
      var prefix := runs[..|runs| - 2];
      assert AllBytes(prefix);
      Expand(prefix) + seq(runs[|runs| - 2], _ => runs[|runs| - 1])
  }

  /** Expanding two run lists one after the other is expanding each. */
  lemma {:induction false} ExpandAppend(a: seq<int>, b: seq<int>)
    requires |a| % 2 == 0 && |b| % 2 == 0 && AllBytes(a) && AllBytes(b)
    ensures AllBytes(a + b) && Expand(a + b) == Expand(a) + Expand(b)
    decreases |b|
  {
    if b != [] {
      var b' := b[..|b| - 2];
      var c, v := b[|b| - 2], b[|b| - 1];
      assert b == b' + [c, v];
      assert a + b == (a + b') + [c, v];
      ExpandSnoc(b', c, v);
      ExpandAppend(a, b');
      ExpandSnoc(a + b', c, v);
    } else {
      assert a + b == a;
    }
  }

  /** One more run at the end adds its bytes at the end. */
  lemma ExpandSnoc(p: seq<int>, c: int, v: int)
    requires |p| % 2 == 0 && AllBytes(p) && IsByte(c) && IsByte(v)
    ensures AllBytes(p + [c, v]) && Expand(p + [c, v]) == Expand(p) + seq(c, _ => v)
  {
    var r := p + [c, v];
    assert r[..|r| - 2] == p;
  }

  /** A prefix of whole runs never stands for more bytes than the whole. */
  lemma {:induction false} RunTotalPrefix(runs: seq<int>, j: nat)
    requires |runs| % 2 == 0 && j % 2 == 0 && j <= |runs| && AllBytes(runs)
    ensures RunTotal(runs[..j]) <= RunTotal(runs)
    decreases |runs|
  {
    if j < |runs| {
      var prefix := runs[..|runs| - 2];
      assert prefix[..j] == runs[..j];
      RunTotalPrefix(prefix, j);
    } else {
      assert runs[..j] == runs;
    }
  }

  /** The inner loop of `rle_decode`: `n` copies of `c` from `pos` on. */
  method Fill(out: array<int>, pos: int, c: int, n: int) returns (end: int)
    requires 0 <= pos && 0 <= n && pos + n <= out.Length
    modifies out
    ensures end == pos + n
    ensures out[..end] == old(out[..pos]) + seq(n, _ => c)
    ensures out[end..] == old(out[end..])
  {
    end := pos;
    var i := n;
    while i > 0
      invariant 0 <= i <= n && end == pos + (n - i)
      invariant out[..end] == old(out[..pos]) + seq(n - i, _ => c)
      invariant out[end..] == old(out[end..])
    {
      out[end] := c;
      assert seq(n - i + 1, _ => c) == seq(n - i, _ => c) + [c];
      assert out[..end + 1] == out[..end] + [c];
      end := end + 1;
      i := i - 1;
    }
  }

  /** `rle_decode`: `l` bytes of runs at the start of `inp` are expanded into
      `out` from its start; the result is the total of the counts read. The
      caller guarantees that the runs are there and that their expansion
      fits `out`: the C code checks neither. */
  method Decode(out: array<int>, inp: seq<int>, l: int) returns (tb: int)
    requires AllBytes(inp) && 2 * Pairs(l) <= |inp|
    requires RunTotal(inp[..2 * Pairs(l)]) <= out.Length
    modifies out
    ensures tb == RunTotal(inp[..2 * Pairs(l)]) && 0 <= tb <= out.Length
    ensures out[..tb] == Expand(inp[..2 * Pairs(l)])
    ensures out[tb..] == old(out[tb..])
  {
    ghost var runs := inp[..2 * Pairs(l)];
    var rem := l;
    var k := 0;
    var pos := 0;
    tb := 0;
    while rem > 0
      invariant 0 <= k <= Pairs(l) && rem == l - 2 * k && (rem > 0 <==> k < Pairs(l))
      invariant tb == pos == RunTotal(inp[..2 * k]) && 0 <= pos <= out.Length
      invariant out[..pos] == Expand(inp[..2 * k]) && out[pos..] == old(out[pos..])
    {
      var i := inp[2 * k];
      var c := inp[2 * k + 1];
      DecodeStep(inp, runs, k);
      tb := tb + i;
      pos := Fill(out, pos, c, i);
      rem := rem - 2;
      k := k + 1;
    }
    assert inp[..2 * k] == runs;
  }

  /** One more pair read by `rle_decode` adds its count to the total and its
      run to the output, and the total stays within that of all the runs. */
  lemma DecodeStep(inp: seq<int>, runs: seq<int>, k: nat)
    requires AllBytes(inp) && |runs| % 2 == 0 && 2 * k + 2 <= |runs| <= |inp| && runs == inp[..|runs|]
    ensures AllBytes(inp[..2 * k]) && AllBytes(inp[..2 * k + 2]) && AllBytes(runs)
    ensures RunTotal(inp[..2 * k + 2]) == RunTotal(inp[..2 * k]) + inp[2 * k] <= RunTotal(runs)
    ensures Expand(inp[..2 * k + 2]) == Expand(inp[..2 * k]) + seq(inp[2 * k], _ => inp[2 * k + 1])
  {
    var p := inp[..2 * k + 2];
    assert AllBytes(runs) && runs[..2 * k + 2] == p;
    RunTotalPrefix(runs, 2 * k + 2);
    assert p[..|p| - 2] == inp[..2 * k];
    PairStep(p, inp[..2 * k], inp[2 * k], inp[2 * k + 1]);
  }

  /** A run list with one more pair at its end. */
  lemma PairStep(p: seq<int>, q: seq<int>, c: int, v: int)
    requires AllBytes(p) && |p| % 2 == 0 && |p| >= 2 && q == p[..|p| - 2] && c == p[|p| - 2] && v == p[|p| - 1]
    ensures AllBytes(q)
    ensures RunTotal(p) == RunTotal(q) + c
    ensures Expand(p) == Expand(q) + seq(c, _ => v)
  {
  }

  /** The number of leading elements of `s` equal to `c`, at most `cap`. */
  function RunLength(s: seq<int>, c: int, cap: nat): (n: nat)
    ensures n <= |s| && n <= cap
    ensures forall i :: 0 <= i < n ==> s[i] == c
    ensures |s| > 0 && s[0] == c && cap > 0 ==> n >= 1
  {
    if s == [] || s[0] != c || cap == 0 then 0 else 1 + RunLength(s[1..], c, cap - 1)
  }

  /** An encoder for the format (the inverse of the player's decoder):
      maximal runs of one byte, split at 255 so that a count fits a byte. */
  function Encode(s: seq<int>): (runs: seq<int>)
    requires AllBytes(s)
    ensures |runs| % 2 == 0 && AllBytes(runs)
    ensures forall i :: 0 <= i < |runs| / 2 ==> 1 <= runs[2 * i] <= 255
    decreases |s|
  {
    if s == [] then []
    else
      var n := RunLength(s, s[0], 255);
      var rest := Encode(s[n..]);
      assert forall i :: 1 <= i < |rest| / 2 + 1 ==> ([n, s[0]] + rest)[2 * i] == rest[2 * (i - 1)];
      [n, s[0]] + rest
  }

  /** Decoding what the encoder produced gives back the frame. */
  lemma {:induction false} ExpandEncode(s: seq<int>)
    requires AllBytes(s)
    ensures Expand(Encode(s)) == s
    decreases |s|
  {
    if s != [] {
      var n := EncodeStep(s);
      calc {
        Expand(Encode(s));
        s[..n] + Expand(Encode(s[n..]));
        { ExpandEncode(s[n..]); }
        s[..n] + s[n..];
        { assert s == s[..n] + s[n..]; }
        s;
      }
    }
  }

  /** The encoder's first run covers the first `n` bytes and the rest is
      encoded on its own. */
  lemma EncodeStep(s: seq<int>) returns (n: nat)
    requires AllBytes(s) && s != []
    ensures 1 <= n <= |s| && AllBytes(s[n..])
    ensures Expand(Encode(s)) == s[..n] + Expand(Encode(s[n..]))
  {
    n := RunLength(s, s[0], 255);
    var rest := Encode(s[n..]);
    assert Encode(s) == [n, s[0]] + rest;
    ExpandAppend([n, s[0]], rest);
    RunExpands(n, s);
  }

  /** A single leading run of the encoder expands to the bytes it covers. */
  lemma RunExpands(n: nat, s: seq<int>)
    requires AllBytes(s) && s != [] && n == RunLength(s, s[0], 255)
    ensures AllBytes([n, s[0]]) && Expand([n, s[0]]) == s[..n]
  {
    assert [n, s[0]][..0] == [];
    assert Expand([n, s[0]]) == seq(n, _ => s[0]);
  }

  /** The length of the frame whose runs start at `idx`: the big-endian
      16-bit value in the two bytes before it (`hi << 8 | lo`, which for two
      bytes is `hi * 256 + lo`). */
  function FrameLen(video: seq<int>, idx: int): (len: int)
    requires 2 <= idx <= |video| && AllBytes(video)
    ensures 0 <= len < 0x1_0000
  {
    video[idx - 2] * 256 + video[idx - 1]
  }

  /** The two header bytes a frame of `len` run bytes carries. */
  function Header(len: int): seq<int>
  {
    [len / 256, len % 256]
  }

  /** A header written for any 16-bit length reads back as that length. */
  lemma HeaderReadsBack(len: int, prefix: seq<int>, runs: seq<int>)
    requires 0 <= len < 0x1_0000 && AllBytes(prefix) && AllBytes(runs)
    ensures var video := prefix + Header(len) + runs;
            AllBytes(video) && FrameLen(video, |prefix| + 2) == len
  {
    var video := prefix + Header(len) + runs;
    assert video[|prefix|] == len / 256 && video[|prefix| + 1] == len % 256;
  }

  /** The frame at `idx` can be decoded: its runs lie inside the video and
      expand to at most `cap` bytes. */
  predicate FrameFits(video: seq<int>, idx: int, cap: int)
    requires AllBytes(video)
  {
    && 2 <= idx <= |video|
    && idx + 2 * Pairs(FrameLen(video, idx)) <= |video|
    && RunTotal(video[idx .. idx + 2 * Pairs(FrameLen(video, idx))]) <= cap
  }

  /** Where the frame after the one at `idx` starts. */
  function NextIdx(video: seq<int>, idx: int): (next: int)
    requires 2 <= idx <= |video| && AllBytes(video)
    ensures next >= idx + 2
  {
    idx + FrameLen(video, idx) + 2
  }

  /** The runs of the frame at `idx`. */
  function FrameRuns(video: seq<int>, idx: int, cap: int): (runs: seq<int>)
    requires AllBytes(video) && FrameFits(video, idx, cap)
    ensures |runs| % 2 == 0 && AllBytes(runs) && 0 <= RunTotal(runs) <= cap
  {
    var runs := video[idx .. idx + 2 * Pairs(FrameLen(video, idx))];
    assert |Expand(runs)| == RunTotal(runs);
    runs
  }

  /** `n` frames that fit `cap` bytes follow each other from `idx`. */
  predicate Chain(video: seq<int>, idx: int, n: nat, cap: int)
    requires AllBytes(video)
    decreases n
  {
    n == 0 || (FrameFits(video, idx, cap) && Chain(video, NextIdx(video, idx), n - 1, cap))
  }

  /** Where the frame `n` frames after the one at `idx` starts. */
  function PosAfter(video: seq<int>, idx: int, n: nat, cap: int): (pos: int)
    requires AllBytes(video) && Chain(video, idx, n, cap)
    ensures pos >= idx
    decreases n
  {
    if n == 0 then idx else PosAfter(video, NextIdx(video, idx), n - 1, cap)
  }

  /** Walking `k` frames into a chain of `n` leaves a chain of `n - k`, and
      one more frame from there is `k + 1` frames from the start. */
  lemma {:induction false} ChainSplit(video: seq<int>, idx: int, n: nat, k: nat, cap: int)
    requires AllBytes(video) && Chain(video, idx, n, cap) && k < n
    ensures Chain(video, idx, k, cap)
    ensures Chain(video, PosAfter(video, idx, k, cap), n - k, cap)
    ensures Chain(video, idx, k + 1, cap)
    ensures PosAfter(video, idx, k + 1, cap) == NextIdx(video, PosAfter(video, idx, k, cap))
    decreases k
  {
    if k > 0 {
      ChainSplit(video, NextIdx(video, idx), n - 1, k - 1, cap);
    }
  }
}
