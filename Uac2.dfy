/** The USB Audio Class 2.0 variant of the firmware (uac2/uac2.c): the
    class-specific control handlers for the clock source and the speaker
    feature unit, the speaker-to-microphone downmix task, and the test-tone
    generator that fills outgoing audio buffers from a cosine table. */
module Uac2 {
  import opened Ints

  /** Request codes and control selectors of USB Audio Class 2.0 (section
      A.14, A.17.1 and A.17.7 of the Audio Device Class Definition 2.0). */
  const CS_REQ_CUR: int := 0x01
  const CS_REQ_RANGE: int := 0x02
  const CS_CTRL_SAM_FREQ: int := 0x01
  const CS_CTRL_CLK_VALID: int := 0x02
  const FU_CTRL_MUTE: int := 0x01
  const FU_CTRL_VOLUME: int := 0x02

  /** Entity IDs of the descriptor set (usb_descriptors.h is not part of
      this model; these are the values of the headset layout it follows). */
  const ENTITY_CLOCK: int := 0x04
  const ENTITY_SPK_FEATURE_UNIT: int := 0x02

  const AUDIO_SAMPLE_RATE: int := 48000
  const VOLUME_CTRL_0_DB: int := 0
  const VOLUME_CTRL_50_DB: int := 12800

  /** `audio_control_request_t`: the setup packet seen through the audio
      class's field names. */
  datatype Request = Request(bRequest: int, channel: int, selector: int, entity: int, wLength: int)

  predicate WellFormed(req: Request)
  {
    IsByte(req.bRequest) && IsByte(req.channel) && IsByte(req.selector) && IsByte(req.entity)
    && 0 <= req.wLength < 65536
  }

  /** `tud_audio_clock_get_request`: the bytes scheduled for the data stage,
      or None when the handler returns false. A fixed single rate. */
  function ClockGet(req: Request): (r: Option<seq<int>>)
  {
    if req.entity != ENTITY_CLOCK then None
    else if req.selector == CS_CTRL_SAM_FREQ then
      if req.bRequest == CS_REQ_CUR then Some(LeBytes(AUDIO_SAMPLE_RATE, 4))
      else if req.bRequest == CS_REQ_RANGE then
        Some(LeBytes(1, 2) + LeBytes(AUDIO_SAMPLE_RATE, 4) + LeBytes(AUDIO_SAMPLE_RATE, 4) + LeBytes(0, 4))
      else None
    else if req.selector == CS_CTRL_CLK_VALID && req.bRequest == CS_REQ_CUR then Some([1])
    else None
  }

  /** The clock answers exactly the sampling-frequency CUR and RANGE
      requests and the validity CUR request. CUR reports 48000 in a 4-byte
      layout; RANGE reports one subrange with minimum and maximum 48000 and
      resolution 0; the clock is always valid. */
  lemma ClockReplies(req: Request)
    requires req.entity == ENTITY_CLOCK
    ensures ClockGet(req).Some? <==>
              (req.selector == CS_CTRL_SAM_FREQ && (req.bRequest == CS_REQ_CUR || req.bRequest == CS_REQ_RANGE))
              || (req.selector == CS_CTRL_CLK_VALID && req.bRequest == CS_REQ_CUR)
    ensures req.selector == CS_CTRL_SAM_FREQ && req.bRequest == CS_REQ_CUR ==>
              var bs := ClockGet(req).value; |bs| == 4 && FromLe(bs) == 48000
    ensures req.selector == CS_CTRL_SAM_FREQ && req.bRequest == CS_REQ_RANGE ==>
              var bs := ClockGet(req).value;
              |bs| == 14 && FromLe(bs[..2]) == 1 && FromLe(bs[2..6]) == 48000
              && FromLe(bs[6..10]) == 48000 && FromLe(bs[10..]) == 0
    ensures req.selector == CS_CTRL_CLK_VALID && req.bRequest == CS_REQ_CUR ==> ClockGet(req).value == [1]
  {
    assert Pow256(4) == 0x1_0000_0000 by {
      assert Pow256(2) == 65536;
    }
    FromLeBytes(48000, 4);
    FromLeBytes(1, 2);
    FromLeBytes(0, 4);
    if req.selector == CS_CTRL_SAM_FREQ && req.bRequest == CS_REQ_RANGE {
      var bs := ClockGet(req).value;
      assert bs[..2] == LeBytes(1, 2);
      assert bs[2..6] == LeBytes(AUDIO_SAMPLE_RATE, 4);
      assert bs[6..10] == LeBytes(AUDIO_SAMPLE_RATE, 4);
      assert bs[10..] == LeBytes(0, 4);
    }
  }

  /** The feature-unit GET requests that read a channel's stored value. */
  predicate ReadsChannel(req: Request)
  {
    (req.selector == FU_CTRL_MUTE || req.selector == FU_CTRL_VOLUME) && req.bRequest == CS_REQ_CUR
  }

  /** The channel a request names has an entry in both arrays. */
  predicate ChannelIn(req: Request, mutes: seq<int>, volumes: seq<int>)
  {
    0 <= req.channel < |mutes| && req.channel < |volumes|
  }

  /** `tud_audio_feature_unit_get_request`, with the channel number checked:
      a CUR read of a channel that has no entry is refused (the firmware
      reads past the arrays there; see `ChannelUncheckedFinding`). */
  function FeatureUnitGet(req: Request, mutes: seq<int>, volumes: seq<int>): (r: Option<seq<int>>)
    requires WellFormed(req)
  {
    if req.entity != ENTITY_SPK_FEATURE_UNIT then None
    else if ReadsChannel(req) && !ChannelIn(req, mutes, volumes) then None
    else if req.selector == FU_CTRL_MUTE && req.bRequest == CS_REQ_CUR then Some([ToUint8(mutes[req.channel])])
    else if req.selector == FU_CTRL_VOLUME then
      if req.bRequest == CS_REQ_RANGE then
        Some(LeBytes(1, 2) + LeBytes(-VOLUME_CTRL_50_DB, 2) + LeBytes(VOLUME_CTRL_0_DB, 2) + LeBytes(256, 2))
      else if req.bRequest == CS_REQ_CUR then Some(LeBytes(volumes[req.channel], 2))
      else None
    else None
  }

  /** The volume range is one subrange from -50 dB to 0 dB in steps of
      1 dB, all in units of 1/256 dB; a mute RANGE, a CUR read of a channel
      without an entry, or any other request the feature unit does not know
      is refused. */
  lemma VolumeRangeReply(req: Request, mutes: seq<int>, volumes: seq<int>)
    requires WellFormed(req) && req.entity == ENTITY_SPK_FEATURE_UNIT
    ensures FeatureUnitGet(req, mutes, volumes).Some? <==>
              (req.selector == FU_CTRL_MUTE && req.bRequest == CS_REQ_CUR && ChannelIn(req, mutes, volumes))
              || (req.selector == FU_CTRL_VOLUME && req.bRequest == CS_REQ_CUR && ChannelIn(req, mutes, volumes))
              || (req.selector == FU_CTRL_VOLUME && req.bRequest == CS_REQ_RANGE)
    ensures req.selector == FU_CTRL_VOLUME && req.bRequest == CS_REQ_RANGE ==>
              FeatureUnitGet(req, mutes, volumes).value == VOLUME_RANGE_REPLY
  {
    if req.selector == FU_CTRL_VOLUME && req.bRequest == CS_REQ_RANGE {
      LeBytesTwo(1);
      LeBytesTwo(-12800);
      LeBytesTwo(0);
      LeBytesTwo(256);
    }
  }

  /** The volume RANGE reply: one subrange, minimum -12800, maximum 0,
      resolution 256, each a little-endian 16-bit field. */
  const VOLUME_RANGE_REPLY: seq<int> := [1, 0, 0x00, 0xce, 0, 0, 0, 1]

  /** Read back through its little-endian fields (the bounds as int16_t),
      the reply is one subrange of -50 dB .. 0 dB in 1 dB steps. */
  lemma VolumeRangeFields()
    ensures FromLe(VOLUME_RANGE_REPLY[..2]) == 1
    ensures ToInt16(FromLe(VOLUME_RANGE_REPLY[2..4])) == -VOLUME_CTRL_50_DB
    ensures ToInt16(FromLe(VOLUME_RANGE_REPLY[4..6])) == VOLUME_CTRL_0_DB
    ensures FromLe(VOLUME_RANGE_REPLY[6..]) == 256
  {
    assert ToInt16(0xce00) == -12800;
    assert VOLUME_RANGE_REPLY[..2] == [1, 0] && VOLUME_RANGE_REPLY[6..] == [0, 1];
    assert VOLUME_RANGE_REPLY[2..4] == [0, 0xce] && VOLUME_RANGE_REPLY[4..6] == [0, 0];
    assert FromLe([0, 0xce]) == 0xce00 by {
      assert [0, 0xce][1..] == [0xce] && [0xce][1..] == [];
    }
    assert FromLe([0, 0]) == 0 by {
      assert [0, 0][1..] == [0] && [0][1..] == [];
    }
    assert FromLe([1, 0]) == 1 by {
      assert [1, 0][1..] == [0] && [0][1..] == [];
    }
    assert FromLe([0, 1]) == 256 by {
      assert [0, 1][1..] == [1] && [1][1..] == [];
    }
  }

  /** `tud_audio_get_req_entity_cb`: the clock and the feature unit answer,
      every other entity is refused. */
  function GetEntity(req: Request, mutes: seq<int>, volumes: seq<int>): (r: Option<seq<int>>)
    requires WellFormed(req)
    ensures r.Some? ==> req.entity == ENTITY_CLOCK || req.entity == ENTITY_SPK_FEATURE_UNIT
    ensures req.entity == ENTITY_CLOCK ==> r == ClockGet(req)
    ensures req.entity == ENTITY_SPK_FEATURE_UNIT ==> r == FeatureUnitGet(req, mutes, volumes)
  {
    if req.entity == ENTITY_CLOCK then ClockGet(req)
    else if req.entity == ENTITY_SPK_FEATURE_UNIT then FeatureUnitGet(req, mutes, volumes)
    else None
  }

  /** The SET requests the feature unit accepts as written: CUR, with the
      payload size matching the control (one byte of mute, two bytes of
      volume). The channel number plays no part. */
  predicate SetAccepted(req: Request)
  {
    req.entity == ENTITY_SPK_FEATURE_UNIT && req.bRequest == CS_REQ_CUR
    && ((req.selector == FU_CTRL_MUTE && req.wLength == 1) || (req.selector == FU_CTRL_VOLUME && req.wLength == 2))
  }

  /** The SET requests a feature unit with `entries` channel entries (the
      master and the speaker channels) can store: those accepted as written
      whose channel has an entry. */
  predicate SetAcceptedIn(req: Request, entries: int)
  {
    SetAccepted(req) && 0 <= req.channel < entries
  }

  /** As written, whether a SET is accepted does not depend on its channel:
      with two speaker channels (three entries) a mute SET CUR on channel 3
      is accepted and stored at `mute[3]`, past the array, while the checked
      handler refuses it. */
  lemma ChannelUncheckedFinding(req: Request, ch: int)
    ensures SetAccepted(req.(channel := ch)) == SetAccepted(req)
    ensures var setMute3 := Request(CS_REQ_CUR, 3, FU_CTRL_MUTE, ENTITY_SPK_FEATURE_UNIT, 1);
            SetAccepted(setMute3) && !SetAcceptedIn(setMute3, 3)
  {
  }

  /** A stored mute byte reads back unchanged. */
  lemma MuteReadsBack(req: Request, mutes: seq<int>, volumes: seq<int>, b: int)
    requires WellFormed(req) && req.entity == ENTITY_SPK_FEATURE_UNIT
    requires req.selector == FU_CTRL_MUTE && req.bRequest == CS_REQ_CUR
    requires req.channel < |mutes| && req.channel < |volumes| && IsByte(b)
    ensures FeatureUnitGet(req, mutes[req.channel := ToInt8(b)], volumes) == Some([b])
  {
    var m := ToInt8(b);
    assert (b - m) % 256 == 0;
    var k := (b - m) / 256;
    assert b == m + 256 * k;
    assert ToUint8(m) == b % 256;
  }

  /** A stored volume word reads back as the same two bytes. */
  lemma VolumeReadsBack(req: Request, mutes: seq<int>, volumes: seq<int>, b0: int, b1: int)
    requires WellFormed(req) && req.entity == ENTITY_SPK_FEATURE_UNIT
    requires req.selector == FU_CTRL_VOLUME && req.bRequest == CS_REQ_CUR
    requires req.channel < |mutes| && req.channel < |volumes| && IsByte(b0) && IsByte(b1)
    ensures FeatureUnitGet(req, mutes, volumes[req.channel := Int16Le(b0, b1)]) == Some([b0, b1])
  {
  }

  /** The speaker's mono downmix of one stereo frame: the average rounded
      toward zero, as `(int16_t)((left + right) / 2)`. */
  function Mono(left: int, right: int): (m: int)
    requires IsInt16(left) && IsInt16(right)
  {
    ToInt16(CDiv(left + right, 2))
  }

  /** The average never leaves int16 range (the cast is exact) and lies
      between the two channels, within half a step of the exact mean on the
      side of zero; it is symmetric and keeps equal channels. */
  lemma MonoProperties(left: int, right: int)
    requires IsInt16(left) && IsInt16(right)
    ensures var m := Mono(left, right);
            && IsInt16(m) && m == CDiv(left + right, 2)
            && (left <= m <= right || right <= m <= left)
            && (left + right >= 0 ==> 0 <= left + right - 2 * m <= 1)
            && (left + right < 0 ==> -1 <= left + right - 2 * m <= 0)
    ensures Mono(left, right) == Mono(right, left)
    ensures Mono(left, left) == left
  {
  }

  /** Number of mono samples `audio_task` writes for `size` received bytes:
      it steps two int16 values at a time while below `size / 2` of them. */
  function MonoCount(size: int): (n: int)
    requires size >= 0
    ensures n >= 0 && 2 * n >= size / 2 && 2 * n <= size / 2 + 1
    ensures size % 4 == 0 ==> n == size / 4
  {
    (size / 2 + 1) / 2
  }

  /** Test-tone constants: a 2048-entry table stepped in 16.16 fixed
      point, scaled by `vol` / 256. */
  const SINE_WAVE_TABLE_LEN: int := 2048
  const STEP: int := 0x60_0000
  const POS_MAX: int := 0x1_0000 * 2048
  const VOL: int := 128

  /** `(vol * sine_wave_table[i]) >> 8u` stored as int16_t: `vol` is
      unsigned, so the product is taken modulo 2^32 before the shift. */
  function SineSample(t: int): int
  {
    ToInt16(((VOL * t) % TWO_32) / 256)
  }

  /** With `vol` = 128 the unsigned detour is harmless: every table value
      comes out halved, rounded toward minus infinity. */
  lemma SineSampleHalves(t: int)
    requires IsInt16(t)
    ensures SineSample(t) == t / 2 && IsInt16(SineSample(t))
  {
    if t < 0 {
      assert (VOL * t) % TWO_32 == TWO_32 + 128 * t;
      assert (TWO_32 + 128 * t) / 256 == 0x100_0000 + t / 2;
      assert ToInt16(0x100_0000 + t / 2) == t / 2 by {
        assert (0x100_0000 + t / 2) - t / 2 == 65536 * 256;
      }
    } else {
      assert (VOL * t) % TWO_32 == 128 * t;
    }
  }

  /** The phase after `k` steps from `pos0`, reduced into [0, POS_MAX). */
  function PhaseAt(pos0: int, k: int): (p: int)
    ensures 0 <= p < POS_MAX && 0 <= p / 0x1_0000 < SINE_WAVE_TABLE_LEN
  {
    (pos0 + k * STEP) % POS_MAX
  }

  /** One step of the loop's `pos += step; if (pos >= pos_max) pos -= pos_max;`
      lands on the next reduced phase: one subtraction always suffices. */
  lemma PhaseStep(pos0: int, k: int)
    ensures var q := PhaseAt(pos0, k) + STEP;
            PhaseAt(pos0, k + 1) == if q >= POS_MAX then q - POS_MAX else q
  {
    var p := PhaseAt(pos0, k);
    var d := (pos0 + k * STEP) / POS_MAX;
    assert pos0 + k * STEP == POS_MAX * d + p;
    assert pos0 + (k + 1) * STEP == POS_MAX * d + p + STEP;
    if p + STEP >= POS_MAX {
      assert pos0 + (k + 1) * STEP == POS_MAX * (d + 1) + (p + STEP - POS_MAX);
    }
  }

  /** Sample `j` of a tone buffer started at phase `pos0`: both samples of
      frame `j / 2` are the table entry at that frame's phase. */
  function Tone(table: seq<int>, pos0: int, j: int): int
    requires |table| == SINE_WAVE_TABLE_LEN && j >= 0
  {
    SineSample(table[PhaseAt(pos0, j / 2) / 0x1_0000])
  }

  /** The UAC2 example's globals. `mute` and `volume` hold the master
      channel 0 and the speaker channels; the cosine table is filled once at
      start-up and taken here as given. */
  class Headset {
    const mute: array<int>
    const volume: array<int>
    const spkBuf: array<int>
    const micBuf: array<int>
    var spkDataSize: int
    var pos: int
    const sineTable: seq<int>

    ghost predicate Valid()
      reads this, mute, volume, spkBuf
    {
      && mute.Length == volume.Length && mute.Length >= 1
      && spkBuf.Length == 1000 && micBuf.Length == 1000
      && mute != volume && spkBuf != micBuf
      && mute != spkBuf && mute != micBuf && volume != spkBuf && volume != micBuf
      && (forall i :: 0 <= i < mute.Length ==> IsInt8(mute[i]))
      && (forall i :: 0 <= i < volume.Length ==> IsInt16(volume[i]))
      && AllInt16(spkBuf[..])
      && spkDataSize >= 0 && 0 <= pos < POS_MAX
      && |sineTable| == SINE_WAVE_TABLE_LEN && AllInt16(sineTable)
    }

    /** Zeroed globals for `channels` speaker channels plus the master. */
    constructor (channels: nat, table: seq<int>)
      requires |table| == SINE_WAVE_TABLE_LEN && AllInt16(table)
      ensures Valid() && fresh(mute) && fresh(volume) && fresh(spkBuf) && fresh(micBuf)
      ensures mute.Length == channels + 1 && mute[..] == seq(channels + 1, _ => 0)
      ensures volume[..] == seq(channels + 1, _ => 0)
      ensures spkDataSize == 0 && pos == 0 && sineTable == table
    {
      mute := new int[channels + 1](_ => 0);
      volume := new int[channels + 1](_ => 0);
      spkBuf := new int[1000](_ => 0);
      micBuf := new int[1000](_ => 0);
      spkDataSize := 0;
      pos := 0;
      sineTable := table;
    }

    /** `tud_audio_feature_unit_set_request`: store one channel's mute byte
        or volume word; a wrong request code, payload size or selector is
        refused and changes nothing, and so (unlike the firmware, which
        writes past the arrays) is a channel without an entry. */
    method FeatureUnitSet(req: Request, buf: seq<int>) returns (ok: bool)
      requires Valid() && WellFormed(req) && req.entity == ENTITY_SPK_FEATURE_UNIT
      requires |buf| == req.wLength && AllBytes(buf)
      modifies mute, volume
      ensures Valid() && ok == SetAcceptedIn(req, mute.Length)
      ensures !ok ==> mute[..] == old(mute[..]) && volume[..] == old(volume[..])
      ensures ok && req.selector == FU_CTRL_MUTE ==>
                mute[..] == old(mute[..])[req.channel := ToInt8(buf[0])] && volume[..] == old(volume[..])
      ensures ok && req.selector == FU_CTRL_VOLUME ==>
                volume[..] == old(volume[..])[req.channel := Int16Le(buf[0], buf[1])] && mute[..] == old(mute[..])
    {
      if req.bRequest != CS_REQ_CUR {
        return false;
      }
      if req.selector == FU_CTRL_MUTE {
        if req.wLength != 1 || req.channel >= mute.Length {
          return false;
        }
        mute[req.channel] := ToInt8(buf[0]);
        return true;
      } else if req.selector == FU_CTRL_VOLUME {
        if req.wLength != 2 || req.channel >= volume.Length {
          return false;
        }
        volume[req.channel] := Int16Le(buf[0], buf[1]);
        return true;
      } else {
        return false;
      }
    }

    /** `tud_audio_set_req_entity_cb`: only the feature unit takes SET
        requests. An accepted SET is read back by the matching GET CUR. */
    method SetEntity(req: Request, buf: seq<int>) returns (ok: bool)
      requires Valid() && WellFormed(req) && |buf| == req.wLength && AllBytes(buf)
      modifies mute, volume
      ensures Valid() && ok == SetAcceptedIn(req, mute.Length)
      ensures !ok ==> mute[..] == old(mute[..]) && volume[..] == old(volume[..])
      ensures ok ==> GetEntity(req, mute[..], volume[..]) == Some(buf)
      ensures ok ==> forall i :: 0 <= i < mute.Length && i != req.channel ==>
                       mute[i] == old(mute[i]) && volume[i] == old(volume[i])
    {
      if req.entity != ENTITY_SPK_FEATURE_UNIT {
        return false;
      }
      ok := FeatureUnitSet(req, buf);
      if ok {
        if req.selector == FU_CTRL_MUTE {
          MuteReadsBack(req, old(mute[..]), volume[..], buf[0]);
          assert buf == [buf[0]];
        } else {
          VolumeReadsBack(req, mute[..], old(volume[..]), buf[0], buf[1]);
          assert buf == [buf[0], buf[1]];
        }
      }
    }

    /** `audio_task`: when speaker data is pending, write its mono downmix
        to the microphone buffer, hand `spk_data_size / 2` bytes of it to
        the microphone endpoint (the result) and clear the pending size;
        with nothing pending, do nothing. */
    method AudioTask() returns (written: Option<int>)
      requires Valid() && 2 * MonoCount(spkDataSize) <= spkBuf.Length
      modifies this`spkDataSize, micBuf
      ensures Valid() && spkDataSize == 0
      ensures old(spkDataSize) == 0 ==> written == None && micBuf[..] == old(micBuf[..])
      ensures old(spkDataSize) != 0 ==> written == Some(old(spkDataSize) / 2)
      ensures forall i :: 0 <= i < micBuf.Length ==>
                micBuf[i] == if old(spkDataSize) != 0 && i < MonoCount(old(spkDataSize))
                             then Mono(spkBuf[2 * i], spkBuf[2 * i + 1]) else old(micBuf[i])
    {
      if spkDataSize == 0 {
        return None;
      }
      var n := MonoCount(spkDataSize);
      var i := 0;
      while i < n
        invariant 0 <= i <= n && Valid() && spkDataSize == old(spkDataSize)
        invariant forall k :: 0 <= k < micBuf.Length ==>
                    micBuf[k] == if k < i then Mono(spkBuf[2 * k], spkBuf[2 * k + 1]) else old(micBuf[k])
      {
        micBuf[i] := ToInt16(CDiv(spkBuf[2 * i] + spkBuf[2 * i + 1], 2));
        i := i + 1;
      }
      written := Some(spkDataSize / 2);
      spkDataSize := 0;
    }

    /** The tone loop shared by `loop_sine` and
        `tud_audio_rx_done_pre_read_cb`: `frames` stereo frames, both
        channels the same table sample, the phase advancing one step per
        frame and staying below `pos_max`. */
    method SineFill(samples: array<int>, frames: int)
      requires Valid() && 0 <= frames && 2 * frames <= samples.Length
      requires samples != mute && samples != volume && samples != spkBuf
      modifies this`pos, samples
      ensures Valid() && pos == PhaseAt(old(pos), frames)
      ensures forall j :: 0 <= j < samples.Length ==>
                samples[j] == if j < 2 * frames
                              then Tone(sineTable, old(pos), j) else old(samples[j])
    {
      var i := 0;
      var j := 0;
      while i < frames
        invariant 0 <= i <= frames && j == 2 * i && Valid()
        invariant pos == PhaseAt(old(pos), i)
        invariant forall k :: 0 <= k < samples.Length ==>
                    samples[k] == if k < j then Tone(sineTable, old(pos), k) else old(samples[k])
      {
        assert j / 2 == i && (j + 1) / 2 == i;
        assert Tone(sineTable, old(pos), j) == Tone(sineTable, old(pos), j + 1) == SineSample(sineTable[pos / 0x1_0000]);
        samples[j] := ToInt16(((VOL * sineTable[pos / 0x1_0000]) % TWO_32) / 256);
        j := j + 1;
        samples[j] := ToInt16(((VOL * sineTable[pos / 0x1_0000]) % TWO_32) / 256);
        j := j + 1;
        PhaseStep(old(pos), i);
        pos := pos + STEP;
        if pos >= POS_MAX {
          pos := pos - POS_MAX;
        }
        i := i + 1;
      }
    }

    /** `tud_audio_rx_done_pre_read_cb`: the received speaker bytes are
        read into a pool buffer and then overwritten by the tone; the buffer
        is marked with `n_bytes_received / 4` frames, which must be non-zero
        and fit the buffer. */
    method RxDonePreRead(nBytesReceived: int, samples: array<int>, maxSampleCount: int) returns (sampleCount: int)
      requires Valid() && 0 <= nBytesReceived < 65536
      requires 0 < nBytesReceived / 4 <= maxSampleCount && 2 * maxSampleCount <= samples.Length
      requires samples != mute && samples != volume && samples != spkBuf
      modifies this`pos, samples
      ensures Valid() && sampleCount == nBytesReceived / 4 && pos == PhaseAt(old(pos), sampleCount)
      ensures forall j :: 0 <= j < 2 * sampleCount ==>
                samples[j] == Tone(sineTable, old(pos), j)
    {
      sampleCount := nBytesReceived / 4;
      SineFill(samples, sampleCount);
    }

    /** `loop_sine`: fill a whole pool buffer with the tone. */
    method LoopSine(samples: array<int>, maxSampleCount: int) returns (sampleCount: int)
      requires Valid() && 0 <= maxSampleCount && 2 * maxSampleCount <= samples.Length
      requires samples != mute && samples != volume && samples != spkBuf
      modifies this`pos, samples
      ensures Valid() && sampleCount == maxSampleCount && pos == PhaseAt(old(pos), sampleCount)
      ensures forall j :: 0 <= j < 2 * sampleCount ==>
                samples[j] == Tone(sineTable, old(pos), j)
    {
      SineFill(samples, maxSampleCount);
      sampleCount := maxSampleCount;
    }
  }
}
