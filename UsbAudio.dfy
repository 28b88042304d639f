/** The USB Audio Class 1.0 side of the S/PDIF bridge (usb_spdif.c): the
    control state `audio_state` (freq, volume, vol_mul, mute) together with
    `clock_176mhz`, `rate` and the SOF counters, the class-specific control
    requests that read and change it, the isochronous feedback packet and the
    audio OUT packet handed to the equaliser.

    The hardware calls the firmware makes (set_sys_clock_pll,
    biquad_eq_set_fs, the usb_* transfer starts) are recorded as effects on
    the device object, in the order they are made. */
module UsbAudio {
  import opened Ints
  import BiquadEq

  /** bmRequestType fields (section 9.3.1 of the USB 2.0 specification). */
  const REQ_TYPE_TYPE_MASK: int := 0x60
  const REQ_TYPE_TYPE_CLASS: int := 0x20
  const REQ_TYPE_RECIPIENT_MASK: int := 0x1f
  const RECIPIENT_INTERFACE: int := 0x01
  const RECIPIENT_ENDPOINT: int := 0x02

  /** Class-specific request codes of USB Audio 1.0 (appendix A.9). */
  const REQ_SET_CUR: int := 0x01
  const REQ_GET_CUR: int := 0x81
  const REQ_GET_MIN: int := 0x82
  const REQ_GET_MAX: int := 0x83
  const REQ_GET_RES: int := 0x84

  /** Control selectors the firmware answers. */
  const FEATURE_MUTE_CONTROL: int := 1
  const FEATURE_VOLUME_CONTROL: int := 2
  const ENDPOINT_FREQ_CONTROL: int := 1

  const CENTER_VOLUME_INDEX: int := 91

  /** The only sample rates the bridge runs at. */
  predicate ValidFreq(f: int) { f == 44100 || f == 48000 || f == 96000 }

  /** `db_to_vol`: linear gain for each whole dB from -91 dB (index 0) to 0 dB (index 90). */
  const DB_TO_VOL: seq<int> :=
    [0x0001, 0x0001, 0x0001, 0x0001, 0x0001, 0x0001, 0x0002, 0x0002]
    + [0x0002, 0x0002, 0x0003, 0x0003, 0x0004, 0x0004, 0x0005, 0x0005]
    + [0x0006, 0x0007, 0x0008, 0x0009, 0x000a, 0x000b, 0x000d, 0x000e]
    + [0x0010, 0x0012, 0x0014, 0x0017, 0x001a, 0x001d, 0x0020, 0x0024]
    + [0x0029, 0x002e, 0x0033, 0x003a, 0x0041, 0x0049, 0x0052, 0x005c]
    + [0x0067, 0x0074, 0x0082, 0x0092, 0x00a4, 0x00b8, 0x00ce, 0x00e7]
    + [0x0104, 0x0124, 0x0147, 0x016f, 0x019c, 0x01ce, 0x0207, 0x0246]
    + [0x028d, 0x02dd, 0x0337, 0x039b, 0x040c, 0x048a, 0x0518, 0x05b7]
    + [0x066a, 0x0732, 0x0813, 0x090f, 0x0a2a, 0x0b68, 0x0ccc, 0x0e5c]
    + [0x101d, 0x1214, 0x1449, 0x16c3, 0x198a, 0x1ca7, 0x2026, 0x2413]
    + [0x287a, 0x2d6a, 0x32f5, 0x392c, 0x4026, 0x47fa, 0x50c3, 0x5a9d]
    + [0x65ac, 0x7214, 0x7fff]

  /** The gain table has 91 entries, from 1 (-91 dB) to 0x7fff (0 dB). */
  lemma DbToVolShape()
    ensures |DB_TO_VOL| == 91
    ensures DB_TO_VOL[0] == 0x0001 && DB_TO_VOL[90] == 0x7fff
  {
  }

  /** `ENCODE_DB(x)`: x dB in 1/256 dB steps, cast through int16_t to uint16_t. */
  function EncodeDb(x: int): (r: int)
    ensures 0 <= r < 65536 && (r - 256 * x) % 65536 == 0
  {
    ToInt16(x * 256) % 65536
  }

  const MIN_VOLUME: int := EncodeDb(-CENTER_VOLUME_INDEX)
  const DEFAULT_VOLUME: int := EncodeDb(0)
  const MAX_VOLUME: int := EncodeDb(|DB_TO_VOL| - CENTER_VOLUME_INDEX)
  const VOLUME_RESOLUTION: int := EncodeDb(1)

  /** The advertised volume range is -91 dB .. 0 dB in 1 dB steps: as int16
      values -23296 .. 0 with resolution 256. */
  lemma VolumeRange()
    ensures MIN_VOLUME == 0xa500 && ToInt16(MIN_VOLUME) == -91 * 256
    ensures MAX_VOLUME == 0 && DEFAULT_VOLUME == 0
    ensures VOLUME_RESOLUTION == 256
  {
    DbToVolShape();
  }

  /** `AUDIO_SAMPLE_FREQ(frq)`: the three bytes of a sample rate in a format
      type descriptor, least significant first. */
  function AudioSampleFreq(frq: int): (bs: seq<int>)
    requires 0 <= frq
    ensures bs == LeBytes(frq, 3)
  {
    assert (frq / 256) / 256 == frq / 65536;
    [ToUint8(frq), ToUint8(frq / 256), ToUint8(frq / 65536)]
  }

  /** The sample rates the streaming interface's format descriptor lists. */
  const DESCRIPTOR_FREQS: seq<int> := AudioSampleFreq(44100) + AudioSampleFreq(48000) + AudioSampleFreq(96000)

  /** The descriptor advertises exactly the three rates the bridge accepts,
      each as a 3-byte little-endian value. */
  lemma DescriptorFreqs()
    ensures |DESCRIPTOR_FREQS| == 9
    ensures FromLe(DESCRIPTOR_FREQS[0..3]) == 44100 && ValidFreq(44100)
    ensures FromLe(DESCRIPTOR_FREQS[3..6]) == 48000 && ValidFreq(48000)
    ensures FromLe(DESCRIPTOR_FREQS[6..9]) == 96000 && ValidFreq(96000)
  {
    var a := AudioSampleFreq(44100);
    var b := AudioSampleFreq(48000);
    var c := AudioSampleFreq(96000);
    assert DESCRIPTOR_FREQS[0..3] == a && DESCRIPTOR_FREQS[3..6] == b && DESCRIPTOR_FREQS[6..9] == c;
    FromLeBytes(44100, 3);
    FromLeBytes(48000, 3);
    FromLeBytes(96000, 3);
  }

  /** The manufacturer, product and serial-number strings. */
  const DESCRIPTOR_STRINGS: seq<string> := ["astanoev.com", "FoxDAC", "0123456789AB"]

  /** `_get_descriptor_string(index)`: string `index` counted from 1, and the
      empty string past the table. Index 0 would read before the table, so it
      is excluded. */
  function DescriptorString(index: int): (s: string)
    requires index >= 1
    ensures 1 <= index <= 3 ==> s == DESCRIPTOR_STRINGS[index - 1]
    ensures index > 3 ==> s == ""
  {
    if index <= |DESCRIPTOR_STRINGS| then DESCRIPTOR_STRINGS[index - 1] else ""
  }

  /** A SETUP packet. */
  datatype Setup = Setup(bmRequestType: int, bRequest: int, wValue: int, wIndex: int, wLength: int)

  predicate WellFormed(s: Setup)
  {
    IsByte(s.bmRequestType) && IsByte(s.bRequest)
    && 0 <= s.wValue < 65536 && 0 <= s.wIndex < 65536 && 0 <= s.wLength < 65536
  }

  function Recipient(s: Setup): int { s.bmRequestType % 32 }
  function ControlSelector(s: Setup): int { s.wValue / 256 }

  /** `usb_start_tiny_control_in_transfer(value, len)`: the low `len` bytes of
      the 32-bit value, least significant first. */
  function TinyIn(value: int, len: nat): (bs: seq<int>)
    requires len <= 4
    ensures |bs| == len && AllBytes(bs)
  {
    LeBytes(value, len)
  }

  /** `do_get_current`: the bytes sent back, or None when the request is refused. */
  function GetCurrent(s: Setup, freq: int, volume: int, mute: bool): (r: Option<seq<int>>)
    ensures r.Some? <==>
              (Recipient(s) == RECIPIENT_INTERFACE && (ControlSelector(s) == FEATURE_MUTE_CONTROL || ControlSelector(s) == FEATURE_VOLUME_CONTROL))
              || (Recipient(s) == RECIPIENT_ENDPOINT && ControlSelector(s) == ENDPOINT_FREQ_CONTROL)
  {
    if Recipient(s) == RECIPIENT_INTERFACE then
      if ControlSelector(s) == FEATURE_MUTE_CONTROL then Some(TinyIn(if mute then 1 else 0, 1))
      else if ControlSelector(s) == FEATURE_VOLUME_CONTROL then Some(TinyIn(volume, 2))
      else None
    else if Recipient(s) == RECIPIENT_ENDPOINT && ControlSelector(s) == ENDPOINT_FREQ_CONTROL then
      Some(TinyIn(freq, 3))
    else None
  }

  /** What a GET CUR reply carries decodes back to the state it reports:
      mute as 0/1 in one byte, the volume as a little-endian int16 and the
      sample rate as a 3-byte little-endian value (sections 5.2.2.4.3.1,
      5.2.2.4.3.2 and 5.2.3.2.3.1 of the USB Audio 1.0 specification). */
  lemma GetCurrentDecodes(s: Setup, freq: int, volume: int, mute: bool)
    requires IsInt16(volume) && 0 <= freq < 0x100_0000
    ensures Recipient(s) == RECIPIENT_INTERFACE && ControlSelector(s) == FEATURE_MUTE_CONTROL ==>
              GetCurrent(s, freq, volume, mute) == Some([if mute then 1 else 0])
    ensures Recipient(s) == RECIPIENT_INTERFACE && ControlSelector(s) == FEATURE_VOLUME_CONTROL ==>
              var bs := GetCurrent(s, freq, volume, mute).value;
              |bs| == 2 && Int16Le(bs[0], bs[1]) == volume
    ensures Recipient(s) == RECIPIENT_ENDPOINT && ControlSelector(s) == ENDPOINT_FREQ_CONTROL ==>
              FromLe(GetCurrent(s, freq, volume, mute).value) == freq
  {
    Int16LeRoundTrip(volume);
    FromLeBytes(freq, 3);
    var m := if mute then 1 else 0;
    assert LeBytes(m, 1) == [m % 256] + LeBytes(m / 256, 0);
    assert TinyIn(m, 1) == [m];
  }

  /** `do_get_minimum`, `do_get_maximum`, `do_get_resolution`: only the
      interface's volume control has a range. */
  function GetRange(s: Setup): (r: Option<seq<int>>)
    requires s.bRequest == REQ_GET_MIN || s.bRequest == REQ_GET_MAX || s.bRequest == REQ_GET_RES
    ensures r.Some? <==> Recipient(s) == RECIPIENT_INTERFACE && ControlSelector(s) == FEATURE_VOLUME_CONTROL
    ensures r.Some? ==> |r.value| == 2
  {
    if Recipient(s) == RECIPIENT_INTERFACE && ControlSelector(s) == FEATURE_VOLUME_CONTROL then
      Some(TinyIn(if s.bRequest == REQ_GET_MIN then MIN_VOLUME
                  else if s.bRequest == REQ_GET_MAX then MAX_VOLUME
                  else VOLUME_RESOLUTION, 2))
    else None
  }

  /** The volume range replies decode to -91 dB, 0 dB and 1 dB. */
  lemma GetRangeValues(s: Setup)
    requires Recipient(s) == RECIPIENT_INTERFACE && ControlSelector(s) == FEATURE_VOLUME_CONTROL
    ensures GetRange(s.(bRequest := REQ_GET_MIN)) == Some([0x00, 0xa5])
    ensures GetRange(s.(bRequest := REQ_GET_MAX)) == Some([0x00, 0x00])
    ensures GetRange(s.(bRequest := REQ_GET_RES)) == Some([0x00, 0x01])
    ensures Int16Le(0x00, 0xa5) == -91 * 256
  {
    VolumeRange();
    LeBytesTwo(MIN_VOLUME);
    LeBytesTwo(MAX_VOLUME);
    LeBytesTwo(VOLUME_RESOLUTION);
  }

  /** `as_set_alternate`: alternate setting 0 (no bandwidth) and 1 (streaming) exist. */
  function SetAlternate(alt: nat): (ok: bool)
    ensures ok <==> alt == 0 || alt == 1
  {
    alt < 2
  }

  /** The sample rate `_audio_reconfigure` settles on: a listed rate is kept,
      anything else becomes 44100. */
  function ReconfiguredFreq(f: int): (r: int)
    ensures ValidFreq(r)
    ensures ValidFreq(f) ==> r == f
    ensures !ValidFreq(f) ==> r == 44100
  {
    match f
    case 44100 => f
    case 48000 => f
    case 96000 => f
    case _ => 44100
  }

  /** The volume table index `audio_set_volume` should pick: volume + 91 dB in
      whole dB, clamped to 0 .. 90. */
  function VolumeIndex(volume: int): (i: int)
    requires IsInt16(volume)
    ensures 0 <= i < |DB_TO_VOL|
  {
    var v := volume + CENTER_VOLUME_INDEX * 256;
    var c := if v < 0 then 0 else if v >= 91 * 256 then 91 * 256 - 1 else v;
    c / 256
  }

  /** The index as written: `volume += 91 * 256` is done on an int16_t, so for
      volumes above 9471 the sum wraps to a negative value before the clamp. */
  function VolumeIndexAsWritten(volume: int): (i: int)
    requires IsInt16(volume)
    ensures 0 <= i < |DB_TO_VOL|
  {
    var v := ToInt16(volume + CENTER_VOLUME_INDEX * 256);
    var c := if v < 0 then 0 else if v >= 91 * 256 then 91 * 256 - 1 else v;
    c / 256
  }

  /** The index is the volume in whole dB above -91 dB, clamped: 0 dB and
      above give full scale (0x7fff), -91 dB and below give the smallest gain,
      and a louder request never gives a smaller index. */
  lemma VolumeIndexProperties(a: int, b: int)
    requires IsInt16(a) && IsInt16(b)
    ensures -23296 <= a < 0 ==> VolumeIndex(a) == (a + 23296) / 256
    ensures a >= 0 ==> VolumeIndex(a) == 90 && DB_TO_VOL[VolumeIndex(a)] == 0x7fff
    ensures a < -23040 ==> VolumeIndex(a) == 0 && DB_TO_VOL[VolumeIndex(a)] == 0x0001
    ensures a <= b ==> VolumeIndex(a) <= VolumeIndex(b)
  {
    DbToVolShape();
  }

  /** As written, the clamp at the top only catches volumes up to 9471; from
      9472 (+37 dB) on, the int16_t sum wraps and the loudest requests get the
      smallest gain. Below that the two definitions agree. */
  lemma VolumeWrapFinding(volume: int)
    requires IsInt16(volume)
    ensures volume <= 9471 ==> VolumeIndexAsWritten(volume) == VolumeIndex(volume)
    ensures VolumeIndexAsWritten(9472) == 0 && VolumeIndex(9472) == 90
    ensures DB_TO_VOL[VolumeIndexAsWritten(9472)] == 0x0001
  {
  }

  /** `usb_sound_card_init` -> `set_sys_clock_pll(vco, post_div1, post_div2)`:
      192 MHz for 48 kHz and 96 kHz, about 176.57 MHz for 44.1 kHz. */
  function PllFor(freq: int): (p: (int, int, int))
  {
    if freq == 44100 then (1236000000, 7, 1) else (1536000000, 4, 2)
  }

  /** The system clock each PLL setting gives: 192 MHz is 4000 x 48 kHz and
      2000 x 96 kHz; the 44.1 kHz setting is within 200 kHz of 4000 x 44.1 kHz. */
  lemma PllClocks()
    ensures PllFor(48000).0 / (PllFor(48000).1 * PllFor(48000).2) == 192000000 == 4000 * 48000
    ensures PllFor(96000) == PllFor(48000) && 192000000 == 2000 * 96000
    ensures var sys := PllFor(44100).0 / (PllFor(44100).1 * PllFor(44100).2);
            sys == 176571428 && 4000 * 44100 <= sys < 4000 * 44100 + 200000
  {
  }

  /** `_as_sync_packet`: the explicit feedback value `(freq << 14) / 1000` on a
      32-bit unsigned integer, sent as three bytes, least significant first
      (a 10.14 number of samples per 1 ms frame, section 5.12.4.2 of the USB
      2.0 specification). */
  function FeedbackBytes(freq: int): (bs: seq<int>)
    requires IsUint32(freq)
    ensures |bs| == 3 && AllBytes(bs)
  {
    LeBytes(((freq * 16384) % TWO_32) / 1000, 3)
  }

  /** For every rate the bridge runs at, the feedback fits in 24 bits, reads
      back as freq * 2^14 / 1000 and its integer part is the number of whole
      samples per frame. */
  lemma FeedbackValue(freq: int)
    requires ValidFreq(freq)
    ensures FromLe(FeedbackBytes(freq)) == freq * 16384 / 1000
    ensures FromLe(FeedbackBytes(freq)) / 16384 == freq / 1000
  {
    var fb := freq * 16384 / 1000;
    if freq == 44100 {
      assert fb == 722534 && (freq * 16384) % TWO_32 == freq * 16384;
    } else if freq == 48000 {
      assert fb == 786432 && (freq * 16384) % TWO_32 == freq * 16384;
    } else {
      assert fb == 1572864 && (freq * 16384) % TWO_32 == freq * 16384;
    }
    FromLeBytes(fb, 3);
  }

  /** 48 kHz is 48.0 samples per frame: 0x0C0000. */
  lemma Feedback48k()
    ensures FeedbackBytes(48000) == [0x00, 0x00, 0x0c]
  {
  }

  /** The pending control write recorded by `do_set_current`. */
  datatype ControlCmd = ControlCmd(cmd: int, typ: int, cs: int, cn: int, unit: int, len: int)

  /** The hardware and USB calls the handlers make. */
  datatype Effect =
    | SysClockPll(vco: int, postDiv1: int, postDiv2: int)
    | EqSetFs(fs: int)
    | ControlOutStarted
    | EmptyControlIn

  /** What a completed Set-Current data stage asks for. */
  datatype Action = SetMute(mute: bool) | SetVolume(volume: int) | SetFreq(freq: int) | NoAction

  /** The decision `audio_cmd_packet` takes on the data stage `buf` (the
      packet buffer, of which the first `dataLen` bytes were received): a
      short packet or an unknown selector does nothing; the mute byte counts
      as true when non-zero; the volume is a little-endian int16; the sample
      rate is the low 24 bits of a little-endian 32-bit read. */
  function CommandAction(c: ControlCmd, buf: seq<int>, dataLen: nat): (a: Action)
    requires AllBytes(buf) && |buf| >= 4
  {
    if dataLen < c.len then NoAction
    else if c.typ == RECIPIENT_INTERFACE then
      if c.cs == FEATURE_MUTE_CONTROL then SetMute(buf[0] != 0)
      else if c.cs == FEATURE_VOLUME_CONTROL then SetVolume(Int16Le(buf[0], buf[1]))
      else NoAction
    else if c.typ == RECIPIENT_ENDPOINT && c.cs == ENDPOINT_FREQ_CONTROL then
      SetFreq(FromLe(buf[..4]) % 0x100_0000)
    else NoAction
  }

  /** The rate a Set-Current carries is the 3-byte little-endian value of
      its first three bytes; the fourth byte is ignored. A payload shorter
      than announced does nothing. */
  lemma CommandActionFreq(c: ControlCmd, buf: seq<int>, dataLen: nat)
    requires AllBytes(buf) && |buf| >= 4
    ensures dataLen < c.len ==> CommandAction(c, buf, dataLen) == NoAction
    ensures dataLen >= c.len && c.typ == RECIPIENT_ENDPOINT && c.cs == ENDPOINT_FREQ_CONTROL ==>
              CommandAction(c, buf, dataLen) == SetFreq(FromLe(buf[..3]))
  {
    assert buf[..4] == [buf[0], buf[1], buf[2], buf[3]];
    assert buf[..3] == [buf[0], buf[1], buf[2]];
    FromLeWords(buf[0], buf[1], buf[2], buf[3]);
  }

  /** The audio control and streaming state of the device. */
  class AudioDevice {
    var freq: int
    var volume: int
    var volMul: int
    var mute: bool
    var clock176: bool
    var rate: int
    var sofPos: int
    var sofFilled: int
    /** The sample rate written into the producer pool's audio format. */
    var poolFreq: int
    var cmd: ControlCmd
    var effects: seq<Effect>

    /** The stored volume and its gain agree. */
    ghost predicate VolumeConsistent()
      reads this
    {
      IsInt16(volume) && volMul == DB_TO_VOL[VolumeIndex(volume)]
    }

    /** The device runs at a listed rate, on the 176 MHz clock exactly when
        that rate is 44.1 kHz. */
    ghost predicate Valid()
      reads this
    {
      ValidFreq(freq) && clock176 == (freq == 44100) && VolumeConsistent()
    }

    /** The static initial values, then `usb_sound_card_init`'s
        `audio_set_volume(DEFAULT_VOLUME)` and `_audio_reconfigure()`: the
        clock starts at the 192 MHz setting, so it is switched for 44.1 kHz. */
    constructor Init()
      ensures Valid()
      ensures freq == 44100 && volume == 0 && volMul == 0x7fff && !mute
      ensures clock176 && rate == 44100 && poolFreq == 44100 && sofPos == 0 && sofFilled == 0
      ensures effects == [SysClockPll(1236000000, 7, 1), EqSetFs(44100)]
      ensures cmd.cmd == 0
    {
      freq := 44100;
      volume := DEFAULT_VOLUME;
      volMul := DB_TO_VOL[VolumeIndex(DEFAULT_VOLUME)];
      mute := false;
      clock176 := true;
      rate := 44100;
      sofPos := 0;
      sofFilled := 0;
      poolFreq := 44100;
      cmd := ControlCmd(0, 0, 0, 0, 0, 0);
      effects := [SysClockPll(1236000000, 7, 1), EqSetFs(44100)];
    }

    /** `_audio_reconfigure`: force a listed rate, switch the system PLL only
        when the clock family changes, tell the pool and the equaliser the
        rate, and restart the rate bookkeeping. */
    method Reconfigure()
      modifies this
      ensures freq == ReconfiguredFreq(old(freq))
      ensures clock176 == (freq == 44100)
      ensures var pll := PllFor(freq);
              effects == old(effects)
                         + (if clock176 != old(clock176) then [SysClockPll(pll.0, pll.1, pll.2)] else [])
                         + [EqSetFs(freq)]
      ensures poolFreq == freq && rate == freq && sofFilled == 0 && sofPos == 0
      ensures volume == old(volume) && volMul == old(volMul) && mute == old(mute) && cmd == old(cmd)
      ensures old(VolumeConsistent()) ==> Valid()
    {
      if !(freq == 44100 || freq == 48000 || freq == 96000) {
        freq := 44100;
      }
      if (freq == 48000 || freq == 96000) && clock176 {
        effects := effects + [SysClockPll(1536000000, 4, 2)];
        clock176 := false;
      } else if freq == 44100 && !clock176 {
        effects := effects + [SysClockPll(1236000000, 7, 1)];
        clock176 := true;
      }
      poolFreq := freq;
      effects := effects + [EqSetFs(freq)];
      rate := freq;
      sofFilled := 0;
      sofPos := 0;
    }

    /** `audio_set_volume`: store the raw volume and pick its gain. */
    method SetVolume(v: int)
      requires IsInt16(v)
      modifies this
      ensures volume == v && volMul == DB_TO_VOL[VolumeIndex(v)] && VolumeConsistent()
      ensures freq == old(freq) && mute == old(mute) && clock176 == old(clock176) && rate == old(rate)
      ensures sofPos == old(sofPos) && sofFilled == old(sofFilled) && poolFreq == old(poolFreq)
      ensures cmd == old(cmd) && effects == old(effects)
    {
      volume := v;
      var w := v + CENTER_VOLUME_INDEX * 256;
      if w < 0 {
        w := 0;
      }
      if w >= |DB_TO_VOL| * 256 {
        w := |DB_TO_VOL| * 256 - 1;
      }
      volMul := DB_TO_VOL[w / 256];
    }

    /** `do_set_current`: a Set-Current with a data stage of 1 .. 63 bytes is
        recorded and its data stage started; anything else is refused. */
    method SetCurrentRequest(s: Setup) returns (ok: bool)
      requires WellFormed(s)
      modifies this
      ensures ok <==> 0 < s.wLength < 64
      ensures ok ==> cmd == ControlCmd(REQ_SET_CUR, Recipient(s), ControlSelector(s), s.wValue % 256, s.wIndex / 256, s.wLength)
      ensures ok ==> effects == old(effects) + [ControlOutStarted]
      ensures !ok ==> cmd == old(cmd) && effects == old(effects)
      ensures freq == old(freq) && volume == old(volume) && volMul == old(volMul) && mute == old(mute)
      ensures clock176 == old(clock176) && rate == old(rate) && sofPos == old(sofPos) && sofFilled == old(sofFilled)
      ensures poolFreq == old(poolFreq)
    {
      if s.wLength != 0 && s.wLength < 64 {
        cmd := ControlCmd(REQ_SET_CUR, s.bmRequestType % 32, s.wValue / 256, s.wValue % 256, s.wIndex / 256,
                          ToUint8(s.wLength));
        effects := effects + [ControlOutStarted];
        ok := true;
      } else {
        ok := false;
      }
    }

    /** `audio_cmd_packet`: apply the data stage of the recorded Set-Current,
        then acknowledge with an empty status stage. */
    method CommandPacket(buf: seq<int>, dataLen: nat)
      requires AllBytes(buf) && |buf| >= 4 && dataLen <= |buf|
      requires cmd.cmd == REQ_SET_CUR
      requires Valid()
      modifies this
      ensures Valid()
      ensures cmd == old(cmd).(cmd := 0)
      ensures match CommandAction(old(cmd), buf, dataLen)
              case SetMute(m) =>
                mute == m && freq == old(freq) && volume == old(volume) && effects == old(effects) + [EmptyControlIn]
              case SetVolume(v) =>
                volume == v && volMul == DB_TO_VOL[VolumeIndex(v)] && mute == old(mute) && freq == old(freq)
                && effects == old(effects) + [EmptyControlIn]
              case SetFreq(f) =>
                if f == old(freq) then freq == old(freq) && rate == old(rate) && effects == old(effects) + [EmptyControlIn]
                else
                  && freq == ReconfiguredFreq(f) && rate == freq && poolFreq == freq
                  && sofPos == 0 && sofFilled == 0
                  && mute == old(mute) && volume == old(volume)
                  && var pll := PllFor(freq);
                     effects == old(effects)
                                + (if freq != old(freq) && (freq == 44100) != (old(freq) == 44100)
                                   then [SysClockPll(pll.0, pll.1, pll.2)] else [])
                                + [EqSetFs(freq), EmptyControlIn]
              case NoAction =>
                freq == old(freq) && volume == old(volume) && mute == old(mute) && effects == old(effects) + [EmptyControlIn]
      ensures var a := CommandAction(old(cmd), buf, dataLen);
              !a.SetFreq? || a.freq == old(freq) ==>
                && clock176 == old(clock176) && rate == old(rate) && poolFreq == old(poolFreq)
                && sofPos == old(sofPos) && sofFilled == old(sofFilled)
      ensures !CommandAction(old(cmd), buf, dataLen).SetVolume? ==> volMul == old(volMul)
    {
      var c := cmd;
      cmd := cmd.(cmd := 0);
      if dataLen >= c.len {
        if c.typ == RECIPIENT_INTERFACE {
          if c.cs == FEATURE_MUTE_CONTROL {
            mute := buf[0] != 0;
          } else if c.cs == FEATURE_VOLUME_CONTROL {
            SetVolume(Int16Le(buf[0], buf[1]));
          }
        } else if c.typ == RECIPIENT_ENDPOINT {
          if c.cs == ENDPOINT_FREQ_CONTROL {
            var newFreq := FromLe(buf[..4]) % 0x100_0000;
            if freq != newFreq {
              freq := newFreq;
              Reconfigure();
            }
          }
        }
      }
      effects := effects + [EmptyControlIn];
    }

    /** `ac_setup_request_handler` / `_as_setup_request_handler`: class
        requests are dispatched by bRequest; Set-Current changes the pending
        command, the others only answer. `reply` is what the IN data stage
        carries. */
    method SetupRequest(s: Setup) returns (ok: bool, reply: Option<seq<int>>)
      requires WellFormed(s)
      modifies this
      ensures var isClass := s.bmRequestType % 128 / 32 * 32 == REQ_TYPE_TYPE_CLASS;
              && (!isClass ==> !ok && reply == None && effects == old(effects) && cmd == old(cmd))
              && (isClass && s.bRequest == REQ_SET_CUR ==> (ok <==> 0 < s.wLength < 64) && reply == None)
              && (isClass && s.bRequest == REQ_GET_CUR ==>
                    reply == GetCurrent(s, freq, volume, mute) && ok == reply.Some?)
              && (isClass && (s.bRequest == REQ_GET_MIN || s.bRequest == REQ_GET_MAX || s.bRequest == REQ_GET_RES) ==>
                    reply == GetRange(s) && ok == reply.Some?)
              && (isClass && !(s.bRequest in {REQ_SET_CUR, REQ_GET_CUR, REQ_GET_MIN, REQ_GET_MAX, REQ_GET_RES}) ==>
                    !ok && reply == None)
      ensures s.bRequest != REQ_SET_CUR ==> effects == old(effects) && cmd == old(cmd)
      ensures freq == old(freq) && volume == old(volume) && volMul == old(volMul) && mute == old(mute)
      ensures clock176 == old(clock176) && rate == old(rate)
      ensures sofPos == old(sofPos) && sofFilled == old(sofFilled) && poolFreq == old(poolFreq)
    {
      reply := None;
      ok := false;
      if (s.bmRequestType % 128) / 32 * 32 == REQ_TYPE_TYPE_CLASS {
        if s.bRequest == REQ_SET_CUR {
          ok := SetCurrentRequest(s);
        } else if s.bRequest == REQ_GET_CUR {
          reply := GetCurrent(s, freq, volume, mute);
          ok := reply.Some?;
        } else if s.bRequest == REQ_GET_MIN || s.bRequest == REQ_GET_MAX || s.bRequest == REQ_GET_RES {
          reply := GetRange(s);
          ok := reply.Some?;
        }
      }
    }
  }

  /** An unlisted rate written by the host is replaced by 44.1 kHz, and a
      following GET CUR on the endpoint reports 44100 as three bytes. */
  lemma UnlistedRateReadsBack44k1(s: Setup, volume: int, mute: bool)
    requires Recipient(s) == RECIPIENT_ENDPOINT && ControlSelector(s) == ENDPOINT_FREQ_CONTROL
    ensures ReconfiguredFreq(22050) == 44100
    ensures GetCurrent(s, ReconfiguredFreq(22050), volume, mute) == Some([0x44, 0xac, 0x00])
  {
    assert TinyIn(44100, 3) == AudioSampleFreq(44100);
  }

  /** The int16 samples of an audio OUT packet: byte pairs, little-endian. */
  function Samples(bytes: seq<int>): (s: seq<int>)
    requires AllBytes(bytes)
    ensures |s| == |bytes| / 2 && AllInt16(s)
  {
    seq(|bytes| / 2, i requires 0 <= i < |bytes| / 2 => Int16Le(bytes[2 * i], bytes[2 * i + 1]))
  }

  /** The copy is byte for byte: every sample re-encodes to the two bytes it came from. */
  lemma SamplesReencode(bytes: seq<int>, i: nat)
    requires AllBytes(bytes) && i < |bytes| / 2
    ensures LeBytes(Samples(bytes)[i], 2) == bytes[2 * i .. 2 * i + 2]
  {
    var b0, b1 := bytes[2 * i], bytes[2 * i + 1];
    assert Samples(bytes)[i] == Int16Le(b0, b1);
    assert bytes[2 * i .. 2 * i + 2] == [b0, b1];
  }

  /** `_as_audio_packet`: sample_count is data_len / 4 stereo frames; the
      payload is copied as it is (vol_mul is not applied) into a fresh audio
      buffer, and the equaliser runs over sample_count frames in place. The
      pool buffer, the spectrum analyser and the transfer restart are not
      part of this model. */
  method AudioPacket(eq: BiquadEq.Equaliser, buf: seq<int>, dataLen: nat, k: BiquadEq.Kernels)
    returns (sampleCount: nat, out: array<int>)
    requires AllBytes(buf) && dataLen <= |buf|
    requires eq.Valid()
    modifies eq.state, eq.scratch
    ensures fresh(out) && eq.Valid()
    ensures sampleCount == dataLen / 4
    ensures var input := Samples(buf[..dataLen]);
            var len := ToInt16(sampleCount);
            var r := BiquadEq.Run(k, eq.coeffs[..], old(eq.Region(0)), old(eq.Region(1)), input, BiquadEq.NumBlocks(len));
            out[..] == r.buf && eq.Region(0) == r.st0 && eq.Region(1) == r.st1
  {
    sampleCount := dataLen / 4;
    var input := Samples(buf[..dataLen]);
    out := new int[|input|];
    forall i | 0 <= i < |input| {
      out[i] := input[i];
    }
    assert out[..] == input;
    var len := ToInt16(sampleCount);
    assert BiquadEq.NumBlocks(len) <= sampleCount / 16;
    eq.ProcessInPlace(out, len, k);
  }
}
