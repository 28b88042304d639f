/** The TPA6130A2 headphone amplifier as seen by tpa6130.c: a register file
    of four byte-wide registers reached over I2C, and the driver's volume,
    mute and low-power helpers, which read a register, change some bits and
    write it back. */
module Tpa6130 {
  import opened Ints

  /** Register map. */
  const CONTROL: int := 0x1
  const VOLUME_AND_MUTE: int := 0x2
  const OUTPUT_IMPEDANCE: int := 0x3
  const I2C_ADDRESS_VERSION: int := 0x4

  /** Register values after a reset, as the driver defines them. */
  const CONTROL_DEFAULT: int := 0x00
  const VOLUME_AND_MUTE_DEFAULT: int := 0x0F
  const OUTPUT_IMPEDANCE_DEFAULT: int := 0x00
  const I2C_ADDRESS_VERSION_DEFAULT: int := 0x02

  /** Control register bits. */
  const HP_EN_L: int := 0x80
  const HP_EN_R: int := 0x40
  const SW_SHUTDOWN: int := 0x01

  /** Volume-and-mute register: bits 7 and 6 mute the channels, bits 5..0
      are the volume step from 0 (-59 dB) to 63 (+4 dB). */
  const MUTE_L: int := 0x80
  const MUTE_R: int := 0x40
  const VOL_MIN: int := 0
  const VOL_MAX: int := 63

  /** Both mute bits set. */
  predicate Muted(reg: int) { reg / 64 % 4 == 3 }

  /** The volume step held in bits 5..0. */
  function Level(reg: int): int { reg % 64 }

  /** `x & ~(MUTE_L | MUTE_R)` on a two's-complement integer of any width. */
  function ClearMuteBits(x: int): (r: int)
    ensures r % 64 == x % 64 && r % 256 < 64 && r / 256 == x / 256
  {
    var low := x % 256;
    var q, h, l := x / 256, low / 64, low % 64;
    assert x == 256 * q + 64 * h + l && 0 <= h < 4 && 0 <= l < 64;
    assert x % 64 == l by {
      assert x == 64 * (4 * q + h) + l;
    }
    var r := x - h * 64;
    assert r == 64 * (4 * q) + l && r == 256 * q + l;
    r
  }

  /** The driver reads the register as an int8_t, clears the mute bits and
      stores the result in an int8_t again: for every register byte that is
      its volume step. */
  lemma ClearedStep(reg: int)
    requires IsByte(reg)
    ensures ToInt8(ClearMuteBits(ToInt8(reg))) == Level(reg)
  {
    var x := ToInt8(reg);
    assert x % 256 == reg;
    var c := ClearMuteBits(x);
    assert c == 256 * (x / 256) + reg % 64;
  }

  /** The byte `tpa6130_set_volume` writes for an int8_t volume: steps above
      63 are clamped to 63, a volume of 0 or below mutes both channels, and
      any other volume unmutes them. */
  function VolumeByte(volume: int): (r: int)
    requires IsInt8(volume)
    ensures IsByte(r)
    ensures Muted(r) <==> volume <= VOL_MIN
    ensures Level(r) == if volume <= VOL_MIN then 0 else if volume > VOL_MAX then VOL_MAX else volume
  {
    var newVolume := if volume > VOL_MAX then VOL_MAX
                     else if volume <= VOL_MIN then ToInt8(MUTE_L + MUTE_R)
                     else volume;
    ToUint8(newVolume)
  }

  /** The register value `tpa6130_dac_increase_volume` leads to: one step
      louder, unmuted, stopping at the top step. */
  function Increased(reg: int): (r: int)
    requires IsByte(reg)
    ensures IsByte(r) && !Muted(r)
  {
    VolumeByte(if Level(reg) < VOL_MAX then Level(reg) + 1 else VOL_MAX)
  }

  /** The register value `tpa6130_dac_decrease_volume` leads to: one step
      quieter, and muted once step 0 is reached. */
  function Decreased(reg: int): (r: int)
    requires IsByte(reg)
    ensures IsByte(r)
  {
    VolumeByte(if Level(reg) > VOL_MIN then Level(reg) - 1 else VOL_MIN)
  }

  /** Stepping never leaves the volume range: increasing stops at 63 and
      turns mute into step 1; decreasing mutes from step 1 and stays muted. */
  lemma StepBounds(reg: int)
    requires IsByte(reg)
    ensures Level(Increased(reg)) == if Level(reg) < VOL_MAX then Level(reg) + 1 else VOL_MAX
    ensures Level(Increased(reg)) <= VOL_MAX && Increased(reg) <= VOL_MAX
    ensures reg == MUTE_L + MUTE_R ==> Increased(reg) == 1
    ensures Level(reg) <= 1 ==> Decreased(reg) == MUTE_L + MUTE_R
    ensures Level(reg) > 1 ==> Decreased(reg) == Level(reg) - 1
  {
  }

  /** Decreasing undoes an increase, from any step below the top and from
      mute; only the unmuted step 0 (written by init) comes back muted. */
  lemma DecreaseUndoesIncrease(reg: int)
    requires IsByte(reg) && Level(reg) < VOL_MAX
    ensures (1 <= reg < VOL_MAX || reg == MUTE_L + MUTE_R) ==> Decreased(Increased(reg)) == reg
    ensures reg == 0 ==> Decreased(Increased(reg)) == MUTE_L + MUTE_R
  {
  }

  /** `tpa6130_dac_get_volume` as written: the int8_t register value is
      sign-extended before the mute bits are cleared, so a muted register
      (0xC0) reads as 0xFF00 in the uint16_t, and the scaled value is
      truncated to uint8_t. */
  function DacVolumeAsWritten(reg: int): (r: int)
    requires IsByte(reg)
    ensures IsByte(r)
  {
    var raw := ClearMuteBits(ToInt8(reg)) % 65536;
    ToUint8(raw * 255 / VOL_MAX)
  }

  /** The display volume the function evidently intends: the volume step
      0..63 scaled to 0..255, with the mute bits ignored. */
  function DacVolume(reg: int): (r: int)
    requires IsByte(reg)
    ensures 0 <= r <= 255
    ensures r == 0 <==> Level(reg) == 0
    ensures Level(reg) == VOL_MAX <==> r == 255
  {
    Level(reg) * 255 / VOL_MAX
  }

  /** The display volume grows with the step. */
  lemma DacVolumeMonotone(a: int, b: int)
    requires IsByte(a) && IsByte(b) && Level(a) <= Level(b)
    ensures DacVolume(a) <= DacVolume(b)
  {
  }

  /** The two agree on every unmuted register value, and the muted register
      reads 36 as written instead of 0. */
  lemma DacVolumeFinding(reg: int)
    requires 0 <= reg < 128
    ensures DacVolumeAsWritten(reg) == DacVolume(reg)
    ensures DacVolumeAsWritten(MUTE_L + MUTE_R) == 36 && DacVolume(MUTE_L + MUTE_R) == 0
  {
    var step := Level(reg);
    assert ToInt8(reg) == reg;
    assert ClearMuteBits(reg) % 65536 == step;
    assert step * 255 <= 63 * 255;
    assert step * 255 / VOL_MAX <= 255;
    assert ToInt8(MUTE_L + MUTE_R) == -64;
    assert ClearMuteBits(-64) == -256;
    assert -256 % 65536 == 0xff00;
    assert 0xff00 * 255 / VOL_MAX == 264228;
  }

  /** The control byte `tpa6130_shutdown` writes: bit 0 set, the others kept. */
  function WithShutdown(b: int): (r: int)
    requires IsByte(b)
    ensures IsByte(r) && r % 2 == 1 && r / 2 == b / 2
  {
    if b % 2 == 1 then b else b + SW_SHUTDOWN
  }

  /** The control byte `tpa6130_powerup` writes: bit 0 cleared, the others kept. */
  function WithoutShutdown(b: int): (r: int)
    requires IsByte(b)
    ensures IsByte(r) && r % 2 == 0 && r / 2 == b / 2
  {
    b - b % 2
  }

  /** Power-up after shut-down restores a running control register, and
      shut-down after power-up restores a shut-down one. */
  lemma ShutdownPowerupInverse(b: int)
    requires IsByte(b)
    ensures b % 2 == 0 ==> WithoutShutdown(WithShutdown(b)) == b
    ensures b % 2 == 1 ==> WithShutdown(WithoutShutdown(b)) == b
  {
  }

  /** The amplifier's registers. A register write over I2C is modelled as
      storing the byte; bus time-outs are not modelled. */
  class Amplifier {
    var regs: map<int, int>

    ghost predicate Valid()
      reads this
    {
      && CONTROL in regs && IsByte(regs[CONTROL])
      && VOLUME_AND_MUTE in regs && IsByte(regs[VOLUME_AND_MUTE])
      && OUTPUT_IMPEDANCE in regs && IsByte(regs[OUTPUT_IMPEDANCE])
      && I2C_ADDRESS_VERSION in regs && IsByte(regs[I2C_ADDRESS_VERSION])
    }

    /** The chip after a reset. */
    constructor Reset()
      ensures Valid()
      ensures regs == map[CONTROL := CONTROL_DEFAULT, VOLUME_AND_MUTE := VOLUME_AND_MUTE_DEFAULT,
                          OUTPUT_IMPEDANCE := OUTPUT_IMPEDANCE_DEFAULT,
                          I2C_ADDRESS_VERSION := I2C_ADDRESS_VERSION_DEFAULT]
    {
      regs := map[CONTROL := CONTROL_DEFAULT, VOLUME_AND_MUTE := VOLUME_AND_MUTE_DEFAULT,
                  OUTPUT_IMPEDANCE := OUTPUT_IMPEDANCE_DEFAULT,
                  I2C_ADDRESS_VERSION := I2C_ADDRESS_VERSION_DEFAULT];
    }

    /** `read_reg`. */
    method ReadReg(reg: int) returns (data: int)
      requires Valid() && reg in regs
      ensures data == regs[reg]
    {
      data := regs[reg];
    }

    /** `write_reg`. */
    method WriteReg(reg: int, data: int)
      requires Valid() && reg in regs && IsByte(data)
      modifies this
      ensures Valid() && regs == old(regs)[reg := data]
    {
      regs := regs[reg := data];
    }

    /** `tpa6130_get_volume`: the volume register as an int8_t. */
    function GetVolume(): (v: int)
      requires Valid()
      reads this
      ensures IsInt8(v) && v % 256 == regs[VOLUME_AND_MUTE]
    {
      ToInt8(regs[VOLUME_AND_MUTE])
    }

    /** `tpa6130_dac_get_volume`, as the corrected definition. */
    function DacGetVolume(): (v: int)
      requires Valid()
      reads this
      ensures 0 <= v <= 255 && (v == 0 <==> Level(regs[VOLUME_AND_MUTE]) == 0)
    {
      DacVolume(regs[VOLUME_AND_MUTE])
    }

    /** `tpa6130_shutdown`: enter software low-power mode. */
    method Shutdown()
      requires Valid()
      modifies this
      ensures Valid() && regs == old(regs)[CONTROL := WithShutdown(old(regs[CONTROL]))]
    {
      var data := ReadReg(CONTROL);
      WriteReg(CONTROL, WithShutdown(data));
    }

    /** `tpa6130_powerup`: leave software low-power mode. */
    method Powerup()
      requires Valid()
      modifies this
      ensures Valid() && regs == old(regs)[CONTROL := WithoutShutdown(old(regs[CONTROL]))]
    {
      var data := ReadReg(CONTROL);
      WriteReg(CONTROL, WithoutShutdown(data));
    }

    /** `tpa6130_set_volume`. */
    method SetVolume(volume: int)
      requires Valid() && IsInt8(volume)
      modifies this
      ensures Valid() && regs == old(regs)[VOLUME_AND_MUTE := VolumeByte(volume)]
    {
      var newVolume := volume;
      if volume > VOL_MAX {
        newVolume := VOL_MAX;
      } else if volume <= VOL_MIN {
        newVolume := ToInt8(MUTE_L + MUTE_R);
      }
      WriteReg(VOLUME_AND_MUTE, ToUint8(newVolume));
    }

    /** `tpa6130_dac_set_volume`: the uint8_t volume is passed on as an
        int8_t, so 128..255 become negative and mute the amplifier. */
    method DacSetVolume(volume: int)
      requires Valid() && IsByte(volume)
      modifies this
      ensures Valid() && regs == old(regs)[VOLUME_AND_MUTE := VolumeByte(ToInt8(volume))]
      ensures Muted(regs[VOLUME_AND_MUTE]) <==> volume == 0 || volume >= 128
    {
      SetVolume(ToInt8(volume));
    }

    /** `tpa6130_dac_increase_volume`. */
    method IncreaseVolume()
      requires Valid()
      modifies this
      ensures Valid() && regs == old(regs)[VOLUME_AND_MUTE := Increased(old(regs[VOLUME_AND_MUTE]))]
    {
      var v := GetVolume();
      ClearedStep(regs[VOLUME_AND_MUTE]);
      var volume := ToInt8(ClearMuteBits(v));
      if volume < VOL_MIN {
        volume := VOL_MIN;
      }
      SetVolume(ToInt8(volume + 1));
    }

    /** `tpa6130_dac_decrease_volume`. */
    method DecreaseVolume()
      requires Valid()
      modifies this
      ensures Valid() && regs == old(regs)[VOLUME_AND_MUTE := Decreased(old(regs[VOLUME_AND_MUTE]))]
    {
      var v := GetVolume();
      ClearedStep(regs[VOLUME_AND_MUTE]);
      var volume := ToInt8(ClearMuteBits(v));
      if volume > VOL_MIN {
        volume := volume - 1;
      }
      SetVolume(volume);
    }

    /** `tpa6130_init`: after the I2C set-up and the version read, unmute at
        step 0, enable both headphone channels, then set step 10. */
    method Init() returns (version: int)
      requires Valid()
      modifies this
      ensures Valid()
      ensures version == old(regs[I2C_ADDRESS_VERSION])
      ensures regs == old(regs)[VOLUME_AND_MUTE := 10][CONTROL := HP_EN_L + HP_EN_R]
      ensures !Muted(regs[VOLUME_AND_MUTE]) && Level(regs[VOLUME_AND_MUTE]) == 10
    {
      version := ReadReg(I2C_ADDRESS_VERSION);
      WriteReg(VOLUME_AND_MUTE, 0x00);
      WriteReg(CONTROL, HP_EN_L + HP_EN_R);
      SetVolume(10);
    }
  }
}
