/** The WM8805 S/PDIF receiver as driven by wm8805.c: a register file on an
    SPI bus, the driver's start-up write sequence, the input selection, and
    the interrupt poll that follows the incoming sample rate (`fs`, the
    192 kHz enable register and the rate text shown on the display) and
    retunes the PLL when the receiver reports that it lost lock. */
module Wm8805 {
  import opened Ints

  const READ_BIT: int := 0x80

  /** Registers the driver uses. */
  const REG_RESET: int := 0
  const REG_DEVICE_ID: int := 1
  const REG_PLL_K_LOW: int := 3
  const REG_PLL_K_MID: int := 4
  const REG_PLL_K_HIGH: int := 5
  const REG_PLL_N: int := 6
  const REG_PLL_MODE: int := 7
  const REG_CLOCKS: int := 8
  const REG_SPDIF_MODE: int := 9
  const REG_INT_MASK: int := 10
  const REG_INTSTAT: int := 11
  const REG_SPDSTAT: int := 12
  const REG_RX_CHAN_STATUS: int := 13
  const REG_FREQ_STATUS: int := 16
  const REG_AIF_TX: int := 27
  const REG_AIF_RX: int := 28
  const REG_SPD_RX: int := 29
  const REG_POWER: int := 30

  /** Bit n of a byte, as the driver's `bitRead`. */
  predicate Bit(x: int, n: nat)
    requires n < 8
  {
    (x / [1, 2, 4, 8, 16, 32, 64, 128][n]) % 2 == 1
  }

  /** The address byte `read_reg` sends: READ_BIT set, the register number kept. */
  function ReadAddress(regaddr: int): (a: int)
    requires IsByte(regaddr)
    ensures IsByte(a) && a >= READ_BIT && a % 128 == regaddr % 128
  {
    if regaddr >= READ_BIT then regaddr else regaddr + READ_BIT
  }

  /** The address byte `write_reg` sends: READ_BIT cleared, the register number kept. */
  function WriteAddress(regaddr: int): (a: int)
    requires IsByte(regaddr)
    ensures 0 <= a < READ_BIT && a % 128 == regaddr % 128
  {
    if regaddr >= READ_BIT then regaddr - READ_BIT else regaddr
  }

  /** The chip tells a read from a write by bit 7 alone, and both reach the
      same register. */
  lemma AddressBits(regaddr: int)
    requires IsByte(regaddr)
    ensures ReadAddress(regaddr) != WriteAddress(regaddr)
    ensures ReadAddress(regaddr) - READ_BIT == WriteAddress(regaddr)
    ensures regaddr < READ_BIT ==> WriteAddress(regaddr) == regaddr
  {
  }

  /** The byte `wm8805_set_input` writes to register 8: CLKOUT disabled and
      sourced from CLK1 (bits 4 and 3), and receiver input `input & 7`. */
  function InputSelect(input: int): (b: int)
    requires IsByte(input)
    ensures IsByte(b) && b / 8 == 3 && b % 8 == input % 8
  {
    0x18 + input % 8
  }

  /** Only the low three bits of the input number matter. */
  lemma InputSelectLowBits(a: int, b: int)
    requires IsByte(a) && IsByte(b)
    ensures InputSelect(a) == InputSelect(b) <==> a % 8 == b % 8
  {
  }

  /** The indicated-rate code in SPDSTAT bits 5..4, computed as the driver
      does: 2 * bit 5 + bit 4. */
  function RateCode(spdstat: int): (code: int)
    requires IsByte(spdstat)
    ensures code == spdstat / 16 % 4
  {
    2 * (if Bit(spdstat, 5) then 1 else 0) + (if Bit(spdstat, 4) then 1 else 0)
  }

  /** The `fs` the poll records for an indicated-rate code. */
  function FsForCode(code: int): (fs: int)
    requires 0 <= code < 4
  {
    match code
    case 3 => 32
    case 2 => 48
    case 1 => 96
    case 0 => 192
  }

  /** The SPD_192K_EN value the poll writes to register 29 for a code. */
  function Spd192kFor(code: int): (v: int)
    requires 0 <= code < 4
  {
    if code == 0 then 128 else 0
  }

  /** Each code gives a different `fs`, and the 192 kHz mode is enabled
      exactly when `fs` becomes 192. */
  lemma RateCodeDecoding(a: int, b: int)
    requires 0 <= a < 4 && 0 <= b < 4
    ensures FsForCode(a) == FsForCode(b) <==> a == b
    ensures Spd192kFor(a) == 128 <==> FsForCode(a) == 192
    ensures Spd192kFor(a) == 0 || Spd192kFor(a) == 128
  {
  }

  /** The register-16 codes `get_samplerate_str` names; any other code runs
      off the end of the function without a return value. */
  predicate ListedFreqCode(code: int)
  {
    code in {0x1, 0x3, 0xe, 0xa, 0x2, 0x6, 0xc, 0x8, 0x0, 0x4}
  }

  /** `get_samplerate_str`: the rate text for a register-16 code. Code 0 is
      shared by 44.1 kHz and 192 kHz and is told apart by the last `fs`. */
  function SampleRateText(code: int, fs: int): (s: string)
    requires ListedFreqCode(code)
  {
    match code
    case 0x1 => "N/A"
    case 0x3 => "32 kHz"
    case 0xe => "192 kHz"
    case 0xa => "96 kHz"
    case 0x2 => "48 kHz"
    case 0x6 => "24 kHz"
    case 0xc => "176.4 kHz"
    case 0x8 => "88.2 kHz"
    case 0x0 => if fs == 192 then "192 kHz" else "44.1 kHz"
    case 0x4 => "22.05 kHz"
  }

  /** The rate text depends on `fs` for code 0 only; two codes name the
      same rate only in the 192 kHz case, and "N/A" only for code 1. */
  lemma SampleRateTextCases(code: int, other: int, fs: int, fs2: int)
    requires ListedFreqCode(code) && ListedFreqCode(other)
    ensures code != 0 ==> SampleRateText(code, fs) == SampleRateText(code, fs2)
    ensures SampleRateText(0, fs) == "192 kHz" <==> fs == 192
    ensures SampleRateText(code, fs) == SampleRateText(other, fs) && code != other ==>
              {code, other} == {0, 0xe} && fs == 192
    ensures SampleRateText(code, fs) == "N/A" <==> code == 1
  {
  }

  /** The PLL setting the driver uses: N = 7, K = 0x36FD21. */
  function WithPllDefaults(regs: map<int, int>): (r: map<int, int>)
    ensures r.Keys == regs.Keys + {REG_PLL_N, REG_PLL_K_HIGH, REG_PLL_K_MID, REG_PLL_K_LOW}
    ensures r[REG_PLL_N] == 7 && r[REG_PLL_K_HIGH] == 0x36 && r[REG_PLL_K_MID] == 0xfd && r[REG_PLL_K_LOW] == 0x21
    ensures forall a :: a in regs && a !in {REG_PLL_N, REG_PLL_K_HIGH, REG_PLL_K_MID, REG_PLL_K_LOW} ==> r[a] == regs[a]
  {
    regs[REG_PLL_N := 7][REG_PLL_K_HIGH := 0x36][REG_PLL_K_MID := 0xfd][REG_PLL_K_LOW := 0x21]
  }

  /** The register file after `init_device`'s writes, in order. */
  function InitWrites(regs: map<int, int>): map<int, int>
  {
    regs[REG_RESET := 0][REG_PLL_MODE := 0x04][REG_CLOCKS := 0x30][REG_INT_MASK := 126]
        [REG_AIF_TX := 0x0a][REG_AIF_RX := 0xca][REG_PLL_N := 7][REG_PLL_K_HIGH := 0x36]
        [REG_PLL_K_MID := 0xfd][REG_PLL_K_LOW := 0x21][REG_SPDIF_MODE := 0][REG_POWER := 0]
        [REG_CLOCKS := 0x1b]
  }

  /** After start-up the PLL holds the driver's setting (the one the poll
      restores after an unlock), the receiver listens on input 3 (TOSLINK)
      with CLKOUT off, the interrupt mask leaves only the unlock and
      rate-change interrupts (bits 0 and 7) enabled, the chip is powered up,
      and registers the sequence does not write keep their values. */
  lemma InitState(regs: map<int, int>, a: int)
    ensures var r := InitWrites(regs);
            && (forall p :: p in {REG_PLL_N, REG_PLL_K_HIGH, REG_PLL_K_MID, REG_PLL_K_LOW} ==> r[p] == WithPllDefaults(regs)[p])
            && r[REG_CLOCKS] == InputSelect(3) && r[REG_POWER] == 0
            && !Bit(r[REG_INT_MASK], 0) && !Bit(r[REG_INT_MASK], 7)
            && (forall i: nat | 1 <= i < 7 :: Bit(r[REG_INT_MASK], i))
            && (a in regs && a !in {0, 3, 4, 5, 6, 7, 8, 9, 10, 27, 28, 30} ==> a in r && r[a] == regs[a])
  {
  }

  /** The receiver's register file and the driver's module state. Status
      registers (INTSTAT, SPDSTAT, the channel status and the frequency
      status) are changed by the chip itself, so the values the driver reads
      from them are parameters of the poll. */
  class Receiver {
    var regs: map<int, int>
    var fs: int
    var pllMode: int
    var srStr: string
    /** The texts handed to `ui_set_sr_text`, oldest first. */
    var display: seq<string>

    ghost predicate Valid()
      reads this
    {
      forall a :: a in regs ==> 0 <= a < READ_BIT && IsByte(regs[a])
    }

    /** Power-on: the chip answers its device ID; the driver's statics start
        at fs = 0, pll_mode = 0 and "N/A". */
    constructor PowerOn(deviceId: int)
      requires IsByte(deviceId)
      ensures Valid() && regs == map[REG_DEVICE_ID := deviceId]
      ensures fs == 0 && pllMode == 0 && srStr == "N/A" && display == []
    {
      regs := map[REG_DEVICE_ID := deviceId];
      fs := 0;
      pllMode := 0;
      srStr := "N/A";
      display := [];
    }

    /** `write_reg`: the register addressed by the low seven bits takes the byte. */
    method WriteReg(regaddr: int, dataval: int)
      requires Valid() && IsByte(regaddr) && IsByte(dataval)
      modifies this
      ensures Valid() && regs == old(regs)[regaddr % 128 := dataval]
      ensures fs == old(fs) && pllMode == old(pllMode) && srStr == old(srStr) && display == old(display)
    {
      var a := WriteAddress(regaddr);
      regs := regs[a := dataval];
    }

    /** `read_reg`. */
    method ReadReg(regaddr: int) returns (data: int)
      requires Valid() && IsByte(regaddr) && regaddr % 128 in regs
      ensures data == regs[regaddr % 128] && IsByte(data)
    {
      var a := ReadAddress(regaddr);
      data := regs[a % 128];
    }

    /** `wm8805_init` / `init_device`: reset, clocking, interrupt mask, audio
        interfaces, PLL, inputs, power, input 3; then the device ID is read. */
    method Init() returns (did: int)
      requires Valid() && REG_DEVICE_ID in regs
      modifies this
      ensures Valid() && did == old(regs[REG_DEVICE_ID])
      ensures regs == InitWrites(old(regs))
      ensures fs == old(fs) && pllMode == old(pllMode) && srStr == old(srStr) && display == old(display)
    {
      WriteReg(REG_RESET, 0);
      WriteReg(REG_PLL_MODE, 0x04);
      WriteReg(REG_CLOCKS, 0x30);
      WriteReg(REG_INT_MASK, 126);
      WriteReg(REG_AIF_TX, 0x0a);
      WriteReg(REG_AIF_RX, 0xca);
      WriteReg(REG_PLL_N, 7);
      WriteReg(REG_PLL_K_HIGH, 0x36);
      WriteReg(REG_PLL_K_MID, 0xfd);
      WriteReg(REG_PLL_K_LOW, 0x21);
      WriteReg(REG_SPDIF_MODE, 0);
      WriteReg(REG_POWER, 0);
      WriteReg(REG_CLOCKS, 0x1b);
      did := ReadReg(REG_DEVICE_ID);
    }

    /** `wm8805_set_input`. */
    method SetInput(input: int)
      requires Valid() && IsByte(input)
      modifies this
      ensures Valid() && regs == old(regs)[REG_CLOCKS := InputSelect(input)]
      ensures fs == old(fs) && pllMode == old(pllMode) && srStr == old(srStr) && display == old(display)
    {
      WriteReg(REG_CLOCKS, 0x18 + input % 8);
    }

    /** `wm8805_poll_intstat`. `intstat` is the INTSTAT read; `spdstat` and
        `spdstatAgain` are the two SPDSTAT reads of the unlock check,
        `spdstatRate` the SPDSTAT read of the rate check and `freqCode` the
        register-16 read of `get_samplerate_str`. Only the reads the taken
        branches make matter. */
    method PollIntstat(intstat: int, spdstat: int, spdstatAgain: int, spdstatRate: int, freqCode: int)
      requires Valid()
      requires IsByte(intstat) && IsByte(spdstat) && IsByte(spdstatAgain) && IsByte(spdstatRate)
      requires Bit(intstat, 7) ==> ListedFreqCode(freqCode)
      modifies this
      ensures Valid()
      ensures var unlocked := Bit(intstat, 0) && Bit(spdstat, 6) && Bit(spdstatAgain, 6);
              var retuned := if unlocked then WithPllDefaults(old(regs)) else old(regs);
              var code := RateCode(spdstatRate);
              && pllMode == (if unlocked then 1 else old(pllMode))
              && (Bit(intstat, 7) ==>
                    && fs == FsForCode(code)
                    && regs == retuned[REG_SPD_RX := Spd192kFor(code)]
                    && srStr == SampleRateText(freqCode, fs))
              && (!Bit(intstat, 7) ==> fs == old(fs) && regs == retuned && srStr == old(srStr))
              && display == old(display) + (if unlocked then ["PLL ERROR"] else [])
                            + (if srStr != old(srStr) then [srStr] else [])
    {
      if Bit(intstat, 0) {
        CheckUnlock(spdstat, spdstatAgain);
      }
      if Bit(intstat, 7) {
        RateChanged(spdstatRate, freqCode);
      }
    }

    /** The UPD_UNLOCK branch: the PLL is retuned only when both SPDSTAT
        reads report the receiver unlocked (bit 6). */
    method CheckUnlock(spdstat: int, spdstatAgain: int)
      requires Valid() && IsByte(spdstat) && IsByte(spdstatAgain)
      modifies this
      ensures Valid()
      ensures var unlocked := Bit(spdstat, 6) && Bit(spdstatAgain, 6);
              && regs == (if unlocked then WithPllDefaults(old(regs)) else old(regs))
              && pllMode == (if unlocked then 1 else old(pllMode))
              && display == old(display) + (if unlocked then ["PLL ERROR"] else [])
      ensures fs == old(fs) && srStr == old(srStr)
    {
      var status := spdstat;
      if Bit(status, 6) {
        status := spdstatAgain;
        if Bit(status, 6) {
          display := display + ["PLL ERROR"];
          WriteReg(REG_PLL_N, 7);
          WriteReg(REG_PLL_K_HIGH, 54);
          WriteReg(REG_PLL_K_MID, 253);
          WriteReg(REG_PLL_K_LOW, 33);
          pllMode := 1;
        }
      }
    }

    /** The UPD_REC_FREQ branch: record `fs`, set or clear the 192 kHz mode,
        and show the rate text if it changed. */
    method RateChanged(spdstatRate: int, freqCode: int)
      requires Valid() && IsByte(spdstatRate) && ListedFreqCode(freqCode)
      modifies this
      ensures Valid()
      ensures fs == FsForCode(RateCode(spdstatRate))
      ensures regs == old(regs)[REG_SPD_RX := Spd192kFor(RateCode(spdstatRate))]
      ensures srStr == SampleRateText(freqCode, fs)
      ensures display == old(display) + (if srStr != old(srStr) then [srStr] else [])
      ensures pllMode == old(pllMode)
    {
      var samplerate := RateCode(spdstatRate);
      match samplerate {
        case 3 =>
          fs := 32;
          WriteReg(REG_SPD_RX, 0);
        case 2 =>
          fs := 48;
          WriteReg(REG_SPD_RX, 0);
        case 1 =>
          fs := 96;
          WriteReg(REG_SPD_RX, 0);
        case 0 =>
          fs := 192;
          WriteReg(REG_SPD_RX, 128);
      }
      var newSrStr := SampleRateText(freqCode, fs);
      if srStr != newSrStr {
        srStr := newSrStr;
        display := display + [srStr];
      }
    }
  }
}
