# FoxDAC firmware core, modelled in Dafny

FoxDAC is a USB-to-S/PDIF audio DAC built on an RP2040. Its firmware does four things:

- It receives a USB Audio Class 1.0 isochronous stream.
- It runs the stream through an in-place biquad equaliser.
- It sends the result out over S/PDIF.
- It drives a small OLED user interface, which includes an equaliser editor and two games.

This project models the integer control and state logic of that firmware and proves what it promises. There is one Dafny module per source file. A module is a class when the source updates statics or device registers in place, and functions and lemmas where the source only computes.

- `Ints`: the C integer types the firmware uses, modelled as integers with explicit wrap-around. Also the little-endian byte strings that carry USB control payloads.
- `UsbAudio` (`usb_spdif.c`):
  - the `audio_state` control state, `clock_176mhz` and `rate`;
  - the class-specific Get and Set requests of section 5.2 of the USB Device Class Definition for Audio Devices 1.0;
  - the reconfiguration that forces the rate into 44.1, 48 or 96 kHz and retunes the system PLL only when needed;
  - the volume table lookup;
  - the 10.14 feedback value of section 5.12.4.2 of the USB 2.0 specification;
  - the audio OUT packet handed to the equaliser.

  Calls into the PLL, the equaliser and the USB stack are recorded as effects, in order.
- `BiquadEq` (`dsp/biquad_eq.c`): `biquad_eq_process_inplace` on an array. It is proved equal to a reference definition that filters each channel on its own. The proofs cover:
  - the 16-frame block partition;
  - channel separation and the disjoint state regions;
  - the untouched tail;
  - the Q15/Q31 widening round trip;
  - the coefficient saturation.

  The CMSIS kernels are parameters.
- `Encoder` (`drivers/encoder/encoder.c`): the quadrature decoder's transition switch, with microstep or detent counting, saturating time accumulators and the destructive `encoder_get_delta`.
- `Tpa6130` and `Wm8805`: the headphone amplifier and the S/PDIF receiver, each as a register file driven by its driver's helpers. For the WM8805 this includes the interrupt poll that follows the incoming sample rate and retunes the PLL after two consecutive unlock reads.
- `Uac2` (`uac2/uac2.c`): the USB Audio Class 2.0 variant. It covers the clock and feature-unit requests, the stereo-to-mono downmix and the test-tone phase accumulator.
- `EqCurve`, `LvPortDisp`, `Rle`, `BadApple`, `FrameDec`, `Breakout`: the UI side. They cover:
  - the eight-band editor with its cyclic cursor and store-on-change rule;
  - the SSD1306 page layout, area rounding and flush command stream;
  - the run-length video decoder and both of its players;
  - the integer game state of Breakout.

Source paths below are relative to the repository root.

## Model

| member | source | states |
|---|---|---|
| Ints.ToUint8 | firmware/foxdac/ui/breakout.c:223 | conversion to uint8_t lands in 0..255, is congruent to its input modulo 256, and keeps any value already in range |
| Ints.ToInt16 | firmware/foxdac/usb_spdif.c:442 | conversion to int16_t lands in -32768..32767, is congruent to its input modulo 2^16, and keeps any value already in range |
| Ints.ToInt32 | firmware/foxdac/ui/breakout.c:156 | conversion to int lands in the 32-bit range, is congruent to its input modulo 2^32, and keeps any value already in range |
| Ints.ToInt32Congruent | firmware/foxdac/drivers/encoder/encoder.c:219-224 | values congruent modulo 2^32 convert to the same int32_t |
| Ints.CDiv | firmware/foxdac/uac2/uac2.c:499 | C's signed division truncates toward zero for either sign of the dividend |
| Ints.FromLeBytes | firmware/foxdac/usb_spdif.c:562 | a value that fits n bytes, sent little-endian, reads back as itself |
| Ints.LeBytesFromLe | firmware/foxdac/usb_spdif.c:562 | reading a little-endian byte string and sending it back gives the same bytes |
| Ints.Int16Le | firmware/foxdac/usb_spdif.c:555 | reading two bytes as an int16_t gives a 16-bit value whose little-endian bytes are those two |
| Ints.Int16LeRoundTrip | firmware/foxdac/usb_spdif.c:555 | any int16_t sent as two little-endian bytes reads back as itself |
| UsbAudio.DbToVolShape | firmware/foxdac/usb_spdif.c:424-437 | the gain table has 91 entries, from 0x0001 at -91 dB to 0x7fff at 0 dB |
| UsbAudio.EncodeDb | firmware/foxdac/usb_spdif.c:442 | the encoded value is a 16-bit word congruent to x * 256 modulo 2^16 (1/256 dB units, two's complement) |
| UsbAudio.VolumeRange | firmware/foxdac/usb_spdif.c:440-447 | the advertised range is -91 dB (0xa500, read as int16) to 0 dB, default 0 dB, in 1 dB steps |
| UsbAudio.AudioSampleFreq | firmware/foxdac/usb_spdif.c:48 | a sample rate is written as its three bytes, least significant first |
| UsbAudio.DescriptorFreqs | firmware/foxdac/usb_spdif.c:189-193 | the format descriptor lists exactly 44100, 48000 and 96000 Hz, each a rate the device accepts |
| UsbAudio.DescriptorString | firmware/foxdac/usb_spdif.c:249-255 | string 1..3 is manufacturer, product, serial number; any higher index is the empty string |
| UsbAudio.TinyIn | firmware/foxdac/usb_spdif.c:404-416 | a tiny IN transfer sends exactly `len` bytes, each a byte |
| UsbAudio.GetCurrent | firmware/foxdac/usb_spdif.c:398-421 | GET CUR is answered exactly for interface mute, interface volume and endpoint sampling frequency, with 1, 2 and 3 bytes; everything else is refused |
| UsbAudio.GetCurrentDecodes | firmware/foxdac/usb_spdif.c:398-421 | each GET CUR reply decodes back to the mute flag, the int16 volume and the 24-bit sample rate it reports |
| UsbAudio.GetRange | firmware/foxdac/usb_spdif.c:449-486 | GET MIN/MAX/RES are answered, with two bytes, exactly for the interface volume control |
| UsbAudio.GetRangeValues | firmware/foxdac/usb_spdif.c:440-486 | the three range replies are 0xa500 (-91 dB), 0 dB and 1 dB, little-endian |
| UsbAudio.SetAlternate | firmware/foxdac/usb_spdif.c:582-586 | only alternate settings 0 and 1 are accepted |
| UsbAudio.ReconfiguredFreq | firmware/foxdac/usb_spdif.c:497-505 | the rate after reconfiguration is always a listed one: a listed rate is kept, any other becomes 44100 |
| UsbAudio.VolumeIndexAsWritten | firmware/foxdac/usb_spdif.c:529-540 | the table index the code computes, with the int16 wrap of `volume += 91 * 256`, always lies in the table |
| UsbAudio.VolumeIndex | firmware/foxdac/usb_spdif.c:529-540 | the intended table index always lies in the table |
| UsbAudio.VolumeIndexProperties | firmware/foxdac/usb_spdif.c:529-540 | the index is whole dB above -91 dB; 0 dB and louder give gain 0x7fff, below -90 dB give 0x0001, and it grows with the volume |
| UsbAudio.VolumeWrapFinding | firmware/foxdac/usb_spdif.c:532-534 | the code agrees with the intended index up to volume 9471; at 9472 the int16 sum wraps and the loudest volume gets the quietest gain |
| UsbAudio.PllClocks | firmware/foxdac/usb_spdif.c:507-517 | the PLL settings give 192 MHz (4000 x 48 kHz, 2000 x 96 kHz) and 176.57 MHz (within 200 kHz of 4000 x 44.1 kHz) |
| UsbAudio.FeedbackBytes | firmware/foxdac/usb_spdif.c:358-369 | the sync packet holds exactly three bytes |
| UsbAudio.FeedbackValue | firmware/foxdac/usb_spdif.c:363-369 | for every listed rate the three bytes read back as (freq << 14) / 1000, a 10.14 samples-per-frame value whose integer part is freq / 1000 |
| UsbAudio.Feedback48k | firmware/foxdac/usb_spdif.c:363-369 | 48 kHz gives the feedback 0x0C0000 (48.0 samples per frame) |
| UsbAudio.CommandActionFreq | firmware/foxdac/usb_spdif.c:546-569 | a short data stage does nothing; a sampling-frequency write carries the 24-bit little-endian value of its first three bytes |
| UsbAudio.AudioDevice.Init | firmware/foxdac/usb_spdif.c:257-281 | the initial state plus the init sequence: 44.1 kHz on the 176 MHz clock, volume 0 dB with gain 0x7fff, unmuted, and the PLL and equaliser calls made in that order |
| UsbAudio.AudioDevice.Reconfigure | firmware/foxdac/usb_spdif.c:497-527 | the rate becomes a listed one, the PLL is switched only when the 176 MHz / 192 MHz family changes, the equaliser gets the new rate, the rate bookkeeping is reset, and the invariant is restored |
| UsbAudio.AudioDevice.SetVolume | firmware/foxdac/usb_spdif.c:529-540 | the raw volume is stored, its gain is the table entry at VolumeIndex, and nothing else changes |
| UsbAudio.AudioDevice.SetCurrentRequest | firmware/foxdac/usb_spdif.c:588-604 | a SET CUR is accepted exactly when its data stage has 1..63 bytes; then its fields are recorded and the control OUT transfer started, otherwise nothing changes |
| UsbAudio.AudioDevice.CommandPacket | firmware/foxdac/usb_spdif.c:542-574 | the recorded command is cleared and applied: mute, volume through SetVolume, or a new sample rate through Reconfigure (only when it differs); without a new rate the rate, clock and SOF state are unchanged, and the gain changes only on a volume command; the status stage is always sent |
| UsbAudio.AudioDevice.SetupRequest | firmware/foxdac/usb_spdif.c:606-656 | non-class requests are refused; class requests are dispatched by bRequest to SET CUR, GET CUR or GET MIN/MAX/RES, with the reply and acceptance those define; nothing but the pending command changes, and the SOF state and pool rate are untouched |
| UsbAudio.UnlistedRateReadsBack44k1 | firmware/foxdac/usb_spdif.c:497-505 | a host that writes 22050 Hz reads back 44100 Hz (0x44 0xac 0x00) |
| UsbAudio.Samples | firmware/foxdac/usb_spdif.c:330-333 | a packet of n bytes holds n / 2 samples, each an int16 |
| UsbAudio.SamplesReencode | firmware/foxdac/usb_spdif.c:333 | the copy is exact: every sample re-encodes to the two bytes it came from |
| UsbAudio.AudioPacket | firmware/foxdac/usb_spdif.c:314-350 | sample_count is data_len / 4; the output buffer is the packet's samples run through the equaliser reference for that many frames, and the equaliser state is that reference's final state |
| BiquadEq.NarrowWiden | firmware/foxdac/dsp/biquad_eq.c:110-126 | widening an int16 sample to Q31 (`<< 16`) and narrowing it back (`>> 16`, cast to int16) gives back the sample |
| BiquadEq.ChannelBlock | firmware/foxdac/dsp/biquad_eq.c:108-111 | the block handed to the kernels holds exactly 16 samples, channel c's of block i, widened |
| BiquadEq.InterleaveAt | firmware/foxdac/dsp/biquad_eq.c:124-127 | frame m of the interleaved output holds channel 0's and channel 1's narrowed sample m |
| BiquadEq.InterleaveAppend | firmware/foxdac/dsp/biquad_eq.c:105-128 | interleaving block by block is interleaving the whole channels |
| BiquadEq.WriteBlockOutside | firmware/foxdac/dsp/biquad_eq.c:126 | writing block i leaves every sample outside block i alone |
| BiquadEq.WriteBlockSlot | firmware/foxdac/dsp/biquad_eq.c:126 | writing block i puts the two narrowed samples m in frame m of that block |
| BiquadEq.RunStep | firmware/foxdac/dsp/biquad_eq.c:105-128 | one more block of the reference is channel 0's pass, then channel 1's pass, written into block i |
| BiquadEq.RunStepBuffer | firmware/foxdac/dsp/biquad_eq.c:105-128 | appending one block's output to both channels is writing that block into the buffer |
| BiquadEq.BlockUntouched | firmware/foxdac/dsp/biquad_eq.c:105-111 | when block i is read, the earlier blocks' writes have not touched it, so the kernels see the original input |
| BiquadEq.OutputFrame | firmware/foxdac/dsp/biquad_eq.c:102-130 | frame f of the processed buffer holds each channel's own filtered sample f, narrowed |
| BiquadEq.TailUntouched | firmware/foxdac/dsp/biquad_eq.c:103-105 | only the first len / 16 * 16 frames are rewritten; a length below 16 changes nothing |
| BiquadEq.RunChannelReadsOwnChannel | firmware/foxdac/dsp/biquad_eq.c:106-119 | a channel's filter run reads only that channel's samples |
| BiquadEq.ChannelsIndependent | firmware/foxdac/dsp/biquad_eq.c:75-76 | the two channels share coefficients but not state: changing one channel's input changes neither the other's output nor its state |
| BiquadEq.RunChannelIdentity | firmware/foxdac/dsp/biquad_eq.c:108-111 | with pass-through kernels a channel's output is its widened input |
| BiquadEq.WideningRoundTrip | firmware/foxdac/dsp/biquad_eq.c:107-127 | with pass-through kernels the Q15 to Q31 to Q15 trip returns the buffer unchanged |
| BiquadEq.IdentityFrame | firmware/foxdac/dsp/biquad_eq.c:107-127 | with pass-through kernels each frame comes back as it went in |
| BiquadEq.WrittenKeepsOther | firmware/foxdac/dsp/biquad_eq.c:125-127 | writing channel c's block leaves the other channel's block as it was |
| BiquadEq.WriteBlockStep | firmware/foxdac/dsp/biquad_eq.c:106-128 | writing channel 0 and then channel 1 into block i is writing the whole block |
| BiquadEq.BlockPasses | firmware/foxdac/dsp/biquad_eq.c:106-128 | one iteration of the block loop, on sequences, takes the reference from block i to block i + 1 |
| BiquadEq.ClipQ63ToQ31 | firmware/foxdac/dsp/biquad_eq.c:63-67 | saturation: a Q31 value passes unchanged, larger values give Q31_MAX, smaller ones Q31_MIN |
| BiquadEq.StoreCoeffs | firmware/foxdac/dsp/biquad_eq.c:63-67 | every stored coefficient is the designed value saturated into Q31 |
| BiquadEq.Equaliser.Init | firmware/foxdac/dsp/biquad_eq.c:70-100 | the coefficients are the saturated designed values, and both channels' state starts at zero |
| BiquadEq.Equaliser.WidenBlock | firmware/foxdac/dsp/biquad_eq.c:108-111 | the scratch block becomes channel c's block i, widened; the samples are not changed |
| BiquadEq.Equaliser.FilterBlock | firmware/foxdac/dsp/biquad_eq.c:114-119 | the scratch block and channel c's state become what scaling and the biquad stage give; the other channel's state is kept |
| BiquadEq.Equaliser.NarrowBlock | firmware/foxdac/dsp/biquad_eq.c:124-127 | the scratch block is narrowed into channel c's slots of block i, and nothing else in the buffer changes |
| BiquadEq.Equaliser.ChannelPass | firmware/foxdac/dsp/biquad_eq.c:106-128 | one channel pass writes ChannelStep's output into channel c's slots and its new state into channel c's region |
| BiquadEq.Equaliser.ProcessInPlace | firmware/foxdac/dsp/biquad_eq.c:102-130 | the buffer and both state regions end where the two-channel reference Run leaves them after len / 16 blocks |
| BiquadEq.Equaliser.BlockStep | firmware/foxdac/dsp/biquad_eq.c:105-129 | one block-loop iteration moves the state from block i to block i + 1 of the reference |
| Encoder.SatAdd | firmware/foxdac/drivers/encoder/encoder.c:72-75 | adding two non-negative int32 times saturates at INT32_MAX instead of wrapping |
| Encoder.Phase | firmware/foxdac/drivers/encoder/encoder.c:32-35 | each pin state has a position 0..3 in the clockwise cycle 00, 10, 11, 01 |
| Encoder.TransitionTable | firmware/foxdac/drivers/encoder/encoder.c:112-196 | with microsteps on, a change one phase clockwise counts +1 and one phase counter-clockwise counts -1, both ways round, and anything else keeps the direction; with microsteps off only 10 to 11 and 01 to 11 can count; in both modes a pair with no change or with both pins changing counts nothing and keeps the direction; the direction stays a valid one |
| Encoder.PinLevel | firmware/foxdac/drivers/encoder/encoder.c:94-95 | the intended pin level is 0 or 1, and 1 exactly when the pin's bit is set |
| Encoder.StoredPinFinding | firmware/foxdac/drivers/encoder/encoder.c:94-95 | as written, stateA and stateB are 0 for every received word, even when the pin is high |
| Encoder.Counted | firmware/foxdac/drivers/encoder/encoder.c:67-87 | a microstep changes the count by one (int32 wrap-around), records the signed time, clears the microstep time and adds to the cumulative time, saturating |
| Encoder.Step | firmware/foxdac/drivers/encoder/encoder.c:91-196 | handling one received word keeps every counter in its C range |
| Encoder.Drain | firmware/foxdac/drivers/encoder/encoder.c:90-197 | draining the FIFO keeps every counter in its C range |
| Encoder.Word | firmware/foxdac/drivers/encoder/encoder.c:23-30 | the word's bits 28..29 hold the old pin state, bits 30..31 the new one, and bits 0..27 the time |
| Encoder.StepWord | firmware/foxdac/drivers/encoder/encoder.c:89-196 | one word moves the count and direction as the transition table says, and a counted step clears the accumulated microstep time |
| Encoder.ClockwiseDetent | firmware/foxdac/drivers/encoder/encoder.c:112-196 | a full clockwise detent with microsteps off adds exactly one to the count and leaves no direction pending |
| Encoder.CounterClockwiseDetent | firmware/foxdac/drivers/encoder/encoder.c:112-196 | a full counter-clockwise detent with microsteps off subtracts exactly one |
| Encoder.ReversedDetent | firmware/foxdac/drivers/encoder/encoder.c:133-195 | a detent started and turned back leaves the count alone and clears the direction |
| Encoder.DrainFour | firmware/foxdac/drivers/encoder/encoder.c:90-197 | draining four words is four single steps in order |
| Encoder.DrainTwo | firmware/foxdac/drivers/encoder/encoder.c:90-197 | draining two words is two single steps in order |
| Encoder.Delta | firmware/foxdac/drivers/encoder/encoder.c:219-224 | the reported delta is an int32 congruent to minus the count change |
| Encoder.DeltasTelescope | firmware/foxdac/drivers/encoder/encoder.c:219-224 | successive deltas add up, as int32, to the delta over the whole interval; asking twice without movement gives 0 |
| Encoder.QuadEncoder.constructor | firmware/foxdac/drivers/encoder/encoder.c:47-63 | all counters start at zero, with no direction and microsteps off |
| Encoder.QuadEncoder.MicrostepUp | firmware/foxdac/drivers/encoder/encoder.c:67-76 | the counters become Counted with step +1 |
| Encoder.QuadEncoder.MicrostepDown | firmware/foxdac/drivers/encoder/encoder.c:78-87 | the counters become Counted with step -1 |
| Encoder.QuadEncoder.HandleWord | firmware/foxdac/drivers/encoder/encoder.c:91-196 | the counters become Step of the old counters and the word |
| Encoder.QuadEncoder.Dispatch | firmware/foxdac/drivers/encoder/encoder.c:112-196 | the switch counts and sets the direction exactly as the transition table says |
| Encoder.QuadEncoder.Interrupt | firmware/foxdac/drivers/encoder/encoder.c:89-198 | the counters become Drain of the old counters and the FIFO's words, oldest first |
| Encoder.QuadEncoder.GetDelta | firmware/foxdac/drivers/encoder/encoder.c:219-224 | returns Delta of the count since the last capture and captures the count; the counters are unchanged |
| Tpa6130.ClearMuteBits | firmware/foxdac/drivers/tpa6130/tpa6130.c:165 | clearing the mute bits keeps bits 5..0 and every bit above bit 7, and leaves bits 7 and 6 clear |
| Tpa6130.ClearedStep | firmware/foxdac/drivers/tpa6130/tpa6130.c:182 | read as int8_t, with the mute bits cleared and stored as int8_t again, every register byte gives its volume step |
| Tpa6130.VolumeByte | firmware/foxdac/drivers/tpa6130/tpa6130.c:128-143 | the written byte is muted exactly when the volume is 0 or below; its step is the volume clamped to 0..63 |
| Tpa6130.Increased | firmware/foxdac/drivers/tpa6130/tpa6130.c:180-186 | after an increase the register is a byte and unmuted |
| Tpa6130.Decreased | firmware/foxdac/drivers/tpa6130/tpa6130.c:192-198 | after a decrease the register is a byte |
| Tpa6130.StepBounds | firmware/foxdac/drivers/tpa6130/tpa6130.c:176-198 | increasing adds one step and stops at 63, and turns mute into step 1; decreasing removes one step and mutes from step 1 or below |
| Tpa6130.DecreaseUndoesIncrease | firmware/foxdac/drivers/tpa6130/tpa6130.c:176-198 | a decrease undoes an increase from every step below the top and from mute; from the unmuted step 0 it comes back muted |
| Tpa6130.DacVolumeAsWritten | firmware/foxdac/drivers/tpa6130/tpa6130.c:158-167 | the display volume as the code computes it is a byte |
| Tpa6130.DacVolume | firmware/foxdac/drivers/tpa6130/tpa6130.c:155-167 | the intended display volume is 0..255, 0 exactly at step 0 and 255 exactly at step 63 |
| Tpa6130.DacVolumeMonotone | firmware/foxdac/drivers/tpa6130/tpa6130.c:155-167 | the display volume grows with the step |
| Tpa6130.DacVolumeFinding | firmware/foxdac/drivers/tpa6130/tpa6130.c:165-166 | the code and the intended value agree on every unmuted register; the muted register 0xC0 reads 36 instead of 0 |
| Tpa6130.WithShutdown | firmware/foxdac/drivers/tpa6130/tpa6130.c:109-112 | shut-down sets bit 0 and keeps the other bits |
| Tpa6130.WithoutShutdown | firmware/foxdac/drivers/tpa6130/tpa6130.c:116-119 | power-up clears bit 0 and keeps the other bits |
| Tpa6130.ShutdownPowerupInverse | firmware/foxdac/drivers/tpa6130/tpa6130.c:106-119 | power-up undoes shut-down on a running register, and shut-down undoes power-up on a shut-down one |
| Tpa6130.Amplifier.Reset | firmware/foxdac/drivers/tpa6130/tpa6130.c:55-60 | the four registers hold their reset defaults |
| Tpa6130.Amplifier.ReadReg | firmware/foxdac/drivers/tpa6130/tpa6130.c:97-104 | a read returns the register's byte |
| Tpa6130.Amplifier.WriteReg | firmware/foxdac/drivers/tpa6130/tpa6130.c:92-95 | a write changes that register only |
| Tpa6130.Amplifier.GetVolume | firmware/foxdac/drivers/tpa6130/tpa6130.c:149-152 | the volume register read as int8_t, congruent to the stored byte |
| Tpa6130.Amplifier.DacGetVolume | firmware/foxdac/drivers/tpa6130/tpa6130.c:158-167 | the corrected display volume: 0..255, and 0 exactly when the step is 0 |
| Tpa6130.Amplifier.Shutdown | firmware/foxdac/drivers/tpa6130/tpa6130.c:109-112 | read-modify-write of the control register with bit 0 set; no other register changes |
| Tpa6130.Amplifier.Powerup | firmware/foxdac/drivers/tpa6130/tpa6130.c:116-119 | read-modify-write of the control register with bit 0 cleared; no other register changes |
| Tpa6130.Amplifier.SetVolume | firmware/foxdac/drivers/tpa6130/tpa6130.c:128-143 | the volume register becomes VolumeByte(volume); no other register changes |
| Tpa6130.Amplifier.DacSetVolume | firmware/foxdac/drivers/tpa6130/tpa6130.c:171-174 | the uint8_t volume goes through int8_t, so 0 and 128..255 mute the amplifier |
| Tpa6130.Amplifier.IncreaseVolume | firmware/foxdac/drivers/tpa6130/tpa6130.c:180-186 | the volume register becomes Increased of its old value |
| Tpa6130.Amplifier.DecreaseVolume | firmware/foxdac/drivers/tpa6130/tpa6130.c:192-198 | the volume register becomes Decreased of its old value |
| Tpa6130.Amplifier.Init | firmware/foxdac/drivers/tpa6130/tpa6130.c:201-221 | the version register is read; then both headphone channels are enabled and the volume is unmuted at step 10 |
| Wm8805.ReadAddress | firmware/foxdac/drivers/wm8805/wm8805.c:46-57 | the address byte of a read has bit 7 set and keeps the register number in bits 6..0 |
| Wm8805.WriteAddress | firmware/foxdac/drivers/wm8805/wm8805.c:60-67 | the address byte of a write has bit 7 clear and keeps the register number in bits 6..0 |
| Wm8805.AddressBits | firmware/foxdac/drivers/wm8805/wm8805.c:19 | a read and a write to the same register differ in bit 7 alone |
| Wm8805.InputSelect | firmware/foxdac/drivers/wm8805/wm8805.c:148-150 | the clock register byte has bits 4 and 3 set and the input's low three bits below them |
| Wm8805.InputSelectLowBits | firmware/foxdac/drivers/wm8805/wm8805.c:149 | two input numbers select the same byte exactly when their low three bits agree |
| Wm8805.RateCode | firmware/foxdac/drivers/wm8805/wm8805.c:292 | the indicated rate code is SPDSTAT bits 5..4 read as a two-bit number |
| Wm8805.RateCodeDecoding | firmware/foxdac/drivers/wm8805/wm8805.c:296-324 | each code records a different fs, and the 192 kHz mode (register 29 = 128) is enabled exactly when fs becomes 192 |
| Wm8805.SampleRateTextCases | firmware/foxdac/drivers/wm8805/wm8805.c:157-205 | the text depends on fs for code 0 only, where it is 192 kHz exactly when fs is 192; two codes share a text only then; "N/A" means code 1 |
| Wm8805.WithPllDefaults | firmware/foxdac/drivers/wm8805/wm8805.c:245-248 | the PLL registers hold N = 7 and K = 0x36FD21, and every other register keeps its value |
| Wm8805.InitState | firmware/foxdac/drivers/wm8805/wm8805.c:69-135 | after start-up the PLL holds the default setting, input 3 (TOSLINK) is selected with CLKOUT off, only the unlock and rate-change interrupts are unmasked, the chip is powered up, and unwritten registers are kept |
| Wm8805.Receiver.PowerOn | firmware/foxdac/drivers/wm8805/wm8805.c:152-155 | the chip holds its device ID; fs and the PLL mode are 0 and the rate text is "N/A" |
| Wm8805.Receiver.WriteReg | firmware/foxdac/drivers/wm8805/wm8805.c:60-67 | the register addressed by the low seven bits takes the byte; nothing else changes |
| Wm8805.Receiver.ReadReg | firmware/foxdac/drivers/wm8805/wm8805.c:46-57 | a read returns the byte of the register addressed by the low seven bits |
| Wm8805.Receiver.Init | firmware/foxdac/drivers/wm8805/wm8805.c:137-146 | the registers become the start-up sequence's writes over the old ones, and the device ID is returned |
| Wm8805.Receiver.SetInput | firmware/foxdac/drivers/wm8805/wm8805.c:148-150 | the clock register becomes InputSelect(input); nothing else changes |
| Wm8805.Receiver.PollIntstat | firmware/foxdac/drivers/wm8805/wm8805.c:207-341 | an unlock seen twice retunes the PLL and shows "PLL ERROR"; a rate change records fs, sets the 192 kHz mode and shows the new rate text when it differs; without the bits nothing changes |
| Wm8805.Receiver.CheckUnlock | firmware/foxdac/drivers/wm8805/wm8805.c:216-261 | the PLL is retuned, the mode set to 1 and "PLL ERROR" shown exactly when both SPDSTAT reads report the receiver unlocked |
| Wm8805.Receiver.RateChanged | firmware/foxdac/drivers/wm8805/wm8805.c:289-338 | fs and register 29 follow the rate code, the text follows register 16, and the display gets the text only when it changed |
| Uac2.ClockReplies | firmware/foxdac/uac2/uac2.c:261-296 | the clock answers exactly sampling-frequency CUR and RANGE and clock-valid CUR: the rate 48000 as four bytes, one subrange 48000..48000 with resolution 0, and the valid flag 1 |
| Uac2.VolumeRangeReply | firmware/foxdac/uac2/uac2.c:299-332 | the feature unit answers exactly mute CUR and volume CUR on a channel that has an entry, and volume RANGE; the range reply is the fixed one-subrange layout |
| Uac2.VolumeRangeFields | firmware/foxdac/uac2/uac2.c:311-316 | the range reply reads back as one subrange from -12800 (-50 dB) to 0 in steps of 256 (1 dB) |
| Uac2.GetEntity | firmware/foxdac/uac2/uac2.c:375-389 | GET goes to the clock or the feature unit by entity ID; any other entity is refused, and so is a mute or volume CUR on a channel without an entry |
| Uac2.ChannelUncheckedFinding | firmware/foxdac/uac2/uac2.c:346-356 | whether the firmware accepts a SET does not depend on the channel number, so a mute SET on channel 3 of a two-channel headset is accepted although it has no entry |
| Uac2.MuteReadsBack | firmware/foxdac/uac2/uac2.c:305-346 | a stored mute byte reads back unchanged through GET CUR on the same channel |
| Uac2.VolumeReadsBack | firmware/foxdac/uac2/uac2.c:323-356 | a stored volume reads back as the same two bytes through GET CUR on the same channel |
| Uac2.MonoProperties | firmware/foxdac/uac2/uac2.c:497-499 | the downmix is (L + R) / 2 truncated toward zero, always an int16 between the two channels, within half a step of the exact mean, symmetric, and the identity on equal channels |
| Uac2.MonoCount | firmware/foxdac/uac2/uac2.c:491-500 | the loop writes about spk_data_size / 4 mono samples, exactly that when the size is a multiple of 4 |
| Uac2.SineSampleHalves | firmware/foxdac/uac2/uac2.c:188 | with vol = 128 the unsigned product and shift give every table value halved, floor-rounded, within int16 |
| Uac2.PhaseAt | firmware/foxdac/uac2/uac2.c:120-122 | the reduced phase stays below pos_max, so the table index pos >> 16 stays in 0..2047 |
| Uac2.PhaseStep | firmware/foxdac/uac2/uac2.c:190-191 | one step plus at most one subtraction of pos_max lands on the next reduced phase |
| Uac2.Headset.constructor | firmware/foxdac/uac2/uac2.c:80-123 | mute and volume hold one zeroed entry per channel plus the master, nothing is pending and the phase is 0 |
| Uac2.Headset.FeatureUnitSet | firmware/foxdac/uac2/uac2.c:335-368 | a SET is accepted exactly for CUR with a one-byte mute or two-byte volume payload on a channel that has an entry, and then stores it in the addressed channel only; a refused SET changes nothing |
| Uac2.Headset.SetEntity | firmware/foxdac/uac2/uac2.c:392-403 | only the feature unit takes SET, and only on a channel that has an entry; an accepted SET reads back through GET as the same payload, and other channels are untouched |
| Uac2.Headset.AudioTask | firmware/foxdac/uac2/uac2.c:485-504 | with data pending, the microphone buffer gets the mono downmix of each frame and spk_data_size / 2 bytes are handed on; the pending size is cleared; with nothing pending nothing changes |
| Uac2.Headset.SineFill | firmware/foxdac/uac2/uac2.c:185-192 | both samples of every frame are the table entry at that frame's phase, the phase advances one step per frame, and the rest of the buffer is kept |
| Uac2.Headset.RxDonePreRead | firmware/foxdac/uac2/uac2.c:431-468 | the buffer is marked with n_bytes_received / 4 frames, each holding the tone, and the phase advances by that many steps |
| Uac2.Headset.LoopSine | firmware/foxdac/uac2/uac2.c:167-201 | a whole pool buffer is filled with the tone, and the phase advances by its frame count |
| EqCurve.BandAfterProperties | firmware/foxdac/ui/eq_curve.c:69-78 | the new band value always lies in 0..40; without int32 overflow it is the old value plus the delta, clamped; a positive delta never lowers an in-range value and a negative one never raises it |
| EqCurve.CursorAfter | firmware/foxdac/ui/eq_curve.c:131-132 | the cursor always names one of the eight bands |
| EqCurve.CursorCycles | firmware/foxdac/ui/eq_curve.c:131-132 | after k presses the cursor is at (band + k) mod 8 |
| EqCurve.CursorFullTurn | firmware/foxdac/ui/eq_curve.c:131-132 | eight presses bring the cursor back, and every band is reached from every band within seven presses |
| EqCurve.CursorReaches | firmware/foxdac/ui/eq_curve.c:131-132 | (b - band) mod 8 presses lead from band to b |
| EqCurve.LoadGains | firmware/foxdac/ui/eq_curve.c:55-59 | the load makes one stage-gain call per band, in band order, each with the band's value minus 20 dB |
| EqCurve.EqEditor.constructor | firmware/foxdac/ui/eq_curve.c:27-36 | the statics start with band 0 selected, the encoder not paused, the timer stopped and no calls made |
| EqCurve.EqEditor.Store | firmware/foxdac/ui/eq_curve.c:44-50 | every band is copied into the persisted bytes, which are written once |
| EqCurve.EqEditor.PersistRead | firmware/foxdac/ui/eq_curve.c:53 | the persisted bytes become the read data when all eight bytes were read, and the defaults otherwise |
| EqCurve.EqEditor.Load | firmware/foxdac/ui/eq_curve.c:52-64 | every band takes the loaded byte unclamped and gets its gain in band order, followed by one coefficient update |
| EqCurve.EqEditor.Init | firmware/foxdac/ui/eq_curve.c:89-129 | the defaults become 20 for every band, the timer is paused, and the stored curve (or the defaults, after a short read) is loaded |
| EqCurve.EqEditor.Update | firmware/foxdac/ui/eq_curve.c:66-87 | a zero delta changes nothing and makes no call; otherwise only the selected band moves to BandAfter, followed by exactly one gain call, one coefficient update and one store of all bands |
| EqCurve.EqEditor.NextBand | firmware/foxdac/ui/eq_curve.c:131-135 | the cursor moves one band on, wrapping after band 7 |
| EqCurve.EqEditor.Start | firmware/foxdac/ui/eq_curve.c:137-142 | the input driver's encoder polling is paused, the pending encoder delta is discarded, and the timer runs |
| EqCurve.EqEditor.Stop | firmware/foxdac/ui/eq_curve.c:144-148 | encoder polling is handed back and the timer is paused |
| LvPortDisp.BitOf | firmware/foxdac/ui/lv_port_disp.c:159-161 | the shift amount y % 8 is a bit number 0..7 |
| LvPortDisp.BitOfSame | firmware/foxdac/ui/lv_port_disp.c:159-161 | two rows use the same bit exactly when they agree modulo 8 |
| LvPortDisp.PixelByteBits | firmware/foxdac/ui/lv_port_disp.c:158-162 | exactly the addressed bit changes, and it becomes 1 for colour 1 and 0 otherwise |
| LvPortDisp.PixelIndex | firmware/foxdac/ui/lv_port_disp.c:159 | the byte index x + (y / 8) * buf_w is never negative |
| LvPortDisp.PixelAddressesDistinct | firmware/foxdac/ui/lv_port_disp.c:159 | two pixels of one buffer with the same byte and the same bit are the same pixel |
| LvPortDisp.SetPx | firmware/foxdac/ui/lv_port_disp.c:154-163 | only byte x + (y / 8) * buf_w changes, and only its bit y % 8, set for colour 1 and cleared for any other colour |
| LvPortDisp.SetPxEffect | firmware/foxdac/ui/lv_port_disp.c:154-163 | afterwards the pixel shows the colour and every other pixel of the buffer looks as before |
| LvPortDisp.RoundingProperties | firmware/foxdac/ui/lv_port_disp.c:192-195 | the rounded rows start and end a page, contain the original row and stay within lv_coord_t; rounding again changes nothing |
| LvPortDisp.Rounder | firmware/foxdac/ui/lv_port_disp.c:192-195 | y1 is rounded down to a page start and y2 up to a page end; x1 and x2 are untouched |
| LvPortDisp.EnoughFromProduct | firmware/foxdac/ui/lv_port_disp.c:171-184 | a buffer of rows x width bytes holds a slice for every page row |
| LvPortDisp.FlushStep | firmware/foxdac/ui/lv_port_disp.c:175-184 | one row of the flush sends its four transfers with the next width bytes, and the rest of the flush continues width bytes further on |
| LvPortDisp.PayloadAppend | firmware/foxdac/ui/lv_port_disp.c:181 | the data sent by two runs of transfers is the data of the first followed by that of the second |
| LvPortDisp.PayloadRow | firmware/foxdac/ui/lv_port_disp.c:177-181 | the transfers for one row carry exactly that row's data |
| LvPortDisp.FlushLength | firmware/foxdac/ui/lv_port_disp.c:175-184 | a flush sends four transfers per page row |
| LvPortDisp.FlushPayload | firmware/foxdac/ui/lv_port_disp.c:173-184 | the data a flush sends is the first rows x width bytes of the buffer, each once and in order |
| LvPortDisp.FlushPayloadLength | firmware/foxdac/ui/lv_port_disp.c:181-183 | the data a flush sends is rows x width bytes long |
| LvPortDisp.FlushPayloadPrefix | firmware/foxdac/ui/lv_port_disp.c:173-183 | the data a flush sends is a prefix of the buffer |
| LvPortDisp.ColumnAddress | firmware/foxdac/ui/lv_port_disp.c:176-179 | the low- and high-nibble commands put back together address column x1 + 2 |
| LvPortDisp.Display.Flush | firmware/foxdac/ui/lv_port_disp.c:168-190 | while drawing is paused nothing is sent; otherwise each page row from y1 >> 3 to y2 >> 3 goes out with its commands and its slice of the buffer; flush-ready is signalled either way |
| LvPortDisp.Display.SendRows | firmware/foxdac/ui/lv_port_disp.c:175-184 | the bus gets exactly the transfers of page rows row1 .. row2, each with the next width bytes of the buffer |
| Rle.Pairs | firmware/foxdac/ui/badapple.c:30 | the loop reads no pair for a length of zero or less, and otherwise enough pairs to cover the length, one more than half of it when it is odd |
| Rle.Expand | firmware/foxdac/ui/badapple.c:30-35 | a run list stands for as many bytes as its counts add up to, all of them bytes |
| Rle.ExpandAppend | firmware/foxdac/ui/badapple.c:30-35 | decoding two run lists one after the other writes the output of the first followed by that of the second |
| Rle.ExpandSnoc | firmware/foxdac/ui/badapple.c:34 | one more run adds count copies of its byte at the end |
| Rle.RunTotalPrefix | firmware/foxdac/ui/badapple.c:33 | the running total after some of the pairs never exceeds the final total |
| Rle.Fill | firmware/foxdac/ui/badapple.c:34 | the inner loop writes exactly n copies of c from the output position on and touches nothing beyond them |
| Rle.Decode | firmware/foxdac/ui/badapple.c:25-38 | rle_decode writes the expansion of the pairs it reads to the start of the output, leaves the rest untouched, and returns the number of bytes written |
| Rle.DecodeStep | firmware/foxdac/ui/badapple.c:31-34 | reading one more pair adds its count to the total and its run to the output |
| Rle.PairStep | firmware/foxdac/ui/badapple.c:31-34 | a run list is the list without its last pair followed by that pair |
| Rle.RunLength | firmware/foxdac/ui/badapple.c:34 | the length of a leading run of one byte, capped so that the count fits a uint8_t |
| Rle.Encode | firmware/foxdac/ui/badapple.c:25-38 | an encoder for the format produces whole pairs whose counts are all 1 to 255 |
| Rle.ExpandEncode | firmware/foxdac/ui/badapple.c:25-38 | decoding what the encoder produced gives back the frame exactly |
| Rle.EncodeStep | firmware/foxdac/ui/badapple.c:25-38 | the encoder's first pair covers a non-empty prefix and the rest is encoded on its own |
| Rle.RunExpands | firmware/foxdac/ui/badapple.c:34 | a leading pair from the encoder expands to the bytes it covers |
| Rle.FrameLen | firmware/foxdac/ui/badapple.c:72 | the big-endian length header of a frame is a 16-bit value |
| Rle.HeaderReadsBack | firmware/foxdac/ui/badapple.c:72 | a header written for any 16-bit length reads back as that length |
| Rle.NextIdx | firmware/foxdac/ui/badapple.c:75 | the next frame starts after this frame's runs and the next header |
| Rle.FrameRuns | firmware/foxdac/ui/badapple.c:74 | the runs of a frame that fits are whole pairs that expand to no more than the buffer |
| Rle.PosAfter | firmware/foxdac/ui/badapple.c:75 | walking frames never moves the read index backwards |
| Rle.ChainSplit | firmware/foxdac/ui/badapple.c:72-77 | after k frames of a chain of n, n - k frames remain, and one more frame is NextIdx of the current position |
| BadApple.FramesFrom | firmware/foxdac/ui/badapple.c:79 | no frame is left to play exactly when the read index is at or past the end of the video |
| BadApple.PlayablePos | firmware/foxdac/ui/badapple.c:72-82 | after k played frames the rest of the video still plays and holds k frames fewer |
| BadApple.NextFramePos | firmware/foxdac/ui/badapple.c:75-79 | stepping past frame k runs off the video exactly when k was the last frame, and otherwise lands on a frame that fits the screen buffer |
| BadApple.Player.constructor | firmware/foxdac/ui/badapple.c:18-20 | the player starts at offset 2, frame 0, not running, with the timer created paused |
| BadApple.Player.Start | firmware/foxdac/ui/badapple.c:40-51 | LVGL drawing is paused, the timer runs and playback restarts from the first frame |
| BadApple.Player.Stop | firmware/foxdac/ui/badapple.c:53-67 | LVGL drawing resumes, the timer is paused and the player rewinds to the first frame |
| BadApple.Player.DecodeFrame | firmware/foxdac/ui/badapple.c:72-74 | the frame's length comes from its header and its runs are expanded into the screen buffer, the rest of which is untouched |
| BadApple.Player.NextFrame | firmware/foxdac/ui/badapple.c:69-85 | the frame is decoded into the screen buffer; after the last frame the player stops without pushing it, otherwise it moves to the next frame and pushes the buffer to the panel |
| BadApple.Player.Advance | firmware/foxdac/ui/badapple.c:75-79 | the read index steps past the frame and the counter counts it; the index runs off the video exactly after the last frame |
| FrameDec.HostPlayer.constructor | firmware/foxdac/ui/framedec.c:8-11 | the decoder starts at offset 2, frame 0, not running |
| FrameDec.HostPlayer.Start | firmware/foxdac/ui/framedec.c:27-32 | playback restarts from the first frame |
| FrameDec.HostPlayer.Stop | firmware/foxdac/ui/framedec.c:34-39 | the decoder rewinds to the first frame and stops running |
| FrameDec.HostPlayer.DecodeFrame | firmware/foxdac/ui/framedec.c:42-44 | the frame is expanded into the 1024-byte buffer and the decoder's result is the number of bytes written |
| FrameDec.HostPlayer.NextFrame | firmware/foxdac/ui/framedec.c:41-52 | the frame is decoded and counted; the 5257th frame stops and rewinds playback, any earlier one moves to the next frame |
| FrameDec.HostPlayer.Advance | firmware/foxdac/ui/framedec.c:45-47 | the read index steps past the frame and the counter counts it |
| Breakout.BitOfOr | firmware/foxdac/ui/breakout.c:222 | setting a brick's bit marks that brick broken and leaves every other brick of the row as it was |
| Breakout.Count | firmware/foxdac/ui/breakout.c:57 | a row of n columns has between 0 and n broken bricks |
| Breakout.CountSet | firmware/foxdac/ui/breakout.c:222-223 | breaking a whole brick adds exactly one to its row's count |
| Breakout.Broken | firmware/foxdac/ui/breakout.c:57 | a wall of r rows has at most 7r broken bricks |
| Breakout.BrokenUpdate | firmware/foxdac/ui/breakout.c:222 | changing one row changes the wall's total by that row's difference |
| Breakout.BrokenClear | firmware/foxdac/ui/breakout.c:95-97 | a cleared wall has no broken bricks |
| Breakout.BreakAt | firmware/foxdac/ui/breakout.c:216-233 | the first whole brick the ball overlaps is the one that breaks, and the row changes |
| Breakout.RowAfterProperties | firmware/foxdac/ui/breakout.c:216-235 | in one frame a row either stays as it was or gains exactly one broken brick, a whole one the ball overlaps, and its count then grows by one; a row the ball does not overlap stays |
| Breakout.PaddleAfterProperties | firmware/foxdac/ui/breakout.c:155-159 | the paddle always ends within 1..103, and without int overflow moves two pixels per count unless it reaches an edge, where it stops |
| Breakout.RowStep | firmware/foxdac/ui/breakout.c:213-236 | one row's brick test keeps bricks_broken equal to the number of broken bricks, and changes nothing when the ball overlaps no brick of the row |
| Breakout.Game.constructor | firmware/foxdac/ui/breakout.c:57-58 | every brick is whole, no game is on, the ball rests and the refresh timer is paused |
| Breakout.Game.InitPaddlePos | firmware/foxdac/ui/breakout.c:71-82 | the ball comes to rest and the paddle goes to its home position |
| Breakout.Game.ClearRows | firmware/foxdac/ui/breakout.c:95-97 | every brick row is cleared, so no brick counts as broken |
| Breakout.Game.Start | firmware/foxdac/ui/breakout.c:89-106 | the encoder and display are taken from LVGL, microsteps are counted, the pending delta is dropped, the wall is cleared and a game starts with three lives and the timer running |
| Breakout.Game.Stop | firmware/foxdac/ui/breakout.c:108-119 | the timer pauses, the pending delta is dropped, microsteps are no longer counted, the encoder and display go back to LVGL and the game ends |
| Breakout.Game.BreakInRow | firmware/foxdac/ui/breakout.c:216-235 | only the scanned row changes, to the row with its first overlapped whole brick broken, and the uint8_t counter counts it when that happens |
| Breakout.Game.BreakBrick | firmware/foxdac/ui/breakout.c:222-223 | the brick's bit is set and bricks_broken goes up by one modulo 256 |
| Breakout.Game.UpdateBall | firmware/foxdac/ui/breakout.c:177-240 | a fall past the bottom costs a life, rests the ball and leaves the wall alone; otherwise each row loses at most its first overlapped whole brick and the counter still counts exactly the broken bricks |
| Breakout.Game.ScanBricks | firmware/foxdac/ui/breakout.c:213-236 | every row goes through its brick test, and the difference between bricks_broken and the bricks actually broken is unchanged |
| Breakout.Game.DrawPaddle | firmware/foxdac/ui/breakout.c:142-171 | the encoder delta is taken; with no game on a non-zero delta restarts one with three lives; in a game the paddle follows the delta within the screen; a non-zero delta launches a resting ball |
| Breakout.Game.Restart | firmware/foxdac/ui/breakout.c:147-153 | a new game starts with three lives, no broken bricks and the paddle at home |
| Breakout.Game.MovePaddle | firmware/foxdac/ui/breakout.c:156-158 | the paddle moves two pixels per encoder count and is clamped into 1..103 |
| Breakout.Game.CheckWin | firmware/foxdac/ui/breakout.c:242-268 | all 35 bricks broken, or else no lives left, ends the game, and a game that was on gets its wall cleared and its ball rested; otherwise nothing changes |
| Breakout.Game.Frame | firmware/foxdac/ui/breakout.c:270-281 | a frame keeps the game consistent and takes the encoder's delta; in a game on, a fall costs exactly one life, the game stays on exactly while a brick stands and a life is left, a game that ends leaves the wall cleared and the ball at rest, and without a fall each row loses at most the first whole brick the ball overlaps; a game off restarts with 3 lives and no broken bricks on a nonzero delta and otherwise stays off with the wall unchanged |

## Left out

- USB descriptor tables, device and interface registration, `core0_init`, `main` and `core1_worker` (firmware/foxdac/usb_spdif.c:57-247, 658-814). These are static data and hardware bring-up.
- `usb_sof_irq` is not modelled. It returns before doing anything, and the rest of it averages in floating point and races the other core. `rate` therefore changes only on reconfiguration.
- `AUDIO_MAX_PACKET_SIZE` is not modelled. It is unused, and the descriptor that would carry its `uint8_t` truncation hard-codes 384.
- The audio buffer pool (`take_audio_buffer` and `give_audio_buffer`) is outside the shown files. `UsbAudio.AudioDevice.AudioPacket` returns the filled buffer as a fresh array.
- Floating point is not modelled. Where a float result feeds the model, it appears as follows:
  - the Audio-EQ-Cookbook coefficient design in `calc_biquad_peaking_coeff`: only its integer clamp is modelled;
  - `mapRange` in eq_curve.c: taken as `value - 20`, which is exact for integer band values;
  - the Breakout ball's flight, speed and collision tests: "fell past the bottom" and "overlaps brick (row, col)" arrive as boolean inputs each frame;
  - the spectrum view;
  - the generation of the UAC2 cosine table: the table is an input.
- CMSIS-DSP `arm_scale_q31` and `arm_biquad_cascade_df1_q31` are passed to `BiquadEq` as functions.
- `biquad_eq_set_fs`, `biquad_eq_set_stage_gain`, `biquad_eq_update_coeffs` and `biquad_eq_init_core1` are declared but not defined in the shown files. They are recorded as effects, and no multi-band cascade or two-core split is modelled.
- I2C, SPI, GPIO and PIO transfers, bus time-outs and `sleep_ms` are not modelled. Device registers are fields, and what the hardware returns is an input.
- `ENC_DEBOUNCE_TIME` and the PIO program come from `encoder.pio.h`, which is not part of this model. The debounce time is a parameter.
- The SSD1306 driver and `badapple_rle.h` are not part of this model. The screen size (128 x 64) and the video are inputs.
- Concurrency is not modelled: the volatile globals shared between interrupt handlers and the two cores, and the multicore launch. Each handler is one atomic step.
- `count_microsteps` is declared `const` in encoder.c but is written through an `extern volatile bool` by breakout.c. It is modelled as a mutable field of the encoder.
- LVGL screen building, drawing primitives, timers and invalidation, and `lv_port_indev.c` are not modelled. The pause flags and the resumed/paused state of each timer are fields.
- The UAC2 LED-blink callbacks and interface open/close callbacks are not modelled. They only change the blink interval.
- WM8805 INTSTAT bits other than 0 and 7 only print, and are not modelled.
- `persistent_storage.c` is not part of this model. The editor's read is an input: either all eight bytes or a short read.
- UsbAudio.DescriptorString: requires a string index of at least 1. For index 0 the source reads `descriptor_strings[-1]`.
- Wm8805.SampleRateTextCases: the register-16 rate codes that `get_samplerate_str` does not list fall off the end of the C function. The model requires a listed code.
- Wm8805.Receiver.PollIntstat: the firmware decides whether to push new rate text by comparing the addresses of two `const char *` texts. The model compares the contents. The same text can come from two literals ("192 kHz" at firmware/foxdac/drivers/wm8805/wm8805.c:170 and :195, "N/A" at :155 and :162). Where the compiler does not merge identical literals, the firmware pushes the same text again, and the model does not. When INTSTAT bit 7 is set it also requires a listed register-16 code, as `RateChanged` does.
- Wm8805.Receiver.RateChanged: requires a listed register-16 code, as `SampleRateText` does. For any other byte from the chip, `get_samplerate_str` falls off its end (firmware/foxdac/drivers/wm8805/wm8805.c:157-205) and the firmware uses the missing return value at :327.
- Rle.Decode: an odd frame length reads one more pair than half the length, exactly as the C loop does. The model requires those bytes to exist, and requires the expansion to fit the output. The C code checks neither.
- Encoder.SatAdd: the overflow guard `a + b < a` at firmware/foxdac/drivers/encoder/encoder.c:71 and :82 is signed overflow, which C leaves undefined. The model reads it as two's-complement wrap-around.
- UsbAudio.AudioDevice.SetVolume: follows the corrected `VolumeIndex`. For requests of 9472 and above the firmware wraps and stores 0x0001; see the first row under "## Findings" and `UsbAudio.VolumeIndexAsWritten`.
- UsbAudio.AudioDevice.CommandPacket: applies a volume command through `SetVolume`, so it follows the corrected `VolumeIndex` as well.
- Tpa6130.Amplifier.DacGetVolume: follows the corrected `DacVolume`. For the muted register 0xC0 it returns 0 where the firmware returns 36; see `Tpa6130.DacVolumeAsWritten`.
- Encoder.Step: stores the pin levels through the corrected `PinLevel`. The firmware always stores 0; see `Encoder.StoredPinAsWritten`.
- Encoder.Drain: is built from `Step`, so it stores the corrected pin levels.
- Encoder.QuadEncoder.HandleWord: stores the corrected pin levels, as `Step` does.
- Encoder.QuadEncoder.Interrupt: drains the FIFO through `Drain`, so it stores the corrected pin levels.
- Uac2.FeatureUnitGet: refuses a mute or volume GET CUR on a channel without an entry. The firmware reads past `mute[]` or `volume[]` there (firmware/foxdac/uac2/uac2.c:305, :323), which C leaves undefined; see the fourth row under "## Findings".
- Uac2.GetEntity: refuses those requests as `FeatureUnitGet` does.
- Uac2.Headset.FeatureUnitSet: refuses a SET on a channel without an entry. The firmware writes past `mute[]` or `volume[]` there (firmware/foxdac/uac2/uac2.c:346, :356).
- Uac2.Headset.SetEntity: refuses those requests as `FeatureUnitSet` does.
- Breakout.Game.UpdateBall: requires that a ball at rest neither falls nor overlaps a brick. This stands in for the float physics of a ball whose velocity vector is zero.

## Findings

| source | as written | input that shows it | evidently intended | confidence | as-written member | corrected member |
|---|---|---|---|---|---|---|
| firmware/foxdac/usb_spdif.c:532-534 | `volume + 23296` is computed in `int16_t` and wraps for requests above 9471 (+37 dB) | a volume request of 9472 (+37 dB) | the loudest requests clamp to table index 90 (0 dB, 0x7fff) | not executed | UsbAudio.VolumeIndexAsWritten, UsbAudio.VolumeWrapFinding | UsbAudio.VolumeIndex |
| firmware/foxdac/drivers/tpa6130/tpa6130.c:165-166 | the `int8_t` register value is masked after sign extension, so the muted register scales to 36 | volume register 0xC0 (both channels muted, level 0) | mute reads as 0 | not executed | Tpa6130.DacVolumeAsWritten, Tpa6130.DacVolumeFinding | Tpa6130.DacVolume |
| firmware/foxdac/drivers/encoder/encoder.c:94-95 | the pin bit, masked at bit 31 or 30 of the word, is stored in a `uint8_t` and is always 0 | any word with pin A high, e.g. 0x80000000 | the stored pin level is 1 when the pin is high | not executed | Encoder.StoredPinAsWritten, Encoder.StoredPinFinding | Encoder.PinLevel |
| firmware/foxdac/uac2/uac2.c:346-356 | `bChannelNumber` indexes `mute[]` and `volume[]` without a bound check; the arrays have one entry per channel plus the master (lines 80-81), and the GET handlers at lines 305 and 323 do the same | a mute SET CUR on channel 3 of a two-channel headset | a channel without an entry is refused | not executed | Uac2.SetAccepted, Uac2.ChannelUncheckedFinding | Uac2.SetAcceptedIn, Uac2.Headset.SetEntity |
