# cbat: WAVE playback over I2S on a SAMD21, modelled in Dafny

cbat is a bare-metal program for an ItsyBitsy M0 board (an ATSAMD21 microcontroller). It embeds a
16-bit mono WAVE file and plays it forever through the chip's I2S peripheral. This project models
its three parts and proves what each promises:

- **`Wav16`** (`wav.dfy`, from `src/wav.rs`) is pure.
  - `new` drops the 44-byte RIFF/WAVE header.
  - `stream` reads the rest as little-endian signed 16-bit samples.
  - A drained iterator is a `Drained` value: the items it produced, and whether it ended normally
    or panicked at an odd trailing byte.
  - The proofs cover the sample count, each sample's value, the round trip with a little-endian
    encoder, and that the header is ignored.
- **The `I2s` driver** (`i2s.dfy`, from `src/i2s.rs`) is a class over the register block.
  - `init` disables everything, then programs clock unit 0 and serializer 0.
  - `switch`, `enable` and `disable` set all three CTRLA enable bits together.
  - `write` sends a left and a right word.
  - The constants `SLOTS` and `DIVIDE` are checked against the 44.1 kHz target rate.
- **`main`** (`playback.dfy`, from `src/main.rs`) repeats that set-up inline, then runs the loop:
  - a cyclic walk over even byte offsets of the payload;
  - a decode of each 16-bit sample;
  - the widening `((word as i32) << 16) as u32`;
  - two writes of the widened word to the single data register, one per channel.

The register block is the class `Registers.Peripherals` (`registers.dfy`). It holds one field per
register that is touched, plus `trace`, the ordered log of every access. Each register write is a
method. Its `ensures` give the new field values and the appended `Event`. Its `requires` encode
the SAMD21's own rules:

- A GCLK write may not start while the previous one is still synchronising.
- A CTRLA write may not start while SYNCBUSY is set.
- CLKCTRL[0] may be written only while `cken0` is off, and SERCTRL[0] only while `seren0` is off.
- DATA[0] may be written only after the TXRDY0 wait.

Each busy-wait loop of the source is one method: the point at which the hardware has settled. It
appends a wait event and sets the matching "settled" or "ready" flag. The I2S block keeps the
set of CTRLA bits still synchronising. A CTRLA write puts in it the bits the write names. A
SYNCBUSY wait removes the bits it polls: one bit, or all of them for `bits() != 0`. So a
driver or `main` that issued a write before the wait for the bits it depends on would not
verify, and neither would one that waited on a bit its last write did not touch and then
wrote again.

`main` uses neither `I2s` nor `Wav16`. It inlines its own copy of both, so lemmas relate the two:

- `Playback.Setup` leaves CLKCTRL[0] and SERCTRL[0] equal to the driver's `ClockConfig` and
  `SerializerConfig`.
- `Playback.FrameWordIsStreamSample` shows that the loop decodes exactly the samples
  `Wav16::stream` yields.

For example, take four samples 100, -200, 300, -400 played for five frames.
`Playback.FourSampleCycle` shows that any payload decoding to four samples gives the ten words
`W(s0), W(s0), …, W(s3), W(s3), W(s0), W(s0)`. `Wav.StreamEncode` supplies such a payload for any
four samples.

Where the documentation and the code differ, the model follows the code. The doc comment at
`src/wav.rs:10` says `stream` converts to 32-bit depth, but it yields `i16`. The widening happens
only in `main`, at `src/main.rs:177`.

## Model

| member | source | states |
|---|---|---|
| Wav.New | src/wav.rs:6-8 | `Some` exactly when the input has at least 44 bytes (the slice panics otherwise); the payload is 44 bytes shorter than the input |
| Wav.NewSkipsHeader | src/wav.rs:7 | for any 44-byte header, `new` keeps exactly the bytes after it |
| Wav.FromLeBytes | src/wav.rs:13 | the sample is the two's-complement 16-bit reading of `lo + 256 * hi`, negative exactly when the high byte's top bit is set |
| Wav.LeBytesRoundTrip | src/wav.rs:13 | `from_le_bytes` inverts `to_le_bytes` on every `i16` |
| Wav.StreamFrom | src/wav.rs:12-14 | from offset `i`, the step-by-two walk yields `(len - i) / 2` samples (none past the end), and ends normally exactly when it starts past the end or an even number of bytes remain |
| Wav.Stream | src/wav.rs:11-15 | a payload of length `n` yields `n / 2` samples; the iterator panics exactly when `n` is odd |
| Wav.StreamFromShape | src/wav.rs:12-14 | from an even offset `i`, sample `k` is read from bytes `i + 2k` and `i + 2k + 1` |
| Wav.StreamShape | src/wav.rs:11-15 | sample `k` of `stream` is the reading of bytes `2k` and `2k + 1` |
| Wav.StreamIgnoresHeader | src/wav.rs:7-13 | two files differing only in their first 44 bytes stream the same samples |
| Wav.StreamEncode | src/wav.rs:11-15 | decoding a little-endian encoding gives back the samples, with normal termination |
| Wav.RoundTrip | src/wav.rs:6-15 | any 44-byte header followed by an encoded sample sequence comes back from `new` then `stream` unchanged |
| I2sDriver.DivideFromRate | src/i2s.rs:15-16 | `DIVIDE` = 48,000,000 div (44,100 × 32 × `SLOTS`) = 17; the division has a remainder, so the resulting rate is not exactly 44.1 kHz |
| I2sDriver.ClockConfig | src/i2s.rs:67-75 | the number-of-slots field is `SLOTS - 1`, the slots are 32 bits, one-bit I2S delay, master clock from the GCLK, serial clock from the master-clock divider, frame sync from the serial-clock divider |
| I2sDriver.SerializerConfig | src/i2s.rs:78-89 | transmit mode, stereo, 32-bit data, clock unit 0 |
| I2sDriver.I2s.Init | src/i2s.rs:30-101 | accesses in order: HAL clock set-up, I2S bus clock on, a single write clearing all three enable bits, a full sync wait, then CLKCTRL[0] and SERCTRL[0], then another full sync wait; afterwards GCLK3 divides the DFLL48M by `DIVIDE` (enabled, duty-cycle correction on) and feeds I2S0, exactly as `Playback.SetupClocks` leaves them, all three enable bits are off and both registers hold the configuration; TXUR0 and TXRDY are unchanged |
| I2sDriver.I2s.Switch | src/i2s.rs:103-113 | one CTRLA write sets `enable`, `cken0` and `seren0` all to `state`, followed by a full sync wait; CLKCTRL[0] and SERCTRL[0] are unchanged |
| I2sDriver.I2s.Enable | src/i2s.rs:116-118 | all three bits on, configuration unchanged, trace is `switch(true)`'s |
| I2sDriver.I2s.Disable | src/i2s.rs:121-123 | all three bits off, configuration unchanged, trace is `switch(false)`'s |
| I2sDriver.EnableDisableEnable | src/i2s.rs:103-123 | enable, disable, enable, enable needs no re-`init`: after disable the configuration is as before, and a second enable (or a repeated one) reproduces exactly the registers of the first |
| I2sDriver.I2s.Write | src/i2s.rs:127-144 | appends exactly `left` then `right` to the data-register log, each write straight after an underrun clear; enable bits and configuration unchanged; the "cleared before every data write" property is preserved |
| Registers.NoDataWrites | src/main.rs:49-168 | a trace with no DATA[0] write has an empty data log and satisfies the clear-before-write property |
| Registers.SendWordsSpec | src/i2s.rs:129-143 | the wait/clear/write accesses for a word list have its data writes in order and a clear before every write |
| Registers.SendAfter | src/main.rs:180-198 | appending those accesses to any trace appends exactly the words to its data-register log and keeps the clear-before-write property |
| Registers.DataWritesAppend | src/main.rs:173-198 | the data-register log of a concatenated trace is the concatenation of the logs |
| Registers.ClearedBeforeDataAppend | src/main.rs:189-196 | the clear-before-write property survives concatenating traces |
| Registers.Peripherals.Take | src/main.rs:31-37 | the register block as `Peripherals::take` and the clock bootstrap hand it over: GCLK dividers, generator controls and clock routes, CTRLA, CLKCTRL[0], SERCTRL[0] and the underrun flag are the given values; no I2S synchronisation is pending, nothing is ready or settled, and the trace is empty |
| Registers.Peripherals.GclkSync | src/main.rs:49 | the spin on GCLK STATUS.SYNCBUSY ends with the GCLK settled |
| Registers.Peripherals.WriteGendiv | src/main.rs:51-55 | divider `div` recorded for generator `id`; allowed only when GCLK is settled, which it no longer is afterwards |
| Registers.Peripherals.WriteGenctrl | src/main.rs:61-67 | source, IDC and GENEN recorded for generator `id`, under the same synchronisation rule |
| Registers.Peripherals.WriteClockRoute | src/main.rs:73-78 | the peripheral clock is routed from a generator and enabled, under the same synchronisation rule |
| Registers.Peripherals.HalConfigureGclk | src/i2s.rs:41-47 | generator `id` gets divider `div` and source `src`, enabled, with duty-cycle correction `idc`; the call is recorded with its arguments |
| Registers.Peripherals.HalI2s0 | src/i2s.rs:49-50 | the I2S0 peripheral clock is fed from generator `gen` and enabled; the call is recorded |
| Registers.Peripherals.WriteApbcI2s | src/i2s.rs:53 | the I2S bus clock bit of APBCMASK is set |
| Registers.Peripherals.WriteCtrla | src/i2s.rs:56-61 | the named CTRLA bits take their new values and the others keep theirs; allowed only with no synchronisation pending, and leaves exactly the named bits synchronising |
| Registers.Peripherals.I2sSync | src/i2s.rs:64 | the spin on SYNCBUSY ends with the polled bits no longer synchronising; bits it does not poll stay pending |
| Registers.Peripherals.WriteClkctrl0 | src/i2s.rs:67-75 | CLKCTRL[0] takes the new value; allowed only while clock unit 0 is off and settled |
| Registers.Peripherals.WriteSerctrl0 | src/i2s.rs:78-89 | the named SERCTRL[0] fields (format, mode) take their new values; allowed only while serializer 0 is off and settled |
| Registers.Peripherals.WaitTxReady | src/i2s.rs:131-134 | the spin on TXRDY0 and SYNCBUSY.DATA0 ends, and only with the transmitter fully on, with transmit ready |
| Registers.Peripherals.ClearUnderrun | src/i2s.rs:137 | writing one to TXUR0 clears the underrun flag |
| Registers.Peripherals.RaiseUnderrun | src/i2s.rs:136-137 | the hardware may set TXUR0 (a word came late) at any point; this is the flag the clears before each data write discard |
| Registers.Peripherals.WriteData0 | src/i2s.rs:140-142 | DATA[0] write recorded with the underrun flag as it stands; allowed only when transmit is ready, which it no longer is afterwards |
| Playback.Payload | src/main.rs:28 | `&wave[44..]` is defined exactly when `Wav16::new` is, and is the same payload |
| Common.WrapI32 | src/main.rs:177 | two's-complement wrap-around into `i32`: the same value modulo 2^32, and the identity on values already in range |
| Common.AsU32 | src/main.rs:177 | `as u32`: the `u32` with the same 32-bit pattern as the `i32` |
| Playback.ShiftLeft16 | src/main.rs:177 | `<< 16` on an `i32` is the product by 2^16 modulo 2^32; for every `i16` it does not overflow and is exact |
| Playback.Widen | src/main.rs:177 | the slot word's low 16 bits are zero, its high 16 bits are the two's-complement pattern of the sample, and its top bit is the sample's sign |
| Playback.NarrowWiden | src/main.rs:177 | widening loses nothing: the sample is recovered from the high half |
| Playback.WidenExamples | src/main.rs:177 | -1 becomes 0xFFFF0000, 1 becomes 0x00010000, 0 becomes 0 |
| Playback.CycleIndex | src/main.rs:171-175 | every offset `cycle.next()` yields is even and below the length |
| Playback.CycleFirstLap | src/main.rs:171 | the first lap yields 0, 2, 4, ... up to the last even offset below the length |
| Playback.CyclePeriodic | src/main.rs:171 | after one lap of `ceil(len / 2)` offsets the walk starts over at 0 and repeats |
| Playback.CycleLaps | src/main.rs:171 | offset `r` of lap `q` is `2r` |
| Playback.CycleIndexMod | src/main.rs:171 | the `k`-th offset is `2 * (k mod ceil(len / 2))` |
| Playback.FrameInBounds | src/main.rs:175-176 | `data[i + 1]` is in bounds for the `k`-th offset exactly when the loop can run `k + 1` iterations without a panic |
| Playback.FrameWord | src/main.rs:175-177 | the frame's slot word has a zero low half, and its high half read back is the sample decoded at the frame's cycled offset, which is in bounds |
| Playback.PlayLog | src/main.rs:173-198 | the data-register log of the loop's accesses is the list of played words |
| Playback.PlayedWordsAt | src/main.rs:173-198 | after `n` iterations, `2n` words were written and frame `k`'s word is both word `2k` (left) and word `2k + 1` (right) |
| Playback.PlayClearsUnderrun | src/main.rs:189-196 | in the loop's accesses every data write comes straight after an underrun clear, with the flag clear |
| Playback.FrameWordIsStreamSample | src/main.rs:175-177 | on a non-empty even payload, frame `k` is the widened sample `k mod N` of `Wav16::stream`, `N` being its number of samples |
| Playback.FrameWordIsStreamSampleOdd | src/main.rs:171-177 | on an odd payload `Wav16::stream` panics after its `N` samples, and each frame `k < N` the loop sends (all of them, before it panics) is the widened sample `k` |
| Playback.FrameOfLap | src/main.rs:171-177 | frame `r` of lap `q` is the widened sample `r` |
| Playback.PlayedWordsCycle | src/main.rs:171-198 | the first `n` iterations write each widened sample twice, taking the stream cyclically |
| Playback.PlayedFrameOfLap | src/main.rs:171-198 | words `2k` and `2k + 1` of the log are sample `r` when frame `k` is the `r`-th of lap `q` |
| Playback.PlaybackStreamsWave | src/main.rs:28-198 | end to end from the file: the words written are the widened samples that `Wav16::new` then `stream` decodes, each twice, cyclically |
| Playback.FourSampleCycle | src/main.rs:171-198 | for four samples, the first ten words are W(a), W(a), W(b), W(b), W(c), W(c), W(d), W(d), W(a), W(a) |
| Playback.SetupClocks | src/main.rs:49-83 | GENDIV(3, 17), then GENCTRL(3, DFLL48M, IDC, enabled), then I2S0 routed from GCLK3 and enabled, each after a GCLK sync wait, and a final wait; GCLK3's divider equals the driver's `DIVIDE` |
| Playback.ConfigureI2s | src/main.rs:93-141 | `enable`, then `cken0`, then `seren0` are cleared and waited for before the protected register is written; ends with all bits off, CLKCTRL[0] equal to the driver's configuration, SERCTRL[0] holding the driver's format with the mode untouched |
| Playback.EnableTx | src/main.rs:145-168 | transmit mode is selected while the peripheral is disabled; then all three bits are set in a single write and all are waited for |
| Playback.Setup | src/main.rs:49-168 | the whole access sequence in order; ends with GCLK3 feeding I2S0, the bus clock on, everything enabled, and CLKCTRL[0] and SERCTRL[0] exactly the driver's `init` configuration |
| Playback.WriteBothSlots | src/main.rs:180-198 | the same word is sent twice, each send a ready wait, an underrun clear and a data write |
| Playback.Play | src/main.rs:171-199 | `m` iterations send `m` frames, or only those before the panic on an empty or odd payload; the trace is exactly those frames' accesses; enable bits and configuration unchanged; after at least one frame TXRDY0 and the underrun flag are clear, and with no frame they are as before |
| Playback.Stopped | src/main.rs:171-199 | the loop, having completed `k` frames, stops (asked for no more, or the next iteration panics) exactly when `k` is the number of frames it completes |
| Playback.PlayFrame | src/main.rs:173-198 | one iteration panics, touching no register, exactly when the loop cannot run that many iterations; otherwise it appends that frame's accesses, leaves TXRDY0 and the underrun flag clear, and advances the cycle offset |
| Playback.SetupLog | src/main.rs:49-168 | the set-up writes nothing to DATA[0] |
| Playback.RunLog | src/main.rs:49-199 | the data-register log of set-up plus `n` iterations is exactly the played words, and every data write in it directly follows an underrun clear |
| Playback.Run | src/main.rs:27-199 | a file shorter than the header panics before any register access; otherwise the trace is the set-up followed by the completed frames, the DATA[0] log is exactly the played words (each widened sample twice, cyclically), and every data write comes straight after an underrun clear |

## Left out

- Busy-wait loops are not loops here. Each is one step at which the hardware has settled (`GclkSync`, `I2sSync`, `WaitTxReady`). Their termination and timing are hardware properties and are not in the model.
- `I2sSync`: the model tracks SYNCBUSY per CTRLA bit (ENABLE, CKEN0, SEREN0). The other SYNCBUSY bits, such as the TX-data bit polled before each DATA[0] write, are folded into `WaitTxReady`.
- `I2sDriver.I2s.Write` requires the transmitter to be enabled. On a disabled peripheral the source's ready wait never ends; the model states no hang.
- Register writes change only the fields they name. The PAC's `write` resets unnamed fields to their reset value. The model does not model that.
  - For every write in `main` the end state is the same: the unnamed CTRLA bits are cleared later anyway.
  - Likewise the unnamed SERCTRL[0] format fields of `sermode().tx()` already hold the all-zero reset encodings.
- The other APBCMASK bits, and the CLKCTRL/SERCTRL fields neither program touches, are not modelled.
- `configure_gclk_divider_and_source` and `clocks.i2s0` are HAL code that is not part of this model. They are modelled by the effect their call sites describe: generator 3's divider, source and enable, and the I2S0 routing. Their internal register accesses and synchronisation waits are one step each. Their `unwrap`s, which panic when the HAL reports the clock already in use, are not modelled.
- Pin mode conversions (`into`, `into_alternate`) carry no register state here and are not modelled.
- `Registers.Peripherals.Take`: models `Peripherals::take` only as the hand-over of the register block, so its singleton check and `unwrap` are left out. The `GenericClockController::with_internal_32kosc` bootstrap is not modelled step by step either. Instead, `Take` receives the state it leaves (GCLK dividers, generator controls, clock routes and the I2S registers) as parameters. The bootstrap is assumed to leave no I2S synchronisation pending, the bus clock off and TXRDY0 not yet raised.
- The embedded file (`include_bytes!`) is a parameter of `Run`. The source does no header validation, and neither does the model.
- Real-time behaviour is not modelled. `Registers.Peripherals.RaiseUnderrun` is the environment's late-data event, which the model can express but no modelled operation triggers.
- The infinite `loop` runs `m` iterations.
- Panics are outcomes (`None`, `PanicAfter`, fewer frames than asked). `panic_halt`, `no_std` and the entry attribute are not modelled.
- `Drained` records a panic while the iterator is being drained. The source never drains `stream`, so laziness itself is not modelled; `Wav.Stream` is the drained result.
