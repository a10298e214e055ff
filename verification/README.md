# IS31FL3193 RGB LED driver — Dafny model

This project models the core of a driver for the IS31FL3193, a three-channel
RGB LED controller on an I2C bus. The driver turns logical lighting
operations into 2-byte register frames. Byte 0 is a register address and
byte 1 is a bit-packed payload. The model covers three parts.

- **Value domains** (`domains.dfy`, module `Domains`). These are the closed
  enumerations `Intensity`, `Channel`, `BreathingMode`, `Marking`, `Mode` and
  `T0`–`T4`. Each level of a wire-visible domain has an explicit code function
  that returns exactly the Rust discriminant, pre-shifts included. Each code
  function has a decoder partner that accepts exactly that domain's codes.
- **Register commands** (`commands.dfy`, module `Commands`). This is the
  `Command` tagged union and `Encode`, which models `Command::as_bytes`.
  `Decode` is its inverse: it parses a frame back into the one command that
  produces it. Per-register packing lemmas state what each payload holds:
  its bounds, which bits its fields occupy, that the fields are disjoint
  (the OR equals the sum), and that every field can be read back.
- **Device controller** (`controller.dfy`, module `Controller`). This covers
  the AD-pin address selection and every public operation of the driver.
  The I2C transport is an oracle `Bus<E>`, which gives the outcome of the
  k-th write of one operation. Each operation is a pure function that
  returns a `Run`: the writes it attempted, plus its result. The ghost
  predicate `Conforms` is the shared specification. A run succeeds exactly
  when every write succeeds, and then it attempted every documented frame.
  Otherwise it attempted the documented frames up to and including the
  first failing one, and it returns that write's transport error unchanged.

Bytes are `bv8`. Rust's `u8` shifts and ORs therefore carry over literally,
including truncation.

## Model

| member | source | states |
|---|---|---|
| `Domains.IntensityCode` | src/lib.rs:161-167 | every current level's code is a multiple of 4 and at most 16 (bits 2-4 only) |
| `Domains.IntensityOf` | src/lib.rs:161-167 | a byte decodes to a level exactly when it is that level's code; every other byte is no level |
| `Domains.IntensityRoundTrip` | src/lib.rs:161-167 | each level's code decodes back to that level |
| `Domains.ChannelCode` | src/lib.rs:188-192 | channel codes are 0, 1 or 2 |
| `Domains.ChannelOf` | src/lib.rs:188-192 | a byte decodes to a channel exactly when it is that channel's code |
| `Domains.ChannelRoundTrip` | src/lib.rs:188-192 | each channel's code decodes back to that channel |
| `Domains.T0Code` | src/lib.rs:195-207 | T0 codes are at most 10 |
| `Domains.T0Of` | src/lib.rs:195-207 | a byte decodes to a T0 level exactly when it is that level's code |
| `Domains.T0RoundTrip` | src/lib.rs:195-207 | each T0 level's code decodes back to it |
| `Domains.T1Code` | src/lib.rs:210-219 | T1 codes occupy only bits 5-7 |
| `Domains.T1Of` | src/lib.rs:210-219 | a byte decodes to a T1 level exactly when it is that level's code |
| `Domains.T1RoundTrip` | src/lib.rs:210-219 | each T1 level's code decodes back to it |
| `Domains.T2Code` | src/lib.rs:222-232 | T2 codes occupy only bits 1-4 and are at most 16 |
| `Domains.T2Of` | src/lib.rs:222-232 | a byte decodes to a T2 level exactly when it is that level's code |
| `Domains.T2RoundTrip` | src/lib.rs:222-232 | each T2 level's code decodes back to it |
| `Domains.T3Code` | src/lib.rs:235-244 | T3 codes occupy only bits 5-7 |
| `Domains.T3Of` | src/lib.rs:235-244 | a byte decodes to a T3 level exactly when it is that level's code |
| `Domains.T3RoundTrip` | src/lib.rs:235-244 | each T3 level's code decodes back to it |
| `Domains.T4Code` | src/lib.rs:247-259 | T4 codes occupy only bits 1-4 and are at most 20 |
| `Domains.T4Of` | src/lib.rs:247-259 | a byte decodes to a T4 level exactly when it is that level's code |
| `Domains.T4RoundTrip` | src/lib.rs:247-259 | each T4 level's code decodes back to it |
| `Domains.CodesInjective` | src/lib.rs:159-259 | within each wire-visible domain, distinct levels have distinct codes |
| `Commands.Encode` | src/command.rs:53-81 | every command encodes to exactly 2 bytes: a register, then a payload (`Decode` inverts it; see the two round-trip lemmas) |
| `Commands.DecodeEncode` | src/command.rs:56-80 | decoding a command's frame gives back that command, so no field is lost |
| `Commands.EncodeDecode` | src/command.rs:56-80 | any frame the decoder accepts is exactly the encoding of the command it decodes to |
| `Commands.RegisterOfKind` | src/command.rs:56-80 | byte 0 of every frame is the register-table entry of the command's variant, so every frame goes to a register of the chip's map |
| `Commands.KindAtRegister` | src/command.rs:56-80 | reading byte 0 of a frame back through the register map recovers the command's variant |
| `Commands.RegisterIdentifiesVariant` | src/command.rs:56-80 | two commands share byte 0 if and only if they are the same variant |
| `Commands.RegisterMapExact` | src/command.rs:56-80 | the registers commands use are exactly 0x00-0x07, 0x0A-0x0C, 0x10-0x12, 0x16-0x18, 0x1C, 0x1D and 0x2F |
| `Commands.ShutDownPacking` | src/command.rs:57 | the shutdown payload is one of 0, 1, 32, 33; bit 5 is the enable flag and bit 0 the shutdown flag |
| `Commands.BreathingPacking` | src/command.rs:58-61 | the breathing payload is below 64 and equals the sum of its disjoint fields (bits 5, 4, 2 and 0-1); bit 3 is clear; each field reads back |
| `Commands.LedModePacking` | src/command.rs:62 | the mode payload is 0x20 for breathing and 0 for PWM |
| `Commands.FixedFrames` | src/command.rs:64-79 | duty commands write the raw value to 0x04/0x05/0x06; the PWM latch is (0x07, 0), the timing latch (0x1C, 0) and the reset (0x2F, 0) |
| `Commands.T0Packing` | src/command.rs:68-70 | the T0 payload is 16 times the code, at most 160, with a clear low nibble, and reads back as the same level |
| `Commands.T1T2Packing` | src/command.rs:71-73 | the T1/T2 payload equals the sum of the codes (no overlap), has bit 0 clear, and each code reads back by masking |
| `Commands.T3T4Packing` | src/command.rs:74-76 | the T3/T4 payload equals the sum of the codes (no overlap), has bit 0 clear, and each code reads back by masking |
| `Commands.PowerPacking` | src/command.rs:78 | the power payload is below 8, with one bit per channel in bits 0-2 |
| `Commands.PwmFor` | src/command.rs:64-66 | channel n's duty command goes to register 0x04 + code(n) with the raw value |
| `Commands.T0For` | src/command.rs:68-70 | channel n's T0 command goes to register 0x0A + code(n) |
| `Commands.T1T2For` | src/command.rs:71-73 | channel n's T1/T2 command goes to register 0x10 + code(n) |
| `Commands.T3T4For` | src/command.rs:74-76 | channel n's T3/T4 command goes to register 0x16 + code(n) |
| `Controller.AddressOf` | src/lib.rs:42-47 | every strap selects a valid 7-bit address (below 0x80), and the strap can be recovered from that address |
| `Controller.AddressesDistinct` | src/lib.rs:42-47 | two straps select the same address if and only if they are the same strap |
| `Controller.New` | src/lib.rs:41-49 | the driver's address is a 7-bit address that identifies the strap it was built from |
| `Controller.SendAll` | src/lib.rs:153-157 | sending a command list conforms to its frames: success iff every write succeeds; on failure, a prefix ending at the first failing write, whose error is returned unchanged |
| `Controller.ConformsPrefix` | src/lib.rs:61-64 | whatever the transport does, an operation only ever attempts a prefix of its documented frames, in order |
| `Controller.ConformsFirstFailure` | src/lib.rs:61-64 | in any conforming run, if write k is the first to fail, exactly frames 0..k were attempted and write k's error is returned |
| `Controller.AbortAtFirstFailure` | src/lib.rs:61-64 | if write k is the first to fail, exactly frames 0..k were attempted and write k's error is returned |
| `Controller.WritesTargetDriver` | src/lib.rs:153-157 | every attempted write goes to the driver's address and carries, in order, the frame of the command at that position |
| `Controller.SetMaxCurrent` | src/lib.rs:56-58 | set_max_current is the single frame (0x03, intensity code) |
| `Controller.SetPwm` | src/lib.rs:60-65 | set_pwm is (0x04,a), (0x05,b), (0x06,c), (0x07,0), in that order, and aborts at the first failing write |
| `Controller.SetPwmLed1` | src/lib.rs:67-70 | set_pwm_led1 is (0x04,v), (0x07,0) |
| `Controller.SetPwmLed2` | src/lib.rs:72-75 | as written, set_pwm_led2 is (0x04,v), (0x07,0): it writes channel 1's register |
| `Controller.SetPwmLed3` | src/lib.rs:77-80 | as written, set_pwm_led3 is (0x04,v), (0x07,0): it writes channel 1's register |
| `Controller.SetPwmLedMisrouted` | src/lib.rs:67-80 | set_pwm_led2 and set_pwm_led3 behave exactly like set_pwm_led1, while the corrected setter writes 0x05 for channel 2 |
| `Controller.SetPwmLed2Counterexample` | src/lib.rs:72-75 | set_pwm_led2(200) on a healthy bus writes (0x04, 200), where (0x05, 200) was meant |
| `Controller.SetPwmChannel` | src/lib.rs:67-80 | the corrected per-channel setter writes (0x04 + code(ch), v), then (0x07, 0) |
| `Controller.SetPwmChannelMatchesSetPwm` | src/lib.rs:60-65 | the corrected setter's duty frame for a channel is the frame set_pwm writes for that channel |
| `Controller.SetTiming` | src/lib.rs:82-109 | set_timing writes the selected channel's T0, T1/T2 and T3/T4 frames, then (0x1C, 0), and aborts at the first failing write |
| `Controller.TimingFrameRegisters` | src/lib.rs:91-108 | the four set_timing frames go to 0x0A+c, 0x10+c, 0x16+c and 0x1C, in that order |
| `Controller.TimingFramesOnChannel` | src/lib.rs:91-108 | every set_timing frame for a channel names one of that channel's timing registers or the latch, never another channel's |
| `Controller.TimingRegistersDisjoint` | src/lib.rs:91-107 | different channels have disjoint timing registers, and none of them is the timing latch |
| `Controller.SetTimingStaysOnChannel` | src/lib.rs:91-108 | set_timing never writes another channel's timing registers |
| `Controller.SetTimingExample` | src/lib.rs:82-109 | set_timing(Led2, 260ms, 130ms, 0ms, 130ms, 0ms) writes (0x0B,0x20), (0x11,0), (0x17,0), (0x1C,0) |
| `Controller.BreathingFor` | src/lib.rs:116-141 | the breathing command set_mode picks ramps unless Auto, holds at T4 only for OneCycle, marks exactly when a channel is marked and selects that channel (channel 1 otherwise); its frame is (0x01, that payload) |
| `Controller.SetMode` | src/lib.rs:111-144 | PWM mode is the single frame (0x02, 0); a breathing mode is (0x02, 0x20), then (0x01, p), where p sets ramp for every mode but Auto, sets hold-T4 only for OneCycle, and sets mark plus the channel only when marking is On (channel 1's code 0 otherwise) |
| `Controller.Shutdown` | src/lib.rs:146-152 | shutdown is the single frame (0x00, 32·enable + shutdown) |
| `Controller.SetPwmExample` | src/lib.rs:60-65 | set_pwm(10, 20, 30) on a healthy bus writes (0x04,10), (0x05,20), (0x06,30), (0x07,0) and succeeds |
| `Controller.SetPwmSecondWriteFails` | src/lib.rs:61-64 | when set_pwm's second write fails, only two frames were attempted and that write's error is returned |

## Left out

- `release` (src/lib.rs:52-54): it only hands the transport handle back, and the model has no handle.
- The `embedded_hal` blocking I2C `Write` trait and its error type. A `Bus<E>` oracle that answers each write of an operation stands in for them. Its error type is generic and is passed through unchanged.
- The `Copy`/`Clone`/`Debug` derives. They have no behaviour to model.
- The `Power` and `Reset` commands are modelled in the encoder only, because no driver operation issues them.
- `BreathingMode` discriminants never reach the wire: `set_mode` turns each level into the ramp and hold-time flags, and that translation is what `Controller.SetMode` states.
- examples/rppico_blink.rs: board bring-up (clocks, pins, I2C peripheral setup, panic handler) with no driver logic.
- What the chip does with the registers, such as latching or breathing timing. The driver never reads the chip back.

## Findings

| source | as written | input that shows it | evidently intended | confidence | as-written member | corrected member |
|---|---|---|---|---|---|---|
| src/lib.rs:72-80 | `set_pwm_led2` and `set_pwm_led3` both send `PWMLed1`, which is register 0x04 | `set_pwm_led2(200)` on a healthy bus writes (0x04, 200), then (0x07, 0) | channel 2 writes (0x05, v) and channel 3 writes (0x06, v), as `set_pwm` does | high; not executed | `Controller.SetPwmLed2` (`Controller.SetPwmLed3`; shown by `Controller.SetPwmLedMisrouted`, `Controller.SetPwmLed2Counterexample`) | `Controller.SetPwmChannel` (its agreement with `set_pwm` is `Controller.SetPwmChannelMatchesSetPwm`) |
