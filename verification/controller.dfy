/**
 * The device controller: every public operation of the driver expands into
 * a fixed, ordered list of commands, each written as one 2-byte frame to the
 * single bus address chosen from the AD-pin strap.
 *
 * The transport is abstract. A `Bus` says, for the k-th write of one
 * operation, whether the transport reports success or which error it
 * returns. An operation is then a pure function giving the writes it
 * attempted and its result, and its contract is stated with `Conforms`:
 * the frames it attempts are a prefix of its documented frame list, ending
 * at the first failing write, whose error is returned unchanged.
 */
module Controller {
  import opened Wrappers
  import opened Domains
  import opened Commands

  /** Where the chip's AD pin (pin 7) is strapped. */
  datatype ADPin = ToGND | ToVCC | ToSCL | ToSDA

  /** The 7-bit bus address selected by a strap: the 8-bit write address shifted right once. */
  function AddressOf(pin: ADPin): (a: Byte)
    ensures a < 0x80
    ensures PinAt(a) == Some(pin)
  {
    match pin
    case ToGND => 0xD0 >> 1
    case ToVCC => 0xD6 >> 1
    case ToSCL => 0xD2 >> 1
    case ToSDA => 0xD4 >> 1
  }

  /** Which strap, if any, selects bus address `a`. */
  function PinAt(a: Byte): Option<ADPin>
  {
    if a == 0x68 then Some(ToGND)
    else if a == 0x6B then Some(ToVCC)
    else if a == 0x69 then Some(ToSCL)
    else if a == 0x6A then Some(ToSDA)
    else None
  }

  /** The four straps select four different addresses. */
  lemma AddressesDistinct(p: ADPin, q: ADPin)
    ensures AddressOf(p) == AddressOf(q) <==> p == q
  {
  }

  /**
   * A driver instance. The transport handle it owns is abstracted into the
   * `Bus` argument of each operation; what remains is the address resolved
   * once at construction.
   */
  datatype Driver = Driver(address: Byte)

  /** `IS31FL3193::new`: the address is resolved from the strap and never changes. */
  function New(pin: ADPin): (d: Driver)
    ensures d.address < 0x80 && PinAt(d.address) == Some(pin)
  {
    Driver(AddressOf(pin))
  }

  /** One blocking transport write: `bytes` to the 7-bit `address`. */
  datatype Write = Write(address: Byte, bytes: seq<Byte>)

  /** The driver's only error: a transport failure, carrying the transport's own error value. */
  datatype DriverError<E> = I2c(cause: E)

  /** What an operation did: the writes it attempted, in order, and what it returned. */
  datatype Run<E> = Run(attempted: seq<Write>, result: Outcome<DriverError<E>>)

  /** The transport's answer to the k-th write of one operation (counting from 0). */
  type Bus<E> = nat -> Outcome<E>

  /** A transport on which every write succeeds. */
  function AllPass<E>(): Bus<E>
  {
    k => Pass
  }

  /** The frames for `cmds`, all addressed to the driver. */
  function Frames(d: Driver, cmds: seq<Command>): seq<Write>
  {
    seq(|cmds|, k requires 0 <= k < |cmds| => Write(d.address, Encode(cmds[k])))
  }

  /**
   * `r` is a run of an operation whose documented frames are `expected`, on
   * transport `bus`: it succeeds exactly when every write succeeds, in which
   * case it attempted all the frames; otherwise it attempted the frames up to
   * and including the first failing one and returns that write's error.
   */
  ghost predicate Conforms<E>(r: Run<E>, expected: seq<Write>, bus: Bus<E>)
  {
    && (r.result.Pass? <==> forall k :: 0 <= k < |expected| ==> bus(k).Pass?)
    && (r.result.Pass? ==> r.attempted == expected)
    && (r.result.Fail? ==>
          var n := |r.attempted|;
          && 0 < n <= |expected|
          && r.attempted == expected[..n]
          && bus(n - 1) == Fail(r.result.error.cause)
          && forall k :: 0 <= k < n - 1 ==> bus(k).Pass?)
  }

  /** The frames of a non-empty command list: the first command's, then the rest's. */
  lemma FramesCons(d: Driver, cmds: seq<Command>)
    requires |cmds| > 0
    ensures Frames(d, cmds) == [Write(d.address, Encode(cmds[0]))] + Frames(d, cmds[1..])
  {
  }

  /**
   * A run that passed its first write and then conformed on the remaining
   * frames, with the bus shifted by one, conforms on the whole sequence.
   */
  lemma ConformsCons<E>(w: Write, tail: seq<Write>, rest: Run<E>, bus: Bus<E>, later: Bus<E>)
    requires bus(0).Pass?
    requires forall k: nat :: later(k) == bus(k + 1)
    requires Conforms(rest, tail, later)
    ensures Conforms(Run([w] + rest.attempted, rest.result), [w] + tail, bus)
  {
    var expected := [w] + tail;
    var n := |rest.attempted|;
    if rest.result.Pass? {
      forall k | 0 < k < |expected|
        ensures bus(k).Pass?
      {
        assert bus(k) == later(k - 1);
      }
    } else {
      assert bus(n) == later(n - 1);
      assert [w] + rest.attempted == expected[..n + 1];
      forall k | 0 < k < n
        ensures bus(k).Pass?
      {
        assert bus(k) == later(k - 1);
      }
    }
  }

  /**
   * The `?` chain of the operations over `send`: write each command's frame
   * to the driver's address in order, and stop at the first transport
   * error, returning it wrapped in `I2c` and otherwise unaltered.
   */
  function SendAll<E>(d: Driver, cmds: seq<Command>, bus: Bus<E>): (r: Run<E>)
    ensures Conforms(r, Frames(d, cmds), bus)
    decreases |cmds|
  {
    if cmds == [] then Run([], Pass)
    else
      var w := Write(d.address, Encode(cmds[0]));
      match bus(0)
      case Fail(e) => Run([w], Fail(I2c(e)))
      case Pass =>
        var later: Bus<E> := (k: nat) => bus(k + 1);
        var rest := SendAll(d, cmds[1..], later);
        FramesCons(d, cmds);
        ConformsCons(w, Frames(d, cmds[1..]), rest, bus, later);
        Run([w] + rest.attempted, rest.result)
  }
  /** `set_max_current`: one write to the current register. */
  function SetMaxCurrent<E>(d: Driver, intensity: Intensity, bus: Bus<E>): (r: Run<E>)
    ensures Conforms(r, [Write(d.address, [0x03, IntensityCode(intensity)])], bus)
  {
    SendAll(d, [Current(intensity)], bus)
  }

  /** `set_pwm`: the three duty registers in channel order, then the PWM latch. */
  function SetPwm<E>(d: Driver, led1: Byte, led2: Byte, led3: Byte, bus: Bus<E>): (r: Run<E>)
    ensures Conforms(r, [Write(d.address, [0x04, led1]), Write(d.address, [0x05, led2]),
                         Write(d.address, [0x06, led3]), Write(d.address, [0x07, 0])], bus)
  {
    SendAll(d, [PWMLed1(led1), PWMLed2(led2), PWMLed3(led3), PWMUpdate], bus)
  }

  /** `set_pwm_led1`: the channel-1 duty register, then the PWM latch. */
  function SetPwmLed1<E>(d: Driver, led1: Byte, bus: Bus<E>): (r: Run<E>)
    ensures Conforms(r, [Write(d.address, [0x04, led1]), Write(d.address, [0x07, 0])], bus)
  {
    SendAll(d, [PWMLed1(led1), PWMUpdate], bus)
  }

  /** `set_pwm_led2` as written: it sends a channel-1 duty command (register 0x04). */
  function SetPwmLed2<E>(d: Driver, led2: Byte, bus: Bus<E>): (r: Run<E>)
    ensures Conforms(r, [Write(d.address, [0x04, led2]), Write(d.address, [0x07, 0])], bus)
  {
    SendAll(d, [PWMLed1(led2), PWMUpdate], bus)
  }

  /** `set_pwm_led3` as written: it sends a channel-1 duty command (register 0x04). */
  function SetPwmLed3<E>(d: Driver, led3: Byte, bus: Bus<E>): (r: Run<E>)
    ensures Conforms(r, [Write(d.address, [0x04, led3]), Write(d.address, [0x07, 0])], bus)
  {
    SendAll(d, [PWMLed1(led3), PWMUpdate], bus)
  }

  /**
   * The per-channel duty setter as evidently intended: channel `ch` is
   * written to its own duty register, 0x04 + its channel code, then latched.
   */
  function SetPwmChannel<E>(d: Driver, ch: Channel, v: Byte, bus: Bus<E>): (r: Run<E>)
    ensures Conforms(r, [Write(d.address, [0x04 + ChannelCode(ch), v]), Write(d.address, [0x07, 0])], bus)
  {
    SendAll(d, [PwmFor(ch, v), PWMUpdate], bus)
  }

  /**
   * The frames `set_timing` documents for channel `led`: its T0, T1/T2 and
   * T3/T4 registers, which sit at a stride of one from channel 1's (0x0A,
   * 0x10, 0x16) and carry the code times 16 and the sums of the paired codes,
   * then the timing latch.
   */
  function TimingFrames(d: Driver, led: Channel, t0: T0, t1: T1, t2: T2, t3: T3, t4: T4): seq<Write>
  {
    var c := ChannelCode(led);
    [Write(d.address, [0x0A + c, T0Code(t0) * 16]),
     Write(d.address, [0x10 + c, T1Code(t1) + T2Code(t2)]),
     Write(d.address, [0x16 + c, T3Code(t3) + T4Code(t4)]),
     Write(d.address, [0x1C, 0])]
  }

  /** The commands `set_timing` sends have exactly the documented frames. */
  lemma TimingCommandFrames(d: Driver, led: Channel, t0: T0, t1: T1, t2: T2, t3: T3, t4: T4)
    ensures Frames(d, [T0For(led, t0), T1T2For(led, t1, t2), T3T4For(led, t3, t4), BreathTimingUpdate])
            == TimingFrames(d, led, t0, t1, t2, t3, t4)
  {
    var cmds := [T0For(led, t0), T1T2For(led, t1, t2), T3T4For(led, t3, t4), BreathTimingUpdate];
    var fs := Frames(d, cmds);
    var ts := TimingFrames(d, led, t0, t1, t2, t3, t4);
    assert fs[0] == ts[0] && fs[1] == ts[1] && fs[2] == ts[2] && fs[3] == ts[3];
  }

  /**
   * `set_timing`: the T0, T1/T2 and T3/T4 registers of the selected channel,
   * then the timing latch, which applies the timing of all channels.
   */
  function SetTiming<E>(d: Driver, led: Channel, t0: T0, t1: T1, t2: T2, t3: T3, t4: T4,
                        bus: Bus<E>): (r: Run<E>)
    ensures Conforms(r, TimingFrames(d, led, t0, t1, t2, t3, t4), bus)
  {
    var cmds := [T0For(led, t0), T1T2For(led, t1, t2), T3T4For(led, t3, t4), BreathTimingUpdate];
    TimingCommandFrames(d, led, t0, t1, t2, t3, t4);
    SendAll(d, cmds, bus)
  }

  /**
   * The breathing-control payload `set_mode` selects: ramping for every
   * sub-mode but Auto, T4 hold time only for OneCycle, and the marked
   * channel (if any) in the mark-enable bit and channel field.
   */
  function ModePayload(m: BreathingMode, mk: Marking): Byte
  {
    (if m != Auto then 0x20 else 0) + (if m == OneCycle then 0x10 else 0)
    + (if mk.On? then 0x04 + ChannelCode(mk.channel) else 0)
  }

  /**
   * The breathing-control command `set_mode` sends for a breathing mode:
   * ramping unless Auto, hold at T4 only for OneCycle, marking exactly when
   * a channel is marked, and that channel selected (channel 1 otherwise).
   */
  function BreathingFor(m: BreathingMode, mk: Marking): (c: Command)
    ensures c.Breathing?
    ensures c.ramp == (m != Auto) && c.holdT4 == (m == OneCycle) && c.mark == mk.On?
    ensures c.select == if mk.On? then mk.channel else Led1
    ensures Encode(c) == [0x01, ModePayload(m, mk)]
  {
    var c := match m
      case Auto => (match mk
        case Off => Breathing(false, false, false, Led1)
        case On(channel) => Breathing(false, false, true, channel))
      case OneCycle => (match mk
        case Off => Breathing(true, true, false, Led1)
        case On(channel) => Breathing(true, true, true, channel))
      case RampToOn => (match mk
        case Off => Breathing(true, false, false, Led1)
        case On(channel) => Breathing(true, false, true, channel));
    BreathingPacking(c.ramp, c.holdT4, c.mark, c.select);
    c
  }

  /**
   * `set_mode`: PWM mode is one mode-register write; a breathing mode is the
   * mode-register write followed by one breathing-control write.
   */
  function SetMode<E>(d: Driver, mode: Mode, bus: Bus<E>): (r: Run<E>)
    ensures mode.PWM? ==> Conforms(r, [Write(d.address, [0x02, 0])], bus)
    ensures mode.Breath? ==>
      Conforms(r, [Write(d.address, [0x02, 0x20]),
                   Write(d.address, [0x01, ModePayload(mode.breathing, mode.marking)])], bus)
  {
    match mode
    case PWM => SendAll(d, [LedMode(false)], bus)
    case Breath(breathMode, marking) => SendAll(d, [LedMode(true), BreathingFor(breathMode, marking)], bus)
  }

  /** `shutdown`: one write to the shutdown register. */
  function Shutdown<E>(d: Driver, enableAllLeds: bool, shutdown: bool, bus: Bus<E>): (r: Run<E>)
    ensures Conforms(r, [Write(d.address, [0x00, (if enableAllLeds then 0x20 else 0)
                                                 + (if shutdown then 1 else 0)])], bus)
  {
    SendAll(d, [ShutDown(enableAllLeds, shutdown)], bus)
  }
  /** A conforming run attempted a prefix of the documented frames. */
  lemma ConformsPrefix<E>(r: Run<E>, expected: seq<Write>, bus: Bus<E>)
    requires Conforms(r, expected, bus)
    ensures |r.attempted| <= |expected|
    ensures forall i :: 0 <= i < |r.attempted| ==> r.attempted[i] == expected[i]
  {
  }

  /**
   * In a conforming run where write k is the first to fail, exactly the
   * frames up to and including it were attempted, and the run returns that
   * write's transport error.
   */
  lemma ConformsFirstFailure<E>(r: Run<E>, expected: seq<Write>, bus: Bus<E>, k: nat)
    requires Conforms(r, expected, bus)
    requires k < |expected| && bus(k).Fail?
    requires forall j :: 0 <= j < k ==> bus(j).Pass?
    ensures r.attempted == expected[..k + 1]
    ensures r.result == Fail(I2c(bus(k).error))
  {
    assert !bus(k).Pass?;
    var n := |r.attempted|;
    if n - 1 < k {
      assert false;
    } else if k < n - 1 {
      assert false;
    }
  }

  /**
   * If the k-th write is the first to fail, exactly the frames up to and
   * including it were attempted, and the operation returns that write's
   * transport error.
   */
  lemma AbortAtFirstFailure<E>(d: Driver, cmds: seq<Command>, bus: Bus<E>, k: nat)
    requires k < |cmds| && bus(k).Fail?
    requires forall j :: 0 <= j < k ==> bus(j).Pass?
    ensures SendAll(d, cmds, bus).attempted == Frames(d, cmds)[..k + 1]
    ensures SendAll(d, cmds, bus).result == Fail(I2c(bus(k).error))
  {
    ConformsFirstFailure(SendAll(d, cmds, bus), Frames(d, cmds), bus, k);
  }

  /**
   * Every write an operation attempts goes to the driver's address and
   * carries the frame of the command at that position, in order.
   */
  lemma WritesTargetDriver<E>(d: Driver, cmds: seq<Command>, bus: Bus<E>)
    ensures var r := SendAll(d, cmds, bus);
      && |r.attempted| <= |cmds|
      && forall i :: 0 <= i < |r.attempted| ==>
           r.attempted[i].address == d.address && Decode(r.attempted[i].bytes) == Some(cmds[i])
  {
    var r := SendAll(d, cmds, bus);
    forall i | 0 <= i < |r.attempted|
      ensures r.attempted[i].address == d.address && Decode(r.attempted[i].bytes) == Some(cmds[i])
    {
      assert r.attempted[i] == Frames(d, cmds)[i];
      DecodeEncode(cmds[i]);
    }
  }

  /** The timing registers of channel `ch`. */
  function TimingRegisters(ch: Channel): set<Byte>
  {
    {0x0A + ChannelCode(ch), 0x10 + ChannelCode(ch), 0x16 + ChannelCode(ch)}
  }

  /** Different channels have disjoint timing registers, none of them the timing latch. */
  lemma TimingRegistersDisjoint(a: Channel, b: Channel)
    requires a != b
    ensures TimingRegisters(a) !! TimingRegisters(b)
    ensures 0x1C !in TimingRegisters(b)
  {
  }

  /** The registers of the documented `set_timing` frames, in order. */
  lemma TimingFrameRegisters(d: Driver, led: Channel, t0: T0, t1: T1, t2: T2, t3: T3, t4: T4)
    ensures var c := ChannelCode(led);
      var fs := TimingFrames(d, led, t0, t1, t2, t3, t4);
      && |fs| == 4
      && fs[0].bytes[0] == 0x0A + c && fs[1].bytes[0] == 0x10 + c
      && fs[2].bytes[0] == 0x16 + c && fs[3].bytes[0] == 0x1C
  {
  }

  /** Every documented `set_timing` frame names a register of `led` or the timing latch. */
  lemma TimingFramesOnChannel(d: Driver, led: Channel, other: Channel,
                              t0: T0, t1: T1, t2: T2, t3: T3, t4: T4)
    requires other != led
    ensures var fs := TimingFrames(d, led, t0, t1, t2, t3, t4);
      forall w :: w in fs ==>
        && |w.bytes| == 2
        && w.bytes[0] in TimingRegisters(led) + {0x1C}
        && w.bytes[0] !in TimingRegisters(other)
  {
    TimingFrameRegisters(d, led, t0, t1, t2, t3, t4);
    TimingRegistersDisjoint(led, other);
  }

  /**
   * `set_timing` writes only the selected channel's timing registers and the
   * timing latch: no other channel's timing register is touched.
   */
  lemma SetTimingStaysOnChannel<E>(d: Driver, led: Channel, other: Channel,
                                   t0: T0, t1: T1, t2: T2, t3: T3, t4: T4, bus: Bus<E>)
    requires other != led
    ensures var r := SetTiming(d, led, t0, t1, t2, t3, t4, bus);
      forall i :: 0 <= i < |r.attempted| ==>
        && r.attempted[i].bytes[0] in TimingRegisters(led) + {0x1C}
        && r.attempted[i].bytes[0] !in TimingRegisters(other)
  {
    var r := SetTiming(d, led, t0, t1, t2, t3, t4, bus);
    var fs := TimingFrames(d, led, t0, t1, t2, t3, t4);
    TimingFramesOnChannel(d, led, other, t0, t1, t2, t3, t4);
    ConformsPrefix(r, fs, bus);
    forall i | 0 <= i < |r.attempted|
      ensures r.attempted[i] in fs
    {
      assert r.attempted[i] == fs[i];
    }
  }

  /**
   * As written, `set_pwm_led2` and `set_pwm_led3` do exactly what
   * `set_pwm_led1` does: they rewrite channel 1's duty register and leave
   * channels 2 and 3 alone, while the corrected setter writes each channel's
   * own register.
   */
  lemma SetPwmLedMisrouted<E>(d: Driver, v: Byte, bus: Bus<E>)
    ensures SetPwmLed2(d, v, bus) == SetPwmLed1(d, v, bus)
    ensures SetPwmLed3(d, v, bus) == SetPwmLed1(d, v, bus)
    ensures bus(0).Pass? ==> SetPwmLed2(d, v, bus).attempted[0].bytes[0] == 0x04
    ensures bus(0).Pass? ==> SetPwmChannel(d, Led2, v, bus).attempted[0].bytes[0] == 0x05
  {
  }

  /** The input that shows the defect: `set_pwm_led2(200)` on a healthy bus writes (0x04, 200). */
  lemma SetPwmLed2Counterexample()
    ensures SetPwmLed2(New(ToGND), 200, AllPass<()>()).attempted
         == [Write(0x68, [0x04, 200]), Write(0x68, [0x07, 0])]
    ensures SetPwmChannel(New(ToGND), Led2, 200, AllPass<()>()).attempted
         == [Write(0x68, [0x05, 200]), Write(0x68, [0x07, 0])]
  {
  }

  /**
   * The corrected single-channel setter writes the same duty frame that
   * `set_pwm` writes for that channel.
   */
  lemma SetPwmChannelMatchesSetPwm<E>(d: Driver, ch: Channel, v: Byte)
    ensures SetPwmChannel(d, ch, v, AllPass<E>()).attempted[0]
         == SetPwm(d, v, v, v, AllPass<E>()).attempted[ChannelCode(ch)]
  {
  }

  /** `set_pwm(10, 20, 30)` on a healthy bus writes four frames, in order. */
  lemma SetPwmExample(d: Driver)
    ensures SetPwm(d, 10, 20, 30, AllPass<()>())
         == Run([Write(d.address, [0x04, 10]), Write(d.address, [0x05, 20]),
                 Write(d.address, [0x06, 30]), Write(d.address, [0x07, 0])], Pass)
  {
  }

  /**
   * `set_timing(Led2, T0 260 ms, T1 130 ms, T2 0 ms, T3 130 ms, T4 0 ms)`
   * writes channel 2's three timing registers, then the timing latch.
   */
  lemma SetTimingExample(d: Driver)
    ensures SetTiming(d, Led2, T0.MS260, T1.MS130, T2.MS0, T3.MS130, T4.MS0, AllPass<()>()).attempted
         == TimingFrames(d, Led2, T0.MS260, T1.MS130, T2.MS0, T3.MS130, T4.MS0)
         == [Write(d.address, [0x0B, 0x20]), Write(d.address, [0x11, 0]),
             Write(d.address, [0x17, 0]), Write(d.address, [0x1C, 0])]
  {
  }

  /**
   * When the second of `set_pwm`'s four writes fails, the last two are never
   * attempted and the second write's error is what the caller sees.
   */
  lemma SetPwmSecondWriteFails<E>(d: Driver, a: Byte, b: Byte, c: Byte, bus: Bus<E>)
    requires bus(0).Pass? && bus(1).Fail?
    ensures SetPwm(d, a, b, c, bus)
         == Run([Write(d.address, [0x04, a]), Write(d.address, [0x05, b])], Fail(I2c(bus(1).error)))
  {
  }
}
