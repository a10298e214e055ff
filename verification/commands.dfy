/**
 * The chip's register commands and their 2-byte frame encoding: byte 0 is
 * the register address owned by the variant, byte 1 the bit-packed payload.
 * `Decode` is the partner of `Encode`: it parses a frame back into the one
 * command that produces it, so the encoding is proved to be a bijection
 * between commands and the frames it accepts.
 */
module Commands {
  import opened Wrappers
  import opened Domains

  datatype Command =
    | ShutDown(enable: bool, softwareShutdown: bool)
    | Breathing(ramp: bool, holdT4: bool, mark: bool, select: Channel)
    | LedMode(breath: bool)
    | Current(intensity: Intensity)
    | PWMLed1(pwm: Byte)
    | PWMLed2(pwm: Byte)
    | PWMLed3(pwm: Byte)
    | PWMUpdate
    | T0Led1(t0: T0)
    | T0Led2(t0: T0)
    | T0Led3(t0: T0)
    | T1T2Led1(t1: T1, t2: T2)
    | T1T2Led2(t1: T1, t2: T2)
    | T1T2Led3(t1: T1, t2: T2)
    | T3T4Led1(t3: T3, t4: T4)
    | T3T4Led2(t3: T3, t4: T4)
    | T3T4Led3(t3: T3, t4: T4)
    | BreathTimingUpdate
    | Power(led1: bool, led2: bool, led3: bool)
    | Reset

  /** The position of a command's variant in the declaration of `Command`. */
  function Kind(c: Command): (k: nat)
    ensures k < |RegisterTable|
  {
    match c
    case ShutDown(_, _) => 0
    case Breathing(_, _, _, _) => 1
    case LedMode(_) => 2
    case Current(_) => 3
    case PWMLed1(_) => 4
    case PWMLed2(_) => 5
    case PWMLed3(_) => 6
    case PWMUpdate => 7
    case T0Led1(_) => 8
    case T0Led2(_) => 9
    case T0Led3(_) => 10
    case T1T2Led1(_, _) => 11
    case T1T2Led2(_, _) => 12
    case T1T2Led3(_, _) => 13
    case T3T4Led1(_, _) => 14
    case T3T4Led2(_, _) => 15
    case T3T4Led3(_, _) => 16
    case BreathTimingUpdate => 17
    case Power(_, _, _) => 18
    case Reset => 19
  }

  /** The register owned by each variant, in declaration order: the chip's register map as used. */
  const RegisterTable: seq<Byte> :=
    [0x00, 0x01, 0x02, 0x03, 0x04, 0x05, 0x06, 0x07, 0x0A, 0x0B,
     0x0C, 0x10, 0x11, 0x12, 0x16, 0x17, 0x18, 0x1C, 0x1D, 0x2F]

  /** Rust's `b as u8`. */
  function Flag(b: bool): Byte
  {
    if b then 1 else 0
  }

  /** Whether bit `n` of `p` is set. */
  predicate BitSet(p: Byte, n: nat)
    requires n < 8
  {
    (p >> n) & 1 == 1
  }

  // The payload packings of `Command::as_bytes`, one per register layout.

  function ShutDownByte(en: bool, ssd: bool): Byte
  {
    (Flag(en) << 5) | Flag(ssd)
  }

  function BreathingByte(rm: bool, ht: bool, bme: bool, css: Channel): Byte
  {
    (Flag(rm) << 5) | (Flag(ht) << 4) | (Flag(bme) << 2) | ChannelCode(css)
  }

  function LedModeByte(breath: bool): Byte
  {
    Flag(breath) << 5
  }

  function T0Byte(t0: T0): Byte
  {
    T0Code(t0) << 4
  }

  function T1T2Byte(t1: T1, t2: T2): Byte
  {
    T1Code(t1) | T2Code(t2)
  }

  function T3T4Byte(t3: T3, t4: T4): Byte
  {
    T3Code(t3) | T4Code(t4)
  }

  function PowerByte(led1: bool, led2: bool, led3: bool): Byte
  {
    Flag(led1) | (Flag(led2) << 1) | (Flag(led3) << 2)
  }

  /** Byte 0 of `Command::as_bytes`: the register each variant owns. */
  function Register(c: Command): Byte
  {
    match c
    case ShutDown(_, _) => 0x00
    case Breathing(_, _, _, _) => 0x01
    case LedMode(_) => 0x02
    case Current(_) => 0x03
    case PWMLed1(_) => 0x04
    case PWMLed2(_) => 0x05
    case PWMLed3(_) => 0x06
    case PWMUpdate => 0x07
    case T0Led1(_) => 0x0A
    case T0Led2(_) => 0x0B
    case T0Led3(_) => 0x0C
    case T1T2Led1(_, _) => 0x10
    case T1T2Led2(_, _) => 0x11
    case T1T2Led3(_, _) => 0x12
    case T3T4Led1(_, _) => 0x16
    case T3T4Led2(_, _) => 0x17
    case T3T4Led3(_, _) => 0x18
    case BreathTimingUpdate => 0x1C
    case Power(_, _, _) => 0x1D
    case Reset => 0x2F
  }

  /** Byte 1 of `Command::as_bytes`: the variant's fields packed into one byte. */
  function Payload(c: Command): Byte
  {
    match c
    case ShutDown(en, ssd) => ShutDownByte(en, ssd)
    case Breathing(rm, ht, bme, css) => BreathingByte(rm, ht, bme, css)
    case LedMode(breath) => LedModeByte(breath)
    case Current(intensity) => IntensityCode(intensity)
    case PWMLed1(pwm) => pwm
    case PWMLed2(pwm) => pwm
    case PWMLed3(pwm) => pwm
    case PWMUpdate => 0
    case T0Led1(t0) => T0Byte(t0)
    case T0Led2(t0) => T0Byte(t0)
    case T0Led3(t0) => T0Byte(t0)
    case T1T2Led1(t1, t2) => T1T2Byte(t1, t2)
    case T1T2Led2(t1, t2) => T1T2Byte(t1, t2)
    case T1T2Led3(t1, t2) => T1T2Byte(t1, t2)
    case T3T4Led1(t3, t4) => T3T4Byte(t3, t4)
    case T3T4Led2(t3, t4) => T3T4Byte(t3, t4)
    case T3T4Led3(t3, t4) => T3T4Byte(t3, t4)
    case BreathTimingUpdate => 0
    case Power(led1, led2, led3) => PowerByte(led1, led2, led3)
    case Reset => 0
  }

  /** `Command::as_bytes`: the register, then the packed payload. */
  function Encode(c: Command): (frame: seq<Byte>)
    ensures |frame| == 2
  {
    [Register(c), Payload(c)]
  }

  /** A T0 payload: the code in the high nibble, low nibble clear. */
  function DecodeT0(p: Byte): Option<T0>
  {
    if p & 0x0F == 0 then T0Of(p >> 4) else None
  }

  /** A T1/T2 payload: bit 0 clear, T1 in bits 5-7, T2 in bits 1-4. */
  function DecodeT1T2(p: Byte): Option<(T1, T2)>
  {
    if p & 0x01 != 0 then None
    else match (T1Of(p & 0xE0), T2Of(p & 0x1E))
      case (Some(t1), Some(t2)) => Some((t1, t2))
      case _ => None
  }

  /** A T3/T4 payload: bit 0 clear, T3 in bits 5-7, T4 in bits 1-4. */
  function DecodeT3T4(p: Byte): Option<(T3, T4)>
  {
    if p & 0x01 != 0 then None
    else match (T3Of(p & 0xE0), T4Of(p & 0x1E))
      case (Some(t3), Some(t4)) => Some((t3, t4))
      case _ => None
  }

  /** Frames for the control registers 0x00-0x03. */
  function DecodeControl(reg: Byte, p: Byte): Option<Command>
  {
    if reg == 0x00 then
      if p & 0xDE == 0 then Some(ShutDown(BitSet(p, 5), BitSet(p, 0))) else None
    else if reg == 0x01 then
      if p & 0xC8 != 0 then None
      else match ChannelOf(p & 0x03)
        case Some(ch) => Some(Breathing(BitSet(p, 5), BitSet(p, 4), BitSet(p, 2), ch))
        case None => None
    else if reg == 0x02 then
      if p & 0xDF == 0 then Some(LedMode(BitSet(p, 5))) else None
    else if reg == 0x03 then
      match IntensityOf(p)
      case Some(i) => Some(Current(i))
      case None => None
    else None
  }

  /** Frames for the duty registers 0x04-0x06 and the PWM latch 0x07. */
  function DecodePwm(reg: Byte, p: Byte): Option<Command>
  {
    if reg == 0x04 then Some(PWMLed1(p))
    else if reg == 0x05 then Some(PWMLed2(p))
    else if reg == 0x06 then Some(PWMLed3(p))
    else if reg == 0x07 && p == 0 then Some(PWMUpdate)
    else None
  }

  /** Frames for the T0 registers 0x0A-0x0C. */
  function DecodeT0Frame(reg: Byte, p: Byte): Option<Command>
  {
    match DecodeT0(p)
    case Some(t0) =>
      if reg == 0x0A then Some(T0Led1(t0))
      else if reg == 0x0B then Some(T0Led2(t0))
      else if reg == 0x0C then Some(T0Led3(t0))
      else None
    case None => None
  }

  /** Frames for the T1/T2 registers 0x10-0x12. */
  function DecodeT1T2Frame(reg: Byte, p: Byte): Option<Command>
  {
    match DecodeT1T2(p)
    case Some((t1, t2)) =>
      if reg == 0x10 then Some(T1T2Led1(t1, t2))
      else if reg == 0x11 then Some(T1T2Led2(t1, t2))
      else if reg == 0x12 then Some(T1T2Led3(t1, t2))
      else None
    case None => None
  }

  /** Frames for the T3/T4 registers 0x16-0x18. */
  function DecodeT3T4Frame(reg: Byte, p: Byte): Option<Command>
  {
    match DecodeT3T4(p)
    case Some((t3, t4)) =>
      if reg == 0x16 then Some(T3T4Led1(t3, t4))
      else if reg == 0x17 then Some(T3T4Led2(t3, t4))
      else if reg == 0x18 then Some(T3T4Led3(t3, t4))
      else None
    case None => None
  }

  /** Frames for the timing latch 0x1C, the power register 0x1D and the reset register 0x2F. */
  function DecodeTail(reg: Byte, p: Byte): Option<Command>
  {
    if reg == 0x1C && p == 0 then Some(BreathTimingUpdate)
    else if reg == 0x1D && p & 0xF8 == 0 then Some(Power(BitSet(p, 0), BitSet(p, 1), BitSet(p, 2)))
    else if reg == 0x2F && p == 0 then Some(Reset)
    else None
  }

  /**
   * Parses a frame back into the command that encodes to it, or None when
   * the frame is not 2 bytes long, names a register no command owns, or
   * sets a payload bit (or field value) that no command produces.
   */
  function Decode(frame: seq<Byte>): Option<Command>
  {
    if |frame| != 2 then None
    else
      var reg, p := frame[0], frame[1];
      if reg <= 0x03 then DecodeControl(reg, p)
      else if reg <= 0x07 then DecodePwm(reg, p)
      else if reg <= 0x0C then DecodeT0Frame(reg, p)
      else if reg <= 0x12 then DecodeT1T2Frame(reg, p)
      else if reg <= 0x18 then DecodeT3T4Frame(reg, p)
      else DecodeTail(reg, p)
  }

  /**
   * Register 0x00 carries the all-channel enable in bit 5 and the software
   * shutdown in bit 0; nothing else is ever set.
   */
  lemma ShutDownPacking(en: bool, ssd: bool)
    ensures var p := ShutDownByte(en, ssd);
      && p in {0, 1, 32, 33}
      && BitSet(p, 5) == en && BitSet(p, 0) == ssd
      && p & 0xDE == 0
  {
  }

  /**
   * Register 0x01 packs ramp (bit 5), hold time (bit 4), mark (bit 2) and the
   * channel select (bits 0-1). The fields are disjoint: the OR is their sum,
   * stays below 64 and leaves bit 3 clear.
   */
  lemma BreathingPacking(rm: bool, ht: bool, bme: bool, css: Channel)
    ensures var p := BreathingByte(rm, ht, bme, css);
      && p < 64 && !BitSet(p, 3)
      && p as int == 32 * Flag(rm) as int + 16 * Flag(ht) as int + 4 * Flag(bme) as int
                     + ChannelCode(css) as int
      && BitSet(p, 5) == rm && BitSet(p, 4) == ht && BitSet(p, 2) == bme
      && p & 0x03 == ChannelCode(css)
  {
  }

  /** Register 0x02 is 0x20 in breathing mode and 0 in PWM mode. */
  lemma LedModePacking(breath: bool)
    ensures LedModeByte(breath) == if breath then 0x20 else 0
  {
  }

  /** The T0 code lands in the high nibble: the payload fits a byte and its low nibble is clear. */
  lemma T0Packing(t0: T0)
    ensures var p := T0Byte(t0);
      && p as int == 16 * T0Code(t0) as int && p == T0Code(t0) * 16 && p <= 160
      && p & 0x0F == 0 && p >> 4 == T0Code(t0)
      && DecodeT0(p) == Some(t0)
  {
    T0RoundTrip(t0);
  }

  /**
   * T1 (bits 5-7) and T2 (bits 1-4) do not overlap: the OR is their sum,
   * bit 0 stays clear and each field is read back by masking.
   */
  lemma T1T2Packing(t1: T1, t2: T2)
    ensures var p := T1T2Byte(t1, t2);
      && p as int == T1Code(t1) as int + T2Code(t2) as int && p == T1Code(t1) + T2Code(t2)
      && !BitSet(p, 0)
      && p & 0xE0 == T1Code(t1) && p & 0x1E == T2Code(t2)
      && DecodeT1T2(p) == Some((t1, t2))
  {
    var p := T1T2Byte(t1, t2);
    assert p & 0xE0 == T1Code(t1) && p & 0x1E == T2Code(t2);
    T1RoundTrip(t1);
    T2RoundTrip(t2);
  }

  /**
   * T3 (bits 5-7) and T4 (bits 1-4) do not overlap: the OR is their sum,
   * bit 0 stays clear and each field is read back by masking.
   */
  lemma T3T4Packing(t3: T3, t4: T4)
    ensures var p := T3T4Byte(t3, t4);
      && p as int == T3Code(t3) as int + T4Code(t4) as int && p == T3Code(t3) + T4Code(t4)
      && !BitSet(p, 0)
      && p & 0xE0 == T3Code(t3) && p & 0x1E == T4Code(t4)
      && DecodeT3T4(p) == Some((t3, t4))
  {
    var p := T3T4Byte(t3, t4);
    assert p & 0xE0 == T3Code(t3) && p & 0x1E == T4Code(t4);
    T3RoundTrip(t3);
    T4RoundTrip(t4);
  }

  /** Register 0x1D holds one power bit per channel in bits 0-2. */
  lemma PowerPacking(l1: bool, l2: bool, l3: bool)
    ensures var p := PowerByte(l1, l2, l3);
      p < 8 && BitSet(p, 0) == l1 && BitSet(p, 1) == l2 && BitSet(p, 2) == l3
  {
  }

  /**
   * Every command's frame is its register followed by its payload; the
   * duty commands carry the raw duty value, and the two latches and the
   * reset carry no payload.
   */
  lemma FixedFrames(v: Byte)
    ensures Encode(PWMLed1(v)) == [0x04, v]
    ensures Encode(PWMLed2(v)) == [0x05, v]
    ensures Encode(PWMLed3(v)) == [0x06, v]
    ensures Encode(PWMUpdate) == [0x07, 0]
    ensures Encode(BreathTimingUpdate) == [0x1C, 0]
    ensures Encode(Reset) == [0x2F, 0]
  {
  }

  /** Control commands (registers 0x00-0x03) decode back from their frames. */
  lemma DecodeEncodeControl(c: Command)
    requires Kind(c) <= 3
    ensures Decode(Encode(c)) == Some(c)
  {
    match c
    case ShutDown(en, ssd) => ShutDownPacking(en, ssd);
    case Breathing(rm, ht, bme, css) => BreathingPacking(rm, ht, bme, css); ChannelRoundTrip(css);
    case LedMode(breath) => LedModePacking(breath);
    case Current(i) => IntensityRoundTrip(i);
  }

  /** Timing commands (registers 0x0A-0x18) decode back from their frames. */
  lemma DecodeEncodeTiming(c: Command)
    requires 8 <= Kind(c) <= 16
    ensures Decode(Encode(c)) == Some(c)
  {
    match c
    case T0Led1(t0) => T0Packing(t0);
    case T0Led2(t0) => T0Packing(t0);
    case T0Led3(t0) => T0Packing(t0);
    case T1T2Led1(t1, t2) => T1T2Packing(t1, t2);
    case T1T2Led2(t1, t2) => T1T2Packing(t1, t2);
    case T1T2Led3(t1, t2) => T1T2Packing(t1, t2);
    case T3T4Led1(t3, t4) => T3T4Packing(t3, t4);
    case T3T4Led2(t3, t4) => T3T4Packing(t3, t4);
    case T3T4Led3(t3, t4) => T3T4Packing(t3, t4);
  }

  /** Every command's frame decodes back to that command: no field is lost in the packing. */
  lemma DecodeEncode(c: Command)
    ensures Decode(Encode(c)) == Some(c)
  {
    if Kind(c) <= 3 {
      DecodeEncodeControl(c);
    } else if 8 <= Kind(c) <= 16 {
      DecodeEncodeTiming(c);
    } else if c.Power? {
      PowerPacking(c.led1, c.led2, c.led3);
    }
  }

  /** A control frame the decoder accepts is the encoding of what it decodes to. */
  lemma EncodeDecodeControl(reg: Byte, p: Byte)
    ensures DecodeControl(reg, p).Some? ==> Encode(DecodeControl(reg, p).value) == [reg, p]
  {
  }

  /** A T0 frame the decoder accepts is the encoding of what it decodes to. */
  lemma EncodeDecodeT0(reg: Byte, p: Byte)
    ensures DecodeT0Frame(reg, p).Some? ==> Encode(DecodeT0Frame(reg, p).value) == [reg, p]
  {
  }

  /** A T1/T2 frame the decoder accepts is the encoding of what it decodes to. */
  lemma EncodeDecodeT1T2(reg: Byte, p: Byte)
    ensures DecodeT1T2Frame(reg, p).Some? ==> Encode(DecodeT1T2Frame(reg, p).value) == [reg, p]
  {
  }

  /** A T3/T4 frame the decoder accepts is the encoding of what it decodes to. */
  lemma EncodeDecodeT3T4(reg: Byte, p: Byte)
    ensures DecodeT3T4Frame(reg, p).Some? ==> Encode(DecodeT3T4Frame(reg, p).value) == [reg, p]
  {
  }

  /** A frame the decoder accepts is exactly the encoding of what it decodes to. */
  lemma EncodeDecode(frame: seq<Byte>)
    ensures Decode(frame).Some? ==> Encode(Decode(frame).value) == frame
  {
    if |frame| == 2 {
      var reg, p := frame[0], frame[1];
      assert frame == [reg, p];
      if reg <= 0x03 {
        EncodeDecodeControl(reg, p);
      } else if 0x07 < reg <= 0x0C {
        EncodeDecodeT0(reg, p);
      } else if 0x0C < reg <= 0x12 {
        EncodeDecodeT1T2(reg, p);
      } else if 0x12 < reg <= 0x18 {
        EncodeDecodeT3T4(reg, p);
      }
    }
  }

  /** The variant that owns register `reg`, if any: the register map read backwards. */
  function KindAt(reg: Byte): Option<nat>
  {
    if reg == 0x00 then Some(0) else if reg == 0x01 then Some(1)
    else if reg == 0x02 then Some(2) else if reg == 0x03 then Some(3)
    else if reg == 0x04 then Some(4) else if reg == 0x05 then Some(5)
    else if reg == 0x06 then Some(6) else if reg == 0x07 then Some(7)
    else if reg == 0x0A then Some(8) else if reg == 0x0B then Some(9)
    else if reg == 0x0C then Some(10) else if reg == 0x10 then Some(11)
    else if reg == 0x11 then Some(12) else if reg == 0x12 then Some(13)
    else if reg == 0x16 then Some(14) else if reg == 0x17 then Some(15)
    else if reg == 0x18 then Some(16) else if reg == 0x1C then Some(17)
    else if reg == 0x1D then Some(18) else if reg == 0x2F then Some(19)
    else None
  }

  /** Reading a command's register back through the map gives the command's variant. */
  lemma KindAtRegister(c: Command)
    ensures KindAt(Encode(c)[0]) == Some(Kind(c))
  {
  }

  /** Byte 0 of a command's frame is the register-table entry of its variant. */
  lemma RegisterOfKind(c: Command)
    ensures Encode(c)[0] == RegisterTable[Kind(c)]
  {
  }

  /**
   * Each variant owns its register and no two variants share one, so byte 0
   * alone tells which variant a frame carries.
   */
  lemma RegisterIdentifiesVariant(a: Command, b: Command)
    ensures Encode(a)[0] == Encode(b)[0] <==> Kind(a) == Kind(b)
  {
    RegisterOfKind(a);
    RegisterOfKind(b);
    KindAtRegister(a);
    KindAtRegister(b);
  }

  /** Every register of the map decodes with an all-zero payload. */
  lemma RegisterMapDecodes(i: nat)
    requires i < |RegisterTable|
    ensures Decode([RegisterTable[i], 0]).Some?
  {
  }

  /** A register outside the map decodes with no payload at all. */
  lemma OnlyRegisterMapDecodes(reg: Byte, p: Byte)
    ensures Decode([reg, p]).Some? ==> reg in RegisterTable
  {
  }

  /**
   * The registers commands are sent to are exactly the register map: every
   * register in it takes an all-zero payload, and no other register decodes.
   */
  lemma RegisterMapExact(reg: Byte)
    ensures reg in RegisterTable <==> Decode([reg, 0]).Some?
  {
    OnlyRegisterMapDecodes(reg, 0);
    if reg in RegisterTable {
      var i :| 0 <= i < |RegisterTable| && RegisterTable[i] == reg;
      RegisterMapDecodes(i);
    }
  }

  /** The duty command for channel `ch`: registers 0x04-0x06, the raw duty value. */
  function PwmFor(ch: Channel, v: Byte): (c: Command)
    ensures Encode(c) == [0x04 + ChannelCode(ch), v]
  {
    match ch
    case Led1 => PWMLed1(v)
    case Led2 => PWMLed2(v)
    case Led3 => PWMLed3(v)
  }

  /** The T0 command for channel `led`: registers 0x0A-0x0C, the code times 16. */
  function T0For(led: Channel, t0: T0): (c: Command)
    ensures Encode(c) == [0x0A + ChannelCode(led), T0Code(t0) * 16]
  {
    match led
    case Led1 => T0Led1(t0)
    case Led2 => T0Led2(t0)
    case Led3 => T0Led3(t0)
  }

  /** The T1/T2 command for channel `led`: registers 0x10-0x12, the sum of the two codes. */
  function T1T2For(led: Channel, t1: T1, t2: T2): (c: Command)
    ensures Encode(c) == [0x10 + ChannelCode(led), T1Code(t1) + T2Code(t2)]
  {
    match led
    case Led1 => T1T2Led1(t1, t2)
    case Led2 => T1T2Led2(t1, t2)
    case Led3 => T1T2Led3(t1, t2)
  }

  /** The T3/T4 command for channel `led`: registers 0x16-0x18, the sum of the two codes. */
  function T3T4For(led: Channel, t3: T3, t4: T4): (c: Command)
    ensures Encode(c) == [0x16 + ChannelCode(led), T3Code(t3) + T4Code(t4)]
  {
    match led
    case Led1 => T3T4Led1(t3, t4)
    case Led2 => T3T4Led2(t3, t4)
    case Led3 => T3T4Led3(t3, t4)
  }
}
