/**
 * The driver's value domains. Every level of every enumeration is pinned to
 * the number the chip expects on the wire, written exactly as the Rust
 * discriminant is written (including the pre-shifts of the packed timing
 * and current fields). Each code function has a partner decoder that
 * recognises exactly the codes of that domain.
 */
module Domains {
  import opened Wrappers

  /** One octet on the bus: Rust's `u8`, with its truncating shifts. */
  type Byte = bv8

  /** Maximum LED current; the code sits in bits 2-4 of register 0x03. */
  datatype Intensity = MA5 | MA10 | MA17 | MA30 | MA42

  function IntensityCode(i: Intensity): (code: Byte)
    ensures code % 4 == 0 && code <= 16
  {
    match i
    case MA5 => 2 << 2
    case MA10 => 1 << 2
    case MA17 => 4 << 2
    case MA30 => 3 << 2
    case MA42 => 0 << 2
  }

  function IntensityOf(b: Byte): (r: Option<Intensity>)
    ensures r.Some? ==> IntensityCode(r.value) == b
    ensures r.None? ==> forall i: Intensity :: IntensityCode(i) != b
  {
    if b == 8 then Some(MA5)
    else if b == 4 then Some(MA10)
    else if b == 16 then Some(MA17)
    else if b == 12 then Some(MA30)
    else if b == 0 then Some(MA42)
    else None
  }

  /** An LED output; its code is the channel-select field of register 0x01. */
  datatype Channel = Led1 | Led2 | Led3

  function ChannelCode(ch: Channel): (code: Byte)
    ensures code <= 2
  {
    match ch
    case Led1 => 0
    case Led2 => 1
    case Led3 => 2
  }

  function ChannelOf(b: Byte): (r: Option<Channel>)
    ensures r.Some? ==> ChannelCode(r.value) == b
    ensures r.None? ==> forall ch: Channel :: ChannelCode(ch) != b
  {
    if b == 0 then Some(Led1)
    else if b == 1 then Some(Led2)
    else if b == 2 then Some(Led3)
    else None
  }

  /**
   * Breathing sub-mode. The Rust enum has discriminants, but they never
   * reach the wire: the controller translates each level into the
   * ramp-enable and hold-time flags of register 0x01.
   */
  datatype BreathingMode = Auto | OneCycle | RampToOn

  /** Which channel, if any, stays lit during the hold phase. */
  datatype Marking = Off | On(channel: Channel)

  /** The LED operating mode chosen by `set_mode`. */
  datatype Mode = PWM | Breath(breathing: BreathingMode, marking: Marking)

  /** T0, the start delay of a breathing cycle; code in the high nibble of 0x0A-0x0C. */
  datatype T0 = MS0 | MS130 | MS260 | MS520 | MS1040 | MS2080 | MS4160 | MS8320
              | MS16640 | MS33280 | MS66560

  function T0Code(t: T0): (code: Byte)
    ensures code <= 10
  {
    match t
    case MS0 => 0
    case MS130 => 1
    case MS260 => 2
    case MS520 => 3
    case MS1040 => 4
    case MS2080 => 5
    case MS4160 => 6
    case MS8320 => 7
    case MS16640 => 8
    case MS33280 => 9
    case MS66560 => 10
  }

  function T0Of(b: Byte): (r: Option<T0>)
    ensures r.Some? ==> T0Code(r.value) == b
    ensures r.None? ==> forall t: T0 :: T0Code(t) != b
  {
    if b == 0 then Some(T0.MS0)
    else if b == 1 then Some(T0.MS130)
    else if b == 2 then Some(T0.MS260)
    else if b == 3 then Some(T0.MS520)
    else if b == 4 then Some(T0.MS1040)
    else if b == 5 then Some(T0.MS2080)
    else if b == 6 then Some(T0.MS4160)
    else if b == 7 then Some(T0.MS8320)
    else if b == 8 then Some(T0.MS16640)
    else if b == 9 then Some(T0.MS33280)
    else if b == 10 then Some(T0.MS66560)
    else None
  }

  /** T1, the ramp-up time; code pre-shifted into bits 5-7. */
  datatype T1 = MS130 | MS260 | MS520 | MS1040 | MS2080 | MS4160 | MS8320 | MS16640

  function T1Code(t: T1): (code: Byte)
    ensures code & 0x1F == 0
  {
    match t
    case MS130 => 0 << 5
    case MS260 => 1 << 5
    case MS520 => 2 << 5
    case MS1040 => 3 << 5
    case MS2080 => 4 << 5
    case MS4160 => 5 << 5
    case MS8320 => 6 << 5
    case MS16640 => 7 << 5
  }

  function T1Of(b: Byte): (r: Option<T1>)
    ensures r.Some? ==> T1Code(r.value) == b
    ensures r.None? ==> forall t: T1 :: T1Code(t) != b
  {
    if b == 0x00 then Some(T1.MS130)
    else if b == 0x20 then Some(T1.MS260)
    else if b == 0x40 then Some(T1.MS520)
    else if b == 0x60 then Some(T1.MS1040)
    else if b == 0x80 then Some(T1.MS2080)
    else if b == 0xA0 then Some(T1.MS4160)
    else if b == 0xC0 then Some(T1.MS8320)
    else if b == 0xE0 then Some(T1.MS16640)
    else None
  }

  /** T2, the hold-on time; code pre-shifted into bits 1-4. */
  datatype T2 = MS0 | MS130 | MS260 | MS520 | MS1040 | MS2080 | MS4160 | MS8320 | MS16640

  function T2Code(t: T2): (code: Byte)
    ensures code & 0xE1 == 0 && code <= 16
  {
    match t
    case MS0 => 0 << 1
    case MS130 => 1 << 1
    case MS260 => 2 << 1
    case MS520 => 3 << 1
    case MS1040 => 4 << 1
    case MS2080 => 5 << 1
    case MS4160 => 6 << 1
    case MS8320 => 7 << 1
    case MS16640 => 8 << 1
  }

  function T2Of(b: Byte): (r: Option<T2>)
    ensures r.Some? ==> T2Code(r.value) == b
    ensures r.None? ==> forall t: T2 :: T2Code(t) != b
  {
    if b == 0 then Some(T2.MS0)
    else if b == 2 then Some(T2.MS130)
    else if b == 4 then Some(T2.MS260)
    else if b == 6 then Some(T2.MS520)
    else if b == 8 then Some(T2.MS1040)
    else if b == 10 then Some(T2.MS2080)
    else if b == 12 then Some(T2.MS4160)
    else if b == 14 then Some(T2.MS8320)
    else if b == 16 then Some(T2.MS16640)
    else None
  }

  /** T3, the ramp-down time; code pre-shifted into bits 5-7. */
  datatype T3 = MS130 | MS260 | MS520 | MS1040 | MS2080 | MS4160 | MS8320 | MS16640

  function T3Code(t: T3): (code: Byte)
    ensures code & 0x1F == 0
  {
    match t
    case MS130 => 0
    case MS260 => 1 << 5
    case MS520 => 2 << 5
    case MS1040 => 3 << 5
    case MS2080 => 4 << 5
    case MS4160 => 5 << 5
    case MS8320 => 6 << 5
    case MS16640 => 7 << 5
  }

  function T3Of(b: Byte): (r: Option<T3>)
    ensures r.Some? ==> T3Code(r.value) == b
    ensures r.None? ==> forall t: T3 :: T3Code(t) != b
  {
    if b == 0x00 then Some(T3.MS130)
    else if b == 0x20 then Some(T3.MS260)
    else if b == 0x40 then Some(T3.MS520)
    else if b == 0x60 then Some(T3.MS1040)
    else if b == 0x80 then Some(T3.MS2080)
    else if b == 0xA0 then Some(T3.MS4160)
    else if b == 0xC0 then Some(T3.MS8320)
    else if b == 0xE0 then Some(T3.MS16640)
    else None
  }

  /** T4, the hold-off time; code pre-shifted into bits 1-4. */
  datatype T4 = MS0 | MS130 | MS260 | MS520 | MS1040 | MS2080 | MS4160 | MS8320
              | MS16640 | MS33280 | MS66560

  function T4Code(t: T4): (code: Byte)
    ensures code & 0xE1 == 0 && code <= 20
  {
    match t
    case MS0 => 0 << 1
    case MS130 => 1 << 1
    case MS260 => 2 << 1
    case MS520 => 3 << 1
    case MS1040 => 4 << 1
    case MS2080 => 5 << 1
    case MS4160 => 6 << 1
    case MS8320 => 7 << 1
    case MS16640 => 8 << 1
    case MS33280 => 9 << 1
    case MS66560 => 10 << 1
  }

  function T4Of(b: Byte): (r: Option<T4>)
    ensures r.Some? ==> T4Code(r.value) == b
    ensures r.None? ==> forall t: T4 :: T4Code(t) != b
  {
    if b == 0 then Some(T4.MS0)
    else if b == 2 then Some(T4.MS130)
    else if b == 4 then Some(T4.MS260)
    else if b == 6 then Some(T4.MS520)
    else if b == 8 then Some(T4.MS1040)
    else if b == 10 then Some(T4.MS2080)
    else if b == 12 then Some(T4.MS4160)
    else if b == 14 then Some(T4.MS8320)
    else if b == 16 then Some(T4.MS16640)
    else if b == 18 then Some(T4.MS33280)
    else if b == 20 then Some(T4.MS66560)
    else None
  }

  /** Each level's code decodes back to that level. */
  lemma IntensityRoundTrip(i: Intensity)
    ensures IntensityOf(IntensityCode(i)) == Some(i)
  {
  }

  lemma ChannelRoundTrip(ch: Channel)
    ensures ChannelOf(ChannelCode(ch)) == Some(ch)
  {
  }

  lemma T0RoundTrip(t: T0)
    ensures T0Of(T0Code(t)) == Some(t)
  {
  }

  lemma T1RoundTrip(t: T1)
    ensures T1Of(T1Code(t)) == Some(t)
  {
  }

  lemma T2RoundTrip(t: T2)
    ensures T2Of(T2Code(t)) == Some(t)
  {
  }

  lemma T3RoundTrip(t: T3)
    ensures T3Of(T3Code(t)) == Some(t)
  {
  }

  lemma T4RoundTrip(t: T4)
    ensures T4Of(T4Code(t)) == Some(t)
  {
  }

  /** Distinct levels of a domain never share a wire code. */
  lemma CodesInjective()
    ensures forall i, j: Intensity :: IntensityCode(i) == IntensityCode(j) ==> i == j
    ensures forall a, b: Channel :: ChannelCode(a) == ChannelCode(b) ==> a == b
    ensures forall a, b: T0 :: T0Code(a) == T0Code(b) ==> a == b
    ensures forall a, b: T1 :: T1Code(a) == T1Code(b) ==> a == b
    ensures forall a, b: T2 :: T2Code(a) == T2Code(b) ==> a == b
    ensures forall a, b: T3 :: T3Code(a) == T3Code(b) ==> a == b
    ensures forall a, b: T4 :: T4Code(a) == T4Code(b) ==> a == b
  {
  }
}
