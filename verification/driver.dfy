/**
 * The ADS1015/ADS1115 conversion driver: the gain and model settings, the
 * single-ended read transaction over I2C, and the scaling of a raw sample to
 * volts.
 *
 * The I2C transport is a `Bus` object whose calls may each fail; every call,
 * and the blocking sleep between them, is appended to a ghost trace, so the
 * driver's contract can say exactly which calls a read makes and in what order.
 * Voltages are exact `real`s.
 */
module Driver {
  import opened Wrappers
  import Reg

  // ---------------------------------------------------------------------------
  // Settings
  // ---------------------------------------------------------------------------

  /** The two chips this driver supports; fixed when the driver is created. */
  datatype Model = ADS1015 | ADS1115

  /** An analog input pin. */
  datatype Channel = A0 | A1 | A2 | A3

  /** The gain setting, named by the measurable range it gives. */
  datatype Gain = Within6_144V | Within4_096V | Within2_048V | Within1_024V | Within0_512V | Within0_256V

  /** The `Mux` selection that measures `channel` single-ended (against GND). */
  function MuxSingle(channel: Channel): (m: Reg.MuxValue)
    ensures m.IsSingleEnded()
  {
    match channel
    case A0 => Reg.Single0
    case A1 => Reg.Single1
    case A2 => Reg.Single2
    case A3 => Reg.Single3
  }

  /** The channel a single-ended `Mux` selection measures; none for the differential ones. */
  function ChannelOfMux(m: Reg.MuxValue): (c: Option<Channel>)
    ensures c.Some? <==> m.IsSingleEnded()
  {
    match m
    case Single0 => Some(A0)
    case Single1 => Some(A1)
    case Single2 => Some(A2)
    case Single3 => Some(A3)
    case _ => None
  }

  /**
   * Channels and single-ended selections correspond one to one, and A0..A3
   * select the `Mux` codes 100, 101, 110 and 111.
   */
  lemma MuxSingleBijective(c: Channel, m: Reg.MuxValue)
    ensures ChannelOfMux(MuxSingle(c)) == Some(c)
    ensures m.IsSingleEnded() ==> MuxSingle(ChannelOfMux(m).value) == m
    ensures Reg.MuxCode(MuxSingle(c)) >> 12 == match c case A0 => 4 case A1 => 5 case A2 => 6 case A3 => 7
  {
  }

  /** The `Pga` value for a gain; never one of the reserved codes. */
  function PgaOf(gain: Gain): (p: Reg.PgaValue)
    ensures !p.IsReserved()
  {
    match gain
    case Within6_144V => Reg.Range6_144V
    case Within4_096V => Reg.Range4_096V
    case Within2_048V => Reg.Range2_048V
    case Within1_024V => Reg.Range1_024V
    case Within0_512V => Reg.Range0_512V
    case Within0_256V => Reg.Range0_256V
  }

  /** The gain a `Pga` value stands for; none for the reserved codes. */
  function GainOfPga(p: Reg.PgaValue): (g: Option<Gain>)
    ensures g.Some? <==> !p.IsReserved()
  {
    match p
    case Range6_144V => Some(Within6_144V)
    case Range4_096V => Some(Within4_096V)
    case Range2_048V => Some(Within2_048V)
    case Range1_024V => Some(Within1_024V)
    case Range0_512V => Some(Within0_512V)
    case Range0_256V => Some(Within0_256V)
    case _ => None
  }

  /** Gains and the unreserved `Pga` values (codes 000..101) correspond one to one. */
  lemma PgaOfBijective(g: Gain, p: Reg.PgaValue)
    ensures GainOfPga(PgaOf(g)) == Some(g)
    ensures !p.IsReserved() ==> PgaOf(GainOfPga(p).value) == p
    ensures Reg.PgaCode(PgaOf(g)) >> 9 <= 5
  {
  }

  /** Gains that select the same `Pga` value are the same gain. */
  lemma PgaOfInjective(g: Gain, h: Gain)
    requires PgaOf(g) == PgaOf(h)
    ensures g == h
  {
    PgaOfBijective(g, PgaOf(g));
    PgaOfBijective(h, PgaOf(h));
  }

  /**
   * The fixed wait, in milliseconds, between starting a conversion and reading
   * it; it is at least one sample period at the 3300 samples per second that
   * the driver selects.
   */
  function ConversionDelayMs(model: Model): (ms: nat)
    ensures ms * 3300 >= 1000
  {
    match model
    case ADS1015 => 1
    case ADS1115 => 8
  }

  // ---------------------------------------------------------------------------
  // Scaling
  // ---------------------------------------------------------------------------

  /** The magnitude, in volts, of the measurable range a gain gives. */
  function FullScale(gain: Gain): (v: real)
    ensures v > 0.0
  {
    match gain
    case Within6_144V => 6.144
    case Within4_096V => 4.096
    case Within2_048V => 2.048
    case Within1_024V => 1.024
    case Within0_512V => 0.512
    case Within0_256V => 0.256
  }

  /** The number of sample values on each side of zero: 2^11 for the 12-bit chip, 2^15 for the 16-bit one. */
  function HalfRange(model: Model): int
  {
    match model
    case ADS1015 => 2048
    case ADS1115 => 32768
  }

  /** Volts per least significant bit of the sample: the full-scale range spread over half the sample values. */
  function LsbVolts(model: Model, gain: Gain): (lsb: real)
    ensures lsb > 0.0
    ensures lsb * HalfRange(model) as real == FullScale(gain)
  {
    match model
    case ADS1015 =>
      (match gain
       case Within6_144V => 3.0000e-3
       case Within4_096V => 2.0000e-3
       case Within2_048V => 1.0000e-3
       case Within1_024V => 5.0000e-4
       case Within0_512V => 2.5000e-4
       case Within0_256V => 1.2500e-4)
    case ADS1115 =>
      (match gain
       case Within6_144V => 1.8750e-4
       case Within4_096V => 1.2500e-4
       case Within2_048V => 6.2500e-5
       case Within1_024V => 3.1250e-5
       case Within0_512V => 1.5625e-5
       case Within0_256V => 7.8125e-6)
  }

  /** The ADS1015's volts per bit are exactly 16 times the ADS1115's, for every gain. */
  lemma Ads1015LsbIs16Times(gain: Gain)
    ensures LsbVolts(ADS1015, gain) == 16.0 * LsbVolts(ADS1115, gain)
  {
    var a, b := LsbVolts(ADS1015, gain), LsbVolts(ADS1115, gain);
    assert a * 2048.0 == b * 32768.0;
  }

  /** A signed 16-bit value. */
  predicate IsI16(value: int) { -32768 <= value < 32768 }

  /**
   * The sample a raw 16-bit register value holds: the ADS1015 leaves its 12-bit
   * result left-aligned, so the value is shifted right arithmetically by 4 bits
   * (rounding towards minus infinity); the ADS1115 uses all 16 bits.
   */
  function Sample(model: Model, raw: int): (s: int)
    requires IsI16(raw)
    ensures -HalfRange(model) <= s < HalfRange(model)
    ensures model == ADS1015 ==> 16 * s <= raw < 16 * s + 16
    ensures model == ADS1115 ==> s == raw
  {
    match model
    case ADS1015 => raw / 16
    case ADS1115 => raw
  }

  /** The voltage a raw register value stands for; it lies within the gain's full-scale range. */
  function ConvertRawVoltage(model: Model, gain: Gain, raw: int): (v: real)
    requires IsI16(raw)
    ensures -FullScale(gain) <= v < FullScale(gain)
  {
    var s := Sample(model, raw);
    var lsb := LsbVolts(model, gain);
    assert -HalfRange(model) as real * lsb <= s as real * lsb < HalfRange(model) as real * lsb by {
      ScaleBounds(s, HalfRange(model), lsb);
    }
    s as real * lsb
  }

  /** Multiplying by a positive scale keeps a bound on the sample. */
  lemma ScaleBounds(s: int, half: int, lsb: real)
    requires -half <= s < half
    requires lsb > 0.0
    ensures -half as real * lsb <= s as real * lsb < half as real * lsb
  {
  }

  /** Zero reads as zero volts, one sample step as one LSB, and minus one step as minus one LSB. */
  lemma ConvertSmallValues(model: Model, gain: Gain)
    ensures ConvertRawVoltage(model, gain, 0) == 0.0
    ensures ConvertRawVoltage(model, gain, if model == ADS1015 then 16 else 1) == LsbVolts(model, gain)
    ensures ConvertRawVoltage(model, gain, if model == ADS1015 then -16 else -1) == -LsbVolts(model, gain)
  {
  }

  /** The most negative raw value reads as exactly the negative full-scale voltage. */
  lemma ConvertMostNegative(model: Model, gain: Gain)
    ensures ConvertRawVoltage(model, gain, -32768) == -FullScale(gain)
  {
  }

  /** The voltage never decreases as the raw value increases. */
  lemma ConvertMonotonic(model: Model, gain: Gain, raw1: int, raw2: int)
    requires IsI16(raw1) && IsI16(raw2) && raw1 <= raw2
    ensures ConvertRawVoltage(model, gain, raw1) <= ConvertRawVoltage(model, gain, raw2)
  {
    var s1, s2 := Sample(model, raw1), Sample(model, raw2);
    assert s1 <= s2;
    MultiplyMonotonic(s1 as real, s2 as real, LsbVolts(model, gain));
  }

  lemma MultiplyMonotonic(x: real, y: real, k: real)
    requires x <= y && k > 0.0
    ensures x * k <= y * k
  {
  }

  // ---------------------------------------------------------------------------
  // Byte order
  // ---------------------------------------------------------------------------

  /** The signed value of two bytes read most significant first (two's complement). */
  function I16FromBigEndian(hi: bv8, lo: bv8): (v: int)
    ensures IsI16(v)
    ensures v == hi as int * 256 + lo as int || v == hi as int * 256 + lo as int - 65536
    ensures v < 0 <==> hi as int >= 0x80
  {
    var u := hi as int * 256 + lo as int;
    if u < 32768 then u else u - 65536
  }

  /** The two bytes of a 16-bit word, least significant first. */
  function U16ToLittleEndian(w: bv16): (bytes: seq<bv8>)
    ensures |bytes| == 2
    ensures bytes[0] as bv16 | ((bytes[1] as bv16) << 8) == w
  {
    [(w & 0xFF) as bv8, (w >> 8) as bv8]
  }

  // ---------------------------------------------------------------------------
  // The configuration word a read writes
  // ---------------------------------------------------------------------------

  /**
   * The fields written to start a single-ended read: start a conversion on the
   * channel's single-ended input at the current gain, single-shot, 3300
   * samples per second, comparator disabled.
   */
  function ReadConfig(channel: Channel, gain: Gain): Reg.ConfigFields
  {
    Reg.ConfigFields(Reg.OsSet, MuxSingle(channel), PgaOf(gain), Reg.SingleShot, Reg.Sps3300,
                     Reg.Traditional, Reg.ActiveLow, Reg.NonLatching, Reg.Disabled)
  }

  /** The `Config` word a read writes; its fields decode to `ReadConfig`. */
  function ReadConfigWord(channel: Channel, gain: Gain): (w: bv16)
    ensures Reg.Decode(w) == ReadConfig(channel, gain)
  {
    Reg.DecodeEncode(ReadConfig(channel, gain));
    Reg.Encode(ReadConfig(channel, gain))
  }

  /** The exact bytes a read writes: the `Config` pointer, then the word least significant byte first. */
  function ConfigWriteBuffer(channel: Channel, gain: Gain): (bytes: seq<bv8>)
    ensures |bytes| == 3 && bytes[0] == Reg.Address(Reg.Config)
    ensures bytes[1] as bv16 | ((bytes[2] as bv16) << 8) == ReadConfigWord(channel, gain)
  {
    [Reg.Address(Reg.Config)] + U16ToLittleEndian(ReadConfigWord(channel, gain))
  }

  /**
   * The word's bits: Os = 1, Mux = the channel's single-ended code, Pga = the
   * gain's code, Mode = 1, Dr = 110, Cmode = Cpol = Clat = 0, Cque = 11; for A0
   * at the widest range it is 0xC1C3, written as 0x01 0xC3 0xC1.
   */
  lemma ReadConfigWordBits(channel: Channel, gain: Gain)
    ensures var w := ReadConfigWord(channel, gain);
      && w & Reg.OsMask == Reg.OsSingle
      && w & Reg.MuxMask == Reg.MuxCode(MuxSingle(channel))
      && w & Reg.PgaMask == Reg.PgaCode(PgaOf(gain))
      && w & Reg.ModeMask == Reg.ModeSingle
      && w & Reg.DrMask == Reg.Dr_3300SPS
      && w & (Reg.CmodeMask | Reg.CpolMask | Reg.ClatMask) == 0
      && w & Reg.CqueMask == Reg.CqueNone
    ensures ReadConfigWord(A0, Within6_144V) == 0xC1C3
    ensures ConfigWriteBuffer(A0, Within6_144V) == [0x01, 0xC3, 0xC1]
  {
  }

  /**
   * The bit pattern of a word a read can write: `Os` set, a single-ended `Mux`
   * code (bit 14 set), an unreserved `Pga` code, single-shot, 3300 samples per
   * second, and the comparator fields at 0, 0, 0, 11.
   */
  predicate IsReadConfigWord(w: bv16)
  {
    && w & Reg.OsMask == Reg.OsSingle
    && w & Reg.MuxMask & 0x4000 != 0
    && w & Reg.PgaMask != 0x0C00 && w & Reg.PgaMask != 0x0E00
    && w & Reg.ModeMask == Reg.ModeSingle
    && w & Reg.DrMask == Reg.Dr_3300SPS
    && w & (Reg.CmodeMask | Reg.CpolMask | Reg.ClatMask) == 0
    && w & Reg.CqueMask == Reg.CqueNone
  }

  /** The words reads write are exactly the words of that pattern: each such word is written for some channel and gain. */
  lemma ReadConfigWords(w: bv16)
    ensures IsReadConfigWord(w) <==> exists c: Channel, g: Gain :: ReadConfigWord(c, g) == w
  {
    if IsReadConfigWord(w) {
      var f := Reg.Decode(w);
      var c := ChannelOfMux(f.mux).value;
      var g := GainOfPga(f.pga).value;
      MuxSingleBijective(c, f.mux);
      PgaOfBijective(g, f.pga);
      assert ReadConfig(c, g) == f;
      Reg.EncodeDecode(w);
      assert ReadConfigWord(c, g) == w;
    }
    if exists c: Channel, g: Gain :: ReadConfigWord(c, g) == w {
      var c: Channel, g: Gain :| ReadConfigWord(c, g) == w;
      ReadConfigWordBits(c, g);
      PgaOfBijective(g, PgaOf(g));
    }
  }

  /**
   * Builds the word as the driver does: starts from the default word and sets
   * each of the nine fields in turn (clear the field's bits, then OR in the code).
   */
  method BuildConfig(channel: Channel, gain: Gain) returns (config: bv16)
    ensures config == ReadConfigWord(channel, gain)
  {
    config := Reg.Default();
    ghost var start := config;
    config := Reg.SetField(config, Reg.Os, Reg.OsSingle);
    config := Reg.SetField(config, Reg.Mux, Reg.MuxCode(MuxSingle(channel)));
    config := Reg.SetField(config, Reg.Pga, Reg.PgaCode(PgaOf(gain)));
    config := Reg.SetField(config, Reg.Mode, Reg.ModeSingle);
    config := Reg.SetField(config, Reg.Dr, Reg.Dr_3300SPS);
    config := Reg.SetField(config, Reg.Cmode, Reg.CmodeTrad);
    config := Reg.SetField(config, Reg.Cpol, Reg.CpolActvlow);
    config := Reg.SetField(config, Reg.Clat, Reg.ClatNonlat);
    config := Reg.SetField(config, Reg.Cque, Reg.CqueNone);
    ghost var fields := ReadConfig(channel, gain);
    assert Reg.OsCode(fields.os) == Reg.OsSingle && Reg.ModeCode(fields.mode) == Reg.ModeSingle;
    assert Reg.DrCode(fields.dr) == Reg.Dr_3300SPS && Reg.CmodeCode(fields.cmode) == Reg.CmodeTrad;
    assert Reg.CpolCode(fields.cpol) == Reg.CpolActvlow && Reg.ClatCode(fields.clat) == Reg.ClatNonlat;
    assert Reg.CqueCode(fields.cque) == Reg.CqueNone;
    Reg.SetEveryField(start, fields);
  }

  // ---------------------------------------------------------------------------
  // Errors and the bus
  // ---------------------------------------------------------------------------

  /** The cause an I2C transport reports; its contents are the transport's own. */
  datatype BusError = BusError(code: int)

  /** The driver's one error kind: a failure of the I2C bus. */
  datatype Error = I2C(cause: BusError)

  /** Tags a transport failure as the driver's I2C error. */
  function WrapError(r: Result<real, BusError>): (w: Result<real, Error>)
    ensures w.Ok? <==> r.Ok?
    ensures w.Ok? ==> w.value == r.value
    ensures w.Err? ==> w.error.cause == r.error
  {
    match r
    case Ok(v) => Ok(v)
    case Err(e) => Err(I2C(e))
  }

  /** One step of a bus conversation, with what it returned. */
  datatype Event =
    | Write(bytes: seq<bv8>, status: Outcome<BusError>)
    | Delay(ms: nat)
    | WriteByte(b: bv8, status: Outcome<BusError>)
    | Read(n: nat, data: Result<seq<bv8>, BusError>)

  /**
   * The I2C device handle.  What the device answers is not modelled: each call
   * may succeed or fail with any cause, and a read may deliver any bytes.  Every
   * call, and the host's sleep, is appended to `trace`.
   */
  class Bus {
    ghost var trace: seq<Event>

    constructor ()
      ensures trace == []
    {
      trace := [];
    }

    /** Writes `bytes` in one I2C transfer. */
    method Write(bytes: seq<bv8>) returns (status: Outcome<BusError>)
      modifies this
      ensures trace == old(trace) + [Event.Write(bytes, status)]
    {
      status := *;
      trace := trace + [Event.Write(bytes, status)];
    }

    /** Sends one byte with the SMBus "write byte" command. */
    method SmbusWriteByte(b: bv8) returns (status: Outcome<BusError>)
      modifies this
      ensures trace == old(trace) + [Event.WriteByte(b, status)]
    {
      status := *;
      trace := trace + [Event.WriteByte(b, status)];
    }

    /** Reads `buf.Length` bytes into `buf`; on success `buf` holds what was read. */
    method Read(buf: array<bv8>) returns (status: Outcome<BusError>)
      modifies this, buf
      ensures status.Pass? ==> trace == old(trace) + [Event.Read(buf.Length, Ok(buf[..]))]
      ensures status.Fail? ==> trace == old(trace) + [Event.Read(buf.Length, Err(status.error))]
    {
      var ok: bool := *;
      if ok {
        forall i | 0 <= i < buf.Length {
          buf[i] := *;
        }
        status := Pass;
        trace := trace + [Event.Read(buf.Length, Ok(buf[..]))];
      } else {
        var cause: BusError := *;
        status := Fail(cause);
        trace := trace + [Event.Read(buf.Length, Err(cause))];
      }
    }

    /** The host's blocking sleep; it cannot fail. */
    method Sleep(ms: nat)
      modifies this
      ensures trace == old(trace) + [Event.Delay(ms)]
    {
      trace := trace + [Event.Delay(ms)];
    }
  }

  /** The request for a conversion result: the `Convert` pointer, written as one byte. */
  const SelectConvert: bv8 := Reg.Address(Reg.Convert)

  /**
   * `t` is the conversation of one single-ended read of `channel` and `r` its
   * result: the `Config` write; if it succeeded, the conversion delay and the
   * selection of the `Convert` register; if that succeeded, a 2-byte read,
   * whose bytes, taken as a big-endian signed value, give the voltage.  The
   * first failing call ends the conversation and its cause is the result.
   */
  ghost predicate ReadTransaction(model: Model, gain: Gain, channel: Channel, t: seq<Event>, r: Result<real, BusError>)
  {
    && |t| >= 1
    && t[0].Write? && t[0].bytes == ConfigWriteBuffer(channel, gain)
    && (t[0].status.Fail? ==> |t| == 1 && r == Err(t[0].status.error))
    && (t[0].status.Pass? ==>
          && |t| >= 3
          && t[1] == Delay(ConversionDelayMs(model))
          && t[2].WriteByte? && t[2].b == SelectConvert
          && (t[2].status.Fail? ==> |t| == 3 && r == Err(t[2].status.error))
          && (t[2].status.Pass? ==>
                && |t| == 4
                && t[3].Read? && t[3].n == 2
                && (t[3].data.Err? ==> r == Err(t[3].data.error))
                && (t[3].data.Ok? ==>
                      && |t[3].data.value| == 2
                      && r == Ok(ConvertRawVoltage(model, gain, I16FromBigEndian(t[3].data.value[0], t[3].data.value[1]))))))
  }

  /** A transaction whose configuration write fails ends there, with that error. */
  lemma WriteFailsTransaction(model: Model, gain: Gain, channel: Channel, e: BusError)
    ensures ReadTransaction(model, gain, channel, [Event.Write(ConfigWriteBuffer(channel, gain), Fail(e))], Err(e))
  {
  }

  /** A transaction whose pointer write fails ends after the delay, with that error. */
  lemma SelectFailsTransaction(model: Model, gain: Gain, channel: Channel, e: BusError)
    ensures ReadTransaction(model, gain, channel,
      [Event.Write(ConfigWriteBuffer(channel, gain), Pass), Delay(ConversionDelayMs(model)),
       WriteByte(SelectConvert, Fail(e))], Err(e))
  {
  }

  /** A transaction whose read fails reports that error; one whose read succeeds reports the converted voltage. */
  lemma ReadEndsTransaction(model: Model, gain: Gain, channel: Channel, data: Result<seq<bv8>, BusError>)
    requires data.Ok? ==> |data.value| == 2
    ensures var r := if data.Err? then Err(data.error)
                     else Ok(ConvertRawVoltage(model, gain, I16FromBigEndian(data.value[0], data.value[1])));
      ReadTransaction(model, gain, channel,
        [Event.Write(ConfigWriteBuffer(channel, gain), Pass), Delay(ConversionDelayMs(model)),
         WriteByte(SelectConvert, Pass), Event.Read(2, data)], r)
  {
  }

  /**
   * A successful read makes exactly four steps: one 3-byte write, the delay,
   * one byte write and one 2-byte read.  A failed read makes no call after the
   * one that failed, and never delays or reads after a failed write.
   */
  lemma ReadTransactionShape(model: Model, gain: Gain, channel: Channel, t: seq<Event>, r: Result<real, BusError>)
    requires ReadTransaction(model, gain, channel, t, r)
    ensures r.Ok? ==> t == [Write(ConfigWriteBuffer(channel, gain), Pass), Delay(if model == ADS1015 then 1 else 8),
                            WriteByte(0x00, Pass), Read(2, t[3].data)]
    ensures r.Ok? ==> t[3].data.Ok?
    ensures r.Err? <==> exists k :: 0 <= k < |t| && Failed(t[k])
    ensures r.Err? ==> Failed(t[|t| - 1]) && r.error == Cause(t[|t| - 1])
    ensures forall k :: 0 <= k < |t| - 1 ==> !Failed(t[k])
  {
  }

  /** True of a bus step that failed. */
  predicate Failed(e: Event)
  {
    match e
    case Write(_, s) => s.Fail?
    case Delay(_) => false
    case WriteByte(_, s) => s.Fail?
    case Read(_, d) => d.Err?
  }

  /** The cause of a failed bus step. */
  function Cause(e: Event): BusError
    requires Failed(e)
  {
    match e
    case Write(_, s) => s.error
    case WriteByte(_, s) => s.error
    case Read(_, d) => d.error
  }

  /**
   * The end-to-end examples: an ADS1115 at +/-2.048V reading 0x7F 0xFF gives
   * 32767 * 62.5 uV; an ADS1015 at +/-6.144V reading 4080 (0x0F 0xF0) gives
   * 255 * 3 mV = 0.765 V.
   */
  lemma ConvertExamples()
    ensures ConvertRawVoltage(ADS1115, Within2_048V, I16FromBigEndian(0x7F, 0xFF)) == 2.0479375
    ensures ConvertRawVoltage(ADS1015, Within6_144V, I16FromBigEndian(0x0F, 0xF0)) == 0.765
  {
  }

  // ---------------------------------------------------------------------------
  // The driver
  // ---------------------------------------------------------------------------

  /** An ADS1x15 reached through the I2C handle `device`. */
  class Ads1x15 {
    const device: Bus
    var gain: Gain
    const model: Model

    /** A driver for an ADS1015 on `device`, at the widest range. */
    constructor NewAds1015(device: Bus)
      ensures this.device == device && model == ADS1015 && gain == Within6_144V
    {
      this.device := device;
      gain := Within6_144V;
      model := ADS1015;
    }

    /** A driver for an ADS1115 on `device`, at the widest range. */
    constructor NewAds1115(device: Bus)
      ensures this.device == device && model == ADS1115 && gain == Within6_144V
    {
      this.device := device;
      gain := Within6_144V;
      model := ADS1115;
    }

    /** The current gain setting. */
    method CurrentGain() returns (g: Gain)
      ensures g == gain
    {
      g := gain;
    }

    /** Changes the gain used by later reads; touches neither the bus nor the model. */
    method SetGain(g: Gain)
      modifies this
      ensures gain == g
      ensures device.trace == old(device.trace)
    {
      gain := g;
    }

    /**
     * Builds the configuration word for a read of `channel` at the current
     * gain and writes it to the `Config` register, least significant byte first.
     */
    method WriteConfig(channel: Channel) returns (written: Outcome<BusError>)
      modifies device
      ensures device.trace == old(device.trace) + [Event.Write(ConfigWriteBuffer(channel, gain), written)]
    {
      var config := BuildConfig(channel, gain);
      var writeBuf := new bv8[3](_ => 0);
      writeBuf[0] := Reg.Address(Reg.Config);
      var le := U16ToLittleEndian(config);
      writeBuf[1], writeBuf[2] := le[0], le[1];
      assert writeBuf[..] == ConfigWriteBuffer(channel, gain);
      written := device.Write(writeBuf[..]);
    }

    /**
     * One single-ended read of `channel` at the current gain: the bus calls it
     * makes are exactly a `ReadTransaction`, and a failure carries the bus's own cause.
     */
    method ReadSingleEndedImpl(channel: Channel) returns (r: Result<real, BusError>)
      modifies device
      ensures gain == old(gain)
      ensures old(device.trace) <= device.trace
      ensures ReadTransaction(model, gain, channel, device.trace[|old(device.trace)|..], r)
    {
      ghost var before := device.trace;
      var written := WriteConfig(channel);
      if written.Fail? {
        assert device.trace[|before|..] == [Event.Write(ConfigWriteBuffer(channel, gain), written)];
        WriteFailsTransaction(model, gain, channel, written.error);
        return Err(written.error);
      }

      device.Sleep(ConversionDelayMs(model));

      var readBuf := new bv8[2](_ => 0);
      var selected := device.SmbusWriteByte(SelectConvert);
      ghost var steps := [Event.Write(ConfigWriteBuffer(channel, gain), Pass), Delay(ConversionDelayMs(model)),
                          WriteByte(SelectConvert, selected)];
      assert device.trace[|before|..] == steps;
      if selected.Fail? {
        SelectFailsTransaction(model, gain, channel, selected.error);
        return Err(selected.error);
      }
      var read := device.Read(readBuf);
      ghost var data := if read.Pass? then Ok(readBuf[..]) else Err(read.error);
      assert device.trace[|before|..] == steps + [Event.Read(2, data)];
      ReadEndsTransaction(model, gain, channel, data);
      if read.Fail? {
        return Err(read.error);
      }
      var value := ConvertRawVoltage(model, gain, I16FromBigEndian(readBuf[0], readBuf[1]));
      r := Ok(value);
    }

    /** Reads the voltage on `channel`, in volts; a bus failure becomes an `I2C` error. */
    method ReadSingleEnded(channel: Channel) returns (r: Result<real, Error>)
      modifies device
      ensures gain == old(gain)
      ensures old(device.trace) <= device.trace
      ensures exists inner :: r == WrapError(inner) && ReadTransaction(model, gain, channel, device.trace[|old(device.trace)|..], inner)
    {
      var inner := ReadSingleEndedImpl(channel);
      r := WrapError(inner);
    }
  }
}
