/**
 * Definitions for the ADS1x15 I2C registers: the register pointer values and
 * the bit layout of the 16-bit `Config` register.
 *
 * The `Config` word is a `bv16`.  It is split into nine fields, each selected
 * by a mask; every field value src/reg.rs names has a named code, and the
 * codes src/reg.rs leaves unnamed have an explicit "reserved" constructor, so that
 * decoding any 16-bit word is total and never aliases an unused code to a
 * documented one.
 */
module Reg {
  import opened Wrappers

  // ---------------------------------------------------------------------------
  // Register pointers
  // ---------------------------------------------------------------------------

  /** The I2C registers present in an ADS1x15. */
  datatype Register = Convert | Config | Lowthresh | Hithresh

  /** All register pointer bits set. */
  const RegisterMask: bv8 := 0x03

  /** The pointer byte that selects register `r`; it never has a bit outside `RegisterMask`. */
  function Address(r: Register): (a: bv8)
    ensures a & RegisterMask == a
  {
    match r
    case Convert => 0x00
    case Config => 0x01
    case Lowthresh => 0x02
    case Hithresh => 0x03
  }

  /** The register a pointer byte selects, if it selects one. */
  function RegisterAt(a: bv8): (r: Option<Register>)
    ensures r.Some? <==> a & RegisterMask == a
    ensures r.Some? ==> Address(r.value) == a
  {
    if a == 0x00 then Some(Convert)
    else if a == 0x01 then Some(Config)
    else if a == 0x02 then Some(Lowthresh)
    else if a == 0x03 then Some(Hithresh)
    else None
  }

  /** The four pointers are distinct: reading a pointer back gives the register it selects. */
  lemma AddressesDistinct(r: Register, s: Register)
    ensures RegisterAt(Address(r)) == Some(r)
    ensures Address(r) == Address(s) ==> r == s
  {
    match r
    case Convert =>
    case Config =>
    case Lowthresh =>
    case Hithresh =>
  }

  /** Every value of the two pointer bits selects one of the four registers. */
  lemma EveryPointerSelectsARegister(a: bv8)
    ensures RegisterAt(a & RegisterMask).Some?
  {
  }

  // ---------------------------------------------------------------------------
  // Config register: field masks
  // ---------------------------------------------------------------------------

  /** All `Os` bits set (bit 15). */
  const OsMask: bv16 := 0x8000
  /** All `Mux` bits set (bits 14:12). */
  const MuxMask: bv16 := 0x7000
  /** All `Pga` bits set (bits 11:9). */
  const PgaMask: bv16 := 0x0E00
  /** All `Mode` bits set (bit 8). */
  const ModeMask: bv16 := 0x0100
  /** All `Dr` bits set (bits 7:5). */
  const DrMask: bv16 := 0x00E0
  /** All `Cmode` bits set (bit 4). */
  const CmodeMask: bv16 := 0x0010
  /** All `Cpol` bits set (bit 3). */
  const CpolMask: bv16 := 0x0008
  /** All `Clat` bits set (bit 2). */
  const ClatMask: bv16 := 0x0004
  /** All `Cque` bits set (bits 1:0). */
  const CqueMask: bv16 := 0x0003

  /** The nine fields of the `Config` register, from the most significant bit down. */
  datatype Field = Os | Mux | Pga | Mode | Dr | Cmode | Cpol | Clat | Cque

  /** The position of a field's least significant bit. */
  function Offset(f: Field): nat
  {
    match f
    case Os => 15
    case Mux => 12
    case Pga => 9
    case Mode => 8
    case Dr => 5
    case Cmode => 4
    case Cpol => 3
    case Clat => 2
    case Cque => 0
  }

  /** The number of bits of a field. */
  function Width(f: Field): nat
  {
    match f
    case Os => 1
    case Mux => 3
    case Pga => 3
    case Mode => 1
    case Dr => 3
    case Cmode => 1
    case Cpol => 1
    case Clat => 1
    case Cque => 2
  }

  /** The mask of a field. */
  function Mask(f: Field): bv16
  {
    match f
    case Os => OsMask
    case Mux => MuxMask
    case Pga => PgaMask
    case Mode => ModeMask
    case Dr => DrMask
    case Cmode => CmodeMask
    case Cpol => CpolMask
    case Clat => ClatMask
    case Cque => CqueMask
  }

  /** Each mask is exactly `Width(f)` contiguous bits starting at `Offset(f)`. */
  lemma MaskGeometry(f: Field)
    ensures Offset(f) + Width(f) <= 16
    ensures Mask(f) == ((1 << Width(f)) - 1) << Offset(f)
  {
    match f
    case Os =>
    case Mux =>
    case Pga =>
    case Mode =>
    case Dr =>
    case Cmode =>
    case Cpol =>
    case Clat =>
    case Cque =>
  }

  /** No two fields share a bit. */
  lemma MasksDisjoint(f: Field, g: Field)
    requires f != g
    ensures Mask(f) & Mask(g) == 0
  {
  }

  /** The nine fields cover the whole word, and their widths add up to its 16 bits. */
  lemma MasksCoverWord()
    ensures OsMask | MuxMask | PgaMask | ModeMask | DrMask | CmodeMask | CpolMask | ClatMask | CqueMask == 0xFFFF
    ensures Width(Os) + Width(Mux) + Width(Pga) + Width(Mode) + Width(Dr)
          + Width(Cmode) + Width(Cpol) + Width(Clat) + Width(Cque) == 16
  {
  }

  /** Two words that agree under each of the nine masks are the same word. */
  lemma AgreeUnderMasks(w1: bv16, w2: bv16)
    requires w1 & OsMask == w2 & OsMask && w1 & MuxMask == w2 & MuxMask && w1 & PgaMask == w2 & PgaMask
    requires w1 & ModeMask == w2 & ModeMask && w1 & DrMask == w2 & DrMask && w1 & CmodeMask == w2 & CmodeMask
    requires w1 & CpolMask == w2 & CpolMask && w1 & ClatMask == w2 & ClatMask && w1 & CqueMask == w2 & CqueMask
    ensures w1 == w2
  {
  }

  // ---------------------------------------------------------------------------
  // Config register: named codes
  // ---------------------------------------------------------------------------

  /** `Os`, write: set to start a single conversion. */
  const OsSingle: bv16 := 0x8000
  /** `Os`, read: the bit is 0 while a conversion is in progress. */
  const OsBusy: bv16 := 0x0000
  /** `Os`, read: the bit is 1 when the device is not converting. */
  const OsNotbusy: bv16 := 0x8000

  /** `Mux`: differential P = AIN0, N = AIN1 (default). */
  const MuxDiff0_1: bv16 := 0x0000
  /** `Mux`: differential P = AIN0, N = AIN3. */
  const MuxDiff0_3: bv16 := 0x1000
  /** `Mux`: differential P = AIN1, N = AIN3. */
  const MuxDiff1_3: bv16 := 0x2000
  /** `Mux`: differential P = AIN2, N = AIN3. */
  const MuxDiff2_3: bv16 := 0x3000
  /** `Mux`: single-ended AIN0. */
  const MuxSingle0: bv16 := 0x4000
  /** `Mux`: single-ended AIN1. */
  const MuxSingle1: bv16 := 0x5000
  /** `Mux`: single-ended AIN2. */
  const MuxSingle2: bv16 := 0x6000
  /** `Mux`: single-ended AIN3. */
  const MuxSingle3: bv16 := 0x7000

  /** `Pga`: +/-6.144V range (gain 2/3). */
  const Pga_6_144V: bv16 := 0x0000
  /** `Pga`: +/-4.096V range (gain 1). */
  const Pga_4_096V: bv16 := 0x0200
  /** `Pga`: +/-2.048V range (gain 2, default). */
  const Pga_2_048V: bv16 := 0x0400
  /** `Pga`: +/-1.024V range (gain 4). */
  const Pga_1_024V: bv16 := 0x0600
  /** `Pga`: +/-0.512V range (gain 8). */
  const Pga_0_512V: bv16 := 0x0800
  /** `Pga`: +/-0.256V range (gain 16). */
  const Pga_0_256V: bv16 := 0x0A00

  /** `Mode`: continuous conversion. */
  const ModeContin: bv16 := 0x0000
  /** `Mode`: power-down single-shot (default). */
  const ModeSingle: bv16 := 0x0100

  /** `Dr`: 128 samples per second. */
  const Dr_128SPS: bv16 := 0x0000
  /** `Dr`: 250 samples per second. */
  const Dr_250SPS: bv16 := 0x0020
  /** `Dr`: 490 samples per second. */
  const Dr_490SPS: bv16 := 0x0040
  /** `Dr`: 920 samples per second. */
  const Dr_920SPS: bv16 := 0x0060
  /** `Dr`: 1600 samples per second (default). */
  const Dr_1600SPS: bv16 := 0x0080
  /** `Dr`: 2400 samples per second. */
  const Dr_2400SPS: bv16 := 0x00A0
  /** `Dr`: 3300 samples per second. */
  const Dr_3300SPS: bv16 := 0x00C0

  /** `Cmode`: traditional comparator with hysteresis (default). */
  const CmodeTrad: bv16 := 0x0000
  /** `Cmode`: window comparator. */
  const CmodeWindow: bv16 := 0x0010

  /** `Cpol`: ALERT/RDY low when active (default). */
  const CpolActvlow: bv16 := 0x0000
  /** `Cpol`: ALERT/RDY high when active. */
  const CpolActvhi: bv16 := 0x0008

  /** `Clat`: non-latching comparator (default). */
  const ClatNonlat: bv16 := 0x0000
  /** `Clat`: latching comparator. */
  const ClatLatch: bv16 := 0x0004

  /** `Cque`: assert ALERT/RDY after one conversion. */
  const Cque1Conv: bv16 := 0x0000
  /** `Cque`: assert ALERT/RDY after two conversions. */
  const Cque2Conv: bv16 := 0x0001
  /** `Cque`: assert ALERT/RDY after four conversions. */
  const Cque4Conv: bv16 := 0x0002
  /** `Cque`: disable the comparator, ALERT/RDY high (default). */
  const CqueNone: bv16 := 0x0003

  /** The write-side `OsSingle` and the read-side `OsNotbusy` are the same bit; `OsBusy` is that bit clear. */
  lemma OsCodesShareBit()
    ensures OsSingle == OsNotbusy == OsMask && OsBusy == 0
  {
  }

  /** Inserting a code whose value is zero leaves a word unchanged. */
  lemma InsertZeroCodes(w: bv16)
    ensures Insert(w, MuxDiff0_1) == w && Insert(w, CmodeTrad) == w
    ensures Insert(w, CpolActvlow) == w && Insert(w, ClatNonlat) == w
  {
  }

  // ---------------------------------------------------------------------------
  // Config register: field values
  // ---------------------------------------------------------------------------

  /**
   * The `Os` bit.  Written as `OsSet` it is `OsSingle` (start a single
   * conversion); read back, `OsSet` is `OsNotbusy` and `OsClear` is `OsBusy`.
   */
  datatype OsValue = OsClear | OsSet

  datatype MuxValue = Diff0_1 | Diff0_3 | Diff1_3 | Diff2_3 | Single0 | Single1 | Single2 | Single3
  {
    /** True for the four single-ended (AINx against GND) selections. */
    predicate IsSingleEnded() { Single0? || Single1? || Single2? || Single3? }
  }

  /** The six documented ranges, and the two codes (110, 111) src/reg.rs leaves unnamed. */
  datatype PgaValue =
    | Range6_144V | Range4_096V | Range2_048V | Range1_024V | Range0_512V | Range0_256V
    | PgaReserved110 | PgaReserved111
  {
    predicate IsReserved() { PgaReserved110? || PgaReserved111? }
  }

  datatype ModeValue = Continuous | SingleShot

  /** The seven documented data rates, and the one code (111) src/reg.rs leaves unnamed. */
  datatype DrValue = Sps128 | Sps250 | Sps490 | Sps920 | Sps1600 | Sps2400 | Sps3300 | DrReserved111
  {
    predicate IsReserved() { DrReserved111? }
  }

  datatype CmodeValue = Traditional | Window
  datatype CpolValue = ActiveLow | ActiveHigh
  datatype ClatValue = NonLatching | Latching
  datatype CqueValue = AfterOne | AfterTwo | AfterFour | Disabled

  /** The `Config` register as a structure of its nine fields. */
  datatype ConfigFields = ConfigFields(
    os: OsValue, mux: MuxValue, pga: PgaValue, mode: ModeValue, dr: DrValue,
    cmode: CmodeValue, cpol: CpolValue, clat: ClatValue, cque: CqueValue)

  function OsCode(v: OsValue): (c: bv16)
    ensures c & !OsMask == 0
  {
    match v
    case OsClear => OsBusy
    case OsSet => OsSingle
  }

  function MuxCode(v: MuxValue): (c: bv16)
    ensures c & !MuxMask == 0
    ensures v.IsSingleEnded() <==> c & 0x4000 != 0
  {
    match v
    case Diff0_1 => MuxDiff0_1
    case Diff0_3 => MuxDiff0_3
    case Diff1_3 => MuxDiff1_3
    case Diff2_3 => MuxDiff2_3
    case Single0 => MuxSingle0
    case Single1 => MuxSingle1
    case Single2 => MuxSingle2
    case Single3 => MuxSingle3
  }

  function PgaCode(v: PgaValue): (c: bv16)
    ensures c & !PgaMask == 0
    ensures v.IsReserved() <==> c == 0x0C00 || c == 0x0E00
  {
    match v
    case Range6_144V => Pga_6_144V
    case Range4_096V => Pga_4_096V
    case Range2_048V => Pga_2_048V
    case Range1_024V => Pga_1_024V
    case Range0_512V => Pga_0_512V
    case Range0_256V => Pga_0_256V
    case PgaReserved110 => 0x0C00
    case PgaReserved111 => 0x0E00
  }

  function ModeCode(v: ModeValue): (c: bv16)
    ensures c & !ModeMask == 0
  {
    match v
    case Continuous => ModeContin
    case SingleShot => ModeSingle
  }

  function DrCode(v: DrValue): (c: bv16)
    ensures c & !DrMask == 0
    ensures v.IsReserved() <==> c == 0x00E0
  {
    match v
    case Sps128 => Dr_128SPS
    case Sps250 => Dr_250SPS
    case Sps490 => Dr_490SPS
    case Sps920 => Dr_920SPS
    case Sps1600 => Dr_1600SPS
    case Sps2400 => Dr_2400SPS
    case Sps3300 => Dr_3300SPS
    case DrReserved111 => 0x00E0
  }

  function CmodeCode(v: CmodeValue): (c: bv16)
    ensures c & !CmodeMask == 0
  {
    match v
    case Traditional => CmodeTrad
    case Window => CmodeWindow
  }

  function CpolCode(v: CpolValue): (c: bv16)
    ensures c & !CpolMask == 0
  {
    match v
    case ActiveLow => CpolActvlow
    case ActiveHigh => CpolActvhi
  }

  function ClatCode(v: ClatValue): (c: bv16)
    ensures c & !ClatMask == 0
  {
    match v
    case NonLatching => ClatNonlat
    case Latching => ClatLatch
  }

  function CqueCode(v: CqueValue): (c: bv16)
    ensures c & !CqueMask == 0
  {
    match v
    case AfterOne => Cque1Conv
    case AfterTwo => Cque2Conv
    case AfterFour => Cque4Conv
    case Disabled => CqueNone
  }

  // ---------------------------------------------------------------------------
  // Decoding one field
  // ---------------------------------------------------------------------------

  function DecodeOs(w: bv16): (v: OsValue)
    ensures OsCode(v) == w & OsMask
  {
    if w & OsMask == OsSingle then OsSet else OsClear
  }

  function DecodeMux(w: bv16): (v: MuxValue)
    ensures MuxCode(v) == w & MuxMask
  {
    var c := w & MuxMask;
    if c == MuxDiff0_1 then Diff0_1
    else if c == MuxDiff0_3 then Diff0_3
    else if c == MuxDiff1_3 then Diff1_3
    else if c == MuxDiff2_3 then Diff2_3
    else if c == MuxSingle0 then Single0
    else if c == MuxSingle1 then Single1
    else if c == MuxSingle2 then Single2
    else Single3
  }

  function DecodePga(w: bv16): (v: PgaValue)
    ensures PgaCode(v) == w & PgaMask
  {
    var c := w & PgaMask;
    if c == Pga_6_144V then Range6_144V
    else if c == Pga_4_096V then Range4_096V
    else if c == Pga_2_048V then Range2_048V
    else if c == Pga_1_024V then Range1_024V
    else if c == Pga_0_512V then Range0_512V
    else if c == Pga_0_256V then Range0_256V
    else if c == 0x0C00 then PgaReserved110
    else PgaReserved111
  }

  function DecodeMode(w: bv16): (v: ModeValue)
    ensures ModeCode(v) == w & ModeMask
  {
    if w & ModeMask == ModeSingle then SingleShot else Continuous
  }

  function DecodeDr(w: bv16): (v: DrValue)
    ensures DrCode(v) == w & DrMask
  {
    var c := w & DrMask;
    if c == Dr_128SPS then Sps128
    else if c == Dr_250SPS then Sps250
    else if c == Dr_490SPS then Sps490
    else if c == Dr_920SPS then Sps920
    else if c == Dr_1600SPS then Sps1600
    else if c == Dr_2400SPS then Sps2400
    else if c == Dr_3300SPS then Sps3300
    else DrReserved111
  }

  function DecodeCmode(w: bv16): (v: CmodeValue)
    ensures CmodeCode(v) == w & CmodeMask
  {
    if w & CmodeMask == CmodeWindow then Window else Traditional
  }

  function DecodeCpol(w: bv16): (v: CpolValue)
    ensures CpolCode(v) == w & CpolMask
  {
    if w & CpolMask == CpolActvhi then ActiveHigh else ActiveLow
  }

  function DecodeClat(w: bv16): (v: ClatValue)
    ensures ClatCode(v) == w & ClatMask
  {
    if w & ClatMask == ClatLatch then Latching else NonLatching
  }

  function DecodeCque(w: bv16): (v: CqueValue)
    ensures CqueCode(v) == w & CqueMask
  {
    var c := w & CqueMask;
    if c == Cque1Conv then AfterOne
    else if c == Cque2Conv then AfterTwo
    else if c == Cque4Conv then AfterFour
    else Disabled
  }

  // ---------------------------------------------------------------------------
  // Whole-word encoding and decoding
  // ---------------------------------------------------------------------------

  /** The wire word that holds `fields`: every field's bits are that field's code. */
  function Encode(fields: ConfigFields): (w: bv16)
    ensures w & OsMask == OsCode(fields.os) && w & MuxMask == MuxCode(fields.mux)
    ensures w & PgaMask == PgaCode(fields.pga) && w & ModeMask == ModeCode(fields.mode)
    ensures w & DrMask == DrCode(fields.dr) && w & CmodeMask == CmodeCode(fields.cmode)
    ensures w & CpolMask == CpolCode(fields.cpol) && w & ClatMask == ClatCode(fields.clat)
    ensures w & CqueMask == CqueCode(fields.cque)
  {
    OsCode(fields.os) | MuxCode(fields.mux) | PgaCode(fields.pga) | ModeCode(fields.mode)
    | DrCode(fields.dr) | CmodeCode(fields.cmode) | CpolCode(fields.cpol)
    | ClatCode(fields.clat) | CqueCode(fields.cque)
  }

  /** The fields a wire word holds: each field's code is exactly the word's bits under its mask. */
  function Decode(w: bv16): (fields: ConfigFields)
    ensures OsCode(fields.os) == w & OsMask && MuxCode(fields.mux) == w & MuxMask
    ensures PgaCode(fields.pga) == w & PgaMask && ModeCode(fields.mode) == w & ModeMask
    ensures DrCode(fields.dr) == w & DrMask && CmodeCode(fields.cmode) == w & CmodeMask
    ensures CpolCode(fields.cpol) == w & CpolMask && ClatCode(fields.clat) == w & ClatMask
    ensures CqueCode(fields.cque) == w & CqueMask
  {
    ConfigFields(DecodeOs(w), DecodeMux(w), DecodePga(w), DecodeMode(w), DecodeDr(w),
                 DecodeCmode(w), DecodeCpol(w), DecodeClat(w), DecodeCque(w))
  }

  /**
   * Each field's decoder inverts that field's code table, so within each field
   * the codes are distinct.
   */
  lemma CodesDecodeBack(x: ConfigFields)
    ensures DecodeOs(OsCode(x.os)) == x.os && DecodeMux(MuxCode(x.mux)) == x.mux
    ensures DecodePga(PgaCode(x.pga)) == x.pga && DecodeMode(ModeCode(x.mode)) == x.mode
    ensures DecodeDr(DrCode(x.dr)) == x.dr && DecodeCmode(CmodeCode(x.cmode)) == x.cmode
    ensures DecodeCpol(CpolCode(x.cpol)) == x.cpol && DecodeClat(ClatCode(x.clat)) == x.clat
    ensures DecodeCque(CqueCode(x.cque)) == x.cque
  {
  }

  /** Decoding an encoded structure gives it back, reserved codes included. */
  lemma DecodeEncode(fields: ConfigFields)
    ensures Decode(Encode(fields)) == fields
  {
    CodesDecodeBack(fields);
  }

  /** Every 16-bit word is the encoding of the fields it decodes to: no bit is lost. */
  lemma EncodeDecode(w: bv16)
    ensures Encode(Decode(w)) == w
  {
    AgreeUnderMasks(Encode(Decode(w)), w);
  }

  /** Decode reports the unused `Pga` and `Dr` codes as reserved, and only those. */
  lemma DecodeReserved(w: bv16)
    ensures Decode(w).pga.IsReserved() <==> w & PgaMask == 0x0C00 || w & PgaMask == 0x0E00
    ensures Decode(w).dr.IsReserved() <==> w & DrMask == 0x00E0
  {
  }

  // ---------------------------------------------------------------------------
  // Word updates
  // ---------------------------------------------------------------------------

  /** Bitwise OR: every bit of `code` is set, every other bit is as in `w`. */
  function Insert(w: bv16, code: bv16): (r: bv16)
    ensures r & code == code
    ensures r & !code == w & !code
  {
    w | code
  }

  /** Replaces the bits of field `f` by `code`, leaving every bit outside the field as it was. */
  function SetField(w: bv16, f: Field, code: bv16): (r: bv16)
    requires code & !Mask(f) == 0
    ensures r & Mask(f) == code
    ensures r & !Mask(f) == w & !Mask(f)
  {
    (w & !Mask(f)) | code
  }

  /** Setting one field leaves every other field unchanged. */
  lemma SetFieldKeepsOthers(w: bv16, f: Field, code: bv16, g: Field)
    requires code & !Mask(f) == 0
    requires g != f
    ensures SetField(w, f, code) & Mask(g) == w & Mask(g)
  {
    MasksDisjoint(f, g);
  }

  /**
   * Setting every field, in the order the driver does, from any starting word
   * yields the encoding of the fields set: nothing of the starting word survives.
   */
  lemma SetEveryField(w: bv16, fields: ConfigFields)
    ensures
      var w1 := SetField(w, Os, OsCode(fields.os));
      var w2 := SetField(w1, Mux, MuxCode(fields.mux));
      var w3 := SetField(w2, Pga, PgaCode(fields.pga));
      var w4 := SetField(w3, Mode, ModeCode(fields.mode));
      var w5 := SetField(w4, Dr, DrCode(fields.dr));
      var w6 := SetField(w5, Cmode, CmodeCode(fields.cmode));
      var w7 := SetField(w6, Cpol, CpolCode(fields.cpol));
      var w8 := SetField(w7, Clat, ClatCode(fields.clat));
      SetField(w8, Cque, CqueCode(fields.cque)) == Encode(fields)
  {
  }

  // ---------------------------------------------------------------------------
  // Default
  // ---------------------------------------------------------------------------

  /** The fields of the default word: each holds the code marked "(default)"; `Os` is clear. */
  const DefaultFields: ConfigFields :=
    ConfigFields(OsClear, Diff0_1, Range2_048V, SingleShot, Sps1600, Traditional, ActiveLow, NonLatching, Disabled)

  /** Builds the default word by inserting each default code into an empty word, in the order the driver lists them. */
  method Default() returns (result: bv16)
    ensures result == 0x0583
    ensures Decode(result) == DefaultFields
  {
    result := 0;
    result := Insert(result, MuxDiff0_1);
    result := Insert(result, Pga_2_048V);
    result := Insert(result, ModeSingle);
    result := Insert(result, Dr_1600SPS);
    result := Insert(result, CmodeTrad);
    result := Insert(result, CpolActvlow);
    result := Insert(result, ClatNonlat);
    result := Insert(result, CqueNone);
    DecodeEncode(DefaultFields);
  }
}
