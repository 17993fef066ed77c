# ADS1x15 driver model

A Dafny model of the core of the Rust `ads1x15` crate. The crate is a driver for the Texas
Instruments ADS1015 (12-bit) and ADS1115 (16-bit) analog-to-digital converters, which are
reached over I2C. The model has two modules:

- `Reg` (`reg.dfy`, for `src/reg.rs`) covers the register pointers and the 16-bit `Config`
  register.
  - The nine field masks are proved disjoint and covering the word.
  - Every named code lies inside its own field.
  - Explicit "reserved" tags stand for the unused `Pga` and `Dr` codes.
  - Pure `Encode`/`Decode` functions are proved mutually inverse in both directions.
  - `Default` builds the default word by a sequence of OR (`insert`) steps and is proved to
    give 0x0583.
- `Driver` (`driver.dfy`, for `src/lib.rs` and `src/error.rs`) covers the driver object.
  - `Ads1x15` has a mutable `gain` and a fixed `model`.
  - The pure mappings are channel → `Mux`, gain → `Pga`, model → conversion delay, and
    (model, gain, raw sample) → volts.
  - The single-ended read is an ordered transaction over an I2C `Bus` object. Each of the bus
    object's calls may fail or return any bytes. Each call, and the blocking sleep between
    them, is appended to a ghost trace.
  - The read method is proved to produce exactly the transaction `ReadTransaction`
    describes. That covers the 3-byte `Config` write, the delay, the one-byte selection of
    `Convert` and the 2-byte read. A failure ends the conversation and is reported with the
    bus's own cause, and the voltage is the scaled big-endian sample.

`wrappers.dfy` holds the `Option`, `Result` and `Outcome` (pass/fail) datatypes.

Where the code and the chip's datasheet differ, the model follows the code:

- The `Config` word is written least significant byte first, as `src/lib.rs:134` does with
  `LittleEndian::write_u16`. The TI datasheets linked at `src/lib.rs:5-6` give the register
  most significant byte first.
- Only one `Dr` code (111) is marked unused, at `src/reg.rs:100`; 110 is `Dr_3300SPS`
  (`src/reg.rs:99`). `Pga` has two unused codes, 110 and 111 (`src/reg.rs:78-79`).
- The typed setters called at `src/lib.rs:122-131` (`set_os`, `set_mux`, …) come from a macro
  crate that is not part of this model. Each is modelled as "clear the field's mask bits, then
  OR in the code of the same name in `src/reg.rs`" (`Reg.SetField`).

## Model

| member | source | states |
|---|---|---|
| Reg.Address | src/reg.rs:6-17 | the pointer bytes 0x00..0x03 of Convert, Config, Lowthresh and Hithresh; each is unchanged by AND with `Mask` (0x03) |
| Reg.RegisterAt | src/reg.rs:6-17 | a pointer byte selects a register exactly when it lies inside `Mask`, and then it is that register's address |
| Reg.AddressesDistinct | src/reg.rs:6-17 | the four addresses are distinct: reading an address back gives its register, and equal addresses mean the same register |
| Reg.EveryPointerSelectsARegister | src/reg.rs:15-16 | every value of the two pointer bits under `Mask` selects one of the four registers |
| Reg.MaskGeometry | src/reg.rs:24-40 | each field mask is `Width` contiguous bits at `Offset` (15, 12, 9, 8, 5, 4, 3, 2, 0), all inside 16 bits |
| Reg.MasksDisjoint | src/reg.rs:24-40 | no two field masks share a bit |
| Reg.MasksCoverWord | src/reg.rs:24-40 | the union of the nine masks is 0xFFFF and the widths 1,3,3,1,3,1,1,1,2 sum to 16 |
| Reg.AgreeUnderMasks | src/reg.rs:24-40 | two words that agree under all nine masks are equal |
| Reg.OsCodesShareBit | src/reg.rs:42-47 | write-side `OsSingle` and read-side `OsNotbusy` are both the `Os` bit; `OsBusy` is 0 |
| Reg.InsertZeroCodes | src/reg.rs:130-138 | inserting the zero codes `MuxDiff0_1`, `CmodeTrad`, `CpolActvlow`, `ClatNonlat` leaves any word unchanged |
| Reg.OsCode | src/reg.rs:42-47 | the `Os` code lies inside `OsMask` |
| Reg.MuxCode | src/reg.rs:49-64 | the `Mux` code lies inside `MuxMask`; its bit 14 is set exactly for the single-ended selections |
| Reg.PgaCode | src/reg.rs:66-79 | the `Pga` code lies inside `PgaMask`; it is 110 or 111 exactly for the reserved tags |
| Reg.ModeCode | src/reg.rs:81-84 | the `Mode` code lies inside `ModeMask` |
| Reg.DrCode | src/reg.rs:86-100 | the `Dr` code lies inside `DrMask`; it is 111 exactly for the reserved tag |
| Reg.CmodeCode | src/reg.rs:102-105 | the `Cmode` code lies inside `CmodeMask` |
| Reg.CpolCode | src/reg.rs:107-110 | the `Cpol` code lies inside `CpolMask` |
| Reg.ClatCode | src/reg.rs:112-115 | the `Clat` code lies inside `ClatMask` |
| Reg.CqueCode | src/reg.rs:117-124 | the `Cque` code lies inside `CqueMask` |
| Reg.DecodeOs | src/reg.rs:42-47 | the decoded `Os` value's code is exactly the word's bits under `OsMask` |
| Reg.DecodeMux | src/reg.rs:49-64 | the decoded `Mux` value's code is exactly the word's bits under `MuxMask` |
| Reg.DecodePga | src/reg.rs:66-79 | the decoded `Pga` value's code is exactly the word's bits under `PgaMask`, unused codes included |
| Reg.DecodeMode | src/reg.rs:81-84 | the decoded `Mode` value's code is exactly the word's bits under `ModeMask` |
| Reg.DecodeDr | src/reg.rs:86-100 | the decoded `Dr` value's code is exactly the word's bits under `DrMask`, the unused code included |
| Reg.DecodeCmode | src/reg.rs:102-105 | the decoded `Cmode` value's code is exactly the word's bits under `CmodeMask` |
| Reg.DecodeCpol | src/reg.rs:107-110 | the decoded `Cpol` value's code is exactly the word's bits under `CpolMask` |
| Reg.DecodeClat | src/reg.rs:112-115 | the decoded `Clat` value's code is exactly the word's bits under `ClatMask` |
| Reg.DecodeCque | src/reg.rs:117-124 | the decoded `Cque` value's code is exactly the word's bits under `CqueMask` |
| Reg.Encode | src/reg.rs:20-124 | under each of the nine masks the word holds that field's code |
| Reg.Decode | src/reg.rs:20-124 | each decoded field's code is the word's bits under that field's mask |
| Reg.CodesDecodeBack | src/reg.rs:42-124 | each field decoder inverts that field's code table, so the named codes within a field are distinct |
| Reg.DecodeEncode | src/reg.rs:20-124 | decoding an encoded structure gives it back, reserved tags included |
| Reg.EncodeDecode | src/reg.rs:20-124 | every 16-bit word is the encoding of what it decodes to |
| Reg.DecodeReserved | src/reg.rs:78-79 | decode gives a reserved `Pga` tag exactly for bits 110/111, and a reserved `Dr` tag exactly for 111 (src/reg.rs:100) |
| Reg.Insert | src/reg.rs:130-138 | `insert` sets every bit of the code and leaves every other bit as it was |
| Reg.SetField | src/lib.rs:122-131 | a setter puts the code under the field's mask and leaves every bit outside the field unchanged |
| Reg.SetFieldKeepsOthers | src/reg.rs:24-40 | setting one field leaves every other field's bits unchanged |
| Reg.SetEveryField | src/lib.rs:122-131 | setting all nine fields in the driver's order gives the encoding of those fields, whatever the starting word |
| Reg.Default | src/reg.rs:128-143 | the default word is 0x0583: `Os` clear, and every field holding its "(default)" code (Diff0_1, 2.048V, single-shot, 1600SPS, Trad, Actvlow, Nonlat, CqueNone) |
| Driver.MuxSingle | src/lib.rs:163-170 | a channel maps to a single-ended `Mux` selection |
| Driver.ChannelOfMux | src/lib.rs:163-170 | the inverse mapping is defined exactly on the single-ended selections |
| Driver.MuxSingleBijective | src/lib.rs:163-170 | channels and single-ended selections correspond one to one; A0..A3 give `Mux` codes 100, 101, 110, 111 |
| Driver.PgaOf | src/lib.rs:175-184 | a gain never maps to a reserved `Pga` code |
| Driver.GainOfPga | src/lib.rs:175-184 | the inverse mapping is defined exactly on the unreserved `Pga` values |
| Driver.PgaOfBijective | src/lib.rs:175-184 | gains and unreserved `Pga` values correspond one to one; the codes are 000..101 |
| Driver.PgaOfInjective | src/lib.rs:175-184 | different gains select different `Pga` values |
| Driver.ConversionDelayMs | src/lib.rs:188-193 | the delay (1 ms or 8 ms) is at least one sample period at 3300 SPS |
| Driver.FullScale | src/lib.rs:59-72 | each gain's documented range is positive |
| Driver.LsbVolts | src/lib.rs:195-219 | the per-bit constant is positive; times half the sample range it is the gain's full-scale voltage |
| Driver.Ads1015LsbIs16Times | src/lib.rs:195-219 | for every gain the ADS1015 constant is exactly 16 times the ADS1115 one |
| Driver.Sample | src/lib.rs:198 | the ADS1015 sample is the raw value shifted right by 4 (floor), in [-2048, 2047]; the ADS1115 sample is the raw value (src/lib.rs:209) |
| Driver.ConvertRawVoltage | src/lib.rs:195-220 | the voltage lies in [-full scale, full scale) of the gain |
| Driver.ConvertSmallValues | src/lib.rs:195-220 | raw 0 gives 0 V, one sample step gives one LSB and minus one step gives minus one LSB |
| Driver.ConvertMostNegative | src/lib.rs:195-220 | the most negative raw value gives exactly minus the full-scale voltage |
| Driver.ConvertMonotonic | src/lib.rs:195-220 | the voltage never decreases as the raw value increases |
| Driver.ConvertExamples | src/lib.rs:195-220 | ADS1115 at 2.048V reading 0x7F 0xFF gives 2.0479375 V; ADS1015 at 6.144V reading 0x0F 0xF0 gives 0.765 V |
| Driver.I16FromBigEndian | src/lib.rs:144 | `read_i16`: the value is a signed 16-bit number equal to `hi*256+lo` or to that minus 65536 (two's complement), negative exactly when the top bit of `hi` is set |
| Driver.U16ToLittleEndian | src/lib.rs:134 | `write_u16` little-endian: two bytes, and `lo | hi << 8` is the word |
| Driver.ReadConfigWord | src/lib.rs:122-131 | the word a read writes decodes to Os=single, Mux=the channel, Pga=the gain, single-shot, 3300 SPS, Trad, Actvlow, Nonlat, CqueNone |
| Driver.ConfigWriteBuffer | src/lib.rs:133-134 | the write buffer is 3 bytes: the `Config` pointer, then the word least significant byte first |
| Driver.ReadConfigWordBits | src/lib.rs:122-135 | the word's bits field by field; A0 at the default gain gives 0xC1C3, written as `[0x01, 0xC3, 0xC1]` |
| Driver.ReadConfigWords | src/lib.rs:122-131 | a word is written by some read (some channel and gain) if and only if it has `Os` set, a single-ended `Mux`, an unreserved `Pga`, single-shot, 3300 SPS and comparator fields 0, 0, 0, 11 |
| Driver.BuildConfig | src/lib.rs:122-131 | starting from the default word and setting the nine fields in the driver's order yields `ReadConfigWord` |
| Driver.WrapError | src/lib.rs:152-157 | a success is kept, and a failure becomes `I2C` carrying the transport's cause (src/error.rs:10-18) |
| Driver.Bus.constructor | src/lib.rs:28-32 | a fresh device handle has an empty trace |
| Driver.Bus.Write | src/lib.rs:135 | `write` appends one `Write` event with the bytes and its outcome |
| Driver.Bus.SmbusWriteByte | src/lib.rs:141 | `smbus_write_byte` appends one `WriteByte` event with the byte and its outcome |
| Driver.Bus.Read | src/lib.rs:142 | `read` appends one `Read` event of the buffer's length; on success it carries the bytes left in the buffer, on failure the cause |
| Driver.Bus.Sleep | src/lib.rs:138 | `thread::sleep` appends one `Delay` event and cannot fail |
| Driver.WriteFailsTransaction | src/lib.rs:135 | a failed `Config` write alone is a complete transaction that ends with its cause |
| Driver.SelectFailsTransaction | src/lib.rs:138-141 | write, delay and a failed selection of `Convert` form a complete transaction that ends with its cause |
| Driver.ReadEndsTransaction | src/lib.rs:142-146 | after a successful write and selection, a failed read ends with its cause, and a successful 2-byte read gives the converted voltage |
| Driver.ReadTransactionShape | src/lib.rs:133-146 | a successful read is exactly: 3-byte write, a delay of 1 ms (ADS1015) or 8 ms (ADS1115), `smbus_write_byte(0x00)`, 2-byte read. The result is an error iff some step failed, and the failing step is the last one and its cause is the error |
| Driver.Ads1x15.NewAds1015 | src/lib.rs:78-87 | the driver holds the device, model ADS1015 and gain ±6.144V |
| Driver.Ads1x15.NewAds1115 | src/lib.rs:92-101 | the driver holds the device, model ADS1115 and gain ±6.144V |
| Driver.Ads1x15.CurrentGain | src/lib.rs:104-106 | returns the current gain |
| Driver.Ads1x15.SetGain | src/lib.rs:109-111 | the gain becomes `g`; the bus trace is untouched (device and model are constant) |
| Driver.Ads1x15.WriteConfig | src/lib.rs:122-135 | builds the word, fills the 3-byte buffer and appends exactly one `Write` of `ConfigWriteBuffer` to the trace |
| Driver.Ads1x15.ReadSingleEndedImpl | src/lib.rs:119-147 | the gain is unchanged, the trace only grows, and what it appended is a `ReadTransaction` whose result is the method's result |
| Driver.Ads1x15.ReadSingleEnded | src/lib.rs:152-157 | as `ReadSingleEndedImpl`, with a bus failure wrapped as the `I2C` error |

## Left out

- Real I/O. The `i2cdev` transport (`write`, `smbus_write_byte`, `read`) is the `Bus` class, whose results are arbitrary. The model proves the driver for every bus behaviour but says nothing about what the chip answers.
- `thread::sleep` and `time::Duration`: the sleep is a `Delay` event carrying its milliseconds, not real time.
- `f32` arithmetic: voltages are exact reals, so `f32` rounding in `convert_raw_voltage` is not modelled.
- The `bitflags`/`bitfield_register` macro machinery, crate attributes and `Debug` derives. The typed `Config` setters are modelled by `Reg.SetField`, as stated above.
- `src/error.rs` beyond its one variant: the `failure` derive and the display text. The transport's error is `BusError`, a datatype with an uninterpreted code.
- The contents of the `Lowthresh` and `Hithresh` registers, comparator behaviour, continuous mode and differential reads. Only their codes and addresses are modelled, and the driver never uses them.
- The example program `examples/test.rs`. It opens a Linux I2C device, runs an async loop and prints.
