# ADS1293 ECG front-end driver, modelled in Dafny

This project models the Arduino driver for the Texas Instruments ADS1293, a
three-channel ECG front end on SPI. Two drivers are covered:

- `Ads1293` in `src/protocentral_ads1293.cpp` and its header;
- the older `ads1293` class in `src/ads1293.cpp` and `src/ads1293.h`.

The model treats the SPI bus and the chip as one object, `Bus.Hardware`. It
holds:

- the trace of bus events: begin transaction, chip-select level, one
  transferred byte with the byte clocked back, end transaction;
- a 128-byte register file;
- the chip's command state. A command byte selects a read or a write and a
  start address. Later bytes read or write that register and move the address counter
  on, wrapping at 0x80.

Each driver method is an imperative Dafny method on a class. Its
postcondition gives the new bus state (trace and chip) as a function of the
old one, plus whatever the method returns. The properties of those functions
are proved as lemmas.

Modules, following the structure of the driver:

- `Bits`: the C operators the driver uses (`&`, `|`, `<<` on `uint32_t`,
  the `int32_t` cast, arithmetic `>>`). They are defined bit by bit on
  naturals, with lemmas that turn the masks the driver uses into arithmetic.
- `RegisterMap`: the `Register` enumeration and the two command bytes
  (`addr & WREG_MASK`, `addr | RREG_FLAG`). Also the option enumerations and
  their payload bytes, `TestSignal`, `PgaGain` and the twenty `SamplingRate`
  presets.
- `Bus`: the event trace and the device's response to each byte.
- `Transactions`: the frames of a write and of an n-byte read, the register
  file after a list of writes, and the bytes a burst read returns.
- `SampleCodec`: assembling three bytes MSB first, `signExtend24`,
  `interpretRaw24`, the nine-byte burst and `rawToVoltage`.
- `RateResolver`: the search of `setSamplingRate`, both as the three nested
  loops with early exit and as a fold over the 64 candidate triples. It also
  holds the one-hot register codes.
- `Driver`: class `Ads1293`, the current driver.
- `DriverFacts`: what `begin3LeadECG`, `setSamplingRate`, the filter masks,
  the gain helper and the test-signal helper leave in the registers.
- `LegacyMap` and `LegacyDriver`: the older driver and how it relates to the
  current one.

Other modelling choices:

- The `float` search of `setSamplingRate` is modelled with exact reals.
- `spi_ == nullptr` becomes the boolean field `hasSpi`.
- `setSamplingRate` takes the preset's code byte (0..19), so the `default:`
  branch of its switch is reachable.
- The header declares a global `ADS1293`, while the implementation file
  defines `protocentral::Ads1293`. The model has one class, `Driver.Ads1293`.

Where comments and code disagree, the model follows the code:

- The comment on `SamplingRate` (`src/protocentral_ads1293.h:206-210`) says
  that R1 stays 4 and that only R2 and R3 are programmed. The code also tries
  R1 = 2 and writes R1_RATE.
  - `DriverFacts.FastPresetsSameWrites` shows one consequence: SPS_25600,
    SPS_12800, SPS_6400 and SPS_3200 all program the same bytes, because
    3200 Hz (R1 = 2, R2 = 4, R3 = 4) is the fastest rate the candidates
    reach.
- `setChannelGainRaw` writes to 0x0A + (channel - 1). Its comment calls these
  CH1SET..CH3SET. In the driver's own register map they are CMDET_EN,
  CMDET_CN and RLD_CN.
  - `DriverFacts.GainAfterThreeLead` states this. It also shows that a gain
    write on channel 1 or 3 overwrites the value `begin3LeadECG` left there.

## Model

| member | source | states |
|---|---|---|
| Bus.Hardware.Transfer | src/protocentral_ads1293.cpp:74-75 | one SPI byte exchange: the device's reply and new command state follow its protocol, and the exchange is appended to the trace |
| Bus.Hardware.DigitalWrite | src/protocentral_ads1293.cpp:73 | a chip-select edge is recorded; raising CS ends the device's command |
| Bus.Hardware.BeginTransaction | src/protocentral_ads1293.cpp:72 | a begin-transaction event is recorded, and the chip is left alone |
| Bus.Hardware.EndTransaction | src/protocentral_ads1293.cpp:77 | an end-transaction event is recorded, and the chip is left alone |
| RegisterMap.AddrRoundTrip | src/protocentral_ads1293.h:43-75 | every `Register` enumerator is below 0x80 and its address names it back |
| RegisterMap.AddrInjective | src/protocentral_ads1293.h:43-75 | no two enumerators share an address |
| RegisterMap.FromAddrInverse | src/protocentral_ads1293.h:43-75 | an address the map names is the address of the register it names |
| RegisterMap.RateRegisterLayout | src/protocentral_ads1293.h:65-69 | R2_RATE is 0x21, R3_RATE_CH1..CH3 are consecutive, R1_RATE is 0x25 right after them |
| RegisterMap.WriteCommand | src/protocentral_ads1293.cpp:71 | the write command is below 0x80 and equals the address for every 7-bit address |
| RegisterMap.WriteCommandBitwise | src/protocentral_ads1293.h:40 | `addr & WREG_MASK` is the write command, and bit 7 of it is clear |
| RegisterMap.ReadCommand | src/protocentral_ads1293.cpp:86 | the read command has bit 7 set and keeps the seven low bits of the address |
| RegisterMap.ReadCommandBitwise | src/protocentral_ads1293.h:41 | `addr \| RREG_FLAG` is the read command, and bit 7 of it is set |
| RegisterMap.DecodeCommand | src/protocentral_ads1293.h:39-41 | a command byte is a read exactly when bit 7 is set, and it addresses a 7-bit register |
| RegisterMap.CommandRoundTrip | src/protocentral_ads1293.cpp:71-89 | the write and read commands of every register decode back to that register |
| RegisterMap.TestSignalByte | src/protocentral_ads1293.cpp:385 | `sig << 6` as a byte is non-zero, a multiple of 0x40, and carries the signal's code in its top two bits |
| RegisterMap.TestSignalByteInjective | src/protocentral_ads1293.h:98-102 | distinct test signals give distinct register bytes |
| RegisterMap.SamplingRateCodes | src/protocentral_ads1293.h:211-233 | exactly the codes 0..19 name a preset, and code and preset convert into each other both ways |
| Transactions.ReadFrameData | src/protocentral_ads1293.cpp:117-125 | a read frame holds the read command for the start address, then one dummy byte per data byte, each answered by the next register |
| Transactions.WriteFrameData | src/protocentral_ads1293.cpp:71-77 | a write frame is six events: it sends the write command for the address, then the value |
| Transactions.AfterWriteRegs | src/protocentral_ads1293.cpp:67-80 | a write sets its target register to the value, changes no other register and leaves the chip idle |
| Transactions.AfterRead | src/protocentral_ads1293.cpp:82-94 | a read leaves the registers unchanged and only extends the trace, by n + 5 events |
| Transactions.AdvanceNext | src/protocentral_ads1293.cpp:120-123 | each dummy transfer moves the register address counter on by one, wrapping at 0x80 |
| Transactions.WritesAppend | src/protocentral_ads1293.cpp:248-273 | two write lists issued one after the other act as their concatenation |
| Transactions.WritesTrace | src/protocentral_ads1293.cpp:248-273 | a write list puts exactly its frames, in order, on the trace |
| Transactions.WritesRegs | src/protocentral_ads1293.cpp:248-273 | after a write list each register holds the last value written to it, or its old value |
| Transactions.LastValueAt | src/protocentral_ads1293.cpp:248-273 | in a list with distinct targets each write's value is the one its register keeps |
| Transactions.LastValueUntouched | src/protocentral_ads1293.cpp:248-273 | a register no write targets keeps its old value |
| Transactions.ReadAfterWrite | src/protocentral_ads1293.cpp:67-94 | reading a register right after writing it returns the value written |
| SampleCodec.Assemble24 | src/protocentral_ads1293.cpp:127-129 | the assembled word is below 2^24, and each of the three bytes can be read back from it |
| SampleCodec.Assemble24Bitwise | src/protocentral_ads1293.cpp:127-135 | the word equals the C expression `(b0 << 16) \| (b1 << 8) \| b2` on `uint32_t` |
| SampleCodec.SignExtend24 | src/protocentral_ads1293.cpp:96-105 | the result lies in [-2^23, 2^23) and is congruent to the input modulo 2^24 |
| SampleCodec.SignExtend24Bitwise | src/protocentral_ads1293.cpp:98-104 | the function equals the masks, the bit-23 test, the OR with 0xFF000000 and the `int32_t` cast of the source |
| SampleCodec.SignExtend24Negative | src/protocentral_ads1293.cpp:100 | the result is negative exactly when bit 23 of the input is set |
| SampleCodec.SignExtend24Low24 | src/protocentral_ads1293.cpp:99 | the result depends only on the low 24 bits of the input |
| SampleCodec.SignExtend24Encode | src/protocentral_ads1293.cpp:96-105 | encoding the decoded value as a 24-bit pattern gives back the low 24 bits of the input |
| SampleCodec.Encode24SignExtend | src/protocentral_ads1293.cpp:96-105 | every code in [-2^23, 2^23) survives encoding and decoding |
| SampleCodec.SignExtend24Stable | src/protocentral_ads1293.cpp:96-105 | decoding a decoded value again, through `uint32_t`, changes nothing |
| SampleCodec.InterpretRaw24 | src/protocentral_ads1293.cpp:200-212 | offset binary subtracts the midscale 2^23 from the low 24 bits; otherwise the result is `signExtend24` |
| SampleCodec.InterpretRaw24Bitwise | src/protocentral_ads1293.cpp:202-211 | the function equals the source's mask, bit test and `int32_t` subtractions |
| SampleCodec.BurstChannel | src/protocentral_ads1293.cpp:127-139 | each channel of the burst decodes to a signed 24-bit code whose two's-complement pattern is the channel's three bytes, MSB first |
| SampleCodec.BurstExample | src/protocentral_ads1293.cpp:127-139 | the burst 12 34 56 00 00 01 FF FF FF decodes to 0x123456, 1 and -1 |
| SampleCodec.EffectiveFullscale | src/protocentral_ads1293.cpp:216 | a zero fullscale is replaced by a non-zero default, and any other fullscale is kept |
| SampleCodec.ZeroFullscaleIsDefault | src/protocentral_ads1293.cpp:214-218 | converting with fullscale 0 is converting with 2^23 - 1 |
| SampleCodec.RawToVoltage | src/protocentral_ads1293.cpp:214-218 | code 0 converts to 0 V, a code equal to the (effective) fullscale to vref·gain, and its negation to -vref·gain |
| RateResolver.Resolve | src/protocentral_ads1293.cpp:484-509 | the three nested loops with their early exits choose the same triple as the full scan `Scan1(2, target)` |
| RateResolver.Settled1 | src/protocentral_ads1293.cpp:504-508 | once the running error is zero, the remaining outer iterations change nothing, so breaking out early is sound |
| RateResolver.SettledAt | src/protocentral_ads1293.cpp:496-508 | an exact match found at (i, j, k) is the final result of the full scan |
| RateResolver.Scan1IsFold | src/protocentral_ads1293.cpp:488-509 | the nested loops fold `Consider` over the candidate list, in the order R1, then R2, then R3 |
| RateResolver.FoldFirstMinimum | src/protocentral_ads1293.cpp:494-503 | a fold with strict `<` ends on the first candidate of least error, or keeps its start when none beats it |
| RateResolver.FirstMinimumUnique | src/protocentral_ads1293.cpp:496 | the first position of least error is unique, so ties go to the earliest triple |
| RateResolver.SearchIsFirstMinimum | src/protocentral_ads1293.cpp:484-509 | for a target below 1e9, the search returns the first candidate of minimum error |
| RateResolver.SearchIsResolved | src/protocentral_ads1293.cpp:488-509 | the loops with their early exits pick the same triple as one left-to-right fold of `Consider` over the 64 candidates |
| RateResolver.ResolvedIsFirstMinimum | src/protocentral_ads1293.cpp:484-503 | for a target in [0, 1e9), the fold over the candidates returns the first candidate of minimum error |
| RateResolver.CandidatesTried | src/protocentral_ads1293.cpp:456-458 | the candidate list holds only listed factor values, and it contains (2, 4, 4) |
| RateResolver.FastestWins | src/protocentral_ads1293.cpp:494-496 | for a target of 3200 Hz or more, (2, 4, 4) has a strictly smaller error than any other candidate |
| RateResolver.SearchTried | src/protocentral_ads1293.cpp:456-458 | for a target in [0, 1e9) the chosen triple is made of listed R1, R2 and R3 values |
| RateResolver.CandidateAt | src/protocentral_ads1293.cpp:488-492 | the triple tried at loop indices (i, j, k) is candidate 32i + 8j + k |
| RateResolver.ErrBelowInitial | src/protocentral_ads1293.cpp:484 | for a target in [0, 1e9), every candidate's error is below the initial 1e9, so the first candidate is always taken |
| RateResolver.OdrBounds | src/protocentral_ads1293.cpp:426-494 | every candidate's output rate is positive and at most fS = 102400 Hz |
| RateResolver.Resolve1600 | src/protocentral_ads1293.cpp:436 | SPS_1600 resolves to (4, 4, 4), an exact match |
| RateResolver.SmallestProduct | src/protocentral_ads1293.cpp:456-458 | every candidate's decimation product is at least 32, and only (2, 4, 4) reaches 32 |
| RateResolver.OdrMonotone | src/protocentral_ads1293.cpp:494 | a larger decimation product gives a lower output rate |
| RateResolver.FastPresetsCollapse | src/protocentral_ads1293.cpp:432-435 | every target of 3200 Hz or more resolves to (2, 4, 4) |
| RateResolver.R1Reg | src/protocentral_ads1293.cpp:511-512 | bits 0..2 of the R1_RATE byte, the double-pace flags of channels 1..3, are all set when R1 = 2 and all clear otherwise; bits 3..7 are always clear |
| RateResolver.R2Code | src/protocentral_ads1293.cpp:461-469 | bit j of the R2_RATE code is set exactly when the value is the j-th R2 candidate (4, 5, 6, 8); any other value has no bit set |
| RateResolver.R3Code | src/protocentral_ads1293.cpp:470-482 | bit k of the R3_RATE code is set exactly when the value is the k-th R3 candidate (4, 6, 8, 12, 16, 32, 64, 128); any other value has no bit set |
| RateResolver.R2CodeOneHot | src/protocentral_ads1293.cpp:461-469 | the j-th R2 candidate is coded by bit j, and only candidates get a non-zero code |
| RateResolver.R3CodeOneHot | src/protocentral_ads1293.cpp:470-482 | the k-th R3 candidate is coded by bit k, and only candidates get a non-zero code |
| RateResolver.CodesInjective | src/protocentral_ads1293.cpp:461-482 | a non-zero R2 or R3 code gives its factor back |
| RateResolver.TargetHz | src/protocentral_ads1293.cpp:429-453 | each preset's target lies between 25 Hz and 25600 Hz |
| RateResolver.TargetHzDescending | src/protocentral_ads1293.cpp:432-451 | the presets are listed from the fastest target to the slowest |
| Driver.SampleBytes | src/protocentral_ads1293.cpp:114-123 | the burst from DATA_CH1_ECG yields nine bytes, three per channel |
| Driver.RawStart | src/protocentral_ads1293.cpp:149 | channel c's MSB register is 0x37 + 3(c - 1), and its three bytes fit below 0x80 |
| Driver.FilterMask | src/protocentral_ads1293.cpp:373 | channel c's filter bit is 2^(c - 1) |
| Driver.GainAddr | src/protocentral_ads1293.cpp:407 | channel c's gain register is 0x0A + (c - 1) |
| Driver.ThreeLeadNamesLow | src/protocentral_ads1293.cpp:251-258 | the first four writes of `begin3LeadECG` go to FLEX_CH1_CN, FLEX_CH2_CN, CMDET_EN and RLD_CN with the payloads of the options it names |
| Driver.ThreeLeadNamesMid | src/protocentral_ads1293.cpp:259-264 | writes 5-8 go to OSC_CN, AFE_SHDN_CN, R2_RATE and R3_RATE_CH1 with the payloads of the options named |
| Driver.ThreeLeadNamesHigh | src/protocentral_ads1293.cpp:263-270 | writes 9-12 go to R3_RATE_CH2, DRDYB_SRC, CH_CNFG and CONFIG with the payloads of the options named |
| Driver.Ads1293.constructor | src/protocentral_ads1293.cpp:36-37 | the constructor stores the two pins and the bus |
| Driver.Ads1293.WriteRegister | src/protocentral_ads1293.cpp:67-80 | with no bus, returns false and leaves the bus untouched; otherwise emits the write frame, sets the register and returns true |
| Driver.Ads1293.ReadRegister | src/protocentral_ads1293.cpp:82-94 | with no bus, returns false and leaves the value and the bus untouched; otherwise emits a one-byte read frame and yields the register |
| Driver.Ads1293.ReadBurst | src/protocentral_ads1293.cpp:117-125 | fills the first n bytes of the buffer with the n registers from the start address, leaves the rest of the buffer alone, and emits one read frame |
| Driver.Ads1293.GetECGData | src/protocentral_ads1293.cpp:107-141 | with no bus, false and the outputs unchanged; otherwise one nine-byte read from 0x37 and each channel decoded from its three bytes |
| Driver.Ads1293.GetSamples | src/protocentral_ads1293.cpp:220-232 | with no bus, the default `Samples` (zeros, `ok` false); otherwise the three decoded channels with `ok` true |
| Driver.Ads1293.GetRaw24 | src/protocentral_ads1293.cpp:142-159 | false, with no bus traffic, for no bus or a channel outside 1..3; otherwise a three-byte read from the channel's MSB register, assembled to a value below 2^24 |
| Driver.Ads1293.ReadSampleBytes | src/protocentral_ads1293.cpp:161-172 | with no bus, false and nothing touched; otherwise the nine sample bytes in the buffer and one read frame |
| Driver.Ads1293.ReadDeviceID | src/protocentral_ads1293.cpp:234-239 | REVID's value, or 0 when there is no bus |
| Driver.Ads1293.ReadErrorStatus | src/protocentral_ads1293.cpp:241-246 | ERR_STATUS's value, or 0 when there is no bus |
| Driver.Ads1293.ConfigureChannel1 | src/protocentral_ads1293.cpp:276-280 | one write of the option's payload to FLEX_CH1_CN |
| Driver.Ads1293.ConfigureChannel2 | src/protocentral_ads1293.cpp:282-286 | one write of the option's payload to FLEX_CH2_CN |
| Driver.Ads1293.EnableCommonModeDetection | src/protocentral_ads1293.cpp:288-292 | one write of the option's payload to CMDET_EN |
| Driver.Ads1293.ConfigureRLD | src/protocentral_ads1293.cpp:294-298 | one write of the option's payload to RLD_CN |
| Driver.Ads1293.ConfigureOscillator | src/protocentral_ads1293.cpp:300-304 | one write of the option's payload to OSC_CN |
| Driver.Ads1293.ConfigureAFEShutdown | src/protocentral_ads1293.cpp:306-310 | one write of the option's payload to AFE_SHDN_CN |
| Driver.Ads1293.ConfigureChannel3 | src/protocentral_ads1293.cpp:312-315 | one write of the option's payload to FLEX_CH3_CN |
| Driver.Ads1293.ConfigureRef | src/protocentral_ads1293.cpp:317-320 | one write of the option's payload to REF_CN |
| Driver.Ads1293.ConfigureSamplingRates | src/protocentral_ads1293.cpp:322-330 | all three rate writes are attempted, in order, and the result is their conjunction |
| Driver.Ads1293.ConfigureDRDYSource | src/protocentral_ads1293.cpp:332-336 | one write of the option's payload to DRDYB_SRC |
| Driver.Ads1293.ConfigureChannelConfig | src/protocentral_ads1293.cpp:338-342 | one write of the option's payload to CH_CNFG |
| Driver.Ads1293.ApplyGlobalConfig | src/protocentral_ads1293.cpp:344-348 | one write of the option's payload to CONFIG |
| Driver.Ads1293.Begin3LeadECG | src/protocentral_ads1293.cpp:248-273 | its ten steps issue the twelve 3-lead writes in order (the rate step issues three), each stopping the sequence on failure; with no bus, false and nothing written |
| Driver.Ads1293.DisableChannel | src/protocentral_ads1293.cpp:352-359 | channel 1 clears FLEX_CH1_CN; any other channel does nothing |
| Driver.Ads1293.DisableFilterAll | src/protocentral_ads1293.cpp:361-365 | writes 0x07 to DIS_EFILTER |
| Driver.Ads1293.DisableFilter | src/protocentral_ads1293.cpp:367-377 | a channel outside 1..3 gives false and no traffic; otherwise the channel's mask goes to DIS_EFILTER and the result is true, with or without a bus |
| Driver.Ads1293.AttachTestSignal | src/protocentral_ads1293.cpp:379-391 | a channel outside 1..3 gives false and no traffic; otherwise `sig << 6` goes to register `channel` and the result is true |
| Driver.Ads1293.EnableTestSignalAll | src/protocentral_ads1293.cpp:393-401 | the test signal goes to FLEX_CH1_CN, FLEX_CH2_CN and FLEX_CH3_CN in turn, and the result is true |
| Driver.Ads1293.SetChannelGainRaw | src/protocentral_ads1293.cpp:403-411 | a channel outside 1..3 gives false and no traffic; otherwise the value goes to 0x0A + (channel - 1) and the result is the write's |
| Driver.Ads1293.SetChannelGain | src/protocentral_ads1293.cpp:413-416 | the gain preset's byte is written as by `setChannelGainRaw` |
| Driver.Ads1293.SetSamplingRate | src/protocentral_ads1293.cpp:418-525 | an unknown preset gives false and no writes; otherwise the five rate registers get the codes of the triple the search picks for the preset's target |
| DriverFacts.ThreeLeadDistinct | src/protocentral_ads1293.cpp:248-273 | the twelve writes of the 3-lead setup go to twelve different registers |
| DriverFacts.ThreeLeadRegisters | src/protocentral_ads1293.cpp:248-273 | after the 3-lead setup the twelve registers hold 0x11, 0x19, 0x07, 0x04, 0x04, 0x24, 0x02, 0x02, 0x02, 0x08, 0x30, 0x01, and every other register is unchanged |
| DriverFacts.ThreeLeadIdempotent | src/protocentral_ads1293.cpp:248-273 | running the 3-lead setup again on a device it has configured leaves every register unchanged |
| DriverFacts.RateWritesShape | src/protocentral_ads1293.cpp:511-521 | the rate writes go to 0x25, 0x21, 0x22, 0x23, 0x24; R1 is 0x00 or 0x07, R2 and R3 are one-hot, and the three R3 bytes are equal |
| DriverFacts.RateWritesDetermineTriple | src/protocentral_ads1293.cpp:511-521 | the five register bytes determine the chosen triple |
| DriverFacts.Rate1600Writes | src/protocentral_ads1293.cpp:436 | SPS_1600 writes 0x00, 0x01, 0x01, 0x01, 0x01 |
| DriverFacts.FastPresetsSameWrites | src/protocentral_ads1293.h:213-216 | the four fast presets all write 0x07, 0x01, 0x01, 0x01, 0x01, which gives 3200 Hz |
| DriverFacts.FilterMasksCoverAll | src/protocentral_ads1293.cpp:361-377 | the three channel masks are disjoint bits whose OR is the 0x07 of `disableFilterAll` |
| DriverFacts.GainAfterThreeLead | src/protocentral_ads1293.cpp:403-411 | the gain registers are CMDET_EN, CMDET_CN and RLD_CN; a gain write on channel 1 or 3 replaces the value the 3-lead setup left there |
| DriverFacts.TestSignalRegisters | src/protocentral_ads1293.cpp:393-401 | after `enableTestSignalAll` the three FLEX_CHn_CN registers hold the signal's byte, and every other register is unchanged |
| DriverFacts.Raw24MatchesBurst | src/protocentral_ads1293.cpp:142-159 | sign-extending `getRaw24`'s value gives the same channel value as the nine-byte burst |
| LegacyMap.LegacyMasks | src/ads1293.h:4-5 | `WREG` and `RREG` equal the current masks, and the commands they form are the current commands |
| LegacyMap.MacrosDistinct | src/ads1293.h:7-34 | the register macros increase strictly, so they are pairwise distinct, and are all below 0x80 |
| LegacyMap.MacrosNameRegisters | src/ads1293.h:7-34 | each macro's address is named, in the current map, by the like-named register |
| LegacyMap.MacroMatchesRegister | src/ads1293.h:7-34 | each macro equals the address of the like-named current `Register` enumerator |
| LegacyDriver.LegacyFrameInsideTransaction | src/ads1293.cpp:72-79 | the legacy write frame is the current one without its begin- and end-transaction events |
| LegacyDriver.LegacyWritesSameChip | src/ads1293.cpp:72-79 | any list of legacy writes leaves the chip exactly as the current writes do |
| LegacyDriver.LegacyChannel | src/ads1293.cpp:11-13 | a channel in 1..3 becomes channel - 1; any other becomes 0 |
| LegacyDriver.SampleAddr | src/ads1293.cpp:15-17 | byte i of 0-based channel c is read from 0x37 + 3c + i |
| LegacyDriver.LegacyValue | src/ads1293.cpp:19-25 | the as-written result is a 16-bit value whose high byte is the middle byte read and whose low byte is the LSB; the MSB plays no part |
| LegacyDriver.AsWrittenSteps | src/ads1293.cpp:19-25 | the word built as written reduces to `raw1 * 256 + raw2` |
| LegacyDriver.FixedSteps | src/ads1293.cpp:19-25 | with `\|=` on line 20 the word reduces to `signExtend24` of the three bytes |
| LegacyDriver.ShiftSignExtend | src/ads1293.cpp:22-25 | shifting a 24-bit value left by 8, casting to `int32_t` and shifting right by 8 sign-extends it |
| LegacyDriver.LegacyValueRange | src/ads1293.cpp:19-25 | the as-written result always lies in [0, 65535], the low 16 bits of the sample |
| LegacyDriver.LegacyValueAgrees | src/ads1293.cpp:19-25 | the as-written result equals the decoded sample exactly when the MSB byte is 0 |
| LegacyDriver.LegacyDropsMsb | src/ads1293.cpp:20 | bytes 01 00 00 read as 0 instead of 65536 |
| LegacyDriver.LegacyLosesSign | src/ads1293.cpp:19-25 | bytes FF FF FF, the sample -1, read as 65535 |
| LegacyDriver.FixedMatchesBurst | src/ads1293.cpp:6-26 | the corrected legacy read decodes the same bytes, to the same value, as the current nine-byte burst |
| LegacyDriver.BeginAll | src/ads1293.cpp:34-67 | `ads1293Begin` issues the twelve writes of `begin3LeadECG` in the same order |
| LegacyDriver.BeginSameDevice | src/ads1293.cpp:29-69 | `ads1293Begin` leaves the registers exactly as `begin3LeadECG` does |
| LegacyDriver.BeginIdempotent | src/ads1293.cpp:29-69 | calling `ads1293Begin` a second time leaves the register file as the first call left it |
| LegacyDriver.LegacyAds1293.constructor | src/ads1293.h:47-50 | the constructor stores `chipSelect` and `drdy` and nothing else |
| LegacyDriver.LegacyAds1293.WriteRegister | src/ads1293.cpp:72-79 | CS low, the write command, the value, CS high, with no transaction events; the register gets the value |
| LegacyDriver.LegacyAds1293.ReadRegister | src/ads1293.cpp:81-91 | CS low, the read command, a 0 byte, CS high; the result is the register's value |
| LegacyDriver.LegacyAds1293.ReadSample | src/ads1293.cpp:15-17 | three single-register reads of a channel's bytes, MSB first |
| LegacyDriver.LegacyAds1293.GetECGdata | src/ads1293.cpp:6-26 | the result is `raw1 * 256 + raw2` of the channel's bytes, after three single-register reads |
| LegacyDriver.LegacyAds1293.GetECGdataFixed | src/ads1293.cpp:6-26 | with `\|=` on line 20 the result is `signExtend24` of the channel's three bytes |
| LegacyDriver.LegacyAds1293.Begin | src/ads1293.cpp:29-69 | the twelve legacy writes of the 3-lead setup, unconditionally and in order |
| LegacyDriver.LegacyAds1293.ReadSensorID | src/ads1293.cpp:93-101 | true exactly when REVID reads 0x01, after one read of REVID |
| LegacyDriver.LegacyAds1293.ConfigDCLeadOffDetect | src/ads1293.cpp:104-107 | no bus activity |
| LegacyDriver.LegacyAds1293.ConfigACLeadOffDetect | src/ads1293.cpp:110-113 | no bus activity |
| LegacyDriver.LegacyAds1293.SetSamplingRate | src/ads1293.cpp:116-119 | no bus activity |

## Left out

- The `begin` overloads, `pinMode` and the ESP32 `#if` (src/protocentral_ads1293.cpp:39-65, src/ads1293.cpp:31-32) are hardware bring-up. The model starts from a bus that is already running.
- `delay` and `delayMicroseconds` are timing only, and they leave no trace.
- `SPISettings`: the clock rate and SPI mode are not recorded. The begin-transaction event carries no settings.
- The `float` arithmetic of `setSamplingRate` is modelled with exact reals. The candidate rates 102400 / (R1·R2·R3) and the preset targets are then exact. IEEE single-precision rounding could in principle break a near-tie differently.
- SampleCodec.RawToVoltage: the conversion is exact real arithmetic, without `float` rounding. Its contract fixes the zero and fullscale points and the fullscale substitution, not the rounding of the device's `float` result.
- `dumpDebug` and the `Serial.println` in `readSensorID` are text output. The register reads they perform are modelled by `ReadRegister` and `ReadSampleBytes`.
- The data-ready pin is stored but never read. The device's conversion timing and data latching are not modelled: sample registers are whatever the register file holds.
- The SPI bus has no failure mode other than a null `spi_`. A transfer always completes, as the Arduino `SPIClass` API gives no way to report an error.
- Driver.Ads1293.Begin3LeadECG: "stops at the first failing step" is stated as the whole sequence when there is a bus and nothing when there is none. `writeRegister` can only fail when there is no bus, so those are the only two outcomes.
- Driver.Ads1293.SetSamplingRate: takes the preset's code byte rather than the enumeration, so an out-of-range value can reach the `default:` branch.

## Findings

| source | as written | input that shows it | evidently intended | confidence | as-written member | corrected member |
|---|---|---|---|---|---|---|
| src/ads1293.cpp:20 | `tempData = (uint32_t)rawData[1] << 8;` overwrites the MSB placed on line 19, so `getECGdata` returns `raw1 * 256 + raw2`, always in [0, 65535] | channel bytes 01 00 00 give 0 instead of 65536; FF FF FF give 65535 instead of -1 | `tempData \|= (uint32_t)rawData[1] << 8;`, so the result is the sign-extended 24-bit sample, as in the current driver | not executed | LegacyDriver.LegacyAds1293.GetECGdata, LegacyDriver.LegacyDropsMsb | LegacyDriver.LegacyAds1293.GetECGdataFixed, LegacyDriver.FixedMatchesBurst |
