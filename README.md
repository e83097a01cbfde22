# EPEVER charge controller core, modelled in Dafny

This project models the device side of the solar-controller service:

- **Register codec.** It turns EPEVER register bytes into volts, amperes, watts, kilowatt-hours and degrees, and turns settings back into register values.
- **Telemetry collector.** `GetStatus` gathers one `ControllerStatus` from eleven register reads.
- **Configurer.** It reads the charge-controller configuration behind a ten-minute cache. It validates the four voltage-ordering rules, and it writes battery profile, charging parameters and clock through its HTTP handlers.
- **Controller glue.** It stores the last status, counts failures and publishes the status once per collection.
- **Status → metric mapping.**
- **Prometheus remote-write publisher.** It parses topic and payload, batches, groups samples into series and flushes. The model groups a batch by metric name and whole label set. Go groups by the text of `seriesKey`, which can split one label set or merge two (see Findings); the flush is stated with the corrected grouping.
- **Configuration types.** These cover the remote-write configuration, the application configuration (defaults, validation, loading) and the fan-out publisher.

How each kind of source code is modelled:

- Pure decoding and rule checking become functions and lemmas.
- Objects whose fields change become classes with `modifies` clauses. These are the Modbus transport, `Collector`, `Configurer` with its cache, the Prometheus collector, `Controller`, the remote-write `Publisher`, `Config` and `MultiPublisher`.
- Go loops become `for`/`while` loops with invariants. These are the register decoding loops, `metricsToTimeSeries`, `seriesKey` and the publisher fan-out.

The serial device is a scripted transport (`Modbus.Transport`):

- A fixed table answers each call, and every call is appended to a log.
- A call missing from the table fails when it is a read and succeeds with no data when it is a write, as the repository's test double does.
- Properties about "which registers were written" are statements about that log.

Each HTTP handler of the configurer is specified by a function that computes three things:
- the response;
- the exact calls issued;
- the cache it leaves.

The handler methods are proved equal to those functions. Lemmas then state what the handlers promise:
- read handlers never write;
- a patch writes only what its body asks for, in the fixed register order, and only after validation passes;
- a 200 means every planned write succeeded;
- the cache holds what the device answers, for a device whose reads do not change with the writes;
- a write that fails returns its 400 with the cache entry as it was, even after an earlier write of the request was accepted, as the code does;
- under the corrected cache rule of "## Findings" (`Configuration.CacheRule`), no patch handler leaves a cache entry older than a write the device accepted, counting only configuration reads the device answered in full.

Time is always a parameter, in nanoseconds for the cache and the batch timeout, and in Unix seconds for samples. JSON, URL and duration parsing are parameters too.

Module layout:

| module (file) | source |
|---|---|
| `Wrappers` (wrappers.dfy) | `Result` / `Option` / `Outcome` |
| `Modbus` (modbus.dfy) | the `ModbusClient` capability, as a scripted transport |
| `Text` (text.dfy) | `strings.Split`, `strings.ReplaceAll`, `strings.Replace`, `strconv.ParseUint(…, 16, 16)` with its `NumError` text and `strconv.Quote`, `%d` / `%02d` / `%.2f` |
| `Http` (http.dfy) | gin responses: status plus document or error text |
| `Parser` (parser.dfy) | internal/controllers/epever/parser/parser.go |
| `Collection` (collector.dfy) | internal/controllers/epever/collector.go |
| `Configuration` (configurer.dfy) | internal/controllers/epever/configurer.go |
| `Values`, `Metrics` (values.dfy, metrics.dfy) | internal/controllers/epever/metrics.go |
| `Publishers` (multi_publisher.dfy) | internal/publishers/multi_publisher.go |
| `Epever` (epever.dfy) | internal/controllers/epever/epever.go |
| `RemoteWriteConfig` (remotewrite_config.dfy) | internal/remotewrite/configuration.go |
| `RemoteWrite` (remotewrite.dfy) | internal/remotewrite/publisher.go |
| `AppConfig` (app_config.dfy) | internal/config/config.go |

Where the code disagrees with itself or with its own comments, the model follows the code:

- **Temperature fold at 32768.** The collector's own temperature fold maps raw values above 32768 to negative. At the boundary raw value 32768 the collector reads +327.68 °C, while `ParseSignedTemperature` reads −327.68 °C. See `Collection.FoldTemperature` and `Collection.FoldExamples`.
- **Short replies.** The collector's and configurer's decoders index the reply without a length check. Their callers therefore require `Modbus.Sized` of the device's answers, which means a reply that short would crash the Go code.
- **Status topic.** The controller publishes its status under the bare topic "solar". The remote-write publisher rejects that topic, because it expects three parts (`RemoteWrite.StatusTopicRejected`).
- **Cache after a failed write.** The comments at internal/controllers/epever/configurer.go:420 ("Invalidate cache after writing charging parameters"), :490 and :757 ("Invalidate cache after successful write") describe the cache as cleared once a write went through, and `writeSucceeded` is set by the first accepted write. But the handlers return the 400 of a later failed write before reaching that point, so the model's handlers keep the entry then (`Configuration.CacheRule.AsWritten`).
- **Missing fields.** config.go sets `TopicPrefix` on the Solace and remote-write settings, but the configuration types shown do not declare that field. The model gives both datatypes a `topicPrefix` field.

## Model

| member | source | states |
|---|---|---|
| Modbus.BE16 | internal/controllers/epever/parser/parser.go:24 | a register is its two bytes high byte first: the register's quotient and remainder by 256 give back the bytes |
| Modbus.Call.FunctionCode | internal/controllers/epever/configurer.go:886-899 | each register call has its MODBUS function code 1–4, 6 or 16, and exactly the writes have a code of 6 or more |
| Modbus.Respond | internal/controllers/testing/mocks.go:53-121 | an unscripted read fails and an unscripted write succeeds with no data; a scripted call gets its scripted answer |
| Modbus.IssuedFrom | internal/controllers/epever/collector.go:47-109 | a caller that stops at the first failure, apart from the one tolerated position, has issued between i and all of the plan, and at least one more call whenever any remain |
| Modbus.IssuedFromCompletes | internal/controllers/epever/collector.go:47-109 | the stop-at-first-failure caller issues the whole plan with no failure exactly when every call except the tolerated one succeeds; every call before the last one it issued succeeded |
| Modbus.IssuedFromStops | internal/controllers/epever/collector.go:47-109 | when the plan does not complete, the last call issued is a failing call, and not the tolerated one |
| Modbus.Writes | internal/controllers/epever/configurer.go:276-285 | the write calls of a log are writes that occur in the log, no more of them than the log holds |
| Modbus.Transport.Perform | internal/controllers/interfaces.go:24-45 | one call is appended to the log and answered from the table |
| Modbus.Transport.Issue | internal/controllers/epever/collector.go:47-109 | issuing call i of a plan keeps the log equal to the plan prefix, and on a failure fixes the issued count at i+1 and the plan as incomplete |
| Text.Split | internal/remotewrite/publisher.go:121 | `strings.Split` on one character: one piece more than there are separators, no piece holds the separator, and joining the pieces gives the string back (with `Text.SplitShape`, `Text.JoinSplit`, `Text.SplitJoin`) |
| Text.SplitThree | internal/remotewrite/publisher.go:121-128 | a topic `a/b/c` whose parts hold no slash splits into exactly `[a, b, c]` |
| Text.ReplaceChar | internal/remotewrite/publisher.go:131 | every occurrence of the character is replaced and nothing else changes, position by position |
| Text.RemoveAll | internal/controllers/epever/configurer.go:878 | removing a two-character pattern never lengthens the text, and leaves text lacking either pattern character unchanged (`Text.RemoveAllAbsent`, `Text.RemoveAllLacking`) |
| Text.Pad2 | internal/controllers/epever/configurer.go:173-174 | `%02d` gives at least two digits denoting the number, exactly two below 100 |
| Text.Decimal | internal/controllers/epever/configurer.go:173-174 | `%d` gives a non-empty digit string, one digit exactly below ten, that reads back as the number (`Text.DecimalRoundTrip`) |
| Text.ParseHex16 | internal/controllers/epever/configurer.go:879-884 | `ParseUint(s, 16, 16)` succeeds exactly on a non-empty all-hex string whose value is below 65536, with that value; every refusal is `strconv.ParseUint: parsing ` with the quoted string, then "invalid syntax" or "value out of range" |
| Text.ScanHex | internal/controllers/epever/configurer.go:879-884 | the left-to-right scan from any in-range prefix succeeds exactly when the whole string is digits within range, with its value, and otherwise refuses with one of the two `NumError` texts |
| Text.HexSyntaxFirst | internal/controllers/epever/configurer.go:879-884 | a character that is not a hexadecimal digit, reached while the digits before it are within range, makes the refusal "invalid syntax" |
| Text.HexRangeFirst | internal/controllers/epever/configurer.go:879-884 | digits that pass 0xFFFF before any other character make the refusal "value out of range" |
| Text.HexPrefixGrows | internal/controllers/epever/configurer.go:879 | a prefix of a hexadecimal numeral denotes no more than the numeral |
| Text.QuotePlain | internal/controllers/epever/configurer.go:879-883 | `strconv.Quote` writes printable ASCII other than the quote and the backslash as it is, between double quotes |
| Text.QuoteChar | internal/controllers/epever/configurer.go:879-883 | every character is written as at least one character, and a plain one as itself |
| Text.RoundHalfEven | internal/controllers/epever/configurer.go:520-546 | the integer within one half of the value, the even one on a tie |
| Text.Fixed2 | internal/controllers/epever/configurer.go:520-546 | `%.2f` writes a minus sign exactly for a negative value and a point before the last two characters, with at least one digit before it |
| Text.Fixed2Reads | internal/controllers/epever/configurer.go:520-546 | the characters of `%.2f` other than the sign and the point are digits that read as the value's magnitude in hundredths to within half a hundredth |
| Text.RoundedHundredths | internal/controllers/epever/configurer.go:520-546 | the hundredths `%.2f` writes are within half a hundredth of the value's magnitude |
| Text.Hundredths | internal/controllers/epever/configurer.go:520-546 | the digits on both sides of the point read back as the count of hundredths |
| Text.HexRoundTrip | internal/controllers/epever/configurer.go:879 | the lower-case hexadecimal numeral of a number reads back as the number |
| Parser.Truncate | internal/controllers/epever/parser/parser.go:127-134 | Go's float-to-integer conversion drops the fraction toward zero |
| Parser.WrapWord | internal/controllers/epever/parser/parser.go:127-129 | a uint16 conversion is the identity in range and otherwise wraps modulo 65536 |
| Parser.WrapInt16 | internal/controllers/epever/parser/parser.go:132-134 | an int16 conversion is the identity in range and otherwise wraps modulo 65536 into −32768..32767 |
| Parser.ParseFloat | internal/controllers/epever/parser/parser.go:20-25 | succeeds exactly on at least two bytes, with the first register divided by 100, in 0..655.35; otherwise "insufficient data for float: expected 2 bytes, got n" with n the byte count |
| Parser.ParseFloats | internal/controllers/epever/parser/parser.go:29-41 | succeeds exactly on at least 2·quantity bytes, with quantity values each being its register divided by 100; otherwise "insufficient data for q floats: expected 2q bytes, got n" (`Parser.Shortage`) |
| Parser.ParseInt | internal/controllers/epever/parser/parser.go:44-49 | succeeds exactly on at least two bytes, with the first register unsigned (0..65535); otherwise "insufficient data for int: expected 2 bytes, got n" |
| Parser.ParseInts | internal/controllers/epever/parser/parser.go:52-64 | succeeds exactly on at least 2·quantity bytes, with each register unsigned; otherwise "insufficient data for q ints: expected 2q bytes, got n" |
| Parser.ParseFloat32 | internal/controllers/epever/parser/parser.go:69-80 | succeeds exactly on at least four bytes, with the 32-bit value high register second (low word first) divided by 100; otherwise "insufficient data for float32: expected 4 bytes, got n" |
| Parser.LengthText | internal/controllers/epever/parser/parser.go:22 | the byte count in a refusal is printed in decimal digits that read back as the length |
| Parser.ParseSignedTemperature | internal/controllers/epever/parser/parser.go:85-91 | raw values from 32768 up are negative, the result is the raw value as int16 divided by 100, in −327.68..327.67 |
| Parser.ParseTemperatures | internal/controllers/epever/parser/parser.go:95-108 | succeeds exactly on at least four bytes, with battery then device temperature folded; otherwise the refusal of `ParseInts` for two registers |
| Parser.EncodeUint16 | internal/controllers/epever/parser/parser.go:111-115 | two bytes whose register is the value; `ParseInt` reads it back |
| Parser.EncodeUint16s | internal/controllers/epever/parser/parser.go:118-124 | register i of the encoding is value i |
| Parser.EncodeVoltage | internal/controllers/epever/parser/parser.go:127-129 | for volts·100 in the uint16 range, the register is volts·100 truncated |
| Parser.EncodeTemperature | internal/controllers/epever/parser/parser.go:132-134 | for degrees·100 in the int16 range, the register is degrees·100 truncated toward zero |
| Parser.EncodeUint16sRoundTrip | internal/controllers/epever/parser/parser.go:52-64 | decoding an encoding of registers gives back the registers |
| Parser.LowWordFirstRoundTrip | internal/controllers/epever/parser/parser.go:69-80 | a 32-bit count laid out low word first decodes to count/100 |
| Parser.VoltageRoundTrip | internal/controllers/epever/parser/parser.go:127-129 | a decoded voltage re-encodes to exactly the register it came from |
| Parser.TemperatureRoundTrip | internal/controllers/epever/parser/parser.go:132-134 | a decoded temperature re-encodes to the int16 the register held |
| Parser.SignedTemperatureBoundaries | internal/controllers/epever/parser/parser.go:85-91 | 32767 ↦ 327.67, 32768 ↦ −327.68, 0 ↦ 0, 65535 ↦ −0.01 |
| Parser.AllOnesIsUnsigned | internal/controllers/epever/parser/parser.go:44-49 | the all-ones register reads 65535, not −1 |
| Parser.SingleAgreesWithMultiple | internal/controllers/epever/parser/parser.go:20-64 | the one-register decoders agree with the many-register ones at quantity 1, and bytes past the register are ignored |
| Collection.ChargingStatusOf | internal/controllers/epever/collector.go:103-104 | the charging status is bits 2–3 of the equipment status register, 0..3 |
| Collection.MaskTwelve | internal/controllers/epever/collector.go:103 | masking with 0x0C and shifting right by two keeps exactly bits 2 and 3 |
| Collection.FoldTemperature | internal/controllers/epever/collector.go:111-123 | the collector's fold agrees with the codec's on every raw value except 32768, which it reads as +327.68 |
| Collection.Answer | internal/controllers/epever/collector.go:47-109 | each answered read of the status plan carries its registers |
| Collection.DecodeFloats | internal/controllers/epever/collector.go:145-148 | the decoding loop of `getValueFloats` gives what `ParseFloats` gives |
| Collection.DecodeInts | internal/controllers/epever/collector.go:167-170 | the decoding loop of `getValueInts` gives what `ParseInts` gives |
| Collection.Collector.constructor | internal/controllers/epever/collector.go:32-38 | a collector over the given client |
| Collection.Collector.GetValueFloat | internal/controllers/epever/collector.go:130-137 | one input-register read at the address; the register/100, or the wrapped error text |
| Collection.Collector.GetValueFloats | internal/controllers/epever/collector.go:139-151 | one read of quantity registers; their values/100, or the wrapped error |
| Collection.Collector.GetValueInt | internal/controllers/epever/collector.go:153-159 | one read; the unsigned register, or the wrapped error |
| Collection.Collector.GetValueInts | internal/controllers/epever/collector.go:161-173 | one read of quantity registers; the unsigned registers, or the wrapped error |
| Collection.Collector.GetValueFloat32 | internal/controllers/epever/collector.go:175-184 | one read of two registers; the word-swapped 32-bit value/100, or the wrapped error |
| Collection.Collector.GetStatus | internal/controllers/epever/collector.go:40-128 | the eleven reads in order, stopping at the first failure other than the state-of-charge read; a status exactly when they complete, equal to the field-by-field decoding of the answers; otherwise the failing read's error |
| Collection.Collector.ReadPanelAndBattery | internal/controllers/epever/collector.go:47-81 | the first six reads of the plan, in order; when they pass, the panel and battery readings and the array power decoded from them, the state of charge 0 when its read failed; otherwise the failing read's error |
| Collection.Collector.ReadChargingAndTemperatures | internal/controllers/epever/collector.go:83-123 | the remaining five reads; when they pass, the whole plan has completed and the charging, energy, status and folded temperature values are decoded from them; otherwise the failing read's error |
| Collection.Collector.ReadArray | internal/controllers/epever/collector.go:47-58 | reads 0x3100 (two registers) and 0x3101; the array current is the second read's register |
| Collection.Collector.ReadBattery | internal/controllers/epever/collector.go:60-68 | reads battery voltage, then state of charge, whose failure gives 0 and does not stop |
| Collection.Collector.ReadExtremes | internal/controllers/epever/collector.go:70-81 | reads the day's voltage extremes and the 32-bit array power |
| Collection.Collector.ReadCharging | internal/controllers/epever/collector.go:83-91 | reads the charging current and the 32-bit charging power |
| Collection.Collector.ReadEnergy | internal/controllers/epever/collector.go:93-104 | reads the day's energy (32-bit) and the equipment status, masked to the charging status |
| Collection.Collector.ReadTemperatures | internal/controllers/epever/collector.go:106-123 | reads the two temperatures and folds each; on success the whole plan has completed |
| Collection.StatusRanges | internal/controllers/epever/collector.go:40-128 | every field of a collected status lies in the range its register allows, and the charging status in 0..3 |
| Collection.SocFailureIgnored | internal/controllers/epever/collector.go:65-68 | a failed state-of-charge read alone still yields a status, with state of charge 0 |
| Collection.OtherFailureFatal | internal/controllers/epever/collector.go:47-109 | any other failed read means no status |
| Collection.PowerAgreesWithCodec | internal/controllers/epever/collector.go:175-184 | the three 32-bit fields equal `Parser.ParseFloat32` of their replies |
| Collection.LowWordFirstAgrees | internal/controllers/epever/collector.go:182-183 | the collector's word swap decodes as the codec's `ParseFloat32` |
| Collection.ArrayCurrentOverwritten | internal/controllers/epever/collector.go:52-58 | the array current is the 0x3101 register and the array voltage the first register of 0x3100 |
| Collection.FoldExamples | internal/controllers/epever/collector.go:111-123 | worked values −10, −5 and 25 °C, and the 32768 boundary where the two folds differ |
| Configuration.BatteryTypeToInt | internal/controllers/epever/configurer.go:246-259 | the code is 1–4 for the four known names, at their place in the list, and 0 for any other name |
| Configuration.BatteryTypeToString | internal/controllers/epever/configurer.go:261-274 | codes 1–4 name their type; every other code is "unknown" |
| Configuration.BatteryTypeRoundTrips | internal/controllers/epever/configurer.go:246-274 | the two mappings are inverse on the four known types, and every unknown code maps back to 0 |
| Configuration.TimeStringFields | internal/controllers/epever/configurer.go:172-174 | the clock text splits back into day-month-year and the zero-padded hour:minute:second numerals |
| Configuration.Block | internal/controllers/epever/configurer.go:155-217 | each answered read of `getConfig` carries its registers |
| Configuration.ConfigRanges | internal/controllers/epever/configurer.go:155-244 | a read configuration has a known or "unknown" battery type, voltages in 0..655.35, the capacity and charging limit as their registers, and temperature limits in −327.68..327.67 |
| Configuration.ValidateVoltageParameters | internal/controllers/epever/configurer.go:512-550 | passes exactly when all four voltage rules hold; a failure names a broken rule, and every earlier rule holds |
| Configuration.VoltageRule.Message | internal/controllers/epever/configurer.go:520-546 | the error of a broken rule opens with the rule's name, followed by its chain with each voltage in `%.2f` |
| Configuration.MessageNamesRule | internal/controllers/epever/configurer.go:512-550 | equal errors come from the same rule, so the text tells which rule failed |
| Configuration.ValidationIgnoresOtherFields | internal/controllers/epever/configurer.go:512-550 | validation depends on the voltage fields only |
| Configuration.Calls | internal/controllers/epever/configurer.go:276-285 | each planned write becomes one Write Single Register call, in order |
| Configuration.Present | internal/controllers/epever/configurer.go:359-418 | a request's writes are at most one per field slot |
| Configuration.PresentWritesEntries | internal/controllers/epever/configurer.go:359-418 | the writes of a request are exactly its present fields: each given field is written with its value and description to its slot's address, and every write comes from a given field |
| Configuration.Addresses | internal/controllers/epever/configurer.go:359-418 | the addresses of planned writes, in order |
| Configuration.PresentFollowsOrder | internal/controllers/epever/configurer.go:359-418 | the writes a request plans follow the fixed order of its field slots |
| Configuration.ChargingSlots | internal/controllers/epever/configurer.go:669-755 | one optional write per address of the fixed write order |
| Configuration.ConfigSlots | internal/controllers/epever/configurer.go:359-418 | one optional write per address of the same fixed write order |
| Configuration.WriteOrder | internal/controllers/epever/configurer.go:359-418 | both patch handlers write in the order 0x9016, 0x906B, 0x9004, 0x9006, 0x9007, 0x906C, 0x9008, 0x9009 |
| Configuration.ProfileWrites | internal/controllers/epever/configurer.go:466-488 | the type code is written to 0x9000 first, then the capacity to 0x9001, each only when given |
| Configuration.ProposeCharging | internal/controllers/epever/configurer.go:620-657 | the proposal is the current configuration with exactly the five given charging voltages replaced: each of chargingLimit, equalization, boost, float and boostReconnect is the body's value when given and the current one otherwise, and every other field is the current one |
| Configuration.ProposeConfig | internal/controllers/epever/configurer.go:327-349 | the proposal is the current configuration with each of the five charging voltages replaced exactly when the body's value is above zero, and every other field the current one |
| Configuration.ToByte | internal/controllers/epever/configurer.go:829-836 | `byte(n)` is n on 0..255 |
| Configuration.TimeBytes | internal/controllers/epever/configurer.go:829-836 | six bytes: minute, second, day, hour, year−2000, month |
| Configuration.TimeOf | internal/controllers/epever/configurer.go:804-812 | the clock bytes always give a valid date and time: month, day, hour, minute and second in range, as `time.Date` settles them |
| Configuration.TimeOfInstant | internal/controllers/epever/configurer.go:804-812 | the time read is the same instant as the raw fields, an out-of-range field carrying into the next larger one and the month first, as `time.Date` normalises |
| Configuration.InstantDetermines | internal/controllers/epever/configurer.go:804-812 | two valid times at the same instant are equal, so the settled time is the only valid one at that instant |
| Configuration.SettleDay | internal/controllers/epever/configurer.go:804-812 | a day outside its month moves across month ends to a valid date with the same day number |
| Configuration.DaysIn | internal/controllers/epever/configurer.go:804-812 | every month has 28 to 31 days |
| Configuration.DayNumberDetermines | internal/controllers/epever/configurer.go:804-812 | two valid dates with the same day number are the same date |
| Configuration.TimeRoundTrip | internal/controllers/epever/configurer.go:819-867 | a valid clock time with a year in 2000..2255 survives the write and the read back |
| Configuration.TimeYearWraps | internal/controllers/epever/configurer.go:834 | outside those years the year comes back modulo 256, and a 29 February that lands in a common year reads back as 1 March; nothing else changes |
| Configuration.TimeOfFields | internal/controllers/epever/configurer.go:804-812 | bytes whose month, hour, minute and second are in range read as exactly those fields, with only the day carried into its month |
| Configuration.TimeBytesRoundTrip | internal/controllers/epever/configurer.go:804-836 | six clock bytes that spell a valid time read back as exactly those fields and are written back unchanged |
| Configuration.QueryCall | internal/controllers/epever/configurer.go:886-899 | register classes 1–4 select a one-register read of coils, discrete inputs, holding or input registers at the address; any other class selects none |
| Configuration.QueryAddress | internal/controllers/epever/configurer.go:878-884 | a parsed address fits sixteen bits; a refusal is `strconv.ParseUint`'s error on the text with every "0x" removed |
| Configuration.QueryAddressRoundTrip | internal/controllers/epever/configurer.go:878-884 | an address written in lower-case hexadecimal, with or without "0x", parses back to itself |
| Configuration.QueryAddressSyntax | internal/controllers/epever/configurer.go:878-884 | text that is empty or starts with a non-digit once every "0x" is removed is refused with the syntax error quoting the cleaned text |
| Configuration.ProfileOf | internal/controllers/epever/configurer.go:444-447 | the profile is the configuration's type and capacity |
| Configuration.ParametersDetermineConfig | internal/controllers/epever/configurer.go:562-582 | the nineteen charging parameters with time, type, capacity and coefficient determine the whole configuration |
| Configuration.ConfigRead | internal/controllers/epever/configurer.go:155-244 | `getConfig` succeeds exactly when all six reads succeed, then has issued the whole plan and yields the decoded configuration |
| Configuration.ConfigReadStops | internal/controllers/epever/configurer.go:157-212 | when read i fails, `getConfig` has issued reads 0..i and returns that read's labelled error |
| Configuration.WriteRun | internal/controllers/epever/configurer.go:359-418 | a guarded run of writes passes exactly when every write succeeds, and issues the writes up to the first failure |
| Configuration.WriteRunFailure | internal/controllers/epever/configurer.go:276-285 | a failed run stops at its first failing write, reports that write's error, and every earlier write succeeded |
| Configuration.CachedReadFacts | internal/controllers/epever/configurer.go:119-145 | the cache serves what the device answers, reads the device exactly when the entry is missing or stale and then issues all of `getConfig`, holds a fresh entry after a successful read and keeps the old one after a failure |
| Configuration.CacheExpiry | internal/controllers/epever/configurer.go:29-145 | an entry stored at t is served until just before t plus ten minutes; an empty cache is never fresh |
| Configuration.TypeWrite | internal/controllers/epever/configurer.go:298-300 | a battery type is written to 0x9000 as its code |
| Configuration.ReadBackAgrees | internal/controllers/epever/configurer.go:424-430 | the read back keeps the cache agreeing with the device, and a 200 renders the configuration the device holds |
| Configuration.WriteBackAgrees | internal/controllers/epever/configurer.go:490-507 | after a write block and read back, the cache agrees with the device and a 200 renders what the device holds |
| Configuration.CheckedWriteAgrees | internal/controllers/epever/configurer.go:659-663 | the same after validation and the write block |
| Configuration.ValidatedWriteAgrees | internal/controllers/epever/configurer.go:612-663 | the same when the current configuration comes from the cache |
| Configuration.BatteryProfileGetAgrees | internal/controllers/epever/configurer.go:435-450 | `BatteryProfileGet` keeps the cache agreeing, and a 200 is the profile of the configuration the device holds |
| Configuration.ChargingParametersGetAgrees | internal/controllers/epever/configurer.go:553-585 | `ChargingParametersGet` keeps the cache agreeing, and a 200 is the device's charging parameters |
| Configuration.ConfigPatchRestAgrees | internal/controllers/epever/configurer.go:318-431 | the part after the battery type keeps the cache agreeing, and a 200 is the device's configuration |
| Configuration.ConfigPatchAgrees | internal/controllers/epever/configurer.go:287-432 | `ConfigPatch` keeps the cache agreeing with the device, and a 200 is the configuration it holds |
| Configuration.BatteryProfilePatchAgrees | internal/controllers/epever/configurer.go:453-508 | `BatteryProfilePatch` keeps the cache agreeing, and a 200 is the device's profile |
| Configuration.ChargingPatchAgrees | internal/controllers/epever/configurer.go:588-792 | `ChargingParametersPatch` keeps the cache agreeing, and a 200 is the device's parameters |
| Configuration.ChargingPatchKeepsCache | internal/controllers/epever/configurer.go:588-792 | after `ChargingParametersPatch` the cache still agrees with the device, whatever the outcome |
| Configuration.ChargingPatchAnswersDevice | internal/controllers/epever/configurer.go:588-792 | a 200 from `ChargingParametersPatch` comes after a complete configuration read and carries the parameters the device holds |
| Configuration.ChargingPatchRefuses | internal/controllers/epever/configurer.go:590-608 | a failed type read, a type other than user-defined or an unparsable body ends the request after the single type read with a 500 or 400, the cache untouched; a type other than 4 is a 400 |
| Configuration.AcceptedWrites | internal/controllers/epever/configurer.go:462-491 | the accepted writes of a log are writes in it that the device answered with success |
| Configuration.CachedReadNotStale | internal/controllers/epever/configurer.go:119-145 | `getCachedConfig` keeps an entry no older than the last accepted write; only a configuration read whose every call the device answered with data counts as a read since that write |
| Configuration.WriteBackCache | internal/controllers/epever/configurer.go:462-491 | as written, a failed write block keeps the entry whatever it wrote; under the corrected rule it keeps it exactly when the device accepted none of its writes and otherwise leaves none; a passing block that wrote reads the whole configuration after its writes and stores what that read returns, stamped `now` |
| Configuration.WriteBackNotStale | internal/controllers/epever/configurer.go:462-491 | under the corrected rule, the write block and its read back leave no entry older than a write the device accepted, a read counting only when the device answered all of it |
| Configuration.AsWrittenKeepsStaleEntry | internal/controllers/epever/configurer.go:462-491 | as written, the first write accepted and the second refused leave the entry from before the write, which is stale and is served again without a read; the corrected rule leaves none |
| Configuration.ProfilePatchKeepsStaleEntry | internal/controllers/epever/configurer.go:462-491 | `BatteryProfilePatch` as written, with a fresh entry, the type write accepted and the capacity write refused: a 400 that keeps the stale entry, after which `BatteryProfileGet` answers the old profile without a read; under the corrected rule no entry is left |
| Configuration.SecondWriteRefused | internal/controllers/epever/configurer.go:462-491 | a write block whose first write is accepted and second refused stops after those two calls with one write accepted |
| Configuration.CheckedWriteNotStale | internal/controllers/epever/configurer.go:659-663 | the same after validation, under the corrected rule |
| Configuration.ValidatedWriteNotStale | internal/controllers/epever/configurer.go:612-663 | the same when the current configuration comes from the cache, under the corrected rule |
| Configuration.SettleTypeNotStale | internal/controllers/epever/configurer.go:297-316 | an accepted battery-type write drops the entry |
| Configuration.ConfigPatchRestNotStale | internal/controllers/epever/configurer.go:318-431 | under the corrected rule, the part of `ConfigPatch` after the battery type keeps the entry current |
| Configuration.ConfigPatchNotStale | internal/controllers/epever/configurer.go:287-432 | under the corrected rule, `ConfigPatch` leaves no entry older than a write the device accepted, a read counting only when the device answered all of it |
| Configuration.BatteryProfilePatchNotStale | internal/controllers/epever/configurer.go:453-508 | under the corrected rule, `BatteryProfilePatch` leaves no entry older than a write the device accepted |
| Configuration.ChargingPatchNotStale | internal/controllers/epever/configurer.go:588-792 | under the corrected rule, `ChargingParametersPatch` leaves no entry older than a write the device accepted |
| Configuration.TimePatchNotStale | internal/controllers/epever/configurer.go:819-867 | `TimePatch` leaves no entry once the device accepted the clock write |
| Configuration.CachedReadReads | internal/controllers/epever/configurer.go:119-145 | `getCachedConfig` never writes |
| Configuration.ConfigReadReads | internal/controllers/epever/configurer.go:155-244 | `getConfig` issues register reads only |
| Configuration.WriteRunWrites | internal/controllers/epever/configurer.go:276-285 | a run of planned writes issues nothing but writes |
| Configuration.ReadBackWrites | internal/controllers/epever/configurer.go:424-430 | the read back adds no write, and answers 200, 400 or 500 |
| Configuration.WriteBackWrites | internal/controllers/epever/configurer.go:490-507 | the write block adds exactly the writes of its run; a 200 means the run passed; after a passing run that wrote, all of `getConfig` is read again |
| Configuration.CheckedWriteWrites | internal/controllers/epever/configurer.go:659-663 | a proposal that breaks a rule writes nothing; a passing one writes its run; a 200 means validation and every write passed |
| Configuration.ValidatedWriteWrites | internal/controllers/epever/configurer.go:612-663 | writes happen only when the current configuration could be read and the proposal passes validation; a 200 means both and every write succeeded |
| Configuration.ChargingPatchWrites | internal/controllers/epever/configurer.go:588-792 | `ChargingParametersPatch` writes only when the battery type register reads 4, the body parses and the proposal validates, and then exactly its planned run; a 200 means all of that held |
| Configuration.ChargingPatchProceeds | internal/controllers/epever/configurer.go:603-792 | the same once the type register reads 4 |
| Configuration.ChargingPatchOutcome | internal/controllers/epever/configurer.go:591-601 | a 200 means every planned write was made; a type code other than 4 is a 400 after the single type read |
| Configuration.ConfigPatchRestWrites | internal/controllers/epever/configurer.go:318-431 | with a user-defined battery, writes happen only once the proposal validates against the cached configuration; otherwise no write besides the type |
| Configuration.ConfigPatchWrites | internal/controllers/epever/configurer.go:287-432 | `ConfigPatch` writes the battery type when the body names one, then the charging writes only when the settled type is user-defined and the proposal validates |
| Configuration.SettleTypeWrites | internal/controllers/epever/configurer.go:297-316 | settling the battery type writes it exactly when the body names one; a failure there is a 400 or 500 |
| Configuration.BatteryProfilePatchWrites | internal/controllers/epever/configurer.go:453-508 | `BatteryProfilePatch` makes the writes its body asks for, in order, up to a failure; a 200 means all were made |
| Configuration.TimePatchWrites | internal/controllers/epever/configurer.go:819-867 | `TimePatch` makes one write, the six clock bytes at 0x9013, and clears the cache when the write succeeds |
| Configuration.ConfigGetReads | internal/controllers/epever/configurer.go:101-111 | `ConfigGet` never writes and leaves the cache alone |
| Configuration.BatteryProfileGetReads | internal/controllers/epever/configurer.go:435-450 | `BatteryProfileGet` never writes |
| Configuration.ChargingParametersGetReads | internal/controllers/epever/configurer.go:553-585 | `ChargingParametersGet` never writes |
| Configuration.TimeGetReads | internal/controllers/epever/configurer.go:795-816 | `TimeGet` never writes and leaves the cache alone |
| Configuration.QueryPostReads | internal/controllers/epever/configurer.go:869-912 | `QueryPost` makes at most one call, never a write, and leaves the cache alone |
| Configuration.Configurer.constructor | internal/controllers/epever/configurer.go:29-34 | a configurer over the client with an empty cache |
| Configuration.Configurer.GetConfig | internal/controllers/epever/configurer.go:155-244 | issues exactly the calls of `ConfigRead` and returns its result |
| Configuration.Configurer.ReadFirstHalf | internal/controllers/epever/configurer.go:157-192 | the first three reads, or the state of a failed `getConfig` |
| Configuration.Configurer.ReadSecondHalf | internal/controllers/epever/configurer.go:194-217 | the last three reads, completing the plan, or the state of a failed `getConfig` |
| Configuration.Configurer.GetCachedConfig | internal/controllers/epever/configurer.go:119-145 | result, calls and new cache are those of `CachedRead` |
| Configuration.Configurer.InvalidateCache | internal/controllers/epever/configurer.go:148-153 | the cache is empty afterwards |
| Configuration.Configurer.WriteSingleRegister | internal/controllers/epever/configurer.go:276-285 | one Write Single Register; passes exactly when the device accepts it, else the described error |
| Configuration.Configurer.WriteAll | internal/controllers/epever/configurer.go:359-418 | the guarded writes in order, as `WriteRun`, with the count of writes the device accepted |
| Configuration.Configurer.ConfigGet | internal/controllers/epever/configurer.go:101-111 | the handler's answer and calls are `ConfigGetEffect`'s; the cache keeps agreeing |
| Configuration.Configurer.BatteryProfileGet | internal/controllers/epever/configurer.go:435-450 | answer, calls and cache are `BatteryProfileGetEffect`'s; the cache keeps agreeing |
| Configuration.Configurer.ChargingParametersGet | internal/controllers/epever/configurer.go:553-585 | answer, calls and cache are `ChargingParametersGetEffect`'s |
| Configuration.Configurer.TimeGet | internal/controllers/epever/configurer.go:795-816 | answer and calls are `TimeGetEffect`'s, the clock settled as `time.Date` settles it; the cache keeps agreeing |
| Configuration.Configurer.TimePatch | internal/controllers/epever/configurer.go:819-867 | answer, calls and cache are `TimePatchEffect`'s |
| Configuration.Configurer.QueryPost | internal/controllers/epever/configurer.go:869-912 | answer and calls are `QueryPostEffect`'s, a bad address refused with `strconv.ParseUint`'s error text |
| Configuration.Configurer.ConfigPatch | internal/controllers/epever/configurer.go:287-432 | answer, calls and cache are `ConfigPatchEffect`'s under the handlers' own rule: a broken voltage rule is a 400 naming the rule with each voltage in `%.2f`, and a failed charging write returns its 400 with the cache as it was; the cache keeps agreeing with a device whose reads ignore the writes |
| Configuration.Configurer.SettleTypeStep | internal/controllers/epever/configurer.go:297-316 | the battery-type step as `SettleType` |
| Configuration.Configurer.ApplyConfig | internal/controllers/epever/configurer.go:318-431 | the rest of `ConfigPatch` as `ConfigPatchRest`, including the rule's full message with the voltages in `%.2f`, and the cache cleared only after every charging write passed |
| Configuration.Configurer.ReadBackStep | internal/controllers/epever/configurer.go:424-430 | the read back as `ReadBack` |
| Configuration.Configurer.WriteBackStep | internal/controllers/epever/configurer.go:669-768 | writes, invalidation and read back as `WriteBack` under the handlers' own rule: a failed write returns its 400 with the cache untouched; after a passing block the cache is cleared when `always` is set or a write was made |
| Configuration.Configurer.InvalidatedReadBackStep | internal/controllers/epever/configurer.go:757-768 | the invalidation and read back as `ReadBack` on the cleared or kept cache |
| Configuration.Configurer.ValidatedWriteStep | internal/controllers/epever/configurer.go:612-663 | the cached read, validation and writes as `ValidatedWrite`: a 500 when the current configuration cannot be read, a 400 with the rule's full message, then the write block, which leaves the cache alone when a write fails |
| Configuration.Configurer.CheckedWriteStep | internal/controllers/epever/configurer.go:659-663 | validation and writes as `CheckedWrite`: a broken rule is a 400 with the rule's full message and no write, then the write block as written |
| Configuration.Configurer.BatteryProfilePatch | internal/controllers/epever/configurer.go:453-508 | answer, calls and cache are `BatteryProfilePatchEffect`'s under the handlers' own rule: a refused write returns its 400 before `writeSucceeded` can clear the cache |
| Configuration.Configurer.ChargingParametersPatch | internal/controllers/epever/configurer.go:588-792 | answer, calls and cache are `ChargingPatchEffect`'s under the handlers' own rule: the battery-type gate, the rule's full message with the voltages in `%.2f`, and a failed write returning its 400 with the cache as it was |
| Metrics.ConvertStatusToMetrics | internal/controllers/epever/metrics.go:40-121 | no status gives no metrics; a status gives the twelve named metrics in order, each stamped with the status's time stamp |
| Metrics.MetricsCarryFields | internal/controllers/epever/metrics.go:45-120 | every metric carries the value of the status field its name stands for, and the unit of that field's quantity |
| Metrics.NamesDistinct | internal/controllers/epever/metrics.go:47-120 | no two metrics share a name |
| Metrics.ExtremesNotEmitted | internal/controllers/epever/metrics.go:47-120 | the day's maximum and minimum battery voltage play no part in the metrics |
| Metrics.NamesAreKebab | internal/controllers/epever/metrics.go:47-120 | every metric name is lower-case kebab case without a slash |
| Metrics.TopicsSplit | internal/controllers/epever/metrics.go:47-120 | a metric's topic `device/controller/name` splits back into its three parts |
| Publishers.Repeat | internal/publishers/multi_publisher.go:25-31 | n copies of the message |
| Publishers.Sink.constructor | internal/controllers/testing/mocks.go:140-143 | a sink that has received nothing |
| Publishers.Sink.Publish | internal/controllers/interfaces.go:50-51 | the message is appended to what the sink received |
| Publishers.Sink.Close | internal/controllers/interfaces.go:53-54 | the sink is closed once more and keeps its messages |
| Publishers.MultiPublisher.constructor | internal/publishers/multi_publisher.go:16-21 | a fan-out over the given list |
| Publishers.MultiPublisher.Publish | internal/publishers/multi_publisher.go:25-31 | every publisher receives the message once per place in the list, after its earlier messages; nothing is closed |
| Publishers.MultiPublisher.Close | internal/publishers/multi_publisher.go:34-38 | every publisher is closed once per place in the list, and its messages are kept |
| Publishers.DistinctOnce | internal/publishers/multi_publisher.go:25-31 | in a list without repeats every publisher receives exactly the one message (with `Publishers.DistinctOccurrences`) |
| Epever.PrometheusCollector.constructor | internal/controllers/epever/epever.go:53 | a collector with no failures and no statuses |
| Epever.PrometheusCollector.IncrementFailures | internal/controllers/interfaces.go:60-61 | the failure count grows by one, nothing else changes |
| Epever.PrometheusCollector.SetMetrics | internal/controllers/interfaces.go:66-68 | the status is handed to the gauges, the count is unchanged |
| Epever.AfterCollect | internal/controllers/epever/epever.go:83-111 | a failed collection only counts a failure; a successful one stores the status, hands it to the gauges and publishes it once under "solar" when it marshals |
| Epever.Collected | internal/controllers/epever/epever.go:89-94 | a collection yields a status exactly when every read but the state-of-charge read succeeds |
| Epever.Controller.constructor | internal/controllers/epever/epever.go:61-68 | a controller whose collector is fresh when it has a client |
| Epever.Controller.CollectAndPublish | internal/controllers/epever/epever.go:83-111 | issues the collection's reads, then leaves the state `AfterCollect` describes |
| Epever.Controller.Record | internal/controllers/epever/epever.go:96-108 | a collected status becomes the last status and is recorded once in the gauges; it is published once under the namespace exactly when it marshals |
| Epever.Controller.MetricsGet | internal/controllers/epever/epever.go:113-125 | 204 exactly before a status has been collected, 200 with the last status after |
| Epever.Controller.Enabled | internal/controllers/epever/epever.go:153-155 | the controller is enabled exactly when it holds a Modbus client (a predicate; `Endpoints` and `NewController` state what follows from it) |
| Epever.Controller.Endpoints | internal/controllers/epever/epever.go:127-155 | no routes exactly when the controller has no client; all routes lie under "/api/solar" |
| Epever.NewController | internal/controllers/epever/epever.go:37-81 | disabled, or no serial port, gives a controller without a client; otherwise the controller over the opened client, or the open error |
| Epever.FailureCount | internal/controllers/epever/epever.go:89-94 | the failures of a run are at most its length |
| Epever.RunTracks | internal/controllers/epever/epever.go:83-111 | over a run, the last status is the latest success, the counter grows by the number of failures, the gauges get one update per success, and at most one message goes out per success |
| Epever.RunKeepsStatus | internal/controllers/epever/epever.go:96-123 | once a status has been collected it is never cleared |
| RemoteWriteConfig.Validate | internal/remotewrite/configuration.go:35-77 | a disabled configuration always passes |
| RemoteWriteConfig.ValidateOrder | internal/remotewrite/configuration.go:41-52 | the URL rules are checked first, each with its own error text |
| RemoteWriteConfig.ValidateOrderAfterUrl | internal/remotewrite/configuration.go:54-64 | then the timeout, then the exclusive choice of authentication |
| RemoteWriteConfig.ValidateOrderCredentials | internal/remotewrite/configuration.go:66-74 | then the basic-auth username before the password |
| RemoteWriteConfig.ValidateAccepts | internal/remotewrite/configuration.go:35-77 | a configuration passes exactly when it keeps every rule |
| RemoteWriteConfig.ValidateIgnoresPrefix | internal/remotewrite/configuration.go:35-77 | the topic prefix plays no part in validation |
| RemoteWriteConfig.GetTimeout | internal/remotewrite/configuration.go:80-90 | thirty seconds unless a timeout is given and parses, else the parsed duration |
| RemoteWriteConfig.ValidatedTimeout | internal/remotewrite/configuration.go:55-90 | after validation the thirty-second fallback is taken only when no timeout was given |
| RemoteWriteConfig.AuthExclusive | internal/remotewrite/configuration.go:61-64 | a valid configuration never has both basic auth and a bearer token |
| RemoteWrite.ToFloat64 | internal/remotewrite/publisher.go:330-351 | succeeds exactly on the eight numeric kinds, with their value; otherwise the error names the type |
| RemoteWrite.Snake | internal/remotewrite/publisher.go:131 | the name keeps its length and loses every hyphen |
| RemoteWrite.LabelMap | internal/remotewrite/publisher.go:148-157 | labels device_id and controller, and unit exactly when the unit is non-empty |
| RemoteWrite.ParseMetric | internal/remotewrite/publisher.go:119-165 | a topic that is not three parts is rejected with its text; parsing succeeds exactly on three parts, a decodable payload and a numeric value, giving `{controller}_{snake name}`, the labels, the value and the time stamp |
| RemoteWrite.ParseTopic | internal/remotewrite/publisher.go:119-165 | a slash-free `device/controller/name` with a numeric payload parses to exactly that metric |
| RemoteWrite.StatusTopicRejected | internal/remotewrite/publisher.go:121-124 | the controller's bare "solar" topic is always rejected |
| RemoteWrite.Ids | internal/remotewrite/publisher.go:207-214 | the series of a batch are distinct, and every metric's series is among them |
| RemoteWrite.AppendMetric | internal/remotewrite/publisher.go:210-246 | one more metric adds its series if new, and its sample to its own series only |
| RemoteWrite.RepresentsAllSamples | internal/remotewrite/publisher.go:206-255 | the series built from a batch hold exactly as many samples as the batch has metrics |
| RemoteWrite.MetricInItsSeries | internal/remotewrite/publisher.go:206-255 | each metric's sample lies in the one series with its name and labels, and no two series share name and labels |
| RemoteWrite.LabelsOf | internal/remotewrite/publisher.go:217-231 | a new series' labels: `__name__` first, then each label once |
| RemoteWrite.MetricsToTimeSeries | internal/remotewrite/publisher.go:206-255 | the result represents the batch: one series per distinct name and label set, with its labels and its samples in batch order, in milliseconds |
| RemoteWrite.Pairs | internal/remotewrite/publisher.go:261-263 | one `key=value` part per visited key |
| RemoteWrite.SeriesKey | internal/remotewrite/publisher.go:257-265 | the key is the name followed by `key=value` for every label once, in the order the iteration visits them |
| RemoteWrite.SeriesKeyDependsOnOrder | internal/remotewrite/publisher.go:257-265 | the same name and labels give two different keys under two iteration orders |
| RemoteWrite.KeyShiftsAcrossValues | internal/remotewrite/publisher.go:257-265 | moving `,c=y` from the end of one label's value to the front of the next label's value leaves the key unchanged, since neither commas nor `=` are escaped |
| RemoteWrite.SeriesKeyMergesLabelSets | internal/remotewrite/publisher.go:257-265 | two different label sets, {device_id: "a,controller=b", controller: "x"} and {device_id: "a", controller: "b,controller=x"}, give the same key in the same iteration order |
| RemoteWrite.Publisher.constructor | internal/remotewrite/publisher.go:62-70 | an empty batch, nothing sent, the given settings |
| RemoteWrite.Publisher.FlushBatch | internal/remotewrite/publisher.go:169-203 | an empty batch does nothing; otherwise the batch is cleared, the request represents it under the corrected grouping by name and whole label set, and it is sent and the time stamp renewed unless marshalling fails |
| RemoteWrite.ShouldFlush | internal/remotewrite/publisher.go:105-109 | the flush rule: the batch holds twelve or more metrics, or more than the batch timeout has passed since the last flush (a predicate; `Publisher.Publish` states what follows from it) |
| RemoteWrite.Publisher.Publish | internal/remotewrite/publisher.go:84-114 | a disabled publisher or an unparsable message changes nothing; a parsed metric joins the batch, which is flushed, as `FlushBatch` states, when it reaches twelve or the last flush is over five seconds old |
| RemoteWrite.Publisher.Close | internal/remotewrite/publisher.go:312-327 | an enabled publisher flushes a non-empty batch, as `FlushBatch` states; otherwise nothing changes |
| RemoteWrite.NewPublisher | internal/remotewrite/publisher.go:48-80 | an invalid configuration is an error with the prefixed text; a valid one gives a publisher enabled as configured; an enabled one has the configured timeout, the five-second batch timeout, the given prefix and device id, and its last flush time set to now |
| AppConfig.WithDefaults | internal/config/config.go:51-68 | empty device id and topic prefixes get "controller-1" and "solar"; every other field is kept |
| AppConfig.Config.constructor | internal/config/config.go:31-34 | the configuration holds the decoded settings |
| AppConfig.Config.ApplyDefaults | internal/config/config.go:51-68 | the settings become `WithDefaults` of the old ones |
| AppConfig.DefaultsIdempotent | internal/config/config.go:51-68 | applying defaults twice is applying them once |
| AppConfig.DefaultsKeepGiven | internal/config/config.go:51-68 | defaults leave given values alone |
| AppConfig.Validate | internal/config/config.go:71-120 | a pass means the port and every enabled publisher, remote-write and epever section keep their rules; a failure with the port, the publishers and remote write in order comes from the epever section (`ValidateOrder` and `ValidateAccepts` state the rest) |
| AppConfig.ValidateOrder | internal/config/config.go:71-120 | the port is checked first, then each enabled section in turn; the remote-write error is passed on unchanged |
| AppConfig.ValidateAccepts | internal/config/config.go:71-120 | a configuration passes exactly when it keeps every rule of every enabled section |
| AppConfig.DefaultsDoNotAffectValidity | internal/config/config.go:40-45 | validation gives the same verdict before and after the defaults |
| AppConfig.Load | internal/config/config.go:31-48 | a parse error is "failed to parse YAML: …"; valid settings come back with defaults applied; invalid ones give "invalid configuration: …" with the first broken rule; a loaded configuration is valid and fixed by the defaults |

## Left out

- Transport retry, the serial port, and the mutexes of the transport, cache, status and batch: these are concurrency and I/O. Every call is modelled as atomic.
- The gocron scheduler and the goroutine that runs the first collection: `Epever.Run` stands for any sequence of collections.
- `NewController`'s error when the scheduler refuses the period: the scheduler is not modelled.
- `Controller.Close` stops the scheduler and the client: neither is modelled.
- `Collection.Collector.GetStatus` and `Configuration.Configurer.GetConfig`: each is proved as a few step methods (`ReadPanelAndBattery` and `ReadChargingAndTemperatures`, each made of `ReadArray` … `ReadTemperatures`; `ReadFirstHalf` / `ReadSecondHalf`). This keeps each proof small; the one Go function is the concatenation of those steps.
- float32 and float64 rounding: every scaled value is an exact real (raw / 100). `VoltageWord` and the encoders truncate the exact product.
- JSON binding and marshalling, YAML decoding, `url.Parse`, `time.ParseDuration`, and protobuf marshalling with snappy: each is a function parameter (`decode`, `marshal`, `marshals`, `scheme`, `duration`, already-parsed request bodies). The model does not look inside them.
- The HTTP request of `sendRequest`: its headers, authentication and status check. `sent` records every request handed to it, whether or not the endpoint accepted it, as the Go code ignores the outcome apart from logging.
- `Metric.ToJSON`: this is JSON formatting, which the model does not look into.
- Clocks: `time.Now` / `time.Since` are `now` parameters. `Publish` uses one `now` for the timeout test and for the flush it triggers.
- `RemoteWrite.SampleOf`: the timestamp·1000 conversion does not wrap at 64 bits, because time stamps are unbounded integers.
- `RemoteWrite.MetricsToTimeSeries`: Go returns the series in map iteration order, which is unspecified. The model returns them in first-appearance order. The labels after `__name__` come in an arbitrary order (`LabelsOf` picks one). It groups by `SeriesId`, the corrected grouping of the first Findings row, not by Go's `seriesKey` text.
- RemoteWrite.Publisher.FlushBatch: the request is built with the corrected grouping by name and whole label set. Go's `seriesKey` may split one label set into two series (map order) or merge two label sets into one (commas and `=` in values), so Go's request can differ from the one stated here.
- RemoteWrite.Publisher.Publish: a flush it triggers is `FlushBatch`, so the request it sends carries the same corrected grouping.
- RemoteWrite.Publisher.Close: the same, for the flush on close.
- The unused `topicPrefix` and `deviceID` fields of the remote-write publisher are stored and not otherwise used, as in Go.
- Writes do not change later reads: the scripted device answers from a fixed table. Statements about a read back after a write are about that table. Whether an entry can be older than a write is stated on the order of the calls instead (`Configuration.NotStale`). The `…NotStale` lemmas prove it under the corrected rule, and `Configuration.AsWrittenKeepsStaleEntry` shows where the handlers' own rule breaks it.
- Configuration.WriteBackAgrees: the entry agrees with a device whose reads ignore the writes; against a device that applies them, only the `…NotStale` lemmas speak.
- Configuration.CheckedWriteAgrees: the same reading of agreement.
- Configuration.ValidatedWriteAgrees: the same reading of agreement.
- Configuration.ConfigPatchRestAgrees: the same reading of agreement.
- Configuration.ConfigPatchAgrees: the same reading of agreement.
- Configuration.BatteryProfilePatchAgrees: the same reading of agreement.
- Configuration.ChargingPatchAgrees: the same reading of agreement.
- Configuration.ChargingPatchKeepsCache: the same reading of agreement.
- Text.QuoteChar: characters beyond ASCII are written as themselves. `strconv.Quote` also escapes the non-printable ones and invalid UTF-8, which the model does not classify.
- Text.Fixed2: it rounds the exact real value. Go rounds the binary floating-point value, so a decimal tie such as 0.005 can come out differently.
- `Configuration.QueryPostEffect`: a coil or discrete-input reply of one byte makes Go's 16-bit decode panic. The model answers that case with an empty 500, as gin's recovery middleware does.
- internal/controllers/epever/client.go is not part of this model. Neither is the two-argument `NewConfigurer` call in epever.go, which refers to a Prometheus collector that the shown configurer does not take.
- Logging is not modelled.

## Findings

| source | as written | input that shows it | evidently intended | confidence | as-written member | corrected member |
|---|---|---|---|---|---|---|
| internal/remotewrite/publisher.go:257-265 | `seriesKey` joins `key=value` parts in Go map iteration order, which varies from one iteration to the next. The comment at line 211 says "sorted labels". | metric name "n" with labels {device_id: "d", controller: "c"}: the two iteration orders give "n,device_id=d,controller=c" and "n,controller=c,device_id=d", so one batch can file two samples of the same series as two series. Conversely, labels {device_id: "a,controller=b", controller: "x"} and {device_id: "a", controller: "b,controller=x"} visited device_id first both give "n,device_id=a,controller=b,controller=x", so samples of two series are filed as one | one key per name and label set: equal keys exactly for equal name and labels, however the labels are visited | not executed | RemoteWrite.SeriesKey, RemoteWrite.SeriesKeyDependsOnOrder, RemoteWrite.SeriesKeyMergesLabelSets | RemoteWrite.MetricsToTimeSeries (groups by `SeriesId`, the name with the whole label map; see RemoteWrite.MetricInItsSeries and RemoteWrite.RepresentsAllSamples) |
| internal/controllers/epever/configurer.go:462-491 | `BatteryProfilePatch` returns the 400 of a failed write before `invalidateCache`, even when an earlier write of the same request was accepted. `ChargingParametersPatch` (lines 665-760) and `ConfigPatch` without a battery type (lines 360-421) do the same. | a fresh entry in the cache, and body {"batteryType": "gel", "batteryCapacity": 200} whose type write the device accepts and whose capacity write it refuses: the 400 keeps the entry, and for up to ten minutes `BatteryProfileGet` answers the old type without reading the device | the entry dropped once any write was accepted: the comments at lines 420, 490 and 757 tie `invalidateCache` to a write having gone through, and `writeSucceeded` is set by the first accepted write, yet the early return of the later failure skips it. The model's handlers follow the code. | not executed; medium, since the comments name a successful write but not the whole request | Configuration.AsWrittenKeepsStaleEntry, Configuration.ProfilePatchKeepsStaleEntry (`WriteBack` under `CacheRule.AsWritten`, the rule the handler methods use) | `WriteBack` under `CacheRule.Corrected`, with Configuration.WriteBackCache, Configuration.WriteBackNotStale, Configuration.BatteryProfilePatchNotStale, Configuration.ChargingPatchNotStale, Configuration.ConfigPatchNotStale |
