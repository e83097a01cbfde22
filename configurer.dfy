/** The configuration side of the EPEVER controller
    (internal/controllers/epever/configurer.go): the holding-register layout
    read by `getConfig` (Read Holding Registers, function 0x03, section 6.3
    of the MODBUS Application Protocol Specification V1.1b3), the TTL cache
    in front of it, the voltage-ordering rules, the battery-type codes, and
    the HTTP handlers that validate a request and then write registers one
    at a time (Write Single Register, 0x06, section 6.6) or set the clock
    (Write Multiple Registers, 0x10, section 6.12). */
module Configuration {
  import opened Wrappers
  import opened Modbus
  import Parser
  import Text
  import Http

  // ---------------------------------------------------------------------
  // Battery types

  const BatteryTypeNames: seq<string> := ["sealed", "gel", "flooded", "userDefined"]

  /** `batteryTypeToInt`: the register code of a battery type name; any
      other name is 0. */
  function BatteryTypeToInt(name: string): (code: Word)
    ensures code <= 4
    ensures code == 0 <==> name !in BatteryTypeNames
    ensures code != 0 ==> BatteryTypeNames[code - 1] == name
  {
    match name
    case "sealed" => 1
    case "gel" => 2
    case "flooded" => 3
    case "userDefined" => 4
    case _ => 0
  }

  /** `batteryTypeToString`: the name of a register code; any other code
      is "unknown". */
  function BatteryTypeToString(code: Word): (name: string)
    ensures 1 <= code <= 4 ==> name == BatteryTypeNames[code - 1]
    ensures !(1 <= code <= 4) ==> name == "unknown"
  {
    match code
    case 1 => "sealed"
    case 2 => "gel"
    case 3 => "flooded"
    case 4 => "userDefined"
    case _ => "unknown"
  }

  /** The two mappings are inverse on the four known types, and everything
      else collapses to code 0. */
  lemma BatteryTypeRoundTrips(name: string, code: Word)
    ensures name in BatteryTypeNames ==> BatteryTypeToString(BatteryTypeToInt(name)) == name
    ensures 1 <= code <= 4 ==> BatteryTypeToInt(BatteryTypeToString(code)) == code
    ensures !(1 <= code <= 4) ==> BatteryTypeToInt(BatteryTypeToString(code)) == 0
  {
    assert "unknown" !in BatteryTypeNames;
  }

  // ---------------------------------------------------------------------
  // The configuration record and its register layout

  /** `ControllerConfig`. Voltages and temperatures are exact reals. */
  datatype ControllerConfig = ControllerConfig(
    time: string,
    batteryType: string,
    batteryCapacity: Word,
    tempCompCoefficient: real,
    boostDuration: Word,
    equalizationCycle: Word,
    equalizationDuration: Word,
    boostVoltage: real,
    boostReconnectChargingVoltage: real,
    floatVoltage: real,
    equalizationVoltage: real,
    chargingLimitVoltage: real,
    overVoltDisconnectVoltage: real,
    overVoltReconnectVoltage: real,
    lowVoltDisconnectVoltage: real,
    lowVoltReconnectVoltage: real,
    underVoltWarningVoltage: real,
    underVoltReconnectVoltage: real,
    dischargingLimitVoltage: real,
    batteryTempUpperLimit: real,
    batteryTempLowerLimit: real,
    controllerTempUpperLimit: real,
    controllerTempLowerLimit: real)

  /** The reads `getConfig` issues, in order. */
  const ConfigPlan: seq<Call> := [
    ReadHolding(0x9000, 3),   // battery type, capacity, temperature compensation
    ReadHolding(0x9013, 3),   // real-time clock, one byte per field
    ReadHolding(0x9003, 12),  // the voltage block
    ReadHolding(0x9016, 1),   // equalization cycle
    ReadHolding(0x906B, 2),   // equalization and boost duration
    ReadHolding(0x9017, 4)    // temperature limits
  ]

  /** Base address of the twelve-register voltage block. */
  const VoltageBlock: Word := 0x9003

  /** What the error of a failed read of the plan says before the cause. */
  function ConfigReadLabel(i: nat): string
    requires i < |ConfigPlan|
  {
    ["failed to read battery config (0x9000)",
     "failed to read time (0x9013)",
     "failed to read voltage parameters (0x9003)",
     "failed to read equalization cycle (0x9016)",
     "failed to read durations (0x906B)",
     "failed to read temperature limits (0x9017)"][i]
  }

  function ConfigReadError(i: nat, reason: string): string
    requires i < |ConfigPlan|
  {
    ConfigReadLabel(i) + ": " + reason
  }

  /** `getFloatValue`: register `index` of a reply divided by 100. */
  function GetFloatValue(data: seq<Byte>, index: nat): real
    requires 2 * index + 2 <= |data|
  {
    Parser.Scaled(WordAt(data, index))
  }

  /** A register read as a signed 16-bit value and divided by 100. */
  function SignedValue(data: seq<Byte>, index: nat): real
    requires 2 * index + 2 <= |data|
  {
    Parser.Scaled(Parser.WrapInt16(WordAt(data, index)))
  }

  /** The clock text `getConfig` reports, `%d-%d-%d %02d:%02d:%02d` of day,
      month, year, hour, minute and second. */
  function TimeString(data: seq<Byte>): string
    requires |data| >= 6
  {
    DateText(data) + " " + ClockText(data)
  }

  function DateText(data: seq<Byte>): string
    requires |data| >= 6
  {
    Text.Decimal(data[2]) + "-" + Text.Decimal(data[5]) + "-" + Text.Decimal(data[4] as int + 2000)
  }

  function ClockText(data: seq<Byte>): string
    requires |data| >= 6
  {
    Text.Pad2(data[3]) + ":" + Text.Pad2(data[0]) + ":" + Text.Pad2(data[1])
  }

  /** The clock text splits back into the numerals of its six fields, each
      of which denotes its register byte (`Text.DecimalRoundTrip`, `Text.Pad2`). */
  lemma TimeStringFields(data: seq<Byte>)
    requires |data| >= 6
    ensures Text.Split(TimeString(data), ' ') == [DateText(data), ClockText(data)]
    ensures Text.Split(DateText(data), '-') ==
      [Text.Decimal(data[2]), Text.Decimal(data[5]), Text.Decimal(data[4] as int + 2000)]
    ensures Text.Split(ClockText(data), ':') == [Text.Pad2(data[3]), Text.Pad2(data[0]), Text.Pad2(data[1])]
  {
    var day, month, year := Text.Decimal(data[2]), Text.Decimal(data[5]), Text.Decimal(data[4] as int + 2000);
    var hour, minute, second := Text.Pad2(data[3]), Text.Pad2(data[0]), Text.Pad2(data[1]);
    DigitsFree(day, '-');
    DigitsFree(month, '-');
    DigitsFree(year, '-');
    DigitsFree(hour, ':');
    DigitsFree(minute, ':');
    DigitsFree(second, ':');
    assert DateText(data) == day + ['-'] + month + ['-'] + year;
    assert ClockText(data) == hour + [':'] + minute + [':'] + second;
    Text.SplitThree(day, month, year, '-');
    Text.SplitThree(hour, minute, second, ':');
    DigitsFree(day, ' ');
    DigitsFree(month, ' ');
    DigitsFree(year, ' ');
    DigitsFree(hour, ' ');
    DigitsFree(minute, ' ');
    DigitsFree(second, ' ');
    Text.SplitTwo(DateText(data), ClockText(data), ' ');
  }

  /** A numeral holds no separator character. */
  lemma DigitsFree(s: string, sep: char)
    requires forall c | c in s :: Text.IsDigit(c)
    requires !Text.IsDigit(sep)
    ensures sep !in s
  {
  }

  /** The bytes of the answer to read `i` of `getConfig`. */
  function Block(script: map<Call, Reply>, i: nat): (data: seq<Byte>)
    requires Sized(script) && i < |ConfigPlan| && Respond(script, ConfigPlan[i]).Data?
    ensures |data| >= 2 * ConfigPlan[i].quantity
  {
    SizedReply(script, ConfigPlan[i]);
    Respond(script, ConfigPlan[i]).bytes
  }

  /** Register `k` of the answer to read `i`. */
  function Reg(script: map<Call, Reply>, i: nat, k: nat): Word
    requires Sized(script) && i < |ConfigPlan| && Respond(script, ConfigPlan[i]).Data?
    requires k < ConfigPlan[i].quantity
  {
    WordAt(Block(script, i), k)
  }

  /** `getConfig`'s decoding of its six replies: block 0x9003 maps
      register k to the k-th voltage in the order overVoltDisconnect,
      chargingLimit, overVoltReconnect, equalization, boost, float,
      boostReconnect, lowVoltReconnect, underVoltReconnect, underVoltWarning,
      lowVoltDisconnect, dischargingLimit; the temperature limits are
      signed. */
  function ConfigFrom(battery: seq<Byte>, clock: seq<Byte>, volts: seq<Byte>, cycle: seq<Byte>,
                      durations: seq<Byte>, limits: seq<Byte>): ControllerConfig
    requires |battery| >= 6 && |clock| >= 6 && |volts| >= 24 && |cycle| >= 2 && |durations| >= 4 && |limits| >= 8
  {
    ControllerConfig(
      time := TimeString(clock),
      batteryType := BatteryTypeToString(WordAt(battery, 0)),
      batteryCapacity := WordAt(battery, 1),
      tempCompCoefficient := GetFloatValue(battery, 2),
      boostDuration := WordAt(durations, 1),
      equalizationCycle := WordAt(cycle, 0),
      equalizationDuration := WordAt(durations, 0),
      boostVoltage := GetFloatValue(volts, 4),
      boostReconnectChargingVoltage := GetFloatValue(volts, 6),
      floatVoltage := GetFloatValue(volts, 5),
      equalizationVoltage := GetFloatValue(volts, 3),
      chargingLimitVoltage := GetFloatValue(volts, 1),
      overVoltDisconnectVoltage := GetFloatValue(volts, 0),
      overVoltReconnectVoltage := GetFloatValue(volts, 2),
      lowVoltDisconnectVoltage := GetFloatValue(volts, 10),
      lowVoltReconnectVoltage := GetFloatValue(volts, 7),
      underVoltWarningVoltage := GetFloatValue(volts, 9),
      underVoltReconnectVoltage := GetFloatValue(volts, 8),
      dischargingLimitVoltage := GetFloatValue(volts, 11),
      batteryTempUpperLimit := SignedValue(limits, 0),
      batteryTempLowerLimit := SignedValue(limits, 1),
      controllerTempUpperLimit := SignedValue(limits, 2),
      controllerTempLowerLimit := SignedValue(limits, 3))
  }

  /** The configuration a complete `getConfig` yields. */
  function ConfigOf(script: map<Call, Reply>): ControllerConfig
    requires Sized(script) && Completes(script, ConfigPlan, -1)
  {
    ConfigFrom(Block(script, 0), Block(script, 1), Block(script, 2), Block(script, 3), Block(script, 4), Block(script, 5))
  }

  /** Every field of a read configuration lies in the range its register
      allows, and the battery type is one of the names the mapping knows. */
  lemma ConfigRanges(script: map<Call, Reply>)
    requires Sized(script) && Completes(script, ConfigPlan, -1)
    ensures var c := ConfigOf(script);
      (c.batteryType in BatteryTypeNames || c.batteryType == "unknown") &&
      c.batteryCapacity == Reg(script, 0, 1) && c.chargingLimitVoltage * 100.0 == Reg(script, 2, 1) as real &&
      0.0 <= c.chargingLimitVoltage <= 655.35 && 0.0 <= c.boostVoltage <= 655.35 &&
      0.0 <= c.floatVoltage <= 655.35 && 0.0 <= c.equalizationVoltage <= 655.35 &&
      -327.68 <= c.batteryTempUpperLimit <= 327.67 && -327.68 <= c.batteryTempLowerLimit <= 327.67 &&
      -327.68 <= c.controllerTempUpperLimit <= 327.67 && -327.68 <= c.controllerTempLowerLimit <= 327.67
  {
  }

  // ---------------------------------------------------------------------
  // Voltage-ordering rules

  /** The four rules `validateVoltageParameters` checks, in order. */
  datatype VoltageRule = ChargingChain | DischargingChain | OverVoltagePair | LowVoltagePair
  {
    /** Position in the order of checking. */
    function Rank(): nat
    {
      match this
      case ChargingChain => 1
      case DischargingChain => 2
      case OverVoltagePair => 3
      case LowVoltagePair => 4
    }

    /** The first words of the error naming this rule. */
    function Name(): (n: string)
      ensures |n| > 0 && n[0] == Initial()
    {
      match this
      case ChargingChain => "charging voltage chain violated"
      case DischargingChain => "discharging voltage chain violated"
      case OverVoltagePair => "over voltage pair violated"
      case LowVoltagePair => "low voltage pair violated"
    }

    /** The letter each rule's name starts with; no two rules share one. */
    function Initial(): char
    {
      match this
      case ChargingChain => 'c'
      case DischargingChain => 'd'
      case OverVoltagePair => 'o'
      case LowVoltagePair => 'l'
    }

    /** The error for this rule: its name, then the chain it demands with
        each voltage of `c` in `%.2f`. */
    function Message(c: ControllerConfig): (m: string)
      ensures Name() <= m && m[0] == Initial()
    {
      Name() + ": " + Chain(c)
    }

    /** The chain of this rule as the error writes it out. */
    function Chain(c: ControllerConfig): string
    {
      match this
      case ChargingChain =>
        "overVoltDisconnect (" + Text.Fixed2(c.overVoltDisconnectVoltage) +
        ") > chargingLimit (" + Text.Fixed2(c.chargingLimitVoltage) +
        ") > equalization (" + Text.Fixed2(c.equalizationVoltage) +
        ") > boost (" + Text.Fixed2(c.boostVoltage) +
        ") > float (" + Text.Fixed2(c.floatVoltage) +
        ") > boostReconnect (" + Text.Fixed2(c.boostReconnectChargingVoltage) + ")"
      case DischargingChain =>
        "underVoltReconnect (" + Text.Fixed2(c.underVoltReconnectVoltage) +
        ") > underVoltWarning (" + Text.Fixed2(c.underVoltWarningVoltage) +
        ") > lowVoltDisconnect (" + Text.Fixed2(c.lowVoltDisconnectVoltage) +
        ") > dischargingLimit (" + Text.Fixed2(c.dischargingLimitVoltage) + ")"
      case OverVoltagePair =>
        "overVoltDisconnect (" + Text.Fixed2(c.overVoltDisconnectVoltage) +
        ") > overVoltReconnect (" + Text.Fixed2(c.overVoltReconnectVoltage) + ")"
      case LowVoltagePair =>
        "lowVoltReconnect (" + Text.Fixed2(c.lowVoltReconnectVoltage) +
        ") > lowVoltDisconnect (" + Text.Fixed2(c.lowVoltDisconnectVoltage) + ")"
    }
  }

  /** The error tells which rule failed: no two rules share a message. */
  lemma MessageNamesRule(a: VoltageRule, b: VoltageRule, c: ControllerConfig, d: ControllerConfig)
    requires a.Message(c) == b.Message(d)
    ensures a == b
  {
    assert a.Initial() == a.Message(c)[0] == b.Initial();
  }

  predicate Holds(rule: VoltageRule, c: ControllerConfig)
  {
    match rule
    case ChargingChain =>
      c.overVoltDisconnectVoltage > c.chargingLimitVoltage > c.equalizationVoltage >
      c.boostVoltage > c.floatVoltage > c.boostReconnectChargingVoltage
    case DischargingChain =>
      c.underVoltReconnectVoltage > c.underVoltWarningVoltage > c.lowVoltDisconnectVoltage >
      c.dischargingLimitVoltage
    case OverVoltagePair => c.overVoltDisconnectVoltage > c.overVoltReconnectVoltage
    case LowVoltagePair => c.lowVoltReconnectVoltage > c.lowVoltDisconnectVoltage
  }

  /** `validateVoltageParameters`: passes iff all four rules hold, and
      otherwise names the first rule violated. */
  function ValidateVoltageParameters(c: ControllerConfig): (r: Outcome<VoltageRule>)
    ensures r.Pass? <==> forall rule: VoltageRule :: Holds(rule, c)
    ensures r.Fail? ==> (!Holds(r.error, c) &&
      forall rule: VoltageRule | rule.Rank() < r.error.Rank() :: Holds(rule, c))
  {
    if !Holds(ChargingChain, c) then Fail(ChargingChain)
    else if !Holds(DischargingChain, c) then Fail(DischargingChain)
    else if !Holds(OverVoltagePair, c) then Fail(OverVoltagePair)
    else if !Holds(LowVoltagePair, c) then Fail(LowVoltagePair)
    else Pass
  }

  /** Only the voltage fields take part in validation. */
  lemma ValidationIgnoresOtherFields(c: ControllerConfig, d: ControllerConfig)
    requires c.(time := d.time, batteryType := d.batteryType, batteryCapacity := d.batteryCapacity,
      tempCompCoefficient := d.tempCompCoefficient, boostDuration := d.boostDuration,
      equalizationCycle := d.equalizationCycle, equalizationDuration := d.equalizationDuration,
      batteryTempUpperLimit := d.batteryTempUpperLimit, batteryTempLowerLimit := d.batteryTempLowerLimit,
      controllerTempUpperLimit := d.controllerTempUpperLimit,
      controllerTempLowerLimit := d.controllerTempLowerLimit) == d
    ensures ValidateVoltageParameters(c) == ValidateVoltageParameters(d)
  {
  }

  // ---------------------------------------------------------------------
  // Requests and the writes they plan

  /** The fields of the `ControllerConfig` body that `ConfigPatch` reads;
      a number counts as present when it is above zero. */
  datatype ConfigRequest = ConfigRequest(
    batteryType: string,
    equalizationCycle: Word,
    equalizationDuration: Word,
    boostDuration: Word,
    chargingLimitVoltage: real,
    equalizationVoltage: real,
    boostVoltage: real,
    floatVoltage: real,
    boostReconnectChargingVoltage: real)

  /** The keys of a `ChargingParametersPatch` body that it acts on; `None`
      stands for a key that is absent or whose value does not decode. */
  datatype ChargingRequest = ChargingRequest(
    equalizationCycle: Option<Word>,
    equalizationDuration: Option<Word>,
    chargingLimitVoltage: Option<real>,
    equalizationVoltage: Option<real>,
    boostVoltage: Option<real>,
    boostDuration: Option<Word>,
    floatVoltage: Option<real>,
    boostReconnectChargingVoltage: Option<real>)

  /** The keys of a `BatteryProfilePatch` body, as above. */
  datatype ProfileRequest = ProfileRequest(batteryType: Option<string>, batteryCapacity: Option<Word>)

  /** One guarded `writeSingle` call: address, value and the description
      its error message uses. */
  datatype PlannedWrite = PlannedWrite(address: Word, value: Word, description: string)
  {
    function AsCall(): Call { WriteSingle(address, value) }
  }

  function Calls(ws: seq<PlannedWrite>): (cs: seq<Call>)
    ensures |cs| == |ws| && forall i | 0 <= i < |ws| :: cs[i] == ws[i].AsCall()
  {
    seq(|ws|, i requires 0 <= i < |ws| => ws[i].AsCall())
  }

  /** The error text of a failed `writeSingle`. */
  function WriteError(w: PlannedWrite, reason: string): string
  {
    "Failed to write " + w.description + " of " + Text.Decimal(w.value) + " to controller: " + reason
  }

  /** The value and description of one field a request may set. */
  datatype Entry = Entry(value: Word, description: string)

  /** The writes of the present entries of a row, each to the address the
      row's order gives its slot, in row order. */
  function Present(order: seq<Word>, entries: seq<Option<Entry>>): (ws: seq<PlannedWrite>)
    requires |order| == |entries|
    ensures |ws| <= |entries|
    decreases |entries|
  {
    if entries == [] then []
    else
      (if entries[0].Some? then [PlannedWrite(order[0], entries[0].value.value, entries[0].value.description)] else []) +
      Present(order[1..], entries[1..])
  }

  /** `b` contains the elements of `a` in the same order. */
  predicate SubsequenceOf<T(==)>(a: seq<T>, b: seq<T>)
    decreases |b|
  {
    a == [] || (b != [] && ((a[0] == b[0] && SubsequenceOf(a[1..], b[1..])) || SubsequenceOf(a, b[1..])))
  }

  function Addresses(ws: seq<PlannedWrite>): (as_: seq<Word>)
    ensures |as_| == |ws| && forall i | 0 <= i < |ws| :: as_[i] == ws[i].address
  {
    seq(|ws|, i requires 0 <= i < |ws| => ws[i].address)
  }

  /** The addresses of the writes of a row follow the row's order. */
  lemma {:induction false} PresentFollowsOrder(order: seq<Word>, entries: seq<Option<Entry>>)
    requires |order| == |entries|
    ensures SubsequenceOf(Addresses(Present(order, entries)), order)
    decreases |entries|
  {
    if entries != [] {
      PresentFollowsOrder(order[1..], entries[1..]);
      var rest := Addresses(Present(order[1..], entries[1..]));
      if entries[0].Some? {
        assert Addresses(Present(order, entries)) == [order[0]] + rest;
        assert ([order[0]] + rest)[1..] == rest;
      } else {
        assert Addresses(Present(order, entries)) == rest;
        SubsequenceSkip(rest, order);
      }
    }
  }

  /** The writes of a row are exactly its present entries: each present
      entry is written to its slot's address, and nothing else is written. */
  lemma {:induction false} PresentWritesEntries(order: seq<Word>, entries: seq<Option<Entry>>)
    requires |order| == |entries|
    ensures forall i | 0 <= i < |entries| && entries[i].Some? ::
      PlannedWrite(order[i], entries[i].value.value, entries[i].value.description) in Present(order, entries)
    ensures forall w | w in Present(order, entries) :: exists i | 0 <= i < |entries| ::
      entries[i].Some? && w == PlannedWrite(order[i], entries[i].value.value, entries[i].value.description)
    decreases |entries|
  {
    if entries != [] {
      var head := if entries[0].Some? then [PlannedWrite(order[0], entries[0].value.value, entries[0].value.description)] else [];
      var rest := Present(order[1..], entries[1..]);
      PresentWritesEntries(order[1..], entries[1..]);
      assert Present(order, entries) == head + rest;
      forall i | 0 <= i < |entries| && entries[i].Some?
        ensures PlannedWrite(order[i], entries[i].value.value, entries[i].value.description) in Present(order, entries)
      {
        if i > 0 {
          assert order[1..][i - 1] == order[i] && entries[1..][i - 1] == entries[i];
        }
      }
      forall w | w in Present(order, entries)
        ensures exists i | 0 <= i < |entries| ::
          entries[i].Some? && w == PlannedWrite(order[i], entries[i].value.value, entries[i].value.description)
      {
        if w !in head {
          var j :| 0 <= j < |entries[1..]| && entries[1..][j].Some? &&
            w == PlannedWrite(order[1..][j], entries[1..][j].value.value, entries[1..][j].value.description);
          assert order[1..][j] == order[j + 1] && entries[1..][j] == entries[j + 1];
        }
      }
    }
  }

  lemma SubsequenceSkip<T>(a: seq<T>, b: seq<T>)
    requires b != [] && SubsequenceOf(a, b[1..])
    ensures SubsequenceOf(a, b)
  {
  }

  /** The fixed order of the charging-parameter writes. */
  const ChargingOrder: seq<Word> := [0x9016, 0x906B, 0x9004, 0x9006, 0x9007, 0x906C, 0x9008, 0x9009]

  /** A voltage as the register value written for it, `uint16(v*100)`. */
  function VoltageWord(v: real): Word
  {
    Parser.EncodeVoltage(v)
  }

  function ChargingSlots(req: ChargingRequest): (entries: seq<Option<Entry>>)
    ensures |entries| == |ChargingOrder|
  {
    [ if req.equalizationCycle.Some? then Some(Entry(req.equalizationCycle.value, "equalization cycle")) else None,
      if req.equalizationDuration.Some? then Some(Entry(req.equalizationDuration.value, "equalization duration")) else None,
      if req.chargingLimitVoltage.Some? then Some(Entry(VoltageWord(req.chargingLimitVoltage.value), "charging limit voltage")) else None,
      if req.equalizationVoltage.Some? then Some(Entry(VoltageWord(req.equalizationVoltage.value), "equalization voltage")) else None,
      if req.boostVoltage.Some? then Some(Entry(VoltageWord(req.boostVoltage.value), "boost voltage")) else None,
      if req.boostDuration.Some? then Some(Entry(req.boostDuration.value, "boost duration")) else None,
      if req.floatVoltage.Some? then Some(Entry(VoltageWord(req.floatVoltage.value), "float voltage")) else None,
      if req.boostReconnectChargingVoltage.Some? then Some(Entry(VoltageWord(req.boostReconnectChargingVoltage.value), "boost reconnect charging voltage")) else None ]
  }

  /** The writes `ChargingParametersPatch` plans: one per decodable key, in
      the fixed order. */
  function ChargingWrites(req: ChargingRequest): (ws: seq<PlannedWrite>)
  {
    Present(ChargingOrder, ChargingSlots(req))
  }

  /** The writes `ConfigPatch` plans once the battery is user defined: one
      per field above zero, in the same fixed order. */
  function ConfigWrites(req: ConfigRequest): (ws: seq<PlannedWrite>)
  {
    Present(ChargingOrder, ConfigSlots(req))
  }

  function ConfigSlots(req: ConfigRequest): (entries: seq<Option<Entry>>)
    ensures |entries| == |ChargingOrder|
  {
    [ if req.equalizationCycle > 0 then Some(Entry(req.equalizationCycle, "equalization cycle")) else None,
      if req.equalizationDuration > 0 then Some(Entry(req.equalizationDuration, "equalization duration")) else None,
      if req.chargingLimitVoltage > 0.0 then Some(Entry(VoltageWord(req.chargingLimitVoltage), "charging limit voltage")) else None,
      if req.equalizationVoltage > 0.0 then Some(Entry(VoltageWord(req.equalizationVoltage), "equalization voltage")) else None,
      if req.boostVoltage > 0.0 then Some(Entry(VoltageWord(req.boostVoltage), "boost voltage")) else None,
      if req.boostDuration > 0 then Some(Entry(req.boostDuration, "boost duration")) else None,
      if req.floatVoltage > 0.0 then Some(Entry(VoltageWord(req.floatVoltage), "float voltage")) else None,
      if req.boostReconnectChargingVoltage > 0.0 then Some(Entry(VoltageWord(req.boostReconnectChargingVoltage), "boost reconnect charging voltage")) else None ]
  }

  /** Both patch handlers write in the order 0x9016, 0x906B, 0x9004, 0x9006,
      0x9007, 0x906C, 0x9008, 0x9009, skipping absent fields. */
  lemma WriteOrder(charging: ChargingRequest, config: ConfigRequest)
    ensures SubsequenceOf(Addresses(ChargingWrites(charging)), ChargingOrder)
    ensures SubsequenceOf(Addresses(ConfigWrites(config)), ChargingOrder)
  {
    PresentFollowsOrder(ChargingOrder, ChargingSlots(charging));
    PresentFollowsOrder(ChargingOrder, ConfigSlots(config));
  }

  /** The writes `BatteryProfilePatch` plans: the type code, then the
      capacity. */
  function ProfileWrites(req: ProfileRequest): (ws: seq<PlannedWrite>)
    ensures |ws| == (if req.batteryType.Some? then 1 else 0) + (if req.batteryCapacity.Some? then 1 else 0)
    ensures req.batteryType.Some? ==> ws[0] == PlannedWrite(0x9000, BatteryTypeToInt(req.batteryType.value), "battery type")
    ensures req.batteryCapacity.Some? ==> ws[|ws| - 1] == PlannedWrite(0x9001, req.batteryCapacity.value, "battery capacity")
  {
    (if req.batteryType.Some? then [PlannedWrite(0x9000, BatteryTypeToInt(req.batteryType.value), "battery type")] else []) +
    (if req.batteryCapacity.Some? then [PlannedWrite(0x9001, req.batteryCapacity.value, "battery capacity")] else [])
  }

  /** The configuration to validate: the current one with the five charging
      voltages of the request put in. */
  function ProposeCharging(current: ControllerConfig, req: ChargingRequest): (p: ControllerConfig)
    ensures p.(chargingLimitVoltage := 0.0, equalizationVoltage := 0.0, boostVoltage := 0.0, floatVoltage := 0.0,
      boostReconnectChargingVoltage := 0.0) ==
      current.(chargingLimitVoltage := 0.0, equalizationVoltage := 0.0, boostVoltage := 0.0, floatVoltage := 0.0,
      boostReconnectChargingVoltage := 0.0)
    ensures req.chargingLimitVoltage.Some? ==> p.chargingLimitVoltage == req.chargingLimitVoltage.value
    ensures req.chargingLimitVoltage.None? ==> p.chargingLimitVoltage == current.chargingLimitVoltage
    ensures req.equalizationVoltage.Some? ==> p.equalizationVoltage == req.equalizationVoltage.value
    ensures req.equalizationVoltage.None? ==> p.equalizationVoltage == current.equalizationVoltage
    ensures req.boostVoltage.Some? ==> p.boostVoltage == req.boostVoltage.value
    ensures req.boostVoltage.None? ==> p.boostVoltage == current.boostVoltage
    ensures req.floatVoltage.Some? ==> p.floatVoltage == req.floatVoltage.value
    ensures req.floatVoltage.None? ==> p.floatVoltage == current.floatVoltage
    ensures req.boostReconnectChargingVoltage.Some? ==>
      p.boostReconnectChargingVoltage == req.boostReconnectChargingVoltage.value
    ensures req.boostReconnectChargingVoltage.None? ==>
      p.boostReconnectChargingVoltage == current.boostReconnectChargingVoltage
  {
    current.(
      chargingLimitVoltage := if req.chargingLimitVoltage.Some? then req.chargingLimitVoltage.value else current.chargingLimitVoltage,
      equalizationVoltage := if req.equalizationVoltage.Some? then req.equalizationVoltage.value else current.equalizationVoltage,
      boostVoltage := if req.boostVoltage.Some? then req.boostVoltage.value else current.boostVoltage,
      floatVoltage := if req.floatVoltage.Some? then req.floatVoltage.value else current.floatVoltage,
      boostReconnectChargingVoltage := if req.boostReconnectChargingVoltage.Some? then req.boostReconnectChargingVoltage.value
        else current.boostReconnectChargingVoltage)
  }

  /** The same for `ConfigPatch`, where a voltage is proposed when above zero. */
  function ProposeConfig(current: ControllerConfig, req: ConfigRequest): (p: ControllerConfig)
    ensures p.(chargingLimitVoltage := 0.0, equalizationVoltage := 0.0, boostVoltage := 0.0, floatVoltage := 0.0,
      boostReconnectChargingVoltage := 0.0) ==
      current.(chargingLimitVoltage := 0.0, equalizationVoltage := 0.0, boostVoltage := 0.0, floatVoltage := 0.0,
      boostReconnectChargingVoltage := 0.0)
    ensures req.chargingLimitVoltage > 0.0 ==> p.chargingLimitVoltage == req.chargingLimitVoltage
    ensures req.chargingLimitVoltage <= 0.0 ==> p.chargingLimitVoltage == current.chargingLimitVoltage
    ensures req.equalizationVoltage > 0.0 ==> p.equalizationVoltage == req.equalizationVoltage
    ensures req.equalizationVoltage <= 0.0 ==> p.equalizationVoltage == current.equalizationVoltage
    ensures req.boostVoltage > 0.0 ==> p.boostVoltage == req.boostVoltage
    ensures req.boostVoltage <= 0.0 ==> p.boostVoltage == current.boostVoltage
    ensures req.floatVoltage > 0.0 ==> p.floatVoltage == req.floatVoltage
    ensures req.floatVoltage <= 0.0 ==> p.floatVoltage == current.floatVoltage
    ensures req.boostReconnectChargingVoltage > 0.0 ==> p.boostReconnectChargingVoltage == req.boostReconnectChargingVoltage
    ensures req.boostReconnectChargingVoltage <= 0.0 ==>
      p.boostReconnectChargingVoltage == current.boostReconnectChargingVoltage
  {
    current.(
      chargingLimitVoltage := if req.chargingLimitVoltage > 0.0 then req.chargingLimitVoltage else current.chargingLimitVoltage,
      equalizationVoltage := if req.equalizationVoltage > 0.0 then req.equalizationVoltage else current.equalizationVoltage,
      boostVoltage := if req.boostVoltage > 0.0 then req.boostVoltage else current.boostVoltage,
      floatVoltage := if req.floatVoltage > 0.0 then req.floatVoltage else current.floatVoltage,
      boostReconnectChargingVoltage := if req.boostReconnectChargingVoltage > 0.0 then req.boostReconnectChargingVoltage
        else current.boostReconnectChargingVoltage)
  }

  /** The proposals and the whole-configuration view as function values,
      as the handlers hand them to the shared write path. */
  function ChargingProposal(req: ChargingRequest): ControllerConfig -> ControllerConfig
  {
    c => ProposeCharging(c, req)
  }

  function ConfigProposal(req: ConfigRequest): ControllerConfig -> ControllerConfig
  {
    c => ProposeConfig(c, req)
  }

  function Whole(c: ControllerConfig): ControllerConfig { c }

  // ---------------------------------------------------------------------
  // The real-time clock

  /** A calendar time in UTC, field by field. */
  datatype ClockTime = ClockTime(year: int, month: int, day: int, hour: int, minute: int, second: int)
  {
    /** A time Go's `time.Time` can hold: every field within its range. */
    predicate Valid()
    {
      1 <= month <= 12 && 1 <= day <= DaysIn(year, month) &&
      0 <= hour < 24 && 0 <= minute < 60 && 0 <= second < 60
    }
  }

  /** Leap years of the proleptic Gregorian calendar, which Go's `time` uses. */
  predicate IsLeap(year: int)
  {
    year % 4 == 0 && (year % 100 != 0 || year % 400 == 0)
  }

  function DaysIn(year: int, month: int): (n: int)
    requires 1 <= month <= 12
    ensures 28 <= n <= 31
  {
    if month == 2 then (if IsLeap(year) then 29 else 28)
    else if month == 4 || month == 6 || month == 9 || month == 11 then 30
    else 31
  }

  /** Days from the start of the year to the first of `month`, as `time`'s
      `daysBefore` table gives them. */
  function DaysBeforeMonth(year: int, month: int): int
    requires 1 <= month <= 12
  {
    (if month == 1 then 0 else if month == 2 then 31 else if month == 3 then 59
     else if month == 4 then 90 else if month == 5 then 120 else if month == 6 then 151
     else if month == 7 then 181 else if month == 8 then 212 else if month == 9 then 243
     else if month == 10 then 273 else if month == 11 then 304 else 334) +
    (if month > 2 && IsLeap(year) then 1 else 0)
  }

  function YearLength(year: int): int
  {
    if IsLeap(year) then 366 else 365
  }

  /** Days from 2000-01-01 to the first of January of `year`. */
  function DaysBeforeYear(year: int): int
    decreases if year < 2000 then 2000 - year else year - 2000
  {
    if year == 2000 then 0
    else if year > 2000 then DaysBeforeYear(year - 1) + YearLength(year - 1)
    else DaysBeforeYear(year + 1) - YearLength(year)
  }

  /** The day count `time.Date` works with: the first of the month plus
      `day - 1` days, for any `day`, counted from 2000-01-01. */
  function DayNumber(year: int, month: int, day: int): int
    requires 1 <= month <= 12
  {
    DaysBeforeYear(year) + DaysBeforeMonth(year, month) + day - 1
  }

  /** The second `time.Date` denotes for the fields it is given, with the
      month already brought into 1..12, counted from 2000-01-01T00:00:00Z. */
  function Instant(year: int, month: int, day: int, hour: int, minute: int, second: int): int
    requires 1 <= month <= 12
  {
    DayNumber(year, month, day) * 86400 + hour * 3600 + minute * 60 + second
  }

  /** The calendar day a day count falls on: a day past the end of the
      month moves into the following months, a day before the first into
      the preceding ones, keeping the day count. */
  function SettleDay(year: int, month: int, day: int): (d: (int, int, int))
    requires 1 <= month <= 12
    ensures 1 <= d.1 <= 12 && 1 <= d.2 <= DaysIn(d.0, d.1)
    ensures DayNumber(d.0, d.1, d.2) == DayNumber(year, month, day)
    decreases if day < 1 then 1 - day else 0, day
  {
    if day < 1 then
      if month == 1 then SettleDay(year - 1, 12, day + 31)
      else SettleDay(year, month - 1, day + DaysIn(year, month - 1))
    else if day > DaysIn(year, month) then
      if month == 12 then SettleDay(year + 1, 1, day - 31)
      else SettleDay(year, month + 1, day - DaysIn(year, month))
    else (year, month, day)
  }

  /** `byte(n)`: the low eight bits of an integer. */
  function ToByte(n: int): (b: Byte)
    ensures 0 <= n < 0x100 ==> b == n
  {
    n % 0x100
  }

  /** The six bytes `TimePatch` writes: minute, second, day, hour,
      year - 2000, month. */
  function TimeBytes(t: ClockTime): (data: seq<Byte>)
    ensures |data| == 6
  {
    [ToByte(t.minute), ToByte(t.second), ToByte(t.day), ToByte(t.hour), ToByte(t.year - 2000), ToByte(t.month)]
  }

  /** The time `TimeGet` and `TimePatch` report for six clock bytes:
      `time.Date` of year byte + 2000, the month byte, the day, hour, minute
      and second bytes. Like `time.Date`, it brings the month into range
      (month 0 is December of the year before, month 13 January of the
      next), carries seconds into minutes, minutes into hours and hours
      into days, and then moves the day into the right month. */
  function TimeOf(data: seq<Byte>): (t: ClockTime)
    requires |data| >= 6
    ensures t.Valid()
  {
    var minute := data[0] as int + data[1] as int / 60;
    var hour := data[3] as int + minute / 60;
    var day := data[2] as int + hour / 24;
    var m := data[5] as int - 1;
    var d := SettleDay(data[4] as int + 2000 + m / 12, m % 12 + 1, day);
    ClockTime(d.0, d.1, d.2, hour % 24, minute % 60, data[1] as int % 60)
  }

  /** The reported time is the instant `time.Date` computes from the raw
      fields, written the one way a valid time can write it. */
  lemma TimeOfInstant(data: seq<Byte>)
    requires |data| >= 6
    ensures var t := TimeOf(data); var m := data[5] as int - 1;
      t.Valid() &&
      Instant(t.year, t.month, t.day, t.hour, t.minute, t.second) ==
      Instant(data[4] as int + 2000 + m / 12, m % 12 + 1, data[2], data[3], data[0], data[1])
  {
    var sec := data[1] as int;
    var minute := data[0] as int + sec / 60;
    var hour := data[3] as int + minute / 60;
    var day := data[2] as int + hour / 24;
    var m := data[5] as int - 1;
    var y, mo := data[4] as int + 2000 + m / 12, m % 12 + 1;
    assert minute * 60 + sec % 60 == data[0] as int * 60 + sec;
    assert hour * 3600 + (minute % 60) * 60 == data[3] as int * 3600 + minute * 60;
    assert day * 86400 + (hour % 24) * 3600 == data[2] as int * 86400 + hour * 3600;
    assert DayNumber(y, mo, day) == DayNumber(y, mo, data[2]) + hour / 24;
  }

  /** Two valid times for the same instant are the same time. */
  lemma InstantDetermines(s: ClockTime, t: ClockTime)
    requires s.Valid() && t.Valid()
    requires Instant(s.year, s.month, s.day, s.hour, s.minute, s.second) ==
             Instant(t.year, t.month, t.day, t.hour, t.minute, t.second)
    ensures s == t
  {
    var ds, dt := DayNumber(s.year, s.month, s.day), DayNumber(t.year, t.month, t.day);
    var rs, rt := s.hour * 3600 + s.minute * 60 + s.second, t.hour * 3600 + t.minute * 60 + t.second;
    assert 0 <= rs < 86400 && 0 <= rt < 86400;
    assert (ds - dt) * 86400 == rt - rs;
    assert ds == dt;
    assert s.hour == t.hour && s.minute == t.minute && s.second == t.second;
    DayNumberDetermines(s.year, s.month, s.day, t.year, t.month, t.day);
  }

  /** The day count of a valid date lies within its year. */
  lemma DayNumberInYear(year: int, month: int, day: int)
    requires 1 <= month <= 12 && 1 <= day <= DaysIn(year, month)
    ensures DaysBeforeYear(year) <= DayNumber(year, month, day) < DaysBeforeYear(year + 1)
  {
    assert DaysBeforeYear(year + 1) == DaysBeforeYear(year) + YearLength(year);
  }

  lemma {:induction false} YearsIncrease(a: int, b: int)
    requires a < b
    ensures DaysBeforeYear(a + 1) <= DaysBeforeYear(b)
    decreases b - a
  {
    if a + 1 < b {
      YearsIncrease(a, b - 1);
      assert DaysBeforeYear(b) == DaysBeforeYear(b - 1) + YearLength(b - 1);
    }
  }

  /** Distinct valid dates have distinct day counts. */
  lemma DayNumberDetermines(y1: int, m1: int, d1: int, y2: int, m2: int, d2: int)
    requires 1 <= m1 <= 12 && 1 <= d1 <= DaysIn(y1, m1)
    requires 1 <= m2 <= 12 && 1 <= d2 <= DaysIn(y2, m2)
    requires DayNumber(y1, m1, d1) == DayNumber(y2, m2, d2)
    ensures y1 == y2 && m1 == m2 && d1 == d2
  {
    DayNumberInYear(y1, m1, d1);
    DayNumberInYear(y2, m2, d2);
    if y1 < y2 {
      YearsIncrease(y1, y2);
    } else if y2 < y1 {
      YearsIncrease(y2, y1);
    }
    assert y1 == y2;
    if m1 < m2 {
      MonthsIncrease(y1, m1, m2);
    } else if m2 < m1 {
      MonthsIncrease(y1, m2, m1);
    }
  }

  lemma MonthsIncrease(year: int, a: int, b: int)
    requires 1 <= a < b <= 12
    ensures DaysBeforeMonth(year, a) + DaysIn(year, a) <= DaysBeforeMonth(year, b)
  {
  }

  /** A valid time with a year from 2000 to 2255 survives the write and
      the read back. */
  lemma TimeRoundTrip(t: ClockTime)
    requires t.Valid() && 2000 <= t.year <= 2255
    ensures TimeOf(TimeBytes(t)) == t
  {
    var data := TimeBytes(t);
    assert data[4] as int + 2000 == t.year && data[5] == t.month && data[2] == t.day;
    TimeOfFields(data);
    assert SettleDay(t.year, t.month, t.day) == (t.year, t.month, t.day);
  }

  /** Outside those years the year byte keeps the year modulo 256; the
      date survives unless it is the 29th of February and the year read
      back is not a leap year, when it reads back as the 1st of March. */
  lemma TimeYearWraps(t: ClockTime)
    requires t.Valid()
    ensures var y := 2000 + (t.year - 2000) % 256; var back := TimeOf(TimeBytes(t));
      (y - t.year) % 256 == 0 &&
      (t.day <= DaysIn(y, t.month) ==> back == t.(year := y)) &&
      (t.day > DaysIn(y, t.month) ==>
         t.month == 2 && t.day == 29 && back == ClockTime(y, 3, 1, t.hour, t.minute, t.second))
  {
    var y := 2000 + (t.year - 2000) % 256;
    var data := TimeBytes(t);
    assert data[4] as int + 2000 == y && data[5] == t.month && data[2] == t.day;
    TimeOfFields(data);
    if t.day > DaysIn(y, t.month) {
      assert SettleDay(y, 3, 1) == (y, 3, 1);
      assert SettleDay(y, 2, 29) == SettleDay(y, 3, 1);
    } else {
      assert SettleDay(y, t.month, t.day) == (y, t.month, t.day);
    }
  }

  /** Clock bytes whose month, hour, minute and second are in range read
      as those fields, the day settled into its month. */
  lemma TimeOfFields(data: seq<Byte>)
    requires |data| == 6 && 1 <= data[5] <= 12 && data[3] < 24 && data[0] < 60 && data[1] < 60
    ensures var d := SettleDay(data[4] as int + 2000, data[5], data[2]);
      TimeOf(data) == ClockTime(d.0, d.1, d.2, data[3], data[0], data[1])
  {
    var minute := data[0] as int + data[1] as int / 60;
    assert minute == data[0] as int;
    var hour := data[3] as int + minute / 60;
    assert hour == data[3] as int;
    var day := data[2] as int + hour / 24;
    assert day == data[2] as int;
    var m := data[5] as int - 1;
    assert m / 12 == 0 && m % 12 + 1 == data[5] as int;
    var d := SettleDay(data[4] as int + 2000 + m / 12, m % 12 + 1, day);
    assert d == SettleDay(data[4] as int + 2000, data[5], data[2]);
    assert TimeOf(data) == ClockTime(d.0, d.1, d.2, hour % 24, minute % 60, data[1] as int % 60);
  }

  /** Six clock bytes that spell a valid time survive the read and the
      write back; any others read as the normalised time. */
  lemma TimeBytesRoundTrip(data: seq<Byte>)
    requires |data| == 6
    requires 1 <= data[5] <= 12 && 1 <= data[2] <= DaysIn(data[4] as int + 2000, data[5])
    requires data[3] < 24 && data[0] < 60 && data[1] < 60
    ensures TimeOf(data) == ClockTime(data[4] as int + 2000, data[5], data[2], data[3], data[0], data[1])
    ensures TimeBytes(TimeOf(data)) == data
  {
    var y := data[4] as int + 2000;
    TimeOfFields(data);
    assert SettleDay(y, data[5], data[2]) == (y, data[5], data[2]);
  }

  // ---------------------------------------------------------------------
  // Register queries

  /** A `QueryPost` body: register class 1 to 4 and a hexadecimal address. */
  datatype Query = Query(register: int, address: string, result: Word)

  /** The read a register class selects: coils, discrete inputs, holding or
      input registers (functions 0x01 to 0x04), one item at `address`. */
  function QueryCall(register: int, address: Word): (c: Option<Call>)
    ensures c.Some? <==> 1 <= register <= 4
    ensures c.Some? ==> c.value.FunctionCode() == register && c.value.address == address && c.value.quantity == 1
  {
    match register
    case 1 => Some(ReadCoils(address, 1))
    case 2 => Some(ReadDiscreteInputs(address, 1))
    case 3 => Some(ReadHolding(address, 1))
    case 4 => Some(ReadInput(address, 1))
    case _ => None
  }

  /** The address text: every "0x" removed, then sixteen-bit hexadecimal;
      a refusal quotes the cleaned text, as `strconv.ParseUint` does. */
  function QueryAddress(text: string): (r: Result<int>)
    ensures r.Ok? ==> 0 <= r.value < 0x1_0000
    ensures r.Err? ==>
      r.error in {Text.NumError(Text.RemoveAll(text, "0x"), Text.InvalidSyntax), Text.NumError(Text.RemoveAll(text, "0x"), Text.OutOfRange)}
  {
    Text.ParseHex16(Text.RemoveAll(text, "0x"))
  }

  /** The address written the usual way, lower-case hexadecimal with or
      without the prefix, parses to itself. */
  lemma QueryAddressRoundTrip(address: Word)
    ensures QueryAddress("0x" + Text.Hex(address)) == Ok(address)
    ensures QueryAddress(Text.Hex(address)) == Ok(address)
  {
    var h := Text.Hex(address);
    Text.HexRoundTrip(address);
    HexHasNoX(address);
    Text.RemoveAllLacking(h, "0x");
    assert ("0x" + h)[..2] == "0x" && ("0x" + h)[2..] == h;
  }

  /** Text that does not start with a hexadecimal digit once "0x" is
      removed is a syntax error naming that text; a leading "0x" with
      nothing after it is one too. */
  lemma QueryAddressSyntax(text: string)
    requires var c := Text.RemoveAll(text, "0x"); c == [] || !Text.IsHexDigit(c[0])
    ensures QueryAddress(text) == Err(Text.NumError(Text.RemoveAll(text, "0x"), Text.InvalidSyntax))
  {
    var c := Text.RemoveAll(text, "0x");
    if c != [] {
      assert c[..0] == [];
      Text.HexSyntaxFirst(c, 0);
    }
  }

  /** A hexadecimal numeral holds no 'x'. */
  lemma {:induction false} HexHasNoX(n: nat)
    ensures 'x' !in Text.Hex(n)
    decreases n
  {
    if n >= 16 {
      HexHasNoX(n / 16);
    }
  }

  // ---------------------------------------------------------------------
  // What the handlers answer

  /** `BatteryProfile` as the profile handlers render it. */
  datatype BatteryProfile = BatteryProfile(batteryType: string, batteryCapacity: Word)

  function ProfileOf(c: ControllerConfig): (p: BatteryProfile)
    ensures p.batteryType == c.batteryType && p.batteryCapacity == c.batteryCapacity
  {
    BatteryProfile(c.batteryType, c.batteryCapacity)
  }

  /** The nineteen charging parameters: the configuration without its time,
      battery type, capacity and temperature compensation. */
  datatype ChargingParameters = ChargingParameters(
    boostDuration: Word,
    equalizationCycle: Word,
    equalizationDuration: Word,
    boostVoltage: real,
    boostReconnectChargingVoltage: real,
    floatVoltage: real,
    equalizationVoltage: real,
    chargingLimitVoltage: real,
    overVoltDisconnectVoltage: real,
    overVoltReconnectVoltage: real,
    lowVoltDisconnectVoltage: real,
    lowVoltReconnectVoltage: real,
    underVoltWarningVoltage: real,
    underVoltReconnectVoltage: real,
    dischargingLimitVoltage: real,
    batteryTempUpperLimit: real,
    batteryTempLowerLimit: real,
    controllerTempUpperLimit: real,
    controllerTempLowerLimit: real)

  function ParametersOf(c: ControllerConfig): ChargingParameters
  {
    ChargingParameters(c.boostDuration, c.equalizationCycle, c.equalizationDuration, c.boostVoltage,
      c.boostReconnectChargingVoltage, c.floatVoltage, c.equalizationVoltage, c.chargingLimitVoltage,
      c.overVoltDisconnectVoltage, c.overVoltReconnectVoltage, c.lowVoltDisconnectVoltage,
      c.lowVoltReconnectVoltage, c.underVoltWarningVoltage, c.underVoltReconnectVoltage,
      c.dischargingLimitVoltage, c.batteryTempUpperLimit, c.batteryTempLowerLimit,
      c.controllerTempUpperLimit, c.controllerTempLowerLimit)
  }

  /** The parameters together with the four fields they leave out determine
      the configuration: nothing is lost but those four. */
  lemma ParametersDetermineConfig(c: ControllerConfig, d: ControllerConfig)
    requires ParametersOf(c) == ParametersOf(d)
    requires c.time == d.time && c.batteryType == d.batteryType
    requires c.batteryCapacity == d.batteryCapacity && c.tempCompCoefficient == d.tempCompCoefficient
    ensures c == d
  {
    assert ParametersOf(c).boostDuration == ParametersOf(d).boostDuration;
  }

  // ---------------------------------------------------------------------
  // The transport exchanges of the configurer, as values

  /** The outcome of a run of reads or writes and the calls it issued. */
  datatype Reading = Reading(result: Result<ControllerConfig>, calls: seq<Call>)
  datatype Writing = Writing(result: Outcome<string>, calls: seq<Call>)
  {
    /** How many of the writes the device accepted: all of a passing run,
        all but the last of a failed one. */
    function Accepted(): nat
    {
      if result.Fail? && |calls| > 0 then |calls| - 1 else |calls|
    }
  }

  /** What `getConfig` does against the device: the plan up to and
      including the first failing read, and either the configuration or the
      labelled error of that read. */
  function ConfigRead(script: map<Call, Reply>): (r: Reading)
    requires Sized(script)
    ensures r.result.Ok? <==> Completes(script, ConfigPlan, -1)
    ensures r.result.Ok? ==> r.calls == ConfigPlan && r.result.value == ConfigOf(script)

  {
    var n := IssuedFrom(script, ConfigPlan, 0, -1);
    if Completes(script, ConfigPlan, -1) then
      IssuedFromCompletes(script, ConfigPlan, 0, -1);
      Reading(Ok(ConfigOf(script)), ConfigPlan[..n])
    else
      IssuedFromStops(script, ConfigPlan, 0, -1);
      Reading(Err(ConfigReadError(n - 1, Respond(script, ConfigPlan[n - 1]).reason)), ConfigPlan[..n])
  }

  /** What a run of guarded register writes does: each planned write in
      order until the first that fails, whose error ends the run. */
  function WriteRun(script: map<Call, Reply>, ws: seq<PlannedWrite>): (r: Writing)
    ensures r.result.Pass? <==> Completes(script, Calls(ws), -1)
    ensures r.result.Pass? ==> r.calls == Calls(ws)
    ensures r.calls == Calls(ws)[..IssuedFrom(script, Calls(ws), 0, -1)]
  {
    var plan := Calls(ws);
    var n := IssuedFrom(script, plan, 0, -1);
    if Completes(script, plan, -1) then
      IssuedFromCompletes(script, plan, 0, -1);
      Writing(Pass, plan[..n])
    else
      IssuedFromStops(script, plan, 0, -1);
      Writing(Fail(WriteError(ws[n - 1], Respond(script, plan[n - 1]).reason)), plan[..n])
  }

  /** A failed run names the first write that failed and leaves every
      write before it done. */
  lemma WriteRunFailure(script: map<Call, Reply>, ws: seq<PlannedWrite>)
    requires WriteRun(script, ws).result.Fail?
    ensures var n := |WriteRun(script, ws).calls|;
      0 < n <= |ws| &&
      Respond(script, ws[n - 1].AsCall()).Failure? &&
      WriteRun(script, ws).result.error == WriteError(ws[n - 1], Respond(script, ws[n - 1].AsCall()).reason) &&
      forall j | 0 <= j < n - 1 :: Respond(script, ws[j].AsCall()).Data?
  {
    var plan := Calls(ws);
    IssuedFromStops(script, plan, 0, -1);
    IssuedFromCompletes(script, plan, 0, -1);
  }

  // ---------------------------------------------------------------------
  // The cache

  /** `cachedConfig`; the time stamp is in nanoseconds. */
  datatype CachedConfig = CachedConfig(config: ControllerConfig, timestamp: int)

  /** `cacheTTL`: ten minutes, in nanoseconds. */
  const CacheTTL: int := 600_000_000_000

  /** The cached entry is still served at `now`. */
  predicate Fresh(cache: Option<CachedConfig>, now: int)
  {
    cache.Some? && now - cache.value.timestamp < CacheTTL
  }

  /** A cached entry holds what the device answers. */
  ghost predicate CacheAgrees(script: map<Call, Reply>, cache: Option<CachedConfig>)
  {
    Sized(script) && (cache.Some? ==> Completes(script, ConfigPlan, -1) && cache.value.config == ConfigOf(script))
  }

  datatype Fetch = Fetch(result: Result<ControllerConfig>, calls: seq<Call>, cache: Option<CachedConfig>)

  /** `getCachedConfig` at time `now`: a fresh entry is served without a
      call; otherwise the device is read, and a successful read is stored
      with time stamp `now`, while a failed one leaves the cache as it was. */
  function CachedRead(script: map<Call, Reply>, cache: Option<CachedConfig>, now: int): (f: Fetch)
    requires Sized(script)
  {
    if Fresh(cache, now) then Fetch(Ok(cache.value.config), [], cache)
    else
      var r := ConfigRead(script);
      Fetch(r.result, r.calls, if r.result.Ok? then Some(CachedConfig(r.result.value, now)) else cache)
  }

  /** The cache serves what the device would answer, keeps agreeing with
      it, reads the device exactly when the entry is missing or older than
      the TTL, and then holds an entry fresh at `now` unless the read failed. */
  lemma CachedReadFacts(script: map<Call, Reply>, cache: Option<CachedConfig>, now: int)
    requires CacheAgrees(script, cache)
    ensures var f := CachedRead(script, cache, now);
      CacheAgrees(script, f.cache) &&
      (f.result.Ok? ==> f.result.value == ConfigOf(script)) &&
      (f.calls == [] <==> Fresh(cache, now)) &&
      (!Fresh(cache, now) ==> f.calls == ConfigRead(script).calls) &&
      (f.result.Ok? ==> Fresh(f.cache, now)) &&
      (f.result.Err? ==> f.cache == cache)
  {
    if !Fresh(cache, now) {
      var n := IssuedFrom(script, ConfigPlan, 0, -1);
      assert |ConfigRead(script).calls| == n > 0;
    }
  }

  /** An entry stored at `t` is served exactly until `t` plus the TTL. */
  lemma CacheExpiry(c: ControllerConfig, t: int, now: int)
    ensures Fresh(Some(CachedConfig(c, t)), now) <==> now < t + CacheTTL
    ensures Fresh(Some(CachedConfig(c, t)), t) && !Fresh(Some(CachedConfig(c, t)), t + 600_000_000_000)
    ensures !Fresh(None, now)
  {
  }

  // ---------------------------------------------------------------------
  // The handlers, as values

  /** The register read that tells the battery type. */
  const TypeRead: Call := ReadHolding(0x9000, 1)

  /** The clock registers: minute and second, day and hour, year and month. */
  const ClockRead: Call := ReadHolding(0x9013, 3)

  /** The write of a battery type name. */
  function TypeWrite(name: string): (w: PlannedWrite)
    ensures w.address == 0x9000 && w.value == BatteryTypeToInt(name)
  {
    PlannedWrite(0x9000, BatteryTypeToInt(name), "battery type")
  }

  /** The battery type code in the reply to `TypeRead`. */
  function TypeCode(script: map<Call, Reply>): Word
    requires Sized(script) && Respond(script, TypeRead).Data?
  {
    SizedReply(script, TypeRead);
    WordAt(Respond(script, TypeRead).bytes, 0)
  }

  /** What a handler does: its answer, the calls it issued in order, and
      the cache it leaves. */
  datatype Effect<T> = Effect(response: Http.Response<T>, calls: seq<Call>, cache: Option<CachedConfig>)

  /** The last step of the patch handlers: `getCachedConfig`, rendered
      through `view`, or a 500 with `error`. */
  function ReadBack<T>(script: map<Call, Reply>, cache: Option<CachedConfig>, now: int, calls: seq<Call>,
                       view: ControllerConfig -> T, error: string): Effect<T>
    requires Sized(script)
  {
    var b := CachedRead(script, cache, now);
    if b.result.Err? then Effect(Http.Reject(Http.StatusInternalServerError, error), calls + b.calls, b.cache)
    else Effect(Http.Success(view(b.result.value)), calls + b.calls, b.cache)
  }

  /** `ConfigGet`: an uncached `getConfig`; its error is the 500's text. */
  function ConfigGetEffect(script: map<Call, Reply>, cache: Option<CachedConfig>): Effect<ControllerConfig>
    requires Sized(script)
  {
    var r := ConfigRead(script);
    if r.result.Err? then Effect(Http.Reject(Http.StatusInternalServerError, r.result.error), r.calls, cache)
    else Effect(Http.Success(r.result.value), r.calls, cache)
  }

  /** When a write block drops the cache entry. `AsWritten` is the handlers'
      own rule: the entry is dropped only after the whole block passed, so a
      400 after an accepted write keeps it. `Corrected` also drops it when
      the block failed after the device accepted one of its writes. */
  datatype CacheRule = AsWritten | Corrected

  /** The write blocks of the patch handlers followed by the read back:
      the planned writes stop at the first failure (a 400 with its error);
      after a passing block the cache is invalidated when `always` is set
      or at least one write was made, and the configuration is read back. */
  function WriteBack<T>(script: map<Call, Reply>, cache: Option<CachedConfig>, now: int, calls: seq<Call>,
                        ws: seq<PlannedWrite>, always: bool, view: ControllerConfig -> T, error: string, rule: CacheRule): Effect<T>
    requires Sized(script)
  {
    var w := WriteRun(script, ws);
    if w.result.Fail? then
      Effect(Http.Reject(Http.StatusBadRequest, w.result.error), calls + w.calls,
        if rule.Corrected? && w.Accepted() > 0 then None else cache)
    else ReadBack(script, if always || ws != [] then None else cache, now, calls + w.calls, view, error)
  }

  /** Validation before writing: the current configuration comes from
      `getCachedConfig` (a 500 when it fails), the request's voltages are
      put into it, and a violated rule is a 400 before any write. */
  function ValidatedWrite<T>(script: map<Call, Reply>, cache: Option<CachedConfig>, now: int, calls: seq<Call>,
                             propose: ControllerConfig -> ControllerConfig, ws: seq<PlannedWrite>, always: bool,
                             view: ControllerConfig -> T, error: string, rule: CacheRule): Effect<T>
    requires Sized(script)
  {
    var cur := CachedRead(script, cache, now);
    if cur.result.Err? then
      Effect(Http.Reject(Http.StatusInternalServerError, "Failed to read current configuration"), calls + cur.calls, cur.cache)
    else CheckedWrite(script, cur.cache, now, calls + cur.calls, propose(cur.result.value), ws, always, view, error, rule)
  }

  /** When the current configuration cannot be read, the request ends with
      a 500 after the failed read. */
  lemma ValidatedWriteRefused<T>(script: map<Call, Reply>, cache: Option<CachedConfig>, now: int, calls: seq<Call>,
                                 propose: ControllerConfig -> ControllerConfig, ws: seq<PlannedWrite>, always: bool,
                                 view: ControllerConfig -> T, error: string, rule: CacheRule)
    requires Sized(script) && CachedRead(script, cache, now).result.Err?
    ensures var cur := CachedRead(script, cache, now);
      ValidatedWrite(script, cache, now, calls, propose, ws, always, view, error, rule) ==
      Effect(Http.Reject(Http.StatusInternalServerError, "Failed to read current configuration"), calls + cur.calls, cur.cache)
  {
  }

  /** Otherwise it goes on to validate the proposal made from it. */
  lemma ValidatedWriteProceeds<T>(script: map<Call, Reply>, cache: Option<CachedConfig>, now: int, calls: seq<Call>,
                                  propose: ControllerConfig -> ControllerConfig, ws: seq<PlannedWrite>, always: bool,
                                  view: ControllerConfig -> T, error: string, rule: CacheRule)
    requires Sized(script) && CachedRead(script, cache, now).result.Ok?
    ensures var cur := CachedRead(script, cache, now);
      ValidatedWrite(script, cache, now, calls, propose, ws, always, view, error, rule) ==
      CheckedWrite(script, cur.cache, now, calls + cur.calls, propose(cur.result.value), ws, always, view, error, rule)
  {
  }

  /** A proposal that breaks a rule is a 400 naming the rule, before any
      write. */
  function CheckedWrite<T>(script: map<Call, Reply>, cache: Option<CachedConfig>, now: int, calls: seq<Call>,
                           proposed: ControllerConfig, ws: seq<PlannedWrite>, always: bool,
                           view: ControllerConfig -> T, error: string, rule: CacheRule): Effect<T>
    requires Sized(script)
  {
    var v := ValidateVoltageParameters(proposed);
    if v.Fail? then Effect(Http.Reject(Http.StatusBadRequest, v.error.Message(proposed)), calls, cache)
    else WriteBack(script, cache, now, calls, ws, always, view, error, rule)
  }

  /** How the battery type of a `ConfigPatch` is settled: the answer when
      it ends the request, whether the battery is user defined, the calls
      issued and the cache left. */
  datatype TypeSettling = TypeSettling(failure: Option<Http.Response<ControllerConfig>>, userDefined: bool,
                                       calls: seq<Call>, cache: Option<CachedConfig>)

  /** A battery type in the body is written (a failure is a 400 that keeps
      the cache) and invalidates the cache, and the battery is user defined
      when the written code is 4; otherwise the type register is read (a
      failure is a 500) and decides. */
  function SettleType(script: map<Call, Reply>, cache: Option<CachedConfig>, req: ConfigRequest): (t: TypeSettling)
    requires Sized(script)
  {
    if req.batteryType != "" then
      var w := TypeWrite(req.batteryType);
      var reply := Respond(script, w.AsCall());
      if reply.Failure? then TypeSettling(Some(Http.Reject(Http.StatusBadRequest, WriteError(w, reply.reason))), false, [w.AsCall()], cache)
      else TypeSettling(None, w.value == 4, [w.AsCall()], None)
    else
      var reply := Respond(script, TypeRead);
      if reply.Failure? then
        TypeSettling(Some(Http.Reject(Http.StatusInternalServerError, "Failed to read battery type")), false, [TypeRead], cache)
      else TypeSettling(None, TypeCode(script) == 4, [TypeRead], cache)
  }

  /** `ConfigPatch`: the battery type is settled, then the rest follows. */
  function ConfigPatchEffect(script: map<Call, Reply>, cache: Option<CachedConfig>, now: int,
                             body: Result<ConfigRequest>, rule: CacheRule): Effect<ControllerConfig>
    requires Sized(script)
  {
    if body.Err? then Effect(Http.Reject(Http.StatusBadRequest, body.error), [], cache)
    else
      var t := SettleType(script, cache, body.value);
      if t.failure.Some? then Effect(t.failure.value, t.calls, t.cache)
      else ConfigPatchRest(script, t.cache, now, body.value, t.userDefined, t.calls, rule)
  }

  /** The rest of `ConfigPatch`: with a user-defined battery, validate the
      proposal against the cached configuration (400 on a violation), write
      the fields above zero, and invalidate the cache; then read back. */
  function ConfigPatchRest(script: map<Call, Reply>, cache: Option<CachedConfig>, now: int,
                           req: ConfigRequest, userDefined: bool, calls: seq<Call>, rule: CacheRule): Effect<ControllerConfig>
    requires Sized(script)
  {
    if !userDefined then ReadBack(script, cache, now, calls, Whole, "Configuration updated but failed to read back")
    else ValidatedWrite(script, cache, now, calls, ConfigProposal(req), ConfigWrites(req), true, Whole,
      "Configuration updated but failed to read back", rule)
  }

  /** `BatteryProfileGet`: the cached configuration's type and capacity. */
  function BatteryProfileGetEffect(script: map<Call, Reply>, cache: Option<CachedConfig>, now: int): Effect<BatteryProfile>
    requires Sized(script)
  {
    var f := CachedRead(script, cache, now);
    if f.result.Err? then Effect(Http.Reject(Http.StatusInternalServerError, f.result.error), f.calls, f.cache)
    else Effect(Http.Success(ProfileOf(f.result.value)), f.calls, f.cache)
  }

  /** `BatteryProfilePatch`: the type and capacity writes that the body
      asks for, stopping at the first failure (a 400, the cache left as
      `rule` says); after they all pass the cache is invalidated when at
      least one write was made; then read back. */
  function BatteryProfilePatchEffect(script: map<Call, Reply>, cache: Option<CachedConfig>, now: int,
                                     body: Result<ProfileRequest>, rule: CacheRule): Effect<BatteryProfile>
    requires Sized(script)
  {
    if body.Err? then Effect(Http.Reject(Http.StatusBadRequest, body.error), [], cache)
    else WriteBack(script, cache, now, [], ProfileWrites(body.value), false, ProfileOf, "Profile updated but failed to read back", rule)
  }

  /** `ChargingParametersGet`. */
  function ChargingParametersGetEffect(script: map<Call, Reply>, cache: Option<CachedConfig>, now: int): Effect<ChargingParameters>
    requires Sized(script)
  {
    var f := CachedRead(script, cache, now);
    if f.result.Err? then Effect(Http.Reject(Http.StatusInternalServerError, f.result.error), f.calls, f.cache)
    else Effect(Http.Success(ParametersOf(f.result.value)), f.calls, f.cache)
  }

  /** `ChargingParametersPatch`: refused unless the battery type register
      reads 4 (user defined); the proposal is validated against the cached
      configuration before any write; the writes stop at the first failure
      (a 400, the cache left as `rule` says); after they all pass the cache
      is invalidated when at least one write was made; then read back. */
  function ChargingPatchEffect(script: map<Call, Reply>, cache: Option<CachedConfig>, now: int,
                               body: Result<ChargingRequest>, rule: CacheRule): Effect<ChargingParameters>
    requires Sized(script)
  {
    if Respond(script, TypeRead).Failure? then
      Effect(Http.Reject(Http.StatusInternalServerError, "Failed to read battery type"), [TypeRead], cache)
    else if TypeCode(script) != 4 then
      Effect(Http.Reject(Http.StatusBadRequest, "Charging parameters can only be modified when battery type is 'userDefined'"),
        [TypeRead], cache)
    else if body.Err? then Effect(Http.Reject(Http.StatusBadRequest, body.error), [TypeRead], cache)
    else ValidatedWrite(script, cache, now, [TypeRead], ChargingProposal(body.value), ChargingWrites(body.value), false,
      ParametersOf, "Parameters updated but failed to read back", rule)
  }

  /** `TimeGet`: the clock registers, read as `time.Date` reads their fields. */
  function TimeGetEffect(script: map<Call, Reply>, cache: Option<CachedConfig>): Effect<ClockTime>
    requires Sized(script)
  {
    var reply := Respond(script, ClockRead);
    if reply.Failure? then
      Effect(Http.Reject(Http.StatusInternalServerError, "Failed to read time from controller"), [ClockRead], cache)
    else
      SizedReply(script, ClockRead);
      Effect(Http.Success(TimeOf(reply.bytes)), [ClockRead], cache)
  }

  /** `TimePatch`: one Write Multiple Registers of the six clock bytes (a
      failure is a 400 with the transport's error), the cache invalidated,
      and the clock read back. */
  function TimePatchEffect(script: map<Call, Reply>, cache: Option<CachedConfig>, body: Result<ClockTime>): Effect<ClockTime>
    requires Sized(script)
  {
    if body.Err? then Effect(Http.Reject(Http.StatusBadRequest, body.error), [], cache)
    else
      var write := WriteMultiple(0x9013, 3, TimeBytes(body.value));
      var reply := Respond(script, write);
      if reply.Failure? then Effect(Http.Reject(Http.StatusBadRequest, reply.reason), [write], cache)
      else
        var back := Respond(script, ClockRead);
        if back.Failure? then
          Effect(Http.Reject(Http.StatusInternalServerError, "Failed to read time from controller"), [write, ClockRead], None)
        else
          SizedReply(script, ClockRead);
          Effect(Http.Success(TimeOf(back.bytes)), [write, ClockRead], None)
  }

  /** `QueryPost`: one read of the selected kind at the parsed address. A
      reply shorter than one register makes `binary.BigEndian.Uint16` panic,
      which the router's recovery answers with an empty 500. */
  function QueryPostEffect(script: map<Call, Reply>, cache: Option<CachedConfig>, body: Result<Query>): Effect<Query>
  {
    if body.Err? then Effect(Http.Reject(Http.StatusBadRequest, body.error), [], cache)
    else
      var address := QueryAddress(body.value.address);
      if address.Err? then Effect(Http.Reject(Http.StatusBadRequest, address.error), [], cache)
      else
        var call := QueryCall(body.value.register, address.value);
        if call.None? then Effect(Http.Reject(Http.StatusBadRequest, "unknown register"), [], cache)
        else
          var reply := Respond(script, call.value);
          if reply.Failure? then
            Effect(Http.Reject(Http.StatusInternalServerError, "failed to read register: " + reply.reason), [call.value], cache)
          else if |reply.bytes| < 2 then Effect(Http.Reject(Http.StatusInternalServerError, ""), [call.value], cache)
          else Effect(Http.Success(body.value.(result := WordAt(reply.bytes, 0))), [call.value], cache)
  }

  // ---------------------------------------------------------------------
  // The cache keeps agreeing with the device

  /** The read back keeps the cache agreeing with the device, and a 200
      renders the configuration the device holds. */
  lemma ReadBackAgrees<T>(script: map<Call, Reply>, cache: Option<CachedConfig>, now: int, calls: seq<Call>,
                          view: ControllerConfig -> T, error: string)
    requires CacheAgrees(script, cache)
    ensures var e := ReadBack(script, cache, now, calls, view, error);
      CacheAgrees(script, e.cache) &&
      (e.response.IsOk() ==> Completes(script, ConfigPlan, -1) && e.response.body.value == view(ConfigOf(script)))
  {
    CachedReadFacts(script, cache, now);
  }

  lemma WriteBackAgrees<T>(script: map<Call, Reply>, cache: Option<CachedConfig>, now: int, calls: seq<Call>,
                           ws: seq<PlannedWrite>, always: bool, view: ControllerConfig -> T, error: string, rule: CacheRule)
    requires CacheAgrees(script, cache)
    ensures var e := WriteBack(script, cache, now, calls, ws, always, view, error, rule);
      CacheAgrees(script, e.cache) &&
      (e.response.IsOk() ==> Completes(script, ConfigPlan, -1) && e.response.body.value == view(ConfigOf(script)))
  {
    var w := WriteRun(script, ws);
    if w.result.Pass? {
      var kept := if always || ws != [] then None else cache;
      assert WriteBack(script, cache, now, calls, ws, always, view, error, rule) == ReadBack(script, kept, now, calls + w.calls, view, error);
      ReadBackAgrees(script, kept, now, calls + w.calls, view, error);
    }
  }

  lemma CheckedWriteAgrees<T>(script: map<Call, Reply>, cache: Option<CachedConfig>, now: int, calls: seq<Call>,
                              proposed: ControllerConfig, ws: seq<PlannedWrite>, always: bool,
                              view: ControllerConfig -> T, error: string, rule: CacheRule)
    requires CacheAgrees(script, cache)
    ensures var e := CheckedWrite(script, cache, now, calls, proposed, ws, always, view, error, rule);
      CacheAgrees(script, e.cache) &&
      (e.response.IsOk() ==> Completes(script, ConfigPlan, -1) && e.response.body.value == view(ConfigOf(script)))
  {
    WriteBackAgrees(script, cache, now, calls, ws, always, view, error, rule);
  }

  lemma ValidatedWriteAgrees<T>(script: map<Call, Reply>, cache: Option<CachedConfig>, now: int, calls: seq<Call>,
                                propose: ControllerConfig -> ControllerConfig, ws: seq<PlannedWrite>, always: bool,
                                view: ControllerConfig -> T, error: string, rule: CacheRule)
    requires CacheAgrees(script, cache)
    ensures var e := ValidatedWrite(script, cache, now, calls, propose, ws, always, view, error, rule);
      CacheAgrees(script, e.cache) &&
      (e.response.IsOk() ==> Completes(script, ConfigPlan, -1) && e.response.body.value == view(ConfigOf(script)))
  {
    CachedReadFacts(script, cache, now);
    var cur := CachedRead(script, cache, now);
    if cur.result.Ok? {
      CheckedWriteAgrees(script, cur.cache, now, calls + cur.calls, propose(cur.result.value), ws, always, view, error, rule);
    }
  }

  /** `BatteryProfileGet` keeps the cache agreeing with the device and
      answers 200 with the profile of the configuration the device holds. */
  lemma BatteryProfileGetAgrees(script: map<Call, Reply>, cache: Option<CachedConfig>, now: int)
    requires CacheAgrees(script, cache)
    ensures var e := BatteryProfileGetEffect(script, cache, now);
      CacheAgrees(script, e.cache) &&
      (e.response.IsOk() ==> Completes(script, ConfigPlan, -1) && e.response.body.value == ProfileOf(ConfigOf(script)))
  {
    CachedReadFacts(script, cache, now);
  }

  lemma ChargingParametersGetAgrees(script: map<Call, Reply>, cache: Option<CachedConfig>, now: int)
    requires CacheAgrees(script, cache)
    ensures var e := ChargingParametersGetEffect(script, cache, now);
      CacheAgrees(script, e.cache) &&
      (e.response.IsOk() ==> Completes(script, ConfigPlan, -1) && e.response.body.value == ParametersOf(ConfigOf(script)))
  {
    CachedReadFacts(script, cache, now);
  }

  lemma ConfigPatchRestAgrees(script: map<Call, Reply>, cache: Option<CachedConfig>, now: int,
                              req: ConfigRequest, userDefined: bool, calls: seq<Call>, rule: CacheRule)
    requires CacheAgrees(script, cache)
    ensures var e := ConfigPatchRest(script, cache, now, req, userDefined, calls, rule);
      CacheAgrees(script, e.cache) &&
      (e.response.IsOk() ==> Completes(script, ConfigPlan, -1) && e.response.body.value == ConfigOf(script))
  {
    var error := "Configuration updated but failed to read back";
    if userDefined {
      ValidatedWriteAgrees(script, cache, now, calls, ConfigProposal(req), ConfigWrites(req), true, Whole, error, rule);
    } else {
      ReadBackAgrees(script, cache, now, calls, Whole, error);
    }
  }

  lemma ConfigPatchAgrees(script: map<Call, Reply>, cache: Option<CachedConfig>, now: int, body: Result<ConfigRequest>, rule: CacheRule)
    requires CacheAgrees(script, cache)
    ensures var e := ConfigPatchEffect(script, cache, now, body, rule);
      CacheAgrees(script, e.cache) &&
      (e.response.IsOk() ==> Completes(script, ConfigPlan, -1) && e.response.body.value == ConfigOf(script))
  {
    if body.Ok? {
      var t := SettleType(script, cache, body.value);
      assert t.cache == cache || t.cache == None;
      ConfigPatchUnfolds(script, cache, now, body, rule);
      if t.failure.None? {
        ConfigPatchRestAgrees(script, t.cache, now, body.value, t.userDefined, t.calls, rule);
      }
    }
  }

  /** A `ConfigPatch` with a body settles the battery type and, unless that
      ended the request, goes on with the rest. */
  lemma ConfigPatchUnfolds(script: map<Call, Reply>, cache: Option<CachedConfig>, now: int, body: Result<ConfigRequest>, rule: CacheRule)
    requires Sized(script) && body.Ok?
    ensures var t := SettleType(script, cache, body.value); var e := ConfigPatchEffect(script, cache, now, body, rule);
      (t.failure.Some? ==> e == Effect(t.failure.value, t.calls, t.cache)) &&
      (t.failure.None? ==> e == ConfigPatchRest(script, t.cache, now, body.value, t.userDefined, t.calls, rule))
  {
  }

  lemma BatteryProfilePatchAgrees(script: map<Call, Reply>, cache: Option<CachedConfig>, now: int, body: Result<ProfileRequest>, rule: CacheRule)
    requires CacheAgrees(script, cache)
    ensures var e := BatteryProfilePatchEffect(script, cache, now, body, rule);
      CacheAgrees(script, e.cache) &&
      (e.response.IsOk() ==> Completes(script, ConfigPlan, -1) && e.response.body.value == ProfileOf(ConfigOf(script)))
  {
    if body.Ok? {
      WriteBackAgrees(script, cache, now, [], ProfileWrites(body.value), false, ProfileOf, "Profile updated but failed to read back", rule);
    }
  }

  lemma ChargingPatchAgrees(script: map<Call, Reply>, cache: Option<CachedConfig>, now: int, body: Result<ChargingRequest>, rule: CacheRule)
    requires CacheAgrees(script, cache)
    ensures var e := ChargingPatchEffect(script, cache, now, body, rule);
      CacheAgrees(script, e.cache) &&
      (e.response.IsOk() ==> Completes(script, ConfigPlan, -1) && e.response.body.value == ParametersOf(ConfigOf(script)))
  {
    ChargingPatchKeepsCache(script, cache, now, body, rule);
    ChargingPatchAnswersDevice(script, cache, now, body, rule);
  }

  /** The effect of an accepted `ChargingParametersPatch` is that of the
      validated write it hands over to. */
  lemma ChargingPatchUnfolds(script: map<Call, Reply>, cache: Option<CachedConfig>, now: int, body: Result<ChargingRequest>, rule: CacheRule)
    requires Sized(script) && Respond(script, TypeRead).Data? && TypeCode(script) == 4 && body.Ok?
    ensures ChargingPatchEffect(script, cache, now, body, rule) ==
      ValidatedWrite(script, cache, now, [TypeRead], ChargingProposal(body.value), ChargingWrites(body.value), false,
        ParametersOf, "Parameters updated but failed to read back", rule)
  {
  }

  /** A refused `ChargingParametersPatch` has made the type read only, and
      answers 400 or 500 with the cache untouched. */
  lemma ChargingPatchRefuses(script: map<Call, Reply>, cache: Option<CachedConfig>, now: int, body: Result<ChargingRequest>, rule: CacheRule)
    requires Sized(script) && !(Respond(script, TypeRead).Data? && TypeCode(script) == 4 && body.Ok?)
    ensures var e := ChargingPatchEffect(script, cache, now, body, rule);
      e.calls == [TypeRead] && e.cache == cache && Answered(e.response) && !e.response.IsOk() &&
      (Respond(script, TypeRead).Data? && TypeCode(script) != 4 ==> e.response.status == Http.StatusBadRequest)
  {
    if Respond(script, TypeRead).Failure? {
      assert ChargingPatchEffect(script, cache, now, body, rule) ==
        Effect(Http.Reject(Http.StatusInternalServerError, "Failed to read battery type"), [TypeRead], cache);
    } else if TypeCode(script) != 4 {
      assert ChargingPatchEffect(script, cache, now, body, rule) ==
        Effect(Http.Reject(Http.StatusBadRequest, "Charging parameters can only be modified when battery type is 'userDefined'"),
          [TypeRead], cache);
    } else {
      assert ChargingPatchEffect(script, cache, now, body, rule) == Effect(Http.Reject(Http.StatusBadRequest, body.error), [TypeRead], cache);
    }
  }

  lemma ChargingPatchKeepsCache(script: map<Call, Reply>, cache: Option<CachedConfig>, now: int, body: Result<ChargingRequest>, rule: CacheRule)
    requires CacheAgrees(script, cache)
    ensures CacheAgrees(script, ChargingPatchEffect(script, cache, now, body, rule).cache)
  {
    if Respond(script, TypeRead).Data? && TypeCode(script) == 4 && body.Ok? {
      ChargingPatchUnfolds(script, cache, now, body, rule);
      ValidatedWriteAgrees(script, cache, now, [TypeRead], ChargingProposal(body.value), ChargingWrites(body.value), false,
        ParametersOf, "Parameters updated but failed to read back", rule);
    } else {
      ChargingPatchRefuses(script, cache, now, body, rule);
    }
  }

  lemma ChargingPatchAnswersDevice(script: map<Call, Reply>, cache: Option<CachedConfig>, now: int, body: Result<ChargingRequest>, rule: CacheRule)
    requires CacheAgrees(script, cache)
    ensures var e := ChargingPatchEffect(script, cache, now, body, rule);
      e.response.IsOk() ==> Completes(script, ConfigPlan, -1) && e.response.body.value == ParametersOf(ConfigOf(script))
  {
    if Respond(script, TypeRead).Data? && TypeCode(script) == 4 && body.Ok? {
      ChargingPatchUnfolds(script, cache, now, body, rule);
      ValidatedWriteAgrees(script, cache, now, [TypeRead], ChargingProposal(body.value), ChargingWrites(body.value), false,
        ParametersOf, "Parameters updated but failed to read back", rule);
    } else {
      ChargingPatchRefuses(script, cache, now, body, rule);
    }
  }

  // ---------------------------------------------------------------------
  // No entry outlives a write the device accepted

  /** The writes of a log that the device accepted, in order. */
  function AcceptedWrites(script: map<Call, Reply>, log: seq<Call>): (ws: seq<Call>)
    ensures forall c | c in ws :: c in log && c.IsWrite() && Respond(script, c).Data?
    decreases |log|
  {
    if log == [] then []
    else
      var last := log[|log| - 1];
      AcceptedWrites(script, log[..|log| - 1]) + (if last.IsWrite() && Respond(script, last).Data? then [last] else [])
  }

  lemma {:induction false} AcceptedWritesAppend(script: map<Call, Reply>, a: seq<Call>, b: seq<Call>)
    ensures AcceptedWrites(script, a + b) == AcceptedWrites(script, a) + AcceptedWrites(script, b)
    decreases |b|
  {
    if b == [] {
      assert a + b == a;
    } else {
      var b' := b[..|b| - 1];
      assert (a + b)[..|a + b| - 1] == a + b';
      AcceptedWritesAppend(script, a, b');
    }
  }

  /** A log of reads, or of writes that all failed, accepted no write. */
  lemma {:induction false} NoneAccepted(script: map<Call, Reply>, log: seq<Call>)
    requires forall c | c in log :: !c.IsWrite() || Respond(script, c).Failure?
    ensures AcceptedWrites(script, log) == []
    decreases |log|
  {
    if log != [] {
      assert forall c | c in log[..|log| - 1] :: c in log;
      NoneAccepted(script, log[..|log| - 1]);
    }
  }

  /** From call `k` on, the log holds a complete configuration read first,
      every call of it answered with data, and no accepted write. */
  predicate ReadSince(script: map<Call, Reply>, log: seq<Call>, k: int)
  {
    Completes(script, ConfigPlan, -1) &&
    0 <= k && k + |ConfigPlan| <= |log| && log[k..k + |ConfigPlan|] == ConfigPlan && AcceptedWrites(script, log[k..]) == []
  }

  /** The entry left after `log` is no older than the last accepted write:
      there is no entry, no write was accepted, or a configuration read the
      device answered in full came after the last accepted write. */
  predicate NotStale(script: map<Call, Reply>, log: seq<Call>, cache: Option<CachedConfig>)
  {
    cache.None? || AcceptedWrites(script, log) == [] || exists k | 0 <= k <= |log| :: ReadSince(script, log, k)
  }

  /** Calls that accept no write keep an entry as current as it was. */
  lemma NotStaleExtends(script: map<Call, Reply>, log: seq<Call>, more: seq<Call>, cache: Option<CachedConfig>)
    requires NotStale(script, log, cache) && AcceptedWrites(script, more) == []
    ensures NotStale(script, log + more, cache)
  {
    AcceptedWritesAppend(script, log, more);
    if cache.Some? && AcceptedWrites(script, log) != [] {
      var k :| 0 <= k <= |log| && ReadSince(script, log, k);
      ReadSinceExtends(script, log, more, k);
    }
  }

  lemma ReadSinceExtends(script: map<Call, Reply>, log: seq<Call>, more: seq<Call>, k: int)
    requires ReadSince(script, log, k) && AcceptedWrites(script, more) == []
    ensures ReadSince(script, log + more, k)
  {
    SliceOfAppend(log, more, k, k + |ConfigPlan|);
    AcceptedWritesAppend(script, log[k..], more);
  }

  lemma AppendAssoc<T>(a: seq<T>, b: seq<T>, c: seq<T>)
    ensures a + b + c == a + (b + c)
  {
  }

  /** A slice within the first part of a concatenation is a slice of that part. */
  lemma SliceOfAppend<T>(a: seq<T>, b: seq<T>, i: int, j: int)
    requires 0 <= i <= j <= |a|
    ensures (a + b)[i..j] == a[i..j] && (a + b)[i..] == a[i..] + b
  {
  }

  /** A configuration read that succeeded, ending the log, makes any entry current. */
  lemma NotStaleAfterRead(script: map<Call, Reply>, log: seq<Call>, cache: Option<CachedConfig>)
    requires Completes(script, ConfigPlan, -1)
    ensures NotStale(script, log + ConfigPlan, cache)
  {
    var k := |log|;
    assert (log + ConfigPlan)[k..] == ConfigPlan;
    assert (log + ConfigPlan)[k..k + |ConfigPlan|] == ConfigPlan;
    NoneAccepted(script, ConfigPlan);
    assert ReadSince(script, log + ConfigPlan, k);
  }

  /** `getCachedConfig` keeps the entry current. */
  lemma CachedReadNotStale(script: map<Call, Reply>, cache: Option<CachedConfig>, now: int, log: seq<Call>)
    requires Sized(script) && NotStale(script, log, cache)
    ensures var f := CachedRead(script, cache, now);
      NotStale(script, log + f.calls, f.cache)
  {
    var f := CachedRead(script, cache, now);
    CachedReadReads(script, cache, now);
    if f.result.Ok? && !Fresh(cache, now) {
      NotStaleAfterRead(script, log, f.cache);
    } else {
      NoneAccepted(script, f.calls);
      NotStaleExtends(script, log, f.calls, cache);
    }
  }

  /** The write block leaves no entry older than a write it made. */
  lemma WriteBackNotStale<T>(script: map<Call, Reply>, cache: Option<CachedConfig>, now: int, calls: seq<Call>,
                             ws: seq<PlannedWrite>, always: bool, view: ControllerConfig -> T, error: string)
    requires Sized(script) && NotStale(script, calls, cache)
    ensures var e := WriteBack(script, cache, now, calls, ws, always, view, error, Corrected);
      NotStale(script, e.calls, e.cache)
  {
    var w := WriteRun(script, ws);
    if w.result.Fail? {
      if w.Accepted() == 0 {
        WriteRunFailure(script, ws);
        assert w.calls == [ws[0].AsCall()];
        NoneAccepted(script, w.calls);
        NotStaleExtends(script, calls, w.calls, cache);
      }
    } else {
      var kept := if always || ws != [] then None else cache;
      if ws == [] {
        assert calls + w.calls == calls;
      }
      CachedReadNotStale(script, kept, now, calls + w.calls);
    }
  }

  /** The write block on the handlers' own terms serves, after the first
      write is accepted and the second refused, the entry it held before
      the accepted write, without a read; the corrected block drops it. */
  lemma AsWrittenKeepsStaleEntry<T>(script: map<Call, Reply>, cache: Option<CachedConfig>, now: int,
                                    ws: seq<PlannedWrite>, always: bool, view: ControllerConfig -> T, error: string)
    requires Sized(script) && |ws| >= 2 && Respond(script, ws[0].AsCall()).Data? && Respond(script, ws[1].AsCall()).Failure?
    requires Fresh(cache, now)
    ensures var e := WriteBack(script, cache, now, [], ws, always, view, error, AsWritten);
      e.calls == [ws[0].AsCall(), ws[1].AsCall()] && e.cache == cache && !NotStale(script, e.calls, e.cache) &&
      CachedRead(script, e.cache, now) == Fetch(Ok(cache.value.config), [], cache)
    ensures WriteBack(script, cache, now, [], ws, always, view, error, Corrected).cache == None
  {
    SecondWriteRefused(script, ws);
    var e := WriteBack(script, cache, now, [], ws, always, view, error, AsWritten);
    assert e.calls == [] + WriteRun(script, ws).calls;
    assert AcceptedWrites(script, e.calls) != [] by {
      assert e.calls[..1] == [ws[0].AsCall()];
      assert AcceptedWrites(script, e.calls[..1]) == [ws[0].AsCall()];
    }
  }

  /** `BatteryProfilePatch` as written: with a fresh entry, a body naming a
      type and a capacity, the type write accepted and the capacity write
      refused, the 400 keeps the entry, and `BatteryProfileGet` then answers
      the profile held before the accepted write, without a read. */
  lemma ProfilePatchKeepsStaleEntry(script: map<Call, Reply>, cache: Option<CachedConfig>, now: int, req: ProfileRequest)
    requires Sized(script) && req.batteryType.Some? && req.batteryCapacity.Some?
    requires Respond(script, ProfileWrites(req)[0].AsCall()).Data? && Respond(script, ProfileWrites(req)[1].AsCall()).Failure?
    requires Fresh(cache, now)
    ensures var e := BatteryProfilePatchEffect(script, cache, now, Ok(req), AsWritten);
      e.response.status == Http.StatusBadRequest && e.cache == cache &&
      !NotStale(script, e.calls, e.cache) &&
      BatteryProfileGetEffect(script, e.cache, now) == Effect(Http.Success(ProfileOf(cache.value.config)), [], cache)
    ensures BatteryProfilePatchEffect(script, cache, now, Ok(req), Corrected).cache == None
  {
    var ws := ProfileWrites(req);
    var error := "Profile updated but failed to read back";
    AsWrittenKeepsStaleEntry(script, cache, now, ws, false, ProfileOf, error);
    SecondWriteRefused(script, ws);
  }

  /** A run whose first write is accepted and second refused stops there. */
  lemma SecondWriteRefused(script: map<Call, Reply>, ws: seq<PlannedWrite>)
    requires |ws| >= 2 && Respond(script, ws[0].AsCall()).Data? && Respond(script, ws[1].AsCall()).Failure?
    ensures var w := WriteRun(script, ws);
      w.result.Fail? && w.calls == [ws[0].AsCall(), ws[1].AsCall()] && w.Accepted() == 1
  {
    var plan := Calls(ws);
    assert IssuedFrom(script, plan, 1, -1) == 2;
    assert !Completes(script, plan, -1) by {
      assert Respond(script, plan[1]).Failure?;
    }
    assert plan[..2] == [ws[0].AsCall(), ws[1].AsCall()];
  }

  /** A failed write block keeps the entry as written, and under the
      corrected rule exactly when the device accepted none of its writes; a
      passing one that wrote (or always invalidates)
      issues the whole configuration read after its writes and stores what
      that read returns, stamped `now`. */
  lemma WriteBackCache<T>(script: map<Call, Reply>, cache: Option<CachedConfig>, now: int, calls: seq<Call>,
                          ws: seq<PlannedWrite>, always: bool, view: ControllerConfig -> T, error: string, rule: CacheRule)
    requires CacheAgrees(script, cache)
    ensures var e := WriteBack(script, cache, now, calls, ws, always, view, error, rule);
      var w := WriteRun(script, ws);
      (w.result.Fail? && rule.AsWritten? ==> e.cache == cache) &&
      (w.result.Fail? && rule.Corrected? ==>
        (e.cache == cache <==> cache.None? || AcceptedWrites(script, w.calls) == []) && (e.cache.None? || e.cache == cache)) &&
      (w.result.Pass? && (always || ws != []) ==>
        e.calls == calls + w.calls + ConfigRead(script).calls &&
        e.cache == (if Completes(script, ConfigPlan, -1) then Some(CachedConfig(ConfigOf(script), now)) else None))
  {
    var w := WriteRun(script, ws);
    if w.result.Fail? {
      FailedRunAccepted(script, ws);
    } else if always || ws != [] {
      ReadBackUncached(script, now, calls + w.calls, view, error);
      AppendAssoc(calls, w.calls, ConfigRead(script).calls);
    }
  }

  /** With no entry, the read back reads the device and caches what it
      read, if it read it all. */
  lemma ReadBackUncached<T>(script: map<Call, Reply>, now: int, calls: seq<Call>,
                            view: ControllerConfig -> T, error: string)
    requires Sized(script)
    ensures var e := ReadBack(script, None, now, calls, view, error);
      e.calls == calls + ConfigRead(script).calls &&
      e.cache == (if Completes(script, ConfigPlan, -1) then Some(CachedConfig(ConfigOf(script), now)) else None)
  {
    assert !Fresh(None, now);
  }

  /** A failed write block accepted a write exactly when it made more than
      the one failed call. */
  lemma FailedRunAccepted(script: map<Call, Reply>, ws: seq<PlannedWrite>)
    requires WriteRun(script, ws).result.Fail?
    ensures var w := WriteRun(script, ws); w.Accepted() > 0 <==> AcceptedWrites(script, w.calls) != []
  {
    var w := WriteRun(script, ws);
    WriteRunFailure(script, ws);
    var n := |w.calls|;
    if n > 1 {
      assert w.calls[..1] == [ws[0].AsCall()];
      AcceptedWritesAppend(script, w.calls[..1], w.calls[1..]);
      assert w.calls[..1] + w.calls[1..] == w.calls;
    } else {
      assert w.calls == [ws[0].AsCall()];
    }
  }

  lemma CheckedWriteNotStale<T>(script: map<Call, Reply>, cache: Option<CachedConfig>, now: int, calls: seq<Call>,
                                proposed: ControllerConfig, ws: seq<PlannedWrite>, always: bool,
                                view: ControllerConfig -> T, error: string)
    requires Sized(script) && NotStale(script, calls, cache)
    ensures var e := CheckedWrite(script, cache, now, calls, proposed, ws, always, view, error, Corrected);
      NotStale(script, e.calls, e.cache)
  {
    WriteBackNotStale(script, cache, now, calls, ws, always, view, error);
  }

  lemma ValidatedWriteNotStale<T>(script: map<Call, Reply>, cache: Option<CachedConfig>, now: int, calls: seq<Call>,
                                  propose: ControllerConfig -> ControllerConfig, ws: seq<PlannedWrite>, always: bool,
                                  view: ControllerConfig -> T, error: string)
    requires Sized(script) && NotStale(script, calls, cache)
    ensures var e := ValidatedWrite(script, cache, now, calls, propose, ws, always, view, error, Corrected);
      NotStale(script, e.calls, e.cache)
  {
    CachedReadNotStale(script, cache, now, calls);
    var cur := CachedRead(script, cache, now);
    if cur.result.Ok? {
      CheckedWriteNotStale(script, cur.cache, now, calls + cur.calls, propose(cur.result.value), ws, always, view, error);
    }
  }

  /** Settling the battery type keeps the entry current: a type write the
      device accepted drops it. */
  lemma SettleTypeNotStale(script: map<Call, Reply>, cache: Option<CachedConfig>, req: ConfigRequest)
    requires Sized(script)
    ensures var t := SettleType(script, cache, req);
      NotStale(script, t.calls, t.cache)
  {
    var t := SettleType(script, cache, req);
    if t.cache.Some? {
      assert forall c | c in t.calls :: !c.IsWrite() || Respond(script, c).Failure?;
      NoneAccepted(script, t.calls);
    }
  }

  lemma ConfigPatchRestNotStale(script: map<Call, Reply>, cache: Option<CachedConfig>, now: int,
                                req: ConfigRequest, userDefined: bool, calls: seq<Call>)
    requires Sized(script) && NotStale(script, calls, cache)
    ensures var e := ConfigPatchRest(script, cache, now, req, userDefined, calls, Corrected);
      NotStale(script, e.calls, e.cache)
  {
    var error := "Configuration updated but failed to read back";
    if userDefined {
      ValidatedWriteNotStale(script, cache, now, calls, ConfigProposal(req), ConfigWrites(req), true, Whole, error);
    } else {
      CachedReadNotStale(script, cache, now, calls);
    }
  }

  /** `ConfigPatch` leaves no entry older than a write it made. */
  lemma ConfigPatchNotStale(script: map<Call, Reply>, cache: Option<CachedConfig>, now: int, body: Result<ConfigRequest>)
    requires Sized(script)
    ensures var e := ConfigPatchEffect(script, cache, now, body, Corrected);
      NotStale(script, e.calls, e.cache)
  {
    if body.Ok? {
      var t := SettleType(script, cache, body.value);
      SettleTypeNotStale(script, cache, body.value);
      if t.failure.None? {
        ConfigPatchRestNotStale(script, t.cache, now, body.value, t.userDefined, t.calls);
      }
    } else {
      NoneAccepted(script, []);
    }
  }

  /** `BatteryProfilePatch` leaves no entry older than a write it made. */
  lemma BatteryProfilePatchNotStale(script: map<Call, Reply>, cache: Option<CachedConfig>, now: int, body: Result<ProfileRequest>)
    requires Sized(script)
    ensures var e := BatteryProfilePatchEffect(script, cache, now, body, Corrected);
      NotStale(script, e.calls, e.cache)
  {
    NoneAccepted(script, []);
    if body.Ok? {
      WriteBackNotStale(script, cache, now, [], ProfileWrites(body.value), false, ProfileOf,
        "Profile updated but failed to read back");
    }
  }

  /** `ChargingParametersPatch` leaves no entry older than a write it made. */
  lemma ChargingPatchNotStale(script: map<Call, Reply>, cache: Option<CachedConfig>, now: int, body: Result<ChargingRequest>)
    requires Sized(script)
    ensures var e := ChargingPatchEffect(script, cache, now, body, Corrected);
      NotStale(script, e.calls, e.cache)
  {
    NoneAccepted(script, [TypeRead]);
    if Respond(script, TypeRead).Data? && TypeCode(script) == 4 && body.Ok? {
      ChargingPatchUnfolds(script, cache, now, body, Corrected);
      ValidatedWriteNotStale(script, cache, now, [TypeRead], ChargingProposal(body.value), ChargingWrites(body.value), false,
        ParametersOf, "Parameters updated but failed to read back");
    } else {
      ChargingPatchRefuses(script, cache, now, body, Corrected);
    }
  }

  /** `TimePatch` drops the entry once the device accepted the clock write. */
  lemma TimePatchNotStale(script: map<Call, Reply>, cache: Option<CachedConfig>, body: Result<ClockTime>)
    requires Sized(script)
    ensures var e := TimePatchEffect(script, cache, body);
      NotStale(script, e.calls, e.cache)
  {
    var e := TimePatchEffect(script, cache, body);
    if e.cache.Some? {
      assert forall c | c in e.calls :: !c.IsWrite() || Respond(script, c).Failure?;
      NoneAccepted(script, e.calls);
    }
  }

  // ---------------------------------------------------------------------
  // Which writes the handlers make, and what they answer

  /** No call among `calls` writes. */
  predicate ReadsOnly(calls: seq<Call>)
  {
    forall c | c in calls :: !c.IsWrite()
  }

  /** A 200 with a document, or a 400 or a 500 with an error. */
  predicate Answered<T>(r: Http.Response<T>)
  {
    r.IsOk() || ((r.status == Http.StatusBadRequest || r.status == Http.StatusInternalServerError) && r.body.Err?)
  }

  /** `getCachedConfig` never writes. */
  lemma CachedReadReads(script: map<Call, Reply>, cache: Option<CachedConfig>, now: int)
    requires Sized(script)
    ensures ReadsOnly(CachedRead(script, cache, now).calls)
    ensures Writes(CachedRead(script, cache, now).calls) == []
  {
    if !Fresh(cache, now) {
      ConfigReadReads(script);
    }
    WritesOfReads(CachedRead(script, cache, now).calls);
  }

  /** `getConfig` issues register reads only. */
  lemma ConfigReadReads(script: map<Call, Reply>)
    requires Sized(script)
    ensures ReadsOnly(ConfigRead(script).calls)
  {
    var calls := ConfigRead(script).calls;
    var n := IssuedFrom(script, ConfigPlan, 0, -1);
    assert calls == ConfigPlan[..n];
    forall c | c in calls
      ensures !c.IsWrite()
    {
      var i :| 0 <= i < |calls| && calls[i] == c;
      assert c == ConfigPlan[i];
    }
  }

  /** A run of planned writes issues nothing but writes. */
  lemma WriteRunWrites(script: map<Call, Reply>, ws: seq<PlannedWrite>)
    ensures Writes(WriteRun(script, ws).calls) == WriteRun(script, ws).calls
  {
    var cs := WriteRun(script, ws).calls;
    assert forall i | 0 <= i < |cs| :: cs[i].IsWrite();
    WritesOfWrites(cs);
  }

  lemma ReadBackWrites<T>(script: map<Call, Reply>, cache: Option<CachedConfig>, now: int, calls: seq<Call>,
                          view: ControllerConfig -> T, error: string)
    requires Sized(script)
    ensures var e := ReadBack(script, cache, now, calls, view, error);
      Writes(e.calls) == Writes(calls) && Answered(e.response)
  {
    CachedReadReads(script, cache, now);
    WritesAppend(calls, CachedRead(script, cache, now).calls);
  }

  /** The write block makes exactly the writes of its run before the read
      back, and a 200 means every planned write was made; after a block
      that invalidates, the read back goes to the device. */
  lemma WriteBackWrites<T>(script: map<Call, Reply>, cache: Option<CachedConfig>, now: int, calls: seq<Call>,
                           ws: seq<PlannedWrite>, always: bool, view: ControllerConfig -> T, error: string, rule: CacheRule)
    requires Sized(script)
    ensures var e := WriteBack(script, cache, now, calls, ws, always, view, error, rule);
      var run := WriteRun(script, ws);
      Writes(e.calls) == Writes(calls) + run.calls && Answered(e.response) &&
      (e.response.IsOk() ==> run.result.Pass?) &&
      (run.result.Pass? && (always || ws != []) ==> e.calls == calls + run.calls + ConfigRead(script).calls)
  {
    var run := WriteRun(script, ws);
    WriteRunWrites(script, ws);
    WritesAppend(calls, run.calls);
    ReadBackWrites(script, if always || ws != [] then None else cache, now, calls + run.calls, view, error);
  }

  lemma CheckedWriteWrites<T>(script: map<Call, Reply>, cache: Option<CachedConfig>, now: int, calls: seq<Call>,
                              proposed: ControllerConfig, ws: seq<PlannedWrite>, always: bool,
                              view: ControllerConfig -> T, error: string, rule: CacheRule)
    requires Sized(script)
    ensures var e := CheckedWrite(script, cache, now, calls, proposed, ws, always, view, error, rule);
      var ok := ValidateVoltageParameters(proposed).Pass?;
      Writes(e.calls) == Writes(calls) + (if ok then WriteRun(script, ws).calls else []) && Answered(e.response) &&
      (e.response.IsOk() ==> ok && WriteRun(script, ws).result.Pass?)
  {
    if ValidateVoltageParameters(proposed).Pass? {
      WriteBackWrites(script, cache, now, calls, ws, always, view, error, rule);
    } else {
      assert Writes(calls) + [] == Writes(calls);
    }
  }

  /** The current configuration can be read and the proposal made from it
      passes validation. */
  predicate Proposable(script: map<Call, Reply>, cache: Option<CachedConfig>, now: int,
                       propose: ControllerConfig -> ControllerConfig)
    requires Sized(script)
  {
    var cur := CachedRead(script, cache, now);
    cur.result.Ok? && ValidateVoltageParameters(propose(cur.result.value)).Pass?
  }

  /** The current configuration is read, the proposal validated, and only
      a proposal that passes is written. */
  lemma ValidatedWriteWrites<T>(script: map<Call, Reply>, cache: Option<CachedConfig>, now: int, calls: seq<Call>,
                                propose: ControllerConfig -> ControllerConfig, ws: seq<PlannedWrite>, always: bool,
                                view: ControllerConfig -> T, error: string, rule: CacheRule)
    requires Sized(script)
    ensures var e := ValidatedWrite(script, cache, now, calls, propose, ws, always, view, error, rule);
      var ok := Proposable(script, cache, now, propose);
      Writes(e.calls) == Writes(calls) + (if ok then WriteRun(script, ws).calls else []) && Answered(e.response) &&
      (e.response.IsOk() ==> ok && WriteRun(script, ws).result.Pass?)
  {
    var cur := CachedRead(script, cache, now);
    CachedReadReads(script, cache, now);
    WritesAppend(calls, cur.calls);
    if cur.result.Ok? {
      CheckedWriteWrites(script, cur.cache, now, calls + cur.calls, propose(cur.result.value), ws, always, view, error, rule);
    } else {
      assert Writes(calls) + [] == Writes(calls);
    }
  }

  /** `ChargingParametersPatch` goes ahead when the battery type register
      reads 4, the body is well formed, the current configuration can be
      read and the proposal it makes passes validation. */
  ghost predicate ChargingAccepted(script: map<Call, Reply>, cache: Option<CachedConfig>, now: int, body: Result<ChargingRequest>)
    requires Sized(script)
  {
    Respond(script, TypeRead).Data? && TypeCode(script) == 4 && body.Ok? &&
    Proposable(script, cache, now, ChargingProposal(body.value))
  }

  /** `ChargingParametersPatch` writes only an accepted request, and then
      the planned writes in order up to the first failure. */
  lemma ChargingPatchWrites(script: map<Call, Reply>, cache: Option<CachedConfig>, now: int, body: Result<ChargingRequest>, rule: CacheRule)
    requires Sized(script)
    ensures var e := ChargingPatchEffect(script, cache, now, body, rule);
      Answered(e.response) &&
      Writes(e.calls) == (if ChargingAccepted(script, cache, now, body) then WriteRun(script, ChargingWrites(body.value)).calls else []) &&
      (e.response.IsOk() ==> ChargingAccepted(script, cache, now, body) && WriteRun(script, ChargingWrites(body.value)).result.Pass?)
  {
    if Respond(script, TypeRead).Data? && TypeCode(script) == 4 && body.Ok? {
      ChargingPatchProceeds(script, cache, now, body.value, rule);
    } else {
      ChargingPatchRefuses(script, cache, now, body, rule);
      WritesOfReads([TypeRead]);
    }
  }

  /** The part of `ChargingParametersPatch` after the type and body checks:
      it answers, writes exactly the planned writes of an accepted request,
      and answers 200 only after all of them. */
  lemma ChargingPatchProceeds(script: map<Call, Reply>, cache: Option<CachedConfig>, now: int, req: ChargingRequest, rule: CacheRule)
    requires Sized(script) && Respond(script, TypeRead).Data? && TypeCode(script) == 4
    ensures var e := ChargingPatchEffect(script, cache, now, Ok(req), rule);
      var accepted := ChargingAccepted(script, cache, now, Ok(req));
      Answered(e.response) &&
      Writes(e.calls) == (if accepted then WriteRun(script, ChargingWrites(req)).calls else []) &&
      (e.response.IsOk() ==> accepted && WriteRun(script, ChargingWrites(req)).result.Pass?)
  {
    ChargingProceedsWrites(script, cache, now, req, rule);
    ChargingProceedsAnswers(script, cache, now, req, rule);
  }

  lemma ChargingProceedsWrites(script: map<Call, Reply>, cache: Option<CachedConfig>, now: int, req: ChargingRequest, rule: CacheRule)
    requires Sized(script) && Respond(script, TypeRead).Data? && TypeCode(script) == 4
    ensures var e := ChargingPatchEffect(script, cache, now, Ok(req), rule);
      Writes(e.calls) == (if ChargingAccepted(script, cache, now, Ok(req)) then WriteRun(script, ChargingWrites(req)).calls else [])
  {
    ChargingPatchUnfolds(script, cache, now, Ok(req), rule);
    WritesAfterRead(script, cache, now, TypeRead, ChargingProposal(req), ChargingWrites(req), false, ParametersOf,
      "Parameters updated but failed to read back", rule);
  }

  /** After one read, the validated write block writes the planned writes
      of an acceptable proposal, or nothing. */
  lemma WritesAfterRead<T>(script: map<Call, Reply>, cache: Option<CachedConfig>, now: int, read: Call,
                           propose: ControllerConfig -> ControllerConfig, ws: seq<PlannedWrite>, always: bool,
                           view: ControllerConfig -> T, error: string, rule: CacheRule)
    requires Sized(script) && !read.IsWrite()
    ensures Writes(ValidatedWrite(script, cache, now, [read], propose, ws, always, view, error, rule).calls) ==
      (if Proposable(script, cache, now, propose) then WriteRun(script, ws).calls else [])
  {
    ValidatedWriteWrites(script, cache, now, [read], propose, ws, always, view, error, rule);
    WritesOfReads([read]);
  }

  lemma ChargingProceedsAnswers(script: map<Call, Reply>, cache: Option<CachedConfig>, now: int, req: ChargingRequest, rule: CacheRule)
    requires Sized(script) && Respond(script, TypeRead).Data? && TypeCode(script) == 4
    ensures var e := ChargingPatchEffect(script, cache, now, Ok(req), rule);
      Answered(e.response) &&
      (e.response.IsOk() ==> ChargingAccepted(script, cache, now, Ok(req)) && WriteRun(script, ChargingWrites(req)).result.Pass?)
  {
    var error := "Parameters updated but failed to read back";
    ChargingPatchUnfolds(script, cache, now, Ok(req), rule);
    ValidatedWriteWrites(script, cache, now, [TypeRead], ChargingProposal(req), ChargingWrites(req), false, ParametersOf, error, rule);
  }

  /** A 200 from `ChargingParametersPatch` means every planned write was made;
      a battery that is not user defined is refused with the type read as
      the only call. */
  lemma ChargingPatchOutcome(script: map<Call, Reply>, cache: Option<CachedConfig>, now: int, body: Result<ChargingRequest>, rule: CacheRule)
    requires Sized(script)
    ensures var e := ChargingPatchEffect(script, cache, now, body, rule);
      (e.response.IsOk() ==> Writes(e.calls) == Calls(ChargingWrites(body.value))) &&
      (Respond(script, TypeRead).Data? && TypeCode(script) != 4 ==> e.calls == [TypeRead] && e.response.status == Http.StatusBadRequest)
  {
    if Respond(script, TypeRead).Data? && TypeCode(script) == 4 && body.Ok? {
      ChargingPatchProceeds(script, cache, now, body.value, rule);
    } else {
      ChargingPatchRefuses(script, cache, now, body, rule);
    }
  }

  /** `ConfigPatch` goes ahead with the charging fields when the settled
      battery type is user defined, the current configuration can be read
      and the proposal passes validation. */
  ghost predicate ConfigAccepted(script: map<Call, Reply>, cache: Option<CachedConfig>, now: int, req: ConfigRequest)
    requires Sized(script)
  {
    var t := SettleType(script, cache, req);
    t.failure.None? && t.userDefined &&
    Proposable(script, t.cache, now, ConfigProposal(req))
  }

  lemma ConfigPatchRestWrites(script: map<Call, Reply>, cache: Option<CachedConfig>, now: int,
                              req: ConfigRequest, userDefined: bool, calls: seq<Call>, rule: CacheRule)
    requires Sized(script)
    ensures var e := ConfigPatchRest(script, cache, now, req, userDefined, calls, rule);
      var ok := userDefined && Proposable(script, cache, now, ConfigProposal(req));
      Writes(e.calls) == Writes(calls) + (if ok then WriteRun(script, ConfigWrites(req)).calls else []) && Answered(e.response) &&
      (e.response.IsOk() && userDefined ==> ok && WriteRun(script, ConfigWrites(req)).result.Pass?)
  {
    var error := "Configuration updated but failed to read back";
    if userDefined {
      ValidatedWriteWrites(script, cache, now, calls, ConfigProposal(req), ConfigWrites(req), true, Whole, error, rule);
    } else {
      ReadBackWrites(script, cache, now, calls, Whole, error);
      assert Writes(calls) + [] == Writes(calls);
    }
  }

  /** `ConfigPatch` writes the battery type when the body names one, and
      the charging fields only for an accepted request, in order up to the
      first failure. */
  lemma ConfigPatchWrites(script: map<Call, Reply>, cache: Option<CachedConfig>, now: int, body: Result<ConfigRequest>, rule: CacheRule)
    requires Sized(script)
    ensures var e := ConfigPatchEffect(script, cache, now, body, rule);
      Answered(e.response) &&
      Writes(e.calls) ==
        (if body.Ok? && body.value.batteryType != "" then [TypeWrite(body.value.batteryType).AsCall()] else []) +
        (if body.Ok? && ConfigAccepted(script, cache, now, body.value) then WriteRun(script, ConfigWrites(body.value)).calls else [])
  {
    if body.Ok? {
      var t := SettleType(script, cache, body.value);
      SettleTypeWrites(script, cache, body.value);
      ConfigPatchUnfolds(script, cache, now, body, rule);
      if t.failure.None? {
        ConfigPatchRestWrites(script, t.cache, now, body.value, t.userDefined, t.calls, rule);
      }
    }
  }

  /** Settling the battery type writes it exactly when the body names one,
      and a failure is a 400 or a 500 with an error. */
  lemma SettleTypeWrites(script: map<Call, Reply>, cache: Option<CachedConfig>, req: ConfigRequest)
    requires Sized(script)
    ensures var t := SettleType(script, cache, req);
      Writes(t.calls) == (if req.batteryType != "" then [TypeWrite(req.batteryType).AsCall()] else []) &&
      (t.failure.Some? ==> Answered(t.failure.value) && !t.failure.value.IsOk())
  {
    var t := SettleType(script, cache, req);
    if req.batteryType != "" {
      WritesOfWrites(t.calls);
    } else {
      WritesOfReads(t.calls);
    }
  }

  /** `BatteryProfilePatch` makes the writes its body asks for, in order up
      to the first failure. */
  lemma BatteryProfilePatchWrites(script: map<Call, Reply>, cache: Option<CachedConfig>, now: int, body: Result<ProfileRequest>, rule: CacheRule)
    requires Sized(script)
    ensures var e := BatteryProfilePatchEffect(script, cache, now, body, rule);
      Answered(e.response) &&
      Writes(e.calls) == (if body.Ok? then WriteRun(script, ProfileWrites(body.value)).calls else []) &&
      (e.response.IsOk() ==> Writes(e.calls) == Calls(ProfileWrites(body.value)))
  {
    if body.Ok? {
      WriteBackWrites(script, cache, now, [], ProfileWrites(body.value), false, ProfileOf, "Profile updated but failed to read back", rule);
    }
  }

  /** `TimePatch` makes one write, the six clock bytes, and a 200 reports
      the clock as read back; once that write is made the cache is empty. */
  lemma TimePatchWrites(script: map<Call, Reply>, cache: Option<CachedConfig>, body: Result<ClockTime>)
    requires Sized(script)
    ensures var e := TimePatchEffect(script, cache, body);
      Answered(e.response) &&
      Writes(e.calls) == (if body.Ok? then [WriteMultiple(0x9013, 3, TimeBytes(body.value))] else []) &&
      (body.Ok? && Respond(script, WriteMultiple(0x9013, 3, TimeBytes(body.value))).Data? ==> e.cache == None)
  {
    if body.Ok? {
      var w := WriteMultiple(0x9013, 3, TimeBytes(body.value));
      assert Writes([w]) == [w];
      assert [w, ClockRead][..1] == [w];
    }
  }

  /** The read handlers issue no write; the uncached ones leave the cache
      alone. */
  lemma ConfigGetReads(script: map<Call, Reply>, cache: Option<CachedConfig>)
    requires Sized(script)
    ensures var e := ConfigGetEffect(script, cache);
      Writes(e.calls) == [] && Answered(e.response) && e.cache == cache
  {
    CachedReadReads(script, None, 0);
  }

  lemma BatteryProfileGetReads(script: map<Call, Reply>, cache: Option<CachedConfig>, now: int)
    requires Sized(script)
    ensures var e := BatteryProfileGetEffect(script, cache, now);
      Writes(e.calls) == [] && Answered(e.response)
  {
    CachedReadReads(script, cache, now);
  }

  lemma ChargingParametersGetReads(script: map<Call, Reply>, cache: Option<CachedConfig>, now: int)
    requires Sized(script)
    ensures var e := ChargingParametersGetEffect(script, cache, now);
      Writes(e.calls) == [] && Answered(e.response)
  {
    CachedReadReads(script, cache, now);
  }

  lemma TimeGetReads(script: map<Call, Reply>, cache: Option<CachedConfig>)
    requires Sized(script)
    ensures var e := TimeGetEffect(script, cache);
      Writes(e.calls) == [] && Answered(e.response) && e.cache == cache
  {
    WritesOfReads([ClockRead]);
  }

  /** `QueryPost` makes at most one call, a read of the kind its register
      class selects, and leaves the cache alone. */
  lemma QueryPostReads(script: map<Call, Reply>, cache: Option<CachedConfig>, query: Result<Query>)
    ensures var e := QueryPostEffect(script, cache, query);
      Writes(e.calls) == [] && Answered(e.response) && e.cache == cache && |e.calls| <= 1
  {
    WritesOfReads(QueryPostEffect(script, cache, query).calls);
  }

  /** `getConfig` stopped at read `i`, which failed. */
  lemma ConfigReadStops(script: map<Call, Reply>, i: nat)
    requires Sized(script) && i < |ConfigPlan| && Respond(script, ConfigPlan[i]).Failure?
    requires IssuedFrom(script, ConfigPlan, 0, -1) == i + 1
    ensures ConfigRead(script) == Reading(Err(ConfigReadError(i, Respond(script, ConfigPlan[i]).reason)), ConfigPlan[..i + 1])
  {
    assert !Completes(script, ConfigPlan, -1);
  }

  /** A `getConfig` that started at log `prior` failed as `ConfigRead`
      says. */
  ghost predicate ReadFailed(script: map<Call, Reply>, prior: seq<Call>, log: seq<Call>, error: string)
    requires Sized(script)
  {
    log == prior + ConfigRead(script).calls && ConfigRead(script).result == Err(error)
  }

  // ---------------------------------------------------------------------
  // The configurer

  /** `Configurer`: the transport and the cache. */
  class Configurer {
    const client: Transport
    var cache: Option<CachedConfig>

    /** The cache, when set, holds what the device answers. */
    ghost predicate Valid()
      reads this
    {
      CacheAgrees(client.script, cache)
    }

    /** `NewConfigurer`. */
    constructor (client: Transport)
      requires Sized(client.script)
      ensures this.client == client && cache == None && Valid()
    {
      this.client := client;
      cache := None;
    }

    /** `getConfig`: the six reads, stopping at the first failure. */
    method GetConfig() returns (r: Result<ControllerConfig>)
      requires Sized(client.script)
      modifies client
      ensures client.log == old(client.log) + ConfigRead(client.script).calls
      ensures r == ConfigRead(client.script).result
    {
      ghost var log0 := client.log;
      assert log0 == log0 + ConfigPlan[..0];
      var first := ReadFirstHalf(log0);
      if first.Err? {
        return Err(first.error);
      }
      var second := ReadSecondHalf(log0);
      if second.Err? {
        return Err(second.error);
      }
      var (battery, clock, volts) := first.value;
      var (cycle, durations, limits) := second.value;
      r := Ok(ConfigFrom(battery, clock, volts, cycle, durations, limits));
    }

    /** Reads 0 to 2 of `getConfig`: battery settings, clock, voltage block. */
    method ReadFirstHalf(ghost prior: seq<Call>) returns (r: Result<(seq<Byte>, seq<Byte>, seq<Byte>)>)
      requires Sized(client.script) && client.log == prior + ConfigPlan[..0]
      modifies client
      ensures r.Ok? ==> client.log == prior + ConfigPlan[..3]
      ensures r.Ok? ==> IssuedFrom(client.script, ConfigPlan, 0, -1) == IssuedFrom(client.script, ConfigPlan, 3, -1)
      ensures r.Ok? ==> forall i | 0 <= i < 3 :: Respond(client.script, ConfigPlan[i]).Data?
      ensures r.Ok? ==> (r.value.0 == Block(client.script, 0) && r.value.1 == Block(client.script, 1) &&
        r.value.2 == Block(client.script, 2))
      ensures r.Err? ==> ReadFailed(client.script, prior, client.log, r.error)
    {
      var battery := client.Issue(ReadHolding(0x9000, 3), ConfigPlan, -1, 0, prior);
      if battery.Failure? {
        ConfigReadStops(client.script, 0);
        return Err(ConfigReadError(0, battery.reason));
      }
      var clock := client.Issue(ReadHolding(0x9013, 3), ConfigPlan, -1, 1, prior);
      if clock.Failure? {
        ConfigReadStops(client.script, 1);
        return Err(ConfigReadError(1, clock.reason));
      }
      var volts := client.Issue(ReadHolding(0x9003, 12), ConfigPlan, -1, 2, prior);
      if volts.Failure? {
        ConfigReadStops(client.script, 2);
        return Err(ConfigReadError(2, volts.reason));
      }
      r := Ok((battery.bytes, clock.bytes, volts.bytes));
    }

    /** Reads 3 to 5 of `getConfig`: equalization cycle, durations,
        temperature limits. */
    method ReadSecondHalf(ghost prior: seq<Call>) returns (r: Result<(seq<Byte>, seq<Byte>, seq<Byte>)>)
      requires Sized(client.script) && client.log == prior + ConfigPlan[..3]
      requires IssuedFrom(client.script, ConfigPlan, 0, -1) == IssuedFrom(client.script, ConfigPlan, 3, -1)
      requires forall i | 0 <= i < 3 :: Respond(client.script, ConfigPlan[i]).Data?
      modifies client
      ensures r.Ok? ==> client.log == prior + ConfigRead(client.script).calls
      ensures r.Ok? ==> Completes(client.script, ConfigPlan, -1)
      ensures r.Ok? ==> (r.value.0 == Block(client.script, 3) && r.value.1 == Block(client.script, 4) &&
        r.value.2 == Block(client.script, 5))
      ensures r.Err? ==> ReadFailed(client.script, prior, client.log, r.error)
    {
      var cycle := client.Issue(ReadHolding(0x9016, 1), ConfigPlan, -1, 3, prior);
      if cycle.Failure? {
        ConfigReadStops(client.script, 3);
        return Err(ConfigReadError(3, cycle.reason));
      }
      var durations := client.Issue(ReadHolding(0x906B, 2), ConfigPlan, -1, 4, prior);
      if durations.Failure? {
        ConfigReadStops(client.script, 4);
        return Err(ConfigReadError(4, durations.reason));
      }
      var limits := client.Issue(ReadHolding(0x9017, 4), ConfigPlan, -1, 5, prior);
      if limits.Failure? {
        ConfigReadStops(client.script, 5);
        return Err(ConfigReadError(5, limits.reason));
      }
      assert Completes(client.script, ConfigPlan, -1);
      assert ConfigPlan[..6] == ConfigPlan;
      r := Ok((cycle.bytes, durations.bytes, limits.bytes));
    }

    /** `getCachedConfig` at time `now`. */
    method GetCachedConfig(now: int) returns (r: Result<ControllerConfig>)
      requires Sized(client.script)
      modifies this, client
      ensures r == CachedRead(client.script, old(cache), now).result
      ensures client.log == old(client.log) + CachedRead(client.script, old(cache), now).calls
      ensures cache == CachedRead(client.script, old(cache), now).cache
    {
      if cache.Some? && now - cache.value.timestamp < CacheTTL {
        assert client.log == old(client.log) + [];
        return Ok(cache.value.config);
      }
      r := GetConfig();
      if r.Ok? {
        cache := Some(CachedConfig(r.value, now));
      }
    }

    /** `invalidateCache`. */
    method InvalidateCache()
      modifies this
      ensures cache == None
    {
      cache := None;
    }

    /** `writeSingle`: one Write Single Register. */
    method WriteSingleRegister(w: PlannedWrite) returns (o: Outcome<string>)
      modifies client
      ensures client.log == old(client.log) + [w.AsCall()]
      ensures o.Pass? <==> Respond(client.script, w.AsCall()).Data?
      ensures o.Fail? ==> o.error == WriteError(w, Respond(client.script, w.AsCall()).reason)
    {
      var reply := client.Perform(WriteSingle(w.address, w.value));
      if reply.Failure? {
        return Fail(WriteError(w, reply.reason));
      }
      o := Pass;
    }

    /** The guarded write blocks of the patch handlers: each planned write in
        order, returning at the first failure. */
    method WriteAll(ws: seq<PlannedWrite>) returns (o: Outcome<string>, accepted: nat)
      modifies client
      ensures client.log == old(client.log) + WriteRun(client.script, ws).calls
      ensures o == WriteRun(client.script, ws).result
      ensures accepted == WriteRun(client.script, ws).Accepted()
    {
      ghost var log0 := client.log;
      ghost var plan := Calls(ws);
      assert log0 == log0 + plan[..0];
      var i := 0;
      while i < |ws|
        invariant 0 <= i <= |ws|
        invariant client.log == log0 + plan[..i]
        invariant IssuedFrom(client.script, plan, 0, -1) == IssuedFrom(client.script, plan, i, -1)
        invariant forall j | 0 <= j < i :: Respond(client.script, plan[j]).Data?
      {
        ghost var before := client.log;
        var step := WriteSingleRegister(ws[i]);
        if step.Fail? {
          StopsAt(client.script, plan, -1, i, ws[i].AsCall(), log0, before, client.log);
          IssuedFromStops(client.script, plan, 0, -1);
          return step, i;
        }
        Proceeds(client.script, plan, -1, i, ws[i].AsCall(), log0, before, client.log);
        i := i + 1;
      }
      assert plan[..i] == plan;
      o, accepted := Pass, |ws|;
    }

    // -------------------------------------------------------------------
    // Handlers

    /** `ConfigGet`. */
    method ConfigGet() returns (resp: Http.Response<ControllerConfig>)
      requires Valid()
      modifies client
      ensures Valid()
      ensures resp == ConfigGetEffect(client.script, cache).response
      ensures client.log == old(client.log) + ConfigGetEffect(client.script, cache).calls
    {
      var config := GetConfig();
      if config.Err? {
        return Http.Reject(Http.StatusInternalServerError, config.error);
      }
      resp := Http.Success(config.value);
    }

    /** `BatteryProfileGet`. */
    method BatteryProfileGet(now: int) returns (resp: Http.Response<BatteryProfile>)
      requires Valid()
      modifies this, client
      ensures Valid()
      ensures resp == BatteryProfileGetEffect(client.script, old(cache), now).response
      ensures client.log == old(client.log) + BatteryProfileGetEffect(client.script, old(cache), now).calls
      ensures cache == BatteryProfileGetEffect(client.script, old(cache), now).cache
    {
      BatteryProfileGetAgrees(client.script, cache, now);
      var config := GetCachedConfig(now);
      if config.Err? {
        return Http.Reject(Http.StatusInternalServerError, config.error);
      }
      resp := Http.Success(ProfileOf(config.value));
    }

    /** `ChargingParametersGet`. */
    method ChargingParametersGet(now: int) returns (resp: Http.Response<ChargingParameters>)
      requires Valid()
      modifies this, client
      ensures Valid()
      ensures resp == ChargingParametersGetEffect(client.script, old(cache), now).response
      ensures client.log == old(client.log) + ChargingParametersGetEffect(client.script, old(cache), now).calls
      ensures cache == ChargingParametersGetEffect(client.script, old(cache), now).cache
    {
      ChargingParametersGetAgrees(client.script, cache, now);
      var config := GetCachedConfig(now);
      if config.Err? {
        return Http.Reject(Http.StatusInternalServerError, config.error);
      }
      resp := Http.Success(ParametersOf(config.value));
    }

    /** `TimeGet`. */
    method TimeGet() returns (resp: Http.Response<ClockTime>)
      requires Valid()
      modifies client
      ensures Valid()
      ensures resp == TimeGetEffect(client.script, cache).response
      ensures client.log == old(client.log) + TimeGetEffect(client.script, cache).calls
    {
      var data := client.Perform(ReadHolding(0x9013, 3));
      if data.Failure? {
        return Http.Reject(Http.StatusInternalServerError, "Failed to read time from controller");
      }
      SizedReply(client.script, ClockRead);
      resp := Http.Success(TimeOf(data.bytes));
    }

    /** `TimePatch`. */
    method TimePatch(body: Result<ClockTime>) returns (resp: Http.Response<ClockTime>)
      requires Valid()
      modifies this, client
      ensures Valid()
      ensures resp == TimePatchEffect(client.script, old(cache), body).response
      ensures client.log == old(client.log) + TimePatchEffect(client.script, old(cache), body).calls
      ensures cache == TimePatchEffect(client.script, old(cache), body).cache
    {
      if body.Err? {
        assert client.log == old(client.log) + [];
        return Http.Reject(Http.StatusBadRequest, body.error);
      }
      var t := body.value;
      var write := WriteMultiple(0x9013, 3, TimeBytes(t));
      var written := client.Perform(write);
      if written.Failure? {
        return Http.Reject(Http.StatusBadRequest, written.reason);
      }
      InvalidateCache();
      var data := client.Perform(ReadHolding(0x9013, 3));
      AppendAssoc(old(client.log), [write], [ClockRead]);
      if data.Failure? {
        return Http.Reject(Http.StatusInternalServerError, "Failed to read time from controller");
      }
      SizedReply(client.script, ClockRead);
      resp := Http.Success(TimeOf(data.bytes));
    }

    /** `QueryPost`. */
    method QueryPost(body: Result<Query>) returns (resp: Http.Response<Query>)
      modifies client
      ensures resp == QueryPostEffect(client.script, cache, body).response
      ensures client.log == old(client.log) + QueryPostEffect(client.script, cache, body).calls
    {
      if body.Err? {
        assert client.log == old(client.log) + [];
        return Http.Reject(Http.StatusBadRequest, body.error);
      }
      var query := body.value;
      var address := QueryAddress(query.address);
      if address.Err? {
        assert client.log == old(client.log) + [];
        return Http.Reject(Http.StatusBadRequest, address.error);
      }
      var result: Reply;
      if query.register == 1 {
        result := client.Perform(ReadCoils(address.value, 1));
      } else if query.register == 2 {
        result := client.Perform(ReadDiscreteInputs(address.value, 1));
      } else if query.register == 3 {
        result := client.Perform(ReadHolding(address.value, 1));
      } else if query.register == 4 {
        result := client.Perform(ReadInput(address.value, 1));
      } else {
        assert client.log == old(client.log) + [];
        return Http.Reject(Http.StatusBadRequest, "unknown register");
      }
      if result.Failure? {
        return Http.Reject(Http.StatusInternalServerError, "failed to read register: " + result.reason);
      }
      if |result.bytes| < 2 {
        return Http.Reject(Http.StatusInternalServerError, "");
      }
      resp := Http.Success(query.(result := WordAt(result.bytes, 0)));
    }

    /** `ConfigPatch`. */
    method ConfigPatch(body: Result<ConfigRequest>, now: int) returns (resp: Http.Response<ControllerConfig>)
      requires Valid()
      modifies this, client
      ensures Valid()
      ensures resp == ConfigPatchEffect(client.script, old(cache), now, body, AsWritten).response
      ensures client.log == old(client.log) + ConfigPatchEffect(client.script, old(cache), now, body, AsWritten).calls
      ensures cache == ConfigPatchEffect(client.script, old(cache), now, body, AsWritten).cache
    {
      ConfigPatchAgrees(client.script, cache, now, body, AsWritten);
      if body.Err? {
        assert client.log == old(client.log) + [];
        return Http.Reject(Http.StatusBadRequest, body.error);
      }
      var config := body.value;
      var failure, userDefined := SettleTypeStep(config);
      if failure.Some? {
        return failure.value;
      }
      resp := ApplyConfig(config, userDefined, now, old(client.log), SettleType(client.script, old(cache), config).calls);
    }

    /** The battery type part of `ConfigPatch`. */
    method SettleTypeStep(config: ConfigRequest) returns (failure: Option<Http.Response<ControllerConfig>>, userDefined: bool)
      requires Sized(client.script)
      modifies this, client
      ensures failure == SettleType(client.script, old(cache), config).failure
      ensures userDefined == SettleType(client.script, old(cache), config).userDefined
      ensures client.log == old(client.log) + SettleType(client.script, old(cache), config).calls
      ensures cache == SettleType(client.script, old(cache), config).cache
    {
      if config.batteryType != "" {
        var w := TypeWrite(config.batteryType);
        var written := WriteSingleRegister(w);
        if written.Fail? {
          return Some(Http.Reject(Http.StatusBadRequest, written.error)), false;
        }
        InvalidateCache();
        return None, w.value == 4;
      }
      var data := client.Perform(ReadHolding(0x9000, 1));
      if data.Failure? {
        return Some(Http.Reject(Http.StatusInternalServerError, "Failed to read battery type")), false;
      }
      SizedReply(client.script, TypeRead);
      failure, userDefined := None, WordAt(data.bytes, 0) == 4;
    }

    /** The part of `ConfigPatch` after the battery type is settled. */
    method ApplyConfig(config: ConfigRequest, userDefined: bool, now: int, ghost prior: seq<Call>, ghost calls: seq<Call>)
      returns (resp: Http.Response<ControllerConfig>)
      requires Sized(client.script) && client.log == prior + calls
      modifies this, client
      ensures resp == ConfigPatchRest(client.script, old(cache), now, config, userDefined, calls, AsWritten).response
      ensures client.log == prior + ConfigPatchRest(client.script, old(cache), now, config, userDefined, calls, AsWritten).calls
      ensures cache == ConfigPatchRest(client.script, old(cache), now, config, userDefined, calls, AsWritten).cache
    {
      if userDefined {
        resp := ValidatedWriteStep(ConfigProposal(config), ConfigWrites(config), true, Whole,
          "Configuration updated but failed to read back", now, prior, calls);
      } else {
        resp := ReadBackStep(Whole, "Configuration updated but failed to read back", now, prior, calls);
      }
    }

    /** `getCachedConfig` as the last step of a handler. */
    method ReadBackStep<T>(view: ControllerConfig -> T, error: string, now: int, ghost prior: seq<Call>, ghost calls: seq<Call>)
      returns (resp: Http.Response<T>)
      requires Sized(client.script) && client.log == prior + calls
      modifies this, client
      ensures resp == ReadBack(client.script, old(cache), now, calls, view, error).response
      ensures client.log == prior + ReadBack(client.script, old(cache), now, calls, view, error).calls
      ensures cache == ReadBack(client.script, old(cache), now, calls, view, error).cache
    {
      var config := GetCachedConfig(now);
      AppendAssoc(prior, calls, CachedRead(client.script, old(cache), now).calls);
      if config.Err? {
        return Http.Reject(Http.StatusInternalServerError, error);
      }
      resp := Http.Success(view(config.value));
    }

    /** The guarded writes, the invalidation and the read back. A failed
        write returns its 400 first, so the cache is left as it was. */
    method WriteBackStep<T>(ws: seq<PlannedWrite>, always: bool, view: ControllerConfig -> T, error: string, now: int,
                            ghost prior: seq<Call>, ghost calls: seq<Call>)
      returns (resp: Http.Response<T>)
      requires Sized(client.script) && client.log == prior + calls
      modifies this, client
      ensures resp == WriteBack(client.script, old(cache), now, calls, ws, always, view, error, AsWritten).response
      ensures client.log == prior + WriteBack(client.script, old(cache), now, calls, ws, always, view, error, AsWritten).calls
      ensures cache == WriteBack(client.script, old(cache), now, calls, ws, always, view, error, AsWritten).cache
    {
      var written, accepted := WriteAll(ws);
      AppendAssoc(prior, calls, WriteRun(client.script, ws).calls);
      if written.Fail? {
        return Http.Reject(Http.StatusBadRequest, written.error);
      }
      resp := InvalidatedReadBackStep(always || accepted > 0, view, error, now, prior, calls + WriteRun(client.script, ws).calls);
    }

    /** The invalidation after a write block and the read back. */
    method InvalidatedReadBackStep<T>(invalidate: bool, view: ControllerConfig -> T, error: string, now: int,
                                      ghost prior: seq<Call>, ghost calls: seq<Call>)
      returns (resp: Http.Response<T>)
      requires Sized(client.script) && client.log == prior + calls
      modifies this, client
      ensures resp == ReadBack(client.script, if invalidate then None else old(cache), now, calls, view, error).response
      ensures client.log == prior + ReadBack(client.script, if invalidate then None else old(cache), now, calls, view, error).calls
      ensures cache == ReadBack(client.script, if invalidate then None else old(cache), now, calls, view, error).cache
    {
      if invalidate {
        InvalidateCache();
      }
      resp := ReadBackStep(view, error, now, prior, calls);
    }

    /** The validation against the cached configuration, then the writes. */
    method ValidatedWriteStep<T>(propose: ControllerConfig -> ControllerConfig, ws: seq<PlannedWrite>, always: bool,
                                 view: ControllerConfig -> T, error: string, now: int,
                                 ghost prior: seq<Call>, ghost calls: seq<Call>)
      returns (resp: Http.Response<T>)
      requires Sized(client.script) && client.log == prior + calls
      modifies this, client
      ensures resp == ValidatedWrite(client.script, old(cache), now, calls, propose, ws, always, view, error, AsWritten).response
      ensures client.log == prior + ValidatedWrite(client.script, old(cache), now, calls, propose, ws, always, view, error, AsWritten).calls
      ensures cache == ValidatedWrite(client.script, old(cache), now, calls, propose, ws, always, view, error, AsWritten).cache
    {
      ghost var cur := CachedRead(client.script, cache, now);
      var current := GetCachedConfig(now);
      AppendAssoc(prior, calls, cur.calls);
      if current.Err? {
        ValidatedWriteRefused(client.script, old(cache), now, calls, propose, ws, always, view, error, AsWritten);
        return Http.Reject(Http.StatusInternalServerError, "Failed to read current configuration");
      }
      ValidatedWriteProceeds(client.script, old(cache), now, calls, propose, ws, always, view, error, AsWritten);
      resp := CheckedWriteStep(propose(current.value), ws, always, view, error, now, prior, calls + cur.calls);
    }

    /** `validateVoltageParameters`, then the writes. */
    method CheckedWriteStep<T>(proposed: ControllerConfig, ws: seq<PlannedWrite>, always: bool,
                               view: ControllerConfig -> T, error: string, now: int,
                               ghost prior: seq<Call>, ghost calls: seq<Call>)
      returns (resp: Http.Response<T>)
      requires Sized(client.script) && client.log == prior + calls
      modifies this, client
      ensures resp == CheckedWrite(client.script, old(cache), now, calls, proposed, ws, always, view, error, AsWritten).response
      ensures client.log == prior + CheckedWrite(client.script, old(cache), now, calls, proposed, ws, always, view, error, AsWritten).calls
      ensures cache == CheckedWrite(client.script, old(cache), now, calls, proposed, ws, always, view, error, AsWritten).cache
    {
      var valid := ValidateVoltageParameters(proposed);
      if valid.Fail? {
        return Http.Reject(Http.StatusBadRequest, valid.error.Message(proposed));
      }
      resp := WriteBackStep(ws, always, view, error, now, prior, calls);
    }

    /** `BatteryProfilePatch`. */
    method BatteryProfilePatch(body: Result<ProfileRequest>, now: int) returns (resp: Http.Response<BatteryProfile>)
      requires Valid()
      modifies this, client
      ensures Valid()
      ensures resp == BatteryProfilePatchEffect(client.script, old(cache), now, body, AsWritten).response
      ensures client.log == old(client.log) + BatteryProfilePatchEffect(client.script, old(cache), now, body, AsWritten).calls
      ensures cache == BatteryProfilePatchEffect(client.script, old(cache), now, body, AsWritten).cache
    {
      BatteryProfilePatchAgrees(client.script, cache, now, body, AsWritten);
      assert client.log == old(client.log) + [];
      if body.Err? {
        return Http.Reject(Http.StatusBadRequest, body.error);
      }
      resp := WriteBackStep(ProfileWrites(body.value), false, ProfileOf, "Profile updated but failed to read back", now,
        old(client.log), []);
    }

    /** `ChargingParametersPatch`. */
    method ChargingParametersPatch(body: Result<ChargingRequest>, now: int) returns (resp: Http.Response<ChargingParameters>)
      requires Valid()
      modifies this, client
      ensures Valid()
      ensures resp == ChargingPatchEffect(client.script, old(cache), now, body, AsWritten).response
      ensures client.log == old(client.log) + ChargingPatchEffect(client.script, old(cache), now, body, AsWritten).calls
      ensures cache == ChargingPatchEffect(client.script, old(cache), now, body, AsWritten).cache
    {
      ChargingPatchAgrees(client.script, cache, now, body, AsWritten);
      var data := client.Perform(ReadHolding(0x9000, 1));
      if data.Failure? {
        return Http.Reject(Http.StatusInternalServerError, "Failed to read battery type");
      }
      SizedReply(client.script, TypeRead);
      assert WordAt(data.bytes, 0) == TypeCode(client.script);
      if WordAt(data.bytes, 0) != 4 {
        return Http.Reject(Http.StatusBadRequest, "Charging parameters can only be modified when battery type is 'userDefined'");
      }
      if body.Err? {
        return Http.Reject(Http.StatusBadRequest, body.error);
      }
      var request := body.value;
      ChargingPatchUnfolds(client.script, cache, now, body, AsWritten);
      resp := ValidatedWriteStep(ChargingProposal(request), ChargingWrites(request), false, ParametersOf,
        "Parameters updated but failed to read back", now, old(client.log), [TypeRead]);
    }
  }
}
