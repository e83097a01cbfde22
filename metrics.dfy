/** The mapping of a collected status to named, unit-tagged metrics
    (internal/controllers/epever/metrics.go). */
module Metrics {
  import opened Wrappers
  import opened Values
  import Collection
  import Text

  /** `Metric`: the value keeps the Go type of the status field it comes from. */
  datatype Metric = Metric(name: string, value: Value, unit: string, timestamp: int)

  /** The names of the metrics, in the order they are emitted. */
  const MetricNames: seq<string> := [
    "array-voltage", "array-current", "array-power", "charging-current", "charging-power", "battery-voltage",
    "battery-soc", "battery-temp", "device-temp", "energy-generated-daily", "charging-status", "collection-time"
  ]

  /** `ConvertStatusToMetrics`: nothing for a missing status, otherwise the
      twelve metrics, each stamped with the collection's time stamp. */
  function ConvertStatusToMetrics(status: Option<Collection.Status>): (ms: seq<Metric>)
    ensures status.None? ==> ms == []
    ensures status.Some? ==> |ms| == |MetricNames|
    ensures status.Some? ==> forall i | 0 <= i < |ms| ::
      ms[i].name == MetricNames[i] && ms[i].timestamp == status.value.timestamp
  {
    if status.None? then []
    else
      var s := status.value;
      var t := s.timestamp;
      [
        Metric("array-voltage", Float32(s.arrayVoltage), "volts", t),
        Metric("array-current", Float32(s.arrayCurrent), "amperes", t),
        Metric("array-power", Float32(s.arrayPower), "watts", t),
        Metric("charging-current", Float32(s.chargingCurrent), "amperes", t),
        Metric("charging-power", Float32(s.chargingPower), "watts", t),
        Metric("battery-voltage", Float32(s.batteryVoltage), "volts", t),
        Metric("battery-soc", Int32(s.batterySoc), "percent", t),
        Metric("battery-temp", Float32(s.batteryTemp), "celsius", t),
        Metric("device-temp", Float32(s.deviceTemp), "celsius", t),
        Metric("energy-generated-daily", Float32(s.energyGeneratedDaily), "kilowatt-hours", t),
        Metric("charging-status", Int32(s.chargingStatus), "code", t),
        Metric("collection-time", Float64(s.collectionTime), "seconds", t)
      ]
  }

  /** The status field a metric name stands for, with the Go type of that
      field: `ControllerStatus` holds float32 quantities, int32 codes and a
      float64 collection time. */
  function FieldOf(s: Collection.Status, name: string): Option<Value>
  {
    match name
    case "array-voltage" => Some(Float32(s.arrayVoltage))
    case "array-current" => Some(Float32(s.arrayCurrent))
    case "array-power" => Some(Float32(s.arrayPower))
    case "charging-current" => Some(Float32(s.chargingCurrent))
    case "charging-power" => Some(Float32(s.chargingPower))
    case "battery-voltage" => Some(Float32(s.batteryVoltage))
    case "battery-soc" => Some(Int32(s.batterySoc))
    case "battery-temp" => Some(Float32(s.batteryTemp))
    case "device-temp" => Some(Float32(s.deviceTemp))
    case "energy-generated-daily" => Some(Float32(s.energyGeneratedDaily))
    case "charging-status" => Some(Int32(s.chargingStatus))
    case "collection-time" => Some(Float64(s.collectionTime))
    case _ => None
  }

  /** The physical quantity a metric measures, and the unit reported for it. */
  datatype Quantity = Voltage | Current | Power | Charge | Temperature | Energy | Code | Duration
  {
    function Unit(): string
    {
      match this
      case Voltage => "volts"
      case Current => "amperes"
      case Power => "watts"
      case Charge => "percent"
      case Temperature => "celsius"
      case Energy => "kilowatt-hours"
      case Code => "code"
      case Duration => "seconds"
    }
  }

  function QuantityOf(name: string): Option<Quantity>
  {
    match name
    case "array-voltage" => Some(Voltage)
    case "array-current" => Some(Current)
    case "array-power" => Some(Power)
    case "charging-current" => Some(Current)
    case "charging-power" => Some(Power)
    case "battery-voltage" => Some(Voltage)
    case "battery-soc" => Some(Charge)
    case "battery-temp" => Some(Temperature)
    case "device-temp" => Some(Temperature)
    case "energy-generated-daily" => Some(Energy)
    case "charging-status" => Some(Code)
    case "collection-time" => Some(Duration)
    case _ => None
  }

  /** Metric `m` is the field of `s` its name stands for, in the unit of the
      quantity it measures. */
  predicate Carries(s: Collection.Status, m: Metric)
  {
    FieldOf(s, m.name) == Some(m.value) && QuantityOf(m.name).Some? && m.unit == QuantityOf(m.name).value.Unit()
  }

  lemma MetricsCarryFields(s: Collection.Status)
    ensures forall m | m in ConvertStatusToMetrics(Some(s)) :: Carries(s, m)
  {
    var ms := ConvertStatusToMetrics(Some(s));
    forall i | 0 <= i < |ms|
      ensures Carries(s, ms[i])
    {
      if i < 6 {
        CarriesArray(s, ms);
      } else {
        CarriesRest(s, ms);
      }
    }
  }

  lemma CarriesArray(s: Collection.Status, ms: seq<Metric>)
    requires ms == ConvertStatusToMetrics(Some(s))
    ensures forall i | 0 <= i < 6 :: Carries(s, ms[i])
  {
    assert Carries(s, ms[0]) && Carries(s, ms[1]) && Carries(s, ms[2]);
    assert Carries(s, ms[3]) && Carries(s, ms[4]) && Carries(s, ms[5]);
  }

  lemma CarriesRest(s: Collection.Status, ms: seq<Metric>)
    requires ms == ConvertStatusToMetrics(Some(s))
    ensures forall i | 6 <= i < 12 :: Carries(s, ms[i])
  {
    assert Carries(s, ms[6]) && Carries(s, ms[7]) && Carries(s, ms[8]);
    assert Carries(s, ms[9]) && Carries(s, ms[10]) && Carries(s, ms[11]);
  }

  /** No two metrics share a name. */
  lemma NamesDistinct()
    ensures forall i, j | 0 <= i < j < |MetricNames| :: MetricNames[i] != MetricNames[j]
  {
  }

  /** The battery's maximum and minimum voltage of the day are collected
      but play no part in the metrics. */
  lemma ExtremesNotEmitted(s: Collection.Status, maxVoltage: real, minVoltage: real)
    ensures ConvertStatusToMetrics(Some(s.(batteryMaxVoltage := maxVoltage, batteryMinVoltage := minVoltage))) ==
      ConvertStatusToMetrics(Some(s))
  {
  }

  /** A name in lower-case kebab case: lower-case letters and hyphens,
      starting and ending with a letter. */
  predicate Kebab(name: string)
  {
    name != [] && name[0] != '-' && name[|name| - 1] != '-' &&
    forall c | c in name :: 'a' <= c <= 'z' || c == '-'
  }

  lemma NamesAreKebab()
    ensures forall n | n in MetricNames :: Kebab(n) && '/' !in n
  {
    ArrayNamesKebab();
    BatteryNamesKebab();
    OtherNamesKebab();
  }

  lemma ArrayNamesKebab()
    ensures Kebab(MetricNames[0]) && Kebab(MetricNames[1]) && Kebab(MetricNames[2]) && Kebab(MetricNames[3])
  {
  }

  lemma BatteryNamesKebab()
    ensures Kebab(MetricNames[4]) && Kebab(MetricNames[5]) && Kebab(MetricNames[6]) && Kebab(MetricNames[7])
  {
  }

  lemma OtherNamesKebab()
    ensures Kebab(MetricNames[8]) && Kebab(MetricNames[9]) && Kebab(MetricNames[10]) && Kebab(MetricNames[11])
  {
  }

  /** The topic `{device}/{controller}/{name}` of a metric splits back into
      its three parts when the first two hold no slash. */
  lemma TopicsSplit(s: Collection.Status, device: string, controller: string)
    requires '/' !in device && '/' !in controller
    ensures forall m | m in ConvertStatusToMetrics(Some(s)) ::
      Text.Split(device + "/" + controller + "/" + m.name, '/') == [device, controller, m.name]
  {
    NamesAreKebab();
    forall m | m in ConvertStatusToMetrics(Some(s))
      ensures Text.Split(device + "/" + controller + "/" + m.name, '/') == [device, controller, m.name]
    {
      Text.SplitThree(device, controller, m.name, '/');
    }
  }
}
