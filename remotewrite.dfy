/** The Prometheus remote-write publisher (internal/remotewrite/publisher.go):
    topic parsing, the batch buffer with its flush rule, and the grouping of
    buffered metrics into time series. The protobuf encoding, Snappy
    compression and the HTTP request are outside the model: a flush records
    the write request it hands to the sender, and whether the protobuf
    encoder accepts a request is the function `marshals`. */
module RemoteWrite {
  import opened Wrappers
  import opened Values
  import Text
  import RemoteWriteConfig

  /** The decoded JSON payload of one metric message (`MetricPayload`). */
  datatype Payload = Payload(value: Value, unit: string, timestamp: int)

  /** `metricData`: one parsed metric waiting in the batch. */
  datatype MetricData = MetricData(metricName: string, labels: map<string, string>, value: real, timestamp: int)

  datatype Label = Label(name: string, value: string)
  datatype Sample = Sample(value: real, timestamp: int)
  datatype TimeSeries = TimeSeries(labels: seq<Label>, samples: seq<Sample>)

  /** A batch is sent once it holds this many metrics (one EPEVER collection). */
  const BatchSize: nat := 12
  /** `batchTimeout`, in nanoseconds. */
  const BatchTimeout: int := 5 * RemoteWriteConfig.Second
  const NameLabel: string := "__name__"

  // ---------------------------------------------------------------------
  // Parsing

  /** `toFloat64`: the numeric kinds convert to their value; every other
      kind is refused with its type name. */
  function ToFloat64(v: Value): (r: Result<real>)
    ensures r.Ok? <==> v.IsNumeric()
    ensures r.Err? ==> r.error == "unsupported value type: " + v.TypeName()
    ensures r.Ok? && (v.Float64? || v.Float32?) ==> r.value == v.f
    ensures r.Ok? && (v.Int? || v.Int32? || v.Int64?) ==> r.value == v.i as real
    ensures r.Ok? && (v.Uint? || v.Uint32? || v.Uint64?) ==> r.value == v.u as real
  {
    match v
    case Float64(f) => Ok(f)
    case Float32(f) => Ok(f)
    case Int(i) => Ok(i as real)
    case Int32(i) => Ok(i as real)
    case Int64(i) => Ok(i as real)
    case Uint(u) => Ok(u as real)
    case Uint32(u) => Ok(u as real)
    case Uint64(u) => Ok(u as real)
    case _ => Err("unsupported value type: " + v.TypeName())
  }

  /** kebab-case to snake_case. */
  function Snake(name: string): (s: string)
    ensures |s| == |name| && '-' !in s
  {
    Text.ReplaceChar(name, '-', '_')
  }

  /** The labels of a metric: the device and controller, and the unit when
      there is one. */
  function LabelMap(deviceId: string, controller: string, unit: string): (labels: map<string, string>)
    ensures labels.Keys == {"device_id", "controller"} + (if unit != [] then {"unit"} else {})
    ensures labels["device_id"] == deviceId && labels["controller"] == controller
    ensures unit != [] ==> labels["unit"] == unit
  {
    var base := map["device_id" := deviceId, "controller" := controller];
    if unit != [] then base["unit" := unit] else base
  }

  /** `parseMetric`: the topic suffix must split on "/" into three parts;
      then the payload must decode and its value convert. `decode` is
      `json.Unmarshal` into a `MetricPayload`. */
  function ParseMetric(topicSuffix: string, payload: string, decode: string -> Result<Payload>): (r: Result<MetricData>)
    ensures |Text.Split(topicSuffix, '/')| != 3 ==>
      r == Err("invalid topic format, expected 3 parts: " + topicSuffix)
    ensures r.Ok? <==>
      |Text.Split(topicSuffix, '/')| == 3 && decode(payload).Ok? && decode(payload).value.value.IsNumeric()
    ensures |Text.Split(topicSuffix, '/')| == 3 && decode(payload).Err? ==>
      r == Err("failed to unmarshal payload: " + decode(payload).error)
    ensures r.Ok? ==> var parts := Text.Split(topicSuffix, '/'); var p := decode(payload).value;
      r.value.metricName == parts[1] + "_" + Snake(parts[2]) &&
      r.value.labels == LabelMap(parts[0], parts[1], p.unit) &&
      Ok(r.value.value) == ToFloat64(p.value) && r.value.timestamp == p.timestamp
  {
    var parts := Text.Split(topicSuffix, '/');
    if |parts| != 3 then Err("invalid topic format, expected 3 parts: " + topicSuffix)
    else
      var fullName := parts[1] + "_" + Snake(parts[2]);
      var p := decode(payload);
      if p.Err? then Err("failed to unmarshal payload: " + p.error)
      else
        var v := ToFloat64(p.value.value);
        if v.Err? then Err("failed to convert value to float64: " + v.error)
        else Ok(MetricData(fullName, LabelMap(parts[0], parts[1], p.value.unit), v.value, p.value.timestamp))
  }

  /** A topic `{device}/{controller}/{name}` whose parts hold no slash parses
      to `{controller}_{snake name}` labelled with device and controller. */
  lemma ParseTopic(device: string, controller: string, name: string, payload: string, decode: string -> Result<Payload>)
    requires '/' !in device && '/' !in controller && '/' !in name
    requires decode(payload).Ok? && decode(payload).value.value.IsNumeric()
    ensures var p := decode(payload).value;
      ParseMetric(device + "/" + controller + "/" + name, payload, decode) ==
      Ok(MetricData(controller + "_" + Snake(name), LabelMap(device, controller, p.unit),
                    ToFloat64(p.value).value, p.timestamp))
  {
    Text.SplitThree(device, controller, name, '/');
  }

  /** The controller's status message goes out under the bare topic suffix
      "solar", which is not a three-part topic: it never reaches the batch. */
  lemma StatusTopicRejected(payload: string, decode: string -> Result<Payload>)
    ensures ParseMetric("solar", payload, decode) == Err("invalid topic format, expected 3 parts: solar")
  {
    Text.SplitOfFree("solar", '/');
  }

  // ---------------------------------------------------------------------
  // Series

  /** What identifies a series: the metric name and the whole label set. */
  datatype SeriesId = SeriesId(name: string, labels: map<string, string>)

  function IdOf(m: MetricData): SeriesId { SeriesId(m.metricName, m.labels) }

  /** The sample a metric contributes; remote write counts milliseconds. */
  function SampleOf(m: MetricData): Sample { Sample(m.value, m.timestamp * 1000) }

  /** The series of a batch, in order of first appearance. */
  function Ids(ms: seq<MetricData>): (ids: seq<SeriesId>)
    ensures forall j, k | 0 <= j < k < |ids| :: ids[j] != ids[k]
    ensures forall i | 0 <= i < |ms| :: IdOf(ms[i]) in ids
    decreases |ms|
  {
    if ms == [] then []
    else
      var init := Ids(ms[..|ms| - 1]);
      assert forall i | 0 <= i < |ms| - 1 :: ms[i] == ms[..|ms| - 1][i];
      var id := IdOf(ms[|ms| - 1]);
      if id in init then init else init + [id]
  }

  /** The samples of series `id`, in the order of the batch. */
  function SamplesOf(ms: seq<MetricData>, id: SeriesId): seq<Sample>
    decreases |ms|
  {
    if ms == [] then []
    else SamplesOf(ms[..|ms| - 1], id) + (if IdOf(ms[|ms| - 1]) == id then [SampleOf(ms[|ms| - 1])] else [])
  }

  /** `labels[0]` names the metric; the rest are the label set, one entry per
      key, in some order. */
  predicate LabelsFor(labels: seq<Label>, id: SeriesId)
  {
    |labels| == |id.labels| + 1 && labels[0] == Label(NameLabel, id.name) &&
    (forall k | k in id.labels :: Label(k, id.labels[k]) in labels[1..]) &&
    (forall j | 1 <= j < |labels| :: labels[j].name in id.labels && id.labels[labels[j].name] == labels[j].value)
  }

  predicate SeriesFor(t: TimeSeries, id: SeriesId, ms: seq<MetricData>)
  {
    LabelsFor(t.labels, id) && t.samples == SamplesOf(ms, id)
  }

  /** `series` is the time-series form of batch `ms`: one series per name
      and label set, each holding the samples of exactly its metrics. */
  predicate Represents(series: seq<TimeSeries>, ms: seq<MetricData>)
  {
    |series| == |Ids(ms)| && forall j | 0 <= j < |series| :: SeriesFor(series[j], Ids(ms)[j], ms)
  }

  lemma AppendMetric(ms: seq<MetricData>, m: MetricData)
    ensures Ids(ms + [m]) == if IdOf(m) in Ids(ms) then Ids(ms) else Ids(ms) + [IdOf(m)]
    ensures forall id :: SamplesOf(ms + [m], id) == SamplesOf(ms, id) + (if IdOf(m) == id then [SampleOf(m)] else [])
  {
    assert (ms + [m])[..|ms|] == ms;
  }

  /** A series that does not occur in a batch has no samples in it. */
  lemma {:induction false} AbsentHasNoSamples(ms: seq<MetricData>, id: SeriesId)
    requires id !in Ids(ms)
    ensures SamplesOf(ms, id) == []
    decreases |ms|
  {
    if ms != [] {
      var init := ms[..|ms| - 1];
      assert IdOf(ms[|ms| - 1]) != id && id !in Ids(init);
      AbsentHasNoSamples(init, id);
    }
  }

  /** Number of samples over all series. */
  function SampleTotal(series: seq<TimeSeries>): nat
    decreases |series|
  {
    if series == [] then 0 else SampleTotal(series[..|series| - 1]) + |series[|series| - 1].samples|
  }

  /** Number of samples of `ms` over the series `ids`. */
  function CountOver(ms: seq<MetricData>, ids: seq<SeriesId>): nat
    decreases |ids|
  {
    if ids == [] then 0 else CountOver(ms, ids[..|ids| - 1]) + |SamplesOf(ms, ids[|ids| - 1])|
  }

  /** How many entries of `ids` are `id`. */
  function Occurrences(ids: seq<SeriesId>, id: SeriesId): nat
    decreases |ids|
  {
    if ids == [] then 0 else Occurrences(ids[..|ids| - 1], id) + (if ids[|ids| - 1] == id then 1 else 0)
  }

  lemma {:induction false} OccurrencesDistinct(ids: seq<SeriesId>, id: SeriesId)
    requires forall j, k | 0 <= j < k < |ids| :: ids[j] != ids[k]
    ensures Occurrences(ids, id) == if id in ids then 1 else 0
    decreases |ids|
  {
    if ids != [] {
      var init := ids[..|ids| - 1];
      assert ids == init + [ids[|ids| - 1]];
      OccurrencesDistinct(init, id);
      if ids[|ids| - 1] == id {
        assert forall j | 0 <= j < |init| :: init[j] != id;
      }
    }
  }

  /** One more metric adds one sample to each series entry that is its own. */
  lemma {:induction false} CountOverAppend(ms: seq<MetricData>, m: MetricData, ids: seq<SeriesId>)
    ensures CountOver(ms + [m], ids) == CountOver(ms, ids) + Occurrences(ids, IdOf(m))
    decreases |ids|
  {
    AppendMetric(ms, m);
    if ids != [] {
      CountOverAppend(ms, m, ids[..|ids| - 1]);
    }
  }

  lemma {:induction false} CountOverSnoc(ms: seq<MetricData>, ids: seq<SeriesId>, id: SeriesId)
    ensures CountOver(ms, ids + [id]) == CountOver(ms, ids) + |SamplesOf(ms, id)|
  {
    assert (ids + [id])[..|ids|] == ids;
  }

  /** Every metric of a batch lands in exactly one of its series. */
  lemma {:induction false} CountOverIds(ms: seq<MetricData>)
    ensures CountOver(ms, Ids(ms)) == |ms|
    decreases |ms|
  {
    if ms != [] {
      var init := ms[..|ms| - 1];
      var m := ms[|ms| - 1];
      var id := IdOf(m);
      assert ms == init + [m];
      CountOverIds(init);
      CountOverAppend(init, m, Ids(init));
      OccurrencesDistinct(Ids(init), id);
      assert CountOver(ms, Ids(init)) == |init| + (if id in Ids(init) then 1 else 0);
      if id !in Ids(init) {
        assert Ids(ms) == Ids(init) + [id];
        AbsentHasNoSamples(init, id);
        assert SamplesOf(ms, id) == SamplesOf(init, id) + [SampleOf(m)];
        CountOverSnoc(ms, Ids(init), id);
      } else {
        assert Ids(ms) == Ids(init);
      }
    }
  }

  lemma {:induction false} SampleTotalIs(series: seq<TimeSeries>, ms: seq<MetricData>, ids: seq<SeriesId>)
    requires |series| == |ids| && forall j | 0 <= j < |series| :: series[j].samples == SamplesOf(ms, ids[j])
    ensures SampleTotal(series) == CountOver(ms, ids)
    decreases |series|
  {
    if series != [] {
      SampleTotalIs(series[..|series| - 1], ms, ids[..|ids| - 1]);
    }
  }

  /** The series of a batch hold exactly as many samples as it has metrics. */
  lemma RepresentsAllSamples(series: seq<TimeSeries>, ms: seq<MetricData>)
    requires Represents(series, ms)
    ensures SampleTotal(series) == |ms|
  {
    SampleTotalIs(series, ms, Ids(ms));
    CountOverIds(ms);
  }

  /** The series of metric `i` is the only one with its name and labels, and
      it holds that metric's sample. */
  lemma {:induction false} MetricInItsSeries(series: seq<TimeSeries>, ms: seq<MetricData>, i: nat)
    requires Represents(series, ms) && i < |ms|
    ensures exists j | 0 <= j < |series| :: Ids(ms)[j] == IdOf(ms[i]) && SampleOf(ms[i]) in series[j].samples
    ensures forall j, k | 0 <= j < k < |series| :: Ids(ms)[j] != Ids(ms)[k]
    decreases |ms|
  {
    var ids := Ids(ms);
    var j :| 0 <= j < |ids| && ids[j] == IdOf(ms[i]);
    SampleIn(ms, i);
    assert SampleOf(ms[i]) in series[j].samples;
  }

  lemma {:induction false} SampleIn(ms: seq<MetricData>, i: nat)
    requires i < |ms|
    ensures SampleOf(ms[i]) in SamplesOf(ms, IdOf(ms[i]))
    decreases |ms|
  {
    var init := ms[..|ms| - 1];
    assert ms == init + [ms[|ms| - 1]];
    AppendMetric(init, ms[|ms| - 1]);
    if i < |ms| - 1 {
      assert init[i] == ms[i];
      SampleIn(init, i);
    }
  }

  /** The label list of a new series: the name label, then every label of
      the map in the order Go's map iteration happens to take. */
  method LabelsOf(metricName: string, labels: map<string, string>) returns (ls: seq<Label>)
    ensures LabelsFor(ls, SeriesId(metricName, labels))
  {
    ls := [Label(NameLabel, metricName)];
    var remaining := labels.Keys;
    while remaining != {}
      invariant remaining <= labels.Keys
      invariant |ls| + |remaining| == |labels| + 1
      invariant ls[0] == Label(NameLabel, metricName)
      invariant forall k | k in labels && k !in remaining :: Label(k, labels[k]) in ls[1..]
      invariant forall j | 1 <= j < |ls| :: ls[j].name in labels && ls[j].name !in remaining && labels[ls[j].name] == ls[j].value
      decreases |remaining|
    {
      var k :| k in remaining;
      ghost var before := ls;
      ls := ls + [Label(k, labels[k])];
      assert ls[1..] == before[1..] + [Label(k, labels[k])];
      remaining := remaining - {k};
    }
  }

  /** The loop state of `metricsToTimeSeries` after the batch prefix `ms`:
      the series of `ms` so far, and the map from each to its place. */
  predicate Partial(result: seq<TimeSeries>, seriesMap: map<SeriesId, nat>, ms: seq<MetricData>)
  {
    |result| == |Ids(ms)| &&
    (forall id | id in seriesMap :: seriesMap[id] < |result| && Ids(ms)[seriesMap[id]] == id) &&
    (forall j | 0 <= j < |result| :: Ids(ms)[j] in seriesMap) &&
    (forall j | 0 <= j < |result| :: SeriesFor(result[j], Ids(ms)[j], ms))
  }

  /** A metric of a series already seen adds its sample to that series. */
  lemma KnownSeriesStep(result: seq<TimeSeries>, seriesMap: map<SeriesId, nat>, ms: seq<MetricData>, m: MetricData)
    requires Partial(result, seriesMap, ms) && IdOf(m) in seriesMap
    ensures var j := seriesMap[IdOf(m)];
      Partial(result[j := result[j].(samples := result[j].samples + [SampleOf(m)])], seriesMap, ms + [m])
  {
    var id := IdOf(m);
    var j := seriesMap[id];
    var ids := Ids(ms);
    var result' := result[j := result[j].(samples := result[j].samples + [SampleOf(m)])];
    AppendMetric(ms, m);
    assert ids[j] == id && Ids(ms + [m]) == ids;
    forall k | 0 <= k < |result'|
      ensures SeriesFor(result'[k], ids[k], ms + [m])
    {
      assert SeriesFor(result[k], ids[k], ms);
      if k != j {
        assert ids[k] != id;
        assert SamplesOf(ms + [m], ids[k]) == SamplesOf(ms, ids[k]) + [];
      }
    }
  }

  /** A metric of a new series opens it, with its labels and its sample. */
  lemma NewSeriesStep(result: seq<TimeSeries>, seriesMap: map<SeriesId, nat>, ms: seq<MetricData>, m: MetricData,
                      labels: seq<Label>)
    requires Partial(result, seriesMap, ms) && IdOf(m) !in seriesMap && LabelsFor(labels, IdOf(m))
    ensures Partial(result + [TimeSeries(labels, [SampleOf(m)])], seriesMap[IdOf(m) := |result|], ms + [m])
  {
    NewSeriesIndex(result, seriesMap, ms, m);
    NewSeriesContents(result, seriesMap, ms, m, labels);
  }

  lemma NewSeriesIndex(result: seq<TimeSeries>, seriesMap: map<SeriesId, nat>, ms: seq<MetricData>, m: MetricData)
    requires Partial(result, seriesMap, ms) && IdOf(m) !in seriesMap
    ensures var ids := Ids(ms + [m]); var seriesMap' := seriesMap[IdOf(m) := |result|];
      |ids| == |result| + 1 &&
      (forall x | x in seriesMap' :: seriesMap'[x] < |result| + 1 && ids[seriesMap'[x]] == x) &&
      (forall j | 0 <= j < |result| + 1 :: ids[j] in seriesMap')
  {
    var id := IdOf(m);
    AppendMetric(ms, m);
    var ids := Ids(ms + [m]);
    var seriesMap' := seriesMap[id := |result|];
    assert ids == Ids(ms) + [id];
    forall x | x in seriesMap'
      ensures seriesMap'[x] < |result| + 1 && ids[seriesMap'[x]] == x
    {
      if x != id {
        assert seriesMap'[x] == seriesMap[x];
      }
    }
  }

  lemma NewSeriesContents(result: seq<TimeSeries>, seriesMap: map<SeriesId, nat>, ms: seq<MetricData>, m: MetricData,
                          labels: seq<Label>)
    requires Partial(result, seriesMap, ms) && IdOf(m) !in seriesMap && LabelsFor(labels, IdOf(m))
    ensures var ids := Ids(ms + [m]); var result' := result + [TimeSeries(labels, [SampleOf(m)])];
      forall j | 0 <= j < |result'| :: SeriesFor(result'[j], ids[j], ms + [m])
  {
    var id := IdOf(m);
    AppendMetric(ms, m);
    AbsentHasNoSamples(ms, id);
    var ids := Ids(ms + [m]);
    var result' := result + [TimeSeries(labels, [SampleOf(m)])];
    assert ids == Ids(ms) + [id];
    forall j | 0 <= j < |result'|
      ensures SeriesFor(result'[j], ids[j], ms + [m])
    {
      if j < |result| {
        assert ids[j] == Ids(ms)[j] && ids[j] in seriesMap;
        assert result'[j] == result[j];
        assert SamplesOf(ms + [m], ids[j]) == SamplesOf(ms, ids[j]) + [];
      } else {
        assert SamplesOf(ms + [m], id) == [] + [SampleOf(m)];
      }
    }
  }

  /** `metricsToTimeSeries`, grouping by series identity: a map from each
      series seen so far to its place in the result. */
  method MetricsToTimeSeries(metrics: seq<MetricData>) returns (result: seq<TimeSeries>)
    ensures Represents(result, metrics)
  {
    var seriesMap: map<SeriesId, nat> := map[];
    result := [];
    for i := 0 to |metrics|
      invariant Partial(result, seriesMap, metrics[..i])
    {
      var m := metrics[i];
      var id := SeriesId(m.metricName, m.labels);
      var sample := Sample(m.value, m.timestamp * 1000);
      assert metrics[..i + 1] == metrics[..i] + [m];
      if id !in seriesMap {
        // a new series: its labels, then its first sample
        var labels := LabelsOf(m.metricName, m.labels);
        NewSeriesStep(result, seriesMap, metrics[..i], m, labels);
        seriesMap := seriesMap[id := |result|];
        result := result + [TimeSeries(labels, [sample])];
      } else {
        KnownSeriesStep(result, seriesMap, metrics[..i], m);
        var j := seriesMap[id];
        result := result[j := result[j].(samples := result[j].samples + [sample])];
      }
    }
    assert metrics[..|metrics|] == metrics;
  }

  // ---------------------------------------------------------------------
  // The series key as written

  /** `order` lists every key of `labels` once. */
  predicate Enumerates(order: seq<string>, labels: map<string, string>)
  {
    (forall k | k in order :: k in labels) && (forall k | k in labels :: k in order) &&
    (forall j, k | 0 <= j < k < |order| :: order[j] != order[k])
  }

  /** The `key=value` parts of `labels`, visited in `order`. */
  function Pairs(labels: map<string, string>, order: seq<string>): (ps: seq<string>)
    requires forall k | k in order :: k in labels
    ensures |ps| == |order|
    decreases |order|
  {
    if order == [] then []
    else
      var k := order[|order| - 1];
      Pairs(labels, order[..|order| - 1]) + [k + "=" + labels[k]]
  }

  /** The key `seriesKey` builds when Go's map iteration visits the labels
      in `order`. */
  function KeyFor(metricName: string, labels: map<string, string>, order: seq<string>): string
    requires forall k | k in order :: k in labels
  {
    Text.Join([metricName] + Pairs(labels, order), ',')
  }

  /** The loop state of `SeriesKey`: `order` lists, once each, the keys
      already visited, and `remaining` holds the others. */
  predicate Visiting(order: seq<string>, remaining: set<string>, labels: map<string, string>)
  {
    remaining <= labels.Keys &&
    (forall k | k in order :: k in labels && k !in remaining) &&
    (forall k | k in labels && k !in remaining :: k in order) &&
    (forall j, k | 0 <= j < k < |order| :: order[j] != order[k])
  }

  lemma VisitNext(order: seq<string>, remaining: set<string>, labels: map<string, string>, k: string)
    requires Visiting(order, remaining, labels) && k in remaining
    ensures Visiting(order + [k], remaining - {k}, labels)
    ensures Pairs(labels, order + [k]) == Pairs(labels, order) + [k + "=" + labels[k]]
  {
    assert (order + [k])[..|order|] == order;
  }

  /** `seriesKey` as written: the name, then `key=value` for each label in
      whatever order the map iteration takes, joined by commas. */
  method SeriesKey(metricName: string, labels: map<string, string>) returns (key: string, ghost order: seq<string>)
    ensures Enumerates(order, labels)
    ensures key == KeyFor(metricName, labels, order)
  {
    var parts := [metricName];
    var remaining := labels.Keys;
    order := [];
    while remaining != {}
      invariant Visiting(order, remaining, labels)
      invariant parts == [metricName] + Pairs(labels, order)
      decreases |remaining|
    {
      var k :| k in remaining;
      VisitNext(order, remaining, labels, k);
      parts := parts + [k + "=" + labels[k]];
      order := order + [k];
      remaining := remaining - {k};
    }
    key := Text.Join(parts, ',');
  }

  /** The key of one label set depends on the iteration order: the two
      orders of the device and controller labels give two keys, so two
      metrics with the same name and labels can be filed as two series. */
  lemma SeriesKeyDependsOnOrder()
    ensures var labels := map["device_id" := "d", "controller" := "c"];
      Enumerates(["device_id", "controller"], labels) && Enumerates(["controller", "device_id"], labels) &&
      KeyFor("n", labels, ["device_id", "controller"]) != KeyFor("n", labels, ["controller", "device_id"])
  {
    var labels := map["device_id" := "d", "controller" := "c"];
    var a := ["device_id", "controller"];
    var b := ["controller", "device_id"];
    assert a[..1] == ["device_id"] && b[..1] == ["controller"];
    assert ["device_id"][..0] == [] && ["controller"][..0] == [];
    assert labels["device_id"] == "d" && labels["controller"] == "c";
    assert Pairs(labels, ["device_id"]) == [] + ["device_id" + "=" + "d"];
    assert Pairs(labels, ["controller"]) == [] + ["controller" + "=" + "c"];
    assert "device_id" + "=" + "d" == "device_id=d" && "controller" + "=" + "c" == "controller=c";
    assert Pairs(labels, a) == Pairs(labels, ["device_id"]) + ["controller" + "=" + "c"];
    assert Pairs(labels, b) == Pairs(labels, ["controller"]) + ["device_id" + "=" + "d"];
    assert Pairs(labels, a) == ["device_id=d", "controller=c"];
    assert Pairs(labels, b) == ["controller=c", "device_id=d"];
    var ka := KeyFor("n", labels, a);
    var kb := KeyFor("n", labels, b);
    assert ka == "n" + [','] + Text.Join(["device_id=d", "controller=c"], ',') by {
      assert ([ "n" ] + Pairs(labels, a))[1..] == ["device_id=d", "controller=c"];
    }
    assert kb == "n" + [','] + Text.Join(["controller=c", "device_id=d"], ',') by {
      assert ([ "n" ] + Pairs(labels, b))[1..] == ["controller=c", "device_id=d"];
    }
    assert ka[2] == 'd' && kb[2] == 'c';
  }

  /** The key of a two-label set visited in `[k1, k2]`. */
  lemma KeyOfTwo(metricName: string, labels: map<string, string>, k1: string, k2: string)
    requires k1 in labels && k2 in labels
    ensures KeyFor(metricName, labels, [k1, k2]) ==
      metricName + [','] + (k1 + "=" + labels[k1]) + [','] + (k2 + "=" + labels[k2])
  {
    var p1 := k1 + "=" + labels[k1];
    var p2 := k2 + "=" + labels[k2];
    assert [k1, k2][..1] == [k1] && [k1][..0] == [];
    assert Pairs(labels, [k1, k2]) == [p1, p2];
    assert ([metricName] + [p1, p2])[1..] == [p1, p2] && [p1, p2][1..] == [p2];
    assert Text.Join([p1, p2], ',') == p1 + [','] + p2;
  }

  /** Moving `,c=y` from the end of the first value to the front of the
      second leaves the key of `[d, c]` as it is. */
  lemma KeyShiftsAcrossValues(n: string, d: string, c: string, x: string, y: string, z: string)
    requires d != c
    ensures KeyFor(n, map[d := x + "," + c + "=" + y, c := z], [d, c]) ==
      KeyFor(n, map[d := x, c := y + "," + c + "=" + z], [d, c])
  {
    var one := map[d := x + "," + c + "=" + y, c := z];
    var two := map[d := x, c := y + "," + c + "=" + z];
    KeyOfTwo(n, one, d, c);
    KeyOfTwo(n, two, d, c);
    var flat := n + "," + d + "=" + x + "," + c + "=" + y + "," + c + "=" + z;
    assert n + [','] + (d + "=" + one[d]) + [','] + (c + "=" + one[c]) == flat;
    assert n + [','] + (d + "=" + two[d]) + [','] + (c + "=" + two[c]) == flat;
  }

  /** Two different label sets can share a key: commas and `=` inside a
      value are not escaped, so a value can carry what reads as a further
      label. Metrics with these two label sets are filed as one series. */
  lemma SeriesKeyMergesLabelSets()
    ensures var one := map["device_id" := "a,controller=b", "controller" := "x"];
      var two := map["device_id" := "a", "controller" := "b,controller=x"];
      one != two &&
      Enumerates(["device_id", "controller"], one) && Enumerates(["device_id", "controller"], two) &&
      KeyFor("n", one, ["device_id", "controller"]) == KeyFor("n", two, ["device_id", "controller"])
  {
    var one := map["device_id" := "a,controller=b", "controller" := "x"];
    var two := map["device_id" := "a", "controller" := "b,controller=x"];
    assert one["device_id"] != two["device_id"];
    assert "a,controller=b" == "a" + "," + "controller" + "=" + "b";
    assert "b,controller=x" == "b" + "," + "controller" + "=" + "x";
    KeyShiftsAcrossValues("n", "device_id", "controller", "a", "b", "x");
  }

  // ---------------------------------------------------------------------
  // The publisher and its batch

  /** The flush rule of `Publish`: a full batch, or too long since the last
      flush. */
  predicate ShouldFlush(size: nat, elapsed: int, timeout: int)
  {
    size >= BatchSize || elapsed > timeout
  }

  /** `Publisher`. A disabled publisher (no HTTP client) ignores everything.
      `sent` lists the write requests handed to the sender; whether the
      endpoint accepted them is only logged, so it plays no part here.
      Times are nanoseconds on one clock. */
  class Publisher {
    const enabled: bool
    const timeout: int
    const topicPrefix: string
    const deviceId: string
    const decode: string -> Result<Payload>
    const marshals: seq<TimeSeries> -> bool
    const batchTimeout: int
    var batchBuffer: seq<MetricData>
    var lastPublishTime: int
    var sent: seq<seq<TimeSeries>>

    /** The batch never holds a full collection between calls, and a
        disabled publisher never holds anything. */
    ghost predicate Valid()
      reads this
    {
      |batchBuffer| < BatchSize && (!enabled ==> batchBuffer == [])
    }

    constructor (enabled: bool, timeout: int, topicPrefix: string, deviceId: string,
                 decode: string -> Result<Payload>, marshals: seq<TimeSeries> -> bool,
                 batchTimeout: int, now: int)
      ensures Valid() && batchBuffer == [] && sent == [] && lastPublishTime == now
      ensures this.enabled == enabled && this.timeout == timeout && this.batchTimeout == batchTimeout
      ensures this.topicPrefix == topicPrefix && this.deviceId == deviceId
      ensures this.decode == decode && this.marshals == marshals
    {
      this.enabled := enabled;
      this.timeout := timeout;
      this.topicPrefix := topicPrefix;
      this.deviceId := deviceId;
      this.decode := decode;
      this.marshals := marshals;
      this.batchTimeout := batchTimeout;
      batchBuffer := [];
      lastPublishTime := now;
      sent := [];
    }

    /** `flushBatch`: nothing for an empty batch; otherwise the batch is
        turned into its series, the request is sent if it encodes, and the
        batch is emptied either way. `series` is the request built. */
    method FlushBatch(now: int) returns (ghost series: seq<TimeSeries>)
      modifies this
      ensures batchBuffer == []
      ensures old(batchBuffer) == [] ==> sent == old(sent) && lastPublishTime == old(lastPublishTime)
      ensures old(batchBuffer) != [] ==> Represents(series, old(batchBuffer))
      ensures old(batchBuffer) != [] && marshals(series) ==> sent == old(sent) + [series] && lastPublishTime == now
      ensures old(batchBuffer) != [] && !marshals(series) ==> sent == old(sent) && lastPublishTime == old(lastPublishTime)
    {
      series := [];
      if |batchBuffer| == 0 {
        return;
      }
      var timeSeries := MetricsToTimeSeries(batchBuffer);
      series := timeSeries;
      if !marshals(timeSeries) {
        batchBuffer := [];
        return;
      }
      sent := sent + [timeSeries];
      batchBuffer := [];
      lastPublishTime := now;
    }

    /** `Publish`: a message that parses joins the batch, and the batch is
        flushed when it is full or overdue. `series` is the request built
        by that flush, if any. */
    method Publish(topicSuffix: string, payload: string, now: int) returns (ghost series: seq<TimeSeries>)
      requires Valid()
      modifies this
      ensures Valid()
      ensures !enabled || ParseMetric(topicSuffix, payload, decode).Err? ==>
        batchBuffer == old(batchBuffer) && sent == old(sent) && lastPublishTime == old(lastPublishTime)
      ensures enabled && ParseMetric(topicSuffix, payload, decode).Ok? &&
              !ShouldFlush(|old(batchBuffer)| + 1, now - old(lastPublishTime), batchTimeout) ==>
        batchBuffer == old(batchBuffer) + [ParseMetric(topicSuffix, payload, decode).value] &&
        sent == old(sent) && lastPublishTime == old(lastPublishTime)
      ensures enabled && ParseMetric(topicSuffix, payload, decode).Ok? &&
              ShouldFlush(|old(batchBuffer)| + 1, now - old(lastPublishTime), batchTimeout) ==>
        batchBuffer == [] &&
        Represents(series, old(batchBuffer) + [ParseMetric(topicSuffix, payload, decode).value]) &&
        (marshals(series) ==> sent == old(sent) + [series] && lastPublishTime == now) &&
        (!marshals(series) ==> sent == old(sent) && lastPublishTime == old(lastPublishTime))
    {
      series := [];
      if !enabled {
        return;
      }
      var metric := ParseMetric(topicSuffix, payload, decode);
      if metric.Err? {
        return;
      }
      batchBuffer := batchBuffer + [metric.value];
      var shouldFlush := |batchBuffer| >= BatchSize || now - lastPublishTime > batchTimeout;
      if shouldFlush {
        series := FlushBatch(now);
      }
    }

    /** `Close`: a non-empty batch of an enabled publisher is flushed. */
    method Close(now: int) returns (ghost series: seq<TimeSeries>)
      requires Valid()
      modifies this
      ensures Valid()
      ensures !enabled || old(batchBuffer) == [] ==>
        batchBuffer == old(batchBuffer) && sent == old(sent) && lastPublishTime == old(lastPublishTime)
      ensures enabled && old(batchBuffer) != [] ==>
        batchBuffer == [] && Represents(series, old(batchBuffer)) &&
        (marshals(series) ==> sent == old(sent) + [series] && lastPublishTime == now) &&
        (!marshals(series) ==> sent == old(sent) && lastPublishTime == old(lastPublishTime))
    {
      series := [];
      if !enabled {
        return;
      }
      if |batchBuffer| > 0 {
        series := FlushBatch(now);
      }
    }
  }

  /** `NewPublisher`: the configuration must validate; a disabled one gives
      a publisher that ignores everything, an enabled one a publisher with
      an empty batch, the configured timeout and the five-second batch
      timeout. */
  method NewPublisher(config: RemoteWriteConfig.Configuration, topicPrefix: string, deviceId: string,
                      scheme: string -> Result<string>, duration: string -> Result<int>,
                      decode: string -> Result<Payload>, marshals: seq<TimeSeries> -> bool, now: int)
    returns (r: Result<Publisher>)
    ensures RemoteWriteConfig.Validate(config, scheme, duration).Fail? ==>
      r.Err? && r.error == "invalid remote_write configuration: " + RemoteWriteConfig.Validate(config, scheme, duration).error
    ensures RemoteWriteConfig.Validate(config, scheme, duration).Pass? ==> r.Ok? && r.value.enabled == config.enabled
    ensures r.Ok? && r.value.enabled ==>
      r.value.timeout == RemoteWriteConfig.GetTimeout(config, duration) && r.value.batchTimeout == BatchTimeout &&
      r.value.lastPublishTime == now && r.value.topicPrefix == topicPrefix && r.value.deviceId == deviceId
    ensures r.Ok? ==> fresh(r.value) && r.value.Valid() && r.value.batchBuffer == [] && r.value.sent == []
    ensures r.Ok? ==> r.value.decode == decode && r.value.marshals == marshals
  {
    var outcome := RemoteWriteConfig.Validate(config, scheme, duration);
    if outcome.Fail? {
      return Err("invalid remote_write configuration: " + outcome.error);
    }
    if !config.enabled {
      var p := new Publisher(false, 0, [], [], decode, marshals, 0, 0);
      return Ok(p);
    }
    var p := new Publisher(true, RemoteWriteConfig.GetTimeout(config, duration), topicPrefix, deviceId,
                           decode, marshals, BatchTimeout, now);
    return Ok(p);
  }
}
