/** The EPEVER controller's own state (internal/controllers/epever/epever.go):
    the last collected status, the Prometheus collector's failure counter
    and gauges, and the single MQTT message published per collection. */
module Epever {
  import opened Wrappers
  import opened Modbus
  import Collection
  import Http
  import Publishers

  /** The topic suffix of the status message (`namespace`). */
  const Namespace: string := "solar"

  /** `Configuration` of the EPEVER section. */
  datatype Settings = Settings(enabled: bool, serialPort: string, publishPeriod: int)

  /** The Prometheus collector, as the calls made on it: the failure counter
      and every status handed to `SetMetrics`, in order. */
  class PrometheusCollector {
    var failures: nat
    var recorded: seq<Collection.Status>

    constructor ()
      ensures failures == 0 && recorded == []
    {
      failures := 0;
      recorded := [];
    }

    method IncrementFailures()
      modifies this
      ensures failures == old(failures) + 1 && recorded == old(recorded)
    {
      failures := failures + 1;
    }

    method SetMetrics(status: Collection.Status)
      modifies this
      ensures recorded == old(recorded) + [status] && failures == old(failures)
    {
      recorded := recorded + [status];
    }
  }

  /** What one collection shows to the outside: the last status, the failure
      count, the statuses handed to the gauges and the published messages. */
  datatype Observed = Observed(
    lastStatus: Option<Collection.Status>,
    failures: nat,
    recorded: seq<Collection.Status>,
    published: seq<Publishers.Message>)

  /** The state after `collectAndPublish`, given what the collection returned
      (`None` when `GetStatus` failed) and how the status marshals to JSON. */
  function AfterCollect(o: Observed, collected: Option<Collection.Status>,
                        marshal: Collection.Status -> Result<string>): (n: Observed)
    ensures collected.None? ==> n == o.(failures := o.failures + 1)
    ensures collected.Some? ==>
      n.lastStatus == collected && n.failures == o.failures && n.recorded == o.recorded + [collected.value]
    ensures collected.Some? && marshal(collected.value).Ok? ==>
      n.published == o.published + [Publishers.Message(Namespace, marshal(collected.value).value)]
    ensures collected.Some? && marshal(collected.value).Err? ==> n.published == o.published
    ensures o.lastStatus.Some? ==> n.lastStatus.Some?
  {
    if collected.None? then o.(failures := o.failures + 1)
    else
      var s := collected.value;
      var m := marshal(s);
      Observed(collected, o.failures, o.recorded + [s],
               if m.Ok? then o.published + [Publishers.Message(Namespace, m.value)] else o.published)
  }

  /** What `GetStatus` yields on a device that answers from `script`. */
  function Collected(script: map<Call, Reply>, start: int, elapsed: real): (c: Option<Collection.Status>)
    requires Sized(script)
    ensures c.Some? <==> Completes(script, Collection.StatusPlan, Collection.SocIndex)
  {
    if Completes(script, Collection.StatusPlan, Collection.SocIndex) then Some(Collection.StatusOf(script, start, elapsed))
    else None
  }

  /** A result that succeeds exactly when the plan completes, with the
      status read, is what `Collected` yields. */
  lemma CollectedIs(script: map<Call, Reply>, start: int, elapsed: real, r: Result<Collection.Status>)
    requires Sized(script)
    requires r.Ok? <==> Completes(script, Collection.StatusPlan, Collection.SocIndex)
    requires r.Ok? ==> r.value == Collection.StatusOf(script, start, elapsed)
    ensures Collected(script, start, elapsed) == (if r.Ok? then Some(r.value) else None)
  {
  }

  /** The routes `RegisterEndpoints` installs, as (verb, path). */
  datatype Route = Route(verb: string, path: string)

  const Prefix: string := "/api/" + Namespace

  class Controller {
    const client: Transport?
    const collector: Collection.Collector?
    const prometheus: PrometheusCollector?
    const publisher: Publishers.Sink?
    /** `json.Marshal` of a status, which the model does not look into. */
    const marshal: Collection.Status -> Result<string>
    var lastStatus: Option<Collection.Status>

    /** A controller either has no client at all (it is disabled) or has a
        collector over its client and both sinks. */
    ghost predicate Valid()
      reads this
    {
      (client == null <==> collector == null) &&
      (client != null ==> collector.client == client && prometheus != null && publisher != null)
    }

    constructor (client: Transport?, prometheus: PrometheusCollector?, publisher: Publishers.Sink?,
                 marshal: Collection.Status -> Result<string>)
      requires client != null ==> prometheus != null && publisher != null
      ensures Valid() && lastStatus.None?
      ensures this.client == client && this.prometheus == prometheus && this.publisher == publisher
      ensures this.marshal == marshal
      ensures client != null ==> fresh(collector)
    {
      this.client := client;
      this.prometheus := prometheus;
      this.publisher := publisher;
      this.marshal := marshal;
      if client != null {
        collector := new Collection.Collector(client);
      } else {
        collector := null;
      }
      lastStatus := None;
    }

    ghost function State(): Observed
      requires prometheus != null && publisher != null
      reads this, prometheus, publisher
    {
      Observed(lastStatus, prometheus.failures, prometheus.recorded, publisher.received)
    }

    /** `collectAndPublish`: one collection through the client, then either
        one failure counted, or the new status stored, handed to the gauges
        and published once under "solar" if it marshals. */
    method CollectAndPublish(start: int, elapsed: real)
      requires Valid() && client != null && Sized(client.script) && elapsed >= 0.0
      modifies this, client, prometheus, publisher
      ensures client.log == old(client.log) +
        Collection.StatusPlan[..IssuedFrom(client.script, Collection.StatusPlan, 0, Collection.SocIndex)]
      ensures State() == AfterCollect(old(State()), Collected(client.script, start, elapsed), marshal)
      ensures Valid()
    {
      var r := collector.GetStatus(start, elapsed);
      CollectedIs(client.script, start, elapsed, r);
      if r.Err? {
        prometheus.IncrementFailures();
        return;
      }
      Record(r.value);
    }

    /** The success path of `collectAndPublish`: the status is stored,
        handed to the gauges and, if it marshals, published under "solar". */
    method Record(status: Collection.Status)
      requires prometheus != null && publisher != null
      modifies this, prometheus, publisher
      ensures State() == AfterCollect(old(State()), Some(status), marshal)
    {
      lastStatus := Some(status);
      prometheus.SetMetrics(status);
      var b := marshal(status);
      if b.Err? {
        return;
      }
      publisher.Publish(Namespace, b.value);
    }

    /** `MetricsGet`: 204 with an empty document until a status has been
        collected, then 200 with the last one. */
    function MetricsGet(): (r: Http.Response<Option<Collection.Status>>)
      reads this
      ensures r.status == Http.StatusNoContent <==> lastStatus.None?
      ensures r.status == Http.StatusOK <==> lastStatus.Some?
      ensures r.body == Ok(lastStatus)
    {
      if lastStatus.None? then Http.Response(Http.StatusNoContent, Ok(None))
      else Http.Response(Http.StatusOK, Ok(lastStatus))
    }

    /** `Enabled`: the controller has a client. */
    predicate Enabled()
      reads this
    {
      client != null
    }

    /** `RegisterEndpoints`: nothing without a client, otherwise the status,
        metrics and configuration routes under "/api/solar". */
    function Endpoints(): (routes: seq<Route>)
      reads this
      ensures routes == [] <==> !Enabled()
      ensures forall r | r in routes :: |Prefix| <= |r.path| && r.path[..|Prefix|] == Prefix
    {
      if client == null then []
      else [
        Route("GET", Prefix),
        Route("GET", Prefix + "/metrics"),
        Route("GET", Prefix + "/battery-profile"),
        Route("PATCH", Prefix + "/battery-profile"),
        Route("GET", Prefix + "/charging-parameters"),
        Route("PATCH", Prefix + "/charging-parameters"),
        Route("GET", Prefix + "/time"),
        Route("PATCH", Prefix + "/time"),
        Route("GET", Prefix + "/config"),
        Route("PATCH", Prefix + "/config")
      ]
    }
  }

  /** `NewController`: a disabled configuration, or one without a serial
      port, gives a controller with no client; otherwise the controller over
      the freshly opened client, or the error of opening it. */
  method NewController(settings: Settings, connect: Result<Transport>, publisher: Publishers.Sink,
                       marshal: Collection.Status -> Result<string>) returns (r: Result<Controller>)
    ensures !settings.enabled || settings.serialPort == [] ==>
      r.Ok? && !r.value.Enabled() && r.value.Endpoints() == []
    ensures settings.enabled && settings.serialPort != [] ==>
      (r.Ok? <==> connect.Ok?) && (r.Ok? ==> r.value.client == connect.value && r.value.publisher == publisher) &&
      (r.Err? ==> r.error == connect.error)
    ensures r.Ok? ==> fresh(r.value) && r.value.Valid() && r.value.lastStatus.None? && r.value.marshal == marshal
  {
    if !settings.enabled || settings.serialPort == [] {
      var c := new Controller(null, null, null, marshal);
      return Ok(c);
    }
    if connect.Err? {
      return Err(connect.error);
    }
    var prometheus := new PrometheusCollector();
    var c := new Controller(connect.value, prometheus, publisher, marshal);
    return Ok(c);
  }

  // ---------------------------------------------------------------------
  // A run of collections

  /** The state after a series of collections, oldest first. */
  function Run(o: Observed, outcomes: seq<Option<Collection.Status>>,
               marshal: Collection.Status -> Result<string>): Observed
    decreases |outcomes|
  {
    if outcomes == [] then o
    else AfterCollect(Run(o, outcomes[..|outcomes| - 1], marshal), outcomes[|outcomes| - 1], marshal)
  }

  /** The most recent successful outcome, or `before` if there was none. */
  function LastCollected(outcomes: seq<Option<Collection.Status>>, before: Option<Collection.Status>): Option<Collection.Status>
    decreases |outcomes|
  {
    if outcomes == [] then before
    else if outcomes[|outcomes| - 1].Some? then outcomes[|outcomes| - 1]
    else LastCollected(outcomes[..|outcomes| - 1], before)
  }

  function FailureCount(outcomes: seq<Option<Collection.Status>>): (n: nat)
    ensures n <= |outcomes|
    decreases |outcomes|
  {
    if outcomes == [] then 0
    else FailureCount(outcomes[..|outcomes| - 1]) + (if outcomes[|outcomes| - 1].None? then 1 else 0)
  }

  /** Over a run, the last status is the latest successful collection, the
      counter grows by the number of failures, the gauges see every success
      and at most one message is published per success. */
  lemma {:induction false} RunTracks(o: Observed, outcomes: seq<Option<Collection.Status>>,
                                     marshal: Collection.Status -> Result<string>)
    ensures var n := Run(o, outcomes, marshal);
      n.lastStatus == LastCollected(outcomes, o.lastStatus) &&
      n.failures == o.failures + FailureCount(outcomes) &&
      |n.recorded| == |o.recorded| + |outcomes| - FailureCount(outcomes) &&
      |o.published| <= |n.published| <= |o.published| + |outcomes| - FailureCount(outcomes)
    decreases |outcomes|
  {
    if outcomes != [] {
      RunTracks(o, outcomes[..|outcomes| - 1], marshal);
    }
  }

  /** Once a status has been collected, the last status is never cleared. */
  lemma {:induction false} RunKeepsStatus(o: Observed, outcomes: seq<Option<Collection.Status>>,
                                          marshal: Collection.Status -> Result<string>)
    requires o.lastStatus.Some? || (exists k | 0 <= k < |outcomes| :: outcomes[k].Some?)
    ensures Run(o, outcomes, marshal).lastStatus.Some?
    decreases |outcomes|
  {
    if outcomes != [] {
      var init := outcomes[..|outcomes| - 1];
      if outcomes[|outcomes| - 1].None? {
        if o.lastStatus.None? {
          var k :| 0 <= k < |outcomes| && outcomes[k].Some?;
          assert init[k] == outcomes[k];
        }
        RunKeepsStatus(o, init, marshal);
      }
    }
  }
}
