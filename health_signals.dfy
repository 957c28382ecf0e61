/**
 * Health signal definitions: the thresholds and metadata of each signal, their
 * dict serialisation, the stock signals and the per-resource-kind catalogues.
 * Threshold bounds and weights are carried as opaque numbers.
 */
module Signals {
  import opened Wrappers
  import opened Dicts
  import opened Json

  datatype SignalType = Metric | LogQuery | Custom | AzureResourceHealth {
    /** The enum member's value. */
    function Value(): string {
      match this
      case Metric => "metric"
      case LogQuery => "log_query"
      case Custom => "custom"
      case AzureResourceHealth => "azure_resource_health"
    }
  }

  /** `SignalType(value)`: the member that has this value, if any. */
  function SignalTypeOf(value: string): Option<SignalType> {
    if value == "metric" then Some(Metric)
    else if value == "log_query" then Some(LogQuery)
    else if value == "custom" then Some(Custom)
    else if value == "azure_resource_health" then Some(AzureResourceHealth)
    else None
  }

  datatype ThresholdOperator = GreaterThan | LessThan | GreaterEqual | LessEqual | Equal | NotEqual {
    /** The enum member's value, the code that goes on the wire. */
    function Value(): string {
      match this
      case GreaterThan => "gt"
      case LessThan => "lt"
      case GreaterEqual => "gte"
      case LessEqual => "lte"
      case Equal => "eq"
      case NotEqual => "neq"
    }
  }

  /** `ThresholdOperator(code)`: the member that has this code, if any. */
  function OperatorOf(code: string): Option<ThresholdOperator> {
    if code == "gt" then Some(GreaterThan)
    else if code == "lt" then Some(LessThan)
    else if code == "gte" then Some(GreaterEqual)
    else if code == "lte" then Some(LessEqual)
    else if code == "eq" then Some(Equal)
    else if code == "neq" then Some(NotEqual)
    else None
  }

  /** Every operator is found again from its code, so no two operators share a code. */
  lemma OperatorCodes(a: ThresholdOperator, b: ThresholdOperator)
    ensures OperatorOf(a.Value()) == Some(a)
    ensures a.Value() == b.Value() <==> a == b
  {
  }

  /** Every signal type is found again from its value, so no two types share a value. */
  lemma SignalTypeValues(a: SignalType, b: SignalType)
    ensures SignalTypeOf(a.Value()) == Some(a)
    ensures a.Value() == b.Value() <==> a == b
  {
  }

  /** The bands of a signal; an unset bound is `None`. */
  datatype HealthThreshold = HealthThreshold(
    healthyMin: Option<real> := None,
    healthyMax: Option<real> := None,
    degradedMin: Option<real> := None,
    degradedMax: Option<real> := None,
    unhealthyMin: Option<real> := None,
    unhealthyMax: Option<real> := None,
    operator: ThresholdOperator := GreaterThan)

  /** An optional bound as it is serialised: the number, or null. */
  function BoundJson(b: Option<real>): Json {
    match b
    case Some(x) => JNum(x)
    case None => JNull
  }

  /** Reads back an optional bound. */
  function BoundOf(j: Option<Json>): Option<Option<real>> {
    match j
    case Some(JNull) => Some(None)
    case Some(JNum(x)) => Some(Some(x))
    case _ => None
  }

  const ThresholdKeys: seq<string> :=
    ["healthyMin", "healthyMax", "degradedMin", "degradedMax", "unhealthyMin", "unhealthyMax", "operator"]

  /** No key of the serialised dict is written twice. */
  lemma ThresholdKeysDistinct()
    ensures Distinct(ThresholdKeys)
  {
  }

  /** `HealthThreshold.to_dict()` */
  function ThresholdToDict(t: HealthThreshold): (r: Json)
    ensures r.JObj? && Keys(r.fields) == ThresholdKeys
  {
    JObj([
      ("healthyMin", BoundJson(t.healthyMin)),
      ("healthyMax", BoundJson(t.healthyMax)),
      ("degradedMin", BoundJson(t.degradedMin)),
      ("degradedMax", BoundJson(t.degradedMax)),
      ("unhealthyMin", BoundJson(t.unhealthyMin)),
      ("unhealthyMax", BoundJson(t.unhealthyMax)),
      ("operator", JStr(t.operator.Value()))
    ])
  }

  /** Reads a threshold back from the dict shape `ThresholdToDict` produces. */
  function ThresholdOf(j: Json): Option<HealthThreshold> {
    var hMin := BoundOf(Member(j, "healthyMin"));
    var hMax := BoundOf(Member(j, "healthyMax"));
    var dMin := BoundOf(Member(j, "degradedMin"));
    var dMax := BoundOf(Member(j, "degradedMax"));
    var uMin := BoundOf(Member(j, "unhealthyMin"));
    var uMax := BoundOf(Member(j, "unhealthyMax"));
    var op := match Member(j, "operator") case Some(JStr(c)) => OperatorOf(c) case _ => None;
    if hMin.Some? && hMax.Some? && dMin.Some? && dMax.Some? && uMin.Some? && uMax.Some? && op.Some? then
      Some(HealthThreshold(hMin.value, hMax.value, dMin.value, dMax.value, uMin.value, uMax.value, op.value))
    else None
  }

  /** `to_dict` keeps all six bounds (unset ones as null) and the operator code: nothing is lost. */
  lemma ThresholdRoundTrip(t: HealthThreshold)
    ensures ThresholdOf(ThresholdToDict(t)) == Some(t)
  {
    OperatorCodes(t.operator, t.operator);
    ThresholdFields(t);
  }

  /** Each key of a threshold's dict finds the field written under it. */
  lemma ThresholdFields(t: HealthThreshold)
    ensures var r := ThresholdToDict(t);
      && Member(r, "healthyMin") == Some(BoundJson(t.healthyMin))
      && Member(r, "healthyMax") == Some(BoundJson(t.healthyMax))
      && Member(r, "degradedMin") == Some(BoundJson(t.degradedMin))
      && Member(r, "degradedMax") == Some(BoundJson(t.degradedMax))
      && Member(r, "unhealthyMin") == Some(BoundJson(t.unhealthyMin))
      && Member(r, "unhealthyMax") == Some(BoundJson(t.unhealthyMax))
      && Member(r, "operator") == Some(JStr(t.operator.Value()))
  {
    var r := ThresholdToDict(t);
    ThresholdKeysDistinct();
    DistinctKeys(r.fields);
    MemberUnique(r, 0);
    MemberUnique(r, 1);
    MemberUnique(r, 2);
    MemberUnique(r, 3);
    MemberUnique(r, 4);
    MemberUnique(r, 5);
    MemberUnique(r, 6);
  }

  /** A threshold built with no arguments compares with "gt" and has every bound unset. */
  lemma DefaultThreshold()
    ensures ThresholdToDict(HealthThreshold()) == JObj([
      ("healthyMin", JNull), ("healthyMax", JNull), ("degradedMin", JNull),
      ("degradedMax", JNull), ("unhealthyMin", JNull), ("unhealthyMax", JNull),
      ("operator", JStr("gt"))])
  {
  }

  datatype HealthSignal = HealthSignal(
    name: string,
    signalType: SignalType,
    displayName: string,
    description: string,
    thresholds: HealthThreshold,
    enabled: bool := true,
    weight: real := 1.0)

  const SignalKeys: seq<string> :=
    ["name", "type", "displayName", "description", "thresholds", "enabled", "weight"]

  /** No key of the serialised dict is written twice. */
  lemma SignalKeysDistinct()
    ensures Distinct(SignalKeys)
  {
  }

  /** `HealthSignal.to_dict()` */
  function SignalToDict(s: HealthSignal): (r: Json)
    ensures r.JObj? && Keys(r.fields) == SignalKeys
  {
    JObj([
      ("name", JStr(s.name)),
      ("type", JStr(s.signalType.Value())),
      ("displayName", JStr(s.displayName)),
      ("description", JStr(s.description)),
      ("thresholds", ThresholdToDict(s.thresholds)),
      ("enabled", JBool(s.enabled)),
      ("weight", JNum(s.weight))
    ])
  }

  /** Reads a signal back from the dict shape `SignalToDict` produces. */
  function SignalOf(j: Json): Option<HealthSignal> {
    match (Member(j, "name"), Member(j, "type"), Member(j, "displayName"), Member(j, "description"),
           Member(j, "thresholds"), Member(j, "enabled"), Member(j, "weight"))
    case (Some(JStr(n)), Some(JStr(ty)), Some(JStr(dn)), Some(JStr(desc)), Some(th), Some(JBool(en)), Some(JNum(w))) =>
      var t := SignalTypeOf(ty);
      var thr := ThresholdOf(th);
      if t.Some? && thr.Some? then Some(HealthSignal(n, t.value, dn, desc, thr.value, en, w)) else None
    case _ => None
  }

  /**
   * `to_dict` writes the signal type's value and nests the thresholds' own dict
   * unchanged; every field of the signal can be read back from it.
   */
  lemma SignalRoundTrip(s: HealthSignal)
    ensures Member(SignalToDict(s), "thresholds") == Some(ThresholdToDict(s.thresholds))
    ensures Member(SignalToDict(s), "type") == Some(JStr(s.signalType.Value()))
    ensures SignalOf(SignalToDict(s)) == Some(s)
  {
    SignalTypeValues(s.signalType, s.signalType);
    ThresholdRoundTrip(s.thresholds);
    SignalFields(s);
  }

  /** Each key of a signal's dict finds the field written under it. */
  lemma SignalFields(s: HealthSignal)
    ensures var r := SignalToDict(s);
      && Member(r, "name") == Some(JStr(s.name))
      && Member(r, "type") == Some(JStr(s.signalType.Value()))
      && Member(r, "displayName") == Some(JStr(s.displayName))
      && Member(r, "description") == Some(JStr(s.description))
      && Member(r, "thresholds") == Some(ThresholdToDict(s.thresholds))
      && Member(r, "enabled") == Some(JBool(s.enabled))
      && Member(r, "weight") == Some(JNum(s.weight))
  {
    var r := SignalToDict(s);
    SignalKeysDistinct();
    DistinctKeys(r.fields);
    MemberUnique(r, 0);
    MemberUnique(r, 1);
    MemberUnique(r, 2);
    MemberUnique(r, 3);
    MemberUnique(r, 4);
    MemberUnique(r, 5);
    MemberUnique(r, 6);
  }

  /** A signal built without `enabled` and `weight` is enabled with full weight. */
  lemma SignalDefaults(name: string, signalType: SignalType, displayName: string, description: string, t: HealthThreshold)
    ensures HealthSignal(name, signalType, displayName, description, t).enabled
    ensures HealthSignal(name, signalType, displayName, description, t).weight == 1.0
  {
  }

  // ---------------------------------------------------------------------------
  // The stock signals
  // ---------------------------------------------------------------------------

  function CpuUtilizationSignal(): HealthSignal {
    HealthSignal("cpu_utilization", Metric, "CPU Utilization",
      "CPU utilization percentage. High values indicate compute pressure.",
      HealthThreshold(healthyMin := Some(0.0), healthyMax := Some(70.0), degradedMin := Some(70.0),
                      degradedMax := Some(85.0), unhealthyMin := Some(85.0)),
      weight := 0.25)
  }

  function MemoryUtilizationSignal(): HealthSignal {
    HealthSignal("memory_utilization", Metric, "Memory Utilization",
      "Memory utilization percentage. High values indicate memory pressure.",
      HealthThreshold(healthyMin := Some(0.0), healthyMax := Some(80.0), degradedMin := Some(80.0),
                      degradedMax := Some(90.0), unhealthyMin := Some(90.0)),
      weight := 0.25)
  }

  function DiskSpaceSignal(): HealthSignal {
    HealthSignal("disk_space_available", Metric, "Disk Space Available",
      "Available disk space percentage",
      HealthThreshold(healthyMin := Some(20.0), degradedMin := Some(10.0), degradedMax := Some(20.0),
                      unhealthyMax := Some(10.0)),
      weight := 0.15)
  }

  function NetworkLatencySignal(): HealthSignal {
    HealthSignal("network_latency", Metric, "Network Latency (ms)",
      "Average network latency in milliseconds",
      HealthThreshold(healthyMin := Some(0.0), healthyMax := Some(100.0), degradedMin := Some(100.0),
                      degradedMax := Some(500.0), unhealthyMin := Some(500.0)),
      weight := 0.15)
  }

  function ResponseTimeSignal(): HealthSignal {
    HealthSignal("response_time_p95", Metric, "Response Time (p95)",
      "95th percentile response time in milliseconds",
      HealthThreshold(healthyMin := Some(0.0), healthyMax := Some(500.0), degradedMin := Some(500.0),
                      degradedMax := Some(1000.0), unhealthyMin := Some(1000.0)),
      weight := 0.25)
  }

  function ErrorRateSignal(): HealthSignal {
    HealthSignal("error_rate", Metric, "Error Rate (%)",
      "Percentage of requests that result in errors",
      HealthThreshold(healthyMin := Some(0.0), healthyMax := Some(1.0), degradedMin := Some(1.0),
                      degradedMax := Some(5.0), unhealthyMin := Some(5.0)),
      weight := 0.30)
  }

  function AvailabilitySignal(): HealthSignal {
    HealthSignal("availability", Metric, "Availability (%)",
      "Service availability percentage (uptime)",
      HealthThreshold(healthyMin := Some(99.5), healthyMax := Some(100.0), degradedMin := Some(99.0),
                      degradedMax := Some(99.5), unhealthyMax := Some(99.0)),
      weight := 0.30)
  }

  function RequestRateSignal(): HealthSignal {
    HealthSignal("request_rate_rps", Metric, "Request Rate (RPS)",
      "Requests per second",
      HealthThreshold(healthyMin := Some(0.0), healthyMax := Some(1000.0), degradedMin := Some(1000.0),
                      degradedMax := Some(2000.0), unhealthyMin := Some(2000.0)),
      weight := 0.15)
  }

  function DatabaseConnectionPoolSignal(): HealthSignal {
    HealthSignal("db_connection_pool_utilization", Metric, "DB Connection Pool Utilization (%)",
      "Percentage of available database connections in use",
      HealthThreshold(healthyMin := Some(0.0), healthyMax := Some(70.0), degradedMin := Some(70.0),
                      degradedMax := Some(85.0), unhealthyMin := Some(85.0)),
      weight := 0.25)
  }

  function DatabaseQueryLatencySignal(): HealthSignal {
    HealthSignal("db_query_latency_p95", Metric, "DB Query Latency (p95 ms)",
      "95th percentile database query execution time",
      HealthThreshold(healthyMin := Some(0.0), healthyMax := Some(100.0), degradedMin := Some(100.0),
                      degradedMax := Some(500.0), unhealthyMin := Some(500.0)),
      weight := 0.25)
  }

  function DatabaseDeadlockSignal(): HealthSignal {
    HealthSignal("db_deadlocks", Metric, "DB Deadlocks",
      "Number of database deadlocks detected",
      HealthThreshold(healthyMin := Some(0.0), healthyMax := Some(0.0), degradedMin := Some(1.0),
                      degradedMax := Some(5.0), unhealthyMin := Some(5.0)),
      weight := 0.20)
  }

  /**
   * `create_custom_business_metric_signal`: a CUSTOM signal whose thresholds set only
   * the healthy and degraded minimums; the weight defaults to 0.20.
   */
  function CustomBusinessMetricSignal(metricName: string, displayName: string, description: string,
                                      healthyThreshold: real, degradedThreshold: real,
                                      weight: real := 0.20): (s: HealthSignal)
    ensures s.name == metricName && s.displayName == displayName && s.description == description
    ensures s.signalType == Custom && s.enabled && s.weight == weight
    ensures s.thresholds.healthyMin == Some(healthyThreshold) && s.thresholds.degradedMin == Some(degradedThreshold)
    ensures s.thresholds.healthyMax.None? && s.thresholds.degradedMax.None?
    ensures s.thresholds.unhealthyMin.None? && s.thresholds.unhealthyMax.None?
    ensures s.thresholds.operator == GreaterThan
  {
    HealthSignal(metricName, Custom, displayName, description,
      HealthThreshold(healthyMin := Some(healthyThreshold), degradedMin := Some(degradedThreshold)),
      weight := weight)
  }

  // ---------------------------------------------------------------------------
  // Catalogues (`SignalCollection`)
  // ---------------------------------------------------------------------------

  function VmSignals(): Dict<string, HealthSignal> {
    [("cpu", CpuUtilizationSignal()), ("memory", MemoryUtilizationSignal()),
     ("disk", DiskSpaceSignal()), ("network_latency", NetworkLatencySignal())]
  }

  function WebServiceSignals(): Dict<string, HealthSignal> {
    [("response_time", ResponseTimeSignal()), ("error_rate", ErrorRateSignal()),
     ("availability", AvailabilitySignal()), ("request_rate", RequestRateSignal()),
     ("cpu", CpuUtilizationSignal()), ("memory", MemoryUtilizationSignal())]
  }

  function DatabaseSignals(): Dict<string, HealthSignal> {
    [("connection_pool", DatabaseConnectionPoolSignal()), ("query_latency", DatabaseQueryLatencySignal()),
     ("deadlocks", DatabaseDeadlockSignal()), ("cpu", CpuUtilizationSignal()), ("memory", MemoryUtilizationSignal())]
  }

  function AppServiceSignals(): Dict<string, HealthSignal> {
    [("response_time", ResponseTimeSignal()), ("error_rate", ErrorRateSignal()),
     ("availability", AvailabilitySignal()), ("cpu", CpuUtilizationSignal()), ("memory", MemoryUtilizationSignal())]
  }

  /** The VM catalogue: four distinct keys, with the stock CPU and memory signals. */
  lemma VmCatalogue()
    ensures |VmSignals()| == 4 && UniqueKeys(VmSignals())
    ensures Get(VmSignals(), "cpu") == Some(CpuUtilizationSignal())
    ensures Get(VmSignals(), "memory") == Some(MemoryUtilizationSignal())
  {
    GetFirst(VmSignals(), "cpu", 0);
    GetFirst(VmSignals(), "memory", 1);
  }

  /** The web-service catalogue: six distinct keys, with the stock CPU and memory signals. */
  lemma WebServiceCatalogue()
    ensures |WebServiceSignals()| == 6 && UniqueKeys(WebServiceSignals())
    ensures Get(WebServiceSignals(), "cpu") == Some(CpuUtilizationSignal())
    ensures Get(WebServiceSignals(), "memory") == Some(MemoryUtilizationSignal())
  {
    GetFirst(WebServiceSignals(), "cpu", 4);
    GetFirst(WebServiceSignals(), "memory", 5);
  }

  /** The database catalogue: five distinct keys, with the stock CPU and memory signals. */
  lemma DatabaseCatalogue()
    ensures |DatabaseSignals()| == 5 && UniqueKeys(DatabaseSignals())
    ensures Get(DatabaseSignals(), "cpu") == Some(CpuUtilizationSignal())
    ensures Get(DatabaseSignals(), "memory") == Some(MemoryUtilizationSignal())
  {
    GetFirst(DatabaseSignals(), "cpu", 3);
    GetFirst(DatabaseSignals(), "memory", 4);
  }

  /** The app-service catalogue: five distinct keys, with the stock CPU and memory signals. */
  lemma AppServiceCatalogue()
    ensures |AppServiceSignals()| == 5 && UniqueKeys(AppServiceSignals())
    ensures Get(AppServiceSignals(), "cpu") == Some(CpuUtilizationSignal())
    ensures Get(AppServiceSignals(), "memory") == Some(MemoryUtilizationSignal())
  {
    GetFirst(AppServiceSignals(), "cpu", 3);
    GetFirst(AppServiceSignals(), "memory", 4);
  }
}
