/**
 * The CloudWatch vocabulary every alarm catalogue shares. A CDK `Alarm`
 * built over a `Metric` is represented by the plain record `AlarmSpec`
 * holding exactly the properties the source passes to those constructors.
 */
module CloudWatch {
  import opened Wrappers

  /** An SNS topic, referred to by an opaque reference. */
  type Topic = string

  datatype ComparisonOperator =
    | GreaterThanOrEqualToThreshold
    | GreaterThanThreshold
    | LessThanThreshold
    | LessThanOrEqualToThreshold
    | LessThanLowerThreshold

  /** The `STATISTIC` enumeration; only its average member is used. */
  datatype Statistic = Average

  datatype Dimension = Dimension(name: string, value: string)

  /** `statistic` is None when the source passes no (or an undefined) statistic. */
  datatype Metric = Metric(
    namespace: string,
    metricName: string,
    dimensions: seq<Dimension>,
    statistic: Option<Statistic>)

  /** One alarm: its construct id, metric and evaluation settings, and the SNS actions attached to it. */
  datatype AlarmSpec = AlarmSpec(
    id: string,
    metric: Metric,
    threshold: real,
    periodSeconds: nat,
    op: ComparisonOperator,
    description: string,
    evaluationPeriods: int,
    actions: seq<Topic>)

  /** `Duration.seconds(60)` and `Duration.days(1)`, in seconds. */
  const ONE_MINUTE: nat := 60
  const ONE_DAY: nat := 86400

  /** JavaScript truthiness of a number (NaN is not modelled). */
  predicate Truthy(x: real) {
    x != 0.0
  }

  /** `threshold ? threshold : fallback`: an absent or zero threshold gives the fallback. */
  function Fallback(threshold: Option<real>, fallback: real): real {
    if threshold.Some? && Truthy(threshold.value) then threshold.value else fallback
  }

  /** `alarm.addAlarmAction(new SnsAction(topic))` when a topic is given. */
  function Attach(a: AlarmSpec, topic: Option<Topic>): AlarmSpec {
    match topic
    case None => a
    case Some(t) => a.(actions := a.actions + [t])
  }

  /**
   * One row of a metric catalogue: everything an alarm of one kind fixes
   * independently of the resource and of the caller's threshold.
   */
  datatype CatalogEntry = CatalogEntry(
    idSuffix: string,
    namespace: string,
    metricName: string,
    dimensionKey: string,
    periodSeconds: nat,
    op: ComparisonOperator,
    defaultThreshold: real,
    descriptionPrefix: string)

  /**
   * `a` is the alarm `e` describes for the resource with construct id
   * `nodeId` and identifier `resource`, created with the threshold
   * argument `threshold`, before any action is attached. Its description
   * is the row's fixed text followed directly by the identifier.
   */
  predicate Conforms(a: AlarmSpec, e: CatalogEntry, nodeId: string, resource: string, threshold: Option<real>) {
    && a.id == nodeId + e.idSuffix
    && a.metric == Metric(e.namespace, e.metricName, [Dimension(e.dimensionKey, resource)], None)
    && a.threshold == Fallback(threshold, e.defaultThreshold)
    && a.periodSeconds == e.periodSeconds
    && a.op == e.op
    && a.description == e.descriptionPrefix + resource
    && a.evaluationPeriods == 1
    && a.actions == []
  }

  /** Distinct suffixes after a common prefix give distinct strings. */
  lemma PrefixCancel(p: string, a: string, b: string)
    requires p + a == p + b
    ensures a == b
  {
    assert (p + a)[|p|..] == a;
    assert (p + b)[|p|..] == b;
  }
}
