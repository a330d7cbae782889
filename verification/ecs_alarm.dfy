/**
 * `ClusterAlarm`: the alarm catalogue for an ECS cluster, and the
 * `AlarmBuilder` specialisation of the base builder that fills in the
 * cluster (and optionally service) dimensions.
 */
module EcsAlarm {
  import opened Wrappers
  import opened CloudWatch
  import opened Assembly
  import opened BaseAlarm

  const NAMESPACE := "AWS/ECS"

  /** The parts of a CDK `Cluster` the catalogue reads. */
  datatype Cluster = Cluster(nodeId: string, clusterName: string, hasEc2Capacity: bool)

  datatype Service = Service(serviceName: string)

  /** `CLUSTER_METRIC`. */
  datatype ClusterMetric = CPUReservation | CPUUtilization | MemoryReservation | MemoryUtilization | GPUReservation

  function MetricName(m: ClusterMetric): string {
    match m
    case CPUReservation => "CPUReservation"
    case CPUUtilization => "CPUUtilization"
    case MemoryReservation => "MemoryReservation"
    case MemoryUtilization => "MemoryUtilization"
    case GPUReservation => "GPUReservation"
  }

  /** `EcsAlarmOptions` as the caller writes it: every key may be absent. */
  datatype EcsAlarmOptions = EcsAlarmOptions(
    highCpuEnabled: Option<bool>,
    highCpuPct: Option<real>,
    cpuReservationEnabled: Option<bool>,
    cpuReservationThreshold: Option<real>,
    memoryReservationEnabled: Option<bool>,
    memoryReservationThreshold: Option<real>,
    highMemoryEnabled: Option<bool>,
    highMemoryThreshold: Option<real>,
    gpuReservationEnabled: Option<bool>,
    gpuReservationThreshold: Option<real>,
    topic: Option<Topic>)

  /** The options after the defaults are merged in: every toggle and threshold is present. */
  datatype EcsAlarmSettings = EcsAlarmSettings(
    highCpuEnabled: bool,
    highCpuPct: real,
    cpuReservationEnabled: bool,
    cpuReservationThreshold: real,
    memoryReservationEnabled: bool,
    memoryReservationThreshold: real,
    highMemoryEnabled: bool,
    highMemoryThreshold: real,
    gpuReservationEnabled: bool,
    gpuReservationThreshold: real,
    topic: Option<Topic>)

  const DEFAULT_ALARM_OPTIONS := EcsAlarmSettings(
    highCpuEnabled := true,
    highCpuPct := 90.0,
    cpuReservationEnabled := false,
    cpuReservationThreshold := 10.0,
    memoryReservationEnabled := false,
    memoryReservationThreshold := 10.0,
    highMemoryEnabled := true,
    highMemoryThreshold := 90.0,
    gpuReservationEnabled := false,
    gpuReservationThreshold := 10.0,
    topic := None)

  const NO_OPTIONS := EcsAlarmOptions(None, None, None, None, None, None, None, None, None, None, None)

  /** `{...DEFAULT_ALARM_OPTIONS, ...options}`: a key the caller supplies wins, an absent one takes the default. */
  function Resolve(options: Option<EcsAlarmOptions>): EcsAlarmSettings {
    match options
    case None => DEFAULT_ALARM_OPTIONS
    case Some(o) =>
      var d := DEFAULT_ALARM_OPTIONS;
      EcsAlarmSettings(
        o.highCpuEnabled.GetOr(d.highCpuEnabled),
        o.highCpuPct.GetOr(d.highCpuPct),
        o.cpuReservationEnabled.GetOr(d.cpuReservationEnabled),
        o.cpuReservationThreshold.GetOr(d.cpuReservationThreshold),
        o.memoryReservationEnabled.GetOr(d.memoryReservationEnabled),
        o.memoryReservationThreshold.GetOr(d.memoryReservationThreshold),
        o.highMemoryEnabled.GetOr(d.highMemoryEnabled),
        o.highMemoryThreshold.GetOr(d.highMemoryThreshold),
        o.gpuReservationEnabled.GetOr(d.gpuReservationEnabled),
        o.gpuReservationThreshold.GetOr(d.gpuReservationThreshold),
        o.topic)
  }

  /** The options object that spells out every key of `s`. */
  function Explicit(s: EcsAlarmSettings): EcsAlarmOptions {
    EcsAlarmOptions(
      Some(s.highCpuEnabled), Some(s.highCpuPct),
      Some(s.cpuReservationEnabled), Some(s.cpuReservationThreshold),
      Some(s.memoryReservationEnabled), Some(s.memoryReservationThreshold),
      Some(s.highMemoryEnabled), Some(s.highMemoryThreshold),
      Some(s.gpuReservationEnabled), Some(s.gpuReservationThreshold),
      s.topic)
  }

  /** The five `*Enabled` toggles, named after their option keys. */
  datatype Toggle =
    | HighCpuEnabled
    | CpuReservationEnabled
    | HighMemoryEnabled
    | MemoryReservationEnabled
    | GpuReservationEnabled

  /** The order in which `createClusterAlarms` visits the toggles. */
  const TOGGLE_ORDER: seq<Toggle> :=
    [HighCpuEnabled, CpuReservationEnabled, HighMemoryEnabled, MemoryReservationEnabled, GpuReservationEnabled]

  function Index(t: Toggle): (i: nat)
    ensures i < |TOGGLE_ORDER| && TOGGLE_ORDER[i] == t
  {
    match t
    case HighCpuEnabled => 0
    case CpuReservationEnabled => 1
    case HighMemoryEnabled => 2
    case MemoryReservationEnabled => 3
    case GpuReservationEnabled => 4
  }

  function Enabled(s: EcsAlarmSettings, t: Toggle): bool {
    match t
    case HighCpuEnabled => s.highCpuEnabled
    case CpuReservationEnabled => s.cpuReservationEnabled
    case HighMemoryEnabled => s.highMemoryEnabled
    case MemoryReservationEnabled => s.memoryReservationEnabled
    case GpuReservationEnabled => s.gpuReservationEnabled
  }

  function Threshold(s: EcsAlarmSettings, t: Toggle): real {
    match t
    case HighCpuEnabled => s.highCpuPct
    case CpuReservationEnabled => s.cpuReservationThreshold
    case HighMemoryEnabled => s.highMemoryThreshold
    case MemoryReservationEnabled => s.memoryReservationThreshold
    case GpuReservationEnabled => s.gpuReservationThreshold
  }

  /** The `*Enabled` key of `t` in the caller's options object. */
  function EnabledKey(o: EcsAlarmOptions, t: Toggle): Option<bool> {
    match t
    case HighCpuEnabled => o.highCpuEnabled
    case CpuReservationEnabled => o.cpuReservationEnabled
    case HighMemoryEnabled => o.highMemoryEnabled
    case MemoryReservationEnabled => o.memoryReservationEnabled
    case GpuReservationEnabled => o.gpuReservationEnabled
  }

  /** The threshold key belonging to `t` in the caller's options object. */
  function ThresholdKey(o: EcsAlarmOptions, t: Toggle): Option<real> {
    match t
    case HighCpuEnabled => o.highCpuPct
    case CpuReservationEnabled => o.cpuReservationThreshold
    case HighMemoryEnabled => o.highMemoryThreshold
    case MemoryReservationEnabled => o.memoryReservationThreshold
    case GpuReservationEnabled => o.gpuReservationThreshold
  }

  /** The utilisation and CPU-reservation alarms are only made for clusters with EC2 capacity. */
  predicate NeedsEc2Capacity(t: Toggle) {
    t == HighCpuEnabled || t == CpuReservationEnabled || t == HighMemoryEnabled
  }

  /** The condition under which `createClusterAlarms` makes the alarm for `t`. */
  predicate Emits(s: EcsAlarmSettings, c: Cluster, t: Toggle) {
    Enabled(s, t) && (NeedsEc2Capacity(t) ==> c.hasEc2Capacity)
  }

  /** `options` with `<t>: false` written into it. */
  function Disable(o: EcsAlarmOptions, t: Toggle): EcsAlarmOptions {
    match t
    case HighCpuEnabled => o.(highCpuEnabled := Some(false))
    case CpuReservationEnabled => o.(cpuReservationEnabled := Some(false))
    case HighMemoryEnabled => o.(highMemoryEnabled := Some(false))
    case MemoryReservationEnabled => o.(memoryReservationEnabled := Some(false))
    case GpuReservationEnabled => o.(gpuReservationEnabled := Some(false))
  }

  /** Reference table: what each toggle's alarm is, independently of how it is built. */
  function Catalog(t: Toggle): CatalogEntry {
    match t
    case HighCpuEnabled =>
      CatalogEntry("HighCpuAlarm", NAMESPACE, "CPUUtilization", "CluserName",
                   ONE_MINUTE, GreaterThanThreshold, 90.0,
                   "High CPU Utilization: ")
    case CpuReservationEnabled =>
      CatalogEntry("CPUReservationAlarm", NAMESPACE, "CPUReservation", "ClusterName",
                   ONE_DAY, LessThanLowerThreshold, 10.0,
                   "CPU Reservation lower than threshold: ")
    case HighMemoryEnabled =>
      CatalogEntry("HighMemoryAlarm", NAMESPACE, "MemoryUtilization", "ClusterName",
                   ONE_MINUTE, GreaterThanOrEqualToThreshold, 90.0,
                   "High Memory breached threshold: ")
    case MemoryReservationEnabled =>
      CatalogEntry("MemoryReservation", NAMESPACE, "MemoryReservation", "ClusterName",
                   ONE_DAY, LessThanOrEqualToThreshold, 10.0,
                   "Memory Reservation breached threshold: ")
    case GpuReservationEnabled =>
      CatalogEntry("GPUReservation", NAMESPACE, "GPUReservation", "ClusterName",
                   ONE_DAY, LessThanOrEqualToThreshold, 10.0,
                   "Memory Reservation breached threshold: ")
  }

  // ---------------------------------------------------------------------
  // AlarmBuilder

  /** `AlarmBuilder`: the base builder plus the cluster, the metric and an optional service. */
  datatype AlarmBuilder = AlarmBuilder(base: Builder, cluster: Cluster, metric: ClusterMetric, service: Option<Service>)

  /** The constructor: base defaults, then a generic description naming the cluster. */
  function NewAlarmBuilder(c: Cluster, m: ClusterMetric): (b: AlarmBuilder)
    ensures b.base.GetAlarmDescription() == Some("Alarm for Resource: " + c.clusterName)
    ensures b.base.GetPeriod() == Some(ONE_MINUTE) && b.base.GetEvaluationPeriods() == Some(1)
    ensures b.base.GetThreshold().None? && b.base.GetOp().None?
    ensures b.base.GetStatistic().None?
    ensures b.cluster == c && b.metric == m && b.service.None?
  {
    AlarmBuilder(NewBuilder().SetDescription("Alarm for Resource: " + c.clusterName), c, m, None)
  }

  function SetService(b: AlarmBuilder, s: Service): AlarmBuilder {
    b.(service := Some(s))
  }

  /** The dimensions: always the cluster name, then the service name when a service was set. */
  function Dimensions(b: AlarmBuilder): seq<Dimension> {
    [Dimension("ClusterName", b.cluster.clusterName)]
    + (if b.service.Some? then [Dimension("ServiceName", b.service.value.serviceName)] else [])
  }

  /**
   * `AlarmBuilder.build()`. The id is the cluster's node id followed by
   * the metric name; the statistic is whatever the base builder holds.
   */
  function BuildAlarm(b: AlarmBuilder): (a: AlarmSpec)
    requires b.base.Complete()
    ensures a.id == b.cluster.nodeId + MetricName(b.metric)
    ensures a.metric.namespace == NAMESPACE && a.metric.metricName == MetricName(b.metric)
    ensures |a.metric.dimensions| >= 1 && a.metric.dimensions[0] == Dimension("ClusterName", b.cluster.clusterName)
    ensures Some(a.threshold) == b.base.GetThreshold() && Some(a.op) == b.base.GetOp()
    ensures Some(a.periodSeconds) == b.base.GetPeriod()
    ensures Some(a.description) == b.base.GetAlarmDescription()
    ensures Some(a.evaluationPeriods) == b.base.GetEvaluationPeriods()
    ensures a.actions == []
  {
    AlarmSpec(
      b.cluster.nodeId + MetricName(b.metric),
      Metric(NAMESPACE, MetricName(b.metric), Dimensions(b), b.base.GetStatistic()),
      b.base.GetThreshold().value,
      b.base.GetPeriod().value,
      b.base.GetOp().value,
      b.base.GetAlarmDescription().value,
      b.base.GetEvaluationPeriods().value,
      [])
  }

  /** Setting a service adds exactly one ServiceName dimension after the cluster one and changes nothing else. */
  lemma SetServiceAddsOneDimension(b: AlarmBuilder, s: Service)
    requires b.base.Complete() && b.service.None?
    ensures var before := BuildAlarm(b); var after := BuildAlarm(SetService(b, s));
      && before.metric.dimensions == [Dimension("ClusterName", b.cluster.clusterName)]
      && after.metric.dimensions == before.metric.dimensions + [Dimension("ServiceName", s.serviceName)]
      && after == before.(metric := before.metric.(dimensions := after.metric.dimensions))
  {
  }

  /** A statistic requested through the builder never reaches the metric. */
  lemma BuilderDropsStatistic(c: Cluster, m: ClusterMetric, t: real, p: nat, o: ComparisonOperator)
    ensures var b := NewAlarmBuilder(c, m);
      BuildAlarm(b.(base := b.base.SetStatistic(Average).SetThreshold(t).SetPeriod(p).SetOp(o))).metric.statistic.None?
  {
  }

  // ---------------------------------------------------------------------
  // The five alarms

  function CreateCpuAlarm(c: Cluster, threshold: Option<real>): AlarmSpec {
    AlarmSpec(
      c.nodeId + "HighCpuAlarm",
      Metric(NAMESPACE, MetricName(CPUUtilization), [Dimension("CluserName", c.clusterName)], None),
      Fallback(threshold, DEFAULT_ALARM_OPTIONS.highCpuPct),
      ONE_MINUTE,
      GreaterThanThreshold,
      "High CPU Utilization: " + c.clusterName,
      1,
      [])
  }

  function CreateCpuReservationAlarm(c: Cluster, threshold: Option<real>): AlarmSpec {
    AlarmSpec(
      c.nodeId + "CPUReservationAlarm",
      Metric(NAMESPACE, MetricName(CPUReservation), [Dimension("ClusterName", c.clusterName)], None),
      Fallback(threshold, DEFAULT_ALARM_OPTIONS.cpuReservationThreshold),
      ONE_DAY,
      LessThanLowerThreshold,
      "CPU Reservation lower than threshold: " + c.clusterName,
      1,
      [])
  }

  function CreateHighMemoryAlarm(c: Cluster, threshold: Option<real>): AlarmSpec {
    AlarmSpec(
      c.nodeId + "HighMemoryAlarm",
      Metric(NAMESPACE, MetricName(MemoryUtilization), [Dimension("ClusterName", c.clusterName)], None),
      Fallback(threshold, DEFAULT_ALARM_OPTIONS.highMemoryThreshold),
      ONE_MINUTE,
      GreaterThanOrEqualToThreshold,
      "High Memory breached threshold: " + c.clusterName,
      1,
      [])
  }

  function CreateMemoryReservationAlarm(c: Cluster, threshold: Option<real>): AlarmSpec {
    var b := NewAlarmBuilder(c, MemoryReservation);
    BuildAlarm(b.(base := b.base
      .SetDescription("Memory Reservation breached threshold: " + c.clusterName)
      .SetStatistic(Average)
      .SetThreshold(Fallback(threshold, DEFAULT_ALARM_OPTIONS.memoryReservationThreshold))
      .SetPeriod(ONE_DAY)
      .SetOp(LessThanOrEqualToThreshold)))
  }

  /** Built like the memory-reservation alarm, and given that alarm's description. */
  function CreateGpuReservationAlarm(c: Cluster, threshold: Option<real>): AlarmSpec {
    var b := NewAlarmBuilder(c, GPUReservation);
    BuildAlarm(b.(base := b.base
      .SetDescription("Memory Reservation breached threshold: " + c.clusterName)
      .SetStatistic(Average)
      .SetThreshold(Fallback(threshold, DEFAULT_ALARM_OPTIONS.gpuReservationThreshold))
      .SetPeriod(ONE_DAY)
      .SetOp(LessThanOrEqualToThreshold)))
  }

  /** The `create*Alarm` function behind toggle `t`. */
  function AlarmFor(c: Cluster, t: Toggle, threshold: Option<real>): AlarmSpec {
    match t
    case HighCpuEnabled => CreateCpuAlarm(c, threshold)
    case CpuReservationEnabled => CreateCpuReservationAlarm(c, threshold)
    case HighMemoryEnabled => CreateHighMemoryAlarm(c, threshold)
    case MemoryReservationEnabled => CreateMemoryReservationAlarm(c, threshold)
    case GpuReservationEnabled => CreateGpuReservationAlarm(c, threshold)
  }

  /** Every `create*Alarm` builds the alarm its catalogue row describes; a zero or absent threshold gives the row's default. */
  lemma CreatedAlarmsMatchCatalog(c: Cluster, t: Toggle, threshold: Option<real>)
    ensures Conforms(AlarmFor(c, t, threshold), Catalog(t), c.nodeId, c.clusterName, threshold)
    ensures Catalog(t).defaultThreshold == Threshold(DEFAULT_ALARM_OPTIONS, t)
  {
  }

  /** The GPU-reservation alarm reuses the memory-reservation description. */
  lemma GpuAlarmReusesMemoryDescription(c: Cluster, t1: Option<real>, t2: Option<real>)
    ensures CreateGpuReservationAlarm(c, t1).description == CreateMemoryReservationAlarm(c, t2).description
    ensures CreateGpuReservationAlarm(c, t1).description != "Alarm for Resource: " + c.clusterName
  {
  }

  // ---------------------------------------------------------------------
  // createClusterAlarms

  /** One link of the if-chain: when the toggle is on, push the alarm its create function makes from `threshold`. */
  function Step(c: Cluster, t: Toggle, on: bool, threshold: real): Option<AlarmSpec> {
    if on then Some(AlarmFor(c, t, Some(threshold))) else None
  }

  /** The if-chain of `createClusterAlarms`: one link per toggle, in the order of `TOGGLE_ORDER`. */
  function Steps(c: Cluster, s: EcsAlarmSettings): (steps: seq<Option<AlarmSpec>>)
    ensures |steps| == |TOGGLE_ORDER|
  {
    seq(|TOGGLE_ORDER|, j requires 0 <= j < |TOGGLE_ORDER| => Step(c, TOGGLE_ORDER[j], Emits(s, c, TOGGLE_ORDER[j]), Threshold(s, TOGGLE_ORDER[j])))
  }

  /** `ClusterAlarm.createClusterAlarms`: the alarms it creates, in creation order. */
  function CreateClusterAlarms(c: Cluster, options: Option<EcsAlarmOptions>): seq<AlarmSpec>
  {
    var s := Resolve(options);
    FanOut(Collect(Steps(c, s)), s.topic)
  }

  /** The ids the five alarms of `c` would carry, in toggle order. */
  function AlarmIds(c: Cluster): (ids: seq<string>)
    ensures |ids| == |TOGGLE_ORDER|
    ensures forall j :: 0 <= j < |ids| ==> ids[j] == c.nodeId + Catalog(TOGGLE_ORDER[j]).idSuffix
  {
    seq(|TOGGLE_ORDER|, j requires 0 <= j < |TOGGLE_ORDER| => c.nodeId + Catalog(TOGGLE_ORDER[j]).idSuffix)
  }

  lemma AlarmIdsDistinct(c: Cluster)
    ensures Distinct(AlarmIds(c))
  {
    var ids := AlarmIds(c);
    forall j, k | 0 <= j < k < |ids|
      ensures ids[j] != ids[k]
    {
      if ids[j] == ids[k] {
        PrefixCancel(c.nodeId, Catalog(TOGGLE_ORDER[j]).idSuffix, Catalog(TOGGLE_ORDER[k]).idSuffix);
      }
    }
  }

  /** Step `j` is the link of the `j`-th toggle, and only ever carries the `j`-th id. */
  lemma StepsFollowToggles(c: Cluster, s: EcsAlarmSettings)
    ensures |Steps(c, s)| == |TOGGLE_ORDER|
    ensures forall j :: 0 <= j < |TOGGLE_ORDER| ==>
      Steps(c, s)[j] == Step(c, TOGGLE_ORDER[j], Emits(s, c, TOGGLE_ORDER[j]), Threshold(s, TOGGLE_ORDER[j]))
    ensures Labelled(Steps(c, s), AlarmIds(c)) && Distinct(AlarmIds(c))
  {
    AlarmIdsDistinct(c);
    var steps := Steps(c, s);
    var ids := AlarmIds(c);
    forall j | 0 <= j < |TOGGLE_ORDER|
      ensures steps[j].Some? ==> steps[j].value.id == ids[j]
    {
      var t := TOGGLE_ORDER[j];
      CreatedAlarmsMatchCatalog(c, t, Some(Threshold(s, t)));
    }
  }

  /** The settings with toggle `t` off. */
  function SwitchOff(s: EcsAlarmSettings, t: Toggle): EcsAlarmSettings {
    match t
    case HighCpuEnabled => s.(highCpuEnabled := false)
    case CpuReservationEnabled => s.(cpuReservationEnabled := false)
    case HighMemoryEnabled => s.(highMemoryEnabled := false)
    case MemoryReservationEnabled => s.(memoryReservationEnabled := false)
    case GpuReservationEnabled => s.(gpuReservationEnabled := false)
  }

  lemma ResolveDisable(o: EcsAlarmOptions, t: Toggle)
    ensures Resolve(Some(Disable(o, t))) == SwitchOff(Resolve(Some(o)), t)
  {
  }

  /** Switching `t` off silences `t` alone and changes no threshold. */
  lemma SwitchOffSilencesOnly(c: Cluster, s: EcsAlarmSettings, t: Toggle, u: Toggle)
    ensures Emits(SwitchOff(s, t), c, u) == (Emits(s, c, u) && u != t)
    ensures Threshold(SwitchOff(s, t), u) == Threshold(s, u)
  {
  }

  /** Turning toggle `t` off turns off exactly the step of `t`. */
  lemma SwitchOffClearsStep(c: Cluster, s: EcsAlarmSettings, t: Toggle)
    ensures Steps(c, SwitchOff(s, t)) == Steps(c, s)[Index(t) := None]
    ensures SwitchOff(s, t).topic == s.topic
  {
    var s' := SwitchOff(s, t);
    var a := Steps(c, s');
    var b := Steps(c, s)[Index(t) := None];
    forall j | 0 <= j < |TOGGLE_ORDER|
      ensures a[j] == b[j]
    {
      var u := TOGGLE_ORDER[j];
      SwitchOffSilencesOnly(c, s, t, u);
      assert Index(u) == j;
    }
  }

  // ---------------------------------------------------------------------
  // Properties of createClusterAlarms

  /**
   * The merge, key by key: in any options object, however partially
   * filled, a key the caller supplies wins and an absent key takes its
   * default. Omitting the options and passing `{}` are the same, an
   * object spelling out every key is taken as given, and writing `false`
   * to one toggle key changes that toggle alone.
   */
  lemma ResolveMergesOverDefaults(s: EcsAlarmSettings, o: EcsAlarmOptions, t: Toggle)
    ensures forall u :: Enabled(Resolve(Some(o)), u) == EnabledKey(o, u).GetOr(Enabled(DEFAULT_ALARM_OPTIONS, u))
    ensures forall u :: Threshold(Resolve(Some(o)), u) == ThresholdKey(o, u).GetOr(Threshold(DEFAULT_ALARM_OPTIONS, u))
    ensures Resolve(Some(o)).topic == o.topic
    ensures Resolve(None) == DEFAULT_ALARM_OPTIONS
    ensures Resolve(Some(NO_OPTIONS)) == DEFAULT_ALARM_OPTIONS
    ensures Resolve(Some(Explicit(s))) == s
    ensures !Enabled(Resolve(Some(Disable(o, t))), t)
    ensures forall u :: u != t ==> Enabled(Resolve(Some(Disable(o, t))), u) == Enabled(Resolve(Some(o)), u)
    ensures forall u :: Threshold(Resolve(Some(Disable(o, t))), u) == Threshold(Resolve(Some(o)), u)
  {
  }

  /** With no options, a cluster with EC2 capacity gets exactly the CPU and memory utilisation alarms at 90, with no actions. */
  lemma DefaultClusterAlarms(c: Cluster)
    requires c.hasEc2Capacity
    ensures var r := CreateClusterAlarms(c, None);
      && r == CreateClusterAlarms(c, Some(NO_OPTIONS))
      && |r| == 2
      && r[0].metric.metricName == "CPUUtilization" && r[0].threshold == 90.0
      && r[1].metric.metricName == "MemoryUtilization" && r[1].threshold == 90.0
      && r[0].actions == [] && r[1].actions == []
  {
    var st := Steps(c, DEFAULT_ALARM_OPTIONS);
    assert st[0] == Step(c, HighCpuEnabled, true, 90.0);
    assert st[1] == None && st[3] == None && st[4] == None;
    assert st[2] == Step(c, HighMemoryEnabled, true, 90.0);
    assert st == [st[0], st[1], st[2], st[3], st[4]];
    CollectFive(st[0], st[1], st[2], st[3], st[4]);
  }

  /** Without EC2 capacity the defaults produce nothing; with every toggle off nothing is produced at all. */
  lemma NoAlarmsWhenNothingEmits(c: Cluster, o: EcsAlarmOptions)
    ensures !c.hasEc2Capacity ==> CreateClusterAlarms(c, None) == []
    ensures o.highCpuEnabled == Some(false) && o.cpuReservationEnabled == Some(false)
         && o.highMemoryEnabled == Some(false) && o.memoryReservationEnabled == Some(false)
         && o.gpuReservationEnabled == Some(false)
         ==> CreateClusterAlarms(c, Some(o)) == []
  {
    if !c.hasEc2Capacity {
      var st := Steps(c, DEFAULT_ALARM_OPTIONS);
      assert st[0] == None && st[1] == None && st[2] == None && st[3] == None && st[4] == None;
      assert st == [st[0], st[1], st[2], st[3], st[4]];
      CollectFive(st[0], st[1], st[2], st[3], st[4]);
    }
    if o.highCpuEnabled == Some(false) && o.cpuReservationEnabled == Some(false)
       && o.highMemoryEnabled == Some(false) && o.memoryReservationEnabled == Some(false)
       && o.gpuReservationEnabled == Some(false)
    {
      var st := Steps(c, Resolve(Some(o)));
      assert st[0] == None && st[1] == None && st[2] == None && st[3] == None && st[4] == None;
      assert st == [st[0], st[1], st[2], st[3], st[4]];
      CollectFive(st[0], st[1], st[2], st[3], st[4]);
    }
  }

  /** Every created alarm is its toggle's catalogue alarm at the resolved threshold, with the topic attached; they come in toggle order, with distinct ids, and a toggle's alarm is present exactly when that toggle emits. */
  lemma ClusterAlarmsContent(c: Cluster, options: Option<EcsAlarmOptions>)
    ensures var s := Resolve(options); var r := CreateClusterAlarms(c, options); var ids := AlarmIds(c);
      forall k :: 0 <= k < |r| ==>
        Rank(ids, r[k].id) < |ids|
        && var t := TOGGLE_ORDER[Rank(ids, r[k].id)];
           Emits(s, c, t) && r[k] == Attach(AlarmFor(c, t, Some(Threshold(s, t))), s.topic)
  {
    var s := Resolve(options);
    StepsFollowToggles(c, s);
    var steps := Steps(c, s);
    var r := CreateClusterAlarms(c, options);
    var ids := AlarmIds(c);
    assert r == FanOut(Collect(steps), s.topic);
    forall k | 0 <= k < |r|
      ensures Rank(ids, r[k].id) < |ids| && var t := TOGGLE_ORDER[Rank(ids, r[k].id)];
        Emits(s, c, t) && r[k] == Attach(AlarmFor(c, t, Some(Threshold(s, t))), s.topic)
    {
      AssembledContentAt(steps, ids, s.topic, k);
      var j := Rank(ids, r[k].id);
      assert steps[j] == Step(c, TOGGLE_ORDER[j], Emits(s, c, TOGGLE_ORDER[j]), Threshold(s, TOGGLE_ORDER[j]));
    }
  }

  lemma ClusterAlarmsOrder(c: Cluster, options: Option<EcsAlarmOptions>)
    ensures var s := Resolve(options); var r := CreateClusterAlarms(c, options); var ids := AlarmIds(c);
      && Distinct(Ids(r))
      && (forall k, l :: 0 <= k < l < |r| ==> Rank(ids, r[k].id) < Rank(ids, r[l].id))
  {
    var s := Resolve(options);
    StepsFollowToggles(c, s);
    AssembledOrder(Steps(c, s), AlarmIds(c), s.topic);
  }

  lemma ClusterAlarmsPresence(c: Cluster, options: Option<EcsAlarmOptions>)
    ensures var s := Resolve(options); var r := CreateClusterAlarms(c, options); var ids := AlarmIds(c);
      forall t :: ids[Index(t)] in Ids(r) <==> Emits(s, c, t)
  {
    var s := Resolve(options);
    StepsFollowToggles(c, s);
    AssembledPresence(Steps(c, s), AlarmIds(c), s.topic);
  }

  lemma ClusterAlarmsCharacterised(c: Cluster, options: Option<EcsAlarmOptions>)
    ensures var s := Resolve(options); var r := CreateClusterAlarms(c, options); var ids := AlarmIds(c);
      && Distinct(Ids(r))
      && (forall k :: 0 <= k < |r| ==>
            Rank(ids, r[k].id) < |ids|
            && var t := TOGGLE_ORDER[Rank(ids, r[k].id)];
               Emits(s, c, t) && r[k] == Attach(AlarmFor(c, t, Some(Threshold(s, t))), s.topic))
      && (forall k, l :: 0 <= k < l < |r| ==> Rank(ids, r[k].id) < Rank(ids, r[l].id))
      && (forall t :: ids[Index(t)] in Ids(r) <==> Emits(s, c, t))
  {
    ClusterAlarmsContent(c, options);
    ClusterAlarmsOrder(c, options);
    ClusterAlarmsPresence(c, options);
  }

  /** A topic, when given, becomes the single action of every created alarm; without one no alarm has an action. */
  lemma TopicFansOut(c: Cluster, options: Option<EcsAlarmOptions>)
    ensures var s := Resolve(options); var r := CreateClusterAlarms(c, options);
      forall k :: 0 <= k < |r| ==> r[k].actions == (if s.topic.Some? then [s.topic.value] else [])
  {
    var s := Resolve(options);
    var r := CreateClusterAlarms(c, options);
    ClusterAlarmsCharacterised(c, options);
    forall k | 0 <= k < |r|
      ensures r[k].actions == (if s.topic.Some? then [s.topic.value] else [])
    {
      var t := TOGGLE_ORDER[Rank(AlarmIds(c), r[k].id)];
      CreatedAlarmsMatchCatalog(c, t, Some(Threshold(s, t)));
    }
  }

  /** Writing `<t>: false` into the options removes exactly the alarm of `t` and leaves the rest, in order. */
  lemma DisablingRemovesExactlyThatAlarm(c: Cluster, o: EcsAlarmOptions, t: Toggle)
    ensures CreateClusterAlarms(c, Some(Disable(o, t)))
         == Without(CreateClusterAlarms(c, Some(o)), AlarmIds(c)[Index(t)])
  {
    var s := Resolve(Some(o));
    StepsFollowToggles(c, s);
    ResolveDisable(o, t);
    SwitchOffClearsStep(c, s, t);
    AssembledDrop(Steps(c, s), AlarmIds(c), s.topic, Index(t));
  }
}
