/**
 * `DatabaseClusterAlarm`: the alarm catalogue and event subscription for
 * an Aurora database cluster. Unlike the instance catalogue it has a
 * deadlock alarm, checks read latency before write latency, and its
 * descriptions have no space after the colon.
 */
module RdsClusterAlarm {
  import opened Wrappers
  import opened CloudWatch
  import opened Assembly
  import opened Subscription
  import opened RdsOptions

  const DIMENSION := "DBClusterIdentifier"

  /** The parts of a CDK `DatabaseCluster` the catalogue reads. */
  datatype DbCluster = DbCluster(nodeId: string, clusterIdentifier: string)

  /** The toggles of a cluster, in the order `createClusterAlarms` visits them. */
  datatype Toggle = HighCpuEnabled | LowMemoryEnabled | ReadLatencyEnabled | WriteLatencyEnabled | DeadLockEnabled

  const TOGGLE_ORDER: seq<Toggle> := [HighCpuEnabled, LowMemoryEnabled, ReadLatencyEnabled, WriteLatencyEnabled, DeadLockEnabled]

  function Index(t: Toggle): (i: nat)
    ensures i < |TOGGLE_ORDER| && TOGGLE_ORDER[i] == t
  {
    match t
    case HighCpuEnabled => 0
    case LowMemoryEnabled => 1
    case ReadLatencyEnabled => 2
    case WriteLatencyEnabled => 3
    case DeadLockEnabled => 4
  }

  function Threshold(s: DatabaseAlarmSettings, t: Toggle): real {
    match t
    case HighCpuEnabled => s.highCpuPct
    case LowMemoryEnabled => s.lowMemoryBytes
    case ReadLatencyEnabled => s.readLatencySeconds
    case WriteLatencyEnabled => s.writeLatencySeconds
    case DeadLockEnabled => s.deadlockThreshold
  }

  /** The condition under which the alarm of `t` is made; the memory alarm also needs a non-zero byte count. */
  predicate Emits(s: DatabaseAlarmSettings, t: Toggle) {
    match t
    case HighCpuEnabled => s.highCpuEnabled
    case LowMemoryEnabled => s.lowMemoryEnabled && Truthy(s.lowMemoryBytes)
    case ReadLatencyEnabled => s.readLatencyEnabled
    case WriteLatencyEnabled => s.writeLatencyEnabled
    case DeadLockEnabled => s.deadLockEnabled
  }

  function Disable(o: DatabaseAlarmOptions, t: Toggle): DatabaseAlarmOptions {
    match t
    case HighCpuEnabled => o.(highCpuEnabled := Some(false))
    case LowMemoryEnabled => o.(lowMemoryEnabled := Some(false))
    case ReadLatencyEnabled => o.(readLatencyEnabled := Some(false))
    case WriteLatencyEnabled => o.(writeLatencyEnabled := Some(false))
    case DeadLockEnabled => o.(deadLockEnabled := Some(false))
  }

  function SwitchOff(s: DatabaseAlarmSettings, t: Toggle): DatabaseAlarmSettings {
    match t
    case HighCpuEnabled => s.(highCpuEnabled := false)
    case LowMemoryEnabled => s.(lowMemoryEnabled := false)
    case ReadLatencyEnabled => s.(readLatencyEnabled := false)
    case WriteLatencyEnabled => s.(writeLatencyEnabled := false)
    case DeadLockEnabled => s.(deadLockEnabled := false)
  }

  /** Reference table: what each toggle's alarm is. */
  function Catalog(t: Toggle): CatalogEntry {
    match t
    case HighCpuEnabled =>
      CatalogEntry("HighCpuAlarm", NAMESPACE, "CPUUtilization", DIMENSION, ONE_MINUTE, GreaterThanThreshold, 90.0, "High CPU Utilization:")
    case LowMemoryEnabled =>
      CatalogEntry("LowFreeableMemory", NAMESPACE, "FreeableMemory", DIMENSION, ONE_MINUTE, LessThanThreshold, 104857600.0, "Read Latency excceded threshold for Resource:")
    case ReadLatencyEnabled =>
      CatalogEntry("ReadLatencyAlarm", NAMESPACE, "ReadLatency", DIMENSION, ONE_MINUTE, GreaterThanThreshold, 1.0, "Read Latency excceded threshold for Resource:")
    case WriteLatencyEnabled =>
      CatalogEntry("WriteLatencyAlarm", NAMESPACE, "WriteLatency", DIMENSION, ONE_MINUTE, GreaterThanThreshold, 1.0, "Write Latency excceded threshold for Resource:")
    case DeadLockEnabled =>
      CatalogEntry("Deadlocks", NAMESPACE, "Deadlocks", DIMENSION, ONE_MINUTE, GreaterThanOrEqualToThreshold, 1.0, "Deadlock threshold for Resource:")
  }

  // ---------------------------------------------------------------------
  // The five alarms

  function Dimensions(c: DbCluster): seq<Dimension> {
    [Dimension(DIMENSION, c.clusterIdentifier)]
  }

  function CreateCpuAlarm(c: DbCluster, threshold: Option<real>): AlarmSpec {
    AlarmSpec(
      c.nodeId + "HighCpuAlarm",
      Metric(NAMESPACE, "CPUUtilization", Dimensions(c), None),
      Fallback(threshold, DEFAULT_ALARM_OPTIONS.highCpuPct),
      ONE_MINUTE,
      GreaterThanThreshold,
      "High CPU Utilization:" + c.clusterIdentifier,
      1,
      [])
  }

  function CreateWriteLatencyAlarm(c: DbCluster, threshold: Option<real>): AlarmSpec {
    AlarmSpec(
      c.nodeId + "WriteLatencyAlarm",
      Metric(NAMESPACE, "WriteLatency", Dimensions(c), None),
      Fallback(threshold, DEFAULT_ALARM_OPTIONS.writeLatencySeconds),
      ONE_MINUTE,
      GreaterThanThreshold,
      "Write Latency excceded threshold for Resource:" + c.clusterIdentifier,
      1,
      [])
  }

  function CreateReadLatencyAlarm(c: DbCluster, threshold: Option<real>): AlarmSpec {
    AlarmSpec(
      c.nodeId + "ReadLatencyAlarm",
      Metric(NAMESPACE, "ReadLatency", Dimensions(c), None),
      Fallback(threshold, DEFAULT_ALARM_OPTIONS.readLatencySeconds),
      ONE_MINUTE,
      GreaterThanThreshold,
      "Read Latency excceded threshold for Resource:" + c.clusterIdentifier,
      1,
      [])
  }

  /** Carries the read-latency alarm's description. */
  function CreateFreeableMemoryAlarm(c: DbCluster, threshold: Option<real>): AlarmSpec {
    AlarmSpec(
      c.nodeId + "LowFreeableMemory",
      Metric(NAMESPACE, "FreeableMemory", Dimensions(c), None),
      Fallback(threshold, DEFAULT_ALARM_OPTIONS.lowMemoryBytes),
      ONE_MINUTE,
      LessThanThreshold,
      "Read Latency excceded threshold for Resource:" + c.clusterIdentifier,
      1,
      [])
  }

  function CreateDeadlockAlarm(c: DbCluster, threshold: Option<real>): AlarmSpec {
    AlarmSpec(
      c.nodeId + "Deadlocks",
      Metric(NAMESPACE, "Deadlocks", Dimensions(c), None),
      Fallback(threshold, DEFAULT_ALARM_OPTIONS.deadlockThreshold),
      ONE_MINUTE,
      GreaterThanOrEqualToThreshold,
      "Deadlock threshold for Resource:" + c.clusterIdentifier,
      1,
      [])
  }

  function AlarmFor(c: DbCluster, t: Toggle, threshold: Option<real>): AlarmSpec {
    match t
    case HighCpuEnabled => CreateCpuAlarm(c, threshold)
    case LowMemoryEnabled => CreateFreeableMemoryAlarm(c, threshold)
    case ReadLatencyEnabled => CreateReadLatencyAlarm(c, threshold)
    case WriteLatencyEnabled => CreateWriteLatencyAlarm(c, threshold)
    case DeadLockEnabled => CreateDeadlockAlarm(c, threshold)
  }

  /** Every `create*Alarm` builds the alarm its catalogue row describes; a zero or absent threshold gives the row's default. */
  lemma CreatedAlarmsMatchCatalog(c: DbCluster, t: Toggle, threshold: Option<real>)
    ensures Conforms(AlarmFor(c, t, threshold), Catalog(t), c.nodeId, c.clusterIdentifier, threshold)
    ensures Catalog(t).defaultThreshold == Threshold(DEFAULT_ALARM_OPTIONS, t)
  {
  }

  /** The freeable-memory alarm reuses the read-latency description. */
  lemma MemoryAlarmReusesReadLatencyDescription(c: DbCluster, t1: Option<real>, t2: Option<real>)
    ensures CreateFreeableMemoryAlarm(c, t1).description == CreateReadLatencyAlarm(c, t2).description
  {
  }

  // ---------------------------------------------------------------------
  // createClusterAlarms

  /** One link of the if-chain: when the toggle is on, push the alarm its create function makes from `threshold`. */
  function Step(c: DbCluster, t: Toggle, on: bool, threshold: real): Option<AlarmSpec> {
    if on then Some(AlarmFor(c, t, Some(threshold))) else None
  }

  /** The if-chain of `createClusterAlarms`: one link per toggle, in the order of `TOGGLE_ORDER`. */
  function Steps(c: DbCluster, s: DatabaseAlarmSettings): (steps: seq<Option<AlarmSpec>>)
    ensures |steps| == |TOGGLE_ORDER|
  {
    seq(|TOGGLE_ORDER|, j requires 0 <= j < |TOGGLE_ORDER| => Step(c, TOGGLE_ORDER[j], Emits(s, TOGGLE_ORDER[j]), Threshold(s, TOGGLE_ORDER[j])))
  }

  /** `DatabaseClusterAlarm.createClusterAlarms`: the alarms it creates, in creation order. */
  function CreateClusterAlarms(c: DbCluster, options: Option<DatabaseAlarmOptions>): seq<AlarmSpec> {
    var s := Resolve(options);
    FanOut(Collect(Steps(c, s)), s.topic)
  }

  function AlarmIds(c: DbCluster): (ids: seq<string>)
    ensures |ids| == |TOGGLE_ORDER|
    ensures forall j :: 0 <= j < |ids| ==> ids[j] == c.nodeId + Catalog(TOGGLE_ORDER[j]).idSuffix
  {
    seq(|TOGGLE_ORDER|, j requires 0 <= j < |TOGGLE_ORDER| => c.nodeId + Catalog(TOGGLE_ORDER[j]).idSuffix)
  }

  lemma AlarmIdsDistinct(c: DbCluster)
    ensures Distinct(AlarmIds(c))
  {
    var ids := AlarmIds(c);
    forall j, k | 0 <= j < k < |ids|
      ensures ids[j] != ids[k]
    {
      if ids[j] == ids[k] {
        PrefixCancel(c.nodeId, Catalog(TOGGLE_ORDER[j]).idSuffix, Catalog(TOGGLE_ORDER[k]).idSuffix);
      }
    }
  }

  /** Step `j` is the link of the `j`-th toggle, and only ever carries the `j`-th id. */
  lemma StepsFollowToggles(c: DbCluster, s: DatabaseAlarmSettings)
    ensures |Steps(c, s)| == |TOGGLE_ORDER|
    ensures forall j :: 0 <= j < |TOGGLE_ORDER| ==>
      Steps(c, s)[j] == Step(c, TOGGLE_ORDER[j], Emits(s, TOGGLE_ORDER[j]), Threshold(s, TOGGLE_ORDER[j]))
    ensures Labelled(Steps(c, s), AlarmIds(c)) && Distinct(AlarmIds(c))
  {
    AlarmIdsDistinct(c);
    var steps := Steps(c, s);
    var ids := AlarmIds(c);
    forall j | 0 <= j < |TOGGLE_ORDER|
      ensures steps[j].Some? ==> steps[j].value.id == ids[j]
    {
      var t := TOGGLE_ORDER[j];
      CreatedAlarmsMatchCatalog(c, t, Some(Threshold(s, t)));
    }
  }

  lemma ResolveDisable(o: DatabaseAlarmOptions, t: Toggle)
    ensures Resolve(Some(Disable(o, t))) == SwitchOff(Resolve(Some(o)), t)
  {
  }

  /** Switching `t` off silences `t` alone and changes no threshold. */
  lemma SwitchOffSilencesOnly(s: DatabaseAlarmSettings, t: Toggle, u: Toggle)
    ensures Emits(SwitchOff(s, t), u) == (Emits(s, u) && u != t)
    ensures Threshold(SwitchOff(s, t), u) == Threshold(s, u)
  {
  }

  /** Turning toggle `t` off turns off exactly the step of `t`. */
  lemma SwitchOffClearsStep(c: DbCluster, s: DatabaseAlarmSettings, t: Toggle)
    ensures Steps(c, SwitchOff(s, t)) == Steps(c, s)[Index(t) := None]
    ensures SwitchOff(s, t).topic == s.topic
  {
    var s' := SwitchOff(s, t);
    var a := Steps(c, s');
    var b := Steps(c, s)[Index(t) := None];
    forall j | 0 <= j < |TOGGLE_ORDER|
      ensures a[j] == b[j]
    {
      var u := TOGGLE_ORDER[j];
      SwitchOffSilencesOnly(s, t, u);
      assert Index(u) == j;
    }
  }

  // ---------------------------------------------------------------------
  // Properties of createClusterAlarms

  /** With no options the cluster gets CPU (90), freeable memory (100 MiB), read latency (1), write latency (1) and deadlocks (1), in that order. */
  lemma DefaultClusterAlarms(c: DbCluster)
    ensures var r := CreateClusterAlarms(c, None);
      && r == CreateClusterAlarms(c, Some(NO_OPTIONS))
      && |r| == 5
      && r[0].metric.metricName == "CPUUtilization" && r[0].threshold == 90.0
      && r[1].metric.metricName == "FreeableMemory" && r[1].threshold == 104857600.0
      && r[2].metric.metricName == "ReadLatency" && r[2].threshold == 1.0
      && r[3].metric.metricName == "WriteLatency" && r[3].threshold == 1.0
      && r[4].metric.metricName == "Deadlocks" && r[4].threshold == 1.0
  {
    DefaultCollect(c);
    assert Resolve(None) == DEFAULT_ALARM_OPTIONS;
    assert Resolve(Some(NO_OPTIONS)) == DEFAULT_ALARM_OPTIONS;
  }

  lemma DefaultCollect(c: DbCluster)
    ensures Collect(Steps(c, DEFAULT_ALARM_OPTIONS)) == [
      AlarmFor(c, HighCpuEnabled, Some(90.0)), AlarmFor(c, LowMemoryEnabled, Some(104857600.0)),
      AlarmFor(c, ReadLatencyEnabled, Some(1.0)), AlarmFor(c, WriteLatencyEnabled, Some(1.0)),
      AlarmFor(c, DeadLockEnabled, Some(1.0))]
  {
    var st := Steps(c, DEFAULT_ALARM_OPTIONS);
    assert st[0] == Step(c, HighCpuEnabled, true, 90.0);
    assert st[1] == Step(c, LowMemoryEnabled, true, 104857600.0);
    assert st[2] == Step(c, ReadLatencyEnabled, true, 1.0);
    assert st[3] == Step(c, WriteLatencyEnabled, true, 1.0);
    assert st[4] == Step(c, DeadLockEnabled, true, 1.0);
    assert st == [st[0], st[1], st[2], st[3], st[4]];
    CollectFive(st[0], st[1], st[2], st[3], st[4]);
  }

  /** With all five toggles off nothing is produced. */
  lemma AllTogglesOffGivesNothing(c: DbCluster, o: DatabaseAlarmOptions)
    requires o.highCpuEnabled == Some(false) && o.lowMemoryEnabled == Some(false)
    requires o.readLatencyEnabled == Some(false) && o.writeLatencyEnabled == Some(false)
    requires o.deadLockEnabled == Some(false)
    ensures CreateClusterAlarms(c, Some(o)) == []
  {
    var st := Steps(c, Resolve(Some(o)));
    assert st[0] == None && st[1] == None && st[2] == None && st[3] == None && st[4] == None;
    assert st == [st[0], st[1], st[2], st[3], st[4]];
    CollectFive(st[0], st[1], st[2], st[3], st[4]);
  }

  /** A supplied non-zero `highCpuPct` is the first alarm's threshold whenever the CPU alarm is not switched off. */
  lemma ExplicitCpuThreshold(c: DbCluster, o: DatabaseAlarmOptions, pct: real)
    requires o.highCpuEnabled != Some(false) && o.highCpuPct == Some(pct) && pct != 0.0
    ensures var r := CreateClusterAlarms(c, Some(o));
      |r| > 0 && r[0].metric.metricName == "CPUUtilization" && r[0].threshold == pct
  {
    var st := Steps(c, Resolve(Some(o)));
    assert st[0] == Step(c, HighCpuEnabled, true, pct);
    assert st == [st[0]] + st[1..];
    CollectAppend([st[0]], st[1..]);
    CollectSnocStep([], st[0]);
    assert [] + [st[0]] == [st[0]];
  }

  /** The memory alarm needs both its toggle and a non-zero byte count. */
  lemma MemoryAlarmNeedsBytes(c: DbCluster, o: DatabaseAlarmOptions)
    ensures var r := CreateClusterAlarms(c, Some(o)); var s := Resolve(Some(o));
      AlarmIds(c)[Index(LowMemoryEnabled)] in Ids(r) <==> s.lowMemoryEnabled && s.lowMemoryBytes != 0.0
  {
    ClusterAlarmsCharacterised(c, Some(o));
  }

  /** Every created alarm is its toggle's catalogue alarm at the resolved threshold with the topic attached; they come in toggle order with distinct ids, and a toggle's alarm is present exactly when that toggle emits. */
  lemma ClusterAlarmsContent(c: DbCluster, options: Option<DatabaseAlarmOptions>)
    ensures var s := Resolve(options); var r := CreateClusterAlarms(c, options); var ids := AlarmIds(c);
      forall k :: 0 <= k < |r| ==>
        Rank(ids, r[k].id) < |ids|
        && var t := TOGGLE_ORDER[Rank(ids, r[k].id)];
           Emits(s, t) && r[k] == Attach(AlarmFor(c, t, Some(Threshold(s, t))), s.topic)
  {
    var s := Resolve(options);
    StepsFollowToggles(c, s);
    var steps := Steps(c, s);
    var r := CreateClusterAlarms(c, options);
    var ids := AlarmIds(c);
    assert r == FanOut(Collect(steps), s.topic);
    forall k | 0 <= k < |r|
      ensures Rank(ids, r[k].id) < |ids| && var t := TOGGLE_ORDER[Rank(ids, r[k].id)];
        Emits(s, t) && r[k] == Attach(AlarmFor(c, t, Some(Threshold(s, t))), s.topic)
    {
      AssembledContentAt(steps, ids, s.topic, k);
      var j := Rank(ids, r[k].id);
      assert steps[j] == Step(c, TOGGLE_ORDER[j], Emits(s, TOGGLE_ORDER[j]), Threshold(s, TOGGLE_ORDER[j]));
    }
  }

  lemma ClusterAlarmsOrder(c: DbCluster, options: Option<DatabaseAlarmOptions>)
    ensures var s := Resolve(options); var r := CreateClusterAlarms(c, options); var ids := AlarmIds(c);
      && Distinct(Ids(r))
      && (forall k, l :: 0 <= k < l < |r| ==> Rank(ids, r[k].id) < Rank(ids, r[l].id))
  {
    var s := Resolve(options);
    StepsFollowToggles(c, s);
    AssembledOrder(Steps(c, s), AlarmIds(c), s.topic);
  }

  lemma ClusterAlarmsPresence(c: DbCluster, options: Option<DatabaseAlarmOptions>)
    ensures var s := Resolve(options); var r := CreateClusterAlarms(c, options); var ids := AlarmIds(c);
      forall t :: ids[Index(t)] in Ids(r) <==> Emits(s, t)
  {
    var s := Resolve(options);
    StepsFollowToggles(c, s);
    AssembledPresence(Steps(c, s), AlarmIds(c), s.topic);
  }

  lemma ClusterAlarmsCharacterised(c: DbCluster, options: Option<DatabaseAlarmOptions>)
    ensures var s := Resolve(options); var r := CreateClusterAlarms(c, options); var ids := AlarmIds(c);
      && Distinct(Ids(r))
      && (forall k :: 0 <= k < |r| ==>
            Rank(ids, r[k].id) < |ids|
            && var t := TOGGLE_ORDER[Rank(ids, r[k].id)];
               Emits(s, t) && r[k] == Attach(AlarmFor(c, t, Some(Threshold(s, t))), s.topic))
      && (forall k, l :: 0 <= k < l < |r| ==> Rank(ids, r[k].id) < Rank(ids, r[l].id))
      && (forall t :: ids[Index(t)] in Ids(r) <==> Emits(s, t))
  {
    ClusterAlarmsContent(c, options);
    ClusterAlarmsOrder(c, options);
    ClusterAlarmsPresence(c, options);
  }

  /** Each alarm of the catalogue watches the resource by DBClusterIdentifier in AWS/RDS over one 60-second period. */
  lemma AlarmForShape(c: DbCluster, t: Toggle, threshold: Option<real>)
    ensures var a := AlarmFor(c, t, threshold);
      && a.metric.namespace == NAMESPACE
      && a.metric.dimensions == [Dimension(DIMENSION, c.clusterIdentifier)]
      && a.periodSeconds == ONE_MINUTE && a.evaluationPeriods == 1 && a.actions == []
  {
    CreatedAlarmsMatchCatalog(c, t, threshold);
  }

  /** Every alarm watches the cluster by DBClusterIdentifier over one 60-second period, and carries exactly the topic when one is given. */
  lemma ClusterAlarmsShape(c: DbCluster, options: Option<DatabaseAlarmOptions>)
    ensures var s := Resolve(options); var r := CreateClusterAlarms(c, options);
      forall k :: 0 <= k < |r| ==>
        && r[k].metric.namespace == NAMESPACE
        && r[k].metric.dimensions == [Dimension(DIMENSION, c.clusterIdentifier)]
        && r[k].periodSeconds == ONE_MINUTE && r[k].evaluationPeriods == 1
        && r[k].actions == (if s.topic.Some? then [s.topic.value] else [])
  {
    var s := Resolve(options);
    var r := CreateClusterAlarms(c, options);
    ClusterAlarmsCharacterised(c, options);
    forall k | 0 <= k < |r|
      ensures r[k].metric.namespace == NAMESPACE
      ensures r[k].metric.dimensions == [Dimension(DIMENSION, c.clusterIdentifier)]
      ensures r[k].periodSeconds == ONE_MINUTE && r[k].evaluationPeriods == 1
      ensures r[k].actions == (if s.topic.Some? then [s.topic.value] else [])
    {
      var t := TOGGLE_ORDER[Rank(AlarmIds(c), r[k].id)];
      AlarmForShape(c, t, Some(Threshold(s, t)));
    }
  }

  /** Writing `<t>: false` into the options removes exactly the alarm of `t` and leaves the rest, in order. */
  lemma DisablingRemovesExactlyThatAlarm(c: DbCluster, o: DatabaseAlarmOptions, t: Toggle)
    ensures CreateClusterAlarms(c, Some(Disable(o, t)))
         == Without(CreateClusterAlarms(c, Some(o)), AlarmIds(c)[Index(t)])
  {
    var s := Resolve(Some(o));
    StepsFollowToggles(c, s);
    ResolveDisable(o, t);
    SwitchOffClearsStep(c, s, t);
    AssembledDrop(Steps(c, s), AlarmIds(c), s.topic, Index(t));
  }

  // ---------------------------------------------------------------------
  // createEventSubscription

  const DEFAULT_EVENT_CATEGORIES: seq<string> := ["failover", "failure", "maintenance", "notification"]

  /** `DatabaseClusterAlarm.createEventSubscription`: the cluster as sole source, of source type `db-cluster`. */
  function CreateEventSubscription(id: string, c: DbCluster, topic: Topic, eventCategories: Option<seq<string>>): (sub: EventSubscription)
    ensures sub.id == id + "EventSubscription"
    ensures sub.sourceIds == [c.clusterIdentifier] && sub.snsTopicArn == topic
    ensures sub.sourceType == Some("db-cluster")
    ensures eventCategories.None? ==> sub.eventCategories == ["failover", "failure", "maintenance", "notification"]
    ensures eventCategories.Some? ==> sub.eventCategories == eventCategories.value
  {
    EventSubscription(id + "EventSubscription", topic, [c.clusterIdentifier],
                      Categories(eventCategories, DEFAULT_EVENT_CATEGORIES), Some("db-cluster"))
  }
}
