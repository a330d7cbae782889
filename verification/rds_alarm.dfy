/**
 * `DatabaseAlarm`: the alarm catalogue and event subscription for a
 * single RDS database instance.
 */
module RdsAlarm {
  import opened Wrappers
  import opened CloudWatch
  import opened Assembly
  import opened Subscription
  import opened RdsOptions

  const DIMENSION := "DBInstanceIdentifier"

  /** The parts of a CDK `DatabaseInstance` the catalogue reads. */
  datatype Instance = Instance(nodeId: string, instanceIdentifier: string)

  /** The toggles that produce an alarm for an instance, in the order `createInstanceAlarms` visits them. */
  datatype Toggle = HighCpuEnabled | LowMemoryEnabled | WriteLatencyEnabled | ReadLatencyEnabled

  const TOGGLE_ORDER: seq<Toggle> := [HighCpuEnabled, LowMemoryEnabled, WriteLatencyEnabled, ReadLatencyEnabled]

  function Index(t: Toggle): (i: nat)
    ensures i < |TOGGLE_ORDER| && TOGGLE_ORDER[i] == t
  {
    match t
    case HighCpuEnabled => 0
    case LowMemoryEnabled => 1
    case WriteLatencyEnabled => 2
    case ReadLatencyEnabled => 3
  }

  function Threshold(s: DatabaseAlarmSettings, t: Toggle): real {
    match t
    case HighCpuEnabled => s.highCpuPct
    case LowMemoryEnabled => s.lowMemoryBytes
    case WriteLatencyEnabled => s.writeLatencySeconds
    case ReadLatencyEnabled => s.readLatencySeconds
  }

  /** The condition under which the alarm of `t` is made; the memory alarm also needs a non-zero byte count. */
  predicate Emits(s: DatabaseAlarmSettings, t: Toggle) {
    match t
    case HighCpuEnabled => s.highCpuEnabled
    case LowMemoryEnabled => s.lowMemoryEnabled && Truthy(s.lowMemoryBytes)
    case WriteLatencyEnabled => s.writeLatencyEnabled
    case ReadLatencyEnabled => s.readLatencyEnabled
  }

  function Disable(o: DatabaseAlarmOptions, t: Toggle): DatabaseAlarmOptions {
    match t
    case HighCpuEnabled => o.(highCpuEnabled := Some(false))
    case LowMemoryEnabled => o.(lowMemoryEnabled := Some(false))
    case WriteLatencyEnabled => o.(writeLatencyEnabled := Some(false))
    case ReadLatencyEnabled => o.(readLatencyEnabled := Some(false))
  }

  function SwitchOff(s: DatabaseAlarmSettings, t: Toggle): DatabaseAlarmSettings {
    match t
    case HighCpuEnabled => s.(highCpuEnabled := false)
    case LowMemoryEnabled => s.(lowMemoryEnabled := false)
    case WriteLatencyEnabled => s.(writeLatencyEnabled := false)
    case ReadLatencyEnabled => s.(readLatencyEnabled := false)
  }

  /** Reference table: what each toggle's alarm is. */
  function Catalog(t: Toggle): CatalogEntry {
    match t
    case HighCpuEnabled =>
      CatalogEntry("HighCpuAlarm", NAMESPACE, "CPUUtilization", DIMENSION, ONE_MINUTE, GreaterThanThreshold, 90.0, "High CPU Utilization: ")
    case LowMemoryEnabled =>
      CatalogEntry("LowFreeableMemory", NAMESPACE, "FreeableMemory", DIMENSION, ONE_MINUTE, LessThanThreshold, 104857600.0, "Read Latency excceded threshold for Resource: ")
    case WriteLatencyEnabled =>
      CatalogEntry("WriteLatencyAlarm", NAMESPACE, "WriteLatency", DIMENSION, ONE_MINUTE, GreaterThanThreshold, 1.0, "Write Latency excceded threshold for Resource:")
    case ReadLatencyEnabled =>
      CatalogEntry("ReadLatencyAlarm", NAMESPACE, "ReadLatency", DIMENSION, ONE_MINUTE, GreaterThanThreshold, 1.0, "Read Latency excceded threshold for Resource: ")
  }

  // ---------------------------------------------------------------------
  // The four alarms

  function Dimensions(inst: Instance): seq<Dimension> {
    [Dimension(DIMENSION, inst.instanceIdentifier)]
  }

  function CreateCpuAlarm(inst: Instance, threshold: Option<real>): AlarmSpec {
    AlarmSpec(
      inst.nodeId + "HighCpuAlarm",
      Metric(NAMESPACE, "CPUUtilization", Dimensions(inst), None),
      Fallback(threshold, DEFAULT_ALARM_OPTIONS.highCpuPct),
      ONE_MINUTE,
      GreaterThanThreshold,
      "High CPU Utilization: " + inst.instanceIdentifier,
      1,
      [])
  }

  function CreateWriteLatencyAlarm(inst: Instance, threshold: Option<real>): AlarmSpec {
    AlarmSpec(
      inst.nodeId + "WriteLatencyAlarm",
      Metric(NAMESPACE, "WriteLatency", Dimensions(inst), None),
      Fallback(threshold, DEFAULT_ALARM_OPTIONS.writeLatencySeconds),
      ONE_MINUTE,
      GreaterThanThreshold,
      "Write Latency excceded threshold for Resource:" + inst.instanceIdentifier,
      1,
      [])
  }

  function CreateReadLatencyAlarm(inst: Instance, threshold: Option<real>): AlarmSpec {
    AlarmSpec(
      inst.nodeId + "ReadLatencyAlarm",
      Metric(NAMESPACE, "ReadLatency", Dimensions(inst), None),
      Fallback(threshold, DEFAULT_ALARM_OPTIONS.readLatencySeconds),
      ONE_MINUTE,
      GreaterThanThreshold,
      "Read Latency excceded threshold for Resource: " + inst.instanceIdentifier,
      1,
      [])
  }

  /** Carries the read-latency alarm's description. */
  function CreateFreeableMemoryAlarm(inst: Instance, threshold: Option<real>): AlarmSpec {
    AlarmSpec(
      inst.nodeId + "LowFreeableMemory",
      Metric(NAMESPACE, "FreeableMemory", Dimensions(inst), None),
      Fallback(threshold, DEFAULT_ALARM_OPTIONS.lowMemoryBytes),
      ONE_MINUTE,
      LessThanThreshold,
      "Read Latency excceded threshold for Resource: " + inst.instanceIdentifier,
      1,
      [])
  }

  function AlarmFor(inst: Instance, t: Toggle, threshold: Option<real>): AlarmSpec {
    match t
    case HighCpuEnabled => CreateCpuAlarm(inst, threshold)
    case LowMemoryEnabled => CreateFreeableMemoryAlarm(inst, threshold)
    case WriteLatencyEnabled => CreateWriteLatencyAlarm(inst, threshold)
    case ReadLatencyEnabled => CreateReadLatencyAlarm(inst, threshold)
  }

  /** Every `create*Alarm` builds the alarm its catalogue row describes; a zero or absent threshold gives the row's default. */
  lemma CreatedAlarmsMatchCatalog(inst: Instance, t: Toggle, threshold: Option<real>)
    ensures Conforms(AlarmFor(inst, t, threshold), Catalog(t), inst.nodeId, inst.instanceIdentifier, threshold)
    ensures Catalog(t).defaultThreshold == Threshold(DEFAULT_ALARM_OPTIONS, t)
  {
  }

  /** The freeable-memory alarm reuses the read-latency description. */
  lemma MemoryAlarmReusesReadLatencyDescription(inst: Instance, t1: Option<real>, t2: Option<real>)
    ensures CreateFreeableMemoryAlarm(inst, t1).description == CreateReadLatencyAlarm(inst, t2).description
  {
  }

  // ---------------------------------------------------------------------
  // createInstanceAlarms

  /** One link of the if-chain: when the toggle is on, push the alarm its create function makes from `threshold`. */
  function Step(inst: Instance, t: Toggle, on: bool, threshold: real): Option<AlarmSpec> {
    if on then Some(AlarmFor(inst, t, Some(threshold))) else None
  }

  /** The if-chain of `createInstanceAlarms`: one link per toggle, in the order of `TOGGLE_ORDER`. */
  function Steps(inst: Instance, s: DatabaseAlarmSettings): (steps: seq<Option<AlarmSpec>>)
    ensures |steps| == |TOGGLE_ORDER|
  {
    seq(|TOGGLE_ORDER|, j requires 0 <= j < |TOGGLE_ORDER| => Step(inst, TOGGLE_ORDER[j], Emits(s, TOGGLE_ORDER[j]), Threshold(s, TOGGLE_ORDER[j])))
  }

  /** `DatabaseAlarm.createInstanceAlarms`: the alarms it creates, in creation order. */
  function CreateInstanceAlarms(inst: Instance, options: Option<DatabaseAlarmOptions>): seq<AlarmSpec> {
    var s := Resolve(options);
    FanOut(Collect(Steps(inst, s)), s.topic)
  }

  function AlarmIds(inst: Instance): (ids: seq<string>)
    ensures |ids| == |TOGGLE_ORDER|
    ensures forall j :: 0 <= j < |ids| ==> ids[j] == inst.nodeId + Catalog(TOGGLE_ORDER[j]).idSuffix
  {
    seq(|TOGGLE_ORDER|, j requires 0 <= j < |TOGGLE_ORDER| => inst.nodeId + Catalog(TOGGLE_ORDER[j]).idSuffix)
  }

  lemma AlarmIdsDistinct(inst: Instance)
    ensures Distinct(AlarmIds(inst))
  {
    var ids := AlarmIds(inst);
    forall j, k | 0 <= j < k < |ids|
      ensures ids[j] != ids[k]
    {
      if ids[j] == ids[k] {
        PrefixCancel(inst.nodeId, Catalog(TOGGLE_ORDER[j]).idSuffix, Catalog(TOGGLE_ORDER[k]).idSuffix);
      }
    }
  }

  /** Step `j` is the link of the `j`-th toggle, and only ever carries the `j`-th id. */
  lemma StepsFollowToggles(inst: Instance, s: DatabaseAlarmSettings)
    ensures |Steps(inst, s)| == |TOGGLE_ORDER|
    ensures forall j :: 0 <= j < |TOGGLE_ORDER| ==>
      Steps(inst, s)[j] == Step(inst, TOGGLE_ORDER[j], Emits(s, TOGGLE_ORDER[j]), Threshold(s, TOGGLE_ORDER[j]))
    ensures Labelled(Steps(inst, s), AlarmIds(inst)) && Distinct(AlarmIds(inst))
  {
    AlarmIdsDistinct(inst);
    var steps := Steps(inst, s);
    var ids := AlarmIds(inst);
    forall j | 0 <= j < |TOGGLE_ORDER|
      ensures steps[j].Some? ==> steps[j].value.id == ids[j]
    {
      var t := TOGGLE_ORDER[j];
      CreatedAlarmsMatchCatalog(inst, t, Some(Threshold(s, t)));
    }
  }

  lemma ResolveDisable(o: DatabaseAlarmOptions, t: Toggle)
    ensures Resolve(Some(Disable(o, t))) == SwitchOff(Resolve(Some(o)), t)
  {
  }

  /** Switching `t` off silences `t` alone and changes no threshold. */
  lemma SwitchOffSilencesOnly(s: DatabaseAlarmSettings, t: Toggle, u: Toggle)
    ensures Emits(SwitchOff(s, t), u) == (Emits(s, u) && u != t)
    ensures Threshold(SwitchOff(s, t), u) == Threshold(s, u)
  {
  }

  /** Turning toggle `t` off turns off exactly the step of `t`. */
  lemma SwitchOffClearsStep(inst: Instance, s: DatabaseAlarmSettings, t: Toggle)
    ensures Steps(inst, SwitchOff(s, t)) == Steps(inst, s)[Index(t) := None]
    ensures SwitchOff(s, t).topic == s.topic
  {
    var s' := SwitchOff(s, t);
    var a := Steps(inst, s');
    var b := Steps(inst, s)[Index(t) := None];
    forall j | 0 <= j < |TOGGLE_ORDER|
      ensures a[j] == b[j]
    {
      var u := TOGGLE_ORDER[j];
      SwitchOffSilencesOnly(s, t, u);
      assert Index(u) == j;
    }
  }

  // ---------------------------------------------------------------------
  // Properties of createInstanceAlarms

  /** With no options the instance gets CPU (90), freeable memory (100 MiB), write latency (1) and read latency (1), in that order. */
  lemma DefaultInstanceAlarms(inst: Instance)
    ensures var r := CreateInstanceAlarms(inst, None);
      && r == CreateInstanceAlarms(inst, Some(NO_OPTIONS))
      && |r| == 4
      && r[0].metric.metricName == "CPUUtilization" && r[0].threshold == 90.0
      && r[1].metric.metricName == "FreeableMemory" && r[1].threshold == 104857600.0
      && r[2].metric.metricName == "WriteLatency" && r[2].threshold == 1.0
      && r[3].metric.metricName == "ReadLatency" && r[3].threshold == 1.0
  {
    var st := Steps(inst, DEFAULT_ALARM_OPTIONS);
    assert st[0] == Step(inst, HighCpuEnabled, true, 90.0);
    assert st[1] == Step(inst, LowMemoryEnabled, true, 104857600.0);
    assert st[2] == Step(inst, WriteLatencyEnabled, true, 1.0);
    assert st[3] == Step(inst, ReadLatencyEnabled, true, 1.0);
    assert st == [st[0], st[1], st[2], st[3]];
    CollectFour(st[0], st[1], st[2], st[3]);
  }

  /** The deadlock options change nothing: no step of the chain reads them. */
  lemma DeadlockOptionsIgnored(inst: Instance, o: DatabaseAlarmOptions, enabled: Option<bool>, threshold: Option<real>)
    ensures CreateInstanceAlarms(inst, Some(o.(deadLockEnabled := enabled, deadlockThreshold := threshold)))
         == CreateInstanceAlarms(inst, Some(o))
  {
    var s := Resolve(Some(o));
    var s' := Resolve(Some(o.(deadLockEnabled := enabled, deadlockThreshold := threshold)));
    assert s' == s.(deadLockEnabled := s'.deadLockEnabled, deadlockThreshold := s'.deadlockThreshold);
    assert Steps(inst, s') == Steps(inst, s);
  }

  lemma AlarmForWatchesNoDeadlocks(inst: Instance, t: Toggle, threshold: Option<real>)
    ensures AlarmFor(inst, t, threshold).metric.metricName != "Deadlocks"
  {
  }

  /** No alarm an instance gets watches deadlocks. */
  lemma NoDeadlockAlarm(inst: Instance, options: Option<DatabaseAlarmOptions>)
    ensures forall a :: a in CreateInstanceAlarms(inst, options) ==> a.metric.metricName != "Deadlocks"
  {
    var s := Resolve(options);
    var r := CreateInstanceAlarms(inst, options);
    InstanceAlarmsContent(inst, options);
    forall a | a in r
      ensures a.metric.metricName != "Deadlocks"
    {
      var k :| 0 <= k < |r| && r[k] == a;
      var t := TOGGLE_ORDER[Rank(AlarmIds(inst), r[k].id)];
      AlarmForWatchesNoDeadlocks(inst, t, Some(Threshold(s, t)));
    }
  }

  /** With all four emitting toggles off nothing is produced. */
  lemma AllTogglesOffGivesNothing(inst: Instance, o: DatabaseAlarmOptions)
    requires o.highCpuEnabled == Some(false) && o.lowMemoryEnabled == Some(false)
    requires o.readLatencyEnabled == Some(false) && o.writeLatencyEnabled == Some(false)
    ensures CreateInstanceAlarms(inst, Some(o)) == []
  {
    var st := Steps(inst, Resolve(Some(o)));
    assert st[0] == None && st[1] == None && st[2] == None && st[3] == None;
    assert st == [st[0], st[1], st[2], st[3]];
    CollectFour(st[0], st[1], st[2], st[3]);
  }

  /** The memory alarm needs both its toggle and a non-zero byte count. */
  lemma MemoryAlarmNeedsBytes(inst: Instance, o: DatabaseAlarmOptions)
    ensures var r := CreateInstanceAlarms(inst, Some(o)); var s := Resolve(Some(o));
      AlarmIds(inst)[Index(LowMemoryEnabled)] in Ids(r) <==> s.lowMemoryEnabled && s.lowMemoryBytes != 0.0
  {
    InstanceAlarmsCharacterised(inst, Some(o));
  }

  /** Every created alarm is its toggle's catalogue alarm at the resolved threshold with the topic attached; they come in toggle order with distinct ids, and a toggle's alarm is present exactly when that toggle emits. */
  lemma InstanceAlarmsContent(inst: Instance, options: Option<DatabaseAlarmOptions>)
    ensures var s := Resolve(options); var r := CreateInstanceAlarms(inst, options); var ids := AlarmIds(inst);
      forall k :: 0 <= k < |r| ==>
        Rank(ids, r[k].id) < |ids|
        && var t := TOGGLE_ORDER[Rank(ids, r[k].id)];
           Emits(s, t) && r[k] == Attach(AlarmFor(inst, t, Some(Threshold(s, t))), s.topic)
  {
    var s := Resolve(options);
    StepsFollowToggles(inst, s);
    var steps := Steps(inst, s);
    var r := CreateInstanceAlarms(inst, options);
    var ids := AlarmIds(inst);
    assert r == FanOut(Collect(steps), s.topic);
    forall k | 0 <= k < |r|
      ensures Rank(ids, r[k].id) < |ids| && var t := TOGGLE_ORDER[Rank(ids, r[k].id)];
        Emits(s, t) && r[k] == Attach(AlarmFor(inst, t, Some(Threshold(s, t))), s.topic)
    {
      AssembledContentAt(steps, ids, s.topic, k);
      var j := Rank(ids, r[k].id);
      assert steps[j] == Step(inst, TOGGLE_ORDER[j], Emits(s, TOGGLE_ORDER[j]), Threshold(s, TOGGLE_ORDER[j]));
    }
  }

  lemma InstanceAlarmsOrder(inst: Instance, options: Option<DatabaseAlarmOptions>)
    ensures var s := Resolve(options); var r := CreateInstanceAlarms(inst, options); var ids := AlarmIds(inst);
      && Distinct(Ids(r))
      && (forall k, l :: 0 <= k < l < |r| ==> Rank(ids, r[k].id) < Rank(ids, r[l].id))
  {
    var s := Resolve(options);
    StepsFollowToggles(inst, s);
    AssembledOrder(Steps(inst, s), AlarmIds(inst), s.topic);
  }

  lemma InstanceAlarmsPresence(inst: Instance, options: Option<DatabaseAlarmOptions>)
    ensures var s := Resolve(options); var r := CreateInstanceAlarms(inst, options); var ids := AlarmIds(inst);
      forall t :: ids[Index(t)] in Ids(r) <==> Emits(s, t)
  {
    var s := Resolve(options);
    StepsFollowToggles(inst, s);
    AssembledPresence(Steps(inst, s), AlarmIds(inst), s.topic);
  }

  lemma InstanceAlarmsCharacterised(inst: Instance, options: Option<DatabaseAlarmOptions>)
    ensures var s := Resolve(options); var r := CreateInstanceAlarms(inst, options); var ids := AlarmIds(inst);
      && Distinct(Ids(r))
      && (forall k :: 0 <= k < |r| ==>
            Rank(ids, r[k].id) < |ids|
            && var t := TOGGLE_ORDER[Rank(ids, r[k].id)];
               Emits(s, t) && r[k] == Attach(AlarmFor(inst, t, Some(Threshold(s, t))), s.topic))
      && (forall k, l :: 0 <= k < l < |r| ==> Rank(ids, r[k].id) < Rank(ids, r[l].id))
      && (forall t :: ids[Index(t)] in Ids(r) <==> Emits(s, t))
  {
    InstanceAlarmsContent(inst, options);
    InstanceAlarmsOrder(inst, options);
    InstanceAlarmsPresence(inst, options);
  }

  /** Each alarm of the catalogue watches the resource by DBInstanceIdentifier in AWS/RDS over one 60-second period. */
  lemma AlarmForShape(inst: Instance, t: Toggle, threshold: Option<real>)
    ensures var a := AlarmFor(inst, t, threshold);
      && a.metric.namespace == NAMESPACE
      && a.metric.dimensions == [Dimension(DIMENSION, inst.instanceIdentifier)]
      && a.periodSeconds == ONE_MINUTE && a.evaluationPeriods == 1 && a.actions == []
  {
    CreatedAlarmsMatchCatalog(inst, t, threshold);
  }

  /** Every alarm watches the instance by DBInstanceIdentifier over one 60-second period, and carries exactly the topic when one is given. */
  lemma InstanceAlarmsShape(inst: Instance, options: Option<DatabaseAlarmOptions>)
    ensures var s := Resolve(options); var r := CreateInstanceAlarms(inst, options);
      forall k :: 0 <= k < |r| ==>
        && r[k].metric.namespace == NAMESPACE
        && r[k].metric.dimensions == [Dimension(DIMENSION, inst.instanceIdentifier)]
        && r[k].periodSeconds == ONE_MINUTE && r[k].evaluationPeriods == 1
        && r[k].actions == (if s.topic.Some? then [s.topic.value] else [])
  {
    var s := Resolve(options);
    var r := CreateInstanceAlarms(inst, options);
    InstanceAlarmsCharacterised(inst, options);
    forall k | 0 <= k < |r|
      ensures r[k].metric.namespace == NAMESPACE
      ensures r[k].metric.dimensions == [Dimension(DIMENSION, inst.instanceIdentifier)]
      ensures r[k].periodSeconds == ONE_MINUTE && r[k].evaluationPeriods == 1
      ensures r[k].actions == (if s.topic.Some? then [s.topic.value] else [])
    {
      var t := TOGGLE_ORDER[Rank(AlarmIds(inst), r[k].id)];
      AlarmForShape(inst, t, Some(Threshold(s, t)));
    }
  }

  /** Writing `<t>: false` into the options removes exactly the alarm of `t` and leaves the rest, in order. */
  lemma DisablingRemovesExactlyThatAlarm(inst: Instance, o: DatabaseAlarmOptions, t: Toggle)
    ensures CreateInstanceAlarms(inst, Some(Disable(o, t)))
         == Without(CreateInstanceAlarms(inst, Some(o)), AlarmIds(inst)[Index(t)])
  {
    var s := Resolve(Some(o));
    StepsFollowToggles(inst, s);
    ResolveDisable(o, t);
    SwitchOffClearsStep(inst, s, t);
    AssembledDrop(Steps(inst, s), AlarmIds(inst), s.topic, Index(t));
  }

  // ---------------------------------------------------------------------
  // createEventSubscription

  const DEFAULT_EVENT_CATEGORIES: seq<string> := [
    "availability",
    "backup",
    "configuration change",
    "creation",
    "deletion",
    "failover",
    "failure",
    "low storage",
    "read replica",
    "recovery"
  ]

  /** `DatabaseAlarm.createEventSubscription`: the instance as sole source, no source type. */
  function CreateEventSubscription(id: string, inst: Instance, topic: Topic, eventCategories: Option<seq<string>>): (sub: EventSubscription)
    ensures sub.id == id + "EventSubscription"
    ensures sub.sourceIds == [inst.instanceIdentifier] && sub.snsTopicArn == topic
    ensures sub.sourceType.None?
    ensures eventCategories.None? ==> sub.eventCategories == [
      "availability", "backup", "configuration change", "creation", "deletion",
      "failover", "failure", "low storage", "read replica", "recovery"]
    ensures eventCategories.Some? ==> sub.eventCategories == eventCategories.value
  {
    EventSubscription(id + "EventSubscription", topic, [inst.instanceIdentifier],
                      Categories(eventCategories, DEFAULT_EVENT_CATEGORIES), None)
  }
}
