/**
 * The options shared by the RDS instance and the Aurora cluster
 * catalogues: both declare the same keys with the same defaults, and both
 * merge the caller's object over those defaults.
 */
module RdsOptions {
  import opened Wrappers
  import opened CloudWatch

  const NAMESPACE := "AWS/RDS"

  /** `DatabaseAlarmOptions` (and the identical `DatabaseClusterAlarmOptions`) as the caller writes it: every key may be absent. */
  datatype DatabaseAlarmOptions = DatabaseAlarmOptions(
    highCpuEnabled: Option<bool>,
    highCpuPct: Option<real>,
    lowMemoryEnabled: Option<bool>,
    lowMemoryBytes: Option<real>,
    readLatencyEnabled: Option<bool>,
    readLatencySeconds: Option<real>,
    writeLatencyEnabled: Option<bool>,
    writeLatencySeconds: Option<real>,
    deadLockEnabled: Option<bool>,
    deadlockThreshold: Option<real>,
    topic: Option<Topic>)

  /** The options after the defaults are merged in. */
  datatype DatabaseAlarmSettings = DatabaseAlarmSettings(
    highCpuEnabled: bool,
    highCpuPct: real,
    lowMemoryEnabled: bool,
    lowMemoryBytes: real,
    readLatencyEnabled: bool,
    readLatencySeconds: real,
    writeLatencyEnabled: bool,
    writeLatencySeconds: real,
    deadLockEnabled: bool,
    deadlockThreshold: real,
    topic: Option<Topic>)

  const DEFAULT_ALARM_OPTIONS := DatabaseAlarmSettings(
    highCpuEnabled := true,
    highCpuPct := 90.0,
    lowMemoryEnabled := true,
    lowMemoryBytes := (100 * 1024 * 1024) as real,
    readLatencyEnabled := true,
    readLatencySeconds := 1.0,
    writeLatencyEnabled := true,
    writeLatencySeconds := 1.0,
    deadLockEnabled := true,
    deadlockThreshold := 1.0,
    topic := None)

  const NO_OPTIONS := DatabaseAlarmOptions(None, None, None, None, None, None, None, None, None, None, None)

  /** `{...DEFAULT_ALARM_OPTIONS, ...options}`. */
  function Resolve(options: Option<DatabaseAlarmOptions>): DatabaseAlarmSettings {
    match options
    case None => DEFAULT_ALARM_OPTIONS
    case Some(o) =>
      var d := DEFAULT_ALARM_OPTIONS;
      DatabaseAlarmSettings(
        o.highCpuEnabled.GetOr(d.highCpuEnabled),
        o.highCpuPct.GetOr(d.highCpuPct),
        o.lowMemoryEnabled.GetOr(d.lowMemoryEnabled),
        o.lowMemoryBytes.GetOr(d.lowMemoryBytes),
        o.readLatencyEnabled.GetOr(d.readLatencyEnabled),
        o.readLatencySeconds.GetOr(d.readLatencySeconds),
        o.writeLatencyEnabled.GetOr(d.writeLatencyEnabled),
        o.writeLatencySeconds.GetOr(d.writeLatencySeconds),
        o.deadLockEnabled.GetOr(d.deadLockEnabled),
        o.deadlockThreshold.GetOr(d.deadlockThreshold),
        o.topic)
  }

  /** The options object that spells out every key of `s`. */
  function Explicit(s: DatabaseAlarmSettings): DatabaseAlarmOptions {
    DatabaseAlarmOptions(
      Some(s.highCpuEnabled), Some(s.highCpuPct),
      Some(s.lowMemoryEnabled), Some(s.lowMemoryBytes),
      Some(s.readLatencyEnabled), Some(s.readLatencySeconds),
      Some(s.writeLatencyEnabled), Some(s.writeLatencySeconds),
      Some(s.deadLockEnabled), Some(s.deadlockThreshold),
      s.topic)
  }

  /**
   * The merge, key by key: in any options object, however partially
   * filled, a key the caller supplies wins and an absent key takes its
   * default. Omitting the options and passing `{}` are the same, and an
   * options object spelling out every key is taken as given.
   */
  lemma ResolveMergesOverDefaults(s: DatabaseAlarmSettings, o: DatabaseAlarmOptions)
    ensures var r := Resolve(Some(o)); var d := DEFAULT_ALARM_OPTIONS;
      && r.highCpuEnabled == o.highCpuEnabled.GetOr(d.highCpuEnabled)
      && r.highCpuPct == o.highCpuPct.GetOr(d.highCpuPct)
      && r.lowMemoryEnabled == o.lowMemoryEnabled.GetOr(d.lowMemoryEnabled)
      && r.lowMemoryBytes == o.lowMemoryBytes.GetOr(d.lowMemoryBytes)
      && r.readLatencyEnabled == o.readLatencyEnabled.GetOr(d.readLatencyEnabled)
      && r.readLatencySeconds == o.readLatencySeconds.GetOr(d.readLatencySeconds)
      && r.writeLatencyEnabled == o.writeLatencyEnabled.GetOr(d.writeLatencyEnabled)
      && r.writeLatencySeconds == o.writeLatencySeconds.GetOr(d.writeLatencySeconds)
      && r.deadLockEnabled == o.deadLockEnabled.GetOr(d.deadLockEnabled)
      && r.deadlockThreshold == o.deadlockThreshold.GetOr(d.deadlockThreshold)
      && r.topic == o.topic
    ensures Resolve(None) == DEFAULT_ALARM_OPTIONS
    ensures Resolve(Some(NO_OPTIONS)) == DEFAULT_ALARM_OPTIONS
    ensures Resolve(Some(Explicit(s))) == s
  {
  }
}
