/**
 * The ECS event handler: an EventBridge task-state or service-action
 * event is decoded into a change record, which is rendered as a Slack
 * message of five sections.
 */
module EcsEvent {
  import opened Wrappers
  import opened Text
  import opened Slack

  const TASK_STATE_CHANGE := "ECS Task State Change"
  const SERVICE_STATE_CHANGE := "ECS Service Action"

  const INFO := "INFO"
  const WARN := "WARN"
  const ERROR := "ERROR"

  const UNHANDLED := "unhandled ECS detail type"

  /** `ECS_SERVICE_EVENT_TYPES`: the description of each service-action event name. */
  const SERVICE_EVENT_TYPES: map<string, string> := map[
    "SERVICE_STEADY_STATE" :=
      "The service is healthy and at the desired number of tasks, thus reaching a steady state.",
    "TASKSET_STEADY_STATE" :=
      "The task set is healthy and at the desired number of tasks, thus reaching a steady state.",
    "CAPACITY_PROVIDER_STEADY_STATE" :=
      " A capacity provider associated with a service reaches a steady state.",
    "SERVICE_DESIRED_COUNT_UPDATED" :=
      "When the service scheduler updates the computed desired count for a service or task set. This event is not sent when the desired count is manually updated by a user.",
    "SERVICE_TASK_START_IMPAIRED" :=
      "The service is unable to consistently start tasks successfully.",
    "SERVICE_DISCOVERY_INSTANCE_UNHEALTHY" :=
      "A service using service discovery contains an unhealthy task. The service scheduler detects that a task within a service registry is unhealthy.",
    "SERVICE_DAEMON_PLACEMENT_CONSTRAINT_VIOLATED" :=
      "A task in a service using the DAEMON service scheduler strategy no longer meets the placement constraint strategy for the service.",
    "ECS_OPERATION_THROTTLED" :=
      "The service scheduler has been throttled due to the Amazon ECS API throttle limits.",
    "SERVICE_DISCOVERY_OPERATION_THROTTLED" :=
      "The service scheduler has been throttled due to the AWS Cloud Map API throttle limits. This can occur on services configured to use service discovery.",
    "SERVICE_TASK_PLACEMENT_FAILURE" :=
      "The service scheduler is unable to place a task.",
    "SERVICE_TASK_CONFIGURATION_FAILURE" :=
      "The service scheduler is unable to place a task due to a configuration error. The cause will be described in the reason field."
  ]

  datatype Container = Container(name: string, lastStatus: string)

  /** The `detail` fields the handler reads; the statuses may be absent. */
  datatype EcsDetail = EcsDetail(
    clusterArn: string,
    containers: seq<Container>,
    desiredStatus: Option<string>,
    lastStatus: Option<string>,
    eventType: string,
    eventName: string)

  /** An EventBridge event: its `detail-type`, `detail` and `resources`. */
  datatype EcsEventRecord = EcsEventRecord(detailType: string, detail: EcsDetail, resources: seq<string>)

  /** `ECSChange`. */
  datatype EcsChange = EcsChange(
    clusterName: string,
    lastStatus: Option<string>,
    desiredStatus: Option<string>,
    extra: string,
    eventType: string)

  // ---------------------------------------------------------------------
  // Decoding

  function ContainerLine(c: Container): string {
    "Container: " + c.name + " status: " + c.lastStatus
  }

  function ContainerLines(cs: seq<Container>): (r: seq<string>)
    ensures |r| == |cs|
    ensures forall k :: 0 <= k < |cs| ==> r[k] == ContainerLine(cs[k])
  {
    seq(|cs|, k requires 0 <= k < |cs| => ContainerLine(cs[k]))
  }

  /** `handle_task_state_change`: one line per container, ERROR when the task stopped. */
  function HandleTaskStateChange(d: EcsDetail): (ch: EcsChange)
    ensures ch.clusterName == d.clusterArn
    ensures ch.lastStatus == d.lastStatus && ch.desiredStatus == d.desiredStatus
    ensures ch.eventType == ERROR <==> d.lastStatus == Some("STOPPED")
    ensures ch.eventType == INFO <==> d.lastStatus != Some("STOPPED")
  {
    EcsChange(
      d.clusterArn,
      d.lastStatus,
      d.desiredStatus,
      Join(ContainerLines(d.containers), '\n'),
      if d.lastStatus == Some("STOPPED") then ERROR else INFO)
  }

  /** The container lines can be read back from a task change's `extra`, provided no name or status holds a newline. */
  lemma TaskExtraLists(d: EcsDetail)
    requires |d.containers| > 0
    requires forall k :: 0 <= k < |d.containers| ==> '\n' !in d.containers[k].name && '\n' !in d.containers[k].lastStatus
    ensures var lines := Split(HandleTaskStateChange(d).extra, '\n');
      && |lines| == |d.containers|
      && forall k :: 0 <= k < |lines| ==> lines[k] == "Container: " + d.containers[k].name + " status: " + d.containers[k].lastStatus
  {
    var lines := ContainerLines(d.containers);
    forall k | 0 <= k < |lines|
      ensures '\n' !in lines[k]
    {
      var c := d.containers[k];
      assert lines[k] == "Container: " + c.name + " status: " + c.lastStatus;
    }
    SplitJoin(lines, '\n');
  }

  /** Example: a task with no containers has an empty `extra`. */
  lemma TaskWithoutContainers(d: EcsDetail)
    requires d.containers == []
    ensures HandleTaskStateChange(d).extra == ""
  {
  }

  /** `ECS_SERVICE_EVENT_TYPES[name]` concatenated into a string: an unknown name gives "undefined". */
  function ServiceDescription(name: string): (r: string)
    ensures name in SERVICE_EVENT_TYPES ==> r == SERVICE_EVENT_TYPES[name]
    ensures r == "undefined" <==> name !in SERVICE_EVENT_TYPES
  {
    if name in SERVICE_EVENT_TYPES then SERVICE_EVENT_TYPES[name] else "undefined"
  }

  /** `event.resources[0]` concatenated into a string. */
  function FirstResource(resources: seq<string>): string {
    if |resources| > 0 then resources[0] else "undefined"
  }

  /** `handle_service_state_change`: no statuses, severity from the event, the service and its event description as `extra`. */
  function HandleServiceStateChange(e: EcsEventRecord): (ch: EcsChange)
    ensures ch.lastStatus.None? && ch.desiredStatus.None?
    ensures ch.clusterName == e.detail.clusterArn && ch.eventType == e.detail.eventType
    ensures Unwrap("Service: ", ch.extra, ", " + ServiceDescription(e.detail.eventName)) == Some(FirstResource(e.resources))
  {
    var ch := EcsChange(
      e.detail.clusterArn,
      None,
      None,
      "Service: " + FirstResource(e.resources) + ", " + ServiceDescription(e.detail.eventName),
      e.detail.eventType);
    assert ch.extra == "Service: " + FirstResource(e.resources) + (", " + ServiceDescription(e.detail.eventName));
    UnwrapWrap("Service: ", FirstResource(e.resources), ", " + ServiceDescription(e.detail.eventName));
    ch
  }

  // ---------------------------------------------------------------------
  // Formatting

  /** `status ? status : "UNKNOWN"`: an absent or empty status renders as UNKNOWN. */
  function StatusText(status: Option<string>): (r: string)
    ensures r != ""
    ensures status.Some? && status.value != "" ==> r == status.value
    ensures r == "UNKNOWN" <==> status.None? || status.value == "" || status.value == "UNKNOWN"
  {
    match status
    case Some(s) => if s != "" then s else "UNKNOWN"
    case None => "UNKNOWN"
  }

  const CLUSTER_PREFIX := "*Cluster*: `"
  const DESIRED_PREFIX := "*Desired Status:* `"
  const LAST_PREFIX := "*Last Status:* `"

  /** The blocks built by `sendToSlack`. */
  function Format(cfg: SlackConfig, ch: EcsChange): SlackMessage {
    Message(cfg, ch.extra, [
      Section("ORCA: ECS " + ch.eventType + " event"),
      Section(CLUSTER_PREFIX + ch.clusterName + "`"),
      Section(DESIRED_PREFIX + StatusText(ch.desiredStatus) + "`"),
      Section(LAST_PREFIX + StatusText(ch.lastStatus) + "`"),
      Section(Code(ch.extra))
    ])
  }

  /** What a reader of the posted message sees: severity, cluster, both statuses as rendered, and the detail text. */
  datatype EcsView = EcsView(eventType: string, clusterName: string, desiredStatus: string, lastStatus: string, extra: string)

  function View(ch: EcsChange): EcsView {
    EcsView(ch.eventType, ch.clusterName, StatusText(ch.desiredStatus), StatusText(ch.lastStatus), ch.extra)
  }

  /** Reads the five sections of a posted ECS message back; None when the message does not have that shape. */
  function Read(m: SlackMessage): (r: Option<EcsView>)
    ensures r.Some? ==> m.text == r.value.extra && |m.blocks| == 5
  {
    if m.iconEmoji == ICON_EMOJI && |m.blocks| == 5
       && m.blocks[0].Section? && m.blocks[1].Section? && m.blocks[2].Section?
       && m.blocks[3].Section? && m.blocks[4].Section?
    then
      match (Unwrap("ORCA: ECS ", m.blocks[0].text, " event"),
             Unwrap(CLUSTER_PREFIX, m.blocks[1].text, "`"),
             Unwrap(DESIRED_PREFIX, m.blocks[2].text, "`"),
             Unwrap(LAST_PREFIX, m.blocks[3].text, "`"),
             Unwrap("```", m.blocks[4].text, "```"))
      case (Some(t), Some(c), Some(ds), Some(ls), Some(x)) =>
        if m.text == x then Some(EcsView(t, c, ds, ls, x)) else None
      case _ => None
    else None
  }

  /** Everything the change holds, with the statuses as rendered, can be read back from the message. */
  lemma ReadFormat(cfg: SlackConfig, ch: EcsChange)
    ensures Read(Format(cfg, ch)) == Some(View(ch))
    ensures Format(cfg, ch).channel == cfg.channel && Format(cfg, ch).username == cfg.username
  {
    UnwrapWrap("ORCA: ECS ", ch.eventType, " event");
    UnwrapWrap(CLUSTER_PREFIX, ch.clusterName, "`");
    UnwrapWrap(DESIRED_PREFIX, StatusText(ch.desiredStatus), "`");
    UnwrapWrap(LAST_PREFIX, StatusText(ch.lastStatus), "`");
    UnwrapWrap("```", ch.extra, "```");
  }

  // ---------------------------------------------------------------------
  // handler

  /** `handler`: dispatch on the detail type; on success the change is returned together with the message posted for it. */
  function Handler(cfg: SlackConfig, e: EcsEventRecord): (r: Result<(EcsChange, SlackMessage), string>)
    ensures r.Failure? <==> e.detailType != TASK_STATE_CHANGE && e.detailType != SERVICE_STATE_CHANGE
    ensures r.Failure? ==> r.error == UNHANDLED
    ensures r.Success? ==> Read(r.value.1) == Some(View(r.value.0))
    ensures r.Success? ==> r.value.1.channel == cfg.channel && r.value.1.username == cfg.username
    ensures r.Success? && e.detailType == TASK_STATE_CHANGE ==> r.value.0 == HandleTaskStateChange(e.detail)
    ensures r.Success? && e.detailType == SERVICE_STATE_CHANGE ==> r.value.0 == HandleServiceStateChange(e)
  {
    var change :=
      if e.detailType == TASK_STATE_CHANGE then Some(HandleTaskStateChange(e.detail))
      else if e.detailType == SERVICE_STATE_CHANGE then Some(HandleServiceStateChange(e))
      else None;
    match change
    case None => Failure(UNHANDLED)
    case Some(ch) =>
      ReadFormat(cfg, ch);
      Success((ch, Format(cfg, ch)))
  }

  /** Example: a task change's message header names its severity, ERROR exactly for a stopped task. */
  lemma StoppedTaskIsError(cfg: SlackConfig, e: EcsEventRecord)
    requires e.detailType == TASK_STATE_CHANGE
    ensures var r := Handler(cfg, e);
      && r.Success?
      && r.value.1.blocks[0] == Section("ORCA: ECS " + (if e.detail.lastStatus == Some("STOPPED") then "ERROR" else "INFO") + " event")
  {
  }
}
