/**
 * The CloudWatch alarm handler: every SNS record of an invocation carries
 * an alarm notification, and each is posted to Slack as a header, the
 * state-change time with account and region, and the reason.
 */
module AlarmEvent {
  import opened Wrappers
  import opened Text
  import opened Slack

  const DEFAULT_TIMEZONE := "Australia/Sydney"

  /** The fields of the alarm notification (the parsed SNS `Message`) the handler reads. */
  datatype AlarmMessage = AlarmMessage(
    region: string,
    awsAccountId: string,
    alarmName: string,
    stateChangeTime: string,
    newStateReason: string,
    alarmDescription: string)

  /** An SNS record: its `Subject` and the notification in its `Message`. */
  datatype SnsRecord = SnsRecord(subject: string, message: AlarmMessage)

  datatype AlarmInvocation = AlarmInvocation(records: seq<SnsRecord>)

  /** `process.env.TIMEZONE || "Australia/Sydney"`: unset or empty falls back to Sydney. */
  function TimeZone(env: Option<string>): (tz: string)
    ensures tz != ""
    ensures env.Some? && env.value != "" ==> tz == env.value
    ensures tz == DEFAULT_TIMEZONE <==> env.None? || env.value == "" || env.value == DEFAULT_TIMEZONE
  {
    match env
    case Some(v) => if v != "" then v else DEFAULT_TIMEZONE
    case None => DEFAULT_TIMEZONE
  }

  const HEADER_PREFIX := ":alarm_clock: *Alarm Triggered*: "
  const TIME_PREFIX := "*State Change*: "
  const ACCOUNT_PREFIX := "*Account:* "
  const REGION_PREFIX := "*Region:* "

  /**
   * The blocks built by `sendToSlack`. `renderTime(time, tz)` stands for
   * `new Date(time).toLocaleString("en-AU", { timeZone: tz })`.
   */
  function Format(cfg: SlackConfig, env: Option<string>, renderTime: (string, string) -> string, rec: SnsRecord): SlackMessage {
    var m := rec.message;
    Message(cfg, rec.subject, [
      Section(HEADER_PREFIX + m.alarmDescription),
      Divider,
      Fields([
        TIME_PREFIX + renderTime(m.stateChangeTime, TimeZone(env)),
        ACCOUNT_PREFIX + m.awsAccountId,
        REGION_PREFIX + m.region
      ]),
      Divider,
      Section(m.newStateReason)
    ])
  }

  /** What a reader of the posted alarm sees. */
  datatype AlarmView = AlarmView(subject: string, description: string, time: string, account: string, region: string, reason: string)

  function View(env: Option<string>, renderTime: (string, string) -> string, rec: SnsRecord): AlarmView {
    AlarmView(rec.subject, rec.message.alarmDescription,
              renderTime(rec.message.stateChangeTime, TimeZone(env)),
              rec.message.awsAccountId, rec.message.region, rec.message.newStateReason)
  }

  /** Reads a posted alarm back: section, divider, three fields, divider, section. */
  function Read(m: SlackMessage): (r: Option<AlarmView>)
    ensures r.Some? ==> m.text == r.value.subject && |m.blocks| == 5 && m.blocks[1] == Divider && m.blocks[3] == Divider
    ensures r.Some? ==> m.blocks[4] == Section(r.value.reason)
  {
    if m.iconEmoji == ICON_EMOJI && |m.blocks| == 5
       && m.blocks[0].Section? && m.blocks[1] == Divider && m.blocks[2].Fields?
       && |m.blocks[2].fields| == 3 && m.blocks[3] == Divider && m.blocks[4].Section?
    then
      var fs := m.blocks[2].fields;
      match (Unwrap(HEADER_PREFIX, m.blocks[0].text, ""),
             Unwrap(TIME_PREFIX, fs[0], ""),
             Unwrap(ACCOUNT_PREFIX, fs[1], ""),
             Unwrap(REGION_PREFIX, fs[2], ""))
      case (Some(d), Some(t), Some(a), Some(g)) =>
        Some(AlarmView(m.text, d, t, a, g, m.blocks[4].text))
      case _ => None
    else None
  }

  /**
   * Subject, description, rendered time, account, region and reason can
   * all be read back from the message, in that layout; the message goes to
   * the configured channel as the configured user.
   */
  lemma ReadFormat(cfg: SlackConfig, env: Option<string>, renderTime: (string, string) -> string, rec: SnsRecord)
    ensures Read(Format(cfg, env, renderTime, rec)) == Some(View(env, renderTime, rec))
    ensures Format(cfg, env, renderTime, rec).channel == cfg.channel
    ensures Format(cfg, env, renderTime, rec).username == cfg.username
  {
    var m := rec.message;
    var time := renderTime(m.stateChangeTime, TimeZone(env));
    UnwrapWrap(HEADER_PREFIX, m.alarmDescription, "");
    UnwrapWrap(TIME_PREFIX, time, "");
    UnwrapWrap(ACCOUNT_PREFIX, m.awsAccountId, "");
    UnwrapWrap(REGION_PREFIX, m.region, "");
    assert HEADER_PREFIX + m.alarmDescription + "" == HEADER_PREFIX + m.alarmDescription;
    assert TIME_PREFIX + time + "" == TIME_PREFIX + time;
    assert ACCOUNT_PREFIX + m.awsAccountId + "" == ACCOUNT_PREFIX + m.awsAccountId;
    assert REGION_PREFIX + m.region + "" == REGION_PREFIX + m.region;
  }

  /** `handler`: one message per record, in record order; the invocation is returned as it came. */
  method Handler(cfg: SlackConfig, env: Option<string>, renderTime: (string, string) -> string, event: AlarmInvocation)
    returns (sent: seq<SlackMessage>, result: AlarmInvocation)
    ensures result == event
    ensures |sent| == |event.records|
    ensures forall k :: 0 <= k < |sent| ==> Read(sent[k]) == Some(View(env, renderTime, event.records[k]))
    ensures forall k :: 0 <= k < |sent| ==> sent[k].text == event.records[k].subject
    ensures forall k :: 0 <= k < |sent| ==> sent[k].channel == cfg.channel && sent[k].username == cfg.username
  {
    sent := [];
    var i := 0;
    while i < |event.records|
      invariant 0 <= i <= |event.records|
      invariant |sent| == i
      invariant forall k :: 0 <= k < i ==> Read(sent[k]) == Some(View(env, renderTime, event.records[k]))
      invariant forall k :: 0 <= k < i ==> sent[k].channel == cfg.channel && sent[k].username == cfg.username
    {
      ReadFormat(cfg, env, renderTime, event.records[i]);
      sent := sent + [Format(cfg, env, renderTime, event.records[i])];
      i := i + 1;
    }
    result := event;
  }
}
