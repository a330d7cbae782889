/**
 * The RDS event handler: an "RDS DB Instance Event" is decoded into a
 * change record and rendered as a Slack message of three sections.
 */
module RdsEvent {
  import opened Wrappers
  import opened Text
  import opened Slack

  const INSTANCE_EVENT := "RDS DB Instance Event"
  const UNHANDLED := "unhandled RDS detail type or uninteresting event"

  /** The `detail` fields the handler reads. */
  datatype RdsDetail = RdsDetail(sourceArn: string, message: string, eventCategories: seq<string>)

  datatype RdsEventRecord = RdsEventRecord(detailType: string, detail: RdsDetail)

  /** `RDSChange`. */
  datatype RdsChange = RdsChange(dbInstanceIdentifier: string, message: string, eventType: string)

  /** `handle_instance_state_change`: the categories become one comma-separated event type. */
  function HandleInstanceStateChange(d: RdsDetail): (ch: RdsChange)
    ensures ch.dbInstanceIdentifier == d.sourceArn && ch.message == d.message
    ensures |d.eventCategories| == 1 ==> ch.eventType == d.eventCategories[0]
    ensures d.eventCategories == [] ==> ch.eventType == ""
  {
    RdsChange(d.sourceArn, d.message, Join(d.eventCategories, ','))
  }

  /** The categories can be read back from the event type when there is at least one and none holds a comma. */
  lemma CategoriesRecoverable(d: RdsDetail)
    requires |d.eventCategories| > 0
    requires forall k :: 0 <= k < |d.eventCategories| ==> ',' !in d.eventCategories[k]
    ensures Split(HandleInstanceStateChange(d).eventType, ',') == d.eventCategories
  {
    SplitJoin(d.eventCategories, ',');
  }

  const INSTANCE_PREFIX := "*RDS Instance*: `"

  /** The blocks built by `sendToSlack`. */
  function Format(cfg: SlackConfig, ch: RdsChange): SlackMessage {
    Message(cfg, ch.message, [
      Section("RDS " + ch.eventType + " event"),
      Section(INSTANCE_PREFIX + ch.dbInstanceIdentifier + "`"),
      Section(Code(ch.message))
    ])
  }

  /** Reads the change back from a posted RDS message; None when the message does not have that shape. */
  function Read(m: SlackMessage): (r: Option<RdsChange>)
    ensures r.Some? ==> m.text == r.value.message && |m.blocks| == 3
  {
    if m.iconEmoji == ICON_EMOJI && |m.blocks| == 3
       && m.blocks[0].Section? && m.blocks[1].Section? && m.blocks[2].Section?
    then
      match (Unwrap("RDS ", m.blocks[0].text, " event"),
             Unwrap(INSTANCE_PREFIX, m.blocks[1].text, "`"),
             Unwrap("```", m.blocks[2].text, "```"))
      case (Some(t), Some(id), Some(msg)) =>
        if m.text == msg then Some(RdsChange(id, msg, t)) else None
      case _ => None
    else None
  }

  /** The posted message determines the change completely, and goes to the configured channel as the configured user. */
  lemma ReadFormat(cfg: SlackConfig, ch: RdsChange)
    ensures Read(Format(cfg, ch)) == Some(ch)
    ensures Format(cfg, ch).channel == cfg.channel && Format(cfg, ch).username == cfg.username
  {
    UnwrapWrap("RDS ", ch.eventType, " event");
    UnwrapWrap(INSTANCE_PREFIX, ch.dbInstanceIdentifier, "`");
    UnwrapWrap("```", ch.message, "```");
  }

  /** `handler`: only instance events are handled; `sendToSlack` returns the change it was given. */
  function Handler(cfg: SlackConfig, e: RdsEventRecord): (r: Result<(RdsChange, SlackMessage), string>)
    ensures r.Failure? <==> e.detailType != INSTANCE_EVENT
    ensures r.Failure? ==> r.error == UNHANDLED
    ensures r.Success? ==> r.value.0 == HandleInstanceStateChange(e.detail) && Read(r.value.1) == Some(r.value.0)
    ensures r.Success? ==> r.value.1.channel == cfg.channel && r.value.1.username == cfg.username
  {
    if e.detailType == INSTANCE_EVENT then
      var ch := HandleInstanceStateChange(e.detail);
      ReadFormat(cfg, ch);
      Success((ch, Format(cfg, ch)))
    else
      Failure(UNHANDLED)
  }

  /** Example: a single "failover" category gives event type "failover" and the header "RDS failover event". */
  lemma FailoverExample(cfg: SlackConfig, e: RdsEventRecord)
    requires e.detailType == INSTANCE_EVENT && e.detail.eventCategories == ["failover"]
    ensures var r := Handler(cfg, e);
      r.Success? && r.value.0.eventType == "failover" && r.value.1.blocks[0] == Section("RDS failover event")
  {
  }
}
