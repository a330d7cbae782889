/**
 * The CloudWatch Logs handler: a decoded subscription batch names its log
 * group and stream, and every log event in it is posted to Slack as an
 * error message.
 */
module LogEvent {
  import opened Wrappers
  import opened Text
  import opened Slack

  datatype LogRecord = LogRecord(message: string)

  /** The batch after base64 decoding, gunzip and `JSON.parse`. */
  datatype LogBatch = LogBatch(logGroup: string, logStream: string, logEvents: seq<LogRecord>)

  const HEADER := "ORCA: Error encountered"
  const GROUP_PREFIX := "*Log Group*: `"
  const STREAM_PREFIX := "*Log Stream:* `"

  /** The blocks built by `sendToSlack(message, log_stream, log_group)`. */
  function Format(cfg: SlackConfig, message: string, logStream: string, logGroup: string): SlackMessage {
    Message(cfg, message, [
      Section(HEADER),
      Section(GROUP_PREFIX + logGroup + "`"),
      Section(STREAM_PREFIX + logStream + "`"),
      Section(Code(message))
    ])
  }

  /** Reads message, stream and group back from a posted error; None when the message does not have that shape. */
  function Read(m: SlackMessage): (r: Option<(string, string, string)>)
    ensures r.Some? ==> m.text == r.value.0 && |m.blocks| == 4 && m.blocks[0] == Section(HEADER)
  {
    if m.iconEmoji == ICON_EMOJI && |m.blocks| == 4 && m.blocks[0] == Section(HEADER)
       && m.blocks[1].Section? && m.blocks[2].Section? && m.blocks[3].Section?
    then
      match (Unwrap(GROUP_PREFIX, m.blocks[1].text, "`"),
             Unwrap(STREAM_PREFIX, m.blocks[2].text, "`"),
             Unwrap("```", m.blocks[3].text, "```"))
      case (Some(g), Some(s), Some(msg)) =>
        if m.text == msg then Some((msg, s, g)) else None
      case _ => None
    else None
  }

  /** Message, stream and group read back from a posted error, which goes to the configured channel as the configured user. */
  lemma ReadFormat(cfg: SlackConfig, message: string, logStream: string, logGroup: string)
    ensures Read(Format(cfg, message, logStream, logGroup)) == Some((message, logStream, logGroup))
    ensures Format(cfg, message, logStream, logGroup).channel == cfg.channel
    ensures Format(cfg, message, logStream, logGroup).username == cfg.username
  {
    UnwrapWrap(GROUP_PREFIX, logGroup, "`");
    UnwrapWrap(STREAM_PREFIX, logStream, "`");
    UnwrapWrap("```", message, "```");
  }

  /**
   * Each input reaches exactly its own blocks: the header never changes, the
   * group only block 2, the stream only block 3, and the message only the
   * text and block 4.
   */
  lemma FieldsAreSeparate(cfg: SlackConfig, m1: string, s1: string, g1: string, m2: string, s2: string, g2: string)
    ensures var a := Format(cfg, m1, s1, g1).blocks; var b := Format(cfg, m2, s2, g2).blocks;
      && a[0] == b[0]
      && (a[1] == b[1] <==> g1 == g2)
      && (a[2] == b[2] <==> s1 == s2)
      && (a[3] == b[3] <==> m1 == m2)
      && (Format(cfg, m1, s1, g1).text == Format(cfg, m2, s2, g2).text <==> m1 == m2)
  {
    WrapInjective(GROUP_PREFIX, g1, g2, "`");
    WrapInjective(STREAM_PREFIX, s1, s2, "`");
    WrapInjective("```", m1, m2, "```");
  }

  /** `handler` after decoding: one message per log event, in batch order, each naming the batch's group and stream. */
  method Handler(cfg: SlackConfig, batch: LogBatch) returns (sent: seq<SlackMessage>)
    ensures |sent| == |batch.logEvents|
    ensures forall k :: 0 <= k < |sent| ==>
      Read(sent[k]) == Some((batch.logEvents[k].message, batch.logStream, batch.logGroup))
    ensures forall k :: 0 <= k < |sent| ==> sent[k].channel == cfg.channel && sent[k].username == cfg.username
    ensures batch.logEvents == [] ==> sent == []
  {
    sent := [];
    for i := 0 to |batch.logEvents|
      invariant |sent| == i
      invariant forall k :: 0 <= k < i ==>
        Read(sent[k]) == Some((batch.logEvents[k].message, batch.logStream, batch.logGroup))
      invariant forall k :: 0 <= k < i ==> sent[k].channel == cfg.channel && sent[k].username == cfg.username
    {
      var message := batch.logEvents[i].message;
      ReadFormat(cfg, message, batch.logStream, batch.logGroup);
      sent := sent + [Format(cfg, message, batch.logStream, batch.logGroup)];
    }
  }
}
