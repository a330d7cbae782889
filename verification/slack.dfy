/**
 * The Slack message every handler posts: the channel and user name come
 * from the environment (an unset one is dropped by `JSON.stringify`), the
 * icon is fixed, and the body is a sequence of Block Kit blocks.
 */
module Slack {
  import opened Wrappers
  import opened Text

  /** `SLACK_CHANNELNAME` and `SLACK_USERNAME`. */
  datatype SlackConfig = SlackConfig(channel: Option<string>, username: Option<string>)

  /** A `mrkdwn` section, a section of `mrkdwn` fields, or a divider. */
  datatype Block = Section(text: string) | Fields(fields: seq<string>) | Divider

  datatype SlackMessage = SlackMessage(
    channel: Option<string>,
    username: Option<string>,
    text: string,
    iconEmoji: string,
    blocks: seq<Block>)

  const ICON_EMOJI := ":whale2:"

  function Message(cfg: SlackConfig, text: string, blocks: seq<Block>): SlackMessage {
    SlackMessage(cfg.channel, cfg.username, text, ICON_EMOJI, blocks)
  }

  /** A triple-backtick code span. */
  function Code(s: string): string {
    "```" + s + "```"
  }
}
