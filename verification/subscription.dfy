/**
 * The RDS event subscription both database catalogues configure: which
 * sources and which event categories are forwarded to an SNS topic.
 */
module Subscription {
  import opened Wrappers
  import opened CloudWatch

  /** The properties given to `CfnEventSubscription`; `sourceType` is None when the source omits it. */
  datatype EventSubscription = EventSubscription(
    id: string,
    snsTopicArn: Topic,
    sourceIds: seq<string>,
    eventCategories: seq<string>,
    sourceType: Option<string>)

  /**
   * `eventCategories ? eventCategories : defaults`. An array is always
   * truthy, so a supplied list, even an empty one, replaces the defaults.
   */
  function Categories(supplied: Option<seq<string>>, defaults: seq<string>): (r: seq<string>)
    ensures supplied.Some? ==> r == supplied.value
    ensures supplied.None? ==> r == defaults
  {
    match supplied
    case Some(cs) => cs
    case None => defaults
  }
}
