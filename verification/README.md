# cdk-alarms, modelled in Dafny

cdk-alarms is a small AWS CDK library. It gives ECS clusters, RDS database
instances and RDS database clusters a catalogue of CloudWatch alarms with
sensible defaults. It also ships the Lambda handlers that turn operational
events into Slack messages:

- ECS task and service events;
- RDS instance events;
- CloudWatch alarms arriving over SNS;
- CloudWatch Logs error batches.

This project models the core of both halves.

**Alarm catalogues.** `lib/base_alarm.ts`, `lib/ecs_alarm.ts`,
`lib/rds_alarm.ts` and `lib/rds_cluster_alarm.ts` are modelled as pure
functions that return the alarms a call would add to the stack, in creation
order (`EcsAlarm.CreateClusterAlarms`, `RdsAlarm.CreateInstanceAlarms`,
`RdsClusterAlarm.CreateClusterAlarms`). Each catalogue follows the source
literally:

- it merges the options over the defaults (`{...DEFAULT_ALARM_OPTIONS, ...options}`);
- it runs the if-chain of toggles, where each link pushes the alarm of its `create*Alarm`;
- it fans the optional SNS topic out to every alarm.

The shared machinery is in `assembly.dfy`. Each resource kind also has an
independent reference table, `Catalog(toggle)`, giving:

- the id suffix;
- the namespace, metric and dimension key;
- the period and comparison operator;
- the default threshold;
- the fixed description text that precedes the resource identifier.

Lemmas connect the builders to that table and characterise the whole catalogue:

- each alarm is its toggle's row at the resolved threshold;
- alarms come in toggle order with distinct ids;
- a toggle's alarm is present exactly when the toggle emits;
- switching one toggle off removes exactly its alarm.

**Slack handlers.** The handlers of `resources/ecs_event_to_slack`,
`functions/rds_event_to_slack`, `functions/alarm_to_slack` and
`resources/webhook_to_slack` are modelled as functions from the decoded event
to the Slack message they would post. Each message format has a partner:
a `Read` that parses a posted message back, with a `ReadFormat` lemma proving
the round trip. This shows that every field reaches the reader as rendered,
with three provisos:

- an absent ECS status, an empty one and the literal "UNKNOWN" all render,
  and read back, as "UNKNOWN";
- every service event name outside the known table renders as "undefined";
- container lines and RDS categories read back one by one only when none of
  them contains its separator (a newline, a comma).

Dispatch on the EventBridge `detail-type` is modelled with a
`Result`: the rejected promise or thrown string becomes a `Failure` carrying
the same text.

JavaScript numbers are modelled as `real`, and `x ? x : d` as
`CloudWatch.Fallback`: zero counts as "absent", as in JavaScript.

## Model

| member | source | states |
|---|---|---|
| BaseAlarm.NewBuilder | lib/base_alarm.ts:24-29 | A fresh builder has a 60-second period and one evaluation period. Threshold, operator, description and statistic are unset, because `setStatistic` stores nothing. So a fresh builder is not ready to build. |
| BaseAlarm.Build | lib/base_alarm.ts:60-62 | The base `build()` always fails, with "Not implemented". |
| BaseAlarm.SettersTouchOnlyTheirField | lib/base_alarm.ts:31-58 | Each getter returns what its own setter stored, and each setter leaves every other field unchanged. `setStatistic` changes nothing at all. |
| BaseAlarm.LastWriteWins | lib/base_alarm.ts:31-58 | Setting the same field twice keeps only the second value. |
| BaseAlarm.SetterChainsCommute | lib/base_alarm.ts:31-58 | The order of a chain of different setters does not matter. The setter chain used by the catalogues completes a fresh builder. |
| EcsAlarm.NewAlarmBuilder | lib/ecs_alarm.ts:268-274 | The ECS builder holds the given cluster and metric and no service. It starts from the base defaults (60-second period, one evaluation period, no threshold, operator or statistic) with a generic "Alarm for Resource: <cluster>" description. |
| EcsAlarm.BuildAlarm | lib/ecs_alarm.ts:281-303 | A built alarm's id is the node id plus the metric name. It watches that metric in AWS/ECS with the ClusterName dimension first. It carries exactly the threshold, operator, period, description and evaluation periods stored in the builder, and no actions. |
| EcsAlarm.SetServiceAddsOneDimension | lib/ecs_alarm.ts:276-288 | Setting a service appends exactly one ServiceName dimension after the cluster one and changes nothing else in the alarm. |
| EcsAlarm.BuilderDropsStatistic | lib/ecs_alarm.ts:225-235 | A statistic requested through the builder never reaches the metric. |
| EcsAlarm.CreatedAlarmsMatchCatalog | lib/ecs_alarm.ts:134-260 | Each of the five `create*Alarm` functions builds the alarm its reference row describes: id, namespace, metric, dimension key, period, operator, description text and one evaluation period. The threshold is the one given, or the row's default when the given one is zero or absent. Each row's default equals the matching entry of the default options. The CPU alarm's dimension key is spelled `CluserName`, as in the source. |
| EcsAlarm.GpuAlarmReusesMemoryDescription | lib/ecs_alarm.ts:244-260 | The GPU-reservation alarm is given the memory-reservation description, not the builder's generic one. |
| EcsAlarm.AlarmIdsDistinct | lib/ecs_alarm.ts:139-290 | The five alarm ids of a cluster are pairwise distinct. |
| EcsAlarm.ResolveDisable | lib/ecs_alarm.ts:72-73 | Writing `<toggle>: false` into the options, then merging, is the same as merging and then switching that toggle off. |
| EcsAlarm.ResolveMergesOverDefaults | lib/ecs_alarm.ts:39-73 | For any options object, however partially filled, each toggle and threshold the caller supplies wins and each absent one takes its default; the topic is taken as given. No options and `{}` both resolve to the defaults. Disabling one toggle turns off that toggle alone and changes no threshold. |
| EcsAlarm.SwitchOffClearsStep | lib/ecs_alarm.ts:76-118 | Switching one toggle off silences exactly that toggle's link of the if-chain; the topic is kept. |
| EcsAlarm.DefaultClusterAlarms | lib/ecs_alarm.ts:39-126 | With no options, a cluster with EC2 capacity gets exactly two alarms: CPU utilisation and then memory utilisation, both at 90 and without actions. Passing `{}` gives the same. |
| EcsAlarm.NoAlarmsWhenNothingEmits | lib/ecs_alarm.ts:72-118 | A cluster without EC2 capacity gets nothing from the defaults, and with all five toggles false no alarm is created. |
| EcsAlarm.ClusterAlarmsContent | lib/ecs_alarm.ts:67-126 | Every created alarm belongs to a toggle that emits. It is that toggle's alarm at the resolved threshold, with the topic attached. |
| EcsAlarm.ClusterAlarmsOrder | lib/ecs_alarm.ts:67-126 | Created alarms follow the if-chain order, and no id occurs twice. |
| EcsAlarm.ClusterAlarmsPresence | lib/ecs_alarm.ts:67-126 | A toggle's alarm is created exactly when the toggle is on and, for CPU, CPU reservation and memory, the cluster has EC2 capacity. |
| EcsAlarm.ClusterAlarmsCharacterised | lib/ecs_alarm.ts:67-126 | Content, order and presence together: the full description of the created catalogue. |
| EcsAlarm.TopicFansOut | lib/ecs_alarm.ts:120-125 | When a topic is given it becomes the single action of every created alarm; otherwise no alarm has an action. |
| EcsAlarm.DisablingRemovesExactlyThatAlarm | lib/ecs_alarm.ts:67-126 | Adding `<toggle>: false` to any options removes exactly that toggle's alarm and keeps the others in order. |
| RdsOptions.ResolveMergesOverDefaults | lib/rds_alarm.ts:38-64 | For any options object, however partially filled, each of the eleven keys the caller supplies wins and each absent one takes its default. No options and `{}` both resolve to the defaults (CPU 90, memory 100 MiB, latencies 1, deadlocks 1, all on). |
| RdsAlarm.CreatedAlarmsMatchCatalog | lib/rds_alarm.ts:117-227 | Each of the four `create*Alarm` functions builds its reference row: DBInstanceIdentifier dimension in AWS/RDS, 60-second period, the row's operator and description text, and the given threshold or the row's default when it is zero or absent. The write-latency description has no space after "Resource:", as in the source. |
| RdsAlarm.MemoryAlarmReusesReadLatencyDescription | lib/rds_alarm.ts:175-227 | The freeable-memory alarm carries the read-latency description. |
| RdsAlarm.AlarmIdsDistinct | lib/rds_alarm.ts:117-227 | The four alarm ids of an instance are pairwise distinct. |
| RdsAlarm.ResolveDisable | lib/rds_alarm.ts:62-63 | Writing `<toggle>: false` into the options, then merging, is the same as merging and then switching that toggle off. |
| RdsAlarm.SwitchOffClearsStep | lib/rds_alarm.ts:67-101 | Switching one toggle off silences exactly that toggle's link of the if-chain; the topic is kept. |
| RdsAlarm.DefaultInstanceAlarms | lib/rds_alarm.ts:38-108 | With no options (or `{}`) an instance gets four alarms, in order: CPU at 90, freeable memory at 104857600, write latency at 1, read latency at 1. |
| RdsAlarm.DeadlockOptionsIgnored | lib/rds_alarm.ts:58-109 | The deadlock options change nothing about the instance catalogue. |
| RdsAlarm.NoDeadlockAlarm | lib/rds_alarm.ts:58-109 | No alarm of an instance watches the Deadlocks metric, whatever the options. |
| RdsAlarm.AllTogglesOffGivesNothing | lib/rds_alarm.ts:67-101 | With all four toggles false no alarm is created. |
| RdsAlarm.MemoryAlarmNeedsBytes | lib/rds_alarm.ts:73-81 | The memory alarm is created exactly when its toggle is on and the resolved byte count is non-zero. |
| RdsAlarm.InstanceAlarmsContent | lib/rds_alarm.ts:58-109 | Every created alarm belongs to a toggle that emits. It is that toggle's alarm at the resolved threshold, with the topic attached. |
| RdsAlarm.InstanceAlarmsOrder | lib/rds_alarm.ts:58-109 | Created alarms follow the if-chain order, and no id occurs twice. |
| RdsAlarm.InstanceAlarmsPresence | lib/rds_alarm.ts:58-109 | A toggle's alarm is created exactly when the toggle emits. |
| RdsAlarm.InstanceAlarmsCharacterised | lib/rds_alarm.ts:58-109 | Content, order and presence together: the full description of the created catalogue. |
| RdsAlarm.AlarmForShape | lib/rds_alarm.ts:117-227 | Every alarm an instance can get watches AWS/RDS by DBInstanceIdentifier over one 60-second period, with no actions when built. |
| RdsAlarm.InstanceAlarmsShape | lib/rds_alarm.ts:58-109 | Every created alarm watches the instance by DBInstanceIdentifier over one 60-second period. Its actions are exactly the topic, when one is given. |
| RdsAlarm.DisablingRemovesExactlyThatAlarm | lib/rds_alarm.ts:58-109 | Adding `<toggle>: false` to any options removes exactly that toggle's alarm and keeps the others in order. |
| RdsAlarm.CreateEventSubscription | lib/rds_alarm.ts:270-297 | The subscription is named `<id>EventSubscription`, has the instance as its only source and no source type. It uses the ten default categories, availability through recovery in the source's order, when none are given, and a given list (even an empty one) verbatim. |
| RdsClusterAlarm.CreatedAlarmsMatchCatalog | lib/rds_cluster_alarm.ts:130-270 | Each of the five `create*Alarm` functions builds its reference row with the DBClusterIdentifier dimension, including its description text. None of the cluster descriptions has a space after the colon, as in the source. The deadlock alarm compares greater-than-or-equal with default 1. |
| RdsClusterAlarm.MemoryAlarmReusesReadLatencyDescription | lib/rds_cluster_alarm.ts:188-240 | The freeable-memory alarm carries the read-latency description. |
| RdsClusterAlarm.AlarmIdsDistinct | lib/rds_cluster_alarm.ts:130-270 | The five alarm ids of a cluster are pairwise distinct. |
| RdsClusterAlarm.ResolveDisable | lib/rds_cluster_alarm.ts:63-64 | Writing `<toggle>: false` into the options, then merging, is the same as merging and then switching that toggle off. |
| RdsClusterAlarm.SwitchOffClearsStep | lib/rds_cluster_alarm.ts:68-116 | Switching one toggle off silences exactly that toggle's link of the if-chain; the topic is kept. |
| RdsClusterAlarm.DefaultClusterAlarms | lib/rds_cluster_alarm.ts:39-122 | With no options (or `{}`) a cluster gets five alarms, in order: CPU at 90, freeable memory at 104857600, read latency at 1, write latency at 1, deadlocks at 1. |
| RdsClusterAlarm.AllTogglesOffGivesNothing | lib/rds_cluster_alarm.ts:68-116 | With all five toggles false no alarm is created. |
| RdsClusterAlarm.ExplicitCpuThreshold | lib/rds_cluster_alarm.ts:68-76 | A non-zero CPU percentage supplied with the CPU toggle not false yields a first alarm on CPUUtilization at that percentage. |
| RdsClusterAlarm.MemoryAlarmNeedsBytes | lib/rds_cluster_alarm.ts:78-86 | The memory alarm is created exactly when its toggle is on and the resolved byte count is non-zero. |
| RdsClusterAlarm.ClusterAlarmsContent | lib/rds_cluster_alarm.ts:59-122 | Every created alarm belongs to a toggle that emits. It is that toggle's alarm at the resolved threshold, with the topic attached. |
| RdsClusterAlarm.ClusterAlarmsOrder | lib/rds_cluster_alarm.ts:59-122 | Created alarms follow the if-chain order, and no id occurs twice. |
| RdsClusterAlarm.ClusterAlarmsPresence | lib/rds_cluster_alarm.ts:59-122 | A toggle's alarm is created exactly when the toggle emits. |
| RdsClusterAlarm.ClusterAlarmsCharacterised | lib/rds_cluster_alarm.ts:59-122 | Content, order and presence together: the full description of the created catalogue. |
| RdsClusterAlarm.AlarmForShape | lib/rds_cluster_alarm.ts:130-270 | Every alarm a cluster can get watches AWS/RDS by DBClusterIdentifier over one 60-second period, with no actions when built. |
| RdsClusterAlarm.ClusterAlarmsShape | lib/rds_cluster_alarm.ts:59-122 | Every created alarm watches the cluster by DBClusterIdentifier over one 60-second period. Its actions are exactly the topic, when one is given. |
| RdsClusterAlarm.DisablingRemovesExactlyThatAlarm | lib/rds_cluster_alarm.ts:59-122 | Adding `<toggle>: false` to any options removes exactly that toggle's alarm and keeps the others in order. |
| RdsClusterAlarm.CreateEventSubscription | lib/rds_cluster_alarm.ts:279-296 | The subscription is named `<id>EventSubscription`, has the cluster as its only source and source type `db-cluster`. It uses the four cluster categories when none are given, and a given list verbatim. |
| Subscription.Categories | lib/rds_alarm.ts:277-289 | A supplied category list is used as given, even when empty; an omitted one gives the defaults. |
| Assembly.FanOut | lib/ecs_alarm.ts:120-125 | Attaching the topic keeps every alarm in place and changes only its actions. |
| Assembly.Positions | lib/ecs_alarm.ts:74-118 | Every pushed alarm came from a link that fired, links that fired appear in chain order, and every link that fired contributed its alarm. |
| Assembly.CollectAppend | lib/ecs_alarm.ts:74-118 | Running two stretches of the if-chain one after the other pushes the concatenation of what each pushes. |
| Assembly.CollectFour | lib/rds_alarm.ts:63-101 | A four-link chain pushes the alarms of the links that fire, in link order. |
| Assembly.CollectFive | lib/rds_cluster_alarm.ts:64-116 | A five-link chain pushes the alarms of the links that fire, in link order. |
| Assembly.CollectDrop | lib/ecs_alarm.ts:74-118 | Silencing one link of a chain with distinct ids removes exactly the alarm carrying that link's id. |
| Assembly.FanOutWithout | lib/ecs_alarm.ts:120-125 | Attaching the topic commutes with removing an alarm by id. |
| Assembly.AssembledContent | lib/ecs_alarm.ts:74-125 | Each assembled alarm is the alarm of the link its id names, with the topic attached. |
| Assembly.AssembledOrder | lib/ecs_alarm.ts:74-125 | Assembled alarms follow link order and have distinct ids. |
| Assembly.AssembledPresence | lib/ecs_alarm.ts:74-125 | A link's id is among the assembled ids exactly when that link fires. |
| Assembly.AssembledDrop | lib/ecs_alarm.ts:74-125 | Silencing one link removes exactly its alarm from the assembled, topic-carrying catalogue. |
| Text.SplitJoin | resources/ecs_event_to_slack/index.ts:53-61 | Lines joined with a newline split back into the same lines, provided none contains a newline. |
| Text.JoinSplit | functions/rds_event_to_slack/index.ts:17 | Joining the pieces of a split reproduces the string, so a comma-joined event type loses nothing. |
| Text.UnwrapWrap | resources/ecs_event_to_slack/index.ts:106-132 | A value wrapped in a block's fixed prefix and suffix can be read back exactly. |
| Text.WrapInjective | resources/webhook_to_slack/index.ts:18-38 | Two values wrapped in the same prefix and suffix give equal text exactly when the values are equal. |
| EcsEvent.ContainerLines | resources/ecs_event_to_slack/index.ts:53-55 | One line per container, in container order, each naming that container and its last status. |
| EcsEvent.HandleTaskStateChange | resources/ecs_event_to_slack/index.ts:47-65 | A task change keeps the cluster ARN and both statuses. Its severity is ERROR exactly when the last status is STOPPED, and INFO otherwise. |
| EcsEvent.TaskExtraLists | resources/ecs_event_to_slack/index.ts:53-61 | A task change's text splits back into its container lines, provided no name or status contains a newline. |
| EcsEvent.TaskWithoutContainers | resources/ecs_event_to_slack/index.ts:53-61 | A task with no containers has an empty text. |
| EcsEvent.ServiceDescription | resources/ecs_event_to_slack/index.ts:22-45 | A known event name gives its description. Exactly an unknown name gives "undefined". |
| EcsEvent.HandleServiceStateChange | resources/ecs_event_to_slack/index.ts:67-83 | A service change has no statuses and keeps the cluster and the event's own severity. Its text is "Service: <first resource>, <description>", from which the resource can be read back. |
| EcsEvent.StatusText | resources/ecs_event_to_slack/index.ts:86-91 | A rendered status is never empty. It is the status itself when present and non-empty, and UNKNOWN exactly when the status is absent, empty, or literally UNKNOWN. |
| EcsEvent.ReadFormat | resources/ecs_event_to_slack/index.ts:85-135 | The posted message gives back the severity, cluster, both rendered statuses and the text. It goes to the configured channel and user. |
| EcsEvent.Handler | resources/ecs_event_to_slack/index.ts:167-181 | Only task and service events are handled; anything else is rejected with "unhandled ECS detail type". On success the returned change is that of the matching decoder, and the posted message reads back as that change. That message goes to the configured channel as the configured user. |
| EcsEvent.StoppedTaskIsError | resources/ecs_event_to_slack/index.ts:62-63 | The header of a task event's message says ERROR exactly when the task's last status is STOPPED. |
| RdsEvent.HandleInstanceStateChange | functions/rds_event_to_slack/index.ts:13-19 | The change keeps the source ARN and message. A single category is its event type, and no categories give an empty one. |
| RdsEvent.CategoriesRecoverable | functions/rds_event_to_slack/index.ts:17 | The categories split back out of the event type when there is at least one and none contains a comma. |
| RdsEvent.ReadFormat | functions/rds_event_to_slack/index.ts:21-50 | The posted message determines the change completely: identifier, message and event type read back unchanged. It goes to the configured channel as the configured user. |
| RdsEvent.Handler | functions/rds_event_to_slack/index.ts:84-94 | Only RDS DB Instance Events are handled; anything else throws "unhandled RDS detail type or uninteresting event". On success the decoded change is returned, and the posted message reads back as it. That message goes to the configured channel as the configured user. |
| RdsEvent.FailoverExample | functions/rds_event_to_slack/index.ts:13-50 | A single "failover" category gives event type "failover" and the header "RDS failover event". |
| AlarmEvent.TimeZone | functions/alarm_to_slack/index.ts:19 | The time zone is the TIMEZONE setting when set and non-empty, and Australia/Sydney otherwise. |
| AlarmEvent.ReadFormat | functions/alarm_to_slack/index.ts:17-68 | Subject, description, rendered change time, account, region and reason can all be read back from the message, in that layout. It goes to the configured channel as the configured user. |
| AlarmEvent.Handler | functions/alarm_to_slack/index.ts:100-105 | One message per SNS record, in record order, each reading back as its record and posted to the configured channel as the configured user. The invocation is returned as it came. |
| LogEvent.ReadFormat | resources/webhook_to_slack/index.ts:4-40 | Message, log stream and log group can be read back from a posted error. It goes to the configured channel as the configured user. |
| LogEvent.FieldsAreSeparate | resources/webhook_to_slack/index.ts:4-40 | The header block never varies. The group, stream and message blocks, and the text, each change exactly when their own field does. |
| LogEvent.Handler | resources/webhook_to_slack/index.ts:69-78 | One message per log event, in batch order, each reading back as that event's message with the batch's stream and group, and each posted to the configured channel as the configured user. An empty batch posts nothing. |

## Left out

- CDK constructs and stacks: `Alarm`, `Metric`, `CfnEventSubscription`, `SnsAction` and the scope argument. Each is modelled by the record it would be built from (`AlarmSpec`, `EventSubscription`), and the stack is not modelled.
- `subcribeEventsToSlack` in `lib/rds_alarm.ts`: it only wires a topic, a Lambda and an event rule together. It is infrastructure, not logic.
- `lib/rds_instance_types.ts` is not part of this model.
- The HTTPS POST to the Slack webhook, `JSON.stringify`, the webhook URL and the response logging: the model stops at the message that would be posted.
- The base64 and gzip decoding and `JSON.parse` of the log batch: `LogEvent.Handler` receives the decoded batch. A failed decode, which throws in the source, is not modelled.
- `JSON.parse` of the SNS message in the alarm handler: the record carries the parsed notification, and a malformed one is not modelled.
- `new Date(...).toLocaleString("en-AU", { timeZone })`: the rendering is a parameter (`renderTime`) applied to the change time and the time zone.
- `process.env`: SLACK_CHANNELNAME and SLACK_USERNAME are a `SlackConfig` parameter, and TIMEZONE is an `Option<string>` parameter.
- NaN thresholds: JavaScript treats NaN as falsy, but thresholds are modelled as reals, so a NaN threshold falling back to the default is not modelled.
- An options key present but explicitly `undefined` overrides the default in a JavaScript spread. The model treats it as absent, as every caller that omits a key does.
- Keys inherited by JavaScript objects, such as `"constructor"` in `ECS_SERVICE_EVENT_TYPES`, are not modelled: only the eleven listed event names count as known.
- Event fields the handlers read are assumed present, except the ECS statuses and `resources[0]`. The statuses are optional, and an empty `resources` list gives "undefined". An absent service event name is represented by any name outside `SERVICE_EVENT_TYPES`, which gives the same "undefined" description. An absent `containers` array (a TypeError in the source) is not modelled.
- EcsAlarm.BuildAlarm: requires the builder to have threshold, operator, description, period and evaluation periods set. The source would pass `undefined` to CDK, and every call site sets them.
- EcsAlarm.DefaultClusterAlarms: covers only clusters with EC2 capacity. The other case is stated by EcsAlarm.NoAlarmsWhenNothingEmits.

Behaviour worth noting:

- An explicitly supplied empty category list is used as given, because `[]` is truthy in JavaScript (`Subscription.Categories`).
- The base builder's `build()` always throws "Not implemented". The ECS builder's `build()` builds from whatever fields it holds.
- The cluster subscription defaults to the four categories failover, failure, maintenance and notification. The repository's own cluster test expects the ten instance categories.
- The RDS event type is every category of the event, joined with commas.
