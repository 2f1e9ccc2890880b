# a2a_app task event log, task store and JSON-RPC handlers in Dafny

This project models the core of `a2a_app`, the Django application that routes agent tasks sent over JSON-RPC and streams their progress to clients as Server-Sent Events. The model covers:

- **The Redis stream store** that holds each task's event log, as in-memory logs of entries (`Streams`, with the class `Streams.RedisStore`). This covers XADD with exact MAXLEN trimming, XREAD, XRANGE, consumer groups (XGROUP CREATE, XREADGROUP, XACK, XPENDING), Redis's automatic entry ids, and an unreachable-server flag.
- **The publisher, the subscriber and the consumer group of `events.py`** (`Events`, `ConsumerGroups`). The generators `subscribe` and `consume` become state-machine classes whose `Next()` is one pass of the loop. Pure step functions (`SubStep`, `ConsumeStep`) specify them.
- **The task and conversation tables and the services over them** (`Models`, `Schemas`, `Services`). The class `Services.Database` holds both tables, the insertion order of their keys and the clock that stamps new rows.
- **The fake agent** (`Executors`): the events it emits, in order.
- **The task handlers of `handlers.py`** (`Handlers`): `_process_task_event`, send, sendSubscribe, resubscribe, get and cancel.
- **The JSON-RPC endpoint, the handlers of `api.py` and the SSE task stream** (`Api`), and the SSE framing of `helpers.py` (`Sse`).
- **Supporting modules:** `Json` for the Python values that appear in events and rows, `Text` for the string functions the code uses, and `Wrappers` and `Errors` for results and the exceptions the code raises.

Some collaborators are passed in as parameters: the JSON encoder, the datetime formatter, the UUID hex strings and the clock. Each operation is paired with a specification function. Its method's `ensures` connects the two, and the lemmas state what the source promises about that function. These promises are:

- ordering and exclusive resumption of subscriptions;
- once-only delivery to a consumer group;
- retention of the newest 1000 events;
- the task lifecycle effects of each event type;
- the answers and error codes of every JSON-RPC method;
- the decoding of an SSE frame back to its event.

## Model

| member | source | states |
|---|---|---|
| Streams.BeforeIsStrictTotalOrder | a2a_app/events.py:164 | the stream-id order a subscription's cursor moves along is a strict total order |
| Streams.ParseIdString | a2a_app/events.py:162-164 | an entry id handed out as text reads back as the same id, so a cursor built from `_id` resumes at that entry |
| Streams.IdStringHasNoNewline | a2a_app/events.py:162 | the `_id` text of an entry never holds a line break |
| Streams.Trim | a2a_app/events.py:78-79 | trimming to `maxlen` keeps the newest `maxlen` entries, in order |
| Streams.TrimKeepsTail | a2a_app/events.py:78-79 | trimming never removes an entry a reader positioned within the last `maxlen` entries has yet to read |
| Streams.NextId | a2a_app/events.py:75-80 | the automatic id of a new entry is later than every id the stream has handed out |
| Streams.AddAppends | a2a_app/events.py:75-80 | an add appends one entry holding the data under a new, larger id, keeps at most `maxlen` entries with the new one last, keeps the groups and keeps the stream well formed |
| Streams.Add | a2a_app/events.py:75-80 | an add hands out an id later than the stream's last one and keeps its consumer groups |
| Streams.TrimAppendTrim | a2a_app/events.py:78-79 | trimming after every add is the same as trimming once at the end |
| Streams.Retention | a2a_app/events.py:78-79 | after any number of publishes the stream holds exactly the newest `maxlen` of all entries ever added |
| Streams.AddAllWellFormed | a2a_app/events.py:75-80 | any number of publishes keeps a stream's ids strictly increasing |
| Streams.Read | a2a_app/events.py:152-156 | a subscription read with a well-formed cursor returns the next `count` entries strictly after it, in order; a malformed cursor is an error |
| Streams.Range | a2a_app/events.py:205-210 | a range read returns up to `count` entries from its lower bound (`-`, `(id` or `id`), in order; a malformed bound is an error |
| Streams.StrictRead | a2a_app/events.py:152-156 | XREAD as the server implements it: a start that is not a plain id is an error, and a plain id returns the next `count` entries strictly after it |
| Streams.StrictReadRefusesExclusive | a2a_app/events.py:144 | XREAD refuses every start of the form `(id` with an invalid-id error |
| Streams.StrictReadAgrees | a2a_app/events.py:146 | for a plain start such as the subscription's initial `0`, XREAD as the server implements it and the modelled read agree |
| Streams.CreateGroup | a2a_app/events.py:294-299 | creating a group registers it at position 0, creating the stream if needed, and fails exactly when the group already exists |
| Streams.PendingFor | a2a_app/events.py:330-336 | each entry a group read delivers enters the pending list for that consumer, once |
| Streams.ReadGroup | a2a_app/events.py:330-336 | a `>` group read delivers the next `count` entries after the group's last delivered id, records them as pending and advances the group; a missing group is an error |
| Streams.NextBatch | a2a_app/events.py:329-336 | a delivered batch is increasing and holds every entry between the old and the new group position |
| Streams.ReadGroupDeliversOnce | a2a_app/events.py:329-336 | a `>` read only hands out entries the group never delivered, moves the group past them and keeps the stream well formed, so no entry is delivered to the group twice |
| Streams.Unpend | a2a_app/events.py:346-350 | acknowledging removes exactly the record for that id from the pending list |
| Streams.UnpendIncreasing | a2a_app/events.py:346-350 | acknowledging keeps the pending list in id order |
| Streams.Ack | a2a_app/events.py:346-350 | an ack removes the entry from its group's pending list and changes nothing else; a missing group acknowledges nothing |
| Streams.AckWellFormed | a2a_app/events.py:346-350 | an ack keeps the stream well formed and leaves every other stream as it was |
| Streams.PendingRange | a2a_app/events.py:382-388 | the pending read returns the first `count` pending records of the group; a missing group is an error |
| Streams.CreateGroupWellFormed | a2a_app/events.py:294-299 | creating a group keeps every stream well formed |
| Streams.CreateGroupTwice | a2a_app/events.py:291-303 | creating the same group a second time fails on the server, which is why the source swallows that error |
| Streams.RedisStore.constructor | a2a_app/events.py:37-49 | the shared store starts empty, at time 0 and reachable |
| Streams.RedisStore.XAdd | a2a_app/events.py:75-80 | the add changes the stream exactly as `Add` says and returns the new id; while the server is unreachable it fails and changes nothing |
| Streams.RedisStore.XRead | a2a_app/events.py:152-156 | the read answers as `Read` says, or fails while the server is unreachable |
| Streams.RedisStore.XRange | a2a_app/events.py:205-210 | the range read answers as `Range` says, or fails while the server is unreachable |
| Streams.RedisStore.XGroupCreate | a2a_app/events.py:294-299 | group creation changes the streams exactly as `CreateGroup` says, or fails and changes nothing |
| Streams.RedisStore.XReadGroup | a2a_app/events.py:330-336 | a group read changes the streams and answers exactly as `ReadGroup` says, or fails and changes nothing |
| Streams.RedisStore.XAck | a2a_app/events.py:346-350 | an ack changes the streams as `Ack` says and returns how many pending records it removed |
| Streams.RedisStore.XPendingRange | a2a_app/events.py:382-388 | the pending read answers as `PendingRange` says, or fails while the server is unreachable |
| Streams.After | a2a_app/events.py:144 | an exclusive `(id` bound keeps only entries of the log, never more than it holds |
| Streams.From | a2a_app/events.py:205-210 | an inclusive bound keeps only entries of the log, never more than it holds |
| Streams.AfterMembers | a2a_app/events.py:144 | an entry survives an exclusive `(id` bound exactly when it is in the log and strictly later than the bound |
| Streams.AfterEntry | a2a_app/events.py:162-164 | on an increasing log, reading after the i-th entry's id gives exactly the entries that follow it |
| Streams.AfterAll | a2a_app/events.py:144 | when every entry is later than the bound, the read drops nothing |
| Streams.AfterNone | a2a_app/events.py:144 | when no entry is later than the bound, the read returns nothing |
| Streams.AfterConcat | a2a_app/events.py:144 | reading after a bound distributes over concatenated logs |
| Streams.AfterSplit | a2a_app/events.py:144 | on an increasing log the entries after a bound are a suffix: those before it are at most the bound, the rest later |
| Streams.AfterIncreasing | a2a_app/events.py:144 | the entries after a bound stay increasing and are all later than the bound |
| Streams.AfterDropPrefix | a2a_app/events.py:158-164 | dropping entries no later than the bound does not change what a read after the bound returns |
| Streams.Take | a2a_app/events.py:152-156 | `COUNT n` keeps the first `n` items, or all of them when fewer |
| Streams.AdvanceWellFormed | a2a_app/events.py:330-336 | recording a delivered batch keeps a group's delivery position and pending list consistent |
| Streams.RedisStore.Tick | a2a_app/events.py:363-404 | time passing on the server changes neither the streams nor the connection |
| Streams.RedisStore.SetDown | a2a_app/events.py:169-172 | losing or restoring the connection changes neither the streams nor the clock |
| Events.StreamKeyInjective | a2a_app/events.py:51-53 | a task's stream key is the prefix, a colon and the task id, so for one prefix two keys are equal exactly when the task ids are |
| Events.Tagged | a2a_app/events.py:161-162 | the event handed out for an entry is its stored data with `_id` set to the entry id and every other key kept |
| Events.TagAll | a2a_app/events.py:212-215 | the events for a run of entries are the tagged entries, one for one and in order |
| Events.ExclusiveFromParses | a2a_app/events.py:144 | the cursor `(<id>` parses back to the id it was built from and reads strictly after it |
| Events.PublishedIsNext | a2a_app/events.py:75-80 | after a publish to a well-formed stream, the only entry after the previously handed-out id is the new entry holding the event |
| Events.EventPublisher.constructor | a2a_app/events.py:37-49 | the publisher keeps the store and the prefix, which defaults to `a2a:events` |
| Events.EventPublisher.Publish | a2a_app/events.py:55-85 | publishing appends one entry holding the event to `<prefix>:<task id>`, trims to 1000 entries and returns the new id as a string; a store error is re-raised and the stream is left as it was |
| Events.Delivered | a2a_app/events.py:163 | the entries a run of generator passes hands out are at most one per pass |
| Events.StartPositionCases | a2a_app/events.py:143-146 | with no or an empty `last_event_id` the cursor is `0` (the whole log); otherwise reading starts strictly after that id |
| Events.Begin | a2a_app/events.py:139-146 | starting marks the generator started and running, keeps what it holds, and sets the cursor to the start position of `last_event_id` |
| Events.SubStep | a2a_app/events.py:138-179 | a finished generator stays finished; finishing clears `running` and keeps the cursor; a store error leaves the state unchanged; a stopped generator with nothing held finishes |
| Events.Resume | a2a_app/events.py:148-172 | a pass of the loop never raises; an idle pass changes nothing; it finishes exactly when nothing is held and the loop was stopped; a yielded entry moves the cursor to `(<its id>` |
| Events.SubTrace | a2a_app/events.py:148-175 | a subscription run over a sequence of store states makes one pass per state |
| Events.ResumeAdvances | a2a_app/events.py:158-164 | each yielded entry lies strictly after the cursor and the cursor moves to it; a pass yielding nothing leaves the cursor unchanged |
| Events.ReadAdvances | a2a_app/events.py:152-164 | a pass that reads from the store yields an entry strictly after the cursor and moves the cursor to it, or leaves the cursor unchanged |
| Events.PopAhead | a2a_app/events.py:160-164 | handing out the first entry of an increasing batch moves the cursor to that entry, and the rest of the batch still lies after it |
| Events.SubStepAdvances | a2a_app/events.py:139-164 | the same per-pass ordering holds from the first pass, measured from the start position |
| Events.SubTraceInOrder | a2a_app/events.py:148-164 | within one subscription, whatever the store does between passes, the entries handed out are in strictly increasing id order after the start position (no duplicates), and the cursor ends at the last of them |
| Events.CursorAfterEntry | a2a_app/events.py:164 | after the d-th entry of a replayed suffix is yielded, the cursor reads exactly the entries after it |
| Events.ReplayStep | a2a_app/events.py:152-164 | against an unchanged, reachable store one pass yields the next entry of the replayed suffix, or nothing once it is exhausted |
| Events.ReplayRun | a2a_app/events.py:148-164 | against an unchanged, reachable store, k passes hand out the next k entries of the suffix in order |
| Events.IdleRun | a2a_app/events.py:158-167 | with nothing left after the cursor, passes against an unchanged store hand out nothing |
| Events.SubscriptionReplays | a2a_app/events.py:143-164 | a fresh subscription over an unchanged, reachable store delivers exactly the log after its start position, in order |
| Events.ResumeAfterEntry | a2a_app/events.py:143-164 | resuming after entry i delivers entries i+1, i+2, … in order, and no `last_event_id` delivers the whole log from the first entry |
| Events.StrictResumeStalls | a2a_app/events.py:148-172 | as written, against a server that refuses `(id`, a pass with nothing held and an exclusive cursor yields nothing and changes nothing |
| Events.StrictResumeFromIdIdles | a2a_app/events.py:143-172 | as written, a subscription resumed from a non-empty `last_event_id` never hands out an entry on such a server |
| Events.StrictStallsAfterFirstEntry | a2a_app/events.py:143-172 | as written, a fresh subscription hands out its first entry, moves the cursor to `(<id>`, and from then on yields nothing whatever the store holds |
| Events.EventSubscriber.constructor | a2a_app/events.py:102-115 | a new subscriber keeps the store and prefix and is not running |
| Events.EventSubscriber.Stop | a2a_app/events.py:177-179 | stopping clears the `running` flag |
| Events.EventSubscriber.Subscribe | a2a_app/events.py:121-138 | subscribing returns a new, not yet started generator over `<prefix>:<task id>` with the given `last_event_id` |
| Events.EventSubscriber.GetEventsSince | a2a_app/events.py:181-219 | the result is the tagged entries strictly after `after_event_id`, at most `limit` of them, in order; a `limit` below 1 (zero included) raises the client's `DataError`, and that and any store error are re-raised |
| Events.EventSubscriber.GetAllEvents | a2a_app/events.py:221-252 | the result is the first `limit` entries of the stream, tagged, in publish order; a `limit` below 1 raises the client's `DataError`, and that and any store error are re-raised |
| Events.EventSubscriber.ReadRange | a2a_app/events.py:205-215 | the client refuses a `count` below 1 with `DataError` before anything is sent; otherwise an `XRANGE key min + COUNT limit` read turns each entry into its event, in order, or fails while the server is unreachable |
| Events.CountError | a2a_app/events.py:217-219 | the error the client raises for a count below 1 is a `RedisError`, so the `except RedisError` clause logs and re-raises it |
| Events.RangeAfterEntry | a2a_app/events.py:205-210 | reading after entry i gives entries i+1… up to the limit, and reading from `-` gives the first `limit` entries |
| Events.Subscription.constructor | a2a_app/events.py:121-125 | a new generator has not started, has not finished and holds nothing |
| Events.Subscription.Next | a2a_app/events.py:138-175 | one pass of the generator changes its state and the owner's flag exactly as `SubStep` says, against the store as it is now |
| Events.Subscription.Close | a2a_app/events.py:174-175 | abandoning a started, unfinished generator runs its cleanup, which clears `running`; otherwise the flag is untouched |
| ConsumerGroups.EnsureGroup | a2a_app/events.py:291-303 | after ensuring, the group exists on the stream; an existing group is left as it was, and a missing one is created at position 0 |
| ConsumerGroups.EnsureGroupIdempotent | a2a_app/events.py:301-303 | ensuring a group twice leaves the store as ensuring it once |
| ConsumerGroups.EnsureGroupWellFormed | a2a_app/events.py:291-303 | ensuring a group keeps every stream well formed |
| ConsumerGroups.GroupReadsDisjoint | a2a_app/events.py:329-336 | two successive `>` reads of one group, by any consumers, hand out disjoint batches, each entry of the later one after every entry of the earlier one |
| ConsumerGroups.ConsumeStep | a2a_app/events.py:321-357 | a finished generator stays finished; the first pass ensures the group, and a connection error there ends the generator with that error; a failed ack drops the rest of the batch; finishing clears `running` |
| ConsumerGroups.ContinueWellFormed | a2a_app/events.py:327-354 | the read-and-yield part of a pass keeps every stream well formed |
| ConsumerGroups.ConsumeStepWellFormed | a2a_app/events.py:321-357 | every pass of `consume` keeps every stream of the store well formed |
| ConsumerGroups.ConsumeAcksPrevious | a2a_app/events.py:343-350 | once the consumer asks for the next event, the entry yielded last has been acknowledged: the group holds no pending record for it |
| ConsumerGroups.PendingEvent | a2a_app/events.py:392-399 | the report for a pending record has exactly the keys `message_id`, `consumer`, `time_since_delivered` and `delivery_count` |
| ConsumerGroups.PendingEvents | a2a_app/events.py:390-400 | the reports for a pending list are one per record, in its order |
| ConsumerGroups.ConsumerGroup.constructor | a2a_app/events.py:269-285 | a new group object keeps the store, the group name and the prefix and is not running |
| ConsumerGroups.ConsumerGroup.EnsureGroupAt | a2a_app/events.py:291-303 | creating the group ignores the reply that it exists, leaving the store as `EnsureGroup` says; a connection error is raised |
| ConsumerGroups.ConsumerGroup.Consume | a2a_app/events.py:305-321 | `consume` returns a new, not yet started generator over `<prefix>:<task id>` for that consumer |
| ConsumerGroups.ConsumerGroup.Stop | a2a_app/events.py:359-361 | stopping clears the `running` flag |
| ConsumerGroups.ConsumerGroup.GetPendingEvents | a2a_app/events.py:363-404 | corrected to read the client's `times_delivered` (see Findings): the result reports the first `count` pending records in id order; a negative `count`, which the client refuses with a `RedisError`, and any store error give `[]` |
| ConsumerGroups.ConsumerGroup.GetPendingEventsAsWritten | a2a_app/events.py:363-404 | as written: a negative `count` or a store error gives `[]`; otherwise the result is the report loop over the client's items for the first `count` pending records, which raises on the first item |
| ConsumerGroups.ClientItem | a2a_app/events.py:382-388 | the item the client's `xpending_range` gives for a pending record has the keys `message_id`, `consumer`, `time_since_delivered` and `times_delivered`, and no `delivery_count` |
| ConsumerGroups.ClientItems | a2a_app/events.py:382-391 | the client gives one item per pending record, in order |
| ConsumerGroups.ReportAsWritten | a2a_app/events.py:392-398 | one report as written fails exactly when one of the four keys it looks up is missing, with a `LookupError` (KeyError), which is not a `RedisError` |
| ConsumerGroups.ReportsAsWritten | a2a_app/events.py:390-400 | the report loop as written gives one report per item, or fails with a `LookupError` that the `except RedisError` clause does not catch |
| ConsumerGroups.ReportItems | a2a_app/events.py:390-400 | the `for item in pending` loop computes exactly `ReportsAsWritten` |
| ConsumerGroups.PendingReportRaises | a2a_app/events.py:391-404 | as written, any non-empty pending list makes the report raise KeyError for `delivery_count`, past the `except RedisError` clause |
| ConsumerGroups.UnackedDeliveryRaises | a2a_app/events.py:327-343 | after a consumer receives an entry and does not acknowledge it, the group's pending list is non-empty and the report as written raises KeyError |
| ConsumerGroups.PendingEventReadsClientItem | a2a_app/events.py:393-398 | the corrected report takes each of its four fields from the client's item, the delivery count from `times_delivered` |
| ConsumerGroups.Consumption.constructor | a2a_app/events.py:305-309 | a new `consume` generator has not started and holds nothing |
| ConsumerGroups.Consumption.Next | a2a_app/events.py:321-357 | one pass of `consume` changes the generator, the owner's flag and the store exactly as `ConsumeStep` says |
| ConsumerGroups.Consumption.Resume | a2a_app/events.py:327-357 | a pass once started acknowledges the entry yielded last, drops the rest of the read if that fails, then delivers, exactly as `ConsumeResume` says |
| ConsumerGroups.Consumption.Deliver | a2a_app/events.py:327-343 | the next entry of the current read, or, while running, a new read of at most ten undelivered entries; a store error yields nothing; exactly as `Continue` says |
| ConsumerGroups.Consumption.Close | a2a_app/events.py:356-357 | abandoning a started generator clears `running`; the entry yielded last stays unacknowledged |
| Models.OrEmpty | a2a_app/models.py:79-80 | a NULL list column reads as `[]`, any other as itself |
| Models.OrEmptyDict | a2a_app/models.py:81 | a NULL dict column reads as `{}`, any other as itself |
| Models.InsertTask | a2a_app/models.py:12-17 | inserting a task fails with an integrity error exactly when its `task_id` is taken; otherwise it adds that one row, stamped with the time, and keeps every other |
| Models.InsertConversation | a2a_app/models.py:93-98 | inserting a conversation fails exactly when its `context_id` is taken; otherwise it adds that one row and keeps every other |
| Models.InsertKeepsKeyed | a2a_app/models.py:12-17 | inserting a task, or a conversation (its unique `context_id` at models.py:93-98), keeps every row filed under its own unique key |
| Models.SecondInsertRejected | a2a_app/models.py:12-17 | a second record with the same task id, or a second conversation with the same context id (unique at models.py:93-98), is rejected |
| Models.ToDict | a2a_app/models.py:70-84 | `to_dict` has exactly the keys id, contextId, status, history, artifacts, metadata, createdAt and updatedAt |
| Models.Normalized | a2a_app/models.py:79-81 | the row with NULL collections replaced by empty ones has all three collections |
| Models.ToDictFields | a2a_app/models.py:72-83 | `to_dict` maps task_id to id, context_id to contextId, status_state and status_message to status.state and status.message, NULL history, artifacts and metadata to `[]`, `[]` and `{}`, and a missing timestamp to None |
| Models.ToDictInjective | a2a_app/models.py:70-84 | with a one-to-one timestamp format, two rows with the same `to_dict` differ at most in NULL versus empty collections |
| Schemas.TaskFromOrm | a2a_app/schemas.py:133-147 | the API view of a stored task: `task_id` becomes `id`, `status_state` becomes a status whose message is always None, a NULL history, artifacts or metadata becomes an empty list or dict, and both timestamps are kept |
| Schemas.ConversationFromOrm | a2a_app/schemas.py:150-160 | the API view of a conversation keeps its id, agent, streaming flag and timestamps and takes the task count and title from the caller (defaults 0 and "") |
| Schemas.ViewsAgree | a2a_app/schemas.py:133-147 | the ORM dict (`to_dict`) and the API view agree on id, status state, history, artifacts and metadata, and normalising NULL columns first does not change the view |
| Schemas.Defaults | a2a_app/schemas.py:17-25 | leaving fields out gives a "text" part, a message with no id, a "2.0" request with no id and no params, a "default" agent with no context id, and no history length |
| Schemas.PartDumps | a2a_app/schemas.py:22-25 | dumping a list of parts dumps each part in order and keeps the length |
| Schemas.TaskDump | a2a_app/schemas.py:33-41 | `model_dump` of a task has exactly the eight declared keys |
| Schemas.DumpMatchesToDict | a2a_app/schemas.py:133-147 | dumping the API view of a stored task gives the ORM `to_dict` except that `status.message` is None, on every key |
| Schemas.RequiredString | a2a_app/schemas.py:76-80 | a required string field validates exactly when present and a string, yields that string, and otherwise raises a validation error |
| Schemas.StringOr | a2a_app/schemas.py:17-19 | a defaulted string field validates exactly when absent or a string, and yields the value or the default |
| Schemas.OptionalString | a2a_app/schemas.py:22-25 | an optional string field validates exactly when absent, null or a string, and yields Some only for a string |
| Schemas.ParsePart | a2a_app/schemas.py:17-19 | validating a part fails only with a validation error |
| Schemas.ParseParts | a2a_app/schemas.py:22-25 | a list of parts validates exactly when every item does, and the result lists the parsed items in order |
| Schemas.ParseMessage | a2a_app/schemas.py:22-25 | validating a message fails only with a validation error |
| Schemas.ParseTaskSendParams | a2a_app/schemas.py:90-94 | valid send parameters carry a `message` key that validates to the parsed message; a failure is a validation error |
| Schemas.ParseTaskIdParams | a2a_app/schemas.py:97-98 | id parameters validate exactly when `id` is a string, and yield it |
| Schemas.ParseTaskGetParams | a2a_app/schemas.py:101-103 | get parameters validate exactly when `id` is a string and `historyLength` is absent, null or an integer; the history length is Some only for an integer |
| Schemas.ParsePartDump | a2a_app/schemas.py:17-19 | validating a dumped part gives the part back |
| Schemas.ParseMessageDump | a2a_app/schemas.py:22-25 | validating a dumped message gives the message back |
| Schemas.ParseSendParamsDump | a2a_app/schemas.py:90-94 | validating dumped send parameters gives the parameters back |
| Schemas.SendParamsExamples | a2a_app/schemas.py:90-94 | a key the model does not declare is ignored, and parameters without a message are refused with a missing-field error |
| Services.ShortId | a2a_app/services.py:48 | a generated id is the prefix followed by exactly eight hexadecimal digits |
| Services.OrString | a2a_app/services.py:49 | `x or default` keeps a non-empty string and replaces None and "" by the default |
| Services.Reverse | a2a_app/services.py:153 | `reversed` keeps the length and puts element `i` at position `n-1-i` |
| Services.RemoveAll | a2a_app/services.py:189-190 | the keys left after a delete are exactly those of the old order outside the deleted set |
| Services.RemoveAllKeepsOrder | a2a_app/services.py:189-190 | deleting rows keeps the remaining keys distinct and in their stamp order |
| Services.InsertTaskConsistent | a2a_app/services.py:57-64 | inserting a task under a fresh id, stamped with the clock, keeps the task table keyed, listed once each and in creation order |
| Services.InsertConversationConsistent | a2a_app/services.py:180-183 | inserting a conversation under a fresh id keeps the conversation table consistent in the same sense |
| Services.ReplaceTaskConsistent | a2a_app/services.py:71-74 | an in-place update that keeps the key and the creation stamp keeps the task table consistent |
| Services.ContextIds | a2a_app/services.py:39 | `filter(context_id=…)` selects exactly the stored tasks of that context, no more than the table holds |
| Services.ContextIdsChronological | a2a_app/services.py:39 | the tasks of one context keep the creation order of the whole table |
| Services.ByContextNewestFirst | a2a_app/services.py:36-43 | `get_by_context` returns at most `limit` tasks, all of the context, strictly newest first |
| Services.ReversedNewestFirst | a2a_app/services.py:39 | reversing a list in creation order gives one in strictly decreasing creation time |
| Services.ByContextComplete | a2a_app/services.py:36-43 | with a limit no smaller than the context, every task of the context is returned |
| Services.Views | a2a_app/services.py:42 | the listed tasks become their API views, one each, in order |
| Services.MessageData | a2a_app/services.py:51-55 | the stored first message has exactly the keys messageId, role and parts; the id is the client's or a generated `msg-` id; each part is dumped in order |
| Services.MessageDataParses | a2a_app/services.py:51-55 | the stored first message is the dump of the client's message with its id filled in, and validates back to it |
| Services.NewTask | a2a_app/services.py:46-64 | a created task has a `task-` id, the given context or else its own id, state "submitted", no status message, the one message as history, no artifacts and empty metadata |
| Services.TitleOfText | a2a_app/services.py:116-122 | a conversation title is "New Conversation" for empty text, otherwise a prefix of the first text of at most 50 characters |
| Services.Title | a2a_app/services.py:116-122 | a title found is non-empty and at most 50 characters; a context without a first task is titled "New Conversation" |
| Services.PartTitle | a2a_app/services.py:119-122 | a title taken from the first part is non-empty and at most 50 characters, and only a list of parts yields one |
| Services.CreatedTaskTitle | a2a_app/services.py:116-122 | the title of a conversation whose first task was just created is its first part's text cut to 50 characters, or "New Conversation" when there is none |
| Services.Listings | a2a_app/services.py:106-128 | the listing has one entry per conversation, each that conversation's entry, or else the first failure |
| Services.MessageView | a2a_app/services.py:155-161 | a detail message tags the task id onto the message's role and parts, defaulting a missing role to None and missing parts to []; a non-dict message fails |
| Services.TaskMessages | a2a_app/services.py:154-161 | a task's history becomes detail messages one for one and in order, exactly when every message is a dict |
| Services.FlattenAppend | a2a_app/services.py:152-161 | the messages of two runs of tasks are the messages of the first followed by those of the second |
| Services.FlattenOne | a2a_app/services.py:154-161 | one task contributes its own history, tagged with its id |
| Services.DetailMessagesOldestFirst | a2a_app/services.py:141-172 | the detail's messages are those of the context's tasks in creation order, oldest task first |
| Services.Database.constructor | a2a_app/models.py:6-133 | a new database has empty tables and is consistent |
| Services.Database.GetTask | a2a_app/services.py:27-33 | `get` returns the view of the stored task exactly when the id is stored, otherwise None |
| Services.Database.GetByContext | a2a_app/services.py:36-43 | a negative limit raises ValueError; otherwise the views of the context's tasks newest first, at most `limit` of them |
| Services.Database.CreateTask | a2a_app/services.py:46-66 | creation fails with IntegrityError exactly when the generated id is taken, changing nothing; otherwise it adds exactly the new row stamped with the clock and returns its view |
| Services.Database.UpdateStatus | a2a_app/services.py:69-75 | sets the state and message of the task whatever its current state, returns whether it exists, and changes nothing else |
| Services.Database.AppendMessage | a2a_app/services.py:78-87 | appends the message to the history (NULL read as []) exactly when the task exists, and says whether it did |
| Services.Database.AddArtifact | a2a_app/services.py:90-99 | appends the artifact to the artifacts (NULL read as []) exactly when the task exists, and says whether it did |
| Services.Database.Replace | a2a_app/services.py:71-74 | an update of one existing row replaces it and touches no stamp and no other row |
| Services.Database.ViewsOf | a2a_app/services.py:149-150 | the loop over query rows yields their views in query order |
| Services.Database.List | a2a_app/services.py:106-128 | conversations are listed most recently saved first, each with its title and task count |
| Services.Database.ListingsOf | a2a_app/services.py:108-128 | the listing loop builds the listing of the given conversations, stopping at the first failure |
| Services.Database.GetConversation | a2a_app/services.py:131-138 | `get` returns the conversation with its number of tasks and an empty title exactly when it exists |
| Services.Database.GetDetail | a2a_app/services.py:141-172 | `get_detail` is None exactly for an unknown context, and otherwise the detail of its tasks and messages |
| Services.Database.CreateConversation | a2a_app/services.py:175-184 | the id is the given one or a generated `ctx-` id; an existing conversation is returned unchanged, otherwise exactly one new conversation is stamped and added; no task changes |
| Services.Database.DeleteConversation | a2a_app/services.py:187-191 | removes every task of the context and the conversation, keeps the rest and their order, and says whether the conversation existed |
| Services.ContextKeys | a2a_app/services.py:189 | the ids of the tasks of a context, exactly |
| Services.WithoutContext | a2a_app/services.py:189 | deleting a context's tasks removes exactly those keys and leaves every other row untouched |
| Services.WithoutKey | a2a_app/services.py:190 | deleting a conversation removes exactly that key and leaves every other row untouched |
| Services.DeleteKeepsConsistent | a2a_app/services.py:187-191 | deleting a conversation and its tasks keeps the whole database consistent |
| Services.DeleteTasksConsistent | a2a_app/services.py:189 | deleting a context's tasks keeps the task table consistent |
| Services.DeleteConversationConsistent | a2a_app/services.py:190 | deleting one conversation keeps the conversation table consistent |
| Services.MessagesOldestFirst | a2a_app/services.py:152-161 | the nested loops collect the messages of the tasks in reverse (oldest first) order |
| Services.CollectMessages | a2a_app/services.py:154-161 | the inner loop collects one task's history as detail messages |
| Services.ListingsFailFrom | a2a_app/services.py:108-126 | once a prefix of the listing fails, the whole listing fails with that error |
| Services.MessagesFailFrom | a2a_app/services.py:154-161 | once a prefix of a history fails, the whole history fails with that error |
| Services.FlattenFailFrom | a2a_app/services.py:153-161 | once the messages of a prefix of the tasks fail, all of them fail with that error |
| Services.DetailOf | a2a_app/services.py:163-172 | with the views and messages collected, the detail carries the conversation's fields, the tasks newest first and those messages |
| Services.MarkStreaming | a2a_app/models.py:109-115 | recording a stream keeps the conversation table's keys and every other conversation |
| Services.MarkStreamingShows | a2a_app/models.py:109-115 | after recording a stream the conversation reads as streaming with that stream URL, and the tables stay consistent |
| Executors.FirstText | a2a_app/executors.py:159-165 | the text found is that of the first part whose type is `text` (`""` when it has none); with no text part it is `Hello`; a part that is not a dict before any text part raises AttributeError |
| Executors.ExtractText | a2a_app/executors.py:159-165 | a message without `parts` gives `Hello`; extraction fails only with an AttributeError or a TypeError |
| Executors.ExtractTextExamples | a2a_app/executors.py:159-165 | a text part's text is found, a message with only a data part or no parts gives `Hello` |
| Executors.ChunkSteps | a2a_app/executors.py:95 | the chunk loop runs its iterations 0 … count-1 in order |
| Executors.EventsOf | a2a_app/executors.py:63-150 | a run emits one event per step |
| Executors.Steps | a2a_app/executors.py:63-150 | a run has 2 steps, plus 2 with tools, plus one per chunk, plus 1 with artifacts; it begins with the working step and ends with the completion step |
| Executors.AgentEvents | a2a_app/executors.py:63-150 | the agent emits exactly one event per step of its run |
| Executors.EventsOfIndex | a2a_app/executors.py:63-150 | the i-th event emitted is the event of the i-th step |
| Executors.TaskEventFields | a2a_app/executors.py:65-67 | an event has its type, its task id and every other key of its payload |
| Executors.EventOfFields | a2a_app/executors.py:58-150 | each step's event has the step's type and carries the task id |
| Executors.CountEvents | a2a_app/executors.py:63-150 | the number of events of a type equals the number of steps that emit that type |
| Executors.CountStepsAppend | a2a_app/executors.py:63-150 | counting steps of a type adds up over consecutive parts of a run |
| Executors.CountChunkSteps | a2a_app/executors.py:95-111 | the chunk loop emits only `task.message` events, one per iteration |
| Executors.CountRun | a2a_app/executors.py:63-150 | the count of a type in a run is the sum over its working, tool, chunk, artifact and completion parts |
| Executors.RunBoundaries | a2a_app/executors.py:63-150 | a run has 2 + 2 (with tools) + num_chunks + 1 (with artifacts) events, begins with `task.working` and ends with `task.completed` |
| Executors.MessageCount | a2a_app/executors.py:95-111 | exactly `num_chunks` `task.message` events are emitted (none for a negative count) |
| Executors.ToolCallsIffEnabled | a2a_app/executors.py:71-93 | one `tool-call` and one `tool-call-result` are emitted iff tools are enabled, none otherwise |
| Executors.ToolCallPairing | a2a_app/executors.py:63-93 | with tools, the tool call is the second event and its result the third, with the same `toolCallId` `tool-<task id>-1` |
| Executors.ToolStepsFirst | a2a_app/executors.py:63-93 | with tools, the second and third steps are the tool call and its result |
| Executors.ToolEventIds | a2a_app/executors.py:72-93 | the tool call and its result carry the types `tool-call`, `tool-call-result` and the call id `tool-<task id>-1` |
| Executors.ArtifactIffEnabled | a2a_app/executors.py:115-150 | exactly one `task.artifact` is emitted iff artifacts are enabled, next to last, after every message event and before completion |
| Executors.EveryEventTagged | a2a_app/executors.py:58-150 | every event carries `taskId` equal to the message's task id (or `unknown`) |
| Executors.EmitStep | a2a_app/executors.py:154-157 | emitting one more step extends the events received by exactly that step's event |
| Executors.EventSink.constructor | a2a_app/executors.py:50 | a new callback has received nothing |
| Executors.EventSink.Receive | a2a_app/executors.py:157 | the callback receives each event at the end of what it has received |
| Executors.Emit | a2a_app/executors.py:154-157 | `_emit` hands the event to the callback if there is one, and does nothing otherwise |
| Executors.FakeAgentExecutor.constructor | a2a_app/executors.py:27-45 | the agent keeps its chunk count and flags, defaulting to 5 chunks with tools and artifacts |
| Executors.FakeAgentExecutor.Execute | a2a_app/executors.py:47-152 | the callback receives every event of the run in order, for the message's task id and extracted text; with no callback nothing is emitted and the run completes; it raises only when the text cannot be extracted |
| Executors.FakeAgentExecutor.Run | a2a_app/executors.py:63-150 | once the text is known, the callback receives the run's events in order |
| Executors.FakeAgentExecutor.EmitChunks | a2a_app/executors.py:95-111 | the chunk loop appends one `task.message` event per iteration, in order |
| Executors.ExecuteFakeAgent | a2a_app/executors.py:168-182 | running the default agent emits the run with 5 chunks, tools and artifacts |
| Handlers.TerminalState | a2a_app/handlers.py:15-20 | a result is always a terminal state, and the type is `task.` followed by it |
| Handlers.TerminalStateIff | a2a_app/handlers.py:15-20 | a type has terminal state s exactly when s is completed, failed, canceled or rejected and the type is `task.` + s |
| Handlers.TerminalStateExamples | a2a_app/handlers.py:15-20 | `task.completed` gives completed and `task.canceled` gives canceled; `task.working`, a bare `completed` and `tool-call` give None |
| Handlers.EventEffectCases | a2a_app/handlers.py:30-48 | an event appends its message exactly when its type is `task.message` and the message is truthy; it appends its artifact exactly when its type is `task.artifact` and the artifact is truthy; it sets the status exactly when its type names a terminal state, recording the event's message or None; a type that is not a string fails; everything else is untouched |
| Handlers.EventEffect | a2a_app/handlers.py:30-48 | the dispatch fails exactly for an event whose type is not a string, and sets a status only for a type `task.` + s with s a terminal state |
| Handlers.ApplyRow | a2a_app/services.py:69-99 | an effect changes only the column it names: a terminal event sets state and message, a message or artifact is appended at the end (a NULL list counting as empty), and ids, context, metadata and timestamps never change |
| Handlers.TerminalEventOverrides | a2a_app/handlers.py:46-48 | a `task.<terminal>` event sets its state even on a task that is already terminal: processing does not treat terminal states as final |
| Handlers.Applied | a2a_app/handlers.py:34-48 | applying an event's effect changes only the row of its task, and a missing task changes nothing |
| Handlers.Effects | a2a_app/handlers.py:68-71 | the effects of the agent's events are one per event, in order |
| Handlers.ApplyEffects | a2a_app/handlers.py:68-71 | however many events are processed, the row keeps its ids, context, metadata and timestamps |
| Handlers.Tags | a2a_app/handlers.py:31 | every published event carries `taskId` equal to the task being processed |
| Handlers.TagKeepsEffect | a2a_app/handlers.py:30-31 | tagging reads nothing the dispatch reads: the type is taken before the tag, so the effect of the event and of its tagged form agree |
| Handlers.ProcessTaskEvent | a2a_app/handlers.py:23-48 | the tagged event is published exactly once, whatever its type, before any store update; a publish error is raised with nothing changed; otherwise the row changes as the event's effect says, and only then may the dispatch fail |
| Handlers.PublishAndApply | a2a_app/handlers.py:30-48 | with the store down the publish error is raised and nothing changes; otherwise the tagged event is appended to the task's stream, the row changes as the given effect says, and the raised error is the effect's failure |
| Handlers.PublishTagged | a2a_app/handlers.py:31-32 | the publish appends the event with `taskId` set to the task's stream and returns the new id; a store error changes nothing |
| Handlers.ApplyEffect | a2a_app/handlers.py:34-48 | the service call the dispatch makes (append, add artifact, update status or none) leaves the table as `Applied` says and the database consistent |
| Handlers.ProcessStep | a2a_app/handlers.py:68-69 | processing one more event extends both the row and the stream by exactly that event's step |
| Handlers.ProcessAll | a2a_app/handlers.py:68-71 | processing the agent's events in order publishes every tagged event in order to the task's stream and leaves the row as all their effects applied in order; a store error on the first publish changes nothing |
| Handlers.ProcessReachable | a2a_app/handlers.py:68-71 | while the store is reachable, every event is published to the task's stream and applied to its row, in emission order, and nothing else changes |
| Handlers.ProcessNext | a2a_app/handlers.py:68-69 | the i-th event processed extends the row and the stream from the state after the first i events |
| Handlers.StepEffects | a2a_app/executors.py:55-150 | the effects of a run's steps are one per step, in order |
| Handlers.EffectOfStep | a2a_app/executors.py:55-150 | the event a step emits has the same effect whatever task id it carries |
| Handlers.QuietStepUnchanged | a2a_app/handlers.py:46-48 | the working, tool-call and tool-result events change nothing in the store |
| Handlers.ChunkStepAppends | a2a_app/handlers.py:34-38 | each chunk event appends its agent message to the history |
| Handlers.ArtifactStepAppends | a2a_app/handlers.py:40-44 | the artifact event appends the agent's artifact |
| Handlers.CompletedStepSets | a2a_app/handlers.py:46-48 | the completion event sets the state `completed` with the completion message |
| Handlers.UnchangedByType | a2a_app/handlers.py:46-48 | a string type that is not a message, an artifact or `task.<terminal>` changes nothing |
| Handlers.EffectsOfSteps | a2a_app/handlers.py:68-71 | the effects of the events of a run are the effects of its steps |
| Handlers.StepEffectsAppend | a2a_app/executors.py:55-150 | the effects of consecutive runs of steps are the concatenation of their effects |
| Handlers.ApplyEffectsAppend | a2a_app/handlers.py:68-71 | applying two runs of effects is applying the second to the row the first leaves |
| Handlers.AgentEventsNeverFail | a2a_app/handlers.py:30-48 | every event the fake agent emits has a string type, so processing it never fails |
| Handlers.StepEventsNeverFail | a2a_app/executors.py:55-150 | whatever steps a run is made of, none of their events makes the dispatch fail |
| Handlers.ChunkMessages | a2a_app/executors.py:95-111 | the messages of the first k chunks are the agent's chunk messages, in order |
| Handlers.ChunksApplied | a2a_app/handlers.py:34-38 | the chunk events append their messages to the history in emission order |
| Handlers.RunApplied | a2a_app/handlers.py:68-71 | processing every event of a run leaves the task completed with the completion message, its history extended by the chunk messages in order, and one artifact more iff artifacts are enabled |
| Handlers.RunStepsApplied | a2a_app/executors.py:55-150 | the same in terms of the steps of the run |
| Handlers.RunPrefixApplied | a2a_app/executors.py:63-111 | the working, tool and chunk events only append the chunk messages |
| Handlers.ApplySteps | a2a_app/handlers.py:68-71 | processing two runs of steps is processing the second after the first |
| Handlers.QuietApplied | a2a_app/executors.py:63-93 | the working and tool events leave the row as it was |
| Handlers.UnchangedApplied | a2a_app/handlers.py:46-48 | events that change nothing, processed in any number, leave the row as it was |
| Handlers.ArtifactsApplied | a2a_app/executors.py:115-138 | the artifact events add one artifact iff artifacts are enabled |
| Handlers.CompletedApplied | a2a_app/executors.py:140-150 | the completion event sets the state `completed` with the completion message |
| Handlers.UserText | a2a_app/executors.py:159-165 | a message with no text part gives `Hello` |
| Handlers.FirstTextOfDumps | a2a_app/handlers.py:62-66 | the agent, reading the stored form of the parts, finds the first text part's text and never fails |
| Handlers.MessageDataText | a2a_app/handlers.py:62-71 | the message data the handler passes to the agent yields the user's text and no task id (so the agent uses `unknown`) |
| Handlers.SendResponse | a2a_app/handlers.py:73-86 | the send answer always has exactly the keys id, contextId, status and history |
| Handlers.HandleTasksSend | a2a_app/handlers.py:51-86 | the send validates, creates the task, runs the agent with `_process_task_event` as callback and answers with the re-read task; its results and new tables are those of `SendSpec` |
| Handlers.SendSpec | a2a_app/handlers.py:51-86 | a send either changes no row or adds exactly the row `task-<hex>`, which was absent; a successful send needs the store up, adds that row, appends its id to the insertion order and advances the clock by one |
| Handlers.RunSpec | a2a_app/handlers.py:59-86 | running the agent on a stored task answers Ok exactly when the store is up; it changes only that task's row, keeping its task id and context, leaves the order and clock alone, and with the store down changes neither rows nor streams |
| Handlers.RunAgent | a2a_app/handlers.py:59-86 | the part after creation leaves the tables, streams and answer as `RunSpec` says |
| Handlers.AddEndsWith | a2a_app/events.py:75-80 | one more publish extends the stream's newest entries by the event, while they fit in 1000 |
| Handlers.PublishAllEntries | a2a_app/handlers.py:31-32 | after publishing up to 1000 events, the newest entries of the stream are exactly those events, in order |
| Handlers.PublishAllOthers | a2a_app/handlers.py:31-32 | publishing a task's events leaves every other task's stream as it was |
| Handlers.RunCompletes | a2a_app/handlers.py:68-80 | with the store reachable, the run leaves the task completed as `RunRow` says, changes no other row, answers with the re-read task and leaves all its tagged events, in order, as the newest entries of the task's stream |
| Handlers.CompletedResponse | a2a_app/handlers.py:73-80 | the answer for a completed run names the task id, state `completed`, and the stored history followed by the five chunk messages |
| Handlers.CreatedRunAnswer | a2a_app/handlers.py:71-80 | on a created task, the answer is Ok with the task's id, state completed and the history: the user message then the five chunk messages |
| Handlers.CreatedRunRow | a2a_app/handlers.py:68-71 | on a created task, the stored row ends completed with the completion message, the user message and the five chunk messages as history and the one artifact, every other row unchanged (the corrected terminal handling the stale callback misses) |
| Handlers.SendCompletes | a2a_app/handlers.py:51-71 | a valid send with a fresh id creates the row with history exactly the stored user message and no artifacts, then runs the agent on it |
| Handlers.SendDown | a2a_app/handlers.py:55-71 | when the first publish fails the error is raised, nothing is published, and the created task stays behind, submitted, with only the user message |
| Handlers.SendRejects | a2a_app/handlers.py:53-55 | invalid parameters or a taken task id raise a validation or integrity error and nothing changes |
| Handlers.StreamUrlInjective | a2a_app/handlers.py:96 | the stream path `/agent/rpc/<id>/stream/` names its task: different ids give different paths |
| Handlers.Subscribed | a2a_app/handlers.py:89-97 | the subscribe answer has exactly `task`, the send's answer, and `streamUrl`, the stream path of the answer's id |
| Handlers.SendAnswerKeys | a2a_app/handlers.py:73-86 | every successful send answer holds the task id as a string, its context, state and history |
| Handlers.RunAnswerKeys | a2a_app/handlers.py:73-80 | a run that does not raise answers with the task's id, context, state and history |
| Handlers.HandleTasksSendSubscribe | a2a_app/handlers.py:89-97 | sendSubscribe changes the tables and streams exactly as a send does, and wraps its answer with the stream path, or raises its error |
| Handlers.HandleTasksResubscribe | a2a_app/handlers.py:100-111 | resubscribing answers as `ResubscribeSpec` says and changes nothing |
| Handlers.ResubscribeSpec | a2a_app/handlers.py:100-111 | a resubscribe answer is Ok only for a string id of a stored task and then has exactly the keys `task` and `streamUrl`; its errors are a validation error or `Task <id> not found` for the requested id |
| Handlers.ResubscribeCases | a2a_app/handlers.py:100-111 | resubscribe succeeds exactly for a string id of a stored task, answering with the task's dump and its stream path; an unknown id raises the not-found LookupError; a missing or non-string id is a validation error |
| Handlers.HandleTasksGet | a2a_app/handlers.py:114-126 | get answers as `GetSpec` says and changes nothing |
| Handlers.GetSpec | a2a_app/handlers.py:114-126 | get answers Ok only for a string id of a stored task; its errors are a validation error or `Task <id> not found` for the requested id |
| Handlers.GetAnswer | a2a_app/handlers.py:118-126 | for a stored task and a length n, the answer is the task's dump with its history replaced by `history[-n:]` of the stored history |
| Handlers.HistoryCut | a2a_app/handlers.py:122-124 | replacing the dump's history by `history[-n:]` keeps every other key and value, and the new history is the whole, the last n or all but the first -n messages as n says |
| Handlers.GetHistory | a2a_app/handlers.py:122-126 | with a length n the answer is the task's dump except the history: the last n messages for 0 < n, all of them for n = 0 or n at least the length (Python's `[-0:]`), and all but the first -n for n < 0 |
| Handlers.GetIsResubscribedTask | a2a_app/handlers.py:100-126 | without a length, get answers with the very task resubscribe shows, and they fail alike |
| Handlers.HandleTasksCancel | a2a_app/handlers.py:129-144 | cancel checks, updates and re-reads, leaving the answer and the table as `CancelSpec` says and nothing else changed |
| Handlers.CancelSpec | a2a_app/handlers.py:129-144 | cancel never adds or removes a task; an error changes nothing and is a validation, lookup or value error; a success sets one stored task to `canceled` with no status message and changes nothing else |
| Handlers.CancelCases | a2a_app/handlers.py:133-144 | a terminal task is refused with a ValueError naming its state and nothing changes; any other becomes `canceled` with no status message, answered with its dump, and no other row changes |
| Handlers.CancelIsFinal | a2a_app/handlers.py:137-141 | a second cancel of the same task is refused, naming `canceled`, and changes nothing |
| Handlers.CancelKeepsTerminal | a2a_app/handlers.py:137-141 | a cancel never changes a terminal task's row, nor any row but the one it names |
| Handlers.RequestedTaskId | a2a_app/schemas.py:91 | the id a send should use is the requested non-empty `id`, and `task-<hex>` only when none is given |
| Handlers.RequestedRow | a2a_app/services.py:46-64 | the row a send should create has the requested id, its context (the id when none is given), state `submitted`, the user message as history and no artifacts |
| Handlers.SendAsRequestedKeepsId | a2a_app/api.py:181-184 | a send that honours the request succeeds on a free id, stores the task under it and answers with the requested id |
| Api.RoutesAndAliases | a2a_app/api.py:132-142 | exactly the seven method names are routed; `message/send` routes as `tasks/send` and `message/stream` as `tasks/sendSubscribe` |
| Api.ErrorCode | a2a_app/api.py:153-171 | every handler exception maps to one of -32601, -32602 and -32603 |
| Api.RespondCases | a2a_app/api.py:150-171 | every response is JSON-RPC 2.0, echoes the request id and holds exactly one of result and error; a result passes through unchanged; an exception keeps its message, and a ValueError gives -32602, a LookupError -32601 and anything else -32603 |
| Api.NotFoundSharesCode | a2a_app/api.py:143-164 | a missing task and an unknown method both answer -32601, told apart only by the message `Task <id> not found` |
| Api.HandleRpc | a2a_app/api.py:126-171 | an unknown method answers `Method not found: <m>` with -32601 and changes nothing; otherwise the routed handler runs on the params (`{}` when absent) and its outcome becomes the response echoing the id; the reading routes change nothing, cancel changes what `CancelSpec` says, and both send routes change what `SendSpec` says |
| Api.HandleTasksSend | a2a_app/api.py:179-238 | the endpoint's own send validates, creates, runs the agent with its stale callback and answers; its answer and new tables and streams are those of `Api.SendSpec` |
| Api.SendSpec | a2a_app/api.py:179-238 | a send either changes no row or adds exactly the absent row `task-<hex>`; a success needs the store up, adds that row, appends its id to the order and advances the clock by one |
| Api.RunSpec | a2a_app/api.py:186-238 | running the agent with the stale callback answers Ok exactly when the store is up, changes only that row, keeping its task id and context, and with the store down changes neither rows nor streams |
| Api.RunAgent | a2a_app/api.py:186-238 | the part after creation leaves the tables, streams and answer as `Api.RunSpec` says |
| Api.HandleTasksSendSubscribe | a2a_app/api.py:241-249 | sendSubscribe changes the tables and streams exactly as the endpoint's send does, and wraps its answer with the stream path, or raises its error |
| Api.SendAnswerKeys | a2a_app/api.py:225-238 | every successful send answer has exactly the keys id, contextId, status and history, with the id `task-<hex>` |
| Api.RunAnswerKeys | a2a_app/api.py:225-232 | a run that does not raise answers with the task's id, context, state and history |
| Api.StaleRunCompletes | a2a_app/api.py:198-232 | with the store up, the run appends the chunk messages and the artifact but keeps the row's state and status message, and answers with that re-read row |
| Api.CreatedRunSubmitted | a2a_app/api.py:198-232 | on a freshly created task the answer is Ok with the state it was created with and the history of the user message and the five chunk messages, and the row is stored with that history and the one artifact |
| Api.SendStaysSubmitted | a2a_app/api.py:179-232 | with a working publisher, a valid send with a fresh id answers and stores the task still `submitted`, with the user message and five chunk messages as history and one artifact |
| Api.SendIgnoresRequestedId | a2a_app/api.py:181-184 | with a working publisher, a send asking for the task id `my-custom-task` answers with the generated `task-<hex>` instead |
| Api.SubscribeLeavesConversation | a2a_app/api.py:241-249 | with a working publisher, sendSubscribe leaves the conversation row as it was, so its `is_streaming` flag never changes |
| Api.StaleEffects | a2a_app/api.py:198-218 | the stale callback's effects are one per event, in order |
| Api.StaleSetsOnlyBareNames | a2a_app/api.py:211-218 | as written, the callback sets a state exactly for a type that is a bare terminal state name, so no `task.<state>` type ever sets one |
| Api.StaleEffect | a2a_app/api.py:199-218 | the stale callback fails exactly when the type is a list or a dict (an `in` test on it raises), and sets a status only for a type that is a bare terminal state name |
| Api.Mute | a2a_app/api.py:211-218 | the stale callback's effect never sets a status, fails exactly when the dispatch's does, and is the dispatch's effect otherwise |
| Api.StaleStepMutes | a2a_app/api.py:203-218 | on every event of the agent, the stale callback does what `_process_task_event` does except setting the status |
| Api.StepTypeNotBare | a2a_app/api.py:211 | no event type the agent emits is a bare terminal state name |
| Api.StaleQuiet | a2a_app/api.py:203-218 | the working, tool and completion events change nothing through the stale callback |
| Api.StaleRunMutes | a2a_app/api.py:198-220 | for a whole run, the stale effects are the dispatch's effects with the status setting removed |
| Api.MutedApplied | a2a_app/api.py:203-218 | applying muted effects gives the row the real effects give, with the original state and status message |
| Api.StaleRunRow | a2a_app/api.py:198-220 | the run through the stale callback leaves the row `RunRow` describes, but with the state and status message it had |
| Api.AgentEventsPassStale | a2a_app/api.py:198-220 | no event the agent emits makes the stale callback fail |
| Api.OnEvent | a2a_app/api.py:198-218 | with the store down the publish error is raised and nothing changes; otherwise the tagged event is appended to the task's stream and the row changes as the stale effect says |
| Api.OnEvents | a2a_app/api.py:198-220 | processing the agent's events publishes every tagged event in order and leaves the row as the stale effects applied in order; a store error on the first publish changes nothing |
| Api.StaleMissesCompletion | a2a_app/api.py:211-218 | the run's last event has type `task.completed`; the stale callback leaves the row unchanged for it, while the dispatch of `_process_task_event` sets `completed` |
| Api.EndsStreamIff | a2a_app/api.py:340-341 | an event ends the stream exactly when its type is `task.` followed by a terminal state |
| Api.StreamTrace | a2a_app/api.py:309-344 | the generator makes one pass per store state |
| Api.Ends | a2a_app/api.py:341 | after the generator ends, every further pass reports the end |
| Api.ForwardOuts | a2a_app/api.py:336-341 | the client sees one output per subscription pass, up to the one that stops the generator, then the end |
| Api.DoneTrace | a2a_app/api.py:336-341 | a generator that has returned or broken out only reports the end |
| Api.ForwardTrace | a2a_app/api.py:336-341 | while forwarding, the client sees exactly the subscription's passes, each event as a frame with its `_id` as the SSE id, up to and including the first terminal event, and nothing after |
| Api.StreamCases | a2a_app/api.py:309-341 | for a missing task the client gets one error frame and then the end; for a stored task it gets a snapshot first iff the state is not terminal, then the forwarded subscription up to and including the first terminal event |
| Api.NotFoundFrame | a2a_app/api.py:312-319 | the missing task's frame has no id line, is named `error`, and carries the event with code `TASK_NOT_FOUND` and message `Task <id> not found` |
| Api.FrameNames | a2a_app/api.py:329-338 | the snapshot is named `task.<state>`; a forwarded entry's frame carries the entry id and the type the event was published with |
| Api.TaskStream.constructor | a2a_app/api.py:305-309 | a new stream has not looked its task up, and its subscription to the task's stream with the request's `Last-Event-ID` has not started |
| Api.TaskStream.Next | a2a_app/api.py:309-344 | one pass of `generate` changes the generator and its subscription and outputs exactly what `StreamStep` says, against the tables and store as they are now |
| Api.StreamStep | a2a_app/api.py:309-344 | an ended generator stays ended; the lookup pass keeps the subscription untouched and ends exactly for a missing task; ending or failing leaves it returned; a forwarded frame is always an entry of the subscription |
| Sse.DataLines | a2a_app/helpers.py:10-11 | one `data: ` line per segment of the JSON text, in order |
| Sse.FormatSseEvent | a2a_app/helpers.py:3-13 | building the lines step by step, the loop included, yields exactly the frame `Frame` describes |
| Sse.FrameAsLines | a2a_app/helpers.py:12-13 | the frame is its lines plus one empty line, joined by newlines, plus a final newline |
| Sse.Frame | a2a_app/helpers.py:3-13 | every frame ends with `\n\n`, the blank line that terminates an SSE event |
| Sse.FrameStart | a2a_app/helpers.py:6-8 | a frame begins with `id: <event_id>\n` iff the id is non-empty, and otherwise with `event: <type or message>\n` |
| Sse.FieldValuesAppend | a2a_app/helpers.py:5-13 | a reader collects the fields of consecutive lines in order |
| Sse.DataLinesFields | a2a_app/helpers.py:10-11 | the data lines hold exactly the JSON segments, in the data field only |
| Sse.HeaderFields | a2a_app/helpers.py:6-8 | the id line carries the id iff it is non-empty, and the event line carries the type, each in its own field only |
| Sse.FrameLinesHaveNoNewline | a2a_app/helpers.py:5-12 | no frame line contains a newline when neither the id nor the type does |
| Sse.FrameSplits | a2a_app/helpers.py:13 | splitting a frame at newlines gives back its lines and the blank ones |
| Sse.FrameLineFields | a2a_app/helpers.py:5-12 | a reader of the lines collects the JSON segments as data, the type as event, and the id iff non-empty |
| Sse.FrameRoundTrip | a2a_app/helpers.py:3-13 | reading a frame back as a server-sent-events client does gives the JSON text of the event as its data, its type (or `message`) as the event name, and the given id when non-empty |
| Text.Digit | a2a_app/events.py:75-80 | a digit below ten is written as a decimal digit character |
| Text.NatToString | a2a_app/events.py:75-80 | the decimal text of a stream id field is non-empty and all digits |
| Text.ParseNat | a2a_app/events.py:144 | a number is read exactly from a non-empty run of digits |
| Text.DigitsValueOfNat | a2a_app/events.py:158-164 | the decimal text of a number denotes that number |
| Text.ParseNatToString | a2a_app/events.py:158-164 | reading back the decimal text of a number gives the number |
| Text.IntToString | a2a_app/executors.py:96-99 | the decimal text of an integer is non-empty and starts with '-' exactly when the integer is negative |
| Text.IndexOf | a2a_app/events.py:144 | the position found holds the character and no earlier position does; None means the character does not occur |
| Text.IndexOfFirst | a2a_app/events.py:158-164 | the first occurrence is found wherever it stands |
| Text.RemovePrefix | a2a_app/handlers.py:19 | `removeprefix` strips the prefix when present, so that prefix plus result is the input, and otherwise returns the input |
| Text.PyTo | a2a_app/services.py:122 | `s[:stop]` for any integer: the first `stop` items, clamped to the length, or all but the last `-stop` for a negative stop |
| Text.PyFrom | a2a_app/handlers.py:124 | `s[start:]` is a suffix of `s`, never longer than it |
| Text.PyTailCases | a2a_app/handlers.py:124 | `s[-n:]` is the whole sequence for `n` = 0 or `n` beyond the length, the last `n` items otherwise, and drops the first `-n` items for a negative `n` |
| Text.Split | a2a_app/helpers.py:10 | `split` always yields at least one piece |
| Text.SplitHasNoSeparator | a2a_app/helpers.py:10 | no piece of a split contains the separator |
| Text.JoinSplit | a2a_app/helpers.py:10-13 | joining the pieces of a split with the separator restores the text |
| Text.SplitWithoutSeparator | a2a_app/helpers.py:10 | a text without the separator splits into itself alone |
| Text.SplitSeparatorFirst | a2a_app/helpers.py:10 | a leading separator yields an empty first piece |
| Text.SplitAppend | a2a_app/helpers.py:10 | a separator-free head followed by the separator splits off as the first piece |
| Text.SplitJoin | a2a_app/helpers.py:10-13 | splitting separator-free pieces joined with the separator gives the pieces back |

## Left out

- `redis_client.py`, the Django URL routing, page rendering, the playground UI, the agent-card and conversation HTTP endpoints, and `PushNotificationConfig` (models.py:136-168) are glue or unused by the core. They are not part of this model.
- The `RedisEventPublisher(redis_url=…, stream_prefix=…)` and `RedisEventSubscriber(redis_url=…, stream_prefix=…)` calls in api.py (api.py:186-189, 321-324) do not match the only constructors, which take a Redis client (events.py:37-41, 102-106), and neither class has the `close()` that api.py:223 and 344 call. As written these calls raise TypeError. Every send through api.py would then answer -32603 right after `create` (api.py:183), leaving a `submitted` task with only the user message, and the stream endpoint would fail for every stored task before its snapshot. The model describes api.py with a working publisher and subscriber over the one shared store, and closing a connection has no effect on it.
- The stream endpoint looks the task up first (api.py:310-319) and only then builds its subscriber (api.py:321-324). The model's `Api.TaskStream` holds its subscription from construction. Subscribing reads nothing, and the lookup pass leaves the subscription untouched (`Api.StreamStep`), so the order has no observable effect. After the terminal event the generator stops reading, and the abandoned subscription is not modelled further.
- Services.PartTitle: a truthy first-part `text` that is a list is refused with a TypeError, where Python slices it to a list title (services.py:120-122) and lists the conversation with it; so `Services.Title`, `Services.Listings` and `Services.Database.List` fail for such a row. Titles are modelled as strings, the type the conversation schema declares, and the only writer of histories (services.py:51-55) stores string texts, so no core path produces such a row.
- Concurrency is not modelled. Each request and each generator step runs atomically against the current state. The read-modify-write race between `append_message` and `add_artifact` on the same row cannot be expressed.
- `text_delay` and the `asyncio.sleep` calls of the fake agent and of the subscriber's backoff are left out: time only matters through the server clock.
- Blocking timeouts of XREAD and XREADGROUP are modelled as an empty answer. Approximate trimming (`approximate=True`) is modelled as exact trimming to `maxlen`, which is what the retention lemmas state.
- Events are stored in the stream as the decoded event dict, so decoding what was encoded gives the event back by construction. The JSON encoder (`json.dumps`, msgspec) is a parameter of the SSE functions. The datetime `isoformat` and `uuid4().hex` values are also parameters, with a hex value constrained to 32 lower-case hexadecimal digits.
- The request schemas are msgspec Serializers (schemas.py:1-6). Validation errors keep only the name of the offending field, not msgspec's wording. The model assumes that msgspec's validation error is not a `ValueError`, so the JSON-RPC endpoint maps it to -32603 (api.py:153-170).
- Redis accepts an exclusive bound `(id` only in XRANGE and XREVRANGE; XREAD refuses it as an invalid stream id (`Streams.StrictRead`). The cursors the subscriber writes (events.py:144, 164) therefore make every later XREAD fail, and its error handler (events.py:169-172) swallows the failure and tries again forever (`Events.StrictStallsAfterFirstEntry`, listed under Findings). Everywhere else the model reads `(id` as the exclusive bound the code evidently intends (`Streams.Read`).
- `format_sse_event` in api.py:38-48 is a copy of the one in helpers.py:3-13. It is modelled once, as `Sse`.
- The JSON-RPC endpoint routes `tasks/send` and `message/send` to api.py's own `handle_tasks_send` (api.py:133-134), with its own callback, modelled as `Api.HandleTasksSend` and `Api.SendSpec` over `Api.StaleEffect`. The send of handlers.py (`Handlers.HandleTasksSend`) is modelled as the corrected behaviour of the finding below.
- The endpoint's resubscribe, get and cancel (api.py:252-295) are the same code as those of handlers.py (handlers.py:100-144), except that the cancel refusal reads `is in terminal state` instead of `is already in terminal state`. They are modelled once, in `Handlers`, with that message as a parameter (`Api.IN_TERMINAL`).
- Terminal states are not final in the code. A terminal event sets its state even on a task that is already completed, failed, canceled or rejected (`Handlers.TerminalEventOverrides`). The model follows the code and does not enforce a final state.
- `historyLength` 0 in get returns the whole history, because `history[-0:]` is the whole list. The model follows the code.
- `str()` of a list, a dict or a datetime inside an f-string is rendered as a fixed placeholder (`Json.Display`). Only None, booleans, integers and strings are rendered exactly.
- Logging calls are left out.

## Findings

| source | as written | input that shows it | evidently intended | confidence | as-written member | corrected member |
|---|---|---|---|---|---|---|
| a2a_app/api.py:211 | the send callback tests `event_type in TERMINAL_STATES`, comparing the prefixed type `task.completed` with the bare state names, so no terminal event ever sets the task's state | the final `task.completed` event of any send | set the terminal state and message, as `_process_task_event` does (handlers.py:46-48); the callback is reached only once the publisher construction at api.py:186-189 is fixed | not executed | Api.SendStaysSubmitted | Handlers.CreatedRunRow |
| a2a_app/events.py:144-164 | the subscriber resumes XREAD from `(<id>`, a syntax Redis accepts only in XRANGE, so the read fails and the retry loop swallows the error | any `Last-Event-ID`, or any stream once its first entry is handed out | read strictly after the last id, for instance by passing the plain id to XREAD | not executed | Events.StrictStallsAfterFirstEntry | Events.ResumeAfterEntry |
| a2a_app/api.py:183 | the endpoint's send creates the task with `TaskService.create(message, contextId)` and drops the optional `id` the parameters accept (schemas.py:91) | `tasks/send` with `"id": "my-custom-task"`, with a working publisher | store and answer the task under the requested id | not executed | Api.SendIgnoresRequestedId | Handlers.SendAsRequestedKeepsId |
| a2a_app/events.py:397 | the pending report reads `item["delivery_count"]`, but the client's `xpending_range` items file that count under `times_delivered`, so the lookup raises KeyError, which the `except RedisError` clause does not catch | `consume` one entry, do not acknowledge it, then `get_pending_events` | report the delivery count from `times_delivered` | not executed | ConsumerGroups.UnackedDeliveryRaises | ConsumerGroups.PendingEventReadsClientItem |
| a2a_app/models.py:109-112 | no code path ever sets `is_streaming` or `stream_url`; the conversation keeps the default `False` | `tasks/sendSubscribe` in an existing conversation | mark the conversation as streaming with the stream URL | not executed | Api.SubscribeLeavesConversation | Services.MarkStreamingShows |
