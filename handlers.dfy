/**
 * The task handlers behind the JSON-RPC methods. Every event the agent
 * emits for a task is tagged with the task id, published to the task's
 * stream, and then applied to the task row: a message is appended to the
 * history, an artifact to the artifacts, and a `task.<terminal state>`
 * event sets the status. The methods `tasks/send`, `tasks/sendSubscribe`,
 * `tasks/resubscribe`, `tasks/get` and `tasks/cancel` validate their
 * parameters and act on the database and the event store.
 *
 * What an event does to the row is a pure `Effect`; each handler that
 * only reads is specified by a pure function of the tables, and
 * `tasks/send` by `SendSpec`, a function of the whole state before it.
 */
module Handlers {
  import opened Wrappers
  import opened Errors
  import Text
  import Json
  import opened Models
  import Schemas
  import opened Streams
  import Events
  import Executors
  import Services

  /** The states a task does not leave. */
  const TERMINAL_STATES: set<string> := {"completed", "failed", "canceled", "rejected"}

  /** The prefix of the event types that name a task state. */
  const TASK_PREFIX: string := "task."

  /** The state `tasks/cancel` sets. */
  const CANCELED: string := "canceled"

  // ------------------------------------------------------ event effects

  /**
   * `_get_terminal_state`: the state an event type names when it is
   * `task.` followed by a terminal state, and None for every other type.
   */
  function TerminalState(eventType: string): (r: Option<string>)
    ensures r.Some? ==> r.value in TERMINAL_STATES && eventType == TASK_PREFIX + r.value
  {
    if !Text.StartsWith(eventType, TASK_PREFIX) then None
    else
      var state := Text.RemovePrefix(eventType, TASK_PREFIX);
      if state in TERMINAL_STATES then Some(state) else None
  }

  /** Exactly the types `task.<terminal state>` have a terminal state, and it is the one they name. */
  lemma TerminalStateIff(eventType: string, state: string)
    ensures TerminalState(eventType) == Some(state) <==> state in TERMINAL_STATES && eventType == TASK_PREFIX + state
  {
    if state in TERMINAL_STATES && eventType == TASK_PREFIX + state {
      assert eventType[..|TASK_PREFIX|] == TASK_PREFIX;
      assert eventType[|TASK_PREFIX|..] == state;
    }
  }

  /** A working event is not terminal, and neither is a bare state without the prefix. */
  lemma TerminalStateExamples()
    ensures TerminalState("task.completed") == Some("completed")
    ensures TerminalState("task.canceled") == Some("canceled")
    ensures TerminalState("task.working") == None
    ensures TerminalState("completed") == None
    ensures TerminalState("tool-call") == None
  {
    TerminalStateIff("task.completed", "completed");
    TerminalStateIff("task.canceled", "canceled");
    assert "task.working"[|TASK_PREFIX|..] == "working";
    assert "completed"[..|TASK_PREFIX|][0] != TASK_PREFIX[0];
    assert "tool-call"[..|TASK_PREFIX|][1] != TASK_PREFIX[1];
  }

  /** What processing one event does to its task's row. */
  datatype Effect =
    | Unchanged
    | AppendHistory(message: Json.Value)
    | AppendArtifact(artifact: Json.Value)
    | SetStatus(state: string, statusMessage: Json.Value)
    | Fails(error: Exception)

  /** `event.get("type", "")` */
  function EventType(event: Json.Dict): Json.Value {
    Json.GetOr(event, "type", Json.Str(""))
  }

  /**
   * The dispatch of `_process_task_event` after publishing; see
   * `EventEffectCases`.
   */
  function EventEffect(event: Json.Dict): (r: Effect)
    ensures r.Fails? <==> !EventType(event).Str?
    ensures r.SetStatus? ==> r.state in TERMINAL_STATES && EventType(event) == Json.Str(TASK_PREFIX + r.state)
  {
    var t := EventType(event);
    if t == Json.Str("task.message") then
      var message := Json.GetOr(event, "message", Json.Null);
      if Json.Truthy(message) then AppendHistory(message) else Unchanged
    else if t == Json.Str("task.artifact") then
      var artifact := Json.GetOr(event, "artifact", Json.Null);
      if Json.Truthy(artifact) then AppendArtifact(artifact) else Unchanged
    else if !t.Str? then Fails(AttributeError("object has no attribute 'startswith'"))
    else
      match TerminalState(t.s)
      case Some(state) => SetStatus(state, Json.GetOr(event, "message", Json.Null))
      case None => Unchanged
  }

  /**
   * A non-empty message or artifact is appended; a `task.<terminal state>`
   * type sets that state with the event's message (None when it has
   * none); a type that is not a string fails where it is asked for its
   * prefix; every other event changes nothing.
   */
  lemma EventEffectCases(event: Json.Dict)
    ensures var eff, t := EventEffect(event), EventType(event);
      && (eff.AppendHistory? <==> t == Json.Str("task.message") && Json.Truthy(Json.GetOr(event, "message", Json.Null)))
      && (eff.AppendHistory? ==> eff.message == event["message"])
      && (eff.AppendArtifact? <==> t == Json.Str("task.artifact") && Json.Truthy(Json.GetOr(event, "artifact", Json.Null)))
      && (eff.AppendArtifact? ==> eff.artifact == event["artifact"])
      && (eff.SetStatus? <==> t.Str? && TerminalState(t.s).Some?)
      && (eff.SetStatus? ==> && eff.state in TERMINAL_STATES && t == Json.Str(TASK_PREFIX + eff.state)
                             && eff.statusMessage == Json.GetOr(event, "message", Json.Null))
      && (eff.Fails? <==> !t.Str?)
      && (eff.Fails? ==> eff.error.AttributeError?)
  {
  }

  /**
   * An effect applied to a row: only the column it names changes, lists
   * grow by one item at the end (a NULL list counting as empty), and no
   * timestamp is touched.
   */
  function ApplyRow(r: TaskRecord, eff: Effect): (r': TaskRecord)
    ensures r'.taskId == r.taskId && r'.contextId == r.contextId && r'.metadata == r.metadata
    ensures r'.createdAt == r.createdAt && r'.updatedAt == r.updatedAt
    ensures eff.SetStatus? ==> r'.statusState == eff.state && r'.statusMessage == eff.statusMessage
    ensures !eff.SetStatus? ==> r'.statusState == r.statusState && r'.statusMessage == r.statusMessage
    ensures eff.AppendHistory? ==> r'.history == Some(OrEmpty(r.history) + [eff.message])
    ensures !eff.AppendHistory? ==> r'.history == r.history
    ensures eff.AppendArtifact? ==> r'.artifacts == Some(OrEmpty(r.artifacts) + [eff.artifact])
    ensures !eff.AppendArtifact? ==> r'.artifacts == r.artifacts
  {
    match eff
    case AppendHistory(m) => r.(history := Some(OrEmpty(r.history) + [m]))
    case AppendArtifact(a) => r.(artifacts := Some(OrEmpty(r.artifacts) + [a]))
    case SetStatus(state, m) => r.(statusState := state, statusMessage := m)
    case _ => r
  }

  /**
   * Processing does not keep terminal states final: a row in any state,
   * terminal ones included, takes the state of a later `task.<terminal>`
   * event.
   */
  lemma TerminalEventOverrides(r: TaskRecord, state: string, message: Json.Value)
    requires state in TERMINAL_STATES
    ensures var e := map["type" := Json.Str(TASK_PREFIX + state), "message" := message];
      ApplyRow(r, EventEffect(e)).statusState == state && ApplyRow(r, EventEffect(e)).statusMessage == message
  {
    TerminalStateIff(TASK_PREFIX + state, state);
  }

  /** An effect on the task table: the task's row changes as `ApplyRow` says; a missing task changes nothing. */
  function Applied(tasks: TaskTable, taskId: string, eff: Effect): (r: TaskTable)
    ensures r.Keys == tasks.Keys
    ensures forall k :: k in tasks && k != taskId ==> r[k] == tasks[k]
    ensures taskId in tasks ==> r[taskId] == ApplyRow(tasks[taskId], eff)
  {
    if taskId in tasks then tasks[taskId := ApplyRow(tasks[taskId], eff)] else tasks
  }

  /** The error processing raises after publishing, if any. */
  function FailureOf(eff: Effect): Option<Exception> {
    if eff.Fails? then Some(eff.error) else None
  }

  /** The effects of a sequence of events, in order. */
  function Effects(events: seq<Json.Dict>): (r: seq<Effect>)
    ensures |r| == |events| && forall i :: 0 <= i < |events| ==> r[i] == EventEffect(events[i])
  {
    if events == [] then [] else Effects(events[..|events| - 1]) + [EventEffect(events[|events| - 1])]
  }

  /** A row after a sequence of effects, applied in order. */
  function ApplyEffects(r: TaskRecord, effs: seq<Effect>): (r': TaskRecord)
    ensures r'.taskId == r.taskId && r'.contextId == r.contextId && r'.metadata == r.metadata
    ensures r'.createdAt == r.createdAt && r'.updatedAt == r.updatedAt
  {
    if effs == [] then r else ApplyRow(ApplyEffects(r, effs[..|effs| - 1]), effs[|effs| - 1])
  }

  /** `event["taskId"] = task_id` */
  function Tag(event: Json.Dict, taskId: string): Json.Dict {
    event["taskId" := Json.Str(taskId)]
  }

  function Tags(events: seq<Json.Dict>, taskId: string): (r: seq<Json.Dict>)
    ensures |r| == |events| && forall i :: 0 <= i < |events| ==> r[i] == Tag(events[i], taskId)
  {
    if events == [] then [] else Tags(events[..|events| - 1], taskId) + [Tag(events[|events| - 1], taskId)]
  }

  /** The streams after one publish to `key` at server time `now`. */
  function Publish1(streams: map<string, Stream>, key: string, data: Json.Dict, now: nat): map<string, Stream> {
    streams[key := Add(StreamAt(streams, key), data, now, Events.MAXLEN)]
  }

  /** The streams after publishing each event in turn to `key`. */
  function PublishAll(streams: map<string, Stream>, key: string, events: seq<Json.Dict>, now: nat): map<string, Stream> {
    if events == [] then streams
    else Publish1(PublishAll(streams, key, events[..|events| - 1], now), key, events[|events| - 1], now)
  }

  /** A tag changes no key the dispatch reads, so the effect of an event is the effect of its tagged form. */
  lemma TagKeepsEffect(event: Json.Dict, taskId: string)
    ensures EventEffect(Tag(event, taskId)) == EventEffect(event)
  {
  }

  // ------------------------------------------------- processing events

  /**
   * `_process_task_event`: tags the event with the task id and publishes
   * it once, whatever its type; a store error is raised before the row is
   * touched. Then the event's effect is applied to the task's row; a type
   * that is not a string raises after publishing.
   */
  method ProcessTaskEvent(db: Services.Database, publisher: Events.EventPublisher, taskId: string, event: Json.Dict)
    returns (raised: Option<Exception>)
    requires db.Valid() && publisher.store.Valid()
    modifies db, publisher.store
    ensures db.Valid() && publisher.store.Valid()
    ensures publisher.store.clock == old(publisher.store.clock) && publisher.store.down == old(publisher.store.down)
    ensures db.taskOrder == old(db.taskOrder) && db.conversations == old(db.conversations)
    ensures db.convOrder == old(db.convOrder) && db.clock == old(db.clock)
    ensures old(publisher.store.down) ==>
              raised == Some(Unreachable()) && db.tasks == old(db.tasks) && publisher.store.streams == old(publisher.store.streams)
    ensures !old(publisher.store.down) ==>
              && publisher.store.streams == Publish1(old(publisher.store.streams), Events.StreamKey(publisher.prefix, taskId),
                                                     Tag(event, taskId), publisher.store.clock)
              && db.tasks == Applied(old(db.tasks), taskId, EventEffect(event))
              && raised == FailureOf(EventEffect(event))
  {
    raised := PublishAndApply(db, publisher, taskId, event, EventEffect(event));
  }

  /**
   * Publishing an event and then making the service call of an effect:
   * the shape of every event callback; with the store down the publish
   * raises and the effect is not applied.
   */
  method PublishAndApply(db: Services.Database, publisher: Events.EventPublisher, taskId: string, event: Json.Dict, eff: Effect)
    returns (raised: Option<Exception>)
    requires db.Valid() && publisher.store.Valid()
    modifies db, publisher.store
    ensures db.Valid() && publisher.store.Valid()
    ensures publisher.store.clock == old(publisher.store.clock) && publisher.store.down == old(publisher.store.down)
    ensures db.taskOrder == old(db.taskOrder) && db.conversations == old(db.conversations)
    ensures db.convOrder == old(db.convOrder) && db.clock == old(db.clock)
    ensures old(publisher.store.down) ==>
              raised == Some(Unreachable()) && db.tasks == old(db.tasks) && publisher.store.streams == old(publisher.store.streams)
    ensures !old(publisher.store.down) ==>
              && publisher.store.streams == Publish1(old(publisher.store.streams), Events.StreamKey(publisher.prefix, taskId),
                                                     Tag(event, taskId), publisher.store.clock)
              && db.tasks == Applied(old(db.tasks), taskId, eff)
              && raised == FailureOf(eff)
  {
    var published := PublishTagged(publisher, taskId, event);
    if published.Err? {
      return Some(published.error);
    }
    ApplyEffect(db, taskId, eff);
    raised := FailureOf(eff);
  }

  /** The `publisher.publish(task_id, {**event, "taskId": task_id})` call of `_process_task_event`. */
  method PublishTagged(publisher: Events.EventPublisher, taskId: string, event: Json.Dict)
    returns (r: Result<string, Exception>)
    requires publisher.store.Valid()
    modifies publisher.store
    ensures publisher.store.Valid()
    ensures publisher.store.clock == old(publisher.store.clock) && publisher.store.down == old(publisher.store.down)
    ensures old(publisher.store.down) ==> r == Err(Unreachable()) && publisher.store.streams == old(publisher.store.streams)
    ensures !old(publisher.store.down) ==>
              && r.Ok?
              && publisher.store.streams == Publish1(old(publisher.store.streams), Events.StreamKey(publisher.prefix, taskId),
                                                     Tag(event, taskId), publisher.store.clock)
  {
    r := publisher.Publish(taskId, Tag(event, taskId));
  }

  /** The service call an effect makes: `append_message`, `add_artifact`, `update_status`, or none. */
  method ApplyEffect(db: Services.Database, taskId: string, eff: Effect)
    requires db.Valid()
    modifies db
    ensures db.Valid() && db.tasks == Applied(old(db.tasks), taskId, eff)
    ensures db.taskOrder == old(db.taskOrder) && db.conversations == old(db.conversations)
    ensures db.convOrder == old(db.convOrder) && db.clock == old(db.clock)
  {
    match eff
    case AppendHistory(message) =>
      var _ := db.AppendMessage(taskId, message);
    case AppendArtifact(artifact) =>
      var _ := db.AddArtifact(taskId, artifact);
    case SetStatus(state, message) =>
      var _ := db.UpdateStatus(taskId, state, message);
    case Fails(_) =>
    case Unchanged =>
  }

  lemma EffectsSnoc(events: seq<Json.Dict>, e: Json.Dict)
    ensures Effects(events + [e]) == Effects(events) + [EventEffect(e)]
  {
    assert (events + [e])[..|events|] == events;
  }

  lemma TagsSnoc(events: seq<Json.Dict>, e: Json.Dict, taskId: string)
    ensures Tags(events + [e], taskId) == Tags(events, taskId) + [Tag(e, taskId)]
  {
    assert (events + [e])[..|events|] == events;
  }

  lemma PublishAllSnoc(streams: map<string, Stream>, key: string, events: seq<Json.Dict>, e: Json.Dict, now: nat)
    ensures PublishAll(streams, key, events + [e], now) == Publish1(PublishAll(streams, key, events, now), key, e, now)
  {
    assert (events + [e])[..|events|] == events;
  }

  lemma ApplyEffectsSnoc(r: TaskRecord, effs: seq<Effect>, eff: Effect)
    ensures ApplyEffects(r, effs + [eff]) == ApplyRow(ApplyEffects(r, effs), eff)
  {
    assert (effs + [eff])[..|effs|] == effs;
  }

  /** One more event processed: the row and the stream each take one more step. */
  lemma ProcessStep(tasks0: TaskTable, row0: TaskRecord, taskId: string, streams0: map<string, Stream>, key: string,
                    events: seq<Json.Dict>, i: nat, now: nat)
    requires i < |events|
    ensures Applied(tasks0[taskId := ApplyEffects(row0, Effects(events[..i]))], taskId, EventEffect(events[i]))
         == tasks0[taskId := ApplyEffects(row0, Effects(events[..i + 1]))]
    ensures Publish1(PublishAll(streams0, key, Tags(events[..i], taskId), now), key, Tag(events[i], taskId), now)
         == PublishAll(streams0, key, Tags(events[..i + 1], taskId), now)
  {
    ProcessStepRow(tasks0, row0, taskId, events, i);
    ProcessStepStream(taskId, streams0, key, events, i, now);
  }

  lemma ProcessStepRow(tasks0: TaskTable, row0: TaskRecord, taskId: string, events: seq<Json.Dict>, i: nat)
    requires i < |events|
    ensures Applied(tasks0[taskId := ApplyEffects(row0, Effects(events[..i]))], taskId, EventEffect(events[i]))
         == tasks0[taskId := ApplyEffects(row0, Effects(events[..i + 1]))]
  {
    var effs, eff := Effects(events[..i]), EventEffect(events[i]);
    assert events[..i + 1] == events[..i] + [events[i]];
    EffectsSnoc(events[..i], events[i]);
    ApplyEffectsSnoc(row0, effs, eff);
    AppliedUpdate(tasks0, taskId, ApplyEffects(row0, effs), eff);
  }

  lemma AppliedUpdate(tasks: TaskTable, taskId: string, row: TaskRecord, eff: Effect)
    ensures Applied(tasks[taskId := row], taskId, eff) == tasks[taskId := ApplyRow(row, eff)]
  {
  }

  lemma ProcessStepStream(taskId: string, streams0: map<string, Stream>, key: string, events: seq<Json.Dict>, i: nat, now: nat)
    requires i < |events|
    ensures Publish1(PublishAll(streams0, key, Tags(events[..i], taskId), now), key, Tag(events[i], taskId), now)
         == PublishAll(streams0, key, Tags(events[..i + 1], taskId), now)
  {
    assert events[..i + 1] == events[..i] + [events[i]];
    TagsSnoc(events[..i], events[i], taskId);
    PublishAllSnoc(streams0, key, Tags(events[..i], taskId), Tag(events[i], taskId), now);
  }

  /** No event of the sequence fails in the dispatch. */
  predicate NoFailures(events: seq<Json.Dict>) {
    forall i :: 0 <= i < |events| ==> !EventEffect(events[i]).Fails?
  }

  /**
   * The callback applied to each event of a run in turn, as the agent
   * emits them: with the store reachable every event is published and
   * applied; otherwise the first publish raises and nothing changes.
   */
  method ProcessAll(db: Services.Database, publisher: Events.EventPublisher, taskId: string, events: seq<Json.Dict>)
    returns (raised: Option<Exception>)
    requires db.Valid() && publisher.store.Valid() && taskId in db.tasks && NoFailures(events)
    modifies db, publisher.store
    ensures db.Valid() && publisher.store.Valid()
    ensures publisher.store.clock == old(publisher.store.clock) && publisher.store.down == old(publisher.store.down)
    ensures db.taskOrder == old(db.taskOrder) && db.conversations == old(db.conversations)
    ensures db.convOrder == old(db.convOrder) && db.clock == old(db.clock)
    ensures old(publisher.store.down) && events != [] ==>
              raised == Some(Unreachable()) && db.tasks == old(db.tasks) && publisher.store.streams == old(publisher.store.streams)
    ensures !old(publisher.store.down) || events == [] ==>
              && raised == None
              && db.tasks == old(db.tasks)[taskId := ApplyEffects(old(db.tasks)[taskId], Effects(events))]
              && publisher.store.streams == PublishAll(old(publisher.store.streams), Events.StreamKey(publisher.prefix, taskId),
                                                       Tags(events, taskId), publisher.store.clock)
  {
    ghost var tasks0 := db.tasks;
    ghost var row0 := db.tasks[taskId];
    ghost var streams0 := publisher.store.streams;
    assert events[..0] == [];
    assert tasks0[taskId := row0] == tasks0;
    if publisher.store.down && events != [] {
      raised := ProcessNext(db, publisher, taskId, events, 0, tasks0, row0, streams0);
      return;
    }
    raised := None;
    if events != [] {
      ProcessReachable(db, publisher, taskId, events);
    }
  }

  /** The loop of `ProcessAll` while the store is reachable: no publish raises, so every event is applied in turn. */
  method ProcessReachable(db: Services.Database, publisher: Events.EventPublisher, taskId: string, events: seq<Json.Dict>)
    requires db.Valid() && publisher.store.Valid() && taskId in db.tasks && NoFailures(events)
    requires !publisher.store.down
    modifies db, publisher.store
    ensures db.Valid() && publisher.store.Valid()
    ensures publisher.store.clock == old(publisher.store.clock) && publisher.store.down == old(publisher.store.down)
    ensures db.taskOrder == old(db.taskOrder) && db.conversations == old(db.conversations)
    ensures db.convOrder == old(db.convOrder) && db.clock == old(db.clock)
    ensures db.tasks == old(db.tasks)[taskId := ApplyEffects(old(db.tasks)[taskId], Effects(events))]
    ensures publisher.store.streams == PublishAll(old(publisher.store.streams), Events.StreamKey(publisher.prefix, taskId),
                                                  Tags(events, taskId), publisher.store.clock)
  {
    ghost var tasks0 := db.tasks;
    ghost var row0 := db.tasks[taskId];
    ghost var streams0 := publisher.store.streams;
    ghost var key := Events.StreamKey(publisher.prefix, taskId);
    assert events[..0] == [];
    assert tasks0[taskId := row0] == tasks0;
    for i := 0 to |events|
      invariant db.Valid() && publisher.store.Valid()
      invariant publisher.store.clock == old(publisher.store.clock) && !publisher.store.down
      invariant db.taskOrder == old(db.taskOrder) && db.conversations == old(db.conversations)
      invariant db.convOrder == old(db.convOrder) && db.clock == old(db.clock)
      invariant db.tasks == tasks0[taskId := ApplyEffects(row0, Effects(events[..i]))]
      invariant publisher.store.streams == PublishAll(streams0, key, Tags(events[..i], taskId), publisher.store.clock)
    {
      var _ := ProcessNext(db, publisher, taskId, events, i, tasks0, row0, streams0);
    }
    assert events[..|events|] == events;
  }

  /** The `i`-th pass of the loop of `ProcessAll`. */
  method ProcessNext(db: Services.Database, publisher: Events.EventPublisher, taskId: string, events: seq<Json.Dict>,
                     i: nat, ghost tasks0: TaskTable, ghost row0: TaskRecord, ghost streams0: map<string, Stream>)
    returns (raised: Option<Exception>)
    requires i < |events| && NoFailures(events)
    requires db.Valid() && publisher.store.Valid()
    requires db.tasks == tasks0[taskId := ApplyEffects(row0, Effects(events[..i]))]
    requires publisher.store.streams
          == PublishAll(streams0, Events.StreamKey(publisher.prefix, taskId), Tags(events[..i], taskId), publisher.store.clock)
    modifies db, publisher.store
    ensures db.Valid() && publisher.store.Valid()
    ensures publisher.store.clock == old(publisher.store.clock) && publisher.store.down == old(publisher.store.down)
    ensures db.taskOrder == old(db.taskOrder) && db.conversations == old(db.conversations)
    ensures db.convOrder == old(db.convOrder) && db.clock == old(db.clock)
    ensures old(publisher.store.down) ==>
              raised == Some(Unreachable()) && db.tasks == old(db.tasks) && publisher.store.streams == old(publisher.store.streams)
    ensures !old(publisher.store.down) ==>
              && raised == None
              && db.tasks == tasks0[taskId := ApplyEffects(row0, Effects(events[..i + 1]))]
              && publisher.store.streams == PublishAll(streams0, Events.StreamKey(publisher.prefix, taskId),
                                                       Tags(events[..i + 1], taskId), publisher.store.clock)
  {
    ProcessStep(tasks0, row0, taskId, streams0, Events.StreamKey(publisher.prefix, taskId), events, i, publisher.store.clock);
    raised := ProcessTaskEvent(db, publisher, taskId, events[i]);
  }

  // ------------------------------------------------- the run of tasks/send

  /** What the event of each step of a run does to the row, whatever task id it carries. */
  function StepEffect(s: Executors.Step, user: Json.Value, n: int): Effect {
    match s
    case ChunkStep(i) => AppendHistory(Executors.AgentMessage(Executors.ChunkText(user, i, n)))
    case ArtifactStep => AppendArtifact(Executors.Artifact())
    case CompletedStep => SetStatus("completed", Executors.AgentMessage(Executors.COMPLETION_TEXT))
    case _ => Unchanged
  }

  function StepEffects(steps: seq<Executors.Step>, user: Json.Value, n: int): (r: seq<Effect>)
    ensures |r| == |steps| && forall i :: 0 <= i < |steps| ==> r[i] == StepEffect(steps[i], user, n)
  {
    if steps == [] then [] else StepEffects(steps[..|steps| - 1], user, n) + [StepEffect(steps[|steps| - 1], user, n)]
  }

  /**
   * The dispatch of `_process_task_event` on the event a step emits: the
   * working event and the two tool events change nothing, a chunk appends
   * its agent message, the artifact is appended, and the completion event
   * sets the state `completed` with its message.
   */
  lemma EffectOfStep(s: Executors.Step, taskId: Json.Value, user: Json.Value, n: int)
    ensures EventEffect(Executors.EventOf(s, taskId, user, n)) == StepEffect(s, user, n)
  {
    match s
    case ChunkStep(i) => ChunkStepAppends(i, taskId, user, n);
    case ArtifactStep => ArtifactStepAppends(taskId, user, n);
    case CompletedStep => CompletedStepSets(taskId, user, n);
    case _ => QuietStepUnchanged(s, taskId, user, n);
  }

  lemma QuietStepUnchanged(s: Executors.Step, taskId: Json.Value, user: Json.Value, n: int)
    requires s.WorkingStep? || s.ToolCallStep? || s.ToolResultStep?
    ensures EventEffect(Executors.EventOf(s, taskId, user, n)) == Unchanged
  {
    var e := Executors.EventOf(s, taskId, user, n);
    Executors.TaskEventFields(Executors.StepType(s), taskId, Executors.Payload(s, taskId, user, n));
    if s.WorkingStep? {
      assert "task.working"[|TASK_PREFIX|..] == "working";
    } else if s.ToolCallStep? {
      assert "tool-call"[..|TASK_PREFIX|][1] != TASK_PREFIX[1];
    } else {
      assert "tool-call-result"[..|TASK_PREFIX|][1] != TASK_PREFIX[1];
    }
    UnchangedByType(e, Executors.StepType(s));
  }

  lemma ChunkStepAppends(i: nat, taskId: Json.Value, user: Json.Value, n: int)
    ensures EventEffect(Executors.EventOf(Executors.ChunkStep(i), taskId, user, n))
         == AppendHistory(Executors.AgentMessage(Executors.ChunkText(user, i, n)))
  {
    var e := Executors.EventOf(Executors.ChunkStep(i), taskId, user, n);
    assert EventType(e) == Json.Str("task.message");
    assert "role" in Executors.AgentMessage(Executors.ChunkText(user, i, n)).fields;
  }

  lemma ArtifactStepAppends(taskId: Json.Value, user: Json.Value, n: int)
    ensures EventEffect(Executors.EventOf(Executors.ArtifactStep, taskId, user, n)) == AppendArtifact(Executors.Artifact())
  {
    var e := Executors.EventOf(Executors.ArtifactStep, taskId, user, n);
    assert EventType(e) == Json.Str("task.artifact");
    assert "name" in Executors.Artifact().fields;
  }

  lemma CompletedStepSets(taskId: Json.Value, user: Json.Value, n: int)
    ensures EventEffect(Executors.EventOf(Executors.CompletedStep, taskId, user, n))
         == SetStatus("completed", Executors.AgentMessage(Executors.COMPLETION_TEXT))
  {
    var e := Executors.EventOf(Executors.CompletedStep, taskId, user, n);
    assert EventType(e) == Json.Str("task.completed");
    TerminalStateIff("task.completed", "completed");
  }

  /** A string type that is neither a message, an artifact nor terminal changes nothing. */
  lemma UnchangedByType(e: Json.Dict, t: string)
    requires EventType(e) == Json.Str(t) && t != "task.message" && t != "task.artifact" && TerminalState(t).None?
    ensures EventEffect(e) == Unchanged
  {
    EventEffectCases(e);
  }

  lemma {:induction false} EffectsOfSteps(steps: seq<Executors.Step>, taskId: Json.Value, user: Json.Value, n: int)
    ensures Effects(Executors.EventsOf(steps, taskId, user, n)) == StepEffects(steps, user, n)
  {
    if steps != [] {
      var init, last := steps[..|steps| - 1], steps[|steps| - 1];
      EffectsOfSteps(init, taskId, user, n);
      EffectsSnoc(Executors.EventsOf(init, taskId, user, n), Executors.EventOf(last, taskId, user, n));
      EffectOfStep(last, taskId, user, n);
    }
  }

  lemma {:induction false} StepEffectsAppend(a: seq<Executors.Step>, b: seq<Executors.Step>, user: Json.Value, n: int)
    ensures StepEffects(a + b, user, n) == StepEffects(a, user, n) + StepEffects(b, user, n)
  {
  }

  lemma {:induction false} ApplyEffectsAppend(r: TaskRecord, a: seq<Effect>, b: seq<Effect>)
    ensures ApplyEffects(r, a + b) == ApplyEffects(ApplyEffects(r, a), b)
    decreases |b|
  {
    if b == [] {
      assert a + b == a;
    } else {
      var init := b[..|b| - 1];
      assert (a + b)[..|a + b| - 1] == a + init;
      ApplyEffectsAppend(r, a, init);
    }
  }

  /** No event of a run fails in the dispatch. */
  lemma AgentEventsNeverFail(taskId: Json.Value, user: Json.Value, n: int, tools: bool, artifacts: bool)
    ensures NoFailures(Executors.AgentEvents(taskId, user, n, tools, artifacts))
  {
    StepEventsNeverFail(Executors.Steps(n, tools, artifacts), taskId, user, n);
  }

  /** No event a step emits fails in the dispatch. */
  lemma StepEventsNeverFail(steps: seq<Executors.Step>, taskId: Json.Value, user: Json.Value, n: int)
    ensures NoFailures(Executors.EventsOf(steps, taskId, user, n))
  {
    var events := Executors.EventsOf(steps, taskId, user, n);
    forall i | 0 <= i < |events| ensures !EventEffect(events[i]).Fails? {
      Executors.EventsOfIndex(steps, taskId, user, n, i);
      EffectOfStep(steps[i], taskId, user, n);
    }
  }

  /** The agent messages of the first `k` chunks, in order. */
  function ChunkMessages(user: Json.Value, k: nat, n: int): (r: seq<Json.Value>)
    ensures |r| == k && forall i :: 0 <= i < k ==> r[i] == Executors.AgentMessage(Executors.ChunkText(user, i, n))
  {
    if k == 0 then [] else ChunkMessages(user, k - 1, n) + [Executors.AgentMessage(Executors.ChunkText(user, k - 1, n))]
  }

  lemma {:induction false} ChunksApplied(r: TaskRecord, user: Json.Value, k: nat, n: int)
    requires r.history.Some?
    ensures ApplyEffects(r, StepEffects(Executors.ChunkSteps(k), user, n))
         == r.(history := Some(r.history.value + ChunkMessages(user, k, n)))
  {
    if k == 0 {
      assert r.history.value + [] == r.history.value;
    } else {
      var steps := Executors.ChunkSteps(k);
      assert steps[..k - 1] == Executors.ChunkSteps(k - 1);
      ChunksApplied(r, user, k - 1, n);
      ApplyEffectsSnoc(r, StepEffects(steps[..k - 1], user, n), StepEffect(steps[k - 1], user, n));
      Executors.AppendAssoc(r.history.value, ChunkMessages(user, k - 1, n),
                            [Executors.AgentMessage(Executors.ChunkText(user, k - 1, n))]);
    }
  }

  /**
   * The row after a whole run: completed with the completion message, the
   * chunk messages after the history it had, and the artifact, if any,
   * after its artifacts.
   */
  function RunRow(r: TaskRecord, user: Json.Value, n: int, artifacts: bool): TaskRecord
    requires r.history.Some? && r.artifacts.Some?
  {
    r.(statusState := "completed", statusMessage := Executors.AgentMessage(Executors.COMPLETION_TEXT),
       history := Some(r.history.value + ChunkMessages(user, Executors.RangeSize(n), n)),
       artifacts := Some(r.artifacts.value + if artifacts then [Executors.Artifact()] else []))
  }

  /** Processing every event of a run, in order, leaves the row as `RunRow` says. */
  lemma RunApplied(r: TaskRecord, taskId: Json.Value, user: Json.Value, n: int, tools: bool, artifacts: bool)
    requires r.history.Some? && r.artifacts.Some?
    ensures ApplyEffects(r, Effects(Executors.AgentEvents(taskId, user, n, tools, artifacts))) == RunRow(r, user, n, artifacts)
  {
    EffectsOfSteps(Executors.Steps(n, tools, artifacts), taskId, user, n);
    RunStepsApplied(r, user, n, tools, artifacts);
  }

  /** The effects of a run's steps, applied in order, leave the row as `RunRow` says. */
  lemma RunStepsApplied(r: TaskRecord, user: Json.Value, n: int, tools: bool, artifacts: bool)
    requires r.history.Some? && r.artifacts.Some?
    ensures ApplyEffects(r, StepEffects(Executors.Steps(n, tools, artifacts), user, n)) == RunRow(r, user, n, artifacts)
  {
    var w, t, c := [Executors.WorkingStep], Executors.ToolSteps(tools), Executors.ChunkSteps(Executors.RangeSize(n));
    var a, d := Executors.ArtifactSteps(artifacts), [Executors.CompletedStep];
    var r3 := r.(history := Some(r.history.value + ChunkMessages(user, Executors.RangeSize(n), n)));
    var r4 := r3.(artifacts := Some(r.artifacts.value + if artifacts then [Executors.Artifact()] else []));
    RunPrefixApplied(r, user, n, tools);
    assert ApplyEffects(r, StepEffects(w + t + c + a, user, n)) == r4 by {
      ApplySteps(r, w + t + c, a, user, n);
      ArtifactsApplied(r3, user, n, artifacts);
    }
    assert ApplyEffects(r, StepEffects(w + t + c + a + d, user, n)) == RunRow(r, user, n, artifacts) by {
      ApplySteps(r, w + t + c + a, d, user, n);
      CompletedApplied(r4, user, n);
    }
  }

  /** The working step, the tool steps and the chunks append the chunk messages and nothing else. */
  lemma RunPrefixApplied(r: TaskRecord, user: Json.Value, n: int, tools: bool)
    requires r.history.Some?
    ensures var w, t, c := [Executors.WorkingStep], Executors.ToolSteps(tools), Executors.ChunkSteps(Executors.RangeSize(n));
      ApplyEffects(r, StepEffects(w + t + c, user, n))
      == r.(history := Some(r.history.value + ChunkMessages(user, Executors.RangeSize(n), n)))
  {
    var w, t, c := [Executors.WorkingStep], Executors.ToolSteps(tools), Executors.ChunkSteps(Executors.RangeSize(n));
    assert ApplyEffects(r, StepEffects(w + t, user, n)) == r by {
      ApplySteps(r, w, t, user, n);
      QuietApplied(r, w, user, n);
      QuietApplied(r, t, user, n);
    }
    ApplySteps(r, w + t, c, user, n);
    ChunksApplied(r, user, Executors.RangeSize(n), n);
  }

  lemma ApplySteps(r: TaskRecord, a: seq<Executors.Step>, b: seq<Executors.Step>, user: Json.Value, n: int)
    ensures ApplyEffects(r, StepEffects(a + b, user, n))
         == ApplyEffects(ApplyEffects(r, StepEffects(a, user, n)), StepEffects(b, user, n))
  {
    StepEffectsAppend(a, b, user, n);
    ApplyEffectsAppend(r, StepEffects(a, user, n), StepEffects(b, user, n));
  }

  /** The working step and the tool steps leave the row as it was. */
  lemma QuietApplied(r: TaskRecord, steps: seq<Executors.Step>, user: Json.Value, n: int)
    requires steps == [Executors.WorkingStep] || steps == Executors.ToolSteps(true) || steps == []
    ensures ApplyEffects(r, StepEffects(steps, user, n)) == r
  {
    UnchangedApplied(r, StepEffects(steps, user, n));
  }

  lemma {:induction false} UnchangedApplied(r: TaskRecord, effs: seq<Effect>)
    requires forall i :: 0 <= i < |effs| ==> effs[i] == Unchanged
    ensures ApplyEffects(r, effs) == r
  {
    if effs != [] {
      UnchangedApplied(r, effs[..|effs| - 1]);
    }
  }

  lemma ArtifactsApplied(r: TaskRecord, user: Json.Value, n: int, artifacts: bool)
    requires r.artifacts.Some?
    ensures ApplyEffects(r, StepEffects(Executors.ArtifactSteps(artifacts), user, n))
         == r.(artifacts := Some(r.artifacts.value + if artifacts then [Executors.Artifact()] else []))
  {
    if artifacts {
      assert StepEffects([Executors.ArtifactStep], user, n) == [] + [AppendArtifact(Executors.Artifact())];
    } else {
      assert r.artifacts.value + [] == r.artifacts.value;
    }
  }

  lemma CompletedApplied(r: TaskRecord, user: Json.Value, n: int)
    ensures ApplyEffects(r, StepEffects([Executors.CompletedStep], user, n))
         == r.(statusState := "completed", statusMessage := Executors.AgentMessage(Executors.COMPLETION_TEXT))
  {
    assert StepEffects([Executors.CompletedStep], user, n)
        == [] + [SetStatus("completed", Executors.AgentMessage(Executors.COMPLETION_TEXT))];
  }

  // -------------------------------------------------------- tasks/send

  /** The text `_extract_text` finds in a message's parts: the first text part's, or "Hello". */
  function UserText(parts: seq<Schemas.TextPart>): (t: string)
    ensures (forall i :: 0 <= i < |parts| ==> parts[i].partType != "text") ==> t == Executors.DEFAULT_TEXT
  {
    if parts == [] then Executors.DEFAULT_TEXT
    else if parts[0].partType == "text" then parts[0].text
    else UserText(parts[1..])
  }

  /** Reading the dumped parts back finds the first text part, and never fails: every dump is a dict. */
  lemma {:induction false} FirstTextOfDumps(parts: seq<Schemas.TextPart>)
    ensures Executors.FirstText(Schemas.PartDumps(parts)) == Ok(Json.Str(UserText(parts)))
  {
    if parts != [] {
      var ds := Schemas.PartDumps(parts);
      assert ds[0] == Schemas.PartDump(parts[0]);
      if parts[0].partType != "text" {
        assert ds[1..] == Schemas.PartDumps(parts[1..]);
        FirstTextOfDumps(parts[1..]);
      }
    }
  }

  /**
   * The message dict `handle_tasks_send` hands to the agent has no task
   * id, so the agent tags its events "unknown", and its user text is the
   * first text part's.
   */
  lemma MessageDataText(m: Schemas.Message, hex: string)
    requires Services.UuidHex(hex)
    ensures Executors.ExtractText(Services.MessageData(m, hex).fields) == Ok(Json.Str(UserText(m.parts)))
    ensures Executors.TaskIdOf(Services.MessageData(m, hex).fields) == Json.Str(Executors.UNKNOWN_TASK)
  {
    FirstTextOfDumps(m.parts);
  }

  /** The events the agent emits for a message sent with `tasks/send`. */
  function SendEvents(m: Schemas.Message): seq<Json.Dict> {
    Executors.AgentEvents(Json.Str(Executors.UNKNOWN_TASK), Json.Str(UserText(m.parts)),
                          Executors.DEFAULT_CHUNKS, Executors.DEFAULT_TOOLS, Executors.DEFAULT_ARTIFACTS)
  }

  /**
   * The result of `tasks/send`: the re-read task's id, context, state and
   * history; the created task, still submitted, if it cannot be re-read.
   */
  function SendResponse(reread: Option<Schemas.Task>, created: Schemas.Task): (d: Json.Dict)
    ensures d.Keys == {"id", "contextId", "status", "history"}
  {
    match reread
    case Some(t) =>
      map["id" := Json.Str(t.id), "contextId" := Schemas.OptStr(t.contextId),
          "status" := Json.Obj(map["state" := Json.Str(t.status.state)]), "history" := Json.Arr(t.history)]
    case None =>
      map["id" := Json.Str(created.id), "contextId" := Schemas.OptStr(created.contextId),
          "status" := Json.Obj(map["state" := Json.Str(SUBMITTED)]), "history" := Json.Arr([])]
  }

  /** What a handler that writes leaves behind: its result, the task table and the streams. */
  datatype Outcome = Outcome(result: Result<Json.Dict, Exception>, tasks: TaskTable, taskOrder: seq<string>,
                             clock: nat, streams: map<string, Stream>)

  /**
   * `handle_tasks_send` as a function of the state before it, the store's
   * clock `now` and the three uuids it draws: invalid parameters and a
   * taken task id change nothing; otherwise the task is created and the
   * agent is run on it, as `RunSpec` says.
   */
  function SendSpec(tasks: TaskTable, taskOrder: seq<string>, clock: nat, streams: map<string, Stream>, down: bool,
                    now: nat, params: Json.Dict, taskHex: string, msgHex: string): (o: Outcome)
    requires Services.UuidHex(taskHex) && Services.UuidHex(msgHex)
    ensures var id := Services.ShortId("task-", taskHex);
      o.tasks == tasks || (id !in tasks && id in o.tasks && o.tasks == tasks[id := o.tasks[id]])
    ensures var id := Services.ShortId("task-", taskHex);
      o.result.Ok? ==> && !down && id !in tasks && id in o.tasks
                       && o.taskOrder == taskOrder + [id] && o.clock == clock + 1
  {
    match Schemas.ParseTaskSendParams(params)
    case Err(e) => Outcome(Err(e), tasks, taskOrder, clock, streams)
    case Ok(p) =>
      var row := Services.NewTask(p.message, p.contextId, taskHex, msgHex);
      match InsertTask(tasks, row, clock)
      case Err(e) => Outcome(Err(e), tasks, taskOrder, clock, streams)
      case Ok(created) =>
        var o := RunSpec(created, taskOrder + [row.taskId], clock + 1, streams, down, now, row.taskId, p.message);
        UpdateTwice(tasks, row.taskId, Models.Stamped(row, clock), o.tasks[row.taskId]);
        o
  }

  /**
   * The agent's run on a created task: when the first publish fails
   * (`down`) the error is raised and the task is left as created;
   * otherwise every event of the run is published and applied in turn,
   * and the answer shows the task as it then is.
   */
  function RunSpec(tasks: TaskTable, taskOrder: seq<string>, clock: nat, streams: map<string, Stream>, down: bool,
                   now: nat, id: string, m: Schemas.Message): (o: Outcome)
    requires id in tasks
    ensures o.result.Ok? <==> !down
    ensures id in o.tasks && o.tasks == tasks[id := o.tasks[id]] && o.taskOrder == taskOrder && o.clock == clock
    ensures o.tasks[id].taskId == tasks[id].taskId && o.tasks[id].contextId == tasks[id].contextId
    ensures down ==> o.tasks == tasks && o.streams == streams
  {
    if down then Outcome(Err(Unreachable()), tasks, taskOrder, clock, streams)
    else
      var events := SendEvents(m);
      var final := tasks[id := ApplyEffects(tasks[id], Effects(events))];
      Outcome(Ok(SendResponse(Some(Schemas.TaskFromOrm(final[id])), Schemas.TaskFromOrm(tasks[id]))),
              final, taskOrder, clock, PublishAll(streams, Events.StreamKey(Events.STREAM_PREFIX, id), Tags(events, id), now))
  }

  /**
   * `handle_tasks_send`: validates the parameters, creates the task, runs
   * the agent on the stored form of the message with `_process_task_event`
   * as its callback, and answers with the task as it then is.
   */
  method HandleTasksSend(db: Services.Database, store: RedisStore, params: Json.Dict,
                         taskHex: string, msgHex: string, dataHex: string)
    returns (r: Result<Json.Dict, Exception>)
    requires db.Valid() && store.Valid()
    requires Services.UuidHex(taskHex) && Services.UuidHex(msgHex) && Services.UuidHex(dataHex)
    modifies db, store
    ensures db.Valid() && store.Valid() && store.clock == old(store.clock) && store.down == old(store.down)
    ensures db.conversations == old(db.conversations) && db.convOrder == old(db.convOrder)
    ensures var o := SendSpec(old(db.tasks), old(db.taskOrder), old(db.clock), old(store.streams), old(store.down),
                              old(store.clock), params, taskHex, msgHex);
      && r == o.result && db.tasks == o.tasks && db.taskOrder == o.taskOrder && db.clock == o.clock
      && store.streams == o.streams
  {
    var parsed := Schemas.ParseTaskSendParams(params);
    if parsed.Err? {
      return Err(parsed.error);
    }
    var p := parsed.value;
    var created := db.CreateTask(p.message, p.contextId, taskHex, msgHex);
    if created.Err? {
      return Err(created.error);
    }
    r := RunAgent(db, store, created.value, p.message, dataHex);
  }

  /** The part of `handle_tasks_send` after the task is created. */
  method RunAgent(db: Services.Database, store: RedisStore, created: Schemas.Task, m: Schemas.Message, dataHex: string)
    returns (r: Result<Json.Dict, Exception>)
    requires db.Valid() && store.Valid() && Services.UuidHex(dataHex)
    requires created.id in db.tasks && created == Schemas.TaskFromOrm(db.tasks[created.id])
    modifies db, store
    ensures db.Valid() && store.Valid() && store.clock == old(store.clock) && store.down == old(store.down)
    ensures db.conversations == old(db.conversations) && db.convOrder == old(db.convOrder)
    ensures var o := RunSpec(old(db.tasks), old(db.taskOrder), old(db.clock), old(store.streams), old(store.down),
                             old(store.clock), created.id, m);
      && r == o.result && db.tasks == o.tasks && db.taskOrder == o.taskOrder && db.clock == o.clock
      && store.streams == o.streams
  {
    var taskId := created.id;
    var publisher := new Events.EventPublisher(store);
    var messageData := Services.MessageData(m, dataHex);
    MessageDataText(m, dataHex);
    var user := Executors.ExtractText(messageData.fields).value;
    var events := Executors.AgentEvents(Executors.TaskIdOf(messageData.fields), user, Executors.DEFAULT_CHUNKS,
                                        Executors.DEFAULT_TOOLS, Executors.DEFAULT_ARTIFACTS);
    AgentEventsNeverFail(Json.Str(Executors.UNKNOWN_TASK), user, Executors.DEFAULT_CHUNKS,
                         Executors.DEFAULT_TOOLS, Executors.DEFAULT_ARTIFACTS);
    Executors.RunBoundaries(Json.Str(Executors.UNKNOWN_TASK), user, Executors.DEFAULT_CHUNKS,
                            Executors.DEFAULT_TOOLS, Executors.DEFAULT_ARTIFACTS);
    var raised := ProcessAll(db, publisher, taskId, events);
    if raised.Some? {
      return Err(raised.value);
    }
    var reread := db.GetTask(taskId);
    return Ok(SendResponse(reread, created));
  }

  /** The newest `|ds|` entries of `es` carry `ds`, in order. */
  predicate EndsWith(es: seq<Entry>, ds: seq<Json.Dict>) {
    |es| >= |ds| && forall i :: 0 <= i < |ds| ==> es[|es| - |ds| + i].data == ds[i]
  }

  /** One more add extends the newest entries by its data, while they fit in `MAXLEN`. */
  lemma AddEndsWith(s: Stream, data: Json.Dict, now: nat, ds: seq<Json.Dict>)
    requires EndsWith(s.entries, ds) && |ds| < Events.MAXLEN
    ensures EndsWith(Add(s, data, now, Events.MAXLEN).entries, ds + [data])
  {
    var x := s.entries + [Entry(NextId(s.lastId, now), data)];
    var es := Add(s, data, now, Events.MAXLEN).entries;
    EndsWithAppend(s.entries, Entry(NextId(s.lastId, now), data), ds);
    assert es == x[|x| - |es|..];
    EndsWithSuffix(x, |x| - |es|, ds + [data]);
  }

  /** Appending an entry extends the data the newest entries carry. */
  lemma EndsWithAppend(es: seq<Entry>, e: Entry, ds: seq<Json.Dict>)
    requires EndsWith(es, ds)
    ensures EndsWith(es + [e], ds + [e.data])
  {
    var x := es + [e];
    forall i | 0 <= i < |ds| + 1
      ensures x[|x| - (|ds| + 1) + i].data == (ds + [e.data])[i]
    {
      if i < |ds| {
        assert x[|x| - (|ds| + 1) + i] == es[|es| - |ds| + i];
      }
    }
  }

  /** Dropping old entries keeps the newest ones. */
  lemma EndsWithSuffix(es: seq<Entry>, k: nat, ds: seq<Json.Dict>)
    requires EndsWith(es, ds) && k <= |es| && |es| - k >= |ds|
    ensures EndsWith(es[k..], ds)
  {
    var t := es[k..];
    forall i | 0 <= i < |ds| ensures t[|t| - |ds| + i].data == ds[i] {
      assert t[|t| - |ds| + i] == es[|es| - |ds| + i];
    }
  }

  /**
   * Publishing a sequence of events to one stream leaves them, in order,
   * as the newest entries of that stream, as long as they fit in `MAXLEN`.
   */
  lemma {:induction false} PublishAllEntries(streams: map<string, Stream>, key: string, events: seq<Json.Dict>, now: nat)
    requires |events| <= Events.MAXLEN
    ensures EndsWith(StreamAt(PublishAll(streams, key, events, now), key).entries, events)
  {
    if events != [] {
      var init, last := events[..|events| - 1], events[|events| - 1];
      PublishAllEntries(streams, key, init, now);
      AddEndsWith(StreamAt(PublishAll(streams, key, init, now), key), last, now, init);
      assert init + [last] == events;
    }
  }

  /** Publishing to one stream leaves every other stream as it was. */
  lemma {:induction false} PublishAllOthers(streams: map<string, Stream>, key: string, events: seq<Json.Dict>, now: nat, other: string)
    requires other != key
    ensures StreamAt(PublishAll(streams, key, events, now), other) == StreamAt(streams, other)
  {
    if events != [] {
      PublishAllOthers(streams, key, events[..|events| - 1], now, other);
    }
  }

  /**
   * A run with the store reachable leaves the task's row as `RunRow`
   * says, answers with that row, and ends the task's stream with the
   * run's events tagged with the task id.
   */
  lemma RunCompletes(tasks: TaskTable, taskOrder: seq<string>, clock: nat, streams: map<string, Stream>, now: nat,
                     id: string, m: Schemas.Message)
    requires id in tasks && tasks[id].history.Some? && tasks[id].artifacts.Some?
    ensures var o := RunSpec(tasks, taskOrder, clock, streams, false, now, id, m);
      var row := RunRow(tasks[id], Json.Str(UserText(m.parts)), Executors.DEFAULT_CHUNKS, Executors.DEFAULT_ARTIFACTS);
      && o.tasks == tasks[id := row] && o.taskOrder == taskOrder && o.clock == clock
      && o.result == Ok(SendResponse(Some(Schemas.TaskFromOrm(row)), Schemas.TaskFromOrm(tasks[id])))
      && EndsWith(StreamAt(o.streams, Events.StreamKey(Events.STREAM_PREFIX, id)).entries, Tags(SendEvents(m), id))
  {
    SendRow(tasks[id], m);
    PublishAllEntries(streams, Events.StreamKey(Events.STREAM_PREFIX, id), Tags(SendEvents(m), id), now);
  }

  /** The events of one send leave a row as `RunRow` says, with the default run's settings. */
  lemma SendRow(r: TaskRecord, m: Schemas.Message)
    requires r.history.Some? && r.artifacts.Some?
    ensures ApplyEffects(r, Effects(SendEvents(m)))
            == RunRow(r, Json.Str(UserText(m.parts)), Executors.DEFAULT_CHUNKS, Executors.DEFAULT_ARTIFACTS)
  {
    RunApplied(r, Json.Str(Executors.UNKNOWN_TASK), Json.Str(UserText(m.parts)), Executors.DEFAULT_CHUNKS,
               Executors.DEFAULT_TOOLS, Executors.DEFAULT_ARTIFACTS);
  }

  /** The answer for a completed run: state `completed`, history the stored one plus the chunk messages. */
  lemma CompletedResponse(r: TaskRecord, created: Schemas.Task, user: Json.Value)
    requires r.history.Some? && r.artifacts.Some?
    ensures var d := SendResponse(Some(Schemas.TaskFromOrm(RunRow(r, user, Executors.DEFAULT_CHUNKS, true))), created);
      && d["id"] == Json.Str(r.taskId)
      && d["status"] == Json.Obj(map["state" := Json.Str("completed")])
      && d["history"] == Json.Arr(r.history.value + ChunkMessages(user, 5, Executors.DEFAULT_CHUNKS))
  {
  }

  /**
   * The answer of a run on a freshly created row with the store
   * reachable: the task `completed`, its history the stored one followed
   * by the five chunk messages.
   */
  lemma CreatedRunAnswer(tasks: TaskTable, taskOrder: seq<string>, clock: nat, streams: map<string, Stream>, now: nat,
                         id: string, m: Schemas.Message, r0: TaskRecord)
    requires r0.taskId == id && r0.history.Some? && r0.artifacts.Some?
    ensures var o := RunSpec(tasks[id := r0], taskOrder, clock, streams, false, now, id, m);
      && o.result.Ok? && o.result.value["id"] == Json.Str(id)
      && o.result.value["status"] == Json.Obj(map["state" := Json.Str("completed")])
      && o.result.value["history"]
         == Json.Arr(r0.history.value + ChunkMessages(Json.Str(UserText(m.parts)), 5, Executors.DEFAULT_CHUNKS))
  {
    RunCompletes(tasks[id := r0], taskOrder, clock, streams, now, id, m);
    CompletedResponse(r0, Schemas.TaskFromOrm(r0), Json.Str(UserText(m.parts)));
  }

  /**
   * What a run on a freshly created row, with no artifacts yet and the
   * store reachable, leaves behind: the row completed with the completion
   * message, the stored history followed by the five chunk messages and
   * the one artifact; every other row as it was. (The task's stream is
   * as `RunCompletes` says.)
   */
  lemma CreatedRunRow(tasks: TaskTable, taskOrder: seq<string>, clock: nat, streams: map<string, Stream>, now: nat,
                      id: string, m: Schemas.Message, r0: TaskRecord)
    requires r0.history.Some? && r0.artifacts == Some([])
    ensures var o := RunSpec(tasks[id := r0], taskOrder, clock, streams, false, now, id, m);
      && o.tasks == tasks[id := r0.(statusState := "completed",
                                    statusMessage := Executors.AgentMessage(Executors.COMPLETION_TEXT),
                                    history := Some(r0.history.value + ChunkMessages(Json.Str(UserText(m.parts)), 5, Executors.DEFAULT_CHUNKS)),
                                    artifacts := Some([Executors.Artifact()]))]
      && o.taskOrder == taskOrder && o.clock == clock
  {
    var user := Json.Str(UserText(m.parts));
    RunCompletes(tasks[id := r0], taskOrder, clock, streams, now, id, m);
    CreatedRow(r0, user);
    UpdateTwice(tasks, id, r0, RunRow(r0, user, Executors.DEFAULT_CHUNKS, Executors.DEFAULT_ARTIFACTS));
  }

  /**
   * A map identity kept as a generic lemma: stated inline in the large
   * contexts that use it, the solver runs out of resource.
   */
  lemma UpdateTwice<K, V>(m: map<K, V>, k: K, a: V, b: V)
    ensures m[k := a][k := b] == m[k := b]
  {
  }

  /** `RunRow` on a row without artifacts, written out for the default run. */
  lemma CreatedRow(r0: TaskRecord, user: Json.Value)
    requires r0.history.Some? && r0.artifacts == Some([])
    ensures RunRow(r0, user, Executors.DEFAULT_CHUNKS, Executors.DEFAULT_ARTIFACTS)
            == r0.(statusState := "completed", statusMessage := Executors.AgentMessage(Executors.COMPLETION_TEXT),
                   history := Some(r0.history.value + ChunkMessages(user, 5, Executors.DEFAULT_CHUNKS)),
                   artifacts := Some([Executors.Artifact()]))
  {
    assert [] + [Executors.Artifact()] == [Executors.Artifact()];
  }

  /**
   * A send with valid parameters and a fresh task id, with the store
   * reachable, is the run of `CreatedRunAnswer` and `CreatedRunRow` on the row
   * `NewTask` builds, one tick of the database clock after the others.
   */
  lemma SendCompletes(tasks: TaskTable, taskOrder: seq<string>, clock: nat, streams: map<string, Stream>, now: nat,
                      params: Json.Dict, taskHex: string, msgHex: string, p: Schemas.TaskSendParams)
    requires Services.UuidHex(taskHex) && Services.UuidHex(msgHex)
    requires Schemas.ParseTaskSendParams(params) == Ok(p) && Services.ShortId("task-", taskHex) !in tasks
    ensures var id := Services.ShortId("task-", taskHex);
      var row := Stamped(Services.NewTask(p.message, p.contextId, taskHex, msgHex), clock);
      && row.history == Some([Services.MessageData(p.message, msgHex)]) && row.artifacts == Some([])
      && SendSpec(tasks, taskOrder, clock, streams, false, now, params, taskHex, msgHex)
         == RunSpec(tasks[id := row], taskOrder + [id], clock + 1, streams, false, now, id, p.message)
  {
  }

  /**
   * A send that fails at its first publish raises the store's error and
   * leaves the created task behind, still submitted, with only the user's
   * message; nothing is published.
   */
  lemma SendDown(tasks: TaskTable, taskOrder: seq<string>, clock: nat, streams: map<string, Stream>, now: nat,
                 params: Json.Dict, taskHex: string, msgHex: string)
    requires Services.UuidHex(taskHex) && Services.UuidHex(msgHex)
    requires Schemas.ParseTaskSendParams(params).Ok? && Services.ShortId("task-", taskHex) !in tasks
    ensures var m, id := Schemas.ParseTaskSendParams(params).value.message, Services.ShortId("task-", taskHex);
      var o := SendSpec(tasks, taskOrder, clock, streams, true, now, params, taskHex, msgHex);
      && o.result == Err(Unreachable()) && o.streams == streams
      && id in o.tasks && o.tasks[id].statusState == SUBMITTED
      && o.tasks[id].history == Some([Services.MessageData(m, msgHex)])
  {
  }

  /** Invalid parameters and a taken task id are raised, and nothing changes. */
  lemma SendRejects(tasks: TaskTable, taskOrder: seq<string>, clock: nat, streams: map<string, Stream>, down: bool,
                    now: nat, params: Json.Dict, taskHex: string, msgHex: string)
    requires Services.UuidHex(taskHex) && Services.UuidHex(msgHex)
    requires Schemas.ParseTaskSendParams(params).Err? || Services.ShortId("task-", taskHex) in tasks
    ensures var o := SendSpec(tasks, taskOrder, clock, streams, down, now, params, taskHex, msgHex);
      && o.result.Err? && (o.result.error.ValidationError? || o.result.error.IntegrityError?)
      && o.tasks == tasks && o.taskOrder == taskOrder && o.clock == clock && o.streams == streams
  {
  }

  /**
   * The task id a send is meant to take: the one the client asks for in
   * `params["id"]`, or a drawn `task-<8 hex digits>` when it asks for none
   * (or for "").
   */
  function RequestedTaskId(p: Schemas.TaskSendParams, taskHex: string): (id: string)
    requires Services.UuidHex(taskHex)
    ensures p.id.Some? && p.id.value != "" ==> id == p.id.value
    ensures p.id.None? || p.id.value == "" ==> id == Services.ShortId("task-", taskHex)
  {
    Services.OrString(p.id, Services.ShortId("task-", taskHex))
  }

  /** The row a send is meant to create: `NewTask`'s, under the requested id. */
  function RequestedRow(p: Schemas.TaskSendParams, taskHex: string, msgHex: string): (r: TaskRecord)
    requires Services.UuidHex(taskHex) && Services.UuidHex(msgHex)
    ensures r.taskId == RequestedTaskId(p, taskHex) && r.contextId == Some(Services.OrString(p.contextId, r.taskId))
    ensures r.statusState == SUBMITTED && r.history == Some([Services.MessageData(p.message, msgHex)]) && r.artifacts == Some([])
  {
    var id := RequestedTaskId(p, taskHex);
    Services.NewTask(p.message, p.contextId, taskHex, msgHex).(taskId := id, contextId := Some(Services.OrString(p.contextId, id)))
  }

  /** `SendSpec` with the task created under the requested id. */
  function SendAsRequestedSpec(tasks: TaskTable, taskOrder: seq<string>, clock: nat, streams: map<string, Stream>, down: bool,
                               now: nat, params: Json.Dict, taskHex: string, msgHex: string): Outcome
    requires Services.UuidHex(taskHex) && Services.UuidHex(msgHex)
  {
    match Schemas.ParseTaskSendParams(params)
    case Err(e) => Outcome(Err(e), tasks, taskOrder, clock, streams)
    case Ok(p) =>
      var row := RequestedRow(p, taskHex, msgHex);
      match InsertTask(tasks, row, clock)
      case Err(e) => Outcome(Err(e), tasks, taskOrder, clock, streams)
      case Ok(created) =>
        RunSpec(created, taskOrder + [row.taskId], clock + 1, streams, down, now, row.taskId, p.message)
  }

  /**
   * A send that uses the requested id answers with it: a client that asks
   * for `my-custom-task`, still free, gets `my-custom-task` back, and the
   * task is stored under it; one that asks for none gets a drawn id.
   */
  lemma SendAsRequestedKeepsId(tasks: TaskTable, taskOrder: seq<string>, clock: nat, streams: map<string, Stream>, now: nat,
                               params: Json.Dict, taskHex: string, msgHex: string, p: Schemas.TaskSendParams)
    requires Services.UuidHex(taskHex) && Services.UuidHex(msgHex)
    requires Schemas.ParseTaskSendParams(params) == Ok(p) && RequestedTaskId(p, taskHex) !in tasks
    ensures var o := SendAsRequestedSpec(tasks, taskOrder, clock, streams, false, now, params, taskHex, msgHex);
      && o.result.Ok? && o.result.value["id"] == Json.Str(RequestedTaskId(p, taskHex))
      && RequestedTaskId(p, taskHex) in o.tasks
      && (p.id.Some? && p.id.value != "" ==> o.result.value["id"] == Json.Str(p.id.value))
  {
    var row := RequestedRow(p, taskHex, msgHex);
    var created := tasks[row.taskId := Stamped(row, clock)];
    assert SendAsRequestedSpec(tasks, taskOrder, clock, streams, false, now, params, taskHex, msgHex)
        == RunSpec(created, taskOrder + [row.taskId], clock + 1, streams, false, now, row.taskId, p.message);
    RunAnswerKeys(created, taskOrder + [row.taskId], clock + 1, streams, false, now, row.taskId, p.message);
  }

  // --------------------------------------------------- reading handlers

  /** The error a handler raises for an unknown task id. */
  function NotFound(id: string): Exception {
    LookupError("Task " + id + " not found")
  }

  /** The path a client streams a task's events from. */
  function StreamUrl(id: string): string {
    "/agent/rpc/" + id + "/stream/"
  }

  /** Different tasks have different stream paths, so the path names its task. */
  lemma StreamUrlInjective(a: string, b: string)
    ensures StreamUrl(a) == StreamUrl(b) ==> a == b
  {
    if StreamUrl(a) == StreamUrl(b) {
      var p := "/agent/rpc/";
      assert StreamUrl(a) == (p + a) + "/stream/" && StreamUrl(b) == (p + b) + "/stream/";
      assert p + a == StreamUrl(a)[..|StreamUrl(a)| - 8];
      assert p + b == StreamUrl(b)[..|StreamUrl(b)| - 8];
      assert a == (p + a)[|p|..] && b == (p + b)[|p|..];
    }
  }

  /** `tasks/sendSubscribe`'s answer around a send's answer: the task and its stream's path. */
  function Subscribed(res: Json.Dict): (d: Json.Dict)
    requires "id" in res
    ensures d.Keys == {"task", "streamUrl"} && d["task"] == Json.Obj(res)
    ensures res["id"].Str? ==> d["streamUrl"] == Json.Str(StreamUrl(res["id"].s))
  {
    map["task" := Json.Obj(res), "streamUrl" := Json.Str(StreamUrl(Json.Display(res["id"])))]
  }

  /** Every answer of a send names the task, its context, its state and its history. */
  lemma SendAnswerKeys(tasks: TaskTable, taskOrder: seq<string>, clock: nat, streams: map<string, Stream>, down: bool,
                       now: nat, params: Json.Dict, taskHex: string, msgHex: string)
    requires Services.UuidHex(taskHex) && Services.UuidHex(msgHex)
    ensures var o := SendSpec(tasks, taskOrder, clock, streams, down, now, params, taskHex, msgHex);
      o.result.Ok? ==> o.result.value.Keys == {"id", "contextId", "status", "history"} && o.result.value["id"].Str?
  {
    match Schemas.ParseTaskSendParams(params)
    case Err(_) =>
    case Ok(p) =>
      var row := Services.NewTask(p.message, p.contextId, taskHex, msgHex);
      match InsertTask(tasks, row, clock)
      case Err(_) =>
      case Ok(created) =>
        RunAnswerKeys(created, taskOrder + [row.taskId], clock + 1, streams, down, now, row.taskId, p.message);
  }

  /**
   * The answer of a run that does not raise is the task's id, context,
   * state and history; the id it answers is the id of the row it ran on,
   * and with the store reachable it does not raise.
   */
  lemma RunAnswerKeys(tasks: TaskTable, taskOrder: seq<string>, clock: nat, streams: map<string, Stream>, down: bool,
                      now: nat, id: string, m: Schemas.Message)
    requires id in tasks
    ensures var o := RunSpec(tasks, taskOrder, clock, streams, down, now, id, m);
      && (o.result.Ok? ==> o.result.value.Keys == {"id", "contextId", "status", "history"} && o.result.value["id"].Str?)
      && (o.result.Ok? && tasks[id].taskId == id ==> o.result.value["id"] == Json.Str(id))
      && (!down ==> o.result.Ok?)
  {
    if !down {
      var final := tasks[id := ApplyEffects(tasks[id], Effects(SendEvents(m)))];
      var d := SendResponse(Some(Schemas.TaskFromOrm(final[id])), Schemas.TaskFromOrm(tasks[id]));
      assert d["id"] == Json.Str(final[id].taskId);
    }
  }

  /**
   * `handle_tasks_send_subscribe`: sends, then answers with the send's
   * answer and the path of the task's stream; a send that raises raises.
   */
  method HandleTasksSendSubscribe(db: Services.Database, store: RedisStore, params: Json.Dict,
                                  taskHex: string, msgHex: string, dataHex: string)
    returns (r: Result<Json.Dict, Exception>)
    requires db.Valid() && store.Valid()
    requires Services.UuidHex(taskHex) && Services.UuidHex(msgHex) && Services.UuidHex(dataHex)
    modifies db, store
    ensures db.Valid() && store.Valid() && store.clock == old(store.clock) && store.down == old(store.down)
    ensures db.conversations == old(db.conversations) && db.convOrder == old(db.convOrder)
    ensures var o := SendSpec(old(db.tasks), old(db.taskOrder), old(db.clock), old(store.streams), old(store.down),
                              old(store.clock), params, taskHex, msgHex);
      && (o.result.Err? ==> r == o.result)
      && (o.result.Ok? ==> "id" in o.result.value && r == Ok(Subscribed(o.result.value)))
      && db.tasks == o.tasks && db.taskOrder == o.taskOrder && db.clock == o.clock && store.streams == o.streams
  {
    ghost var o := SendSpec(db.tasks, db.taskOrder, db.clock, store.streams, store.down, store.clock, params, taskHex, msgHex);
    SendAnswerKeys(db.tasks, db.taskOrder, db.clock, store.streams, store.down, store.clock, params, taskHex, msgHex);
    var res := HandleTasksSend(db, store, params, taskHex, msgHex, dataHex);
    if res.Err? {
      return Err(res.error);
    }
    r := Ok(Subscribed(res.value));
  }

  /**
   * `handle_tasks_resubscribe`: the stored task and the path of its
   * stream; invalid parameters and an unknown id are raised.
   */
  function ResubscribeSpec(tasks: TaskTable, params: Json.Dict, iso: nat -> string): (r: Result<Json.Dict, Exception>)
    ensures r.Ok? ==> "id" in params && params["id"].Str? && params["id"].s in tasks
    ensures r.Err? ==> r.error.ValidationError? || ("id" in params && params["id"].Str? && r.error == NotFound(params["id"].s))
    ensures r.Ok? ==> r.value.Keys == {"task", "streamUrl"}
  {
    match Schemas.ParseTaskIdParams(params)
    case Err(e) => Err(e)
    case Ok(p) =>
      if p.id !in tasks then Err(NotFound(p.id))
      else Ok(map["task" := Json.Obj(Schemas.TaskDump(Schemas.TaskFromOrm(tasks[p.id]), iso)),
                  "streamUrl" := Json.Str(StreamUrl(p.id))])
  }

  method HandleTasksResubscribe(db: Services.Database, params: Json.Dict, iso: nat -> string)
    returns (r: Result<Json.Dict, Exception>)
    ensures r == ResubscribeSpec(db.tasks, params, iso)
  {
    var validated := Schemas.ParseTaskIdParams(params);
    if validated.Err? {
      return Err(validated.error);
    }
    var task := db.GetTask(validated.value.id);
    if task.None? {
      return Err(NotFound(validated.value.id));
    }
    r := Ok(map["task" := Json.Obj(Schemas.TaskDump(task.value, iso)),
                "streamUrl" := Json.Str(StreamUrl(validated.value.id))]);
  }

  /**
   * A resubscription succeeds exactly for a string id of a stored task,
   * and then holds that task's dump and its stream's path; a string id
   * of no task is reported as not found.
   */
  lemma ResubscribeCases(tasks: TaskTable, params: Json.Dict, iso: nat -> string)
    ensures var r := ResubscribeSpec(tasks, params, iso);
      && (r.Ok? <==> "id" in params && params["id"].Str? && params["id"].s in tasks)
      && (r.Ok? ==> var id := params["id"].s;
           && r.value["task"] == Json.Obj(Schemas.TaskDump(Schemas.TaskFromOrm(tasks[id]), iso))
           && r.value["streamUrl"] == Json.Str(StreamUrl(id)))
      && ("id" in params && params["id"].Str? && params["id"].s !in tasks ==> r == Err(NotFound(params["id"].s)))
      && (!("id" in params && params["id"].Str?) ==> r.Err? && r.error.ValidationError?)
  {
  }

  /**
   * `handle_tasks_get`: the stored task's dump, with the history cut to
   * Python's `history[-historyLength:]` when a length is given; invalid
   * parameters and an unknown id are raised.
   */
  function GetSpec(tasks: TaskTable, params: Json.Dict, iso: nat -> string): (r: Result<Json.Dict, Exception>)
    ensures r.Ok? ==> "id" in params && params["id"].Str? && params["id"].s in tasks
    ensures r.Err? ==> r.error.ValidationError? || ("id" in params && params["id"].Str? && r.error == NotFound(params["id"].s))
  {
    match Schemas.ParseTaskGetParams(params)
    case Err(e) => Err(e)
    case Ok(p) =>
      if p.id !in tasks then Err(NotFound(p.id))
      else
        var t := Schemas.TaskFromOrm(tasks[p.id]);
        var d := Schemas.TaskDump(t, iso);
        match p.historyLength
        case None => Ok(d)
        case Some(n) => Ok(d["history" := Json.Arr(Text.PyFrom(t.history, -n))])
  }

  method HandleTasksGet(db: Services.Database, params: Json.Dict, iso: nat -> string)
    returns (r: Result<Json.Dict, Exception>)
    ensures r == GetSpec(db.tasks, params, iso)
  {
    var validated := Schemas.ParseTaskGetParams(params);
    if validated.Err? {
      return Err(validated.error);
    }
    var task := db.GetTask(validated.value.id);
    if task.None? {
      return Err(NotFound(validated.value.id));
    }
    var result := Schemas.TaskDump(task.value, iso);
    if validated.value.historyLength.Some? {
      result := result["history" := Json.Arr(Text.PyFrom(result["history"].items, -validated.value.historyLength.value))];
    }
    return Ok(result);
  }

  /**
   * What `tasks/get` answers for a stored task asked with a valid
   * length `n`: the task's dump, except that the history keeps its last
   * `n` messages when `0 < n`, all of them when `n` is 0 or at least the
   * history's length, and drops the first `-n` when `n < 0`.
   */
  lemma GetHistory(tasks: TaskTable, params: Json.Dict, iso: nat -> string, id: string, n: int)
    requires Schemas.ParseTaskGetParams(params) == Ok(Schemas.TaskGetParams(id, Some(n))) && id in tasks
    ensures var r, d := GetSpec(tasks, params, iso), Schemas.TaskDump(Schemas.TaskFromOrm(tasks[id]), iso);
      var h := OrEmpty(tasks[id].history);
      && r.Ok? && r.value.Keys == d.Keys && (forall k :: k in d && k != "history" ==> r.value[k] == d[k])
      && (n == 0 || n >= |h| ==> r.value["history"] == Json.Arr(h))
      && (0 < n <= |h| ==> r.value["history"] == Json.Arr(h[|h| - n..]))
      && (n < 0 ==> r.value["history"] == Json.Arr(h[if -n < |h| then -n else |h|..]))
  {
    GetAnswer(tasks, params, iso, id, n);
    HistoryCut(Schemas.TaskDump(Schemas.TaskFromOrm(tasks[id]), iso), OrEmpty(tasks[id].history), n);
  }

  /** A dump whose history is cut as `history[-n:]` keeps every other key and value. */
  lemma HistoryCut(d: Json.Dict, h: seq<Json.Value>, n: int)
    requires "history" in d
    ensures var r := d["history" := Json.Arr(Text.PyFrom(h, -n))];
      && r.Keys == d.Keys && (forall k :: k in d && k != "history" ==> r[k] == d[k])
      && (n == 0 || n >= |h| ==> r["history"] == Json.Arr(h))
      && (0 < n <= |h| ==> r["history"] == Json.Arr(h[|h| - n..]))
      && (n < 0 ==> r["history"] == Json.Arr(h[if -n < |h| then -n else |h|..]))
  {
    Text.PyTailCases(h, n);
  }

  /** With a length, the answer is the task's dump with its history replaced by the cut one. */
  lemma GetAnswer(tasks: TaskTable, params: Json.Dict, iso: nat -> string, id: string, n: int)
    requires Schemas.ParseTaskGetParams(params) == Ok(Schemas.TaskGetParams(id, Some(n))) && id in tasks
    ensures var t := Schemas.TaskFromOrm(tasks[id]);
      && t.history == OrEmpty(tasks[id].history)
      && GetSpec(tasks, params, iso) == Ok(Schemas.TaskDump(t, iso)["history" := Json.Arr(Text.PyFrom(t.history, -n))])
  {
  }

  /** Without a length, `tasks/get` is the task `tasks/resubscribe` shows. */
  lemma GetIsResubscribedTask(tasks: TaskTable, params: Json.Dict, iso: nat -> string)
    requires "id" in params && params["id"].Str? && "historyLength" !in params
    ensures GetSpec(tasks, params, iso).Ok? <==> ResubscribeSpec(tasks, params, iso).Ok?
    ensures GetSpec(tasks, params, iso).Ok? ==> ResubscribeSpec(tasks, params, iso).value["task"] == Json.Obj(GetSpec(tasks, params, iso).value)
    ensures GetSpec(tasks, params, iso).Err? ==> GetSpec(tasks, params, iso) == ResubscribeSpec(tasks, params, iso)
  {
  }

  // ------------------------------------------------------------ cancel

  /** What `tasks/cancel` leaves behind: its result and the task table. */
  datatype CancelOutcome = CancelOutcome(result: Result<Json.Dict, Exception>, tasks: TaskTable)

  /** How `handle_tasks_cancel` words its refusal of a terminal task. */
  const ALREADY_TERMINAL: string := " is already in terminal state: "

  /**
   * `handle_tasks_cancel`: a stored task that is not in a terminal state
   * is set `canceled` with no status message, and the answer is its dump;
   * a terminal task is refused with a ValueError naming its state
   * (worded by `refusal`); invalid parameters and an unknown id are raised.
   */
  function CancelSpec(tasks: TaskTable, params: Json.Dict, iso: nat -> string, refusal: string): (o: CancelOutcome)
    ensures o.tasks.Keys == tasks.Keys
    ensures o.result.Err? ==> o.tasks == tasks
    ensures o.result.Err? ==> o.result.error.ValidationError? || o.result.error.LookupError? || o.result.error.ValueError?
    ensures o.result.Ok? ==> exists k :: k in tasks && o.tasks == tasks[k := tasks[k].(statusState := CANCELED, statusMessage := Json.Null)]
  {
    match Schemas.ParseTaskIdParams(params)
    case Err(e) => CancelOutcome(Err(e), tasks)
    case Ok(p) =>
      if p.id !in tasks then CancelOutcome(Err(NotFound(p.id)), tasks)
      else
        var state := Schemas.TaskFromOrm(tasks[p.id]).status.state;
        if state in TERMINAL_STATES then CancelOutcome(Err(ValueError("Task " + p.id + refusal + state)), tasks)
        else
          var after := tasks[p.id := tasks[p.id].(statusState := CANCELED, statusMessage := Json.Null)];
          CancelOutcome(Ok(Schemas.TaskDump(Schemas.TaskFromOrm(after[p.id]), iso)), after)
  }

  method HandleTasksCancel(db: Services.Database, params: Json.Dict, iso: nat -> string, refusal: string)
    returns (r: Result<Json.Dict, Exception>)
    requires db.Valid()
    modifies db
    ensures db.Valid()
    ensures r == CancelSpec(old(db.tasks), params, iso, refusal).result
    ensures db.tasks == CancelSpec(old(db.tasks), params, iso, refusal).tasks
    ensures db.taskOrder == old(db.taskOrder) && db.clock == old(db.clock)
    ensures db.conversations == old(db.conversations) && db.convOrder == old(db.convOrder)
  {
    var validated := Schemas.ParseTaskIdParams(params);
    if validated.Err? {
      return Err(validated.error);
    }
    var id := validated.value.id;
    var task := db.GetTask(id);
    if task.None? {
      return Err(NotFound(id));
    }
    if task.value.status.state in TERMINAL_STATES {
      return Err(ValueError("Task " + id + refusal + task.value.status.state));
    }
    var updated := db.UpdateStatus(id, CANCELED, Json.Null);
    var resultTask := db.GetTask(id);
    r := Ok(Schemas.TaskDump(resultTask.value, iso));
  }

  /**
   * Cancelling a stored task: a terminal one is refused and nothing
   * changes; any other is answered with its dump in state `canceled`,
   * and only its state and status message change.
   */
  lemma CancelCases(tasks: TaskTable, params: Json.Dict, iso: nat -> string, refusal: string, id: string)
    requires Schemas.ParseTaskIdParams(params) == Ok(Schemas.TaskIdParams(id)) && id in tasks
    ensures var c, state := CancelSpec(tasks, params, iso, refusal), tasks[id].statusState;
      && (state in TERMINAL_STATES ==> c.result == Err(ValueError("Task " + id + refusal + state)) && c.tasks == tasks)
      && (state !in TERMINAL_STATES ==>
            && c.result.Ok? && c.result.value["id"] == Json.Str(tasks[id].taskId)
            && c.result.value["status"] == Schemas.StatusDump(Schemas.TaskStatus(CANCELED, None))
            && c.tasks.Keys == tasks.Keys && (forall k :: k in tasks && k != id ==> c.tasks[k] == tasks[k])
            && c.tasks[id] == tasks[id].(statusState := CANCELED, statusMessage := Json.Null))
  {
    if tasks[id].statusState !in TERMINAL_STATES {
      var after := tasks[id := tasks[id].(statusState := CANCELED, statusMessage := Json.Null)];
      var d := Schemas.TaskDump(Schemas.TaskFromOrm(after[id]), iso);
      assert d["id"] == Json.Str(tasks[id].taskId) && d["status"] == Schemas.StatusDump(Schemas.TaskStatus(CANCELED, None));
    }
  }

  /** A cancel that succeeded cannot be repeated: the second is refused, naming `canceled`, and changes nothing. */
  lemma CancelIsFinal(tasks: TaskTable, params: Json.Dict, iso: nat -> string, refusal: string)
    requires CancelSpec(tasks, params, iso, refusal).result.Ok?
    ensures var once := CancelSpec(tasks, params, iso, refusal);
      var twice := CancelSpec(once.tasks, params, iso, refusal);
      && twice.result == Err(ValueError("Task " + params["id"].s + refusal + CANCELED))
      && twice.tasks == once.tasks
  {
    var id := Schemas.ParseTaskIdParams(params).value.id;
    var once := CancelSpec(tasks, params, iso, refusal);
    assert once.tasks[id].statusState == CANCELED;
  }

  /** A cancel never changes the row of a terminal task, nor any row but the one it names. */
  lemma CancelKeepsTerminal(tasks: TaskTable, params: Json.Dict, iso: nat -> string, refusal: string, k: string)
    requires k in tasks && (tasks[k].statusState in TERMINAL_STATES || !("id" in params && params["id"] == Json.Str(k)))
    ensures var c := CancelSpec(tasks, params, iso, refusal);
      k in c.tasks && c.tasks[k] == tasks[k]
  {
  }
}
