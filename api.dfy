/**
 * The HTTP layer's JSON-RPC endpoint and task event stream. A request is
 * routed by its method name to a task handler, and the handler's answer or
 * exception becomes a JSON-RPC response that echoes the request id. The
 * stream endpoint is a generator: an error event for an unknown task, or
 * else a snapshot of a task that is still running, then every event of the
 * task's stream until the first one whose type names a terminal state.
 *
 * `tasks/send` and `tasks/sendSubscribe` are routed to this file's own
 * copy of the send, whose event callback compares event types with
 * unprefixed state names (`StaleEffect`), so a send through the endpoint
 * never leaves `submitted` (`SendStaysSubmitted`). The send of `Handlers`,
 * with the correct dispatch, is the intended behaviour.
 *
 * The publisher and subscriber are taken to be constructed over the one
 * shared store. The file's own constructor calls pass a Redis URL that
 * the classes do not accept, so as written they raise before the agent
 * runs; everything here describes the file with a working publisher.
 */
module Api {
  import opened Wrappers
  import opened Errors
  import Json
  import Models
  import Schemas
  import Streams
  import Events
  import Executors
  import Services
  import Handlers
  import Sse
  import Text

  // -------------------------------------------------- JSON-RPC dispatch

  /** Error codes of section 5.1 of the JSON-RPC 2.0 Specification. */
  const METHOD_NOT_FOUND: int := -32601
  const INVALID_PARAMS: int := -32602
  const INTERNAL_ERROR: int := -32603

  /** How this copy of `handle_tasks_cancel` words its refusal of a terminal task. */
  const IN_TERMINAL: string := " is in terminal state: "

  /** The handlers a method name can select. */
  datatype Route = Send | SendSubscribe | Resubscribe | Get | Cancel

  /** The dispatch table, aliases included. */
  const HANDLERS: map<string, Route> := map[
    "tasks/send" := Send,
    "message/send" := Send,
    "tasks/sendSubscribe" := SendSubscribe,
    "message/stream" := SendSubscribe,
    "tasks/resubscribe" := Resubscribe,
    "tasks/get" := Get,
    "tasks/cancel" := Cancel
  ]

  /** `handlers.get(method)` */
  function RouteOf(rpcMethod: string): Option<Route> {
    if rpcMethod in HANDLERS then Some(HANDLERS[rpcMethod]) else None
  }

  /**
   * Exactly the seven names are routed; `message/send` is `tasks/send`
   * and `message/stream` is `tasks/sendSubscribe`.
   */
  lemma RoutesAndAliases(rpcMethod: string)
    ensures RouteOf(rpcMethod).Some? <==> rpcMethod in {"tasks/send", "message/send", "tasks/sendSubscribe",
                                                        "message/stream", "tasks/resubscribe", "tasks/get", "tasks/cancel"}
    ensures RouteOf("message/send") == RouteOf("tasks/send") == Some(Send)
    ensures RouteOf("message/stream") == RouteOf("tasks/sendSubscribe") == Some(SendSubscribe)
  {
  }

  /** `payload.params or {}` */
  function ParamsOf(payload: Schemas.JsonRpcRequest): Json.Dict {
    match payload.params
    case Some(d) => d
    case None => map[]
  }

  /**
   * The except clauses of `handle_rpc`, in order: a ValueError is invalid
   * parameters, a LookupError a missing method, anything else an internal
   * error. Validation errors of the serializers are not ValueErrors.
   */
  function ErrorCode(e: Exception): (code: int)
    ensures code in {METHOD_NOT_FOUND, INVALID_PARAMS, INTERNAL_ERROR}
  {
    if e.ValueError? then INVALID_PARAMS else if e.LookupError? then METHOD_NOT_FOUND else INTERNAL_ERROR
  }

  /** The response for a handler's outcome: its result, or its exception as an error with `str(e)` as message. */
  function Respond(outcome: Result<Json.Dict, Exception>, id: Schemas.RpcId): Schemas.JsonRpcResponse {
    match outcome
    case Ok(d) => Schemas.JsonRpcResponse(result := Some(d), id := id)
    case Err(e) => Schemas.JsonRpcResponse(error := Some(Schemas.JsonRpcError(ErrorCode(e), e.message)), id := id)
  }

  /** The response for a method name that has no handler. */
  function MethodNotFound(rpcMethod: string, id: Schemas.RpcId): Schemas.JsonRpcResponse {
    Schemas.JsonRpcResponse(error := Some(Schemas.JsonRpcError(METHOD_NOT_FOUND, "Method not found: " + rpcMethod)), id := id)
  }

  /**
   * Every response is JSON-RPC 2.0, echoes the request id and holds
   * exactly one of a result and an error; a handler's result is passed
   * through unchanged, and an exception keeps its message and gets the
   * code of its class.
   */
  lemma RespondCases(outcome: Result<Json.Dict, Exception>, id: Schemas.RpcId)
    ensures var resp := Respond(outcome, id);
      && resp.id == id && resp.jsonrpc == "2.0" && (resp.result.Some? <==> resp.error.None?)
      && (outcome.Ok? <==> resp.result.Some?)
      && (outcome.Ok? ==> resp.result.value == outcome.value)
      && (outcome.Err? ==> resp.error.value.message == outcome.error.message && resp.error.value.data.None?)
      && (outcome.Err? && outcome.error.ValueError? ==> resp.error.value.code == -32602)
      && (outcome.Err? && outcome.error.LookupError? ==> resp.error.value.code == -32601)
      && (outcome.Err? && !outcome.error.ValueError? && !outcome.error.LookupError? ==> resp.error.value.code == -32603)
  {
  }

  /**
   * A not-found task and an unknown method share the code -32601: the
   * client tells them apart only by the message.
   */
  lemma NotFoundSharesCode(id: string, rpcMethod: string, rid: Schemas.RpcId)
    ensures Respond(Err(Handlers.NotFound(id)), rid).error.value.code == MethodNotFound(rpcMethod, rid).error.value.code
    ensures Respond(Err(Handlers.NotFound(id)), rid).error.value.message == "Task " + id + " not found"
  {
  }

  /**
   * `handle_rpc`: looks up the handler of the method, runs it on the
   * parameters (an empty dict when there are none) and turns its result
   * or exception into the response. `tasks/send` and `tasks/sendSubscribe`
   * run this file's send; the reading handlers change nothing, and
   * `tasks/cancel` changes what `CancelSpec` says.
   */
  method HandleRpc(db: Services.Database, store: Streams.RedisStore, payload: Schemas.JsonRpcRequest,
                   iso: nat -> string, taskHex: string, msgHex: string, dataHex: string)
    returns (resp: Schemas.JsonRpcResponse)
    requires db.Valid() && store.Valid()
    requires Services.UuidHex(taskHex) && Services.UuidHex(msgHex) && Services.UuidHex(dataHex)
    modifies db, store
    ensures db.Valid() && store.Valid() && store.clock == old(store.clock) && store.down == old(store.down)
    ensures db.conversations == old(db.conversations) && db.convOrder == old(db.convOrder)
    ensures resp.id == payload.id && resp.jsonrpc == "2.0"
    ensures var params, route := ParamsOf(payload), RouteOf(payload.rpcMethod);
      && (route.None? ==> resp == MethodNotFound(payload.rpcMethod, payload.id))
      && (route == Some(Resubscribe) ==> resp == Respond(Handlers.ResubscribeSpec(old(db.tasks), params, iso), payload.id))
      && (route == Some(Get) ==> resp == Respond(Handlers.GetSpec(old(db.tasks), params, iso), payload.id))
      && (route == Some(Cancel) ==>
            && resp == Respond(Handlers.CancelSpec(old(db.tasks), params, iso, IN_TERMINAL).result, payload.id)
            && db.tasks == Handlers.CancelSpec(old(db.tasks), params, iso, IN_TERMINAL).tasks)
      && (route.None? || route == Some(Resubscribe) || route == Some(Get) || route == Some(Cancel) ==>
            && store.streams == old(store.streams) && db.taskOrder == old(db.taskOrder) && db.clock == old(db.clock))
      && (route.None? || route == Some(Resubscribe) || route == Some(Get) ==> db.tasks == old(db.tasks))
      && (route == Some(Send) || route == Some(SendSubscribe) ==>
            var o := SendSpec(old(db.tasks), old(db.taskOrder), old(db.clock), old(store.streams), old(store.down),
                              old(store.clock), params, taskHex, msgHex);
            && db.tasks == o.tasks && db.taskOrder == o.taskOrder && db.clock == o.clock && store.streams == o.streams
            && (route == Some(Send) ==> resp == Respond(o.result, payload.id))
            && (route == Some(SendSubscribe) && o.result.Err? ==> resp == Respond(o.result, payload.id))
            && (route == Some(SendSubscribe) && o.result.Ok? ==>
                  "id" in o.result.value && resp == Respond(Ok(Handlers.Subscribed(o.result.value)), payload.id)))
  {
    var params := ParamsOf(payload);
    var handler := RouteOf(payload.rpcMethod);
    if handler.None? {
      return MethodNotFound(payload.rpcMethod, payload.id);
    }
    var outcome: Result<Json.Dict, Exception>;
    match handler.value {
      case Send =>
        outcome := HandleTasksSend(db, store, params, taskHex, msgHex, dataHex);
      case SendSubscribe =>
        outcome := HandleTasksSendSubscribe(db, store, params, taskHex, msgHex, dataHex);
      case Resubscribe =>
        outcome := Handlers.HandleTasksResubscribe(db, params, iso);
      case Get =>
        outcome := Handlers.HandleTasksGet(db, params, iso);
      case Cancel =>
        outcome := Handlers.HandleTasksCancel(db, params, iso, IN_TERMINAL);
    }
    resp := Respond(outcome, payload.id);
  }

  // --------------------------------------- the endpoint's event callback

  /**
   * The dispatch of this file's `on_event`, as written: messages and
   * artifacts as in `Handlers.EventEffect`, but the terminal check asks
   * whether the raw type is one of the bare state names, so a type such
   * as `task.completed` never sets the state; only a bare name such as
   * `completed` does (for those four names the `task.` rewriting leaves
   * the name as it is). A list or dict type cannot be looked up in a set.
   */
  function StaleEffect(event: Json.Dict): (r: Handlers.Effect)
    ensures r.Fails? <==> Handlers.EventType(event).Arr? || Handlers.EventType(event).Obj?
    ensures r.SetStatus? ==> r.state in Handlers.TERMINAL_STATES && Handlers.EventType(event) == Json.Str(r.state)
  {
    var t := Handlers.EventType(event);
    if t == Json.Str("task.message") then
      var message := Json.GetOr(event, "message", Json.Obj(map[]));
      if Json.Truthy(message) then Handlers.AppendHistory(message) else Handlers.Unchanged
    else if t == Json.Str("task.artifact") then
      var artifact := Json.GetOr(event, "artifact", Json.Null);
      if Json.Truthy(artifact) then Handlers.AppendArtifact(artifact) else Handlers.Unchanged
    else if t.Arr? || t.Obj? then Handlers.Fails(TypeError("unhashable type"))
    else if t.Str? && t.s in Handlers.TERMINAL_STATES then Handlers.SetStatus(t.s, Json.GetOr(event, "message", Json.Null))
    else Handlers.Unchanged
  }

  /** The stale effects of a sequence of events, in order. */
  function StaleEffects(events: seq<Json.Dict>): (r: seq<Handlers.Effect>)
    ensures |r| == |events| && forall i :: 0 <= i < |events| ==> r[i] == StaleEffect(events[i])
  {
    if events == [] then [] else StaleEffects(events[..|events| - 1]) + [StaleEffect(events[|events| - 1])]
  }

  /**
   * The stale callback sets a state exactly for a type that is a bare
   * terminal state name; no `task.<state>` type ever sets one.
   */
  lemma StaleSetsOnlyBareNames(event: Json.Dict, state: string)
    ensures StaleEffect(event).SetStatus? <==> Handlers.EventType(event).Str? && Handlers.EventType(event).s in Handlers.TERMINAL_STATES
    ensures Handlers.EventType(event) == Json.Str(Handlers.TASK_PREFIX + state) ==> !StaleEffect(event).SetStatus?
  {
    if Handlers.EventType(event) == Json.Str(Handlers.TASK_PREFIX + state) {
      var t := Handlers.TASK_PREFIX + state;
      assert t[0] == 't' && t[1] == 'a';
      assert t !in Handlers.TERMINAL_STATES by {
        assert "completed"[0] == 'c' && "failed"[0] == 'f' && "canceled"[0] == 'c' && "rejected"[0] == 'r';
      }
    }
  }

  /** An effect with its state change, if any, dropped. */
  function Mute(eff: Handlers.Effect): (r: Handlers.Effect)
    ensures !r.SetStatus? && (r.Fails? <==> eff.Fails?)
    ensures !eff.SetStatus? ==> r == eff
  {
    if eff.SetStatus? then Handlers.Unchanged else eff
  }

  /**
   * Effects with every state change dropped leave a row as the effects
   * themselves would, except that it keeps the state and status message
   * it had.
   */
  lemma {:induction false} MutedApplied(r: Models.TaskRecord, effs: seq<Handlers.Effect>, muted: seq<Handlers.Effect>)
    requires |muted| == |effs| && forall i :: 0 <= i < |effs| ==> muted[i] == Mute(effs[i])
    ensures Handlers.ApplyEffects(r, muted)
         == Handlers.ApplyEffects(r, effs).(statusState := r.statusState, statusMessage := r.statusMessage)
  {
    if effs != [] {
      var k := |effs| - 1;
      MutedApplied(r, effs[..k], muted[..k]);
    }
  }

  /**
   * On the event of each step of a run the stale callback does what the
   * correct dispatch does, less its state change: only the completion
   * event is treated differently, and it changes nothing.
   */
  lemma StaleStepMutes(s: Executors.Step, taskId: Json.Value, user: Json.Value, n: int)
    ensures StaleEffect(Executors.EventOf(s, taskId, user, n)) == Mute(Handlers.EventEffect(Executors.EventOf(s, taskId, user, n)))
  {
    Handlers.EffectOfStep(s, taskId, user, n);
    match s
    case ChunkStep(i) => StaleChunk(i, taskId, user, n);
    case ArtifactStep => StaleArtifact(taskId, user, n);
    case _ => StaleQuiet(s, taskId, user, n);
  }

  lemma StaleChunk(i: nat, taskId: Json.Value, user: Json.Value, n: int)
    ensures StaleEffect(Executors.EventOf(Executors.ChunkStep(i), taskId, user, n))
         == Handlers.AppendHistory(Executors.AgentMessage(Executors.ChunkText(user, i, n)))
  {
    var e := Executors.EventOf(Executors.ChunkStep(i), taskId, user, n);
    assert Handlers.EventType(e) == Json.Str("task.message");
    assert "role" in Executors.AgentMessage(Executors.ChunkText(user, i, n)).fields;
  }

  lemma StaleArtifact(taskId: Json.Value, user: Json.Value, n: int)
    ensures StaleEffect(Executors.EventOf(Executors.ArtifactStep, taskId, user, n)) == Handlers.AppendArtifact(Executors.Artifact())
  {
    var e := Executors.EventOf(Executors.ArtifactStep, taskId, user, n);
    assert Handlers.EventType(e) == Json.Str("task.artifact");
    assert "name" in Executors.Artifact().fields;
  }

  /** The working, tool and completion events change nothing under the stale callback. */
  lemma StaleQuiet(s: Executors.Step, taskId: Json.Value, user: Json.Value, n: int)
    requires !s.ChunkStep? && !s.ArtifactStep?
    ensures StaleEffect(Executors.EventOf(s, taskId, user, n)) == Handlers.Unchanged
  {
    var e := Executors.EventOf(s, taskId, user, n);
    Executors.EventOfFields(s, taskId, user, n);
    assert Handlers.EventType(e) == Json.Str(Executors.StepType(s));
    StepTypeNotBare(s);
  }

  /** No step of the agent emits a bare state name as its type. */
  lemma StepTypeNotBare(s: Executors.Step)
    ensures Executors.StepType(s) !in Handlers.TERMINAL_STATES
  {
    var t := Executors.StepType(s);
    assert t[0] == 't' && (t[1] == 'a' || t[1] == 'o');
    assert "completed"[0] == 'c' && "failed"[0] == 'f' && "canceled"[0] == 'c' && "rejected"[0] == 'r';
  }

  /** The stale effects of a run are its correct effects, muted, one by one. */
  lemma StaleRunMutes(taskId: Json.Value, user: Json.Value, n: int, tools: bool, artifacts: bool)
    ensures var events := Executors.AgentEvents(taskId, user, n, tools, artifacts);
      forall i :: 0 <= i < |events| ==> StaleEffects(events)[i] == Mute(Handlers.Effects(events)[i])
  {
    var steps := Executors.Steps(n, tools, artifacts);
    var events := Executors.AgentEvents(taskId, user, n, tools, artifacts);
    forall i | 0 <= i < |events|
      ensures StaleEffects(events)[i] == Mute(Handlers.Effects(events)[i])
    {
      Executors.EventsOfIndex(steps, taskId, user, n, i);
      StaleStepMutes(steps[i], taskId, user, n);
    }
  }

  /**
   * As written, a run through this callback leaves the row as the correct
   * dispatch does (`Handlers.RunRow`: the chunk messages and the artifact
   * appended) except for its state and status message, which stay as
   * they were.
   */
  lemma StaleRunRow(r: Models.TaskRecord, taskId: Json.Value, user: Json.Value, n: int, tools: bool, artifacts: bool)
    requires r.history.Some? && r.artifacts.Some?
    ensures Handlers.ApplyEffects(r, StaleEffects(Executors.AgentEvents(taskId, user, n, tools, artifacts)))
         == Handlers.RunRow(r, user, n, artifacts).(statusState := r.statusState, statusMessage := r.statusMessage)
  {
    var events := Executors.AgentEvents(taskId, user, n, tools, artifacts);
    StaleRunMutes(taskId, user, n, tools, artifacts);
    MutedApplied(r, Handlers.Effects(events), StaleEffects(events));
    Handlers.RunApplied(r, taskId, user, n, tools, artifacts);
  }

  /** No event of the sequence fails in the stale callback. */
  predicate NoStaleFailures(events: seq<Json.Dict>) {
    forall i :: 0 <= i < |events| ==> !StaleEffect(events[i]).Fails?
  }

  /** No event of a run fails in the stale callback either. */
  lemma AgentEventsPassStale(taskId: Json.Value, user: Json.Value, n: int, tools: bool, artifacts: bool)
    ensures NoStaleFailures(Executors.AgentEvents(taskId, user, n, tools, artifacts))
  {
    var events := Executors.AgentEvents(taskId, user, n, tools, artifacts);
    Handlers.AgentEventsNeverFail(taskId, user, n, tools, artifacts);
    StaleRunMutes(taskId, user, n, tools, artifacts);
    forall i | 0 <= i < |events|
      ensures !StaleEffect(events[i]).Fails?
    {
      assert StaleEffects(events)[i] == Mute(Handlers.Effects(events)[i]);
    }
  }

  /**
   * The input that shows it: the run's last event, `task.completed`,
   * changes nothing under the stale callback, while the correct dispatch
   * sets the state `completed`.
   */
  lemma StaleMissesCompletion(taskId: Json.Value, user: Json.Value, n: int, tools: bool, artifacts: bool)
    ensures var events := Executors.AgentEvents(taskId, user, n, tools, artifacts);
      && Executors.TypeOf(events[|events| - 1]) == Json.Str("task.completed")
      && StaleEffect(events[|events| - 1]) == Handlers.Unchanged
      && Handlers.EventEffect(events[|events| - 1]).SetStatus?
      && Handlers.EventEffect(events[|events| - 1]).state == "completed"
  {
    Executors.RunBoundaries(taskId, user, n, tools, artifacts);
    var events := Executors.AgentEvents(taskId, user, n, tools, artifacts);
    var last := events[|events| - 1];
    assert Handlers.EventType(last) == Json.Str("task.completed");
    StaleSetsOnlyBareNames(last, "completed");
    Handlers.TerminalStateIff("task.completed", "completed");
    Handlers.EventEffectCases(last);
  }

  // ------------------------------------------- the endpoint's tasks/send

  lemma StaleEffectsSnoc(events: seq<Json.Dict>, e: Json.Dict)
    ensures StaleEffects(events + [e]) == StaleEffects(events) + [StaleEffect(e)]
  {
    assert (events + [e])[..|events|] == events;
  }

  /**
   * This file's `handle_tasks_send` as a function of the state before it:
   * `Handlers.SendSpec` with this file's callback, so invalid parameters
   * and a taken task id change nothing, and otherwise the task is created
   * and run as `RunSpec` says.
   */
  function SendSpec(tasks: Models.TaskTable, taskOrder: seq<string>, clock: nat, streams: map<string, Streams.Stream>,
                    down: bool, now: nat, params: Json.Dict, taskHex: string, msgHex: string): (o: Handlers.Outcome)
    requires Services.UuidHex(taskHex) && Services.UuidHex(msgHex)
    ensures var id := Services.ShortId("task-", taskHex);
      o.tasks == tasks || (id !in tasks && id in o.tasks && o.tasks == tasks[id := o.tasks[id]])
    ensures var id := Services.ShortId("task-", taskHex);
      o.result.Ok? ==> && !down && id !in tasks && id in o.tasks
                       && o.taskOrder == taskOrder + [id] && o.clock == clock + 1
  {
    match Schemas.ParseTaskSendParams(params)
    case Err(e) => Handlers.Outcome(Err(e), tasks, taskOrder, clock, streams)
    case Ok(p) =>
      var row := Services.NewTask(p.message, p.contextId, taskHex, msgHex);
      match Models.InsertTask(tasks, row, clock)
      case Err(e) => Handlers.Outcome(Err(e), tasks, taskOrder, clock, streams)
      case Ok(created) =>
        var o := RunSpec(created, taskOrder + [row.taskId], clock + 1, streams, down, now, row.taskId, p.message);
        Handlers.UpdateTwice(tasks, row.taskId, Models.Stamped(row, clock), o.tasks[row.taskId]);
        o
  }

  /**
   * The agent's run through this file's callback: every event is
   * published as `Handlers.RunSpec` says, but the row takes the events'
   * `StaleEffects`.
   */
  function RunSpec(tasks: Models.TaskTable, taskOrder: seq<string>, clock: nat, streams: map<string, Streams.Stream>,
                   down: bool, now: nat, id: string, m: Schemas.Message): (o: Handlers.Outcome)
    requires id in tasks
    ensures o.result.Ok? <==> !down
    ensures id in o.tasks && o.tasks == tasks[id := o.tasks[id]] && o.taskOrder == taskOrder && o.clock == clock
    ensures o.tasks[id].taskId == tasks[id].taskId && o.tasks[id].contextId == tasks[id].contextId
    ensures down ==> o.tasks == tasks && o.streams == streams
  {
    if down then Handlers.Outcome(Err(Streams.Unreachable()), tasks, taskOrder, clock, streams)
    else
      var events := Handlers.SendEvents(m);
      var final := tasks[id := Handlers.ApplyEffects(tasks[id], StaleEffects(events))];
      Handlers.Outcome(Ok(Handlers.SendResponse(Some(Schemas.TaskFromOrm(final[id])), Schemas.TaskFromOrm(tasks[id]))),
                       final, taskOrder, clock,
                       Handlers.PublishAll(streams, Events.StreamKey(Events.STREAM_PREFIX, id), Handlers.Tags(events, id), now))
  }

  /**
   * A send with valid parameters and a fresh task id is the run of
   * `RunSpec` on the row `NewTask` builds, one tick of the database clock
   * after the others.
   */
  lemma SendRuns(tasks: Models.TaskTable, taskOrder: seq<string>, clock: nat, streams: map<string, Streams.Stream>,
                 down: bool, now: nat, params: Json.Dict, taskHex: string, msgHex: string, p: Schemas.TaskSendParams)
    requires Services.UuidHex(taskHex) && Services.UuidHex(msgHex)
    requires Schemas.ParseTaskSendParams(params) == Ok(p) && Services.ShortId("task-", taskHex) !in tasks
    ensures var id := Services.ShortId("task-", taskHex);
      var row := Models.Stamped(Services.NewTask(p.message, p.contextId, taskHex, msgHex), clock);
      && row.taskId == id && row.statusState == Models.SUBMITTED
      && row.history == Some([Services.MessageData(p.message, msgHex)]) && row.artifacts == Some([])
      && SendSpec(tasks, taskOrder, clock, streams, down, now, params, taskHex, msgHex)
         == RunSpec(tasks[id := row], taskOrder + [id], clock + 1, streams, down, now, id, p.message)
  {
  }

  /**
   * The input that shows it: with a working publisher, valid parameters,
   * a fresh task id and the store reachable, `tasks/send` answers that the task is still
   * `submitted`, and leaves it so, although its history holds the five
   * chunk messages after the user's and its artifacts hold the run's
   * artifact.
   */
  lemma SendStaysSubmitted(tasks: Models.TaskTable, taskOrder: seq<string>, clock: nat, streams: map<string, Streams.Stream>,
                           now: nat, params: Json.Dict, taskHex: string, msgHex: string, p: Schemas.TaskSendParams)
    requires Services.UuidHex(taskHex) && Services.UuidHex(msgHex)
    requires Schemas.ParseTaskSendParams(params) == Ok(p) && Services.ShortId("task-", taskHex) !in tasks
    ensures var id := Services.ShortId("task-", taskHex);
      var o := SendSpec(tasks, taskOrder, clock, streams, false, now, params, taskHex, msgHex);
      var history := [Services.MessageData(p.message, msgHex)]
                     + Handlers.ChunkMessages(Json.Str(Handlers.UserText(p.message.parts)), 5, Executors.DEFAULT_CHUNKS);
      && o.result.Ok? && o.result.value["id"] == Json.Str(id)
      && o.result.value["status"] == Json.Obj(map["state" := Json.Str(Models.SUBMITTED)])
      && o.result.value["history"] == Json.Arr(history)
      && id in o.tasks && o.tasks[id].statusState == Models.SUBMITTED
      && o.tasks[id].history == Some(history) && o.tasks[id].artifacts == Some([Executors.Artifact()])
  {
    var id := Services.ShortId("task-", taskHex);
    var row := Models.Stamped(Services.NewTask(p.message, p.contextId, taskHex, msgHex), clock);
    SendRuns(tasks, taskOrder, clock, streams, false, now, params, taskHex, msgHex, p);
    CreatedRunSubmitted(tasks, taskOrder + [id], clock + 1, streams, now, id, p.message, row);
  }

  /**
   * A run through this file's callback on a freshly created row, with
   * the store reachable: the row and the answer keep the state it was
   * created in, while the history gains the five chunk messages and the
   * artifacts the run's artifact.
   */
  lemma CreatedRunSubmitted(tasks: Models.TaskTable, taskOrder: seq<string>, clock: nat, streams: map<string, Streams.Stream>,
                            now: nat, id: string, m: Schemas.Message, r0: Models.TaskRecord)
    requires r0.taskId == id && r0.history.Some? && r0.artifacts == Some([])
    ensures var o := RunSpec(tasks[id := r0], taskOrder, clock, streams, false, now, id, m);
      var history := r0.history.value + Handlers.ChunkMessages(Json.Str(Handlers.UserText(m.parts)), 5, Executors.DEFAULT_CHUNKS);
      && o.result.Ok? && o.result.value["id"] == Json.Str(id)
      && o.result.value["status"] == Json.Obj(map["state" := Json.Str(r0.statusState)])
      && o.result.value["history"] == Json.Arr(history)
      && id in o.tasks && o.tasks[id] == r0.(history := Some(history), artifacts := Some([Executors.Artifact()]))
  {
    var user := Json.Str(Handlers.UserText(m.parts));
    var history := r0.history.value + Handlers.ChunkMessages(user, 5, Executors.DEFAULT_CHUNKS);
    var row := r0.(history := Some(history), artifacts := Some([Executors.Artifact()]));
    StaleRunCompletes(tasks[id := r0], taskOrder, clock, streams, now, id, m);
    Handlers.CreatedRow(r0, user);
    Handlers.UpdateTwice(tasks, id, r0, row);
    AnswerOf(row, Schemas.TaskFromOrm(r0));
  }

  /**
   * A run through this file's callback with the store reachable leaves
   * the task's row as `StaleRunRow` says and answers with that row.
   */
  lemma StaleRunCompletes(tasks: Models.TaskTable, taskOrder: seq<string>, clock: nat, streams: map<string, Streams.Stream>,
                          now: nat, id: string, m: Schemas.Message)
    requires id in tasks && tasks[id].history.Some? && tasks[id].artifacts.Some?
    ensures var o := RunSpec(tasks, taskOrder, clock, streams, false, now, id, m);
      var r := tasks[id];
      var row := Handlers.RunRow(r, Json.Str(Handlers.UserText(m.parts)), Executors.DEFAULT_CHUNKS, Executors.DEFAULT_ARTIFACTS)
                 .(statusState := r.statusState, statusMessage := r.statusMessage);
      && o.tasks == tasks[id := row]
      && o.result == Ok(Handlers.SendResponse(Some(Schemas.TaskFromOrm(row)), Schemas.TaskFromOrm(r)))
  {
    StaleSendRow(tasks[id], m);
  }

  /** The events of one send, through this file's callback, leave a row as `StaleRunRow` says. */
  lemma StaleSendRow(r: Models.TaskRecord, m: Schemas.Message)
    requires r.history.Some? && r.artifacts.Some?
    ensures Handlers.ApplyEffects(r, StaleEffects(Handlers.SendEvents(m)))
         == Handlers.RunRow(r, Json.Str(Handlers.UserText(m.parts)), Executors.DEFAULT_CHUNKS, Executors.DEFAULT_ARTIFACTS)
            .(statusState := r.statusState, statusMessage := r.statusMessage)
  {
    StaleRunRow(r, Json.Str(Executors.UNKNOWN_TASK), Json.Str(Handlers.UserText(m.parts)), Executors.DEFAULT_CHUNKS,
                Executors.DEFAULT_TOOLS, Executors.DEFAULT_ARTIFACTS);
  }

  /** The answer for a re-read row: its id, its state and its history. */
  lemma AnswerOf(row: Models.TaskRecord, created: Schemas.Task)
    requires row.history.Some?
    ensures var d := Handlers.SendResponse(Some(Schemas.TaskFromOrm(row)), created);
      && d["id"] == Json.Str(row.taskId)
      && d["status"] == Json.Obj(map["state" := Json.Str(row.statusState)])
      && d["history"] == Json.Arr(row.history.value)
  {
  }

  /**
   * Every answer of this send names the task, its context, its state and
   * its history, and the id it names is the drawn `task-<8 hex digits>`.
   */
  lemma SendAnswerKeys(tasks: Models.TaskTable, taskOrder: seq<string>, clock: nat, streams: map<string, Streams.Stream>,
                       down: bool, now: nat, params: Json.Dict, taskHex: string, msgHex: string)
    requires Services.UuidHex(taskHex) && Services.UuidHex(msgHex)
    ensures var o := SendSpec(tasks, taskOrder, clock, streams, down, now, params, taskHex, msgHex);
      && (o.result.Ok? ==> o.result.value.Keys == {"id", "contextId", "status", "history"} && o.result.value["id"].Str?)
      && (o.result.Ok? ==> o.result.value["id"] == Json.Str(Services.ShortId("task-", taskHex)))
  {
    match Schemas.ParseTaskSendParams(params)
    case Err(_) =>
    case Ok(p) =>
      var row := Services.NewTask(p.message, p.contextId, taskHex, msgHex);
      match Models.InsertTask(tasks, row, clock)
      case Err(_) =>
      case Ok(created) =>
        RunAnswerKeys(created, taskOrder + [row.taskId], clock + 1, streams, down, now, row.taskId, p.message);
  }

  /**
   * The answer of a run that does not raise is the task's id, context,
   * state and history, and the id it answers is the id of the row it ran on.
   */
  lemma RunAnswerKeys(tasks: Models.TaskTable, taskOrder: seq<string>, clock: nat, streams: map<string, Streams.Stream>,
                      down: bool, now: nat, id: string, m: Schemas.Message)
    requires id in tasks
    ensures var o := RunSpec(tasks, taskOrder, clock, streams, down, now, id, m);
      && (o.result.Ok? ==> o.result.value.Keys == {"id", "contextId", "status", "history"} && o.result.value["id"].Str?)
      && (o.result.Ok? && tasks[id].taskId == id ==> o.result.value["id"] == Json.Str(id))
  {
    if !down {
      var final := tasks[id := Handlers.ApplyEffects(tasks[id], StaleEffects(Handlers.SendEvents(m)))];
      var d := Handlers.SendResponse(Some(Schemas.TaskFromOrm(final[id])), Schemas.TaskFromOrm(tasks[id]));
      assert d["id"] == Json.Str(final[id].taskId);
    }
  }

  /**
   * The input that shows it: the task id a client asks for is parsed and
   * never used, so a send that asks for `my-custom-task` and succeeds
   * (with a working publisher) answers with another id, the drawn one.
   */
  lemma SendIgnoresRequestedId(tasks: Models.TaskTable, taskOrder: seq<string>, clock: nat, streams: map<string, Streams.Stream>,
                               down: bool, now: nat, params: Json.Dict, taskHex: string, msgHex: string)
    requires Services.UuidHex(taskHex) && Services.UuidHex(msgHex)
    requires "id" in params && params["id"] == Json.Str("my-custom-task")
    ensures var o := SendSpec(tasks, taskOrder, clock, streams, down, now, params, taskHex, msgHex);
      o.result.Ok? ==> o.result.value["id"] == Json.Str(Services.ShortId("task-", taskHex)) && o.result.value["id"] != params["id"]
  {
    SendAnswerKeys(tasks, taskOrder, clock, streams, down, now, params, taskHex, msgHex);
    var id := Services.ShortId("task-", taskHex);
    assert id[0] == 't' && "my-custom-task"[0] == 'm';
  }

  /**
   * This file's `on_event`: tags the event with the task id and publishes
   * it, as `Handlers.ProcessTaskEvent` does, then applies its
   * `StaleEffect`; a list or dict type raises after publishing.
   */
  method OnEvent(db: Services.Database, publisher: Events.EventPublisher, taskId: string, event: Json.Dict)
    returns (raised: Option<Exception>)
    requires db.Valid() && publisher.store.Valid()
    modifies db, publisher.store
    ensures db.Valid() && publisher.store.Valid()
    ensures publisher.store.clock == old(publisher.store.clock) && publisher.store.down == old(publisher.store.down)
    ensures db.taskOrder == old(db.taskOrder) && db.conversations == old(db.conversations)
    ensures db.convOrder == old(db.convOrder) && db.clock == old(db.clock)
    ensures old(publisher.store.down) ==>
              raised == Some(Streams.Unreachable()) && db.tasks == old(db.tasks) && publisher.store.streams == old(publisher.store.streams)
    ensures !old(publisher.store.down) ==>
              && publisher.store.streams == Handlers.Publish1(old(publisher.store.streams), Events.StreamKey(publisher.prefix, taskId),
                                                              Handlers.Tag(event, taskId), publisher.store.clock)
              && db.tasks == Handlers.Applied(old(db.tasks), taskId, StaleEffect(event))
              && raised == Handlers.FailureOf(StaleEffect(event))
  {
    raised := Handlers.PublishAndApply(db, publisher, taskId, event, StaleEffect(event));
  }

  lemma StaleStepRow(tasks0: Models.TaskTable, row0: Models.TaskRecord, taskId: string, events: seq<Json.Dict>, i: nat)
    requires i < |events|
    ensures Handlers.Applied(tasks0[taskId := Handlers.ApplyEffects(row0, StaleEffects(events[..i]))], taskId, StaleEffect(events[i]))
         == tasks0[taskId := Handlers.ApplyEffects(row0, StaleEffects(events[..i + 1]))]
  {
    var effs, eff := StaleEffects(events[..i]), StaleEffect(events[i]);
    assert events[..i + 1] == events[..i] + [events[i]];
    StaleEffectsSnoc(events[..i], events[i]);
    Handlers.ApplyEffectsSnoc(row0, effs, eff);
    Handlers.AppliedUpdate(tasks0, taskId, Handlers.ApplyEffects(row0, effs), eff);
  }

  /**
   * `on_event` applied to each event of a run in turn: with the store
   * reachable every event is published and takes its stale effect;
   * otherwise the first publish raises and nothing changes.
   */
  method OnEvents(db: Services.Database, publisher: Events.EventPublisher, taskId: string, events: seq<Json.Dict>)
    returns (raised: Option<Exception>)
    requires db.Valid() && publisher.store.Valid() && taskId in db.tasks && NoStaleFailures(events)
    modifies db, publisher.store
    ensures db.Valid() && publisher.store.Valid()
    ensures publisher.store.clock == old(publisher.store.clock) && publisher.store.down == old(publisher.store.down)
    ensures db.taskOrder == old(db.taskOrder) && db.conversations == old(db.conversations)
    ensures db.convOrder == old(db.convOrder) && db.clock == old(db.clock)
    ensures old(publisher.store.down) && events != [] ==>
              raised == Some(Streams.Unreachable()) && db.tasks == old(db.tasks) && publisher.store.streams == old(publisher.store.streams)
    ensures !old(publisher.store.down) || events == [] ==>
              && raised == None
              && db.tasks == old(db.tasks)[taskId := Handlers.ApplyEffects(old(db.tasks)[taskId], StaleEffects(events))]
              && publisher.store.streams == Handlers.PublishAll(old(publisher.store.streams), Events.StreamKey(publisher.prefix, taskId),
                                                                Handlers.Tags(events, taskId), publisher.store.clock)
  {
    ghost var tasks0 := db.tasks;
    ghost var row0 := db.tasks[taskId];
    ghost var streams0 := publisher.store.streams;
    ghost var key := Events.StreamKey(publisher.prefix, taskId);
    assert events[..0] == [];
    assert tasks0[taskId := row0] == tasks0;
    var i := 0;
    while i < |events|
      invariant 0 <= i <= |events|
      invariant db.Valid() && publisher.store.Valid()
      invariant publisher.store.clock == old(publisher.store.clock) && publisher.store.down == old(publisher.store.down)
      invariant db.taskOrder == old(db.taskOrder) && db.conversations == old(db.conversations)
      invariant db.convOrder == old(db.convOrder) && db.clock == old(db.clock)
      invariant !publisher.store.down || i == 0
      invariant db.tasks == tasks0[taskId := Handlers.ApplyEffects(row0, StaleEffects(events[..i]))]
      invariant publisher.store.streams == Handlers.PublishAll(streams0, key, Handlers.Tags(events[..i], taskId), publisher.store.clock)
    {
      raised := OnEventNext(db, publisher, taskId, events, i, tasks0, row0, streams0);
      if raised.Some? {
        return;
      }
      i := i + 1;
    }
    assert events[..|events|] == events;
    assert !publisher.store.down || events == [];
    raised := None;
  }

  /** The `i`-th pass of the loop of `OnEvents`. */
  method OnEventNext(db: Services.Database, publisher: Events.EventPublisher, taskId: string, events: seq<Json.Dict>,
                     i: nat, ghost tasks0: Models.TaskTable, ghost row0: Models.TaskRecord,
                     ghost streams0: map<string, Streams.Stream>)
    returns (raised: Option<Exception>)
    requires i < |events| && NoStaleFailures(events)
    requires db.Valid() && publisher.store.Valid()
    requires db.tasks == tasks0[taskId := Handlers.ApplyEffects(row0, StaleEffects(events[..i]))]
    requires publisher.store.streams
          == Handlers.PublishAll(streams0, Events.StreamKey(publisher.prefix, taskId), Handlers.Tags(events[..i], taskId),
                                 publisher.store.clock)
    modifies db, publisher.store
    ensures db.Valid() && publisher.store.Valid()
    ensures publisher.store.clock == old(publisher.store.clock) && publisher.store.down == old(publisher.store.down)
    ensures db.taskOrder == old(db.taskOrder) && db.conversations == old(db.conversations)
    ensures db.convOrder == old(db.convOrder) && db.clock == old(db.clock)
    ensures old(publisher.store.down) ==>
              raised == Some(Streams.Unreachable()) && db.tasks == old(db.tasks) && publisher.store.streams == old(publisher.store.streams)
    ensures !old(publisher.store.down) ==>
              && raised == None
              && db.tasks == tasks0[taskId := Handlers.ApplyEffects(row0, StaleEffects(events[..i + 1]))]
              && publisher.store.streams == Handlers.PublishAll(streams0, Events.StreamKey(publisher.prefix, taskId),
                                                                Handlers.Tags(events[..i + 1], taskId), publisher.store.clock)
  {
    StaleStepRow(tasks0, row0, taskId, events, i);
    Handlers.ProcessStepStream(taskId, streams0, Events.StreamKey(publisher.prefix, taskId), events, i, publisher.store.clock);
    raised := OnEvent(db, publisher, taskId, events[i]);
  }

  /**
   * This file's `handle_tasks_send`: validates the parameters, creates
   * the task, runs the agent on the stored form of the message with
   * `on_event` as its callback, and answers with the task as it then is.
   */
  method HandleTasksSend(db: Services.Database, store: Streams.RedisStore, params: Json.Dict,
                         taskHex: string, msgHex: string, dataHex: string)
    returns (r: Result<Json.Dict, Exception>)
    requires db.Valid() && store.Valid()
    requires Services.UuidHex(taskHex) && Services.UuidHex(msgHex) && Services.UuidHex(dataHex)
    modifies db, store
    ensures db.Valid() && store.Valid() && store.clock == old(store.clock) && store.down == old(store.down)
    ensures db.conversations == old(db.conversations) && db.convOrder == old(db.convOrder)
    ensures var o := SendSpec(old(db.tasks), old(db.taskOrder), old(db.clock), old(store.streams), old(store.down),
                              old(store.clock), params, taskHex, msgHex);
      && r == o.result && db.tasks == o.tasks && db.taskOrder == o.taskOrder && db.clock == o.clock
      && store.streams == o.streams
  {
    var parsed := Schemas.ParseTaskSendParams(params);
    if parsed.Err? {
      return Err(parsed.error);
    }
    var p := parsed.value;
    var created := db.CreateTask(p.message, p.contextId, taskHex, msgHex);
    if created.Err? {
      return Err(created.error);
    }
    r := RunAgent(db, store, created.value, p.message, dataHex);
  }

  /** The part of this file's `handle_tasks_send` after the task is created. */
  method RunAgent(db: Services.Database, store: Streams.RedisStore, created: Schemas.Task, m: Schemas.Message, dataHex: string)
    returns (r: Result<Json.Dict, Exception>)
    requires db.Valid() && store.Valid() && Services.UuidHex(dataHex)
    requires created.id in db.tasks && created == Schemas.TaskFromOrm(db.tasks[created.id])
    modifies db, store
    ensures db.Valid() && store.Valid() && store.clock == old(store.clock) && store.down == old(store.down)
    ensures db.conversations == old(db.conversations) && db.convOrder == old(db.convOrder)
    ensures var o := RunSpec(old(db.tasks), old(db.taskOrder), old(db.clock), old(store.streams), old(store.down),
                             old(store.clock), created.id, m);
      && r == o.result && db.tasks == o.tasks && db.taskOrder == o.taskOrder && db.clock == o.clock
      && store.streams == o.streams
  {
    var taskId := created.id;
    var publisher := new Events.EventPublisher(store);
    var messageData := Services.MessageData(m, dataHex);
    Handlers.MessageDataText(m, dataHex);
    var user := Executors.ExtractText(messageData.fields).value;
    var events := Executors.AgentEvents(Executors.TaskIdOf(messageData.fields), user, Executors.DEFAULT_CHUNKS,
                                        Executors.DEFAULT_TOOLS, Executors.DEFAULT_ARTIFACTS);
    AgentEventsPassStale(Json.Str(Executors.UNKNOWN_TASK), user, Executors.DEFAULT_CHUNKS,
                         Executors.DEFAULT_TOOLS, Executors.DEFAULT_ARTIFACTS);
    Executors.RunBoundaries(Json.Str(Executors.UNKNOWN_TASK), user, Executors.DEFAULT_CHUNKS,
                            Executors.DEFAULT_TOOLS, Executors.DEFAULT_ARTIFACTS);
    var raised := OnEvents(db, publisher, taskId, events);
    if raised.Some? {
      return Err(raised.value);
    }
    var reread := db.GetTask(taskId);
    return Ok(Handlers.SendResponse(reread, created));
  }

  /**
   * This file's `handle_tasks_send_subscribe`: sends with this file's
   * send, then answers with its answer and the path of the task's stream;
   * a send that raises raises.
   */
  method HandleTasksSendSubscribe(db: Services.Database, store: Streams.RedisStore, params: Json.Dict,
                                  taskHex: string, msgHex: string, dataHex: string)
    returns (r: Result<Json.Dict, Exception>)
    requires db.Valid() && store.Valid()
    requires Services.UuidHex(taskHex) && Services.UuidHex(msgHex) && Services.UuidHex(dataHex)
    modifies db, store
    ensures db.Valid() && store.Valid() && store.clock == old(store.clock) && store.down == old(store.down)
    ensures db.conversations == old(db.conversations) && db.convOrder == old(db.convOrder)
    ensures var o := SendSpec(old(db.tasks), old(db.taskOrder), old(db.clock), old(store.streams), old(store.down),
                              old(store.clock), params, taskHex, msgHex);
      && (o.result.Err? ==> r == o.result)
      && (o.result.Ok? ==> "id" in o.result.value && r == Ok(Handlers.Subscribed(o.result.value)))
      && db.tasks == o.tasks && db.taskOrder == o.taskOrder && db.clock == o.clock && store.streams == o.streams
  {
    SendAnswerKeys(db.tasks, db.taskOrder, db.clock, store.streams, store.down, store.clock, params, taskHex, msgHex);
    var res := HandleTasksSend(db, store, params, taskHex, msgHex, dataHex);
    if res.Err? {
      return Err(res.error);
    }
    r := Ok(Handlers.Subscribed(res.value));
  }

  /**
   * The input that shows it: a `tasks/sendSubscribe` request into the
   * context of a conversation leaves that conversation exactly as it
   * was, so one that was not streaming still reads as not streaming
   * (with a working publisher; as written the send raises earlier, which
   * leaves the conversation as it was all the same).
   */
  method SubscribeLeavesConversation(db: Services.Database, store: Streams.RedisStore, contextId: string, message: Json.Value,
                                     rid: Schemas.RpcId, iso: nat -> string, taskHex: string, msgHex: string, dataHex: string)
    returns (resp: Schemas.JsonRpcResponse)
    requires db.Valid() && store.Valid() && contextId in db.conversations
    requires Services.UuidHex(taskHex) && Services.UuidHex(msgHex) && Services.UuidHex(dataHex)
    modifies db, store
    ensures contextId in db.conversations && db.conversations[contextId] == old(db.conversations[contextId])
    ensures Schemas.ConversationFromOrm(old(db.conversations[contextId])).isStreaming
        == Schemas.ConversationFromOrm(db.conversations[contextId]).isStreaming
  {
    var params := map["message" := message, "contextId" := Json.Str(contextId)];
    resp := HandleRpc(db, store, Schemas.JsonRpcRequest("tasks/sendSubscribe", Some(params), rid), iso, taskHex, msgHex, dataHex);
  }

  // ------------------------------------------------ the task event stream

  /** The one event of the stream of an unknown task. */
  function NotFoundEvent(taskId: string): Json.Dict {
    map["type" := Json.Str("error"), "code" := Json.Str("TASK_NOT_FOUND"),
        "message" := Json.Str("Task " + taskId + " not found")]
  }

  /** The snapshot a stream opens with while its task is still running. */
  function Snapshot(t: Schemas.Task, iso: nat -> string): Json.Dict {
    map["type" := Json.Str("task." + t.status.state), "task" := Json.Obj(Schemas.TaskDump(t, iso))]
  }

  /** `event.get("type") in [f"task.{s}" for s in TERMINAL_STATES]` */
  predicate EndsStream(event: Json.Dict) {
    var t := Json.GetOr(event, "type", Json.Null);
    t.Str? && Handlers.TerminalState(t.s).Some?
  }

  /** An event ends the stream exactly when its type is `task.` followed by a terminal state. */
  lemma EndsStreamIff(event: Json.Dict, state: string)
    ensures Json.GetOr(event, "type", Json.Null) == Json.Str(Handlers.TASK_PREFIX + state) && state in Handlers.TERMINAL_STATES
            ==> EndsStream(event)
    ensures EndsStream(event) ==> var t := Json.GetOr(event, "type", Json.Null).s;
      Handlers.TerminalState(t).value in Handlers.TERMINAL_STATES && t == Handlers.TASK_PREFIX + Handlers.TerminalState(t).value
  {
    Handlers.TerminalStateIff(Handlers.TASK_PREFIX + state, state);
  }

  /** Where the generator is: before its lookup of the task, forwarding events, or done. */
  datatype Phase = Lookup | Forward | Done

  /** The generator's phase and the state of the subscription it forwards. */
  datatype StreamState = StreamState(phase: Phase, sub: Events.SubState)

  /** What one pass of the generator gives its client: a frame, nothing yet, the end, or an error. */
  datatype Out = Sent(text: string) | Quiet | Ended | Failed(error: Exception)

  /** The frame of a forwarded entry, with the entry's id as the event id. */
  function EntryFrame(e: Streams.Entry, dumps: Json.Value -> string): string {
    Sse.Frame(Events.Tagged(e), Some(Streams.IdString(e.id)), dumps)
  }

  /**
   * One pass of `generate`. The first pass looks the task up: an unknown
   * task gets the not-found event and the stream ends; a task that is not
   * in a terminal state gets its snapshot; a terminal task gets nothing
   * yet. Each later pass is one pass of the subscription: an entry is sent
   * as a frame, and the stream ends right after an entry whose type names
   * a terminal state, or when the subscription ends or raises.
   */
  function StreamStep(st: StreamState, tasks: Models.TaskTable, taskId: string, lastEventId: Option<string>, key: string,
                      streams: map<string, Streams.Stream>, down: bool, dumps: Json.Value -> string, iso: nat -> string)
    : (r: (StreamState, Out))
    ensures st.phase.Done? ==> r == (st, Ended)
    ensures st.phase.Lookup? ==> r.0.sub == st.sub && (r.0.phase.Done? <==> taskId !in tasks)
    ensures r.1.Ended? || r.1.Failed? ==> r.0.phase.Done?
    ensures st.phase.Forward? && r.1.Sent? ==> exists e :: Events.SubStep(st.sub, lastEventId, key, streams, down).1 == Events.Event(e)
  {
    match st.phase
    case Done => (st, Ended)
    case Lookup =>
      if taskId !in tasks then (st.(phase := Done), Sent(Sse.Frame(NotFoundEvent(taskId), None, dumps)))
      else
        var t := Schemas.TaskFromOrm(tasks[taskId]);
        if t.status.state !in Handlers.TERMINAL_STATES then (st.(phase := Forward), Sent(Sse.Frame(Snapshot(t, iso), None, dumps)))
        else (st.(phase := Forward), Quiet)
    case Forward =>
      var step := Events.SubStep(st.sub, lastEventId, key, streams, down);
      match step.1
      case Event(e) =>
        (StreamState(if EndsStream(Events.Tagged(e)) then Done else Forward, step.0), Sent(EntryFrame(e, dumps)))
      case Idle => (StreamState(Forward, step.0), Quiet)
      case Finished => (StreamState(Done, step.0), Ended)
      case Raised(err) => (StreamState(Done, step.0), Failed(err))
  }

  /**
   * The passes of the generator over a sequence of store states, one per
   * pass; `tasks` is the task table at the first pass.
   */
  function StreamTrace(st: StreamState, tasks: Models.TaskTable, taskId: string, lastEventId: Option<string>, key: string,
                       world: seq<(map<string, Streams.Stream>, bool)>, dumps: Json.Value -> string, iso: nat -> string)
    : (r: (StreamState, seq<Out>))
    ensures |r.1| == |world|
    decreases |world|
  {
    if world == [] then (st, [])
    else
      var step := StreamStep(st, tasks, taskId, lastEventId, key, world[0].0, world[0].1, dumps, iso);
      var tail := StreamTrace(step.0, tasks, taskId, lastEventId, key, world[1..], dumps, iso);
      (tail.0, [step.1] + tail.1)
  }

  /** `k` passes that each report the end. */
  function Ends(k: nat): (r: seq<Out>)
    ensures |r| == k && forall i :: 0 <= i < k ==> r[i] == Ended
  {
    seq(k, _ => Ended)
  }

  /** What the client sees of one pass of the subscription. */
  function ForwardOut(y: Events.Yield, dumps: Json.Value -> string): Out {
    match y
    case Event(e) => Sent(EntryFrame(e, dumps))
    case Idle => Quiet
    case Finished => Ended
    case Raised(err) => Failed(err)
  }

  /** After this pass of the subscription, the generator does not read it again. */
  predicate Stops(y: Events.Yield) {
    y.Finished? || y.Raised? || (y.Event? && EndsStream(Events.Tagged(y.entry)))
  }

  /**
   * What the client sees of a sequence of passes of the subscription: each
   * pass as `ForwardOut` says, up to and including the first that stops
   * the generator, and the end from then on.
   */
  function ForwardOuts(ys: seq<Events.Yield>, dumps: Json.Value -> string): (r: seq<Out>)
    ensures |r| == |ys|
    decreases |ys|
  {
    if ys == [] then []
    else if Stops(ys[0]) then [ForwardOut(ys[0], dumps)] + Ends(|ys| - 1)
    else [ForwardOut(ys[0], dumps)] + ForwardOuts(ys[1..], dumps)
  }

  /** Once done, the generator only reports the end. */
  lemma {:induction false} DoneTrace(st: StreamState, tasks: Models.TaskTable, taskId: string, lastEventId: Option<string>,
                                      key: string, world: seq<(map<string, Streams.Stream>, bool)>,
                                      dumps: Json.Value -> string, iso: nat -> string)
    requires st.phase == Done
    ensures StreamTrace(st, tasks, taskId, lastEventId, key, world, dumps, iso) == (st, Ends(|world|))
    decreases |world|
  {
    if world != [] {
      DoneTrace(st, tasks, taskId, lastEventId, key, world[1..], dumps, iso);
      assert [Ended] + Ends(|world| - 1) == Ends(|world|);
    }
  }

  /**
   * While forwarding, the generator shows its client exactly the passes of
   * the subscription, up to the first that stops it, and then the end.
   */
  lemma {:induction false} ForwardTrace(sub: Events.SubState, tasks: Models.TaskTable, taskId: string,
                                         lastEventId: Option<string>, key: string,
                                         world: seq<(map<string, Streams.Stream>, bool)>,
                                         dumps: Json.Value -> string, iso: nat -> string)
    ensures StreamTrace(StreamState(Forward, sub), tasks, taskId, lastEventId, key, world, dumps, iso).1
         == ForwardOuts(Events.SubTrace(sub, lastEventId, key, world).1, dumps)
    decreases |world|
  {
    if world != [] {
      var step := Events.SubStep(sub, lastEventId, key, world[0].0, world[0].1);
      var ys := Events.SubTrace(sub, lastEventId, key, world).1;
      assert ys == [step.1] + Events.SubTrace(step.0, lastEventId, key, world[1..]).1;
      if Stops(step.1) {
        DoneTrace(StreamState(Done, step.0), tasks, taskId, lastEventId, key, world[1..], dumps, iso);
      } else {
        ForwardTrace(step.0, tasks, taskId, lastEventId, key, world[1..], dumps, iso);
      }
    }
  }

  /**
   * The whole stream of a task, pass by pass: for an unknown task, the
   * not-found event and then the end; for a stored task, its snapshot
   * when it is not in a terminal state (nothing otherwise), then the
   * subscription's entries as frames up to and including the first one
   * whose type names a terminal state.
   */
  lemma StreamCases(sub: Events.SubState, tasks: Models.TaskTable, taskId: string, lastEventId: Option<string>, key: string,
                    world: seq<(map<string, Streams.Stream>, bool)>, dumps: Json.Value -> string, iso: nat -> string)
    requires world != []
    ensures var outs := StreamTrace(StreamState(Lookup, sub), tasks, taskId, lastEventId, key, world, dumps, iso).1;
      && (taskId !in tasks ==> outs == [Sent(Sse.Frame(NotFoundEvent(taskId), None, dumps))] + Ends(|world| - 1))
      && (taskId in tasks ==>
            var t := Schemas.TaskFromOrm(tasks[taskId]);
            && outs[0] == (if t.status.state in Handlers.TERMINAL_STATES then Quiet else Sent(Sse.Frame(Snapshot(t, iso), None, dumps)))
            && outs[1..] == ForwardOuts(Events.SubTrace(sub, lastEventId, key, world[1..]).1, dumps))
  {
    var step := StreamStep(StreamState(Lookup, sub), tasks, taskId, lastEventId, key, world[0].0, world[0].1, dumps, iso);
    if taskId !in tasks {
      DoneTrace(step.0, tasks, taskId, lastEventId, key, world[1..], dumps, iso);
    } else {
      ForwardTrace(sub, tasks, taskId, lastEventId, key, world[1..], dumps, iso);
    }
  }

  /** The stream of an unknown task is one `error` event, with no id, naming the task. */
  lemma NotFoundFrame(taskId: string, dumps: Json.Value -> string)
    ensures Sse.EventName(NotFoundEvent(taskId)) == "error"
    ensures Sse.Frame(NotFoundEvent(taskId), None, dumps)
         == Text.Join(["event: error"] + Sse.DataLines(Text.Split(dumps(Json.Obj(NotFoundEvent(taskId))), '\n')) + [""], Sse.NL) + Sse.NL
  {
    var ds := Sse.DataLines(Text.Split(dumps(Json.Obj(NotFoundEvent(taskId))), '\n'));
    assert "event: " + Sse.EventName(NotFoundEvent(taskId)) == "event: error";
    assert Sse.IdLines(None) == [];
    assert Sse.FrameLines(NotFoundEvent(taskId), None, dumps(Json.Obj(NotFoundEvent(taskId)))) == [] + ["event: error"] + ds + [""];
    assert [] + ["event: error"] + ds + [""] == ["event: error"] + ds + [""];
  }

  /** A snapshot is named by the task's state; a forwarded entry carries its id and the type it was published with. */
  lemma FrameNames(t: Schemas.Task, iso: nat -> string, e: Streams.Entry)
    ensures Sse.EventName(Snapshot(t, iso)) == "task." + t.status.state
    ensures Sse.IdLines(Some(Streams.IdString(e.id))) == ["id: " + Streams.IdString(e.id)]
    ensures Sse.EventName(Events.Tagged(e)) == Json.Display(Json.GetOr(e.data, "type", Json.Str("message")))
  {
    assert Streams.IdString(e.id) != "" by {
      assert |Streams.IdString(e.id)| >= 1;
    }
  }

  /**
   * `stream_task`'s generator for one task: it reads the task table once,
   * then forwards its subscription to the task's stream.
   */
  class TaskStream {
    const db: Services.Database
    const sub: Events.Subscription
    const taskId: string
    const dumps: Json.Value -> string
    const iso: nat -> string
    var phase: Phase

    /** The subscription is created unstarted: it reads nothing until its first pass. */
    constructor (db: Services.Database, subscriber: Events.EventSubscriber, taskId: string, lastEventId: Option<string>,
                 dumps: Json.Value -> string, iso: nat -> string)
      ensures this.db == db && this.taskId == taskId && this.dumps == dumps && this.iso == iso && phase == Lookup
      ensures fresh(sub) && sub.owner == subscriber && sub.key == Events.StreamKey(subscriber.prefix, taskId)
      ensures sub.lastEventId == lastEventId && !sub.started && !sub.finished && sub.batch == []
    {
      var g := subscriber.Subscribe(taskId, lastEventId);
      this.db := db;
      this.sub := g;
      this.taskId := taskId;
      this.dumps := dumps;
      this.iso := iso;
      phase := Lookup;
    }

    function State(): StreamState
      reads this, sub, sub.owner
    {
      StreamState(phase, sub.State())
    }

    /** One pass of the generator against the tables and the store as they are now. */
    method Next() returns (out: Out)
      modifies this, sub, sub.owner
      ensures (State(), out) == StreamStep(old(State()), db.tasks, taskId, sub.lastEventId, sub.key,
                                           sub.owner.store.streams, sub.owner.store.down, dumps, iso)
    {
      match phase {
        case Done =>
          return Ended;
        case Lookup =>
          var task := db.GetTask(taskId);
          if task.None? {
            phase := Done;
            return Sent(Sse.Frame(NotFoundEvent(taskId), None, dumps));
          }
          phase := Forward;
          var state := task.value.status.state;
          if state !in Handlers.TERMINAL_STATES {
            return Sent(Sse.Frame(Snapshot(task.value, iso), None, dumps));
          }
          return Quiet;
        case Forward =>
          var y := sub.Next();
          match y {
            case Event(e) =>
              var event := Events.Tagged(e);
              out := Sent(Sse.Frame(event, Some(Streams.IdString(e.id)), dumps));
              if EndsStream(event) {
                phase := Done;
              }
            case Idle =>
              out := Quiet;
            case Finished =>
              phase := Done;
              out := Ended;
            case Raised(_) =>
              assert false;
          }
      }
    }
  }
}
