/**
 * The serializer types of the API (domain objects and JSON-RPC envelopes),
 * with their field defaults as constructor defaults, the two mappings from
 * database rows to API objects, the validation of request parameters
 * (`model_validate`) and the dict form of API objects (`model_dump`).
 */
module Schemas {
  import opened Wrappers
  import opened Errors
  import Json
  import Models

  /** A message part; `type` defaults to "text". */
  datatype TextPart = TextPart(text: string, partType: string := "text")

  /** A message; `messageId` defaults to None. */
  datatype Message = Message(role: string, parts: seq<TextPart>, messageId: Option<string> := None)

  datatype TaskStatus = TaskStatus(state: string, message: Option<Message> := None)

  /**
   * A task as the API returns it. The history and artifacts hold the stored
   * JSON values as they are (`task_from_orm` does not convert them).
   */
  datatype Task = Task(
    id: string,
    status: TaskStatus,
    contextId: Option<string> := None,
    history: seq<Json.Value> := [],
    artifacts: seq<Json.Value> := [],
    metadata: Json.Dict := map[],
    createdAt: Option<nat> := None,
    updatedAt: Option<nat> := None)

  datatype Conversation = Conversation(
    contextId: string,
    agentId: string,
    title: string := "",
    isStreaming: bool := false,
    taskCount: int := 0,
    createdAt: Option<nat> := None,
    updatedAt: Option<nat> := None)

  datatype ConversationDetail = ConversationDetail(
    contextId: string,
    agentId: string,
    isStreaming: bool := false,
    streamUrl: Option<string> := None,
    createdAt: Option<nat> := None,
    updatedAt: Option<nat> := None,
    tasks: seq<Task> := [],
    messages: seq<Json.Dict> := [])

  /** A JSON-RPC request id: a string, an integer, or absent. */
  datatype RpcId = NoId | StrId(s: string) | IntId(i: int)

  datatype JsonRpcError = JsonRpcError(code: int, message: string, data: Option<Json.Dict> := None)

  datatype JsonRpcRequest = JsonRpcRequest(
    rpcMethod: string,
    params: Option<Json.Dict> := None,
    id: RpcId := NoId,
    jsonrpc: string := "2.0")

  datatype JsonRpcResponse = JsonRpcResponse(
    result: Option<Json.Dict> := None,
    error: Option<JsonRpcError> := None,
    id: RpcId := NoId,
    jsonrpc: string := "2.0")

  datatype TaskSendParams = TaskSendParams(
    message: Message,
    id: Option<string> := None,
    contextId: Option<string> := None,
    metadata: Json.Dict := map[])

  datatype TaskIdParams = TaskIdParams(id: string)

  datatype TaskGetParams = TaskGetParams(id: string, historyLength: Option<int> := None)

  datatype TaskSendResponse = TaskSendResponse(id: string, contextId: string, status: TaskStatus, history: seq<Json.Value>)

  datatype TaskSubscribeResponse = TaskSubscribeResponse(task: TaskSendResponse, streamUrl: string)

  datatype CreateConversationBody = CreateConversationBody(contextId: Option<string> := None, agentId: string := "default")

  /**
   * `task_from_orm`: the API view of a task row. The status message is
   * always dropped, and NULL collections become empty ones.
   */
  function TaskFromOrm(r: Models.TaskRecord): (t: Task)
    ensures t.id == r.taskId && t.contextId == r.contextId
    ensures t.status == TaskStatus(r.statusState, None)
    ensures t.history == Models.OrEmpty(r.history) && t.artifacts == Models.OrEmpty(r.artifacts)
    ensures t.metadata == Models.OrEmptyDict(r.metadata)
    ensures t.createdAt == r.createdAt && t.updatedAt == r.updatedAt
  {
    Task(
      id := r.taskId,
      contextId := r.contextId,
      status := TaskStatus(r.statusState, message := None),
      history := Models.OrEmpty(r.history),
      artifacts := Models.OrEmpty(r.artifacts),
      metadata := Models.OrEmptyDict(r.metadata),
      createdAt := r.createdAt,
      updatedAt := r.updatedAt)
  }

  /** `conversation_from_orm(conv, task_count=0, title="")` */
  function ConversationFromOrm(c: Models.ConversationRecord, taskCount: int := 0, title: string := "")
    : (v: Conversation)
    ensures v.contextId == c.contextId && v.agentId == c.agentId && v.isStreaming == c.isStreaming
    ensures v.title == title && v.taskCount == taskCount
    ensures v.createdAt == c.createdAt && v.updatedAt == c.updatedAt
  {
    Conversation(
      contextId := c.contextId,
      agentId := c.agentId,
      title := title,
      isStreaming := c.isStreaming,
      taskCount := taskCount,
      createdAt := c.createdAt,
      updatedAt := c.updatedAt)
  }

  /**
   * The two views of a task row agree: the API task and `to_dict` carry
   * the same id, context, state and collections, and the API task of a row
   * depends on nothing `to_dict` forgets.
   */
  lemma ViewsAgree(r: Models.TaskRecord, iso: nat -> string)
    ensures Models.ToDict(r, iso)["id"] == Json.Str(TaskFromOrm(r).id)
    ensures Models.ToDict(r, iso)["status"].fields["state"] == Json.Str(TaskFromOrm(r).status.state)
    ensures Models.ToDict(r, iso)["history"] == Json.Arr(TaskFromOrm(r).history)
    ensures Models.ToDict(r, iso)["artifacts"] == Json.Arr(TaskFromOrm(r).artifacts)
    ensures Models.ToDict(r, iso)["metadata"] == Json.Obj(TaskFromOrm(r).metadata)
    ensures TaskFromOrm(Models.Normalized(r)) == TaskFromOrm(r)
  {
  }

  /** The defaults a caller obtains by leaving fields out. */
  lemma Defaults(text: string, role: string, rpcMethod: string)
    ensures TextPart(text).partType == "text"
    ensures Message(role, [TextPart(text)]).messageId.None?
    ensures JsonRpcRequest(rpcMethod).jsonrpc == "2.0" && JsonRpcRequest(rpcMethod).id == NoId
    ensures JsonRpcRequest(rpcMethod).params.None?
    ensures CreateConversationBody().agentId == "default" && CreateConversationBody().contextId.None?
    ensures TaskGetParams(text).historyLength.None?
  {
  }

  // ---------------------------------------------------------- model_dump

  /** `None` or a string, as a JSON value. */
  function OptStr(x: Option<string>): Json.Value {
    if x.Some? then Json.Str(x.value) else Json.Null
  }

  function PartDump(p: TextPart): Json.Value {
    Json.Obj(map["type" := Json.Str(p.partType), "text" := Json.Str(p.text)])
  }

  function PartDumps(ps: seq<TextPart>): (r: seq<Json.Value>)
    ensures |r| == |ps| && forall i :: 0 <= i < |ps| ==> r[i] == PartDump(ps[i])
  {
    if ps == [] then [] else PartDumps(ps[..|ps| - 1]) + [PartDump(ps[|ps| - 1])]
  }

  function MessageDump(m: Message): Json.Value {
    Json.Obj(map["messageId" := OptStr(m.messageId), "role" := Json.Str(m.role), "parts" := Json.Arr(PartDumps(m.parts))])
  }

  function StatusDump(s: TaskStatus): Json.Value {
    Json.Obj(map["state" := Json.Str(s.state), "message" := if s.message.Some? then MessageDump(s.message.value) else Json.Null])
  }

  /** `task.model_dump()`, with the datetime formatter as a parameter. */
  function TaskDump(t: Task, iso: nat -> string): (d: Json.Dict)
    ensures d.Keys == {"id", "contextId", "status", "history", "artifacts", "metadata", "createdAt", "updatedAt"}
  {
    map[
      "id" := Json.Str(t.id),
      "contextId" := OptStr(t.contextId),
      "status" := StatusDump(t.status),
      "history" := Json.Arr(t.history),
      "artifacts" := Json.Arr(t.artifacts),
      "metadata" := Json.Obj(t.metadata),
      "createdAt" := Models.Timestamp(t.createdAt, iso),
      "updatedAt" := Models.Timestamp(t.updatedAt, iso)
    ]
  }

  /**
   * The API view of a row dumps to the row's own `to_dict` except under
   * "status", where the view has no message; the state is the same.
   */
  lemma DumpMatchesToDict(r: Models.TaskRecord, iso: nat -> string)
    ensures var d, e := TaskDump(TaskFromOrm(r), iso), Models.ToDict(r, iso);
      && (forall k :: k in e && k != "status" ==> d[k] == e[k])
      && d["status"] == Json.Obj(e["status"].fields["message" := Json.Null])
  {
    var d, e := TaskDump(TaskFromOrm(r), iso), Models.ToDict(r, iso);
    assert e["status"].fields["message" := Json.Null] == map["state" := Json.Str(r.statusState), "message" := Json.Null];
  }

  // ------------------------------------------------------ model_validate

  /**
   * What `model_validate` raises on a dict of the wrong shape. Validation
   * errors are not `ValueError`s; the message names the offending field.
   */
  function Missing(field: string): Exception {
    ValidationError("Object missing required field `" + field + "`")
  }

  function Invalid(field: string): Exception {
    ValidationError("Invalid value at `$." + field + "`")
  }

  /** A required `str` field. */
  function RequiredString(d: Json.Dict, key: string): (r: Result<string, Exception>)
    ensures r.Ok? <==> key in d && d[key].Str?
    ensures r.Ok? ==> r.value == d[key].s
    ensures r.Err? ==> r.error.ValidationError?
  {
    if key !in d then Err(Missing(key)) else if d[key].Str? then Ok(d[key].s) else Err(Invalid(key))
  }

  /** A `str` field with a default. */
  function StringOr(d: Json.Dict, key: string, default: string): (r: Result<string, Exception>)
    ensures r.Ok? <==> key !in d || d[key].Str?
    ensures r.Ok? ==> r.value == if key in d then d[key].s else default
    ensures r.Err? ==> r.error.ValidationError?
  {
    if key !in d then Ok(default) else if d[key].Str? then Ok(d[key].s) else Err(Invalid(key))
  }

  /** A `str | None = None` field. */
  function OptionalString(d: Json.Dict, key: string): (r: Result<Option<string>, Exception>)
    ensures r.Ok? <==> key !in d || d[key].Null? || d[key].Str?
    ensures r.Ok? ==> r.value == if key in d && d[key].Str? then Some(d[key].s) else None
    ensures r.Err? ==> r.error.ValidationError?
  {
    if key !in d || d[key].Null? then Ok(None) else if d[key].Str? then Ok(Some(d[key].s)) else Err(Invalid(key))
  }

  function ParsePart(v: Json.Value): (r: Result<TextPart, Exception>)
    ensures r.Err? ==> r.error.ValidationError?
  {
    if !v.Obj? then Err(Invalid("parts"))
    else
      var text :- RequiredString(v.fields, "text");
      var partType :- StringOr(v.fields, "type", "text");
      Ok(TextPart(text, partType))
  }

  /** A list of parts is valid when every item is; the parts are parsed in order. */
  function ParseParts(vs: seq<Json.Value>): (r: Result<seq<TextPart>, Exception>)
    ensures r.Ok? <==> forall i :: 0 <= i < |vs| ==> ParsePart(vs[i]).Ok?
    ensures r.Ok? ==> |r.value| == |vs| && forall i :: 0 <= i < |vs| ==> Ok(r.value[i]) == ParsePart(vs[i])
    ensures r.Err? ==> r.error.ValidationError?
  {
    if vs == [] then Ok([])
    else
      var init := ParseParts(vs[..|vs| - 1]);
      var last := ParsePart(vs[|vs| - 1]);
      if init.Err? then Err(init.error)
      else if last.Err? then Err(last.error)
      else Ok(init.value + [last.value])
  }

  function ParseMessage(v: Json.Value): (r: Result<Message, Exception>)
    ensures r.Err? ==> r.error.ValidationError?
  {
    if !v.Obj? then Err(Invalid("message"))
    else
      var messageId :- OptionalString(v.fields, "messageId");
      var role :- RequiredString(v.fields, "role");
      if "parts" !in v.fields then Err(Missing("parts"))
      else if !v.fields["parts"].Arr? then Err(Invalid("parts"))
      else
        var parts :- ParseParts(v.fields["parts"].items);
        Ok(Message(role, parts, messageId))
  }

  /** `TaskSendParams.model_validate(params)`; keys it does not declare are ignored. */
  function ParseTaskSendParams(d: Json.Dict): (r: Result<TaskSendParams, Exception>)
    ensures r.Err? ==> r.error.ValidationError?
    ensures r.Ok? ==> "message" in d && ParseMessage(d["message"]) == Ok(r.value.message)
  {
    var id :- OptionalString(d, "id");
    var contextId :- OptionalString(d, "contextId");
    if "message" !in d then Err(Missing("message"))
    else
      var message :- ParseMessage(d["message"]);
      if "metadata" in d && !d["metadata"].Obj? then Err(Invalid("metadata"))
      else Ok(TaskSendParams(message, id, contextId, if "metadata" in d then d["metadata"].fields else map[]))
  }

  function ParseTaskIdParams(d: Json.Dict): (r: Result<TaskIdParams, Exception>)
    ensures r.Ok? <==> "id" in d && d["id"].Str?
    ensures r.Ok? ==> r.value.id == d["id"].s
    ensures r.Err? ==> r.error.ValidationError?
  {
    var id :- RequiredString(d, "id");
    Ok(TaskIdParams(id))
  }

  /** `historyLength` is an integer or None; a boolean is not an integer here. */
  function ParseTaskGetParams(d: Json.Dict): (r: Result<TaskGetParams, Exception>)
    ensures r.Ok? <==> "id" in d && d["id"].Str? && ("historyLength" !in d || d["historyLength"].Null? || d["historyLength"].Int?)
    ensures r.Ok? ==> r.value.id == d["id"].s
    ensures r.Ok? ==> r.value.historyLength == if "historyLength" in d && d["historyLength"].Int? then Some(d["historyLength"].i) else None
    ensures r.Err? ==> r.error.ValidationError?
  {
    var id :- RequiredString(d, "id");
    if "historyLength" !in d || d["historyLength"].Null? then Ok(TaskGetParams(id, None))
    else if d["historyLength"].Int? then Ok(TaskGetParams(id, Some(d["historyLength"].i)))
    else Err(Invalid("historyLength"))
  }

  /** The dict form of a parameter object, as a client sends it. */
  function SendParamsDump(p: TaskSendParams): Json.Dict {
    map["id" := OptStr(p.id), "contextId" := OptStr(p.contextId), "message" := MessageDump(p.message),
        "metadata" := Json.Obj(p.metadata)]
  }

  lemma ParsePartDump(p: TextPart)
    ensures ParsePart(PartDump(p)) == Ok(p)
  {
  }

  /** Validation reads back what dumping wrote: messages and send parameters. */
  lemma ParseMessageDump(m: Message)
    ensures ParseMessage(MessageDump(m)) == Ok(m)
  {
    var ds := PartDumps(m.parts);
    forall i | 0 <= i < |ds| ensures ParsePart(ds[i]) == Ok(m.parts[i]) {
      ParsePartDump(m.parts[i]);
    }
    assert ParseParts(ds).value == m.parts;
  }

  lemma ParseSendParamsDump(p: TaskSendParams)
    ensures ParseTaskSendParams(SendParamsDump(p)) == Ok(p)
  {
    ParseMessageDump(p.message);
  }

  /** Unknown keys are ignored, and a missing message is refused. */
  lemma SendParamsExamples(m: Message, key: string, v: Json.Value)
    requires key !in {"id", "contextId", "message", "metadata"}
    ensures ParseTaskSendParams(map["message" := MessageDump(m), key := v]) == Ok(TaskSendParams(m))
    ensures ParseTaskSendParams(map[key := v]) == Err(Missing("message"))
  {
    ParseMessageDump(m);
  }
}
