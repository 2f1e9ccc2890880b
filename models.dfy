/**
 * The two database tables: `a2a_tasks` (one row per A2A task) and the
 * conversations that group tasks by context. A row is a datatype whose
 * constructor defaults are the column defaults; a table is a map keyed by
 * the unique column, and inserting a second row under a key that is taken
 * is an integrity error. `None` in a nullable column is SQL NULL.
 */
module Models {
  import opened Wrappers
  import opened Errors
  import Json

  /** The default of `status_state`. */
  const SUBMITTED: string := "submitted"

  /**
   * An `A2ATask` row. `history`, `artifacts` and `metadata` are JSON columns
   * holding a list, a list and a dict (`metadata` may be NULL); the two
   * timestamps are filled when the row is first saved.
   */
  datatype TaskRecord = TaskRecord(
    taskId: string,
    contextId: Option<string> := None,
    statusState: string := SUBMITTED,
    statusMessage: Json.Value := Json.Null,
    history: Option<seq<Json.Value>> := Some([]),
    artifacts: Option<seq<Json.Value>> := Some([]),
    metadata: Option<Json.Dict> := Some(map[]),
    createdAt: Option<nat> := None,
    updatedAt: Option<nat> := None)

  /** A `Conversation` row; `is_streaming` defaults to false. */
  datatype ConversationRecord = ConversationRecord(
    contextId: string,
    agentId: string,
    metadata: Option<Json.Dict> := Some(map[]),
    isStreaming: bool := false,
    streamUrl: Option<string> := None,
    createdAt: Option<nat> := None,
    updatedAt: Option<nat> := None)

  /** `xs or []` for a list column. */
  function OrEmpty(xs: Option<seq<Json.Value>>): (r: seq<Json.Value>)
    ensures xs.Some? ==> r == xs.value
    ensures xs.None? ==> r == []
  {
    if xs.Some? then xs.value else []
  }

  /** `d or {}` for a dict column. */
  function OrEmptyDict(d: Option<Json.Dict>): (r: Json.Dict)
    ensures d.Some? ==> r == d.value
    ensures d.None? ==> r == map[]
  {
    if d.Some? then d.value else map[]
  }

  type TaskTable = map<string, TaskRecord>
  type ConversationTable = map<string, ConversationRecord>

  /** Every row is filed under its own unique key. */
  predicate TasksKeyed(table: TaskTable) {
    forall k :: k in table ==> table[k].taskId == k
  }

  predicate ConversationsKeyed(table: ConversationTable) {
    forall k :: k in table ==> table[k].contextId == k
  }

  /** A row as saved at time `now`: `auto_now_add` and `auto_now` both stamp it. */
  function Stamped(r: TaskRecord, now: nat): TaskRecord {
    r.(createdAt := Some(now), updatedAt := Some(now))
  }

  function StampedConversation(c: ConversationRecord, now: nat): ConversationRecord {
    c.(createdAt := Some(now), updatedAt := Some(now))
  }

  /**
   * `A2ATask.objects.acreate(...)` at time `now`: the unique constraint on
   * `task_id` rejects a second row with a key already taken; otherwise the
   * table gains exactly the stamped row and keeps every other row.
   */
  function InsertTask(table: TaskTable, r: TaskRecord, now: nat): (res: Result<TaskTable, Exception>)
    ensures res.Err? <==> r.taskId in table
    ensures res.Err? ==> res.error.IntegrityError?
    ensures res.Ok? ==> res.value.Keys == table.Keys + {r.taskId}
    ensures res.Ok? ==> forall k :: k in table ==> res.value[k] == table[k]
    ensures res.Ok? ==> res.value[r.taskId] == Stamped(r, now)
  {
    if r.taskId in table then Err(IntegrityError("UNIQUE constraint failed: a2a_tasks.task_id"))
    else Ok(table[r.taskId := Stamped(r, now)])
  }

  /** `Conversation.objects.acreate(...)`, unique on `context_id`. */
  function InsertConversation(table: ConversationTable, c: ConversationRecord, now: nat)
    : (res: Result<ConversationTable, Exception>)
    ensures res.Err? <==> c.contextId in table
    ensures res.Err? ==> res.error.IntegrityError?
    ensures res.Ok? ==> res.value.Keys == table.Keys + {c.contextId}
    ensures res.Ok? ==> forall k :: k in table ==> res.value[k] == table[k]
    ensures res.Ok? ==> res.value[c.contextId] == StampedConversation(c, now)
  {
    if c.contextId in table then Err(IntegrityError("UNIQUE constraint failed: a2a_conversations.context_id"))
    else Ok(table[c.contextId := StampedConversation(c, now)])
  }

  /** Inserting keeps every row filed under its own key. */
  lemma InsertKeepsKeyed(tasks: TaskTable, r: TaskRecord, conversations: ConversationTable,
                         c: ConversationRecord, now: nat)
    requires TasksKeyed(tasks) && ConversationsKeyed(conversations)
    ensures InsertTask(tasks, r, now).Ok? ==> TasksKeyed(InsertTask(tasks, r, now).value)
    ensures InsertConversation(conversations, c, now).Ok? ==>
              ConversationsKeyed(InsertConversation(conversations, c, now).value)
  {
  }

  /**
   * Two creations with the same `task_id`: the first succeeds on a table
   * without it, the second raises an integrity error whatever its other
   * columns; likewise for conversations and `context_id`.
   */
  lemma SecondInsertRejected(tasks: TaskTable, a: TaskRecord, b: TaskRecord,
                             conversations: ConversationTable, c: ConversationRecord,
                             d: ConversationRecord, now: nat, later: nat)
    requires a.taskId !in tasks && b.taskId == a.taskId
    requires c.contextId !in conversations && d.contextId == c.contextId
    ensures InsertTask(tasks, a, now).Ok?
    ensures InsertTask(InsertTask(tasks, a, now).value, b, later).Err?
    ensures InsertConversation(conversations, c, now).Ok?
    ensures InsertConversation(InsertConversation(conversations, c, now).value, d, later).Err?
  {
  }

  /** `created_at.isoformat() if created_at else None`, with the formatter as a parameter. */
  function Timestamp(t: Option<nat>, iso: nat -> string): Json.Value {
    if t.Some? then Json.Str(iso(t.value)) else Json.Null
  }

  /** `A2ATask.to_dict()` */
  function ToDict(t: TaskRecord, iso: nat -> string): (d: Json.Dict)
    ensures d.Keys == {"id", "contextId", "status", "history", "artifacts", "metadata", "createdAt", "updatedAt"}
  {
    map[
      "id" := Json.Str(t.taskId),
      "contextId" := if t.contextId.Some? then Json.Str(t.contextId.value) else Json.Null,
      "status" := Json.Obj(map["state" := Json.Str(t.statusState), "message" := t.statusMessage]),
      "history" := Json.Arr(OrEmpty(t.history)),
      "artifacts" := Json.Arr(OrEmpty(t.artifacts)),
      "metadata" := Json.Obj(OrEmptyDict(t.metadata)),
      "createdAt" := Timestamp(t.createdAt, iso),
      "updatedAt" := Timestamp(t.updatedAt, iso)
    ]
  }

  /** The row with NULL collections replaced by empty ones: all that `to_dict` can tell apart. */
  function Normalized(t: TaskRecord): (n: TaskRecord)
    ensures n.history.Some? && n.artifacts.Some? && n.metadata.Some?
  {
    t.(history := Some(OrEmpty(t.history)), artifacts := Some(OrEmpty(t.artifacts)),
       metadata := Some(OrEmptyDict(t.metadata)))
  }

  /**
   * What `to_dict` shows of a row, read back from its dict: the id, the
   * context (None for NULL), the state and message under "status", and the
   * collections with NULL read as empty.
   */
  lemma ToDictFields(t: TaskRecord, iso: nat -> string)
    ensures ToDict(t, iso)["id"] == Json.Str(t.taskId)
    ensures ToDict(t, iso)["contextId"].Null? <==> t.contextId.None?
    ensures t.contextId.Some? ==> ToDict(t, iso)["contextId"] == Json.Str(t.contextId.value)
    ensures ToDict(t, iso)["status"].Obj? && ToDict(t, iso)["status"].fields.Keys == {"state", "message"}
    ensures ToDict(t, iso)["status"].fields["state"] == Json.Str(t.statusState)
    ensures ToDict(t, iso)["status"].fields["message"] == t.statusMessage
    ensures t.history.None? ==> ToDict(t, iso)["history"] == Json.Arr([])
    ensures t.artifacts.None? ==> ToDict(t, iso)["artifacts"] == Json.Arr([])
    ensures t.metadata.None? ==> ToDict(t, iso)["metadata"] == Json.Obj(map[])
    ensures ToDict(t, iso)["createdAt"].Null? <==> t.createdAt.None?
  {
  }

  /**
   * `to_dict` forgets only the difference between a NULL collection and an
   * empty one: with an injective timestamp formatter, two rows with the same
   * dict are the same row once normalised.
   */
  lemma ToDictInjective(a: TaskRecord, b: TaskRecord, iso: nat -> string)
    requires forall x: nat, y: nat :: iso(x) == iso(y) ==> x == y
    requires ToDict(a, iso) == ToDict(b, iso)
    ensures Normalized(a) == Normalized(b)
  {
    var da, db := ToDict(a, iso), ToDict(b, iso);
    assert da["contextId"] == db["contextId"];
    assert da["status"].fields["state"] == db["status"].fields["state"];
    assert da["status"].fields["message"] == db["status"].fields["message"];
    assert da["history"] == db["history"];
    assert da["artifacts"] == db["artifacts"];
    assert da["metadata"] == db["metadata"];
    assert da["createdAt"] == db["createdAt"];
    assert da["updatedAt"] == db["updatedAt"];
    if a.contextId.Some? {
      assert db["contextId"].Str?;
    }
    if a.createdAt.Some? {
      assert iso(a.createdAt.value) == iso(b.createdAt.value);
    }
    if a.updatedAt.Some? {
      assert iso(a.updatedAt.value) == iso(b.updatedAt.value);
    }
  }
}
