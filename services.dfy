/**
 * The business-logic layer over the two tables: task creation and
 * updates, lookups by id and by context, and the conversation listing,
 * detail view, get-or-create and delete.
 *
 * The database is a class holding both tables. Besides the tables it keeps
 * the keys of each table in insertion order and a clock that stamps every
 * inserted row with a later instant than the rows before it; `Valid` says
 * the order and the stamps agree, so ordering by `created_at` (tasks) or by
 * `updated_at` (conversations, which this layer never saves twice) is
 * ordering by position in that sequence.
 */
module Services {
  import opened Wrappers
  import opened Errors
  import Text
  import Json
  import opened Models
  import Schemas

  /** The title of a conversation whose first message has no text. */
  const NEW_CONVERSATION: string := "New Conversation"

  /** A title keeps at most this many characters of the first message. */
  const TITLE_LENGTH: int := 50

  /** The default `limit` of `get_by_context`. */
  const CONTEXT_LIMIT: int := 100

  /** The default agent of a new conversation. */
  const DEFAULT_AGENT: string := "default"

  // ---------------------------------------------------------------- ids

  predicate IsHexDigit(c: char) { '0' <= c <= '9' || 'a' <= c <= 'f' }

  /** `uuid.uuid4().hex`: 32 lower-case hexadecimal digits. */
  predicate UuidHex(h: string) {
    |h| == 32 && forall i :: 0 <= i < |h| ==> IsHexDigit(h[i])
  }

  /** `prefix + hex[:8]` */
  function ShortId(prefix: string, hex: string): (id: string)
    requires UuidHex(hex)
    ensures |id| == |prefix| + 8 && Text.StartsWith(id, prefix)
    ensures forall i :: |prefix| <= i < |id| ==> IsHexDigit(id[i])
  {
    prefix + hex[..8]
  }

  /** `x or default` for an optional string: None and "" both give the default. */
  function OrString(x: Option<string>, default: string): (r: string)
    ensures x.Some? && x.value != "" ==> r == x.value
    ensures x.None? || x.value == "" ==> r == default
  {
    if x.Some? && x.value != "" then x.value else default
  }

  // ---------------------------------------------------------- sequences

  function Reverse<T>(s: seq<T>): (r: seq<T>)
    ensures |r| == |s| && forall i :: 0 <= i < |s| ==> r[i] == s[|s| - 1 - i]
  {
    if s == [] then [] else Reverse(s[1..]) + [s[0]]
  }

  /** No key listed twice. */
  predicate Distinct(s: seq<string>) {
    forall i, j :: 0 <= i < j < |s| ==> s[i] != s[j]
  }

  /** `order` lists exactly the keys `keys`, each once. */
  predicate Lists(order: seq<string>, keys: set<string>) {
    Distinct(order) && (forall k :: k in keys ==> k in order) && (forall i :: 0 <= i < |order| ==> order[i] in keys)
  }

  /** The keys of `order` outside `drop`, in their order. */
  function RemoveAll(order: seq<string>, drop: set<string>): (r: seq<string>)
    ensures forall k :: k in r <==> k in order && k !in drop
  {
    if order == [] then []
    else if order[0] in drop then RemoveAll(order[1..], drop)
    else [order[0]] + RemoveAll(order[1..], drop)
  }

  /** `f` increases strictly along `order`. */
  predicate IncreasingBy(order: seq<string>, f: string -> int) {
    forall i, j :: 0 <= i < j < |order| ==> f(order[i]) < f(order[j])
  }

  /**
   * Removing keys keeps the remaining ones distinct and in increasing
   * order of any measure that agrees with `f` on them.
   */
  lemma {:induction false} RemoveAllKeepsOrder(order: seq<string>, drop: set<string>, f: string -> int, g: string -> int)
    requires Distinct(order) && IncreasingBy(order, f)
    requires forall k :: k in order && k !in drop ==> g(k) == f(k)
    ensures Distinct(RemoveAll(order, drop)) && IncreasingBy(RemoveAll(order, drop), g)
  {
    if order != [] {
      var rest := RemoveAll(order[1..], drop);
      TailKeepsOrder(order, f);
      RemoveAllKeepsOrder(order[1..], drop, f, g);
      if order[0] !in drop {
        forall j | 0 <= j < |rest| ensures order[0] != rest[j] && g(order[0]) < g(rest[j]) {
          assert rest[j] in rest;
          HeadBeforeRest(order, f, rest[j]);
        }
        ConsKeepsOrder(order[0], rest, g);
      }
    }
  }

  lemma TailKeepsOrder(order: seq<string>, f: string -> int)
    requires order != [] && Distinct(order) && IncreasingBy(order, f)
    ensures Distinct(order[1..]) && IncreasingBy(order[1..], f)
  {
    forall i, j | 0 <= i < j < |order[1..]|
      ensures order[1..][i] != order[1..][j] && f(order[1..][i]) < f(order[1..][j])
    {
      assert order[1..][i] == order[i + 1] && order[1..][j] == order[j + 1];
    }
  }

  lemma HeadBeforeRest(order: seq<string>, f: string -> int, k: string)
    requires order != [] && Distinct(order) && IncreasingBy(order, f) && k in order[1..]
    ensures order[0] != k && f(order[0]) < f(k)
  {
    var m :| 0 <= m < |order[1..]| && order[1..][m] == k;
    assert order[m + 1] == k;
  }

  lemma ConsKeepsOrder(x: string, rest: seq<string>, g: string -> int)
    requires Distinct(rest) && IncreasingBy(rest, g)
    requires forall j :: 0 <= j < |rest| ==> x != rest[j] && g(x) < g(rest[j])
    ensures Distinct([x] + rest) && IncreasingBy([x] + rest, g)
  {
    var r := [x] + rest;
    forall i, j | 0 <= i < j < |r| ensures r[i] != r[j] && g(r[i]) < g(r[j]) {
      assert r[j] == rest[j - 1];
      if i > 0 {
        assert r[i] == rest[i - 1];
      }
    }
  }

  // --------------------------------------------------------- the tables

  /** When a stored task was created (-1 for a key with no stamped row). */
  function CreatedAt(tasks: TaskTable, id: string): int {
    if id in tasks && tasks[id].createdAt.Some? then tasks[id].createdAt.value else -1
  }

  /** When a stored conversation was last saved (-1 for a key with no stamped row). */
  function UpdatedAt(conversations: ConversationTable, id: string): int {
    if id in conversations && conversations[id].updatedAt.Some? then conversations[id].updatedAt.value else -1
  }

  /** Tasks listed in order of creation. */
  predicate TasksChronological(tasks: TaskTable, order: seq<string>) {
    forall i, j :: 0 <= i < j < |order| ==> CreatedAt(tasks, order[i]) < CreatedAt(tasks, order[j])
  }

  /** Conversations listed in order of their last save. */
  predicate ConversationsChronological(conversations: ConversationTable, order: seq<string>) {
    forall i, j :: 0 <= i < j < |order| ==> UpdatedAt(conversations, order[i]) < UpdatedAt(conversations, order[j])
  }

  /** The task table keyed, listed in insertion order, and stamped before `clock` in that order. */
  predicate TasksConsistent(tasks: TaskTable, order: seq<string>, clock: nat) {
    && TasksKeyed(tasks) && Lists(order, tasks.Keys) && TasksChronological(tasks, order)
    && (forall id :: id in tasks ==> 0 <= CreatedAt(tasks, id) < clock)
  }

  /** The conversation table keyed, listed in insertion order, and stamped before `clock` in that order. */
  predicate ConversationsConsistent(conversations: ConversationTable, order: seq<string>, clock: nat) {
    && ConversationsKeyed(conversations) && Lists(order, conversations.Keys)
    && ConversationsChronological(conversations, order)
    && (forall id :: id in conversations ==> 0 <= UpdatedAt(conversations, id) < clock)
  }

  predicate Consistent(tasks: TaskTable, taskOrder: seq<string>, conversations: ConversationTable,
                       convOrder: seq<string>, clock: nat)
  {
    TasksConsistent(tasks, taskOrder, clock) && ConversationsConsistent(conversations, convOrder, clock)
  }

  /** A row inserted under a fresh key and stamped with the clock keeps the task table consistent. */
  lemma InsertTaskConsistent(tasks: TaskTable, order: seq<string>, clock: nat, row: TaskRecord)
    requires TasksConsistent(tasks, order, clock) && row.taskId !in tasks
    ensures TasksConsistent(tasks[row.taskId := Stamped(row, clock)], order + [row.taskId], clock + 1)
  {
    var after := tasks[row.taskId := Stamped(row, clock)];
    var order' := order + [row.taskId];
    assert forall k :: k in tasks ==> CreatedAt(after, k) == CreatedAt(tasks, k);
    forall i, j | 0 <= i < j < |order'|
      ensures CreatedAt(after, order'[i]) < CreatedAt(after, order'[j])
    {
      assert order'[i] == order[i] && order[i] in tasks;
      if j < |order| {
        assert order'[j] == order[j];
      }
    }
  }

  lemma InsertConversationConsistent(conversations: ConversationTable, order: seq<string>, clock: nat,
                                     c: ConversationRecord)
    requires ConversationsConsistent(conversations, order, clock) && c.contextId !in conversations
    ensures ConversationsConsistent(conversations[c.contextId := StampedConversation(c, clock)],
                                    order + [c.contextId], clock + 1)
  {
    var after := conversations[c.contextId := StampedConversation(c, clock)];
    var order' := order + [c.contextId];
    assert forall k :: k in conversations ==> UpdatedAt(after, k) == UpdatedAt(conversations, k);
    forall i, j | 0 <= i < j < |order'|
      ensures UpdatedAt(after, order'[i]) < UpdatedAt(after, order'[j])
    {
      assert order'[i] == order[i] && order[i] in conversations;
      if j < |order| {
        assert order'[j] == order[j];
      }
    }
  }

  /** Replacing a row by one with the same key and creation stamp keeps the task table consistent. */
  lemma ReplaceTaskConsistent(tasks: TaskTable, order: seq<string>, clock: nat, row: TaskRecord)
    requires TasksConsistent(tasks, order, clock) && row.taskId in tasks
    requires row.createdAt == tasks[row.taskId].createdAt
    ensures TasksConsistent(tasks[row.taskId := row], order, clock)
  {
    var after := tasks[row.taskId := row];
    assert forall k :: CreatedAt(after, k) == CreatedAt(tasks, k);
    forall i, j | 0 <= i < j < |order|
      ensures CreatedAt(after, order[i]) < CreatedAt(after, order[j])
    {
      assert CreatedAt(tasks, order[i]) < CreatedAt(tasks, order[j]);
    }
  }

  /**
   * The ids of the tasks of one context, oldest first (the rows of
   * `filter(context_id=c).order_by("created_at")`).
   */
  function ContextIds(order: seq<string>, tasks: TaskTable, contextId: string): (r: seq<string>)
    ensures |r| <= |order|
    ensures forall k :: k in r <==> k in order && k in tasks && tasks[k].contextId == Some(contextId)
    ensures forall i :: 0 <= i < |r| ==> r[i] in tasks && tasks[r[i]].contextId == Some(contextId)
  {
    if order == [] then []
    else
      var rest := ContextIds(order[1..], tasks, contextId);
      if order[0] in tasks && tasks[order[0]].contextId == Some(contextId) then [order[0]] + rest else rest
  }

  /** A context's tasks keep the creation order of the whole table. */
  lemma {:induction false} ContextIdsChronological(order: seq<string>, tasks: TaskTable, contextId: string)
    requires TasksChronological(tasks, order)
    ensures TasksChronological(tasks, ContextIds(order, tasks, contextId))
  {
    if order != [] {
      var rest := ContextIds(order[1..], tasks, contextId);
      ChronologicalTail(tasks, order);
      ContextIdsChronological(order[1..], tasks, contextId);
      if order[0] in tasks && tasks[order[0]].contextId == Some(contextId) {
        ChronologicalCons(tasks, order, rest);
      }
    }
  }

  lemma ChronologicalTail(tasks: TaskTable, order: seq<string>)
    requires order != [] && TasksChronological(tasks, order)
    ensures TasksChronological(tasks, order[1..])
  {
    forall i, j | 0 <= i < j < |order[1..]|
      ensures CreatedAt(tasks, order[1..][i]) < CreatedAt(tasks, order[1..][j])
    {
      assert order[1..][i] == order[i + 1] && order[1..][j] == order[j + 1];
    }
  }

  /** The first task, put before chronological tasks drawn from the rest of the order, keeps them chronological. */
  lemma ChronologicalCons(tasks: TaskTable, order: seq<string>, rest: seq<string>)
    requires order != [] && TasksChronological(tasks, order) && TasksChronological(tasks, rest)
    requires forall k :: k in rest ==> k in order[1..]
    ensures TasksChronological(tasks, [order[0]] + rest)
  {
    var r := [order[0]] + rest;
    forall i, j | 0 <= i < j < |r|
      ensures CreatedAt(tasks, r[i]) < CreatedAt(tasks, r[j])
    {
      assert r[j] == rest[j - 1] && r[j] in order[1..];
      if i > 0 {
        assert r[i] == rest[i - 1];
      } else {
        var m :| 0 <= m < |order[1..]| && order[1..][m] == r[j];
        assert order[m + 1] == r[j];
      }
    }
  }

  /**
   * `get_by_context(c, limit)` for `limit >= 0`: at most `limit` tasks, all
   * of context `c`, newest first.
   */
  lemma ByContextNewestFirst(tasks: TaskTable, order: seq<string>, contextId: string, limit: int)
    requires TasksChronological(tasks, order) && limit >= 0
    ensures var ids := Text.PyTo(Reverse(ContextIds(order, tasks, contextId)), limit);
      && |ids| <= limit
      && (forall i :: 0 <= i < |ids| ==> ids[i] in tasks && tasks[ids[i]].contextId == Some(contextId))
      && (forall i, j :: 0 <= i < j < |ids| ==> CreatedAt(tasks, ids[i]) > CreatedAt(tasks, ids[j]))
  {
    var all := ContextIds(order, tasks, contextId);
    ContextIdsChronological(order, tasks, contextId);
    var rev := Reverse(all);
    ReversedNewestFirst(tasks, all);
    var n := if limit < |all| then limit else |all|;
    var ids := Text.PyTo(rev, limit);
    assert ids == rev[..n];
  }

  lemma ReversedNewestFirst(tasks: TaskTable, s: seq<string>)
    requires TasksChronological(tasks, s)
    ensures forall i, j :: 0 <= i < j < |s| ==> CreatedAt(tasks, Reverse(s)[i]) > CreatedAt(tasks, Reverse(s)[j])
  {
    var r := Reverse(s);
    forall i, j | 0 <= i < j < |s|
      ensures CreatedAt(tasks, r[i]) > CreatedAt(tasks, r[j])
    {
      assert r[i] == s[|s| - 1 - i] && r[j] == s[|s| - 1 - j];
    }
  }

  /** With a limit no smaller than the context's size, every task of the context is returned. */
  lemma ByContextComplete(tasks: TaskTable, order: seq<string>, contextId: string, limit: int)
    requires Lists(order, tasks.Keys) && limit >= |ContextIds(order, tasks, contextId)|
    ensures forall k :: k in tasks && tasks[k].contextId == Some(contextId) ==>
              k in Text.PyTo(Reverse(ContextIds(order, tasks, contextId)), limit)
  {
    var all := ContextIds(order, tasks, contextId);
    var ids := Text.PyTo(Reverse(all), limit);
    assert ids == Reverse(all);
    forall k | k in tasks && tasks[k].contextId == Some(contextId)
      ensures k in ids
    {
      assert k in order;
      assert k in all;
      var m :| 0 <= m < |all| && all[m] == k;
      assert ids[|all| - 1 - m] == k;
    }
  }

  /** The API view of each listed task. */
  function Views(ids: seq<string>, tasks: TaskTable): (r: seq<Schemas.Task>)
    requires forall k :: k in ids ==> k in tasks
    ensures |r| == |ids| && forall i :: 0 <= i < |ids| ==> r[i] == Schemas.TaskFromOrm(tasks[ids[i]])
  {
    if ids == [] then [] else Views(ids[..|ids| - 1], tasks) + [Schemas.TaskFromOrm(tasks[ids[|ids| - 1]])]
  }

  // ------------------------------------------------------ task creation

  /**
   * The stored form of a user message; a message without an id (or with
   * an empty one) gets `"msg-"` and eight hex digits of `hex`.
   */
  function MessageData(m: Schemas.Message, hex: string): (v: Json.Value)
    requires UuidHex(hex)
    ensures v.Obj? && v.fields.Keys == {"messageId", "role", "parts"}
    ensures v.fields["messageId"] == Json.Str(OrString(m.messageId, ShortId("msg-", hex)))
    ensures v.fields["role"] == Json.Str(m.role)
    ensures v.fields["parts"].Arr? && |v.fields["parts"].items| == |m.parts|
    ensures forall i :: 0 <= i < |m.parts| ==> v.fields["parts"].items[i] == Schemas.PartDump(m.parts[i])
  {
    Json.Obj(map[
      "messageId" := Json.Str(OrString(m.messageId, ShortId("msg-", hex))),
      "role" := Json.Str(m.role),
      "parts" := Json.Arr(Schemas.PartDumps(m.parts))
    ])
  }

  /**
   * The stored message is the message's own dump with its id filled in, so
   * validating it gives back the message with that id.
   */
  lemma MessageDataParses(m: Schemas.Message, hex: string)
    requires UuidHex(hex)
    ensures var filled := m.(messageId := Some(OrString(m.messageId, ShortId("msg-", hex))));
      && MessageData(m, hex) == Schemas.MessageDump(filled)
      && Schemas.ParseMessage(MessageData(m, hex)) == Ok(filled)
  {
    var filled := m.(messageId := Some(OrString(m.messageId, ShortId("msg-", hex))));
    Schemas.ParseMessageDump(filled);
  }

  /** The row `TaskService.create` inserts, before it is stamped. */
  function NewTask(m: Schemas.Message, contextId: Option<string>, taskHex: string, msgHex: string): (r: TaskRecord)
    requires UuidHex(taskHex) && UuidHex(msgHex)
    ensures r.taskId == ShortId("task-", taskHex)
    ensures r.contextId == Some(OrString(contextId, r.taskId))
    ensures r.statusState == SUBMITTED && r.statusMessage == Json.Null
    ensures r.history == Some([MessageData(m, msgHex)])
    ensures r.artifacts == Some([]) && r.metadata == Some(map[])
  {
    var id := ShortId("task-", taskHex);
    TaskRecord(
      taskId := id,
      contextId := Some(OrString(contextId, id)),
      statusState := SUBMITTED,
      history := Some([MessageData(m, msgHex)]),
      artifacts := Some([]),
      metadata := Some(map[]))
  }

  // ---------------------------------------------------------- the title

  /**
   * The title derived from a conversation's first task: the first 50
   * characters of the text of the first part of its first message,
   * otherwise "New Conversation". A value of the wrong shape where the
   * code calls `.get` or indexes raises as Python does.
   */
  function Title(first: Option<TaskRecord>): (r: Result<string, Exception>)
    ensures r.Ok? ==> 0 < |r.value| <= TITLE_LENGTH
    ensures first.None? ==> r == Ok(NEW_CONVERSATION)
  {
    if first.None? || first.value.history.None? || first.value.history.value == [] then Ok(NEW_CONVERSATION)
    else
      var msg := first.value.history.value[0];
      if !msg.Obj? then Err(AttributeError("object has no attribute 'get'"))
      else
        var parts := Json.GetOr(msg.fields, "parts", Json.Arr([]));
        if !Json.Truthy(parts) then Ok(NEW_CONVERSATION)
        else PartTitle(parts)
  }

  /** `parts[0].get("text", "")`, then `text[:50] if text else "New Conversation"`, for truthy `parts`. */
  function PartTitle(parts: Json.Value): (r: Result<string, Exception>)
    requires Json.Truthy(parts)
    ensures r.Ok? ==> parts.Arr? && 0 < |r.value| <= TITLE_LENGTH
  {
    match parts
    case Arr(items) =>
      if !items[0].Obj? then Err(AttributeError("object has no attribute 'get'"))
      else
        var text := Json.GetOr(items[0].fields, "text", Json.Str(""));
        if !Json.Truthy(text) then Ok(NEW_CONVERSATION)
        else if text.Str? then Ok(Text.PyTo(text.s, TITLE_LENGTH))
        else Err(TypeError("text is not a string"))
    case Str(_) => Err(AttributeError("'str' object has no attribute 'get'"))
    case Obj(_) => Err(LookupError("0"))
    case _ => Err(TypeError("object is not subscriptable"))
  }

  /** The first task of a context, by creation time. */
  function FirstTask(order: seq<string>, tasks: TaskTable, contextId: string): Option<TaskRecord> {
    var ids := ContextIds(order, tasks, contextId);
    if ids != [] && ids[0] in tasks then Some(tasks[ids[0]]) else None
  }

  /**
   * A title is a prefix of at most 50 characters of the first part's text,
   * and "New Conversation" exactly when there is no such non-empty text.
   */
  lemma TitleOfText(first: TaskRecord, msg: Json.Dict, part: Json.Dict, rest: seq<Json.Value>, text: string)
    requires first.history.Some? && first.history.value != [] && first.history.value[0] == Json.Obj(msg)
    requires Json.GetOr(msg, "parts", Json.Arr([])) == Json.Arr([Json.Obj(part)] + rest)
    requires Json.GetOr(part, "text", Json.Str("")) == Json.Str(text)
    ensures text == "" ==> Title(Some(first)) == Ok(NEW_CONVERSATION)
    ensures text != "" ==> Title(Some(first)).Ok? && Text.StartsWith(text, Title(Some(first)).value)
    ensures text != "" ==> |Title(Some(first)).value| == if |text| < TITLE_LENGTH then |text| else TITLE_LENGTH
  {
  }

  /**
   * The title of a conversation whose first task was made by
   * `TaskService.create` comes from the text of the first part of the
   * user's message.
   */
  lemma CreatedTaskTitle(m: Schemas.Message, contextId: Option<string>, taskHex: string, msgHex: string, now: nat)
    requires UuidHex(taskHex) && UuidHex(msgHex)
    ensures m.parts == [] ==> Title(Some(Stamped(NewTask(m, contextId, taskHex, msgHex), now))) == Ok(NEW_CONVERSATION)
    ensures m.parts != [] ==>
      Title(Some(Stamped(NewTask(m, contextId, taskHex, msgHex), now)))
        == Ok(if m.parts[0].text == "" then NEW_CONVERSATION else Text.PyTo(m.parts[0].text, TITLE_LENGTH))
  {
    var v := MessageData(m, msgHex);
    assert Json.GetOr(v.fields, "parts", Json.Arr([])) == v.fields["parts"];
    if m.parts != [] {
      var items := v.fields["parts"].items;
      assert items[0] == Schemas.PartDump(m.parts[0]);
    }
  }

  // ------------------------------------------------- conversation views

  /** One entry of `ConversationService.list()`. */
  function Listing(c: ConversationRecord, taskOrder: seq<string>, tasks: TaskTable)
    : Result<Schemas.Conversation, Exception>
  {
    var title :- Title(FirstTask(taskOrder, tasks, c.contextId));
    Ok(Schemas.ConversationFromOrm(c, |ContextIds(taskOrder, tasks, c.contextId)|, title))
  }

  /** The listing of the conversations `ids`: the first failure raises. */
  function Listings(ids: seq<string>, conversations: ConversationTable, taskOrder: seq<string>, tasks: TaskTable)
    : (r: Result<seq<Schemas.Conversation>, Exception>)
    requires forall k :: k in ids ==> k in conversations
    ensures r.Ok? ==> |r.value| == |ids|
    ensures r.Ok? ==> forall i :: 0 <= i < |ids| ==> Listing(conversations[ids[i]], taskOrder, tasks) == Ok(r.value[i])
  {
    if ids == [] then Ok([])
    else
      var init :- Listings(ids[..|ids| - 1], conversations, taskOrder, tasks);
      var last :- Listing(conversations[ids[|ids| - 1]], taskOrder, tasks);
      Ok(init + [last])
  }

  /** One message of a task as `get_detail` shows it. */
  function MessageView(taskId: string, msg: Json.Value): (r: Result<Json.Dict, Exception>)
    ensures r.Ok? <==> msg.Obj?
    ensures r.Ok? ==> r.value == map["task_id" := Json.Str(taskId), "role" := Json.GetOr(msg.fields, "role", Json.Null),
                                     "parts" := Json.GetOr(msg.fields, "parts", Json.Arr([]))]
  {
    if msg.Obj? then
      Ok(map["task_id" := Json.Str(taskId), "role" := Json.GetOr(msg.fields, "role", Json.Null),
             "parts" := Json.GetOr(msg.fields, "parts", Json.Arr([]))])
    else Err(AttributeError("object has no attribute 'get'"))
  }

  /** The messages of one task's history, in order. */
  function TaskMessages(taskId: string, history: seq<Json.Value>): (r: Result<seq<Json.Dict>, Exception>)
    ensures r.Ok? <==> forall k :: 0 <= k < |history| ==> history[k].Obj?
    ensures r.Ok? ==> |r.value| == |history|
    ensures r.Ok? ==> forall k :: 0 <= k < |history| ==> MessageView(taskId, history[k]) == Ok(r.value[k])
  {
    if history == [] then Ok([])
    else
      var n := |history| - 1;
      match TaskMessages(taskId, history[..n])
      case Err(e) => Err(e)
      case Ok(init) =>
        match MessageView(taskId, history[n])
        case Err(e) => Err(e)
        case Ok(last) => Ok(init + [last])
  }

  /** The messages of several tasks, task by task in the given order. */
  function Flatten(ts: seq<Schemas.Task>): Result<seq<Json.Dict>, Exception> {
    if ts == [] then Ok([])
    else
      var init :- Flatten(ts[..|ts| - 1]);
      var last :- TaskMessages(ts[|ts| - 1].id, ts[|ts| - 1].history);
      Ok(init + last)
  }

  /** Flattening two runs of tasks flattens each and concatenates the messages. */
  lemma {:induction false} FlattenAppend(a: seq<Schemas.Task>, b: seq<Schemas.Task>)
    ensures Flatten(a + b).Ok? <==> Flatten(a).Ok? && Flatten(b).Ok?
    ensures Flatten(a + b).Ok? ==> Flatten(a + b).value == Flatten(a).value + Flatten(b).value
    decreases |b|
  {
    if b == [] {
      assert a + b == a;
    } else {
      var n := |b| - 1;
      assert (a + b)[..|a + b| - 1] == a + b[..n];
      assert (a + b)[|a + b| - 1] == b[n];
      FlattenAppend(a, b[..n]);
      var lastB := TaskMessages(b[n].id, b[n].history);
      if Flatten(a + b[..n]).Ok? && lastB.Ok? {
        assert Flatten(a + b).value == Flatten(a + b[..n]).value + lastB.value;
        assert Flatten(b).value == Flatten(b[..n]).value + lastB.value;
      }
    }
  }

  /** A single task contributes its history, each message tagged with its id. */
  lemma FlattenOne(t: Schemas.Task)
    ensures Flatten([t]) == TaskMessages(t.id, t.history)
  {
    assert [t][..0] == [];
    assert Flatten([]) == Ok([]);
    match TaskMessages(t.id, t.history)
    case Ok(own) =>
      assert [] + own == own;
    case Err(_) =>
  }

  /** The conversation detail: tasks newest first; messages oldest task first, each history in order. */
  function Detail(c: ConversationRecord, taskOrder: seq<string>, tasks: TaskTable)
    : Result<Schemas.ConversationDetail, Exception>
    requires forall k :: k in taskOrder ==> k in tasks
  {
    var ids := ContextIds(taskOrder, tasks, c.contextId);
    var newest := Views(Reverse(ids), tasks);
    var messages :- Flatten(Reverse(newest));
    Ok(Schemas.ConversationDetail(
      contextId := c.contextId,
      agentId := c.agentId,
      isStreaming := c.isStreaming,
      streamUrl := c.streamUrl,
      createdAt := c.createdAt,
      updatedAt := c.updatedAt,
      tasks := newest,
      messages := messages))
  }

  /** The detail's messages are those of the context's tasks in creation order. */
  lemma DetailMessagesOldestFirst(c: ConversationRecord, taskOrder: seq<string>, tasks: TaskTable)
    requires forall k :: k in taskOrder ==> k in tasks
    ensures var ids := ContextIds(taskOrder, tasks, c.contextId);
      Detail(c, taskOrder, tasks).Ok? <==> Flatten(Views(ids, tasks)).Ok?
    ensures var ids := ContextIds(taskOrder, tasks, c.contextId);
      Detail(c, taskOrder, tasks).Ok? ==> Detail(c, taskOrder, tasks).value.messages == Flatten(Views(ids, tasks)).value
  {
    var ids := ContextIds(taskOrder, tasks, c.contextId);
    var newest := Views(Reverse(ids), tasks);
    assert Reverse(newest) == Views(ids, tasks);
  }

  /** Both tables, with the insertion order of their keys and the clock that stamps new rows. */
  class Database {
    var tasks: TaskTable
    var taskOrder: seq<string>
    var conversations: ConversationTable
    var convOrder: seq<string>
    var clock: nat

    ghost predicate Valid()
      reads this
    {
      Consistent(tasks, taskOrder, conversations, convOrder, clock)
    }

    constructor ()
      ensures Valid() && tasks == map[] && conversations == map[] && taskOrder == [] && convOrder == []
    {
      tasks := map[];
      taskOrder := [];
      conversations := map[];
      convOrder := [];
      clock := 0;
    }

    // ------------------------------------------------------ TaskService

    /** `TaskService.get`: the task with this id, or None. */
    method GetTask(taskId: string) returns (r: Option<Schemas.Task>)
      ensures r.Some? <==> taskId in tasks
      ensures r.Some? ==> r.value == Schemas.TaskFromOrm(tasks[taskId])
    {
      if taskId in tasks {
        return Some(Schemas.TaskFromOrm(tasks[taskId]));
      }
      return None;
    }

    /**
     * `TaskService.get_by_context`: the newest `limit` tasks of the context,
     * newest first; a negative limit is refused by the query slice.
     */
    method GetByContext(contextId: string, limit: int := CONTEXT_LIMIT) returns (r: Result<seq<Schemas.Task>, Exception>)
      requires Valid()
      ensures limit < 0 <==> r.Err?
      ensures r.Err? ==> r.error.ValueError?
      ensures r.Ok? ==> r.value == Views(Text.PyTo(Reverse(ContextIds(taskOrder, tasks, contextId)), limit), tasks)
    {
      if limit < 0 {
        return Err(ValueError("Negative indexing is not supported."));
      }
      var ids := Text.PyTo(Reverse(ContextIds(taskOrder, tasks, contextId)), limit);
      var result := ViewsOf(ids);
      return Ok(result);
    }

    /**
     * `TaskService.create`: inserts a submitted task whose history is the
     * user's message alone, in the given context or else its own, and
     * returns its API view; a taken task id is an integrity error.
     */
    method CreateTask(m: Schemas.Message, contextId: Option<string>, taskHex: string, msgHex: string)
      returns (r: Result<Schemas.Task, Exception>)
      requires Valid() && UuidHex(taskHex) && UuidHex(msgHex)
      modifies this
      ensures Valid() && conversations == old(conversations) && convOrder == old(convOrder)
      ensures var row := NewTask(m, contextId, taskHex, msgHex);
        && (r.Err? <==> row.taskId in old(tasks))
        && (r.Err? ==> r == Err(InsertTask(old(tasks), row, old(clock)).error) && r.error.IntegrityError?
                       && tasks == old(tasks) && taskOrder == old(taskOrder) && clock == old(clock))
        && (r.Ok? ==> && tasks == old(tasks)[row.taskId := Stamped(row, old(clock))]
                      && taskOrder == old(taskOrder) + [row.taskId] && clock == old(clock) + 1
                      && r.value == Schemas.TaskFromOrm(Stamped(row, old(clock))))
    {
      var row := NewTask(m, contextId, taskHex, msgHex);
      var inserted := InsertTask(tasks, row, clock);
      if inserted.Err? {
        return Err(inserted.error);
      }
      InsertTaskConsistent(tasks, taskOrder, clock, row);
      tasks := inserted.value;
      taskOrder := taskOrder + [row.taskId];
      clock := clock + 1;
      return Ok(Schemas.TaskFromOrm(tasks[row.taskId]));
    }

    /**
     * `TaskService.update_status`: sets the state and the message of the
     * task, whatever its current state, and says whether it exists.
     */
    method UpdateStatus(taskId: string, state: string, message: Json.Value) returns (ok: bool)
      requires Valid()
      modifies this
      ensures Valid() && ok == (taskId in old(tasks))
      ensures ok ==> tasks == old(tasks)[taskId := old(tasks)[taskId].(statusState := state, statusMessage := message)]
      ensures !ok ==> tasks == old(tasks)
      ensures taskOrder == old(taskOrder) && conversations == old(conversations)
      ensures convOrder == old(convOrder) && clock == old(clock)
    {
      if taskId !in tasks {
        return false;
      }
      Replace(taskId, tasks[taskId].(statusState := state, statusMessage := message));
      return true;
    }

    /**
     * `TaskService.append_message`: the task's history (empty if NULL)
     * with `message` added at the end; False and no change for an unknown id.
     */
    method AppendMessage(taskId: string, message: Json.Value) returns (ok: bool)
      requires Valid()
      modifies this
      ensures Valid() && ok == (taskId in old(tasks))
      ensures ok ==> tasks == old(tasks)[taskId := old(tasks)[taskId].(history := Some(OrEmpty(old(tasks)[taskId].history) + [message]))]
      ensures !ok ==> tasks == old(tasks)
      ensures taskOrder == old(taskOrder) && conversations == old(conversations)
      ensures convOrder == old(convOrder) && clock == old(clock)
    {
      if taskId !in tasks {
        return false;
      }
      var history := OrEmpty(tasks[taskId].history);
      history := history + [message];
      Replace(taskId, tasks[taskId].(history := Some(history)));
      return true;
    }

    /** `TaskService.add_artifact`: like `AppendMessage`, on the artifacts. */
    method AddArtifact(taskId: string, artifact: Json.Value) returns (ok: bool)
      requires Valid()
      modifies this
      ensures Valid() && ok == (taskId in old(tasks))
      ensures ok ==> tasks == old(tasks)[taskId := old(tasks)[taskId].(artifacts := Some(OrEmpty(old(tasks)[taskId].artifacts) + [artifact]))]
      ensures !ok ==> tasks == old(tasks)
      ensures taskOrder == old(taskOrder) && conversations == old(conversations)
      ensures convOrder == old(convOrder) && clock == old(clock)
    {
      if taskId !in tasks {
        return false;
      }
      var artifacts := OrEmpty(tasks[taskId].artifacts);
      artifacts := artifacts + [artifact];
      Replace(taskId, tasks[taskId].(artifacts := Some(artifacts)));
      return true;
    }

    /** `queryset.update(...)` on one stored row: no timestamp is touched. */
    method Replace(taskId: string, row: TaskRecord)
      requires Valid() && taskId in tasks
      requires row.taskId == taskId && row.createdAt == tasks[taskId].createdAt
      modifies this
      ensures Valid() && tasks == old(tasks)[taskId := row]
      ensures taskOrder == old(taskOrder) && conversations == old(conversations)
      ensures convOrder == old(convOrder) && clock == old(clock)
    {
      ReplaceTaskConsistent(tasks, taskOrder, clock, row);
      tasks := tasks[taskId := row];
    }

    /** The loop that turns the rows of a query into API tasks, in query order. */
    method ViewsOf(ids: seq<string>) returns (views: seq<Schemas.Task>)
      requires forall k :: k in ids ==> k in tasks
      ensures views == Views(ids, tasks)
    {
      views := [];
      var i := 0;
      while i < |ids|
        invariant 0 <= i <= |ids|
        invariant views == Views(ids[..i], tasks)
      {
        assert ids[..i + 1][..i] == ids[..i];
        views := views + [Schemas.TaskFromOrm(tasks[ids[i]])];
        i := i + 1;
      }
      assert ids[..|ids|] == ids;
    }

    // ---------------------------------------------- ConversationService

    /**
     * `ConversationService.list`: every conversation, most recently
     * updated first, with its task count and title.
     */
    method List() returns (r: Result<seq<Schemas.Conversation>, Exception>)
      requires Valid()
      ensures r == Listings(Reverse(convOrder), conversations, taskOrder, tasks)
    {
      var ids := Reverse(convOrder);
      assert forall k :: k in ids ==> k in conversations by {
        forall k | k in ids
          ensures k in conversations
        {
          var i :| 0 <= i < |ids| && ids[i] == k;
          assert convOrder[|convOrder| - 1 - i] == k;
        }
      }
      r := ListingsOf(ids);
    }

    /** The loop of `ConversationService.list` over the given conversations. */
    method ListingsOf(ids: seq<string>) returns (r: Result<seq<Schemas.Conversation>, Exception>)
      requires forall k :: k in ids ==> k in conversations
      ensures r == Listings(ids, conversations, taskOrder, tasks)
    {
      var result: seq<Schemas.Conversation> := [];
      var i := 0;
      while i < |ids|
        invariant 0 <= i <= |ids|
        invariant Listings(ids[..i], conversations, taskOrder, tasks) == Ok(result)
      {
        assert ids[..i + 1][..i] == ids[..i];
        var entry := Listing(conversations[ids[i]], taskOrder, tasks);
        if entry.Err? {
          ListingsFailFrom(ids, i + 1, conversations, taskOrder, tasks);
          return Err(entry.error);
        }
        result := result + [entry.value];
        i := i + 1;
      }
      assert ids[..|ids|] == ids;
      return Ok(result);
    }

    /** `ConversationService.get`: the conversation with its task count, or None. */
    method GetConversation(contextId: string) returns (r: Option<Schemas.Conversation>)
      ensures r.Some? <==> contextId in conversations
      ensures r.Some? ==> r.value == Schemas.ConversationFromOrm(conversations[contextId],
                                       |ContextIds(taskOrder, tasks, contextId)|)
      ensures r.Some? ==> r.value.title == ""
    {
      if contextId !in conversations {
        return None;
      }
      var count := |ContextIds(taskOrder, tasks, contextId)|;
      return Some(Schemas.ConversationFromOrm(conversations[contextId], count));
    }

    /**
     * `ConversationService.get_detail`: None for an unknown context;
     * otherwise the context's tasks newest first and their messages,
     * oldest task first.
     */
    method GetDetail(contextId: string) returns (r: Option<Result<Schemas.ConversationDetail, Exception>>)
      requires Valid()
      ensures r.Some? <==> contextId in conversations
      ensures r.Some? ==> r.value == Detail(conversations[contextId], taskOrder, tasks)
    {
      if contextId !in conversations {
        return None;
      }
      var c := conversations[contextId];
      var views := ViewsOf(Reverse(ContextIds(taskOrder, tasks, contextId)));
      var flattened := MessagesOldestFirst(views);
      if flattened.Err? {
        return Some(Err(flattened.error));
      }
      var messages := flattened.value;
      DetailOf(c, taskOrder, tasks, views, messages);
      return Some(Ok(Schemas.ConversationDetail(
        contextId := c.contextId,
        agentId := c.agentId,
        isStreaming := c.isStreaming,
        streamUrl := c.streamUrl,
        createdAt := c.createdAt,
        updatedAt := c.updatedAt,
        tasks := views,
        messages := messages)));
    }

    /**
     * `ConversationService.create`: get-or-create under the given context id,
     * or `"ctx-"` and eight hex digits when none (or "") is given; an
     * existing conversation is returned as it is, with task count 0.
     */
    method CreateConversation(contextId: Option<string>, hex: string, agentId: string := DEFAULT_AGENT)
      returns (r: Schemas.Conversation)
      requires Valid() && UuidHex(hex)
      modifies this
      ensures Valid() && tasks == old(tasks) && taskOrder == old(taskOrder)
      ensures var id := OrString(contextId, ShortId("ctx-", hex));
        && id in conversations
        && (id in old(conversations) ==> conversations == old(conversations) && convOrder == old(convOrder))
        && (id !in old(conversations) ==>
              && conversations == old(conversations)[id := StampedConversation(ConversationRecord(id, agentId), old(clock))]
              && convOrder == old(convOrder) + [id])
        && r == Schemas.ConversationFromOrm(conversations[id])
    {
      var id := OrString(contextId, ShortId("ctx-", hex));
      if id in conversations {
        return Schemas.ConversationFromOrm(conversations[id]);
      }
      var inserted := InsertConversation(conversations, ConversationRecord(id, agentId, isStreaming := false), clock);
      InsertConversationConsistent(conversations, convOrder, clock, ConversationRecord(id, agentId, isStreaming := false));
      conversations := inserted.value;
      convOrder := convOrder + [id];
      clock := clock + 1;
      return Schemas.ConversationFromOrm(conversations[id]);
    }

    /**
     * `ConversationService.delete`: removes every task of the context and
     * the conversation, and says whether the conversation existed.
     */
    method DeleteConversation(contextId: string) returns (existed: bool)
      requires Valid()
      modifies this
      ensures Valid() && existed == (contextId in old(conversations)) && clock == old(clock)
      ensures tasks == WithoutContext(old(tasks), contextId)
      ensures conversations == WithoutKey(old(conversations), contextId)
      ensures taskOrder == RemoveAll(old(taskOrder), ContextKeys(old(tasks), contextId))
      ensures convOrder == RemoveAll(old(convOrder), {contextId})
    {
      DeleteKeepsConsistent(tasks, taskOrder, conversations, convOrder, clock, contextId);
      taskOrder := RemoveAll(taskOrder, ContextKeys(tasks, contextId));
      tasks := WithoutContext(tasks, contextId);
      existed := contextId in conversations;
      conversations := WithoutKey(conversations, contextId);
      convOrder := RemoveAll(convOrder, {contextId});
    }
  }

  /** The ids of the tasks of a context. */
  function ContextKeys(tasks: TaskTable, contextId: string): (r: set<string>)
    ensures forall k :: k in r <==> k in tasks && tasks[k].contextId == Some(contextId)
  {
    set k | k in tasks && tasks[k].contextId == Some(contextId)
  }

  /** The task table without the tasks of a context. */
  function WithoutContext(tasks: TaskTable, contextId: string): (r: TaskTable)
    ensures r.Keys == tasks.Keys - ContextKeys(tasks, contextId)
    ensures forall k :: k in r ==> r[k] == tasks[k]
  {
    map k | k in tasks && tasks[k].contextId != Some(contextId) :: tasks[k]
  }

  /**
   * What `tasks/sendSubscribe` is meant to do to the conversation of the
   * task's context, as a queryset update that leaves `updated_at` alone:
   * mark it streaming, with the task's stream path; every other
   * conversation, and a context without one, is left as it was.
   */
  function MarkStreaming(conversations: ConversationTable, contextId: string, url: string): (r: ConversationTable)
    ensures r.Keys == conversations.Keys
    ensures forall k :: k in conversations && k != contextId ==> r[k] == conversations[k]
  {
    if contextId in conversations then
      conversations[contextId := conversations[contextId].(isStreaming := true, streamUrl := Some(url))]
    else conversations
  }

  /**
   * After the mark the conversation reads as streaming from its stream
   * path, and the conversation table stays consistent.
   */
  lemma MarkStreamingShows(conversations: ConversationTable, order: seq<string>, clock: nat, contextId: string, url: string)
    requires ConversationsConsistent(conversations, order, clock) && contextId in conversations
    ensures var after := MarkStreaming(conversations, contextId, url);
      && Schemas.ConversationFromOrm(after[contextId]).isStreaming && after[contextId].streamUrl == Some(url)
      && ConversationsConsistent(after, order, clock)
  {
    var after := MarkStreaming(conversations, contextId, url);
    assert forall k :: k in conversations ==> UpdatedAt(after, k) == UpdatedAt(conversations, k);
  }

  /** The conversation table without one conversation. */
  function WithoutKey(conversations: ConversationTable, contextId: string): (r: ConversationTable)
    ensures r.Keys == conversations.Keys - {contextId}
    ensures forall k :: k in r ==> r[k] == conversations[k]
  {
    map k | k in conversations && k != contextId :: conversations[k]
  }

  /** Deleting a conversation and its tasks keeps the database consistent. */
  lemma DeleteKeepsConsistent(tasks: TaskTable, taskOrder: seq<string>, conversations: ConversationTable,
                              convOrder: seq<string>, clock: nat, contextId: string)
    requires Consistent(tasks, taskOrder, conversations, convOrder, clock)
    ensures Consistent(WithoutContext(tasks, contextId), RemoveAll(taskOrder, ContextKeys(tasks, contextId)),
                       WithoutKey(conversations, contextId), RemoveAll(convOrder, {contextId}), clock)
  {
    DeleteTasksConsistent(tasks, taskOrder, clock, contextId);
    DeleteConversationConsistent(conversations, convOrder, clock, contextId);
  }

  lemma DeleteTasksConsistent(tasks: TaskTable, order: seq<string>, clock: nat, contextId: string)
    requires TasksConsistent(tasks, order, clock)
    ensures TasksConsistent(WithoutContext(tasks, contextId), RemoveAll(order, ContextKeys(tasks, contextId)), clock)
  {
    var kept := WithoutContext(tasks, contextId);
    var f := id => CreatedAt(tasks, id);
    var g := id => CreatedAt(kept, id);
    assert IncreasingBy(order, f) by {
      forall i, j | 0 <= i < j < |order|
        ensures f(order[i]) < f(order[j])
      {
        assert CreatedAt(tasks, order[i]) < CreatedAt(tasks, order[j]);
      }
    }
    RemoveAllKeepsOrder(order, ContextKeys(tasks, contextId), f, g);
    var order' := RemoveAll(order, ContextKeys(tasks, contextId));
    forall i, j | 0 <= i < j < |order'|
      ensures CreatedAt(kept, order'[i]) < CreatedAt(kept, order'[j])
    {
      assert g(order'[i]) < g(order'[j]);
    }
    forall i | 0 <= i < |order'|
      ensures order'[i] in kept.Keys
    {
      assert order'[i] in order';
    }
  }

  lemma DeleteConversationConsistent(conversations: ConversationTable, order: seq<string>, clock: nat, contextId: string)
    requires ConversationsConsistent(conversations, order, clock)
    ensures ConversationsConsistent(WithoutKey(conversations, contextId), RemoveAll(order, {contextId}), clock)
  {
    var kept := WithoutKey(conversations, contextId);
    var f := id => UpdatedAt(conversations, id);
    var g := id => UpdatedAt(kept, id);
    assert IncreasingBy(order, f) by {
      forall i, j | 0 <= i < j < |order|
        ensures f(order[i]) < f(order[j])
      {
        assert UpdatedAt(conversations, order[i]) < UpdatedAt(conversations, order[j]);
      }
    }
    RemoveAllKeepsOrder(order, {contextId}, f, g);
    var order' := RemoveAll(order, {contextId});
    forall i, j | 0 <= i < j < |order'|
      ensures UpdatedAt(kept, order'[i]) < UpdatedAt(kept, order'[j])
    {
      assert g(order'[i]) < g(order'[j]);
    }
    forall i | 0 <= i < |order'|
      ensures order'[i] in kept.Keys
    {
      assert order'[i] in order';
    }
  }

  /** The nested loops of `get_detail`: the messages of `reversed(tasks)`, task by task. */
  method MessagesOldestFirst(views: seq<Schemas.Task>) returns (r: Result<seq<Json.Dict>, Exception>)
    ensures r == Flatten(Reverse(views))
  {
    ghost var oldest := Reverse(views);
    var messages: seq<Json.Dict> := [];
    var j := 0;
    while j < |views|
      invariant 0 <= j <= |views|
      invariant Flatten(oldest[..j]) == Ok(messages)
    {
      var t := views[|views| - 1 - j];
      assert t == oldest[j];
      assert oldest[..j + 1][..j] == oldest[..j];
      var own := CollectMessages(t.id, t.history);
      if own.Err? {
        assert Flatten(oldest[..j + 1]) == Err(own.error);
        FlattenFailFrom(oldest, j + 1);
        assert oldest[..|oldest|] == oldest;
        return Err(own.error);
      }
      messages := messages + own.value;
      j := j + 1;
    }
    assert oldest[..|oldest|] == oldest;
    return Ok(messages);
  }

  /** The inner loop of `get_detail`: one task's history as detail messages. */
  method CollectMessages(taskId: string, history: seq<Json.Value>) returns (r: Result<seq<Json.Dict>, Exception>)
    ensures r == TaskMessages(taskId, history)
  {
    var own: seq<Json.Dict> := [];
    var k := 0;
    while k < |history|
      invariant 0 <= k <= |history|
      invariant TaskMessages(taskId, history[..k]) == Ok(own)
    {
      assert history[..k + 1][..k] == history[..k];
      var view := MessageView(taskId, history[k]);
      if view.Err? {
        MessagesFailFrom(taskId, history, k + 1);
        return Err(view.error);
      }
      own := own + [view.value];
      k := k + 1;
    }
    assert history[..|history|] == history;
    return Ok(own);
  }

  /** Once a prefix of the listing fails, the whole listing fails the same way. */
  lemma {:induction false} ListingsFailFrom(ids: seq<string>, i: nat, conversations: ConversationTable,
                                            taskOrder: seq<string>, tasks: TaskTable)
    requires i <= |ids| && forall k :: k in ids ==> k in conversations
    requires Listings(ids[..i], conversations, taskOrder, tasks).Err?
    ensures Listings(ids, conversations, taskOrder, tasks) == Listings(ids[..i], conversations, taskOrder, tasks)
    decreases |ids| - i
  {
    if i < |ids| {
      ListingsFailNext(ids, i, conversations, taskOrder, tasks);
      ListingsFailFrom(ids, i + 1, conversations, taskOrder, tasks);
    } else {
      assert ids[..i] == ids;
    }
  }

  lemma ListingsFailNext(ids: seq<string>, i: nat, conversations: ConversationTable,
                         taskOrder: seq<string>, tasks: TaskTable)
    requires i < |ids| && forall k :: k in ids ==> k in conversations
    requires Listings(ids[..i], conversations, taskOrder, tasks).Err?
    ensures Listings(ids[..i + 1], conversations, taskOrder, tasks) == Listings(ids[..i], conversations, taskOrder, tasks)
  {
    assert ids[..i + 1][..i] == ids[..i];
  }

  lemma {:induction false} MessagesFailFrom(taskId: string, history: seq<Json.Value>, i: nat)
    requires i <= |history| && TaskMessages(taskId, history[..i]).Err?
    ensures TaskMessages(taskId, history) == TaskMessages(taskId, history[..i])
    decreases |history| - i
  {
    if i < |history| {
      assert history[..i + 1][..i] == history[..i];
      MessagesFailFrom(taskId, history, i + 1);
    } else {
      assert history[..i] == history;
    }
  }

  lemma {:induction false} FlattenFailFrom(ts: seq<Schemas.Task>, i: nat)
    requires i <= |ts| && Flatten(ts[..i]).Err?
    ensures Flatten(ts) == Flatten(ts[..i])
    decreases |ts| - i
  {
    if i < |ts| {
      assert ts[..i + 1][..i] == ts[..i];
      FlattenFailFrom(ts, i + 1);
    } else {
      assert ts[..i] == ts;
    }
  }

  lemma DetailOf(c: ConversationRecord, taskOrder: seq<string>, tasks: TaskTable,
                 views: seq<Schemas.Task>, messages: seq<Json.Dict>)
    requires forall k :: k in taskOrder ==> k in tasks
    requires views == Views(Reverse(ContextIds(taskOrder, tasks, c.contextId)), tasks)
    requires Flatten(Reverse(views)) == Ok(messages)
    ensures Detail(c, taskOrder, tasks) == Ok(Schemas.ConversationDetail(
      contextId := c.contextId, agentId := c.agentId, isStreaming := c.isStreaming,
      streamUrl := c.streamUrl, createdAt := c.createdAt, updatedAt := c.updatedAt,
      tasks := views, messages := messages))
  {
  }
}
