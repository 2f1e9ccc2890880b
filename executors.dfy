/**
 * The fake agent: a deterministic producer of task events. One run emits
 * `task.working`, optionally a tool call and its result, one `task.message`
 * per text chunk, optionally one `task.artifact`, and `task.completed`,
 * each through the callback given to `execute`. The callback is modelled
 * as a sink that records what it receives, in order; a caller whose
 * callback does more applies it to the same sequence, `AgentEvents`.
 */
module Executors {
  import opened Wrappers
  import opened Errors
  import Text
  import Json

  /** The chunk count, tool flag and artifact flag of `execute_fake_agent`'s agent. */
  const DEFAULT_CHUNKS: int := 5
  const DEFAULT_TOOLS: bool := true
  const DEFAULT_ARTIFACTS: bool := true

  /** The user text assumed when the message has no text part. */
  const DEFAULT_TEXT: string := "Hello"

  /** The task id of a message without one. */
  const UNKNOWN_TASK: string := "unknown"

  function Str(s: string): Json.Value { Json.Str(s) }

  /** `message.get("taskId", "unknown")` */
  function TaskIdOf(message: Json.Dict): Json.Value {
    Json.GetOr(message, "taskId", Str(UNKNOWN_TASK))
  }

  /** `part.get("type") == "text"`, for a part that is a dict. */
  predicate IsTextPart(part: Json.Value)
    requires part.Obj?
  {
    Json.GetOr(part.fields, "type", Json.Null) == Str("text")
  }

  /** Every part before `k` is a dict that is not a text part. */
  predicate SkippedBefore(parts: seq<Json.Value>, k: nat)
    requires k <= |parts|
  {
    forall j :: 0 <= j < k ==> parts[j].Obj? && !IsTextPart(parts[j])
  }

  /**
   * The loop of `_extract_text` over a list of parts: the text of the first
   * text part, "Hello" when there is none, and the error `.get` raises on
   * the first part that is not a dict.
   */
  function FirstText(parts: seq<Json.Value>): (r: Result<Json.Value, Exception>)
    ensures forall k :: 0 <= k < |parts| && SkippedBefore(parts, k) && parts[k].Obj? && IsTextPart(parts[k]) ==>
              r == Ok(Json.GetOr(parts[k].fields, "text", Str("")))
    ensures SkippedBefore(parts, |parts|) ==> r == Ok(Str(DEFAULT_TEXT))
    ensures r.Err? ==> (r.error.AttributeError? &&
              exists k :: 0 <= k < |parts| && SkippedBefore(parts, k) && !parts[k].Obj?)
  {
    if parts == [] then Ok(Str(DEFAULT_TEXT))
    else if !parts[0].Obj? then Err(AttributeError("object has no attribute 'get'"))
    else if IsTextPart(parts[0]) then Ok(Json.GetOr(parts[0].fields, "text", Str("")))
    else
      var r := FirstText(parts[1..]);
      assert forall k :: 0 <= k < |parts| - 1 && SkippedBefore(parts, k + 1) ==> SkippedBefore(parts[1..], k);
      assert SkippedBefore(parts[1..], |parts| - 1) ==> SkippedBefore(parts, |parts|);
      if r.Err? then
        var k :| 0 <= k < |parts| - 1 && SkippedBefore(parts[1..], k) && !parts[1..][k].Obj?;
        assert SkippedBefore(parts, k + 1) && !parts[k + 1].Obj?;
        r
      else r
  }

  /**
   * `_extract_text`: iterates `message.get("parts", [])`. Iterating a
   * non-empty string or dict yields strings, which have no `.get`; a value
   * that is not iterable raises a type error.
   */
  function ExtractText(message: Json.Dict): (r: Result<Json.Value, Exception>)
    ensures "parts" !in message ==> r == Ok(Str(DEFAULT_TEXT))
    ensures r.Err? ==> r.error.AttributeError? || r.error.TypeError?
  {
    match Json.GetOr(message, "parts", Json.Arr([]))
    case Arr(items) => FirstText(items)
    case Str(s) => if s == "" then Ok(Str(DEFAULT_TEXT)) else Err(AttributeError("'str' object has no attribute 'get'"))
    case Obj(f) => if f == map[] then Ok(Str(DEFAULT_TEXT)) else Err(AttributeError("'str' object has no attribute 'get'"))
    case _ => Err(TypeError("object is not iterable"))
  }

  /** The two examples of the source's tests: a text part is found; a data part gives "Hello". */
  lemma ExtractTextExamples(t: string)
    ensures ExtractText(map["parts" := Json.Arr([Json.Obj(map["type" := Str("text"), "text" := Str(t)])])]) == Ok(Str(t))
    ensures ExtractText(map["parts" := Json.Arr([Json.Obj(map["type" := Str("data"), "data" := Json.Obj(map[])])])])
              == Ok(Str(DEFAULT_TEXT))
    ensures ExtractText(map[]) == Ok(Str(DEFAULT_TEXT))
  {
    var p := Json.Obj(map["type" := Str("text"), "text" := Str(t)]);
    assert SkippedBefore([p], 0) && IsTextPart(p);
    var d := Json.Obj(map["type" := Str("data"), "data" := Json.Obj(map[])]);
    assert !IsTextPart(d);
    assert SkippedBefore([d], 1);
  }

  // -------------------------------------------------------------- events

  /** The call id shared by the tool call and its result: `f"tool-{task_id}-1"`. */
  function ToolCallId(taskId: Json.Value): string {
    "tool-" + Json.Display(taskId) + "-1"
  }

  function AgentMessage(text: string): Json.Value {
    Json.Obj(map["role" := Str("agent"), "parts" := Json.Arr([Json.Obj(map["type" := Str("text"), "text" := Str(text)])])])
  }

  /**
   * An event of the given type for the given task: the payload's keys plus
   * "type" and "taskId".
   */
  function TaskEvent(t: string, taskId: Json.Value, payload: Json.Dict): Json.Dict {
    payload["taskId" := taskId]["type" := Str(t)]
  }

  function ToolCallPayload(taskId: Json.Value, user: Json.Value): Json.Dict {
    map["toolCallId" := Str(ToolCallId(taskId)), "toolName" := Str("fake_search"),
        "input" := Json.Obj(map["query" := user])]
  }

  function ToolResultPayload(taskId: Json.Value): Json.Dict {
    map["toolCallId" := Str(ToolCallId(taskId)),
        "result" := Json.Obj(map["results" := Json.Arr([Str("fake result 1"), Str("fake result 2")])])]
  }

  /** The text of chunk `i` (counting from 0) of `n`. */
  function ChunkText(user: Json.Value, i: nat, n: int): string {
    "Response chunk " + Text.NatToString(i + 1) + "/ " + Text.IntToString(n) + ". "
    + "Your message was: '" + Json.Display(user) + "'. "
    + "This is a simulated response for testing purposes. "
    + "Processing step " + Text.NatToString(i + 1) + " of " + Text.IntToString(n) + " complete."
  }

  /** The artifact the agent attaches. */
  function Artifact(): Json.Value {
    Json.Obj(map[
      "name" := Str("analysis_result"),
      "parts" := Json.Arr([Json.Obj(map[
        "type" := Str("data"),
        "data" := Json.Obj(map[
          "summary" := Str("This is a simulated artifact for testing"),
          "items" := Json.Arr([Str("item1"), Str("item2"), Str("item3")]),
          "metadata" := Json.Obj(map["generated_at" := Str("2024-01-01T00:00:00Z"), "version" := Str("1.0")])
        ])
      ])])
    ])
  }

  /** The completion message. */
  const COMPLETION_TEXT := "Task completed successfully!"

  /** `range(n)` has no items for a negative `n`. */
  function RangeSize(n: int): nat { if n < 0 then 0 else n }

  /**
   * The steps of one run, each emitting one event: the run's control flow
   * without the payloads.
   */
  datatype Step = WorkingStep | ToolCallStep | ToolResultStep | ChunkStep(i: nat) | ArtifactStep | CompletedStep

  /** The `type` of the event a step emits. */
  function StepType(s: Step): string {
    match s
    case WorkingStep => "task.working"
    case ToolCallStep => "tool-call"
    case ToolResultStep => "tool-call-result"
    case ChunkStep(_) => "task.message"
    case ArtifactStep => "task.artifact"
    case CompletedStep => "task.completed"
  }

  /** The first `count` iterations of the chunk loop. */
  function ChunkSteps(count: nat): (r: seq<Step>)
    ensures |r| == count && forall i :: 0 <= i < count ==> r[i] == ChunkStep(i)
  {
    if count == 0 then [] else ChunkSteps(count - 1) + [ChunkStep(count - 1)]
  }

  function ToolSteps(tools: bool): seq<Step> {
    if tools then [ToolCallStep, ToolResultStep] else []
  }

  function ArtifactSteps(artifacts: bool): seq<Step> {
    if artifacts then [ArtifactStep] else []
  }

  /** The steps of a run with `n` chunks and the given flags, in order. */
  function Steps(n: int, tools: bool, artifacts: bool): (r: seq<Step>)
    ensures |r| == 2 + (if tools then 2 else 0) + RangeSize(n) + (if artifacts then 1 else 0)
    ensures r[0] == WorkingStep && r[|r| - 1] == CompletedStep
  {
    [WorkingStep] + ToolSteps(tools) + ChunkSteps(RangeSize(n)) + ArtifactSteps(artifacts) + [CompletedStep]
  }

  /** What the event of a step carries besides its type and task id. */
  function Payload(s: Step, taskId: Json.Value, user: Json.Value, n: int): Json.Dict {
    match s
    case WorkingStep => map[]
    case ToolCallStep => ToolCallPayload(taskId, user)
    case ToolResultStep => ToolResultPayload(taskId)
    case ChunkStep(i) => map["message" := AgentMessage(ChunkText(user, i, n))]
    case ArtifactStep => map["artifact" := Artifact()]
    case CompletedStep => map["message" := AgentMessage(COMPLETION_TEXT)]
  }

  /** The event a step emits, for the given task, user text and chunk count. */
  function EventOf(s: Step, taskId: Json.Value, user: Json.Value, n: int): Json.Dict {
    TaskEvent(StepType(s), taskId, Payload(s, taskId, user, n))
  }

  function EventsOf(steps: seq<Step>, taskId: Json.Value, user: Json.Value, n: int): (es: seq<Json.Dict>)
    ensures |es| == |steps|
  {
    if steps == [] then []
    else EventsOf(steps[..|steps| - 1], taskId, user, n) + [EventOf(steps[|steps| - 1], taskId, user, n)]
  }

  lemma {:induction false} EventsOfIndex(steps: seq<Step>, taskId: Json.Value, user: Json.Value, n: int, i: nat)
    requires i < |steps|
    ensures EventsOf(steps, taskId, user, n)[i] == EventOf(steps[i], taskId, user, n)
  {
    if i < |steps| - 1 {
      EventsOfIndex(steps[..|steps| - 1], taskId, user, n, i);
    }
  }

  /** Everything one run emits, in order. */
  function AgentEvents(taskId: Json.Value, user: Json.Value, n: int, tools: bool, artifacts: bool): (r: seq<Json.Dict>)
    ensures |r| == |Steps(n, tools, artifacts)|
  {
    EventsOf(Steps(n, tools, artifacts), taskId, user, n)
  }

  /** `event["type"]` */
  function TypeOf(e: Json.Dict): Json.Value { Json.GetOr(e, "type", Json.Null) }

  /** An event has its type and task id, and every other key of its payload. */
  lemma TaskEventFields(t: string, taskId: Json.Value, payload: Json.Dict)
    ensures TypeOf(TaskEvent(t, taskId, payload)) == Str(t)
    ensures "taskId" in TaskEvent(t, taskId, payload) && TaskEvent(t, taskId, payload)["taskId"] == taskId
    ensures forall k :: k in payload && k != "type" && k != "taskId" ==> TaskEvent(t, taskId, payload)[k] == payload[k]
  {
  }

  /** A step's event has the step's type and carries the task id. */
  lemma EventOfFields(s: Step, taskId: Json.Value, user: Json.Value, n: int)
    ensures TypeOf(EventOf(s, taskId, user, n)) == Str(StepType(s))
    ensures "taskId" in EventOf(s, taskId, user, n) && EventOf(s, taskId, user, n)["taskId"] == taskId
  {
    TaskEventFields(StepType(s), taskId, Payload(s, taskId, user, n));
  }

  /** How many events have the given type. */
  function CountType(es: seq<Json.Dict>, t: string): nat {
    if es == [] then 0 else CountType(es[..|es| - 1], t) + (if TypeOf(es[|es| - 1]) == Str(t) then 1 else 0)
  }

  /** How many steps emit an event of the given type. */
  function CountSteps(steps: seq<Step>, t: string): nat {
    if steps == [] then 0 else CountSteps(steps[..|steps| - 1], t) + (if StepType(steps[|steps| - 1]) == t then 1 else 0)
  }

  lemma {:induction false} CountEvents(steps: seq<Step>, taskId: Json.Value, user: Json.Value, n: int, t: string)
    ensures CountType(EventsOf(steps, taskId, user, n), t) == CountSteps(steps, t)
  {
    if steps != [] {
      CountEvents(steps[..|steps| - 1], taskId, user, n, t);
      EventOfFields(steps[|steps| - 1], taskId, user, n);
    }
  }

  lemma {:induction false} CountStepsAppend(a: seq<Step>, b: seq<Step>, t: string)
    ensures CountSteps(a + b, t) == CountSteps(a, t) + CountSteps(b, t)
    decreases |b|
  {
    if b == [] {
      assert a + b == a;
    } else {
      assert (a + b)[..|a + b| - 1] == a + b[..|b| - 1];
      CountStepsAppend(a, b[..|b| - 1], t);
    }
  }

  lemma {:induction false} CountChunkSteps(count: nat, t: string)
    ensures CountSteps(ChunkSteps(count), t) == if t == "task.message" then count else 0
  {
    if count > 0 {
      assert ChunkSteps(count)[..count - 1] == ChunkSteps(count - 1);
      CountChunkSteps(count - 1, t);
    }
  }

  /** The number of events of type `t` in a run, part by part. */
  lemma CountRun(taskId: Json.Value, user: Json.Value, n: int, tools: bool, artifacts: bool, t: string)
    ensures CountType(AgentEvents(taskId, user, n, tools, artifacts), t)
      == CountSteps([WorkingStep], t) + CountSteps(ToolSteps(tools), t) + (if t == "task.message" then RangeSize(n) else 0)
         + CountSteps(ArtifactSteps(artifacts), t) + CountSteps([CompletedStep], t)
  {
    var w, tl, ch := [WorkingStep], ToolSteps(tools), ChunkSteps(RangeSize(n));
    var ar, c := ArtifactSteps(artifacts), [CompletedStep];
    CountEvents(Steps(n, tools, artifacts), taskId, user, n, t);
    CountStepsAppend(w, tl, t);
    CountStepsAppend(w + tl, ch, t);
    CountStepsAppend(w + tl + ch, ar, t);
    CountStepsAppend(w + tl + ch + ar, c, t);
    CountChunkSteps(RangeSize(n), t);
  }

  /** A run begins with `task.working` and ends with `task.completed`. */
  lemma RunBoundaries(taskId: Json.Value, user: Json.Value, n: int, tools: bool, artifacts: bool)
    ensures var es := AgentEvents(taskId, user, n, tools, artifacts);
      && |es| == 2 + (if tools then 2 else 0) + RangeSize(n) + (if artifacts then 1 else 0)
      && TypeOf(es[0]) == Str("task.working")
      && TypeOf(es[|es| - 1]) == Str("task.completed")
  {
    var steps := Steps(n, tools, artifacts);
    EventsOfIndex(steps, taskId, user, n, 0);
    EventsOfIndex(steps, taskId, user, n, |steps| - 1);
    EventOfFields(steps[0], taskId, user, n);
    EventOfFields(steps[|steps| - 1], taskId, user, n);
  }

  /** Exactly `num_chunks` message events (none for a negative count). */
  lemma MessageCount(taskId: Json.Value, user: Json.Value, n: int, tools: bool, artifacts: bool)
    ensures CountType(AgentEvents(taskId, user, n, tools, artifacts), "task.message") == RangeSize(n)
  {
    CountRun(taskId, user, n, tools, artifacts, "task.message");
  }

  /** A tool call and a tool result are emitted iff tools are enabled, once each. */
  lemma ToolCallsIffEnabled(taskId: Json.Value, user: Json.Value, n: int, tools: bool, artifacts: bool)
    ensures var es := AgentEvents(taskId, user, n, tools, artifacts);
      && CountType(es, "tool-call") == (if tools then 1 else 0)
      && CountType(es, "tool-call-result") == (if tools then 1 else 0)
  {
    CountRun(taskId, user, n, tools, artifacts, "tool-call");
    CountRun(taskId, user, n, tools, artifacts, "tool-call-result");
  }

  /** The tool call comes right after `task.working`, its result right after it, with the same call id. */
  lemma ToolCallPairing(taskId: Json.Value, user: Json.Value, n: int, artifacts: bool)
    ensures var es := AgentEvents(taskId, user, n, true, artifacts);
      && TypeOf(es[1]) == Str("tool-call") && TypeOf(es[2]) == Str("tool-call-result")
      && "toolCallId" in es[1] && "toolCallId" in es[2]
      && es[1]["toolCallId"] == es[2]["toolCallId"] == Str(ToolCallId(taskId))
  {
    var steps := Steps(n, true, artifacts);
    ToolStepsFirst(n, artifacts);
    EventsOfIndex(steps, taskId, user, n, 1);
    EventsOfIndex(steps, taskId, user, n, 2);
    ToolEventIds(taskId, user, n);
  }

  lemma ToolStepsFirst(n: int, artifacts: bool)
    ensures |Steps(n, true, artifacts)| > 2
    ensures Steps(n, true, artifacts)[1] == ToolCallStep && Steps(n, true, artifacts)[2] == ToolResultStep
  {
  }

  lemma ToolEventIds(taskId: Json.Value, user: Json.Value, n: int)
    ensures TypeOf(EventOf(ToolCallStep, taskId, user, n)) == Str("tool-call")
    ensures TypeOf(EventOf(ToolResultStep, taskId, user, n)) == Str("tool-call-result")
    ensures "toolCallId" in EventOf(ToolCallStep, taskId, user, n) && "toolCallId" in EventOf(ToolResultStep, taskId, user, n)
    ensures EventOf(ToolCallStep, taskId, user, n)["toolCallId"] == Str(ToolCallId(taskId))
    ensures EventOf(ToolResultStep, taskId, user, n)["toolCallId"] == Str(ToolCallId(taskId))
  {
    TaskEventFields("tool-call", taskId, ToolCallPayload(taskId, user));
    TaskEventFields("tool-call-result", taskId, ToolResultPayload(taskId));
  }

  /**
   * Exactly one artifact iff artifacts are enabled: the next-to-last event,
   * after every message and right before completion.
   */
  lemma ArtifactIffEnabled(taskId: Json.Value, user: Json.Value, n: int, tools: bool, artifacts: bool)
    ensures var es := AgentEvents(taskId, user, n, tools, artifacts);
      && CountType(es, "task.artifact") == (if artifacts then 1 else 0)
      && (artifacts ==> TypeOf(es[|es| - 2]) == Str("task.artifact")
                        && forall i :: 0 <= i < |es| && TypeOf(es[i]) == Str("task.message") ==> i < |es| - 2)
  {
    CountRun(taskId, user, n, tools, artifacts, "task.artifact");
    if artifacts {
      var steps := Steps(n, tools, artifacts);
      var es := AgentEvents(taskId, user, n, tools, artifacts);
      assert steps[|steps| - 2] == ArtifactStep && steps[|steps| - 1] == CompletedStep;
      EventsOfIndex(steps, taskId, user, n, |steps| - 2);
      EventOfFields(ArtifactStep, taskId, user, n);
      forall i | 0 <= i < |es| && TypeOf(es[i]) == Str("task.message")
        ensures i < |es| - 2
      {
        EventsOfIndex(steps, taskId, user, n, i);
        EventOfFields(steps[i], taskId, user, n);
      }
    }
  }

  /** Every event carries the message's task id (or "unknown"). */
  lemma EveryEventTagged(taskId: Json.Value, user: Json.Value, n: int, tools: bool, artifacts: bool)
    ensures var es := AgentEvents(taskId, user, n, tools, artifacts);
      forall i :: 0 <= i < |es| ==> "taskId" in es[i] && es[i]["taskId"] == taskId
  {
    var steps := Steps(n, tools, artifacts);
    var es := AgentEvents(taskId, user, n, tools, artifacts);
    forall i | 0 <= i < |es|
      ensures "taskId" in es[i] && es[i]["taskId"] == taskId
    {
      EventsOfIndex(steps, taskId, user, n, i);
      EventOfFields(steps[i], taskId, user, n);
    }
  }

  /*
   * Three identities kept as lemmas: stated inline in `Run` and
   * `EmitChunks`, they bring those proofs to the solver's resource limit.
   */
  lemma AppendAssoc<T>(a: seq<T>, b: seq<T>, c: seq<T>)
    ensures a + (b + c) == (a + b) + c
  {
  }

  /** The steps before the chunk loop, as the run takes them. */
  lemma StepsHead(tools: bool)
    ensures [] + [WorkingStep] + [ToolCallStep] + [ToolResultStep] == [WorkingStep] + ToolSteps(true)
    ensures [] + [WorkingStep] == [WorkingStep] + ToolSteps(false)
  {
  }

  /** The steps after the chunk loop, as the run takes them. */
  lemma StepsTail(done: seq<Step>, artifacts: bool)
    ensures (if artifacts then done + [ArtifactStep] else done) == done + ArtifactSteps(artifacts)
  {
  }

  /** Emitting one more step's event extends the events of the steps done so far. */
  lemma EmitStep(before: seq<Json.Dict>, done: seq<Step>, s: Step, taskId: Json.Value, user: Json.Value, n: int)
    ensures before + EventsOf(done, taskId, user, n) + [EventOf(s, taskId, user, n)]
         == before + EventsOf(done + [s], taskId, user, n)
  {
    assert (done + [s])[..|done|] == done;
  }

  /** The callback of a run: records every event it is given. */
  class EventSink {
    var events: seq<Json.Dict>

    constructor ()
      ensures events == []
    {
      events := [];
    }

    method Receive(e: Json.Dict)
      modifies this
      ensures events == old(events) + [e]
    {
      events := events + [e];
    }
  }

  /** `_emit`: hands the event to the callback, if there is one. */
  method Emit(callback: EventSink?, e: Json.Dict)
    modifies callback
    ensures callback != null ==> callback.events == old(callback.events) + [e]
  {
    if callback != null {
      callback.Receive(e);
    }
  }

  class FakeAgentExecutor {
    const numChunks: int
    const includeTools: bool
    const includeArtifacts: bool

    constructor (numChunks: int := DEFAULT_CHUNKS, includeTools: bool := DEFAULT_TOOLS,
                 includeArtifacts: bool := DEFAULT_ARTIFACTS)
      ensures this.numChunks == numChunks && this.includeTools == includeTools
      ensures this.includeArtifacts == includeArtifacts
    {
      this.numChunks := numChunks;
      this.includeTools := includeTools;
      this.includeArtifacts := includeArtifacts;
    }

    /**
     * `execute`: the callback receives `AgentEvents` of the message's task
     * id and text, in order; a message whose parts cannot be read raises
     * before anything is emitted. Without a callback nothing is emitted and
     * the run still completes.
     */
    method Execute(message: Json.Dict, onEvent: EventSink?) returns (raised: Option<Exception>)
      modifies onEvent
      ensures ExtractText(message).Err? <==> raised.Some?
      ensures raised.Some? ==> raised.value == ExtractText(message).error
      ensures onEvent != null ==> (onEvent.events == old(onEvent.events) +
        (if raised.Some? then [] else AgentEvents(TaskIdOf(message), ExtractText(message).value,
                                                  numChunks, includeTools, includeArtifacts)))
    {
      var taskId := TaskIdOf(message);
      var extracted := ExtractText(message);
      if extracted.Err? {
        return Some(extracted.error);
      }
      Run(taskId, extracted.value, onEvent);
      return None;
    }

    /** The body of `execute` once the user text is known. */
    method Run(taskId: Json.Value, user: Json.Value, onEvent: EventSink?)
      modifies onEvent
      ensures onEvent != null ==>
                onEvent.events == old(onEvent.events) + AgentEvents(taskId, user, numChunks, includeTools, includeArtifacts)
    {
      ghost var before := if onEvent != null then onEvent.events else [];
      assert before == before + EventsOf([], taskId, user, numChunks);
      ghost var done: seq<Step> := [];
      Emit(onEvent, EventOf(WorkingStep, taskId, user, numChunks));
      EmitStep(before, done, WorkingStep, taskId, user, numChunks);
      done := done + [WorkingStep];
      if includeTools {
        Emit(onEvent, EventOf(ToolCallStep, taskId, user, numChunks));
        EmitStep(before, done, ToolCallStep, taskId, user, numChunks);
        done := done + [ToolCallStep];
        Emit(onEvent, EventOf(ToolResultStep, taskId, user, numChunks));
        EmitStep(before, done, ToolResultStep, taskId, user, numChunks);
        done := done + [ToolResultStep];
      }
      StepsHead(includeTools);
      ghost var head := done;
      var count := RangeSize(numChunks);
      EmitChunks(taskId, user, count, onEvent, before, head);
      done := head + ChunkSteps(count);
      if includeArtifacts {
        Emit(onEvent, EventOf(ArtifactStep, taskId, user, numChunks));
        EmitStep(before, done, ArtifactStep, taskId, user, numChunks);
        done := done + [ArtifactStep];
      }
      StepsTail(head + ChunkSteps(count), includeArtifacts);
      Emit(onEvent, EventOf(CompletedStep, taskId, user, numChunks));
      EmitStep(before, done, CompletedStep, taskId, user, numChunks);
      done := done + [CompletedStep];
    }

    /** The chunk loop: one `task.message` event per iteration. */
    method EmitChunks(taskId: Json.Value, user: Json.Value, count: nat, onEvent: EventSink?,
                      ghost before: seq<Json.Dict>, ghost head: seq<Step>)
      modifies onEvent
      requires onEvent != null ==> onEvent.events == before + EventsOf(head, taskId, user, numChunks)
      ensures onEvent != null ==>
                onEvent.events == before + EventsOf(head + ChunkSteps(count), taskId, user, numChunks)
    {
      assert head + ChunkSteps(0) == head;
      for i := 0 to count
        invariant onEvent != null ==> onEvent.events == before + EventsOf(head + ChunkSteps(i), taskId, user, numChunks)
      {
        Emit(onEvent, EventOf(ChunkStep(i), taskId, user, numChunks));
        EmitStep(before, head + ChunkSteps(i), ChunkStep(i), taskId, user, numChunks);
        AppendAssoc(head, ChunkSteps(i), [ChunkStep(i)]);
      }
    }
  }

  /** `execute_fake_agent`: a run of the agent with the default settings. */
  method ExecuteFakeAgent(message: Json.Dict, onEvent: EventSink?) returns (raised: Option<Exception>)
    modifies onEvent
    ensures ExtractText(message).Err? <==> raised.Some?
    ensures raised.Some? ==> raised.value == ExtractText(message).error
    ensures onEvent != null ==> (onEvent.events == old(onEvent.events) +
      (if raised.Some? then [] else AgentEvents(TaskIdOf(message), ExtractText(message).value,
                                                DEFAULT_CHUNKS, DEFAULT_TOOLS, DEFAULT_ARTIFACTS)))
  {
    var agent := new FakeAgentExecutor();
    raised := agent.Execute(message, onEvent);
  }
}
