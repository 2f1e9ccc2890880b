/**
 * The per-task event log: a publisher that appends a task's events to the
 * stream `<prefix>:<task id>`, and a subscriber that replays and follows a
 * stream with a cursor, or reads a bounded range of it.
 *
 * A subscription is an asynchronous generator. It is modelled as an object
 * whose `Next` performs one pass of the generator's loop: it yields the
 * next event, reports that this pass yielded nothing (the blocking read
 * timed out, or a store error was logged and the loop backs off), or
 * reports that the generator has finished. A consumer's `async for` is
 * `Next` repeated until it yields or finishes; what the store holds between
 * two passes is up to the other actors.
 */
module Events {
  import opened Wrappers
  import opened Errors
  import Text
  import Json
  import opened Streams

  /** The default stream key prefix. */
  const STREAM_PREFIX: string := "a2a:events"

  /** Every publish trims the stream to this many entries. */
  const MAXLEN: nat := 1000

  /** Entries asked for by each blocking read of a subscription. */
  const READ_COUNT: nat := 100

  /** The default `limit` of the range reads. */
  const RANGE_LIMIT: int := 1000

  /** The stream that holds a task's events. */
  function StreamKey(prefix: string, taskId: string): string {
    prefix + ":" + taskId
  }

  /** With one prefix, distinct tasks never share a stream. */
  lemma StreamKeyInjective(prefix: string, a: string, b: string)
    ensures StreamKey(prefix, a) == StreamKey(prefix, b) <==> a == b
  {
    if StreamKey(prefix, a) == StreamKey(prefix, b) {
      assert a == StreamKey(prefix, a)[|prefix| + 1..];
    }
  }

  /** The event a reader is handed for an entry: its data with `_id` set to the entry id. */
  function Tagged(e: Entry): (d: Json.Dict)
    ensures "_id" in d && d["_id"] == Json.Str(IdString(e.id))
    ensures forall k :: k != "_id" ==> (k in d <==> k in e.data)
    ensures forall k :: k != "_id" && k in d ==> d[k] == e.data[k]
  {
    e.data["_id" := Json.Str(IdString(e.id))]
  }

  /** The events for a sequence of entries, in order. */
  function TagAll(es: seq<Entry>): (r: seq<Json.Dict>)
    ensures |r| == |es| && forall i :: 0 <= i < |es| ==> r[i] == Tagged(es[i])
  {
    if es == [] then [] else [Tagged(es[0])] + TagAll(es[1..])
  }

  /** The cursor that reads strictly after `id`. */
  function ExclusiveFrom(id: StreamId): string {
    "(" + IdString(id)
  }

  lemma ExclusiveFromParses(id: StreamId)
    ensures ParseStart(ExclusiveFrom(id)) == Some(id)
    ensures ParseLower(ExclusiveFrom(id)) == Some(Exclusive(id))
  {
    assert ExclusiveFrom(id)[1..] == IdString(id);
    ParseIdString(id);
  }

  /**
   * The error the client raises for an `XRANGE` count below 1, zero
   * included, before anything reaches the server.
   */
  function CountError(): (e: Exception)
    ensures e.IsRedisError()
  {
    DataError("XRANGE count must be a positive integer")
  }

  /**
   * The newest event published to a well-formed stream is the only one
   * after the id the stream had handed out before it: a reader positioned
   * at the previous last id sees exactly the new event.
   */
  lemma PublishedIsNext(s: Stream, data: Json.Dict, now: nat)
    requires WellFormed(s)
    ensures var s' := Add(s, data, now, MAXLEN);
      After(s'.entries, s.lastId) == [Entry(s'.lastId, data)]
  {
    var s' := Add(s, data, now, MAXLEN);
    var e := Entry(s'.lastId, data);
    AddAppends(s, data, now, MAXLEN);
    AfterConcat(s.entries, [e], s.lastId);
    AfterNone(s.entries, s.lastId);
    assert After([e], s.lastId) == [e] by {
      assert [e][1..] == [];
    }
    assert Increasing(s.entries + [e]) by {
      forall i, j | 0 <= i < j < |s.entries + [e]|
        ensures Before((s.entries + [e])[i].id, (s.entries + [e])[j].id)
      {
        if j == |s.entries| {
          assert AtMost(s.entries[i].id, s.lastId);
        }
      }
    }
    TrimKeepsTail(s.entries + [e], MAXLEN, s.lastId);
  }

  /** Writes events to task streams on a shared store. */
  class EventPublisher {
    const store: RedisStore
    const prefix: string

    constructor (store: RedisStore, prefix: string := STREAM_PREFIX)
      ensures this.store == store && this.prefix == prefix
    {
      this.store := store;
      this.prefix := prefix;
    }

    /**
     * Appends the event to the task's stream, trimming it to `MAXLEN`
     * entries, and returns the new entry's id; a store error is raised to
     * the caller with the stream left as it was.
     */
    method Publish(taskId: string, event: Json.Dict) returns (r: Result<string, Exception>)
      requires store.Valid()
      modifies store
      ensures store.Valid() && store.clock == old(store.clock) && store.down == old(store.down)
      ensures old(store.down) ==> r == Err(Unreachable()) && store.streams == old(store.streams)
      ensures !old(store.down) ==>
        var s := Add(StreamAt(old(store.streams), StreamKey(prefix, taskId)), event, store.clock, MAXLEN);
        && r == Ok(IdString(s.lastId))
        && store.streams == old(store.streams)[StreamKey(prefix, taskId) := s]
    {
      var key := StreamKey(prefix, taskId);
      var added := store.XAdd(key, event, MAXLEN);
      match added
      case Err(e) =>
        return Err(e);
      case Ok(id) =>
        return Ok(IdString(id));
    }
  }

  /** What one pass of a generator produces. */
  datatype Yield =
    | Event(entry: Entry)
    | Idle
    | Finished
    | Raised(error: Exception)
  {
    /** The dict handed to the consumer for an event. */
    function Data(): Json.Dict
      requires Event?
    {
      Tagged(entry)
    }
  }

  /** The entries of the events in a sequence of passes, in order. */
  function Delivered(ys: seq<Yield>): (r: seq<Entry>)
    ensures |r| <= |ys|
  {
    if ys == [] then []
    else if ys[0].Event? then [ys[0].entry] + Delivered(ys[1..])
    else Delivered(ys[1..])
  }

  /**
   * The state of a subscription: whether the generator has started and
   * finished, its owner's `running` flag, the cursor it reads from, and the
   * entries of the current read not yet yielded.
   */
  datatype SubState = SubState(started: bool, finished: bool, running: bool, cursor: string, batch: seq<Entry>)

  /** Full replay from the start of the log, or strictly after the given id. */
  function StartCursor(lastEventId: Option<string>): string {
    if lastEventId.Some? && lastEventId.value != "" then "(" + lastEventId.value else "0"
  }

  /** The stream position a subscription starts after. */
  function StartPosition(lastEventId: Option<string>): Option<StreamId> {
    ParseStart(StartCursor(lastEventId))
  }

  /** With no last id the subscription starts at the beginning; with one, right after it. */
  lemma StartPositionCases(lastEventId: Option<string>)
    ensures (lastEventId.None? || lastEventId.value == "") ==> StartPosition(lastEventId) == Some(Zero)
    ensures lastEventId.Some? && lastEventId.value != "" ==> StartPosition(lastEventId) == ParseId(lastEventId.value)
  {
    if lastEventId.Some? && lastEventId.value != "" {
      assert StartCursor(lastEventId)[1..] == lastEventId.value;
    } else {
      assert Text.IndexOf("0", '-') == None;
      assert Text.DigitsValue("0") == 0 by {
        assert "0"[..0] == "";
      }
    }
  }

  /** The first pass of the generator: it sets its owner running and sets the cursor. */
  function Begin(st: SubState, lastEventId: Option<string>): (r: SubState)
    ensures r.started && r.running && r.finished == st.finished && r.batch == st.batch
    ensures Position(r, lastEventId) == StartPosition(lastEventId)
  {
    st.(started := true, running := true, cursor := StartCursor(lastEventId))
  }

  /**
   * One pass once started: yield the rest of the current read; with nothing
   * left, end when the owner has been stopped, and otherwise read up to
   * `READ_COUNT` entries after the cursor. A store error or an empty read
   * leaves the state, cursor included, unchanged.
   */
  function Resume(st: SubState, key: string, streams: map<string, Stream>, down: bool): (r: (SubState, Yield))
    ensures !r.1.Raised? && r.0.started == st.started
    ensures r.1.Idle? ==> r.0 == st
    ensures r.1.Finished? <==> st.batch == [] && !st.running
    ensures r.1.Event? ==> r.0.cursor == ExclusiveFrom(r.1.entry.id) && r.0.running == st.running
  {
    if st.batch != [] then
      (st.(batch := st.batch[1..], cursor := ExclusiveFrom(st.batch[0].id)), Event(st.batch[0]))
    else if !st.running then
      (st.(finished := true), Finished)
    else
      var reply := if down then Err(Unreachable()) else Read(streams, key, st.cursor, READ_COUNT);
      match reply
      case Err(_) => (st, Idle)
      case Ok(es) =>
        if es == [] then (st, Idle)
        else (st.(batch := es[1..], cursor := ExclusiveFrom(es[0].id)), Event(es[0]))
  }

  /** One pass of the subscription generator against the store as it is now. */
  function SubStep(st: SubState, lastEventId: Option<string>, key: string, streams: map<string, Stream>, down: bool)
    : (r: (SubState, Yield))
    ensures st.finished ==> r == (st, Finished)
    ensures !r.1.Raised?
    ensures r.1.Finished? && !st.finished ==> r.0.finished && !r.0.running && r.0.cursor == st.cursor
    ensures !st.finished && st.started && st.running && st.batch == [] && down ==> r == (st, Idle)
    ensures !st.finished && st.started && !st.running && st.batch == [] ==> r == (st.(finished := true), Finished)
  {
    if st.finished then (st, Finished)
    else Resume(if st.started then st else Begin(st, lastEventId), key, streams, down)
  }

  /** The passes of a subscription over a sequence of store states, one per pass. */
  function SubTrace(st: SubState, lastEventId: Option<string>, key: string, world: seq<(map<string, Stream>, bool)>)
    : (r: (SubState, seq<Yield>))
    ensures |r.1| == |world|
    decreases |world|
  {
    if world == [] then (st, [])
    else
      var step := SubStep(st, lastEventId, key, world[0].0, world[0].1);
      var tail := SubTrace(step.0, lastEventId, key, world[1..]);
      (tail.0, [step.1] + tail.1)
  }

  /** The position a subscription reads after. */
  function Position(st: SubState, lastEventId: Option<string>): Option<StreamId> {
    if st.started then ParseStart(st.cursor) else StartPosition(lastEventId)
  }

  /** The entries a subscription holds are in order and after its position. */
  ghost predicate Ahead(st: SubState, lastEventId: Option<string>) {
    && Increasing(st.batch)
    && (st.batch != [] ==>
          && Position(st, lastEventId).Some?
          && forall i :: 0 <= i < |st.batch| ==> Before(Position(st, lastEventId).value, st.batch[i].id))
  }

  /** A started subscription's held entries are in order and after its cursor. */
  ghost predicate CursorAhead(st: SubState) {
    && Increasing(st.batch)
    && (st.batch != [] ==>
          && ParseStart(st.cursor).Some?
          && forall i :: 0 <= i < |st.batch| ==> Before(ParseStart(st.cursor).value, st.batch[i].id))
  }

  lemma {:induction false} ResumeAdvances(st: SubState, key: string, streams: map<string, Stream>, down: bool)
    requires CursorAhead(st) && Increasing(StreamAt(streams, key).entries)
    ensures var r := Resume(st, key, streams, down);
      && CursorAhead(r.0)
      && r.0.started == st.started
      && (r.1.Event? ==>
            && ParseStart(st.cursor).Some?
            && Before(ParseStart(st.cursor).value, r.1.entry.id)
            && ParseStart(r.0.cursor) == Some(r.1.entry.id))
      && (!r.1.Event? ==> r.0.cursor == st.cursor)
  {
    if st.batch != [] {
      PopAhead(st, st.batch);
    } else if st.running && !down && ParseStart(st.cursor).Some? {
      ReadAdvances(st, key, streams);
    }
  }

  /** A pass that reads the store: the entries read lie after the cursor, in order, and the cursor moves to the first. */
  lemma ReadAdvances(st: SubState, key: string, streams: map<string, Stream>)
    requires st.batch == [] && st.running && ParseStart(st.cursor).Some? && Increasing(StreamAt(streams, key).entries)
    ensures var r := Resume(st, key, streams, false);
      && CursorAhead(r.0)
      && (r.1.Event? ==>
            && Before(ParseStart(st.cursor).value, r.1.entry.id)
            && ParseStart(r.0.cursor) == Some(r.1.entry.id))
      && (!r.1.Event? ==> r.0.cursor == st.cursor)
  {
    var es := StreamAt(streams, key).entries;
    var p := ParseStart(st.cursor).value;
    AfterIncreasing(es, p);
    var got := Take(After(es, p), READ_COUNT);
    assert got == After(es, p)[..|got|];
    if got != [] {
      assert Increasing(got);
      PopAhead(st, got);
    }
  }

  /** Handing out the first of increasing entries leaves the rest after the new cursor, which reads after it. */
  lemma PopAhead(st: SubState, es: seq<Entry>)
    requires es != [] && Increasing(es)
    ensures ParseStart(ExclusiveFrom(es[0].id)) == Some(es[0].id)
    ensures CursorAhead(st.(batch := es[1..], cursor := ExclusiveFrom(es[0].id)))
  {
    ExclusiveFromParses(es[0].id);
    assert forall i :: 0 <= i < |es[1..]| ==> es[1..][i] == es[i + 1];
  }

  /**
   * Every pass, whatever the store holds, yields only an entry after the
   * subscription's position and moves the position to it; a pass that
   * yields nothing leaves the position where it was.
   */
  lemma {:induction false} SubStepAdvances(st: SubState, lastEventId: Option<string>, key: string, streams: map<string, Stream>, down: bool)
    requires Ahead(st, lastEventId) && WellFormed(StreamAt(streams, key))
    ensures var r := SubStep(st, lastEventId, key, streams, down);
      && Ahead(r.0, lastEventId)
      && (r.1.Event? ==>
            && Position(st, lastEventId).Some?
            && Before(Position(st, lastEventId).value, r.1.entry.id)
            && Position(r.0, lastEventId) == Some(r.1.entry.id))
      && (!r.1.Event? ==> Position(r.0, lastEventId) == Position(st, lastEventId))
  {
    if !st.finished {
      var st1 := if st.started then st else Begin(st, lastEventId);
      assert st1.started && Position(st1, lastEventId) == ParseStart(st1.cursor);
      assert Position(st1, lastEventId) == Position(st, lastEventId);
      assert CursorAhead(st1);
      ResumeAdvances(st1, key, streams, down);
    }
  }

  /** Entries in strictly increasing id order, all after position `p`. */
  ghost predicate InOrderAfter(p: Option<StreamId>, ds: seq<Entry>) {
    && Increasing(ds)
    && (ds != [] ==> p.Some? && forall i :: 0 <= i < |ds| ==> Before(p.value, ds[i].id))
  }

  /** The position after delivering `ds` from position `p`. */
  function EndPosition(p: Option<StreamId>, ds: seq<Entry>): Option<StreamId> {
    if ds == [] then p else Some(ds[|ds| - 1].id)
  }

  lemma InOrderCons(p: Option<StreamId>, e: Entry, rest: seq<Entry>)
    requires p.Some? && Before(p.value, e.id) && InOrderAfter(Some(e.id), rest)
    ensures InOrderAfter(p, [e] + rest)
    ensures EndPosition(p, [e] + rest) == EndPosition(Some(e.id), rest)
  {
    var ds := [e] + rest;
    forall i, j | 0 <= i < j < |ds| ensures Before(ds[i].id, ds[j].id) {
      if i == 0 {
        assert ds[j] == rest[j - 1];
      } else {
        assert ds[i] == rest[i - 1] && ds[j] == rest[j - 1];
      }
    }
    forall i | 0 <= i < |ds| ensures Before(p.value, ds[i].id) {
      if i > 0 {
        assert ds[i] == rest[i - 1];
      }
    }
    if rest != [] {
      assert ds[|ds| - 1] == rest[|rest| - 1];
    }
  }

  /**
   * Within one subscription, events come in log order and never twice,
   * however the store changes between passes: every delivered entry is after
   * the starting position, the ids strictly increase, and the position ends
   * at the last one.
   */
  lemma {:induction false} SubTraceInOrder(st: SubState, lastEventId: Option<string>, key: string,
                                           world: seq<(map<string, Stream>, bool)>)
    requires Ahead(st, lastEventId)
    requires forall i :: 0 <= i < |world| ==> WellFormed(StreamAt(world[i].0, key))
    ensures InOrderAfter(Position(st, lastEventId), Delivered(SubTrace(st, lastEventId, key, world).1))
    ensures Position(SubTrace(st, lastEventId, key, world).0, lastEventId)
         == EndPosition(Position(st, lastEventId), Delivered(SubTrace(st, lastEventId, key, world).1))
    decreases |world|
  {
    if world != [] {
      var step := SubStep(st, lastEventId, key, world[0].0, world[0].1);
      var y := step.1;
      SubStepAdvances(st, lastEventId, key, world[0].0, world[0].1);
      SubTraceInOrder(step.0, lastEventId, key, world[1..]);
      var tail := SubTrace(step.0, lastEventId, key, world[1..]);
      assert SubTrace(st, lastEventId, key, world) == (tail.0, [y] + tail.1);
      assert ([y] + tail.1)[1..] == tail.1;
      if y.Event? {
        assert Delivered([y] + tail.1) == [y.entry] + Delivered(tail.1);
        InOrderCons(Position(st, lastEventId), y.entry, Delivered(tail.1));
      } else {
        assert Delivered([y] + tail.1) == Delivered(tail.1);
      }
    }
  }

  /** A subscription replaying the suffix `a` of a log whose first `d` entries it has yielded. */
  ghost predicate Replaying(st: SubState, es: seq<Entry>, a: seq<Entry>, d: nat) {
    && st.started && !st.finished && st.running
    && d + |st.batch| <= |a|
    && st.batch == a[d..d + |st.batch|]
    && ParseStart(st.cursor).Some?
    && After(es, ParseStart(st.cursor).value) == a[d..]
  }

  /** After yielding the d-th entry of the suffix, the cursor reads the rest of it. */
  lemma CursorAfterEntry(es: seq<Entry>, a: seq<Entry>, d: nat)
    requires Increasing(es) && |a| <= |es| && a == es[|es| - |a|..] && d < |a|
    ensures ParseStart(ExclusiveFrom(a[d].id)) == Some(a[d].id)
    ensures After(es, a[d].id) == a[d + 1..]
  {
    ExclusiveFromParses(a[d].id);
    SuffixAfterEntry(es, |es| - |a|, d);
  }

  /** In the suffix of an increasing log from `m`, the entries after its d-th entry are the rest of the suffix. */
  lemma SuffixAfterEntry(es: seq<Entry>, m: nat, d: nat)
    requires Increasing(es) && m + d < |es|
    ensures After(es, es[m..][d].id) == es[m..][d + 1..]
  {
    var k := m + d;
    assert es[m..][d] == es[k];
    assert es[m..][d + 1..] == es[k + 1..];
    AfterEntry(es, k);
  }

  /** Against an unchanging, reachable store a pass yields the next entry of the suffix, or nothing once it is exhausted. */
  lemma {:induction false} ReplayStep(st: SubState, key: string, streams: map<string, Stream>, es: seq<Entry>, a: seq<Entry>, d: nat)
    requires StreamAt(streams, key).entries == es && Increasing(es) && |a| <= |es| && a == es[|es| - |a|..]
    requires Replaying(st, es, a, d)
    ensures var r := Resume(st, key, streams, false);
      && (d < |a| ==> r.1 == Event(a[d]) && Replaying(r.0, es, a, d + 1))
      && (d == |a| ==> r == (st, Idle))
  {
    if st.batch == [] {
      ReplayRead(st, key, streams, es, a, d);
    } else {
      ReplayBatch(st, key, streams, es, a, d);
    }
  }

  /** With the current read used up, a pass reads the next entries of the suffix and yields the first. */
  lemma ReplayRead(st: SubState, key: string, streams: map<string, Stream>, es: seq<Entry>, a: seq<Entry>, d: nat)
    requires StreamAt(streams, key).entries == es && Increasing(es) && |a| <= |es| && a == es[|es| - |a|..]
    requires Replaying(st, es, a, d) && st.batch == []
    ensures var r := Resume(st, key, streams, false);
      && (d < |a| ==> r.1 == Event(a[d]) && Replaying(r.0, es, a, d + 1))
      && (d == |a| ==> r == (st, Idle))
  {
    var got := Take(a[d..], READ_COUNT);
    assert Read(streams, key, st.cursor, READ_COUNT) == Ok(got);
    if d < |a| {
      var st' := st.(batch := got[1..], cursor := ExclusiveFrom(got[0].id));
      assert Resume(st, key, streams, false) == (st', Event(got[0]));
      assert got == a[d..d + |got|];
      assert got[0] == a[d];
      assert got[1..] == a[d + 1..d + |got|];
      ReplayingAfterEntry(st', es, a, d);
    }
  }

  /** With entries left from the current read, a pass yields the next one. */
  lemma ReplayBatch(st: SubState, key: string, streams: map<string, Stream>, es: seq<Entry>, a: seq<Entry>, d: nat)
    requires Increasing(es) && |a| <= |es| && a == es[|es| - |a|..]
    requires Replaying(st, es, a, d) && st.batch != []
    ensures var r := Resume(st, key, streams, false);
      d < |a| && r.1 == Event(a[d]) && Replaying(r.0, es, a, d + 1)
  {
    var st' := st.(batch := st.batch[1..], cursor := ExclusiveFrom(st.batch[0].id));
    assert Resume(st, key, streams, false) == (st', Event(st.batch[0]));
    assert st.batch[0] == a[d];
    assert st.batch[1..] == a[d + 1..d + |st.batch|];
    ReplayingAfterEntry(st', es, a, d);
  }

  /** A running subscription whose cursor follows the d-th entry, holding the entries after it, replays from d + 1. */
  lemma ReplayingAfterEntry(st: SubState, es: seq<Entry>, a: seq<Entry>, d: nat)
    requires Increasing(es) && |a| <= |es| && a == es[|es| - |a|..] && d < |a|
    requires st.started && !st.finished && st.running
    requires st.cursor == ExclusiveFrom(a[d].id)
    requires d + 1 + |st.batch| <= |a| && st.batch == a[d + 1..d + 1 + |st.batch|]
    ensures Replaying(st, es, a, d + 1)
  {
    CursorAfterEntry(es, a, d);
  }

  /**
   * Against an unchanging, reachable store a replaying subscription yields
   * the rest of its suffix in order, one entry per pass, then nothing.
   */
  lemma {:induction false} ReplayRun(st: SubState, lastEventId: Option<string>, key: string,
                                     streams: map<string, Stream>, es: seq<Entry>, a: seq<Entry>, d: nat,
                                     world: seq<(map<string, Stream>, bool)>)
    requires StreamAt(streams, key).entries == es && Increasing(es) && |a| <= |es| && a == es[|es| - |a|..]
    requires d <= |a| && Replaying(st, es, a, d)
    requires forall i :: 0 <= i < |world| ==> world[i] == (streams, false)
    ensures Delivered(SubTrace(st, lastEventId, key, world).1) == Take(a[d..], |world|)
    decreases |world|
  {
    if world != [] {
      if d < |a| {
        var st' := ReplayHead(st, lastEventId, key, streams, es, a, d, world);
        ReplayRun(st', lastEventId, key, streams, es, a, d + 1, world[1..]);
        TakeAfter(a, d, |world|);
      } else {
        ReplayExhausted(st, lastEventId, key, streams, es, a, d, world);
      }
    }
  }

  /** The first pass of a replay against the unchanged store yields the d-th entry, then the replay goes on from d + 1. */
  lemma ReplayHead(st: SubState, lastEventId: Option<string>, key: string, streams: map<string, Stream>,
                   es: seq<Entry>, a: seq<Entry>, d: nat, world: seq<(map<string, Stream>, bool)>)
    returns (st': SubState)
    requires StreamAt(streams, key).entries == es && Increasing(es) && |a| <= |es| && a == es[|es| - |a|..]
    requires d < |a| && Replaying(st, es, a, d)
    requires world != [] && world[0] == (streams, false)
    ensures Replaying(st', es, a, d + 1)
    ensures Delivered(SubTrace(st, lastEventId, key, world).1)
            == [a[d]] + Delivered(SubTrace(st', lastEventId, key, world[1..]).1)
  {
    ReplayStep(st, key, streams, es, a, d);
    var step := SubStep(st, lastEventId, key, streams, false);
    assert step == Resume(st, key, streams, false);
    st' := step.0;
    var tail := SubTrace(st', lastEventId, key, world[1..]);
    assert SubTrace(st, lastEventId, key, world) == (tail.0, [step.1] + tail.1);
    assert ([step.1] + tail.1)[1..] == tail.1;
    assert Delivered([step.1] + tail.1) == [a[d]] + Delivered(tail.1);
  }

  lemma {:induction false} ReplayExhausted(st: SubState, lastEventId: Option<string>, key: string,
                                           streams: map<string, Stream>, es: seq<Entry>, a: seq<Entry>, d: nat,
                                           world: seq<(map<string, Stream>, bool)>)
    requires StreamAt(streams, key).entries == es && Replaying(st, es, a, d) && d == |a|
    requires forall i :: 0 <= i < |world| ==> world[i] == (streams, false)
    ensures Delivered(SubTrace(st, lastEventId, key, world).1) == Take(a[d..], |world|)
  {
    assert a[d..] == [];
    IdleRun(st, lastEventId, key, streams, world);
  }

  lemma TakeAfter<T>(a: seq<T>, d: nat, n: nat)
    requires d < |a| && n > 0
    ensures Take(a[d..], n) == [a[d]] + Take(a[d + 1..], n - 1)
  {
    TakeCons(a[d..], n);
    assert a[d..][1..] == a[d + 1..];
  }

  lemma TakeCons<T>(s: seq<T>, n: nat)
    requires s != [] && n > 0
    ensures Take(s, n) == [s[0]] + Take(s[1..], n - 1)
  {
  }

  /** A subscription with nothing left to read yields nothing while the store is unchanged. */
  lemma {:induction false} IdleRun(st: SubState, lastEventId: Option<string>, key: string,
                                   streams: map<string, Stream>, world: seq<(map<string, Stream>, bool)>)
    requires st.started && !st.finished && st.running && st.batch == []
    requires ParseStart(st.cursor).Some? && After(StreamAt(streams, key).entries, ParseStart(st.cursor).value) == []
    requires forall i :: 0 <= i < |world| ==> world[i] == (streams, false)
    ensures Delivered(SubTrace(st, lastEventId, key, world).1) == []
    decreases |world|
  {
    if world != [] {
      var step := SubStep(st, lastEventId, key, streams, false);
      assert step == (st, Idle);
      IdleRun(st, lastEventId, key, streams, world[1..]);
      var tail := SubTrace(st, lastEventId, key, world[1..]);
      assert SubTrace(st, lastEventId, key, world) == (tail.0, [Idle] + tail.1);
      assert ([Idle] + tail.1)[1..] == tail.1;
    }
  }

  /**
   * A fresh subscription to a well-formed stream that nobody writes to
   * meanwhile yields, over n passes, the first n entries after its start
   * position in log order - the whole log when it has no last id.
   */
  lemma SubscriptionReplays(st: SubState, lastEventId: Option<string>, key: string,
                            streams: map<string, Stream>, world: seq<(map<string, Stream>, bool)>)
    requires !st.started && !st.finished && st.batch == []
    requires WellFormed(StreamAt(streams, key)) && StartPosition(lastEventId).Some?
    requires forall i :: 0 <= i < |world| ==> world[i] == (streams, false)
    ensures Delivered(SubTrace(st, lastEventId, key, world).1)
         == Take(After(StreamAt(streams, key).entries, StartPosition(lastEventId).value), |world|)
  {
    var es := StreamAt(streams, key).entries;
    var a := After(es, StartPosition(lastEventId).value);
    AfterSplit(es, StartPosition(lastEventId).value);
    var st1 := Begin(st, lastEventId);
    assert a[0..] == a;
    if world != [] {
      TraceFromBegin(st, lastEventId, key, world);
    }
    ReplayRun(st1, lastEventId, key, streams, es, a, 0, world);
  }

  /** A subscription's first pass starts it, so its passes are those of the started state. */
  lemma TraceFromBegin(st: SubState, lastEventId: Option<string>, key: string, world: seq<(map<string, Stream>, bool)>)
    requires !st.started && !st.finished && world != []
    ensures SubTrace(st, lastEventId, key, world) == SubTrace(Begin(st, lastEventId), lastEventId, key, world)
  {
    var st1 := Begin(st, lastEventId);
    assert SubStep(st, lastEventId, key, world[0].0, world[0].1) == SubStep(st1, lastEventId, key, world[0].0, world[0].1);
  }

  /**
   * Resuming after the i-th entry replays exactly the entries after it;
   * subscribing with no last id replays the log from the beginning.
   */
  lemma ResumeAfterEntry(st: SubState, key: string, streams: map<string, Stream>, i: nat,
                         world: seq<(map<string, Stream>, bool)>)
    requires !st.started && !st.finished && st.batch == []
    requires WellFormed(StreamAt(streams, key))
    requires i < |StreamAt(streams, key).entries|
    requires forall k :: 0 <= k < |world| ==> world[k] == (streams, false)
    ensures var es := StreamAt(streams, key).entries;
      && Delivered(SubTrace(st, Some(IdString(es[i].id)), key, world).1) == Take(es[i + 1..], |world|)
      && Delivered(SubTrace(st, None, key, world).1) == Take(es, |world|)
  {
    var es := StreamAt(streams, key).entries;
    StartPositionCases(Some(IdString(es[i].id)));
    StartPositionCases(None);
    ParseIdString(es[i].id);
    SubscriptionReplays(st, Some(IdString(es[i].id)), key, streams, world);
    SubscriptionReplays(st, None, key, streams, world);
    AfterEntry(es, i);
    AfterAll(es, Zero);
  }

  // ------------------------------------ the cursor as a Redis server reads it

  /**
   * `Resume` against XREAD as a Redis server reads its start argument
   * (`Streams.StrictRead`), which refuses the `(<id>` form the generator
   * writes after every yielded entry and when it resumes from a last id.
   */
  function StrictResume(st: SubState, key: string, streams: map<string, Stream>, down: bool): (SubState, Yield) {
    if st.batch != [] then
      (st.(batch := st.batch[1..], cursor := ExclusiveFrom(st.batch[0].id)), Event(st.batch[0]))
    else if !st.running then
      (st.(finished := true), Finished)
    else
      var reply := if down then Err(Unreachable()) else StrictRead(streams, key, st.cursor, READ_COUNT);
      match reply
      case Err(_) => (st, Idle)
      case Ok(es) =>
        if es == [] then (st, Idle)
        else (st.(batch := es[1..], cursor := ExclusiveFrom(es[0].id)), Event(es[0]))
  }

  /** One pass of the subscription generator against that server. */
  function StrictSubStep(st: SubState, lastEventId: Option<string>, key: string, streams: map<string, Stream>, down: bool)
    : (SubState, Yield)
  {
    if st.finished then (st, Finished)
    else StrictResume(if st.started then st else Begin(st, lastEventId), key, streams, down)
  }

  /**
   * Once the cursor has the `(` form and the current read is used up, a
   * running subscription's read is refused on every pass, the error is
   * swallowed and the pass idles with the state as it was, whatever the
   * stream holds: nothing more is delivered until the owner stops it.
   */
  lemma StrictResumeStalls(st: SubState, key: string, streams: map<string, Stream>, down: bool)
    requires st.batch == [] && st.running && |st.cursor| > 0 && st.cursor[0] == '('
    ensures StrictResume(st, key, streams, down) == (st, Idle)
  {
    if !down {
      assert st.cursor == "(" + st.cursor[1..];
      StrictReadRefusesExclusive(streams, key, st.cursor[1..], READ_COUNT);
    }
  }

  /** A subscription that resumes from a last event id idles from its first pass on. */
  lemma StrictResumeFromIdIdles(st: SubState, lastId: string, key: string, streams: map<string, Stream>, down: bool)
    requires !st.started && !st.finished && st.batch == [] && lastId != ""
    ensures var st1 := Begin(st, Some(lastId));
      && StrictSubStep(st, Some(lastId), key, streams, down) == (st1, Idle)
      && StrictResume(st1, key, streams, down) == (st1, Idle)
  {
    StrictResumeStalls(Begin(st, Some(lastId)), key, streams, down);
  }

  /**
   * A subscription with no last id whose first read finds one entry
   * yields it and then idles on every later pass, whatever the stream
   * holds by then.
   */
  lemma StrictStallsAfterFirstEntry(st: SubState, key: string, streams: map<string, Stream>, e: Entry,
                                    later: map<string, Stream>, down: bool)
    requires !st.started && !st.finished && st.batch == []
    requires Take(After(StreamAt(streams, key).entries, Zero), READ_COUNT) == [e]
    ensures var p := StrictSubStep(st, None, key, streams, false);
      && p.1 == Event(e) && p.0.cursor == ExclusiveFrom(e.id)
      && StrictSubStep(p.0, None, key, later, down) == (p.0, Idle)
  {
    StartPositionCases(None);
    var p := StrictSubStep(st, None, key, streams, false);
    StrictResumeStalls(p.0, key, later, down);
  }

  /** Reads task streams on a shared store; `running` is the flag `Stop` clears. */
  class EventSubscriber {
    const store: RedisStore
    const prefix: string
    var running: bool

    constructor (store: RedisStore, prefix: string := STREAM_PREFIX)
      ensures this.store == store && this.prefix == prefix && !running
    {
      this.store := store;
      this.prefix := prefix;
      running := false;
    }

    /** Asks every subscription of this subscriber to end after the entries it holds. */
    method Stop()
      modifies this
      ensures !running
    {
      running := false;
    }

    /** A new, not yet started subscription to the task's stream. */
    method Subscribe(taskId: string, lastEventId: Option<string>) returns (g: Subscription)
      ensures fresh(g) && g.owner == this && g.key == StreamKey(prefix, taskId) && g.lastEventId == lastEventId
      ensures !g.started && !g.finished && g.batch == []
    {
      g := new Subscription(this, StreamKey(prefix, taskId), lastEventId);
    }

    /**
     * The events strictly after `afterEventId`, at most `limit` of them, in
     * log order; a `limit` below 1, a store error, or an id the store cannot
     * parse, is raised.
     */
    method GetEventsSince(taskId: string, afterEventId: string, limit: int := RANGE_LIMIT)
      returns (r: Result<seq<Json.Dict>, Exception>)
      ensures limit < 1 ==> r == Err(CountError())
      ensures store.down ==> r.Err? && r.error.IsRedisError()
      ensures limit >= 1 && !store.down ==> match Range(store.streams, StreamKey(prefix, taskId), "(" + afterEventId, limit)
        case Ok(es) => r == Ok(TagAll(es))
        case Err(e) => r == Err(e)
    {
      r := ReadRange(StreamKey(prefix, taskId), "(" + afterEventId, limit);
    }

    /** The first `limit` events of the task's stream, in log order; a `limit` below 1 or a store error is raised. */
    method GetAllEvents(taskId: string, limit: int := RANGE_LIMIT)
      returns (r: Result<seq<Json.Dict>, Exception>)
      ensures limit < 1 ==> r == Err(CountError())
      ensures store.down ==> r.Err? && r.error.IsRedisError()
      ensures limit >= 1 && !store.down ==> r == Ok(TagAll(Take(StreamAt(store.streams, StreamKey(prefix, taskId)).entries, limit)))
    {
      r := ReadRange(StreamKey(prefix, taskId), "-", limit);
    }

    /**
     * `XRANGE key min + COUNT limit`, each entry turned into its event; the
     * client refuses a count below 1 before sending the command.
     */
    method ReadRange(key: string, min: string, limit: int) returns (r: Result<seq<Json.Dict>, Exception>)
      ensures limit < 1 ==> r == Err(CountError())
      ensures limit >= 1 && store.down ==> r == Err(Unreachable())
      ensures limit >= 1 && !store.down ==> match Range(store.streams, key, min, limit)
        case Ok(es) => r == Ok(TagAll(es))
        case Err(e) => r == Err(e)
    {
      if limit < 1 {
        return Err(CountError());
      }
      var messages := store.XRange(key, min, limit);
      match messages
      case Err(e) =>
        return Err(e);
      case Ok(es) =>
        var events: seq<Json.Dict> := [];
        var i := 0;
        while i < |es|
          invariant 0 <= i <= |es|
          invariant events == TagAll(es[..i])
        {
          assert es[..i + 1] == es[..i] + [es[i]];
          TagAllAppend(es[..i], es[i]);
          events := events + [Tagged(es[i])];
          i := i + 1;
        }
        assert es[..|es|] == es;
        return Ok(events);
    }
  }

  lemma TagAllAppend(es: seq<Entry>, e: Entry)
    ensures TagAll(es + [e]) == TagAll(es) + [Tagged(e)]
  {
  }

  /**
   * Reading after an entry's id yields the entries after it (so after
   * event 2 of 3 only event 3); reading from `-` yields the log from its
   * start.
   */
  lemma RangeAfterEntry(streams: map<string, Stream>, key: string, i: nat, limit: nat)
    requires WellFormed(StreamAt(streams, key)) && i < |StreamAt(streams, key).entries|
    ensures var es := StreamAt(streams, key).entries;
      && Range(streams, key, "(" + IdString(es[i].id), limit) == Ok(Take(es[i + 1..], limit))
      && Range(streams, key, "-", limit) == Ok(Take(es, limit))
  {
    var es := StreamAt(streams, key).entries;
    ExclusiveFromParses(es[i].id);
    AfterEntry(es, i);
  }

  /** A running subscription generator; see `SubStep` for what one pass does. */
  class Subscription {
    const owner: EventSubscriber
    const key: string
    const lastEventId: Option<string>
    var started: bool
    var finished: bool
    var cursor: string
    var batch: seq<Entry>

    constructor (owner: EventSubscriber, key: string, lastEventId: Option<string>)
      ensures this.owner == owner && this.key == key && this.lastEventId == lastEventId
      ensures !started && !finished && batch == []
    {
      this.owner := owner;
      this.key := key;
      this.lastEventId := lastEventId;
      started := false;
      finished := false;
      cursor := "0";
      batch := [];
    }

    function State(): SubState
      reads this, owner
    {
      SubState(started, finished, owner.running, cursor, batch)
    }

    /** One pass of the generator against the store as it is now. */
    method Next() returns (y: Yield)
      modifies this, owner
      ensures (State(), y) == SubStep(old(State()), lastEventId, key, owner.store.streams, owner.store.down)
    {
      if finished {
        return Finished;
      }
      if !started {
        started := true;
        owner.running := true;
        cursor := StartCursor(lastEventId);
      }
      if batch != [] {
        var e := batch[0];
        batch := batch[1..];
        cursor := ExclusiveFrom(e.id);
        return Event(e);
      }
      if !owner.running {
        finished := true;
        return Finished;
      }
      var reply := owner.store.XRead(key, cursor, READ_COUNT);
      match reply
      case Err(_) =>
        return Idle;
      case Ok(es) =>
        if es == [] {
          return Idle;
        }
        batch := es[1..];
        cursor := ExclusiveFrom(es[0].id);
        return Event(es[0]);
    }

    /** The consumer abandons the generator: a started one runs its cleanup and clears `running`. */
    method Close()
      modifies this, owner
      ensures finished && batch == [] && started == old(started) && cursor == old(cursor)
      ensures old(started) && !old(finished) ==> !owner.running
      ensures !(old(started) && !old(finished)) ==> owner.running == old(owner.running)
    {
      if started && !finished {
        owner.running := false;
      }
      finished := true;
      batch := [];
    }
  }
}
