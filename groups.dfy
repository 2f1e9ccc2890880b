/**
 * Consumer groups over a task's stream: consumers of one group share the
 * entries, each entry being handed to one consumer, which acknowledges it
 * when it asks for the next one.
 *
 * As for a subscription, the `consume` generator is an object whose `Next`
 * performs one pass of its loop.
 */
module ConsumerGroups {
  import opened Wrappers
  import opened Errors
  import Json
  import opened Streams
  import opened Events

  /** Entries asked for by each group read. */
  const GROUP_READ_COUNT: nat := 10

  /** The default number of pending records reported. */
  const PENDING_LIMIT: int := 10

  /**
   * The group ensured on the stream: created at the start of the stream
   * (creating an empty stream when there is none), or left as it is when
   * creation is refused because the group exists.
   */
  function EnsureGroup(streams: map<string, Stream>, key: string, group: string): (r: map<string, Stream>)
    ensures key in r && group in r[key].groups
    ensures key in streams && group in streams[key].groups ==> r == streams
    ensures !(key in streams && group in streams[key].groups) ==>
      r == streams[key := StreamAt(streams, key).(groups := StreamAt(streams, key).groups[group := Group(Zero, [])])]
  {
    match CreateGroup(streams, key, group)
    case Ok(m) => m
    case Err(_) => streams
  }

  /** Ensuring a group twice is ensuring it once. */
  lemma EnsureGroupIdempotent(streams: map<string, Stream>, key: string, group: string)
    ensures EnsureGroup(EnsureGroup(streams, key, group), key, group) == EnsureGroup(streams, key, group)
  {
  }

  lemma EnsureGroupWellFormed(streams: map<string, Stream>, key: string, group: string)
    requires AllWellFormed(streams)
    ensures AllWellFormed(EnsureGroup(streams, key, group))
  {
    CreateGroupWellFormed(streams, key, group);
  }

  /**
   * Reads of one group never hand out an entry twice, whichever consumers
   * make them: every entry of a later read comes after every entry of an
   * earlier one.
   */
  lemma GroupReadsDisjoint(streams: map<string, Stream>, key: string, group: string,
                           c1: string, n1: nat, t1: nat, c2: string, n2: nat, t2: nat)
    requires key in streams && WellFormed(streams[key]) && group in streams[key].groups
    ensures var r1 := ReadGroup(streams, key, group, c1, n1, t1);
      && r1.Ok?
      && var r2 := ReadGroup(r1.value.streams, key, group, c2, n2, t2);
      && r2.Ok?
      && forall i, j :: 0 <= i < |r1.value.batch| && 0 <= j < |r2.value.batch| ==>
           Before(r1.value.batch[i].id, r2.value.batch[j].id)
  {
    var r1 := ReadGroup(streams, key, group, c1, n1, t1);
    ReadGroupDeliversOnce(streams, key, group, c1, n1, t1);
    NextBatch(streams[key].entries, streams[key].groups[group].lastDelivered, n1);
    var s1 := r1.value.streams;
    ReadGroupDeliversOnce(s1, key, group, c2, n2, t2);
  }

  /**
   * The state of a `consume` generator: whether it has started and
   * finished, its owner's `running` flag, the entries of the current read
   * not yet yielded, and the id of the entry yielded last and not yet
   * acknowledged.
   */
  datatype ConsumeState = ConsumeState(started: bool, finished: bool, running: bool,
                                       batch: seq<Entry>, unacked: Option<StreamId>)

  /** What one pass leaves: the generator's state, the store's streams, and what it yielded. */
  datatype ConsumeOutcome = ConsumeOutcome(st: ConsumeState, streams: map<string, Stream>, y: Yield)

  /**
   * The loop after the acknowledgement: yield the rest of the current read;
   * with nothing left, end when stopped, and otherwise read up to
   * `GROUP_READ_COUNT` undelivered entries. A store error yields nothing.
   */
  function Continue(st: ConsumeState, key: string, group: string, consumer: string,
                    streams: map<string, Stream>, down: bool, now: nat): ConsumeOutcome
  {
    if st.batch != [] then
      ConsumeOutcome(st.(batch := st.batch[1..], unacked := Some(st.batch[0].id)), streams, Event(st.batch[0]))
    else if !st.running then
      ConsumeOutcome(st.(finished := true), streams, Finished)
    else if down then
      ConsumeOutcome(st, streams, Idle)
    else
      match ReadGroup(streams, key, group, consumer, GROUP_READ_COUNT, now)
      case Err(_) => ConsumeOutcome(st, streams, Idle)
      case Ok(d) =>
        if d.batch == [] then ConsumeOutcome(st, d.streams, Idle)
        else ConsumeOutcome(st.(batch := d.batch[1..], unacked := Some(d.batch[0].id)), d.streams, Event(d.batch[0]))
  }

  /**
   * A pass once started: first acknowledge the entry yielded last time. If
   * the acknowledgement fails the rest of the current read is dropped (its
   * entries stay pending) and the loop backs off.
   */
  function ConsumeResume(st: ConsumeState, key: string, group: string, consumer: string,
                         streams: map<string, Stream>, down: bool, now: nat): ConsumeOutcome
  {
    if st.unacked.Some? then
      if down then ConsumeOutcome(st.(unacked := None, batch := []), streams, Idle)
      else Continue(st.(unacked := None), key, group, consumer, Ack(streams, key, group, st.unacked.value), down, now)
    else Continue(st, key, group, consumer, streams, down, now)
  }

  /**
   * One pass of `consume`. The first pass ensures the group, and a
   * connection error there ends the generator with that error.
   */
  function ConsumeStep(st: ConsumeState, key: string, group: string, consumer: string,
                       streams: map<string, Stream>, down: bool, now: nat): (r: ConsumeOutcome)
    ensures st.finished ==> r == ConsumeOutcome(st, streams, Finished)
    ensures !st.finished && !st.started && down ==> r.y == Raised(Unreachable()) && r.st.finished && r.streams == streams
    ensures !st.finished && !st.started && !down ==> key in r.streams && group in r.streams[key].groups && r.st.running
    ensures !st.finished && st.started && st.unacked.Some? && down ==>
      r == ConsumeOutcome(st.(unacked := None, batch := []), streams, Idle)
    ensures r.y.Finished? && !st.finished ==> !r.st.running && r.st.finished && r.st.batch == []
  {
    if st.finished then ConsumeOutcome(st, streams, Finished)
    else if !st.started then
      if down then ConsumeOutcome(st.(finished := true), streams, Raised(Unreachable()))
      else ConsumeResume(st.(started := true, running := true), key, group, consumer, EnsureGroup(streams, key, group), down, now)
    else ConsumeResume(st, key, group, consumer, streams, down, now)
  }

  lemma ContinueWellFormed(st: ConsumeState, key: string, group: string, consumer: string,
                           streams: map<string, Stream>, down: bool, now: nat)
    requires AllWellFormed(streams)
    ensures AllWellFormed(Continue(st, key, group, consumer, streams, down, now).streams)
  {
    var r := ReadGroup(streams, key, group, consumer, GROUP_READ_COUNT, now);
    if r.Ok? {
      ReadGroupDeliversOnce(streams, key, group, consumer, GROUP_READ_COUNT, now);
    }
  }

  /** Consuming keeps every stream of the store well formed. */
  lemma ConsumeStepWellFormed(st: ConsumeState, key: string, group: string, consumer: string,
                              streams: map<string, Stream>, down: bool, now: nat)
    requires AllWellFormed(streams)
    ensures AllWellFormed(ConsumeStep(st, key, group, consumer, streams, down, now).streams)
  {
    if !st.finished {
      var base := if st.started then streams else EnsureGroup(streams, key, group);
      if !st.started { EnsureGroupWellFormed(streams, key, group); }
      var st1 := if st.started then st else st.(started := true, running := true);
      if st1.unacked.Some? && !down {
        var acked := Ack(base, key, group, st1.unacked.value);
        if key in base {
          AckWellFormed(base, key, group, st1.unacked.value);
        }
        assert AllWellFormed(acked);
        ContinueWellFormed(st1.(unacked := None), key, group, consumer, acked, down, now);
      } else {
        ContinueWellFormed(st1, key, group, consumer, base, down, now);
      }
    }
  }

  /**
   * Asking for the next entry acknowledges the previous one: once the pass
   * is over (and it reached the server), the group holds no pending record
   * for the entry yielded last time.
   */
  lemma ConsumeAcksPrevious(st: ConsumeState, key: string, group: string, consumer: string,
                            streams: map<string, Stream>, now: nat)
    requires st.started && !st.finished && st.unacked.Some?
    requires key in streams && WellFormed(streams[key]) && group in streams[key].groups
    requires AtMost(st.unacked.value, streams[key].groups[group].lastDelivered)
    ensures var r := ConsumeStep(st, key, group, consumer, streams, false, now);
      && key in r.streams && group in r.streams[key].groups
      && forall i :: 0 <= i < |r.streams[key].groups[group].pel| ==>
           r.streams[key].groups[group].pel[i].id != st.unacked.value
  {
    var id := st.unacked.value;
    var acked := Ack(streams, key, group, id);
    var g := acked[key].groups[group];
    assert forall p :: p in g.pel ==> p.id != id;
    forall i | 0 <= i < |g.pel| ensures g.pel[i].id != id {
      assert g.pel[i] in g.pel;
    }
    AckWellFormed(streams, key, group, id);
    ContinueKeepsOut(st.(unacked := None), key, group, consumer, acked, now, id);
  }

  /** A pass that starts with no pending record for `id` adds none. */
  lemma ContinueKeepsOut(st: ConsumeState, key: string, group: string, consumer: string,
                         streams: map<string, Stream>, now: nat, id: StreamId)
    requires key in streams && WellFormed(streams[key]) && group in streams[key].groups
    requires AtMost(id, streams[key].groups[group].lastDelivered)
    requires forall i :: 0 <= i < |streams[key].groups[group].pel| ==> streams[key].groups[group].pel[i].id != id
    ensures var r := Continue(st, key, group, consumer, streams, false, now);
      && key in r.streams && group in r.streams[key].groups
      && forall i :: 0 <= i < |r.streams[key].groups[group].pel| ==> r.streams[key].groups[group].pel[i].id != id
  {
    if st.batch == [] && st.running {
      ReadGroupKeepsOut(streams, key, group, consumer, now, id);
    }
  }

  /** A group read only adds pending records for entries after the group's position. */
  lemma ReadGroupKeepsOut(streams: map<string, Stream>, key: string, group: string, consumer: string, now: nat, id: StreamId)
    requires key in streams && WellFormed(streams[key]) && group in streams[key].groups
    requires AtMost(id, streams[key].groups[group].lastDelivered)
    requires forall i :: 0 <= i < |streams[key].groups[group].pel| ==> streams[key].groups[group].pel[i].id != id
    ensures var d := ReadGroup(streams, key, group, consumer, GROUP_READ_COUNT, now);
      && d.Ok? && key in d.value.streams && group in d.value.streams[key].groups
      && forall i :: 0 <= i < |d.value.streams[key].groups[group].pel| ==> d.value.streams[key].groups[group].pel[i].id != id
  {
    var g := streams[key].groups[group];
    ReadGroupDeliversOnce(streams, key, group, consumer, GROUP_READ_COUNT, now);
    var d := ReadGroup(streams, key, group, consumer, GROUP_READ_COUNT, now).value;
    var pel := d.streams[key].groups[group].pel;
    forall i | 0 <= i < |pel| ensures pel[i].id != id {
      if i >= |g.pel| {
        assert pel[i].id == d.batch[i - |g.pel|].id;
      }
    }
  }

  /** The report `get_pending_events` gives for one pending record at server time `now`. */
  function PendingEvent(p: Pending, now: nat): (d: Json.Dict)
    ensures d.Keys == {"message_id", "consumer", "time_since_delivered", "delivery_count"}
  {
    map[
      "message_id" := Json.Str(IdString(p.id)),
      "consumer" := Json.Str(p.consumer),
      "time_since_delivered" := Json.Int(now - p.deliveredAt),
      "delivery_count" := Json.Int(p.deliveries)
    ]
  }

  /** The reports for a pending list, in its order. */
  function PendingEvents(pel: seq<Pending>, now: nat): (r: seq<Json.Dict>)
    ensures |r| == |pel| && forall i :: 0 <= i < |pel| ==> r[i] == PendingEvent(pel[i], now)
  {
    if pel == [] then [] else [PendingEvent(pel[0], now)] + PendingEvents(pel[1..], now)
  }

  /**
   * The item the client library's `xpending_range` gives for one pending
   * record at server time `now`: its count of deliveries is filed under
   * `times_delivered`.
   */
  function ClientItem(p: Pending, now: nat): (d: Json.Dict)
    ensures d.Keys == {"message_id", "consumer", "time_since_delivered", "times_delivered"}
  {
    map[
      "message_id" := Json.Str(IdString(p.id)),
      "consumer" := Json.Str(p.consumer),
      "time_since_delivered" := Json.Int(now - p.deliveredAt),
      "times_delivered" := Json.Int(p.deliveries)
    ]
  }

  /** The client items for a pending list, in its order. */
  function ClientItems(pel: seq<Pending>, now: nat): (r: seq<Json.Dict>)
    ensures |r| == |pel| && forall i :: 0 <= i < |pel| ==> r[i] == ClientItem(pel[i], now)
  {
    if pel == [] then [] else [ClientItem(pel[0], now)] + ClientItems(pel[1..], now)
  }

  /**
   * The report built from one client item as the source writes it: it looks
   * up `message_id`, `consumer`, `time_since_delivered` and `delivery_count`
   * in that order, and a missing key raises KeyError, a `LookupError` and not
   * a `RedisError`.
   */
  function ReportAsWritten(item: Json.Dict): (r: Result<Json.Dict, Exception>)
    ensures r.Err? <==> !({"message_id", "consumer", "time_since_delivered", "delivery_count"} <= item.Keys)
    ensures r.Err? ==> r.error.LookupError? && !r.error.IsRedisError()
    ensures r.Ok? ==> r.value.Keys == {"message_id", "consumer", "time_since_delivered", "delivery_count"}
  {
    if "message_id" !in item then Err(LookupError("message_id"))
    else if "consumer" !in item then Err(LookupError("consumer"))
    else if "time_since_delivered" !in item then Err(LookupError("time_since_delivered"))
    else if "delivery_count" !in item then Err(LookupError("delivery_count"))
    else Ok(map[
      "message_id" := item["message_id"],
      "consumer" := item["consumer"],
      "time_since_delivered" := item["time_since_delivered"],
      "delivery_count" := item["delivery_count"]
    ])
  }

  /** The source's report loop over the client items: the first failing lookup is raised. */
  function ReportsAsWritten(items: seq<Json.Dict>): (r: Result<seq<Json.Dict>, Exception>)
    ensures r.Ok? ==> |r.value| == |items|
    ensures r.Err? ==> r.error.LookupError? && !r.error.IsRedisError()
  {
    if items == [] then Ok([])
    else match ReportAsWritten(items[0])
      case Err(e) => Err(e)
      case Ok(d) =>
        match ReportsAsWritten(items[1..])
        case Err(e) => Err(e)
        case Ok(ds) => Ok([d] + ds)
  }

  lemma {:induction false} ReportsAsWrittenAppend(items: seq<Json.Dict>, item: Json.Dict)
    requires ReportsAsWritten(items).Ok?
    ensures ReportsAsWritten(items + [item]) == match ReportAsWritten(item)
      case Err(e) => Err(e)
      case Ok(d) => Ok(ReportsAsWritten(items).value + [d])
  {
    if items == [] {
      assert [item][1..] == [];
      match ReportAsWritten(item)
      case Err(e) =>
      case Ok(d) =>
        assert items + [item] == [item];
        assert ReportsAsWritten([item][1..]) == Ok([]);
        assert ReportsAsWritten([item]) == Ok([d] + []);
        assert ReportsAsWritten(items).value == [];
        assert [d] + [] == [] + [d];
    } else {
      var d0 := ReportAsWritten(items[0]).value;
      var ds := ReportsAsWritten(items[1..]).value;
      assert (items + [item])[0] == items[0];
      assert (items + [item])[1..] == items[1..] + [item];
      ReportsAsWrittenAppend(items[1..], item);
      match ReportAsWritten(item)
      case Err(e) =>
      case Ok(d) =>
        assert [d0] + (ds + [d]) == ([d0] + ds) + [d];
    }
  }

  lemma {:induction false} ReportsAsWrittenFailFrom(items: seq<Json.Dict>, rest: seq<Json.Dict>)
    requires ReportsAsWritten(items).Err?
    ensures ReportsAsWritten(items + rest) == ReportsAsWritten(items)
  {
    assert items != [];
    assert (items + rest)[0] == items[0];
    if ReportAsWritten(items[0]).Ok? {
      assert (items + rest)[1..] == items[1..] + rest;
      ReportsAsWrittenFailFrom(items[1..], rest);
    }
  }

  /**
   * As written, a non-empty pending list cannot be reported: the first item
   * has no `delivery_count` key, so the loop raises KeyError, which the
   * `except RedisError` clause lets through.
   */
  lemma PendingReportRaises(pel: seq<Pending>, now: nat)
    requires pel != []
    ensures ReportsAsWritten(ClientItems(pel, now)) == Err(LookupError("delivery_count"))
    ensures !LookupError("delivery_count").IsRedisError()
  {
    var items := ClientItems(pel, now);
    assert "delivery_count" !in items[0];
    assert ReportAsWritten(items[0]) == Err(LookupError("delivery_count"));
  }

  /**
   * A consumer that receives an entry and does not acknowledge it leaves the
   * group with a non-empty pending list, so a following pending report as
   * written raises KeyError.
   */
  lemma UnackedDeliveryRaises(streams: map<string, Stream>, key: string, group: string, consumer: string, now: nat, later: nat)
    requires key in streams && group in streams[key].groups
    requires After(streams[key].entries, streams[key].groups[group].lastDelivered) != []
    ensures var d := ReadGroup(streams, key, group, consumer, GROUP_READ_COUNT, now).value;
      && d.batch != []
      && PendingRange(d.streams, key, group, PENDING_LIMIT as nat).Ok?
      && ReportsAsWritten(ClientItems(PendingRange(d.streams, key, group, PENDING_LIMIT as nat).value, later))
         == Err(LookupError("delivery_count"))
  {
    var d := ReadGroup(streams, key, group, consumer, GROUP_READ_COUNT, now).value;
    var g := streams[key].groups[group];
    assert |d.batch| > 0;
    var pel := d.streams[key].groups[group].pel;
    assert pel == g.pel + PendingFor(d.batch, consumer, now);
    assert |pel| > 0;
    var listed := PendingRange(d.streams, key, group, PENDING_LIMIT as nat).value;
    assert |listed| > 0;
    PendingReportRaises(listed, later);
  }

  /**
   * The corrected report reads the client's own fields: the delivery count
   * it reports is the item's `times_delivered`, and the other three fields
   * are the item's.
   */
  lemma PendingEventReadsClientItem(p: Pending, now: nat)
    ensures var d := PendingEvent(p, now);
      var item := ClientItem(p, now);
      && d["delivery_count"] == item["times_delivered"]
      && d["message_id"] == item["message_id"]
      && d["consumer"] == item["consumer"]
      && d["time_since_delivered"] == item["time_since_delivered"]
  {
  }

  /** The source's report loop over a list of client items. */
  method ReportItems(items: seq<Json.Dict>) returns (r: Result<seq<Json.Dict>, Exception>)
    ensures r == ReportsAsWritten(items)
  {
    var result: seq<Json.Dict> := [];
    var i := 0;
    while i < |items|
      invariant 0 <= i <= |items|
      invariant ReportsAsWritten(items[..i]) == Ok(result)
    {
      assert items[..i + 1] == items[..i] + [items[i]];
      ReportsAsWrittenAppend(items[..i], items[i]);
      var report := ReportAsWritten(items[i]);
      if report.Err? {
        assert items == items[..i + 1] + items[i + 1..];
        ReportsAsWrittenFailFrom(items[..i + 1], items[i + 1..]);
        return Err(report.error);
      }
      result := result + [report.value];
      i := i + 1;
    }
    assert items[..|items|] == items;
    return Ok(result);
  }

  /** A named consumer group over the task streams of a shared store. */
  class ConsumerGroup {
    const store: RedisStore
    const groupName: string
    const prefix: string
    var running: bool

    constructor (store: RedisStore, groupName: string, prefix: string := STREAM_PREFIX)
      ensures this.store == store && this.groupName == groupName && this.prefix == prefix && !running
    {
      this.store := store;
      this.groupName := groupName;
      this.prefix := prefix;
      running := false;
    }

    /**
     * Creates the group on `key` from the start of the stream; an error
     * reply (the group exists) is ignored, a connection error is raised.
     */
    method EnsureGroupAt(key: string) returns (r: Result<(), Exception>)
      requires store.Valid()
      modifies store
      ensures store.Valid() && store.clock == old(store.clock) && store.down == old(store.down)
      ensures old(store.down) ==> r == Err(Unreachable()) && store.streams == old(store.streams)
      ensures !old(store.down) ==> r == Ok(()) && store.streams == EnsureGroup(old(store.streams), key, groupName)
    {
      var created := store.XGroupCreate(key, groupName);
      match created
      case Ok(_) =>
        return Ok(());
      case Err(e) =>
        if e.ResponseError? {
          return Ok(());
        }
        return Err(e);
    }

    /** A new, not yet started `consume` generator for the task's stream. */
    method Consume(taskId: string, consumer: string) returns (g: Consumption)
      ensures fresh(g) && g.owner == this && g.key == StreamKey(prefix, taskId) && g.consumer == consumer
      ensures !g.started && !g.finished && g.batch == [] && g.unacked.None?
    {
      g := new Consumption(this, StreamKey(prefix, taskId), consumer);
    }

    /** Asks every `consume` generator of this group object to end. */
    method Stop()
      modifies this
      ensures !running
    {
      running := false;
    }

    /**
     * Up to `count` pending records of the group on the task's stream, in
     * id order, as reports; a negative `count` (which the client refuses)
     * and any store error give the empty list.
     */
    method GetPendingEvents(taskId: string, count: int := PENDING_LIMIT) returns (r: seq<Json.Dict>)
      ensures count < 0 || store.down ==> r == []
      ensures count >= 0 && !store.down ==> match PendingRange(store.streams, StreamKey(prefix, taskId), groupName, count)
        case Ok(pel) => r == PendingEvents(pel, store.clock)
        case Err(_) => r == []
    {
      if count < 0 {
        return [];
      }
      var pending := store.XPendingRange(StreamKey(prefix, taskId), groupName, count);
      match pending
      case Err(_) =>
        return [];
      case Ok(pel) =>
        var result: seq<Json.Dict> := [];
        var i := 0;
        while i < |pel|
          invariant 0 <= i <= |pel|
          invariant result == PendingEvents(pel[..i], store.clock)
        {
          assert pel[..i + 1] == pel[..i] + [pel[i]];
          PendingEventsAppend(pel[..i], pel[i], store.clock);
          result := result + [PendingEvent(pel[i], store.clock)];
          i := i + 1;
        }
        assert pel[..|pel|] == pel;
        return result;
    }

    /**
     * `get_pending_events` as the source writes it: each client item is read
     * under `delivery_count`, which the item does not have, so the KeyError of
     * the first item escapes; only a negative `count` (refused by the client)
     * or a store error gives the empty list.
     */
    method GetPendingEventsAsWritten(taskId: string, count: int := PENDING_LIMIT)
      returns (r: Result<seq<Json.Dict>, Exception>)
      ensures count < 0 || store.down ==> r == Ok([])
      ensures count >= 0 && !store.down ==> match PendingRange(store.streams, StreamKey(prefix, taskId), groupName, count)
        case Ok(pel) => r == ReportsAsWritten(ClientItems(pel, store.clock))
        case Err(_) => r == Ok([])
    {
      if count < 0 {
        return Ok([]);
      }
      var pending := store.XPendingRange(StreamKey(prefix, taskId), groupName, count);
      match pending
      case Err(_) =>
        return Ok([]);
      case Ok(pel) =>
        r := ReportItems(ClientItems(pel, store.clock));
    }
  }

  lemma PendingEventsAppend(pel: seq<Pending>, p: Pending, now: nat)
    ensures PendingEvents(pel + [p], now) == PendingEvents(pel, now) + [PendingEvent(p, now)]
  {
  }

  /** A running `consume` generator; see `ConsumeStep` for what one pass does. */
  class Consumption {
    const owner: ConsumerGroup
    const key: string
    const consumer: string
    var started: bool
    var finished: bool
    var batch: seq<Entry>
    var unacked: Option<StreamId>

    constructor (owner: ConsumerGroup, key: string, consumer: string)
      ensures this.owner == owner && this.key == key && this.consumer == consumer
      ensures !started && !finished && batch == [] && unacked.None?
    {
      this.owner := owner;
      this.key := key;
      this.consumer := consumer;
      started := false;
      finished := false;
      batch := [];
      unacked := None;
    }

    function State(): ConsumeState
      reads this, owner
    {
      ConsumeState(started, finished, owner.running, batch, unacked)
    }

    /** One pass of the generator against the store as it is now. */
    method Next() returns (y: Yield)
      requires owner.store.Valid()
      modifies this, owner, owner.store
      ensures owner.store.Valid() && owner.store.clock == old(owner.store.clock) && owner.store.down == old(owner.store.down)
      ensures ConsumeOutcome(State(), owner.store.streams, y)
           == ConsumeStep(old(State()), key, owner.groupName, consumer, old(owner.store.streams), old(owner.store.down), old(owner.store.clock))
    {
      var store := owner.store;
      if finished {
        return Finished;
      }
      if !started {
        var ensured := owner.EnsureGroupAt(key);
        if ensured.Err? {
          finished := true;
          return Raised(ensured.error);
        }
        started := true;
        owner.running := true;
      }
      y := Resume();
    }

    /** A pass once started: the acknowledgement of the last entry, then `Deliver`. */
    method Resume() returns (y: Yield)
      requires owner.store.Valid()
      modifies this, owner.store
      ensures owner.store.Valid() && owner.store.clock == old(owner.store.clock) && owner.store.down == old(owner.store.down)
      ensures ConsumeOutcome(State(), owner.store.streams, y)
           == ConsumeResume(old(State()), key, owner.groupName, consumer, old(owner.store.streams), old(owner.store.down), old(owner.store.clock))
    {
      var store := owner.store;
      if unacked.Some? {
        var id := unacked.value;
        unacked := None;
        var acked := store.XAck(key, owner.groupName, id);
        if acked.Err? {
          batch := [];
          return Idle;
        }
      }
      y := Deliver();
    }

    /** The part of a pass after the acknowledgement: the next entry of the batch, or a new read. */
    method Deliver() returns (y: Yield)
      requires owner.store.Valid()
      modifies this, owner.store
      ensures owner.store.Valid() && owner.store.clock == old(owner.store.clock) && owner.store.down == old(owner.store.down)
      ensures ConsumeOutcome(State(), owner.store.streams, y)
           == Continue(old(State()), key, owner.groupName, consumer, old(owner.store.streams), old(owner.store.down), old(owner.store.clock))
    {
      var store := owner.store;
      if batch != [] {
        var e := batch[0];
        batch := batch[1..];
        unacked := Some(e.id);
        return Event(e);
      }
      if !owner.running {
        finished := true;
        return Finished;
      }
      var reply := store.XReadGroup(key, owner.groupName, consumer, GROUP_READ_COUNT);
      match reply
      case Err(_) =>
        return Idle;
      case Ok(es) =>
        if es == [] {
          return Idle;
        }
        batch := es[1..];
        unacked := Some(es[0].id);
        return Event(es[0]);
    }

    /**
     * The consumer abandons the generator: a started one clears `running`;
     * the entry yielded last is not acknowledged.
     */
    method Close()
      modifies this, owner
      ensures finished && batch == [] && unacked == old(unacked) && started == old(started)
      ensures old(started) && !old(finished) ==> !owner.running
      ensures !(old(started) && !old(finished)) ==> owner.running == old(owner.running)
    {
      if started && !finished {
        owner.running := false;
      }
      finished := true;
      batch := [];
    }
  }
}
