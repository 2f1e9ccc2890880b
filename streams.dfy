/**
 * The Redis stream store that the event log is built on, as far as the
 * core uses it: per-key logs of `(id, data)` entries with strictly
 * increasing ids, MAXLEN trimming, exclusive range reads, consumer groups
 * with a pending-entries list, acknowledgement and pending inspection.
 *
 * The log's behaviour is given by pure functions over `Stream` values;
 * `RedisStore` is the shared, mutable server that the publisher, the
 * subscriber and the consumer group talk to.
 */
module Streams {
  import opened Wrappers
  import opened Errors
  import Text
  import Json

  /** A stream entry id, `<milliseconds>-<sequence>`. */
  datatype StreamId = StreamId(ms: nat, sq: nat)

  /** Ids are ordered by milliseconds, then by sequence number. */
  predicate Before(a: StreamId, b: StreamId) {
    a.ms < b.ms || (a.ms == b.ms && a.sq < b.sq)
  }

  /** `a <= b` in id order. */
  predicate AtMost(a: StreamId, b: StreamId) {
    !Before(b, a)
  }

  const Zero: StreamId := StreamId(0, 0)

  /** The id order is a strict total order. */
  lemma BeforeIsStrictTotalOrder(a: StreamId, b: StreamId, c: StreamId)
    ensures !Before(a, a)
    ensures Before(a, b) && Before(b, c) ==> Before(a, c)
    ensures a == b || Before(a, b) || Before(b, a)
    ensures Before(a, b) ==> !Before(b, a)
  {
  }

  /** The text form of an id, as Redis returns it. */
  function IdString(id: StreamId): string {
    Text.NatToString(id.ms) + "-" + Text.NatToString(id.sq)
  }

  /** Parses `<ms>-<seq>`, or `<ms>` alone (sequence 0), as Redis parses an id argument. */
  function ParseId(s: string): Option<StreamId> {
    match Text.IndexOf(s, '-')
    case None =>
      (match Text.ParseNat(s)
       case Some(ms) => Some(StreamId(ms, 0))
       case None => None)
    case Some(k) =>
      (match (Text.ParseNat(s[..k]), Text.ParseNat(s[k + 1..]))
       case (Some(ms), Some(sq)) => Some(StreamId(ms, sq))
       case _ => None)
  }

  /** An id handed out as text is read back as the same id. */
  lemma ParseIdString(id: StreamId)
    ensures ParseId(IdString(id)) == Some(id)
  {
    var a, b := Text.NatToString(id.ms), Text.NatToString(id.sq);
    var s := IdString(id);
    assert s == a + "-" + b;
    assert s[..|a|] == a;
    assert s[|a| + 1..] == b;
    assert '-' !in s[..|a|] by {
      forall i | 0 <= i < |a| ensures s[i] != '-' {
        assert Text.IsDigit(a[i]);
      }
    }
    Text.IndexOfFirst(s, '-', |a|);
    Text.ParseNatToString(id.ms);
    Text.ParseNatToString(id.sq);
  }

  /** Id text is digits and one dash: it never holds a line break. */
  lemma IdStringHasNoNewline(id: StreamId)
    ensures '\n' !in IdString(id)
  {
    var a, b := Text.NatToString(id.ms), Text.NatToString(id.sq);
    assert IdString(id) == a + "-" + b;
    assert forall i :: 0 <= i < |a| ==> Text.IsDigit(a[i]);
    assert forall i :: 0 <= i < |b| ==> Text.IsDigit(b[i]);
  }

  /** One stream entry; `data` is the decoded content of the entry's `data` field. */
  datatype Entry = Entry(id: StreamId, data: Json.Dict)

  predicate Increasing(es: seq<Entry>) {
    forall i, j :: 0 <= i < j < |es| ==> Before(es[i].id, es[j].id)
  }

  /** The ids of a log, in order. */
  function Ids(es: seq<Entry>): (r: seq<StreamId>)
    ensures |r| == |es| && forall i :: 0 <= i < |es| ==> r[i] == es[i].id
  {
    if es == [] then [] else [es[0].id] + Ids(es[1..])
  }

  /** The entries whose id is strictly after `id`, in log order. */
  function After(es: seq<Entry>, id: StreamId): (r: seq<Entry>)
    ensures |r| <= |es|
  {
    if es == [] then []
    else if Before(id, es[0].id) then [es[0]] + After(es[1..], id)
    else After(es[1..], id)
  }

  /** The entries whose id is `id` or later, in log order. */
  function From(es: seq<Entry>, id: StreamId): (r: seq<Entry>)
    ensures |r| <= |es|
  {
    if es == [] then []
    else if AtMost(id, es[0].id) then [es[0]] + From(es[1..], id)
    else From(es[1..], id)
  }

  /** `After` keeps exactly the entries later than the bound. */
  lemma {:induction false} AfterMembers(es: seq<Entry>, id: StreamId, e: Entry)
    ensures e in After(es, id) <==> e in es && Before(id, e.id)
  {
    if es != [] {
      AfterMembers(es[1..], id, e);
      assert es == [es[0]] + es[1..];
    }
  }

  /** On an increasing log, the entries after the i-th entry are the rest of the log. */
  lemma {:induction false} AfterEntry(es: seq<Entry>, i: nat)
    requires Increasing(es) && i < |es|
    ensures After(es, es[i].id) == es[i + 1..]
  {
    if i == 0 {
      AfterAll(es[1..], es[0].id);
    } else {
      assert es[1..][i - 1] == es[i];
      AfterEntry(es[1..], i - 1);
      assert !Before(es[i].id, es[0].id) && es[i] != es[0] by {
        assert Before(es[0].id, es[i].id);
      }
    }
  }

  /** When every entry is later than the bound, nothing is dropped. */
  lemma {:induction false} AfterAll(es: seq<Entry>, id: StreamId)
    requires forall i :: 0 <= i < |es| ==> Before(id, es[i].id)
    ensures After(es, id) == es
  {
    if es != [] {
      AfterAll(es[1..], id);
    }
  }

  /** When no entry is later than the bound, nothing is kept. */
  lemma {:induction false} AfterNone(es: seq<Entry>, id: StreamId)
    requires forall i :: 0 <= i < |es| ==> AtMost(es[i].id, id)
    ensures After(es, id) == []
  {
    if es != [] {
      AfterNone(es[1..], id);
    }
  }

  lemma {:induction false} AfterConcat(a: seq<Entry>, b: seq<Entry>, id: StreamId)
    ensures After(a + b, id) == After(a, id) + After(b, id)
  {
    if a == [] {
      assert a + b == b;
    } else {
      assert (a + b)[1..] == a[1..] + b;
      AfterConcat(a[1..], b, id);
    }
  }

  /**
   * On an increasing log the entries after a bound are a suffix of it: the
   * ones before the split are at most the bound, the rest are later.
   */
  lemma {:induction false} AfterSplit(es: seq<Entry>, id: StreamId)
    requires Increasing(es)
    ensures var j := |es| - |After(es, id)|;
      && After(es, id) == es[j..]
      && (forall i :: 0 <= i < j ==> AtMost(es[i].id, id))
      && (forall i :: j <= i < |es| ==> Before(id, es[i].id))
  {
    if es != [] {
      AfterSplit(es[1..], id);
      if Before(id, es[0].id) {
        forall i | 0 <= i < |es[1..]| ensures Before(id, es[1..][i].id) {
          assert Before(es[0].id, es[i + 1].id);
        }
        AfterAll(es[1..], id);
      }
    }
  }

  lemma AfterIncreasing(es: seq<Entry>, id: StreamId)
    requires Increasing(es)
    ensures Increasing(After(es, id))
    ensures forall i :: 0 <= i < |After(es, id)| ==> Before(id, After(es, id)[i].id)
  {
    AfterSplit(es, id);
  }

  /** The items of `s` up to `n` of them (`s[:n]`). */
  function Take<T>(s: seq<T>, n: nat): (r: seq<T>)
    ensures |r| == if n < |s| then n else |s|
    ensures r == s[..|r|]
  {
    if n < |s| then s[..n] else s
  }

  /** The newest `maxlen` entries of a log (exact MAXLEN trimming). */
  function Trim(es: seq<Entry>, maxlen: nat): (r: seq<Entry>)
    ensures |r| == if |es| > maxlen then maxlen else |es|
    ensures r == es[|es| - |r|..]
  {
    if |es| > maxlen then es[|es| - maxlen..] else es
  }

  /**
   * Trimming loses nothing after a bound as long as no more than `maxlen`
   * entries follow it: a reader whose cursor is within the newest `maxlen`
   * entries sees no gap.
   */
  lemma {:induction false} TrimKeepsTail(es: seq<Entry>, maxlen: nat, id: StreamId)
    requires Increasing(es)
    requires |After(es, id)| <= maxlen
    ensures After(Trim(es, maxlen), id) == After(es, id)
  {
    if |es| > maxlen {
      AfterSplit(es, id);
      AfterDropPrefix(es, |es| - maxlen, id);
    }
  }

  /** Dropping entries no later than the bound does not change what follows it. */
  lemma {:induction false} AfterDropPrefix(es: seq<Entry>, k: nat, id: StreamId)
    requires k <= |es|
    requires forall i :: 0 <= i < k ==> AtMost(es[i].id, id)
    ensures After(es[k..], id) == After(es, id)
  {
    if k > 0 {
      assert es[1..][k - 1..] == es[k..];
      AfterDropPrefix(es[1..], k - 1, id);
    }
  }

  /** A pending-entries-list record: delivered to `consumer`, not yet acknowledged. */
  datatype Pending = Pending(id: StreamId, consumer: string, deliveredAt: nat, deliveries: nat)

  /** A consumer group: the last id it handed out and its pending entries. */
  datatype Group = Group(lastDelivered: StreamId, pel: seq<Pending>)

  /** One stream key: its retained entries, the last id ever added, its groups. */
  datatype Stream = Stream(entries: seq<Entry>, lastId: StreamId, groups: map<string, Group>)

  const EmptyStream: Stream := Stream([], Zero, map[])

  predicate PelIncreasing(pel: seq<Pending>) {
    forall i, j :: 0 <= i < j < |pel| ==> Before(pel[i].id, pel[j].id)
  }

  predicate GroupWellFormed(g: Group, lastId: StreamId) {
    && AtMost(g.lastDelivered, lastId)
    && PelIncreasing(g.pel)
    && forall i :: 0 <= i < |g.pel| ==> AtMost(g.pel[i].id, g.lastDelivered)
  }

  /** Entries increase and none is later than the last id; every group is consistent. */
  predicate WellFormed(s: Stream) {
    && Increasing(s.entries)
    && (forall i :: 0 <= i < |s.entries| ==> Before(Zero, s.entries[i].id))
    && (forall i :: 0 <= i < |s.entries| ==> AtMost(s.entries[i].id, s.lastId))
    && forall name :: name in s.groups ==> GroupWellFormed(s.groups[name], s.lastId)
  }

  /** The stream stored under `key`; a missing key reads as an empty stream. */
  function StreamAt(streams: map<string, Stream>, key: string): Stream {
    if key in streams then streams[key] else EmptyStream
  }

  /** Redis's automatic id for an entry added at server time `now`. */
  function NextId(last: StreamId, now: nat): (id: StreamId)
    ensures Before(last, id)
  {
    if now > last.ms then StreamId(now, 0) else StreamId(last.ms, last.sq + 1)
  }

  /** `XADD key MAXLEN maxlen * data=...` at server time `now`. */
  function Add(s: Stream, data: Json.Dict, now: nat, maxlen: nat): (r: Stream)
    ensures Before(s.lastId, r.lastId) && r.groups == s.groups
  {
    var id := NextId(s.lastId, now);
    s.(entries := Trim(s.entries + [Entry(id, data)], maxlen), lastId := id)
  }

  /**
   * Adding appends exactly one entry, with an id later than every id the
   * stream has handed out, and then keeps the newest `maxlen` entries.
   */
  lemma AddAppends(s: Stream, data: Json.Dict, now: nat, maxlen: nat)
    requires WellFormed(s)
    ensures var s' := Add(s, data, now, maxlen);
      && Before(s.lastId, s'.lastId)
      && s'.entries == Trim(s.entries + [Entry(s'.lastId, data)], maxlen)
      && |s'.entries| <= maxlen
      && (maxlen > 0 ==> s'.entries[|s'.entries| - 1] == Entry(s'.lastId, data))
      && s'.groups == s.groups
      && WellFormed(s')
  {
    var s' := Add(s, data, now, maxlen);
    var es := s.entries + [Entry(s'.lastId, data)];
    AppendEntry(s.entries, Entry(s'.lastId, data), s.lastId);
    SuffixKeeps(es, |es| - |s'.entries|, s'.lastId);
    forall name | name in s'.groups ensures GroupWellFormed(s'.groups[name], s'.lastId) {
      assert GroupWellFormed(s.groups[name], s.lastId);
    }
  }

  /** Entries increasing, all after `Zero` and none later than `last`. */
  predicate Bounded(es: seq<Entry>, last: StreamId) {
    && Increasing(es)
    && (forall i :: 0 <= i < |es| ==> Before(Zero, es[i].id))
    && (forall i :: 0 <= i < |es| ==> AtMost(es[i].id, last))
  }

  /** An entry later than every id so far extends a bounded log to one bounded by its id. */
  lemma AppendEntry(es: seq<Entry>, e: Entry, last: StreamId)
    requires Bounded(es, last) && Before(last, e.id)
    ensures Bounded(es + [e], e.id)
  {
    var es' := es + [e];
    forall i, j | 0 <= i < j < |es'| ensures Before(es'[i].id, es'[j].id) {
      if j == |es'| - 1 {
        assert AtMost(es[i].id, last);
      }
    }
  }

  /** A suffix of a bounded log is bounded. */
  lemma SuffixKeeps(es: seq<Entry>, k: nat, last: StreamId)
    requires Bounded(es, last) && k <= |es|
    ensures Bounded(es[k..], last)
  {
    var t := es[k..];
    assert forall i :: 0 <= i < |t| ==> t[i] == es[k + i];
  }

  /** Adds each `(data, now)` in turn, as a sequence of `XADD` calls. */
  function AddAll(s: Stream, adds: seq<(Json.Dict, nat)>, maxlen: nat): Stream
    decreases |adds|
  {
    if adds == [] then s else AddAll(Add(s, adds[0].0, adds[0].1, maxlen), adds[1..], maxlen)
  }

  /** The entries a sequence of adds creates, before any trimming. */
  function Fresh(last: StreamId, adds: seq<(Json.Dict, nat)>): seq<Entry>
    decreases |adds|
  {
    if adds == [] then []
    else
      var id := NextId(last, adds[0].1);
      [Entry(id, adds[0].0)] + Fresh(id, adds[1..])
  }

  /** Trimming twice to the same length is trimming the whole. */
  lemma TrimAppendTrim(a: seq<Entry>, b: seq<Entry>, maxlen: nat)
    ensures Trim(Trim(a, maxlen) + b, maxlen) == Trim(a + b, maxlen)
  {
    var t := Trim(a, maxlen);
    assert a == a[..|a| - |t|] + t;
    assert a + b == a[..|a| - |t|] + (t + b);
  }

  /**
   * Bounded retention: after any sequence of adds the stream holds the
   * newest `maxlen` of its former entries followed by everything added, in
   * order of addition.
   */
  lemma {:induction false} Retention(s: Stream, adds: seq<(Json.Dict, nat)>, maxlen: nat)
    requires |s.entries| <= maxlen
    ensures AddAll(s, adds, maxlen).entries == Trim(s.entries + Fresh(s.lastId, adds), maxlen)
    decreases |adds|
  {
    if adds == [] {
      assert s.entries + [] == s.entries;
    } else {
      var s1 := Add(s, adds[0].0, adds[0].1, maxlen);
      var e := Entry(s1.lastId, adds[0].0);
      Retention(s1, adds[1..], maxlen);
      TrimAppendTrim(s.entries + [e], Fresh(s1.lastId, adds[1..]), maxlen);
      assert s.entries + [e] + Fresh(s1.lastId, adds[1..]) == s.entries + Fresh(s.lastId, adds);
    }
  }

  /** Adding keeps a stream well formed, however many adds there are. */
  lemma {:induction false} AddAllWellFormed(s: Stream, adds: seq<(Json.Dict, nat)>, maxlen: nat)
    requires WellFormed(s)
    ensures WellFormed(AddAll(s, adds, maxlen))
    decreases |adds|
  {
    if adds != [] {
      AddAppends(s, adds[0].0, adds[0].1, maxlen);
      AddAllWellFormed(Add(s, adds[0].0, adds[0].1, maxlen), adds[1..], maxlen);
    }
  }

  /** The argument forms a start position can take: `-`, `(<id>` or `<id>`. */
  datatype Lower = Minimum | Exclusive(id: StreamId) | Inclusive(id: StreamId)

  /** How XRANGE reads its `min` argument. */
  function ParseLower(spec: string): Option<Lower> {
    if spec == "-" then Some(Minimum)
    else if |spec| > 0 && spec[0] == '(' then
      (match ParseId(spec[1..]) case Some(id) => Some(Exclusive(id)) case None => None)
    else
      (match ParseId(spec) case Some(id) => Some(Inclusive(id)) case None => None)
  }

  /**
   * How the blocking read reads its start argument: entries strictly after
   * the id named, whether it is written `<id>` or `(<id>`.
   */
  function ParseStart(spec: string): Option<StreamId> {
    if |spec| > 0 && spec[0] == '(' then ParseId(spec[1..]) else ParseId(spec)
  }

  function BadId(spec: string): Exception {
    ResponseError("Invalid stream ID specified as stream command argument: " + spec)
  }

  /** `XREAD COUNT count STREAMS key start` on a reachable server. */
  function Read(streams: map<string, Stream>, key: string, start: string, count: nat): (r: Result<seq<Entry>, Exception>)
    ensures ParseStart(start).None? <==> r.Err?
    ensures r.Ok? ==> r.value == Take(After(StreamAt(streams, key).entries, ParseStart(start).value), count)
  {
    match ParseStart(start)
    case None => Err(BadId(start))
    case Some(id) => Ok(Take(After(StreamAt(streams, key).entries, id), count))
  }

  /**
   * `XREAD` as a Redis server reads it: its start argument must be a
   * plain id (`$` is not used here); the `(<id>` form is refused.
   */
  function StrictRead(streams: map<string, Stream>, key: string, start: string, count: nat): (r: Result<seq<Entry>, Exception>)
    ensures ParseId(start).None? <==> r.Err?
    ensures r.Ok? ==> r.value == Take(After(StreamAt(streams, key).entries, ParseId(start).value), count)
  {
    match ParseId(start)
    case None => Err(BadId(start))
    case Some(id) => Ok(Take(After(StreamAt(streams, key).entries, id), count))
  }

  /** No id is written with a leading `(`, so the strict read refuses every such start. */
  lemma StrictReadRefusesExclusive(streams: map<string, Stream>, key: string, rest: string, count: nat)
    ensures StrictRead(streams, key, "(" + rest, count) == Err(BadId("(" + rest))
  {
    var spec := "(" + rest;
    assert !Text.IsDigit(spec[0]);
    match Text.IndexOf(spec, '-')
    case None =>
    case Some(k) =>
      assert spec[..k][0] == spec[0];
  }

  /** On a plain id the strict read and the model's read agree. */
  lemma StrictReadAgrees(streams: map<string, Stream>, key: string, start: string, count: nat)
    requires |start| == 0 || start[0] != '('
    ensures StrictRead(streams, key, start, count) == Read(streams, key, start, count)
  {
  }

  /** `XRANGE key min + COUNT count` on a reachable server. */
  function Range(streams: map<string, Stream>, key: string, min: string, count: nat): (r: Result<seq<Entry>, Exception>)
    ensures ParseLower(min).None? <==> r.Err?
  {
    var es := StreamAt(streams, key).entries;
    match ParseLower(min)
    case None => Err(BadId(min))
    case Some(Minimum) => Ok(Take(es, count))
    case Some(Exclusive(id)) => Ok(Take(After(es, id), count))
    case Some(Inclusive(id)) => Ok(Take(From(es, id), count))
  }

  /** `XGROUP CREATE key group 0 MKSTREAM`: fails when the group already exists. */
  function CreateGroup(streams: map<string, Stream>, key: string, group: string): (r: Result<map<string, Stream>, Exception>)
    ensures r.Err? <==> key in streams && group in streams[key].groups
    ensures r.Ok? ==> r.value == streams[key := StreamAt(streams, key).(groups := StreamAt(streams, key).groups[group := Group(Zero, [])])]
  {
    var s := StreamAt(streams, key);
    if group in s.groups then Err(ResponseError("BUSYGROUP Consumer Group name already exists"))
    else Ok(streams[key := s.(groups := s.groups[group := Group(Zero, [])])])
  }

  function NoGroup(key: string, group: string): Exception {
    ResponseError("NOGROUP No such key '" + key + "' or consumer group '" + group + "'")
  }

  /** The pending records a read at server time `now` adds for the entries it delivers. */
  function PendingFor(batch: seq<Entry>, consumer: string, now: nat): (r: seq<Pending>)
    ensures |r| == |batch|
    ensures forall i :: 0 <= i < |batch| ==> r[i] == Pending(batch[i].id, consumer, now, 1)
  {
    if batch == [] then [] else [Pending(batch[0].id, consumer, now, 1)] + PendingFor(batch[1..], consumer, now)
  }

  /** What one `XREADGROUP ... >` returns: the new streams and the delivered entries. */
  datatype Delivery = Delivery(streams: map<string, Stream>, batch: seq<Entry>)

  /**
   * `XREADGROUP GROUP group consumer COUNT count STREAMS key >` at server
   * time `now`: the next `count` entries after the group's last delivered
   * id go to `consumer`, enter the pending list, and move the group's
   * position past them.
   */
  function ReadGroup(streams: map<string, Stream>, key: string, group: string, consumer: string, count: nat, now: nat)
    : (r: Result<Delivery, Exception>)
    ensures r.Err? <==> key !in streams || group !in streams[key].groups
    ensures r.Ok? ==>
      var s := streams[key];
      var g := s.groups[group];
      && r.value.batch == Take(After(s.entries, g.lastDelivered), count)
      && r.value.streams == streams[key := s.(groups := s.groups[group := Group(
           Advance(g.lastDelivered, r.value.batch),
           g.pel + PendingFor(r.value.batch, consumer, now))])]
  {
    if key !in streams || group !in streams[key].groups then Err(NoGroup(key, group))
    else
      var s := streams[key];
      var g := s.groups[group];
      var batch := Take(After(s.entries, g.lastDelivered), count);
      var g' := Group(Advance(g.lastDelivered, batch), g.pel + PendingFor(batch, consumer, now));
      Ok(Delivery(streams[key := s.(groups := s.groups[group := g'])], batch))
  }

  /** The position a group moves to after delivering `batch`. */
  function Advance(last: StreamId, batch: seq<Entry>): StreamId {
    if batch == [] then last else batch[|batch| - 1].id
  }

  /**
   * The next `count` entries after a position are in id order, all later
   * than the position and no later than the new position, and they are all
   * the log's entries in that interval.
   */
  lemma {:induction false} NextBatch(es: seq<Entry>, last: StreamId, count: nat)
    requires Increasing(es)
    ensures var batch := Take(After(es, last), count);
      && Increasing(batch)
      && (forall i :: 0 <= i < |batch| ==>
            Before(last, batch[i].id) && AtMost(batch[i].id, Advance(last, batch)))
      && (forall e :: e in es && Before(last, e.id) && AtMost(e.id, Advance(last, batch)) ==> e in batch)
      && (batch != [] ==> batch[|batch| - 1] in es)
  {
    var after := After(es, last);
    AfterSplit(es, last);
    AfterIncreasing(es, last);
    var batch := Take(after, count);
    assert batch == after[..|batch|];
    forall e | e in es && Before(last, e.id) && AtMost(e.id, Advance(last, batch))
      ensures e in batch
    {
      AfterMembers(es, last, e);
      var k :| 0 <= k < |after| && after[k] == e;
    }
    if batch != [] {
      assert batch[|batch| - 1] == after[|batch| - 1];
      AfterMembers(es, last, after[|batch| - 1]);
    }
  }

  /** Recording a delivered batch keeps a group consistent. */
  lemma {:induction false} AdvanceWellFormed(g: Group, batch: seq<Entry>, consumer: string, now: nat, lastId: StreamId)
    requires GroupWellFormed(g, lastId)
    requires Increasing(batch)
    requires forall i :: 0 <= i < |batch| ==>
      Before(g.lastDelivered, batch[i].id) && AtMost(batch[i].id, Advance(g.lastDelivered, batch))
    requires AtMost(Advance(g.lastDelivered, batch), lastId)
    ensures GroupWellFormed(Group(Advance(g.lastDelivered, batch), g.pel + PendingFor(batch, consumer, now)), lastId)
  {
    var pel := g.pel + PendingFor(batch, consumer, now);
    var last := Advance(g.lastDelivered, batch);
    forall i, j | 0 <= i < j < |pel| ensures Before(pel[i].id, pel[j].id) {
      if j >= |g.pel| {
        if i < |g.pel| {
          assert AtMost(g.pel[i].id, g.lastDelivered);
        } else {
          assert pel[i].id == batch[i - |g.pel|].id;
        }
      }
    }
    forall i | 0 <= i < |pel| ensures AtMost(pel[i].id, last) {
      if i < |g.pel| {
        assert AtMost(g.pel[i].id, g.lastDelivered);
      }
    }
  }

  /**
   * A group read delivers only entries after the group's position, in id
   * order, and keeps the stream well formed. Afterwards the position is the
   * last id delivered, so no later read of the group delivers any of them
   * again, and every entry of the log up to that position has been handed
   * out.
   */
  lemma {:induction false} ReadGroupDeliversOnce(streams: map<string, Stream>, key: string, group: string, consumer: string, count: nat, now: nat)
    requires key in streams && WellFormed(streams[key]) && group in streams[key].groups
    ensures var r := ReadGroup(streams, key, group, consumer, count, now);
      var g := streams[key].groups[group];
      && r.Ok?
      && Increasing(r.value.batch)
      && r.value.streams[key].groups[group].lastDelivered == Advance(g.lastDelivered, r.value.batch)
      && (forall i :: 0 <= i < |r.value.batch| ==> Before(g.lastDelivered, r.value.batch[i].id))
      && (forall e :: (e in streams[key].entries && Before(g.lastDelivered, e.id)
            && AtMost(e.id, Advance(g.lastDelivered, r.value.batch))) ==> e in r.value.batch)
      && WellFormed(r.value.streams[key])
  {
    var s := streams[key];
    var g := s.groups[group];
    var r := ReadGroup(streams, key, group, consumer, count, now);
    var batch := r.value.batch;
    NextBatch(s.entries, g.lastDelivered, count);
    var s' := r.value.streams[key];
    assert AtMost(Advance(g.lastDelivered, batch), s.lastId) by {
      assert GroupWellFormed(g, s.lastId);
      if batch != [] {
        var k :| 0 <= k < |s.entries| && s.entries[k] == batch[|batch| - 1];
      }
    }
    AdvanceWellFormed(g, batch, consumer, now, s.lastId);
    forall name | name in s'.groups ensures GroupWellFormed(s'.groups[name], s'.lastId) {
      assert GroupWellFormed(s.groups[name], s.lastId);
    }
  }

  /** The pending list without the record for `id`. */
  function Unpend(pel: seq<Pending>, id: StreamId): (r: seq<Pending>)
    ensures |r| <= |pel|
    ensures forall p :: p in r <==> p in pel && p.id != id
  {
    if pel == [] then []
    else if pel[0].id == id then Unpend(pel[1..], id)
    else [pel[0]] + Unpend(pel[1..], id)
  }

  /** Removing a record keeps the pending list in id order. */
  lemma {:induction false} UnpendIncreasing(pel: seq<Pending>, id: StreamId)
    requires PelIncreasing(pel)
    ensures PelIncreasing(Unpend(pel, id))
  {
    if pel != [] {
      UnpendIncreasing(pel[1..], id);
      var rest := Unpend(pel[1..], id);
      forall i | 0 <= i < |rest| ensures Before(pel[0].id, rest[i].id) {
        assert rest[i] in pel[1..];
        var k :| 0 <= k < |pel[1..]| && pel[1..][k] == rest[i];
        assert pel[k + 1] == rest[i];
      }
    }
  }

  /** `XACK key group id`: a missing key or group acknowledges nothing. */
  function Ack(streams: map<string, Stream>, key: string, group: string, id: StreamId): (r: map<string, Stream>)
    ensures key in streams && group in streams[key].groups ==>
      var g := streams[key].groups[group];
      r == streams[key := streams[key].(groups := streams[key].groups[group := g.(pel := Unpend(g.pel, id))])]
    ensures !(key in streams && group in streams[key].groups) ==> r == streams
  {
    if key in streams && group in streams[key].groups then
      var s := streams[key];
      var g := s.groups[group];
      streams[key := s.(groups := s.groups[group := g.(pel := Unpend(g.pel, id))])]
    else streams
  }

  /** Acknowledging keeps a stream well formed and changes no other stream. */
  lemma {:induction false} AckWellFormed(streams: map<string, Stream>, key: string, group: string, id: StreamId)
    requires key in streams && WellFormed(streams[key])
    ensures key in Ack(streams, key, group, id) && WellFormed(Ack(streams, key, group, id)[key])
    ensures forall k :: k != key ==> (k in Ack(streams, key, group, id) <==> k in streams)
    ensures forall k :: k != key && k in streams ==> Ack(streams, key, group, id)[k] == streams[k]
  {
    if group in streams[key].groups {
      var s := streams[key];
      var g := s.groups[group];
      UnpendIncreasing(g.pel, id);
      var s' := Ack(streams, key, group, id)[key];
      forall name | name in s'.groups ensures GroupWellFormed(s'.groups[name], s'.lastId) {
        assert GroupWellFormed(s.groups[name], s.lastId);
        if name == group {
          var pel := Unpend(g.pel, id);
          forall i | 0 <= i < |pel| ensures AtMost(pel[i].id, g.lastDelivered) {
            assert pel[i] in g.pel;
          }
        }
      }
    }
  }

  /** `XPENDING key group - + count`. */
  function PendingRange(streams: map<string, Stream>, key: string, group: string, count: nat): (r: Result<seq<Pending>, Exception>)
    ensures r.Err? <==> key !in streams || group !in streams[key].groups
    ensures r.Ok? ==> r.value == Take(streams[key].groups[group].pel, count)
  {
    if key !in streams || group !in streams[key].groups then Err(NoGroup(key, group))
    else Ok(Take(streams[key].groups[group].pel, count))
  }

  /** The error every command meets while the server cannot be reached. */
  function Unreachable(): Exception {
    ConnectionError("Error connecting to the Redis server")
  }

  /** Every stream the server holds is well formed. */
  predicate AllWellFormed(streams: map<string, Stream>) {
    forall key :: key in streams ==> WellFormed(streams[key])
  }

  lemma CreateGroupWellFormed(streams: map<string, Stream>, key: string, group: string)
    requires AllWellFormed(streams)
    ensures CreateGroup(streams, key, group).Ok? ==> AllWellFormed(CreateGroup(streams, key, group).value)
  {
    var s := StreamAt(streams, key);
    assert WellFormed(s);
  }

  /**
   * Creating a group is not idempotent on the server: a second creation of
   * the same group fails and leaves the server as the first one left it.
   */
  lemma CreateGroupTwice(streams: map<string, Stream>, key: string, group: string)
    ensures CreateGroup(streams, key, group).Ok?
      ==> CreateGroup(CreateGroup(streams, key, group).value, key, group).Err?
  {
  }

  /**
   * The Redis server the application shares: its streams by key, its clock
   * (milliseconds, the source of automatic ids) and whether it can be
   * reached. Every command fails with a connection error while it cannot,
   * and then changes nothing.
   */
  class RedisStore {
    var streams: map<string, Stream>
    var clock: nat
    var down: bool

    ghost predicate Valid()
      reads this
    {
      AllWellFormed(streams)
    }

    constructor ()
      ensures Valid() && streams == map[] && clock == 0 && !down
    {
      streams := map[];
      clock := 0;
      down := false;
    }

    /** Time passes on the server. */
    method Tick(ms: nat)
      modifies this
      ensures streams == old(streams) && down == old(down) && clock == old(clock) + ms
    {
      clock := clock + ms;
    }

    /** The connection is lost or restored. */
    method SetDown(value: bool)
      modifies this
      ensures streams == old(streams) && clock == old(clock) && down == value
    {
      down := value;
    }

    /** `XADD key MAXLEN maxlen * data=...`: the id of the new entry. */
    method XAdd(key: string, data: Json.Dict, maxlen: nat) returns (r: Result<StreamId, Exception>)
      requires Valid()
      modifies this
      ensures Valid() && clock == old(clock) && down == old(down)
      ensures old(down) ==> r == Err(Unreachable()) && streams == old(streams)
      ensures !old(down) ==>
        var s := Add(StreamAt(old(streams), key), data, clock, maxlen);
        && r == Ok(s.lastId)
        && streams == old(streams)[key := s]
    {
      if down {
        return Err(Unreachable());
      }
      var s := StreamAt(streams, key);
      AddAppends(s, data, clock, maxlen);
      s := Add(s, data, clock, maxlen);
      streams := streams[key := s];
      return Ok(s.lastId);
    }

    /** `XREAD COUNT count STREAMS key start`, answered at once. */
    method XRead(key: string, start: string, count: nat) returns (r: Result<seq<Entry>, Exception>)
      ensures down ==> r == Err(Unreachable())
      ensures !down ==> r == Read(streams, key, start, count)
    {
      if down {
        return Err(Unreachable());
      }
      return Read(streams, key, start, count);
    }

    /** `XRANGE key min + COUNT count`. */
    method XRange(key: string, min: string, count: nat) returns (r: Result<seq<Entry>, Exception>)
      ensures down ==> r == Err(Unreachable())
      ensures !down ==> r == Range(streams, key, min, count)
    {
      if down {
        return Err(Unreachable());
      }
      return Range(streams, key, min, count);
    }

    /** `XGROUP CREATE key group 0 MKSTREAM`. */
    method XGroupCreate(key: string, group: string) returns (r: Result<(), Exception>)
      requires Valid()
      modifies this
      ensures Valid() && clock == old(clock) && down == old(down)
      ensures old(down) ==> r == Err(Unreachable()) && streams == old(streams)
      ensures !old(down) ==> match CreateGroup(old(streams), key, group)
        case Ok(m) => r == Ok(()) && streams == m
        case Err(e) => r == Err(e) && streams == old(streams)
    {
      if down {
        return Err(Unreachable());
      }
      CreateGroupWellFormed(streams, key, group);
      match CreateGroup(streams, key, group)
      case Ok(m) =>
        streams := m;
        return Ok(());
      case Err(e) =>
        return Err(e);
    }

    /** `XREADGROUP GROUP group consumer COUNT count STREAMS key >`, answered at once. */
    method XReadGroup(key: string, group: string, consumer: string, count: nat) returns (r: Result<seq<Entry>, Exception>)
      requires Valid()
      modifies this
      ensures Valid() && clock == old(clock) && down == old(down)
      ensures old(down) ==> r == Err(Unreachable()) && streams == old(streams)
      ensures !old(down) ==> match ReadGroup(old(streams), key, group, consumer, count, clock)
        case Ok(d) => r == Ok(d.batch) && streams == d.streams
        case Err(e) => r == Err(e) && streams == old(streams)
    {
      if down {
        return Err(Unreachable());
      }
      match ReadGroup(streams, key, group, consumer, count, clock)
      case Ok(d) =>
        ReadGroupDeliversOnce(streams, key, group, consumer, count, clock);
        streams := d.streams;
        return Ok(d.batch);
      case Err(e) =>
        return Err(e);
    }

    /** `XACK key group id`: how many pending records it removed. */
    method XAck(key: string, group: string, id: StreamId) returns (r: Result<nat, Exception>)
      requires Valid()
      modifies this
      ensures Valid() && clock == old(clock) && down == old(down)
      ensures old(down) ==> r == Err(Unreachable()) && streams == old(streams)
      ensures !old(down) ==> streams == Ack(old(streams), key, group, id)
      ensures !old(down) ==> r.Ok? && r.value + PendingCount(streams, key, group) == PendingCount(old(streams), key, group)
    {
      if down {
        return Err(Unreachable());
      }
      var before := PendingCount(streams, key, group);
      if key in streams {
        AckWellFormed(streams, key, group, id);
      }
      streams := Ack(streams, key, group, id);
      var after := PendingCount(streams, key, group);
      return Ok(if before >= after then before - after else 0);
    }

    /** `XPENDING key group - + count`. */
    method XPendingRange(key: string, group: string, count: nat) returns (r: Result<seq<Pending>, Exception>)
      ensures down ==> r == Err(Unreachable())
      ensures !down ==> r == PendingRange(streams, key, group, count)
    {
      if down {
        return Err(Unreachable());
      }
      return PendingRange(streams, key, group, count);
    }
  }

  /** The number of records in a group's pending list (0 when there is no such group). */
  function PendingCount(streams: map<string, Stream>, key: string, group: string): nat {
    if key in streams && group in streams[key].groups then |streams[key].groups[group].pel| else 0
  }
}
