/**
 * Server-sent event framing, as the text/event-stream format of the WHATWG
 * HTML Living Standard, section 9.2 ("Server-sent events"), defines it: an
 * optional `id:` line, an `event:` line, one `data:` line per line of the
 * JSON text and a blank line that dispatches the event. The JSON encoder is
 * a parameter.
 */
module Sse {
  import opened Wrappers
  import Text
  import Json

  const NL: string := "\n"

  /** `data.get("type", "message")` as the f-string renders it. */
  function EventName(data: Json.Dict): string {
    Json.Display(Json.GetOr(data, "type", Json.Str("message")))
  }

  /** `if event_id:` */
  predicate HasId(eventId: Option<string>) {
    eventId.Some? && eventId.value != ""
  }

  function IdLines(eventId: Option<string>): seq<string> {
    if HasId(eventId) then ["id: " + eventId.value] else []
  }

  /** One `data:` line per segment, in order. */
  function DataLines(segments: seq<string>): (r: seq<string>)
    ensures |r| == |segments|
    ensures forall i :: 0 <= i < |segments| ==> r[i] == "data: " + segments[i]
  {
    if segments == [] then [] else DataLines(segments[..|segments| - 1]) + ["data: " + segments[|segments| - 1]]
  }

  /** The lines of a frame whose JSON text is `json`, before they are joined. */
  function FrameLines(data: Json.Dict, eventId: Option<string>, json: string): seq<string> {
    IdLines(eventId) + ["event: " + EventName(data)] + DataLines(Text.Split(json, '\n')) + [""]
  }

  /**
   * The frame of an event: its lines joined by newlines, plus a final
   * newline. Its last line is empty, so it always ends with a blank line.
   */
  function Frame(data: Json.Dict, eventId: Option<string>, dumps: Json.Value -> string): (f: string)
    ensures |f| >= 2 && f[|f| - 2..] == "\n\n"
  {
    var lines := FrameLines(data, eventId, dumps(Json.Obj(data)));
    var before := IdLines(eventId) + ["event: " + EventName(data)] + DataLines(Text.Split(dumps(Json.Obj(data)), '\n'));
    assert lines == before + [""];
    JoinSnoc(before, "", NL);
    Text.Join(lines, NL) + NL
  }

  /** `format_sse_event(data, event_id)`, building the list of lines step by step. */
  method FormatSseEvent(data: Json.Dict, eventId: Option<string>, dumps: Json.Value -> string) returns (s: string)
    ensures s == Frame(data, eventId, dumps)
  {
    var lines: seq<string> := [];
    if HasId(eventId) {
      lines := lines + ["id: " + eventId.value];
    }
    lines := lines + ["event: " + EventName(data)];
    var json := dumps(Json.Obj(data));
    var segments := Text.Split(json, '\n');
    ghost var head := lines;
    assert head == IdLines(eventId) + ["event: " + EventName(data)];
    for i := 0 to |segments|
      invariant lines == head + DataLines(segments[..i])
    {
      assert segments[..i + 1][..i] == segments[..i];
      lines := lines + ["data: " + segments[i]];
    }
    assert segments[..|segments|] == segments;
    lines := lines + [""];
    s := Text.Join(lines, NL) + NL;
  }

  // ------------------------------------------------------------ joining

  lemma JoinCons(x: string, rest: seq<string>, sep: string)
    requires |rest| >= 1
    ensures Text.Join([x] + rest, sep) == x + sep + Text.Join(rest, sep)
  {
    assert ([x] + rest)[1..] == rest;
  }

  lemma {:induction false} JoinSnoc(parts: seq<string>, x: string, sep: string)
    requires |parts| >= 1
    ensures Text.Join(parts + [x], sep) == Text.Join(parts, sep) + sep + x
    decreases |parts|
  {
    if |parts| == 1 {
      JoinCons(parts[0], [x], sep);
      assert parts + [x] == [parts[0]] + [x];
    } else {
      assert parts + [x] == [parts[0]] + (parts[1..] + [x]);
      JoinCons(parts[0], parts[1..] + [x], sep);
      JoinSnoc(parts[1..], x, sep);
      JoinCons(parts[0], parts[1..], sep);
      assert [parts[0]] + parts[1..] == parts;
    }
  }

  /** The frame is the joined lines with one more, empty, line. */
  lemma FrameAsLines(data: Json.Dict, eventId: Option<string>, dumps: Json.Value -> string)
    ensures Frame(data, eventId, dumps) == Text.Join(FrameLines(data, eventId, dumps(Json.Obj(data))) + [""], NL)
  {
    var lines := FrameLines(data, eventId, dumps(Json.Obj(data)));
    JoinSnoc(lines, "", NL);
  }

  /**
   * A frame begins with `id: <id>` and a newline iff the id is present and
   * non-empty; otherwise it begins with the `event:` line.
   */
  lemma FrameStart(data: Json.Dict, eventId: Option<string>, dumps: Json.Value -> string)
    ensures HasId(eventId) <==> Text.StartsWith(Frame(data, eventId, dumps), "id: ")
    ensures HasId(eventId) ==> Text.StartsWith(Frame(data, eventId, dumps), "id: " + eventId.value + NL)
    ensures !HasId(eventId) ==> Text.StartsWith(Frame(data, eventId, dumps), "event: " + EventName(data) + NL)
  {
    var json := dumps(Json.Obj(data));
    var ev := "event: " + EventName(data);
    var rest := [ev] + DataLines(Text.Split(json, '\n')) + [""];
    var lines := FrameLines(data, eventId, json);
    var f := Frame(data, eventId, dumps);
    assert IdLines(eventId) + rest == lines;
    if HasId(eventId) {
      var id := "id: " + eventId.value;
      assert lines == [id] + rest;
      JoinCons(id, rest, NL);
      assert f == id + NL + (Text.Join(rest, NL) + NL);
      assert f[..|id + NL|] == id + NL;
    } else {
      assert lines == [ev] + rest[1..];
      JoinCons(ev, rest[1..], NL);
      assert f == ev + NL + (Text.Join(rest[1..], NL) + NL);
      assert f[..|ev + NL|] == ev + NL;
      assert f[0] == 'e';
    }
  }

  // ------------------------------------------------------------ reading back

  /**
   * The values of the lines whose field is `field`, in order: what a reader
   * of the stream collects for that field. A line `field: value` has the
   * value after the colon and the one space that follows it.
   */
  function FieldValues(lines: seq<string>, field: string): seq<string> {
    if lines == [] then []
    else
      var last := lines[|lines| - 1];
      FieldValues(lines[..|lines| - 1], field)
      + (if Text.StartsWith(last, field + ": ") then [Text.RemovePrefix(last, field + ": ")] else [])
  }

  lemma {:induction false} FieldValuesAppend(a: seq<string>, b: seq<string>, field: string)
    ensures FieldValues(a + b, field) == FieldValues(a, field) + FieldValues(b, field)
    decreases |b|
  {
    if b == [] {
      assert a + b == a;
    } else {
      assert (a + b)[..|a + b| - 1] == a + b[..|b| - 1];
      FieldValuesAppend(a, b[..|b| - 1], field);
    }
  }

  /** The data lines of a frame hold the segments, and only the data field. */
  lemma {:induction false} DataLinesFields(segments: seq<string>)
    ensures FieldValues(DataLines(segments), "data") == segments
    ensures FieldValues(DataLines(segments), "id") == []
    ensures FieldValues(DataLines(segments), "event") == []
  {
    if segments != [] {
      var init, seg := segments[..|segments| - 1], segments[|segments| - 1];
      var lines := DataLines(segments);
      assert lines[..|lines| - 1] == DataLines(init);
      DataLinesFields(init);
      DataLineField(seg);
      assert init + [seg] == segments;
    }
  }

  /** One data line carries its segment in the data field and in no other. */
  lemma DataLineField(seg: string)
    ensures Text.StartsWith("data: " + seg, "data: ") && Text.RemovePrefix("data: " + seg, "data: ") == seg
    ensures !Text.StartsWith("data: " + seg, "id: ") && !Text.StartsWith("data: " + seg, "event: ")
  {
    var line := "data: " + seg;
    assert line[..|"data: "|] == "data: ";
    assert line[0] == 'd';
  }

  lemma FieldValuesOne(line: string, field: string)
    ensures FieldValues([line], field)
      == if Text.StartsWith(line, field + ": ") then [Text.RemovePrefix(line, field + ": ")] else []
  {
    assert [line][..0] == [];
  }

  /** The fields of the lines other than the data lines. */
  lemma HeaderFields(data: Json.Dict, eventId: Option<string>)
    ensures FieldValues(IdLines(eventId), "id") == if HasId(eventId) then [eventId.value] else []
    ensures FieldValues(IdLines(eventId), "event") == [] && FieldValues(IdLines(eventId), "data") == []
    ensures FieldValues(["event: " + EventName(data)], "event") == [EventName(data)]
    ensures FieldValues(["event: " + EventName(data)], "id") == []
    ensures FieldValues(["event: " + EventName(data)], "data") == []
    ensures FieldValues([""], "id") == [] && FieldValues([""], "event") == [] && FieldValues([""], "data") == []
  {
    var ev := "event: " + EventName(data);
    if HasId(eventId) {
      var id := "id: " + eventId.value;
      FieldValuesOne(id, "id");
      FieldValuesOne(id, "event");
      FieldValuesOne(id, "data");
      assert id[0] == 'i';
      assert Text.RemovePrefix(id, "id: ") == eventId.value;
    }
    FieldValuesOne(ev, "event");
    FieldValuesOne(ev, "id");
    FieldValuesOne(ev, "data");
    assert ev[0] == 'e';
    assert Text.StartsWith(ev, "event: ");
    assert Text.RemovePrefix(ev, "event: ") == EventName(data);
    FieldValuesOne("", "id");
    FieldValuesOne("", "event");
    FieldValuesOne("", "data");
  }

  /** No line of a frame contains a newline when neither the id nor the type does. */
  lemma FrameLinesHaveNoNewline(data: Json.Dict, eventId: Option<string>, json: string)
    requires eventId.Some? ==> '\n' !in eventId.value
    requires '\n' !in EventName(data)
    ensures forall i :: 0 <= i < |FrameLines(data, eventId, json) + [""]| ==> '\n' !in (FrameLines(data, eventId, json) + [""])[i]
  {
    var segments := Text.Split(json, '\n');
    Text.SplitHasNoSeparator(json, '\n');
    var lines := FrameLines(data, eventId, json) + [""];
    var ids, ev, ds := IdLines(eventId), "event: " + EventName(data), DataLines(segments);
    assert lines == ids + [ev] + ds + [""] + [""];
    forall i | 0 <= i < |lines|
      ensures '\n' !in lines[i]
    {
      if i < |ids| {
        assert lines[i] == "id: " + eventId.value;
      } else if i == |ids| {
        assert lines[i] == ev;
      } else if i < |ids| + 1 + |ds| {
        assert lines[i] == ds[i - |ids| - 1] == "data: " + segments[i - |ids| - 1];
      } else {
        assert lines[i] == "";
      }
    }
  }

  /** Splitting a frame at newlines gives its lines and two blank ones. */
  lemma FrameSplits(data: Json.Dict, eventId: Option<string>, dumps: Json.Value -> string)
    requires eventId.Some? ==> '\n' !in eventId.value
    requires '\n' !in EventName(data)
    ensures Text.Split(Frame(data, eventId, dumps), '\n') == FrameLines(data, eventId, dumps(Json.Obj(data))) + [""]
  {
    var json := dumps(Json.Obj(data));
    FrameAsLines(data, eventId, dumps);
    FrameLinesHaveNoNewline(data, eventId, json);
    assert NL == ['\n'];
    Text.SplitJoin(FrameLines(data, eventId, json) + [""], '\n');
  }

  /** The fields a reader collects from the lines of a frame. */
  lemma FrameLineFields(data: Json.Dict, eventId: Option<string>, json: string)
    ensures var all := FrameLines(data, eventId, json) + [""];
      && FieldValues(all, "data") == Text.Split(json, '\n')
      && FieldValues(all, "event") == [EventName(data)]
      && FieldValues(all, "id") == (if HasId(eventId) then [eventId.value] else [])
  {
    var segments := Text.Split(json, '\n');
    var ids, ev, ds := IdLines(eventId), ["event: " + EventName(data)], DataLines(segments);
    assert FrameLines(data, eventId, json) + [""] == ids + ev + ds + [""] + [""];
    HeaderFields(data, eventId);
    DataLinesFields(segments);
    FieldValuesParts(ids, ev, ds, "id");
    FieldValuesParts(ids, ev, ds, "event");
    FieldValuesParts(ids, ev, ds, "data");
  }

  /**
   * Reading a frame back, line by line: its lines are exactly the frame's
   * lines and two blank ones; the data field, joined with newlines as a
   * reader accumulates it, is the JSON text of the event; the event type is
   * the `type` (or "message"); the id is the given one when it is non-empty.
   */
  lemma FrameRoundTrip(data: Json.Dict, eventId: Option<string>, dumps: Json.Value -> string)
    requires eventId.Some? ==> '\n' !in eventId.value
    requires '\n' !in EventName(data)
    ensures var lines := Text.Split(Frame(data, eventId, dumps), '\n');
      && lines == FrameLines(data, eventId, dumps(Json.Obj(data))) + [""]
      && Text.Join(FieldValues(lines, "data"), NL) == dumps(Json.Obj(data))
      && FieldValues(lines, "event") == [EventName(data)]
      && FieldValues(lines, "id") == (if HasId(eventId) then [eventId.value] else [])
  {
    var json := dumps(Json.Obj(data));
    FrameSplits(data, eventId, dumps);
    FrameLineFields(data, eventId, json);
    Text.JoinSplit(json, '\n');
    assert NL == ['\n'];
  }

  lemma FieldValuesParts(ids: seq<string>, ev: seq<string>, ds: seq<string>, field: string)
    requires FieldValues([""], field) == []
    ensures FieldValues(ids + ev + ds + [""] + [""], field)
         == FieldValues(ids, field) + FieldValues(ev, field) + FieldValues(ds, field)
  {
    FieldValuesAppend(ids, ev, field);
    FieldValuesAppend(ids + ev, ds, field);
    FieldValuesAppend(ids + ev + ds, [""], field);
    FieldValuesAppend(ids + ev + ds + [""], [""], field);
  }
}
