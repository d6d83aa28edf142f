/**
 * The `text/event-stream` format of the chat stream. `Frame` is the text one stream
 * event is sent as; the rest is the receiving side as the WHATWG HTML Living Standard
 * defines it in section 9.2.6, "Interpreting an event stream": the stream is cut into
 * lines, a line names a field and its value, and an empty line dispatches the event
 * accumulated so far. Together they show that a client reads back exactly the events
 * the server framed.
 */
module Sse {
  import opened Wrappers
  import Text

  /** The frame of one event: an `event` field, a `data` field and the blank line that ends it. */
  function Frame(eventType: string, data: string): string
  {
    "event: " + eventType + "\ndata: " + data + "\n\n"
  }

  /** A field value that fits on one line of the stream. */
  predicate SingleLine(s: string)
  {
    '\n' !in s && '\r' !in s
  }

  /** An event as the client's `EventSource` reports it: its type and its data. */
  datatype SseEvent = SseEvent(eventType: string, data: string)

  /** Events the server can frame losslessly: a named type and both fields on one line. */
  predicate Framable(e: SseEvent)
  {
    e.eventType != "" && SingleLine(e.eventType) && SingleLine(e.data)
  }

  /** The frames of a sequence of events, one per event. */
  function Framed(evs: seq<SseEvent>): (frames: seq<string>)
    ensures |frames| == |evs|
    ensures forall i :: 0 <= i < |evs| ==> frames[i] == Frame(evs[i].eventType, evs[i].data)
  {
    if evs == [] then [] else [Frame(evs[0].eventType, evs[0].data)] + Framed(evs[1..])
  }

  /** The response body: the yielded pieces one after the other. */
  function Concat(pieces: seq<string>): string
  {
    if pieces == [] then "" else pieces[0] + Concat(pieces[1..])
  }

  // ---------------------------------------------------------------- lines

  /** The first line of a stream and what follows its end-of-line. */
  datatype LineSplit = LineSplit(line: string, rest: string, terminated: bool)

  /**
   * A line ends at CRLF, at a lone LF or at a lone CR. Text after the last end-of-line is
   * not a complete line (`terminated` is false).
   */
  function SplitLine(s: string): (r: LineSplit)
    ensures SingleLine(r.line)
    ensures r.terminated ==> |r.rest| < |s|
    ensures !r.terminated ==> r.line == s && r.rest == ""
  {
    if s == [] then LineSplit("", "", false)
    else if s[0] == '\n' then LineSplit("", s[1..], true)
    else if s[0] == '\r' then
      if |s| > 1 && s[1] == '\n' then LineSplit("", s[2..], true) else LineSplit("", s[1..], true)
    else
      var p := SplitLine(s[1..]);
      LineSplit([s[0]] + p.line, p.rest, p.terminated)
  }

  /** A line followed by LF splits off exactly that line. */
  lemma {:induction false} SplitLineAt(a: string, b: string)
    requires SingleLine(a)
    ensures SplitLine(a + "\n" + b) == LineSplit(a, b, true)
  {
    var s := a + "\n" + b;
    if a == [] {
      assert s[0] == '\n' && s[1..] == b;
    } else {
      assert s[0] == a[0] && s[1..] == a[1..] + "\n" + b;
      assert [a[0]] + a[1..] == a;
      SplitLineAt(a[1..], b);
    }
  }

  // ---------------------------------------------------------------- fields

  datatype Field = Field(name: string, value: string)

  /** One leading space of a field value is not part of it. */
  function StripSpace(v: string): string
  {
    if |v| > 0 && v[0] == ' ' then v[1..] else v
  }

  /**
   * A line with a colon names the field before the first colon and carries the value
   * after it; a line without one is a field name with an empty value.
   */
  function ParseField(line: string): (f: Field)
    ensures ':' !in f.name
  {
    var p := Text.SplitFirst(line, ':');
    if p.1.None? then Field(line, "") else Field(p.0, StripSpace(p.1.value))
  }

  /** `name: value` reads back as that field whenever the name has no colon. */
  lemma FieldRoundTrip(name: string, value: string)
    requires ':' !in name
    ensures ParseField(name + ": " + value) == Field(name, value)
  {
    assert name + ": " + value == name + [':'] + (" " + value);
    Text.SplitFirstAt(name, " " + value, ':');
    assert (" " + value)[1..] == value;
  }

  /** The event type buffer and the data buffer between two dispatches. */
  datatype Pending = Pending(eventType: string, data: string)

  const Start := Pending("", "")

  /**
   * Processing one non-empty line: a comment (leading colon) is ignored, `event` sets
   * the type buffer, `data` appends its value and a LF to the data buffer; `id`, `retry`
   * and unknown fields do not affect the type or data of any event.
   */
  function ApplyLine(p: Pending, line: string): Pending
  {
    if |line| > 0 && line[0] == ':' then p
    else
      var f := ParseField(line);
      if f.name == "event" then Pending(f.value, p.data)
      else if f.name == "data" then Pending(p.eventType, p.data + f.value + "\n")
      else p
  }

  /** A data buffer loses its one final LF when the event is dispatched. */
  function DropFinalLf(s: string): string
  {
    if |s| > 0 && s[|s| - 1] == '\n' then s[..|s| - 1] else s
  }

  /**
   * The next event dispatched from `s` with buffers `p`, and the stream after the blank
   * line that dispatched it. A blank line with an empty data buffer dispatches nothing
   * and clears the type; a type buffer left empty means `message`. An event the stream
   * ends in the middle of is never dispatched.
   */
  function NextEvent(s: string, p: Pending): (r: Option<(SseEvent, string)>)
    ensures r.Some? ==> |r.value.1| < |s|
    decreases |s|
  {
    var l := SplitLine(s);
    if !l.terminated then None
    else if l.line == "" then
      if p.data == "" then NextEvent(l.rest, Start)
      else
        var eventType := if p.eventType == "" then "message" else p.eventType;
        Some((SseEvent(eventType, DropFinalLf(p.data)), l.rest))
    else NextEvent(l.rest, ApplyLine(p, l.line))
  }

  /** Every event a client reads from the stream, in order. */
  function Events(s: string): seq<SseEvent>
    decreases |s|
  {
    match NextEvent(s, Start)
    case None => []
    case Some((e, rest)) => [e] + Events(rest)
  }

  // ---------------------------------------------------------------- round trip

  /** A complete non-empty line is processed into the buffers and reading goes on after it. */
  lemma LineStep(line: string, more: string, p: Pending)
    requires SingleLine(line) && line != ""
    ensures NextEvent(line + "\n" + more, p) == NextEvent(more, ApplyLine(p, line))
  {
    SplitLineAt(line, more);
  }

  /** A blank line after buffered data dispatches the event. */
  lemma BlankStep(more: string, p: Pending)
    requires p.data != ""
    ensures NextEvent("\n" + more, p)
      == Some((SseEvent(if p.eventType == "" then "message" else p.eventType, DropFinalLf(p.data)), more))
  {
    SplitLineAt("", more);
    assert "" + "\n" + more == "\n" + more;
  }

  /** `event: t` sets the type buffer to `t`. */
  lemma EventLine(t: string, p: Pending)
    ensures ApplyLine(p, "event: " + t) == Pending(t, p.data)
  {
    assert "event: " + t == "event" + ": " + t;
    FieldRoundTrip("event", t);
  }

  /** `data: d` appends `d` and a LF to the data buffer. */
  lemma DataLine(d: string, p: Pending)
    ensures ApplyLine(p, "data: " + d) == Pending(p.eventType, p.data + d + "\n")
  {
    assert "data: " + d == "data" + ": " + d;
    FieldRoundTrip("data", d);
  }

  /** The `event` and `data` lines of a frame fill the buffers. */
  lemma HeaderLines(t: string, d: string, more: string)
    requires SingleLine(t) && SingleLine(d)
    ensures NextEvent("event: " + t + "\n" + ("data: " + d + "\n" + more), Start) == NextEvent(more, Pending(t, d + "\n"))
  {
    var eventLine, dataLine := "event: " + t, "data: " + d;
    assert SingleLine(eventLine) by {
      assert eventLine == "event: " + t;
    }
    assert SingleLine(dataLine) by {
      assert dataLine == "data: " + d;
    }
    LineStep(eventLine, dataLine + "\n" + more, Start);
    EventLine(t, Start);
    LineStep(dataLine, more, Pending(t, ""));
    DataLine(d, Pending(t, ""));
    assert "" + d + "\n" == d + "\n";
  }

  /** A frame is read back as exactly its event, and the stream continues right after it. */
  lemma FrameRoundTrip(e: SseEvent, rest: string)
    requires Framable(e)
    ensures NextEvent(Frame(e.eventType, e.data) + rest, Start) == Some((e, rest))
  {
    var t, d := e.eventType, e.data;
    assert Frame(t, d) + rest == "event: " + t + "\n" + ("data: " + d + "\n" + ("\n" + rest));
    HeaderLines(t, d, "\n" + rest);
    BlankStep(rest, Pending(t, d + "\n"));
    assert (d + "\n")[..|d + "\n"| - 1] == d;
  }

  /** A client reads back exactly the events whose frames the server sent, in order. */
  lemma {:induction false} EventsOfFrames(evs: seq<SseEvent>)
    requires forall i :: 0 <= i < |evs| ==> Framable(evs[i])
    ensures Events(Concat(Framed(evs))) == evs
  {
    if evs != [] {
      var tail := Concat(Framed(evs[1..]));
      assert Framed(evs)[1..] == Framed(evs[1..]);
      assert Concat(Framed(evs)) == Frame(evs[0].eventType, evs[0].data) + tail;
      FrameRoundTrip(evs[0], tail);
      EventsOfFrames(evs[1..]);
    }
  }
}
