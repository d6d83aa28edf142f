/**
 * The chat stream endpoint (`src/server/app.py`): the thread id a request runs under,
 * the event each item of the workflow stream becomes, and the server-sent-event frames
 * the response body is made of.
 *
 * The workflow stream itself, `uuid4` and `json.dumps` are outside the model: the items
 * are a parameter, the generated id is a parameter, and the encoder is an abstract
 * function from a dict to its text.
 */
module ChatStream {
  import opened Wrappers
  import opened Values
  import Text
  import Sse

  // ---------------------------------------------------------------- thread id

  /** The thread id a client sends to ask for a new thread. */
  const DefaultThreadId := "__default__"

  /** `chat_stream`: the placeholder id is replaced by a freshly generated one; any other id is kept. */
  function ResolveThreadId(requested: string, generated: string): (id: string)
    ensures requested == DefaultThreadId ==> id == generated
    ensures requested != DefaultThreadId ==> id == requested
  {
    if requested == DefaultThreadId then generated else requested
  }

  /**
   * A stream never runs under the placeholder id when the generator never produces it,
   * and a resolved id resolves to itself again, whatever id would be generated then.
   */
  lemma ResolvedIdIsStable(requested: string, generated: string, later: string)
    requires generated != DefaultThreadId
    ensures ResolveThreadId(requested, generated) != DefaultThreadId
    ensures ResolveThreadId(ResolveThreadId(requested, generated), later) == ResolveThreadId(requested, generated)
  {
  }

  // ---------------------------------------------------------------- stream items

  /** The message part of a `messages`-mode item. */
  datatype Chunk =
    | ToolMessage(id: Value, content: Value, toolCallId: Value)
    | AiChunk(id: Value, content: Value, toolCalls: seq<Value>, toolCallChunks: seq<Value>)  // AIMessageChunk
    | OtherChunk(id: Value, content: Value)                                                  // any other message class

  /** An `updates`-mode item carries a dict; a `messages`-mode item carries a message chunk. */
  datatype Payload = Update(update: seq<Entry>) | MessagePart(chunk: Chunk)

  /** One item of `graph.astream(..., subgraphs=True)`: the namespace and the payload. */
  datatype StreamItem = StreamItem(namespace: seq<string>, payload: Payload)

  /**
   * `agent[0].split(":")[0]`: the longest colon-free prefix of the first namespace element.
   * An empty namespace raises IndexError (`None`).
   */
  function AgentName(namespace: seq<string>): (r: Option<string>)
    ensures r.None? <==> namespace == []
    ensures r.Some? ==> ':' !in r.value && Text.IsPrefix(r.value, namespace[0])
    ensures r.Some? && |r.value| < |namespace[0]| ==> namespace[0][|r.value|] == ':'
  {
    if namespace == [] then None else Some(Text.SplitFirst(namespace[0], ':').0)
  }

  /** The fields every event carries, in the order the dict literal lists them. */
  function BaseFields(threadId: string, agent: string, c: Chunk): seq<Entry>
  {
    [Entry("thread_id", VStr(threadId)), Entry("agent", VStr(agent)), Entry("id", c.id),
     Entry("role", VStr("assistant")), Entry("content", c.content)]
  }

  const BaseKeys := ["thread_id", "agent", "id", "role", "content"]

  /** The four event names of the chat stream. */
  const EventTypes := ["tool_call_result", "tool_calls", "tool_call_chunks", "message_chunk"]

  /** What one stream item turns into: nothing, one event, or an exception that ends the stream. */
  datatype Outcome = NoEvent | Event(eventType: string, data: seq<Entry>) | Crash

  /**
   * How the generator treats one item: an update dict is skipped; a message chunk gets
   * the base fields and, by priority, becomes a tool result, a tool call (with its chunks),
   * a tool call chunk or a plain message chunk; any other message class yields nothing.
   */
  function EventOf(threadId: string, item: StreamItem): (o: Outcome)
    ensures item.payload.Update? ==> o.NoEvent?
    ensures o.Crash? <==> item.payload.MessagePart? && item.namespace == []
    ensures o.Event? ==> o.eventType in EventTypes
  {
    if item.payload.Update? then NoEvent
    else match AgentName(item.namespace)
      case None => Crash
      case Some(agent) =>
        var c := item.payload.chunk;
        var base := BaseFields(threadId, agent, c);
        match c
        case ToolMessage(_, _, toolCallId) =>
          Event("tool_call_result", base + [Entry("tool_call_id", toolCallId)])
        case AiChunk(_, _, toolCalls, toolCallChunks) =>
          if toolCalls != [] then
            Event("tool_calls", base + [Entry("tool_calls", VList(toolCalls)), Entry("tool_call_chunks", VList(toolCallChunks))])
          else if toolCallChunks != [] then
            Event("tool_call_chunks", base + [Entry("tool_call_chunks", VList(toolCallChunks))])
          else
            Event("message_chunk", base)
        case OtherChunk(_, _) => NoEvent
  }

  /** The classification priority, as the event name a message chunk gets. */
  lemma Classification(threadId: string, namespace: seq<string>, c: Chunk)
    requires namespace != []
    ensures var o := EventOf(threadId, StreamItem(namespace, MessagePart(c)));
      && (o.Event? <==> !c.OtherChunk?)
      && (o.Event? && o.eventType == "tool_call_result" <==> c.ToolMessage?)
      && (o.Event? && o.eventType == "tool_calls" <==> c.AiChunk? && c.toolCalls != [])
      && (o.Event? && o.eventType == "tool_call_chunks" <==> c.AiChunk? && c.toolCalls == [] && c.toolCallChunks != [])
      && (o.Event? && o.eventType == "message_chunk" <==> c.AiChunk? && c.toolCalls == [] && c.toolCallChunks == [])
  {
  }

  /** The keys an event adds after the base fields, by chunk kind. */
  function ExtraFields(c: Chunk): seq<Entry>
  {
    match c
    case ToolMessage(_, _, toolCallId) => [Entry("tool_call_id", toolCallId)]
    case AiChunk(_, _, toolCalls, toolCallChunks) =>
      if toolCalls != [] then [Entry("tool_calls", VList(toolCalls)), Entry("tool_call_chunks", VList(toolCallChunks))]
      else if toolCallChunks != [] then [Entry("tool_call_chunks", VList(toolCallChunks))]
      else []
    case OtherChunk(_, _) => []
  }

  lemma BaseFieldsFacts(threadId: string, agent: string, c: Chunk)
    ensures var base := BaseFields(threadId, agent, c);
      && Keys(base) == BaseKeys && UniqueKeys(base)
      && Get(base, "thread_id") == Some(VStr(threadId))
      && Get(base, "agent") == Some(VStr(agent))
      && Get(base, "id") == Some(c.id)
      && Get(base, "role") == Some(VStr("assistant"))
      && Get(base, "content") == Some(c.content)
  {
    var base := BaseFields(threadId, agent, c);
    assert Keys(base) == BaseKeys;
    UniqueOfDistinct(base);
    GetAt(base, 0);
    GetAt(base, 1);
    GetAt(base, 2);
    GetAt(base, 3);
    GetAt(base, 4);
  }

  lemma ExtraFieldsFacts(c: Chunk)
    ensures var extra := ExtraFields(c);
      && UniqueKeys(extra)
      && (forall k :: k in Keys(extra) ==> k !in BaseKeys)
      && ("tool_call_id" in Keys(extra) <==> c.ToolMessage?)
      && ("tool_calls" in Keys(extra) <==> c.AiChunk? && c.toolCalls != [])
  {
    var extra := ExtraFields(c);
    UniqueOfDistinct(extra);
    assert Keys(extra) == if extra == [] then [] else [extra[0].key] + Keys(extra[1..]);
  }

  /** The values of the keys an event adds: the tool call id, the tool calls and the tool call chunks. */
  lemma ExtraFieldsValues(c: Chunk)
    ensures Get(ExtraFields(c), "tool_call_id") == (if c.ToolMessage? then Some(c.toolCallId) else None)
    ensures Get(ExtraFields(c), "tool_calls") == (if c.AiChunk? && c.toolCalls != [] then Some(VList(c.toolCalls)) else None)
    ensures Get(ExtraFields(c), "tool_call_chunks")
      == (if c.AiChunk? && (c.toolCalls != [] || c.toolCallChunks != []) then Some(VList(c.toolCallChunks)) else None)
  {
  }

  /** No key longer than `thread_id` is a base key. */
  lemma NotABaseKey(k: string)
    requires |k| > 9
    ensures k !in BaseKeys
  {
    forall i | 0 <= i < |BaseKeys|
      ensures |BaseKeys[i]| <= 9
    {
    }
  }

  /** An event's dict is the base fields followed by the chunk kind's extra fields. */
  lemma EventData(threadId: string, item: StreamItem)
    requires EventOf(threadId, item).Event?
    ensures EventOf(threadId, item).data
      == BaseFields(threadId, AgentName(item.namespace).value, item.payload.chunk) + ExtraFields(item.payload.chunk)
  {
  }

  /**
   * Every event is a proper dict that starts with the base fields: the request's thread
   * id, the agent name, the chunk's id and content and the role `assistant`; only a tool
   * result has a `tool_call_id`, only a `tool_calls` event has the tool calls, and the
   * `tool_calls` and `tool_call_chunks` events carry the tool call chunks.
   */
  lemma EventFields(threadId: string, item: StreamItem)
    requires EventOf(threadId, item).Event?
    ensures var d := EventOf(threadId, item).data;
      && UniqueKeys(d)
      && Keys(d)[..5] == BaseKeys
      && Get(d, "thread_id") == Some(VStr(threadId))
      && Get(d, "agent") == Some(VStr(AgentName(item.namespace).value))
      && Get(d, "id") == Some(item.payload.chunk.id)
      && Get(d, "role") == Some(VStr("assistant"))
      && Get(d, "content") == Some(item.payload.chunk.content)
      && Get(d, "tool_call_id") == (if item.payload.chunk.ToolMessage? then Some(item.payload.chunk.toolCallId) else None)
      && var t := EventOf(threadId, item).eventType;
      && Get(d, "tool_calls") == (if t == "tool_calls" then Some(VList(item.payload.chunk.toolCalls)) else None)
      && Get(d, "tool_call_chunks")
         == (if t == "tool_calls" || t == "tool_call_chunks" then Some(VList(item.payload.chunk.toolCallChunks)) else None)
  {
    var c := item.payload.chunk;
    var agent := AgentName(item.namespace).value;
    var base, extra := BaseFields(threadId, agent, c), ExtraFields(c);
    var d := EventOf(threadId, item).data;
    EventData(threadId, item);
    BaseFieldsFacts(threadId, agent, c);
    ExtraFieldsFacts(c);
    KeysOfAppend(base, extra);
    UniqueOfAppend(base, extra);
    GetOfAppend(base, extra, "thread_id");
    GetOfAppend(base, extra, "agent");
    GetOfAppend(base, extra, "id");
    GetOfAppend(base, extra, "role");
    GetOfAppend(base, extra, "content");
    NotABaseKey("tool_call_id");
    NotABaseKey("tool_calls");
    NotABaseKey("tool_call_chunks");
    GetOfAppend(base, extra, "tool_call_id");
    GetOfAppend(base, extra, "tool_calls");
    GetOfAppend(base, extra, "tool_call_chunks");
    ExtraFieldsValues(c);
    Classification(threadId, item.namespace, c);
  }

  // ---------------------------------------------------------------- _make_event

  /** `_make_event`'s first step: `content` is dropped exactly when it holds the empty string. */
  function StripEmptyContent(data: seq<Entry>): (r: seq<Entry>)
    ensures Get(data, "content") != Some(VStr("")) ==> r == data
    ensures Get(data, "content") == Some(VStr("")) ==> |r| == |data| - 1
    ensures forall e :: e in r ==> e in data
  {
    if Get(data, "content") == Some(VStr("")) then PopSize(data, "content"); Pop(data, "content") else data
  }

  /**
   * In a dict, an empty-string `content` disappears, any other `content` stays, every
   * other key keeps its value, and the keys stay unique.
   */
  lemma StripEmptyContentSpec(data: seq<Entry>)
    requires UniqueKeys(data)
    ensures var r := StripEmptyContent(data);
      && UniqueKeys(r)
      && Get(r, "content") == (if Get(data, "content") == Some(VStr("")) then None else Get(data, "content"))
      && forall k :: k != "content" ==> Get(r, k) == Get(data, k)
  {
    if Get(data, "content") == Some(VStr("")) {
      PopRemoves(data, "content");
      PopGet(data, "content");
    }
  }

  /** Stripping twice is stripping once. */
  lemma StripEmptyContentIdempotent(data: seq<Entry>)
    requires UniqueKeys(data)
    ensures StripEmptyContent(StripEmptyContent(data)) == StripEmptyContent(data)
  {
    StripEmptyContentSpec(data);
  }

  /**
   * `_make_event`: drop an empty `content`, then frame the JSON text of the dict under
   * the event name. `json` stands for `json.dumps(..., ensure_ascii=False)`.
   */
  method MakeEvent(eventType: string, data: seq<Entry>, json: seq<Entry> -> string) returns (frame: string)
    ensures frame == Sse.Frame(eventType, json(StripEmptyContent(data)))
  {
    var d := data;
    if Get(d, "content") == Some(VStr("")) {
      d := Pop(d, "content");
    }
    frame := "event: " + eventType + "\ndata: " + json(d) + "\n\n";
  }

  // ---------------------------------------------------------------- the stream

  /** What the client is sent: the events in order, and whether an exception cut the stream short. */
  datatype StreamResult = StreamResult(events: seq<Sse.SseEvent>, crashed: bool)

  /** The events a stream of items produces; the first item that raises ends it. */
  function Stream(threadId: string, items: seq<StreamItem>, json: seq<Entry> -> string): (r: StreamResult)
    ensures |r.events| <= |items|
    decreases |items|
  {
    if items == [] then StreamResult([], false)
    else match EventOf(threadId, items[0])
      case Crash => StreamResult([], true)
      case NoEvent => Stream(threadId, items[1..], json)
      case Event(t, d) =>
        var r := Stream(threadId, items[1..], json);
        StreamResult([Sse.SseEvent(t, json(StripEmptyContent(d)))] + r.events, r.crashed)
  }

  /** The stream ends with an exception exactly when one of its items raises. */
  lemma {:induction false} StreamCrashes(threadId: string, items: seq<StreamItem>, json: seq<Entry> -> string)
    ensures Stream(threadId, items, json).crashed <==> exists i :: 0 <= i < |items| && EventOf(threadId, items[i]).Crash?
    decreases |items|
  {
    if items != [] {
      StreamCrashes(threadId, items[1..], json);
      if !EventOf(threadId, items[0]).Crash? {
        assert forall i :: 1 <= i < |items| ==> items[i] == items[1..][i - 1];
        if exists i :: 0 <= i < |items| && EventOf(threadId, items[i]).Crash? {
          var i :| 0 <= i < |items| && EventOf(threadId, items[i]).Crash?;
          assert items[1..][i - 1] == items[i];
        }
      }
    }
  }

  /**
   * The body of the generator for one item: skip an update dict, take the agent name
   * (raising on an empty namespace), build the base fields and add the extra keys the
   * chunk kind calls for.
   */
  method ItemEvent(threadId: string, item: StreamItem) returns (o: Outcome)
    ensures o == EventOf(threadId, item)
  {
    if item.payload.Update? {
      return NoEvent;
    }
    if item.namespace == [] {
      // `agent[0]` raises IndexError
      return Crash;
    }
    var agent := Text.SplitFirst(item.namespace[0], ':').0;
    var chunk := item.payload.chunk;
    var message := [Entry("thread_id", VStr(threadId)), Entry("agent", VStr(agent)), Entry("id", chunk.id),
                    Entry("role", VStr("assistant")), Entry("content", chunk.content)];
    assert Keys(message) == BaseKeys;
    match chunk {
      case ToolMessage(_, _, toolCallId) =>
        PutNew(message, "tool_call_id", toolCallId);
        message := Put(message, "tool_call_id", toolCallId);
        o := Event("tool_call_result", message);
      case AiChunk(_, _, toolCalls, toolCallChunks) =>
        if toolCalls != [] {
          PutNew(message, "tool_calls", VList(toolCalls));
          ghost var base := message;
          message := Put(message, "tool_calls", VList(toolCalls));
          KeysOfAppend(base, [Entry("tool_calls", VList(toolCalls))]);
          PutNew(message, "tool_call_chunks", VList(toolCallChunks));
          message := Put(message, "tool_call_chunks", VList(toolCallChunks));
          o := Event("tool_calls", message);
        } else if toolCallChunks != [] {
          PutNew(message, "tool_call_chunks", VList(toolCallChunks));
          message := Put(message, "tool_call_chunks", VList(toolCallChunks));
          o := Event("tool_call_chunks", message);
        } else {
          o := Event("message_chunk", message);
        }
      case OtherChunk(_, _) =>
        o := NoEvent;
    }
  }

  /** The events already sent, followed by what the rest of the stream produces. */
  function Prepend(sent: seq<Sse.SseEvent>, r: StreamResult): StreamResult
  {
    StreamResult(sent + r.events, r.crashed)
  }

  /** One step of the generator, on the specification side. */
  lemma StreamStep(threadId: string, items: seq<StreamItem>, i: nat, json: seq<Entry> -> string, sent: seq<Sse.SseEvent>)
    requires i < |items|
    ensures var r, o := Stream(threadId, items[i + 1..], json), EventOf(threadId, items[i]);
      && (o.Crash? ==> Prepend(sent, Stream(threadId, items[i..], json)) == StreamResult(sent, true))
      && (o.NoEvent? ==> Prepend(sent, Stream(threadId, items[i..], json)) == Prepend(sent, r))
      && (o.Event? ==>
            Prepend(sent, Stream(threadId, items[i..], json))
              == Prepend(sent + [Sse.SseEvent(o.eventType, json(StripEmptyContent(o.data)))], r))
  {
    assert items[i..][0] == items[i] && items[i..][1..] == items[i + 1..];
    assert sent + [] == sent;
    var o := EventOf(threadId, items[i]);
    if o.Event? {
      var e := Sse.SseEvent(o.eventType, json(StripEmptyContent(o.data)));
      var r := Stream(threadId, items[i + 1..], json);
      assert sent + ([e] + r.events) == (sent + [e]) + r.events;
    }
  }

  lemma FramedSnoc(evs: seq<Sse.SseEvent>, e: Sse.SseEvent)
    ensures Sse.Framed(evs + [e]) == Sse.Framed(evs) + [Sse.Frame(e.eventType, e.data)]
  {
  }

  /**
   * `_astream_workflow_generator`: the frames it yields before the stream ends, and
   * whether it ends with an exception (the first namespace-less message chunk).
   */
  method AstreamWorkflowGenerator(items: seq<StreamItem>, threadId: string, json: seq<Entry> -> string)
    returns (yielded: seq<string>, crashed: bool)
    ensures yielded == Sse.Framed(Stream(threadId, items, json).events)
    ensures crashed == Stream(threadId, items, json).crashed
  {
    yielded, crashed := [], false;
    ghost var whole := Stream(threadId, items, json);
    ghost var sent: seq<Sse.SseEvent> := [];
    var i := 0;
    assert items[0..] == items && whole == Prepend([], whole);
    while i < |items|
      invariant 0 <= i <= |items|
      invariant yielded == Sse.Framed(sent)
      invariant whole == Prepend(sent, Stream(threadId, items[i..], json))
    {
      StreamStep(threadId, items, i, json, sent);
      var o := ItemEvent(threadId, items[i]);
      if o.Crash? {
        crashed := true;
        return;
      }
      if o.Event? {
        var frame := MakeEvent(o.eventType, o.data, json);
        ghost var e := Sse.SseEvent(o.eventType, json(StripEmptyContent(o.data)));
        FramedSnoc(sent, e);
        yielded := yielded + [frame];
        sent := sent + [e];
      }
      i := i + 1;
    }
    assert items[i..] == [] && sent + [] == sent;
  }

  /** Update dicts are invisible to the client: inserting one anywhere changes nothing. */
  lemma {:induction false} UpdatesAreSkipped(threadId: string, xs: seq<StreamItem>, u: StreamItem, ys: seq<StreamItem>, json: seq<Entry> -> string)
    requires u.payload.Update?
    ensures Stream(threadId, xs + [u] + ys, json) == Stream(threadId, xs + ys, json)
  {
    if xs == [] {
      assert xs + [u] + ys == [u] + ys && ([u] + ys)[1..] == ys;
      assert xs + ys == ys;
    } else {
      assert (xs + [u] + ys)[0] == xs[0] && (xs + [u] + ys)[1..] == xs[1..] + [u] + ys;
      assert (xs + ys)[0] == xs[0] && (xs + ys)[1..] == xs[1..] + ys;
      UpdatesAreSkipped(threadId, xs[1..], u, ys, json);
    }
  }

  lemma EventTypesFramable(t: string)
    requires t in EventTypes
    ensures t != "" && Sse.SingleLine(t)
  {
    assert t == EventTypes[0] || t == EventTypes[1] || t == EventTypes[2] || t == EventTypes[3];
  }

  /** Every event of the stream has one of the four names and carries the encoder's text of its dict. */
  lemma {:induction false} StreamEventsFramable(threadId: string, items: seq<StreamItem>, json: seq<Entry> -> string)
    requires forall d :: Sse.SingleLine(json(d))
    ensures forall e :: e in Stream(threadId, items, json).events ==> e.eventType in EventTypes && Sse.Framable(e)
    decreases |items|
  {
    if items != [] {
      StreamEventsFramable(threadId, items[1..], json);
      var o := EventOf(threadId, items[0]);
      if o.Event? {
        EventTypesFramable(o.eventType);
        assert Sse.SingleLine(json(StripEmptyContent(o.data)));
      }
    }
  }

  /**
   * The client reads the response body back as exactly the stream's events, in order,
   * provided the encoder writes no raw line break (`json.dumps` escapes them).
   */
  lemma ClientReadsStream(threadId: string, items: seq<StreamItem>, json: seq<Entry> -> string)
    requires forall d :: Sse.SingleLine(json(d))
    ensures var evs := Stream(threadId, items, json).events;
      Sse.Events(Sse.Concat(Sse.Framed(evs))) == evs
  {
    var evs := Stream(threadId, items, json).events;
    StreamEventsFramable(threadId, items, json);
    assert forall i :: 0 <= i < |evs| ==> evs[i] in evs;
    Sse.EventsOfFrames(evs);
  }
}
