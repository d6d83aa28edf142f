/**
 * The deterministic decision logic of the research workflow (`src/agent/graph.py`):
 * building the research topic, fanning queries out to parallel `web_research` tasks,
 * dispatching to the configured search engines, shaping their results into the prompt
 * context and the gathered sources, counting reflection rounds, routing between another
 * research round and the final answer, and keeping the sources the answer cites.
 *
 * The language model and the search clients are outside the model: their replies are
 * parameters, `None` standing for a call that raised.
 */
module ResearchGraph {
  import opened Wrappers
  import Text

  // ---------------------------------------------------------------- research topic

  datatype Message =
    | Human(content: string)          // HumanMessage
    | Ai(content: string)             // AIMessage
    | OtherMessage(content: string)   // any other message kind (system, tool, ...)

  /** The line one message adds to a multi-message transcript. */
  function Line(m: Message): string
  {
    match m
    case Human(c) => "User: " + c + "\n"
    case Ai(c) => "Assistant: " + c + "\n"
    case OtherMessage(_) => ""
  }

  /** The transcript of a history, accumulated front to back. */
  function Transcript(ms: seq<Message>): string
  {
    if ms == [] then "" else Transcript(ms[..|ms| - 1]) + Line(ms[|ms| - 1])
  }

  /** The transcript of a concatenated history is the concatenation of the transcripts. */
  lemma {:induction false} TranscriptConcat(xs: seq<Message>, ys: seq<Message>)
    ensures Transcript(xs + ys) == Transcript(xs) + Transcript(ys)
  {
    if ys != [] {
      var n := |ys| - 1;
      assert (xs + ys)[..|xs + ys| - 1] == xs + ys[..n];
      assert (xs + ys)[|xs + ys| - 1] == ys[n];
      TranscriptConcat(xs, ys[..n]);
    } else {
      assert xs + ys == xs;
    }
  }

  /** Messages that are neither human nor AI leave no trace in the transcript. */
  lemma TranscriptSkipsOthers(xs: seq<Message>, c: string, ys: seq<Message>)
    ensures Transcript(xs + [OtherMessage(c)] + ys) == Transcript(xs + ys)
  {
    var o := [OtherMessage(c)];
    TranscriptConcat(xs + o, ys);
    TranscriptConcat(xs, o);
    TranscriptConcat(xs, ys);
    TranscriptStep(o, 0);
    assert o[..0] == [] && o[..1] == o;
    var t := Transcript(xs);
    assert Transcript(xs + o) == t + "";
    assert t + "" == t;
  }

  lemma TranscriptStep(ms: seq<Message>, i: nat)
    requires i < |ms|
    ensures Transcript(ms[..i + 1]) == Transcript(ms[..i]) + Line(ms[i])
  {
    assert ms[..i + 1][..i] == ms[..i];
  }

  /**
   * `get_research_topic`: a single message is the topic verbatim, whatever its kind;
   * otherwise the topic is the transcript of the whole history.
   */
  method GetResearchTopic(messages: seq<Message>) returns (topic: string)
    ensures |messages| == 1 ==> topic == messages[0].content
    ensures |messages| != 1 ==> topic == Transcript(messages)
  {
    if |messages| == 1 {
      topic := messages[|messages| - 1].content;
    } else {
      topic := "";
      for i := 0 to |messages|
        invariant topic == Transcript(messages[..i])
      {
        TranscriptStep(messages, i);
        var line := "";
        match messages[i] {
          case Human(c) =>
            line := "User: " + c + "\n";
          case Ai(c) =>
            line := "Assistant: " + c + "\n";
          case OtherMessage(_) =>
        }
        assert line == Line(messages[i]);
        topic := topic + line;
      }
      assert messages[..|messages|] == messages;
    }
  }

  // ---------------------------------------------------------------- fan-out and routing

  /** `Send(node, {"search_query": ..., "id": ...})` */
  datatype Send = Send(node: string, searchQuery: string, id: int)

  /** One `web_research` task per query, in order, numbered from `firstId`. */
  function FanOut(queries: seq<string>, firstId: int): (sends: seq<Send>)
    ensures |sends| == |queries|
    ensures forall i :: 0 <= i < |queries| ==> sends[i] == Send("web_research", queries[i], firstId + i)
  {
    if queries == [] then [] else [Send("web_research", queries[0], firstId)] + FanOut(queries[1..], firstId + 1)
  }

  /** `continue_to_web_research`: one task per generated query, with ids 0 .. n-1. */
  function ContinueToWebResearch(queryList: seq<string>): (sends: seq<Send>)
    ensures |sends| == |queryList|
    ensures forall i :: 0 <= i < |sends| ==>
      sends[i].node == "web_research" && sends[i].searchQuery == queryList[i] && sends[i].id == i
  {
    FanOut(queryList, 0)
  }

  /** Follow-up tasks numbered from the count of queries already run never reuse an earlier id. */
  lemma {:induction false} FollowUpIdsAreFresh(first: seq<string>, followUps: seq<string>, ran: int)
    requires ran >= |first|
    ensures forall s, t :: s in ContinueToWebResearch(first) && t in FanOut(followUps, ran) ==> s.id != t.id
  {
    var a, b := ContinueToWebResearch(first), FanOut(followUps, ran);
    forall s, t | s in a && t in b ensures s.id != t.id {
      var i :| 0 <= i < |a| && a[i] == s;
      var j :| 0 <= j < |b| && b[j] == t;
    }
  }

  /** The structured reply of the reflection prompt. */
  datatype Verdict = Verdict(isSufficient: bool, knowledgeGap: string, followUpQueries: seq<string>)

  /** The update `reflection` returns. */
  datatype ReflectionState = ReflectionState(
    isSufficient: bool,
    knowledgeGap: string,
    followUpQueries: seq<string>,
    researchLoopCount: int,
    numberOfRanQueries: int)

  /**
   * `reflection` without its language-model call: the loop counter goes up by one
   * (from 0 when the state has none yet) and the number of queries run so far is the
   * length of the accumulated `search_query` list. The write into the node's state dict
   * is visible to the rest of the graph only through this returned update.
   */
  function Reflection(loopCount: Option<int>, searchQuery: seq<string>, verdict: Verdict): (out: ReflectionState)
    ensures out.researchLoopCount == (if loopCount.Some? then loopCount.value else 0) + 1
    ensures out.numberOfRanQueries == |searchQuery|
    ensures out.isSufficient == verdict.isSufficient && out.followUpQueries == verdict.followUpQueries
  {
    var count := (if loopCount.Some? then loopCount.value else 0) + 1;
    ReflectionState(verdict.isSufficient, verdict.knowledgeGap, verdict.followUpQueries, count, |searchQuery|)
  }

  /** The loop limit: the state's `max_research_loops` unless it is None, else the configured one. */
  function MaxLoops(stateMax: Option<int>, configMax: int): int
  {
    if stateMax.Some? then stateMax.value else configMax
  }

  datatype Route = FinalizeAnswer | SendAll(sends: seq<Send>)

  /**
   * `evaluate_research`: finalize exactly when the reflection judged the research
   * sufficient or the loop count reached the limit; otherwise one `web_research` task per
   * follow-up query, numbered after the queries already run.
   */
  function EvaluateResearch(state: ReflectionState, stateMax: Option<int>, configMax: int): (route: Route)
    ensures route.FinalizeAnswer? <==> state.isSufficient || state.researchLoopCount >= MaxLoops(stateMax, configMax)
    ensures route.SendAll? ==> |route.sends| == |state.followUpQueries|
    ensures route.SendAll? ==> forall i :: 0 <= i < |route.sends| ==>
      route.sends[i] == Send("web_research", state.followUpQueries[i], state.numberOfRanQueries + i)
  {
    if state.isSufficient || state.researchLoopCount >= MaxLoops(stateMax, configMax) then FinalizeAnswer
    else SendAll(FanOut(state.followUpQueries, state.numberOfRanQueries))
  }

  /**
   * How many reflection rounds the graph runs when the reflection prompt answers with
   * `verdicts` in turn, starting from the loop count `loopCount`: it stops at the first
   * round that routes to the final answer, or that has no follow-up query to send.
   */
  function Rounds(loopCount: Option<int>, stateMax: Option<int>, configMax: int, verdicts: seq<Verdict>): (n: nat)
    ensures n <= |verdicts|
    ensures verdicts != [] ==> 1 <= n
    decreases |verdicts|
  {
    if verdicts == [] then 0
    else
      var st := Reflection(loopCount, [], verdicts[0]);
      match EvaluateResearch(st, stateMax, configMax)
      case FinalizeAnswer => 1
      case SendAll(sends) =>
        if sends == [] then 1 else 1 + Rounds(Some(st.researchLoopCount), stateMax, configMax, verdicts[1..])
  }

  function Max(a: int, b: int): int
  {
    if a < b then b else a
  }

  /** The research loop is bounded: from count `c` at most max(1, limit - c) rounds run. */
  lemma {:induction false} RoundsBounded(c: int, stateMax: Option<int>, configMax: int, verdicts: seq<Verdict>)
    ensures Rounds(Some(c), stateMax, configMax, verdicts) <= Max(1, MaxLoops(stateMax, configMax) - c)
    decreases |verdicts|
  {
    if verdicts != [] {
      var st := Reflection(Some(c), [], verdicts[0]);
      if EvaluateResearch(st, stateMax, configMax).SendAll? {
        RoundsBounded(c + 1, stateMax, configMax, verdicts[1..]);
      }
    }
  }

  /** A fresh research run (no loop count yet) performs at most max(1, limit) reflection rounds. */
  lemma RoundsBoundedFromStart(stateMax: Option<int>, configMax: int, verdicts: seq<Verdict>)
    ensures Rounds(None, stateMax, configMax, verdicts) <= Max(1, MaxLoops(stateMax, configMax))
  {
    if verdicts != [] {
      var st := Reflection(None, [], verdicts[0]);
      if EvaluateResearch(st, stateMax, configMax).SendAll? {
        RoundsBounded(1, stateMax, configMax, verdicts[1..]);
      }
    }
  }

  /**
   * The bound is reached: when no verdict is sufficient and each asks for a follow-up
   * query, exactly max(1, limit - c) rounds run.
   */
  lemma {:induction false} RoundsExact(c: int, stateMax: Option<int>, configMax: int, verdicts: seq<Verdict>)
    requires forall i :: 0 <= i < |verdicts| ==> !verdicts[i].isSufficient && verdicts[i].followUpQueries != []
    requires |verdicts| >= Max(1, MaxLoops(stateMax, configMax) - c)
    ensures Rounds(Some(c), stateMax, configMax, verdicts) == Max(1, MaxLoops(stateMax, configMax) - c)
    decreases |verdicts|
  {
    var st := Reflection(Some(c), [], verdicts[0]);
    if EvaluateResearch(st, stateMax, configMax).SendAll? {
      RoundsExact(c + 1, stateMax, configMax, verdicts[1..]);
    }
  }

  // ---------------------------------------------------------------- search engines

  /** One result dict of the Tavily client; a missing key is `None`. */
  datatype RawHit = RawHit(title: Option<string>, content: Option<string>, url: Option<string>)

  /** A search result in the standardized form every engine helper returns. */
  datatype SearchHit = SearchHit(title: string, content: string, url: string, source: string)

  /** `d.get(key, '')` */
  function OrEmpty(o: Option<string>): string
  {
    if o.Some? then o.value else ""
  }

  function FromTavily(r: RawHit): SearchHit
  {
    SearchHit(OrEmpty(r.title), OrEmpty(r.content), OrEmpty(r.url), "tavily")
  }

  /** The Tavily results in standardized form, in the client's order. */
  function Formatted(raws: seq<RawHit>): (hits: seq<SearchHit>)
    ensures |hits| == |raws|
    ensures forall i :: 0 <= i < |raws| ==> hits[i] == FromTavily(raws[i])
  {
    if raws == [] then [] else Formatted(raws[..|raws| - 1]) + [FromTavily(raws[|raws| - 1])]
  }

  /** What `_search_with_tavily` returns; `None` is a client call that raised. */
  function TavilyHits(response: Option<seq<RawHit>>): seq<SearchHit>
  {
    if response.None? then [] else Formatted(response.value)
  }

  /**
   * `_search_with_tavily`: each result is mapped field by field with `''` for a missing
   * key and source `tavily`; a failing client yields no results.
   */
  method SearchWithTavily(response: Option<seq<RawHit>>) returns (hits: seq<SearchHit>)
    ensures response.None? ==> hits == []
    ensures response.Some? ==> |hits| == |response.value|
    ensures response.Some? ==> forall i :: 0 <= i < |hits| ==>
      hits[i] == SearchHit(OrEmpty(response.value[i].title), OrEmpty(response.value[i].content), OrEmpty(response.value[i].url), "tavily")
  {
    if response.None? {
      return [];
    }
    var results := response.value;
    hits := [];
    for i := 0 to |results|
      invariant |hits| == i
      invariant forall j :: 0 <= j < i ==> hits[j] == FromTavily(results[j])
    {
      hits := hits + [SearchHit(OrEmpty(results[i].title), OrEmpty(results[i].content), OrEmpty(results[i].url), "tavily")];
    }
  }

  /** "DuckDuckGo搜索: " */
  const DuckDuckGoTitle := "DuckDuckGo\U{641C}\U{7D22}: "
  /** "ArXiv搜索: " */
  const ArxivTitle := "ArXiv\U{641C}\U{7D22}: "

  /**
   * What `_search_with_duckduckgo` would return: the client's text as one result, or
   * nothing. The engine loop as written never reaches it (see `CallEngine`); the
   * intended call does (see `CallEngineIntended`).
   */
  function DuckDuckGoHits(query: string, response: Option<string>): (hits: seq<SearchHit>)
    ensures |hits| == (if response.Some? then 1 else 0)
    ensures forall h :: h in hits ==>
      h.title == DuckDuckGoTitle + query && h.content == response.value
      && h.url == "https://duckduckgo.com" && h.source == "duckduckgo"
  {
    if response.None? then []
    else [SearchHit(DuckDuckGoTitle + query, response.value, "https://duckduckgo.com", "duckduckgo")]
  }

  /** What `_search_with_arxiv` returns: the client's text as one result, or nothing. */
  function ArxivHits(query: string, response: Option<string>): (hits: seq<SearchHit>)
    ensures |hits| == (if response.Some? then 1 else 0)
    ensures forall h :: h in hits ==>
      h.title == ArxivTitle + query && h.content == response.value
      && h.url == "https://arxiv.org" && h.source == "arxiv"
  {
    if response.None? then []
    else [SearchHit(ArxivTitle + query, response.value, "https://arxiv.org", "arxiv")]
  }

  /** The replies of the three search clients for the query at hand; `None` is a call that raised. */
  datatype Backends = Backends(tavily: Option<seq<RawHit>>, duckduckgo: Option<string>, arxiv: Option<string>)

  /** What one iteration of the engine loop does. */
  datatype EngineOutcome = Results(hits: seq<SearchHit>) | Skipped | Raised

  /**
   * One engine entry, matched case-insensitively. The `duckduckgo` branch calls the
   * one-parameter helper with two arguments, so it raises TypeError before any search.
   */
  function CallEngine(engine: string, query: string, b: Backends): (o: EngineOutcome)
    ensures Text.Lower(engine) == "tavily" ==> o == Results(TavilyHits(b.tavily))
    ensures Text.Lower(engine) == "arxiv" ==> o == Results(ArxivHits(query, b.arxiv))
    ensures o.Raised? <==> Text.Lower(engine) == "duckduckgo"
    ensures o.Skipped? <==> Text.Lower(engine) !in ["tavily", "duckduckgo", "arxiv"]
  {
    var name := Text.Lower(engine);
    if name == "tavily" then Results(TavilyHits(b.tavily))
    else if name == "duckduckgo" then Raised
    else if name == "arxiv" then Results(ArxivHits(query, b.arxiv))
    else Skipped
  }

  /**
   * The dispatch the `duckduckgo` branch evidently means: the helper called with the
   * query alone, its result added like the other engines'. It never raises.
   */
  function CallEngineIntended(engine: string, query: string, b: Backends): (o: EngineOutcome)
    ensures Text.Lower(engine) == "duckduckgo" ==> o == Results(DuckDuckGoHits(query, b.duckduckgo))
    ensures Text.Lower(engine) != "duckduckgo" ==> o == CallEngine(engine, query, b)
    ensures !o.Raised?
  {
    if Text.Lower(engine) == "duckduckgo" then Results(DuckDuckGoHits(query, b.duckduckgo))
    else CallEngine(engine, query, b)
  }

  /** What an outcome adds to `all_search_results`: a raised error is logged and skipped. */
  function Contribution(o: EngineOutcome): seq<SearchHit>
  {
    if o.Results? then o.hits else []
  }

  /** `all_search_results` after an engine loop that dispatches each entry with `call`. */
  function CollectedWith(call: (string, string, Backends) -> EngineOutcome, engines: seq<string>, query: string, b: Backends)
    : seq<SearchHit>
  {
    if engines == [] then []
    else CollectedWith(call, engines[..|engines| - 1], query, b) + Contribution(call(engines[|engines| - 1], query, b))
  }

  /** `all_search_results` after the engine loop as written. */
  function Collected(engines: seq<string>, query: string, b: Backends): seq<SearchHit>
  {
    CollectedWith(CallEngine, engines, query, b)
  }

  /** `all_search_results` after the engine loop with the intended `duckduckgo` call. */
  function CollectedIntended(engines: seq<string>, query: string, b: Backends): seq<SearchHit>
  {
    CollectedWith(CallEngineIntended, engines, query, b)
  }

  /** The results of two engine lists run one after the other are concatenated in order. */
  lemma {:induction false} CollectedConcat(call: (string, string, Backends) -> EngineOutcome, xs: seq<string>, ys: seq<string>, query: string, b: Backends)
    ensures CollectedWith(call, xs + ys, query, b) == CollectedWith(call, xs, query, b) + CollectedWith(call, ys, query, b)
  {
    if ys != [] {
      var n := |ys| - 1;
      assert (xs + ys)[..|xs + ys| - 1] == xs + ys[..n];
      assert (xs + ys)[|xs + ys| - 1] == ys[n];
      CollectedConcat(call, xs, ys[..n], query, b);
    } else {
      assert xs + ys == xs;
    }
  }

  /** A one-entry engine list collects what its entry contributes. */
  lemma CollectedSingle(call: (string, string, Backends) -> EngineOutcome, e: string, query: string, b: Backends)
    ensures CollectedWith(call, [e], query, b) == Contribution(call(e, query, b))
  {
    var es := [e];
    assert es[..|es| - 1] == [] && es[|es| - 1] == e;
  }

  /** An entry between two engine lists adds its contribution between their results. */
  lemma CollectedSplit(call: (string, string, Backends) -> EngineOutcome, xs: seq<string>, e: string, ys: seq<string>, query: string, b: Backends)
    ensures CollectedWith(call, xs + [e] + ys, query, b)
      == CollectedWith(call, xs, query, b) + Contribution(call(e, query, b)) + CollectedWith(call, ys, query, b)
  {
    CollectedConcat(call, xs + [e], ys, query, b);
    CollectedConcat(call, xs, [e], query, b);
    CollectedSingle(call, e, query, b);
  }

  /** An engine entry that contributes nothing: unknown, `duckduckgo` (the swallowed TypeError), or failing. */
  lemma EntryContributesNothing(xs: seq<string>, e: string, ys: seq<string>, query: string, b: Backends)
    requires Contribution(CallEngine(e, query, b)) == []
    ensures Collected(xs + [e] + ys, query, b) == Collected(xs + ys, query, b)
  {
    CollectedSplit(CallEngine, xs, e, ys, query, b);
    CollectedConcat(CallEngine, xs, ys, query, b);
  }

  /** A `duckduckgo` entry, in any letter case, never contributes a result. */
  lemma DuckDuckGoContributesNothing(xs: seq<string>, e: string, ys: seq<string>, query: string, b: Backends)
    requires Text.Lower(e) == "duckduckgo"
    ensures Collected(xs + [e] + ys, query, b) == Collected(xs + ys, query, b)
  {
    EntryContributesNothing(xs, e, ys, query, b);
  }

  /**
   * With the intended call, a `duckduckgo` entry contributes the DuckDuckGo result at its
   * place in the engine list.
   */
  lemma IntendedDuckDuckGoContributes(xs: seq<string>, e: string, ys: seq<string>, query: string, b: Backends)
    requires Text.Lower(e) == "duckduckgo"
    ensures CollectedIntended(xs + [e] + ys, query, b)
      == CollectedIntended(xs, query, b) + DuckDuckGoHits(query, b.duckduckgo) + CollectedIntended(ys, query, b)
  {
    CollectedSplit(CallEngineIntended, xs, e, ys, query, b);
  }

  /**
   * The discrepancy on one input: with `["duckduckgo"]` as the engine list and a working
   * DuckDuckGo client, the loop as written collects nothing, where the intended call
   * collects the client's result.
   */
  lemma DuckDuckGoFindsNothing(query: string, b: Backends)
    requires b.duckduckgo.Some?
    ensures Collected(["duckduckgo"], query, b) == []
    ensures CollectedIntended(["duckduckgo"], query, b) == DuckDuckGoHits(query, b.duckduckgo) != []
  {
    CollectedSingle(CallEngine, "duckduckgo", query, b);
    CollectedSingle(CallEngineIntended, "duckduckgo", query, b);
    assert Text.Lower("duckduckgo") == "duckduckgo";
  }

  /** Engine names are matched case-insensitively: lowering every entry changes nothing. */
  lemma {:induction false} CollectedCaseInsensitive(engines: seq<string>, lowered: seq<string>, query: string, b: Backends)
    requires |lowered| == |engines|
    requires forall i :: 0 <= i < |engines| ==> lowered[i] == Text.Lower(engines[i])
    ensures Collected(lowered, query, b) == Collected(engines, query, b)
  {
    if engines != [] {
      var n := |engines| - 1;
      Text.LowerIdempotent(engines[n]);
      CollectedCaseInsensitive(engines[..n], lowered[..n], query, b);
    }
  }

  /**
   * The engine loop of `web_research`: each entry is lower-cased and dispatched;
   * unknown names are skipped, and an error raised by a call is logged and skipped.
   */
  method CollectSearchResults(engines: seq<string>, query: string, b: Backends) returns (all: seq<SearchHit>)
    ensures all == Collected(engines, query, b)
  {
    all := [];
    for i := 0 to |engines|
      invariant all == Collected(engines[..i], query, b)
    {
      assert engines[..i + 1][..i] == engines[..i];
      var name := Text.Lower(engines[i]);
      if name == "tavily" {
        var results := SearchWithTavily(b.tavily);
        assert results == TavilyHits(b.tavily);
        all := all + results;
      } else if name == "duckduckgo" {
        // `_search_with_duckduckgo(search_query, configurable)` raises TypeError; the handler moves on
      } else if name == "arxiv" {
        all := all + ArxivHits(query, b.arxiv);
      }
    }
    assert engines[..|engines|] == engines;
  }

  // ---------------------------------------------------------------- prompt context

  /** "\n\n搜索结果:\n" */
  const ContextHeader := "\n\n\U{641C}\U{7D22}\U{7ED3}\U{679C}:\n"
  /** "来源: " */
  const SourceLabel := "\U{6765}\U{6E90}: "
  /** Only the first ten results enter the prompt. */
  const ContextLimit := 10

  /** The context block of the `n`-th result. */
  function ContextEntry(n: nat, h: SearchHit): string
  {
    Text.NatToString(n) + ". " + h.title + "\n" + h.content + "\n" + SourceLabel + h.url + "\n\n"
  }

  /** The context blocks of `hits`, numbered from 1. */
  function Entries(hits: seq<SearchHit>): string
  {
    if hits == [] then "" else Entries(hits[..|hits| - 1]) + ContextEntry(|hits|, hits[|hits| - 1])
  }

  function Take(hits: seq<SearchHit>, n: nat): seq<SearchHit>
  {
    if |hits| <= n then hits else hits[..n]
  }

  /** The search context appended to the web-research prompt. */
  function SearchContext(hits: seq<SearchHit>): string
  {
    ContextHeader + Entries(Take(hits, ContextLimit))
  }

  /** Results beyond the tenth never reach the prompt. */
  lemma SearchContextTopTen(hits: seq<SearchHit>, more: seq<SearchHit>)
    requires |hits| >= ContextLimit
    ensures SearchContext(hits + more) == SearchContext(hits)
  {
    if |hits + more| > ContextLimit {
      assert (hits + more)[..ContextLimit] == hits[..ContextLimit];
    }
    assert Take(hits + more, ContextLimit) == Take(hits, ContextLimit);
  }

  /** Every result given to the context appears in it, numbered by its position from 1. */
  lemma {:induction false} EntriesNumbered(hits: seq<SearchHit>, i: nat)
    requires i < |hits|
    ensures Text.Occurs(ContextEntry(i + 1, hits[i]), Entries(hits))
  {
    var n := |hits| - 1;
    var part, last := Entries(hits[..n]), ContextEntry(n + 1, hits[n]);
    assert Entries(hits) == part + last;
    if i == n {
      Text.OccursAtEnd(last, part);
    } else {
      EntriesNumbered(hits[..n], i);
      assert hits[..n][i] == hits[i];
      Text.OccursExtends(ContextEntry(i + 1, hits[i]), part, last);
    }
  }

  lemma EntriesSnoc(hits: seq<SearchHit>, i: nat)
    requires i < |hits|
    ensures Entries(hits[..i + 1]) == Entries(hits[..i]) + ContextEntry(i + 1, hits[i])
  {
    assert hits[..i + 1][..i] == hits[..i];
  }

  /** The context loop of `web_research`: the first ten results, each as a numbered block. */
  method BuildSearchContext(hits: seq<SearchHit>) returns (context: string)
    ensures context == SearchContext(hits)
  {
    var top := if |hits| <= 10 then hits else hits[..10];
    context := ContextHeader;
    for i := 0 to |top|
      invariant context == ContextHeader + Entries(top[..i])
    {
      EntriesSnoc(top, i);
      var result := top[i];
      var entry := Text.NatToString(i + 1) + ". " + result.title + "\n" + result.content + "\n" + SourceLabel + result.url + "\n\n";
      assert entry == ContextEntry(i + 1, top[i]);
      ghost var before := Entries(top[..i]);
      assert context + entry == ContextHeader + (before + entry);
      context := context + entry;
    }
    assert top[..|top|] == top;
  }

  // ---------------------------------------------------------------- gathered sources

  datatype Source = Source(url: string, title: string, content: string)

  const SnippetLimit := 200

  /** A result's content as stored in a source: longer than 200 characters, its first 200 and "...". */
  function Snippet(content: string): (r: string)
    ensures |content| <= SnippetLimit ==> r == content
    ensures |content| > SnippetLimit ==> r == content[..SnippetLimit] + "..."
  {
    if |content| > SnippetLimit then content[..SnippetLimit] + "..." else content
  }

  /** A snippet is at most 203 characters and begins with the content's first 200. */
  lemma SnippetShape(content: string)
    ensures |Snippet(content)| <= SnippetLimit + 3
    ensures var k := if |content| < SnippetLimit then |content| else SnippetLimit;
      Snippet(content)[..k] == content[..k]
  {
  }

  /** Shortening a snippet again changes nothing. */
  lemma SnippetIdempotent(content: string)
    ensures Snippet(Snippet(content)) == Snippet(content)
  {
    if |content| > SnippetLimit {
      var s := Snippet(content);
      assert s[..SnippetLimit] == content[..SnippetLimit];
    }
  }

  function ToSource(h: SearchHit): Source
  {
    Source(h.url, h.title, Snippet(h.content))
  }

  /** The sources `web_research` gathers: one per result with a non-empty url, in order. */
  function Gathered(hits: seq<SearchHit>): seq<Source>
  {
    if hits == [] then []
    else
      var last := hits[|hits| - 1];
      Gathered(hits[..|hits| - 1]) + (if last.url != "" then [ToSource(last)] else [])
  }

  /** A source is gathered exactly when some result with a non-empty url becomes it. */
  lemma {:induction false} GatheredMembers(hits: seq<SearchHit>, s: Source)
    ensures s in Gathered(hits) <==> exists h :: h in hits && h.url != "" && ToSource(h) == s
  {
    if hits != [] {
      var n := |hits| - 1;
      GatheredMembers(hits[..n], s);
      assert hits == hits[..n] + [hits[n]];
      assert forall h :: h in hits <==> h in hits[..n] || h == hits[n];
    }
  }

  /** Every gathered source has a url and a snippet of at most 203 characters. */
  lemma {:induction false} GatheredShape(hits: seq<SearchHit>)
    ensures |Gathered(hits)| <= |hits|
    ensures forall s :: s in Gathered(hits) ==> s.url != "" && |s.content| <= SnippetLimit + 3
  {
    if hits != [] {
      GatheredShape(hits[..|hits| - 1]);
      SnippetShape(hits[|hits| - 1].content);
    }
  }

  /** The sources loop of `web_research`. */
  method GatherSources(hits: seq<SearchHit>) returns (sources: seq<Source>)
    ensures sources == Gathered(hits)
  {
    sources := [];
    for i := 0 to |hits|
      invariant sources == Gathered(hits[..i])
    {
      assert hits[..i + 1][..i] == hits[..i];
      var result := hits[i];
      if result.url != "" {
        var content := if |result.content| > 200 then result.content[..200] + "..." else result.content;
        sources := sources + [Source(result.url, result.title, content)];
      }
    }
    assert hits[..|hits|] == hits;
  }

  /** The update `web_research` returns. */
  datatype WebResearchOutput = WebResearchOutput(
    sourcesGathered: seq<Source>,
    searchQuery: seq<string>,
    webResearchResult: seq<string>)

  /**
   * `web_research`: search with every configured engine, prompt the model with the
   * instructions and the context of the first ten results, and gather the sources.
   * `llm` maps a prompt to the model's reply, `None` when the call raises (the node then
   * fails); `instructions` is the formatted instruction template.
   */
  method WebResearch(query: string, engines: seq<string>, b: Backends, instructions: string, llm: string -> Option<string>)
    returns (r: Option<WebResearchOutput>)
    ensures var hits := Collected(engines, query, b);
      var reply := llm(instructions + SearchContext(hits));
      && (r.Some? <==> reply.Some?)
      && (r.Some? ==> r.value == WebResearchOutput(Gathered(hits), [query], [reply.value]))
  {
    var all := CollectSearchResults(engines, query, b);
    var context := BuildSearchContext(all);
    var reply := llm(instructions + context);
    if reply.None? {
      return None;
    }
    var sources := GatherSources(all);
    r := Some(WebResearchOutput(sources, [query], [reply.value]));
  }

  // ---------------------------------------------------------------- final answer

  /** The sources whose url occurs in the answer text, in order, duplicates kept. */
  function Cited(sources: seq<Source>, answer: string): seq<Source>
  {
    if sources == [] then []
    else
      var last := sources[|sources| - 1];
      Cited(sources[..|sources| - 1], answer) + (if Text.Occurs(last.url, answer) then [last] else [])
  }

  /** A source is kept exactly when it was gathered and the answer mentions its url. */
  lemma {:induction false} CitedMembers(sources: seq<Source>, answer: string, s: Source)
    ensures s in Cited(sources, answer) <==> s in sources && Text.Occurs(s.url, answer)
  {
    if sources != [] {
      var n := |sources| - 1;
      CitedMembers(sources[..n], answer, s);
      assert sources == sources[..n] + [sources[n]];
    }
  }

  /** Despite the name `unique_sources`, a cited source is kept as often as it was gathered. */
  lemma {:induction false} CitedKeepsDuplicates(sources: seq<Source>, answer: string, s: Source)
    requires Text.Occurs(s.url, answer)
    ensures multiset(Cited(sources, answer))[s] == multiset(sources)[s]
  {
    if sources != [] {
      var n := |sources| - 1;
      CitedKeepsDuplicates(sources[..n], answer, s);
      assert sources == sources[..n] + [sources[n]];
    }
  }

  /** Filtering by the same answer twice keeps the same sources. */
  lemma {:induction false} CitedIdempotent(sources: seq<Source>, answer: string)
    ensures Cited(Cited(sources, answer), answer) == Cited(sources, answer)
  {
    if sources != [] {
      var n := |sources| - 1;
      var last := sources[n];
      CitedIdempotent(sources[..n], answer);
      var c := Cited(sources[..n], answer);
      if Text.Occurs(last.url, answer) {
        assert (c + [last])[..|c + [last]| - 1] == c;
        assert (c + [last])[|c + [last]| - 1] == last;
      } else {
        assert Cited(sources, answer) == c + [];
        assert c + [] == c;
      }
    }
  }

  /** The update `finalize_answer` returns. */
  datatype FinalAnswer = FinalAnswer(messages: seq<Message>, sourcesGathered: seq<Source>)

  /**
   * `finalize_answer`, given the model's answer: the answer becomes the AI message and
   * only the sources whose url occurs in it are kept.
   */
  method FinalizeAnswerNode(sources: seq<Source>, answer: string) returns (out: FinalAnswer)
    ensures out.messages == [Ai(answer)]
    ensures out.sourcesGathered == Cited(sources, answer)
  {
    var unique := [];
    for i := 0 to |sources|
      invariant unique == Cited(sources[..i], answer)
    {
      assert sources[..i + 1][..i] == sources[..i];
      if Text.Occurs(sources[i].url, answer) {
        unique := unique + [sources[i]];
      }
    }
    assert sources[..|sources|] == sources;
    out := FinalAnswer([Ai(answer)], unique);
  }
}
