# Research assistant back end, modelled in Dafny

This project models the three self-contained pieces of logic in the back end of a
LangGraph deep-research assistant, and proves properties of each.

1. **The configuration loader and chat-model cache** (`ModelConfigLoader`).
   - It reads `conf.yaml` once and keeps the parsed value as a memo.
   - It looks up named model configurations in the `llms` section.
   - It fills in default construction parameters: `temperature`, `max_retries` and `streaming`.
   - It caches built model instances by name. `force_reload`, selective clearing and a full reset are supported.
2. **The deterministic decision logic of the research workflow** (`src/agent/graph.py`).
   - It builds the research topic from the message history.
   - It numbers the parallel `web_research` tasks.
   - It dispatches each query to the configured search engines and shapes their results.
   - It builds the prompt context from the first ten results and truncates source snippets.
   - It counts reflection rounds, and routes to another round or to the final answer.
   - It keeps only the sources the final answer cites.
3. **The server-sent-event stream of the chat endpoint** (`src/server/app.py`).
   - It defaults the thread id and extracts the agent name.
   - It classifies each message chunk by priority into one of four event kinds.
   - It builds each event's fields and drops an empty `content`.
   - It frames each event as `event: …`, `data: …` and a blank line.

Modules, one per file:

| file | module | contents |
|---|---|---|
| `wrappers.dfy` | `Wrappers` | `Option`, `Result` |
| `values.dfy` | `Values` | YAML and JSON values. A dict is an ordered list of entries, because Python dicts keep insertion order. Covers `d.get`, `d[k] = v`, `d.pop(k)`. |
| `text.dfy` | `Text` | `str.lower` (ASCII), `needle in hay`, `s.split(sep)[0]`, `str(n)` |
| `model_config.dfy` | `ModelConfig` | `ModelConfigLoader` as a class with fields `config`, `llmCache` and a ghost read counter |
| `research_graph.dfy` | `ResearchGraph` | the graph nodes' deterministic parts |
| `sse.dfy` | `Sse` | the frame `_make_event` produces, and a reader of the `text/event-stream` format following section 9.2.6 of the WHATWG HTML Living Standard ("Interpreting an event stream") |
| `chat_stream.dfy` | `ChatStream` | thread-id defaulting, event classification, `_make_event`, and the generator loop |

Inputs and calls that cannot be modelled are parameters:
- The file system: `file: Option<Value>`. `None` means the file is missing. `Some(v)` means `yaml.safe_load` yields `v`.
- Each search client's reply for the query at hand (`Backends`). `None` means the call raised.
- The language model: a function from prompt to reply, `None` meaning the call raised.
- The items of the `graph.astream` stream.
- The id `uuid4` generates.
- `json.dumps`: an abstract function from a dict to its text.

Facts about the code that shape the model:
- `_astream_workflow_generator` sets no `finish_reason` field. Each frame has an `event:` line naming the event kind before its `data:` line.
- `yaml.safe_load` of an empty file yields `None`, which is also the loader's "not loaded" marker. So an empty configuration file is read again on every call (`EmptyFileIsReread`).
- `finalize_answer` appends every cited source, so a source gathered twice is kept twice (`CitedKeepsDuplicates`).
- The agent name is `agent[0].split(":")[0]`. A message chunk with an empty namespace raises IndexError before it is classified, and that ends the stream (`Crash`).
- The `duckduckgo` branch of the engine loop is described under "## Findings".

## Model

| member | source | states |
|---|---|---|
| `ModelConfig.ModelConfigLoader.constructor` | src/utils/model_config_loader.py:14-22 | A new loader has no configuration memo and an empty instance cache. |
| `ModelConfig.ModelConfigLoader.LoadConfig` | src/utils/model_config_loader.py:24-37 | With a memo, returns it without reading the file. A missing file raises FileNotFoundError and leaves the memo unset. Otherwise the file is read (the read counter goes up by exactly one), its value is returned and memoised. |
| `ModelConfig.LoadIsMemoised` | src/utils/model_config_loader.py:30-37 | After a load that yields a non-empty configuration, every later load returns that same value, whatever the file holds then. |
| `ModelConfig.EmptyFileIsReread` | src/utils/model_config_loader.py:30-35 | A file that parses to `None` leaves no memo, so the next load consults the file again. |
| `ModelConfig.PyContains` | src/utils/model_config_loader.py:53-56 | `key in x` is dict-key membership for a dict. It raises TypeError exactly for values that are not a dict, list or string. |
| `ModelConfig.LlmConfigOf` | src/utils/model_config_loader.py:51-60 | Succeeds exactly when the `llms` section is a dict holding the name, and then returns exactly `config['llms'][name]`. No `llms` key raises KeyError (`NoLlmsSection`). A missing name raises KeyError listing the section's keys in order. An empty configuration raises TypeError. A configuration that is not a dict raises KeyError when `'llms' in config` is false, else TypeError. A section that is not a dict raises AttributeError (from `.keys()`) when `name in section` is false, else TypeError. |
| `ModelConfig.ModelConfigLoader.GetLlmConfig` | src/utils/model_config_loader.py:39-60 | Loads (with the memo behaviour of `load_config`). A missing file gives FileNotFoundError; otherwise the result is the lookup of the name in the loaded configuration. |
| `ModelConfig.SetDefaultSpec` | src/utils/model_config_loader.py:79-84 | `if k not in params: params[k] = v` appends `k` only when it is missing, gives it `v` then, and leaves every other key and a present `k` untouched. |
| `ModelConfig.WithDefaultsValues` | src/utils/model_config_loader.py:76-84 | Every key supplied in the configuration keeps its value. `temperature` becomes 0.7, `max_retries` 2 and `streaming` False only where the key is absent. |
| `ModelConfig.WithDefaultsKeys` | src/utils/model_config_loader.py:76-84 | The supplied keys keep their order. Only the missing default keys are appended, in the order temperature, max_retries, streaming. No key is doubled. |
| `ModelConfig.WithDefaultsIdempotent` | src/utils/model_config_loader.py:79-84 | Filling defaults into already-filled parameters changes nothing. |
| `ModelConfig.ModelConfigLoader.GetLlm` | src/utils/model_config_loader.py:62-93 | Without `force_reload`, a cached name returns the cached instance and touches neither the configuration nor the cache. Otherwise the lookup errors propagate with the cache unchanged, and a non-dict configuration raises AttributeError. On success a fresh instance is built from the configuration with defaults filled, and stored under that name; all other cache entries are unchanged. |
| `ModelConfig.AvailableLlms` | src/utils/model_config_loader.py:101-102 | The keys of the `llms` section in order, or `[]` when the section is missing. It fails only when the configuration or the section is not a dict. |
| `ModelConfig.ListedIffFetchable` | src/utils/model_config_loader.py:95-102 | Whenever the listing succeeds, a name is listed exactly when `get_llm_config` finds it. |
| `ModelConfig.ModelConfigLoader.ListAvailableLlms` | src/utils/model_config_loader.py:95-102 | Loads (memo behaviour as above), then returns the listing of the loaded configuration, or FileNotFoundError. |
| `ModelConfig.ModelConfigLoader.ClearLlmCache` | src/utils/model_config_loader.py:104-113 | With no name the cache becomes empty. With a name exactly that key is removed, and nothing changes when it is absent. |
| `ModelConfig.ModelConfigLoader.ReloadConfig` | src/utils/model_config_loader.py:115-118 | The memo is reset and the whole cache is emptied. |
| `Values.PutKeys` | src/utils/model_config_loader.py:80-84 | Assigning a key keeps the key order and appends a new key at the end. |
| `Values.PutGet` | src/utils/model_config_loader.py:80-84 | After `d[k] = v`, `k` holds `v` and every other key holds what it held before. |
| `Values.PutNew` | src/server/app.py:95-110 | Adding a key the dict does not hold appends exactly that entry. |
| `Values.PopShape` | src/server/app.py:119 | `d.pop(k)` removes exactly the first entry under `k` and keeps the others in order. |
| `Values.PopGet` | src/server/app.py:119 | Popping leaves every other key's value alone. |
| `Values.PopRemoves` | src/server/app.py:119 | In a dict, the popped key is gone afterwards and the keys stay unique. |
| `Values.PopSize` | src/server/app.py:119 | `d.pop(k)` removes one entry when `k` is present and none otherwise, and adds no entry. |
| `Text.SplitFirst` | src/server/app.py:82 | The first piece of `s.split(sep)` contains no separator. With no separator it is all of `s`; otherwise `s` is that piece, the separator and the rest. |
| `Text.NatToStringRoundTrip` | src/agent/graph.py:209 | The decimal text used to number context entries reads back as the number. |
| `ResearchGraph.TranscriptConcat` | src/agent/graph.py:104-109 | The transcript of a joined history is the joined transcripts. |
| `ResearchGraph.TranscriptSkipsOthers` | src/agent/graph.py:105-109 | Messages that are neither human nor AI leave no trace in the transcript. |
| `ResearchGraph.GetResearchTopic` | src/agent/graph.py:96-110 | One message: its content verbatim, whatever its kind. Otherwise `"User: c\n"` per human message and `"Assistant: c\n"` per AI message, in order, other kinds skipped. |
| `ResearchGraph.FanOut` | src/agent/graph.py:295-304 | One `web_research` Send per query, in order, the i-th carrying query i and id `first + i`. |
| `ResearchGraph.ContinueToWebResearch` | src/agent/graph.py:147-155 | Exactly one `web_research` Send per generated query, in order, with ids 0 .. n-1. |
| `ResearchGraph.FollowUpIdsAreFresh` | src/agent/graph.py:295-304 | Follow-up tasks numbered from the count of queries already run never reuse an id of the first fan-out. |
| `ResearchGraph.Reflection` | src/agent/graph.py:233-267 | The loop count becomes the previous count (0 when absent) plus one. `number_of_ran_queries` is the length of `search_query`. The verdict is passed on. |
| `ResearchGraph.EvaluateResearch` | src/agent/graph.py:270-304 | Finalizes exactly when the research is sufficient or the count has reached the limit. The limit is the state's `max_research_loops` unless it is None. Otherwise: one Send per follow-up query with id `number_of_ran_queries + idx`. |
| `ResearchGraph.Rounds` | src/agent/graph.py:287-304 | Each reflection round consumes one verdict: there are never more rounds than verdicts, and at least one when there is a verdict. The round order follows the reflection-to-evaluation edge (src/agent/graph.py:362-367). |
| `ResearchGraph.RoundsBounded` | src/agent/graph.py:287-293 | From loop count `c`, at most max(1, limit - c) reflection rounds run, whatever the model answers. |
| `ResearchGraph.RoundsBoundedFromStart` | src/agent/graph.py:247-293 | A fresh run (no count yet) performs at most max(1, limit) reflection rounds. |
| `ResearchGraph.RoundsExact` | src/agent/graph.py:287-304 | The bound is reached: when the model never judges the research sufficient and always asks a follow-up, exactly max(1, limit - c) rounds run. |
| `ResearchGraph.Formatted` | src/agent/graph.py:42-51 | One standardized result per Tavily result, in order: each field taken with `''` when missing, source `tavily`. |
| `ResearchGraph.SearchWithTavily` | src/agent/graph.py:33-54 | `[]` when the client raises; otherwise the field-by-field mapping, with `''` defaults and source `tavily`. |
| `ResearchGraph.DuckDuckGoHits` | src/agent/graph.py:57-72 | At most one result: the client's text under title `DuckDuckGo搜索: query`, url `https://duckduckgo.com`, source `duckduckgo`. None when the client raises. |
| `ResearchGraph.ArxivHits` | src/agent/graph.py:75-94 | At most one result: the client's text under title `ArXiv搜索: query`, url `https://arxiv.org`, source `arxiv`. None when the client raises. |
| `ResearchGraph.CallEngine` | src/agent/graph.py:182-189 | Matching is case-insensitive. `tavily` gives the Tavily results and `arxiv` the ArXiv result. The call raises exactly for `duckduckgo`. It is skipped exactly for any other name. |
| `ResearchGraph.CallEngineIntended` | src/agent/graph.py:184-185 | The intended `duckduckgo` call: it gives the DuckDuckGo result, agrees with `CallEngine` for every other name, and never raises. |
| `ResearchGraph.CollectSearchResults` | src/agent/graph.py:176-196 | The engine loop computes exactly the collected results of the engine list. |
| `ResearchGraph.CollectedConcat` | src/agent/graph.py:180-191 | The results of successful engines are concatenated in engine order, for the dispatch as written and the intended one alike. |
| `ResearchGraph.CollectedSplit` | src/agent/graph.py:180-191 | An entry between two engine lists adds its own contribution between their results. |
| `ResearchGraph.EntryContributesNothing` | src/agent/graph.py:188-196 | An unknown engine, or one that raises or finds nothing, can be removed from the list without changing the results. |
| `ResearchGraph.DuckDuckGoContributesNothing` | src/agent/graph.py:184-196 | A `duckduckgo` entry, in any letter case, never contributes a result (the swallowed TypeError). |
| `ResearchGraph.IntendedDuckDuckGoContributes` | src/agent/graph.py:184-191 | With the intended call, a `duckduckgo` entry adds the DuckDuckGo result at its place in the engine list. |
| `ResearchGraph.DuckDuckGoFindsNothing` | src/agent/graph.py:184-196 | With the engine list `["duckduckgo"]` and a working client, the loop as written collects nothing. The intended call collects the client's one result. |
| `ResearchGraph.CollectedCaseInsensitive` | src/agent/graph.py:180-187 | Engine names match case-insensitively: lowering every entry changes nothing. |
| `ResearchGraph.SearchContextTopTen` | src/agent/graph.py:207-209 | Results after the tenth never reach the prompt context. |
| `ResearchGraph.EntriesNumbered` | src/agent/graph.py:208-209 | Every result given to the context appears in it as a block numbered by its position from 1, with its title, content and `来源: url`. |
| `ResearchGraph.BuildSearchContext` | src/agent/graph.py:206-209 | The context loop computes the header followed by the numbered blocks of the first ten results. |
| `ResearchGraph.Snippet` | src/agent/graph.py:223 | Content of at most 200 characters is stored whole. Longer content is cut to its first 200 characters followed by `...`. |
| `ResearchGraph.SnippetShape` | src/agent/graph.py:223 | A stored snippet is at most 203 characters and starts with the content's first 200 (all of it when shorter). |
| `ResearchGraph.SnippetIdempotent` | src/agent/graph.py:223 | Shortening a snippet again changes nothing. |
| `ResearchGraph.GatheredMembers` | src/agent/graph.py:217-224 | A source is gathered exactly when some result with a non-empty url becomes it. |
| `ResearchGraph.GatheredShape` | src/agent/graph.py:217-224 | There are no more sources than results, and every source has a url and a snippet of at most 203 characters. |
| `ResearchGraph.GatherSources` | src/agent/graph.py:217-224 | The sources loop computes exactly the gathered sources, in result order. |
| `ResearchGraph.WebResearch` | src/agent/graph.py:158-230 | Succeeds exactly when the model answers the instructions plus the context of the collected results. It then returns the gathered sources, `[query]` and `[reply]`. |
| `ResearchGraph.CitedMembers` | src/agent/graph.py:335-338 | A source is kept exactly when it was gathered and its url is a substring of the answer. |
| `ResearchGraph.CitedKeepsDuplicates` | src/agent/graph.py:335-338 | A cited source is kept as many times as it was gathered: duplicates are not removed. |
| `ResearchGraph.CitedIdempotent` | src/agent/graph.py:335-338 | Filtering the kept sources by the same answer again keeps them all. |
| `ResearchGraph.FinalizeAnswerNode` | src/agent/graph.py:307-343 | The answer becomes the single AI message, and the sources are the cited ones in order. |
| `Sse.FrameRoundTrip` | src/server/app.py:120 | A frame `event: t\ndata: d\n\n`, for a non-empty single-line type and single-line data, is read back by an event-stream client as exactly the event (t, d), and reading continues right after it. |
| `Sse.EventsOfFrames` | src/server/app.py:117-120 | A client reads a body of such frames back as exactly the framed events, in order. |
| `ChatStream.ResolveThreadId` | src/server/app.py:39-41 | `__default__` is replaced by the generated id; any other id passes through unchanged. |
| `ChatStream.ResolvedIdIsStable` | src/server/app.py:39-41 | The stream never runs under the placeholder when the generator does not produce it, and resolving a resolved id again keeps it. |
| `ChatStream.AgentName` | src/server/app.py:82 | The longest colon-free prefix of the first namespace element. An empty namespace raises (`None`). |
| `ChatStream.EventOf` | src/server/app.py:79-114 | An update dict yields nothing. A message chunk with an empty namespace raises. Every event has one of the four event names. |
| `ChatStream.Classification` | src/server/app.py:93-114 | By priority: a ToolMessage gives `tool_call_result`; an AI chunk with tool calls gives `tool_calls`; one with only tool-call chunks gives `tool_call_chunks`; any other AI chunk gives `message_chunk`. Any other message kind yields no event. |
| `ChatStream.EventFields` | src/server/app.py:86-111 | Every event dict has unique keys and starts with `thread_id, agent, id, role, content`. It carries the request's thread id, the agent name, the chunk's id and content, and role `assistant`. Only tool results carry `tool_call_id`, which holds the message's tool call id. Only `tool_calls` events carry `tool_calls`, which holds the chunk's tool calls. Exactly the `tool_calls` and `tool_call_chunks` events carry `tool_call_chunks`, which holds the chunk's tool call chunks. |
| `ChatStream.ExtraFieldsValues` | src/server/app.py:95-110 | The keys added after the base fields hold the tool call id for a tool message, the tool calls when there are any, and the tool call chunks when there are tool calls or chunks; otherwise the key is absent. |
| `ChatStream.ItemEvent` | src/server/app.py:79-111 | The imperative construction (base dict, then the keys added by chunk kind) yields exactly the event of the item. |
| `ChatStream.StripEmptyContentSpec` | src/server/app.py:118-119 | `content` disappears exactly when it holds `""`. Any other `content` and every other key keep their values, and the keys stay unique. |
| `ChatStream.StripEmptyContentIdempotent` | src/server/app.py:118-119 | Stripping twice is stripping once. |
| `ChatStream.StripEmptyContent` | src/server/app.py:118-119 | A dict whose `content` is not `""` is left as it is. Otherwise exactly one entry is removed. No entry is added. |
| `ChatStream.MakeEvent` | src/server/app.py:117-120 | The frame is exactly `"event: " + type + "\ndata: " + json(data without an empty content) + "\n\n"`. |
| `ChatStream.Stream` | src/server/app.py:66-114 | Each item yields at most one event, so there are at most as many events as items. |
| `ChatStream.StreamCrashes` | src/server/app.py:66-114 | The stream ends with an exception exactly when some item raises, that is, when it is a message chunk with an empty namespace. |
| `ChatStream.AstreamWorkflowGenerator` | src/server/app.py:55-114 | The generator yields the frames of the stream's events in order. It stops, reporting the exception, at the first item that raises. |
| `ChatStream.UpdatesAreSkipped` | src/server/app.py:79-80 | Inserting an update dict anywhere into the stream changes neither the events nor the outcome. |
| `ChatStream.StreamEventsFramable` | src/server/app.py:93-120 | Every event carries one of the four names and an encoder text on one line, given an encoder that, like `json.dumps`, escapes line breaks. |
| `ChatStream.ClientReadsStream` | src/server/app.py:55-120 | An event-stream client reads the response body back as exactly the stream's events, in order. |

## Findings

| source | as written | input that shows it | evidently intended | confidence | as-written member | corrected member |
|---|---|---|---|---|---|---|
| src/agent/graph.py:185 | `_search_with_duckduckgo(search_query, configurable)` calls a one-parameter function (src/agent/graph.py:57) with two arguments. The TypeError is caught at src/agent/graph.py:193-196, so the engine never contributes. | `search_engines = ["duckduckgo"]` with a working DuckDuckGo client: `all_search_results` stays `[]` | `_search_with_duckduckgo(search_query)`, whose single result is added like the other engines' | high; not executed | `ResearchGraph.DuckDuckGoFindsNothing` (over `ResearchGraph.CallEngine`) | `ResearchGraph.IntendedDuckDuckGoContributes` (over `ResearchGraph.CallEngineIntended`) |

`CollectSearchResults` and `WebResearch` model the loop as the repository runs it, so they use the as-written dispatch. The lemmas about engine lists (`CollectedConcat`, `CollectedSplit`) hold for both dispatches.

## Left out

- The TypeScript front end: its stream parser, conversation reducer, thread store and graph projector. No source of it is part of this model.
- `generate_query` (`src/agent/graph.py:113-144`) is one language-model call. Its only deterministic step defaults `initial_search_query_count` from the configuration.
- The prompt templates, `get_current_date` and structured output are foreign calls. The model takes the formatted instructions and the model's reply as inputs.
- `agent/configuration.py`, `agent/state.py`, `agent/prompts.py` and `agent/tools_and_schemas.py` are not part of this model. The configured loop limit and the engine list are parameters.
- The Tavily, DuckDuckGo and ArXiv clients, dotenv and environment variables are network and foreign calls. Each engine entry sees the same client reply for the query, so a repeated entry repeats its results.
- `max_search_results` and `doc_content_chars_max` only configure the clients.
- YAML parsing, `os.path`, and file errors other than a missing file (unreadable file, malformed YAML). The configuration path is fixed at construction and is not modelled.
- Non-string YAML keys are not modelled; dict keys are strings.
- `ChatOpenAI` construction and validation: building an instance always succeeds. Parameter values such as 0.7 are opaque constants, with no floating-point reasoning.
- The module-level `_model_config_loader`, `get_llm`, `get_config` and `list_llms` (`src/utils/model_config_loader.py:121-153`) only delegate to one shared loader.
- LangGraph `StateGraph` wiring and compilation (`src/agent/graph.py:347-371`) and the `__main__` demo (`src/agent/graph.py:373-410`).
- `Rounds` assumes the graph stops when a round routes to no task at all.
- The reflection node's write into its input state is not modelled: it is visible to the graph only through the returned update.
- The async iteration of `graph.astream`, FastAPI, CORS and `StreamingResponse` are async I/O plumbing. The stream items are a finite sequence given in advance.
- The internals of `json.dumps`. Its one used property, that its text has no raw line break, is a hypothesis of `StreamEventsFramable` and `ClientReadsStream`.
- The randomness of `uuid4()`: the generated id is a parameter.
- `Text.Lower`: lowers ASCII letters only. Python's `str.lower` also lowers other alphabets, which changes nothing for the engine names the loop compares against.
- Client-side `id` and `retry` fields, a byte-order mark, and chunked arrival of the stream are not modelled, because the server never sends them. The reader works on the complete body.
- The response for a stream that ends with an exception is modelled as the frames sent before it plus a flag. The HTTP-level effect of the failure is not modelled.
- The `metadata` half of a `messages`-mode item is never read, so it is not modelled.
