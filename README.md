# Market-intelligence pipeline, modelled in Dafny

This project models the analysis pipeline of the market-intelligence backend
(`backend/app/agents/graph.py`). The pipeline takes a company name and an
analysis type and runs two graph nodes in sequence:

- the **research node** picks three search queries for the type and issues them
  in order. It merges the results in query order, then result order, keeps
  the first hit for each URL, and caps the result lists at fifteen entries;
- the **analysis node** renders the kept hits as numbered `[Source i]` blocks.
  It fills the type's prompt template with the company name, sends a system
  prompt and a user prompt to the text-generation provider, and stores the
  first segment of the reply as the report.

The two entry points are `run_analysis`, which returns the report and the
sources, and `stream_analysis`, which reports progress as a fixed sequence
of frames.

The search provider and the text-generation provider are parameters. A
search call is a function from a request to an outcome: it raises, or
returns a response whose `results` key may be absent. The generation call
is a function from a request to a failure or a list of text segments.

Modules:

- `Types`: the state record, hits, provider requests and outcomes.
- `Text`: decimal rendering of numbers, `str.join`, and the `{company}`
  substitution of `str.format`.
- `Registry`: the query table and the template table, with their
  fallback to `"competition"`.
- `Research`: the research node. The loop that appends to
  `all_results`/`all_sources` is a method, proved equal to a function; the
  merge, deduplication and cap properties are proved about that function.
- `Analyze`: the analysis node. The loop that accumulates `context_parts`
  is a method; the context and request are functions.
- `Pipeline`: `run_analysis` and the frames of `stream_analysis`.

Three points of the code the model reproduces as written:

- the frontend offers two more types, `bnpl_merchant_risk` and
  `payment_processor_comparison` (`frontend/src/App.tsx` line 7). Neither
  table has entries for them, so the core gives them the `"competition"`
  fallback; the HTTP layer rejects them before that (`backend/app/main.py`
  line 58);
- a reply with no content block makes `message.content[0]` raise
  `IndexError` (`backend/app/agents/graph.py` line 162), so an empty reply
  is an error of the analysis node;
- a result entry without `url` raises `KeyError` inside the `try` (line 101),
  which ends that query but keeps what it already added.

## Model

| member | source | states |
|---|---|---|
| Registry.ResolveType | backend/app/agents/graph.py:88 | the key read is one of the three table keys: the type itself when the table holds it, `"competition"` otherwise |
| Registry.QueriesNameTheCompany | backend/app/agents/graph.py:70-88 | every type, known or not, yields exactly three queries, each the company name followed by a non-empty suffix |
| Registry.TablesAgreeOnKeys | backend/app/agents/graph.py:25-88 | the query table holds a key exactly when the template table does, and those keys are exactly the types the HTTP layer accepts (`backend/app/main.py` line 58), so an accepted type never takes a fallback |
| Registry.UnknownTypeFallsBack | backend/app/agents/graph.py:88 | an unknown type gets exactly the `"competition"` queries and the `"competition"` template |
| Registry.TemplateFilled | backend/app/agents/graph.py:140 | filling the selected template puts the company name at every `{company}` field and keeps the rest of the text |
| Text.FormatFillsEveryPlaceholder | backend/app/agents/graph.py:140 | for any brace-free pieces joined by `{company}`, the substitution gives the same pieces joined by the value |
| Text.NatToStringRoundTrip | backend/app/agents/graph.py:119-121 | the source number written into a label is a non-empty digit string that reads back as that number |
| Text.NatToStringInjective | backend/app/agents/graph.py:119-121 | different source numbers are written differently |
| Text.JoinSnoc | backend/app/agents/graph.py:126 | joining one more part appends the separator and that part |
| Research.UsableIsPrefixBeforeMissingUrl | backend/app/agents/graph.py:100-105 | a results list contributes exactly its entries before the first one without URL, in order; `r["url"]` raising ends that query |
| Research.MergeResults | backend/app/agents/graph.py:100-103 | the inner loop continues the first-seen-wins merge over one response's usable results, and the source list stays the URL column of the result list |
| Research.ResearchNode | backend/app/agents/graph.py:66-111 | the node's loops compute exactly the research function: one call per query in list order (query, `max_results` 5, depth "advanced"), merge in query order then result order, deduplicate, cap both lists at 15, keep the other fields |
| Research.DedupFromAppend | backend/app/agents/graph.py:93-103 | running the merge over one query's hits then the next query's equals running it over both in sequence, so the outer loop is one merge over the concatenation |
| Research.FailedQueryContributesNothing | backend/app/agents/graph.py:93-105 | a query whose call raises adds nothing wherever it stands, and the later queries still contribute exactly what they would have |
| Research.DedupKeepsEveryUrl | backend/app/agents/graph.py:100-103 | deduplication keeps exactly the URLs of the raw merge, losing none |
| Research.DedupDistinct | backend/app/agents/graph.py:101 | no URL is kept twice |
| Research.DedupKeepsFirstHits | backend/app/agents/graph.py:100-103 | every kept entry is the first hit of the raw merge carrying its URL |
| Research.DedupOfPrefixIsPrefix | backend/app/agents/graph.py:100-103 | what the merge keeps from the first p raw hits is a prefix of what it keeps from all of them: kept entries appear in the order their URLs were first seen |
| Research.DedupIsSubsequence | backend/app/agents/graph.py:100-103 | the kept list is a subsequence of the concatenation of all per-query results |
| Research.DedupOfDistinct | backend/app/agents/graph.py:100-103 | when the raw merge has no repeated URL, nothing is dropped |
| Research.ResearchResult | backend/app/agents/graph.py:107-111 | the sources are the URLs of the results, element by element, both lists have length min(15, number of distinct URLs), the results are a prefix of the untruncated merge, no URL repeats, first occurrences win and stay in first-seen order, and company, type and report are unchanged |
| Research.ResearchLosesNothingUnderCap | backend/app/agents/graph.py:109-110 | when at most fifteen distinct URLs were found, every one of them is among the sources |
| Research.ResearchIgnoresPriorResults | backend/app/agents/graph.py:107-111 | the node replaces the incoming results and sources; its output depends only on company, type and provider |
| Research.UnknownTypeResearchesAsDefault | backend/app/agents/graph.py:88 | an unknown type researches exactly as `"competition"` does |
| Analyze.ContextParts | backend/app/agents/graph.py:118-124 | one block per search result |
| Analyze.BuildContext | backend/app/agents/graph.py:118-126 | the loop builds exactly the blocks numbered from 1, joined by `"\n---\n"` |
| Analyze.EmptyContext | backend/app/agents/graph.py:126 | no results give an empty context |
| Analyze.SingleHitContext | backend/app/agents/graph.py:119-126 | a single result gives its block alone, labelled `[Source 1] ` |
| Analyze.ContextSnoc | backend/app/agents/graph.py:119-126 | one more result appends the separator and its block, numbered one past the previous count |
| Analyze.AbsentFieldsRenderAsDefaults | backend/app/agents/graph.py:120-124 | an absent title renders as "Untitled" and an absent content as "No content" |
| Analyze.BlockOpensWithLabel | backend/app/agents/graph.py:119-121 | block i (0-based) starts with `[Source i+1] ` |
| Analyze.LabelsDiffer | backend/app/agents/graph.py:119-121 | two different numbers give two different labels, so each citation names one source |
| Analyze.StoreReply | backend/app/agents/graph.py:151-163 | the node succeeds exactly when the call returns at least one segment; it then stores the first segment as the report and changes nothing else; a failed call is returned as the error |
| Analyze.AnalyzeNode | backend/app/agents/graph.py:114-163 | the node's loop and call compute exactly the analysis function |
| Analyze.AnalyzeOnlySetsReport | backend/app/agents/graph.py:160-163 | on success only the report changes; company, type, results and sources pass through |
| Analyze.RequestShape | backend/app/agents/graph.py:134-158 | the request carries model `claude-sonnet-4-20250514`, 4096 tokens and the system prompt; the user prompt's ten lines are the filled template first and the context fifth |
| Analyze.UnknownTypeRequestsAsDefault | backend/app/agents/graph.py:129-132 | an unknown type sends exactly the request `"competition"` sends |
| Analyze.AnalyzeKeepsSources | backend/app/agents/graph.py:160-163 | a successful analysis leaves the sources unchanged |
| Pipeline.StreamAgreesWithRun | backend/app/agents/graph.py:186-227 | the stream ends with a complete frame exactly when `run_analysis` succeeds, carrying the same report and sources; on failure it stops after three frames with the error |
| Pipeline.StreamOrder | backend/app/agents/graph.py:208-227 | the frames are research, research, analyze, then complete only on success |
| Pipeline.FoundCountMatchesSources | backend/app/agents/graph.py:218-227 | the number in "Found N sources" is the number of sources in the complete frame |
| Pipeline.StreamMatchesRun | backend/app/agents/graph.py:186-227 | for the same providers, the stream ends with a complete frame exactly when `run_analysis` succeeds; that frame carries the report and sources `run_analysis` returns and "Found N sources" announces their number; on failure the stream stops after three frames with the error |
| Pipeline.RunAnalysisSources | backend/app/agents/graph.py:186-201 | `run_analysis` returns the research node's sources unchanged: at most fifteen, no URL twice |
| Pipeline.StoredReplyIgnoresType | backend/app/agents/graph.py:198-201 | the returned report and sources do not depend on the state's analysis type |
| Pipeline.UnknownTypeRunsAsDefault | backend/app/agents/graph.py:186-227 | an unknown type gives the same result and the same frames as `"competition"` for the same providers |

## Left out

- The search and generation providers (`graph.py:95-99, 151-158`) are foreign network clients. They are function parameters, so every run is deterministic in its providers. Logging the search error (`print`) and the client setup from environment variables are not modelled.
- Pipeline.FoundMessage: line 219 of `backend/app/agents/graph.py` puts a backslash (`\"sources\"`) inside the expression part of an f-string, which Python does not parse as written; the model uses the evidently intended count, `len(state["sources"])`.
- Pipeline.Frames: its second frame carries Pipeline.FoundMessage, so it too uses the intended count where line 219 does not parse.
- The LangGraph wiring (`build_graph`, `graph.py:166-183`) is a library. Only its effect is modelled: the research node, then the analysis node.
- The JSON encoding of frames and the `data: …\n\n` event-stream framing are library serialisation. Frames are a datatype with a phase and a message, or a report and sources.
- Async and generator suspension are not modelled. The stream is the sequence of frames it yields, plus the error that ends it.
- `backend/app/main.py` (HTTP routes, CORS, health, status-code mapping) is not part of this model, except its list of accepted types, which `Registry.TablesAgreeOnKeys` relates to the tables.
- The frontend is not part of this model.
- Registry.TemplateFilled: takes as a precondition that the template pieces contain no brace. The verifier is never made to unfold the long template texts; by inspection they contain none.
- Text.FormatFillsEveryPlaceholder: `str.format` is modelled only for the `{company}` field. Other fields, `{{` escapes and the `KeyError` on an unknown field do not occur in the templates and are not modelled.
- Analyze.RequestShape: does not state the text of the fixed lines of the user prompt or of the system prompt. These are exact copies of the source text, but the verifier is never made to unfold them.
- Analyze.StoreReply: an empty reply is an error carrying the text of Python's `IndexError`. A reply segment that is not a text block is not modelled.
- Exceptions other than a failing search call, or a result entry without `url`, are not modelled inside the research loop. An example is a `results` value that is not a list.
