# AdvenceRag retrieval core in Dafny

This project models the core of AdvenceRag, a retrieval-augmented generation (RAG) service, and proves properties of that model. The modelled core covers:

- **Hybrid search use case.** Vector and keyword candidates are merged without repeated ids. The merged list is reranked by a cross-encoder. When the corrective RAG mode (CRAG) is on and the best score is negative, the list is topped up with unseen web results.
- **Rerank tool.** It scores documents, stable-sorts them in descending order and truncates the list. When the model fails, it falls back to the input order.
- SearchAgent.MetadataOf: reads a truthy `metadata` that is not a dictionary as `{}`, whereas `metadata.get` in `agents/search.py` would raise `AttributeError`. The model does not capture that raise. The only producer, `search_similar` in `tools/knowledge_base.py`, always stores a dictionary (or the `{}` default) there.
- **Reranker service.** It wraps the rerank tool for domain `SearchResult`s.
- **Search agent's tools.** These merge the successful searches, render at most ten documents with a resolved source, and judge retrieval quality.
- **Web search.** The Google tool checks its configuration, caps `num` at 10 and reshapes the items. The web search service maps the hits to `SearchResult`s.
- **Retry loop.** It retries with exponential backoff.
- **Agent service bookkeeping.** It tracks the execution context of a request and renders its summary. It also builds the chat-history prompt and chooses the summary recorded for a tool result.
- **Parsers.** The parser factory selects a back-end. Three document parsers split content into `Document`s: Unstructured (section grouping by `Title` elements), Docling (splitting Markdown at headings) and PyMuPDF (one document per page).
- **Small helpers.** The summarizer tool, the writer's citation and disclaimer helpers, the guard's sensitive-pattern check, and the settings' defaults and guard-pattern list.

Every external service is a parameter of the model. This covers the vector and keyword search, the cross-encoder, HTTP, the LLM, the regex engine and the document extractors. The logic around those calls is modelled as written.

Each source file maps to one module:

| module | file | source |
|---|---|---|
| `Wrappers` | `wrappers.dfy` | `Option` and `Result` |
| `Py` | `py.dfy` | Python values, `dict.get`, truthiness, `s[:k]` with negative `k`, and `str()` of integers |
| `Text` | `text.dfy` | `strip`, `lstrip`, `split`, `join`, ASCII `lower` and `splitext` |
| `Config` | `config.dfy` | `config/settings.py` |
| `Entities` | `entities.dfy` | `domain/entities.py` |
| `ParserBase` | `parsers_base.dfy` | `parsers/base.py` |
| `Filter` | `filter.dfy` | the list comprehensions `[f(x) for x in xs if keep(x)]` and `enumerate(xs, 1)` that the parsers, the summarizer and the search agent write |
| `Dedup` | `dedup.dfy` | the `seen_ids` de-duplication that both searches use |
| `HybridSearch` | `hybrid_search.dfy` | `application/use_cases/search.py` |
| `RerankTool` | `rerank_tool.dfy` | `tools/rerank.py` |
| `RerankerService` | `reranker_service.dfy` | `infrastructure/ai/reranker_service.py` |
| `SearchAgent` | `search_agent.dfy` | `agents/search.py` |
| `WebSearchTool` | `web_search_tool.dfy` | `tools/web_search.py` |
| `WebSearchService` | `web_search_service.dfy` | `infrastructure/ai/web_search_service.py` |
| `Retry` | `retry.dfy` | `utils/retry.py` |
| `AgentService` | `agent_service.dfy` | `infrastructure/ai/agent_service.py` |
| `ParserSelection` | `parsers.dfy` | `parsers/__init__.py` |
| `UnstructuredParser` | `unstructured_parser.dfy` | `parsers/unstructured_parser.py` |
| `DoclingParser` | `docling_parser.dfy` | `parsers/docling_parser.py` |
| `PyMuPDFParser` | `pymupdf_parser.dfy` | `parsers/pymupdf_parser.py` |
| `Summarizer` | `summarizer.dfy` | `tools/summarizer.py` |
| `Writer` | `writer.dfy` | `agents/writer.py` |
| `Guard` | `guard.dfy` | `agents/guard.py` |

Code that changes state step by step is modelled as methods with loops. Each method is proved equal to a specification function, and the properties are lemmas about that function. This covers the merge loops, the sort-and-slice, the retry loop, the rendering loops, the section folds, the page loop and the source list. The execution context updates its list of tool executions in place, so it is a class.

## Model

| member | source | states |
|---|---|---|
| Config.Validate | src/advence_rag/config/settings.py:27 | a settings record is accepted iff `llm_temperature` lies in [0.0, 2.0], and is then returned unchanged |
| Config.DefaultsValid | src/advence_rag/config/settings.py:21-62 | the field defaults pass validation: top-k 10, rerank top-k 5, collection "knowledge_base", log level INFO |
| Config.GuardSensitivePatterns | src/advence_rag/config/settings.py:43-48 | an empty setting gives no patterns; otherwise every pattern is non-empty and already stripped, with at most one pattern per comma-separated piece (which patterns, and in what order, is PatternsOfSplit) |
| Config.StrippedNonEmpty | src/advence_rag/config/settings.py:48 | the comprehension keeps at most as many entries as it reads, each non-empty and stripped |
| Config.StrippedNonEmptyPieces | src/advence_rag/config/settings.py:48 | for any list of pieces: output j is the strip of a non-blank piece, those pieces come in increasing position, and every piece not kept strips to "" |
| Config.GuardPatternsRoundTrip | src/advence_rag/config/settings.py:43-48 | joining stripped, comma-free, non-empty patterns with "," and parsing them back gives the same list |
| Config.PatternsOfSplit | src/advence_rag/config/settings.py:46-48 | for every setting, empty or not: the patterns are exactly the stripped non-blank pieces of the comma split, in comma order, and every dropped piece is blank |
| Config.GuardPatternsExample | src/advence_rag/config/settings.py:46-48 | the setting " a , ,b" gives ["a", "b"]: the blank piece is dropped and the spaces are stripped |
| Config.SplitJoin | src/advence_rag/config/settings.py:48 | splitting a join of separator-free pieces returns the pieces |
| Dedup.DedupKeys | src/advence_rag/application/use_cases/search.py:61-67 | the kept entries carry distinct keys, exactly the keys of the input that were not already seen |
| Dedup.DedupKeepsFirst | src/advence_rag/application/use_cases/search.py:64-67 | the first occurrence of every unseen key is kept |
| Dedup.DedupSubseq | src/advence_rag/application/use_cases/search.py:64-67 | the kept entries are a subsequence of the input, in input order |
| Dedup.DedupAppend | src/advence_rag/application/use_cases/search.py:64 | de-duplicating `a + b` gives the survivors of `a`, then those of `b` whose key is not in `a` |
| Dedup.DedupSnoc | src/advence_rag/application/use_cases/search.py:65-67 | one loop step keeps the entry iff its key is new, and adds the key to the seen set |
| Dedup.DedupSpec | src/advence_rag/application/use_cases/search.py:61-67 | the distinct-keys, first-occurrence and order properties together |
| HybridSearch.ResolveCragAsWritten | src/advence_rag/application/use_cases/search.py:52 | as written, an explicit override is used as given |
| HybridSearch.ResolveCragDefaultFails | src/advence_rag/application/use_cases/search.py:52 | as written, a call without an override fails |
| HybridSearch.ResolveCrag | src/advence_rag/application/use_cases/search.py:52 | as intended, the override when there is one, and the configured switch otherwise |
| HybridSearch.ResolveCragAgrees | src/advence_rag/application/use_cases/search.py:52 | the corrected switch agrees with the written one wherever the written one succeeds, which is exactly when an override is given |
| HybridSearch.Quality | src/advence_rag/application/use_cases/search.py:94-101 | -999 for no results or a `None` top score, and the top score otherwise |
| HybridSearch.MergeLoop | src/advence_rag/application/use_cases/search.py:61-67 | the loop yields the de-duplicated candidates, and the seen set holds every candidate id |
| HybridSearch.AppendUnseen | src/advence_rag/application/use_cases/search.py:84-87 | the reranked list followed by the web results whose ids are neither seen nor repeated |
| HybridSearch.Execute | src/advence_rag/application/use_cases/search.py:35-92 | the method returns the specified search result and makes the specified sequence of service calls |
| HybridSearch.FetchesThreeTimesTopK | src/advence_rag/application/use_cases/search.py:55-58 | the first two calls are the vector search and then the keyword search, each for `top_k*3` candidates |
| HybridSearch.MergeDedups | src/advence_rag/application/use_cases/search.py:61-67 | the merged list has distinct ids and keeps first occurrences, with vector-derived entries before keyword-only ones |
| HybridSearch.EmptyMergeSkipsRerank | src/advence_rag/application/use_cases/search.py:70-73 | with an empty merge no rerank call is made, and the result is empty unless the web fallback runs |
| HybridSearch.FallbackIff | src/advence_rag/application/use_cases/search.py:76-79 | the web search runs iff CRAG is on, a web service is present and the quality is below 0.0 |
| HybridSearch.ZeroScoreNoFallback | src/advence_rag/application/use_cases/search.py:76-79 | a top score of exactly 0.0 does not trigger the fallback |
| HybridSearch.NothingFoundFallsBack | src/advence_rag/application/use_cases/search.py:76-79 | with CRAG on, a web service present and nothing reranked, the fallback runs |
| HybridSearch.NoFallbackIsReranked | src/advence_rag/application/use_cases/search.py:70-92 | without the fallback the reranker's output is returned untruncated |
| HybridSearch.FallbackAppendsUnseenWeb | src/advence_rag/application/use_cases/search.py:81-90 | after the fallback: the reranked list, then the web results whose ids are on no merged candidate (even a dropped one) nor on any earlier web result, truncated to `top_k` |
| HybridSearch.SourceLabelPrecedence | src/advence_rag/application/use_cases/search.py:120-128 | the label is the first truthy of source, file_name and title, else "unknown"; a truthy url gives "title (url)", or the url alone when there is no title |
| HybridSearch.FormatForLlm | src/advence_rag/application/use_cases/search.py:103-139 | no results give the "found 0" line; otherwise a header with the count, then one numbered block per result, joined by newlines |
| RerankTool.Annotate | src/advence_rag/tools/rerank.py:60-70 | one entry per document, in input order: the model's score of its content, and a copy of the document with that score under `rerank_score` |
| RerankTool.Docs | src/advence_rag/tools/rerank.py:73-76 | the documents of the scored entries, position by position |
| RerankTool.RerankResults | src/advence_rag/tools/rerank.py:30-91 | empty input succeeds with nothing; `original_count` is the input length; the status is error iff the input is non-empty and the model raises, and the results are then the first `top_k` inputs; on success `reranked_count` is the number of results |
| RerankTool.InsertPermutes | src/advence_rag/tools/rerank.py:73 | insertion preserves the multiset of entries |
| RerankTool.InsertSorted | src/advence_rag/tools/rerank.py:73 | insertion into a descending list keeps it descending |
| RerankTool.SortDescPermutes | src/advence_rag/tools/rerank.py:73 | the sorted list is a permutation of the input |
| RerankTool.SortDescSorted | src/advence_rag/tools/rerank.py:73 | the sorted list is in non-increasing score order |
| RerankTool.InsertKeepsKeyOrder | src/advence_rag/tools/rerank.py:73 | insertion keeps the relative order of entries with equal scores |
| RerankTool.SortDescStable | src/advence_rag/tools/rerank.py:73 | the sort is stable: for every score, the entries with that score keep their input order |
| RerankTool.RerankEmpty | src/advence_rag/tools/rerank.py:48-54 | no documents give success, no results and both counts 0, whatever the model |
| RerankTool.RerankSuccess | src/advence_rag/tools/rerank.py:56-83 | with a working model: success, `min(top_k, n)` results with matching counts, each a copy of some input document carrying its own score under `rerank_score`, in non-increasing score order |
| RerankTool.RerankStable | src/advence_rag/tools/rerank.py:73 | documents with equal scores keep their input order |
| RerankTool.RerankFailure | src/advence_rag/tools/rerank.py:84-91 | a failing model gives status error, its message, the first `top_k` documents in input order and `reranked_count` 0 |
| RerankTool.RerankDefaultTopK | src/advence_rag/tools/rerank.py:45-46 | `top_k = None` takes the configured `rerank_top_k`, which is 5 by default |
| RerankerService.RawDocs | src/advence_rag/infrastructure/ai/reranker_service.py:14-20 | one dict per result, in order |
| RerankerService.RerankSucceeds | src/advence_rag/infrastructure/ai/reranker_service.py:22-34 | with a working model: `min(top_k, n)` outputs, each some input result rescored with its cross-encoder score, in non-increasing score order |
| RerankerService.RerankFallsBack | src/advence_rag/infrastructure/ai/reranker_service.py:24-25 | a failing model gives the first `top_k` inputs unchanged |
| RerankerService.RerankEmpty | src/advence_rag/infrastructure/ai/reranker_service.py:10-11 | no input gives no output |
| SearchAgent.FirstResolved | src/advence_rag/agents/search.py:102-115 | the source is the candidate that settles it, or "unknown" |
| SearchAgent.ResolveSource | src/advence_rag/agents/search.py:102-115 | the step-by-step reassignment yields the first candidate that is not empty, None or "unknown", or "unknown" |
| SearchAgent.FirstResolvedOfFour | src/advence_rag/agents/search.py:102-115 | the four-way precedence: the doc's source, then the metadata's source, file_name and title |
| SearchAgent.FirstResolvedIsEarliest | src/advence_rag/agents/search.py:105-112 | the earliest settling candidate wins |
| SearchAgent.FirstResolvedNone | src/advence_rag/agents/search.py:114-115 | with no settling candidate the source is "unknown" |
| SearchAgent.SearchKnowledgeBase | src/advence_rag/agents/search.py:15-125 | the method returns the specified empty dict or rendered text |
| SearchAgent.MergeLoop | src/advence_rag/agents/search.py:60-64 | the loop gives the de-duplication by `res.get("id")` |
| SearchAgent.RenderLoop | src/advence_rag/agents/search.py:88-125 | the loop builds the header and blocks and joins them with newlines |
| SearchAgent.MergeSpec | src/advence_rag/agents/search.py:54-64 | only searches with status "success" contribute; the merge has distinct ids, keeps first occurrences and keeps input order |
| SearchAgent.EmptyMergeIsEmptyDict | src/advence_rag/agents/search.py:66-67 | nothing merged gives `{"status": "success", "results": [], "total_found": 0}` |
| SearchAgent.RerankFailureKeepsMerged | src/advence_rag/agents/search.py:81 | a failed rerank shows the first `top_k` merged results in merge order |
| SearchAgent.RenderShowsAtMostTen | src/advence_rag/agents/search.py:85-88 | the header counts all results and the shown ones; then come the blocks of the first min(n, 10) results, in order, one each |
| SearchAgent.EvaluateRetrievalQuality | src/advence_rag/agents/search.py:145-187 | no results are poor and need the web; otherwise the top `rerank_score` (default -999) is poor iff below 0.0; a web search is needed iff the quality is poor; a score that does not compare with a float raises |
| SearchAgent.MissingScoreNeedsWeb | src/advence_rag/agents/search.py:169-180 | a top result without `rerank_score` needs a web search |
| SearchAgent.ZeroScoreIsGood | src/advence_rag/agents/search.py:172-187 | a top score of exactly 0.0 is good |
| WebSearchTool.ApiKey | src/advence_rag/tools/web_search.py:26 | the search-specific key when it is set, else the general Google key |
| WebSearchTool.RequestFor | src/advence_rag/tools/web_search.py:48-53 | `num` is `min(num_results, 10)` |
| WebSearchTool.ToHits | src/advence_rag/tools/web_search.py:60-68 | one hit per item, in order |
| WebSearchTool.SearchGoogle | src/advence_rag/tools/web_search.py:13-83 | a request is made iff the configuration checks pass, and then it is the specified request; the reply is the specified reply |
| WebSearchTool.MissingKeyFirst | src/advence_rag/tools/web_search.py:29-35 | a missing key gives its error and no results, whatever the engine id |
| WebSearchTool.MissingEngineId | src/advence_rag/tools/web_search.py:37-43 | with a key but no engine id, the engine-id error and no results |
| WebSearchTool.SuccessReshapesItems | src/advence_rag/tools/web_search.py:55-75 | a decoded body gives success, the query, a count equal to the number of hits, and the items reshaped (none when `items` is absent) |
| WebSearchTool.FailureIsError | src/advence_rag/tools/web_search.py:77-83 | an exception gives status error, its text and no results |
| WebSearchService.Search | src/advence_rag/infrastructure/ai/web_search_service.py:16-36 | a failed search gives nothing; a successful one gives one result per hit |
| WebSearchService.SearchMapsEachHit | src/advence_rag/infrastructure/ai/web_search_service.py:24-35 | each result has the snippet as content, the url as id, score 0.0, and title/url/source metadata defaulting to "web_search" |
| WebSearchService.GoogleLinksBecomeIds | src/advence_rag/infrastructure/ai/web_search_service.py:24-35 | a Google item's link becomes the result's id |
| Retry.RetryWithBackoff | src/advence_rag/utils/retry.py:9-39 | at most `max_retries+1` calls (none when negative); a sleep before each retry, the k-th lasting `delay*factor^k`; only retryable errors are retried; the outcome is the last call's value or error |
| Retry.DelayIsGeometric | src/advence_rag/utils/retry.py:20-33 | the k-th delay is `initial_delay * backoff_factor^k` |
| Retry.RetryableExamples | src/advence_rag/utils/retry.py:26-27 | a 429 or overload text is retryable, another error is not |
| AgentService.LatestPending | src/advence_rag/infrastructure/ai/agent_service.py:44-45 | the latest entry with that name still pending, or none |
| AgentService.ExecutionContext.constructor | src/advence_rag/infrastructure/ai/agent_service.py:29-34 | a fresh context with no executions and no errors |
| AgentService.ExecutionContext.AddToolCall | src/advence_rag/infrastructure/ai/agent_service.py:36-40 | appends one pending execution and returns it; errors are unchanged |
| AgentService.ExecutionContext.MarkToolSuccess | src/advence_rag/infrastructure/ai/agent_service.py:42-48 | the reverse scan settles the latest pending entry of that name with its summary |
| AgentService.ExecutionContext.MarkToolError | src/advence_rag/infrastructure/ai/agent_service.py:50-57 | the reverse scan settles the latest pending entry of that name with the error, and logs "name: error" iff it found one |
| AgentService.ExecutionContext.AddError | src/advence_rag/infrastructure/ai/agent_service.py:59-61 | appends the error and nothing else |
| AgentService.ExecutionContext.GenerateSummary | src/advence_rag/infrastructure/ai/agent_service.py:63-91 | the loops produce the specified summary |
| AgentService.LatestPendingIs | src/advence_rag/infrastructure/ai/agent_service.py:44-45 | an open entry with no open entry after it is the one found |
| AgentService.LatestPendingNone | src/advence_rag/infrastructure/ai/agent_service.py:44-45 | with no open entry nothing is found |
| AgentService.MarkSuccessSettlesLatest | src/advence_rag/infrastructure/ai/agent_service.py:42-48 | only the latest open entry changes, to success with the summary; every other entry is unchanged |
| AgentService.MarkErrorSettlesLatest | src/advence_rag/infrastructure/ai/agent_service.py:50-57 | the same for an error |
| AgentService.SettledEntriesStay | src/advence_rag/infrastructure/ai/agent_service.py:45-53 | a settled entry is never changed again, and a status only leaves "pending" |
| AgentService.ExecLines | src/advence_rag/infrastructure/ai/agent_service.py:72-82 | one line per execution, in order |
| AgentService.ExecLinesSnoc | src/advence_rag/infrastructure/ai/agent_service.py:72-82 | appending an execution appends its line |
| AgentService.ErrorLines | src/advence_rag/infrastructure/ai/agent_service.py:88-89 | one "- error" line per error, in order |
| AgentService.SummaryShape | src/advence_rag/infrastructure/ai/agent_service.py:63-91 | "" iff nothing was recorded; otherwise the banner, one line per execution, then the error block iff there are errors |
| AgentService.HistoryParts | src/advence_rag/infrastructure/ai/agent_service.py:143-145 | one part per message, in order |
| AgentService.BuildFullContent | src/advence_rag/infrastructure/ai/agent_service.py:135-152 | the loop builds the specified prompt |
| AgentService.PromptShape | src/advence_rag/infrastructure/ai/agent_service.py:135-152 | no messages are answered at once with the answer "No messages provided." and an empty citation list; one message is sent as is; otherwise the history block, then the current message |
| AgentService.OtherRolesAreSystem | src/advence_rag/infrastructure/ai/agent_service.py:144 | a role other than user or assistant is labelled System |
| AgentService.FinalAnswer | src/advence_rag/infrastructure/ai/agent_service.py:303 | the stripped answer, or the no-text notice when it is blank, followed by the summary |
| AgentService.ResultSummaryPrecedence | src/advence_rag/infrastructure/ai/agent_service.py:371-378 | total_found, then count, then added_count; "" iff none is present |
| AgentService.ProcessFunctionResponse | src/advence_rag/infrastructure/ai/agent_service.py:359-378 | a non-dict result changes nothing; status "error" marks a tool error with the error text (default "Unknown error"); any other status marks success with the chosen summary |
| ParserBase.ChunkIdInjective | src/advence_rag/parsers/unstructured_parser.py:142 | different pieces of a file get different chunk ids |
| ParserBase.FullIdIsNotChunkId | src/advence_rag/parsers/pymupdf_parser.py:74-88 | the whole-file id never equals a section or page id |
| ParserBase.SupportsAny | src/advence_rag/parsers/unstructured_parser.py:37-39 | a file type is supported iff its lower-cased form is one of the parser's extensions; DoclingParser and UnstructuredParser pass their extension sets (docling_parser.py:21-34, unstructured_parser.py:20-39) |
| ParserBase.SupportsIgnoresCase | src/advence_rag/parsers/unstructured_parser.py:39 | letter case does not matter: a type and its lower-cased form are treated alike |
| ParserSelection.DetectionTable | src/advence_rag/parsers/__init__.py:83-102 | the lower-cased extension decides: .pdf gives PYMUPDF, the office, web and mail extensions give UNSTRUCTURED, .txt/.md/.log give SIMPLE, anything else gives UNSTRUCTURED |
| ParserSelection.DetectNeverAutoOrDocling | src/advence_rag/parsers/__init__.py:85-102 | detection never suggests AUTO or DOCLING |
| ParserSelection.DetectIgnoresCase | src/advence_rag/parsers/__init__.py:83 | only the lower-cased final suffix of the file name matters |
| ParserSelection.DetectTestFile | src/advence_rag/parsers/__init__.py:83 | `test.<ext>` is routed by the lower-cased `.<ext>` |
| ParserSelection.DetectTxtExample | tests/unit/test_parsers.py:18 | `test.txt` goes to SIMPLE |
| ParserSelection.DetectMdExample | tests/unit/test_parsers.py:19 | `test.md` goes to SIMPLE |
| ParserSelection.DetectPdfExample | tests/unit/test_parsers.py:20 | `test.pdf` goes to PYMUPDF |
| ParserSelection.DetectUnstructuredExamples | tests/unit/test_parsers.py:21-22 | `test.docx` and `test.unknown` go to UNSTRUCTURED |
| ParserSelection.FirstInstalledIndex | src/advence_rag/parsers/__init__.py:58-62 | the first position whose back-end is installed, with every earlier one missing |
| ParserSelection.FirstInstalled | src/advence_rag/parsers/__init__.py:58-67 | the first installed back-end of the order; an error exactly when none is installed, with the "No parser available" text |
| ParserSelection.GetParser | src/advence_rag/parsers/__init__.py:28-67 | a named back-end succeeds iff its package is installed, with its own ImportError text otherwise; the result is never AUTO |
| ParserSelection.AutoFallbackOrder | src/advence_rag/parsers/__init__.py:56-67 | AUTO tries PYMUPDF, then UNSTRUCTURED, then DOCLING; it fails only when none is installed and never yields SIMPLE |
| UnstructuredParser.FormatElement | src/advence_rag/parsers/unstructured_parser.py:109-124 | "" iff the text is whitespace-only; otherwise the output contains the text |
| UnstructuredParser.FormatElementTable | src/advence_rag/parsers/unstructured_parser.py:114-123 | the formatter per element type, with the identity for any other type |
| UnstructuredParser.CreateDocument | src/advence_rag/parsers/unstructured_parser.py:126-143 | id `{stem}_section_{idx}`, section_title metadata, source path, no page number |
| UnstructuredParser.Parse | src/advence_rag/parsers/unstructured_parser.py:58-107 | the element loop yields the specified documents |
| UnstructuredParser.HasTitleSnoc | src/advence_rag/parsers/unstructured_parser.py:67 | a title has been seen iff it was seen before or this element is one |
| UnstructuredParser.ScanTracksGroups | src/advence_rag/parsers/unstructured_parser.py:62-91 | the fold's emitted documents and open section match the reference grouping |
| UnstructuredParser.DocumentsAreGroups | src/advence_rag/parsers/unstructured_parser.py:84-107 | one document per group, or the full document when there are no groups |
| UnstructuredParser.GroupsShape | src/advence_rag/parsers/unstructured_parser.py:62-82 | the groups are an optional untitled lead of the text before the first title, then one group per title, in order, each headed "# title" |
| UnstructuredParser.SectionIdsConsecutive | src/advence_rag/parsers/unstructured_parser.py:74-90 | section ids are numbered 0, 1, 2, … in order |
| UnstructuredParser.FallbackIffNoGroups | src/advence_rag/parsers/unstructured_parser.py:93-105 | the full-document fallback happens iff there are no groups |
| UnstructuredParser.NoGroupsIffBlank | src/advence_rag/parsers/unstructured_parser.py:67-82 | there are no groups iff there is no title and every text is blank |
| UnstructuredParser.FallbackIffNoSection | src/advence_rag/parsers/unstructured_parser.py:93-105 | the result is the one full document iff every element is a non-Title with blank text |
| UnstructuredParser.LeadPartsEmpty | src/advence_rag/parsers/unstructured_parser.py:80-82 | without a title the lead is empty iff every text is blank |
| UnstructuredParser.SectionContents | src/advence_rag/parsers/unstructured_parser.py:70-91 | each section's content is its parts joined by a blank line, starting with "# title" for titled groups, with matching metadata |
| DoclingParser.ThreeHashesDoNotSplit | src/advence_rag/parsers/docling_parser.py:92 | a `###` line is not a split point |
| DoclingParser.PartsSpec | src/advence_rag/parsers/docling_parser.py:92-93 | the parts concatenate to the content, every part after the first starts at a heading, no heading lies strictly inside a part, and a leading heading gives an empty first part |
| DoclingParser.NoHeadingOnePart | src/advence_rag/parsers/docling_parser.py:92-93 | without headings the split is the whole content |
| DoclingParser.TitleOf | src/advence_rag/parsers/docling_parser.py:102-103 | a title only comes from a part starting with '#', and it holds no newline |
| DoclingParser.TitleOfPlain | src/advence_rag/parsers/docling_parser.py:102-103 | a part not opening with '#' has no title |
| DoclingParser.TitleOfHeading | src/advence_rag/parsers/docling_parser.py:102-103 | "#"/"##", whitespace, then text gives that text as the title |
| DoclingParser.SplitBySections | src/advence_rag/parsers/docling_parser.py:87-110 | the loop yields the specified sections |
| DoclingParser.KeptIndicesMatch | src/advence_rag/parsers/docling_parser.py:96-108 | every section comes from a non-blank part |
| DoclingParser.KeptIndicesIncrease | src/advence_rag/parsers/docling_parser.py:96 | sections keep the order of their parts |
| DoclingParser.UnkeptAreBlank | src/advence_rag/parsers/docling_parser.py:97-99 | every dropped part is blank |
| DoclingParser.SectionsStripped | src/advence_rag/parsers/docling_parser.py:97-110 | there is at least one section; apart from the fallback, each is non-empty and stripped |
| DoclingParser.SectionsArePieces | src/advence_rag/parsers/docling_parser.py:93-108 | the sections occur in the content, in order and without overlap |
| DoclingParser.FallbackIffBlank | src/advence_rag/parsers/docling_parser.py:110 | the single whole-content fallback section happens iff the content is blank |
| DoclingParser.Parse | src/advence_rag/parsers/docling_parser.py:57-72 | one document per section, at least one, with ids `{stem}_section_{i}` |
| DoclingParser.SectionIdsDistinct | src/advence_rag/parsers/docling_parser.py:71 | section ids are distinct |
| DoclingParser.NoHashOneSection | src/advence_rag/parsers/docling_parser.py:92-110 | a non-blank text without '#' is one untitled section of the stripped text |
| PyMuPDFParser.Supports | src/advence_rag/parsers/pymupdf_parser.py:20-33 | supported iff the lower-cased type is .pdf |
| PyMuPDFParser.PageMeta | src/advence_rag/parsers/pymupdf_parser.py:58-71 | the base metadata, overridden by a dict page's metadata; a non-dict metadata value raises |
| PyMuPDFParser.Parse | src/advence_rag/parsers/pymupdf_parser.py:49-89 | the page loop, including its early fallback, yields the specified documents |
| PyMuPDFParser.OneDocumentPerPage | src/advence_rag/parsers/pymupdf_parser.py:55-77 | one document per page, numbered from 1, with id `{stem}_page_{n}` and the page's content |
| PyMuPDFParser.PageMetadataOverrides | src/advence_rag/parsers/pymupdf_parser.py:67-71 | page metadata overrides parser and file_name; when absent the base values stay |
| PyMuPDFParser.FallbackWhenPagesFail | src/advence_rag/parsers/pymupdf_parser.py:79-89 | a failing page pass gives the one full document with id `{stem}_full` and no page number |
| PyMuPDFParser.SingleTextPage | tests/unit/test_parsers.py:57-65 | one string page gives one document holding that string and the file name |
| Summarizer.Instruction | src/advence_rag/tools/summarizer.py:34-40 | the style's instruction, or the concise one for an unknown style |
| Summarizer.SummarizeDocument | src/advence_rag/tools/summarizer.py:27-76 | blank content gives "Empty content provided" with an empty summary; on success the summary is the stripped reply, with `original_length = len(content)` and `summary_length = len(summary)`; an exception gives its text and an empty summary |
| Summarizer.BlankContentSkipsModel | src/advence_rag/tools/summarizer.py:27-94 | for whitespace-only content both tools return the error without consulting the model |
| Summarizer.PromptCarriesInstructionAndContent | src/advence_rag/tools/summarizer.py:40-53 | the prompt carries the chosen instruction and the whole content |
| Summarizer.ExtractKeyPoints | src/advence_rag/tools/summarizer.py:89-134 | blank content is an error with no points; on success the points are the cleaned reply lines cut by `[:max_points]`, with `count == len(key_points)`; an exception gives no points |
| Summarizer.KeyPointsBounded | src/advence_rag/tools/summarizer.py:122 | at most `max_points` points |
| Summarizer.CleanPointsFromLines | src/advence_rag/tools/summarizer.py:118-121 | every point is a cleaned non-blank line, and every non-blank line yields a point |
| Summarizer.NumberedLineExample | src/advence_rag/tools/summarizer.py:120 | "10. x" becomes "0. x" |
| Summarizer.BulletLineExample | src/advence_rag/tools/summarizer.py:120 | "• point" becomes "point" |
| Summarizer.OnlyBulletCharsExample | src/advence_rag/tools/summarizer.py:120 | a line made only of the stripped characters becomes "" |
| Summarizer.OnlyBulletCharsPoint | src/advence_rag/tools/summarizer.py:118-121 | such a line still yields an (empty) point |
| Writer.FormatSources | src/advence_rag/agents/writer.py:38-55 | one entry per document, in order, with id "[i]" from 1 |
| Writer.SourceDefaults | src/advence_rag/agents/writer.py:51-53 | missing fields default to "Unknown", "knowledge_base" and "" |
| Writer.CitationIdsDistinct | src/advence_rag/agents/writer.py:50 | different positions get different ids |
| Writer.Disclaimers | src/advence_rag/agents/writer.py:73-79 | the low-confidence notice iff confidence < 0.7, placed first; the web notice iff there are web sources |
| Writer.AddDisclaimerIfNeeded | src/advence_rag/agents/writer.py:58-84 | the answer is returned unchanged iff confidence >= 0.7 and there are no web sources; otherwise it is the answer, "\n\n---\n", then the notices joined by "\n"; the answer is always a prefix |
| Writer.BothNoticesInOrder | src/advence_rag/agents/writer.py:75-82 | with both notices, the low-confidence line comes before the web line |
| Writer.ThresholdIsExclusive | src/advence_rag/agents/writer.py:75 | exactly 0.7 adds no low-confidence notice |
| Guard.FirstMatchIndex | src/advence_rag/agents/guard.py:42-43 | the first matching pattern, with none before it matching |
| Guard.CheckSensitiveContent | src/advence_rag/agents/guard.py:16-54 | a disabled guard is safe with the text unchanged; otherwise safe iff no pattern matches; the filtered text is the input iff safe, and None iff unsafe |
| Guard.UnsafeNamesFirstMatch | src/advence_rag/agents/guard.py:42-48 | a refusal's reason names the first matching pattern in list order |
| Guard.DefaultsComeFirst | src/advence_rag/agents/guard.py:33-40 | a matching built-in pattern wins over every configured one |
| Guard.DisabledIgnoresPatterns | src/advence_rag/agents/guard.py:25-30 | with the guard off no pattern is consulted |
| Guard.ValidateQuery | src/advence_rag/agents/guard.py:57-80 | `can_proceed` iff the check is safe; only the approved reply carries `validated_query == query` |
| Guard.ValidateIffNoMatch | src/advence_rag/agents/guard.py:40-80 | with the guard on, a query passes iff no pattern matches it |
| Guard.TaiwanIdExample | tests/verify_agents.py:25-27 | when the regex engine agrees with the ASCII reading of the Taiwan ID pattern, "My ID is A123456789" is refused by the check and by query validation |

## Left out

- **External services.** These are parameters: the vector and keyword searches, the cross-encoder, HTTP, the LLM, `re.search`, the `unstructured`/`docling`/`pymupdf4llm` extractors and package availability.
  - Logging, `asyncio.sleep` and the clock are omitted; the retry model records the sleeps instead.
- **Async and sync calls.** Async execution is treated as sequential. Awaiting a synchronous function is treated as a call returning its value; this covers `search_similar`, `rerank_results` and `CrossEncoderReranker.rerank`. `search_keyword`, which `agents/search.py` imports, is not defined in `tools/knowledge_base.py`; the model takes it as an oracle.
- **Floats.** Floats are modelled as `real`. NaN, infinities and the rounding of `float(score)` are omitted. The `:.2f` formatting is a parameter `fmt`. `str()` of a real, dict or list value (`Py.Show`) is a fixed placeholder.
- **Text.** `lower()` is ASCII-only. Word characters and digits in the guard's reference reading of the Taiwan ID pattern are ASCII-only, and so is `IGNORECASE`. The other regular expressions are left to the oracle.
- **Docling headings.** A heading is recognised inside one line. The regex `^#{1,2}\s+.+$` also matches when the `\s+` crosses a newline, that is, when a line is one or two `#` followed only by whitespace and a non-empty line follows. The model does not split there. For the same reason `TitleOf` reads only the first line.
- **Docling fallback.** The `except` fallback of `DoclingParser.parse`, which returns the whole document as `{stem}_full`, is not modelled. The sectioning never raises.
- **File paths.** `_ensure_path` is taken as given: a `FilePath` carries the path, `name` and `stem`. The `FileNotFoundError` is not modelled.
- **PyMuPDF.** The first `to_markdown` call is the parameter `markdown`, and the page pass is a `Result`. A page whose `text` is not a string is not modelled.
- **Parser selection.** The `ValueError` branch of `get_parser` cannot be reached, because `ParserType` is a closed datatype. The SIMPLE back-end (`simple_parser.py`) is not part of this model, so its ImportError text is a placeholder. The `__init__` import checks of the parsers are covered by the `installed` oracle.
- **Agent service.**
  - `ExecutionContext` stores `ToolExecution` values in a sequence. A caller that keeps the returned `ToolExecution` object does not see later status changes, whereas in Python the object is shared.
  - `log_summary`, the streaming generator, the ADK runner and event dispatch are omitted, except the function-response branch of `_process_event`.
  - The truncation of tool-call arguments is not modelled.
- **Search agent and web search.** `TextOf`/`AsString` read a non-string hit field as "". The web search service is modelled on the reply of the multi-provider `search_web`, whose provider fallback is not part of this model.
- SearchAgent.MetadataOf: reads a truthy `metadata` that is not a dictionary as `{}`, whereas `metadata.get` in `agents/search.py` would raise `AttributeError`. The model does not capture that raise. The only producer, `search_similar` in `tools/knowledge_base.py`, always stores a dictionary (or the `{}` default) there.
- **Reranker service.** It uses the settings' `rerank_top_k` only through the rerank tool's default. Its output does not carry `source` or `page_number` over, as in the source.
- **Summarizer.** The LLM is an oracle from the prompt to a reply or an exception text. A `None` reply text, which raises `AttributeError` in the source, appears as an exception text.
- **Writer.** `generate_answer_with_citations` returns a fixed placeholder that the LLM fills in, so it is not modelled. The prompt texts of the agent definitions are configuration, not logic.

## Findings

| source | as written | input that shows it | evidently intended | confidence | as-written member | corrected member |
|---|---|---|---|---|---|---|
| src/advence_rag/application/use_cases/search.py:52 | with `enable_crag=None`, `execute` reads `settings.crag_enabled`, but `Settings` (src/advence_rag/config/settings.py:11-62) has no such field, so the call raises `AttributeError` before any search | `execute(query, top_k=5)` with no override | fall back to a configured CRAG switch | not executed | HybridSearch.ResolveCragAsWritten | HybridSearch.ResolveCrag |
