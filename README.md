# Multi-agent research pipeline, modelled in Dafny

The system answers a research question with four agents that share one
`ResearchSession`, a whiteboard they all read and write:

- the **planner** asks a language model to split the question into
  sub-queries;
- one **researcher** per sub-query searches the web (Tavily) and retries
  with a rephrased query while the results are poor;
- the **analyst** pre-filters the results by their search score, asks the
  model to judge each against the original question, and ranks the
  approved findings by score;
- the **writer** turns the findings into the report, in one call or as a
  stream.

The **orchestrator** runs the four phases, runs the researchers in batches
of `max_parallel_searches`, and turns any exception into a failed session.
It always stamps the completion time. A **monitoring tracker** records each
agent's start and end, its tokens, calls and cost. A disk-backed **search
cache** stores result lists by normalised query, each with a time-to-live.

## How the model is built

- Each source file is one module: `Cache`, `WebSearch`, `Session`,
  `Monitoring`, `Planner`, `Researcher`, `Analyst`, `Writer`,
  `Configuration`.
- `core/orchestrator.py` is split four ways:
  - `Batching`: the batch slicing;
  - `Phases`: the run as a function, one function per phase;
  - `PhaseFacts`: what each phase and the whole run promise;
  - `Orchestration`: the construction finding and the `Orchestrator` class.
- Three helper modules stand in for Python built-ins:
  - `Text`: `strip`, `lower`, `split`, `in`, `str(n)`;
  - `Seqs`: reading scripted queues;
  - `Wrappers`: `Option` and `Result`.
- The session, the tracker, the agents, the cache and the search tool are
  classes whose methods change their fields, as in the source.
  - `ResearchSession.State()` packs the session's fields into one
    `SessionState` value.
  - Each agent operation is specified by an effect function of the state
    before it (`PlanEffect`, `ResearchEffect`, `AnalyzeEffect`,
    `WriteEffect`, `WriteStreamEffect`). Its method ensures
    `session.State() == XEffect(old(session.State()), ...).state`.
  - The lemmas about those functions carry what the source promises.
- The loops of the source are `while`/`for` loops with invariants:
  - the researcher's retry loop, the analyst's collect, judge and parse
    loops, and the planner's fallback parse and query logging;
  - the writer's stream consumption, the orchestrator's batch loops and
    the cache's `stats`.
- External services are **oracles** with a script fixed when they are
  built, and each records what it was asked:
  - the chat-completion client (`LanguageModel`: replies, streams,
    prompts);
  - the search service (`SearchEngine`: HTTP outcomes, queries);
  - the wall clock (`Clock`: the `ticks`-th reading of an arbitrary
    sequence).
  - A call past the end of a script raises (for the model) or fails like
    a transport error (for the search service).
- `eval` followed by `str` (the planner's list parse) and `float` (the
  analyst's score parse) are function-valued parameters. Each returns
  `None` where Python would raise or the value is not a list.
- The orchestrator's methods are proved against `Phases`. Each ensures
  `WorldOf(session) == XStage(Config(), old(WorldOf(session))).w`, and `Run`
  ensures the world after `RunEffect`. A `World` is the session plus the
  unread parts of every oracle script.

## Model

| member | source | states |
|---|---|---|
| Cache.SameKeyIgnoringCaseAndSpace | tools/cache.py:150-153 | queries equal after lower-casing, or differing only in surrounding whitespace, map to the same cache key |
| Cache.Key | tools/cache.py:150-153 | `_hash` on the lower-cased, stripped query (the digest left abstract); its properties are `Cache.SameKeyIgnoringCaseAndSpace` |
| Cache.Classify | tools/cache.py:48-93 | the branches of `get`: miss, expired, corrupt or missing payload, live hit; `Cache.SearchCache.Get` follows it |
| Cache.LoadIndex | tools/cache.py:155-162 | an absent or unreadable index file loads as the empty index; a saved one loads as its entries |
| Cache.Disk.constructor | tools/cache.py:39-46 | the directory holds the given index file and payload files |
| Cache.SearchCache.constructor | tools/cache.py:39-46 | the TTL is the hours in microseconds and the in-memory index is what the index file loads as |
| Cache.SearchCache.Get | tools/cache.py:48-93 | returns the stored records exactly on a live hit; on an expired, missing or corrupt payload it returns None and evicts the key from index and disk and saves the index; on a plain miss nothing changes; the index stays in sync with the file |
| Cache.SearchCache.Set | tools/cache.py:95-125 | the payload and the index entry (query, time, count) are stored under the key and the index file is saved |
| Cache.SearchCache.Clear | tools/cache.py:127-132 | every payload and the index file are removed and the index is empty |
| Cache.SearchCache.Stats | tools/cache.py:134-148 | total is the number of entries, expired counts those strictly older than the TTL, and active + expired = total |
| Cache.SearchCache.SaveIndex | tools/cache.py:164-166 | the index file holds the in-memory index and the payloads are untouched |
| Cache.SearchCache.Remove | tools/cache.py:168-174 | the key leaves both index and payloads and the index is saved |
| Cache.GetAfterSet | tools/cache.py:48-125 | after `set(q, rs)` at time t, a lookup with any spelling of q that has the same key returns rs within the TTL and finds it expired beyond it |
| Cache.PrunedStaysAbsent | tools/cache.py:168-174 | once a key is evicted, the next lookup of it is a plain miss |
| Cache.PersistsAcrossInstances | tools/cache.py:39-125 | records stored through one cache are returned by a cache constructed afterwards over the same directory |
| Cache.ClearThenGet | tools/cache.py:127-132 | after `clear`, every lookup misses |
| WebSearch.ParseResults | tools/web_search.py:71-81 | `_parse_results`: one record per item, with the defaults; stated by `WebSearch.ParseResultsFacts` |
| WebSearch.IsUseful | tools/web_search.py:83-95 | `is_useful`, without the division; stated by `WebSearch.IsUsefulMeans` and `WebSearch.ExcessIsSumMinusThreshold` |
| WebSearch.ParseResultsFacts | tools/web_search.py:71-81 | one record per item in order (none without "results"), with the documented defaults, and each summary is the content's prefix of at most 500 characters |
| WebSearch.IsUsefulMeans | tools/web_search.py:83-95 | an empty list is never useful; otherwise useful exactly when the mean score reaches the threshold (inclusive), equivalently when the sum reaches threshold times count |
| WebSearch.ExcessIsSumMinusThreshold | tools/web_search.py:94-95 | the division-free usefulness measure equals the score sum minus threshold times count |
| WebSearch.Interpret | tools/web_search.py:50-69 | results come only from a status-200 decodable response, and are then the parsed results; a timeout, transport error, other status or undecodable body gives the empty list |
| WebSearch.SearchEngine.Post | tools/web_search.py:52-56 | the next scripted outcome is consumed and the query recorded |
| WebSearch.WebSearchTool.constructor | tools/web_search.py:31-33 | the tool keeps the key and result count it is given |
| WebSearch.WebSearchTool.SearchAsync | tools/web_search.py:35-69 | never fails: the result is the interpretation of exactly one request for the query |
| Session.PerAgent.Set | core/session.py:123-126 | the entry of the given agent is replaced and every other agent's entry kept |
| Session.Duration | core/session.py:42-45 | zero unless both start and end were recorded |
| Session.RatesFor | core/session.py:52-57 | gpt-4o and any unlisted model are priced at the gpt-4o rates, and all rates are positive |
| Session.CalculateCost | core/session.py:47-61 | `calculate_cost`: the cost becomes the price of all tokens counted; stated by `Session.CalculateCostFacts` |
| Session.CalculateCostFacts | core/session.py:47-61 | only the cost changes, it is never negative, an unknown model is priced like gpt-4o, and any tokens give a positive cost |
| Session.NewState | core/session.py:64-115 | a new session has every agent PENDING with fresh metrics, no results, logs or sources, no success and no error |
| Session.WithStatusFacts | core/session.py:123-126 | `set_agent_status` stores the status it is given, whatever the previous one, logs exactly one line and changes nothing else |
| Session.TotalDuration | core/session.py:132-136 | zero until the session is stamped complete, then completion minus creation |
| Session.SummaryOf | core/session.py:138-156 | the summary carries the question, success flag, sub-queries, log, the number of sources, and each agent's cost and duration |
| Session.ResearchSession.constructor | core/session.py:64-115 | the new object's state is `NewState` |
| Session.ResearchSession.Log | core/session.py:117-121 | the log grows by the message and nothing else changes |
| Session.ResearchSession.SetAgentStatus | core/session.py:123-126 | the state becomes `WithStatus(agent, status)` |
| Monitoring.Started | monitoring/tracker.py:42-46 | what `start` does to an agent's metrics: the start stamp; stated by `Monitoring.StartEndDuration` |
| Monitoring.Ended | monitoring/tracker.py:48-77 | what `end` does to an agent's metrics: the end stamp and the added tokens, calls and price; stated by `Monitoring.EndAccumulates` and `Monitoring.EndDefaults` |
| Monitoring.StartAgent | monitoring/tracker.py:42-46 | `start` on the session state: that agent's metrics become `Started`, the other agents' entries kept as `Session.PerAgent.Set` states; the resulting duration is stated by `Monitoring.StartEndDuration` |
| Monitoring.EndAgent | monitoring/tracker.py:48-77 | `end` on the session state: only that agent's metrics and the total change; stated by `Monitoring.EndAccumulates` |
| Monitoring.TokenCostNonNegative | monitoring/tracker.py:66-70 | the price of any token counts at non-negative rates is non-negative |
| Monitoring.EndAccumulates | monitoring/tracker.py:48-77 | `end` adds the reported tokens and calls and their price to what the agent had, never lowers its cost, raises the session total by the same price, and touches no other agent and no other field |
| Monitoring.EndDefaults | monitoring/tracker.py:48-54 | `end` with its defaults counts one call and charges nothing |
| Monitoring.StartEndDuration | monitoring/tracker.py:42-77 | starting and then ending an agent gives it the elapsed clock time as its duration |
| Monitoring.WriterExample | tests/test_writer.py:166-184 | recording 300 input and 800 output tokens gives exactly those counts and a positive cost |
| Monitoring.Tracker.constructor | monitoring/tracker.py:37-40 | the tracker's pricing is the table's rates for its model, with gpt-4o as fallback |
| Monitoring.Tracker.Start | monitoring/tracker.py:42-46 | the agent's start time is the next clock reading |
| Monitoring.Tracker.End | monitoring/tracker.py:48-77 | the agent's metrics become `Ended(...)` at the next clock reading |
| Configuration.DefaultSettings | config/settings.py:6-24 | the defaults: gpt-4o, 2000 output tokens, 2 retries, 3 parallel searches, 5 results, tracking on |
| Configuration.Configured | core/orchestrator.py:32-34 | a non-empty override replaces the model; a missing or empty one keeps it; nothing else changes |
| Planner.Fallback | agents/planner.py:98-103 | the newline fallback of `_parse_queries`; stated by `Planner.FallbackMembers` and `Planner.FallbackShape` |
| Planner.ParsedQueries | agents/planner.py:88-103 | `_parse_queries`: the evaluated list when `eval` gives one, the fallback otherwise; stated by `Planner.ParsedQueriesFacts` |
| Planner.PlanEffect | agents/planner.py:36-86 | `plan` on the session state and the model's reply; stated by `Planner.PlanFacts` |
| Planner.FallbackAppend | agents/planner.py:98-103 | the newline fallback treats each line on its own, in order |
| Planner.CleanedShape | agents/planner.py:99-103 | a kept query is longer than five characters and neither starts nor ends with list punctuation |
| Planner.FallbackMembers | agents/planner.py:98-103 | at most one query per line; a string is a query exactly when some kept line cleans to it |
| Planner.FallbackShape | agents/planner.py:98-103 | every fallback query has the shape `CleanedShape` states |
| Planner.ParsedQueriesFacts | agents/planner.py:88-103 | an evaluable list gives its elements in order; otherwise every query is a kept, cleaned line of the text, longer than five characters |
| Planner.BulletKeepsBlank | agents/planner.py:99 | a "- " bullet loses only its dash, because whitespace is stripped before punctuation |
| Planner.ThreeBullets | agents/planner.py:98-103 | three "- " bulleted lines give three queries, each keeping the blank after its dash |
| Planner.BulletExample | tests/test_planner.py:78-93 | the tests' bulleted answer falls back to its three topics, each with the blank left by its dash |
| Planner.ListAnswerExample | tests/test_planner.py:57-74 | a model answering `["query 1", "query 2"]`, which evaluates to that list, leaves the planner DONE with those two strings as the session's sub-queries and as its result |
| Planner.PlanFacts | agents/planner.py:45-86 | on an answer: DONE, parsed queries stored and returned, one log line per query, tokens and one call reported. On an exception: FAILED, error stored and re-raised, sub-queries kept, no end stamp. Either way the question is logged and no other agent changes |
| Planner.PlannerAgent.ParseQueries | agents/planner.py:88-103 | the loop computes `ParsedQueries` |
| Planner.PlannerAgent.LogQueries | agents/planner.py:76-77 | the log grows by the numbered sub-query lines |
| Planner.PlannerAgent.Open | agents/planner.py:45-47 | RUNNING, start stamp, the line naming the question |
| Planner.PlannerAgent.Accept | agents/planner.py:61-80 | end stamp with the reported usage, parsed queries stored, DONE, queries logged |
| Planner.PlannerAgent.Plan | agents/planner.py:36-86 | the new state and the result are those of `PlanEffect` for the next scripted reply; one model request whose user message is the question |
| Researcher.Iterate | agents/researcher.py:48-84 | one pass of the retry loop; stated by `Researcher.IterateFacts` |
| Researcher.Loop | agents/researcher.py:48-84 | the retry loop from a given attempt; stated by the `Researcher.Loop*` lemmas |
| Researcher.ResearchRun | agents/researcher.py:43-95 | the whole search-and-rephrase run of one query; stated by `Researcher.RunFacts` and the lemmas after it |
| Researcher.ResearchEffect | agents/researcher.py:28-95 | `research_async` on the session state; stated by `Researcher.ResearchEffectFacts` |
| Researcher.CleanUnwraps | agents/researcher.py:128 | a reply made of a query wrapped in quotes and then whitespace cleans to the bare query |
| Researcher.IterateFacts | agents/researcher.py:48-84 | one pass searches once; it stops on a useful search or a failed rephrase, and otherwise continues with the rephrased query and its tokens while retries remain |
| Researcher.LoopCounts | agents/researcher.py:48-95 | attempts stay within the bound, each attempt searches once, and a rephrase follows every failed attempt that has retries left and no other |
| Researcher.LoopEarlier | agents/researcher.py:48-84 | every attempt before the last failed its search and had its rephrase answered |
| Researcher.LoopLast | agents/researcher.py:55-84 | the last search was useful exactly when the run succeeded; a crash comes from the last rephrase |
| Researcher.LoopFound | agents/researcher.py:55-84 | a successful run ends with its last attempt's query and results and the sum of the rephrase tokens it used |
| Researcher.RunFacts | agents/researcher.py:43-95 | everything the loop lemmas state, for a whole call |
| Researcher.AttemptsBounded | agents/researcher.py:48-49 | the returned attempt count is between 1 and max_retries + 1, with one search per attempt |
| Researcher.FoundIsFirstUseful | agents/researcher.py:55-74 | success happens at the first useful attempt, with that attempt's query and results, attempts - 1 rephrases and their summed tokens |
| Researcher.FirstUsefulIsFound | agents/researcher.py:48-84 | conversely, the first useful attempt, reached with every rephrase answered, ends the run successfully there |
| Researcher.ExhaustedFacts | agents/researcher.py:86-95 | an exhausted run made max_retries + 1 attempts, none useful, sent max_retries rephrases, and returns the original query with no results |
| Researcher.NoUsefulIsExhausted | agents/researcher.py:48-95 | conversely, with no useful search and every rephrase answered the run is exhausted |
| Researcher.CrashedFacts | agents/researcher.py:77-84 | a rephrase exception ends the run only before any useful search, and is the last request sent |
| Researcher.NegativeRetriesSearchNothing | agents/researcher.py:48 | with a negative retry bound there is no search and zero attempts |
| Researcher.ResearchEffectFacts | agents/researcher.py:58-95 | a returning call appends exactly the output it returns to raw_results, a crash appends nothing; only a success reports to the tracker, with attempts - 1 calls; statuses never change |
| Researcher.ResearcherAgent.constructor | agents/researcher.py:16-26 | the agent keeps its model client, search tool, model name and retry bound |
| Researcher.ResearcherAgent.Rephrase | agents/researcher.py:97-135 | one request with the goal and the failed query; the cleaned reply or the exception |
| Researcher.ResearcherAgent.Retry | agents/researcher.py:77-84 | logs the poor result, asks for a rephrase, adds its tokens or reports the crash |
| Researcher.ResearcherAgent.Attempt | agents/researcher.py:48-84 | one pass of the loop follows `Iterate` |
| Researcher.ResearcherAgent.RetryLoop | agents/researcher.py:43-87 | the loop follows `ResearchRun`, consuming one search outcome per attempt and one reply per rephrase |
| Researcher.ResearcherAgent.Research | agents/researcher.py:28-95 | the new state and result are those of `ResearchEffect`; the search and model scripts are consumed by the run's searches and prompts |
| Analyst.Collected | agents/analyst.py:98-109 | `_collect_results`: the results of the successful outputs in order; stated by `Analyst.CollectedAppend` and `Analyst.CollectedMembers` |
| Analyst.PreFilter | agents/analyst.py:56-62 | the 0.5 score filter, lowered to 0.3 when it keeps nothing; stated by `Analyst.PreFilterFacts` |
| Analyst.ParsedJudgment | agents/analyst.py:166-182 | `_parse_judgment`; stated by `Analyst.LastRelevantWins`, `Analyst.LastScoreWins` and `Analyst.LastReasonWins` |
| Analyst.JudgeAll | agents/analyst.py:111-164 | `_judge_relevance` over the candidates and the replies; stated by the `Analyst.JudgeAll*` lemmas |
| Analyst.SortDesc | agents/analyst.py:71 | the stable descending sort by score; stated by `Analyst.SortDescFacts` and `Analyst.SortDescStable` |
| Analyst.AnalyzeEffect | agents/analyst.py:31-96 | `analyze` on the session state and the replies; stated by `Analyst.AnalyzeFacts` |
| Analyst.CollectedAppend | agents/analyst.py:98-109 | collecting distributes over concatenation, so results keep the order of outputs and of each list |
| Analyst.CollectedMembers | agents/analyst.py:98-109 | a result is collected exactly when some successful output holds it |
| Analyst.SkipLinesCount | agents/analyst.py:101-107 | one skip line per failed output |
| Analyst.AtLeastFacts | agents/analyst.py:56-60 | the score filter keeps exactly the results reaching the threshold and never more than given |
| Analyst.AtLeastAppend | agents/analyst.py:56-60 | the score filter distributes over concatenation, so it keeps order |
| Analyst.PreFilterFacts | agents/analyst.py:55-60 | 0.3 is used only when nothing reaches 0.5; the filter is empty exactly when no result reaches 0.3 |
| Analyst.LastStarting | agents/analyst.py:171-180 | the index found is a line starting with the key |
| Analyst.LastStartingIsLast | agents/analyst.py:171-180 | no later line starts with the key |
| Analyst.KeysExclusive | agents/analyst.py:172-180 | a line starts with at most one of relevant:, score:, reason: |
| Analyst.LastRelevantWins | agents/analyst.py:169-173 | the relevance flag is that of the last relevant: line ("yes" in it), false without one |
| Analyst.LastScoreWins | agents/analyst.py:169-178 | the score is that of the last score: line (0.5 where float fails), 0.0 without one |
| Analyst.LastReasonWins | agents/analyst.py:169-180 | the reason is the stripped text after the first colon of the last reason: line, empty without one |
| Analyst.ParsedJudgmentIgnoresCase | agents/analyst.py:168 | the judgment parse depends only on the lower-cased text |
| Analyst.JudgeAllCalls | agents/analyst.py:121-164 | with every reply an answer there are exactly one request per result; an exception stops at the request that raised it, all earlier ones answered |
| Analyst.JudgeAllError | agents/analyst.py:121-153 | the propagated exception is the one the last request raised |
| Analyst.JudgeAllSucceeds | agents/analyst.py:121-164 | judging ends without an exception exactly when every request is answered |
| Analyst.JudgeAllTokens | agents/analyst.py:149-150 | without an exception the token totals are the sums over the replies |
| Analyst.JudgeAllFindings | agents/analyst.py:155-162 | every finding copies a judged result's title, url and summary and takes score and reason from its parsed judgment; no more findings than requests |
| Analyst.ApprovedFromAppend | agents/analyst.py:121-162 | the reference filter handles results in order, one more result adding only its own verdict at the end |
| Analyst.ApprovedFromMembers | agents/analyst.py:155-162 | every result whose reply is an answer judged relevant has its finding in the reference filter |
| Analyst.JudgeAllFindingsAre | agents/analyst.py:121-164 | the findings are exactly the reference filter over the judged results: one finding per answered, relevant judgment, in input order, and nothing else |
| Analyst.JudgeAllComplete | agents/analyst.py:155-162 | conversely to `JudgeAllFindings`, every judged result whose reply is an answer judged relevant yields its finding |
| Analyst.JudgeAllStops | agents/analyst.py:121-153 | once a request raises, no later result is judged |
| Analyst.InsertDescFacts | agents/analyst.py:71 | insertion keeps a descending list descending and adds only the new element |
| Analyst.InsertDescPerm | agents/analyst.py:71 | insertion adds exactly the new element |
| Analyst.SortDescFacts | agents/analyst.py:71 | the ranking is descending by score and a permutation of the findings |
| Analyst.InsertDescStable | agents/analyst.py:71 | insertion puts the new element after all equal-score elements |
| Analyst.SortDescStable | agents/analyst.py:71 | the ranking is stable: findings of equal score keep their order |
| Analyst.OpenedFacts | agents/analyst.py:41-47 | the opening sets RUNNING and the start stamp and touches no data |
| Analyst.AbandonedFacts | agents/analyst.py:49-53 | the early exit sets FAILED and reports one call at no cost |
| Analyst.ApprovedFacts | agents/analyst.py:74-94 | findings and their urls are stored, DONE, one call per candidate reported |
| Analyst.AnalyzeFacts | agents/analyst.py:31-96 | nothing collected: FAILED, findings kept, [] returned, one free call. Every judgment answered: DONE (even with none approved), the ranking stored and returned, descending by score and a permutation of the approved findings, which are exactly those of the reference filter, urls as sources, one call per candidate. A raising judgment: still RUNNING, findings kept. Raw results and other agents never change |
| Analyst.AnalystAgent.constructor | agents/analyst.py:26-29 | the agent keeps its client, model and float oracle |
| Analyst.AnalystAgent.CollectResults | agents/analyst.py:98-109 | the loop computes `Collected` and logs `SkipLines` |
| Analyst.AnalystAgent.ParseJudgment | agents/analyst.py:166-182 | the loop computes `ParsedJudgment` |
| Analyst.AnalystAgent.JudgeOne | agents/analyst.py:121-162 | one iteration extends `JudgeAll` by one result and one request |
| Analyst.AnalystAgent.JudgeRelevance | agents/analyst.py:111-164 | the loop computes `JudgeAll`, consuming one reply and recording one prompt per request |
| Analyst.AnalystAgent.Open | agents/analyst.py:41-47 | the state becomes `Opened` and the collected results are returned |
| Analyst.AnalystAgent.Filter | agents/analyst.py:55-62 | returns `PreFilter` and logs the lowering and count lines |
| Analyst.AnalystAgent.Approve | agents/analyst.py:70-94 | stores the ranking and ends the analyst's run as `Approved` |
| Analyst.AnalystAgent.Analyze | agents/analyst.py:31-96 | the new state and result are those of `AnalyzeEffect`; at most one request per candidate |
| Writer.EmptyReport | agents/writer.py:187-196 | `_empty_report`; stated by `Writer.EmptyReportFacts` |
| Writer.FormatFindings | agents/writer.py:174-185 | `_format_findings`; stated by `Writer.PartsNumbered` and `Writer.FormatFindingsMentions` |
| Writer.Fragments | agents/writer.py:152-157 | the tokens `write_stream` yields; stated by `Writer.FragmentsFacts` |
| Writer.Estimate | agents/writer.py:166-170 | the output-token estimate; stated by `Writer.EstimateFacts` |
| Writer.WriteEffect | agents/writer.py:45-101 | `write` on the session state and the reply; stated by `Writer.WriteFacts` |
| Writer.WriteStreamEffect | agents/writer.py:103-172 | `write_stream` on the session state and the stream; stated by `Writer.WriteStreamKeeps` and `Writer.WriteStreamFacts` |
| Writer.EmptyReportFacts | agents/writer.py:187-196 | the fixed message opens with its verdict and quotes the question |
| Writer.PartsNumbered | agents/writer.py:174-185 | one block per finding, headed by distinct numbers counted from 1 |
| Writer.HeaderInjective | agents/writer.py:177-179 | different numbers give different block headers |
| Writer.FormatFindingsAppend | agents/writer.py:174-185 | one more finding adds the separator and its block |
| Writer.PartMentions | agents/writer.py:178-184 | a block shows the finding's title, url, summary and reason |
| Writer.FormatFindingsMentions | agents/writer.py:174-185 | every finding's title, url, summary and reason reach the text sent to the model |
| Writer.FragmentsFacts | agents/writer.py:152-157 | no yielded fragment is empty, there are no more fragments than chunks, and together they are everything the chunks carried |
| Writer.StreamExample | tests/test_writer.py:130-145 | the tests' five-token stream yields five fragments joining to the whole report |
| Writer.EstimateFacts | agents/writer.py:166-170 | the output estimate is the whole part of 1.3 times the word count |
| Writer.NothingFoundFacts | agents/writer.py:57-63 | without findings: the fixed message as report, no success, DONE, one free call |
| Writer.WriteFacts | agents/writer.py:45-101 | without findings: the fixed message and no success. With an answer: the stripped text stored and returned, success, reported tokens charged. A raising call: still RUNNING, report kept. Only report, success, log and the writer's own entries change |
| Writer.WriteStreamKeeps | agents/writer.py:103-172 | streaming changes only report, success, log and the writer's own entries, and ends DONE unless it raises |
| Writer.WriteStreamFacts | agents/writer.py:103-172 | the yielded fragments join to the stored report; without findings exactly one fragment, the fixed message; with a stream: success, non-empty fragments, 500 input tokens, the estimated output tokens, one call |
| Writer.WriterAgent.constructor | agents/writer.py:20-29 | the agent keeps its client, model and max_tokens |
| Writer.WriterAgent.Begin | agents/writer.py:54-55 | RUNNING and the start stamp |
| Writer.WriterAgent.ReportNothing | agents/writer.py:57-63 | the branch without findings, as `NothingFound` |
| Writer.WriterAgent.Write | agents/writer.py:45-101 | the new state and result are those of `WriteEffect`; the model is asked only when there are findings |
| Writer.WriterAgent.Publish | agents/writer.py:86-99 | the stripped text is stored, success, DONE, logged, usage reported |
| Writer.WriterAgent.Consume | agents/writer.py:152-157 | the loop yields `Fragments` and accumulates their concatenation |
| Writer.WriterAgent.WriteStream | agents/writer.py:103-172 | the new state and yielded fragments are those of `WriteStreamEffect`; the stream is opened only when there are findings |
| Writer.WriterAgent.Conclude | agents/writer.py:159-172 | report stored, success, DONE, logged, estimate reported |
| Oracles.Clock.Now | monitoring/tracker.py:45 | the next reading of the clock's fixed sequence, standing for the `datetime.now()` readings the model takes: the session's `created_at` (core/session.py:114), the start and end stamps (monitoring/tracker.py:45 and 60) and `completed_at` (core/orchestrator.py:111) |
| Oracles.LanguageModel.Complete | agents/planner.py:50-58 | the next scripted reply is consumed and the user message recorded |
| Oracles.LanguageModel.Stream | agents/writer.py:134-150 | the next scripted stream is consumed and the user message recorded |
| Batching.Batches | core/orchestrator.py:131-132 | the slices `queries[i:i + k]` for `i` in `range(0, n, k)`; stated by the `Batching.Batches*` lemmas |
| Batching.BatchesCount | core/orchestrator.py:131-132 | there are ceil(n / k) batches |
| Batching.BatchesSlices | core/orchestrator.py:131-132 | batch b is `queries[b*k : b*k + k]` |
| Batching.BatchesFlatten | core/orchestrator.py:131-132 | together the batches are exactly the sub-queries, in order |
| Batching.BatchesStep | core/orchestrator.py:131-132 | one pass of the batch loop takes the next slice |
| Phases.PlanStage | core/orchestrator.py:78 | phase 1, the planner on the world; stated by `PhaseFacts.PlanStageFacts` |
| Phases.ResearchOne | core/orchestrator.py:136-142 | one researcher call on the world; stated by `PhaseFacts.ResearchOneFacts` |
| Phases.ResearchQueries | core/orchestrator.py:136-147 | one batch of researcher calls; stated by `PhaseFacts.ResearchQueriesFacts` |
| Phases.ResearchBatches | core/orchestrator.py:131-147 | the batches in order, each logged; stated by `PhaseFacts.ResearchBatchesFacts` |
| Phases.StepBatches | core/orchestrator.py:128-147 | `_run_researchers` for any step, including zero and negative ones; stated by `PhaseFacts.StepBatchesCounts` |
| Phases.ResearchOpened | core/orchestrator.py:82-83 | the opening of phase 2; stated by `PhaseFacts.ResearchOpenedFacts` |
| Phases.ResearchStage | core/orchestrator.py:82-87 | phase 2; stated by `PhaseFacts.ResearchStageFacts` and `PhaseFacts.ResearchStageCounts` |
| Phases.AnalyzeStage | core/orchestrator.py:91 | phase 3; stated by `PhaseFacts.AnalyzeStageFacts` and `PhaseFacts.AnalyzeStageIs` |
| Phases.StreamStage | core/orchestrator.py:96-100 | phase 4 when streaming; stated by `PhaseFacts.StreamStageIs` |
| Phases.ReportStage | core/orchestrator.py:101-102 | phase 4 without streaming; stated by `PhaseFacts.ReportStageIs` |
| Phases.WriteStage | core/orchestrator.py:96-102 | phase 4 either way; stated by `PhaseFacts.WriteStageFacts` |
| Phases.Pipeline | core/orchestrator.py:75-102 | the four phases, stopping at the first exception; stated by `PhaseFacts.PipelineRanAll` and `PhaseFacts.PipelineDone` |
| Phases.Begun | core/orchestrator.py:69-72 | the fresh session and its started line; stated by `PhaseFacts.BegunFacts` |
| Phases.Finished | core/orchestrator.py:104-111 | the except and finally clauses; stated by `PhaseFacts.FinishedFacts` |
| Phases.RunEffect | core/orchestrator.py:57-117 | `run`; stated by `PhaseFacts.RunFacts` and the `PhaseFacts.*Stops*` lemmas |
| PhaseFacts.PlanStageFacts | core/orchestrator.py:78 | the planner leaves the other agents alone, ending DONE with the error unchanged or FAILED with it set to the raised message |
| PhaseFacts.ResearchOneFacts | agents/researcher.py:28-95 | one researcher adds one raw result unless it raises |
| PhaseFacts.ResearchQueriesFacts | core/orchestrator.py:136-147 | a batch adds one raw result per query unless a researcher raises |
| PhaseFacts.ResearchBatchesFacts | core/orchestrator.py:131-147 | the batches add one raw result per query and at least one log line per batch, opening with the first batch's line |
| PhaseFacts.ResearchOpenedFacts | core/orchestrator.py:82-83 | phase 2 opens with RUNNING and the start stamp only |
| PhaseFacts.ResearchStageFacts | core/orchestrator.py:82-87 | phase 2 leaves other agents, the error and the sub-queries alone; the researcher ends DONE, or stays RUNNING when one raises |
| PhaseFacts.ResearchStageCounts | core/orchestrator.py:128-147 | a zero step raises; with a positive step and no exception every sub-query gets one raw result and every batch a log line; a negative step adds no raw result |
| PhaseFacts.StepBatchesCounts | core/orchestrator.py:131-147 | the batch loop over `range(0, n, k)`, counted as in `ResearchStageCounts` |
| PhaseFacts.AnalyzeStageFacts | core/orchestrator.py:91 | the analyst leaves the other agents, the error, the sub-queries and the raw results alone |
| PhaseFacts.AnalyzeGrows | agents/analyst.py:31-96 | the analyst only appends to the log and keeps the question |
| PhaseFacts.AnalyzeStageIs | core/orchestrator.py:91 | the analyst phase is the world after the analyst's outcome and its requests |
| PhaseFacts.StreamStageIs | core/orchestrator.py:96-100 | the streaming phase is the world after the streaming writer's outcome |
| PhaseFacts.ReportStageIs | core/orchestrator.py:101-102 | the writing phase is the world after the writer's outcome |
| PhaseFacts.WriteStageFacts | core/orchestrator.py:96-102 | the writer leaves the other agents and the error alone and ends DONE unless it raises |
| PhaseFacts.GrowsTrans | core/orchestrator.py:75-102 | log growth composes over phases |
| PhaseFacts.PipelineGrows | core/orchestrator.py:75-102 | the phases only append to the log and keep the question |
| PhaseFacts.PipelineRanAll | core/orchestrator.py:75-102 | without an exception every phase ran to its end |
| PhaseFacts.PipelineDone | core/orchestrator.py:75-102 | without an exception planner, researcher and writer are DONE and the error is unchanged |
| PhaseFacts.BegunFacts | core/orchestrator.py:69-72 | a run starts from a fresh session whose only log line is the session-started line |
| PhaseFacts.FinishedFacts | core/orchestrator.py:104-111 | the except/finally clauses only set error, success and completion stamp and append the error line |
| PhaseFacts.RunFacts | core/orchestrator.py:57-117 | whatever happens the log opens with the started line and the run is stamped complete; an exception becomes the error, clears success and closes the log with the pipeline-error line; otherwise no error and planner, researchers and writer DONE |
| PhaseFacts.PlannerRaisedStopsAll | core/orchestrator.py:75-108 | when the planner raises, no other agent starts and there are no raw results |
| PhaseFacts.ResearchRaisedStopsRest | core/orchestrator.py:82-108 | when a researcher raises, the researcher stays RUNNING and neither analyst nor writer starts |
| PhaseFacts.ResearchStops | core/orchestrator.py:82-108 | the same, for any starting world |
| PhaseFacts.AnalystRaisedStopsWriter | core/orchestrator.py:91-108 | when the analyst raises, the writer never starts |
| PhaseFacts.AnalystStops | core/orchestrator.py:91-108 | the same, for any starting world |
| Orchestration.UnexpectedKeyword | core/orchestrator.py:40-44 | finds a passed keyword the callee does not declare exactly when there is one |
| Orchestration.Init | core/orchestrator.py:29-44 | construction succeeds exactly when every keyword passed to the search tool is declared, and then yields the overridden settings |
| Orchestration.InitAsWrittenRaises | core/orchestrator.py:40-44 | as written, constructing an orchestrator raises the unexpected-keyword error for `cache` |
| Orchestration.InitCorrectedBuilds | tools/web_search.py:31 | without the stray keyword, construction yields the overridden settings |
| Orchestration.Orchestrator.constructor | core/orchestrator.py:29-55 | the agents share the client and configured settings, and the search tool gets the Tavily key and result count |
| Orchestration.Orchestrator.RunPlanner | core/orchestrator.py:78 | follows `PlanStage` |
| Orchestration.Orchestrator.RunOne | core/orchestrator.py:136-142 | follows `ResearchOne` |
| Orchestration.Orchestrator.RunBatch | core/orchestrator.py:136-147 | follows `ResearchQueries` |
| Orchestration.Orchestrator.RunBatches | core/orchestrator.py:128-147 | follows `ResearchBatches` over `Batches(sub_queries, k)` |
| Orchestration.Orchestrator.OpenResearch | core/orchestrator.py:82-83 | follows `ResearchOpened` |
| Orchestration.Orchestrator.RunResearchers | core/orchestrator.py:82-87 | follows `ResearchStage` |
| Orchestration.Orchestrator.RunAnalyst | core/orchestrator.py:91 | follows `AnalyzeStage` |
| Orchestration.Orchestrator.RunStream | core/orchestrator.py:96-100 | follows `StreamStage` |
| Orchestration.Orchestrator.RunReport | core/orchestrator.py:101-102 | follows `ReportStage` |
| Orchestration.Orchestrator.RunPipeline | core/orchestrator.py:75-102 | follows `Pipeline` |
| Orchestration.Orchestrator.Open | core/orchestrator.py:69-72 | a fresh session and tracker in the world `Begun` describes |
| Orchestration.Orchestrator.Close | core/orchestrator.py:104-111 | follows `Finished` |
| Orchestration.Orchestrator.Run | core/orchestrator.py:57-117 | the world after the call is `RunEffect` and the result is the stamped session's summary |
| Text.StripLeftFacts | agents/planner.py:99 | `lstrip` drops the longest prefix of stripped characters |
| Text.StripRightFacts | agents/planner.py:99 | `rstrip` drops the longest suffix of stripped characters |
| Text.StripIsInfix | agents/planner.py:99 | `strip` keeps a contiguous piece, cutting only stripped characters, and neither end of it is stripped |
| Text.StripIgnoresSurrounding | agents/researcher.py:128 | surrounding runs of stripped characters do not change the result |
| Text.LowerTrimCommute | tools/cache.py:152 | lower-casing and trimming commute |
| Text.Split | agents/analyst.py:168 | at least one piece, no piece holds the separator, and joining the pieces gives the input back |
| Text.SplitPieces | agents/analyst.py:176-180 | the first two pieces are the text before the first separator and between the first two |
| Text.Words | agents/writer.py:166 | `split()` gives non-empty runs of non-whitespace characters, no more of them than characters |
| Text.WordsAreRuns | agents/writer.py:166 | the words joined without separator are exactly the non-whitespace characters of the text in order, and there is one word per maximal run of them |
| Text.NatToStringRoundTrip | agents/writer.py:179 | decimal rendering of a count reads back as the count |
| Text.JoinInfix | agents/writer.py:185 | every part occurs in the joined text |

## Left out

- The log timestamp prefix `[HH:MM:SS]` and the clock reading it takes
  are not modelled. Log entries are the messages themselves.
- `loguru` logging, `print`, `print_summary` and the `enable_tracking` flag
  that guards it are left out; they are console output.
- Loading settings from `.env` and the environment is left out. So is the
  validation error for a missing API key. `Settings` is a plain value
  given to the constructor.
- The orchestrator's `SearchCache` is constructed but never used by any
  search, so it is not built in the model. The cache module is modelled on
  its own.
- Network, JSON files and hashing are abstract:
  - the search service is a scripted oracle, and cache payloads are
    values;
  - a cache key is the normalised query itself, not its truncated SHA-256
    (two queries colliding in the 16-hex-digit prefix are not modelled);
  - time is integer microseconds from the caller.
- `eval` and `str` are one oracle for the planner. A `float` that returns
  NaN or infinity is not distinguished from other reals.
- A reply's `message.content` is always a string. The `None` content the
  API may return (which would raise on `.strip()`) is not modelled.
- `lower` is ASCII-only. Non-ASCII case mapping is not modelled.
- Concurrency: the researchers of a batch run one after another in the
  model, not through `asyncio.gather`. The first exception therefore ends
  the batch, and the remaining researchers in it do not run. The order of
  appended raw results and log lines is the sequential one.
- `Researcher.ResearchEffect`: when every retry is exhausted, the rephrase
  tokens are not reported to the tracker, exactly as in the source.
- Statuses are not monotonic: `set_agent_status` accepts every transition.
  An analyst or writer that raises stays RUNNING with no end stamp, as in
  the source.
- `write_stream` is consumed to the end. Abandoning the generator halfway
  is not modelled.
- `Writer.EstimateFacts`: `Estimate` is stated as truncation toward zero of
  1.3 times the word count. This equals Python's `int()` on the float here
  because the product is non-negative. Floating-point rounding of `1.3` is
  not modelled.
- Token costs and scores are exact reals, not IEEE doubles.
- `Cache.SearchCache.Stats` compares every entry with one time `now`
  given by the caller. The source (tools/cache.py:139-140) reads
  `datetime.now()` anew for each entry, so an entry crossing the TTL
  during the loop is not modelled.
- A search item's fields are options: present with the right type, or
  absent (then the default applies, as in the source). A field present
  with `null` or a wrong type is not representable. With `"content":
  null` the source's slice raises `TypeError` (tools/web_search.py:76-79)
  and the enclosing `try` makes the whole search return `[]`.
- A stream that raises partway is modelled as `StreamRaised` before any
  fragment, so the fragments yielded before the exception are lost.
- `PhaseFacts.RunFacts`, `PhaseFacts.ResearchBatchesFacts`,
  `PhaseFacts.ResearchStageCounts` and `PhaseFacts.StepBatchesCounts`
  state at least one log line per batch, not the exact lines. The exact
  log is stated by the phase functions the orchestrator's methods are
  proved to follow.
- `Session.TotalCost` has no separate row; `Monitoring.EndAccumulates`
  states how it changes.

## Findings

| source | as written | input that shows it | evidently intended | confidence | as-written member | corrected member |
|---|---|---|---|---|---|---|
| core/orchestrator.py:40-44 | `WebSearchTool(api_key=..., max_results=..., cache=self.cache)`, but `WebSearchTool.__init__` (tools/web_search.py:31) declares only `api_key` and `max_results` | any construction of `Orchestrator()`: Python raises `TypeError: ... unexpected keyword argument 'cache'` | build the search tool with the key and result count (the cache is not used by the tool) | not executed | Orchestration.InitAsWrittenRaises | Orchestration.InitCorrectedBuilds |
