/** agents/researcher.py: one sub-query's search with bounded retries. Each
    attempt searches with the current query; a useful result set ends the
    run, otherwise, while retries remain, the language model is asked for a
    rephrased query. `Loop` is the specification of the retry loop, and
    `ResearcherAgent.Research` is proved to follow it. */
module Researcher {
  import opened Wrappers
  import opened Seqs
  import opened Text
  import opened WebSearch
  import opened Session
  import opened Oracles
  import opened Monitoring

  // ---------------------------------------------------------------- rephrasing

  const Quote: set<char> := {'"'}

  /** The post-processing of a rephrase reply: `strip()`, then `strip('"')`. */
  function Clean(text: string): string {
    Strip(Trim(text), Quote)
  }

  lemma StripKeeps(s: string, cs: set<char>)
    requires s == [] || (s[0] !in cs && s[|s| - 1] !in cs)
    ensures Strip(s, cs) == s
  {
  }

  /** A reply made of a query wrapped in double quotes and then in whitespace
      cleans to the bare query. */
  lemma CleanUnwraps(w1: string, q1: string, core: string, q2: string, w2: string)
    requires AllIn(w1, Whitespace) && AllIn(w2, Whitespace) && AllIn(q1, Quote) && AllIn(q2, Quote)
    requires core != [] && core[0] !in Whitespace + Quote && core[|core| - 1] !in Whitespace + Quote
    ensures Clean(w1 + q1 + core + q2 + w2) == core
  {
    var x := q1 + core + q2;
    assert '"' !in Whitespace;
    assert x[0] !in Whitespace by {
      if q1 != [] { assert x[0] == q1[0]; } else { assert x[0] == core[0]; }
    }
    assert x[|x| - 1] !in Whitespace by {
      if q2 != [] { assert x[|x| - 1] == q2[|q2| - 1]; } else { assert x[|x| - 1] == core[|core| - 1]; }
    }
    calc {
      Clean(w1 + q1 + core + q2 + w2);
      { assert w1 + q1 + core + q2 + w2 == w1 + x + w2; }
      Strip(Trim(w1 + x + w2), Quote);
      { StripIgnoresSurrounding(w1, x, w2, Whitespace); }
      Strip(Trim(x), Quote);
      { StripKeeps(x, Whitespace); }
      Strip(x, Quote);
      { StripIgnoresSurrounding(q1, core, q2, Quote); }
      Strip(core, Quote);
      { StripKeeps(core, Quote); }
      core;
    }
  }

  /** The user message of the rephrase request. */
  function RephrasePrompt(goal: string, failed: string): string {
    "Original research goal: " + goal + "\nFailed query: " + failed + "\nSuggest a better search query."
  }

  // ---------------------------------------------------------------- log lines

  function AttemptLine(attempt: nat, q: string): string {
    "Researcher attempt " + NatToString(attempt) + ": '" + q + "'"
  }

  function GoodLine(q: string): string {
    "Researcher: good results found for '" + q + "'"
  }

  const PoorLine: string := "Researcher: poor results, asking Planner to rephrase"

  function ExhaustedLine(q: string): string {
    "Researcher: all retries exhausted for '" + q + "'"
  }

  // ---------------------------------------------------------------- the retry loop

  /** What does not change during one `research_async` call: the sub-query,
      the session's query (the goal every rephrase is anchored to), the
      retry bound, and the scripts of the search service and the model. */
  datatype Setup = Setup(query: string, goal: string, maxRetries: int, net: seq<HttpOutcome>, llm: seq<Reply>)

  /** What the loop has produced so far: log lines, queries searched,
      rephrase prompts sent, and the rephrase tokens. */
  datatype Trace = Trace(logs: seq<string>, searched: seq<string>, prompts: seq<string>, inTokens: nat, outTokens: nat)

  const NoTrace: Trace := Trace([], [], [], 0, 0)

  /** How the loop ended: a useful result set, every attempt spent, or an
      exception from the rephrase call. */
  datatype End = Found | Exhausted | Crashed(error: string)

  datatype Run = Run(trace: Trace, attempts: nat, query: string, results: seq<SearchResult>, end: End)

  /** What one pass through the loop body leaves: the finished run, or the
      query and trace the next pass starts from. */
  datatype Pass = Stop(run: Run) | Next(query: string, trace: Trace)

  /** One pass, with `n` attempts made so far and `current` the query for
      attempt `n + 1`, which takes the `n`-th outcome of the search script;
      a rephrase takes the model's next unused reply. */
  function Iterate(p: Setup, n: nat, current: string, tr: Trace): Pass
    requires n <= p.maxRetries
  {
    var a := n + 1;
    var results := Interpret(At(p.net, n, TransportError));
    var tr1 := tr.(logs := tr.logs + [AttemptLine(a, current)], searched := tr.searched + [current]);
    if IsUseful(results, DefaultThreshold) then
      Stop(Run(tr1.(logs := tr1.logs + [GoodLine(current)]), a, current, results, Found))
    else if a <= p.maxRetries then
      var tr2 := tr1.(logs := tr1.logs + [PoorLine], prompts := tr1.prompts + [RephrasePrompt(p.goal, current)]);
      match At(p.llm, |tr.prompts|, Raised(Unscripted))
      case Raised(e) => Stop(Run(tr2, a, current, [], Crashed(e)))
      case Answer(c) =>
        Next(Clean(c.text), tr2.(inTokens := tr2.inTokens + c.promptTokens, outTokens := tr2.outTokens + c.completionTokens))
    else
      Next(current, tr1)
  }

  /** The retry loop from the point where `n` attempts have been made. */
  function Loop(p: Setup, n: nat, current: string, tr: Trace): Run
    decreases if n <= p.maxRetries then p.maxRetries + 1 - n else 0
  {
    if n > p.maxRetries then
      Run(tr.(logs := tr.logs + [ExhaustedLine(p.query)]), n, p.query, [], Exhausted)
    else
      match Iterate(p, n, current, tr)
      case Stop(r) => r
      case Next(q, tr') => Loop(p, n + 1, q, tr')
  }

  /** What a pass has done so far, whether or not it ended the run. */
  function PassTrace(x: Pass): Trace {
    match x
    case Stop(r) => r.trace
    case Next(_, t) => t
  }

  /** A whole `research_async` call. */
  function ResearchRun(p: Setup): Run {
    Loop(p, 0, p.query, NoTrace)
  }

  /** The session after the call: the loop's log lines; on success the
      output is appended to `raw_results` and the rephrase tokens and calls
      are reported to the tracker at clock reading `t`; on exhaustion the
      empty output is appended and nothing is reported; a failed rephrase
      propagates. */
  function ResearchEffect(s: SessionState, p: Setup, t: int, rates: Rates): Outcome<ResearchOutput> {
    var r := ResearchRun(p);
    var s1 := s.(logs := s.logs + r.trace.logs);
    match r.end
    case Crashed(e) => Outcome(s1, Failure(e))
    case Found =>
      var out := ResearchOutput(r.query, r.results, true, r.attempts);
      var calls := if r.attempts >= 1 then r.attempts - 1 else 0;
      Outcome(EndAgent(s1.(rawResults := s1.rawResults + [out]), Researcher, r.trace.inTokens, r.trace.outTokens, calls, t, rates),
              Success(out))
    case Exhausted =>
      var out := ResearchOutput(p.query, [], false, r.attempts);
      Outcome(s1.(rawResults := s1.rawResults + [out]), Success(out))
  }

  // ---------------------------------------------------------------- properties

  /** The search of attempt `a` (counted from 1) is judged useful. */
  predicate UsefulAt(net: seq<HttpOutcome>, a: nat) {
    a >= 1 && IsUseful(Interpret(At(net, a - 1, TransportError)), DefaultThreshold)
  }

  /** The query the `j`-th rephrase reply (counted from 0) yields. */
  function RephrasedTo(llm: seq<Reply>, j: nat): string {
    match At(llm, j, Raised(Unscripted))
    case Answer(c) => Clean(c.text)
    case Raised(_) => []
  }

  /** What one pass does: it searches once; it stops on a useful search,
      or on a failed rephrase when retries remain; otherwise it goes on,
      with the rephrased query and its tokens when retries remain and with
      the same query and no request when they do not. */
  lemma IterateFacts(p: Setup, n: nat, current: string, tr: Trace)
    requires n <= p.maxRetries
    ensures var it := Iterate(p, n, current, tr);
      && (it.Stop? ==>
            && it.run.attempts == n + 1 && |it.run.trace.searched| == |tr.searched| + 1 && !it.run.end.Exhausted?
            && (it.run.end.Found? ==>
                  && UsefulAt(p.net, n + 1) && it.run.query == current
                  && it.run.results == Interpret(At(p.net, n, TransportError))
                  && it.run.trace.prompts == tr.prompts
                  && it.run.trace.inTokens == tr.inTokens && it.run.trace.outTokens == tr.outTokens)
            && (it.run.end.Crashed? ==>
                  && !UsefulAt(p.net, n + 1) && n + 1 <= p.maxRetries
                  && !AnsweredAt(p.llm, |tr.prompts|) && |it.run.trace.prompts| == |tr.prompts| + 1))
      && (it.Next? ==>
            && !UsefulAt(p.net, n + 1) && |it.trace.searched| == |tr.searched| + 1
            && (n + 1 <= p.maxRetries ==>
                  && AnsweredAt(p.llm, |tr.prompts|) && it.query == RephrasedTo(p.llm, |tr.prompts|)
                  && |it.trace.prompts| == |tr.prompts| + 1
                  && it.trace.inTokens == tr.inTokens + InputAt(p.llm, |tr.prompts|)
                  && it.trace.outTokens == tr.outTokens + OutputAt(p.llm, |tr.prompts|))
            && (n + 1 > p.maxRetries ==> it.trace.prompts == tr.prompts))
  {
  }

  /** From any point with `n` attempts made, the attempt count stays
      within the bound, each attempt searches once, and a rephrase is sent
      after every failed attempt that has retries left and after no other. */
  lemma {:induction false} LoopCounts(p: Setup, n: nat, current: string, tr: Trace)
    requires n <= p.maxRetries + 1
    ensures var r := Loop(p, n, current, tr);
      && n <= r.attempts <= p.maxRetries + 1
      && |r.trace.searched| == |tr.searched| + (r.attempts - n)
      && (r.end.Found? ==> n < r.attempts && |r.trace.prompts| == |tr.prompts| + (r.attempts - 1 - n))
      && (r.end.Exhausted? ==>
            r.attempts == p.maxRetries + 1 && r.query == p.query && r.results == []
            && |r.trace.prompts| == |tr.prompts| + (if n <= p.maxRetries then p.maxRetries - n else 0))
      && (r.end.Crashed? ==> n < r.attempts <= p.maxRetries && |r.trace.prompts| == |tr.prompts| + (r.attempts - n))
    decreases if n <= p.maxRetries then p.maxRetries + 1 - n else 0
  {
    if n <= p.maxRetries {
      IterateFacts(p, n, current, tr);
      match Iterate(p, n, current, tr)
      case Stop(r) =>
      case Next(q, tr') =>
        LoopCounts(p, n + 1, q, tr');
    }
  }

  /** Every attempt after the `n`-th and before the last one failed its
      search and had its rephrase answered. */
  predicate EarlierFailed(p: Setup, n: nat, r: Run) {
    forall j :: n < j < r.attempts ==> !UsefulAt(p.net, j) && AnsweredAt(p.llm, j - 1)
  }

  lemma EarlierFailedStep(p: Setup, n: nat, r: Run)
    requires EarlierFailed(p, n + 1, r) && r.attempts >= n + 1
    requires r.attempts > n + 1 ==> !UsefulAt(p.net, n + 1) && AnsweredAt(p.llm, n)
    ensures EarlierFailed(p, n, r)
  {
    forall j | n < j < r.attempts
      ensures !UsefulAt(p.net, j) && AnsweredAt(p.llm, j - 1)
    {
      if j > n + 1 {
        assert n + 1 < j < r.attempts;
      }
    }
  }

  lemma {:induction false} LoopEarlier(p: Setup, n: nat, current: string, tr: Trace)
    requires n <= p.maxRetries + 1
    requires n <= p.maxRetries ==> |tr.prompts| == n
    ensures EarlierFailed(p, n, Loop(p, n, current, tr))
    decreases if n <= p.maxRetries then p.maxRetries + 1 - n else 0
  {
    if n <= p.maxRetries {
      IterateFacts(p, n, current, tr);
      var it := Iterate(p, n, current, tr);
      if it.Stop? {
        assert Loop(p, n, current, tr) == it.run;
      } else {
        LoopEarlier(p, n + 1, it.query, it.trace);
        LoopCounts(p, n + 1, it.query, it.trace);
        var r := Loop(p, n + 1, it.query, it.trace);
        assert Loop(p, n, current, tr) == r;
        if r.attempts > n + 1 {
          assert n + 1 <= p.maxRetries;
        }
        EarlierFailedStep(p, n, r);
      }
    }
  }

  /** The last attempt's search was useful exactly when the run succeeded;
      a crash comes from the last attempt's rephrase request. */
  predicate LastAttempt(p: Setup, n: nat, r: Run) {
    && (r.end.Found? ==> UsefulAt(p.net, r.attempts))
    && (n < r.attempts && !r.end.Found? ==> !UsefulAt(p.net, r.attempts))
    && (r.end.Crashed? ==> r.attempts >= 1 && !AnsweredAt(p.llm, r.attempts - 1))
  }

  lemma LastAttemptStep(p: Setup, n: nat, r: Run)
    requires LastAttempt(p, n + 1, r) && r.attempts >= n + 1
    requires r.attempts == n + 1 ==> !UsefulAt(p.net, n + 1)
    ensures LastAttempt(p, n, r)
  {
  }

  lemma {:induction false} LoopLast(p: Setup, n: nat, current: string, tr: Trace)
    requires n <= p.maxRetries + 1
    requires n <= p.maxRetries ==> |tr.prompts| == n
    ensures LastAttempt(p, n, Loop(p, n, current, tr))
    decreases if n <= p.maxRetries then p.maxRetries + 1 - n else 0
  {
    if n <= p.maxRetries {
      IterateFacts(p, n, current, tr);
      var it := Iterate(p, n, current, tr);
      if it.Stop? {
        assert Loop(p, n, current, tr) == it.run;
        assert LastAttempt(p, n, it.run);
      } else {
        LoopLast(p, n + 1, it.query, it.trace);
        LoopCounts(p, n + 1, it.query, it.trace);
        var r := Loop(p, n + 1, it.query, it.trace);
        assert Loop(p, n, current, tr) == r;
        LastAttemptStep(p, n, r);
      }
    }
  }

  /** A successful run ends with the query and results of its last attempt,
      having counted the tokens of every rephrase reply it used after the
      `n`-th. */
  predicate FoundEnd(p: Setup, n: nat, current: string, tr: Trace, r: Run) {
    FoundQuery(p, n, current, r) && FoundTokens(p, n, tr, r)
  }

  predicate FoundQuery(p: Setup, n: nat, current: string, r: Run) {
    r.end.Found? && r.attempts >= 1 ==>
      && r.results == Interpret(At(p.net, r.attempts - 1, TransportError))
      && r.query == (if r.attempts <= n + 1 then current else RephrasedTo(p.llm, r.attempts - 2))
  }

  predicate FoundTokens(p: Setup, n: nat, tr: Trace, r: Run) {
    r.end.Found? && r.attempts >= 1 ==>
      && r.trace.inTokens == tr.inTokens + InputSum(p.llm, n, r.attempts - 1)
      && r.trace.outTokens == tr.outTokens + OutputSum(p.llm, n, r.attempts - 1)
  }

  lemma FoundQueryStep(p: Setup, n: nat, current: string, q: string, r: Run)
    requires FoundQuery(p, n + 1, q, r)
    requires r.end.Found? ==> r.attempts > n + 1 && q == RephrasedTo(p.llm, n)
    ensures FoundQuery(p, n, current, r)
  {
  }

  lemma FoundTokensStep(p: Setup, n: nat, tr: Trace, tr': Trace, r: Run)
    requires FoundTokens(p, n + 1, tr', r)
    requires r.end.Found? ==> r.attempts > n + 1
    requires tr'.inTokens == tr.inTokens + InputAt(p.llm, n) && tr'.outTokens == tr.outTokens + OutputAt(p.llm, n)
    ensures FoundTokens(p, n, tr, r)
  {
    if r.end.Found? {
      SumsShift(p.llm, n, r.attempts - 1);
    }
  }

  lemma {:induction false} LoopFound(p: Setup, n: nat, current: string, tr: Trace)
    requires n <= p.maxRetries + 1
    requires n <= p.maxRetries ==> |tr.prompts| == n
    ensures FoundEnd(p, n, current, tr, Loop(p, n, current, tr))
    decreases if n <= p.maxRetries then p.maxRetries + 1 - n else 0
  {
    if n <= p.maxRetries {
      IterateFacts(p, n, current, tr);
      var it := Iterate(p, n, current, tr);
      if it.Stop? {
        assert Loop(p, n, current, tr) == it.run;
      } else {
        LoopFound(p, n + 1, it.query, it.trace);
        LoopCounts(p, n + 1, it.query, it.trace);
        var r := Loop(p, n + 1, it.query, it.trace);
        assert Loop(p, n, current, tr) == r;
        if r.end.Found? {
          assert n + 1 <= p.maxRetries;
          FoundTokensStep(p, n, tr, it.trace, r);
        }
        FoundQueryStep(p, n, current, it.query, r);
      }
    }
  }

  /** All that the loop lemmas say about a whole run. */
  lemma RunFacts(p: Setup)
    requires p.maxRetries >= -1
    ensures var r := ResearchRun(p);
      && r.attempts <= p.maxRetries + 1 && |r.trace.searched| == r.attempts
      && (r.end.Found? ==> 1 <= r.attempts && |r.trace.prompts| == r.attempts - 1)
      && (r.end.Exhausted? ==>
            r.attempts == p.maxRetries + 1 && r.query == p.query && r.results == []
            && |r.trace.prompts| == (if p.maxRetries >= 0 then p.maxRetries else 0))
      && (r.end.Crashed? ==> 1 <= r.attempts <= p.maxRetries && |r.trace.prompts| == r.attempts)
      && EarlierFailed(p, 0, r) && LastAttempt(p, 0, r) && FoundEnd(p, 0, p.query, NoTrace, r)
  {
    LoopCounts(p, 0, p.query, NoTrace);
    LoopEarlier(p, 0, p.query, NoTrace);
    LoopLast(p, 0, p.query, NoTrace);
    LoopFound(p, 0, p.query, NoTrace);
  }

  /** The returned attempt count lies in 1..max_retries + 1, with one search
      per attempt, whenever the retry bound is not negative. */
  lemma AttemptsBounded(p: Setup)
    requires p.maxRetries >= 0
    ensures var r := ResearchRun(p);
      1 <= r.attempts <= p.maxRetries + 1 && |r.trace.searched| == r.attempts
  {
    RunFacts(p);
  }

  /** A run that succeeds does so at the first attempt whose search is
      useful; its output carries that attempt's query and results, it sent
      `attempts - 1` rephrase requests and counted their tokens. */
  lemma FoundIsFirstUseful(p: Setup)
    ensures var r := ResearchRun(p);
      r.end.Found? ==>
        && 1 <= r.attempts <= p.maxRetries + 1 && UsefulAt(p.net, r.attempts)
        && (forall j :: 1 <= j < r.attempts ==> !UsefulAt(p.net, j) && AnsweredAt(p.llm, j - 1))
        && r.query == (if r.attempts <= 1 then p.query else RephrasedTo(p.llm, r.attempts - 2))
        && r.results == Interpret(At(p.net, r.attempts - 1, TransportError))
        && |r.trace.prompts| == r.attempts - 1
        && r.trace.inTokens == InputSum(p.llm, 0, r.attempts - 1)
        && r.trace.outTokens == OutputSum(p.llm, 0, r.attempts - 1)
  {
    if p.maxRetries >= -1 {
      RunFacts(p);
      var r := ResearchRun(p);
      if r.end.Found? {
        assert FoundQuery(p, 0, p.query, r) && FoundTokens(p, 0, NoTrace, r);
        assert EarlierFailed(p, 0, r) && LastAttempt(p, 0, r);
      }
    }
  }

  /** Conversely, the first useful attempt, reached with every rephrase
      answered, ends the run successfully at that attempt. */
  lemma FirstUsefulIsFound(p: Setup, k: nat)
    requires 1 <= k <= p.maxRetries + 1 && UsefulAt(p.net, k)
    requires forall j :: 1 <= j < k ==> !UsefulAt(p.net, j) && AnsweredAt(p.llm, j - 1)
    ensures ResearchRun(p).end.Found? && ResearchRun(p).attempts == k
  {
    RunFacts(p);
    var r := ResearchRun(p);
    assert EarlierFailed(p, 0, r) && LastAttempt(p, 0, r);
    assert r.attempts > k ==> !UsefulAt(p.net, k);
  }

  /** A run that is exhausted made `max_retries + 1` attempts, none of them
      useful, sent `max_retries` rephrase requests, and returns the original
      query with no results. */
  lemma ExhaustedFacts(p: Setup)
    requires p.maxRetries >= 0
    ensures var r := ResearchRun(p);
      r.end.Exhausted? ==>
        && r.attempts == p.maxRetries + 1 && r.query == p.query && r.results == []
        && (forall j :: 1 <= j <= p.maxRetries + 1 ==> !UsefulAt(p.net, j))
        && |r.trace.prompts| == p.maxRetries
  {
    RunFacts(p);
    var r := ResearchRun(p);
    if r.end.Exhausted? {
      assert EarlierFailed(p, 0, r) && LastAttempt(p, 0, r);
    }
  }

  /** Conversely, with no useful search and every rephrase answered, the run
      is exhausted. */
  lemma NoUsefulIsExhausted(p: Setup)
    requires p.maxRetries >= 0
    requires forall j :: 1 <= j <= p.maxRetries + 1 ==> !UsefulAt(p.net, j)
    requires forall j :: 0 <= j < p.maxRetries ==> AnsweredAt(p.llm, j)
    ensures ResearchRun(p).end.Exhausted?
  {
    RunFacts(p);
    var r := ResearchRun(p);
    assert LastAttempt(p, 0, r);
  }

  /** A run ends in an exception exactly when a rephrase request fails
      before any search was useful; that request is the last thing sent. */
  lemma CrashedFacts(p: Setup)
    ensures var r := ResearchRun(p);
      r.end.Crashed? ==>
        && 1 <= r.attempts <= p.maxRetries
        && (forall j :: 1 <= j <= r.attempts ==> !UsefulAt(p.net, j))
        && !AnsweredAt(p.llm, r.attempts - 1)
        && |r.trace.prompts| == r.attempts
  {
    if p.maxRetries >= -1 {
      RunFacts(p);
      var r := ResearchRun(p);
      if r.end.Crashed? {
        assert EarlierFailed(p, 0, r) && LastAttempt(p, 0, r);
      }
    }
  }

  /** With a negative retry bound the loop body never runs: no search, zero
      attempts, and the exhausted output. */
  lemma NegativeRetriesSearchNothing(p: Setup)
    requires p.maxRetries < 0
    ensures var r := ResearchRun(p);
      r.end.Exhausted? && r.attempts == 0 && r.trace.searched == [] && r.query == p.query
  {
  }

  /** Every call that returns appends exactly one record to `raw_results`,
      equal to what it returns, after the earlier ones; a crash appends
      nothing. Only a success reports to the tracker, with `attempts - 1`
      calls; the statuses are never touched. */
  lemma ResearchEffectFacts(s: SessionState, p: Setup, t: int, rates: Rates)
    ensures var o := ResearchEffect(s, p, t, rates);
      var r := ResearchRun(p);
      && o.state.logs == s.logs + r.trace.logs
      && o.state.statuses == s.statuses
      && (o.result.Success? ==> o.state.rawResults == s.rawResults + [o.result.value])
      && (o.result.Failure? ==> o.state.rawResults == s.rawResults && r.end.Crashed?)
      && (r.end.Found? ==>
            r.attempts >= 1 && o.result == Success(ResearchOutput(r.query, r.results, true, r.attempts))
            && o.state.metrics == EndAgent(s, Researcher, r.trace.inTokens, r.trace.outTokens, r.attempts - 1, t, rates).metrics)
      && (r.end.Exhausted? ==>
            o.result == Success(ResearchOutput(p.query, [], false, r.attempts)) && o.state.metrics == s.metrics)
      && o.state.(logs := s.logs, rawResults := s.rawResults, metrics := s.metrics) == s
  {
    FoundIsFirstUseful(p);
  }

  // ---------------------------------------------------------------- the agent

  class ResearcherAgent {
    const llm: LanguageModel
    const search: WebSearchTool
    const model: string
    const maxRetries: int

    constructor (llm: LanguageModel, search: WebSearchTool, model: string, maxRetries: int)
      ensures this.llm == llm && this.search == search && this.model == model && this.maxRetries == maxRetries
    {
      this.llm := llm;
      this.search := search;
      this.model := model;
      this.maxRetries := maxRetries;
    }

    /** `_ask_planner_to_rephrase`: one request; the cleaned reply and its
      token counts, or the exception. */
    method Rephrase(failed: string, goal: string) returns (r: Reply, next: string)
      modifies llm
      ensures r == At(old(llm.replies), 0, Raised(Unscripted))
      ensures r.Answer? ==> next == Clean(r.completion.text)
      ensures llm.replies == Drop(old(llm.replies), 1) && llm.streams == old(llm.streams)
      ensures llm.prompts == old(llm.prompts) + [RephrasePrompt(goal, failed)]
    {
      r := llm.Complete(RephrasePrompt(goal, failed));
      next := if r.Answer? then Clean(r.completion.text) else [];
    }

    /** The retry branch of a pass: log the poor result and ask for a
        rephrased query, whose tokens are added to the running totals. */
    method Retry(ghost p: Setup, current: string, ghost t: Trace, inTokens0: nat, outTokens0: nat,
                 ghost s0: SessionState, ghost pr0: seq<string>, session: ResearchSession)
      returns (ghost t': Trace, crash: Option<string>, next: string, inTokens: nat, outTokens: nat)
      requires p.goal == session.query && t.inTokens == inTokens0 && t.outTokens == outTokens0
      requires session.State() == s0.(logs := s0.logs + t.logs)
      requires llm.replies == Drop(p.llm, |t.prompts|) && llm.prompts == pr0 + t.prompts
      modifies session, llm
      ensures var t2 := t.(logs := t.logs + [PoorLine], prompts := t.prompts + [RephrasePrompt(p.goal, current)]);
        match At(p.llm, |t.prompts|, Raised(Unscripted))
        case Raised(e) => crash == Some(e) && t' == t2
        case Answer(c) =>
          crash == None && next == Clean(c.text)
          && t' == t2.(inTokens := t2.inTokens + c.promptTokens, outTokens := t2.outTokens + c.completionTokens)
      ensures t'.inTokens == inTokens && t'.outTokens == outTokens
      ensures session.State() == s0.(logs := s0.logs + t'.logs)
      ensures llm.replies == Drop(p.llm, |t'.prompts|) && llm.prompts == pr0 + t'.prompts
      ensures llm.streams == old(llm.streams)
    {
      DropStep(p.llm, |t.prompts|, Raised(Unscripted));
      session.Log(PoorLine);
      AppendOne(s0.logs, t.logs, PoorLine);
      var reply;
      reply, next := Rephrase(current, session.query);
      t' := t.(logs := t.logs + [PoorLine], prompts := t.prompts + [RephrasePrompt(p.goal, current)]);
      AppendOne(pr0, t.prompts, RephrasePrompt(p.goal, current));
      inTokens, outTokens, crash := inTokens0, outTokens0, None;
      if reply.Raised? {
        crash := Some(reply.error);
      } else {
        inTokens := inTokens + reply.completion.promptTokens;
        outTokens := outTokens + reply.completion.completionTokens;
        t' := t'.(inTokens := inTokens, outTokens := outTokens);
      }
    }

    /** One pass of the retry loop of `research_async`: attempt `n + 1`,
        started with `current` as the query and `tr` as what the earlier
        passes did. */
    method Attempt(ghost p: Setup, n: nat, current: string, ghost tr: Trace, inTokens0: nat, outTokens0: nat,
                   ghost s0: SessionState, ghost q0: seq<string>, ghost pr0: seq<string>, session: ResearchSession)
      returns (ghost it: Pass, found: bool, results: seq<SearchResult>, crash: Option<string>, next: string,
               inTokens: nat, outTokens: nat)
      requires n <= p.maxRetries == maxRetries && p.goal == session.query
      requires tr.inTokens == inTokens0 && tr.outTokens == outTokens0 && |tr.searched| == n
      requires session.State() == s0.(logs := s0.logs + tr.logs)
      requires search.engine.script == Drop(p.net, n) && search.engine.queries == q0 + tr.searched
      requires llm.replies == Drop(p.llm, |tr.prompts|) && llm.prompts == pr0 + tr.prompts
      modifies session, search.engine, llm
      ensures it == Iterate(p, n, current, tr)
      ensures var t := PassTrace(it);
        && t.inTokens == inTokens && t.outTokens == outTokens && |t.searched| == n + 1
        && session.State() == s0.(logs := s0.logs + t.logs)
        && search.engine.script == Drop(p.net, n + 1) && search.engine.queries == q0 + t.searched
        && llm.replies == Drop(p.llm, |t.prompts|) && llm.prompts == pr0 + t.prompts
        && llm.streams == old(llm.streams)
        && (found ==> it == Stop(Run(t, n + 1, current, results, Found)))
        && (crash.Some? ==> !found && it == Stop(Run(t, n + 1, current, [], Crashed(crash.value))))
        && (!found && crash.None? ==> it == Next(next, t))
    {
      it := Iterate(p, n, current, tr);
      DropStep(p.net, n, TransportError);
      var attempt := n + 1;
      inTokens, outTokens, crash, next := inTokens0, outTokens0, None, current;
      session.Log(AttemptLine(attempt, current));
      AppendOne(s0.logs, tr.logs, AttemptLine(attempt, current));
      results := search.SearchAsync(current);
      ghost var t := tr.(logs := tr.logs + [AttemptLine(attempt, current)], searched := tr.searched + [current]);
      AppendOne(q0, tr.searched, current);
      found := IsUseful(results, DefaultThreshold);
      if found {
        session.Log(GoodLine(current));
        AppendOne(s0.logs, t.logs, GoodLine(current));
        t := t.(logs := t.logs + [GoodLine(current)]);
        assert it == Stop(Run(t, attempt, current, results, Found));
        return;
      }
      if attempt <= maxRetries {
        t, crash, next, inTokens, outTokens := Retry(p, current, t, inTokens, outTokens, s0, pr0, session);
        if crash.Some? {
          assert it == Stop(Run(t, attempt, current, [], Crashed(crash.value)));
          return;
        }
      }
      assert it == Next(next, t);
    }

    /** The retry loop of `research_async`, up to the point where the
        outcome is known. */
    method RetryLoop(ghost p: Setup, query: string, session: ResearchSession)
      returns (ghost r: Run, found: bool, crash: Option<string>, current: string, results: seq<SearchResult>,
               attempts: nat, inTokens: nat, outTokens: nat)
      requires p.query == query && p.goal == session.query && p.maxRetries == maxRetries
      requires p.net == search.engine.script && p.llm == llm.replies
      modifies session, search.engine, llm
      ensures r == ResearchRun(p)
      ensures r.attempts == attempts && r.trace.inTokens == inTokens && r.trace.outTokens == outTokens
      ensures r.query == current && r.results == results
      ensures found <==> r.end.Found?
      ensures found ==> attempts >= 1
      ensures crash.Some? <==> r.end.Crashed?
      ensures crash.Some? ==> r.end == Crashed(crash.value)
      ensures session.State() == old(session.State()).(logs := old(session.logs) + r.trace.logs)
      ensures search.engine.script == Drop(p.net, |r.trace.searched|)
      ensures search.engine.queries == old(search.engine.queries) + r.trace.searched
      ensures llm.replies == Drop(p.llm, |r.trace.prompts|) && llm.streams == old(llm.streams)
      ensures llm.prompts == old(llm.prompts) + r.trace.prompts
    {
      ghost var s0, q0, pr0 := session.State(), search.engine.queries, llm.prompts;
      current, attempts, inTokens, outTokens := query, 0, 0, 0;
      ghost var tr := NoTrace;
      while attempts <= maxRetries
        invariant Loop(p, attempts, current, tr) == ResearchRun(p)
        invariant tr.inTokens == inTokens && tr.outTokens == outTokens && |tr.searched| == attempts
        invariant session.State() == s0.(logs := s0.logs + tr.logs)
        invariant search.engine.script == Drop(p.net, attempts) && search.engine.queries == q0 + tr.searched
        invariant llm.replies == Drop(p.llm, |tr.prompts|) && llm.prompts == pr0 + tr.prompts
        invariant llm.streams == old(llm.streams)
        decreases maxRetries + 1 - attempts
      {
        ghost var it;
        var next;
        it, found, results, crash, next, inTokens, outTokens :=
          Attempt(p, attempts, current, tr, inTokens, outTokens, s0, q0, pr0, session);
        attempts := attempts + 1;
        tr := PassTrace(it);
        if found || crash.Some? {
          r := Run(tr, attempts, current, if found then results else [], if found then Found else Crashed(crash.value));
          if !found {
            results := [];
          }
          return;
        }
        current := next;
      }
      session.Log(ExhaustedLine(query));
      AppendOne(s0.logs, tr.logs, ExhaustedLine(query));
      r := Run(tr.(logs := tr.logs + [ExhaustedLine(p.query)]), attempts, query, [], Exhausted);
      found, crash, current, results := false, None, query, [];
    }

    /** `research_async`. */
    method Research(query: string, session: ResearchSession, tracker: Tracker) returns (out: Result<ResearchOutput>)
      requires tracker.session == session
      modifies session, tracker.clock, search.engine, llm
      ensures var p := Setup(query, session.query, maxRetries, old(search.engine.script), old(llm.replies));
        var r := ResearchRun(p);
        var o := ResearchEffect(old(session.State()), p, tracker.clock.reading(old(tracker.clock.ticks)), tracker.pricing);
        && session.State() == o.state && out == o.result
        && search.engine.script == Drop(p.net, |r.trace.searched|)
        && search.engine.queries == old(search.engine.queries) + r.trace.searched
        && llm.replies == Drop(p.llm, |r.trace.prompts|) && llm.streams == old(llm.streams)
        && llm.prompts == old(llm.prompts) + r.trace.prompts
        && tracker.clock.ticks == old(tracker.clock.ticks) + (if r.end.Found? then 1 else 0)
    {
      ghost var p := Setup(query, session.query, maxRetries, search.engine.script, llm.replies);
      ghost var r;
      var found, crash, current, results, attempts, inTokens, outTokens;
      r, found, crash, current, results, attempts, inTokens, outTokens := RetryLoop(p, query, session);
      if found {
        var output := ResearchOutput(current, results, true, attempts);
        session.rawResults := session.rawResults + [output];
        tracker.End(Researcher, inTokens, outTokens, attempts - 1);
        return Success(output);
      }
      if crash.Some? {
        return Failure(crash.value);
      }
      var output := ResearchOutput(query, [], false, attempts);
      session.rawResults := session.rawResults + [output];
      out := Success(output);
    }
  }
}
