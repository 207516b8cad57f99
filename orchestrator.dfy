/** core/orchestrator.py: the orchestrator builds the agents once and, for
    each research question, runs the planner, the researchers batch by batch,
    the analyst and the writer against one shared session, turning any
    exception into a failed session and always stamping completion. */
module Orchestration {
  import opened Wrappers
  import opened Seqs
  import opened Text
  import opened Session
  import opened Oracles
  import opened Monitoring
  import opened WebSearch
  import opened Planner
  import opened Researcher
  import opened Analyst
  import opened Writer
  import opened Configuration
  import opened Batching
  import opened Phases
  import opened PhaseFacts

  // ---------------------------------------------------------------- construction

  /** The keyword parameters `WebSearchTool.__init__` declares. */
  const SearchToolParameters: set<string> := {"api_key", "max_results"}

  /** The first keyword argument a call passes that the callee does not
      declare. */
  function UnexpectedKeyword(declared: set<string>, passed: seq<string>): (r: Option<string>)
    ensures r.None? <==> forall k :: k in passed ==> k in declared
    ensures r.Some? ==> r.value in passed && r.value !in declared
  {
    if passed == [] then None
    else if passed[0] !in declared then Some(passed[0])
    else UnexpectedKeyword(declared, passed[1..])
  }

  function KeywordError(k: string): string {
    "WebSearchTool.__init__() got an unexpected keyword argument '" + k + "'"
  }

  /** `__init__`: the settings with the override applied, or the
      `TypeError` the search tool's construction raises when it is passed
      keywords it does not declare. */
  function Init(s: Settings, modelOverride: Option<string>, passed: seq<string>): (r: Result<Settings>)
    ensures r.Success? <==> forall k :: k in passed ==> k in SearchToolParameters
    ensures r.Success? ==> r.value == Configured(s, modelOverride)
  {
    match UnexpectedKeyword(SearchToolParameters, passed)
    case Some(k) => Failure(KeywordError(k))
    case None => Success(Configured(s, modelOverride))
  }

  /** The keywords the search tool is built with, as written. */
  const PassedAsWritten: seq<string> := ["api_key", "max_results", "cache"]

  /** The keywords without the cache, which the tool has no use for. */
  const PassedCorrected: seq<string> := ["api_key", "max_results"]

  /** As written, constructing an orchestrator always raises. */
  lemma InitAsWrittenRaises(s: Settings, modelOverride: Option<string>)
    ensures Init(s, modelOverride, PassedAsWritten) == Failure(KeywordError("cache"))
  {
    assert PassedAsWritten[1..] == ["max_results", "cache"] && PassedAsWritten[1..][1..] == ["cache"];
  }

  /** Without the stray keyword it yields the overridden settings. */
  lemma InitCorrectedBuilds(s: Settings, modelOverride: Option<string>)
    ensures Init(s, modelOverride, PassedCorrected) == Success(Configured(s, modelOverride))
  {
  }

  // ---------------------------------------------------------------- the orchestrator

  class Orchestrator {
    const settings: Settings
    const llm: LanguageModel
    const search: WebSearchTool
    const clock: Clock
    const planner: PlannerAgent
    const analyst: AnalystAgent
    const writer: WriterAgent

    /** The agents share one model client and the configured settings. */
    predicate Wired() {
      && planner.llm == llm && analyst.llm == llm && writer.llm == llm
      && planner.model == settings.model && analyst.model == settings.model && writer.model == settings.model
      && writer.maxTokens == settings.maxOutputTokens
      && search.apiKey == settings.tavilyKey && search.maxResults == settings.maxResults
    }

    /** `tracker` watches `session` on this orchestrator's clock, priced
        for the configured model. */
    predicate Serves(session: ResearchSession, tracker: Tracker) {
      tracker.session == session && tracker.clock == clock && tracker.pricing == RatesFor(settings.model)
    }

    function Config(): Env {
      Env(settings.model, settings.maxRetries, settings.maxParallel, planner.literal, analyst.toFloat, clock.reading)
    }

    function WorldOf(session: ResearchSession): World
      reads session, search.engine, llm, clock
    {
      World(session.State(), search.engine.script, llm.replies, llm.streams, clock.ticks)
    }

    /** `__init__` without the stray `cache` keyword; the unused
        `SearchCache` is not built. */
    constructor (settings: Settings, modelOverride: Option<string>, llm: LanguageModel, engine: SearchEngine, clock: Clock,
                 literal: string -> Option<seq<string>>, toFloat: string -> Option<real>)
      ensures this.settings == Configured(settings, modelOverride) && Wired()
      ensures this.llm == llm && this.clock == clock && search.engine == engine
      ensures planner.literal == literal && analyst.toFloat == toFloat
    {
      var s := Configured(settings, modelOverride);
      this.settings := s;
      this.llm := llm;
      this.clock := clock;
      search := new WebSearchTool(s.tavilyKey, s.maxResults, engine);
      planner := new PlannerAgent(llm, s.model, literal);
      analyst := new AnalystAgent(llm, s.model, toFloat);
      writer := new WriterAgent(llm, s.model, s.maxOutputTokens);
    }

    method RunPlanner(session: ResearchSession, tracker: Tracker) returns (err: Option<string>)
      requires Wired() && Serves(session, tracker)
      modifies session, clock, llm
      ensures var st := PlanStage(Config(), old(WorldOf(session)));
        WorldOf(session) == st.w && err == st.error
    {
      var out := planner.Plan(session, tracker);
      err := ErrorOf(out);
    }

    /** One `ResearcherAgent`, built for the query and run to completion. */
    method RunOne(session: ResearchSession, tracker: Tracker, q: string) returns (err: Option<string>)
      requires Wired() && Serves(session, tracker)
      modifies session, clock, llm, search.engine
      ensures var st := ResearchOne(Config(), old(WorldOf(session)), q);
        WorldOf(session) == st.w && err == st.error
    {
      var researcher := new ResearcherAgent(llm, search, settings.model, settings.maxRetries);
      var out := researcher.Research(q, session, tracker);
      err := ErrorOf(out);
    }

    /** The researchers of one batch, one after another. */
    method RunBatch(session: ResearchSession, tracker: Tracker, batch: seq<string>) returns (err: Option<string>)
      requires Wired() && Serves(session, tracker)
      modifies session, clock, llm, search.engine
      ensures var st := ResearchQueries(Config(), old(WorldOf(session)), batch);
        WorldOf(session) == st.w && err == st.error
    {
      ghost var total := ResearchQueries(Config(), WorldOf(session), batch);
      var j := 0;
      while j < |batch|
        invariant j <= |batch|
        invariant ResearchQueries(Config(), WorldOf(session), batch[j..]) == total
      {
        assert batch[j..][0] == batch[j] && batch[j..][1..] == batch[j + 1..];
        err := RunOne(session, tracker, batch[j]);
        if err.Some? {
          return;
        }
        j := j + 1;
      }
      err := None;
    }

    /** `_run_researchers` for a positive step. */
    method RunBatches(session: ResearchSession, tracker: Tracker, k: nat) returns (err: Option<string>)
      requires Wired() && Serves(session, tracker) && k >= 1
      modifies session, clock, llm, search.engine
      ensures var st := ResearchBatches(Config(), old(WorldOf(session)), Batches(old(session.subQueries), k));
        WorldOf(session) == st.w && err == st.error
    {
      var qs := session.subQueries;
      ghost var total := ResearchBatches(Config(), WorldOf(session), Batches(qs, k));
      var i := 0;
      while i < |qs|
        invariant i <= |qs|
        invariant ResearchBatches(Config(), WorldOf(session), Batches(qs[i..], k)) == total
        decreases |qs| - i
      {
        var next := Min(i + k, |qs|);
        var batch := qs[i..next];
        BatchesStep(qs, i, k);
        session.Log(BatchLine(|batch|));
        err := RunBatch(session, tracker, batch);
        if err.Some? {
          return;
        }
        i := next;
      }
      err := None;
    }

    method OpenResearch(session: ResearchSession, tracker: Tracker)
      requires Serves(session, tracker)
      modifies session, clock
      ensures WorldOf(session) == ResearchOpened(Config(), old(WorldOf(session)))
    {
      session.SetAgentStatus(Researcher, Running);
      tracker.Start(Researcher);
    }

    /** Phase 2 of `run`. */
    method RunResearchers(session: ResearchSession, tracker: Tracker) returns (err: Option<string>)
      requires Wired() && Serves(session, tracker)
      modifies session, clock, llm, search.engine
      ensures var st := ResearchStage(Config(), old(WorldOf(session)));
        WorldOf(session) == st.w && err == st.error
    {
      OpenResearch(session, tracker);
      if settings.maxParallel == 0 {
        return Some(ZeroStepError);
      }
      if settings.maxParallel > 0 {
        err := RunBatches(session, tracker, settings.maxParallel);
        if err.Some? {
          return;
        }
      }
      session.SetAgentStatus(Researcher, Done);
      err := None;
    }

    method RunAnalyst(session: ResearchSession, tracker: Tracker) returns (err: Option<string>)
      requires Wired() && Serves(session, tracker)
      modifies session, clock, llm
      ensures var st := AnalyzeStage(Config(), old(WorldOf(session)));
        WorldOf(session) == st.w && err == st.error
    {
      ghost var w := WorldOf(session);
      ghost var e := Config();
      ghost var o := AnalyzeEffect(w.s, w.replies, e.toFloat, e.reading(w.ticks), e.reading(w.ticks + 1), RatesFor(e.model));
      ghost var calls := AnalystCalls(w.s, w.replies, e.toFloat);
      var out := analyst.Analyze(session, tracker);
      err := ErrorOf(out);
      assert WorldOf(session) == Analyzed(w, o, calls).w;
      AnalyzeStageIs(e, w, o, calls);
    }

    method RunStream(session: ResearchSession, tracker: Tracker) returns (err: Option<string>)
      requires Wired() && Serves(session, tracker)
      modifies session, clock, llm
      ensures var st := StreamStage(Config(), old(WorldOf(session)));
        WorldOf(session) == st.w && err == st.error
    {
      ghost var w := WorldOf(session);
      ghost var e := Config();
      ghost var o := WriteStreamEffect(w.s, At(w.streams, 0, StreamRaised(Unscripted)),
                                       e.reading(w.ticks), e.reading(w.ticks + 1), RatesFor(e.model));
      var out := writer.WriteStream(session, tracker);
      err := ErrorOf(out);
      assert WorldOf(session) == Streamed(w, o).w;
      StreamStageIs(e, w, o);
    }

    method RunReport(session: ResearchSession, tracker: Tracker) returns (err: Option<string>)
      requires Wired() && Serves(session, tracker)
      modifies session, clock, llm
      ensures var st := ReportStage(Config(), old(WorldOf(session)));
        WorldOf(session) == st.w && err == st.error
    {
      ghost var w := WorldOf(session);
      ghost var e := Config();
      ghost var o := WriteEffect(w.s, At(w.replies, 0, Raised(Unscripted)),
                                 e.reading(w.ticks), e.reading(w.ticks + 1), RatesFor(e.model));
      var out := writer.Write(session, tracker);
      err := ErrorOf(out);
      assert WorldOf(session) == Reported(w, o).w;
      ReportStageIs(e, w, o);
    }

    /** The `try` block. */
    method RunPipeline(session: ResearchSession, tracker: Tracker, stream: bool) returns (err: Option<string>)
      requires Wired() && Serves(session, tracker)
      modifies session, clock, llm, search.engine
      ensures var st := Pipeline(Config(), old(WorldOf(session)), stream);
        WorldOf(session) == st.w && err == st.error
    {
      err := RunPlanner(session, tracker);
      if err.Some? {
        return;
      }
      err := RunResearchers(session, tracker);
      if err.Some? {
        return;
      }
      err := RunAnalyst(session, tracker);
      if err.Some? {
        return;
      }
      if stream {
        err := RunStream(session, tracker);
      } else {
        err := RunReport(session, tracker);
      }
    }

    /** The fresh session, its tracker, and the first log line. */
    method Open(query: string) returns (session: ResearchSession, tracker: Tracker)
      modifies clock
      ensures fresh(session) && fresh(tracker) && Serves(session, tracker)
      ensures WorldOf(session) == Begun(Config(), query, search.engine.script, llm.replies, llm.streams, old(clock.ticks))
    {
      var created := clock.Now();
      session := new ResearchSession(query, created);
      tracker := new Tracker(session, settings.model, clock);
      session.Log(StartedLine(query));
    }

    /** The `except` and `finally` clauses. */
    method Close(session: ResearchSession, err: Option<string>)
      modifies session, clock
      ensures WorldOf(session) == Finished(Config(), Stage(old(WorldOf(session)), err))
    {
      if err.Some? {
        session.error := err;
        session.success := false;
        session.Log(ErrorLine(err.value));
      }
      var done := clock.Now();
      session.completedAt := Some(done);
    }

    /** `run`: a fresh session and tracker, the phases, and the summary of
        the stamped session. */
    method Run(query: string, stream: bool) returns (summary: Summary, session: ResearchSession)
      requires Wired()
      modifies clock, llm, search.engine
      ensures fresh(session)
      ensures WorldOf(session) == RunEffect(Config(), query, old(search.engine.script), old(llm.replies),
                                            old(llm.streams), old(clock.ticks), stream)
      ensures summary == SummaryOf(session.State())
    {
      var tracker;
      session, tracker := Open(query);
      var err := RunPipeline(session, tracker, stream);
      Close(session, err);
      summary := SummaryOf(session.State());
    }
  }
}
