/** What the phases of core/orchestrator.py keep and promise, one phase at
    a time and for the whole run. */
module PhaseFacts {
  import opened Wrappers
  import opened Seqs
  import opened Text
  import opened Session
  import opened Oracles
  import opened Monitoring
  import opened WebSearch
  import opened Planner
  import opened Researcher
  import opened Analyst
  import opened Writer
  import opened Batching
  import opened Phases

  // ---------------------------------------------------------------- what each phase keeps

  /** The log only grows, and the question and creation time stay. */
  predicate Grows(s: SessionState, r: SessionState) {
    s.logs <= r.logs && r.query == s.query && r.createdAt == s.createdAt
  }

  /** Agent `a`'s status and metrics are as they were. */
  predicate Untouched(s: SessionState, r: SessionState, a: Agent) {
    r.statuses.Get(a) == s.statuses.Get(a) && r.metrics.Get(a) == s.metrics.Get(a)
  }

  lemma GrowsTrans(s: SessionState, r: SessionState, t: SessionState)
    requires Grows(s, r) && Grows(r, t)
    ensures Grows(s, t)
  {
  }

  /** The planner leaves the other agents alone; it ends DONE with the
      error untouched, or FAILED when it raises. */
  lemma PlanStageFacts(e: Env, w: World)
    ensures var st := PlanStage(e, w);
      var r := st.w.s;
      && Grows(w.s, r) && (forall a :: a != Planner ==> Untouched(w.s, r, a))
      && r.rawResults == w.s.rawResults && r.findings == w.s.findings
      && (st.error.None? ==> r.statuses.Get(Planner) == Done && r.error == w.s.error)
      && (st.error.Some? ==> r.statuses.Get(Planner) == Failed && r.error == st.error)
  {
    var reply := At(w.replies, 0, Raised(Unscripted));
    PlanFacts(w.s, reply, e.literal, e.reading(w.ticks), e.reading(w.ticks + 1), e.model);
  }

  /** The analyst leaves the other agents, the error and the question alone. */
  lemma AnalyzeStageFacts(e: Env, w: World)
    ensures var st := AnalyzeStage(e, w);
      var r := st.w.s;
      && Grows(w.s, r) && (forall a :: a != Analyst ==> Untouched(w.s, r, a))
      && r.error == w.s.error && r.subQueries == w.s.subQueries && r.rawResults == w.s.rawResults
  {
    AnalyzeFacts(w.s, w.replies, e.toFloat, e.reading(w.ticks), e.reading(w.ticks + 1), e.model);
    AnalyzeGrows(w.s, w.replies, e.toFloat, e.reading(w.ticks), e.reading(w.ticks + 1), RatesFor(e.model));
  }

  lemma AnalyzeGrows(s: SessionState, replies: seq<Reply>, toFloat: string -> Option<real>, t0: int, t1: int, rates: Rates)
    ensures Grows(s, AnalyzeEffect(s, replies, toFloat, t0, t1, rates).state)
  {
    var all := Collected(s.rawResults);
    var s2 := Opened(s, t0);
    assert Grows(s, s2);
    if all == [] {
      assert Grows(s2, Abandoned(s2, t1, rates));
    } else {
      var s3 := Filtered(s2, all);
      assert Grows(s2, s3);
      var j := JudgeAll(PreFilter(all), replies, toFloat);
      if j.error.None? {
        assert Grows(s3, Approved(s3, SortDesc(j.findings), j, |PreFilter(all)|, t1, rates));
      }
    }
  }

  /** The writer leaves the other agents and the error alone, and ends DONE
      unless it raises. */
  lemma WriteStageFacts(e: Env, w: World, stream: bool)
    ensures var st := WriteStage(e, w, stream);
      var r := st.w.s;
      && Grows(w.s, r) && (forall a :: a != Writer ==> Untouched(w.s, r, a)) && r.error == w.s.error
      && (st.error.None? ==> r.statuses.Get(Writer) == Done)
  {
    if stream {
      WriteStreamKeeps(w.s, At(w.streams, 0, StreamRaised(Unscripted)), e.reading(w.ticks), e.reading(w.ticks + 1), e.model);
    } else {
      WriteFacts(w.s, At(w.replies, 0, Raised(Unscripted)), e.reading(w.ticks), e.reading(w.ticks + 1), e.model);
    }
  }

  /** What the researchers may change: the log and the raw results grow,
      the researcher's metrics change, and nothing else does. */
  predicate ResearchKeeps(s: SessionState, r: SessionState) {
    && r.(logs := s.logs, rawResults := s.rawResults, metrics := s.metrics) == s
    && s.logs <= r.logs && s.rawResults <= r.rawResults
    && forall a :: a != Researcher ==> r.metrics.Get(a) == s.metrics.Get(a)
  }

  /** One researcher adds one raw result unless it raises, in which case it
      adds none. */
  lemma ResearchOneFacts(e: Env, w: World, q: string)
    ensures var st := ResearchOne(e, w, q);
      var r := st.w.s;
      && ResearchKeeps(w.s, r)
      && (st.error.None? ==> |r.rawResults| == |w.s.rawResults| + 1)
      && (st.error.Some? ==> r.rawResults == w.s.rawResults)
  {
  }

  /** A batch adds one raw result per query unless a researcher raises. */
  lemma {:induction false} ResearchQueriesFacts(e: Env, w: World, qs: seq<string>)
    ensures var st := ResearchQueries(e, w, qs);
      && ResearchKeeps(w.s, st.w.s)
      && (st.error.None? ==> |st.w.s.rawResults| == |w.s.rawResults| + |qs|)
    decreases |qs|
  {
    if qs != [] {
      var st := ResearchOne(e, w, qs[0]);
      ResearchOneFacts(e, w, qs[0]);
      if st.error.None? {
        ResearchQueriesFacts(e, st.w, qs[1..]);
      }
    }
  }

  /** The batches add one raw result per query and at least one log line
      per batch, the first of them announcing the first batch, unless a
      researcher raises. */
  lemma {:induction false} ResearchBatchesFacts(e: Env, w: World, bs: seq<seq<string>>)
    ensures var st := ResearchBatches(e, w, bs);
      var r := st.w.s;
      && ResearchKeeps(w.s, r)
      && (bs != [] ==> |r.logs| > |w.s.logs| && r.logs[|w.s.logs|] == BatchLine(|bs[0]|))
      && (st.error.None? ==> |r.rawResults| == |w.s.rawResults| + |Flatten(bs)| && |r.logs| >= |w.s.logs| + |bs|)
    decreases |bs|
  {
    if bs != [] {
      var w1 := w.(s := w.s.Log(BatchLine(|bs[0]|)));
      var st := ResearchQueries(e, w1, bs[0]);
      ResearchQueriesFacts(e, w1, bs[0]);
      assert st.w.s.logs[|w.s.logs|] == BatchLine(|bs[0]|) by {
        assert w1.s.logs <= st.w.s.logs;
      }
      if st.error.None? {
        ResearchBatchesFacts(e, st.w, bs[1..]);
        var r := ResearchBatches(e, st.w, bs[1..]).w.s;
        assert r.logs[|w.s.logs|] == BatchLine(|bs[0]|) by {
          assert st.w.s.logs <= r.logs;
        }
      }
    }
  }

  /** Phase 2 leaves the other agents, the error and the sub-queries alone.
      The researcher ends DONE unless a researcher raises, when it stays
      RUNNING. */
  lemma ResearchStageFacts(e: Env, w: World)
    ensures var st := ResearchStage(e, w);
      var r := st.w.s;
      && Grows(w.s, r) && (forall a :: a != Researcher ==> Untouched(w.s, r, a))
      && r.error == w.s.error && r.subQueries == w.s.subQueries && r.findings == w.s.findings
      && (st.error.Some? ==> r.statuses.Get(Researcher) == Running)
      && (st.error.None? ==> r.statuses.Get(Researcher) == Done)
  {
    var w1 := ResearchOpened(e, w);
    ResearchOpenedFacts(e, w);
    if e.maxParallel != 0 {
      var bs := StepBatches(w1.s.subQueries, e.maxParallel);
      ResearchBatchesFacts(e, w1, bs);
      var st := ResearchBatches(e, w1, bs);
      if st.error.None? {
        WithStatusFacts(st.w.s, Researcher, Done);
      }
    }
  }

  /** A zero step raises. With a positive step and no exception every
      sub-query gets one raw result and each batch (ceil(n / k) of them, by
      `BatchesCount`) a log line; with a negative step no researcher runs. */
  lemma ResearchStageCounts(e: Env, w: World)
    ensures var st := ResearchStage(e, w);
      var r := st.w.s;
      && (e.maxParallel == 0 ==> st.error == Some(ZeroStepError))
      && (e.maxParallel >= 1 && st.error.None? ==>
            && |r.rawResults| == |w.s.rawResults| + |w.s.subQueries|
            && |r.logs| >= |w.s.logs| + |Batches(w.s.subQueries, e.maxParallel)|)
      && (e.maxParallel < 0 ==> r.rawResults == w.s.rawResults)
  {
    var w1 := ResearchOpened(e, w);
    ResearchOpenedFacts(e, w);
    if e.maxParallel != 0 {
      StepBatchesCounts(e, w1);
      var st := ResearchBatches(e, w1, StepBatches(w1.s.subQueries, e.maxParallel));
      if st.error.None? {
        WithStatusFacts(st.w.s, Researcher, Done);
      }
    }
  }

  lemma ResearchOpenedFacts(e: Env, w: World)
    ensures var r := ResearchOpened(e, w).s;
      && Grows(w.s, r) && (forall a :: a != Researcher ==> Untouched(w.s, r, a))
      && r.(logs := w.s.logs, statuses := w.s.statuses, metrics := w.s.metrics) == w.s
      && r.statuses.Get(Researcher) == Running
  {
    WithStatusFacts(w.s, Researcher, Running);
  }

  lemma StepBatchesCounts(e: Env, w: World)
    requires e.maxParallel != 0
    ensures var st := ResearchBatches(e, w, StepBatches(w.s.subQueries, e.maxParallel));
      var r := st.w.s;
      && (e.maxParallel >= 1 && st.error.None? ==>
            && |r.rawResults| == |w.s.rawResults| + |w.s.subQueries|
            && |r.logs| >= |w.s.logs| + |Batches(w.s.subQueries, e.maxParallel)|)
      && (e.maxParallel < 0 ==> r.rawResults == w.s.rawResults)
  {
    if e.maxParallel >= 1 {
      var n, k := |w.s.subQueries|, e.maxParallel;
      var bs := Batches(w.s.subQueries, k);
      var r := ResearchBatches(e, w, bs);
      assert |Flatten(bs)| == n by {
        BatchesFlatten(w.s.subQueries, k);
      }
      assert r.error.None? ==> |r.w.s.rawResults| == |w.s.rawResults| + |Flatten(bs)| && |r.w.s.logs| >= |w.s.logs| + |bs| by {
        ResearchBatchesFacts(e, w, bs);
      }
    }
  }

  /** The analyst phase, in terms of the analyst's outcome `o` and its
      number of model requests. */
  lemma AnalyzeStageIs(e: Env, w: World, o: Outcome<seq<Finding>>, calls: nat)
    requires o == AnalyzeEffect(w.s, w.replies, e.toFloat, e.reading(w.ticks), e.reading(w.ticks + 1), RatesFor(e.model))
    requires calls == AnalystCalls(w.s, w.replies, e.toFloat)
    ensures AnalyzeStage(e, w) == Analyzed(w, o, calls)
  {
  }

  /** The streaming writer's phase, in terms of its outcome `o`. */
  lemma StreamStageIs(e: Env, w: World, o: Outcome<seq<string>>)
    requires o == WriteStreamEffect(w.s, At(w.streams, 0, StreamRaised(Unscripted)),
                                    e.reading(w.ticks), e.reading(w.ticks + 1), RatesFor(e.model))
    ensures StreamStage(e, w) == Streamed(w, o)
  {
  }

  /** The writer's phase, in terms of its outcome `o`. */
  lemma ReportStageIs(e: Env, w: World, o: Outcome<string>)
    requires o == WriteEffect(w.s, At(w.replies, 0, Raised(Unscripted)),
                              e.reading(w.ticks), e.reading(w.ticks + 1), RatesFor(e.model))
    ensures ReportStage(e, w) == Reported(w, o)
  {
  }

  // ---------------------------------------------------------------- what a run promises

  lemma BegunFacts(e: Env, query: string, net: seq<HttpOutcome>, replies: seq<Reply>, streams: seq<StreamReply>, ticks: nat)
    ensures var s := Begun(e, query, net, replies, streams, ticks).s;
      && s.logs == [StartedLine(query)] && s.query == query && s.rawResults == [] && s.error == None
      && forall a :: s.statuses.Get(a) == Pending && s.metrics.Get(a) == FreshMetrics(a)
  {
  }

  /** `Finished` only sets the error, the success flag and the completion
      stamp and appends the error line. */
  lemma FinishedFacts(e: Env, st: Stage)
    ensures var s, f := st.w.s, Finished(e, st).s;
      && f.completedAt == Some(e.reading(st.w.ticks))
      && f.(logs := s.logs, error := s.error, success := s.success, completedAt := s.completedAt) == s
      && (st.error.None? ==> f == s.(completedAt := f.completedAt))
      && (st.error.Some? ==>
            && f.error == st.error && !f.success && f.logs == s.logs + [ErrorLine(st.error.value)])
  {
  }

  /** Whatever happens, the log opens with the session-started line and
      the run is stamped complete. An exception becomes the session's
      error, clears success and closes the log with the pipeline-error line;
      without one the error stays unset and the planner, the researchers and
      the writer end DONE. */
  lemma RunFacts(e: Env, query: string, net: seq<HttpOutcome>, replies: seq<Reply>, streams: seq<StreamReply>,
                 ticks: nat, stream: bool)
    ensures var st := Pipeline(e, Begun(e, query, net, replies, streams, ticks), stream);
      var f := RunEffect(e, query, net, replies, streams, ticks, stream).s;
      && |f.logs| >= 1 && f.logs[0] == StartedLine(query) && f.query == query
      && f.completedAt == Some(e.reading(st.w.ticks))
      && (st.error.Some? ==>
            f.error == st.error && !f.success && f.logs[|f.logs| - 1] == ErrorLine(st.error.value))
      && (st.error.None? ==>
            && f.error == None && f.statuses.Get(Planner) == Done
            && f.statuses.Get(Researcher) == Done && f.statuses.Get(Writer) == Done)
  {
    var w0 := Begun(e, query, net, replies, streams, ticks);
    BegunFacts(e, query, net, replies, streams, ticks);
    var st := Pipeline(e, w0, stream);
    FinishedFacts(e, st);
    assert Grows(w0.s, st.w.s) by {
      PipelineGrows(e, w0, stream);
    }
    if st.error.None? {
      PipelineDone(e, w0, stream);
    }
  }

  lemma PipelineGrows(e: Env, w: World, stream: bool)
    ensures Grows(w.s, Pipeline(e, w, stream).w.s)
  {
    var p := PlanStage(e, w);
    PlanStageFacts(e, w);
    if p.error.None? {
      var r := ResearchStage(e, p.w);
      ResearchStageFacts(e, p.w);
      if r.error.None? {
        var a := AnalyzeStage(e, r.w);
        AnalyzeStageFacts(e, r.w);
        if a.error.None? {
          WriteStageFacts(e, a.w, stream);
          GrowsTrans(r.w.s, a.w.s, WriteStage(e, a.w, stream).w.s);
        }
        GrowsTrans(p.w.s, r.w.s, Pipeline(e, w, stream).w.s);
      }
      GrowsTrans(w.s, p.w.s, Pipeline(e, w, stream).w.s);
    }
  }

  /** Without an exception, every phase ran to its end. */
  lemma PipelineRanAll(e: Env, w: World, stream: bool)
    requires Pipeline(e, w, stream).error.None?
    ensures var p := PlanStage(e, w);
      var r := ResearchStage(e, p.w);
      var a := AnalyzeStage(e, r.w);
      && p.error.None? && r.error.None? && a.error.None?
      && Pipeline(e, w, stream) == WriteStage(e, a.w, stream)
  {
  }

  lemma PipelineDone(e: Env, w: World, stream: bool)
    requires Pipeline(e, w, stream).error.None?
    ensures var r := Pipeline(e, w, stream).w.s;
      && r.error == w.s.error && r.statuses.Get(Planner) == Done
      && r.statuses.Get(Researcher) == Done && r.statuses.Get(Writer) == Done
  {
    PipelineRanAll(e, w, stream);
    var p := PlanStage(e, w);
    var r := ResearchStage(e, p.w);
    var a := AnalyzeStage(e, r.w);
    var f := WriteStage(e, a.w, stream).w.s;
    assert p.w.s.statuses.Get(Planner) == Done && p.w.s.error == w.s.error by {
      PlanStageFacts(e, w);
    }
    assert r.w.s.statuses.Get(Researcher) == Done && Untouched(p.w.s, r.w.s, Planner) && r.w.s.error == p.w.s.error by {
      ResearchStageFacts(e, p.w);
    }
    assert Untouched(r.w.s, a.w.s, Planner) && Untouched(r.w.s, a.w.s, Researcher) && a.w.s.error == r.w.s.error by {
      AnalyzeStageFacts(e, r.w);
    }
    assert f.statuses.Get(Writer) == Done && Untouched(a.w.s, f, Planner) && Untouched(a.w.s, f, Researcher) && f.error == a.w.s.error by {
      WriteStageFacts(e, a.w, stream);
    }
  }

  /** When the planner raises, no other agent starts: each is still
      PENDING with fresh metrics, and there are no raw results. */
  lemma PlannerRaisedStopsAll(e: Env, query: string, net: seq<HttpOutcome>, replies: seq<Reply>, streams: seq<StreamReply>,
                              ticks: nat, stream: bool)
    requires PlanStage(e, Begun(e, query, net, replies, streams, ticks)).error.Some?
    ensures var f := RunEffect(e, query, net, replies, streams, ticks, stream).s;
      && f.statuses.Get(Planner) == Failed && f.rawResults == [] && !f.success
      && forall a :: a != Planner ==> f.statuses.Get(a) == Pending && f.metrics.Get(a) == FreshMetrics(a)
  {
    var w0 := Begun(e, query, net, replies, streams, ticks);
    BegunFacts(e, query, net, replies, streams, ticks);
    PlanStageFacts(e, w0);
    FinishedFacts(e, Pipeline(e, w0, stream));
  }

  /** When a researcher raises (or the step is zero), the researcher stays
      RUNNING and neither the analyst nor the writer starts. */
  lemma ResearchRaisedStopsRest(e: Env, query: string, net: seq<HttpOutcome>, replies: seq<Reply>, streams: seq<StreamReply>,
                                ticks: nat, stream: bool)
    requires var p := PlanStage(e, Begun(e, query, net, replies, streams, ticks));
      p.error.None? && ResearchStage(e, p.w).error.Some?
    ensures var f := RunEffect(e, query, net, replies, streams, ticks, stream).s;
      && f.statuses.Get(Planner) == Done && f.statuses.Get(Researcher) == Running && !f.success
      && f.statuses.Get(Analyst) == Pending && f.metrics.Get(Analyst) == FreshMetrics(Analyst)
      && f.statuses.Get(Writer) == Pending && f.metrics.Get(Writer) == FreshMetrics(Writer)
  {
    BegunFacts(e, query, net, replies, streams, ticks);
    ResearchStops(e, Begun(e, query, net, replies, streams, ticks), stream);
  }

  lemma ResearchStops(e: Env, w: World, stream: bool)
    requires PlanStage(e, w).error.None? && ResearchStage(e, PlanStage(e, w).w).error.Some?
    ensures var f := Finished(e, Pipeline(e, w, stream)).s;
      && f.statuses.Get(Planner) == Done && f.statuses.Get(Researcher) == Running && !f.success
      && Untouched(w.s, f, Analyst) && Untouched(w.s, f, Writer)
  {
    var p := PlanStage(e, w);
    var r := ResearchStage(e, p.w);
    assert Pipeline(e, w, stream) == r;
    assert p.w.s.statuses.Get(Planner) == Done && Untouched(w.s, p.w.s, Analyst) && Untouched(w.s, p.w.s, Writer) by {
      PlanStageFacts(e, w);
    }
    assert r.w.s.statuses.Get(Researcher) == Running && Untouched(p.w.s, r.w.s, Planner)
        && Untouched(p.w.s, r.w.s, Analyst) && Untouched(p.w.s, r.w.s, Writer) by {
      ResearchStageFacts(e, p.w);
    }
    FinishedFacts(e, r);
  }

  /** When the analyst raises, the writer never starts. */
  lemma AnalystRaisedStopsWriter(e: Env, query: string, net: seq<HttpOutcome>, replies: seq<Reply>, streams: seq<StreamReply>,
                                 ticks: nat, stream: bool)
    requires var p := PlanStage(e, Begun(e, query, net, replies, streams, ticks));
      var r := ResearchStage(e, p.w);
      p.error.None? && r.error.None? && AnalyzeStage(e, r.w).error.Some?
    ensures var f := RunEffect(e, query, net, replies, streams, ticks, stream).s;
      && f.statuses.Get(Researcher) == Done && !f.success
      && f.statuses.Get(Writer) == Pending && f.metrics.Get(Writer) == FreshMetrics(Writer)
  {
    BegunFacts(e, query, net, replies, streams, ticks);
    AnalystStops(e, Begun(e, query, net, replies, streams, ticks), stream);
  }

  lemma AnalystStops(e: Env, w: World, stream: bool)
    requires var p := PlanStage(e, w);
      p.error.None? && ResearchStage(e, p.w).error.None? && AnalyzeStage(e, ResearchStage(e, p.w).w).error.Some?
    ensures var f := Finished(e, Pipeline(e, w, stream)).s;
      && f.statuses.Get(Researcher) == Done && !f.success && Untouched(w.s, f, Writer)
  {
    var p := PlanStage(e, w);
    var r := ResearchStage(e, p.w);
    var a := AnalyzeStage(e, r.w);
    assert Pipeline(e, w, stream) == a;
    assert Untouched(w.s, p.w.s, Writer) by {
      PlanStageFacts(e, w);
    }
    assert r.w.s.statuses.Get(Researcher) == Done && Untouched(p.w.s, r.w.s, Writer) by {
      ResearchStageFacts(e, p.w);
    }
    assert Untouched(r.w.s, a.w.s, Researcher) && Untouched(r.w.s, a.w.s, Writer) by {
      AnalyzeStageFacts(e, r.w);
    }
    FinishedFacts(e, a);
  }
}
