/** core/orchestrator.py as a function: each phase of `run` maps the world
    it starts in (the session and the unread parts of the scripted oracles)
    to the world it leaves and the exception it raised, if any. */
module Phases {
  import opened Wrappers
  import opened Seqs
  import opened Text
  import opened Session
  import opened Oracles
  import opened Monitoring
  import opened WebSearch
  import opened Planner
  import opened Researcher
  import opened Analyst
  import opened Writer
  import opened Batching

  // ---------------------------------------------------------------- log lines

  function StartedLine(query: string): string {
    "Session started: '" + query + "'"
  }

  function BatchLine(n: nat): string {
    "Researcher: starting batch of " + NatToString(n) + " parallel searches"
  }

  function ErrorLine(e: string): string {
    "Pipeline error: " + e
  }

  /** The message of the `ValueError` that `range` raises on a zero step. */
  const ZeroStepError: string := "range() arg 3 must not be zero"

  // ---------------------------------------------------------------- the run as a function

  /** Everything a run reads and changes: the session, the unread parts of
      the search and model scripts, and the number of clock readings taken. */
  datatype World = World(s: SessionState, net: seq<HttpOutcome>, replies: seq<Reply>, streams: seq<StreamReply>, ticks: nat)

  /** A phase's outcome: the world after it, and the message of the
      exception it raised, if any. */
  datatype Stage = Stage(w: World, error: Option<string>)

  /** The configuration and oracles a run depends on. */
  datatype Env = Env(model: string, maxRetries: int, maxParallel: int,
                     literal: string -> Option<seq<string>>, toFloat: string -> Option<real>, reading: nat -> int)

  function ErrorOf<T>(r: Result<T>): Option<string> {
    if r.Failure? then Some(r.error) else None
  }

  /** `planner.plan`. */
  function PlanStage(e: Env, w: World): Stage {
    var o := PlanEffect(w.s, At(w.replies, 0, Raised(Unscripted)), e.literal,
                        e.reading(w.ticks), e.reading(w.ticks + 1), RatesFor(e.model));
    Stage(w.(s := o.state, replies := Drop(w.replies, 1), ticks := w.ticks + (if o.result.Failure? then 1 else 2)),
          ErrorOf(o.result))
  }

  /** One researcher's `research_async` on query `q`. */
  function ResearchOne(e: Env, w: World, q: string): Stage {
    var p := Setup(q, w.s.query, e.maxRetries, w.net, w.replies);
    var r := ResearchRun(p);
    var o := ResearchEffect(w.s, p, e.reading(w.ticks), RatesFor(e.model));
    Stage(World(o.state, Drop(w.net, |r.trace.searched|), Drop(w.replies, |r.trace.prompts|), w.streams,
                w.ticks + (if r.end.Found? then 1 else 0)),
          ErrorOf(o.result))
  }

  /** The researchers of one batch, in order; the first exception ends the
      batch. */
  function ResearchQueries(e: Env, w: World, qs: seq<string>): Stage
    decreases |qs|
  {
    if qs == [] then Stage(w, None)
    else
      var st := ResearchOne(e, w, qs[0]);
      if st.error.Some? then st else ResearchQueries(e, st.w, qs[1..])
  }

  /** The batches, each opened by its log line; an exception ends the loop. */
  function ResearchBatches(e: Env, w: World, bs: seq<seq<string>>): Stage
    decreases |bs|
  {
    if bs == [] then Stage(w, None)
    else
      var st := ResearchQueries(e, w.(s := w.s.Log(BatchLine(|bs[0]|))), bs[0]);
      if st.error.Some? then st else ResearchBatches(e, st.w, bs[1..])
  }

  /** The batches `range(0, n, k)` yields: none for a negative step. */
  function StepBatches(qs: seq<string>, k: int): seq<seq<string>>
    requires k != 0
  {
    if k < 0 then [] else Batches(qs, k)
  }

  /** Phase 2 opens with RUNNING and the start stamp. */
  function ResearchOpened(e: Env, w: World): World {
    w.(s := StartAgent(w.s.WithStatus(Researcher, Running), Researcher, e.reading(w.ticks)), ticks := w.ticks + 1)
  }

  /** Phase 2: the opening, the batches, then DONE. */
  function ResearchStage(e: Env, w: World): Stage {
    var w1 := ResearchOpened(e, w);
    if e.maxParallel == 0 then Stage(w1, Some(ZeroStepError))
    else
      var st := ResearchBatches(e, w1, StepBatches(w1.s.subQueries, e.maxParallel));
      if st.error.Some? then st else Stage(st.w.(s := st.w.s.WithStatus(Researcher, Done)), None)
  }

  /** The world after the analyst produced outcome `o` with `calls` model
      requests. */
  function Analyzed(w: World, o: Outcome<seq<Finding>>, calls: nat): Stage {
    Stage(w.(s := o.state, replies := Drop(w.replies, calls), ticks := w.ticks + (if o.result.Failure? then 1 else 2)),
          ErrorOf(o.result))
  }

  /** `analyst.analyze`; its return value is not used. */
  function AnalyzeStage(e: Env, w: World): Stage {
    Analyzed(w, AnalyzeEffect(w.s, w.replies, e.toFloat, e.reading(w.ticks), e.reading(w.ticks + 1), RatesFor(e.model)),
             AnalystCalls(w.s, w.replies, e.toFloat))
  }

  /** The world after the streaming writer produced outcome `o`; the
      stream is read only when there are findings. */
  function Streamed(w: World, o: Outcome<seq<string>>): Stage {
    Stage(w.(s := o.state, streams := if w.s.findings == [] then w.streams else Drop(w.streams, 1),
             ticks := w.ticks + (if o.result.Failure? then 1 else 2)),
          ErrorOf(o.result))
  }

  /** `writer.write_stream`, consumed to the end. */
  function StreamStage(e: Env, w: World): Stage {
    Streamed(w, WriteStreamEffect(w.s, At(w.streams, 0, StreamRaised(Unscripted)),
                                  e.reading(w.ticks), e.reading(w.ticks + 1), RatesFor(e.model)))
  }

  /** The world after the writer produced outcome `o`; the model is asked
      only when there are findings. */
  function Reported(w: World, o: Outcome<string>): Stage {
    Stage(w.(s := o.state, replies := if w.s.findings == [] then w.replies else Drop(w.replies, 1),
             ticks := w.ticks + (if o.result.Failure? then 1 else 2)),
          ErrorOf(o.result))
  }

  /** `writer.write`. */
  function ReportStage(e: Env, w: World): Stage {
    Reported(w, WriteEffect(w.s, At(w.replies, 0, Raised(Unscripted)),
                            e.reading(w.ticks), e.reading(w.ticks + 1), RatesFor(e.model)))
  }

  /** Phase 4, streaming or not. */
  function WriteStage(e: Env, w: World, stream: bool): Stage {
    if stream then StreamStage(e, w) else ReportStage(e, w)
  }

  /** The body of the `try`: the four phases, stopping at the first
      exception. */
  function Pipeline(e: Env, w: World, stream: bool): Stage {
    var p := PlanStage(e, w);
    if p.error.Some? then p
    else
      var r := ResearchStage(e, p.w);
      if r.error.Some? then r
      else
        var a := AnalyzeStage(e, r.w);
        if a.error.Some? then a else WriteStage(e, a.w, stream)
  }

  /** The fresh session, created at the first clock reading, with its first
      log line. */
  function Begun(e: Env, query: string, net: seq<HttpOutcome>, replies: seq<Reply>, streams: seq<StreamReply>, ticks: nat): World {
    World(NewState(query, e.reading(ticks)).Log(StartedLine(query)), net, replies, streams, ticks + 1)
  }

  /** The `except` and `finally` clauses. */
  function Finished(e: Env, st: Stage): World {
    var s := st.w.s;
    var s1 := if st.error.Some? then s.(error := st.error, success := false).Log(ErrorLine(st.error.value)) else s;
    st.w.(s := s1.(completedAt := Some(e.reading(st.w.ticks))), ticks := st.w.ticks + 1)
  }

  /** `run(query, stream)`. */
  function RunEffect(e: Env, query: string, net: seq<HttpOutcome>, replies: seq<Reply>, streams: seq<StreamReply>,
                     ticks: nat, stream: bool): World {
    Finished(e, Pipeline(e, Begun(e, query, net, replies, streams, ticks), stream))
  }
}
