/** agents/writer.py: the writer turns the approved findings into the final
    report, in one call or as a stream of fragments, and falls back to a
    fixed message when there is nothing to write about. */
module Writer {
  import opened Wrappers
  import opened Seqs
  import opened Text
  import opened Session
  import opened Oracles
  import opened Monitoring

  // ---------------------------------------------------------------- texts

  const EmptyHead: string := "No relevant information was found"
  const EmptyTail: string :=
    "'.\n\nPossible reasons:\n- The topic is very recent or niche\n- Search terms may need rephrasing\n"
    + "- Information may be behind paywalls\n\nTry rephrasing your question with more specific terms."

  /** `_empty_report`. */
  function EmptyReport(query: string): string {
    EmptyHead + " for: '" + query + EmptyTail
  }

  /** The fixed message opens with its verdict and quotes the question. */
  lemma EmptyReportFacts(query: string)
    ensures StartsWith(EmptyReport(query), "No relevant information was found")
    ensures Contains(EmptyReport(query), query)
  {
    assert EmptyReport(query) == (EmptyHead + " for: '") + query + EmptyTail;
    ContainsInfix(EmptyHead + " for: '", query, EmptyTail);
    assert EmptyReport(query)[..|EmptyHead|] == EmptyHead;
  }

  function Header(i: nat): string {
    "Finding " + NatToString(i) + ":\n"
  }

  /** One labelled line of a finding's block. */
  function Line(key: string, value: string): string {
    key + value + "\n"
  }

  /** The block for the `i`-th finding, counted from 1. */
  function Part(i: nat, f: Finding): string {
    Header(i) + Line("Title: ", f.title) + Line("URL: ", f.url) + Line("Summary: ", f.summary)
    + Line("Why relevant: ", f.whyRelevant)
  }

  const Separator: string := "\n---\n"

  function Parts(fs: seq<Finding>): seq<string> {
    seq(|fs|, k requires 0 <= k < |fs| => Part(k + 1, fs[k]))
  }

  /** `_format_findings`. */
  function FormatFindings(fs: seq<Finding>): string {
    Join(Parts(fs), Separator)
  }

  /** One block per finding, headed by its number counted from 1; the
      numbers are all different. */
  lemma PartsNumbered(fs: seq<Finding>)
    ensures |Parts(fs)| == |fs|
    ensures forall k :: 0 <= k < |fs| ==> StartsWith(Parts(fs)[k], Header(k + 1))
    ensures forall i, j :: 1 <= i < j <= |fs| ==> Header(i) != Header(j)
  {
    forall k | 0 <= k < |fs|
      ensures StartsWith(Parts(fs)[k], Header(k + 1))
    {
      var p, f := Parts(fs)[k], fs[k];
      assert p == Header(k + 1) + (Line("Title: ", f.title) + Line("URL: ", f.url) + Line("Summary: ", f.summary)
                                   + Line("Why relevant: ", f.whyRelevant));
      assert p[..|Header(k + 1)|] == Header(k + 1);
    }
    forall i, j | 1 <= i < j <= |fs|
      ensures Header(i) != Header(j)
    {
      HeaderInjective(i, j);
    }
  }

  lemma HeaderInjective(i: nat, j: nat)
    requires i != j
    ensures Header(i) != Header(j)
  {
    NatToStringRoundTrip(i);
    NatToStringRoundTrip(j);
    var hi, hj := Header(i), Header(j);
    assert hi[8..|hi| - 2] == NatToString(i);
    assert hj[8..|hj| - 2] == NatToString(j);
  }

  /** Formatting one more finding adds the separator and its block, numbered
      one past the findings before it. */
  lemma FormatFindingsAppend(fs: seq<Finding>, f: Finding)
    requires fs != []
    ensures FormatFindings(fs + [f]) == FormatFindings(fs) + Separator + Part(|fs| + 1, f)
  {
    assert Parts(fs + [f]) == Parts(fs) + [Part(|fs| + 1, f)];
    JoinAppend(Parts(fs), Separator, Part(|fs| + 1, f));
  }

  lemma LineMentions(key: string, value: string)
    ensures Contains(Line(key, value), value)
  {
    ContainsInfix(key, value, "\n");
  }

  /** A finding's block shows its title, url, summary and reason. */
  lemma PartMentions(i: nat, f: Finding)
    ensures var p := Part(i, f);
      Contains(p, f.title) && Contains(p, f.url) && Contains(p, f.summary) && Contains(p, f.whyRelevant)
  {
    var h, l1, l2, l3, l4 := Header(i), Line("Title: ", f.title), Line("URL: ", f.url),
                             Line("Summary: ", f.summary), Line("Why relevant: ", f.whyRelevant);
    assert Contains(Part(i, f), f.title) by {
      LineMentions("Title: ", f.title);
      assert Part(i, f) == h + l1 + (l2 + l3 + l4);
      ContainsWithin(h, l1, l2 + l3 + l4, f.title);
    }
    assert Contains(Part(i, f), f.url) by {
      LineMentions("URL: ", f.url);
      assert Part(i, f) == (h + l1) + l2 + (l3 + l4);
      ContainsWithin(h + l1, l2, l3 + l4, f.url);
    }
    assert Contains(Part(i, f), f.summary) by {
      LineMentions("Summary: ", f.summary);
      assert Part(i, f) == (h + l1 + l2) + l3 + l4;
      ContainsWithin(h + l1 + l2, l3, l4, f.summary);
    }
    assert Contains(Part(i, f), f.whyRelevant) by {
      LineMentions("Why relevant: ", f.whyRelevant);
      assert Part(i, f) == (h + l1 + l2 + l3) + l4 + [];
      ContainsWithin(h + l1 + l2 + l3, l4, [], f.whyRelevant);
    }
  }

  /** Every finding's title, url, summary and reason reach the text the
      writer sends. */
  lemma FormatFindingsMentions(fs: seq<Finding>, k: nat)
    requires k < |fs|
    ensures var t := FormatFindings(fs);
      Contains(t, fs[k].title) && Contains(t, fs[k].url) && Contains(t, fs[k].summary) && Contains(t, fs[k].whyRelevant)
  {
    var f := fs[k];
    var a, b := JoinInfix(Parts(fs), Separator, k);
    var p := Parts(fs)[k];
    PartMentions(k + 1, f);
    ContainsWithin(a, p, b, f.title);
    ContainsWithin(a, p, b, f.url);
    ContainsWithin(a, p, b, f.summary);
    ContainsWithin(a, p, b, f.whyRelevant);
  }

  /** The user message of both writing calls. */
  function WriterPrompt(query: string, fs: seq<Finding>): string {
    "Research question: " + query + "\n\nFindings:\n" + FormatFindings(fs) + "\n\nWrite the research report."
  }

  function ComposingLine(n: nat): string {
    "Writer: composing report from " + NatToString(n) + " findings"
  }

  function CompleteLine(n: nat): string {
    "Writer: report complete (" + NatToString(n) + " chars)"
  }

  function StreamedLine(n: nat): string {
    "Writer: streamed report (" + NatToString(n) + " chars)"
  }

  // ---------------------------------------------------------------- streaming

  /** The fragments a stream yields: the chunks' contents, skipping those
      that are absent or empty. */
  function Fragments(deltas: seq<Option<string>>): seq<string> {
    if deltas == [] then []
    else
      var d := deltas[|deltas| - 1];
      Fragments(deltas[..|deltas| - 1]) + (if d.Some? && d.value != "" then [d.value] else [])
  }

  function Concat(parts: seq<string>): string {
    if parts == [] then "" else Concat(parts[..|parts| - 1]) + parts[|parts| - 1]
  }

  /** Everything the chunks carried, absent contents counting as empty. */
  function Carried(deltas: seq<Option<string>>): string {
    if deltas == [] then "" else Carried(deltas[..|deltas| - 1]) + deltas[|deltas| - 1].GetOr("")
  }

  /** No fragment is empty, there are at most as many fragments as chunks,
      and skipping loses no text: the fragments together are everything the
      chunks carried. */
  lemma {:induction false} FragmentsFacts(deltas: seq<Option<string>>)
    ensures var fr := Fragments(deltas);
      && |fr| <= |deltas|
      && (forall k :: 0 <= k < |fr| ==> fr[k] != "")
      && Concat(fr) == Carried(deltas)
  {
    if deltas != [] {
      var init := deltas[..|deltas| - 1];
      var d := deltas[|deltas| - 1];
      FragmentsFacts(init);
      var fr := Fragments(deltas);
      if d.Some? && d.value != "" {
        assert fr[..|fr| - 1] == Fragments(init);
      } else {
        assert fr == Fragments(init);
        assert d.GetOr("") == "";
        assert Carried(deltas) == Carried(init) + "";
      }
    }
  }

  /** The five-fragment stream of the writer's tests, closed by a chunk
      without content. */
  lemma StreamExample()
    ensures var ds := [Some("This "), Some("is "), Some("a "), Some("streamed "), Some("report."), None];
      |Fragments(ds)| == 5 && Concat(Fragments(ds)) == "This is a streamed report."
  {
    var ds := [Some("This "), Some("is "), Some("a "), Some("streamed "), Some("report."), None];
    assert Fragments(ds[..1]) == ["This "] by { assert ds[..1][..0] == []; }
    assert Fragments(ds[..2]) == ["This ", "is "] by { assert ds[..2][..1] == ds[..1]; }
    assert Fragments(ds[..3]) == ["This ", "is ", "a "] by { assert ds[..3][..2] == ds[..2]; }
    assert Fragments(ds[..4]) == ["This ", "is ", "a ", "streamed "] by { assert ds[..4][..3] == ds[..3]; }
    var fr := ["This ", "is ", "a ", "streamed ", "report."];
    assert Fragments(ds[..5]) == fr by { assert ds[..5][..4] == ds[..4]; }
    assert Fragments(ds) == fr by { assert ds[..5] == ds[..|ds| - 1]; }
    assert Concat(fr[..1]) == "This " by { assert fr[..1][..0] == []; }
    assert Concat(fr[..2]) == "This is " by { assert fr[..2][..1] == fr[..1]; }
    assert Concat(fr[..3]) == "This is a " by { assert fr[..3][..2] == fr[..2]; }
    assert Concat(fr[..4]) == "This is a streamed " by { assert fr[..4][..3] == fr[..3]; }
    assert Concat(fr) == "This is a streamed report." by { assert fr[..4] == fr[..|fr| - 1]; }
  }

  /** The output-token estimate of a streamed report: its word count times
      1.3, truncated. */
  function Estimate(report: string): nat {
    (13 * |Words(report)|) / 10
  }

  /** The estimate is the whole part of 1.3 times the word count. */
  lemma EstimateFacts(report: string)
    ensures var n := |Words(report)| as real;
      Estimate(report) as real <= n * 1.3 < Estimate(report) as real + 1.0
  {
    var w := |Words(report)|;
    var e := Estimate(report);
    assert 10 * e <= 13 * w < 10 * e + 10;
    assert (10 * e) as real <= (13 * w) as real < (10 * e + 10) as real;
  }

  // ---------------------------------------------------------------- effects

  function WriterStarted(s: SessionState, t0: int): SessionState {
    StartAgent(s.WithStatus(Writer, Running), Writer, t0)
  }

  /** Both modes without findings: the fixed message as the report, no
      success, DONE and an end stamp with one call and no tokens. */
  function NothingFound(s: SessionState, t0: int, t1: int, rates: Rates): SessionState {
    var r := EmptyReport(s.query);
    EndAgent(WriterStarted(s, t0).(report := r, success := false).WithStatus(Writer, Done), Writer, 0, 0, 1, t1, rates)
  }

  /** `write` on a session in state `s` when the model's call produces
      `reply`. */
  function WriteEffect(s: SessionState, reply: Reply, t0: int, t1: int, rates: Rates): Outcome<string> {
    if s.findings == [] then Outcome(NothingFound(s, t0, t1, rates), Success(EmptyReport(s.query)))
    else
      var s2 := WriterStarted(s, t0).Log(ComposingLine(|s.findings|));
      match reply
      case Raised(e) => Outcome(s2, Failure(e))
      case Answer(c) =>
        var r := Trim(c.text);
        var s3 := s2.(report := r, success := true).WithStatus(Writer, Done).Log(CompleteLine(|r|));
        Outcome(EndAgent(s3, Writer, c.promptTokens, c.completionTokens, 1, t1, rates), Success(r))
  }

  /** `write_stream` on a session in state `s` when the streaming call
      produces `stream`, consumed to the end; the result is the sequence of
      yielded fragments. */
  function WriteStreamEffect(s: SessionState, stream: StreamReply, t0: int, t1: int, rates: Rates): Outcome<seq<string>> {
    if s.findings == [] then Outcome(NothingFound(s, t0, t1, rates), Success([EmptyReport(s.query)]))
    else
      match stream
      case StreamRaised(e) => Outcome(WriterStarted(s, t0), Failure(e))
      case Chunks(ds) =>
        var fr := Fragments(ds);
        var full := Concat(fr);
        var s3 := WriterStarted(s, t0).(report := full, success := true).WithStatus(Writer, Done).Log(StreamedLine(|full|));
        Outcome(EndAgent(s3, Writer, 500, Estimate(full), 1, t1, rates), Success(fr))
  }

  lemma NothingFoundFacts(s: SessionState, t0: int, t1: int, model: string)
    ensures var st := NothingFound(s, t0, t1, RatesFor(model));
      && st.report == EmptyReport(s.query) && !st.success && st.statuses.Get(Writer) == Done
      && st.metrics.Get(Writer).llmCalls == s.metrics.Get(Writer).llmCalls + 1
      && st.metrics.Get(Writer).cost == s.metrics.Get(Writer).cost
      && st.(report := s.report, success := s.success, statuses := s.statuses, logs := s.logs, metrics := s.metrics) == s
      && (forall a :: a != Writer ==> st.statuses.Get(a) == s.statuses.Get(a) && st.metrics.Get(a) == s.metrics.Get(a))
  {
    var s1 := WriterStarted(s, t0);
    WithStatusFacts(s, Writer, Running);
    var s2 := s1.(report := EmptyReport(s.query), success := false);
    WithStatusFacts(s2, Writer, Done);
    EndDefaults(s2.WithStatus(Writer, Done), Writer, t1, RatesFor(model));
    EndAccumulates(s2.WithStatus(Writer, Done), Writer, 0, 0, 1, t1, model);
  }

  /** Without findings `write` returns the fixed message and reports no
      success; with findings and an answer it returns and stores the
      stripped text, reports success and charges the reported tokens; a
      raising call leaves the writer RUNNING without report or end stamp.
      Nothing outside the report, the success flag, the log and the writer's
      status and metrics changes. */
  lemma WriteFacts(s: SessionState, reply: Reply, t0: int, t1: int, model: string)
    ensures var o := WriteEffect(s, reply, t0, t1, RatesFor(model));
      var st := o.state;
      && st.(report := s.report, success := s.success, statuses := s.statuses, logs := s.logs, metrics := s.metrics) == s
      && (forall a :: a != Writer ==> st.statuses.Get(a) == s.statuses.Get(a) && st.metrics.Get(a) == s.metrics.Get(a))
      && (s.findings == [] ==> o.result == Success(EmptyReport(s.query)) && !st.success && st.statuses.Get(Writer) == Done)
      && (s.findings != [] && reply.Answer? ==>
            && o.result == Success(Trim(reply.completion.text)) && st.report == Trim(reply.completion.text)
            && st.success && st.statuses.Get(Writer) == Done
            && st.metrics.Get(Writer).inputTokens == s.metrics.Get(Writer).inputTokens + reply.completion.promptTokens
            && st.metrics.Get(Writer).outputTokens == s.metrics.Get(Writer).outputTokens + reply.completion.completionTokens)
      && (s.findings != [] && reply.Raised? ==>
            && o.result == Failure(reply.error) && st.report == s.report && st.success == s.success
            && st.statuses.Get(Writer) == Running && st.metrics.Get(Writer).endTime == s.metrics.Get(Writer).endTime)
  {
    WithStatusFacts(s, Writer, Running);
    if s.findings == [] {
      NothingFoundFacts(s, t0, t1, model);
    } else if reply.Answer? {
      var c := reply.completion;
      var s2 := WriterStarted(s, t0).Log(ComposingLine(|s.findings|));
      var s3 := s2.(report := Trim(c.text), success := true);
      WithStatusFacts(s3, Writer, Done);
      EndAccumulates(s3.WithStatus(Writer, Done).Log(CompleteLine(|Trim(c.text)|)), Writer, c.promptTokens, c.completionTokens, 1, t1, model);
    }
  }

  /** Streaming changes only the report, the success flag, the log and the
      writer's own status and metrics, and ends DONE unless it raises. */
  lemma WriteStreamKeeps(s: SessionState, stream: StreamReply, t0: int, t1: int, model: string)
    ensures var o := WriteStreamEffect(s, stream, t0, t1, RatesFor(model));
      var st := o.state;
      && st.(report := s.report, success := s.success, statuses := s.statuses, logs := s.logs, metrics := s.metrics) == s
      && (forall a :: a != Writer ==> st.statuses.Get(a) == s.statuses.Get(a) && st.metrics.Get(a) == s.metrics.Get(a))
      && (o.result.Success? ==> st.statuses.Get(Writer) == Done)
  {
    WithStatusFacts(s, Writer, Running);
    if s.findings == [] {
      NothingFoundFacts(s, t0, t1, model);
    } else if stream.Chunks? {
      var s3 := WriterStarted(s, t0).(report := Concat(Fragments(stream.deltas)), success := true);
      WithStatusFacts(s3, Writer, Done);
      EndAccumulates(s3.WithStatus(Writer, Done).Log(StreamedLine(|s3.report|)), Writer, 500, Estimate(s3.report), 1, t1, model);
    }
  }

  /** Consumed to the end, the stream yields fragments that together are the
      stored report; without findings it yields exactly one fragment, the
      fixed message. The estimate charges 500 input tokens, the truncated
      1.3 tokens per word of output and one call. */
  lemma WriteStreamFacts(s: SessionState, stream: StreamReply, t0: int, t1: int, model: string)
    ensures var o := WriteStreamEffect(s, stream, t0, t1, RatesFor(model));
      var st := o.state;
      && (o.result.Success? ==> Concat(o.result.value) == st.report)
      && (s.findings == [] ==> o.result == Success([EmptyReport(s.query)]) && !st.success)
      && (s.findings != [] && stream.Chunks? ==>
            && st.success && (forall k :: 0 <= k < |o.result.value| ==> o.result.value[k] != "")
            && st.report == Carried(stream.deltas)
            && st.metrics.Get(Writer).inputTokens == s.metrics.Get(Writer).inputTokens + 500
            && st.metrics.Get(Writer).outputTokens == s.metrics.Get(Writer).outputTokens + Estimate(st.report)
            && st.metrics.Get(Writer).llmCalls == s.metrics.Get(Writer).llmCalls + 1)
      && (s.findings != [] && stream.StreamRaised? ==>
            o.result == Failure(stream.error) && st.report == s.report && st.statuses.Get(Writer) == Running)
  {
    WithStatusFacts(s, Writer, Running);
    if s.findings == [] {
      NothingFoundFacts(s, t0, t1, model);
      assert [EmptyReport(s.query)][..0] == [];
    } else if stream.Chunks? {
      var fr := Fragments(stream.deltas);
      FragmentsFacts(stream.deltas);
      var s3 := WriterStarted(s, t0).(report := Concat(fr), success := true);
      WithStatusFacts(s3, Writer, Done);
      EndAccumulates(s3.WithStatus(Writer, Done).Log(StreamedLine(|Concat(fr)|)), Writer, 500, Estimate(Concat(fr)), 1, t1, model);
    }
  }

  // ---------------------------------------------------------------- the agent

  class WriterAgent {
    const llm: LanguageModel
    const model: string
    const maxTokens: int

    constructor (llm: LanguageModel, model: string, maxTokens: int)
      ensures this.llm == llm && this.model == model && this.maxTokens == maxTokens
    {
      this.llm := llm;
      this.model := model;
      this.maxTokens := maxTokens;
    }

    /** The opening both modes share. */
    method Begin(session: ResearchSession, tracker: Tracker)
      requires tracker.session == session
      modifies session, tracker.clock
      ensures session.State() == WriterStarted(old(session.State()), tracker.clock.reading(old(tracker.clock.ticks)))
      ensures tracker.clock.ticks == old(tracker.clock.ticks) + 1
    {
      session.SetAgentStatus(Writer, Running);
      tracker.Start(Writer);
    }

    /** The branch both modes share when there are no findings. */
    method ReportNothing(session: ResearchSession, tracker: Tracker) returns (report: string)
      requires tracker.session == session
      modifies session, tracker.clock
      ensures report == EmptyReport(session.query)
      ensures session.State() == NothingFound(old(session.State()), tracker.clock.reading(old(tracker.clock.ticks)),
                                              tracker.clock.reading(old(tracker.clock.ticks) + 1), tracker.pricing)
      ensures tracker.clock.ticks == old(tracker.clock.ticks) + 2
    {
      Begin(session, tracker);
      report := EmptyReport(session.query);
      session.report := report;
      session.success := false;
      session.SetAgentStatus(Writer, Done);
      tracker.End(Writer, 0, 0, 1);
    }

    /** `write`. */
    method Write(session: ResearchSession, tracker: Tracker) returns (out: Result<string>)
      requires tracker.session == session
      modifies session, tracker.clock, llm
      ensures var o := WriteEffect(old(session.State()), At(old(llm.replies), 0, Raised(Unscripted)),
                                   tracker.clock.reading(old(tracker.clock.ticks)),
                                   tracker.clock.reading(old(tracker.clock.ticks) + 1), tracker.pricing);
        session.State() == o.state && out == o.result
      ensures tracker.clock.ticks == old(tracker.clock.ticks) + (if out.Failure? then 1 else 2)
      ensures old(session.findings) == [] ==> unchanged(llm)
      ensures old(session.findings) != [] ==>
        && llm.replies == Drop(old(llm.replies), 1) && llm.streams == old(llm.streams)
        && llm.prompts == old(llm.prompts) + [WriterPrompt(session.query, old(session.findings))]
    {
      if session.findings == [] {
        var report := ReportNothing(session, tracker);
        return Success(report);
      }
      Begin(session, tracker);
      session.Log(ComposingLine(|session.findings|));
      var reply := llm.Complete(WriterPrompt(session.query, session.findings));
      if reply.Raised? {
        return Failure(reply.error);
      }
      var report := Publish(session, tracker, reply.completion);
      out := Success(report);
    }

    /** What `write` does with an answer. */
    method Publish(session: ResearchSession, tracker: Tracker, c: Completion) returns (report: string)
      requires tracker.session == session
      modifies session, tracker.clock
      ensures report == Trim(c.text)
      ensures var s3 := old(session.State()).(report := report, success := true).WithStatus(Writer, Done).Log(CompleteLine(|report|));
        session.State() == EndAgent(s3, Writer, c.promptTokens, c.completionTokens, 1,
                                    tracker.clock.reading(old(tracker.clock.ticks)), tracker.pricing)
      ensures tracker.clock.ticks == old(tracker.clock.ticks) + 1
    {
      report := Trim(c.text);
      session.report := report;
      session.success := true;
      session.SetAgentStatus(Writer, Done);
      session.Log(CompleteLine(|report|));
      tracker.End(Writer, c.promptTokens, c.completionTokens, 1);
    }

    /** The `for chunk in stream` loop: the fragments it yields and the
        report they add up to. */
    method Consume(deltas: seq<Option<string>>) returns (fragments: seq<string>, fullReport: string)
      ensures fragments == Fragments(deltas) && fullReport == Concat(fragments)
    {
      fragments, fullReport := [], "";
      for i := 0 to |deltas|
        invariant fragments == Fragments(deltas[..i]) && fullReport == Concat(fragments)
      {
        assert deltas[..i + 1][..i] == deltas[..i];
        var token := deltas[i];
        if token.Some? && token.value != "" {
          fullReport := fullReport + token.value;
          fragments := fragments + [token.value];
          assert (fragments)[..|fragments| - 1] == fragments[..|fragments| - 1];
        }
      }
      assert deltas[..|deltas|] == deltas;
    }

    /** `write_stream`, consumed to the end. */
    method WriteStream(session: ResearchSession, tracker: Tracker) returns (out: Result<seq<string>>)
      requires tracker.session == session
      modifies session, tracker.clock, llm
      ensures var o := WriteStreamEffect(old(session.State()), At(old(llm.streams), 0, StreamRaised(Unscripted)),
                                         tracker.clock.reading(old(tracker.clock.ticks)),
                                         tracker.clock.reading(old(tracker.clock.ticks) + 1), tracker.pricing);
        session.State() == o.state && out == o.result
      ensures tracker.clock.ticks == old(tracker.clock.ticks) + (if out.Failure? then 1 else 2)
      ensures old(session.findings) == [] ==> unchanged(llm)
      ensures old(session.findings) != [] ==>
        && llm.streams == Drop(old(llm.streams), 1) && llm.replies == old(llm.replies)
        && llm.prompts == old(llm.prompts) + [WriterPrompt(session.query, old(session.findings))]
    {
      if session.findings == [] {
        var report := ReportNothing(session, tracker);
        return Success([report]);
      }
      Begin(session, tracker);
      var stream := llm.Stream(WriterPrompt(session.query, session.findings));
      if stream.StreamRaised? {
        return Failure(stream.error);
      }
      var fragments, fullReport := Consume(stream.deltas);
      Conclude(session, tracker, fullReport);
      out := Success(fragments);
    }

    /** What `write_stream` does once the stream is exhausted. */
    method Conclude(session: ResearchSession, tracker: Tracker, fullReport: string)
      requires tracker.session == session
      modifies session, tracker.clock
      ensures var s3 := old(session.State()).(report := fullReport, success := true).WithStatus(Writer, Done).Log(StreamedLine(|fullReport|));
        session.State() == EndAgent(s3, Writer, 500, Estimate(fullReport), 1,
                                    tracker.clock.reading(old(tracker.clock.ticks)), tracker.pricing)
      ensures tracker.clock.ticks == old(tracker.clock.ticks) + 1
    {
      session.report := fullReport;
      session.success := true;
      session.SetAgentStatus(Writer, Done);
      session.Log(StreamedLine(|fullReport|));
      tracker.End(Writer, 500, Estimate(fullReport), 1);
    }
  }
}
