/** agents/planner.py: the planner asks the language model to break the
    research question into sub-queries, parses the answer (a list literal,
    or failing that one query per line), and records the outcome on the
    session. */
module Planner {
  import opened Wrappers
  import opened Seqs
  import opened Text
  import opened Session
  import opened Oracles
  import opened Monitoring

  // ---------------------------------------------------------------- parsing

  /** The characters `strip('"-,[]')` removes. */
  const Punctuation: set<char> := {'"', '-', ',', '[', ']'}

  /** A line the fallback considers at all: not blank and not a lone bracket. */
  predicate Considered(line: string) {
    var t := Trim(line);
    t != "" && t != "[" && t != "]"
  }

  /** What the fallback makes of a line: whitespace trimmed, then list
      punctuation. */
  function Cleaned(line: string): string {
    Strip(Trim(line), Punctuation)
  }

  /** The fallback keeps a line when it is considered and what is left of
      it is longer than five characters. */
  predicate Kept(line: string) {
    Considered(line) && |Cleaned(line)| > 5
  }

  function FallbackLines(lines: seq<string>): seq<string> {
    if lines == [] then []
    else
      var last := lines[|lines| - 1];
      FallbackLines(lines[..|lines| - 1]) + (if Kept(last) then [Cleaned(last)] else [])
  }

  /** The newline-splitting fallback of `_parse_queries`. */
  function Fallback(raw: string): seq<string> {
    FallbackLines(Split(raw, '\n'))
  }

  /** `_parse_queries`. `literal` stands for `eval`: it gives the elements
      of the list the text evaluates to, each passed through `str`, and
      `None` when evaluation raises or gives something other than a list. */
  function ParsedQueries(raw: string, literal: string -> Option<seq<string>>): seq<string> {
    match literal(raw)
    case Some(qs) => qs
    case None => Fallback(raw)
  }

  /** The fallback handles the lines in order, each on its own. */
  lemma {:induction false} FallbackAppend(a: seq<string>, b: seq<string>)
    ensures FallbackLines(a + b) == FallbackLines(a) + FallbackLines(b)
    decreases |b|
  {
    if b == [] {
      assert a + b == a;
    } else {
      var ab := a + b;
      assert ab[..|ab| - 1] == a + b[..|b| - 1];
      FallbackAppend(a, b[..|b| - 1]);
    }
  }

  /** What the fallback keeps of a line is longer than five characters and
      neither starts nor ends with list punctuation. */
  lemma CleanedShape(line: string)
    requires Kept(line)
    ensures var q := Cleaned(line); |q| > 5 && q[0] !in Punctuation && q[|q| - 1] !in Punctuation
  {
    StripIsInfix(Trim(line), Punctuation);
  }

  /** The fallback gives at most one query per line; a query comes from a
      kept line and every kept line gives its query. */
  lemma {:induction false} FallbackMembers(lines: seq<string>)
    ensures var r := FallbackLines(lines);
      && |r| <= |lines|
      && (forall q :: q in r <==> exists k :: 0 <= k < |lines| && Kept(lines[k]) && Cleaned(lines[k]) == q)
  {
    if lines != [] {
      var init, last := lines[..|lines| - 1], lines[|lines| - 1];
      FallbackMembers(init);
      assert FallbackLines(lines) == FallbackLines(init) + (if Kept(last) then [Cleaned(last)] else []);
      forall q | (exists k :: 0 <= k < |lines| && Kept(lines[k]) && Cleaned(lines[k]) == q)
        ensures q in FallbackLines(lines)
      {
        var k :| 0 <= k < |lines| && Kept(lines[k]) && Cleaned(lines[k]) == q;
        if k < |init| {
          assert init[k] == lines[k];
        }
      }
      forall q | q in FallbackLines(init)
        ensures exists k :: 0 <= k < |lines| && Kept(lines[k]) && Cleaned(lines[k]) == q
      {
        var k :| 0 <= k < |init| && Kept(init[k]) && Cleaned(init[k]) == q;
        assert lines[k] == init[k];
      }
    }
  }

  /** Every query the fallback gives has the shape `CleanedShape` states. */
  lemma FallbackShape(lines: seq<string>)
    ensures forall q :: q in FallbackLines(lines) ==> |q| > 5 && q[0] !in Punctuation && q[|q| - 1] !in Punctuation
  {
    FallbackMembers(lines);
    forall q | q in FallbackLines(lines)
      ensures |q| > 5 && q[0] !in Punctuation && q[|q| - 1] !in Punctuation
    {
      var k :| 0 <= k < |lines| && Kept(lines[k]) && Cleaned(lines[k]) == q;
      CleanedShape(lines[k]);
    }
  }

  /** When the text evaluates to a list, the queries are its elements in
      order; otherwise they are the fallback's, so parsing always gives a
      list, possibly empty. */
  lemma ParsedQueriesFacts(raw: string, literal: string -> Option<seq<string>>)
    ensures var r := ParsedQueries(raw, literal);
      && (literal(raw).Some? ==> |r| == |literal(raw).value| && forall k :: 0 <= k < |r| ==> r[k] == literal(raw).value[k])
      && (literal(raw).None? ==> forall q :: q in r ==> |q| > 5 && exists line :: line in Split(raw, '\n') && Kept(line) && Cleaned(line) == q)
  {
    if literal(raw).None? {
      var lines := Split(raw, '\n');
      FallbackMembers(lines);
      FallbackShape(lines);
      forall q | q in ParsedQueries(raw, literal)
        ensures exists line :: line in lines && Kept(line) && Cleaned(line) == q
      {
        var k :| 0 <= k < |lines| && Kept(lines[k]) && Cleaned(lines[k]) == q;
        assert lines[k] in lines;
      }
    }
  }

  /** A dash-and-blank bullet loses only its dash: Python's `strip()` runs
      before the punctuation is stripped, so the blank stays. */
  lemma BulletKeepsBlank(text: string)
    requires |text| >= 5 && 'a' <= text[|text| - 1] <= 'z'
    ensures Trim("- " + text) == "- " + text && Kept("- " + text)
    ensures Cleaned("- " + text) == " " + text
  {
    var line := "- " + text;
    var z := line[|line| - 1];
    assert z == text[|text| - 1];
    assert z !in Whitespace && z !in Punctuation;
    assert line[0] !in Whitespace;
    assert Trim(line) == line;
    assert line[1..] == " " + text;
    assert StripLeft(line[1..], Punctuation) == line[1..];
    assert StripLeft(line, Punctuation) == line[1..];
  }

  lemma FallbackOne(line: string)
    ensures FallbackLines([line]) == if Kept(line) then [Cleaned(line)] else []
  {
    assert [line][..0] == [];
  }

  /** The bulleted answer the planner's tests use, built from its three
      topics. */
  const TopicA: string := "AI diagnostics"
  const TopicB: string := "ML imaging"
  const TopicC: string := "drug discovery"
  const BulletedAnswer: string := "- " + TopicA + "\n" + "- " + TopicB + "\n" + "- " + TopicC

  lemma SplitThree(a: string, b: string, c: string)
    requires '\n' !in a && '\n' !in b && '\n' !in c
    ensures Split(a + "\n" + b + "\n" + c, '\n') == [a, b, c]
  {
    assert a + "\n" + b + "\n" + c == a + ['\n'] + (b + ['\n'] + c);
    SplitWhole(c, '\n');
    SplitFirstPiece(b, '\n', c);
    SplitFirstPiece(a, '\n', b + ['\n'] + c);
  }

  /** Three bulleted lines give three queries, each starting with the
      blank that followed its dash. */
  lemma ThreeBullets(a: string, b: string, c: string)
    requires '\n' !in a && '\n' !in b && '\n' !in c
    requires |a| >= 5 && 'a' <= a[|a| - 1] <= 'z'
    requires |b| >= 5 && 'a' <= b[|b| - 1] <= 'z'
    requires |c| >= 5 && 'a' <= c[|c| - 1] <= 'z'
    ensures Fallback("- " + a + "\n" + "- " + b + "\n" + "- " + c) == [" " + a, " " + b, " " + c]
  {
    var la, lb, lc := "- " + a, "- " + b, "- " + c;
    assert "- " + a + "\n" + "- " + b + "\n" + "- " + c == la + "\n" + lb + "\n" + lc;
    assert Split(la + "\n" + lb + "\n" + lc, '\n') == [la, lb, lc] by {
      assert '\n' !in la && '\n' !in lb && '\n' !in lc;
      SplitThree(la, lb, lc);
    }
    assert FallbackLines([la, lb, lc]) == FallbackLines([la]) + FallbackLines([lb]) + FallbackLines([lc]) by {
      assert [la, lb, lc] == [la] + [lb] + [lc];
      FallbackAppend([la] + [lb], [lc]);
      FallbackAppend([la], [lb]);
    }
    assert FallbackLines([la]) == [" " + a] by {
      BulletKeepsBlank(a);
      FallbackOne(la);
    }
    assert FallbackLines([lb]) == [" " + b] by {
      BulletKeepsBlank(b);
      FallbackOne(lb);
    }
    assert FallbackLines([lc]) == [" " + c] by {
      BulletKeepsBlank(c);
      FallbackOne(lc);
    }
  }

  /** The planner's bulleted example. */
  lemma BulletExample()
    ensures Fallback(BulletedAnswer) == [" " + TopicA, " " + TopicB, " " + TopicC]
  {
    ThreeBullets(TopicA, TopicB, TopicC);
  }

  // ---------------------------------------------------------------- plan

  function BreakingLine(query: string): string {
    "Planner: breaking down '" + query + "'"
  }

  function SubQueryLine(i: nat, q: string): string {
    "  Sub-query " + NatToString(i) + ": " + q
  }

  /** The log lines `plan` writes for the sub-queries, numbered from 1. */
  function SubQueryLines(qs: seq<string>): seq<string> {
    seq(|qs|, k requires 0 <= k < |qs| => SubQueryLine(k + 1, qs[k]))
  }

  /** The opening of `plan`: RUNNING, the start stamp and the line naming
      the question. */
  function PlanOpened(s: SessionState, t0: int): SessionState {
    StartAgent(s.WithStatus(Planner, Running), Planner, t0).Log(BreakingLine(s.query))
  }

  /** `plan` on a session in state `s` when the model's call produces `reply`,
      with the clock reading `t0` at `tracker.start` and `t1` at
      `tracker.end`. */
  function PlanEffect(s: SessionState, reply: Reply, literal: string -> Option<seq<string>>,
                      t0: int, t1: int, rates: Rates): Outcome<seq<string>> {
    var s1 := PlanOpened(s, t0);
    match reply
    case Raised(e) => Outcome(s1.WithStatus(Planner, Failed).(error := Some(e)), Failure(e))
    case Answer(c) =>
      var s2 := EndAgent(s1, Planner, c.promptTokens, c.completionTokens, 1, t1, rates);
      var qs := ParsedQueries(Trim(c.text), literal);
      var s3 := s2.(subQueries := qs).WithStatus(Planner, Done);
      Outcome(s3.(logs := s3.logs + SubQueryLines(qs)), Success(qs))
  }

  /** On an answer the planner ends DONE with the parsed queries stored and
      returned, one logged line per query, the reported tokens and one call
      added, and the error untouched. On an exception it ends FAILED with the
      message stored as the session's error and raised again, the
      sub-queries untouched and no end stamp. Either way one log line names
      the question, and no other agent's status or metrics change. */
  lemma PlanFacts(s: SessionState, reply: Reply, literal: string -> Option<seq<string>>, t0: int, t1: int, model: string)
    ensures var o := PlanEffect(s, reply, literal, t0, t1, RatesFor(model));
      var st, m, m' := o.state, s.metrics.Get(Planner), o.state.metrics.Get(Planner);
      && st.rawResults == s.rawResults && st.findings == s.findings && st.query == s.query
      && st.report == s.report && st.sources == s.sources && st.success == s.success
      && (forall a :: a != Planner ==> st.statuses.Get(a) == s.statuses.Get(a) && st.metrics.Get(a) == s.metrics.Get(a))
      && (exists k :: 0 <= k < |st.logs| && Contains(st.logs[k], s.query))
      && m'.startTime == Some(t0)
      && (reply.Answer? ==>
            var qs := ParsedQueries(Trim(reply.completion.text), literal);
            && o.result == Success(qs) && st.subQueries == qs && st.statuses.Get(Planner) == Done
            && st.error == s.error && |st.logs| == |s.logs| + 3 + |qs|
            && st.logs[|s.logs| + 3..] == SubQueryLines(qs)
            && m'.inputTokens == m.inputTokens + reply.completion.promptTokens
            && m'.outputTokens == m.outputTokens + reply.completion.completionTokens
            && m'.llmCalls == m.llmCalls + 1 && m'.endTime == Some(t1))
      && (reply.Raised? ==>
            && o.result == Failure(reply.error) && st.error == Some(reply.error)
            && st.statuses.Get(Planner) == Failed && st.subQueries == s.subQueries
            && m'.endTime == m.endTime && m'.llmCalls == m.llmCalls)
  {
    var s0 := s.WithStatus(Planner, Running);
    WithStatusFacts(s, Planner, Running);
    var s1 := PlanOpened(s, t0);
    assert s1.logs[|s.logs| + 1] == BreakingLine(s.query);
    ContainsInfix("Planner: breaking down '", s.query, "'");
    match reply
    case Raised(e) =>
      WithStatusFacts(s1, Planner, Failed);
      assert PlanEffect(s, reply, literal, t0, t1, RatesFor(model)).state.logs[|s.logs| + 1] == s1.logs[|s.logs| + 1];
    case Answer(c) =>
      var s2 := EndAgent(s1, Planner, c.promptTokens, c.completionTokens, 1, t1, RatesFor(model));
      EndAccumulates(s1, Planner, c.promptTokens, c.completionTokens, 1, t1, model);
      var qs := ParsedQueries(Trim(c.text), literal);
      WithStatusFacts(s2.(subQueries := qs), Planner, Done);
      var st := PlanEffect(s, reply, literal, t0, t1, RatesFor(model)).state;
      assert st.logs[|s.logs| + 1] == s1.logs[|s.logs| + 1];
  }

  /** An answer that is a list literal. */
  const ListAnswer: string := "[\"query 1\", \"query 2\"]"

  /** A model answering with a list literal: the planner stores that list
      as the sub-queries, ends DONE and returns it. */
  lemma ListAnswerExample(s: SessionState, literal: string -> Option<seq<string>>,
                          pt: nat, ct: nat, t0: int, t1: int, model: string)
    requires literal(ListAnswer) == Some(["query 1", "query 2"])
    ensures var o := PlanEffect(s, Answer(Completion(ListAnswer, pt, ct)), literal, t0, t1, RatesFor(model));
      && o.state.subQueries == ["query 1", "query 2"]
      && o.state.statuses.Get(Planner) == Done
      && o.result == Success(["query 1", "query 2"])
  {
    var z := ListAnswer[|ListAnswer| - 1];
    assert ListAnswer[0] == '[' && z == ']';
    assert ListAnswer[0] !in Whitespace && z !in Whitespace;
    assert StripLeft(ListAnswer, Whitespace) == ListAnswer;
    assert Trim(ListAnswer) == ListAnswer;
    PlanFacts(s, Answer(Completion(ListAnswer, pt, ct)), literal, t0, t1, model);
  }

  // ---------------------------------------------------------------- the agent

  class PlannerAgent {
    const llm: LanguageModel
    const model: string
    /** `eval` followed by `str` on each element of a resulting list. */
    const literal: string -> Option<seq<string>>

    constructor (llm: LanguageModel, model: string, literal: string -> Option<seq<string>>)
      ensures this.llm == llm && this.model == model && this.literal == literal
    {
      this.llm := llm;
      this.model := model;
      this.literal := literal;
    }

    /** `_parse_queries`: the fallback's comprehensions as one pass over the
        lines. */
    method ParseQueries(raw: string) returns (qs: seq<string>)
      ensures qs == ParsedQueries(raw, literal)
    {
      var evaluated := literal(raw);
      if evaluated.Some? {
        return evaluated.value;
      }
      var lines := Split(raw, '\n');
      qs := [];
      for i := 0 to |lines|
        invariant qs == FallbackLines(lines[..i])
      {
        assert lines[..i + 1][..i] == lines[..i];
        var t := Trim(lines[i]);
        if t != "" && t != "[" && t != "]" {
          var l := Strip(t, Punctuation);
          if |l| > 5 {
            qs := qs + [l];
          }
        }
      }
      assert lines[..|lines|] == lines;
    }

    /** The `enumerate` loop logging the sub-queries. */
    method LogQueries(session: ResearchSession, qs: seq<string>)
      modifies session
      ensures session.State() == old(session.State()).(logs := old(session.logs) + SubQueryLines(qs))
    {
      ghost var s0 := session.State();
      for i := 0 to |qs|
        invariant session.State() == s0.(logs := s0.logs + SubQueryLines(qs)[..i])
      {
        assert SubQueryLines(qs)[..i + 1] == SubQueryLines(qs)[..i] + [SubQueryLine(i + 1, qs[i])];
        AppendOne(s0.logs, SubQueryLines(qs)[..i], SubQueryLine(i + 1, qs[i]));
        session.Log(SubQueryLine(i + 1, qs[i]));
      }
      assert SubQueryLines(qs)[..|qs|] == SubQueryLines(qs);
    }

    /** The opening of `plan`, up to the line naming the question. */
    method Open(session: ResearchSession, tracker: Tracker)
      requires tracker.session == session
      modifies session, tracker.clock
      ensures session.State() == PlanOpened(old(session.State()), tracker.clock.reading(old(tracker.clock.ticks)))
      ensures tracker.clock.ticks == old(tracker.clock.ticks) + 1
    {
      session.SetAgentStatus(Planner, Running);
      tracker.Start(Planner);
      session.Log(BreakingLine(session.query));
    }

    /** What `plan` does with an answer. */
    method Accept(session: ResearchSession, tracker: Tracker, c: Completion) returns (qs: seq<string>)
      requires tracker.session == session
      modifies session, tracker.clock
      ensures qs == ParsedQueries(Trim(c.text), literal)
      ensures var s2 := EndAgent(old(session.State()), Planner, c.promptTokens, c.completionTokens, 1,
                                 tracker.clock.reading(old(tracker.clock.ticks)), tracker.pricing);
        var s3 := s2.(subQueries := qs).WithStatus(Planner, Done);
        session.State() == s3.(logs := s3.logs + SubQueryLines(qs))
      ensures tracker.clock.ticks == old(tracker.clock.ticks) + 1
    {
      tracker.End(Planner, c.promptTokens, c.completionTokens, 1);
      qs := ParseQueries(Trim(c.text));
      session.subQueries := qs;
      session.SetAgentStatus(Planner, Done);
      LogQueries(session, qs);
    }

    /** `plan`: the user message is the question itself. */
    method Plan(session: ResearchSession, tracker: Tracker) returns (out: Result<seq<string>>)
      requires tracker.session == session
      modifies session, tracker.clock, llm
      ensures var o := PlanEffect(old(session.State()), At(old(llm.replies), 0, Raised(Unscripted)), literal,
                                  tracker.clock.reading(old(tracker.clock.ticks)),
                                  tracker.clock.reading(old(tracker.clock.ticks) + 1), tracker.pricing);
        session.State() == o.state && out == o.result
      ensures tracker.clock.ticks == old(tracker.clock.ticks) + (if out.Failure? then 1 else 2)
      ensures llm.replies == Drop(old(llm.replies), 1) && llm.streams == old(llm.streams)
      ensures llm.prompts == old(llm.prompts) + [session.query]
    {
      Open(session, tracker);
      var reply := llm.Complete(session.query);
      if reply.Raised? {
        session.SetAgentStatus(Planner, Failed);
        session.error := Some(reply.error);
        return Failure(reply.error);
      }
      var qs := Accept(session, tracker, reply.completion);
      out := Success(qs);
    }
  }
}
