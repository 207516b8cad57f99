/** agents/analyst.py: gathers the researchers' results, keeps those whose
    search score passes a two-level threshold, asks the language model to
    judge each against the original question, and records the approved ones
    on the session, best first. */
module Analyst {
  import opened Wrappers
  import opened Seqs
  import opened Text
  import opened WebSearch
  import opened Session
  import opened Oracles
  import opened Monitoring

  const StrictThreshold: real := 0.5
  const RelaxedThreshold: real := 0.3

  // ---------------------------------------------------------------- collecting

  /** `_collect_results`: the results of the successful outputs, in order. */
  function Collected(outputs: seq<ResearchOutput>): seq<SearchResult> {
    if outputs == [] then []
    else
      var last := outputs[|outputs| - 1];
      Collected(outputs[..|outputs| - 1]) + (if last.success then last.results else [])
  }

  function SkipLine(o: ResearchOutput): string {
    "Analyst: skipping failed search '" + o.query + "' (" + IntToString(o.attempts) + " attempts)"
  }

  /** The log lines `_collect_results` writes: one per failed output. */
  function SkipLines(outputs: seq<ResearchOutput>): seq<string> {
    if outputs == [] then []
    else
      var last := outputs[|outputs| - 1];
      SkipLines(outputs[..|outputs| - 1]) + (if last.success then [] else [SkipLine(last)])
  }

  /** Collecting distributes over concatenation of the outputs, so the
      results come out in the order of the outputs and of each list. */
  lemma {:induction false} CollectedAppend(a: seq<ResearchOutput>, b: seq<ResearchOutput>)
    ensures Collected(a + b) == Collected(a) + Collected(b)
    ensures SkipLines(a + b) == SkipLines(a) + SkipLines(b)
    decreases |b|
  {
    if b != [] {
      var init := b[..|b| - 1];
      assert (a + b)[..|a + b| - 1] == a + init;
      CollectedAppend(a, init);
    } else {
      assert a + b == a;
    }
  }

  /** A result is collected exactly when some successful output holds it. */
  lemma {:induction false} CollectedMembers(outputs: seq<ResearchOutput>, x: SearchResult)
    ensures x in Collected(outputs) <==> exists i :: 0 <= i < |outputs| && outputs[i].success && x in outputs[i].results
  {
    if outputs != [] {
      var n := |outputs| - 1;
      var init := outputs[..n];
      CollectedMembers(init, x);
      assert forall i :: 0 <= i < n ==> init[i] == outputs[i];
    }
  }

  /** There is one skip line per failed output. */
  lemma {:induction false} SkipLinesCount(outputs: seq<ResearchOutput>)
    ensures |SkipLines(outputs)| == |set i | 0 <= i < |outputs| && !outputs[i].success|
  {
    if outputs != [] {
      var n := |outputs| - 1;
      var init := outputs[..n];
      SkipLinesCount(init);
      var failed := set i | 0 <= i < |outputs| && !outputs[i].success;
      var failedInit := set i | 0 <= i < n && !init[i].success;
      if outputs[n].success {
        assert failed == failedInit;
      } else {
        assert failed == failedInit + {n};
      }
    }
  }

  // ---------------------------------------------------------------- pre-filter

  /** `[r for r in rs if r.relevance_score >= t]`. */
  function AtLeast(rs: seq<SearchResult>, t: real): seq<SearchResult> {
    if rs == [] then []
    else
      var last := rs[|rs| - 1];
      AtLeast(rs[..|rs| - 1], t) + (if last.score >= t then [last] else [])
  }

  /** The score filter: at least the strict threshold, or, when that keeps
      nothing, at least the relaxed one. */
  function PreFilter(rs: seq<SearchResult>): seq<SearchResult> {
    var strict := AtLeast(rs, StrictThreshold);
    if strict != [] then strict else AtLeast(rs, RelaxedThreshold)
  }

  /** The filter keeps exactly the results that reach the threshold, never
      more than it is given, and distributes over concatenation (so it keeps
      their order). */
  lemma {:induction false} AtLeastFacts(rs: seq<SearchResult>, t: real)
    ensures var r := AtLeast(rs, t);
      |r| <= |rs| && (forall x :: x in r <==> x in rs && x.score >= t)
  {
    if rs != [] {
      AtLeastFacts(rs[..|rs| - 1], t);
      assert rs == rs[..|rs| - 1] + [rs[|rs| - 1]];
    }
  }

  lemma {:induction false} AtLeastAppend(a: seq<SearchResult>, b: seq<SearchResult>, t: real)
    ensures AtLeast(a + b, t) == AtLeast(a, t) + AtLeast(b, t)
    decreases |b|
  {
    if b != [] {
      var init := b[..|b| - 1];
      assert (a + b)[..|a + b| - 1] == a + init;
      AtLeastAppend(a, init, t);
    } else {
      assert a + b == a;
    }
  }

  /** The relaxed threshold is used only when nothing reaches the strict
      one, and there is no further relaxation: the filter is empty exactly
      when no result reaches 0.3. */
  lemma PreFilterFacts(rs: seq<SearchResult>)
    ensures AtLeast(rs, StrictThreshold) != [] ==> PreFilter(rs) == AtLeast(rs, StrictThreshold)
    ensures AtLeast(rs, StrictThreshold) == [] ==> PreFilter(rs) == AtLeast(rs, RelaxedThreshold)
    ensures forall x :: x in PreFilter(rs) ==> x in rs && x.score >= RelaxedThreshold
    ensures PreFilter(rs) == [] <==> forall x :: x in rs ==> x.score < RelaxedThreshold
  {
    AtLeastFacts(rs, StrictThreshold);
    AtLeastFacts(rs, RelaxedThreshold);
    if PreFilter(rs) != [] {
      var x := PreFilter(rs)[0];
      assert x in PreFilter(rs);
    }
  }

  // ---------------------------------------------------------------- judgments

  /** The dictionary `_parse_judgment` returns. */
  datatype Judgment = Judgment(relevant: bool, score: real, reason: string)

  const NoJudgment: Judgment := Judgment(false, 0.0, "")

  /** The score `_parse_judgment` records when `float` rejects the text. */
  const UnparsedScore: real := 0.5

  /** `line.split(":")[1].strip()`. */
  function ScoreText(line: string): string {
    Trim(UpTo(AfterFirst(line, ':'), ':'))
  }

  /** `line.split(":", 1)[1].strip()`. */
  function ReasonText(line: string): string {
    Trim(AfterFirst(line, ':'))
  }

  /** The score of a `score:` line; `toFloat` is Python's `float`, `None`
      where it raises `ValueError`. */
  function ScoreOf(line: string, toFloat: string -> Option<real>): real {
    toFloat(ScoreText(line)).GetOr(UnparsedScore)
  }

  /** One iteration of the loop of `_parse_judgment`. */
  function JudgeLine(j: Judgment, line: string, toFloat: string -> Option<real>): Judgment {
    if StartsWith(line, "relevant:") then j.(relevant := Contains(line, "yes"))
    else if StartsWith(line, "score:") then j.(score := ScoreOf(line, toFloat))
    else if StartsWith(line, "reason:") then j.(reason := ReasonText(line))
    else j
  }

  /** The loop of `_parse_judgment` over `lines`, from the defaults. */
  function JudgeLines(lines: seq<string>, toFloat: string -> Option<real>): Judgment {
    if lines == [] then NoJudgment
    else JudgeLine(JudgeLines(lines[..|lines| - 1], toFloat), lines[|lines| - 1], toFloat)
  }

  /** `_parse_judgment`: lower-case, split into lines, fold. */
  function ParsedJudgment(judgment: string, toFloat: string -> Option<real>): Judgment {
    JudgeLines(Split(Lower(judgment), '\n'), toFloat)
  }

  /** The index of the last line that starts with `prefix`. */
  function LastStarting(lines: seq<string>, prefix: string): (r: Option<nat>)
    ensures r.Some? ==> r.value < |lines| && StartsWith(lines[r.value], prefix)
  {
    if lines == [] then None
    else if StartsWith(lines[|lines| - 1], prefix) then Some(|lines| - 1)
    else LastStarting(lines[..|lines| - 1], prefix)
  }

  /** No line after the one `LastStarting` finds starts with `prefix`, and
      none at all when it finds nothing. */
  lemma {:induction false} LastStartingIsLast(lines: seq<string>, prefix: string)
    ensures var r := LastStarting(lines, prefix);
      forall k :: 0 <= k < |lines| && (r.None? || r.value < k) ==> !StartsWith(lines[k], prefix)
  {
    if lines != [] && !StartsWith(lines[|lines| - 1], prefix) {
      LastStartingIsLast(lines[..|lines| - 1], prefix);
    }
  }

  /** A line starts with at most one of the three keys. */
  lemma KeysExclusive(line: string)
    ensures !(StartsWith(line, "relevant:") && StartsWith(line, "score:"))
    ensures !(StartsWith(line, "relevant:") && StartsWith(line, "reason:"))
    ensures !(StartsWith(line, "score:") && StartsWith(line, "reason:"))
  {
    if StartsWith(line, "relevant:") {
      assert line[2] == "relevant:"[2];
    }
    if StartsWith(line, "score:") {
      assert line[0] == "score:"[0];
    }
    if StartsWith(line, "reason:") {
      assert line[2] == "reason:"[2];
    }
  }

  /** Later lines override earlier ones: each field is set by the last
      line with its key, and keeps its default when no line has the key.
      First the relevance flag, ... */
  lemma {:induction false} LastRelevantWins(lines: seq<string>, toFloat: string -> Option<real>)
    ensures JudgeLines(lines, toFloat).relevant
      == match LastStarting(lines, "relevant:") case None => false case Some(k) => Contains(lines[k], "yes")
  {
    if lines != [] {
      LastRelevantWins(lines[..|lines| - 1], toFloat);
      KeysExclusive(lines[|lines| - 1]);
    }
  }

  /** ... then the score, ... */
  lemma {:induction false} LastScoreWins(lines: seq<string>, toFloat: string -> Option<real>)
    ensures JudgeLines(lines, toFloat).score
      == match LastStarting(lines, "score:") case None => 0.0 case Some(k) => ScoreOf(lines[k], toFloat)
  {
    if lines != [] {
      LastScoreWins(lines[..|lines| - 1], toFloat);
      KeysExclusive(lines[|lines| - 1]);
    }
  }

  /** ... and the reason. */
  lemma {:induction false} LastReasonWins(lines: seq<string>, toFloat: string -> Option<real>)
    ensures JudgeLines(lines, toFloat).reason
      == match LastStarting(lines, "reason:") case None => "" case Some(k) => ReasonText(lines[k])
  {
    if lines != [] {
      LastReasonWins(lines[..|lines| - 1], toFloat);
      KeysExclusive(lines[|lines| - 1]);
    }
  }

  /** Only the lower-cased text matters: the keys and "yes" match in any
      letter case. */
  lemma ParsedJudgmentIgnoresCase(judgment: string, toFloat: string -> Option<real>)
    ensures ParsedJudgment(Lower(judgment), toFloat) == ParsedJudgment(judgment, toFloat)
  {
    assert Lower(Lower(judgment)) == Lower(judgment);
  }

  // ---------------------------------------------------------------- judging

  /** The user message of one judgment request. */
  function JudgePrompt(query: string, r: SearchResult): string {
    "Research question: \"" + query + "\"\n\nResult title: " + r.title + "\nResult summary: " + r.summary
    + "\n\nAnswer in this exact format:\nRELEVANT: yes/no\nSCORE: 0.0-1.0\nREASON: one sentence"
  }

  function JudgePrompts(query: string, rs: seq<SearchResult>): seq<string> {
    seq(|rs|, k requires 0 <= k < |rs| => JudgePrompt(query, rs[k]))
  }

  lemma JudgePromptsStep(query: string, rs: seq<SearchResult>, i: nat)
    requires i < |rs|
    ensures JudgePrompts(query, rs[..i + 1]) == JudgePrompts(query, rs[..i]) + [JudgePrompt(query, rs[i])]
  {
  }

  function FindingOf(r: SearchResult, j: Judgment): Finding {
    Finding(r.title, r.url, r.summary, j.score, j.reason)
  }

  /** What `_judge_relevance` has done: the approved findings and summed
      token counts so far, how many requests it sent, and the message of
      the exception that stopped it, if one did. */
  datatype Judging = Judging(findings: seq<Finding>, inTokens: nat, outTokens: nat, calls: nat, error: Option<string>)

  /** `_judge_relevance` over `rs`, the `k`-th request answered by the
      `k`-th reply of the script. */
  function JudgeAll(rs: seq<SearchResult>, replies: seq<Reply>, toFloat: string -> Option<real>): Judging {
    if rs == [] then Judging([], 0, 0, 0, None)
    else
      var before := JudgeAll(rs[..|rs| - 1], replies, toFloat);
      if before.error.Some? then before
      else
        match At(replies, |rs| - 1, Raised(Unscripted))
        case Raised(e) => before.(calls := before.calls + 1, error := Some(e))
        case Answer(c) =>
          var v := ParsedJudgment(Trim(c.text), toFloat);
          before.(findings := before.findings + (if v.relevant then [FindingOf(rs[|rs| - 1], v)] else []),
                  inTokens := before.inTokens + c.promptTokens,
                  outTokens := before.outTokens + c.completionTokens,
                  calls := before.calls + 1)
  }

  /** One request per result until one raises: with every reply an answer
      there are exactly `|rs|` requests; an exception stops the loop at the
      request that raised it, all earlier ones having been answered. */
  lemma {:induction false} JudgeAllCalls(rs: seq<SearchResult>, replies: seq<Reply>, toFloat: string -> Option<real>)
    ensures var j := JudgeAll(rs, replies, toFloat);
      && (j.error.None? ==> j.calls == |rs| && forall k :: 0 <= k < |rs| ==> AnsweredAt(replies, k))
      && (j.error.Some? ==>
            && 1 <= j.calls <= |rs| && !AnsweredAt(replies, j.calls - 1)
            && forall k :: 0 <= k < j.calls - 1 ==> AnsweredAt(replies, k))
  {
    if rs != [] {
      var n := |rs| - 1;
      var before := JudgeAll(rs[..n], replies, toFloat);
      JudgeAllCalls(rs[..n], replies, toFloat);
      var j := JudgeAll(rs, replies, toFloat);
      if before.error.Some? {
        assert j == before;
      } else if !AnsweredAt(replies, n) {
        assert j.calls == n + 1 && j.error.Some?;
      } else {
        assert j.error.None? && j.calls == n + 1;
        forall k | 0 <= k < |rs|
          ensures AnsweredAt(replies, k)
        {
          assert k < n || k == n;
        }
      }
    }
  }

  /** The loop's exception is the one the last request raised. */
  lemma {:induction false} JudgeAllError(rs: seq<SearchResult>, replies: seq<Reply>, toFloat: string -> Option<real>)
    ensures var j := JudgeAll(rs, replies, toFloat);
      j.error.Some? ==>
        && j.calls >= 1 && !AnsweredAt(replies, j.calls - 1)
        && j.error == Some(At(replies, j.calls - 1, Raised(Unscripted)).error)
  {
    if rs != [] {
      var n := |rs| - 1;
      var before := JudgeAll(rs[..n], replies, toFloat);
      JudgeAllError(rs[..n], replies, toFloat);
      if before.error.None? {
        JudgeAllCalls(rs[..n], replies, toFloat);
      }
    }
  }

  /** The judging ends without an exception exactly when every request
      is answered. */
  lemma JudgeAllSucceeds(rs: seq<SearchResult>, replies: seq<Reply>, toFloat: string -> Option<real>)
    ensures JudgeAll(rs, replies, toFloat).error.None? <==> forall k :: 0 <= k < |rs| ==> AnsweredAt(replies, k)
  {
    JudgeAllCalls(rs, replies, toFloat);
  }

  /** Without an exception the token counts are the sums over the `|rs|`
      replies. */
  lemma {:induction false} JudgeAllTokens(rs: seq<SearchResult>, replies: seq<Reply>, toFloat: string -> Option<real>)
    ensures var j := JudgeAll(rs, replies, toFloat);
      j.error.None? ==> j.inTokens == InputSum(replies, 0, |rs|) && j.outTokens == OutputSum(replies, 0, |rs|)
  {
    if rs != [] {
      var n := |rs| - 1;
      JudgeAllTokens(rs[..n], replies, toFloat);
      SumsStep(replies, 0, n);
    }
  }

  /** `f` is what an answer `reply` approving `r` produces. */
  predicate ApprovedAs(r: SearchResult, reply: Reply, toFloat: string -> Option<real>, f: Finding) {
    reply.Answer?
    && var v := ParsedJudgment(Trim(reply.completion.text), toFloat);
       v.relevant && f == FindingOf(r, v)
  }

  /** Every finding is an approved one: it copies the title, url and
      summary of a judged result and takes score and reason from that
      result's parsed judgment; there are no more findings than requests. */
  lemma {:induction false} JudgeAllFindings(rs: seq<SearchResult>, replies: seq<Reply>, toFloat: string -> Option<real>)
    ensures var j := JudgeAll(rs, replies, toFloat);
      && |j.findings| <= j.calls <= |rs|
      && forall f :: f in j.findings ==>
           exists k :: 0 <= k < j.calls && ApprovedAs(rs[k], At(replies, k, Raised(Unscripted)), toFloat, f)
  {
    if rs != [] {
      var n := |rs| - 1;
      var before := JudgeAll(rs[..n], replies, toFloat);
      JudgeAllFindings(rs[..n], replies, toFloat);
      forall f | f in before.findings
        ensures exists k :: 0 <= k < before.calls && ApprovedAs(rs[k], At(replies, k, Raised(Unscripted)), toFloat, f)
      {
        var k :| 0 <= k < before.calls && ApprovedAs(rs[..n][k], At(replies, k, Raised(Unscripted)), toFloat, f);
        assert rs[..n][k] == rs[k];
      }
      JudgeAllCalls(rs[..n], replies, toFloat);
      if before.error.None? {
        var reply := At(replies, n, Raised(Unscripted));
        if reply.Answer? {
          var v := ParsedJudgment(Trim(reply.completion.text), toFloat);
          if v.relevant {
            assert ApprovedAs(rs[n], reply, toFloat, FindingOf(rs[n], v));
          }
        }
      }
    }
  }

  /** What the answer `reply` to the request about `r` contributes: the
      finding when it approves `r`, nothing otherwise. */
  function Verdict(r: SearchResult, reply: Reply, toFloat: string -> Option<real>): seq<Finding> {
    if reply.Answer? && ParsedJudgment(Trim(reply.completion.text), toFloat).relevant
    then [FindingOf(r, ParsedJudgment(Trim(reply.completion.text), toFloat))]
    else []
  }

  /** The approved findings among `rs[i..]`, front to back, the `k`-th
      result judged by the `k`-th reply: a reference for `JudgeAll`. */
  function ApprovedFrom(rs: seq<SearchResult>, replies: seq<Reply>, toFloat: string -> Option<real>, i: nat): seq<Finding>
    requires i <= |rs|
    decreases |rs| - i
  {
    if i == |rs| then []
    else Verdict(rs[i], At(replies, i, Raised(Unscripted)), toFloat) + ApprovedFrom(rs, replies, toFloat, i + 1)
  }

  /** One more result extends the judging by one request: an exception is
      recorded as the error, an answer adds its verdict and its tokens. */
  lemma JudgeAllNext(rs: seq<SearchResult>, replies: seq<Reply>, toFloat: string -> Option<real>, i: nat)
    requires i < |rs| && JudgeAll(rs[..i], replies, toFloat).error.None?
    ensures var before, reply := JudgeAll(rs[..i], replies, toFloat), At(replies, i, Raised(Unscripted));
      var j := JudgeAll(rs[..i + 1], replies, toFloat);
      && j.calls == before.calls + 1 && j.findings == before.findings + Verdict(rs[i], reply, toFloat)
      && (reply.Raised? ==> j == before.(calls := before.calls + 1, error := Some(reply.error)))
      && (reply.Answer? ==>
            j == before.(findings := before.findings + Verdict(rs[i], reply, toFloat),
                         inTokens := before.inTokens + reply.completion.promptTokens,
                         outTokens := before.outTokens + reply.completion.completionTokens,
                         calls := before.calls + 1))
  {
    assert rs[..i + 1][..i] == rs[..i];
  }

  lemma {:induction false} ApprovedFromAppend(rs: seq<SearchResult>, x: SearchResult, replies: seq<Reply>,
                                              toFloat: string -> Option<real>, i: nat)
    requires i <= |rs|
    ensures ApprovedFrom(rs + [x], replies, toFloat, i)
         == ApprovedFrom(rs, replies, toFloat, i) + Verdict(x, At(replies, |rs|, Raised(Unscripted)), toFloat)
    decreases |rs| - i
  {
    var v := Verdict(x, At(replies, |rs|, Raised(Unscripted)), toFloat);
    if i < |rs| {
      var head := Verdict(rs[i], At(replies, i, Raised(Unscripted)), toFloat);
      ApprovedFromAppend(rs, x, replies, toFloat, i + 1);
      assert (rs + [x])[i] == rs[i];
      calc {
        ApprovedFrom(rs + [x], replies, toFloat, i);
        head + ApprovedFrom(rs + [x], replies, toFloat, i + 1);
        head + (ApprovedFrom(rs, replies, toFloat, i + 1) + v);
        (head + ApprovedFrom(rs, replies, toFloat, i + 1)) + v;
        ApprovedFrom(rs, replies, toFloat, i) + v;
      }
    } else {
      assert (rs + [x])[i] == x;
      assert ApprovedFrom(rs + [x], replies, toFloat, i + 1) == [];
      assert ApprovedFrom(rs + [x], replies, toFloat, i) == v + [];
    }
  }

  /** Every result in `rs[i..]` whose reply approves it has its finding in
      the reference filter. */
  lemma {:induction false} ApprovedFromMembers(rs: seq<SearchResult>, replies: seq<Reply>,
                                               toFloat: string -> Option<real>, i: nat, k: nat)
    requires i <= k < |rs| && AnsweredAt(replies, k)
    requires ParsedJudgment(Trim(At(replies, k, Raised(Unscripted)).completion.text), toFloat).relevant
    ensures FindingOf(rs[k], ParsedJudgment(Trim(At(replies, k, Raised(Unscripted)).completion.text), toFloat))
            in ApprovedFrom(rs, replies, toFloat, i)
    decreases k - i
  {
    var head := Verdict(rs[i], At(replies, i, Raised(Unscripted)), toFloat);
    assert ApprovedFrom(rs, replies, toFloat, i) == head + ApprovedFrom(rs, replies, toFloat, i + 1);
    if i < k {
      ApprovedFromMembers(rs, replies, toFloat, i + 1, k);
    } else {
      assert head[0] in ApprovedFrom(rs, replies, toFloat, i);
    }
  }

  /** `JudgeAllFindingsAre` for the prefix `rs[..i]`. */
  lemma {:induction false} JudgeAllFindingsPrefix(rs: seq<SearchResult>, replies: seq<Reply>,
                                                  toFloat: string -> Option<real>, i: nat)
    requires i <= |rs|
    ensures var j := JudgeAll(rs[..i], replies, toFloat);
      j.calls <= i && j.findings == ApprovedFrom(rs[..j.calls], replies, toFloat, 0)
  {
    if i > 0 {
      JudgeAllFindingsPrefix(rs, replies, toFloat, i - 1);
      var before := JudgeAll(rs[..i - 1], replies, toFloat);
      var j := JudgeAll(rs[..i], replies, toFloat);
      PrefixStep(rs, i - 1);
      if before.error.Some? {
        assert j == before;
      } else {
        JudgeAllCalls(rs[..i - 1], replies, toFloat);
        assert before.calls == i - 1;
        JudgeAllNext(rs, replies, toFloat, i - 1);
        var v := Verdict(rs[i - 1], At(replies, i - 1, Raised(Unscripted)), toFloat);
        assert j.calls == i && j.findings == before.findings + v;
        ApprovedFromAppend(rs[..i - 1], rs[i - 1], replies, toFloat, 0);
        assert ApprovedFrom(rs[..i], replies, toFloat, 0) == ApprovedFrom(rs[..i - 1], replies, toFloat, 0) + v;
      }
    }
  }

  /** The findings are exactly the approved results among those judged, in
      input order: every approved result once, and nothing else. */
  lemma JudgeAllFindingsAre(rs: seq<SearchResult>, replies: seq<Reply>, toFloat: string -> Option<real>)
    ensures var j := JudgeAll(rs, replies, toFloat);
      j.calls <= |rs| && j.findings == ApprovedFrom(rs[..j.calls], replies, toFloat, 0)
  {
    JudgeAllFindingsPrefix(rs, replies, toFloat, |rs|);
    assert rs[..|rs|] == rs;
  }

  /** Conversely to `JudgeAllFindings`: every judged result whose reply
      approves it yields its finding. */
  lemma JudgeAllComplete(rs: seq<SearchResult>, replies: seq<Reply>, toFloat: string -> Option<real>, k: nat)
    requires k < |rs| && k < JudgeAll(rs, replies, toFloat).calls && AnsweredAt(replies, k)
    requires ParsedJudgment(Trim(At(replies, k, Raised(Unscripted)).completion.text), toFloat).relevant
    ensures FindingOf(rs[k], ParsedJudgment(Trim(At(replies, k, Raised(Unscripted)).completion.text), toFloat))
            in JudgeAll(rs, replies, toFloat).findings
  {
    var j := JudgeAll(rs, replies, toFloat);
    JudgeAllFindingsAre(rs, replies, toFloat);
    ApprovedFromMembers(rs[..j.calls], replies, toFloat, 0, k);
    assert rs[..j.calls][k] == rs[k];
  }

  // ---------------------------------------------------------------- ranking

  /** Once a request has raised, the later results are never judged. */
  lemma {:induction false} JudgeAllStops(rs: seq<SearchResult>, m: nat, replies: seq<Reply>, toFloat: string -> Option<real>)
    requires m <= |rs| && JudgeAll(rs[..m], replies, toFloat).error.Some?
    ensures JudgeAll(rs, replies, toFloat) == JudgeAll(rs[..m], replies, toFloat)
  {
    if m < |rs| {
      var init := rs[..|rs| - 1];
      assert init[..m] == rs[..m];
      JudgeAllStops(init, m, replies, toFloat);
    } else {
      assert rs[..m] == rs;
    }
  }

  /** Inserts `x` after every element scoring at least as much. */
  function InsertDesc(sorted: seq<Finding>, x: Finding): seq<Finding> {
    if sorted == [] then [x]
    else if sorted[0].score < x.score then [x] + sorted
    else [sorted[0]] + InsertDesc(sorted[1..], x)
  }

  /** `findings.sort(key=relevance_score, reverse=True)`: a stable sort,
      highest score first. */
  function SortDesc(fs: seq<Finding>): seq<Finding> {
    if fs == [] then [] else InsertDesc(SortDesc(fs[..|fs| - 1]), fs[|fs| - 1])
  }

  predicate Descending(fs: seq<Finding>) {
    forall i, j :: 0 <= i < j < |fs| ==> fs[i].score >= fs[j].score
  }

  /** The elements with score `v`, in order. */
  function WithScore(fs: seq<Finding>, v: real): seq<Finding> {
    if fs == [] then []
    else WithScore(fs[..|fs| - 1], v) + (if fs[|fs| - 1].score == v then [fs[|fs| - 1]] else [])
  }

  lemma {:induction false} InsertDescFacts(sorted: seq<Finding>, x: Finding)
    requires Descending(sorted)
    ensures var r := InsertDesc(sorted, x);
      Descending(r) && forall i :: 0 <= i < |r| ==> r[i] == x || r[i] in sorted
  {
    if sorted != [] && sorted[0].score >= x.score {
      InsertDescFacts(sorted[1..], x);
      var r := InsertDesc(sorted, x);
      assert r == [sorted[0]] + InsertDesc(sorted[1..], x);
      forall i | 1 <= i < |r|
        ensures r[0].score >= r[i].score && (r[i] == x || r[i] in sorted)
      {
        assert r[i] == x || r[i] in sorted[1..];
      }
    }
  }

  /** Inserting adds `x` and nothing else. */
  lemma {:induction false} InsertDescPerm(sorted: seq<Finding>, x: Finding)
    ensures var r := InsertDesc(sorted, x);
      multiset(r) == multiset(sorted) + multiset{x} && |r| == |sorted| + 1
  {
    if sorted != [] && sorted[0].score >= x.score {
      InsertDescPerm(sorted[1..], x);
      assert sorted == [sorted[0]] + sorted[1..];
    }
  }

  lemma {:induction false} WithScoreAppend(a: seq<Finding>, b: seq<Finding>, v: real)
    ensures WithScore(a + b, v) == WithScore(a, v) + WithScore(b, v)
    decreases |b|
  {
    if b != [] {
      var init := b[..|b| - 1];
      assert (a + b)[..|a + b| - 1] == a + init;
      WithScoreAppend(a, init, v);
    } else {
      assert a + b == a;
    }
  }

  /** In a descending list, the elements scoring `x.score` all come before
      the place `InsertDesc` puts `x`. */
  lemma {:induction false} InsertDescStable(sorted: seq<Finding>, x: Finding, v: real)
    requires Descending(sorted)
    ensures WithScore(InsertDesc(sorted, x), v) == WithScore(sorted, v) + WithScore([x], v)
  {
    if sorted == [] {
      assert InsertDesc(sorted, x) == [x];
    } else if sorted[0].score < x.score {
      assert InsertDesc(sorted, x) == [x] + sorted;
      WithScoreAppend([x], sorted, v);
      if x.score == v {
        NoneWithScore(sorted, v);
      } else {
        assert WithScore([x], v) == [] by {
          assert [x][..0] == [];
        }
      }
    } else {
      var rest := InsertDesc(sorted[1..], x);
      assert InsertDesc(sorted, x) == [sorted[0]] + rest;
      calc {
        WithScore([sorted[0]] + rest, v);
        == { WithScoreAppend([sorted[0]], rest, v); }
        WithScore([sorted[0]], v) + WithScore(rest, v);
        == { InsertDescStable(sorted[1..], x, v); }
        WithScore([sorted[0]], v) + (WithScore(sorted[1..], v) + WithScore([x], v));
        == { WithScoreAppend([sorted[0]], sorted[1..], v); assert sorted == [sorted[0]] + sorted[1..]; }
        WithScore(sorted, v) + WithScore([x], v);
      }
    }
  }

  lemma {:induction false} NoneWithScore(fs: seq<Finding>, v: real)
    requires forall i :: 0 <= i < |fs| ==> fs[i].score < v
    ensures WithScore(fs, v) == []
  {
    if fs != [] {
      NoneWithScore(fs[..|fs| - 1], v);
    }
  }

  /** The ranking is descending, a permutation of the findings, and stable:
      the findings of any one score keep their order. */
  lemma {:induction false} SortDescFacts(fs: seq<Finding>)
    ensures var r := SortDesc(fs);
      Descending(r) && multiset(r) == multiset(fs) && |r| == |fs|
  {
    if fs != [] {
      var init := fs[..|fs| - 1];
      SortDescFacts(init);
      InsertDescFacts(SortDesc(init), fs[|fs| - 1]);
      InsertDescPerm(SortDesc(init), fs[|fs| - 1]);
      assert fs == init + [fs[|fs| - 1]];
    }
  }

  lemma {:induction false} SortDescStable(fs: seq<Finding>, v: real)
    ensures WithScore(SortDesc(fs), v) == WithScore(fs, v)
  {
    if fs != [] {
      var init := fs[..|fs| - 1];
      SortDescStable(init, v);
      SortDescFacts(init);
      InsertDescStable(SortDesc(init), fs[|fs| - 1], v);
    }
  }

  /** `session.sources`: the finding urls, in order. */
  function Urls(fs: seq<Finding>): seq<string> {
    seq(|fs|, k requires 0 <= k < |fs| => fs[k].url)
  }

  // ---------------------------------------------------------------- analyze

  function ReviewingLine(n: nat): string {
    "Analyst: reviewing " + NatToString(n) + " total results"
  }

  const ZeroLine: string := "Analyst: zero results to analyze \U{2014} pipeline ending early"
  const LoweringLine: string := "Analyst: lowering score threshold to 0.3"

  function PassedLine(n: nat): string {
    "Analyst: " + NatToString(n) + " passed score filter"
  }

  function ApprovedLine(n: nat): string {
    "Analyst: approved " + NatToString(n) + " findings"
  }

  /** The results that reach the language model. */
  function Candidates(s: SessionState): seq<SearchResult> {
    PreFilter(Collected(s.rawResults))
  }

  /** How many judgment requests `analyze` sends. */
  function AnalystCalls(s: SessionState, replies: seq<Reply>, toFloat: string -> Option<real>): nat {
    if Collected(s.rawResults) == [] then 0 else JudgeAll(Candidates(s), replies, toFloat).calls
  }

  /** The opening of `analyze`: RUNNING, the start stamp, one line per failed
      search and the count of collected results. */
  function Opened(s: SessionState, t0: int): SessionState {
    var s1 := StartAgent(s.WithStatus(Analyst, Running), Analyst, t0);
    s1.(logs := s1.logs + SkipLines(s.rawResults)).Log(ReviewingLine(|Collected(s.rawResults)|))
  }

  /** The early exit on zero results. */
  function Abandoned(s: SessionState, t1: int, rates: Rates): SessionState {
    EndAgent(s.Log(ZeroLine).WithStatus(Analyst, Failed), Analyst, 0, 0, 1, t1, rates)
  }

  /** The pre-filter's log lines. */
  function Filtered(s: SessionState, all: seq<SearchResult>): SessionState {
    (if AtLeast(all, StrictThreshold) == [] then s.Log(LoweringLine) else s).Log(PassedLine(|PreFilter(all)|))
  }

  /** Storing the ranked findings and their urls, DONE, and the end stamp. */
  function Approved(s: SessionState, fs: seq<Finding>, j: Judging, calls: nat, t1: int, rates: Rates): SessionState {
    var s4 := s.(findings := fs, sources := Urls(fs)).WithStatus(Analyst, Done).Log(ApprovedLine(|fs|));
    EndAgent(s4, Analyst, j.inTokens, j.outTokens, calls, t1, rates)
  }

  /** `analyze` on a session in state `s`, with the clock reading `t0` at
      `tracker.start` and `t1` at `tracker.end`. */
  function AnalyzeEffect(s: SessionState, replies: seq<Reply>, toFloat: string -> Option<real>,
                         t0: int, t1: int, rates: Rates): Outcome<seq<Finding>> {
    var all := Collected(s.rawResults);
    var s2 := Opened(s, t0);
    if all == [] then Outcome(Abandoned(s2, t1, rates), Success([]))
    else
      var pre := PreFilter(all);
      var s3 := Filtered(s2, all);
      var j := JudgeAll(pre, replies, toFloat);
      if j.error.Some? then Outcome(s3, Failure(j.error.value))
      else Outcome(Approved(s3, SortDesc(j.findings), j, |pre|, t1, rates), Success(SortDesc(j.findings)))
  }

  /** Everything but the log, the analyst's status and its metrics. */
  predicate SameData(s: SessionState, r: SessionState) {
    r.(logs := s.logs, statuses := s.statuses, metrics := s.metrics) == s
  }

  /** Nothing but the analyst's status and metrics among the per-agent
      dictionaries. */
  predicate OthersKept(s: SessionState, r: SessionState) {
    forall a :: a != Analyst ==> r.statuses.Get(a) == s.statuses.Get(a) && r.metrics.Get(a) == s.metrics.Get(a)
  }

  lemma OpenedFacts(s: SessionState, t0: int)
    ensures var r := Opened(s, t0);
      SameData(s, r) && OthersKept(s, r) && r.statuses.Get(Analyst) == Running
      && r.metrics.Get(Analyst) == s.metrics.Get(Analyst).(startTime := Some(t0))
  {
    WithStatusFacts(s, Analyst, Running);
  }

  lemma AbandonedFacts(s: SessionState, t1: int, model: string)
    ensures var r := Abandoned(s, t1, RatesFor(model));
      SameData(s, r) && OthersKept(s, r) && r.statuses.Get(Analyst) == Failed
      && r.metrics.Get(Analyst).llmCalls == s.metrics.Get(Analyst).llmCalls + 1
      && r.metrics.Get(Analyst).cost == s.metrics.Get(Analyst).cost
  {
    var s1 := s.Log(ZeroLine);
    WithStatusFacts(s1, Analyst, Failed);
    EndAccumulates(s1.WithStatus(Analyst, Failed), Analyst, 0, 0, 1, t1, model);
    EndDefaults(s1.WithStatus(Analyst, Failed), Analyst, t1, RatesFor(model));
  }

  lemma ApprovedFacts(s: SessionState, fs: seq<Finding>, j: Judging, calls: nat, t1: int, model: string)
    ensures var r := Approved(s, fs, j, calls, t1, RatesFor(model));
      SameData(s.(findings := fs, sources := Urls(fs)), r) && OthersKept(s, r)
      && r.findings == fs && r.sources == Urls(fs) && r.statuses.Get(Analyst) == Done
      && r.metrics.Get(Analyst).llmCalls == s.metrics.Get(Analyst).llmCalls + calls
  {
    var s4 := s.(findings := fs, sources := Urls(fs));
    WithStatusFacts(s4, Analyst, Done);
    var s5 := s4.WithStatus(Analyst, Done).Log(ApprovedLine(|fs|));
    EndAccumulates(s5, Analyst, j.inTokens, j.outTokens, calls, t1, model);
  }

  /** With nothing collected the analyst fails, leaves findings and sources
      alone, returns no findings and still reports one call at no cost. With
      candidates and every judgment answered it ends DONE, even with nothing
      approved, returns and stores the ranking of the approved findings,
      stores their urls as sources, and reports one call per candidate; the
      approved findings are exactly those of `ApprovedFrom`. A
      judgment request that raises stops it with the status still RUNNING.
      The researchers' outputs and the other agents' statuses and metrics
      never change. */
  lemma AnalyzeFacts(s: SessionState, replies: seq<Reply>, toFloat: string -> Option<real>, t0: int, t1: int, model: string)
    ensures var o := AnalyzeEffect(s, replies, toFloat, t0, t1, RatesFor(model));
      var all := Collected(s.rawResults);
      var j := JudgeAll(Candidates(s), replies, toFloat);
      var st := o.state;
      && st.rawResults == s.rawResults && st.query == s.query && st.subQueries == s.subQueries
      && st.report == s.report && st.success == s.success && st.error == s.error
      && OthersKept(s, st)
      && (all == [] ==>
            && o.result == Success([]) && st.statuses.Get(Analyst) == Failed
            && st.findings == s.findings && st.sources == s.sources
            && st.metrics.Get(Analyst).llmCalls == s.metrics.Get(Analyst).llmCalls + 1
            && st.metrics.Get(Analyst).cost == s.metrics.Get(Analyst).cost)
      && (all != [] && j.error.None? ==>
            && o.result == Success(st.findings) && st.statuses.Get(Analyst) == Done
            && Descending(st.findings) && multiset(st.findings) == multiset(j.findings)
            && j.findings == ApprovedFrom(Candidates(s), replies, toFloat, 0)
            && |st.sources| == |st.findings|
            && (forall k :: 0 <= k < |st.findings| ==> st.sources[k] == st.findings[k].url)
            && st.metrics.Get(Analyst).llmCalls == s.metrics.Get(Analyst).llmCalls + |Candidates(s)|)
      && (all != [] && j.error.Some? ==>
            && o.result == Failure(j.error.value) && st.statuses.Get(Analyst) == Running
            && st.findings == s.findings && st.sources == s.sources)
  {
    var all := Collected(s.rawResults);
    var s2 := Opened(s, t0);
    OpenedFacts(s, t0);
    if all == [] {
      AbandonedFacts(s2, t1, model);
    } else {
      var s3 := Filtered(s2, all);
      assert SameData(s2, s3) && s3.statuses == s2.statuses && s3.metrics == s2.metrics;
      var j := JudgeAll(Candidates(s), replies, toFloat);
      if j.error.None? {
        JudgeAllCalls(Candidates(s), replies, toFloat);
        JudgeAllFindingsAre(Candidates(s), replies, toFloat);
        assert Candidates(s)[..j.calls] == Candidates(s);
        SortDescFacts(j.findings);
        ApprovedFacts(s3, SortDesc(j.findings), j, |Candidates(s)|, t1, model);
      }
    }
  }

  // ---------------------------------------------------------------- the agent

  class AnalystAgent {
    const llm: LanguageModel
    const model: string
    /** Python's `float` applied to a stripped string: `None` where it
        raises `ValueError`. */
    const toFloat: string -> Option<real>

    constructor (llm: LanguageModel, model: string, toFloat: string -> Option<real>)
      ensures this.llm == llm && this.model == model && this.toFloat == toFloat
    {
      this.llm := llm;
      this.model := model;
      this.toFloat := toFloat;
    }

    /** `_collect_results`. */
    method CollectResults(session: ResearchSession) returns (all: seq<SearchResult>)
      modifies session
      ensures all == Collected(old(session.rawResults))
      ensures session.State() == old(session.State()).(logs := old(session.logs) + SkipLines(old(session.rawResults)))
    {
      ghost var s0 := session.State();
      var outputs := session.rawResults;
      all := [];
      for i := 0 to |outputs|
        invariant all == Collected(outputs[..i])
        invariant session.State() == s0.(logs := s0.logs + SkipLines(outputs[..i]))
      {
        assert outputs[..i + 1][..i] == outputs[..i];
        var o := outputs[i];
        if !o.success {
          session.Log(SkipLine(o));
          AppendOne(s0.logs, SkipLines(outputs[..i]), SkipLine(o));
        } else {
          all := all + o.results;
        }
      }
      assert outputs[..|outputs|] == outputs;
    }

    /** `_parse_judgment`. */
    method ParseJudgment(judgment: string) returns (j: Judgment)
      ensures j == ParsedJudgment(judgment, toFloat)
    {
      var lines := Split(Lower(judgment), '\n');
      j := NoJudgment;
      for i := 0 to |lines|
        invariant j == JudgeLines(lines[..i], toFloat)
      {
        assert lines[..i + 1][..i] == lines[..i];
        var line := lines[i];
        if StartsWith(line, "relevant:") {
          j := j.(relevant := Contains(line, "yes"));
        } else if StartsWith(line, "score:") {
          var f := toFloat(ScoreText(line));
          j := j.(score := if f.Some? then f.value else UnparsedScore);
        } else if StartsWith(line, "reason:") {
          j := j.(reason := ReasonText(line));
        }
      }
      assert lines[..|lines|] == lines;
    }

    /** One pass of `_judge_relevance`'s loop: the request for result `i`. */
    method JudgeOne(query: string, results: seq<SearchResult>, i: nat, ghost replies: seq<Reply>, j: Judging)
      returns (j': Judging)
      requires i < |results| && j == JudgeAll(results[..i], replies, toFloat) && j.error.None?
      requires llm.replies == Drop(replies, i)
      modifies llm
      ensures j' == JudgeAll(results[..i + 1], replies, toFloat) && j'.calls == j.calls + 1
      ensures llm.replies == Drop(replies, i + 1) && llm.streams == old(llm.streams)
      ensures llm.prompts == old(llm.prompts) + [JudgePrompt(query, results[i])]
    {
      DropStep(replies, i, Raised(Unscripted));
      JudgeAllNext(results, replies, toFloat, i);
      var r := results[i];
      var reply := llm.Complete(JudgePrompt(query, r));
      if reply.Raised? {
        return j.(calls := j.calls + 1, error := Some(reply.error));
      }
      var v := ParseJudgment(Trim(reply.completion.text));
      j' := j;
      if v.relevant {
        j' := j'.(findings := j'.findings + [FindingOf(r, v)]);
      }
      j' := j'.(inTokens := j'.inTokens + reply.completion.promptTokens,
                outTokens := j'.outTokens + reply.completion.completionTokens,
                calls := j'.calls + 1);
    }

    /** `_judge_relevance`: one request per result, in order; an exception
        from a request ends the loop and is reported in `error`. */
    method JudgeRelevance(query: string, results: seq<SearchResult>) returns (j: Judging)
      modifies llm
      ensures j == JudgeAll(results, old(llm.replies), toFloat)
      ensures j.calls <= |results|
      ensures llm.replies == Drop(old(llm.replies), j.calls) && llm.streams == old(llm.streams)
      ensures llm.prompts == old(llm.prompts) + JudgePrompts(query, results[..j.calls])
    {
      ghost var replies, pr0 := llm.replies, llm.prompts;
      j := Judging([], 0, 0, 0, None);
      var i := 0;
      while i < |results|
        invariant 0 <= i <= |results|
        invariant j == JudgeAll(results[..i], replies, toFloat) && j.error.None? && j.calls == i
        invariant llm.replies == Drop(replies, i) && llm.streams == old(llm.streams)
        invariant llm.prompts == pr0 + JudgePrompts(query, results[..i])
      {
        JudgePromptsStep(query, results, i);
        AppendOne(pr0, JudgePrompts(query, results[..i]), JudgePrompt(query, results[i]));
        j := JudgeOne(query, results, i, replies, j);
        if j.error.Some? {
          JudgeAllStops(results, i + 1, replies, toFloat);
          return;
        }
        i := i + 1;
      }
      assert results[..|results|] == results;
    }

    /** The opening of `analyze`, up to the count of collected results. */
    method Open(session: ResearchSession, tracker: Tracker) returns (all: seq<SearchResult>)
      requires tracker.session == session
      modifies session, tracker.clock
      ensures all == Collected(old(session.rawResults))
      ensures session.State() == Opened(old(session.State()), tracker.clock.reading(old(tracker.clock.ticks)))
      ensures tracker.clock.ticks == old(tracker.clock.ticks) + 1
    {
      session.SetAgentStatus(Analyst, Running);
      tracker.Start(Analyst);
      all := CollectResults(session);
      session.Log(ReviewingLine(|all|));
    }

    /** The pre-filter with its log lines. */
    method Filter(session: ResearchSession, all: seq<SearchResult>) returns (pre: seq<SearchResult>)
      modifies session
      ensures pre == PreFilter(all)
      ensures session.State() == Filtered(old(session.State()), all)
    {
      pre := AtLeast(all, StrictThreshold);
      if pre == [] {
        session.Log(LoweringLine);
        pre := AtLeast(all, RelaxedThreshold);
      }
      session.Log(PassedLine(|pre|));
    }

    /** Storing the ranking and ending the analyst's run. */
    method Approve(session: ResearchSession, tracker: Tracker, j: Judging, calls: nat) returns (findings: seq<Finding>)
      requires tracker.session == session
      modifies session, tracker.clock
      ensures findings == SortDesc(j.findings)
      ensures session.State() == Approved(old(session.State()), findings, j, calls,
                                          tracker.clock.reading(old(tracker.clock.ticks)), tracker.pricing)
      ensures tracker.clock.ticks == old(tracker.clock.ticks) + 1
    {
      findings := SortDesc(j.findings);
      session.findings := findings;
      session.sources := Urls(findings);
      session.SetAgentStatus(Analyst, Done);
      session.Log(ApprovedLine(|findings|));
      tracker.End(Analyst, j.inTokens, j.outTokens, calls);
    }

    /** `analyze`. */
    method Analyze(session: ResearchSession, tracker: Tracker) returns (out: Result<seq<Finding>>)
      requires tracker.session == session
      modifies session, tracker.clock, llm
      ensures var o := AnalyzeEffect(old(session.State()), old(llm.replies), toFloat,
                                     tracker.clock.reading(old(tracker.clock.ticks)),
                                     tracker.clock.reading(old(tracker.clock.ticks) + 1), tracker.pricing);
        && session.State() == o.state && out == o.result
        && tracker.clock.ticks == old(tracker.clock.ticks) + (if out.Failure? then 1 else 2)
      ensures var calls := AnalystCalls(old(session.State()), old(llm.replies), toFloat);
        && calls <= |Candidates(old(session.State()))|
        && llm.replies == Drop(old(llm.replies), calls) && llm.streams == old(llm.streams)
        && llm.prompts == old(llm.prompts) + JudgePrompts(session.query, Candidates(old(session.State()))[..calls])
    {
      var all := Open(session, tracker);
      if all == [] {
        session.Log(ZeroLine);
        session.SetAgentStatus(Analyst, Failed);
        tracker.End(Analyst, 0, 0, 1);
        return Success([]);
      }
      var pre := Filter(session, all);
      var j := JudgeRelevance(session.query, pre);
      if j.error.Some? {
        return Failure(j.error.value);
      }
      var findings := Approve(session, tracker, j, |pre|);
      out := Success(findings);
    }
  }
}
