/** The search gateway of tools/web_search.py: the record it returns, how a
    search response is parsed, when a result set counts as useful, and the
    "never raise, return nothing" boundary around the HTTP call. */
module WebSearch {
  import opened Wrappers
  import opened Seqs

  /** One search hit handed to the researcher. */
  datatype SearchResult = SearchResult(title: string, url: string, summary: string, score: real)

  /** One element of the response's "results" array; a field is `None` when
      its key is absent. */
  datatype RawItem = RawItem(title: Option<string>, url: Option<string>, content: Option<string>, score: Option<real>)

  /** A response body: not decodable as a JSON object, or an object whose
      "results" key may be absent. */
  datatype Body = Unparseable | Document(results: Option<seq<RawItem>>)

  /** What one POST to the search service produces. */
  datatype HttpOutcome = Response(status: int, body: Body) | TimedOut | TransportError

  const SummaryLimit: nat := 500
  const DefaultThreshold: real := 0.5

  function ParseItem(item: RawItem): SearchResult {
    var content := item.content.GetOr("");
    SearchResult(
      item.title.GetOr("No title"),
      item.url.GetOr(""),
      if |content| <= SummaryLimit then content else content[..SummaryLimit],
      item.score.GetOr(0.0))
  }

  /** `_parse_results`. */
  function ParseResults(results: Option<seq<RawItem>>): seq<SearchResult> {
    var items := results.GetOr([]);
    seq(|items|, i requires 0 <= i < |items| => ParseItem(items[i]))
  }

  /** `_parse_results` gives one record per item, in order (none without a
      "results" key), with defaults for absent fields, and each summary is
      the content's prefix of at most 500 characters. */
  lemma ParseResultsFacts(results: Option<seq<RawItem>>)
    ensures var items := results.GetOr([]);
      var r := ParseResults(results);
      |r| == |items| && (results.None? ==> r == []) &&
      forall i :: 0 <= i < |r| ==>
        var content := items[i].content.GetOr("");
        && r[i].title == items[i].title.GetOr("No title")
        && r[i].url == items[i].url.GetOr("")
        && r[i].score == items[i].score.GetOr(0.0)
        && |r[i].summary| == (if |content| <= SummaryLimit then |content| else SummaryLimit)
        && r[i].summary == content[..|r[i].summary|]
  {
  }

  function SumScores(rs: seq<SearchResult>): real {
    if rs == [] then 0.0 else SumScores(rs[..|rs| - 1]) + rs[|rs| - 1].score
  }

  /** The mean score of a non-empty list, as `is_useful` computes it. */
  function Mean(rs: seq<SearchResult>): real
    requires rs != []
  {
    SumScores(rs) / (|rs| as real)
  }

  /** How far the scores together exceed `threshold` per result. */
  function Excess(rs: seq<SearchResult>, threshold: real): real {
    if rs == [] then 0.0 else Excess(rs[..|rs| - 1], threshold) + (rs[|rs| - 1].score - threshold)
  }

  /** `is_useful`, stated without the division: a non-empty list whose
      scores exceed the threshold in total (`IsUsefulMeans` shows this is
      the mean test). */
  predicate IsUseful(results: seq<SearchResult>, threshold: real) {
    results != [] && Excess(results, threshold) >= 0.0
  }

  lemma {:induction false} ExcessIsSumMinusThreshold(rs: seq<SearchResult>, threshold: real)
    ensures Excess(rs, threshold) == SumScores(rs) - threshold * (|rs| as real)
  {
    if rs != [] {
      var init := rs[..|rs| - 1];
      ExcessIsSumMinusThreshold(init, threshold);
      assert |init| as real == |rs| as real - 1.0;
    }
  }

  /** An empty list is never useful; otherwise the list is useful exactly
      when its mean score reaches the threshold, equivalently when the score
      sum reaches threshold times the count, so the comparison is
      inclusive. */
  lemma IsUsefulMeans(results: seq<SearchResult>, threshold: real)
    ensures IsUseful(results, threshold) <==> results != [] && Mean(results) >= threshold
    ensures IsUseful(results, threshold) <==> results != [] && SumScores(results) >= threshold * (|results| as real)
  {
    ExcessIsSumMinusThreshold(results, threshold);
    if results != [] {
      var n := |results| as real;
      var mean := SumScores(results) / n;
      assert mean * n == SumScores(results);
      if mean >= threshold {
        assert mean * n >= threshold * n;
      } else {
        assert mean * n < threshold * n;
      }
    }
  }

  /** The body of `search_async` around the HTTP call: a timeout, a transport
      error, a status other than 200 or a body that does not decode all give
      the empty list; otherwise the parsed results. */
  function Interpret(o: HttpOutcome): (r: seq<SearchResult>)
    ensures r != [] ==> o.Response? && o.status == 200 && o.body.Document?
    ensures o.Response? && o.status == 200 && o.body.Document? ==> r == ParseResults(o.body.results)
  {
    match o
    case Response(status, body) =>
      if status != 200 then []
      else (match body
            case Unparseable => []
            case Document(results) => ParseResults(results))
    case TimedOut => []
    case TransportError => []
  }

  /** The search service on the other side of the HTTP call, as an oracle: the
      outcomes of successive requests are scripted, and the queries it was
      asked are recorded. A request past the end of the script fails like a
      transport error. */
  class SearchEngine {
    var script: seq<HttpOutcome>
    var queries: seq<string>

    constructor (script: seq<HttpOutcome>)
      ensures this.script == script && queries == []
    {
      this.script := script;
      queries := [];
    }

    method Post(query: string) returns (o: HttpOutcome)
      modifies this
      ensures o == At(old(script), 0, TransportError)
      ensures script == Drop(old(script), 1)
      ensures queries == old(queries) + [query]
    {
      o := At(script, 0, TransportError);
      script := Drop(script, 1);
      queries := queries + [query];
    }
  }

  /** `WebSearchTool`: the API key and result count are request constants;
      the engine is where its requests go. */
  class WebSearchTool {
    const apiKey: string
    const maxResults: int
    const engine: SearchEngine

    constructor (apiKey: string, maxResults: int, engine: SearchEngine)
      ensures this.apiKey == apiKey && this.maxResults == maxResults && this.engine == engine
    {
      this.apiKey := apiKey;
      this.maxResults := maxResults;
      this.engine := engine;
    }

    /** `search_async`: never fails; a failed request yields no results. */
    method SearchAsync(query: string) returns (results: seq<SearchResult>)
      modifies engine
      ensures results == Interpret(At(old(engine.script), 0, TransportError))
      ensures engine.script == Drop(old(engine.script), 1)
      ensures engine.queries == old(engine.queries) + [query]
    {
      var outcome := engine.Post(query);
      results := Interpret(outcome);
    }
  }
}
