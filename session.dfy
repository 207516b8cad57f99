/** The shared whiteboard of core/session.py: agent statuses, per-agent
    metrics, the researcher outputs, findings, report and audit log of one
    research run. The session is an object whose fields the agents update;
    `State()` gathers them into one value so that an operation's effect can
    be stated as a function of the state before it. */
module Session {
  import opened Wrappers
  import opened WebSearch

  datatype AgentStatus = Pending | Running | Done | Failed {
    /** The enum's `.value`. */
    function Value(): string {
      match this
      case Pending => "pending"
      case Running => "running"
      case Done => "done"
      case Failed => "failed"
    }
  }

  /** The four keys of `agent_statuses` and `metrics`. */
  datatype Agent = Planner | Researcher | Analyst | Writer {
    function Name(): string {
      match this
      case Planner => "planner"
      case Researcher => "researcher"
      case Analyst => "analyst"
      case Writer => "writer"
    }

    /** `agent.upper()`. */
    function Upper(): string {
      match this
      case Planner => "PLANNER"
      case Researcher => "RESEARCHER"
      case Analyst => "ANALYST"
      case Writer => "WRITER"
    }
  }

  /** A dictionary keyed by exactly the four agents. */
  datatype PerAgent<T> = PerAgent(planner: T, researcher: T, analyst: T, writer: T) {
    function Get(a: Agent): T {
      match a
      case Planner => planner
      case Researcher => researcher
      case Analyst => analyst
      case Writer => writer
    }

    function Set(a: Agent, v: T): (r: PerAgent<T>)
      ensures r.Get(a) == v
      ensures forall b :: b != a ==> r.Get(b) == Get(b)
    {
      match a
      case Planner => this.(planner := v)
      case Researcher => this.(researcher := v)
      case Analyst => this.(analyst := v)
      case Writer => this.(writer := v)
    }
  }

  function AllPending(): PerAgent<AgentStatus> {
    PerAgent(Pending, Pending, Pending, Pending)
  }

  /** `AgentMetrics`; times are clock readings, `None` until recorded. */
  datatype AgentMetrics = AgentMetrics(
    agentName: string,
    startTime: Option<int>,
    endTime: Option<int>,
    inputTokens: nat,
    outputTokens: nat,
    cost: real,
    llmCalls: nat)

  function FreshMetrics(a: Agent): AgentMetrics {
    AgentMetrics(a.Name(), None, None, 0, 0, 0.0, 0)
  }

  function AllFresh(): PerAgent<AgentMetrics> {
    PerAgent(FreshMetrics(Planner), FreshMetrics(Researcher), FreshMetrics(Analyst), FreshMetrics(Writer))
  }

  /** `duration_seconds`: zero unless both ends were recorded. */
  function Duration(m: AgentMetrics): (d: int)
    ensures m.startTime.None? || m.endTime.None? ==> d == 0
    ensures m.startTime.Some? && m.endTime.Some? ==> d == m.endTime.value - m.startTime.value
  {
    if m.startTime.Some? && m.endTime.Some? then m.endTime.value - m.startTime.value else 0
  }

  /** Prices per thousand tokens. */
  datatype Rates = Rates(input: real, output: real)

  predicate IsPricedModel(model: string) {
    model == "gpt-4o" || model == "gpt-4-turbo" || model == "gpt-3.5-turbo"
  }

  /** The gpt-4o prices, which are also the fallback. */
  const Gpt4oRates: Rates := Rates(0.005, 0.015)

  /** The price table, identical in `calculate_cost` and in the tracker's
      `MODEL_PRICING`; any other model is charged at the gpt-4o rates. */
  function RatesFor(model: string): (r: Rates)
    ensures model == "gpt-4o" || !IsPricedModel(model) ==> r == Gpt4oRates
    ensures r.input > 0.0 && r.output > 0.0
  {
    if model == "gpt-4-turbo" then Rates(0.01, 0.03)
    else if model == "gpt-3.5-turbo" then Rates(0.0005, 0.0015)
    else Gpt4oRates
  }

  function TokenCost(inputTokens: nat, outputTokens: nat, rates: Rates): real {
    (inputTokens as real / 1000.0) * rates.input + (outputTokens as real / 1000.0) * rates.output
  }

  /** `calculate_cost`: the cost is replaced by the price of all tokens
      counted so far. */
  function CalculateCost(m: AgentMetrics, model: string): AgentMetrics {
    m.(cost := TokenCost(m.inputTokens, m.outputTokens, RatesFor(model)))
  }

  /** `calculate_cost` overwrites only the cost, never charges a negative
      amount, and prices an unknown model like gpt-4o. */
  lemma CalculateCostFacts(m: AgentMetrics, model: string)
    ensures var r := CalculateCost(m, model);
      r.(cost := m.cost) == m && r.cost >= 0.0
      && (!IsPricedModel(model) ==> r == CalculateCost(m, "gpt-4o"))
      && (m.inputTokens + m.outputTokens > 0 ==> r.cost > 0.0)
  {
    var rates := RatesFor(model);
    assert (m.inputTokens as real / 1000.0) * rates.input >= 0.0;
    assert (m.outputTokens as real / 1000.0) * rates.output >= 0.0;
    if m.inputTokens > 0 {
      assert (m.inputTokens as real / 1000.0) * rates.input > 0.0;
    }
    if m.outputTokens > 0 {
      assert (m.outputTokens as real / 1000.0) * rates.output > 0.0;
    }
  }

  /** One element of `raw_results`. */
  datatype ResearchOutput = ResearchOutput(query: string, results: seq<SearchResult>, success: bool, attempts: int)

  /** One element of `findings` (the analyst's `AnalystFinding`). */
  datatype Finding = Finding(title: string, url: string, summary: string, score: real, whyRelevant: string)

  /** Everything a session holds. */
  datatype SessionState = SessionState(
    query: string,
    subQueries: seq<string>,
    rawResults: seq<ResearchOutput>,
    findings: seq<Finding>,
    report: string,
    sources: seq<string>,
    statuses: PerAgent<AgentStatus>,
    logs: seq<string>,
    metrics: PerAgent<AgentMetrics>,
    success: bool,
    error: Option<string>,
    createdAt: int,
    completedAt: Option<int>)
  {
    /** `log`: the audit log grows by the message (the clock prefix
        `[HH:MM:SS] ` is not modelled). */
    function Log(message: string): SessionState {
      this.(logs := logs + [message])
    }

    /** `set_agent_status`: any transition is accepted, and logged. */
    function WithStatus(a: Agent, st: AgentStatus): SessionState {
      this.(statuses := statuses.Set(a, st)).Log(StatusLine(a, st))
    }
  }

  function StatusLine(a: Agent, st: AgentStatus): string {
    a.Upper() + " \U{2192} " + st.Value()
  }

  /** A freshly constructed session. */
  function NewState(query: string, createdAt: int): (s: SessionState)
    ensures forall a: Agent :: s.statuses.Get(a) == Pending && s.metrics.Get(a) == FreshMetrics(a)
    ensures s.logs == [] && s.rawResults == [] && s.subQueries == [] && s.findings == [] && s.sources == []
    ensures !s.success && s.error == None && s.completedAt == None && s.query == query
  {
    SessionState(query, [], [], [], "", [], AllPending(), [], AllFresh(), false, None, createdAt, None)
  }

  /** `set_agent_status` writes the status it is given and logs one line,
      whatever the previous status was; no other agent's status and no other
      field changes. */
  lemma WithStatusFacts(s: SessionState, a: Agent, st: AgentStatus)
    ensures var r := s.WithStatus(a, st);
      r.statuses.Get(a) == st
      && (forall b :: b != a ==> r.statuses.Get(b) == s.statuses.Get(b))
      && r.logs == s.logs + [StatusLine(a, st)]
      && r.(statuses := s.statuses, logs := s.logs) == s
  {
  }

  /** `total_cost`: the sum over the four agents. */
  function TotalCost(s: SessionState): real {
    s.metrics.planner.cost + s.metrics.researcher.cost + s.metrics.analyst.cost + s.metrics.writer.cost
  }

  /** `total_duration`: zero until the run is stamped complete. */
  function TotalDuration(s: SessionState): (d: int)
    ensures s.completedAt.None? ==> d == 0
    ensures s.completedAt.Some? ==> d == s.completedAt.value - s.createdAt
  {
    match s.completedAt
    case None => 0
    case Some(t) => t - s.createdAt
  }

  /** The dictionary `summary()` returns, with numbers in place of the
      formatted strings. */
  datatype Summary = Summary(
    query: string,
    success: bool,
    subQueries: seq<string>,
    numSources: nat,
    totalCost: real,
    duration: int,
    agentCosts: PerAgent<real>,
    agentTimes: PerAgent<int>,
    logs: seq<string>)

  function SummaryOf(s: SessionState): (r: Summary)
    ensures r.numSources == |s.sources| && r.logs == s.logs && r.success == s.success
    ensures r.query == s.query && r.subQueries == s.subQueries
    ensures r.totalCost == TotalCost(s) && r.duration == TotalDuration(s)
    ensures forall a: Agent :: r.agentCosts.Get(a) == s.metrics.Get(a).cost && r.agentTimes.Get(a) == Duration(s.metrics.Get(a))
  {
    var m := s.metrics;
    Summary(s.query, s.success, s.subQueries, |s.sources|, TotalCost(s), TotalDuration(s),
      PerAgent(m.planner.cost, m.researcher.cost, m.analyst.cost, m.writer.cost),
      PerAgent(Duration(m.planner), Duration(m.researcher), Duration(m.analyst), Duration(m.writer)),
      s.logs)
  }

  /** What an agent operation leaves behind: the new session state, and
      either its return value or the message of the exception it raises. */
  datatype Outcome<T> = Outcome(state: SessionState, result: Result<T>)

  class ResearchSession {
    const query: string
    var subQueries: seq<string>
    var rawResults: seq<ResearchOutput>
    var findings: seq<Finding>
    var report: string
    var sources: seq<string>
    var statuses: PerAgent<AgentStatus>
    var logs: seq<string>
    var metrics: PerAgent<AgentMetrics>
    var success: bool
    var error: Option<string>
    const createdAt: int
    var completedAt: Option<int>

    function State(): SessionState
      reads this
    {
      SessionState(query, subQueries, rawResults, findings, report, sources, statuses, logs, metrics,
            success, error, createdAt, completedAt)
    }

    constructor (query: string, createdAt: int)
      ensures State() == NewState(query, createdAt)
    {
      this.query := query;
      subQueries := [];
      rawResults := [];
      findings := [];
      report := "";
      sources := [];
      statuses := AllPending();
      logs := [];
      metrics := AllFresh();
      success := false;
      error := None;
      this.createdAt := createdAt;
      completedAt := None;
    }

    method Log(message: string)
      modifies this
      ensures State() == old(State()).Log(message)
    {
      logs := logs + [message];
    }

    method SetAgentStatus(a: Agent, st: AgentStatus)
      modifies this
      ensures State() == old(State()).WithStatus(a, st)
    {
      statuses := statuses.Set(a, st);
      Log(StatusLine(a, st));
    }
  }
}
