/** monitoring/tracker.py: the observer that stamps each agent's start and
    end on the session and accumulates its tokens, calls and cost. */
module Monitoring {
  import opened Wrappers
  import opened Session
  import opened Oracles

  /** `start`: records the start time. */
  function Started(m: AgentMetrics, t: int): AgentMetrics {
    m.(startTime := Some(t))
  }

  /** `end`: records the end time and adds this run's tokens, calls and
      their price to what the agent had already accumulated. */
  function Ended(m: AgentMetrics, inputTokens: nat, outputTokens: nat, calls: nat, t: int, rates: Rates): AgentMetrics {
    m.(endTime := Some(t),
       inputTokens := m.inputTokens + inputTokens,
       outputTokens := m.outputTokens + outputTokens,
       llmCalls := m.llmCalls + calls,
       cost := m.cost + TokenCost(inputTokens, outputTokens, rates))
  }

  function StartAgent(s: SessionState, a: Agent, t: int): SessionState {
    s.(metrics := s.metrics.Set(a, Started(s.metrics.Get(a), t)))
  }

  function EndAgent(s: SessionState, a: Agent, inputTokens: nat, outputTokens: nat, calls: nat, t: int, rates: Rates): SessionState {
    s.(metrics := s.metrics.Set(a, Ended(s.metrics.Get(a), inputTokens, outputTokens, calls, t, rates)))
  }

  lemma TokenCostNonNegative(i: nat, o: nat, rates: Rates)
    requires rates.input >= 0.0 && rates.output >= 0.0
    ensures TokenCost(i, o, rates) >= 0.0
  {
    assert (i as real / 1000.0) * rates.input >= 0.0;
    assert (o as real / 1000.0) * rates.output >= 0.0;
  }

  /** `end` is cumulative: the agent's counters grow by exactly what is
      reported, its cost by the price of the reported tokens and never
      decreases, the session's total cost grows by the same amount, and no
      other agent's metrics and no other part of the session change. */
  lemma EndAccumulates(s: SessionState, a: Agent, i: nat, o: nat, calls: nat, t: int, model: string)
    ensures var r := EndAgent(s, a, i, o, calls, t, RatesFor(model));
      var m, m' := s.metrics.Get(a), r.metrics.Get(a);
      && m'.inputTokens == m.inputTokens + i && m'.outputTokens == m.outputTokens + o
      && m'.llmCalls == m.llmCalls + calls && m'.endTime == Some(t) && m'.startTime == m.startTime
      && m'.cost == m.cost + TokenCost(i, o, RatesFor(model)) && m'.cost >= m.cost
      && TotalCost(r) == TotalCost(s) + TokenCost(i, o, RatesFor(model))
      && (forall b :: b != a ==> r.metrics.Get(b) == s.metrics.Get(b))
      && r.(metrics := s.metrics) == s
  {
    TokenCostNonNegative(i, o, RatesFor(model));
    var r := EndAgent(s, a, i, o, calls, t, RatesFor(model));
    match a
    case Planner =>
      assert r.metrics.planner == r.metrics.Get(a);
    case Researcher =>
      assert r.metrics.researcher == r.metrics.Get(a);
    case Analyst =>
      assert r.metrics.analyst == r.metrics.Get(a);
    case Writer =>
      assert r.metrics.writer == r.metrics.Get(a);
  }

  /** `end` with its defaults counts one call and charges nothing. */
  lemma EndDefaults(s: SessionState, a: Agent, t: int, rates: Rates)
    ensures var r := EndAgent(s, a, 0, 0, 1, t, rates);
      r.metrics.Get(a).llmCalls == s.metrics.Get(a).llmCalls + 1
      && r.metrics.Get(a).cost == s.metrics.Get(a).cost
      && TotalCost(r) == TotalCost(s)
  {
    var r := EndAgent(s, a, 0, 0, 1, t, rates);
    assert TokenCost(0, 0, rates) == 0.0;
    match a
    case Planner =>
      assert r.metrics.planner == r.metrics.Get(a);
    case Researcher =>
      assert r.metrics.researcher == r.metrics.Get(a);
    case Analyst =>
      assert r.metrics.analyst == r.metrics.Get(a);
    case Writer =>
      assert r.metrics.writer == r.metrics.Get(a);
  }

  /** Starting and then ending an agent gives it the elapsed clock time as
      its duration, whatever it held before. */
  lemma StartEndDuration(m: AgentMetrics, t0: int, i: nat, o: nat, calls: nat, t1: int, rates: Rates)
    ensures Duration(Ended(Started(m, t0), i, o, calls, t1, rates)) == t1 - t0
  {
  }

  /** Recording 300 input and 800 output tokens for a fresh writer at
      gpt-4o prices gives exactly those counts and a positive cost. */
  lemma WriterExample(t: int)
    ensures var m := Ended(FreshMetrics(Writer), 300, 800, 1, t, RatesFor("gpt-4o"));
      m.inputTokens == 300 && m.outputTokens == 800 && m.cost > 0.0
  {
  }

  class Tracker {
    const session: ResearchSession
    const model: string
    const pricing: Rates
    const clock: Clock

    constructor (session: ResearchSession, model: string, clock: Clock)
      ensures this.session == session && this.model == model && this.clock == clock
      ensures pricing == RatesFor(model)
    {
      this.session := session;
      this.model := model;
      pricing := RatesFor(model);
      this.clock := clock;
    }

    method Start(a: Agent)
      modifies session, clock
      ensures session.State() == StartAgent(old(session.State()), a, clock.reading(old(clock.ticks)))
      ensures clock.ticks == old(clock.ticks) + 1
    {
      var t := clock.Now();
      session.metrics := session.metrics.Set(a, Started(session.metrics.Get(a), t));
    }

    method End(a: Agent, inputTokens: nat, outputTokens: nat, calls: nat)
      modifies session, clock
      ensures session.State() == EndAgent(old(session.State()), a, inputTokens, outputTokens, calls,
                                           clock.reading(old(clock.ticks)), pricing)
      ensures clock.ticks == old(clock.ticks) + 1
    {
      var t := clock.Now();
      session.metrics := session.metrics.Set(a, Ended(session.metrics.Get(a), inputTokens, outputTokens, calls, t, pricing));
    }
  }
}
