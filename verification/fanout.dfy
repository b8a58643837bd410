/** The concurrent analysis of pipeline/analyze.go: one agent per clause, at most
    `concurrency` at a time, all sharing one budget. Each event is one critical
    section or one store write; any interleaving of events is a possible run.
    An agent is what `agent.Run` looks like from outside: it checks the budget, calls
    the model, records what the call used, and either goes on or ends. */
module Fanout {
  import opened Wrappers
  import opened Domain
  import opened Analyses
  import opened Budgets
  import Pricing

  datatype Config = Config(
    limits: Limits,
    concurrency: int,
    agentSteps: int,
    provider: string,
    model: string,
    ids: seq<string>)

  function Slots(cfg: Config): nat { if cfg.concurrency < 1 then 1 else cfg.concurrency }

  datatype Outcome =
    | Found(finding: ClauseAnalysis)
    | Stopped(reason: string)
    | Errored(reason: string)

  /** `Ended` has returned from the agent, `Settling` has done the first and `Settled`
      both of saving the row and updating the counters. */
  datatype Agent =
    | Pending
    | Checking(step: int, usage: Usage)
    | Calling(step: int, usage: Usage)
    | Ended(outcome: Outcome, usage: Usage)
    | Settling(outcome: Outcome, usage: Usage)
    | Settled(outcome: Outcome, usage: Usage)

  function RowFor(id: string, outcome: Outcome): ClauseAnalysis {
    match outcome
    case Found(finding) => finding.(clauseId := id, status := OK)
    case Stopped(reason) => ClauseAnalysis(id, None, reason, "", "", FAILED)
    case Errored(reason) => ClauseAnalysis(id, None, reason, "", "", FAILED)
  }

  /** A row says of its clause what was found, or why nothing was. */
  ghost predicate IsRowOf(id: string, outcome: Outcome, row: ClauseAnalysis) {
    && row.clauseId == id
    && match outcome
       case Found(f) =>
         && row.status == "ok" && row.riskLevel == f.riskLevel && row.explanation == f.explanation
         && row.ambiguousLanguage == f.ambiguousLanguage && row.recommendations == f.recommendations
       case Stopped(reason) => row == ClauseAnalysis(id, None, reason, "", "", "failed")
       case Errored(reason) => row == ClauseAnalysis(id, None, reason, "", "", "failed")
  }

  /** `rows` are the analyses this run has saved so far; `passed` counts the
      budget checks that let a model call through. */
  datatype State = State(
    ledger: Ledger,
    agents: seq<Agent>,
    dispatched: nat,
    okCount: nat,
    failedCount: nat,
    totalTokens: nat,
    totalCost: nat,
    rows: Table,
    passed: nat)

  function Initial(cfg: Config): State {
    State(EMPTY, seq(|cfg.ids|, _ => Pending), 0, 0, 0, 0, 0, [], 0)
  }

  datatype Event =
    | Launch
    | Check(i: nat)
    | Reply(i: nat, provider: string, model: string, input: nat, output: nat, finding: Option<ClauseAnalysis>)
    | Break(i: nat, reason: string)
    | Settle(i: nat)

  predicate IsActive(a: Agent) { !a.Pending? && !a.Settled? }

  ghost predicate Enabled(cfg: Config, s: State, e: Event)
    requires |s.agents| == |cfg.ids|
  {
    match e
    case Launch => s.dispatched < |s.agents| && Sum(ActiveUnit, s.agents) < Slots(cfg)
    case Check(i) => i < |s.agents| && s.agents[i].Checking?
    case Reply(i, _, _, _, _, _) => i < |s.agents| && s.agents[i].Calling?
    case Break(i, _) => i < |s.agents| && (s.agents[i].Checking? || s.agents[i].Calling?)
    case Settle(i) => i < |s.agents| && (s.agents[i].Ended? || s.agents[i].Settling?)
  }

  function Counted(cfg: Config, s: State, outcome: Outcome, usage: Usage): State {
    var cost := Pricing.Estimate(cfg.provider, cfg.model, usage.input, usage.output);
    match outcome
    case Found(_) =>
      s.(totalTokens := s.totalTokens + usage.input + usage.output,
         totalCost := s.totalCost + cost, okCount := s.okCount + 1)
    case Stopped(_) =>
      s.(totalTokens := s.totalTokens + usage.input + usage.output,
         totalCost := s.totalCost + cost, failedCount := s.failedCount + 1)
    case Errored(_) => s.(failedCount := s.failedCount + 1)
  }

  function Saved(cfg: Config, s: State, i: nat, outcome: Outcome): State
    requires i < |cfg.ids|
  {
    s.(rows := s.rows + [RowFor(cfg.ids[i], outcome)])
  }

  function Next(cfg: Config, s: State, e: Event): State
    requires |s.agents| == |cfg.ids| && s.dispatched <= |s.agents|
    requires Enabled(cfg, s, e)
  {
    match e
    case Launch =>
      s.(agents := s.agents[s.dispatched := Checking(0, Usage(0, 0))], dispatched := s.dispatched + 1)
    case Check(i) =>
      var a := s.agents[i];
      if a.step >= cfg.agentSteps then s.(agents := s.agents[i := Ended(Stopped("max_steps"), a.usage)])
      else if IsExceeded(cfg.limits, s.ledger) then s.(agents := s.agents[i := Ended(Stopped("budget"), a.usage)])
      else s.(agents := s.agents[i := Calling(a.step, a.usage)], passed := s.passed + 1)
    case Reply(i, provider, model, input, output, finding) =>
      var a := s.agents[i];
      var usage := Usage(a.usage.input + input, a.usage.output + output);
      s.(ledger := Recorded(s.ledger, provider, model, input, output),
         agents := s.agents[i := if finding.Some? then Ended(Found(finding.value), usage)
                                 else Checking(a.step + 1, usage)])
    case Break(i, reason) =>
      s.(agents := s.agents[i := Ended(Errored(reason), s.agents[i].usage)])
    case Settle(i) =>
      var a := s.agents[i];
      // A success is counted first and saved second, a failure the other way round.
      if a.Ended? then
        (if a.outcome.Found? then Counted(cfg, s, a.outcome, a.usage) else Saved(cfg, s, i, a.outcome))
        .(agents := s.agents[i := Settling(a.outcome, a.usage)])
      else
        (if a.outcome.Found? then Saved(cfg, s, i, a.outcome) else Counted(cfg, s, a.outcome, a.usage))
        .(agents := s.agents[i := Settled(a.outcome, a.usage)])
  }

  // -------------------------------------------------------- sums over agents

  ghost function Sum<T>(f: T -> nat, xs: seq<T>): nat {
    if xs == [] then 0 else Sum(f, xs[..|xs| - 1]) + f(xs[|xs| - 1])
  }

  lemma {:induction false} SumUpdate<T>(f: T -> nat, xs: seq<T>, i: nat, a: T)
    requires i < |xs|
    ensures Sum(f, xs[i := a]) + f(xs[i]) == Sum(f, xs) + f(a)
  {
    var n := |xs| - 1;
    if i == n {
      assert xs[i := a][..n] == xs[..n];
    } else {
      assert xs[i := a][..n] == xs[..n][i := a];
      SumUpdate(f, xs[..n], i, a);
    }
  }

  lemma {:induction false} SumZero<T>(f: T -> nat, xs: seq<T>)
    requires forall i :: 0 <= i < |xs| ==> f(xs[i]) == 0
    ensures Sum(f, xs) == 0
  {
    if xs != [] {
      SumZero(f, xs[..|xs| - 1]);
    }
  }

  lemma {:induction false} SumAtMost<T>(f: T -> nat, g: T -> nat, xs: seq<T>)
    requires forall i :: 0 <= i < |xs| ==> f(xs[i]) <= g(xs[i])
    ensures Sum(f, xs) <= Sum(g, xs)
  {
    if xs != [] {
      SumAtMost(f, g, xs[..|xs| - 1]);
    }
  }

  lemma {:induction false} SumSplits<T>(f: T -> nat, g: T -> nat, h: T -> nat, xs: seq<T>)
    requires forall i :: 0 <= i < |xs| ==> f(xs[i]) + g(xs[i]) == h(xs[i])
    ensures Sum(f, xs) + Sum(g, xs) == Sum(h, xs)
  {
    if xs != [] {
      SumSplits(f, g, h, xs[..|xs| - 1]);
    }
  }

  function UsageOf(a: Agent): Usage { if a.Pending? then Usage(0, 0) else a.usage }

  /** Has the outcome been added to the counters, or its row saved? */
  predicate IsCounted(a: Agent)
    ensures IsCounted(a) ==> a.Settling? || a.Settled?
  {
    a.Settled? || (a.Settling? && a.outcome.Found?)
  }

  predicate IsSaved(a: Agent)
    ensures IsSaved(a) ==> a.Settling? || a.Settled?
  {
    a.Settled? || (a.Settling? && !a.outcome.Found?)
  }

  function ActiveUnit(a: Agent): nat { if IsActive(a) then 1 else 0 }
  function CallUnit(a: Agent): nat { if a.Calling? then 1 else 0 }
  function InputOf(a: Agent): nat { UsageOf(a).input }
  function OutputOf(a: Agent): nat { UsageOf(a).output }
  function TokensOf(a: Agent): nat { UsageOf(a).input + UsageOf(a).output }
  function OkUnit(a: Agent): nat { if IsCounted(a) && a.outcome.Found? then 1 else 0 }
  function FailedUnit(a: Agent): nat { if IsCounted(a) && !a.outcome.Found? then 1 else 0 }
  function CountedTokens(a: Agent): nat { if IsCounted(a) && !a.outcome.Errored? then TokensOf(a) else 0 }
  function ErroredTokens(a: Agent): nat { if IsCounted(a) && a.outcome.Errored? then TokensOf(a) else 0 }

  function AgentCost(cfg: Config, a: Agent): nat {
    Pricing.Estimate(cfg.provider, cfg.model, UsageOf(a).input, UsageOf(a).output)
  }

  function CostOf(cfg: Config): Agent -> nat { a => AgentCost(cfg, a) }

  function CountedCost(cfg: Config): Agent -> nat {
    a => if IsCounted(a) && !a.outcome.Errored? then AgentCost(cfg, a) else 0
  }

  function ErroredCost(cfg: Config): Agent -> nat {
    a => if IsCounted(a) && a.outcome.Errored? then AgentCost(cfg, a) else 0
  }

  // --------------------------------------------------------------- schedules

  ghost predicate Legal(cfg: Config, es: seq<Event>)
    decreases |es|, 0
  {
    es == [] ||
    (&& Legal(cfg, es[..|es| - 1])
     && WellFormed(cfg, Exec(cfg, es[..|es| - 1]))
     && Enabled(cfg, Exec(cfg, es[..|es| - 1]), es[|es| - 1]))
  }

  ghost predicate WellFormed(cfg: Config, s: State) {
    && |s.agents| == |cfg.ids| && s.dispatched <= |s.agents|
    && forall i :: 0 <= i < |s.agents| ==> (s.agents[i].Pending? <==> i >= s.dispatched)
  }

  ghost function Exec(cfg: Config, es: seq<Event>): State
    requires Legal(cfg, es)
    decreases |es|, 1
  {
    if es == [] then Initial(cfg) else Next(cfg, Exec(cfg, es[..|es| - 1]), es[|es| - 1])
  }

  lemma {:induction false} LegalPrefix(cfg: Config, es: seq<Event>, k: nat)
    requires Legal(cfg, es) && k <= |es|
    ensures Legal(cfg, es[..k])
    decreases |es|
  {
    if k == |es| {
      assert es[..k] == es;
    } else {
      LegalPrefix(cfg, es[..|es| - 1], k);
      assert es[..|es| - 1][..k] == es[..k];
    }
  }

  /** The agent an event moves, and where it moves it. */
  ghost function Moved(s: State, e: Event): nat {
    match e
    case Launch => s.dispatched
    case Check(i) => i
    case Reply(i, _, _, _, _, _) => i
    case Break(i, _) => i
    case Settle(i) => i
  }

  lemma NextMovesOne(cfg: Config, s: State, e: Event)
    requires WellFormed(cfg, s) && Enabled(cfg, s, e)
    ensures var i := Moved(s, e);
            var s' := Next(cfg, s, e);
            && i < |s.agents| && |s'.agents| == |s.agents| && s'.agents == s.agents[i := s'.agents[i]]
            && WellFormed(cfg, s')
  {
  }

  lemma {:induction false} ExecWellFormed(cfg: Config, es: seq<Event>)
    requires Legal(cfg, es)
    ensures WellFormed(cfg, Exec(cfg, es))
    decreases |es|
  {
    if es != [] {
      ExecWellFormed(cfg, es[..|es| - 1]);
      NextMovesOne(cfg, Exec(cfg, es[..|es| - 1]), es[|es| - 1]);
    }
  }

  /** A legal run goes on with any enabled event. */
  lemma Extend(cfg: Config, es: seq<Event>, e: Event)
    requires Legal(cfg, es) && WellFormed(cfg, Exec(cfg, es)) && Enabled(cfg, Exec(cfg, es), e)
    ensures Legal(cfg, es + [e]) && Exec(cfg, es + [e]) == Next(cfg, Exec(cfg, es), e)
  {
    assert (es + [e])[..|es + [e]| - 1] == es;
  }

  /** At no time are more than `Slots` clauses in work. */
  lemma {:induction false} ConcurrencyBound(cfg: Config, es: seq<Event>)
    requires Legal(cfg, es)
    ensures Sum(ActiveUnit, Exec(cfg, es).agents) <= Slots(cfg)
    ensures Sum(CallUnit, Exec(cfg, es).agents) <= Sum(ActiveUnit, Exec(cfg, es).agents)
    decreases |es|
  {
    hide Sum, Pricing.Estimate, IsExceeded;
    var s := Exec(cfg, es);
    SumAtMost(CallUnit, ActiveUnit, s.agents);
    if es == [] {
      SumZero(ActiveUnit, s.agents);
    } else {
      var t := Exec(cfg, es[..|es| - 1]);
      ConcurrencyBound(cfg, es[..|es| - 1]);
      NextMovesOne(cfg, t, es[|es| - 1]);
      var i := Moved(t, es[|es| - 1]);
      SumUpdate(ActiveUnit, t.agents, i, s.agents[i]);
    }
  }

  // ------------------------------------------------------- budget overshoot

  /** No reply reports more than `maxTokens` tokens or costs more than `maxCost`. */
  ghost predicate Bounded(es: seq<Event>, maxTokens: nat, maxCost: nat) {
    forall k :: 0 <= k < |es| && es[k].Reply? ==>
      && es[k].input + es[k].output <= maxTokens
      && Pricing.Estimate(es[k].provider, es[k].model, es[k].input, es[k].output) <= maxCost
  }

  /** What is used, plus what the calls in flight may still add, stays below the limit
      plus one call per slot. */
  ghost predicate Within(limit: int, used: nat, unit: nat, inFlight: nat, slots: nat) {
    limit > 0 ==> used + unit * inFlight <= limit - 1 + unit * slots
  }

  lemma CallBegins(limit: int, used: nat, unit: nat, inFlight: nat, slots: nat)
    requires limit > 0 ==> used < limit
    requires inFlight <= slots
    ensures Within(limit, used, unit, inFlight, slots)
  {
    assert unit * inFlight <= unit * slots;
  }

  lemma CallEnds(limit: int, used: nat, used': nat, unit: nat, inFlight: nat, slots: nat)
    requires inFlight > 0 && Within(limit, used, unit, inFlight, slots)
    requires used <= used' <= used + unit
    ensures Within(limit, used', unit, inFlight - 1, slots)
  {
    assert unit * inFlight == unit * (inFlight - 1) + unit;
  }

  ghost predicate WithinAll(cfg: Config, s: State, maxTokens: nat, maxCost: nat) {
    var k := Sum(CallUnit, s.agents);
    && Within(cfg.limits.maxSteps, s.ledger.steps, 1, k, Slots(cfg))
    && Within(cfg.limits.maxTokens, s.ledger.tokens, maxTokens, k, Slots(cfg))
    && Within(cfg.limits.maxCost, s.ledger.cost, maxCost, k, Slots(cfg))
  }

  lemma {:induction false} OvershootInvariant(cfg: Config, es: seq<Event>, maxTokens: nat, maxCost: nat)
    requires Legal(cfg, es) && Bounded(es, maxTokens, maxCost)
    ensures WithinAll(cfg, Exec(cfg, es), maxTokens, maxCost)
    decreases |es|
  {
    var s := Exec(cfg, es);
    ConcurrencyBound(cfg, es);
    if es == [] {
      CallsBegin(cfg, s, Sum(CallUnit, s.agents), maxTokens, maxCost);
    } else {
      var front, e := es[..|es| - 1], es[|es| - 1];
      assert Bounded(front, maxTokens, maxCost) by {
        assert forall j :: 0 <= j < |front| ==> front[j] == es[j];
      }
      OvershootInvariant(cfg, front, maxTokens, maxCost);
      assert es[|es| - 1] == e;
      OvershootStep(cfg, Exec(cfg, front), e, maxTokens, maxCost);
    }
  }

  lemma OvershootStep(cfg: Config, t: State, e: Event, maxTokens: nat, maxCost: nat)
    requires WellFormed(cfg, t) && Enabled(cfg, t, e) && WithinAll(cfg, t, maxTokens, maxCost)
    requires e.Reply? ==> e.input + e.output <= maxTokens
                          && Pricing.Estimate(e.provider, e.model, e.input, e.output) <= maxCost
    requires Sum(CallUnit, Next(cfg, t, e).agents) <= Slots(cfg)
    ensures WithinAll(cfg, Next(cfg, t, e), maxTokens, maxCost)
  {
    var s := Next(cfg, t, e);
    NextMovesOne(cfg, t, e);
    var i := Moved(t, e);
    SumUpdate(CallUnit, t.agents, i, s.agents[i]);
    var k := Sum(CallUnit, s.agents);
    if s.agents[i].Calling? {
      CallsBegin(cfg, s, k, maxTokens, maxCost);
    } else if t.agents[i].Calling? {
      CallEnds(cfg.limits.maxSteps, t.ledger.steps, s.ledger.steps, 1, k + 1, Slots(cfg));
      CallEnds(cfg.limits.maxTokens, t.ledger.tokens, s.ledger.tokens, maxTokens, k + 1, Slots(cfg));
      CallEnds(cfg.limits.maxCost, t.ledger.cost, s.ledger.cost, maxCost, k + 1, Slots(cfg));
    }
  }

  lemma CallsBegin(cfg: Config, s: State, k: nat, maxTokens: nat, maxCost: nat)
    requires !IsExceeded(cfg.limits, s.ledger) && k == Sum(CallUnit, s.agents) <= Slots(cfg)
    ensures WithinAll(cfg, s, maxTokens, maxCost)
  {
    CallBegins(cfg.limits.maxSteps, s.ledger.steps, 1, k, Slots(cfg));
    CallBegins(cfg.limits.maxTokens, s.ledger.tokens, maxTokens, k, Slots(cfg));
    CallBegins(cfg.limits.maxCost, s.ledger.cost, maxCost, k, Slots(cfg));
  }

  lemma NotNegative(unit: nat, k: nat)
    ensures unit * k >= 0
  {
  }

  /** Over every interleaving, a limit is overrun by less than one call per slot. */
  lemma BudgetOvershoot(cfg: Config, es: seq<Event>, maxTokens: nat, maxCost: nat)
    requires Legal(cfg, es) && Bounded(es, maxTokens, maxCost)
    ensures var l := Exec(cfg, es).ledger;
            && (cfg.limits.maxSteps > 0 ==> l.steps <= cfg.limits.maxSteps - 1 + Slots(cfg))
            && (cfg.limits.maxTokens > 0 ==> l.tokens <= cfg.limits.maxTokens - 1 + maxTokens * Slots(cfg))
            && (cfg.limits.maxCost > 0 ==> l.cost <= cfg.limits.maxCost - 1 + maxCost * Slots(cfg))
  {
    hide Legal, Exec, Bounded, Sum;
    OvershootInvariant(cfg, es, maxTokens, maxCost);
    var k := Sum(CallUnit, Exec(cfg, es).agents);
    NotNegative(maxTokens, k);
    NotNegative(maxCost, k);
  }

  /** Once the budget is exceeded it stays exceeded, and no further budget check passes. Calls
      whose check has passed already still begin. */
  lemma {:induction false} NoCheckPasses(cfg: Config, es: seq<Event>, k: nat)
    requires Legal(cfg, es) && k <= |es|
    requires Legal(cfg, es[..k]) && IsExceeded(cfg.limits, Exec(cfg, es[..k]).ledger)
    ensures IsExceeded(cfg.limits, Exec(cfg, es).ledger)
    ensures Exec(cfg, es).passed == Exec(cfg, es[..k]).passed
    decreases |es|
  {
    if k == |es| {
      assert es[..k] == es;
    } else {
      assert es[..|es| - 1][..k] == es[..k];
      NoCheckPasses(cfg, es[..|es| - 1], k);
    }
  }

  /** An agent that was stopped ran into the step limit, or into the budget. */
  ghost predicate StoppedRightly(cfg: Config, s: State) {
    forall i :: 0 <= i < |s.agents| && !s.agents[i].Pending? && !s.agents[i].Checking? && !s.agents[i].Calling?
                && s.agents[i].outcome.Stopped? ==>
      || s.agents[i].outcome.reason == "max_steps"
      || (s.agents[i].outcome.reason == "budget" && IsExceeded(cfg.limits, s.ledger))
  }

  lemma {:induction false} StoppedBecause(cfg: Config, es: seq<Event>)
    requires Legal(cfg, es)
    ensures StoppedRightly(cfg, Exec(cfg, es))
    decreases |es|
  {
    if es != [] {
      StoppedBecause(cfg, es[..|es| - 1]);
      hide Pricing.Estimate, Legal, Sum;
      StoppedStep(cfg, Exec(cfg, es[..|es| - 1]), es[|es| - 1]);
    }
  }

  lemma StoppedStep(cfg: Config, s: State, e: Event)
    requires WellFormed(cfg, s) && Enabled(cfg, s, e) && StoppedRightly(cfg, s)
    ensures StoppedRightly(cfg, Next(cfg, s, e))
  {
    hide Pricing.Estimate, Sum;
  }

  // ------------------------------------------------------- how many calls

  function StepsOf(cfg: Config): nat { if cfg.agentSteps < 0 then 0 else cfg.agentSteps }

  /** The calls an agent may still begin. */
  function CallsOf(cfg: Config, a: Agent): nat {
    match a
    case Pending => StepsOf(cfg)
    case Checking(step, _) => if step < cfg.agentSteps then cfg.agentSteps - step else 0
    case Calling(step, _) => if step < cfg.agentSteps then cfg.agentSteps - step - 1 else 0
    case _ => 0
  }

  function CallsLeft(cfg: Config): Agent -> nat { a => CallsOf(cfg, a) }

  ghost predicate CallsAccounted(cfg: Config, s: State) {
    s.passed + Sum(CallsLeft(cfg), s.agents) <= |s.agents| * StepsOf(cfg)
  }

  lemma {:induction false} SumOfPending(cfg: Config, agents: seq<Agent>)
    requires forall i :: 0 <= i < |agents| ==> agents[i].Pending?
    ensures Sum(CallsLeft(cfg), agents) == |agents| * StepsOf(cfg)
  {
    if agents != [] {
      SumOfPending(cfg, agents[..|agents| - 1]);
      OneMoreAgent(|agents| - 1, StepsOf(cfg));
    }
  }

  lemma OneMoreAgent(n: nat, steps: nat)
    ensures n * steps + steps == (n + 1) * steps
  {
  }

  lemma CallsAccountedStep(cfg: Config, s: State, e: Event)
    requires WellFormed(cfg, s) && Enabled(cfg, s, e) && CallsAccounted(cfg, s)
    ensures CallsAccounted(cfg, Next(cfg, s, e))
  {
    NextMovesOne(cfg, s, e);
    var i := Moved(s, e);
    SumUpdate(CallsLeft(cfg), s.agents, i, Next(cfg, s, e).agents[i]);
  }

  /** Over every interleaving the agents together begin at most one call for each step
      each of them may make. */
  lemma {:induction false} CallsBounded(cfg: Config, es: seq<Event>)
    requires Legal(cfg, es)
    ensures CallsAccounted(cfg, Exec(cfg, es))
    ensures Exec(cfg, es).passed <= |cfg.ids| * StepsOf(cfg)
    decreases |es|
  {
    ExecWellFormed(cfg, es);
    if es == [] {
      SumOfPending(cfg, Initial(cfg).agents);
    } else {
      CallsBounded(cfg, es[..|es| - 1]);
      CallsAccountedStep(cfg, Exec(cfg, es[..|es| - 1]), es[|es| - 1]);
    }
  }
}
