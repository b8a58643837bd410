/** When the shared cap on cost is kept. What a call costs is not any number: the cheapest
    token that is not free costs 15 units, and nothing costs between 15 and 30. */
module FanoutCost {
  import opened Wrappers
  import opened Budgets
  import opened Fanout
  import opened FanoutResults
  import opened FanoutKept
  import opened Pricing

  // ------------------------------------------------------------ small prices

  lemma RateShape(key: string)
    requires key in RATES
    ensures RATES[key] == Rate(15, 60) || (RATES[key].inPerToken >= 80 && RATES[key].outPerToken >= 400)
  {
  }

  /** A call below 30 units costs nothing or 15 units. */
  lemma SmallPrice(provider: string, model: string, input: nat, output: nat)
    requires Estimate(provider, model, input, output) < 30
    ensures Estimate(provider, model, input, output) in {0, 15}
  {
    var key := provider + ":" + model;
    if key in RATES {
      RateShape(key);
      SmallSum(input, RATES[key].inPerToken, output, RATES[key].outPerToken);
    }
  }

  lemma SmallSum(input: nat, inRate: nat, output: nat, outRate: nat)
    requires inRate == 15 || inRate >= 30
    requires outRate >= 30 && input * inRate + output * outRate < 30
    ensures input * inRate + output * outRate in {0, 15}
  {
    AtLeastRate(input, inRate);
    AtLeastRate(output, outRate);
  }

  lemma AtLeastRate(n: nat, rate: nat)
    ensures n >= 1 ==> n * rate >= rate
    ensures n >= 2 ==> n * rate >= 2 * rate
    ensures n * rate >= 0
  {
    if n >= 2 {
      assert n * rate == 2 * rate + (n - 2) * rate;
    }
  }

  const PROVIDER := "openai"
  const CHEAPEST := "gpt-4o-mini"

  lemma CheapestPrice(n: nat)
    ensures Estimate(PROVIDER, CHEAPEST, n, 0) == 15 * n
  {
    assert PROVIDER + ":" + CHEAPEST == "openai:gpt-4o-mini";
  }

  // ------------------------------------------------------------- it is kept

  ghost predicate InFifteens(n: nat) { n % 15 == 0 }

  lemma StillInFifteens(n: nat, more: nat)
    requires InFifteens(n) && more in {0, 15}
    ensures InFifteens(n + more)
  {
  }

  /** With small calls the ledger moves in steps of 15 units. */
  lemma {:induction false} InSteps(cfg: Config, es: seq<Event>)
    requires Legal(cfg, es) && CostsUpTo(es, 29)
    ensures CostsUpTo(es, 15) && InFifteens(Exec(cfg, es).ledger.cost)
    decreases |es|
  {
    if es != [] {
      hide Estimate, Next, InFifteens;
      var front, e := es[..|es| - 1], es[|es| - 1];
      assert forall k :: 0 <= k < |front| ==> front[k] == es[k];
      InSteps(cfg, front);
      if e.Reply? {
        SmallPrice(e.provider, e.model, e.input, e.output);
      }
      NextCost(cfg, Exec(cfg, front), e);
      StillInFifteens(Exec(cfg, front).ledger.cost,
                      if e.Reply? then Estimate(e.provider, e.model, e.input, e.output) else 0);
    }
  }

  lemma NextCost(cfg: Config, s: State, e: Event)
    requires WellFormed(cfg, s) && Enabled(cfg, s, e)
    ensures Next(cfg, s, e).ledger.cost ==
            s.ledger.cost + if e.Reply? then Estimate(e.provider, e.model, e.input, e.output) else 0
  {
  }

  lemma FreeCalls(es: seq<Event>)
    requires CostsUpTo(es, 14)
    ensures CostsUpTo(es, 0)
  {
    forall k | 0 <= k < |es| && es[k].Reply?
      ensures Estimate(es[k].provider, es[k].model, es[k].input, es[k].output) <= 0
    {
      SmallPrice(es[k].provider, es[k].model, es[k].input, es[k].output);
    }
  }

  ghost predicate IsCostSafe(slots: nat, limit: nat, cost: nat) {
    cost < 15 || (slots == 1 && cost < 30 && limit % 15 == 0)
  }

  lemma SafeIsKept(slots: nat, limit: nat, cost: nat)
    requires slots >= 1 && limit >= 1 && IsCostSafe(slots, limit, cost)
    ensures CostKept(slots, limit, cost)
  {
    hide Legal, Exec, Estimate, Distinct, TokensUpTo;
    forall cfg, es | IsRun(cfg, es, slots) && cfg.limits.maxCost == limit && CostsUpTo(es, cost)
      ensures Exec(cfg, es).ledger.cost <= limit
    {
      var size := SomeSize(es);
      if cost < 15 {
        FreeCalls(es);
        WithinLimits(cfg, es, size, 0);
      } else {
        InSteps(cfg, es);
        WithinLimits(cfg, es, size, 15);
      }
    }
  }

  // ----------------------------------------------------------- it is overrun

  /** One or two clauses, that many slots, and a cap on cost only. */
  function CappedConfig(slots: nat, limit: nat): Config {
    Config(Limits(0, limit, 0), slots, limit + 1, PROVIDER, CHEAPEST, Names(if slots == 1 then 1 else 2))
  }

  ghost predicate Reaches(cfg: Config, es: seq<Event>, s: State, cost: nat) {
    Legal(cfg, es) && Exec(cfg, es) == s && WellFormed(cfg, s) && CostsUpTo(es, cost)
  }

  lemma ReachesNext(cfg: Config, es: seq<Event>, s: State, e: Event, cost: nat)
    requires Reaches(cfg, es, s, cost) && Enabled(cfg, s, e)
    requires e.Reply? ==> Estimate(e.provider, e.model, e.input, e.output) <= cost
    ensures Reaches(cfg, es + [e], Next(cfg, s, e), cost)
  {
    hide Estimate;
    Extend(cfg, es, e);
    NextMovesOne(cfg, s, e);
  }

  /** An agent whose check passes. */
  lemma Checks(cfg: Config, es: seq<Event>, s: State, i: nat, cost: nat) returns (t: State)
    requires Reaches(cfg, es, s, cost) && i < |s.agents| == |cfg.ids| && s.agents[i].Checking?
    requires s.agents[i].step < cfg.agentSteps && !IsExceeded(cfg.limits, s.ledger)
    ensures Reaches(cfg, es + [Check(i)], t, cost) && t.ledger == s.ledger
    ensures t.agents == s.agents[i := Calling(s.agents[i].step, s.agents[i].usage)]
  {
    hide Reaches, Sum;
    ReachesNext(cfg, es, s, Check(i), cost);
    assert WellFormed(cfg, s) by { IsWellFormed(cfg, es, s, cost); }
    t := Next(cfg, s, Check(i));
  }

  lemma IsWellFormed(cfg: Config, es: seq<Event>, s: State, cost: nat)
    requires Reaches(cfg, es, s, cost)
    ensures WellFormed(cfg, s)
  {
  }

  /** The reply of an agent that goes on, to a call with `input` tokens. */
  function ReplyOf(i: nat, input: nat): Event { Reply(i, PROVIDER, CHEAPEST, input, 0, None) }

  lemma Replies(cfg: Config, es: seq<Event>, s: State, i: nat, input: nat, cost: nat) returns (t: State)
    requires Reaches(cfg, es, s, cost) && i < |s.agents| == |cfg.ids| && s.agents[i].Calling? && 15 * input <= cost
    ensures Reaches(cfg, es + [ReplyOf(i, input)], t, cost) && t.ledger.cost == s.ledger.cost + 15 * input
    ensures |t.agents| == |s.agents| && t.agents[i].Checking? && t.agents[i].step == s.agents[i].step + 1
    ensures forall k :: 0 <= k < |s.agents| && k != i ==> t.agents[k] == s.agents[k]
  {
    CheapestPrice(input);
    hide Reaches, Sum, Estimate;
    ReachesNext(cfg, es, s, ReplyOf(i, input), cost);
    assert WellFormed(cfg, s) by { IsWellFormed(cfg, es, s, cost); }
    t := Next(cfg, s, ReplyOf(i, input));
  }

  /** All agents are launched; the first has made `used` calls of 15 units. */
  ghost predicate IsWarm(cfg: Config, s: State, used: nat) {
    && |s.agents| == |cfg.ids| && s.ledger.cost == 15 * used
    && s.agents != [] && s.agents[0].Checking? && s.agents[0].step == used
    && forall i :: 1 <= i < |s.agents| ==> s.agents[i].Checking? && s.agents[i].step == 0
  }

  lemma Launches(cfg: Config, es: seq<Event>, s: State, cost: nat) returns (t: State)
    requires Reaches(cfg, es, s, cost) && WellFormed(cfg, s) && s.dispatched < |s.agents|
    requires Sum(ActiveUnit, s.agents) < Slots(cfg)
    ensures Reaches(cfg, es + [Launch], t, cost) && WellFormed(cfg, t) && t.dispatched == s.dispatched + 1
    ensures t.agents == s.agents[s.dispatched := Checking(0, Usage(0, 0))] && t.ledger == s.ledger
    ensures Sum(ActiveUnit, t.agents) == Sum(ActiveUnit, s.agents) + 1
  {
    hide Reaches, Sum;
    ReachesNext(cfg, es, s, Launch, cost);
    t := Next(cfg, s, Launch);
    NextMovesOne(cfg, s, Launch);
    SumUpdate(ActiveUnit, s.agents, s.dispatched, Checking(0, Usage(0, 0)));
  }

  lemma AtRest(cfg: Config, cost: nat)
    ensures Reaches(cfg, [], Initial(cfg), cost) && WellFormed(cfg, Initial(cfg))
    ensures Sum(ActiveUnit, Initial(cfg).agents) == 0
  {
    SumZero(ActiveUnit, Initial(cfg).agents);
  }

  lemma AllLaunched(slots: nat, limit: nat, cost: nat) returns (es: seq<Event>, s: State)
    requires slots >= 1
    ensures Reaches(CappedConfig(slots, limit), es, s, cost) && IsWarm(CappedConfig(slots, limit), s, 0)
  {
    var cfg := CappedConfig(slots, limit);
    AtRest(cfg, cost);
    s := Initial(cfg);
    assert |cfg.ids| == (if slots == 1 then 1 else 2) && Slots(cfg) == slots;
    hide Reaches, Sum, WellFormed, CappedConfig;
    s := Launches(cfg, [], s, cost);
    es := [] + [Launch];
    if slots > 1 {
      s := Launches(cfg, es, s, cost);
      es := es + [Launch];
    }
  }

  /** One call of 15 units more by the first agent. */
  lemma OneMore(slots: nat, limit: nat, cost: nat, es: seq<Event>, s: State, used: nat)
    returns (more: seq<Event>, t: State)
    requires slots >= 1 && cost >= 15 && 15 * used < limit
    requires Reaches(CappedConfig(slots, limit), es, s, cost) && IsWarm(CappedConfig(slots, limit), s, used)
    ensures Reaches(CappedConfig(slots, limit), more, t, cost) && IsWarm(CappedConfig(slots, limit), t, used + 1)
  {
    var cfg := CappedConfig(slots, limit);
    hide Reaches, Names;
    t := Checks(cfg, es, s, 0, cost);
    t := Replies(cfg, es + [Check(0)], t, 0, 1, cost);
    more := es + [Check(0)] + [ReplyOf(0, 1)];
  }

  lemma {:induction false} WarmedUp(slots: nat, limit: nat, cost: nat, used: nat) returns (es: seq<Event>, s: State)
    requires slots >= 1 && cost >= 15 && 15 * used < limit + 15
    ensures Reaches(CappedConfig(slots, limit), es, s, cost) && IsWarm(CappedConfig(slots, limit), s, used)
  {
    hide Reaches, CappedConfig, IsWarm;
    if used == 0 {
      es, s := AllLaunched(slots, limit, cost);
    } else {
      es, s := WarmedUp(slots, limit, cost, used - 1);
      es, s := OneMore(slots, limit, cost, es, s, used - 1);
    }
  }

  /** One call of 30 units more. */
  lemma OneDearCall(slots: nat, limit: nat, cost: nat, used: nat) returns (es: seq<Event>, s: State)
    requires slots >= 1 && cost >= 30 && 15 * used < limit
    ensures Reaches(CappedConfig(slots, limit), es, s, cost) && s.ledger.cost == 15 * used + 30
  {
    var cfg := CappedConfig(slots, limit);
    hide Reaches, Names;
    es, s := WarmedUp(slots, limit, cost, used);
    s := Checks(cfg, es, s, 0, cost);
    s := Replies(cfg, es + [Check(0)], s, 0, 2, cost);
    es := es + [Check(0)] + [ReplyOf(0, 2)];
  }

  /** Two agents that both check before either replies. */
  lemma TwoInFlight(slots: nat, limit: nat, cost: nat, used: nat) returns (es: seq<Event>, s: State)
    requires slots >= 2 && cost >= 15 && 15 * used < limit
    ensures Reaches(CappedConfig(slots, limit), es, s, cost) && s.ledger.cost == 15 * used + 30
  {
    var cfg := CappedConfig(slots, limit);
    hide Reaches, Names;
    es, s := WarmedUp(slots, limit, cost, used);
    s := Checks(cfg, es, s, 0, cost);
    es := es + [Check(0)];
    s := Checks(cfg, es, s, 1, cost);
    es := es + [Check(1)];
    s := Replies(cfg, es, s, 0, 1, cost);
    es := es + [ReplyOf(0, 1)];
    s := Replies(cfg, es, s, 1, 1, cost);
    es := es + [ReplyOf(1, 1)];
  }

  /** Up to the edge of the cap, and beyond. */
  lemma Overruns(slots: nat, limit: nat, cost: nat) returns (es: seq<Event>, s: State)
    requires slots >= 1 && limit >= 1 && !IsCostSafe(slots, limit, cost)
    ensures Reaches(CappedConfig(slots, limit), es, s, cost) && s.ledger.cost > limit
  {
    hide Reaches, CappedConfig;
    var used := (limit - 1) / 15;
    if limit % 15 != 0 {
      es, s := WarmedUp(slots, limit, cost, used + 1);
    } else if cost >= 30 {
      es, s := OneDearCall(slots, limit, cost, used);
    } else {
      es, s := TwoInFlight(slots, limit, cost, used);
    }
  }

  lemma UnsafeIsOverrun(slots: nat, limit: nat, cost: nat)
    requires slots >= 1 && limit >= 1 && !IsCostSafe(slots, limit, cost)
    ensures !CostKept(slots, limit, cost)
  {
    hide IsCostSafe, Legal, Exec, CostsUpTo, Names, WellFormed;
    var es, s := Overruns(slots, limit, cost);
    assert IsRun(CappedConfig(slots, limit), es, slots);
  }

  // ------------------------------------------------------------ main result

  /** For every cap on cost and every bound on the cost of a call: all runs keep the cap if
      and only if calls below 15 units, which are free, are all there are, or there is one
      slot, calls stay below 30 units and the cap is a multiple of 15. */
  lemma CostKeptIff(slots: nat, limit: nat, cost: nat)
    requires slots >= 1 && limit >= 1
    ensures CostKept(slots, limit, cost) <==> cost < 15 || (slots == 1 && cost < 30 && limit % 15 == 0)
  {
    hide CostKept;
    if IsCostSafe(slots, limit, cost) {
      SafeIsKept(slots, limit, cost);
    } else {
      UnsafeIsOverrun(slots, limit, cost);
    }
  }
}
