/** The overshoot bound cannot be improved: for every number of slots, limit, call size
    and price there is an interleaving that reaches it. */
module FanoutTight {
  import opened Wrappers
  import opened Budgets
  import opened Fanout
  import opened Pricing

  /** As many clauses as slots, a limit of `limit` on tokens and on steps, and a cost
      limit just above the price of `limit - 1` tokens. */
  ghost function TightConfig(ids: seq<string>, limit: nat, m: Model): Config
    requires limit >= 1
  {
    Config(Limits(limit, Price(m, limit - 1) + 1, limit), |ids|, limit, m.provider, m.model, ids)
  }

  /** Clause `i` after `launched` launches, `warm` one-token calls by the first clause,
      `checked` budget checks and `replied` replies of `size` tokens. */
  ghost function AgentAt(i: nat, launched: nat, warm: nat, checked: nat, replied: nat, size: nat): Agent {
    var step := if i == 0 then warm else 0;
    if i >= launched then Pending
    else if i < replied then Checking(step + 1, Usage(0, step + size))
    else if i < checked then Calling(step, Usage(0, step))
    else Checking(step, Usage(0, step))
  }

  ghost function StateAt(n: nat, launched: nat, warm: nat, checked: nat, replied: nat, size: nat, m: Model): State
    requires launched <= n
  {
    State(Ledger(warm + Times(replied, size), 0, warm + Times(replied, size),
                 Price(m, warm) + Times(replied, Price(m, size)), warm + replied),
          seq(n, i requires 0 <= i < n => AgentAt(i, launched, warm, checked, replied, size)),
          launched, 0, 0, 0, 0, [], warm + checked)
  }

  ghost predicate Reached(cfg: Config, es: seq<Event>, s: State, size: nat, m: Model) {
    Legal(cfg, es) && Exec(cfg, es) == s && Bounded(es, size, Price(m, size))
  }

  lemma ReachedNext(cfg: Config, es: seq<Event>, s: State, e: Event, size: nat, m: Model)
    requires Reached(cfg, es, s, size, m) && WellFormed(cfg, s) && Enabled(cfg, s, e)
    requires e.Reply? ==> e.input == 0 && e.output <= size && e.provider == m.provider && e.model == m.model
    ensures Reached(cfg, es + [e], Next(cfg, s, e), size, m)
  {
    Fanout.Extend(cfg, es, e);
    if e.Reply? { PriceGrows(m, e.output, size); }
  }

  lemma {:induction false} ActiveAtMost(agents: seq<Agent>, k: nat)
    requires k <= |agents| && forall i :: k <= i < |agents| ==> agents[i].Pending?
    ensures Sum(ActiveUnit, agents) <= k
  {
    if |agents| > 0 {
      ActiveAtMost(agents[..|agents| - 1], if k < |agents| then k else |agents| - 1);
    }
  }

  lemma AtRest(ids: seq<string>, limit: nat, size: nat, m: Model)
    requires limit >= 1
    ensures Reached(TightConfig(ids, limit, m), [], StateAt(|ids|, 0, 0, 0, 0, size, m), size, m)
  {
    assert Initial(TightConfig(ids, limit, m)).agents == StateAt(|ids|, 0, 0, 0, 0, size, m).agents;
  }

  lemma {:induction false} AllLaunched(ids: seq<string>, limit: nat, size: nat, m: Model, k: nat) returns (es: seq<Event>)
    requires 1 <= |ids| && limit >= 1 && k <= |ids|
    ensures Reached(TightConfig(ids, limit, m), es, StateAt(|ids|, k, 0, 0, 0, size, m), size, m)
  {
    hide Reached, Pricing.Estimate;
    var cfg := TightConfig(ids, limit, m);
    if k == 0 {
      es := [];
      AtRest(ids, limit, size, m);
    } else {
      es := AllLaunched(ids, limit, size, m, k - 1);
      var s := StateAt(|ids|, k - 1, 0, 0, 0, size, m);
      ActiveAtMost(s.agents, k - 1);
      ReachedNext(cfg, es, s, Launch, size, m);
      assert Next(cfg, s, Launch) == StateAt(|ids|, k, 0, 0, 0, size, m);
      es := es + [Launch];
    }
  }

  lemma {:induction false} Warmed(ids: seq<string>, limit: nat, size: nat, m: Model, warm: nat) returns (es: seq<Event>)
    requires 1 <= |ids| && size >= 1 && warm < limit
    ensures Reached(TightConfig(ids, limit, m), es, StateAt(|ids|, |ids|, warm, 0, 0, size, m), size, m)
  {
    hide Reached, Pricing.Estimate;
    var cfg := TightConfig(ids, limit, m);
    var n := |ids|;
    if warm == 0 {
      es := AllLaunched(ids, limit, size, m, n);
    } else {
      es := Warmed(ids, limit, size, m, warm - 1);
      es := OneMoreCall(ids, limit, size, m, warm - 1, es);
    }
  }

  lemma OneMoreCall(ids: seq<string>, limit: nat, size: nat, m: Model, warm: nat, es: seq<Event>) returns (es': seq<Event>)
    requires 1 <= |ids| && size >= 1 && warm + 1 < limit
    requires Reached(TightConfig(ids, limit, m), es, StateAt(|ids|, |ids|, warm, 0, 0, size, m), size, m)
    ensures Reached(TightConfig(ids, limit, m), es', StateAt(|ids|, |ids|, warm + 1, 0, 0, size, m), size, m)
  {
    hide Reached, Pricing.Estimate;
    var cfg, n := TightConfig(ids, limit, m), |ids|;
    var s := StateAt(n, n, warm, 0, 0, size, m);
    PriceGrows(m, warm, limit - 1);
    assert !IsExceeded(cfg.limits, s.ledger);
    assert s.agents[0] == Checking(warm, Usage(0, warm));
    ReachedNext(cfg, es, s, Check(0), size, m);
    var t := Next(cfg, s, Check(0));
    assert t.agents[0] == Calling(warm, Usage(0, warm));
    var reply := Reply(0, m.provider, m.model, 0, 1, None);
    ReachedNext(cfg, es + [Check(0)], t, reply, size, m);
    Pricing.EstimateLinear(m.provider, m.model, 0, warm, 0, 1);
    assert Next(cfg, t, reply).agents == StateAt(n, n, warm + 1, 0, 0, size, m).agents;
    es' := es + [Check(0)] + [reply];
  }

  lemma {:induction false} AllChecked(ids: seq<string>, limit: nat, size: nat, m: Model, k: nat) returns (es: seq<Event>)
    requires 1 <= |ids| && size >= 1 && limit >= 1 && k <= |ids|
    ensures Reached(TightConfig(ids, limit, m), es, StateAt(|ids|, |ids|, limit - 1, k, 0, size, m), size, m)
  {
    hide Reached, Pricing.Estimate;
    var cfg := TightConfig(ids, limit, m);
    var n := |ids|;
    if k == 0 {
      es := Warmed(ids, limit, size, m, limit - 1);
    } else {
      es := AllChecked(ids, limit, size, m, k - 1);
      var s := StateAt(n, n, limit - 1, k - 1, 0, size, m);
      assert s.agents[k - 1] == AgentAt(k - 1, n, limit - 1, k - 1, 0, size);
      assert !IsExceeded(cfg.limits, s.ledger);
      ReachedNext(cfg, es, s, Check(k - 1), size, m);
      assert Next(cfg, s, Check(k - 1)).agents == StateAt(n, n, limit - 1, k, 0, size, m).agents;
      es := es + [Check(k - 1)];
    }
  }

  lemma {:induction false} AllReplied(ids: seq<string>, limit: nat, size: nat, m: Model, k: nat) returns (es: seq<Event>)
    requires 1 <= |ids| && size >= 1 && limit >= 1 && k <= |ids|
    ensures Reached(TightConfig(ids, limit, m), es, StateAt(|ids|, |ids|, limit - 1, |ids|, k, size, m), size, m)
  {
    hide Reached, Pricing.Estimate;
    var cfg := TightConfig(ids, limit, m);
    var n := |ids|;
    if k == 0 {
      es := AllChecked(ids, limit, size, m, n);
    } else {
      es := AllReplied(ids, limit, size, m, k - 1);
      var s := StateAt(n, n, limit - 1, n, k - 1, size, m);
      var reply := Reply(k - 1, m.provider, m.model, 0, size, None);
      ReachedNext(cfg, es, s, reply, size, m);
      assert Next(cfg, s, reply).agents == StateAt(n, n, limit - 1, n, k, size, m).agents;
      es := es + [reply];
    }
  }

  /** The three bounds of `BudgetOvershoot` are met at once, with equality, for every
      number of slots, step limit, call size and price. */
  lemma OvershootReached(ids: seq<string>, limit: nat, size: nat, m: Model) returns (cfg: Config, es: seq<Event>)
    requires 1 <= |ids| && size >= 1 && limit >= 1
    ensures cfg.limits.maxTokens == limit && cfg.limits.maxSteps == limit && Slots(cfg) == |ids| && cfg.ids == ids
    ensures cfg.limits.maxCost == Price(m, limit - 1) + 1
    ensures Legal(cfg, es) && Bounded(es, size, Price(m, size))
    ensures Exec(cfg, es).ledger.steps == cfg.limits.maxSteps - 1 + Slots(cfg)
    ensures Exec(cfg, es).ledger.tokens == cfg.limits.maxTokens - 1 + size * Slots(cfg)
    ensures Exec(cfg, es).ledger.cost == cfg.limits.maxCost - 1 + Price(m, size) * Slots(cfg)
  {
    cfg := TightConfig(ids, limit, m);
    es := AllReplied(ids, limit, size, m, |ids|);
    TimesIsProduct(|ids|, size);
    TimesIsProduct(|ids|, Price(m, size));
  }
}
