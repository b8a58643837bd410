/** When the shared cap is kept: for which numbers of slots and sizes of a call no
    interleaving, whatever the clauses and the other limits, uses more than a limit. */
module FanoutKept {
  import opened Fanout
  import opened FanoutResults
  import opened FanoutTight
  import opened Pricing

  /** Runs over distinct clauses with that many slots. */
  ghost predicate IsRun(cfg: Config, es: seq<Event>, slots: nat) {
    Distinct(cfg.ids) && Slots(cfg) == slots && Legal(cfg, es)
  }

  ghost predicate TokensUpTo(es: seq<Event>, size: nat) {
    forall k :: 0 <= k < |es| && es[k].Reply? ==> es[k].input + es[k].output <= size
  }

  ghost predicate CostsUpTo(es: seq<Event>, cost: nat) {
    forall k :: 0 <= k < |es| && es[k].Reply? ==>
      Pricing.Estimate(es[k].provider, es[k].model, es[k].input, es[k].output) <= cost
  }

  ghost predicate StepsKept(slots: nat, limit: nat) {
    forall cfg, es :: IsRun(cfg, es, slots) && cfg.limits.maxSteps == limit ==> Exec(cfg, es).ledger.steps <= limit
  }

  ghost predicate TokensKept(slots: nat, limit: nat, size: nat) {
    forall cfg, es :: IsRun(cfg, es, slots) && cfg.limits.maxTokens == limit && TokensUpTo(es, size) ==>
      Exec(cfg, es).ledger.tokens <= limit
  }

  ghost predicate CostKept(slots: nat, limit: nat, cost: nat) {
    forall cfg, es :: IsRun(cfg, es, slots) && cfg.limits.maxCost == limit && CostsUpTo(es, cost) ==>
      Exec(cfg, es).ledger.cost <= limit
  }

  // ------------------------------------------------------------ it is kept

  lemma {:induction false} SomeSize(es: seq<Event>) returns (size: nat)
    ensures TokensUpTo(es, size)
  {
    size := 0;
    if es != [] {
      var e := es[|es| - 1];
      size := SomeSize(es[..|es| - 1]);
      assert forall k :: 0 <= k < |es| - 1 ==> es[k] == es[..|es| - 1][k];
      if e.Reply? && size < e.input + e.output {
        size := e.input + e.output;
      }
    }
  }

  lemma {:induction false} SomeCost(es: seq<Event>) returns (cost: nat)
    ensures CostsUpTo(es, cost)
  {
    cost := 0;
    if es != [] {
      var e := es[|es| - 1];
      cost := SomeCost(es[..|es| - 1]);
      assert forall k :: 0 <= k < |es| - 1 ==> es[k] == es[..|es| - 1][k];
      if e.Reply? && cost < Pricing.Estimate(e.provider, e.model, e.input, e.output) {
        cost := Pricing.Estimate(e.provider, e.model, e.input, e.output);
      }
    }
  }

  lemma WithinLimits(cfg: Config, es: seq<Event>, size: nat, cost: nat)
    requires Legal(cfg, es) && TokensUpTo(es, size) && CostsUpTo(es, cost)
    ensures var l := Exec(cfg, es).ledger;
            && (cfg.limits.maxSteps > 0 ==> l.steps <= cfg.limits.maxSteps - 1 + Slots(cfg))
            && (cfg.limits.maxTokens > 0 ==> l.tokens <= cfg.limits.maxTokens - 1 + size * Slots(cfg))
            && (cfg.limits.maxCost > 0 ==> l.cost <= cfg.limits.maxCost - 1 + cost * Slots(cfg))
  {
    hide Legal, Exec, Pricing.Estimate;
    BudgetOvershoot(cfg, es, size, cost);
  }

  // -------------------------------------------------------- it is overrun

  function Names(n: nat): (ids: seq<string>)
    ensures |ids| == n && Distinct(ids)
  {
    var ids := seq(n, i requires 0 <= i < n => seq(i, _ => 'c'));
    assert forall i :: 0 <= i < n ==> |ids[i]| == i;
    ids
  }

  /** What the run that meets all three bounds at once makes of the three caps. */
  lemma Overrun(slots: nat, limit: nat, size: nat, m: Model) returns (cfg: Config, es: seq<Event>)
    requires slots >= 1 && limit >= 1 && size >= 1
    ensures IsRun(cfg, es, slots) && TokensUpTo(es, size) && CostsUpTo(es, Price(m, size))
    ensures cfg.limits.maxSteps == limit && Exec(cfg, es).ledger.steps == limit - 1 + slots
    ensures cfg.limits.maxTokens == limit && Exec(cfg, es).ledger.tokens == limit - 1 + size * slots
    ensures cfg.limits.maxCost == Price(m, limit - 1) + 1
    ensures Exec(cfg, es).ledger.cost == Price(m, limit - 1) + Price(m, size) * slots
  {
    hide Legal, Exec, Pricing.Estimate;
    cfg, es := OvershootReached(Names(slots), limit, size, m);
  }

  // ----------------------------------------------------------- main results

  /** The cap on steps is kept by every run if and only if there is one slot. */
  lemma StepsKeptIff(slots: nat, limit: nat)
    requires slots >= 1 && limit >= 1
    ensures StepsKept(slots, limit) <==> slots == 1
  {
    hide Legal, Exec, Distinct, CostsUpTo, TokensUpTo, Pricing.Estimate;
    if slots == 1 {
      forall cfg, es | IsRun(cfg, es, slots) && cfg.limits.maxSteps == limit
        ensures Exec(cfg, es).ledger.steps <= limit
      {
        var size := SomeSize(es);
        var cost := SomeCost(es);
        WithinLimits(cfg, es, size, cost);
      }
    } else {
      var cfg, es := Overrun(slots, limit, 1, Model("", ""));
    }
  }

  /** The cap on tokens is kept by every run whose calls use at most `size` tokens if and
      only if there is one slot and a call uses at most one token, or none uses any. */
  lemma TokensKeptIff(slots: nat, limit: nat, size: nat)
    requires slots >= 1 && limit >= 1
    ensures TokensKept(slots, limit, size) <==> size * slots <= 1
  {
    hide Legal, Exec, Distinct, CostsUpTo, TokensUpTo, Pricing.Estimate;
    if size * slots <= 1 {
      forall cfg, es | IsRun(cfg, es, slots) && cfg.limits.maxTokens == limit && TokensUpTo(es, size)
        ensures Exec(cfg, es).ledger.tokens <= limit
      {
        var cost := SomeCost(es);
        WithinLimits(cfg, es, size, cost);
      }
    } else {
      var cfg, es := Overrun(slots, limit, size, Model("", ""));
    }
  }
}
