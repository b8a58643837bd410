/** Pricing (cost/pricing.go) in units of 1e-8 USD: a rate of d dollars per million
    tokens is 100 * d units per token, and every listed rate has two decimals. */
module Pricing {

  datatype Rate = Rate(inPerToken: nat, outPerToken: nat)

  const RATES: map<string, Rate> := map[
    "openai:gpt-4o" := Rate(250, 1000),
    "openai:gpt-4o-mini" := Rate(15, 60),
    "openai:gpt-4o-mini-2024-07-18" := Rate(15, 60),
    "anthropic:claude-sonnet-4-6" := Rate(300, 1500),
    "anthropic:claude-haiku-4-5-20251001" := Rate(80, 400),
    "anthropic:claude-opus-4-8" := Rate(1500, 7500)
  ]

  /** Unknown models cost nothing. */
  function Estimate(provider: string, model: string, input: nat, output: nat): nat {
    var key := provider + ":" + model;
    if key in RATES then input * RATES[key].inPerToken + output * RATES[key].outPerToken else 0
  }

  lemma EstimateLinear(provider: string, model: string, i: nat, o: nat, i': nat, o': nat)
    ensures Estimate(provider, model, i + i', o + o')
         == Estimate(provider, model, i, o) + Estimate(provider, model, i', o')
  {
    var key := provider + ":" + model;
    if key in RATES {
      var r := RATES[key];
      Distribute(i, i', r.inPerToken);
      Distribute(o, o', r.outPerToken);
    }
  }

  /** The listed prices: 250 units a token are 2.50 dollars a million tokens. */
  lemma ListPrices(provider: string, model: string, input: nat, output: nat)
    ensures var key, price := provider + ":" + model, Estimate(provider, model, input, output);
            && (key == "openai:gpt-4o" ==> price == 250 * input + 1000 * output)
            && (key == "openai:gpt-4o-mini" ==> price == 15 * input + 60 * output)
            && (key == "openai:gpt-4o-mini-2024-07-18" ==> price == 15 * input + 60 * output)
            && (key == "anthropic:claude-sonnet-4-6" ==> price == 300 * input + 1500 * output)
            && (key == "anthropic:claude-haiku-4-5-20251001" ==> price == 80 * input + 400 * output)
            && (key == "anthropic:claude-opus-4-8" ==> price == 1500 * input + 7500 * output)
  {
  }

  /** Any other model costs nothing. */
  lemma UnlistedIsFree(provider: string, model: string, input: nat, output: nat)
    requires provider + ":" + model !in {"openai:gpt-4o", "openai:gpt-4o-mini", "openai:gpt-4o-mini-2024-07-18",
                                         "anthropic:claude-sonnet-4-6", "anthropic:claude-haiku-4-5-20251001",
                                         "anthropic:claude-opus-4-8"}
    ensures Estimate(provider, model, input, output) == 0
  {
  }

  lemma Distribute(a: nat, b: nat, r: nat)
    ensures (a + b) * r == a * r + b * r
  {
  }

  /** A provider and a model, known or not. */
  datatype Model = Model(provider: string, model: string)

  ghost function Times(n: nat, size: nat): nat { if n == 0 then 0 else Times(n - 1, size) + size }

  lemma {:induction false} TimesIsProduct(n: nat, size: nat)
    ensures Times(n, size) == size * n
  {
    if n > 0 {
      TimesIsProduct(n - 1, size);
      assert size * n == size * (n - 1) + size;
    }
  }

  lemma {:induction false} TimesGrows(n: nat, k: nat, size: nat)
    requires n <= k
    ensures Times(n, size) <= Times(k, size)
  {
    if n < k {
      TimesGrows(n, k - 1, size);
    }
  }

  /** The price of `n` output tokens. */
  ghost function Price(m: Model, n: nat): nat { Estimate(m.provider, m.model, 0, n) }

  lemma {:induction false} PriceIsTimes(m: Model, n: nat)
    ensures Price(m, n) == Times(n, Price(m, 1))
  {
    if n > 0 {
      PriceIsTimes(m, n - 1);
      EstimateLinear(m.provider, m.model, 0, n - 1, 0, 1);
    }
  }

  lemma PriceGrows(m: Model, n: nat, k: nat)
    requires n <= k
    ensures Price(m, n) <= Price(m, k)
  {
    PriceIsTimes(m, n);
    PriceIsTimes(m, k);
    TimesGrows(n, k, Price(m, 1));
  }
}

/** The shared budget of agent/budget.go. */
module Budgets {
  import Pricing

  datatype Usage = Usage(input: nat, output: nat)

  datatype Limits = Limits(maxTokens: int, maxCost: int, maxSteps: int)

  datatype Ledger = Ledger(tokens: nat, input: nat, output: nat, cost: nat, steps: nat)

  const EMPTY := Ledger(0, 0, 0, 0, 0)

  function Recorded(l: Ledger, provider: string, model: string, input: nat, output: nat): Ledger {
    Ledger(l.tokens + input + output,
           l.input + input,
           l.output + output,
           l.cost + Pricing.Estimate(provider, model, input, output),
           l.steps + 1)
  }

  function Restored(l: Ledger, tokens: nat, cost: nat): Ledger {
    l.(tokens := l.tokens + tokens, cost := l.cost + cost)
  }

  /** A limit of zero or less is no limit. */
  predicate IsExceeded(limits: Limits, l: Ledger) {
    || (limits.maxTokens > 0 && l.tokens >= limits.maxTokens)
    || (limits.maxCost > 0 && l.cost >= limits.maxCost)
    || (limits.maxSteps > 0 && l.steps >= limits.maxSteps)
  }

  /** Each method body is one critical section of the mutex. */
  class Budget {
    const limits: Limits
    var usedTokens: nat
    var usedInputTokens: nat
    var usedOutputTokens: nat
    var usedCost: nat
    var usedSteps: nat

    function Contents(): Ledger
      reads this
    {
      Ledger(usedTokens, usedInputTokens, usedOutputTokens, usedCost, usedSteps)
    }

    constructor (limits: Limits)
      ensures this.limits == limits && Contents() == EMPTY
    {
      this.limits := limits;
      usedTokens, usedInputTokens, usedOutputTokens, usedCost, usedSteps := 0, 0, 0, 0, 0;
    }

    method Record(provider: string, model: string, input: nat, output: nat)
      modifies this
      ensures Contents() == Recorded(old(Contents()), provider, model, input, output)
      ensures usedTokens == old(usedTokens) + input + output && usedSteps == old(usedSteps) + 1
      ensures usedInputTokens == old(usedInputTokens) + input && usedOutputTokens == old(usedOutputTokens) + output
      ensures usedCost == old(usedCost) + Pricing.Estimate(provider, model, input, output)
    {
      usedTokens := usedTokens + input + output;
      usedInputTokens := usedInputTokens + input;
      usedOutputTokens := usedOutputTokens + output;
      usedCost := usedCost + Pricing.Estimate(provider, model, input, output);
      usedSteps := usedSteps + 1;
    }

    method Exceeded() returns (r: bool)
      ensures r == IsExceeded(limits, Contents())
      ensures r <==> || (limits.maxTokens > 0 && usedTokens >= limits.maxTokens)
                     || (limits.maxCost > 0 && usedCost >= limits.maxCost)
                     || (limits.maxSteps > 0 && usedSteps >= limits.maxSteps)
    {
      if limits.maxTokens > 0 && usedTokens >= limits.maxTokens { return true; }
      if limits.maxCost > 0 && usedCost >= limits.maxCost { return true; }
      if limits.maxSteps > 0 && usedSteps >= limits.maxSteps { return true; }
      return false;
    }

    method RestoreTokens(tokens: nat, cost: nat)
      modifies this
      ensures Contents() == Restored(old(Contents()), tokens, cost)
      ensures usedTokens == old(usedTokens) + tokens && usedCost == old(usedCost) + cost
      ensures usedInputTokens == old(usedInputTokens) && usedOutputTokens == old(usedOutputTokens)
      ensures usedSteps == old(usedSteps)
    {
      usedTokens := usedTokens + tokens;
      usedCost := usedCost + cost;
    }

    method Snapshot() returns (l: Ledger)
      ensures l == Contents()
      ensures l == Ledger(usedTokens, usedInputTokens, usedOutputTokens, usedCost, usedSteps)
    {
      l := Ledger(usedTokens, usedInputTokens, usedOutputTokens, usedCost, usedSteps);
    }
  }
}
