/** A durable run with a budget, over every schedule of interruptions and restarts. Each
    process begins with a fresh budget and restores into it what the run's row holds.
    No caller in the program combines a store with a budget; the agent's interface lets
    a library user do so. */
module AgentBudget {
  import opened Wrappers
  import opened AgentSpec
  import opened AgentRecovery
  import opened Budgets
  import opened Llm
  import opened Pricing

  /** The machine, what all its processes together have recorded, and how many have
      begun. */
  datatype Account = Account(s: State, spent: Ledger, begun: nat)

  const OPENED := Account(FRESH, EMPTY, 0)

  /** A run may be started whenever no process is at work, whatever its row says. */
  ghost predicate Permitted(a: Account, e: Event) {
    match e
    case Begin(_) => !Working(a.s.proc)
    case Step => Working(a.s.proc)
    case Interrupt => Working(a.s.proc)
  }

  /** What the next step of a process adds to the bill. */
  ghost function Billed(w: World, s: State, spent: Ledger): Ledger {
    if !s.proc.AtComplete? then spent
    else
      match w.complete(RequestFor(w, s.proc.step, s.proc.msgs))
      case Failure(_) => spent
      case Success(resp) => Recorded(spent, resp.provider, resp.model, resp.inputTokens, resp.outputTokens)
  }

  ghost function After(w: World, task: Task, a: Account, e: Event): Account
    requires Permitted(a, e)
  {
    match e
    case Begin(id) => Account(Start(w, task, a.s, id, Some(EMPTY)), a.spent, a.begun + 1)
    case Step => Account(Tick(w, task, a.s), Billed(w, a.s, a.spent), a.begun)
    case Interrupt => a.(s := Killed(a.s))
  }

  ghost predicate Lawful(w: World, task: Task, es: seq<Event>)
    decreases |es|, 0
  {
    es == [] || (Lawful(w, task, es[..|es| - 1]) && Permitted(Balance(w, task, es[..|es| - 1]), es[|es| - 1]))
  }

  ghost function Balance(w: World, task: Task, es: seq<Event>): Account
    requires Lawful(w, task, es)
    decreases |es|, 1
  {
    if es == [] then OPENED else After(w, task, Balance(w, task, es[..|es| - 1]), es[|es| - 1])
  }

  // ------------------------------------------------- what is there to restore

  /** A row that is still running holds no usage: only the end of a run writes it. */
  ghost predicate Unwritten(rows: Rows) {
    rows.run.Some? && rows.run.value.status.Running? ==> rows.run.value.usedTokens == 0 && rows.run.value.usedCost == 0
  }

  lemma {:induction false} AlwaysUnwritten(w: World, task: Task, es: seq<Event>)
    requires Lawful(w, task, es)
    ensures Unwritten(Balance(w, task, es).s.rows)
    decreases |es|
  {
    hide Prepare, TakeTurn;
    if es != [] {
      AlwaysUnwritten(w, task, es[..|es| - 1]);
    }
  }

  /** So a restart restores nothing: whatever the history of the clause, a process works
      with the budget it was given. That budget accounts for what the clause has spent
      exactly when it has spent nothing. */
  lemma {:induction false} RestoreAddsNothing(w: World, task: Task, es: seq<Event>, id: string, given: Ledger)
    requires Lawful(w, task, es)
    ensures Start(w, task, Balance(w, task, es).s, id, Some(given)).budget == Some(given)
    ensures Start(w, task, Balance(w, task, es).s, id, Some(EMPTY)).budget == Some(Balance(w, task, es).spent)
            <==> Balance(w, task, es).spent == EMPTY
  {
    AlwaysUnwritten(w, task, es);
  }

  /** What a restart of a running row would restore: the tokens and the cost of the row,
      and neither the calls nor the kinds of tokens. */
  lemma RestartRestores(w: World, task: Task, s: State, id: string, given: Ledger)
    requires w.durable && s.rows.run.Some? && s.rows.run.value.status.Running?
    ensures var run := s.rows.run.value;
            Start(w, task, s, id, Some(given)).budget ==
            Some(Ledger(given.tokens + run.usedTokens, given.input, given.output,
                        given.cost + run.usedCost, given.steps))
  {
  }

  // ------------------------------------------------------- what can be spent

  /** No reply uses more than `maxTokens` tokens or costs more than `maxCost`. */
  ghost predicate RepliesBounded(w: World, maxTokens: nat, maxCost: nat) {
    forall r {:trigger w.complete(r)} :: w.complete(r).Success? ==>
      var resp := w.complete(r).value;
      && resp.inputTokens + resp.outputTokens <= maxTokens
      && Pricing.Estimate(resp.provider, resp.model, resp.inputTokens, resp.outputTokens) <= maxCost
  }

  /** One limit: a process overruns it by less than one call, and the processes before
      it did no worse. */
  ghost predicate Kept(limit: int, unit: nat, now: nat, spent: nat, past: nat) {
    limit > 0 ==> now <= limit - 1 + unit && spent <= past * (limit - 1 + unit) + now
  }

  /** Steps are bounded whatever the replies are, tokens and cost if the replies are. */
  ghost predicate Bounds(w: World, a: Account, maxTokens: nat, maxCost: nat) {
    && (Working(a.s.proc) ==> a.s.budget.Some?)
    && (a.s.budget.Some? ==> a.begun >= 1)
    && (a.s.proc.AtComplete? && a.s.budget.Some? ==> !IsExceeded(w.limits, a.s.budget.value))
    && var now := if a.s.budget.Some? then a.s.budget.value else EMPTY;
       var past := if a.s.budget.Some? then a.begun - 1 else a.begun;
       && Kept(w.limits.maxSteps, 1, now.steps, a.spent.steps, past)
       && (RepliesBounded(w, maxTokens, maxCost) ==>
             && Kept(w.limits.maxTokens, maxTokens, now.tokens, a.spent.tokens, past)
             && Kept(w.limits.maxCost, maxCost, now.cost, a.spent.cost, past))
  }

  lemma KeptOver(limit: int, unit: nat, now: nat, spent: nat, past: nat)
    requires Kept(limit, unit, now, spent, past)
    ensures Kept(limit, unit, 0, spent, past + 1)
  {
    if limit > 0 {
      assert (past + 1) * (limit - 1 + unit) == past * (limit - 1 + unit) + (limit - 1 + unit);
    }
  }

  lemma BoundsBegin(w: World, task: Task, a: Account, id: string, maxTokens: nat, maxCost: nat)
    requires Bounds(w, a, maxTokens, maxCost) && !Working(a.s.proc) && Unwritten(a.s.rows)
    ensures Bounds(w, After(w, task, a, Begin(id)), maxTokens, maxCost)
  {
    PastGrows(w, a, maxTokens, maxCost);
  }

  /** The current process counts among the past ones. */
  lemma PastGrows(w: World, a: Account, maxTokens: nat, maxCost: nat)
    requires Bounds(w, a, maxTokens, maxCost)
    ensures Kept(w.limits.maxSteps, 1, 0, a.spent.steps, a.begun)
    ensures RepliesBounded(w, maxTokens, maxCost) ==>
              && Kept(w.limits.maxTokens, maxTokens, 0, a.spent.tokens, a.begun)
              && Kept(w.limits.maxCost, maxCost, 0, a.spent.cost, a.begun)
  {
    hide RepliesBounded;
    if a.s.budget.Some? {
      var now, past := a.s.budget.value, a.begun - 1;
      KeptOver(w.limits.maxSteps, 1, now.steps, a.spent.steps, past);
      if RepliesBounded(w, maxTokens, maxCost) {
        KeptOver(w.limits.maxTokens, maxTokens, now.tokens, a.spent.tokens, past);
        KeptOver(w.limits.maxCost, maxCost, now.cost, a.spent.cost, past);
      }
    }
  }

  lemma BoundsStep(w: World, task: Task, a: Account, maxTokens: nat, maxCost: nat)
    requires Bounds(w, a, maxTokens, maxCost) && Working(a.s.proc)
    ensures Bounds(w, After(w, task, a, Step), maxTokens, maxCost)
  {
    hide Prepare, TakeTurn, Pricing.Estimate;
    if a.s.proc.AtComplete? {
      var reply := w.complete(RequestFor(w, a.s.proc.step, a.s.proc.msgs));
    }
  }

  lemma {:induction false} AlwaysBounded(w: World, task: Task, es: seq<Event>, maxTokens: nat, maxCost: nat)
    requires Lawful(w, task, es)
    ensures Bounds(w, Balance(w, task, es), maxTokens, maxCost)
    decreases |es|
  {
    hide RepliesBounded;
    if es != [] {
      var front, e := es[..|es| - 1], es[|es| - 1];
      var a := Balance(w, task, front);
      AlwaysBounded(w, task, front, maxTokens, maxCost);
      match e
      case Begin(id) =>
        AlwaysUnwritten(w, task, front);
        BoundsBegin(w, task, a, id, maxTokens, maxCost);
      case Step => BoundsStep(w, task, a, maxTokens, maxCost);
      case Interrupt => PastGrows(w, a, maxTokens, maxCost);
    }
  }

  /** Over every schedule with k processes, a clause spends at most k times what one
      process may: k times the step limit, and for tokens and cost, when the replies are
      bounded, k times the limit plus less than one call. */
  lemma SpentBounded(w: World, task: Task, es: seq<Event>, maxTokens: nat, maxCost: nat)
    requires Lawful(w, task, es)
    ensures var a := Balance(w, task, es);
            && (w.limits.maxSteps > 0 ==> a.spent.steps <= a.begun * w.limits.maxSteps)
            && (RepliesBounded(w, maxTokens, maxCost) ==>
                  && (w.limits.maxTokens > 0 ==> a.spent.tokens <= a.begun * (w.limits.maxTokens - 1 + maxTokens))
                  && (w.limits.maxCost > 0 ==> a.spent.cost <= a.begun * (w.limits.maxCost - 1 + maxCost)))
  {
    hide Lawful, Balance, RepliesBounded;
    AlwaysBounded(w, task, es, maxTokens, maxCost);
    PastGrows(w, Balance(w, task, es), maxTokens, maxCost);
  }

  // ------------------------------------------------------------ it is reached

  /** A model that answers every request with `size` tokens of talk. The limits stop a
      process after `round` calls, each of them just then; the step limit of the agent
      lets `k` processes make that many. */
  function Chatty(k: nat, round: nat, size: nat, m: Model): World
    requires round >= 1
  {
    World(k * round, true, None,
          Limits((round - 1) * size + 1, Estimate(m.provider, m.model, 0, (round - 1) * size) + 1, round),
          _ => Success(Response("well", [], 0, size, m.provider, m.model)),
          _ => Failure(""), _ => Failure(""), s => s, t => "task", _ => Failure(""))
  }

  /** The ledger of `n` such calls. */
  ghost function Bill(n: nat, size: nat, m: Model): Ledger { Ledger(n * size, 0, n * size, Price(m, n * size), n) }

  lemma BillGrows(n: nat, size: nat, m: Model)
    ensures Recorded(Bill(n, size, m), m.provider, m.model, 0, size) == Bill(n + 1, size, m)
  {
    assert (n + 1) * size == n * size + size;
    EstimateLinear(m.provider, m.model, 0, n * size, 0, size);
  }

  lemma BillUnderLimits(k: nat, round: nat, size: nat, m: Model, n: nat)
    requires n < round
    ensures !IsExceeded(Chatty(k, round, size, m).limits, Bill(n, size, m))
  {
    Product(n, round - 1, size);
    PriceGrows(m, n * size, (round - 1) * size);
  }

  lemma Product(n: nat, k: nat, size: nat)
    requires n <= k
    ensures n * size <= k * size
  {
  }

  lemma Onward(w: World, task: Task, es: seq<Event>, e: Event)
    requires Lawful(w, task, es) && Permitted(Balance(w, task, es), e)
    ensures Lawful(w, task, es + [e]) && Balance(w, task, es + [e]) == After(w, task, Balance(w, task, es), e)
  {
    assert (es + [e])[..|es|] == es;
  }

  /** A process of the run stands at the head of step `n`, which is also how many calls all
      processes have made; it has made `made` of them and is the `begun`th. */
  ghost predicate Stands(a: Account, n: nat, made: nat, begun: nat, size: nat, m: Model) {
    && a.s.proc.AtHead? && Attached(a.s.rows, a.s.proc.id) && Dense(a.s.rows.steps) && |a.s.rows.steps| == n
    && a.s.proc.step == n && a.begun == begun
    && a.spent == Bill(n, size, m) && a.s.budget == Some(Bill(made, size, m))
  }

  /** Three ticks of a process: check, reply, row. */
  lemma Ticks(k: nat, round: nat, size: nat, m: Model, task: Task, a: Account, n: nat, made: nat, begun: nat)
    returns (b: Account, c: Account, d: Account)
    requires Stands(a, n, made, begun, size, m) && n < k * round && made < round
    ensures var w := Chatty(k, round, size, m);
            && Working(a.s.proc) && b == After(w, task, a, Step)
            && Working(b.s.proc) && c == After(w, task, b, Step)
            && Working(c.s.proc) && d == After(w, task, c, Step)
    ensures Stands(d, n + 1, made + 1, begun, size, m)
  {
    var w := Chatty(k, round, size, m);
    BillUnderLimits(k, round, size, m, made);
    BillGrows(n, size, m);
    BillGrows(made, size, m);
    hide Bill, IsExceeded, Recorded;
    b := After(w, task, a, Step);
    c := After(w, task, b, Step);
    assert c.s.proc.AtAppend? && c.s.proc.finding.None?;
    hide TakeTurn;
    DenseGrows(a.s.rows.steps, AgentSpec.Snapshot(c.s.proc.msgs, c.s.proc.reply.input, c.s.proc.reply.output));
    d := After(w, task, c, Step);
  }

  lemma OneCall(k: nat, round: nat, size: nat, m: Model, task: Task, es: seq<Event>, n: nat, made: nat, begun: nat)
    returns (more: seq<Event>)
    requires round >= 1 && n < k * round && made < round
    requires var w := Chatty(k, round, size, m);
             Lawful(w, task, es) && Stands(Balance(w, task, es), n, made, begun, size, m)
    ensures var w := Chatty(k, round, size, m);
            Lawful(w, task, more) && Stands(Balance(w, task, more), n + 1, made + 1, begun, size, m)
  {
    var w := Chatty(k, round, size, m);
    hide Lawful, Balance, After, Stands, Chatty;
    var b, c, d := Ticks(k, round, size, m, task, Balance(w, task, es), n, made, begun);
    Onward(w, task, es, Step);
    Onward(w, task, es + [Step], Step);
    Onward(w, task, es + [Step] + [Step], Step);
    more := es + [Step] + [Step] + [Step];
  }

  lemma {:induction false} Calls(k: nat, round: nat, size: nat, m: Model, task: Task, es: seq<Event>,
                                 n: nat, made: nat, begun: nat)
    returns (more: seq<Event>)
    requires round >= 1 && n + made <= k * round && made <= round
    requires var w := Chatty(k, round, size, m);
             Lawful(w, task, es) && Stands(Balance(w, task, es), n, 0, begun, size, m)
    ensures var w := Chatty(k, round, size, m);
            Lawful(w, task, more) && Stands(Balance(w, task, more), n + made, made, begun, size, m)
    decreases made
  {
    hide Lawful, Balance, Stands, Chatty;
    if made == 0 {
      more := es;
    } else {
      more := Calls(k, round, size, m, task, es, n, made - 1, begun);
      more := OneCall(k, round, size, m, task, more, n + made - 1, made - 1, begun);
    }
  }

  lemma NextProcess(w: World, task: Task, es: seq<Event>, id: string, n: nat, made: nat, begun: nat,
                    size: nat, m: Model)
    returns (more: seq<Event>)
    requires w.durable && Lawful(w, task, es) && Stands(Balance(w, task, es), n, made, begun, size, m) && n > 0
    ensures Lawful(w, task, more) && Stands(Balance(w, task, more), n, 0, begun + 1, size, m)
  {
    AlwaysUnwritten(w, task, es);
    Onward(w, task, es, Interrupt);
    more := es + [Interrupt];
    var s := Balance(w, task, more).s;
    assert LastIndex(s.rows.steps) == n - 1 by {
      assert n - 1 in s.rows.steps;
    }
    Onward(w, task, more, Begin(id));
    more := more + [Begin(id)];
    NothingBilled(size, m);
  }

  lemma NothingBilled(size: nat, m: Model)
    ensures Bill(0, size, m) == EMPTY
  {
    PriceIsTimes(m, 0);
  }

  lemma FirstProcess(w: World, task: Task, id: string, size: nat, m: Model) returns (es: seq<Event>)
    requires w.durable
    ensures Lawful(w, task, es) && Stands(Balance(w, task, es), 0, 0, 1, size, m)
  {
    Onward(w, task, [], Begin(id));
    es := [] + [Begin(id)];
    NothingBilled(size, m);
  }

  lemma Multiple(k: nat, limit: nat)
    requires k > 0
    ensures k * limit == (k - 1) * limit + limit && (k - 1) * limit >= 0
  {
  }

  /** Process number `begun + 1` uses up its limits. */
  lemma OneProcess(all: nat, round: nat, size: nat, m: Model, task: Task, es: seq<Event>, n: nat, begun: nat)
    returns (more: seq<Event>)
    requires round >= 1 && n + round <= all * round && (n > 0 <==> begun > 0)
    requires var w := Chatty(all, round, size, m);
             Lawful(w, task, es) && (if n > 0 then Stands(Balance(w, task, es), n, round, begun, size, m) else es == [])
    ensures var w := Chatty(all, round, size, m);
            Lawful(w, task, more) && Stands(Balance(w, task, more), n + round, round, begun + 1, size, m)
  {
    var w := Chatty(all, round, size, m);
    assert w.durable;
    hide Lawful, Balance, Stands, Chatty;
    if n > 0 {
      more := NextProcess(w, task, es, "run-2", n, round, begun, size, m);
    } else {
      more := FirstProcess(w, task, "run-1", size, m);
    }
    more := Calls(all, round, size, m, task, more, n, round, begun + 1);
  }

  ghost function Rounds(k: nat, round: nat): nat { k * round }

  lemma RoundsGrow(k: nat, round: nat, all: nat)
    requires k < all && round >= 1
    ensures Rounds(k, round) + round == Rounds(k + 1, round) <= all * round
    ensures Rounds(k, round) > 0 <==> k > 0
  {
    Multiple(k + 1, round);
    Product(k + 1, all, round);
    Product(if k > 0 then 1 else k, k, round);
  }

  /** The first `k` of the processes each use up their limits. */
  lemma {:induction false} KProcesses(all: nat, round: nat, size: nat, m: Model, task: Task, k: nat)
    returns (es: seq<Event>)
    requires round >= 1 && k <= all
    ensures var w := Chatty(all, round, size, m);
            && Lawful(w, task, es)
            && if k > 0 then Stands(Balance(w, task, es), Rounds(k, round), round, k, size, m) else es == []
    decreases k
  {
    if k == 0 {
      es := [];
    } else {
      hide Lawful, Balance, Stands, Chatty, Rounds;
      es := KProcesses(all, round, size, m, task, k - 1);
      RoundsGrow(k - 1, round, all);
      es := OneProcess(all, round, size, m, task, es, Rounds(k - 1, round), k - 1);
    }
  }

  /** The three bounds of `SpentBounded`, with equality. */
  ghost predicate BoundsMet(limits: Limits, spent: Ledger, k: nat, maxTokens: nat, maxCost: nat) {
    && spent.steps == k * limits.maxSteps
    && spent.tokens == k * (limits.maxTokens - 1 + maxTokens)
    && spent.cost == k * (limits.maxCost - 1 + maxCost)
  }

  lemma Regroup(k: nat, round: nat, size: nat)
    ensures (k * round) * size == k * (round * size)
  {
  }

  lemma CostOfAll(k: nat, round: nat, size: nat, m: Model)
    requires round >= 1
    ensures Price(m, (k * round) * size) == k * (Price(m, (round - 1) * size) + Price(m, size))
  {
    hide Estimate;
    var each := Price(m, 1);
    Multiple(round, size);
    Regroup(k, round, size);
    PriceIsProduct(m, (round - 1) * size);
    PriceIsProduct(m, size);
    PriceIsProduct(m, k * (round * size));
    Spread(k, (round - 1) * size, size, each);
  }

  lemma PriceIsProduct(m: Model, n: nat)
    ensures Price(m, n) == n * Price(m, 1)
  {
    PriceIsTimes(m, n);
    TimesIsProduct(n, Price(m, 1));
  }

  lemma Spread(k: nat, a: nat, b: nat, each: nat)
    ensures (k * (a + b)) * each == k * (a * each + b * each)
  {
  }

  lemma BillOfAll(k: nat, round: nat, size: nat, m: Model)
    requires round >= 1
    ensures BoundsMet(Chatty(k, round, size, m).limits, Bill(Rounds(k, round), size, m), k, size, Price(m, size))
  {
    Multiple(round, size);
    Regroup(k, round, size);
    CostOfAll(k, round, size, m);
    assert Chatty(k, round, size, m).limits.maxCost == Price(m, (round - 1) * size) + 1;
    hide Estimate;
  }

  /** The three bounds are met at once, within one run that never ends, for every number
      of processes, calls a process may make, call size and model. From the second
      process on no limit is kept over the clause. */
  lemma SpentReached(k: nat, round: nat, size: nat, m: Model, task: Task) returns (es: seq<Event>)
    requires k >= 1 && round >= 1
    ensures var w := Chatty(k, round, size, m);
            && w.durable && w.limits.maxSteps == round && w.limits.maxTokens > 0 && w.limits.maxCost > 0
            && RepliesBounded(w, size, Price(m, size))
            && Lawful(w, task, es) && Balance(w, task, es).begun == k
            && BoundsMet(w.limits, Balance(w, task, es).spent, k, size, Price(m, size))
  {
    hide Lawful, Balance, Bill, BoundsMet, Rounds, Estimate;
    es := KProcesses(k, round, size, m, task, k);
    BillOfAll(k, round, size, m);
  }

  /** No schedule with `k` processes makes more calls for a clause than one process may. */
  ghost predicate StepsKept(k: nat, limit: nat) {
    forall w, task, es ::
      Lawful(w, task, es) && Balance(w, task, es).begun == k && w.limits.maxSteps == limit ==>
        Balance(w, task, es).spent.steps <= limit
  }

  /** The step limit is kept over a clause by every schedule if and only if at most one
      process works on it. */
  lemma StepsKeptIff(k: nat, limit: nat)
    requires limit >= 1
    ensures StepsKept(k, limit) <==> k <= 1
  {
    hide Lawful, Balance, RepliesBounded;
    if k <= 1 {
      forall w, task, es |
        Lawful(w, task, es) && Balance(w, task, es).begun == k && w.limits.maxSteps == limit
        ensures Balance(w, task, es).spent.steps <= limit
      {
        SpentBounded(w, task, es, 0, 0);
      }
    } else {
      var task := Task("", "", "");
      var es := SpentReached(k, limit, 0, Model("", ""), task);
      Product(2, k, limit);
    }
  }
}
