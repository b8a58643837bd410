/** The agents of one analysis as real processes: each is the machine of AgentSpec for
    its clause, all share one ledger, and any interleaving of their steps, with the
    scheduler and the saving of results, is a possible run. */
module AgentFleet {
  import opened Wrappers
  import opened AgentSpec
  import opened AgentInFanout
  import opened Budgets
  import AgentBudget
  import AgentCalls
  import Fanout
  import Pricing
  import Retry

  /** The world without a store, the clauses, the limits and slots of the fan-out, and
      how the provider serves each call made through the retrying client. */
  datatype Setting = Setting(
    w: World,
    tasks: seq<Task>,
    cfg: Fanout.Config,
    services: nat -> Retry.Service,
    maxRetries: nat)

  ghost predicate WellSet(st: Setting) {
    && !st.w.durable && st.cfg.agentSteps == st.w.maxSteps && st.cfg.limits == st.w.limits
    && |st.tasks| == |st.cfg.ids|
  }

  /** `saved` counts which of saving the row and updating the counters is done. */
  datatype Member = Waiting | At(proc: Proc, saved: nat)

  /** `calls` counts completions and summaries, `attempts` what they took. */
  datatype Crew = Crew(
    members: seq<Member>,
    launched: nat,
    ledger: Ledger,
    calls: nat,
    completions: nat,
    attempts: nat)

  datatype Move = Launch | Advance(i: nat) | Cancel(i: nat, reason: string) | Settle(i: nat)

  function BusyUnit(m: Member): nat { if m.At? && m.saved < 2 then 1 else 0 }

  ghost predicate CanMove(st: Setting, c: Crew, m: Move) {
    match m
    case Launch => c.launched < |c.members| && Fanout.Sum(BusyUnit, c.members) < Fanout.Slots(st.cfg)
    case Advance(i) => i < |c.members| && c.members[i].At? && Working(c.members[i].proc)
    case Cancel(i, _) =>
      i < |c.members| && c.members[i].At? && (c.members[i].proc.AtHead? || c.members[i].proc.AtComplete?)
    case Settle(i) => i < |c.members| && c.members[i].At? && c.members[i].proc.Returned? && c.members[i].saved < 2
  }

  /** A process as the machine sees it: its own position and the shared ledger. */
  ghost function StateOf(c: Crew, i: nat): State
    requires i < |c.members| && c.members[i].At?
  {
    FRESH.(proc := c.members[i].proc, budget := Some(c.ledger))
  }

  ghost function Attempted(st: Setting, c: Crew): nat {
    Retry.ServedFrom(st.services(c.calls), st.maxRetries, 0).calls
  }

  ghost function Advanced(st: Setting, c: Crew, i: nat, t: State): Crew
    requires i < |c.members| && c.members[i].At?
  {
    var asks := AgentCalls.Asks(st.w, c.members[i].proc);
    c.(members := c.members[i := At(t.proc, c.members[i].saved)],
       ledger := if t.budget.Some? then t.budget.value else c.ledger,
       calls := c.calls + asks,
       completions := c.completions + (if c.members[i].proc.AtComplete? then 1 else 0),
       attempts := c.attempts + asks * Attempted(st, c))
  }

  ghost function Moved(st: Setting, c: Crew, m: Move): Crew
    requires |c.members| == |st.tasks| && CanMove(st, c, m)
  {
    match m
    case Launch =>
      var begun := Start(st.w, st.tasks[c.launched], FRESH, "", Some(c.ledger));
      c.(members := c.members[c.launched := At(begun.proc, 0)], launched := c.launched + 1)
    case Advance(i) =>
      Advanced(st, c, i, Tick(st.w, st.tasks[i], StateOf(c, i)))
    case Cancel(i, reason) =>
      c.(members := c.members[i := At(Returned(Failure(reason)), c.members[i].saved)])
    case Settle(i) =>
      c.(members := c.members[i := At(c.members[i].proc, c.members[i].saved + 1)])
  }

  function Assembled(st: Setting): Crew { Crew(seq(|st.tasks|, _ => Waiting), 0, EMPTY, 0, 0, 0) }

  ghost predicate Lawful(st: Setting, ms: seq<Move>)
    decreases |ms|, 0
  {
    ms == [] ||
    (&& Lawful(st, ms[..|ms| - 1])
     && |Reached(st, ms[..|ms| - 1]).members| == |st.tasks|
     && CanMove(st, Reached(st, ms[..|ms| - 1]), ms[|ms| - 1]))
  }

  ghost function Reached(st: Setting, ms: seq<Move>): Crew
    requires Lawful(st, ms)
    decreases |ms|, 1
  {
    if ms == [] then Assembled(st) else Moved(st, Reached(st, ms[..|ms| - 1]), ms[|ms| - 1])
  }

  lemma Onward(st: Setting, ms: seq<Move>, m: Move)
    requires Lawful(st, ms) && |Reached(st, ms).members| == |st.tasks| && CanMove(st, Reached(st, ms), m)
    ensures Lawful(st, ms + [m]) && Reached(st, ms + [m]) == Moved(st, Reached(st, ms), m)
  {
    assert (ms + [m])[..|ms|] == ms;
  }

  // ------------------------------------------------- it is a fan-out

  ghost predicate Mirrors(agent: Fanout.Agent, m: Member) {
    match m
    case Waiting => agent.Pending?
    case At(proc, saved) =>
      if saved == 0 then Matches(agent, proc)
      else
        && saved <= 2 && proc.Returned? && (if saved == 1 then agent.Settling? else agent.Settled?)
        && Matches(Fanout.Ended(agent.outcome, agent.usage), proc)
  }

  ghost predicate Mirror(st: Setting, c: Crew, f: Fanout.State) {
    && Fanout.WellFormed(st.cfg, f)
    && |c.members| == |f.agents| && c.launched == f.dispatched && c.ledger == f.ledger
    && forall i :: 0 <= i < |c.members| ==> Mirrors(f.agents[i], c.members[i])
  }

  lemma {:induction false} SameSums(ms: seq<Member>, agents: seq<Fanout.Agent>)
    requires |ms| == |agents| && forall i :: 0 <= i < |ms| ==> Mirrors(agents[i], ms[i])
    ensures Fanout.Sum(BusyUnit, ms) == Fanout.Sum(Fanout.ActiveUnit, agents)
  {
    if ms != [] {
      SameSums(ms[..|ms| - 1], agents[..|agents| - 1]);
      assert Mirrors(agents[|agents| - 1], ms[|ms| - 1]);
    }
  }

  /** The fan-out event that mirrors a move, if it takes one. */
  ghost function Mirrored(st: Setting, c: Crew, m: Move): Option<Fanout.Event>
    requires |c.members| == |st.tasks| && CanMove(st, c, m)
  {
    match m
    case Launch => Some(Fanout.Launch)
    case Advance(i) => EventOf(st.w, st.tasks[i], i, StateOf(c, i))
    case Cancel(i, reason) => Some(Fanout.Break(i, reason))
    case Settle(i) => Some(Fanout.Settle(i))
  }

  ghost predicate Follows(st: Setting, c: Crew, m: Move, f: Fanout.State)
    requires |c.members| == |st.tasks| && CanMove(st, c, m) && Fanout.WellFormed(st.cfg, f)
  {
    match Mirrored(st, c, m)
    case None => Mirror(st, Moved(st, c, m), f)
    case Some(e) => Fanout.Enabled(st.cfg, f, e) && Mirror(st, Moved(st, c, m), Fanout.Next(st.cfg, f, e))
  }

  lemma AdvanceFollows(st: Setting, c: Crew, i: nat, f: Fanout.State)
    requires WellSet(st) && Mirror(st, c, f) && CanMove(st, c, Advance(i))
    ensures Follows(st, c, Advance(i), f)
  {
    assert Mirrors(f.agents[i], c.members[i]);
    TickSimulated(st.cfg, f, i, st.w, st.tasks[i], StateOf(c, i));
    var e := EventOf(st.w, st.tasks[i], i, StateOf(c, i));
    hide Tick, Matches, EventOf;
    if e.Some? {
      EventMoves(st.w, st.tasks[i], i, StateOf(c, i));
      Fanout.NextMovesOne(st.cfg, f, e.value);
      hide Fanout.Next, Fanout.WellFormed;
    }
  }

  lemma EventMoves(w: World, task: Task, i: nat, s: State)
    ensures EventOf(w, task, i, s).Some? ==>
              var e := EventOf(w, task, i, s).value;
              (e.Check? || e.Reply? || e.Break?) && e.i == i
  {
    hide TakeTurn;
  }

  lemma LaunchFollows(st: Setting, c: Crew, f: Fanout.State)
    requires WellSet(st) && Mirror(st, c, f) && CanMove(st, c, Launch)
    ensures Follows(st, c, Launch, f)
  {
    SameSums(c.members, f.agents);
    StartSimulated(st.cfg, f, st.w, st.tasks[c.launched], "");
    Fanout.NextMovesOne(st.cfg, f, Fanout.Launch);
    hide Start, Matches, Fanout.Sum;
  }

  lemma OtherFollows(st: Setting, c: Crew, m: Move, f: Fanout.State)
    requires WellSet(st) && Mirror(st, c, f) && CanMove(st, c, m) && (m.Cancel? || m.Settle?)
    ensures Follows(st, c, m, f)
  {
    assert Mirrors(f.agents[m.i], c.members[m.i]);
    var e := Mirrored(st, c, m).value;
    assert Fanout.Enabled(st.cfg, f, e);
    Fanout.NextMovesOne(st.cfg, f, e);
    assert Mirrors(Fanout.Next(st.cfg, f, e).agents[m.i], Moved(st, c, m).members[m.i]);
  }

  /** One move, mirrored. */
  lemma MoveFollows(st: Setting, c: Crew, m: Move, f: Fanout.State)
    requires WellSet(st) && Mirror(st, c, f) && CanMove(st, c, m)
    ensures Follows(st, c, m, f)
  {
    hide Follows, CanMove;
    match m
    case Launch => LaunchFollows(st, c, f);
    case Advance(i) => AdvanceFollows(st, c, i, f);
    case _ => OtherFollows(st, c, m, f);
  }

  /** An interleaving, one mirrored move longer. */
  lemma MirroredOn(st: Setting, c: Crew, m: Move, es: seq<Fanout.Event>, maxTokens: nat, maxCost: nat)
    returns (all: seq<Fanout.Event>)
    requires WellSet(st) && CanMove(st, c, m) && AgentBudget.RepliesBounded(st.w, maxTokens, maxCost)
    requires Fanout.Legal(st.cfg, es) && Mirror(st, c, Fanout.Exec(st.cfg, es))
    requires Fanout.Bounded(es, maxTokens, maxCost)
    ensures Fanout.Legal(st.cfg, all) && Mirror(st, Moved(st, c, m), Fanout.Exec(st.cfg, all))
    ensures Fanout.Bounded(all, maxTokens, maxCost)
  {
    MoveFollows(st, c, m, Fanout.Exec(st.cfg, es));
    var e := Mirrored(st, c, m);
    MirroredBounded(st, c, m, maxTokens, maxCost);
    hide CanMove, Moved, Mirrored, Fanout.Next, Fanout.Enabled, Fanout.Legal, Fanout.Exec;
    all := es;
    if e.Some? {
      Fanout.Extend(st.cfg, es, e.value);
      all := es + [e.value];
    }
  }

  /** Every run of the processes is an interleaving of the fan-out, with the same ledger
      and agents that stand where the processes stand. */
  lemma {:induction false} CrewIsFanout(st: Setting, ms: seq<Move>, maxTokens: nat, maxCost: nat)
    returns (es: seq<Fanout.Event>)
    requires WellSet(st) && Lawful(st, ms) && AgentBudget.RepliesBounded(st.w, maxTokens, maxCost)
    ensures Fanout.Legal(st.cfg, es) && Mirror(st, Reached(st, ms), Fanout.Exec(st.cfg, es))
    ensures Fanout.Bounded(es, maxTokens, maxCost)
    decreases |ms|
  {
    if ms == [] {
      es := [];
    } else {
      var front, m := ms[..|ms| - 1], ms[|ms| - 1];
      es := CrewIsFanout(st, front, maxTokens, maxCost);
      hide Mirror, CanMove, Moved, Fanout.Bounded;
      es := MirroredOn(st, Reached(st, front), m, es, maxTokens, maxCost);
    }
  }

  lemma MirroredBounded(st: Setting, c: Crew, m: Move, maxTokens: nat, maxCost: nat)
    requires |c.members| == |st.tasks| && CanMove(st, c, m)
    requires AgentBudget.RepliesBounded(st.w, maxTokens, maxCost)
    ensures var e := Mirrored(st, c, m);
            e.Some? && e.value.Reply? ==>
              && e.value.input + e.value.output <= maxTokens
              && Pricing.Estimate(e.value.provider, e.value.model, e.value.input, e.value.output) <= maxCost
  {
    hide TakeTurn, Pricing.Estimate;
  }

  /** So real processes overrun a shared limit by less than one call per slot. */
  lemma CrewOvershoot(st: Setting, ms: seq<Move>, maxTokens: nat, maxCost: nat)
    requires WellSet(st) && Lawful(st, ms) && AgentBudget.RepliesBounded(st.w, maxTokens, maxCost)
    ensures var l, limits, slots := Reached(st, ms).ledger, st.w.limits, Fanout.Slots(st.cfg);
            && (limits.maxSteps > 0 ==> l.steps <= limits.maxSteps - 1 + slots)
            && (limits.maxTokens > 0 ==> l.tokens <= limits.maxTokens - 1 + maxTokens * slots)
            && (limits.maxCost > 0 ==> l.cost <= limits.maxCost - 1 + maxCost * slots)
  {
    var es := CrewIsFanout(st, ms, maxTokens, maxCost);
    Fanout.BudgetOvershoot(st.cfg, es, maxTokens, maxCost);
  }

  // ------------------------------------------------------ provider attempts

  function StepsOf(w: World): nat { if w.maxSteps < 0 then 0 else w.maxSteps }

  ghost function Share(w: World, m: Member): nat {
    match m
    case Waiting => 2 * StepsOf(w)
    case At(proc, _) => if Sane(w, proc) then AgentCalls.Quota(w, proc) else 0
  }

  ghost function ShareOf(w: World): Member -> nat { m => Share(w, m) }

  ghost predicate Accounted(st: Setting, c: Crew) {
    && |c.members| == |st.tasks|
    && (forall i :: 0 <= i < |c.members| && c.members[i].At? ==> Sane(st.w, c.members[i].proc))
    && (forall i :: c.launched <= i < |c.members| ==> c.members[i].Waiting?)
    && c.calls + Fanout.Sum(ShareOf(st.w), c.members) <= 2 * |st.tasks| * StepsOf(st.w)
    && c.attempts <= c.calls * (st.maxRetries + 1)
  }

  lemma {:induction false} SharesAtRest(w: World, ms: seq<Member>)
    requires forall i :: 0 <= i < |ms| ==> ms[i].Waiting?
    ensures Fanout.Sum(ShareOf(w), ms) == 2 * |ms| * StepsOf(w)
  {
    if ms != [] {
      SharesAtRest(w, ms[..|ms| - 1]);
      OneMoreShare(|ms| - 1, StepsOf(w));
    }
  }

  lemma OneMoreShare(n: nat, steps: nat)
    ensures 2 * n * steps + 2 * steps == 2 * (n + 1) * steps
  {
  }

  lemma OneMoreCall(before: nat, calls: nat, asks: nat, tries: nat, most: nat)
    requires before <= calls * most && asks <= 1 && tries <= most
    ensures before + asks * tries <= (calls + asks) * most
  {
    assert asks == 0 || (calls + 1) * most == calls * most + most;
  }

  lemma AccountedAdvance(st: Setting, c: Crew, i: nat)
    requires Accounted(st, c) && CanMove(st, c, Advance(i))
    ensures Accounted(st, Moved(st, c, Advance(i)))
  {
    hide Tick, AgentCalls.Quota, AgentCalls.Asks, Sane, Distance, Retry.ServedFrom;
    var d := Moved(st, c, Advance(i));
    AgentCalls.QuotaShrinks(st.w, st.tasks[i], StateOf(c, i));
    AgentCalls.AsksOnce(st.w, c.members[i].proc);
    TickProgress(st.w, st.tasks[i], StateOf(c, i));
    Fanout.SumUpdate(ShareOf(st.w), c.members, i, d.members[i]);
    OneMoreCall(c.attempts, c.calls, AgentCalls.Asks(st.w, c.members[i].proc), Attempted(st, c), st.maxRetries + 1);
  }

  lemma AccountedOther(st: Setting, c: Crew, m: Move)
    requires Accounted(st, c) && CanMove(st, c, m) && !m.Advance?
    ensures Accounted(st, Moved(st, c, m))
  {
    var i := if m.Launch? then c.launched else m.i;
    Fanout.SumUpdate(ShareOf(st.w), c.members, i, Moved(st, c, m).members[i]);
  }

  lemma {:induction false} AlwaysAccounted(st: Setting, ms: seq<Move>)
    requires Lawful(st, ms)
    ensures Accounted(st, Reached(st, ms))
    decreases |ms|
  {
    if ms == [] {
      SharesAtRest(st.w, Assembled(st).members);
    } else {
      var front, m := ms[..|ms| - 1], ms[|ms| - 1];
      AlwaysAccounted(st, front);
      hide Accounted;
      if m.Advance? {
        AccountedAdvance(st, Reached(st, front), m.i);
      } else {
        AccountedOther(st, Reached(st, front), m);
      }
    }
  }

  lemma Product(attempts: nat, calls: nat, quota: nat, most: nat)
    requires attempts <= calls * most && calls <= quota
    ensures attempts <= quota * most
  {
    assert calls * most <= quota * most;
  }

  /** Over every interleaving of N agents the provider is attempted at most
      2 * N * maxSteps * (maxRetries + 1) times, summaries included. */
  lemma CrewCallsBounded(st: Setting, ms: seq<Move>)
    requires Lawful(st, ms)
    ensures Reached(st, ms).calls <= 2 * |st.tasks| * StepsOf(st.w)
    ensures Reached(st, ms).attempts <= 2 * |st.tasks| * StepsOf(st.w) * (st.maxRetries + 1)
  {
    AlwaysAccounted(st, ms);
    var c := Reached(st, ms);
    Product(c.attempts, c.calls, 2 * |st.tasks| * StepsOf(st.w), st.maxRetries + 1);
  }
}
