/** What a whole fan-out run leaves behind: exactly one row per clause, counters that
    reconcile with the budget, and a table on which re-running is safe. */
module FanoutResults {
  import opened Domain
  import opened Analyses
  import opened Fanout
  import Pricing

  // --------------------------------------------------------- reconciliation

  ghost predicate LedgerSums(s: State) {
    && s.ledger.tokens == s.ledger.input + s.ledger.output
    && s.ledger.input == Sum(InputOf, s.agents)
    && s.ledger.output == Sum(OutputOf, s.agents)
  }

  ghost predicate CounterSums(cfg: Config, s: State) {
    && s.okCount == Sum(OkUnit, s.agents)
    && s.failedCount == Sum(FailedUnit, s.agents)
    && s.totalTokens == Sum(CountedTokens, s.agents)
    && s.totalCost == Sum(CountedCost(cfg), s.agents)
  }

  ghost predicate Reconciled(cfg: Config, s: State) { LedgerSums(s) && CounterSums(cfg, s) }

  lemma LedgerSumsStep(cfg: Config, s: State, e: Event)
    requires WellFormed(cfg, s) && Enabled(cfg, s, e) && LedgerSums(s)
    ensures LedgerSums(Next(cfg, s, e))
  {
    hide Sum, Pricing.Estimate;
    NextMovesOne(cfg, s, e);
    var i := Moved(s, e);
    var a' := Next(cfg, s, e).agents[i];
    SumUpdate(InputOf, s.agents, i, a');
    SumUpdate(OutputOf, s.agents, i, a');
  }

  lemma CounterSumsStep(cfg: Config, s: State, e: Event)
    requires WellFormed(cfg, s) && Enabled(cfg, s, e) && CounterSums(cfg, s)
    ensures CounterSums(cfg, Next(cfg, s, e))
  {
    hide Sum, Pricing.Estimate;
    NextMovesOne(cfg, s, e);
    var i := Moved(s, e);
    var a' := Next(cfg, s, e).agents[i];
    SumUpdate(OkUnit, s.agents, i, a');
    SumUpdate(FailedUnit, s.agents, i, a');
    SumUpdate(CountedTokens, s.agents, i, a');
    SumUpdate(CountedCost(cfg), s.agents, i, a');
  }

  lemma {:induction false} LedgerReconciles(cfg: Config, es: seq<Event>)
    requires Legal(cfg, es)
    ensures Reconciled(cfg, Exec(cfg, es))
    decreases |es|
  {
    if es == [] {
      var agents := Initial(cfg).agents;
      SumZero(InputOf, agents);
      SumZero(OutputOf, agents);
      SumZero(OkUnit, agents);
      SumZero(FailedUnit, agents);
      SumZero(CountedTokens, agents);
      SumZero(CountedCost(cfg), agents);
    } else {
      LedgerReconciles(cfg, es[..|es| - 1]);
      LedgerSumsStep(cfg, Exec(cfg, es[..|es| - 1]), es[|es| - 1]);
      CounterSumsStep(cfg, Exec(cfg, es[..|es| - 1]), es[|es| - 1]);
    }
  }

  /** Every reply came from the configured provider and model. */
  ghost predicate OneModel(cfg: Config, es: seq<Event>) {
    forall k :: 0 <= k < |es| && es[k].Reply? ==> es[k].provider == cfg.provider && es[k].model == cfg.model
  }

  lemma {:induction false} CostReconciles(cfg: Config, es: seq<Event>)
    requires Legal(cfg, es) && OneModel(cfg, es)
    ensures Exec(cfg, es).ledger.cost == Sum(CostOf(cfg), Exec(cfg, es).agents)
    decreases |es|
  {
    if es == [] {
      SumZero(CostOf(cfg), Initial(cfg).agents);
    } else {
      var front, e := es[..|es| - 1], es[|es| - 1];
      assert OneModel(cfg, front) by {
        assert forall j :: 0 <= j < |front| ==> front[j] == es[j];
      }
      CostReconciles(cfg, front);
      CostStep(cfg, Exec(cfg, front), e);
    }
  }

  /** What a step adds to the ledger's cost it adds to that of the agent it moves. */
  lemma CostMoves(cfg: Config, s: State, e: Event)
    requires WellFormed(cfg, s) && Enabled(cfg, s, e)
    requires e.Reply? ==> e.provider == cfg.provider && e.model == cfg.model
    ensures var s', i := Next(cfg, s, e), Moved(s, e);
            && i < |s.agents| && i < |s'.agents|
            && s'.ledger.cost + AgentCost(cfg, s.agents[i]) == s.ledger.cost + AgentCost(cfg, s'.agents[i])
  {
    hide Sum, Pricing.Estimate;
    Pricing.EstimateLinear(cfg.provider, cfg.model, 0, 0, 0, 0);
    if e.Reply? {
      var u := UsageOf(s.agents[e.i]);
      Pricing.EstimateLinear(cfg.provider, cfg.model, u.input, u.output, e.input, e.output);
    }
  }

  lemma CostStep(cfg: Config, s: State, e: Event)
    requires WellFormed(cfg, s) && Enabled(cfg, s, e) && s.ledger.cost == Sum(CostOf(cfg), s.agents)
    requires e.Reply? ==> e.provider == cfg.provider && e.model == cfg.model
    ensures Next(cfg, s, e).ledger.cost == Sum(CostOf(cfg), Next(cfg, s, e).agents)
  {
    NextMovesOne(cfg, s, e);
    CostMoves(cfg, s, e);
    hide Next, Pricing.Estimate;
    SumUpdate(CostOf(cfg), s.agents, Moved(s, e), Next(cfg, s, e).agents[Moved(s, e)]);
  }

  ghost predicate Complete(s: State) {
    forall i :: 0 <= i < |s.agents| ==> s.agents[i].Settled?
  }

  /** When the run is over, the fan-out's token total is the budget's minus what the
      errored clauses had used; and so is its cost, when every reply came from the
      configured model. */
  lemma TotalsReconcile(cfg: Config, es: seq<Event>)
    requires Legal(cfg, es) && Complete(Exec(cfg, es))
    ensures var s := Exec(cfg, es);
            && s.totalTokens + Sum(ErroredTokens, s.agents) == s.ledger.tokens
            && (OneModel(cfg, es) ==> s.totalCost + Sum(ErroredCost(cfg), s.agents) == s.ledger.cost)
  {
    var s := Exec(cfg, es);
    LedgerReconciles(cfg, es);
    SumSplits(InputOf, OutputOf, TokensOf, s.agents);
    SumSplits(CountedTokens, ErroredTokens, TokensOf, s.agents);
    if OneModel(cfg, es) {
      CostReconciles(cfg, es);
      SumSplits(CountedCost(cfg), ErroredCost(cfg), CostOf(cfg), s.agents);
    }
  }

  // ------------------------------------------------------------ disposition

  ghost predicate Distinct(ids: seq<string>) {
    forall i, j :: 0 <= i < j < |ids| ==> ids[i] != ids[j]
  }

  /** A clause has its row, and only that row, once the agent's row is saved. */
  ghost predicate RowsMatch(cfg: Config, s: State) {
    && |s.agents| == |cfg.ids|
    && (forall i :: 0 <= i < |cfg.ids| ==>
          RowsOf(s.rows, cfg.ids[i]) ==
          if IsSaved(s.agents[i]) then [RowFor(cfg.ids[i], s.agents[i].outcome)] else [])
    && (forall id :: id !in cfg.ids ==> RowsOf(s.rows, id) == [])
  }

  lemma RowsMatchStep(cfg: Config, s: State, e: Event)
    requires Distinct(cfg.ids) && WellFormed(cfg, s) && Enabled(cfg, s, e) && RowsMatch(cfg, s)
    ensures RowsMatch(cfg, Next(cfg, s, e))
  {
    var s' := Next(cfg, s, e);
    NextMovesOne(cfg, s, e);
    SaveStep(cfg, s, e);
    var i := Moved(s, e);
    if s'.rows != s.rows {
      RowsOfNew(s.rows, RowFor(cfg.ids[i], s.agents[i].outcome));
    }
  }

  /** A step saves a row exactly when the agent it moves becomes saved. */
  lemma SaveStep(cfg: Config, s: State, e: Event)
    requires WellFormed(cfg, s) && Enabled(cfg, s, e)
    ensures var s' := Next(cfg, s, e);
            var i := Moved(s, e);
            i < |s.agents| && i < |s'.agents| &&
            if IsSaved(s'.agents[i]) && !IsSaved(s.agents[i]) then
              && (s.agents[i].Ended? || s.agents[i].Settling?)
              && s'.agents[i].outcome == s.agents[i].outcome
              && s'.rows == s.rows + [RowFor(cfg.ids[i], s.agents[i].outcome)]
            else
              && s'.rows == s.rows
              && (IsSaved(s.agents[i]) <==> IsSaved(s'.agents[i]))
              && (IsSaved(s.agents[i]) ==> s'.agents[i].outcome == s.agents[i].outcome)
  {
  }

  lemma RowsOfNew(rows: Table, row: ClauseAnalysis)
    ensures forall id :: RowsOf(rows + [row], id) ==
                         if id == row.clauseId then RowsOf(rows, id) + [row] else RowsOf(rows, id)
  {
    assert (rows + [row])[..|rows|] == rows;
  }

  lemma {:induction false} OneRowEach(cfg: Config, es: seq<Event>)
    requires Distinct(cfg.ids) && Legal(cfg, es)
    ensures RowsMatch(cfg, Exec(cfg, es))
    decreases |es|
  {
    if es != [] {
      OneRowEach(cfg, es[..|es| - 1]);
      RowsMatchStep(cfg, Exec(cfg, es[..|es| - 1]), es[|es| - 1]);
    }
  }

  lemma {:induction false} SumOfOnes(f: Agent -> nat, agents: seq<Agent>)
    requires forall i :: 0 <= i < |agents| ==> f(agents[i]) == 1
    ensures Sum(f, agents) == |agents|
  {
    if agents != [] {
      SumOfOnes(f, agents[..|agents| - 1]);
    }
  }

  lemma AllDispatched(cfg: Config, s: State)
    requires WellFormed(cfg, s) && Complete(s)
    ensures s.dispatched == |cfg.ids|
  {
    assert |s.agents| > 0 ==> s.agents[|s.agents| - 1].Settled?;
  }

  lemma CountsAddUp(cfg: Config, s: State)
    requires CounterSums(cfg, s) && Complete(s)
    ensures s.okCount + s.failedCount == |s.agents|
  {
    var one: Agent -> nat := a => 1;
    SumSplits(OkUnit, FailedUnit, one, s.agents);
    SumOfOnes(one, s.agents);
  }

  /** Whatever the schedule, at the end every clause was dispatched once, counted once
      and given exactly one row, which is ok exactly when its agent submitted. */
  lemma ExactlyOnce(cfg: Config, es: seq<Event>)
    requires Distinct(cfg.ids) && Legal(cfg, es) && Complete(Exec(cfg, es))
    ensures var s := Exec(cfg, es);
            && s.dispatched == |cfg.ids| && s.okCount + s.failedCount == |cfg.ids|
            && s.okCount == Sum(OkUnit, s.agents)
            && forall i :: 0 <= i < |cfg.ids| ==>
                 && |RowsOf(s.rows, cfg.ids[i])| == 1
                 && IsRowOf(cfg.ids[i], s.agents[i].outcome, RowsOf(s.rows, cfg.ids[i])[0])
  {
    hide Sum, RowsOf;
    OneRowEach(cfg, es);
    LedgerReconciles(cfg, es);
    ExecWellFormed(cfg, es);
    AllDispatched(cfg, Exec(cfg, es));
    CountsAddUp(cfg, Exec(cfg, es));
  }

  /** For the same outcomes, the order of the run does not show: every reader of the
      extended table sees the same. */
  lemma OrderDoesNotShow(cfg: Config, es: seq<Event>, es': seq<Event>, base: Table)
    requires Distinct(cfg.ids) && Legal(cfg, es) && Legal(cfg, es')
    requires Complete(Exec(cfg, es)) && Complete(Exec(cfg, es'))
    requires forall i :: 0 <= i < |cfg.ids| && i < |Exec(cfg, es).agents| && i < |Exec(cfg, es').agents| ==>
               Exec(cfg, es).agents[i].outcome == Exec(cfg, es').agents[i].outcome
    ensures forall id :: RowsOf(base + Exec(cfg, es).rows, id) == RowsOf(base + Exec(cfg, es').rows, id)
    ensures LastWins(base + Exec(cfg, es).rows) == LastWins(base + Exec(cfg, es').rows)
  {
    var rows, rows' := Exec(cfg, es).rows, Exec(cfg, es').rows;
    OneRowEach(cfg, es);
    OneRowEach(cfg, es');
    forall id
      ensures RowsOf(base + rows, id) == RowsOf(base + rows', id)
    {
      RowsOfAppend(base, rows, id);
      RowsOfAppend(base, rows', id);
      if id in cfg.ids {
        var i :| 0 <= i < |cfg.ids| && cfg.ids[i] == id;
      }
    }
    forall id
      ensures id in LastWins(base + rows) <==> id in LastWins(base + rows')
      ensures id in LastWins(base + rows) ==> LastWins(base + rows)[id] == LastWins(base + rows')[id]
    {
      LastWinsIsNewest(base + rows, id);
      LastWinsIsNewest(base + rows', id);
    }
  }

  // ---------------------------------------------------------------- restart

  function Ids(clauses: seq<Clause>): (ids: seq<string>)
    ensures |ids| == |clauses|
    ensures forall i :: 0 <= i < |ids| ==> ids[i] == clauses[i].id
  {
    seq(|clauses|, i requires 0 <= i < |clauses| => clauses[i].id)
  }

  /** One invocation of `AnalyzeClauses` over a table, stopped anywhere. */
  ghost predicate Extends(clauses: seq<Clause>, base: Table, cfg: Config, es: seq<Event>, result: Table) {
    && cfg.ids == Ids(NeedingAnalysis(clauses, DoneIds(base)))
    && Legal(cfg, es)
    && result == base + Exec(cfg, es).rows
  }

  lemma {:induction false} FilteredRow(rows: Table, id: string, i: nat)
    requires i < |rows| && rows[i].clauseId == id
    ensures rows[i] in RowsOf(rows, id)
  {
    if i < |rows| - 1 {
      FilteredRow(rows[..|rows| - 1], id, i);
    }
  }

  lemma {:induction false} SingletonMeansOnce(rows: Table, i: nat, j: nat)
    requires i < j < |rows| && rows[i].clauseId == rows[j].clauseId
    ensures |RowsOf(rows, rows[i].clauseId)| >= 2
  {
    var n := |rows| - 1;
    if j == n {
      FilteredRow(rows[..n], rows[i].clauseId, i);
    } else {
      SingletonMeansOnce(rows[..n], i, j);
    }
  }

  /** A run only adds rows for clauses that had no success, one each. */
  lemma AddedRows(clauses: seq<Clause>, base: Table, cfg: Config, es: seq<Event>)
    requires DistinctIds(clauses) && cfg.ids == Ids(NeedingAnalysis(clauses, DoneIds(base))) && Legal(cfg, es)
    ensures forall id :: |RowsOf(Exec(cfg, es).rows, id)| <= 1
    ensures forall id :: RowsOf(Exec(cfg, es).rows, id) != [] ==> !AnyDone(base, id)
  {
    var left := NeedingAnalysis(clauses, DoneIds(base));
    NeedingAnalysisDistinct(clauses, DoneIds(base));
    NeedingAnalysisMeans(clauses, base);
    OneRowEach(cfg, es);
    forall id
      ensures |RowsOf(Exec(cfg, es).rows, id)| <= 1
      ensures RowsOf(Exec(cfg, es).rows, id) != [] ==> !AnyDone(base, id)
    {
      if id in cfg.ids {
        var k :| 0 <= k < |cfg.ids| && cfg.ids[k] == id;
        assert left[k] in left;
      }
    }
  }

  /** An interrupted or finished run never puts a row after a successful one. */
  lemma RestartKeepsSuccessLast(clauses: seq<Clause>, base: Table, cfg: Config, es: seq<Event>, result: Table)
    requires DistinctIds(clauses) && DoneIsLast(base) && Extends(clauses, base, cfg, es, result)
    ensures DoneIsLast(result)
  {
    AddedRows(clauses, base, cfg, es);
    AddedKeepsDoneLast(base, Exec(cfg, es).rows);
  }

  lemma AddedKeepsDoneLast(base: Table, rows: Table)
    requires DoneIsLast(base)
    requires forall id :: |RowsOf(rows, id)| <= 1
    requires forall id :: RowsOf(rows, id) != [] ==> !AnyDone(base, id)
    ensures DoneIsLast(base + rows)
  {
    var all := base + rows;
    forall i, j | 0 <= i < j < |all| && all[i].clauseId == all[j].clauseId
      ensures !IsDone(all[i])
    {
      var id := all[i].clauseId;
      if |base| <= i {
        SingletonMeansOnce(rows, i - |base|, j - |base|);
      } else if |base| <= j {
        FilteredRow(rows, id, j - |base|);
        assert RowsOf(rows, id) != [];
        assert base[i] == all[i];
      } else {
        assert base[i] == all[i] && base[j] == all[j];
      }
    }
  }

  /** A life of the table: each run starts from what the previous one left. */
  ghost predicate Life(clauses: seq<Clause>, tables: seq<Table>, cfgs: seq<Config>, runs: seq<seq<Event>>) {
    && |tables| == |runs| + 1 && |cfgs| == |runs| && tables[0] == []
    && forall k :: 0 <= k < |runs| ==> Extends(clauses, tables[k], cfgs[k], runs[k], tables[k + 1])
  }

  /** Over any crash-interrupted sequence of runs, each clause gets at most one
      successful row and none after it, so the last-wins map of the report shows the
      success whenever there is one. */
  lemma {:induction false} RestartableAnalysis(clauses: seq<Clause>, tables: seq<Table>, cfgs: seq<Config>, runs: seq<seq<Event>>)
    requires DistinctIds(clauses) && Life(clauses, tables, cfgs, runs)
    ensures var final := tables[|runs|];
            && DoneIsLast(final)
            && forall id :: AnyDone(final, id) <==> id in LastWins(final) && IsDone(LastWins(final)[id])
    decreases |runs|
  {
    var n := |runs|;
    if n > 0 {
      RestartableAnalysis(clauses, tables[..n], cfgs[..n - 1], runs[..n - 1]);
      assert tables[..n][n - 1] == tables[n - 1];
      RestartKeepsSuccessLast(clauses, tables[n - 1], cfgs[n - 1], runs[n - 1], tables[n]);
    }
    forall id
      ensures AnyDone(tables[n], id) <==> id in LastWins(tables[n]) && IsDone(LastWins(tables[n])[id])
    {
      SuccessWins(tables[n], id);
    }
  }
}
