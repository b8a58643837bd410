/** Analysing a contract more than once: which clauses are run again, and so paid for
    again. */
module FanoutAgain {
  import opened Wrappers
  import opened Domain
  import opened Analyses
  import opened Budgets
  import opened Fanout
  import opened FanoutResults
  import Pricing

  /** A run, stopped anywhere, has saved the finding of a clause. */
  ghost predicate Succeeded(cfg: Config, es: seq<Event>, id: string) {
    Legal(cfg, es) &&
    exists i :: 0 <= i < |cfg.ids| && i < |Exec(cfg, es).agents| && cfg.ids[i] == id
                && IsSaved(Exec(cfg, es).agents[i]) && Exec(cfg, es).agents[i].outcome.Found?
  }

  lemma {:induction false} RowsOfHolds(rows: Table, id: string)
    ensures forall row :: row in RowsOf(rows, id) <==> row in rows && row.clauseId == id
  {
    if rows != [] {
      RowsOfHolds(rows[..|rows| - 1], id);
      assert rows == rows[..|rows| - 1] + [rows[|rows| - 1]];
    }
  }

  lemma DoneMeans(rows: Table, id: string)
    ensures AnyDone(rows, id) <==> exists row :: row in RowsOf(rows, id) && IsDone(row)
  {
    RowsOfHolds(rows, id);
    if row :| row in RowsOf(rows, id) && IsDone(row) {
      var i :| 0 <= i < |rows| && rows[i] == row;
    }
  }

  lemma DoneAppend(a: Table, b: Table, id: string)
    ensures AnyDone(a + b, id) <==> AnyDone(a, id) || AnyDone(b, id)
  {
    DoneMeans(a, id);
    DoneMeans(b, id);
    DoneMeans(a + b, id);
    RowsOfAppend(a, b, id);
  }

  lemma RowDone(id: string, outcome: Outcome)
    ensures IsDone(RowFor(id, outcome)) <==> outcome.Found?
  {
  }

  lemma RunDone(cfg: Config, es: seq<Event>, id: string)
    requires Distinct(cfg.ids) && Legal(cfg, es)
    ensures AnyDone(Exec(cfg, es).rows, id) <==> Succeeded(cfg, es, id)
  {
    OneRowEach(cfg, es);
    var s := Exec(cfg, es);
    hide Legal, Exec, Distinct, AnyDone, RowsOf, RowFor, IsDone, IsSaved;
    DoneMeans(s.rows, id);
    if Succeeded(cfg, es, id) {
      var i :| 0 <= i < |cfg.ids| && cfg.ids[i] == id && IsSaved(s.agents[i]) && s.agents[i].outcome.Found?;
      RowDone(id, s.agents[i].outcome);
      assert RowFor(id, s.agents[i].outcome) in RowsOf(s.rows, id);
    }
    if row :| row in RowsOf(s.rows, id) && IsDone(row) {
      var i :| 0 <= i < |cfg.ids| && cfg.ids[i] == id;
      RowDone(id, s.agents[i].outcome);
    }
  }

  lemma {:induction false} DoneSoFar(clauses: seq<Clause>, tables: seq<Table>, cfgs: seq<Config>,
                                     runs: seq<seq<Event>>, k: nat, id: string)
    requires DistinctIds(clauses) && Life(clauses, tables, cfgs, runs) && k <= |runs|
    ensures AnyDone(tables[k], id) <==> exists j :: 0 <= j < k && Succeeded(cfgs[j], runs[j], id)
  {
    if k > 0 {
      DoneSoFar(clauses, tables, cfgs, runs, k - 1, id);
      assert Extends(clauses, tables[k - 1], cfgs[k - 1], runs[k - 1], tables[k]);
      NeedingAnalysisDistinct(clauses, DoneIds(tables[k - 1]));
      RunDone(cfgs[k - 1], runs[k - 1], id);
      DoneAppend(tables[k - 1], Exec(cfgs[k - 1], runs[k - 1]).rows, id);
    }
  }

  /** However often a contract is analysed and wherever each run is stopped, a clause is
      in the work of a run if and only if no earlier run saved a finding for it. */
  lemma RunAgainIff(clauses: seq<Clause>, tables: seq<Table>, cfgs: seq<Config>, runs: seq<seq<Event>>,
                    k: nat, c: Clause)
    requires DistinctIds(clauses) && Life(clauses, tables, cfgs, runs) && k < |runs| && c in clauses
    ensures c.id in cfgs[k].ids <==> forall j :: 0 <= j < k ==> !Succeeded(cfgs[j], runs[j], c.id)
  {
    var left := NeedingAnalysis(clauses, DoneIds(tables[k]));
    assert Extends(clauses, tables[k], cfgs[k], runs[k], tables[k + 1]);
    DoneSoFar(clauses, tables, cfgs, runs, k, c.id);
    NeedingAnalysisMeans(clauses, tables[k]);
    if c.id in cfgs[k].ids {
      var i :| 0 <= i < |left| && left[i].id == c.id;
      assert left[i] in left;
    }
    if c in left {
      var i :| 0 <= i < |left| && left[i] == c;
      assert cfgs[k].ids[i] == c.id;
    }
  }

  // ---------------------------------------------------------------- a witness

  /** One clause, one step, no limits. */
  function OneClause(id: string): Config { Config(Limits(0, 0, 0), 1, 1, "", "", [id]) }

  ghost predicate Reached(cfg: Config, es: seq<Event>, s: State) { Legal(cfg, es) && Exec(cfg, es) == s }

  lemma Onward(cfg: Config, es: seq<Event>, s: State, e: Event)
    requires Reached(cfg, es, s) && WellFormed(cfg, s) && Enabled(cfg, s, e)
    ensures Reached(cfg, es + [e], Next(cfg, s, e)) && WellFormed(cfg, Next(cfg, s, e))
  {
    Extend(cfg, es, e);
    NextMovesOne(cfg, s, e);
  }

  ghost function OutcomeOf(finding: Option<ClauseAnalysis>): Outcome {
    if finding.Some? then Found(finding.value) else Stopped("max_steps")
  }

  /** The only agent has ended; nothing is counted or saved yet. */
  ghost predicate HasEnded(s: State, tokens: nat, outcome: Outcome) {
    s.agents == [Ended(outcome, Usage(tokens, 0))] && s.dispatched == 1 && s.ledger.tokens == tokens && s.rows == []
  }

  lemma ToFirstReply(id: string, tokens: nat, finding: Option<ClauseAnalysis>) returns (es: seq<Event>, s: State)
    ensures Reached(OneClause(id), es, s) && WellFormed(OneClause(id), s)
    ensures if finding.Some? then HasEnded(s, tokens, OutcomeOf(finding))
            else s.agents == [Checking(1, Usage(tokens, 0))] && s.dispatched == 1
                 && s.ledger.tokens == tokens && s.rows == []
  {
    var cfg := OneClause(id);
    s := Initial(cfg);
    assert Reached(cfg, [], s);
    hide Reached, Pricing.Estimate;
    SumZero(ActiveUnit, s.agents);
    hide Sum;
    es := [Launch];
    Onward(cfg, [], s, Launch);
    s := Next(cfg, s, Launch);
    assert [] + es == es && s.agents == [Checking(0, Usage(0, 0))];
    Onward(cfg, es, s, Check(0));
    s, es := Next(cfg, s, Check(0)), es + [Check(0)];
    assert s.agents == [Calling(0, Usage(0, 0))];
    var reply := Reply(0, "", "", tokens, 0, finding);
    Onward(cfg, es, s, reply);
    s, es := Next(cfg, s, reply), es + [reply];
  }

  lemma ToTheEnd(id: string, es: seq<Event>, s: State, tokens: nat, outcome: Outcome)
    returns (all: seq<Event>, t: State)
    requires Reached(OneClause(id), es, s) && WellFormed(OneClause(id), s) && HasEnded(s, tokens, outcome)
    ensures Reached(OneClause(id), all, t) && t.agents == [Settled(outcome, Usage(tokens, 0))]
    ensures t.ledger.tokens == tokens && t.rows == [RowFor(id, outcome)]
  {
    hide Reached, Sum, Pricing.Estimate;
    var cfg := OneClause(id);
    Onward(cfg, es, s, Settle(0));
    t, all := Next(cfg, s, Settle(0)), es + [Settle(0)];
    assert t.agents == [Settling(outcome, Usage(tokens, 0))];
    Onward(cfg, all, t, Settle(0));
    t, all := Next(cfg, t, Settle(0)), all + [Settle(0)];
  }

  ghost predicate Paid(cfg: Config, es: seq<Event>, tokens: nat) {
    Legal(cfg, es) && Exec(cfg, es).ledger.tokens == tokens
  }

  /** The model answers once; with `finding` it submits, else the step limit ends the run. */
  lemma OneRun(id: string, tokens: nat, finding: Option<ClauseAnalysis>) returns (es: seq<Event>)
    ensures var cfg := OneClause(id);
            && Paid(cfg, es, tokens) && Exec(cfg, es).rows == [RowFor(id, OutcomeOf(finding))]
            && (Succeeded(cfg, es, id) <==> finding.Some?)
  {
    var cfg := OneClause(id);
    var s: State;
    es, s := ToFirstReply(id, tokens, finding);
    if finding.None? {
      hide Reached, Sum;
      Onward(cfg, es, s, Check(0));
      s, es := Next(cfg, s, Check(0)), es + [Check(0)];
    }
    es, s := ToTheEnd(id, es, s, tokens, OutcomeOf(finding));
    assert cfg.ids[0] == id && IsSaved(Exec(cfg, es).agents[0]);
  }

  function Failures(id: string, n: nat): Table {
    seq(n, _ => RowFor(id, Stopped("max_steps")))
  }

  lemma StillLeft(c: Clause, n: nat)
    ensures Ids(NeedingAnalysis([c], DoneIds(Failures(c.id, n)))) == [c.id]
  {
    assert DoneIds(Failures(c.id, n)) == {};
    assert [c][..0] == [];
  }

  /** A clause whose runs do not submit is run, and paid for, every time the contract is
      analysed, until a run submits: `n` times and once more. */
  lemma {:induction false} PaidEveryTime(c: Clause, tokens: nat, finding: ClauseAnalysis, n: nat)
    returns (tables: seq<Table>, cfgs: seq<Config>, runs: seq<seq<Event>>)
    ensures Life([c], tables, cfgs, runs) && |tables| == n + 2 && |runs| == |cfgs| == n + 1
    ensures forall k :: 0 <= k <= n ==> cfgs[k].ids == [c.id] && Paid(cfgs[k], runs[k], tokens)
    ensures forall k :: 0 <= k <= n ==> (Succeeded(cfgs[k], runs[k], c.id) <==> k == n)
    ensures tables[n + 1] == Failures(c.id, n) + [RowFor(c.id, Found(finding))]
  {
    var failing := OneRun(c.id, tokens, None);
    var last := OneRun(c.id, tokens, Some(finding));
    cfgs := seq(n + 1, _ => OneClause(c.id));
    runs := seq(n, _ => failing) + [last];
    tables := seq(n + 1, k requires 0 <= k <= n => Failures(c.id, k));
    tables := tables + [Failures(c.id, n) + [RowFor(c.id, Found(finding))]];
    hide Legal, Exec, Succeeded, Paid, NeedingAnalysis, DoneIds;
    forall k | 0 <= k <= n
      ensures Extends([c], tables[k], cfgs[k], runs[k], tables[k + 1])
    {
      StillLeft(c, k);
    }
  }
}
