/** The interleaved fan-out seen from the contract's life: its finished runs are the
    ones the analysis stage relies on, and its interrupted runs are the ones a crash of
    that stage leaves. */
module FanoutInPipeline {
  import opened Domain
  import opened Analyses
  import opened Fanout
  import opened FanoutResults
  import opened PipelineSpec
  import PipelineSafety
  import PipelineLives
  import PipelineRestart

  /** What a finished fan-out over the clauses that are left has saved, whatever its
      schedule, is one row for each of them. */
  lemma FanoutDisposes(left: seq<Clause>, cfg: Config, es: seq<Event>)
    requires DistinctIds(left) && cfg.ids == Ids(left)
    requires Legal(cfg, es) && Complete(Exec(cfg, es))
    ensures Disposes(left, Exec(cfg, es).rows)
  {
    OneRowEach(cfg, es);
    var s := Exec(cfg, es);
    forall id
      ensures |RowsOf(s.rows, id)| == if id in ClauseIds(left) then 1 else 0
    {
      if id in ClauseIds(left) {
        var i :| 0 <= i < |left| && left[i].id == id;
        assert cfg.ids[i] == id;
      }
    }
  }

  // ------------------------------------------------------------- no deadlock

  function Remaining(a: Agent): nat {
    match a
    case Pending => 4
    case Checking(_, _) => 3
    case Calling(_, _) => 3
    case Ended(_, _) => 2
    case Settling(_, _) => 1
    case Settled(_, _) => 0
  }

  /** The fan-out is never stuck before its end. */
  lemma SomethingToDo(cfg: Config, s: State) returns (e: Event)
    requires WellFormed(cfg, s) && !Complete(s)
    ensures Enabled(cfg, s, e) && Sum(Remaining, Next(cfg, s, e).agents) < Sum(Remaining, s.agents)
  {
    if i: nat :| i < |s.agents| && IsActive(s.agents[i]) {
      e := if s.agents[i].Checking? || s.agents[i].Calling? then Break(i, "cancelled") else Settle(i);
    } else {
      SumZero(ActiveUnit, s.agents);
      e := Launch;
    }
    NextMovesOne(cfg, s, e);
    var i := Moved(s, e);
    SumUpdate(Remaining, s.agents, i, Next(cfg, s, e).agents[i]);
  }

  /** Every run can be brought to an end, and what it has saved stays saved. */
  lemma {:induction false} CanComplete(cfg: Config, es: seq<Event>) returns (all: seq<Event>)
    requires Legal(cfg, es)
    ensures Legal(cfg, all) && Complete(Exec(cfg, all)) && Exec(cfg, es).rows <= Exec(cfg, all).rows
    decreases Sum(Remaining, Exec(cfg, es).agents)
  {
    var s := Exec(cfg, es);
    ExecWellFormed(cfg, es);
    if Complete(s) {
      all := es;
    } else {
      var e := SomethingToDo(cfg, s);
      Extend(cfg, es, e);
      SaveStep(cfg, s, e);
      all := CanComplete(cfg, es + [e]);
    }
  }

  // ------------------------------------------------------------ crash points

  /** The analysis command after its first `n` rows. */
  lemma AfterRows(db: Db, env: Env, n: nat)
    requires db.status in {ClausesExtracted, Analyzing} && n <= |env.rows|
    ensures |AnalyzeStage(db, env).effects| == |env.rows| + 2
    ensures ApplyAll(db, AnalyzeStage(db, env).effects[..1 + n])
         == db.(status := Analyzing, analyses := db.analyses + env.rows[..n])
  {
    assert AnalyzeStage(db, env).effects[..1 + n] == [SetStatus(Analyzing)] + SaveRows(env.rows[..n]);
    PipelineSafety.Cons(db, SetStatus(Analyzing), SaveRows(env.rows[..n]));
    PipelineSafety.ApplyRows(Apply(db, SetStatus(Analyzing)), env.rows[..n]);
  }

  lemma CrashHappens(db: Db, env: Env, n: nat)
    requires db.status in {ClausesExtracted, Analyzing} && n <= |env.rows| && Possible(Analyze, db, env)
    ensures PipelineLives.Happens(db, PipelineLives.Step(Analyze, env, 1 + n),
                                  db.(status := Analyzing, analyses := db.analyses + env.rows[..n]))
  {
    AfterRows(db, env, n);
  }

  lemma CompletedTable(db: Db, cfg: Config, es: seq<Event>) returns (rows: Table)
    requires DistinctIds(db.clauses) && cfg.ids == Ids(Left(db)) && Legal(cfg, es)
    ensures Disposes(Left(db), rows) && Exec(cfg, es).rows <= rows
  {
    NeedingAnalysisDistinct(db.clauses, DoneIds(db.analyses));
    var all := CanComplete(cfg, es);
    FanoutDisposes(Left(db), cfg, all);
    rows := Exec(cfg, all).rows;
  }

  /** Stop the interleaved fan-out anywhere: what it leaves of the contract is what some
      crash point of the analysis command leaves. */
  lemma InterruptedFanoutIsACrash(db: Db, cfg: Config, es: seq<Event>)
    requires PipelineSafety.Inv(db) && db.status in {ClausesExtracted, Analyzing}
    requires cfg.ids == Ids(Left(db)) && Legal(cfg, es)
    ensures exists s: PipelineLives.Step :: s.command == Analyze &&
              PipelineLives.Happens(db, s, db.(status := Analyzing, analyses := db.analyses + Exec(cfg, es).rows))
  {
    var rows := CompletedTable(db, cfg, es);
    PipelineRestart.HelpfulIsPossible(Analyze, db);
    var env := PipelineRestart.Helpful(db).(rows := rows);
    var n := |Exec(cfg, es).rows|;
    assert env.rows[..n] == Exec(cfg, es).rows;
    CrashHappens(db, env, n);
    assert PipelineLives.Step(Analyze, env, 1 + n).command == Analyze;
  }
}
