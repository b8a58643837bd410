/** What a crashed contract can still become. The commands that name an existing
    contract move it on from every status but four, and finish it only if `process`
    got past the analysis: the step after it has no command of its own. */
module PipelineRestart {
  import opened Wrappers
  import opened Domain
  import opened Analyses
  import opened PipelineSpec
  import opened PipelineSafety
  import opened PipelineLives
  import Fanout
  import FanoutResults
  import Llm
  import Retry
  import Reviewing
  import Splitting

  /** A run of commands that name the existing contract. */
  ghost predicate Restart(dbs: seq<Db>, steps: seq<Step>) {
    Chain(dbs, steps) && forall i :: 0 <= i < |steps| ==> !Creates(steps[i].command)
  }

  ghost predicate Reaches(from: Db, to: Db) {
    exists dbs, steps :: Restart(dbs, steps) && dbs[0] == from && dbs[|steps|] == to
  }

  predicate IsStuck(s: ContractStatus) {
    s == AnalyzingClauses || s == Analyzed || s == Summarizing || s == Done
  }

  ghost predicate CanAdvance(db: Db) {
    exists to :: Reaches(db, to) && Rank(to.status) > Rank(db.status)
  }

  ghost predicate CanFinish(db: Db) {
    exists to :: Reaches(db, to) && to.status == Done
  }

  // ------------------------------------------------------------- fixed points

  /** From the four statuses no command does anything. */
  lemma StuckStays(c: Command, db: Db, env: Env)
    requires IsStuck(db.status) && !Creates(c)
    ensures StageOf(c, db, env).effects == []
  {
  }

  lemma {:induction false} StuckForever(dbs: seq<Db>, steps: seq<Step>)
    requires Restart(dbs, steps) && IsStuck(dbs[0].status)
    ensures dbs[|steps|] == dbs[0]
    decreases |steps|
  {
    var n := |steps| - 1;
    if n >= 0 {
      StuckForever(dbs[..|dbs| - 1], steps[..n]);
      StuckStays(steps[n].command, dbs[n], steps[n].env);
    }
  }

  /** A status is the one before or one that was set. */
  lemma {:induction false} StatusWasSet(db: Db, es: seq<Effect>)
    ensures var d := ApplyAll(db, es);
            d.status == db.status || exists i :: 0 <= i < |es| && es[i] == SetStatus(d.status)
    decreases |es|
  {
    if es != [] {
      var d := ApplyAll(db, es);
      StatusWasSet(Apply(db, es[0]), es[1..]);
      if d.status != Apply(db, es[0]).status {
        var i :| 0 <= i < |es| - 1 && es[1..][i] == SetStatus(d.status);
        assert es[i + 1] == SetStatus(d.status);
      } else if d.status != db.status {
        assert es[0] == SetStatus(d.status);
      }
    }
  }

  /** Before the step after the analysis, no command sets a status beyond it. */
  lemma SetsAtMostAnalyzed(c: Command, db: Db, env: Env, i: nat)
    requires !Creates(c) && Rank(db.status) <= Rank(Analyzed)
    requires i < |StageOf(c, db, env).effects| && StageOf(c, db, env).effects[i].SetStatus?
    ensures Rank(StageOf(c, db, env).effects[i].status) <= Rank(Analyzed)
  {
    hide ApplyAll, Left, Todo, Splitting.Texts, BriefFor, NumberedClauses;
  }

  lemma StaysBelowReview(db: Db, s: Step, after: Db)
    requires !Creates(s.command) && Rank(db.status) <= Rank(Analyzed) && Happens(db, s, after)
    ensures Rank(after.status) <= Rank(Analyzed)
  {
    var es := EffectsOf(db, s);
    StatusWasSet(db, es[..s.done]);
    if after.status != db.status {
      var i :| 0 <= i < s.done && es[..s.done][i] == SetStatus(after.status);
      SetsAtMostAnalyzed(s.command, db, s.env, i);
    }
  }

  lemma {:induction false} NeverFinishes(dbs: seq<Db>, steps: seq<Step>)
    requires Restart(dbs, steps)
    requires Rank(dbs[0].status) <= Rank(Analyzed) || dbs[0].status == Summarizing
    ensures dbs[|steps|].status != Done
    ensures dbs[0].status != Summarizing ==> Rank(dbs[|steps|].status) <= Rank(Analyzed)
    decreases |steps|
  {
    hide Happens, StageOf, Possible;
    if dbs[0].status == Summarizing {
      StuckForever(dbs, steps);
    } else {
      var n := |steps| - 1;
      if n >= 0 {
        NeverFinishes(dbs[..|dbs| - 1], steps[..n]);
        StaysBelowReview(dbs[n], steps[n], dbs[n + 1]);
      }
    }
  }

  // ---------------------------------------------------------- a helpful world

  /** Every clause that is left fails. */
  function FailedRows(left: seq<Clause>): Table {
    if left == [] then []
    else FailedRows(left[..|left| - 1]) + [Fanout.RowFor(left[|left| - 1].id, Fanout.Stopped("budget"))]
  }

  lemma {:induction false} FailedRowsDispose(left: seq<Clause>)
    requires DistinctIds(left)
    ensures Disposes(left, FailedRows(left))
  {
    if left != [] {
      var n := |left| - 1;
      FailedRowsDispose(left[..n]);
      var row := Fanout.RowFor(left[n].id, Fanout.Stopped("budget"));
      FanoutResults.RowsOfNew(FailedRows(left[..n]), row);
      ClauseIdsSplit(left);
    }
  }

  lemma ClauseIdsSplit(left: seq<Clause>)
    requires left != [] && DistinctIds(left)
    ensures ClauseIds(left) == ClauseIds(left[..|left| - 1]) + {left[|left| - 1].id}
    ensures left[|left| - 1].id !in ClauseIds(left[..|left| - 1])
  {
    var n := |left| - 1;
    forall id | id in ClauseIds(left[..n]) + {left[n].id}
      ensures id in ClauseIds(left)
    {
      if id in ClauseIds(left[..n]) {
        var i :| 0 <= i < n && left[..n][i].id == id;
        assert left[i].id == id;
      } else {
        assert left[n].id == id;
      }
    }
  }

  function Approvals(n: nat): (lines: seq<string>)
    ensures |lines| == n && forall i :: 0 <= i < n ==> lines[i] == "a"
  {
    seq(n, _ => "a")
  }

  lemma {:induction false} ApprovalsDecide(lines: seq<string>, from: nat)
    requires from <= |lines| && forall i :: 0 <= i < |lines| ==> lines[i] == "a"
    ensures |Reviewing.Readings(lines, from, Reviewing.Outside)| == |lines| - from
    decreases |lines| - from
  {
    if from < |lines| {
      ApprovalsDecide(lines, from + 1);
      assert Reviewing.Approves("a");
    }
  }

  function Zeros(n: nat): (id: string)
    ensures |id| == n
  {
    seq(n, _ => '0')
  }

  ghost predicate IsHelpful(env: Env) {
    env.extracted.Some? && Splitting.Texts(env.client).Some? && env.report.Some? && env.fileWritten
  }

  /** The first reply is a list of one clause. */
  function OneClause(): (client: Splitting.Client)
    ensures Splitting.Texts(client) == Some(["clause"])
  {
    var service := Retry.Service(_ => Retry.Answered(Llm.Response("", [], 0, 0, "", "")), _ => 0, _ => false, _ => false);
    Splitting.Client(_ => Some(["clause"]), _ => service, 0, 0)
  }

  /** Everything succeeds, except that no clause agent submits. */
  function Helpful(db: Db): Env {
    Env(Some("text"), OneClause(), Zeros, FailedRows(Left(db)),
        Approvals(|Todo(db)|), Some("report"), true, s => 0, 0)
  }

  lemma LeftDistinct(db: Db)
    requires Inv(db)
    ensures DistinctIds(Left(db))
  {
    NeedingAnalysisDistinct(db.clauses, DoneIds(db.analyses));
  }

  lemma DistinctDraws(db: Db)
    ensures forall i: nat, j: nat :: i != j ==> Helpful(db).ids(i) != Helpful(db).ids(j)
  {
    forall i: nat, j: nat | i != j
      ensures Helpful(db).ids(i) != Helpful(db).ids(j)
    {
      assert |Helpful(db).ids(i)| == i && |Helpful(db).ids(j)| == j;
    }
  }

  lemma HelpfulIsPossible(c: Command, db: Db)
    requires !Creates(c) && Inv(db)
    ensures IsHelpful(Helpful(db)) && Possible(c, db, Helpful(db))
  {
    LeftDistinct(db);
    FailedRowsDispose(Left(db));
    DistinctDraws(db);
  }

  // --------------------------------------------------------------- the moves

  ghost function Moved(c: Command, db: Db, env: Env): Db { ApplyAll(db, StageOf(c, db, env).effects) }

  lemma MoveHappens(c: Command, db: Db, env: Env)
    requires !Creates(c) && Inv(db) && Possible(c, db, env)
    ensures Reaches(db, Moved(c, db, env))
    ensures Inv(Moved(c, db, env))
  {
    var es := StageOf(c, db, env).effects;
    assert es[..|es|] == es;
    var s := Step(c, env, |es|);
    StepKeeps(db, s, Moved(c, db, env));
    ReachesByStep(db, s, Moved(c, db, env));
  }

  lemma ReachesByStep(db: Db, s: Step, after: Db)
    requires !Creates(s.command) && Happens(db, s, after)
    ensures Reaches(db, after)
  {
    assert Restart([db, after], [s]);
  }

  /** Two runs, one after the other. */
  lemma RestartOn(dbs: seq<Db>, steps: seq<Step>, dbs': seq<Db>, steps': seq<Step>)
    requires Restart(dbs, steps) && Restart(dbs', steps') && dbs[|steps|] == dbs'[0]
    ensures Restart(dbs + dbs'[1..], steps + steps')
  {
    var all, both := dbs + dbs'[1..], steps + steps';
    forall i | 0 <= i < |both|
      ensures Happens(all[i], both[i], all[i + 1])
    {
      if i >= |steps| {
        assert all[i] == dbs'[i - |steps|] && all[i + 1] == dbs'[i - |steps| + 1];
      }
    }
  }

  lemma LastStatus(db: Db, es: seq<Effect>)
    requires es != [] && es[|es| - 1].SetStatus?
    ensures ApplyAll(db, es).status == es[|es| - 1].status
  {
    var n := |es| - 1;
    assert es == es[..n] + [es[n]];
    Append(db, es[..n], [es[n]]);
    Single(ApplyAll(db, es[..n]), es[n]);
  }

  lemma SummarizeFinishes(db: Db, env: Env)
    requires db.status == ReviewComplete && env.report.Some? && env.fileWritten
    ensures SummarizeStage(db, env).effects != []
    ensures ApplyAll(db, SummarizeStage(db, env).effects).status == Done
  {
    LastStatus(db, SummarizeStage(db, env).effects);
  }

  lemma ResumeFinishes(db: Db, env: Env)
    requires db.status == ReviewPending && Todo(db) == [] && env.report.Some? && env.fileWritten
    ensures ApplyAll(db, ResumeStage(db, env).effects).status == Done
  {
    var complete := SetStatus(ReviewComplete);
    Single(db, complete);
    SummarizeFinishes(Apply(db, complete), env);
    Append(db, [complete], SummarizeStage(Apply(db, complete), env).effects);
  }

  lemma ExtractMoves(db: Db)
    requires Inv(db) && Rank(db.status) < Rank(Extracted)
    ensures CanAdvance(db)
  {
    hide Inv, Reaches, ApplyAll, Possible, Safe;
    HelpfulIsPossible(ExtractContract, db);
    MoveHappens(ExtractContract, db, Helpful(db));
    ExtractSafe(db, Helpful(db));
  }

  lemma SplitMoves(db: Db)
    requires Inv(db) && db.status == Extracted
    ensures CanAdvance(db)
  {
    hide Reaches, ApplyAll, Safe;
    HelpfulIsPossible(ExtractClauses, db);
    MoveHappens(ExtractClauses, db, Helpful(db));
    SplitSafe(db, Helpful(db));
  }

  lemma AnalyzeMoves(db: Db)
    requires Inv(db) && db.status in {ClausesExtracted, Analyzing}
    ensures CanAdvance(db)
  {
    hide Reaches, ApplyAll, Safe, Inv, RowsOf;
    HelpfulIsPossible(Analyze, db);
    MoveHappens(Analyze, db, Helpful(db));
    AnalyzeSafe(db, Helpful(db));
  }

  lemma SummarizeMoves(db: Db) returns (after: Db)
    requires Inv(db) && db.status == ReviewComplete
    ensures Reaches(db, after) && after.status == Done
  {
    hide SummarizeStage, Inv, ApplyAll;
    var env := Helpful(db);
    HelpfulIsPossible(Summarize, db);
    MoveHappens(Summarize, db, env);
    SummarizeFinishes(db, env);
    after := Moved(Summarize, db, env);
  }

  /** Enough approvals leave nothing to review. */
  lemma ReviewMoves(db: Db, env: Env)
    requires Inv(db) && db.status == ReviewPending && env.lines == Approvals(|Todo(db)|)
    ensures var after := ApplyAll(db, ReviewStage(db, env).effects);
            after.status == ReviewPending && Todo(after) == []
  {
    ApprovalsDecide(env.lines, 0);
    ReviewThenResume(db, env, env);
  }

  /** Some commands move a consistent contract on exactly when its status is not one of
      the four; and they bring it to the end exactly when `process` had reached the
      review, or the end itself. */
  lemma RestartCharacterisation(db: Db)
    requires Inv(db)
    ensures CanAdvance(db) <==> !IsStuck(db.status)
    ensures CanFinish(db) <==> db.status in {ReviewPending, ReviewComplete, Done}
  {
    StuckCannot(db);
    OthersCan(db);
  }

  lemma StuckCannot(db: Db)
    ensures IsStuck(db.status) ==> !CanAdvance(db)
    ensures Rank(db.status) <= Rank(Analyzed) || db.status == Summarizing ==> !CanFinish(db)
  {
    forall to | Reaches(db, to)
      ensures IsStuck(db.status) ==> to == db
      ensures Rank(db.status) <= Rank(Analyzed) || db.status == Summarizing ==> to.status != Done
    {
      var dbs, steps :| Restart(dbs, steps) && dbs[0] == db && dbs[|steps|] == to;
      if IsStuck(db.status) { StuckForever(dbs, steps); }
      if Rank(db.status) <= Rank(Analyzed) || db.status == Summarizing { NeverFinishes(dbs, steps); }
    }
  }

  lemma ReviewReaches(db: Db) returns (after: Db)
    requires Inv(db) && db.status == ReviewPending
    ensures Reaches(db, after) && Inv(after) && after.status == ReviewPending && Todo(after) == []
  {
    hide ReviewStage, Inv, ApplyAll;
    var env := Helpful(db);
    HelpfulIsPossible(Command.Review, db);
    MoveHappens(Command.Review, db, env);
    ReviewMoves(db, env);
    after := Moved(Command.Review, db, env);
  }

  lemma ReviewedFinishes(db: Db) returns (after: Db)
    requires Inv(db) && db.status == ReviewPending && Todo(db) == []
    ensures Reaches(db, after) && after.status == Done
  {
    hide ResumeStage, Inv, ApplyAll;
    var env := Helpful(db);
    HelpfulIsPossible(Resume, db);
    MoveHappens(Resume, db, env);
    ResumeFinishes(db, env);
    after := Moved(Resume, db, env);
  }

  lemma PendingFinishes(db: Db)
    requires Inv(db) && db.status == ReviewPending
    ensures CanFinish(db)
  {
    hide Inv, Happens;
    var reviewed := ReviewReaches(db);
    var finished := ReviewedFinishes(reviewed);
    var dbs, steps :| Restart(dbs, steps) && dbs[0] == db && dbs[|steps|] == reviewed;
    var dbs', steps' :| Restart(dbs', steps') && dbs'[0] == reviewed && dbs'[|steps'|] == finished;
    RestartOn(dbs, steps, dbs', steps');
    assert (dbs + dbs'[1..])[|steps + steps'|] == finished;
    assert Reaches(db, finished);
  }

  lemma OthersCan(db: Db)
    requires Inv(db)
    ensures !IsStuck(db.status) ==> CanAdvance(db)
    ensures db.status in {ReviewPending, ReviewComplete, Done} ==> CanFinish(db)
  {
    hide Inv, Happens;
    match db.status
    case Uploaded => ExtractMoves(db);
    case Extracting => ExtractMoves(db);
    case Extracted => SplitMoves(db);
    case ClausesExtracted => AnalyzeMoves(db);
    case Analyzing => AnalyzeMoves(db);
    case ReviewPending => PendingFinishes(db);
    case ReviewComplete =>
      var finished := SummarizeMoves(db);
    case Done =>
      assert Restart([db], []);
      assert Reaches(db, db);
    case _ =>
  }

  // ------------------------------------------------------- how to get stuck

  /** The world of the three deaths: one clause, whose agent does not submit. */
  ghost function DyingWorld(): Env {
    var split := ApplyAll(Created(false), SplitPart(Created(false), Helpful(Created(false))).effects);
    Helpful(Created(false)).(rows := FailedRows(Left(split)))
  }

  lemma SplitPartIs(env: Env)
    requires IsHelpful(env)
    ensures var clauses := NumberedClauses(Splitting.Texts(env.client).value, env.ids);
            SplitPart(Created(false), env) ==
              Stage([SetStatus(Extracting), SetText(env.extracted.value), SetStatus(Extracted)]
                    + [SetStatus(AnalyzingClauses), SaveClauses(clauses), SetStatus(ClausesExtracted)], true)
  {
    LastStatus(Created(false), ExtractStages(env).effects);
  }

  lemma AnalyzedPartIs(env: Env)
    requires IsHelpful(env)
    ensures var analyzed := Then(Created(false), SplitPart(Created(false), env), d => AnalyzeStage(d, env));
            && analyzed.ok
            && analyzed.effects == SplitPart(Created(false), env).effects
                                   + ([SetStatus(Analyzing)] + SaveRows(env.rows) + [SetStatus(Analyzed)])
            && ApplyAll(Created(false), analyzed.effects).status == Analyzed
  {
    SplitPartIs(env);
    var split := SplitPart(Created(false), env);
    LastStatus(Created(false), split.effects);
    hide SplitPart, ApplyAll, SaveRows, IsHelpful;
    var analyzed := Then(Created(false), split, d => AnalyzeStage(d, env));
    LastStatus(Created(false), analyzed.effects);
  }

  lemma PostPartIs(db: Db, env: Env)
    requires db.status == Analyzed
    ensures var es := PostStage(db, env, false).effects;
            |es| >= 2 && es[1] == SetStatus(Summarizing)
  {
    PipelineSafety.Single(db, SetStatus(ReviewComplete));
    hide ApplyAll, BriefFor;
  }

  lemma Places(a: seq<Effect>, x: Effect, saves: seq<Effect>, y: Effect, c: seq<Effect>, es: seq<Effect>)
    requires |a| == 6 && |c| >= 2 && es == a + ([x] + saves + [y]) + c
    ensures |es| >= |saves| + 10 && es[3] == a[3] && es[7 + |saves|] == y && es[9 + |saves|] == c[1]
  {
  }

  /** The effects of `process` without review, up to the question to the report model. */
  lemma ProcessBegins(env: Env, es: seq<Effect>, rows: nat)
    requires IsHelpful(env) && es == ProcessStage(Created(false), env, false).effects && rows == |env.rows|
    ensures |es| >= rows + 10
    ensures es[3] == SetStatus(AnalyzingClauses) && es[7 + rows] == SetStatus(Analyzed)
    ensures es[9 + rows] == SetStatus(Summarizing)
  {
    var start := Created(false);
    var split := SplitPart(start, env);
    SplitPartIs(env);
    AnalyzedPartIs(env);
    assert |split.effects| == 6 && split.effects[3] == SetStatus(AnalyzingClauses);
    hide ApplyAll, SplitPart, PostStage, IsHelpful, AnalyzeStage, Splitting.Texts, NumberedClauses;
    var analyzed := Then(start, split, d => AnalyzeStage(d, env));
    var a := ApplyAll(start, analyzed.effects);
    var post := PostStage(a, env, false).effects;
    PostPartIs(a, env);
    assert es == analyzed.effects + post;
    Places(split.effects, SetStatus(Analyzing), SaveRows(env.rows), SetStatus(Analyzed), post, es);
  }

  /** A `process` that dies right after an effect that sets a status leaves that status. */
  lemma DiesAt(env: Env, k: nat, status: ContractStatus) returns (dbs: seq<Db>, steps: seq<Step>)
    requires Possible(Process, Created(false), env)
    requires k < |ProcessStage(Created(false), env, false).effects|
    requires ProcessStage(Created(false), env, false).effects[k] == SetStatus(status)
    ensures Life(false, dbs, steps) && |steps| == 1 && steps[0].command == Process
    ensures dbs[1].status == status
  {
    var es := ProcessStage(Created(false), env, false).effects;
    LastStatus(Created(false), es[..k + 1]);
    dbs := [Created(false), ApplyAll(Created(false), es[..k + 1])];
    steps := [Step(Process, env, k + 1)];
  }

  /** Only the rows depend on where the splitting leaves the contract. */
  lemma SplitPartIgnoresRows(env: Env, rows: Table)
    ensures SplitPart(Created(false), env.(rows := rows)) == SplitPart(Created(false), env)
  {
    hide ApplyAll;
  }

  /** Where the splitting leaves the contract, in any helpful world. */
  lemma SplitLeaves(env: Env)
    requires forall i: nat, j: nat :: i != j ==> env.ids(i) != env.ids(j)
    ensures var split := ApplyAll(Created(false), SplitPart(Created(false), env).effects);
            Disposes(Left(split), FailedRows(Left(split)))
  {
    var start := Created(false);
    assert Inv(start);
    hide Inv, ApplyAll, SplitPart;
    SplitPartSafe(start, env);
    SafeInv(start, SplitPart(start, env).effects);
    var split := ApplyAll(start, SplitPart(start, env).effects);
    LeftDistinct(split);
    FailedRowsDispose(Left(split));
  }

  lemma DyingWorldIsPossible()
    ensures IsHelpful(DyingWorld()) && Possible(Process, Created(false), DyingWorld())
  {
    var start := Created(false);
    var env := Helpful(start);
    DistinctDraws(start);
    HelpfulHelps(start);
    hide Helpful, ApplyAll, SplitPart, IsHelpful, Disposes, Left;
    SplitLeaves(env);
    var split := ApplyAll(start, SplitPart(start, env).effects);
    SplitPartIgnoresRows(env, FailedRows(Left(split)));
  }

  lemma HelpfulHelps(db: Db)
    ensures IsHelpful(Helpful(db))
    ensures forall rows :: IsHelpful(Helpful(db).(rows := rows))
  {
  }

  lemma SplitPartSafe(db: Db, env: Env)
    requires Inv(db) && db.status == Uploaded
    requires forall i: nat, j: nat :: i != j ==> env.ids(i) != env.ids(j)
    ensures Safe(db, SplitPart(db, env).effects)
  {
    ExtractSafe(db, env);
    SafeInv(db, ExtractStages(env).effects);
    SplitSafe(ApplyAll(db, ExtractStages(env).effects), env);
    SafeThen(db, ExtractStages(env), d => SplitStage(d, env));
  }

  lemma PlaceOfDeath(env: Env, status: ContractStatus) returns (k: nat)
    requires IsHelpful(env) && IsStuck(status) && status != Done
    ensures k < |ProcessStage(Created(false), env, false).effects|
    ensures ProcessStage(Created(false), env, false).effects[k] == SetStatus(status)
  {
    var es := ProcessStage(Created(false), env, false).effects;
    ProcessBegins(env, es, |env.rows|);
    hide ProcessStage;
    k := if status == AnalyzingClauses then 3 else if status == Analyzed then 7 + |env.rows| else 9 + |env.rows|;
  }

  lemma StuckIsStuck(db: Db)
    requires IsStuck(db.status) && db.status != Done
    ensures !CanAdvance(db) && !CanFinish(db)
  {
    StuckCannot(db);
  }

  /** Each of the three unfinished fixed points is where some `process` can die; there the
      contract stays, and it is never finished. */
  lemma StuckByACrash(status: ContractStatus) returns (dbs: seq<Db>, steps: seq<Step>)
    requires IsStuck(status) && status != Done
    ensures Life(false, dbs, steps) && |steps| == 1 && steps[0].command == Process
    ensures dbs[1].status == status && !CanAdvance(dbs[1]) && !CanFinish(dbs[1])
  {
    hide ProcessStage, CanAdvance, CanFinish, DyingWorld, Possible, IsHelpful;
    DyingWorldIsPossible();
    var k := PlaceOfDeath(DyingWorld(), status);
    dbs, steps := DiesAt(DyingWorld(), k, status);
    StuckIsStuck(dbs[1]);
  }
}
