/** What each command leaves behind when nothing interrupts it: the whole row of the
    contract, and whether the command succeeds. */
module PipelineOutcomes {
  import opened Wrappers
  import opened Domain
  import opened Analyses
  import opened PipelineSpec
  import opened PipelineSafety
  import opened PipelineLives
  import PipelineRestart
  import Reviewing
  import Splitting

  /** Run to its end on `db`, a stage leaves `after` and answers `ok`. */
  ghost predicate Leaves(db: Db, stage: Stage, after: Db, ok: bool) {
    ApplyAll(db, stage.effects) == after && stage.ok == ok
  }

  lemma LeavesThen(db: Db, a: Stage, mid: Db, b: Db -> Stage, after: Db, ok: bool)
    requires Leaves(db, a, mid, true) && Leaves(mid, b(mid), after, ok)
    ensures Leaves(db, Then(db, a, b), after, ok)
  {
    Append(db, a.effects, b(mid).effects);
    hide ApplyAll;
  }

  lemma LeavesHalf(db: Db, a: Stage, mid: Db, b: Db -> Stage)
    requires Leaves(db, a, mid, false)
    ensures Leaves(db, Then(db, a, b), mid, false)
  {
    hide ApplyAll;
  }

  lemma Three(db: Db, a: Effect, b: Effect, c: Effect)
    ensures ApplyAll(db, [a, b, c]) == Apply(Apply(Apply(db, a), b), c)
  {
    hide Safe, Guard, Apply;
    Pair(Apply(db, a), b, c);
    Cons(db, a, [b, c]);
    assert [a] + [b, c] == [a, b, c];
  }

  // ------------------------------------------------------------------ stages

  /** The text of the PDF is stored between two statuses; an unreadable one leaves the
      first. */
  ghost predicate ExtractLeaves(db: Db, env: Env, after: Db, ok: bool) {
    match env.extracted
    case None => after == db.(status := Extracting) && !ok
    case Some(text) => after == db.(status := Extracted, text := Some(text)) && ok
  }

  lemma ExtractOutcome(db: Db, env: Env)
    ensures ExtractLeaves(db, env, ApplyAll(db, ExtractStages(env).effects), ExtractStages(env).ok)
  {
    hide Safe, Guard;
    Single(db, SetStatus(Extracting));
    if env.extracted.Some? {
      Three(db, SetStatus(Extracting), SetText(env.extracted.value), SetStatus(Extracted));
    }
    hide ApplyAll;
  }

  /** The clauses as they are stored: drawn ids, numbers from one, the given texts. */
  ghost predicate AreClauses(clauses: seq<Clause>, env: Env, texts: seq<string>) {
    && |clauses| == |texts|
    && forall i :: 0 <= i < |texts| ==> clauses[i] == Clause(env.ids(i), i + 1, texts[i])
  }

  ghost predicate SplitLeaves(db: Db, env: Env, after: Db, ok: bool) {
    match Splitting.Texts(env.client)
    case None => after == db.(status := AnalyzingClauses) && !ok
    case Some(texts) =>
      && AreClauses(after.clauses, env, texts)
      && after == db.(status := ClausesExtracted, clauses := after.clauses) && ok
  }

  lemma SplitOutcome(db: Db, env: Env)
    requires db.status == Extracted && db.clauses == []
    ensures SplitLeaves(db, env, ApplyAll(db, SplitStage(db, env).effects), SplitStage(db, env).ok)
  {
    hide Safe, Guard, Splitting.Texts;
    Single(db, SetStatus(AnalyzingClauses));
    if Splitting.Texts(env.client).Some? {
      var clauses := NumberedClauses(Splitting.Texts(env.client).value, env.ids);
      Three(db, SetStatus(AnalyzingClauses), SaveClauses(clauses), SetStatus(ClausesExtracted));
      assert [] + clauses == clauses;
    }
    hide ApplyAll;
  }

  lemma AnalyzeOutcome(db: Db, env: Env)
    requires db.status == ClausesExtracted || db.status == Analyzing
    ensures Leaves(db, AnalyzeStage(db, env), db.(status := Analyzed, analyses := db.analyses + env.rows), true)
  {
    hide Safe, Guard;
    var begin, saves, end := SetStatus(Analyzing), SaveRows(env.rows), SetStatus(Analyzed);
    var d := Apply(db, begin);
    ApplyRows(d, env.rows);
    hide SaveRows;
    Single(ApplyAll(d, saves), end);
    Append(d, saves, [end]);
    Cons(db, begin, saves + [end]);
    assert AnalyzeStage(db, env).effects == [begin] + (saves + [end]);
    hide ApplyAll;
  }

  /** What the answer of the report model comes to. */
  ghost predicate ReportLeaves(db: Db, env: Env, after: Db, ok: bool) {
    match env.report
    case None => after == db.(status := Summarizing) && !ok
    case Some(content) =>
      && after == db.(status := if env.fileWritten then Done else Summarizing, summary := Some(content))
      && ok == env.fileWritten
  }

  lemma ReportOutcome(db: Db, env: Env)
    requires db.status == ReviewComplete
    ensures ReportLeaves(db, env, ApplyAll(db, SummarizeStage(db, env).effects), SummarizeStage(db, env).ok)
  {
    hide Safe, Guard, BriefFor;
    var begin, ask := SetStatus(Summarizing), AskSummary(BriefFor(db, env));
    Pair(db, begin, ask);
    if env.report.Some? {
      var save := SaveSummary(env.report.value);
      var d := ApplyAll(db, [begin, ask]);
      Single(d, save);
      Pair(d, save, SetStatus(Done));
      Append(db, [begin, ask], [save]);
      Append(db, [begin, ask], [save, SetStatus(Done)]);
    }
    hide ApplyAll;
  }

  lemma CompleteOutcome(db: Db, env: Env)
    ensures ReportLeaves(db, env, ApplyAll(db, CompleteStage(db, env).effects), CompleteStage(db, env).ok)
  {
    hide Safe, Guard, SummarizeStage;
    var done := SetStatus(ReviewComplete);
    var d := Apply(db, done);
    Single(db, done);
    ReportOutcome(d, env);
    hide ApplyAll;
    var stage := SummarizeStage(d, env);
    LeavesThen(db, Stage([done], true), d, x => SummarizeStage(x, env), ApplyAll(d, stage.effects), stage.ok);
  }

  // ----------------------------------------------------------------- process

  /** What `process` leaves, whatever goes wrong on the way. */
  ghost predicate ProcessLeaves(env: Env, requiresReview: bool, after: Db, ok: bool) {
    match env.extracted
    case None => after == Db(Extracting, requiresReview, None, [], [], [], None) && !ok
    case Some(text) =>
      match Splitting.Texts(env.client)
      case None => after == Db(AnalyzingClauses, requiresReview, Some(text), [], [], [], None) && !ok
      case Some(texts) =>
        && AreClauses(after.clauses, env, texts)
        && if requiresReview then
             ok && after == Db(ReviewPending, true, Some(text), after.clauses, env.rows, [], None)
           else
             match env.report
             case None =>
               !ok && after == Db(Summarizing, false, Some(text), after.clauses, env.rows, [], None)
             case Some(content) =>
               && ok == env.fileWritten
               && after == Db(if env.fileWritten then Done else Summarizing, false, Some(text),
                              after.clauses, env.rows, [], Some(content))
  }

  lemma PostOutcome(db: Db, env: Env, requiresReview: bool)
    requires db.status == Analyzed
    ensures var stage := PostStage(db, env, requiresReview);
            if requiresReview then Leaves(db, stage, db.(status := ReviewPending), true)
            else ReportLeaves(db, env, ApplyAll(db, stage.effects), stage.ok)
  {
    CompleteOutcome(db, env);
    Single(db, SetStatus(ReviewPending));
    hide ApplyAll, CompleteStage;
  }

  /** `process` succeeds exactly when the text is read, the clauses are split and, without
      review, the report is written; then it ends at `review_pending` if a review is
      required and at `done` otherwise, with everything stored on the way. When a stage
      fails it stops there. */
  lemma ProcessOutcome(env: Env, requiresReview: bool) returns (after: Db)
    ensures var stage := StageOf(Process, Created(requiresReview), env);
            && Leaves(Created(requiresReview), stage, after, stage.ok)
            && ProcessLeaves(env, requiresReview, after, stage.ok)
  {
    var db := Created(requiresReview);
    var analyze, post := d => AnalyzeStage(d, env), d => PostStage(d, env, requiresReview);
    after := SplitPartOutcome(env, requiresReview);
    var split := SplitPart(db, env);
    var analyzed := Then(db, split, analyze);
    hide SplitPart, PostStage, AnalyzeStage, ApplyAll, Splitting.Texts;
    if !split.ok {
      LeavesHalf(db, split, after, analyze);
      LeavesHalf(db, analyzed, after, post);
    } else {
      var mid := after.(status := Analyzed, analyses := after.analyses + env.rows);
      AnalyzeOutcome(after, env);
      LeavesThen(db, split, after, analyze, mid, true);
      PostOutcome(mid, env, requiresReview);
      var last := PostStage(mid, env, requiresReview);
      after := ApplyAll(mid, last.effects);
      LeavesThen(db, analyzed, mid, post, after, last.ok);
      assert [] + env.rows == env.rows;
    }
  }

  lemma SplitPartOutcome(env: Env, requiresReview: bool) returns (after: Db)
    ensures var db := Created(requiresReview);
            var split := SplitPart(db, env);
            Leaves(db, split, after, split.ok) &&
            match env.extracted
            case None => after == Db(Extracting, requiresReview, None, [], [], [], None) && !split.ok
            case Some(text) =>
              match Splitting.Texts(env.client)
              case None => after == Db(AnalyzingClauses, requiresReview, Some(text), [], [], [], None) && !split.ok
              case Some(texts) =>
                && AreClauses(after.clauses, env, texts) && split.ok
                && after == Db(ClausesExtracted, requiresReview, Some(text), after.clauses, [], [], None)
  {
    var db := Created(requiresReview);
    ExtractOutcome(db, env);
    hide ApplyAll, ExtractStages, SplitStage, Splitting.Texts;
    var next := d => SplitStage(d, env);
    if env.extracted.None? {
      after := db.(status := Extracting);
      LeavesHalf(db, ExtractStages(env), after, next);
    } else {
      var mid := db.(status := Extracted, text := env.extracted);
      SplitOutcome(mid, env);
      after := ApplyAll(mid, SplitStage(mid, env).effects);
      LeavesThen(db, ExtractStages(env), mid, next, after, SplitStage(mid, env).ok);
    }
  }

  // ----------------------------------------------------------- other commands

  ghost predicate EveryoneReviewed(db: Db) {
    forall c :: c in db.clauses ==> exists r :: r in db.reviews && r.clauseId == c.id
  }

  /** What a command leaves of an existing contract (for a review, see `ReviewThenResume`): a stage that has
      been done already is left alone and succeeds, one whose turn it is not is left alone
      and refused. */
  ghost predicate CommandLeaves(c: Command, db: Db, env: Env, after: Db, ok: bool) {
    match c
    case ExtractContract =>
      if db.status in {Uploaded, Extracting} then ExtractLeaves(db, env, after, ok) else after == db && ok
    case ExtractClauses =>
      if db.status == Extracted then SplitLeaves(db, env, after, ok)
      else after == db && (ok <==> db.status == ClausesExtracted)
    case Analyze =>
      if db.status in {ClausesExtracted, Analyzing} then
        after == db.(status := Analyzed, analyses := db.analyses + env.rows) && ok
      else after == db && (ok <==> db.status == Analyzed)
    case Resume =>
      if db.status == ReviewPending && EveryoneReviewed(db) then ReportLeaves(db, env, after, ok)
      else after == db && !ok
    case Summarize =>
      if db.status == ReviewComplete then ReportLeaves(db, env, after, ok)
      else after == db && (ok <==> db.status == Done && db.summary.Some?)
    case Review => db.status != ReviewPending ==> after == db && !ok
    case _ => true
  }

  lemma NothingTodo(db: Db)
    ensures Todo(db) == [] <==> EveryoneReviewed(db)
  {
    Reviewing.UnreviewedMeans(db.clauses, ReviewedIds(db.reviews));
    forall c | c in db.clauses
      ensures c.id in ReviewedIds(db.reviews) <==> exists r :: r in db.reviews && r.clauseId == c.id
    {
      if c.id in ReviewedIds(db.reviews) {
        var i :| 0 <= i < |db.reviews| && db.reviews[i].clauseId == c.id;
        assert db.reviews[i] in db.reviews;
      }
    }
  }

  lemma NothingDone(db: Db, ok: bool)
    ensures Leaves(db, Stage([], ok), db, ok)
  {
  }

  /** Each command, on every consistent contract and whatever the world answers. */
  lemma CommandOutcome(c: Command, db: Db, env: Env)
    requires Inv(db)
    ensures var stage := StageOf(c, db, env);
            CommandLeaves(c, db, env, ApplyAll(db, stage.effects), stage.ok)
  {
    assert db.status == Extracted ==> db.clauses == [];
    hide Inv, ApplyAll, BriefFor, Splitting.Texts, EveryoneReviewed, Todo;
    NothingDone(db, true);
    NothingDone(db, false);
    NothingDone(db, db.summary.Some?);
    match c
    case ExtractContract => ExtractOutcome(db, env);
    case ExtractClauses =>
      if db.status == Extracted {
        SplitOutcome(db, env);
        hide SplitStage;
      }
    case Analyze =>
      if db.status == ClausesExtracted || db.status == Analyzing {
        AnalyzeOutcome(db, env);
      }
    case Resume =>
      NothingTodo(db);
      CompleteOutcome(db, env);
      hide CompleteStage;
    case Summarize =>
      if db.status == ReviewComplete {
        ReportOutcome(db, env);
      }
    case _ =>
  }

  lemma {:induction false} ApplyReviews(db: Db, saved: seq<Review>)
    ensures ApplyAll(db, SaveReviews(saved)) == db.(reviews := db.reviews + saved)
    decreases |saved|
  {
    if saved == [] {
      assert db.reviews + saved == db.reviews;
    } else {
      var next := Apply(db, SaveReview(saved[0]));
      assert next.reviews + saved[1..] == db.reviews + saved;
      assert SaveReviews(saved)[1..] == SaveReviews(saved[1..]);
      ApplyReviews(next, saved[1..]);
    }
  }

  /** A session adds one review for each decision its input holds, as far as there are
      clauses to do, and changes nothing else. */
  lemma SessionRecords(db: Db, env: Env)
    requires db.status == ReviewPending
    ensures var after := ApplyAll(db, ReviewStage(db, env).effects);
            && after == db.(reviews := after.reviews) && db.reviews <= after.reviews
            && Reviewing.IsRecord(Todo(db), after.reviews[|db.reviews|..],
                                  Reviewing.Readings(env.lines, 0, Reviewing.Outside))
  {
    var saved := Reviewing.RunSession(Todo(db), env.lines, 0).saved;
    Reviewing.SessionOutcome(Todo(db), env.lines, 0);
    ApplyReviews(db, saved);
    assert (db.reviews + saved)[|db.reviews|..] == saved;
    hide Reviewing.IsRecord, Reviewing.Readings, Reviewing.RunSession, Todo, SaveReviews;
  }

  // ------------------------------------------------------- a reviewed contract

  lemma RunsWhole(c: Command, db: Db, env: Env) returns (after: Db, step: Step)
    requires Inv(db) && Possible(c, db, env) && (Creates(c) ==> db.status == Uploaded)
    ensures after == ApplyAll(db, StageOf(c, db, env).effects) && Inv(after)
    ensures step.command == c && Happens(db, step, after)
  {
    var es := StageOf(c, db, env).effects;
    after, step := ApplyAll(db, es), Step(c, env, |es|);
    assert es[..|es|] == es;
    hide Inv, ApplyAll, StageOf, Possible;
    StepKeeps(db, step, after);
  }

  lemma {:induction false} UnreviewedAtMost(clauses: seq<Clause>, reviewed: set<string>)
    ensures |Reviewing.Unreviewed(clauses, reviewed)| <= |clauses|
  {
    if clauses != [] {
      UnreviewedAtMost(clauses[1..], reviewed);
    }
  }

  /** A session over an input that decides on each clause. */
  lemma SessionDecides(db: Db, env: Env) returns (after: Db, step: Step)
    requires Inv(db) && db.status == ReviewPending && Possible(Command.Review, db, env)
    requires |Reviewing.Readings(env.lines, 0, Reviewing.Outside)| >= |db.clauses|
    ensures step.command == Command.Review && Happens(db, step, after) && Inv(after)
    ensures after == db.(reviews := after.reviews) && EveryoneReviewed(after)
  {
    hide Inv, ApplyAll, Happens, Possible;
    after, step := RunsWhole(Command.Review, db, env);
    UnreviewedAtMost(db.clauses, ReviewedIds(db.reviews));
    ReviewThenResume(db, env, env);
    NothingTodo(after);
  }

  lemma ProcessPending(env: Env) returns (pending: Db)
    requires env.extracted.Some? && Splitting.Texts(env.client).Some?
    ensures pending == ApplyAll(Created(true), StageOf(Process, Created(true), env).effects)
    ensures pending.status == ReviewPending && pending.reviews == []
    ensures |pending.clauses| == |Splitting.Texts(env.client).value|
  {
    pending := ProcessOutcome(env, true);
    hide ApplyAll, ProcessStage, Splitting.Texts;
  }

  /** Only what a fan-out saves depends on the contract. */
  lemma PossibleAnywhere(c: Command, db: Db, d: Db, env: Env)
    requires !c.Analyze? && !c.Process? && Possible(c, db, env)
    ensures Possible(c, d, env)
  {
  }

  lemma ResumeFinishes(db: Db, env: Env)
    requires Inv(db) && db.status == ReviewPending && EveryoneReviewed(db) && env.report.Some? && env.fileWritten
    ensures ApplyAll(db, StageOf(Resume, db, env).effects) == db.(status := Done, summary := env.report)
  {
    hide Inv, ApplyAll, EveryoneReviewed, ResumeStage;
    CommandOutcome(Resume, db, env);
  }

  lemma LifeOfThree(a: Db, b: Db, c: Db, d: Db, first: Step, second: Step, third: Step)
    requires a == Created(true) && Happens(a, first, b) && Happens(b, second, c) && Happens(c, third, d)
    requires Creates(first.command) && !Creates(second.command) && !Creates(third.command)
    ensures Life(true, [a, b, c, d], [first, second, third])
  {
    hide Happens, Creates;
  }

  lemma ProcessStep(env: Env) returns (pending: Db, step: Step)
    requires Possible(Process, Created(true), env) && env.extracted.Some? && Splitting.Texts(env.client).Some?
    ensures step.command == Process && Happens(Created(true), step, pending) && Inv(pending)
    ensures pending.status == ReviewPending && pending.reviews == []
    ensures |pending.clauses| == |Splitting.Texts(env.client).value|
  {
    Beginning(true);
    pending := ProcessPending(env);
    assert Created(true).status == Uploaded && Creates(Process);
    hide *;
    var _, first := RunsWhole(Process, Created(true), env);
    step := first;
  }

  lemma ResumeStep(db: Db, env: Env) returns (after: Db, step: Step)
    requires Possible(Resume, Created(true), env) && env.report.Some? && env.fileWritten
    requires Inv(db) && db.status == ReviewPending && EveryoneReviewed(db)
    ensures step.command == Resume && Happens(db, step, after)
    ensures after == db.(status := Done, summary := env.report)
  {
    assert !Creates(Resume);
    hide *;
    PossibleAnywhere(Resume, Created(true), db, env);
    after, step := RunsWhole(Resume, db, env);
    ResumeFinishes(db, env);
  }

  /** A contract that requires review goes all the way: from a `process` that reads and
      splits the text, through a session whose input holds a decision for each clause, and
      a resume whose report is written. */
  lemma ReviewedLife(env: Env, session: Env, later: Env) returns (dbs: seq<Db>, steps: seq<Step>)
    requires Possible(Process, Created(true), env) && env.extracted.Some? && Splitting.Texts(env.client).Some?
    requires Possible(Command.Review, Created(true), session) && Possible(Resume, Created(true), later)
    requires |Reviewing.Readings(session.lines, 0, Reviewing.Outside)| >= |Splitting.Texts(env.client).value|
    requires later.report.Some? && later.fileWritten
    ensures Life(true, dbs, steps) && |steps| == 3
    ensures steps[0].command == Process && steps[1].command == Command.Review && steps[2].command == Resume
    ensures dbs[1].status == ReviewPending && dbs[1].reviews == []
    ensures |dbs[1].clauses| == |Splitting.Texts(env.client).value|
    ensures dbs[2] == dbs[1].(reviews := dbs[2].reviews) && EveryoneReviewed(dbs[2])
    ensures dbs[3] == dbs[2].(status := Done, summary := later.report)
  {
    assert Creates(Process) && !Creates(Command.Review) && !Creates(Resume);
    hide *;
    var pending, first := ProcessStep(env);
    PossibleAnywhere(Command.Review, Created(true), pending, session);
    var reviewed, second := SessionDecides(pending, session);
    var done, third := ResumeStep(reviewed, later);
    LifeOfThree(Created(true), pending, reviewed, done, first, second, third);
    dbs, steps := [Created(true), pending, reviewed, done], [first, second, third];
  }

  lemma SameSplit(env: Env)
    ensures Left(ApplyAll(Created(false), SplitPart(Created(false), env).effects))
         == Left(ApplyAll(Created(true), SplitPart(Created(true), env).effects))
  {
    var a := SplitPartOutcome(env, false);
    var b := SplitPartOutcome(env, true);
    assert a.clauses == b.clauses && a.analyses == b.analyses;
    hide ApplyAll, SplitPart, Left, AreClauses, Splitting.Texts;
    assert Left(a) == Left(b) by { SameLeft(a, b); }
  }

  lemma SameLeft(a: Db, b: Db)
    requires a.clauses == b.clauses && a.analyses == b.analyses
    ensures Left(a) == Left(b)
  {
  }

  lemma PossibleWithReview(env: Env)
    requires Possible(Process, Created(false), env)
    ensures Possible(Process, Created(true), env)
  {
    SameSplit(env);
    hide ApplyAll, SplitPart, Left;
  }

  lemma HelpfulIsFree(c: Command, db: Db)
    requires !c.Analyze? && !c.Process?
    ensures Possible(c, db, PipelineRestart.Helpful(db).(lines := ["a"]))
    ensures Possible(c, db, PipelineRestart.Helpful(db))
  {
    PipelineRestart.DistinctDraws(db);
    assert PipelineRestart.Helpful(db).(lines := ["a"]).ids == PipelineRestart.Helpful(db).ids;
    hide PipelineRestart.Helpful;
  }

  lemma DyingWorldSplits()
    ensures var env := PipelineRestart.DyingWorld();
            && Possible(Process, Created(true), env) && env.extracted.Some?
            && Splitting.Texts(env.client).Some? && |Splitting.Texts(env.client).value| == 1
  {
    PipelineRestart.DyingWorldIsPossible();
    PossibleWithReview(PipelineRestart.DyingWorld());
    hide Possible, ApplyAll, SplitPart, Splitting.Texts, PipelineRestart.FailedRows, Left;
  }

  /** One clause, whose agent does not submit, approved and reported on. */
  lemma AReviewedLife() returns (dbs: seq<Db>, steps: seq<Step>)
    ensures Life(true, dbs, steps) && |steps| == 3 && |dbs[1].clauses| == 1
    ensures dbs[1].status == ReviewPending && dbs[3].status == Done
  {
    var env, helpful := PipelineRestart.DyingWorld(), PipelineRestart.Helpful(Created(true));
    var session := helpful.(lines := ["a"]);
    assert helpful.report.Some? && helpful.fileWritten && session.lines == ["a"];
    DyingWorldSplits();
    PipelineRestart.ApprovalsDecide(["a"], 0);
    HelpfulIsFree(Command.Review, Created(true));
    HelpfulIsFree(Resume, Created(true));
    hide PipelineRestart.DyingWorld, PipelineRestart.Helpful, Reviewing.Readings;
    hide Possible, Life, ApplyAll, Splitting.Texts;
    dbs, steps := ReviewedLife(env, session, helpful);
  }
}
