/** What holds of a contract's rows at every moment of every life: any commands, each
    stopped after any of its effects. */
module PipelineSafety {
  import opened Domain
  import opened Analyses
  import opened PipelineSpec
  import FanoutResults
  import Newest
  import Reviewing
  import Report
  import Splitting

  /** The declared order of the statuses. */
  function Rank(s: ContractStatus): nat {
    match s
    case Uploaded => 0
    case Extracting => 1
    case Extracted => 2
    case AnalyzingClauses => 3
    case ClausesExtracted => 4
    case Analyzing => 5
    case Analyzed => 6
    case ReviewPending => 7
    case ReviewComplete => 8
    case Summarizing => 9
    case Done => 10
  }

  ghost predicate Numbered(clauses: seq<Clause>) {
    forall i :: 0 <= i < |clauses| ==> clauses[i].sequenceNumber == i + 1
  }

  ghost predicate AllAnalyzed(db: Db) {
    forall c :: c in db.clauses ==> RowsOf(db.analyses, c.id) != []
  }

  ghost predicate IsReviewed(db: Db, id: string) {
    exists r :: r in db.reviews && r.clauseId == id && r.decision in {Reviewing.APPROVED, Reviewing.REJECTED}
  }

  ghost predicate AllReviewed(db: Db) {
    forall c :: c in db.clauses ==> IsReviewed(db, c.id)
  }

  /** Reviews hold a decision, and no clause has two. */
  ghost predicate ReviewsOk(reviews: seq<Review>) {
    && (forall i :: 0 <= i < |reviews| ==> reviews[i].decision in {Reviewing.APPROVED, Reviewing.REJECTED})
    && forall i, j :: 0 <= i < j < |reviews| ==> reviews[i].clauseId != reviews[j].clauseId
  }

  ghost predicate Inv(db: Db) {
    var r := Rank(db.status);
    && (r >= Rank(Extracted) ==> db.text.Some?)
    && (r < Rank(AnalyzingClauses) ==> db.clauses == [])
    && (r >= Rank(ClausesExtracted) ==> db.clauses != [])
    && Numbered(db.clauses) && DistinctIds(db.clauses)
    && (r < Rank(Analyzing) ==> db.analyses == [])
    && DoneIsLast(db.analyses)
    && (r >= Rank(Analyzed) ==> AllAnalyzed(db))
    && (r < Rank(ReviewPending) ==> db.reviews == [])
    && ReviewsOk(db.reviews)
    && (r >= Rank(ReviewComplete) && db.requiresReview ==> AllReviewed(db))
    && (db.status == Done ==> db.summary.Some?)
  }

  /** Nothing is taken back: the status never moves backwards, the text is fixed once
      extracted, a clause list is never rewritten, rows are only added, and a finished
      contract does not change. */
  ghost predicate Grows(a: Db, b: Db) {
    && Rank(a.status) <= Rank(b.status)
    && a.requiresReview == b.requiresReview
    && (Rank(a.status) >= Rank(Extracted) ==> b.text == a.text)
    && (a.clauses != [] ==> b.clauses == a.clauses)
    && a.analyses <= b.analyses
    && a.reviews <= b.reviews
    && (a.status == Done ==> b == a)
  }

  lemma GrowsTransitive(a: Db, b: Db, c: Db)
    requires Grows(a, b) && Grows(b, c)
    ensures Grows(a, c)
  {
  }

  /** The entry of a clause carries its stored decision and its successful analysis. */
  ghost predicate Quotes(db: Db, c: Clause, input: Report.ClauseInput) {
    && (forall r :: r in db.reviews && r.clauseId == c.id ==>
          input.decision == r.decision && input.annotation == r.annotation)
    && (forall a :: a in db.analyses && a.clauseId == c.id && IsDone(a) ==>
          Report.IsRiskWord(a.riskLevel, input.riskLevel) && input.ambiguousLanguage == a.ambiguousLanguage)
  }

  ghost predicate QuotesAll(db: Db, brief: Report.Brief)
    requires |brief.inputs| == |db.clauses|
  {
    forall i :: 0 <= i < |db.clauses| ==>
      brief.inputs[i].sequenceNumber == i + 1 && Quotes(db, db.clauses[i], brief.inputs[i])
  }

  /** The report model is asked only about a contract whose required review is done,
      and about each of its clauses once, in order, with what is stored of it. */
  ghost predicate MayAsk(db: Db, e: Effect) {
    e.AskSummary? ==>
      && db.status == Summarizing
      && (db.requiresReview ==> AllReviewed(db))
      && AllAnalyzed(db)
      && |e.brief.inputs| == |db.clauses| && QuotesAll(db, e.brief)
  }

  /** What must hold for the status to become `st`. */
  ghost predicate MayEnter(db: Db, st: ContractStatus) {
    && Rank(db.status) <= Rank(st) && (db.status == Done ==> st == Done)
    && (Rank(st) >= Rank(Extracted) ==> db.text.Some?)
    && (Rank(st) >= Rank(ClausesExtracted) ==> db.clauses != [])
    && (Rank(st) >= Rank(Analyzed) ==> AllAnalyzed(db))
    && (Rank(st) >= Rank(ReviewComplete) && db.requiresReview ==> AllReviewed(db))
    && (st == Done ==> db.summary.Some?)
  }

  /** The condition under which an effect keeps the invariant. */
  ghost predicate Guard(db: Db, e: Effect) {
    match e
    case SetStatus(st) => MayEnter(db, st)
    case SetText(_) => Rank(db.status) < Rank(Extracted)
    case SaveClauses(cs) => db.status == AnalyzingClauses && db.clauses == [] && Numbered(cs) && DistinctIds(cs)
    case SaveAnalysis(row) => db.status == Analyzing && DoneIsLast(db.analyses + [row])
    case SaveReview(r) => db.status == ReviewPending && ReviewsOk(db.reviews + [r])
    case AskSummary(_) => MayAsk(db, e)
    case SaveSummary(_) => db.status == Summarizing
  }

  lemma SameRows(db: Db, d: Db)
    requires d.clauses == db.clauses && d.analyses == db.analyses && d.reviews == db.reviews
    ensures AllAnalyzed(db) <==> AllAnalyzed(d)
    ensures AllReviewed(db) <==> AllReviewed(d)
  {
    hide RowsOf;
  }

  lemma GuardedStep(db: Db, e: Effect)
    requires Inv(db) && Guard(db, e)
    ensures Inv(Apply(db, e)) && Grows(db, Apply(db, e))
  {
    hide RowsOf, AllAnalyzed, AllReviewed;
    if !e.SaveClauses? && !e.SaveAnalysis? && !e.SaveReview? {
      SameRows(db, Apply(db, e));
    } else {
      RowStep(db, e);
    }
  }

  lemma RowStep(db: Db, e: Effect)
    requires Inv(db) && Guard(db, e)
    requires e.SaveClauses? || e.SaveAnalysis? || e.SaveReview?
    ensures Inv(Apply(db, e)) && Grows(db, Apply(db, e))
  {
    hide RowsOf, AllReviewed, DoneIsLast, ReviewsOk;
  }

  /** Every effect finds its guard. */
  ghost predicate Safe(db: Db, es: seq<Effect>)
    decreases |es|
  {
    es == [] || (Guard(db, es[0]) && Safe(Apply(db, es[0]), es[1..]))
  }

  /** So the list may stop anywhere. */
  lemma {:induction false} SafePrefix(db: Db, es: seq<Effect>, k: nat)
    requires Inv(db) && Safe(db, es) && k <= |es|
    ensures var d := ApplyAll(db, es[..k]);
            Inv(d) && Grows(db, d) && (k < |es| ==> Guard(d, es[k]))
    decreases |es|
  {
    if k > 0 {
      var next := Apply(db, es[0]);
      GuardedStep(db, es[0]);
      SafePrefix(next, es[1..], k - 1);
      assert es[..k][0] == es[0] && es[..k][1..] == es[1..][..k - 1];
      GrowsTransitive(db, next, ApplyAll(next, es[1..][..k - 1]));
    }
  }

  lemma SafeInv(db: Db, es: seq<Effect>)
    requires Inv(db) && Safe(db, es)
    ensures Inv(ApplyAll(db, es))
  {
    SafePrefix(db, es, |es|);
    assert es[..|es|] == es;
  }

  // -------------------------------------------------------------- composition

  lemma {:induction false} Append(db: Db, a: seq<Effect>, b: seq<Effect>)
    ensures ApplyAll(db, a + b) == ApplyAll(ApplyAll(db, a), b)
    ensures Safe(db, a + b) <==> Safe(db, a) && Safe(ApplyAll(db, a), b)
    decreases |a|
  {
    if a == [] {
      assert a + b == b;
    } else {
      assert (a + b)[1..] == a[1..] + b;
      Append(Apply(db, a[0]), a[1..], b);
    }
  }

  lemma Single(db: Db, e: Effect)
    ensures ApplyAll(db, [e]) == Apply(db, e)
    ensures Safe(db, [e]) <==> Guard(db, e)
  {
    assert [e][1..] == [];
  }

  lemma Cons(db: Db, e: Effect, es: seq<Effect>)
    ensures ApplyAll(db, [e] + es) == ApplyAll(Apply(db, e), es)
    ensures Safe(db, [e] + es) <==> Guard(db, e) && Safe(Apply(db, e), es)
  {
    Single(db, e);
    Append(db, [e], es);
  }

  /** Two effects in a row. */
  lemma Pair(db: Db, a: Effect, b: Effect)
    ensures ApplyAll(db, [a, b]) == Apply(Apply(db, a), b)
    ensures Safe(db, [a, b]) <==> Guard(db, a) && Guard(Apply(db, a), b)
  {
    Single(Apply(db, a), b);
    Cons(db, a, [b]);
    assert [a] + [b] == [a, b];
  }

  lemma SafeThen(db: Db, a: Stage, b: Db -> Stage)
    requires Safe(db, a.effects)
    requires a.ok ==> Safe(ApplyAll(db, a.effects), b(ApplyAll(db, a.effects)).effects)
    ensures Safe(db, Then(db, a, b).effects)
  {
    if a.ok {
      Append(db, a.effects, b(ApplyAll(db, a.effects)).effects);
    }
  }

  // ------------------------------------------------------------------- stages

  lemma ExtractSafe(db: Db, env: Env)
    requires Rank(db.status) < Rank(Extracted)
    ensures Safe(db, ExtractStages(env).effects)
    ensures ExtractStages(env).ok ==> ApplyAll(db, ExtractStages(env).effects).status == Extracted
  {
    hide RowsOf;
    var d := Apply(db, SetStatus(Extracting));
    if env.extracted.None? {
      Single(db, SetStatus(Extracting));
    } else {
      var s2, s3 := SetText(env.extracted.value), SetStatus(Extracted);
      Cons(db, SetStatus(Extracting), [s2, s3]);
      Cons(d, s2, [s3]);
      Single(Apply(d, s2), s3);
      assert [SetStatus(Extracting)] + [s2, s3] == ExtractStages(env).effects;
      assert [s2] + [s3] == [s2, s3];
    }
  }

  lemma NumberedClausesOk(texts: seq<string>, ids: nat -> string)
    requires forall i: nat, j: nat :: i != j ==> ids(i) != ids(j)
    ensures Numbered(NumberedClauses(texts, ids)) && DistinctIds(NumberedClauses(texts, ids))
  {
  }

  lemma EnterClausesExtracted(db: Db)
    requires Inv(db) && db.status == AnalyzingClauses && db.clauses != []
    ensures Guard(db, SetStatus(ClausesExtracted))
  {
    hide AllAnalyzed, AllReviewed, DoneIsLast, ReviewsOk;
  }

  lemma SaveClausesSafe(db: Db, clauses: seq<Clause>)
    requires Inv(db) && db.status == AnalyzingClauses && db.clauses == []
    requires clauses != [] && Numbered(clauses) && DistinctIds(clauses)
    ensures Safe(db, [SaveClauses(clauses), SetStatus(ClausesExtracted)])
    ensures ApplyAll(db, [SaveClauses(clauses), SetStatus(ClausesExtracted)]).status == ClausesExtracted
  {
    hide ApplyAll, Safe, Inv;
    var save, done := SaveClauses(clauses), SetStatus(ClausesExtracted);
    assert db.clauses + clauses == clauses;
    GuardedStep(db, save);
    EnterClausesExtracted(Apply(db, save));
    Pair(db, save, done);
  }

  lemma SplitSafe(db: Db, env: Env)
    requires Inv(db)
    requires forall i: nat, j: nat :: i != j ==> env.ids(i) != env.ids(j)
    ensures Safe(db, SplitStage(db, env).effects)
    ensures SplitStage(db, env).ok ==> ApplyAll(db, SplitStage(db, env).effects).status == ClausesExtracted
  {
    if db.status == Extracted {
      var start := SetStatus(AnalyzingClauses);
      Single(db, start);
      GuardedStep(db, start);
      var texts := Splitting.Texts(env.client);
      if texts.Some? {
        NumberedClausesOk(texts.value, env.ids);
        SaveClausesSafe(Apply(db, start), NumberedClauses(texts.value, env.ids));
        var saves := [SaveClauses(NumberedClauses(texts.value, env.ids)), SetStatus(ClausesExtracted)];
        Cons(db, start, saves);
        assert [start] + saves == SplitStage(db, env).effects;
      }
    }
  }

  lemma {:induction false} ApplyRows(db: Db, rows: Table)
    ensures ApplyAll(db, SaveRows(rows)) == db.(analyses := db.analyses + rows)
    decreases |rows|
  {
    if rows == [] {
      assert db.analyses + rows == db.analyses;
    } else {
      var next := Apply(db, SaveAnalysis(rows[0]));
      assert next.analyses + rows[1..] == db.analyses + rows;
      assert SaveRows(rows)[1..] == SaveRows(rows[1..]);
      ApplyRows(next, rows[1..]);
    }
  }

  lemma {:induction false} RowsSafe(db: Db, rows: Table)
    requires db.status == Analyzing && DoneIsLast(db.analyses + rows)
    ensures Safe(db, SaveRows(rows))
    decreases |rows|
  {
    if rows != [] {
      var next := Apply(db, SaveAnalysis(rows[0]));
      assert next.analyses + rows[1..] == db.analyses + rows;
      assert forall i :: 0 <= i < |next.analyses| ==> next.analyses[i] == (db.analyses + rows)[i];
      RowsSafe(next, rows[1..]);
      assert SaveRows(rows)[1..] == SaveRows(rows[1..]);
    }
  }

  /** The rows of a finished fan-out never follow a success and leave no clause without
      a row. */
  lemma DisposedTable(db: Db, rows: Table)
    requires Inv(db) && Disposes(Left(db), rows)
    ensures DoneIsLast(db.analyses + rows)
    ensures forall c :: c in db.clauses ==> RowsOf(db.analyses + rows, c.id) != []
  {
    NeedingAnalysisMeans(db.clauses, db.analyses);
    forall id
      ensures |RowsOf(rows, id)| <= 1
      ensures RowsOf(rows, id) != [] ==> !AnyDone(db.analyses, id)
    {
      if id in ClauseIds(Left(db)) {
        var i :| 0 <= i < |Left(db)| && Left(db)[i].id == id;
        assert Left(db)[i] in Left(db);
      }
    }
    FanoutResults.AddedKeepsDoneLast(db.analyses, rows);
    forall c | c in db.clauses
      ensures RowsOf(db.analyses + rows, c.id) != []
    {
      RowsOfAppend(db.analyses, rows, c.id);
      if AnyDone(db.analyses, c.id) {
        var i :| 0 <= i < |db.analyses| && db.analyses[i].clauseId == c.id && IsDone(db.analyses[i]);
        FanoutResults.FilteredRow(db.analyses, c.id, i);
      } else {
        assert c in Left(db);
        assert c.id in ClauseIds(Left(db));
      }
    }
  }

  lemma EnterAnalyzed(db: Db)
    requires Inv(db) && db.status == Analyzing && AllAnalyzed(db)
    ensures Guard(db, SetStatus(Analyzed))
  {
    hide RowsOf, AllAnalyzed, AllReviewed, DoneIsLast, ReviewsOk;
  }

  /** From the first row on, the stage stays safe up to its last effect. */
  lemma SavesThenAnalyzed(db: Db, rows: Table)
    requires Inv(db) && db.status == Analyzing && DoneIsLast(db.analyses + rows)
    requires forall c :: c in db.clauses ==> RowsOf(db.analyses + rows, c.id) != []
    ensures Safe(db, SaveRows(rows) + [SetStatus(Analyzed)])
    ensures ApplyAll(db, SaveRows(rows) + [SetStatus(Analyzed)]).status == Analyzed
  {
    RowsSafe(db, rows);
    ApplyRows(db, rows);
    var after := ApplyAll(db, SaveRows(rows));
    SafeInv(db, SaveRows(rows));
    assert AllAnalyzed(after);
    hide RowsOf, AllAnalyzed, Inv;
    EnterAnalyzed(after);
    Single(after, SetStatus(Analyzed));
    Append(db, SaveRows(rows), [SetStatus(Analyzed)]);
  }

  lemma AnalyzeSafe(db: Db, env: Env)
    requires Inv(db) && Disposes(Left(db), env.rows)
    ensures Safe(db, AnalyzeStage(db, env).effects)
    ensures AnalyzeStage(db, env).ok ==> ApplyAll(db, AnalyzeStage(db, env).effects).status == Analyzed
  {
    hide RowsOf, DoneIsLast, AllAnalyzed, AllReviewed;
    if db.status == ClausesExtracted || db.status == Analyzing {
      var begin := SetStatus(Analyzing);
      DisposedTable(db, env.rows);
      GuardedStep(db, begin);
      SavesThenAnalyzed(Apply(db, begin), env.rows);
      var rest := SaveRows(env.rows) + [SetStatus(Analyzed)];
      Cons(db, begin, rest);
      assert [begin] + rest == AnalyzeStage(db, env).effects;
    }
  }

  lemma LastReviewsHold(reviews: seq<Review>, r: Review)
    requires ReviewsOk(reviews) && r in reviews
    ensures r.clauseId in LastReviews(reviews) && LastReviews(reviews)[r.clauseId] == r
  {
    var i :| 0 <= i < |reviews| && reviews[i] == r;
    assert Newest.IsNewest(reviews, ReviewKey, i);
    Newest.HoldsTheNewest(reviews, ReviewKey, i);
  }

  /** The report quotes the clauses once each, in the order of their numbers, with the
      decision and the success that are stored. */
  lemma BriefQuotes(db: Db, env: Env)
    requires Numbered(db.clauses) && ReviewsOk(db.reviews) && DoneIsLast(db.analyses)
    ensures |BriefFor(db, env).inputs| == |db.clauses| && QuotesAll(db, BriefFor(db, env))
  {
    Report.SortKeepsAscending(db.clauses);
    forall c | c in db.clauses
      ensures Quotes(db, c, Report.InputOf(SourcesOf(db, env), c))
    {
      InputQuotes(db, env, c);
    }
  }

  lemma InputQuotes(db: Db, env: Env, c: Clause)
    requires ReviewsOk(db.reviews) && DoneIsLast(db.analyses)
    ensures Quotes(db, c, Report.InputOf(SourcesOf(db, env), c))
  {
    hide Report.Truncated;
    forall r | r in db.reviews && r.clauseId == c.id
      ensures Report.ReviewOf(SourcesOf(db, env), c) == r
    {
      LastReviewsHold(db.reviews, r);
    }
    forall a | a in db.analyses && a.clauseId == c.id && IsDone(a)
      ensures Report.AnalysisOf(SourcesOf(db, env), c) == a
    {
      TheSuccessWins(db.analyses, a);
    }
  }

  lemma SameQuotes(db: Db, d: Db, brief: Report.Brief)
    requires d.clauses == db.clauses && d.analyses == db.analyses && d.reviews == db.reviews
    requires |brief.inputs| == |db.clauses| && QuotesAll(db, brief)
    ensures QuotesAll(d, brief)
  {
  }

  lemma AskAllowed(db: Db, brief: Report.Brief)
    requires Inv(db) && db.status == Summarizing && |brief.inputs| == |db.clauses| && QuotesAll(db, brief)
    ensures Guard(db, AskSummary(brief))
  {
    hide RowsOf, Quotes;
  }

  lemma EnterSummarizing(db: Db)
    requires Inv(db) && db.status == ReviewComplete
    ensures Guard(db, SetStatus(Summarizing))
  {
  }

  lemma AskSafe(db: Db, env: Env)
    requires Inv(db) && db.status == ReviewComplete
    ensures Guard(db, SetStatus(Summarizing))
    ensures Guard(Apply(db, SetStatus(Summarizing)), AskSummary(BriefFor(db, env)))
  {
    EnterSummarizing(db);
    GuardedStep(db, SetStatus(Summarizing));
    BriefQuotes(db, env);
    SameQuotes(db, Apply(db, SetStatus(Summarizing)), BriefFor(db, env));
    AskAllowed(Apply(db, SetStatus(Summarizing)), BriefFor(db, env));
  }

  /** What follows the model's answer. */
  function ReportSaved(env: Env): seq<Effect> {
    match env.report
    case None => []
    case Some(content) => if env.fileWritten then [SaveSummary(content), SetStatus(Done)] else [SaveSummary(content)]
  }

  lemma EnterDone(db: Db)
    requires Inv(db) && db.status == Summarizing && db.summary.Some?
    ensures Guard(db, SetStatus(Done))
  {
    hide AllAnalyzed, AllReviewed, ReviewsOk, DoneIsLast;
  }

  lemma ReportSafe(db: Db, env: Env)
    requires Inv(db) && db.status == Summarizing
    ensures Safe(db, ReportSaved(env))
  {
    assert Safe(db, []);
    hide ApplyAll, Safe, Inv, MayEnter;
    if env.report.Some? {
      var save := SaveSummary(env.report.value);
      Single(db, save);
      if env.fileWritten {
        GuardedStep(db, save);
        EnterDone(Apply(db, save));
        Pair(db, save, SetStatus(Done));
      }
    }
  }

  lemma SummarizeSafe(db: Db, env: Env)
    requires Inv(db)
    ensures Safe(db, SummarizeStage(db, env).effects)
  {
    hide RowsOf, AllAnalyzed, AllReviewed, QuotesAll, ReviewsOk, DoneIsLast;
    if db.status == ReviewComplete {
      var s1, ask := SetStatus(Summarizing), AskSummary(BriefFor(db, env));
      var d := Apply(db, s1);
      AskSafe(db, env);
      GuardedStep(db, s1);
      ReportSafe(d, env);
      Cons(d, ask, ReportSaved(env));
      Cons(db, s1, [ask] + ReportSaved(env));
      assert SummarizeStage(db, env).effects == [s1] + ([ask] + ReportSaved(env));
    }
  }

  lemma {:induction false} ReviewsSafe(db: Db, saved: seq<Review>)
    requires db.status == ReviewPending && ReviewsOk(db.reviews + saved)
    ensures Safe(db, SaveReviews(saved))
    ensures ApplyAll(db, SaveReviews(saved)) == db.(reviews := db.reviews + saved)
    decreases |saved|
  {
    if saved == [] {
      assert db.reviews + saved == db.reviews;
    } else {
      var next := Apply(db, SaveReview(saved[0]));
      assert next.reviews + saved[1..] == db.reviews + saved;
      assert forall i :: 0 <= i < |next.reviews| ==> next.reviews[i] == (db.reviews + saved)[i];
      ReviewsSafe(next, saved[1..]);
      assert SaveReviews(saved)[1..] == SaveReviews(saved[1..]);
    }
  }

  lemma ReviewedIdsAppend(a: seq<Review>, b: seq<Review>)
    ensures ReviewedIds(a + b) == ReviewedIds(a) + ReviewedIds(b)
  {
    var all := a + b;
    forall id | id in ReviewedIds(a) + ReviewedIds(b)
      ensures id in ReviewedIds(all)
    {
      if id in ReviewedIds(a) {
        var i :| 0 <= i < |a| && a[i].clauseId == id;
        assert all[i] == a[i];
      } else {
        var i :| 0 <= i < |b| && b[i].clauseId == id;
        assert all[|a| + i] == b[i];
      }
    }
  }

  lemma {:induction false} UnreviewedDistinct(clauses: seq<Clause>, reviewed: set<string>)
    requires DistinctIds(clauses)
    ensures DistinctIds(Reviewing.Unreviewed(clauses, reviewed))
  {
    if clauses != [] {
      UnreviewedDistinct(clauses[1..], reviewed);
      Reviewing.UnreviewedMeans(clauses[1..], reviewed);
      var rest := Reviewing.Unreviewed(clauses[1..], reviewed);
      forall i | 0 <= i < |rest|
        ensures rest[i].id != clauses[0].id
      {
        assert rest[i] in clauses[1..];
        var j :| 0 <= j < |clauses| - 1 && clauses[1..][j] == rest[i];
        assert clauses[j + 1] == rest[i];
      }
    }
  }

  lemma SessionReviewsOk(db: Db, saved: seq<Review>)
    requires Inv(db) && |saved| <= |Todo(db)|
    requires forall i :: 0 <= i < |saved| ==>
               saved[i].clauseId == Todo(db)[i].id && saved[i].decision in {Reviewing.APPROVED, Reviewing.REJECTED}
    ensures ReviewsOk(db.reviews + saved)
  {
    UnreviewedDistinct(db.clauses, ReviewedIds(db.reviews));
    Reviewing.UnreviewedMeans(db.clauses, ReviewedIds(db.reviews));
    var all := db.reviews + saved;
    forall i, j | 0 <= i < j < |all|
      ensures all[i].clauseId != all[j].clauseId
    {
      if i < |db.reviews| <= j {
        assert Todo(db)[j - |db.reviews|] in Todo(db);
        assert db.reviews[i].clauseId in ReviewedIds(db.reviews);
      }
    }
  }

  lemma ReviewSafe(db: Db, env: Env)
    requires Inv(db)
    ensures Safe(db, ReviewStage(db, env).effects)
  {
    if db.status == ReviewPending {
      var session := Reviewing.RunSession(Todo(db), env.lines, 0);
      Reviewing.SessionOutcome(Todo(db), env.lines, 0);
      SessionReviewsOk(db, session.saved);
      ReviewsSafe(db, session.saved);
    }
  }

  /** Nothing missing means a stored decision for every clause. */
  lemma NothingMissing(db: Db)
    requires Inv(db)
    ensures Todo(db) == [] <==> AllReviewed(db)
  {
    Reviewing.UnreviewedMeans(db.clauses, ReviewedIds(db.reviews));
    forall c | c in db.clauses
      ensures c.id in ReviewedIds(db.reviews) <==> IsReviewed(db, c.id)
    {
      if c.id in ReviewedIds(db.reviews) {
        var i :| 0 <= i < |db.reviews| && db.reviews[i].clauseId == c.id;
        assert db.reviews[i] in db.reviews;
      }
    }
  }

  lemma CompleteReviewSafe(db: Db, env: Env)
    requires Inv(db) && Rank(Analyzed) <= Rank(db.status) < Rank(ReviewComplete)
    requires db.requiresReview ==> AllReviewed(db)
    ensures Safe(db, CompleteStage(db, env).effects)
  {
    Single(db, SetStatus(ReviewComplete));
    GuardedStep(db, SetStatus(ReviewComplete));
    SummarizeSafe(Apply(db, SetStatus(ReviewComplete)), env);
    SafeThen(db, Stage([SetStatus(ReviewComplete)], true), d => SummarizeStage(d, env));
  }

  lemma ResumeSafe(db: Db, env: Env)
    requires Inv(db)
    ensures Safe(db, ResumeStage(db, env).effects)
  {
    NothingMissing(db);
    if db.status == ReviewPending && Todo(db) == [] {
      CompleteReviewSafe(db, env);
    }
  }

  lemma PostSafe(db: Db, env: Env)
    requires Inv(db) && db.status == Analyzed
    ensures Safe(db, PostStage(db, env, db.requiresReview).effects)
  {
    if db.requiresReview {
      Single(db, SetStatus(ReviewPending));
    } else {
      CompleteReviewSafe(db, env);
    }
  }

  lemma ProcessSafe(db: Db, env: Env)
    requires Inv(db) && db.status == Uploaded && Possible(Process, db, env)
    ensures Safe(db, ProcessStage(db, env, db.requiresReview).effects)
  {
    var extracted := ExtractStages(env);
    ExtractSafe(db, env);
    SafeInv(db, extracted.effects);
    var d1 := ApplyAll(db, extracted.effects);
    if extracted.ok {
      SplitSafe(d1, env);
      Append(db, extracted.effects, SplitStage(d1, env).effects);
    }
    SafeThen(db, extracted, d => SplitStage(d, env));
    var split := SplitPart(db, env);
    SafeInv(db, split.effects);
    var d2 := ApplyAll(db, split.effects);
    if split.ok {
      AnalyzeSafe(d2, env);
      Append(db, split.effects, AnalyzeStage(d2, env).effects);
    }
    SafeThen(db, split, d => AnalyzeStage(d, env));
    var analyzed := Then(db, split, d => AnalyzeStage(d, env));
    SafeInv(db, analyzed.effects);
    if analyzed.ok {
      RequiresReviewKept(db, analyzed.effects);
      PostSafe(ApplyAll(db, analyzed.effects), env);
    }
    SafeThen(db, analyzed, d => PostStage(d, env, db.requiresReview));
  }

  lemma {:induction false} RequiresReviewKept(db: Db, es: seq<Effect>)
    ensures ApplyAll(db, es).requiresReview == db.requiresReview
    decreases |es|
  {
    if es != [] {
      RequiresReviewKept(Apply(db, es[0]), es[1..]);
    }
  }

  /** Every command is safe wherever it is given. */
  lemma CommandSafe(c: Command, db: Db, env: Env)
    requires Inv(db) && Possible(c, db, env)
    requires Creates(c) ==> db.status == Uploaded
    ensures Safe(db, StageOf(c, db, env).effects)
  {
    match c
    case Process => ProcessSafe(db, env);
    case Extract => ExtractSafe(db, env);
    case ExtractContract =>
      if Rank(db.status) < Rank(Extracted) { ExtractSafe(db, env); }
    case ExtractClauses => SplitSafe(db, env);
    case Analyze => AnalyzeSafe(db, env);
    case Review => ReviewSafe(db, env);
    case Resume => ResumeSafe(db, env);
    case Summarize => SummarizeSafe(db, env);
  }
}
