/** What the report model is asked: whichever command gets there, and whatever happened to
    the contract before, the request is made from the rows stored at that moment. */
module PipelineReport {
  import opened Domain
  import opened Analyses
  import opened PipelineSpec
  import opened PipelineSafety
  import Newest
  import Report

  // ------------------------------------------------------- when it is asked

  /** Every request in the list is the brief of the rows it finds. */
  ghost predicate AsksRightly(db: Db, env: Env, es: seq<Effect>)
    decreases |es|
  {
    es == [] ||
    (&& (es[0].AskSummary? ==> es[0].brief == BriefFor(db, env))
     && AsksRightly(Apply(db, es[0]), env, es[1..]))
  }

  lemma {:induction false} AskedAt(db: Db, env: Env, es: seq<Effect>, k: nat)
    requires AsksRightly(db, env, es) && k < |es| && es[k].AskSummary?
    ensures es[k].brief == BriefFor(ApplyAll(db, es[..k]), env)
    decreases k
  {
    hide BriefFor;
    if k > 0 {
      AskedAt(Apply(db, es[0]), env, es[1..], k - 1);
      assert es[..k][0] == es[0] && es[..k][1..] == es[1..][..k - 1];
    }
  }

  lemma {:induction false} AsksAppend(db: Db, env: Env, a: seq<Effect>, b: seq<Effect>)
    requires AsksRightly(db, env, a) && AsksRightly(ApplyAll(db, a), env, b)
    ensures AsksRightly(db, env, a + b)
    decreases |a|
  {
    hide BriefFor;
    if a == [] {
      assert a + b == b;
    } else {
      assert (a + b)[1..] == a[1..] + b;
      AsksAppend(Apply(db, a[0]), env, a[1..], b);
    }
  }

  ghost predicate NeverAsks(es: seq<Effect>) { forall i :: 0 <= i < |es| ==> !es[i].AskSummary? }

  lemma {:induction false} NothingAsked(db: Db, env: Env, es: seq<Effect>)
    requires NeverAsks(es)
    ensures AsksRightly(db, env, es)
    decreases |es|
  {
    hide BriefFor;
    if es != [] {
      NothingAsked(Apply(db, es[0]), env, es[1..]);
    }
  }

  lemma AsksThen(db: Db, env: Env, a: Stage, b: Db -> Stage)
    requires AsksRightly(db, env, a.effects)
    requires a.ok ==> AsksRightly(ApplyAll(db, a.effects), env, b(ApplyAll(db, a.effects)).effects)
    ensures AsksRightly(db, env, Then(db, a, b).effects)
  {
    if a.ok {
      AsksAppend(db, env, a.effects, b(ApplyAll(db, a.effects)).effects);
    }
  }

  /** A change of status does not show in the request. */
  lemma SameBrief(db: Db, env: Env, status: ContractStatus)
    ensures BriefFor(db.(status := status), env) == BriefFor(db, env)
  {
  }

  lemma AsksCons(db: Db, env: Env, e: Effect, es: seq<Effect>)
    requires (e.AskSummary? ==> e.brief == BriefFor(db, env)) && AsksRightly(Apply(db, e), env, es)
    ensures AsksRightly(db, env, [e] + es)
  {
    hide BriefFor;
    assert ([e] + es)[1..] == es;
  }

  lemma SummarizeAsks(db: Db, env: Env)
    ensures AsksRightly(db, env, SummarizeStage(db, env).effects)
  {
    NothingAsked(db, env, []);
    if db.status == ReviewComplete {
      var begin, ask, saved := SetStatus(Summarizing), AskSummary(BriefFor(db, env)), ReportSaved(env);
      var d := Apply(db, begin);
      SameBrief(db, env, Summarizing);
      NothingAsked(d, env, saved);
      hide BriefFor, AsksRightly;
      AsksCons(d, env, ask, saved);
      AsksCons(db, env, begin, [ask] + saved);
      assert SummarizeStage(db, env).effects == [begin] + ([ask] + saved);
    }
  }

  lemma CompleteAsks(db: Db, env: Env)
    ensures AsksRightly(db, env, CompleteStage(db, env).effects)
  {
    hide BriefFor, SummarizeStage;
    var done := SetStatus(ReviewComplete);
    NothingAsked(db, env, [done]);
    SummarizeAsks(ApplyAll(db, [done]), env);
    AsksThen(db, env, Stage([done], true), d => SummarizeStage(d, env));
  }

  lemma PostAsks(db: Db, env: Env, requiresReview: bool)
    ensures AsksRightly(db, env, PostStage(db, env, requiresReview).effects)
  {
    CompleteAsks(db, env);
    NothingAsked(db, env, []);
    NothingAsked(db, env, [SetStatus(ReviewPending)]);
    hide AsksRightly, CompleteStage;
  }

  lemma ProcessAsks(db: Db, env: Env, requiresReview: bool)
    ensures AsksRightly(db, env, ProcessStage(db, env, requiresReview).effects)
  {
    var split, next := SplitPart(db, env), d => AnalyzeStage(d, env);
    var analyzed := Then(db, split, next);
    SplitNeverAsks(db, env);
    AnalyzeNeverAsks(ApplyAll(db, split.effects), env);
    assert NeverAsks(analyzed.effects);
    NothingAsked(db, env, analyzed.effects);
    hide AsksRightly, NeverAsks, SplitPart, AnalyzeStage, PostStage, ApplyAll;
    PostAsks(ApplyAll(db, analyzed.effects), env, requiresReview);
    AsksThen(db, env, analyzed, d => PostStage(d, env, requiresReview));
  }

  lemma SplitNeverAsks(db: Db, env: Env)
    ensures NeverAsks(ExtractStages(env).effects) && NeverAsks(SplitStage(db, env).effects)
    ensures NeverAsks(SplitPart(db, env).effects)
  {
    hide ApplyAll;
  }

  lemma AnalyzeNeverAsks(db: Db, env: Env)
    ensures NeverAsks(AnalyzeStage(db, env).effects)
  {
  }

  /** Whatever the command, it asks with the rows it finds. */
  lemma CommandAsks(c: Command, db: Db, env: Env)
    ensures AsksRightly(db, env, StageOf(c, db, env).effects)
  {
    match c
    case Process => ProcessAsks(db, env, db.requiresReview);
    case Resume =>
      CompleteAsks(db, env);
      hide CompleteStage, BriefFor;
    case Summarize => SummarizeAsks(db, env);
    case _ =>
      SplitNeverAsks(db, env);
      AnalyzeNeverAsks(db, env);
      NothingAsked(db, env, StageOf(c, db, env).effects);
  }

  // --------------------------------------------------------- what it says

  /** The entry of a clause: its number, what was decided about it, and its newest
      analysis. */
  ghost predicate IsEntry(db: Db, env: Env, c: Clause, input: Report.ClauseInput) {
    && input.sequenceNumber == c.sequenceNumber
    && (forall r :: r in db.reviews && r.clauseId == c.id ==>
          input.decision == r.decision && input.annotation == r.annotation)
    && ((forall r :: r in db.reviews ==> r.clauseId != c.id) ==> input.decision == "" && input.annotation == "")
    && (forall i :: 0 <= i < |db.analyses| && db.analyses[i].clauseId == c.id
                    && (forall j :: i < j < |db.analyses| ==> db.analyses[j].clauseId != c.id) ==>
          Report.QuotesAnalysis(env.count, env.clauseTokenBudget, db.analyses[i], input))
  }

  /** One entry for each clause, in order, and the counts of these entries. */
  ghost predicate IsReport(db: Db, env: Env, brief: Report.Brief) {
    && |brief.inputs| == |db.clauses|
    && (forall k :: 0 <= k < |db.clauses| ==> IsEntry(db, env, db.clauses[k], brief.inputs[k]))
    && Report.CountsEntries(brief)
  }

  lemma EntryOf(db: Db, env: Env, c: Clause)
    requires ReviewsOk(db.reviews)
    ensures IsEntry(db, env, c, Report.InputOf(SourcesOf(db, env), c))
  {
    var src := SourcesOf(db, env);
    Report.InputQuotes(src, c);
    forall r | r in db.reviews && r.clauseId == c.id
      ensures Report.ReviewOf(src, c) == r
    {
      LastReviewsHold(db.reviews, r);
    }
    if forall r :: r in db.reviews ==> r.clauseId != c.id {
      NoReview(db, env, c);
    }
    forall i | 0 <= i < |db.analyses| && db.analyses[i].clauseId == c.id
               && (forall j :: i < j < |db.analyses| ==> db.analyses[j].clauseId != c.id)
      ensures Report.AnalysisOf(src, c) == db.analyses[i]
    {
      assert Newest.IsNewest(db.analyses, ClauseOf, i);
      Newest.HoldsTheNewest(db.analyses, ClauseOf, i);
    }
    hide Report.InputOf, Report.QuotesAnalysis, Report.AnalysisOf, Report.ReviewOf;
  }

  lemma NoReview(db: Db, env: Env, c: Clause)
    requires forall r :: r in db.reviews ==> r.clauseId != c.id
    ensures Report.ReviewOf(SourcesOf(db, env), c) == Report.NO_REVIEW
  {
    if c.id in LastReviews(db.reviews) {
      var i := Newest.HoldsARow(db.reviews, ReviewKey, c.id);
      assert false;
    }
  }

  /** Whatever order the clauses are read in, the entries are in that of their numbers. */
  lemma EntriesAscend(db: Db, env: Env, i: nat, j: nat)
    requires i <= j < |db.clauses|
    ensures |BriefFor(db, env).inputs| == |db.clauses|
    ensures BriefFor(db, env).inputs[i].sequenceNumber <= BriefFor(db, env).inputs[j].sequenceNumber
  {
    Report.SortSorts(db.clauses);
    assert |multiset(Report.SortBySequence(db.clauses))| == |multiset(db.clauses)|;
    hide Report.SortBySequence;
  }

  /** The brief of a consistent contract is such a report. */
  lemma BriefIsReport(db: Db, env: Env)
    requires Numbered(db.clauses) && ReviewsOk(db.reviews)
    ensures IsReport(db, env, BriefFor(db, env))
  {
    Report.SortKeepsAscending(db.clauses);
    Report.CountsAreOfEntries(SourcesOf(db, env), db.clauses);
    forall k | 0 <= k < |db.clauses|
      ensures IsEntry(db, env, db.clauses[k], BriefFor(db, env).inputs[k])
    {
      EntryOf(db, env, db.clauses[k]);
    }
    hide IsEntry, Report.CountsEntries, Report.InputOf, ReviewsOk, SourcesOf;
  }
}
