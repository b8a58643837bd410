/** The rows of one contract behind the store's methods, and the pipeline stages as the
    program runs them: reading rows, writing them one call at a time. Each stage is
    proved to leave exactly the effects PipelineSpec lists for it, in that order. */
module Pipeline {
  import opened Wrappers
  import opened Domain
  import opened Analyses
  import opened PipelineSpec
  import Fanout
  import FanoutResults
  import Newest
  import PipelineOutcomes
  import PipelineSafety
  import Reviewing
  import Report
  import Splitting

  class ContractStore {
    const requiresReview: bool
    var status: ContractStatus
    var text: Option<string>
    var clauses: seq<Clause>
    var analyses: Table
    var reviews: seq<Review>
    var summary: Option<string>

    /** What has happened to this contract so far. */
    ghost var log: seq<Effect>

    ghost function Rows(): Db
      reads this
    {
      Db(status, requiresReview, text, clauses, analyses, reviews, summary)
    }

    constructor (requiresReview: bool)
      ensures Rows() == Created(requiresReview) && log == []
    {
      this.requiresReview := requiresReview;
      status, text, summary := Uploaded, None, None;
      clauses, analyses, reviews := [], [], [];
      log := [];
    }

    method UpdateContractStatus(status: ContractStatus)
      modifies this
      ensures Rows() == Apply(old(Rows()), SetStatus(status)) && log == old(log) + [SetStatus(status)]
    {
      this.status := status;
      log := log + [SetStatus(status)];
    }

    method UpdateContractText(text: string)
      modifies this
      ensures Rows() == Apply(old(Rows()), SetText(text)) && log == old(log) + [SetText(text)]
    {
      this.text := Some(text);
      log := log + [SetText(text)];
    }

    method SaveClauses(clauses: seq<Clause>)
      modifies this
      ensures Rows() == Apply(old(Rows()), Effect.SaveClauses(clauses))
      ensures log == old(log) + [Effect.SaveClauses(clauses)]
    {
      this.clauses := this.clauses + clauses;
      log := log + [Effect.SaveClauses(clauses)];
    }

    method SaveAnalysis(row: ClauseAnalysis)
      modifies this
      ensures Rows() == Apply(old(Rows()), Effect.SaveAnalysis(row))
      ensures log == old(log) + [Effect.SaveAnalysis(row)]
    {
      analyses := analyses + [row];
      log := log + [Effect.SaveAnalysis(row)];
    }

    method SaveReview(review: Review)
      modifies this
      ensures Rows() == Apply(old(Rows()), Effect.SaveReview(review))
      ensures log == old(log) + [Effect.SaveReview(review)]
    {
      reviews := reviews + [review];
      log := log + [Effect.SaveReview(review)];
    }

    method SaveSummary(content: string)
      modifies this
      ensures Rows() == Apply(old(Rows()), Effect.SaveSummary(content))
      ensures log == old(log) + [Effect.SaveSummary(content)]
    {
      summary := Some(content);
      log := log + [Effect.SaveSummary(content)];
    }

    /** Asking the report model changes no row. */
    ghost method NoteRequest(brief: Report.Brief)
      modifies this`log
      ensures log == old(log) + [AskSummary(brief)]
    {
      log := log + [AskSummary(brief)];
    }
  }

  // ---------------------------------------------------------------- extraction

  method RunExtractStages(s: ContractStore, env: Env) returns (ok: bool)
    modifies s
    ensures s.Rows() == ApplyAll(old(s.Rows()), ExtractStages(env).effects)
    ensures s.log == old(s.log) + ExtractStages(env).effects && ok == ExtractStages(env).ok
  {
    ghost var db := s.Rows();
    s.UpdateContractStatus(Extracting);
    PipelineSafety.Single(db, SetStatus(Extracting));
    match env.extracted
    case None => ok := false;
    case Some(text) =>
      PipelineSafety.Pair(s.Rows(), SetText(text), SetStatus(Extracted));
      PipelineSafety.Cons(db, SetStatus(Extracting), [SetText(text), SetStatus(Extracted)]);
      assert [SetStatus(Extracting)] + [SetText(text), SetStatus(Extracted)] == ExtractStages(env).effects;
      s.UpdateContractText(text);
      s.UpdateContractStatus(Extracted);
      ok := true;
  }

  method RunExtractContract(s: ContractStore, env: Env) returns (ok: bool)
    modifies s
    ensures s.Rows() == ApplyAll(old(s.Rows()), ExtractContractStage(old(s.Rows()), env).effects)
    ensures s.log == old(s.log) + ExtractContractStage(old(s.Rows()), env).effects
    ensures ok == ExtractContractStage(old(s.Rows()), env).ok
  {
    if StatusRank(s.status) >= StatusRank(Extracted) {
      return true;
    }
    ok := RunExtractStages(s, env);
  }

  // ------------------------------------------------------------------ splitting

  method NumberClauses(texts: seq<string>, ids: nat -> string) returns (clauses: seq<Clause>)
    ensures clauses == NumberedClauses(texts, ids)
  {
    clauses := [];
    for i := 0 to |texts|
      invariant |clauses| == i && forall k :: 0 <= k < i ==> clauses[k] == NumberedClauses(texts, ids)[k]
    {
      clauses := clauses + [Clause(ids(i), i + 1, texts[i])];
    }
  }

  lemma SplitInSteps(db: Db, env: Env, texts: seq<string>)
    requires db.status == Extracted && Splitting.Texts(env.client) == Some(texts)
    ensures var begin, save, end := SetStatus(AnalyzingClauses), SaveClauses(NumberedClauses(texts, env.ids)),
                                    SetStatus(ClausesExtracted);
            && SplitStage(db, env) == Stage([begin] + [save] + [end], true)
            && ApplyAll(db, SplitStage(db, env).effects) == Apply(Apply(Apply(db, begin), save), end)
  {
    var begin, save, end := SetStatus(AnalyzingClauses), SaveClauses(NumberedClauses(texts, env.ids)),
                            SetStatus(ClausesExtracted);
    PipelineSafety.Pair(Apply(db, begin), save, end);
    PipelineSafety.Cons(db, begin, [save, end]);
    assert [begin] + [save, end] == [begin] + [save] + [end];
  }

  lemma SplitFails(db: Db, env: Env)
    requires db.status == Extracted && Splitting.Texts(env.client) == None
    ensures SplitStage(db, env) == Stage([SetStatus(AnalyzingClauses)], false)
    ensures ApplyAll(db, SplitStage(db, env).effects) == Apply(db, SetStatus(AnalyzingClauses))
  {
    PipelineSafety.Single(db, SetStatus(AnalyzingClauses));
  }

  method ExtractClauses(s: ContractStore, env: Env) returns (ok: bool)
    requires env.client.maxRetries > 0 ==> env.client.base > 0
    modifies s
    ensures s.Rows() == ApplyAll(old(s.Rows()), SplitStage(old(s.Rows()), env).effects)
    ensures s.log == old(s.log) + SplitStage(old(s.Rows()), env).effects
    ensures ok == SplitStage(old(s.Rows()), env).ok
  {
    if s.status == ClausesExtracted { return true; }
    if s.status != Extracted { return false; }
    ok := SplitNow(s, env);
  }

  method SplitNow(s: ContractStore, env: Env) returns (ok: bool)
    requires s.status == Extracted && (env.client.maxRetries > 0 ==> env.client.base > 0)
    modifies s
    ensures s.Rows() == ApplyAll(old(s.Rows()), SplitStage(old(s.Rows()), env).effects)
    ensures s.log == old(s.log) + SplitStage(old(s.Rows()), env).effects
    ensures ok == SplitStage(old(s.Rows()), env).ok
  {
    hide SplitStage, ApplyAll, Splitting.Texts, NumberedClauses;
    ghost var db := s.Rows();
    s.UpdateContractStatus(AnalyzingClauses);
    var texts := AskForClauses(env.client);
    if texts.None? {
      SplitFails(db, env);
      return false;
    }
    SplitInSteps(db, env, texts.value);
    StoreClauses(s, texts.value, env.ids);
    return true;
  }

  method StoreClauses(s: ContractStore, texts: seq<string>, ids: nat -> string)
    modifies s
    ensures var save, end := SaveClauses(NumberedClauses(texts, ids)), SetStatus(ClausesExtracted);
            s.Rows() == Apply(Apply(old(s.Rows()), save), end) && s.log == old(s.log) + [save] + [end]
  {
    var clauses := NumberClauses(texts, ids);
    s.SaveClauses(clauses);
    s.UpdateContractStatus(ClausesExtracted);
  }

  method AskForClauses(client: Splitting.Client) returns (texts: Option<seq<string>>)
    requires client.maxRetries > 0 ==> client.base > 0
    ensures texts == Splitting.Texts(client)
  {
    var split, _, _, _ := Splitting.ExtractClausesFromLLM(client);
    texts := if split.Clauses? then Some(split.texts) else None;
  }

  // ------------------------------------------------------------------- analysis

  lemma SaveOneMore(db: Db, rows: Table, row: ClauseAnalysis)
    ensures SaveRows(rows + [row]) == SaveRows(rows) + [SaveAnalysis(row)]
    ensures ApplyAll(db, SaveRows(rows + [row])) == Apply(ApplyAll(db, SaveRows(rows)), SaveAnalysis(row))
  {
    assert SaveRows(rows + [row]) == SaveRows(rows) + [SaveAnalysis(row)];
    PipelineSafety.Append(db, SaveRows(rows), [SaveAnalysis(row)]);
    PipelineSafety.Single(ApplyAll(db, SaveRows(rows)), SaveAnalysis(row));
  }

  lemma AnalyzeInSteps(db: Db, env: Env)
    requires db.status == ClausesExtracted || db.status == Analyzing
    ensures var begin, end, stage := SetStatus(Analyzing), SetStatus(Analyzed), AnalyzeStage(db, env);
            && stage.ok && stage.effects == [begin] + SaveRows(env.rows) + [end]
            && ApplyAll(db, stage.effects) == Apply(ApplyAll(Apply(db, begin), SaveRows(env.rows)), end)
  {
    var begin, end, saves := SetStatus(Analyzing), SetStatus(Analyzed), SaveRows(env.rows);
    PipelineSafety.Cons(db, begin, saves);
    PipelineSafety.Append(db, [begin] + saves, [end]);
    PipelineSafety.Single(ApplyAll(db, [begin] + saves), end);
  }

  /** The store is where the rows in `saved` take it from `db`. */
  ghost predicate HasRows(s: ContractStore, db: Db, log: seq<Effect>, saved: Table)
    reads s
  {
    s.Rows() == ApplyAll(db, SaveRows(saved)) && s.log == log + SaveRows(saved)
  }

  /** Saves the row an event adds, if it adds one. */
  method SaveNew(s: ContractStore, before: Table, after: Table, ghost db: Db, ghost log: seq<Effect>)
    requires HasRows(s, db, log, before)
    requires after == before || exists row :: after == before + [row]
    modifies s
    ensures HasRows(s, db, log, after)
  {
    if |after| > |before| {
      var row := after[|before|];
      assert after == before + [row];
      SaveOneMore(db, before, row);
      s.SaveAnalysis(row);
    }
  }

  /** One interleaving of the agents, critical section by critical section: the rows
      reach the store in the order in which the agents save them. */
  method RunAgents(s: ContractStore, cfg: Fanout.Config, es: seq<Fanout.Event>)
    requires Fanout.Legal(cfg, es)
    modifies s
    ensures HasRows(s, old(s.Rows()), old(s.log), Fanout.Exec(cfg, es).rows)
  {
    ghost var db, log := s.Rows(), s.log;
    var state := Fanout.Initial(cfg);
    assert HasRows(s, db, log, []);
    Fanout.LegalPrefix(cfg, es, 0);
    hide HasRows;
    for i := 0 to |es|
      invariant Fanout.Legal(cfg, es[..i]) && state == Fanout.Exec(cfg, es[..i])
      invariant HasRows(s, db, log, state.rows)
    {
      Fanout.LegalPrefix(cfg, es, i + 1);
      assert es[..i + 1][..i] == es[..i];
      FanoutResults.SaveStep(cfg, state, es[i]);
      var next := Fanout.Next(cfg, state, es[i]);
      SaveNew(s, state.rows, next.rows, db, log);
      state := next;
    }
    assert es[..|es|] == es;
  }

  /** The clauses that are left, through one complete interleaving of their agents. */
  method FanOut(s: ContractStore, cfg: Fanout.Config, es: seq<Fanout.Event>)
    requires cfg.ids == FanoutResults.Ids(Left(s.Rows()))
    requires Fanout.Legal(cfg, es) && FanoutResults.Complete(Fanout.Exec(cfg, es))
    modifies s
    ensures var rows := Fanout.Exec(cfg, es).rows;
            && s.Rows() == Apply(ApplyAll(Apply(old(s.Rows()), SetStatus(Analyzing)), SaveRows(rows)), SetStatus(Analyzed))
            && s.log == old(s.log) + ([SetStatus(Analyzing)] + SaveRows(rows) + [SetStatus(Analyzed)])
  {
    hide Fanout.Legal, Fanout.Exec, FanoutResults.Complete, NeedingAnalysis, DoneIds, ApplyAll, SaveRows;
    s.UpdateContractStatus(Analyzing);
    var toAnalyze := ClausesNeedingAnalysis(s.clauses, s.analyses);
    assert cfg.ids == FanoutResults.Ids(toAnalyze);
    RunAgents(s, cfg, es);
    s.UpdateContractStatus(Analyzed);
  }

  /** The rows of `env` are those of one complete interleaving over what is left. */
  ghost predicate ComesFrom(env: Env, db: Db, cfg: Fanout.Config, es: seq<Fanout.Event>) {
    && cfg.ids == FanoutResults.Ids(Left(db))
    && Fanout.Legal(cfg, es) && FanoutResults.Complete(Fanout.Exec(cfg, es))
    && env.rows == Fanout.Exec(cfg, es).rows
  }

  method AnalyzeClauses(s: ContractStore, env: Env, cfg: Fanout.Config, es: seq<Fanout.Event>) returns (ok: bool)
    requires ComesFrom(env, s.Rows(), cfg, es)
    modifies s
    ensures s.Rows() == ApplyAll(old(s.Rows()), AnalyzeStage(old(s.Rows()), env).effects)
    ensures s.log == old(s.log) + AnalyzeStage(old(s.Rows()), env).effects
    ensures ok == AnalyzeStage(old(s.Rows()), env).ok
  {
    if s.status == Analyzed { return true; }
    if s.status != ClausesExtracted && s.status != Analyzing { return false; }
    AnalyzeInSteps(s.Rows(), env);
    FanOut(s, cfg, es);
    return true;
  }

  // --------------------------------------------------------------------- review

  lemma ReviewOneMore(db: Db, saved: seq<Review>, r: Review)
    ensures SaveReviews(saved + [r]) == SaveReviews(saved) + [SaveReview(r)]
    ensures ApplyAll(db, SaveReviews(saved + [r])) == Apply(ApplyAll(db, SaveReviews(saved)), SaveReview(r))
  {
    assert SaveReviews(saved + [r]) == SaveReviews(saved) + [SaveReview(r)];
    PipelineSafety.Append(db, SaveReviews(saved), [SaveReview(r)]);
    PipelineSafety.Single(ApplyAll(db, SaveReviews(saved)), SaveReview(r));
  }

  /** The set of clauses that have a review. */
  method ReviewedSet(reviews: seq<Review>) returns (reviewed: set<string>)
    ensures reviewed == ReviewedIds(reviews)
  {
    reviewed := {};
    for i := 0 to |reviews|
      invariant reviewed == ReviewedIds(reviews[..i])
    {
      assert reviews[..i + 1] == reviews[..i] + [reviews[i]];
      PipelineSafety.ReviewedIdsAppend(reviews[..i], [reviews[i]]);
      reviewed := reviewed + {reviews[i].clauseId};
    }
    assert reviews[..|reviews|] == reviews;
  }

  /** What the session still does from the clause at `i` and the line at `pos` on. */
  ghost function Onward(clauses: seq<Clause>, i: nat, reviewed: set<string>, lines: seq<string>, pos: nat): Reviewing.Session
    requires i <= |clauses| && pos <= |lines|
  {
    Reviewing.RunSession(Reviewing.Unreviewed(clauses[i..], reviewed), lines, pos)
  }

  ghost function After(saved: seq<Review>, rest: Reviewing.Session): Reviewing.Session {
    Reviewing.Session(saved + rest.saved, rest.complete)
  }

  lemma AfterBoth(saved: seq<Review>, r: Review, rest: Reviewing.Session)
    ensures After(saved, After([r], rest)) == After(saved + [r], rest)
  {
    assert saved + ([r] + rest.saved) == saved + [r] + rest.saved;
  }

  function ReviewFor(c: Clause, answer: Reviewing.Answer): Review {
    Domain.Review.Review(c.id, answer.decision, answer.annotation)
  }

  lemma OnwardNext(clauses: seq<Clause>, i: nat, reviewed: set<string>, lines: seq<string>, pos: nat)
    requires i < |clauses| && pos <= |lines|
    ensures var here, answer := Onward(clauses, i, reviewed, lines, pos), Reviewing.ReadAnswer(lines, pos);
            if clauses[i].id in reviewed then here == Onward(clauses, i + 1, reviewed, lines, pos)
            else if answer.None? then here == Reviewing.Session([], false)
            else here == After([ReviewFor(clauses[i], answer.value)],
                               Onward(clauses, i + 1, reviewed, lines, answer.value.used))
  {
    assert clauses[i..][0] == clauses[i] && clauses[i..][1..] == clauses[i + 1..];
    var todo, rest := Reviewing.Unreviewed(clauses[i..], reviewed), Reviewing.Unreviewed(clauses[i + 1..], reviewed);
    if clauses[i].id !in reviewed {
      assert todo == [clauses[i]] + rest && todo[1..] == rest;
    }
  }

  lemma OnwardEnd(clauses: seq<Clause>, reviewed: set<string>, lines: seq<string>, pos: nat)
    requires pos <= |lines|
    ensures Onward(clauses, |clauses|, reviewed, lines, pos) == Reviewing.Session([], true)
  {
  }

  /** The store is where the reviews in `saved` take it from `db`. */
  ghost predicate HasSaved(s: ContractStore, db: Db, log: seq<Effect>, saved: seq<Review>)
    reads s
  {
    s.Rows() == ApplyAll(db, SaveReviews(saved)) && s.log == log + SaveReviews(saved)
  }

  /** Asks about one clause and saves the answer, unless the input runs out. */
  method ReviewClause(s: ContractStore, c: Clause, lines: seq<string>, pos: nat,
                      ghost db: Db, ghost log: seq<Effect>, ghost saved: seq<Review>)
    returns (answer: Option<Reviewing.Answer>)
    requires pos <= |lines| && HasSaved(s, db, log, saved)
    modifies s
    ensures answer == Reviewing.ReadAnswer(lines, pos)
    ensures HasSaved(s, db, log, if answer.None? then saved else saved + [ReviewFor(c, answer.value)])
  {
    answer := Reviewing.Prompt(lines, pos);
    if answer.Some? {
      var review := ReviewFor(c, answer.value);
      ReviewOneMore(db, saved, review);
      s.SaveReview(review);
    }
  }

  /** Ends with `ok` false where the program would go on asking an exhausted input. */
  method ReviewAll(s: ContractStore, clauses: seq<Clause>, reviewed: set<string>, lines: seq<string>)
    returns (ok: bool)
    modifies s
    ensures var session := Reviewing.RunSession(Reviewing.Unreviewed(clauses, reviewed), lines, 0);
            HasSaved(s, old(s.Rows()), old(s.log), session.saved) && ok == session.complete
  {
    ghost var db, log := s.Rows(), s.log;
    var pos := 0;
    ghost var saved: seq<Review> := [];
    ghost var session := Onward(clauses, 0, reviewed, lines, 0);
    assert clauses[0..] == clauses;
    for i := 0 to |clauses|
      invariant 0 <= pos <= |lines| && HasSaved(s, db, log, saved)
      invariant session == After(saved, Onward(clauses, i, reviewed, lines, pos))
    {
      OnwardNext(clauses, i, reviewed, lines, pos);
      if clauses[i].id !in reviewed {
        var answer := ReviewClause(s, clauses[i], lines, pos, db, log, saved);
        if answer.None? {
          assert saved + [] == saved;
          return false;
        }
        var review := ReviewFor(clauses[i], answer.value);
        AfterBoth(saved, review, Onward(clauses, i + 1, reviewed, lines, answer.value.used));
        saved, pos := saved + [review], answer.value.used;
      }
    }
    OnwardEnd(clauses, reviewed, lines, pos);
    assert saved + [] == saved;
    return true;
  }

  method RunReview(s: ContractStore, env: Env) returns (ok: bool)
    modifies s
    ensures s.Rows() == ApplyAll(old(s.Rows()), ReviewStage(old(s.Rows()), env).effects)
    ensures s.log == old(s.log) + ReviewStage(old(s.Rows()), env).effects
    ensures ok == ReviewStage(old(s.Rows()), env).ok
    ensures old(s.status) == ReviewPending ==>
              && s.Rows() == old(s.Rows()).(reviews := s.reviews) && old(s.reviews) <= s.reviews
              && Reviewing.IsRecord(Todo(old(s.Rows())), s.reviews[|old(s.reviews)|..],
                                    Reviewing.Readings(env.lines, 0, Reviewing.Outside))
  {
    if s.status == ReviewPending {
      PipelineOutcomes.SessionRecords(s.Rows(), env);
    }
    if s.status != ReviewPending { return false; }
    var reviewed := ReviewedSet(s.reviews);
    ok := ReviewAll(s, s.clauses, reviewed, env.lines);
  }

  method CountMissing(clauses: seq<Clause>, reviews: seq<Review>) returns (missing: nat)
    ensures missing == |Reviewing.Unreviewed(clauses, ReviewedIds(reviews))|
  {
    var reviewed := ReviewedSet(reviews);
    missing := 0;
    for i := 0 to |clauses|
      invariant missing + |Reviewing.Unreviewed(clauses[i..], reviewed)| == |Reviewing.Unreviewed(clauses, reviewed)|
    {
      assert clauses[i..][0] == clauses[i] && clauses[i..][1..] == clauses[i + 1..];
      if clauses[i].id !in reviewed {
        missing := missing + 1;
      }
    }
  }

  method RunResume(s: ContractStore, env: Env) returns (ok: bool)
    modifies s
    ensures s.Rows() == ApplyAll(old(s.Rows()), ResumeStage(old(s.Rows()), env).effects)
    ensures s.log == old(s.log) + ResumeStage(old(s.Rows()), env).effects
    ensures ok == ResumeStage(old(s.Rows()), env).ok
  {
    if s.status != ReviewPending { return false; }
    var missing := CountMissing(s.clauses, s.reviews);
    if missing > 0 { return false; }
    ok := CompleteReview(s, env);
  }

  lemma CompleteInSteps(db: Db, env: Env)
    ensures var done := SetStatus(ReviewComplete);
            var rest := SummarizeStage(Apply(db, done), env);
            && CompleteStage(db, env) == Stage([done] + rest.effects, rest.ok)
            && ApplyAll(db, CompleteStage(db, env).effects) == ApplyAll(Apply(db, done), rest.effects)
  {
    PipelineSafety.Single(db, SetStatus(ReviewComplete));
    PipelineSafety.Append(db, [SetStatus(ReviewComplete)], SummarizeStage(Apply(db, SetStatus(ReviewComplete)), env).effects);
  }

  method CompleteReview(s: ContractStore, env: Env) returns (ok: bool)
    modifies s
    ensures var stage := CompleteStage(old(s.Rows()), env);
            && s.Rows() == ApplyAll(old(s.Rows()), stage.effects)
            && s.log == old(s.log) + stage.effects && ok == stage.ok
  {
    hide *;
    CompleteInSteps(s.Rows(), env);
    s.UpdateContractStatus(ReviewComplete);
    ok := RunSummarize(s, env);
  }

  // --------------------------------------------------------------------- report

  method PrepareBrief(s: ContractStore, env: Env) returns (brief: Report.Brief)
    ensures brief == BriefFor(s.Rows(), env)
  {
    var clauses := Report.SortBySequence(s.clauses);
    var analysisByClause := Newest.BuildByKey(s.analyses, ClauseOf);
    var reviewByClause := Newest.BuildByKey(s.reviews, ReviewKey);
    brief := Report.BuildInputs(
      Report.Sources(analysisByClause, reviewByClause, env.count, env.clauseTokenBudget), clauses);
  }

  lemma SummarizeInSteps(db: Db, env: Env)
    requires db.status == ReviewComplete
    ensures var begin, ask := SetStatus(Summarizing), AskSummary(BriefFor(db, env));
            && SummarizeStage(db, env).effects == [begin] + [ask] + PipelineSafety.ReportSaved(env)
            && ApplyAll(db, SummarizeStage(db, env).effects) == ApplyAll(Apply(db, begin), PipelineSafety.ReportSaved(env))
            && SummarizeStage(db, env).ok == (env.report.Some? && env.fileWritten)
  {
    var begin, ask := SetStatus(Summarizing), AskSummary(BriefFor(db, env));
    PipelineSafety.Pair(db, begin, ask);
    assert [begin] + [ask] == [begin, ask];
    PipelineSafety.Append(db, [begin, ask], PipelineSafety.ReportSaved(env));
  }

  method RunSummarize(s: ContractStore, env: Env) returns (ok: bool)
    modifies s
    ensures s.Rows() == ApplyAll(old(s.Rows()), SummarizeStage(old(s.Rows()), env).effects)
    ensures s.log == old(s.log) + SummarizeStage(old(s.Rows()), env).effects
    ensures ok == SummarizeStage(old(s.Rows()), env).ok
  {
    if s.status == Done { return s.summary.Some?; }
    if s.status != ReviewComplete { return false; }
    SummarizeInSteps(s.Rows(), env);
    s.UpdateContractStatus(Summarizing);
    var brief := PrepareBrief(s, env);
    s.NoteRequest(brief);
    ok := SaveReport(s, env);
  }

  method SaveReport(s: ContractStore, env: Env) returns (ok: bool)
    modifies s
    ensures s.Rows() == ApplyAll(old(s.Rows()), PipelineSafety.ReportSaved(env))
    ensures s.log == old(s.log) + PipelineSafety.ReportSaved(env)
    ensures ok == (env.report.Some? && env.fileWritten)
  {
    ghost var db := s.Rows();
    if env.report.None? { return false; }
    var content := env.report.value;
    PipelineSafety.Single(db, SaveSummary(content));
    PipelineSafety.Pair(db, SaveSummary(content), SetStatus(Done));
    s.SaveSummary(content);
    if !env.fileWritten { return false; }
    s.UpdateContractStatus(Done);
    return true;
  }

  // -------------------------------------------------------------------- process

  method RunPostAnalysis(s: ContractStore, env: Env, requiresReview: bool) returns (ok: bool)
    modifies s
    ensures s.Rows() == ApplyAll(old(s.Rows()), PostStage(old(s.Rows()), env, requiresReview).effects)
    ensures s.log == old(s.log) + PostStage(old(s.Rows()), env, requiresReview).effects
    ensures ok == PostStage(old(s.Rows()), env, requiresReview).ok
    ensures old(s.status) == Analyzed ==>
              if requiresReview then s.Rows() == old(s.Rows()).(status := ReviewPending) && ok
              else PipelineOutcomes.ReportLeaves(old(s.Rows()), env, s.Rows(), ok)
  {
    if s.status == Analyzed {
      PipelineOutcomes.PostOutcome(s.Rows(), env, requiresReview);
    }
    if s.status == ReviewPending { return true; }
    if s.status == ReviewComplete || s.status == Done { return true; }
    if requiresReview {
      PipelineSafety.Single(s.Rows(), SetStatus(ReviewPending));
      s.UpdateContractStatus(ReviewPending);
      return true;
    }
    ok := CompleteReview(s, env);
  }

  method RunProcess(env: Env, requiresReview: bool, cfg: Fanout.Config, es: seq<Fanout.Event>)
    returns (s: ContractStore, ok: bool)
    requires env.client.maxRetries > 0 ==> env.client.base > 0
    requires ComesFrom(env, ApplyAll(Created(requiresReview), SplitPart(Created(requiresReview), env).effects), cfg, es)
    ensures fresh(s)
    ensures var stage := ProcessStage(Created(requiresReview), env, requiresReview);
            && s.Rows() == ApplyAll(Created(requiresReview), stage.effects)
            && s.log == stage.effects && ok == stage.ok
    ensures PipelineOutcomes.ProcessLeaves(env, requiresReview, s.Rows(), ok)
  {
    ghost var after := PipelineOutcomes.ProcessOutcome(env, requiresReview);
    hide PipelineOutcomes.ProcessLeaves;
    hide Fanout.Legal, Fanout.Exec, FanoutResults.Complete, ComesFrom, ApplyAll;
    hide ExtractStages, SplitStage, AnalyzeStage, PostStage;
    s := new ContractStore(requiresReview);
    ghost var db := s.Rows();
    ok := RunExtractStages(s, env);
    if !ok { return; }
    PipelineSafety.Append(db, ExtractStages(env).effects, SplitStage(s.Rows(), env).effects);
    ok := ExtractClauses(s, env);
    ghost var split := SplitPart(db, env);
    assert s.Rows() == ApplyAll(db, split.effects) && s.log == split.effects && ok == split.ok;
    if !ok { return; }
    PipelineSafety.Append(db, split.effects, AnalyzeStage(s.Rows(), env).effects);
    ok := AnalyzeClauses(s, env, cfg, es);
    if !ok { return; }
    ghost var analyzed := s.log;
    assert s.Rows() == ApplyAll(db, analyzed);
    PipelineSafety.Append(db, analyzed, PostStage(s.Rows(), env, requiresReview).effects);
    ok := RunPostAnalysis(s, env, requiresReview);
  }
}
