/** The stages of a contract's life as lists of atomic effects: store writes in program
    order, and the point where the report model is asked. A single process works on a
    contract at a time, so what a command does is fixed by the rows it finds; a crash
    lets any prefix of its effects happen. */
module PipelineSpec {
  import opened Wrappers
  import opened Domain
  import opened Analyses
  import Newest
  import Tokens
  import Reviewing
  import Report
  import Splitting

  /** The rows of one contract. The text is `None` until the extraction has stored it. */
  datatype Db = Db(
    status: ContractStatus,
    requiresReview: bool,
    text: Option<string>,
    clauses: seq<Clause>,
    analyses: Table,
    reviews: seq<Review>,
    summary: Option<string>)

  function Created(requiresReview: bool): Db {
    Db(Uploaded, requiresReview, None, [], [], [], None)
  }

  datatype Effect =
    | SetStatus(status: ContractStatus)
    | SetText(text: string)
    | SaveClauses(clauses: seq<Clause>)
    | SaveAnalysis(row: ClauseAnalysis)
    | SaveReview(review: Review)
    | AskSummary(brief: Report.Brief)
    | SaveSummary(content: string)

  function Apply(db: Db, e: Effect): Db {
    match e
    case SetStatus(status) => db.(status := status)
    case SetText(text) => db.(text := Some(text))
    case SaveClauses(clauses) => db.(clauses := db.clauses + clauses)
    case SaveAnalysis(row) => db.(analyses := db.analyses + [row])
    case SaveReview(review) => db.(reviews := db.reviews + [review])
    case AskSummary(_) => db
    case SaveSummary(content) => db.(summary := Some(content))
  }

  function ApplyAll(db: Db, es: seq<Effect>): Db
    decreases |es|
  {
    if es == [] then db else ApplyAll(Apply(db, es[0]), es[1..])
  }

  /** What the outside world contributes to one command: the text of the PDF, the client
      asked for clauses and the ids drawn for them, the rows the fan-out saves, the
      reviewer's input, the report and whether its file could be written. */
  datatype Env = Env(
    extracted: Option<string>,
    client: Splitting.Client,
    ids: nat -> string,
    rows: Table,
    lines: seq<string>,
    report: Option<string>,
    fileWritten: bool,
    count: Tokens.Counter,
    clauseTokenBudget: int)

  function ClauseIds(clauses: seq<Clause>): set<string> {
    set i | 0 <= i < |clauses| :: clauses[i].id
  }

  /** A finished fan-out leaves exactly one row for each clause it was given. */
  ghost predicate Disposes(left: seq<Clause>, rows: Table) {
    forall id :: |RowsOf(rows, id)| == if id in ClauseIds(left) then 1 else 0
  }

  function Left(db: Db): seq<Clause> { NeedingAnalysis(db.clauses, DoneIds(db.analyses)) }

  // ------------------------------------------------------------------ stages

  /** The effects of a command and whether it succeeds. */
  datatype Stage = Stage(effects: seq<Effect>, ok: bool)

  function StatusRank(s: ContractStatus): int {
    match s
    case Uploaded => 0
    case Extracting => 1
    case Extracted => 2
    case _ => 3
  }

  function ExtractStages(env: Env): Stage {
    match env.extracted
    case None => Stage([SetStatus(Extracting)], false)
    case Some(text) => Stage([SetStatus(Extracting), SetText(text), SetStatus(Extracted)], true)
  }

  function ExtractContractStage(db: Db, env: Env): Stage {
    if StatusRank(db.status) >= StatusRank(Extracted) then Stage([], true) else ExtractStages(env)
  }

  function NumberedClauses(texts: seq<string>, ids: nat -> string): (cs: seq<Clause>)
    ensures |cs| == |texts|
    ensures forall i :: 0 <= i < |cs| ==> cs[i] == Clause(ids(i), i + 1, texts[i])
  {
    seq(|texts|, i requires 0 <= i < |texts| => Clause(ids(i), i + 1, texts[i]))
  }

  function SplitStage(db: Db, env: Env): Stage {
    if db.status == ClausesExtracted then Stage([], true)
    else if db.status != Extracted then Stage([], false)
    else
      match Splitting.Texts(env.client)
      case None => Stage([SetStatus(AnalyzingClauses)], false)
      case Some(texts) =>
        Stage([SetStatus(AnalyzingClauses), SaveClauses(NumberedClauses(texts, env.ids)), SetStatus(ClausesExtracted)], true)
  }

  function SaveRows(rows: Table): (es: seq<Effect>)
    ensures |es| == |rows|
    ensures forall i :: 0 <= i < |es| ==> es[i] == SaveAnalysis(rows[i])
  {
    seq(|rows|, i requires 0 <= i < |rows| => SaveAnalysis(rows[i]))
  }

  function AnalyzeStage(db: Db, env: Env): Stage {
    if db.status == Analyzed then Stage([], true)
    else if db.status != ClausesExtracted && db.status != Analyzing then Stage([], false)
    else Stage([SetStatus(Analyzing)] + SaveRows(env.rows) + [SetStatus(Analyzed)], true)
  }

  function ReviewedIds(reviews: seq<Review>): set<string> {
    set i | 0 <= i < |reviews| :: reviews[i].clauseId
  }

  function Todo(db: Db): seq<Clause> { Reviewing.Unreviewed(db.clauses, ReviewedIds(db.reviews)) }

  function SaveReviews(saved: seq<Review>): (es: seq<Effect>)
    ensures |es| == |saved|
    ensures forall i :: 0 <= i < |es| ==> es[i] == SaveReview(saved[i])
  {
    seq(|saved|, i requires 0 <= i < |saved| => SaveReview(saved[i]))
  }

  /** A session that runs out of input never returns; it counts as not ok. */
  function ReviewStage(db: Db, env: Env): Stage {
    if db.status != ReviewPending then Stage([], false)
    else
      var session := Reviewing.RunSession(Todo(db), env.lines, 0);
      Stage(SaveReviews(session.saved), session.complete)
  }

  function ReviewKey(r: Review): string { r.clauseId }

  function LastReviews(reviews: seq<Review>): map<string, Review> { Newest.ByKey(reviews, ReviewKey) }

  function SourcesOf(db: Db, env: Env): Report.Sources {
    Report.Sources(LastWins(db.analyses), LastReviews(db.reviews), env.count, env.clauseTokenBudget)
  }

  ghost function BriefFor(db: Db, env: Env): Report.Brief {
    Report.BriefOf(SourcesOf(db, env), Report.SortBySequence(db.clauses))
  }

  ghost function SummarizeStage(db: Db, env: Env): Stage {
    if db.status == Done then Stage([], db.summary.Some?)
    else if db.status != ReviewComplete then Stage([], false)
    else
      var asked := [SetStatus(Summarizing), AskSummary(BriefFor(db, env))];
      match env.report
      case None => Stage(asked, false)
      case Some(content) =>
        if !env.fileWritten then Stage(asked + [SaveSummary(content)], false)
        else Stage(asked + [SaveSummary(content), SetStatus(Done)], true)
  }

  /** `a`, and after its success `b` on the rows it left. */
  ghost function Then(db: Db, a: Stage, b: Db -> Stage): Stage {
    if !a.ok then a
    else
      var rest := b(ApplyAll(db, a.effects));
      Stage(a.effects + rest.effects, rest.ok)
  }

  ghost function CompleteStage(db: Db, env: Env): Stage {
    Then(db, Stage([SetStatus(ReviewComplete)], true), d => SummarizeStage(d, env))
  }

  ghost function ResumeStage(db: Db, env: Env): Stage {
    if db.status != ReviewPending || Todo(db) != [] then Stage([], false) else CompleteStage(db, env)
  }

  ghost function PostStage(db: Db, env: Env, requiresReview: bool): Stage {
    if db.status == ReviewPending then Stage([], true)
    else if db.status == ReviewComplete || db.status == Done then Stage([], true)
    else if requiresReview then Stage([SetStatus(ReviewPending)], true)
    else CompleteStage(db, env)
  }

  ghost function SplitPart(db: Db, env: Env): Stage {
    Then(db, ExtractStages(env), d => SplitStage(d, env))
  }

  /** `process` after it created the contract. */
  ghost function ProcessStage(db: Db, env: Env, requiresReview: bool): Stage {
    Then(db, Then(db, SplitPart(db, env), d => AnalyzeStage(d, env)), d => PostStage(d, env, requiresReview))
  }

  // ---------------------------------------------------------------- commands

  /** `Process` and `Extract` create their contract; the others name an existing one. */
  datatype Command =
    | Process
    | Extract
    | ExtractContract
    | ExtractClauses
    | Analyze
    | Review
    | Resume
    | Summarize

  predicate Creates(c: Command) { c.Process? || c.Extract? }

  ghost function StageOf(c: Command, db: Db, env: Env): Stage {
    match c
    case Process => ProcessStage(db, env, db.requiresReview)
    case Extract => ExtractStages(env)
    case ExtractContract => ExtractContractStage(db, env)
    case ExtractClauses => SplitStage(db, env)
    case Analyze => AnalyzeStage(db, env)
    case Review => ReviewStage(db, env)
    case Resume => ResumeStage(db, env)
    case Summarize => SummarizeStage(db, env)
  }

  /** Drawn ids are distinct, and a finished fan-out disposes of each clause it was given
      once. */
  ghost predicate Possible(c: Command, db: Db, env: Env) {
    && (forall i: nat, j: nat :: i != j ==> env.ids(i) != env.ids(j))
    && (c.Analyze? ==> Disposes(Left(db), env.rows))
    && (c.Process? ==> Disposes(Left(ApplyAll(db, SplitPart(db, env).effects)), env.rows))
  }
}
