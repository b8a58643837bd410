/** Running a clause again whose run was submitted. The finding is not kept with the run:
    it is read back from the analyses table, which other commands fill. */
module AgentReplay {
  import opened Wrappers
  import opened Domain
  import opened AgentSpec
  import opened AgentRecovery
  import opened AgentCrashes
  import opened AgentHistory
  import opened Analyses
  import opened Budgets
  import Fanout
  import FanoutAgain
  import FanoutResults

  /** A row of the analyses table with its primary key, which is drawn at random. */
  datatype StoredRow = StoredRow(key: nat, row: ClauseAnalysis)

  /** The row `GetStoredFinding` reads: the greatest key of the clause. */
  function Latest(rows: seq<StoredRow>, clauseId: string): Option<StoredRow> {
    if rows == [] then None
    else
      var rest, last := Latest(rows[..|rows| - 1], clauseId), rows[|rows| - 1];
      if last.row.clauseId == clauseId && (rest.None? || rest.value.key <= last.key) then Some(last) else rest
  }

  ghost predicate DistinctKeys(rows: seq<StoredRow>) {
    forall i, j :: 0 <= i < j < |rows| ==> rows[i].key != rows[j].key
  }

  ghost predicate IsGreatest(rows: seq<StoredRow>, clauseId: string, x: StoredRow) {
    && x in rows && x.row.clauseId == clauseId
    && forall y :: y in rows && y.row.clauseId == clauseId ==> y.key <= x.key
  }

  lemma {:induction false} LatestMeans(rows: seq<StoredRow>, clauseId: string)
    ensures var l := Latest(rows, clauseId);
            if l.None? then forall r :: r in rows ==> r.row.clauseId != clauseId
            else IsGreatest(rows, clauseId, l.value)
  {
    if rows != [] {
      LatestMeans(rows[..|rows| - 1], clauseId);
      assert rows == rows[..|rows| - 1] + [rows[|rows| - 1]];
    }
  }

  function Lookup(rows: seq<StoredRow>, clauseId: string): Result<ClauseAnalysis> {
    match Latest(rows, clauseId)
    case None => Failure("not found")
    case Some(r) => Success(r.row)
  }

  /** The same world once the analyses table holds these rows. */
  function Reading(w: World, rows: seq<StoredRow>): World { w.(storedFinding := id => Lookup(rows, id)) }

  /** What a process makes of the clause after the schedule `es`, whatever the table was
      before and with these rows in it now. */
  ghost function Again(w: World, task: Task, es: seq<Event>, id: string, budget: Option<Ledger>,
                       rows: seq<StoredRow>): Proc
    requires Legal(w, task, es)
  {
    Start(Reading(w, rows), task, Exec(w, task, es), id, budget).proc
  }

  /** Everything a reader of a finding sees, but not how the table marks its row. */
  ghost predicate SameContent(a: ClauseAnalysis, b: ClauseAnalysis) {
    && a.riskLevel == b.riskLevel && a.explanation == b.explanation
    && a.ambiguousLanguage == b.ambiguousLanguage && a.recommendations == b.recommendations
  }

  /** The process returned at once, as submitted, with that step count and that content. */
  ghost predicate Replays(p: Proc, steps: int, finding: ClauseAnalysis) {
    && p.Returned? && p.result.Success?
    && p.result.value.stop.Submitted? && p.result.value.steps == steps
    && p.result.value.finding.Some? && SameContent(p.result.value.finding.value, finding)
  }

  ghost predicate WasSubmitted(w: World, task: Task, es: seq<Event>)
    requires Legal(w, task, es)
  {
    var p := Exec(w, task, es).proc;
    w.durable && p.Returned? && p.result.Success? && p.result.value.stop.Submitted?
  }

  /** What a submitted run returned. */
  ghost function ResultOf(w: World, task: Task, es: seq<Event>): (r: RunResult)
    requires Legal(w, task, es) && WasSubmitted(w, task, es)
    ensures r.finding.Some? && r.finding.value.riskLevel.Some?
  {
    ReturnedFindingComplete(w, task, es);
    Exec(w, task, es).proc.result.value
  }

  /** A submitted run is not taken up again: the row found stands for its finding. */
  lemma ReadsBack(w: World, task: Task, es: seq<Event>, id: string, budget: Option<Ledger>, rows: seq<StoredRow>)
    requires Legal(w, task, es) && WasSubmitted(w, task, es)
    ensures Again(w, task, es, id, budget, rows) ==
            Returned(match Lookup(rows, task.clauseId)
                     case Failure(e) => Failure("get stored finding: " + e)
                     case Success(f) =>
                       Success(RunResult(Some(f), ResultOf(w, task, es).steps, Submitted, Usage(0, 0))))
  {
    AlwaysTidy(w, task, es);
    hide Lookup, IsComplete;
  }

  /** Asked for again, a submitted run fails exactly when the table has no row of its
      clause, and replays its step count and the content of its finding exactly when the
      row of the clause with the greatest key has that content. */
  lemma ReplayIff(w: World, task: Task, es: seq<Event>, id: string, budget: Option<Ledger>, rows: seq<StoredRow>)
    requires Legal(w, task, es) && WasSubmitted(w, task, es) && DistinctKeys(rows)
    ensures var r, again := ResultOf(w, task, es), Again(w, task, es, id, budget, rows);
            && again.Returned?
            && (again.result.Failure? <==> forall x :: x in rows ==> x.row.clauseId != task.clauseId)
            && (Replays(again, r.steps, r.finding.value) <==>
                  exists x :: IsGreatest(rows, task.clauseId, x) && SameContent(x.row, r.finding.value))
  {
    hide Legal, WasSubmitted, ResultOf, Again, SameContent;
    ReadsBack(w, task, es, id, budget, rows);
    LatestMeans(rows, task.clauseId);
  }

  // -------------------------------------------------------- whatever the keys

  /** A table without its keys, and a way of drawing them. */
  ghost predicate IsDraw(table: Table, rows: seq<StoredRow>) {
    |rows| == |table| && (forall i :: 0 <= i < |rows| ==> rows[i].row == table[i]) && DistinctKeys(rows)
  }

  /** The draw that gives row `top` the greatest key. */
  function TopDraw(table: Table, top: nat): seq<StoredRow> {
    seq(|table|, i requires 0 <= i < |table| => StoredRow(if i == top then |table| else i, table[i]))
  }

  lemma TopIsRead(table: Table, top: nat)
    requires top < |table|
    ensures IsDraw(table, TopDraw(table, top))
    ensures Latest(TopDraw(table, top), table[top].clauseId) == Some(StoredRow(|table|, table[top]))
    ensures forall x :: IsGreatest(TopDraw(table, top), table[top].clauseId, x) ==> x.row == table[top]
  {
    var rows := TopDraw(table, top);
    LatestMeans(rows, table[top].clauseId);
    assert rows[top] in rows;
  }

  lemma ReadsOne(table: Table, rows: seq<StoredRow>, clauseId: string)
    requires IsDraw(table, rows) && exists row :: row in table && row.clauseId == clauseId
    ensures Latest(rows, clauseId).Some? && IsGreatest(rows, clauseId, Latest(rows, clauseId).value)
    ensures Latest(rows, clauseId).value.row in table
  {
    LatestMeans(rows, clauseId);
    var k :| 0 <= k < |table| && table[k].clauseId == clauseId;
    assert rows[k] in rows;
  }

  ghost predicate AllReplay(w: World, task: Task, es: seq<Event>, id: string, budget: Option<Ledger>, table: Table)
    requires Legal(w, task, es) && WasSubmitted(w, task, es)
  {
    var r := ResultOf(w, task, es);
    forall rows :: IsDraw(table, rows) ==> Replays(Again(w, task, es, id, budget, rows), r.steps, r.finding.value)
  }

  ghost predicate AllRowsSay(table: Table, clauseId: string, finding: ClauseAnalysis) {
    && (exists row :: row in table && row.clauseId == clauseId)
    && (forall row :: row in table && row.clauseId == clauseId ==> SameContent(row, finding))
  }

  /** A submitted run is replayed under every draw of keys if and only if its clause has
      a row and each of them has the content of the finding. */
  lemma ReplayWhateverTheKeys(w: World, task: Task, es: seq<Event>, id: string, budget: Option<Ledger>, table: Table)
    requires Legal(w, task, es) && WasSubmitted(w, task, es)
    ensures AllReplay(w, task, es, id, budget, table) <==>
            AllRowsSay(table, task.clauseId, ResultOf(w, task, es).finding.value)
  {
    var r := ResultOf(w, task, es);
    hide Again, Replays, SameContent, WasSubmitted, ResultOf, Legal;
    if AllRowsSay(table, task.clauseId, r.finding.value) {
      forall rows | IsDraw(table, rows)
        ensures Replays(Again(w, task, es, id, budget, rows), r.steps, r.finding.value)
      {
        ReplayIff(w, task, es, id, budget, rows);
        ReadsOne(table, rows, task.clauseId);
      }
    } else {
      var rows := OddDraw(table, task.clauseId, r.finding.value);
      ReplayIff(w, task, es, id, budget, rows);
    }
  }

  /** Unless all rows say the same some draw has the reader find something else. */
  lemma OddDraw(table: Table, clauseId: string, finding: ClauseAnalysis) returns (rows: seq<StoredRow>)
    requires !AllRowsSay(table, clauseId, finding)
    ensures IsDraw(table, rows)
    ensures forall x :: IsGreatest(rows, clauseId, x) ==> !SameContent(x.row, finding)
  {
    hide SameContent;
    if row :| row in table && row.clauseId == clauseId {
      var k :| 0 <= k < |table| && table[k].clauseId == clauseId && !SameContent(table[k], finding);
      TopIsRead(table, k);
      rows := TopDraw(table, k);
    } else {
      rows := TopDraw(table, 0);
    }
  }

  // ------------------------------------------------------- what is printed

  /** How the command that runs one clause ends: it dereferences the risk level of every
      submitted finding it prints. */
  datatype Exit = Failed(error: string) | Printed(result: RunResult) | Panicked

  function ExitOf(result: Result<RunResult>): Exit {
    match result
    case Failure(e) => Failed("agent run: " + e)
    case Success(r) =>
      if r.stop.Submitted? && (r.finding.None? || r.finding.value.riskLevel.None?) then Panicked else Printed(r)
  }

  /** The command that made a run of its own never panics, wherever it was interrupted. */
  lemma OwnRunPrints(w: World, task: Task, es: seq<Event>)
    requires w.durable && Legal(w, task, es) && Exec(w, task, es).proc.Returned?
    ensures !ExitOf(Exec(w, task, es).proc.result).Panicked?
  {
    if Exec(w, task, es).proc.result.Success? {
      ReturnedFindingComplete(w, task, es);
    }
  }

  /** Asked for a submitted clause again, it fails exactly when the table has no row of the
      clause, and prints a result exactly when the row with the greatest key has a risk
      level; otherwise it panics. */
  lemma CommandPrintsIff(w: World, task: Task, es: seq<Event>, id: string, budget: Option<Ledger>, rows: seq<StoredRow>)
    requires Legal(w, task, es) && WasSubmitted(w, task, es) && DistinctKeys(rows)
    ensures var again := Again(w, task, es, id, budget, rows);
            && again.Returned?
            && (ExitOf(again.result).Failed? <==> forall x :: x in rows ==> x.row.clauseId != task.clauseId)
            && (ExitOf(again.result).Printed? <==>
                  exists x :: IsGreatest(rows, task.clauseId, x) && x.row.riskLevel.Some?)
  {
    hide Legal, WasSubmitted, ResultOf, Again;
    ReadsBack(w, task, es, id, budget, rows);
    LatestMeans(rows, task.clauseId);
  }

  /** It returned, as submitted, a finding without a risk level. */
  ghost predicate Panics(p: Proc) {
    && p.Returned? && p.result.Success? && p.result.value.stop.Submitted?
    && p.result.value.finding.Some? && p.result.value.finding.value.riskLevel.None?
    && ExitOf(p.result) == Panicked
  }

  // ------------------------------------------------------ behind the fan-out

  /** A saved row is a success, or a failure without a risk level. */
  ghost predicate AsSaved(row: ClauseAnalysis) { row.status == OK || (row.status == FAILED && row.riskLevel.None?) }

  lemma {:induction false} RunSavesSo(cfg: Fanout.Config, es: seq<Fanout.Event>)
    requires Fanout.Legal(cfg, es)
    ensures forall row :: row in Fanout.Exec(cfg, es).rows ==> AsSaved(row)
    decreases |es|
  {
    if es != [] {
      RunSavesSo(cfg, es[..|es| - 1]);
      FanoutResults.SaveStep(cfg, Fanout.Exec(cfg, es[..|es| - 1]), es[|es| - 1]);
      hide Fanout.Legal, Fanout.Next;
    }
  }

  lemma {:induction false} LifeSavesSo(clauses: seq<Clause>, tables: seq<Table>, cfgs: seq<Fanout.Config>,
                                       runs: seq<seq<Fanout.Event>>)
    requires FanoutResults.Life(clauses, tables, cfgs, runs)
    ensures forall row :: row in tables[|runs|] ==> AsSaved(row)
    decreases |runs|
  {
    var n := |runs|;
    if n > 0 {
      LifeSavesSo(clauses, tables[..n], cfgs[..n - 1], runs[..n - 1]);
      assert FanoutResults.Extends(clauses, tables[n - 1], cfgs[n - 1], runs[n - 1], tables[n]);
      RunSavesSo(cfgs[n - 1], runs[n - 1]);
    }
  }

  /** The only row of its clause. */
  ghost predicate OnlyRow(table: Table, row: ClauseAnalysis) {
    forall i :: 0 <= i < |table| && table[i].clauseId == row.clauseId ==> table[i] == row
  }

  /** When the analysis of the contract has saved the finding of a submitted run, the
      run is replayed under every draw of keys if and only if the clause never failed
      before. If it did, some draw returns a finding without a risk level, as submitted, and
      the command panics. */
  lemma ReplayAfterFanout(w: World, task: Task, es: seq<Event>, id: string, budget: Option<Ledger>,
                          clauses: seq<Clause>, tables: seq<Table>, cfgs: seq<Fanout.Config>,
                          runs: seq<seq<Fanout.Event>>)
    requires Legal(w, task, es) && WasSubmitted(w, task, es)
    requires DistinctIds(clauses) && FanoutResults.Life(clauses, tables, cfgs, runs)
    requires Fanout.RowFor(task.clauseId, Fanout.Found(ResultOf(w, task, es).finding.value)) in tables[|runs|]
    ensures var table, r := tables[|runs|], ResultOf(w, task, es);
            var saved := Fanout.RowFor(task.clauseId, Fanout.Found(r.finding.value));
            && (AllReplay(w, task, es, id, budget, table) <==> OnlyRow(table, saved))
            && (!OnlyRow(table, saved) ==>
                  exists rows :: IsDraw(table, rows) && Panics(Again(w, task, es, id, budget, rows)))
  {
    var table, r := tables[|runs|], ResultOf(w, task, es);
    var saved := Fanout.RowFor(task.clauseId, Fanout.Found(r.finding.value));
    FanoutResults.RestartableAnalysis(clauses, tables, cfgs, runs);
    LifeSavesSo(clauses, tables, cfgs, runs);
    OtherRowsFailed(table, saved);
    ReplayWhateverTheKeys(w, task, es, id, budget, table);
    hide Legal, WasSubmitted, ResultOf, Again, FanoutResults.Life;
    if !OnlyRow(table, saved) {
      var k :| 0 <= k < |table| && table[k].clauseId == task.clauseId && table[k] != saved;
      TopIsRead(table, k);
      FailureIsRead(w, task, es, id, budget, table, k);
    }
  }

  lemma OtherRowsFailed(table: Table, saved: ClauseAnalysis)
    requires DoneIsLast(table) && saved in table && saved.status == OK
    requires forall row :: row in table ==> AsSaved(row)
    ensures forall i :: 0 <= i < |table| && table[i].clauseId == saved.clauseId && table[i] != saved ==>
              table[i].riskLevel.None?
  {
    var k :| 0 <= k < |table| && table[k] == saved;
    forall i | 0 <= i < |table| && table[i].clauseId == saved.clauseId && table[i] != saved
      ensures table[i].riskLevel.None?
    {
      assert table[i] in table;
      assert i < k;
    }
  }

  lemma FailureIsRead(w: World, task: Task, es: seq<Event>, id: string, budget: Option<Ledger>, table: Table, k: nat)
    requires Legal(w, task, es) && WasSubmitted(w, task, es)
    requires k < |table| && table[k].clauseId == task.clauseId && table[k].riskLevel.None?
    ensures Panics(Again(w, task, es, id, budget, TopDraw(table, k)))
  {
    hide Legal, WasSubmitted, ResultOf, Again;
    ReadsBack(w, task, es, id, budget, TopDraw(table, k));
    TopIsRead(table, k);
  }

  // ---------------------------------------------------------------- a witness

  /** The command that runs one clause saves no row. Given to a clause that nothing else
      analyses it returns a finding once, and fails from then on. */
  lemma TheSecondRunFails(task: Task, id: string, budget: Option<Ledger>) returns (es: seq<Event>)
    ensures var w := EagerWorld(1);
            && Legal(w, task, es) && Spared(w, task, es) && WasSubmitted(w, task, es)
            && Again(w, task, es, id, budget, []) == Returned(Failure("get stored finding: " + "not found"))
  {
    var w := EagerWorld(1);
    es := WindowIsReached(task, 1);
    Onward(w, task, es, Step);
    es := es + [Step];
    hide Legal, Again;
    ReadsBack(w, task, es, id, budget, []);
  }

  /** A clause that the analysis of the contract has failed on once and then found, and
      that is also submitted by a run of its own: asked for again, that run may return the
      failure as its finding, and the command panics. */
  lemma AFailureIsReplayed(task: Task, id: string, budget: Option<Ledger>)
    returns (es: seq<Event>, c: Clause, tables: seq<Table>, cfgs: seq<Fanout.Config>, runs: seq<seq<Fanout.Event>>,
             rows: seq<StoredRow>)
    ensures var w := EagerWorld(1);
            && Legal(w, task, es) && Spared(w, task, es) && WasSubmitted(w, task, es)
            && c.id == task.clauseId && FanoutResults.Life([c], tables, cfgs, runs) && |runs| == 2
            && Fanout.RowFor(c.id, Fanout.Found(ResultOf(w, task, es).finding.value)) in tables[2]
            && IsDraw(tables[2], rows) && Panics(Again(w, task, es, id, budget, rows))
  {
    var w := EagerWorld(1);
    es := TheSecondRunFails(task, id, budget);
    hide Legal, WasSubmitted, ResultOf, Again, EagerWorld, FanoutResults.Life;
    var finding := ResultOf(w, task, es).finding.value;
    c := Clause(task.clauseId, 1, task.clauseText);
    tables, cfgs, runs := FanoutAgain.PaidEveryTime(c, 1, finding, 1);
    assert tables[2][0] == Fanout.RowFor(c.id, Fanout.Stopped("max_steps"));
    assert tables[2][1] == Fanout.RowFor(c.id, Fanout.Found(finding));
    FailureIsRead(w, task, es, id, budget, tables[2], 0);
    TopIsRead(tables[2], 0);
    rows := TopDraw(tables[2], 0);
  }
}
