/** The clause_analyses table, its rows in insertion order, and the ways the
    pipeline reads it. */
module Analyses {
  import opened Domain
  import Newest

  type Table = seq<ClauseAnalysis>

  const OK := "ok"
  const FAILED := "failed"
  const ANALYZED := "analyzed"

  predicate IsDone(row: ClauseAnalysis) { row.status == ANALYZED || row.status == OK }

  /** The rows of one clause, oldest first. */
  function RowsOf(rows: Table, id: string): Table {
    if rows == [] then []
    else
      var rest := RowsOf(rows[..|rows| - 1], id);
      if rows[|rows| - 1].clauseId == id then rest + [rows[|rows| - 1]] else rest
  }

  lemma {:induction false} RowsOfAppend(a: Table, b: Table, id: string)
    ensures RowsOf(a + b, id) == RowsOf(a, id) + RowsOf(b, id)
  {
    if b == [] {
      assert a + b == a;
    } else {
      assert (a + b)[..|a + b| - 1] == a + b[..|b| - 1];
      RowsOfAppend(a, b[..|b| - 1], id);
    }
  }

  function ClauseOf(row: ClauseAnalysis): string { row.clauseId }

  /** The newest row of each clause. */
  function LastWins(rows: Table): map<string, ClauseAnalysis> { Newest.ByKey(rows, ClauseOf) }

  /** The map holds the newest row of each clause that has one. */
  lemma {:induction false} LastWinsIsNewest(rows: Table, id: string)
    ensures id in LastWins(rows) <==> RowsOf(rows, id) != []
    ensures id in LastWins(rows) ==>
              LastWins(rows)[id] == RowsOf(rows, id)[|RowsOf(rows, id)| - 1]
  {
    if rows != [] {
      LastWinsIsNewest(rows[..|rows| - 1], id);
    }
  }

  ghost predicate AnyDone(rows: Table, id: string) {
    exists i :: 0 <= i < |rows| && rows[i].clauseId == id && IsDone(rows[i])
  }

  /** No clause has a row after a successful one; hence at most one of those. */
  ghost predicate DoneIsLast(rows: Table) {
    forall i, j :: 0 <= i < j < |rows| && rows[i].clauseId == rows[j].clauseId ==> !IsDone(rows[i])
  }

  /** So the last-wins map shows the success whenever there is one. */
  lemma {:induction false} SuccessWins(rows: Table, id: string)
    requires DoneIsLast(rows)
    ensures AnyDone(rows, id) <==> id in LastWins(rows) && IsDone(LastWins(rows)[id])
  {
    if rows != [] {
      var n := |rows| - 1;
      SuccessWins(rows[..n], id);
      if rows[n].clauseId == id {
        assert AnyDone(rows, id) <==> IsDone(rows[n]);
      } else if AnyDone(rows, id) {
        var i :| 0 <= i < |rows| && rows[i].clauseId == id && IsDone(rows[i]);
        assert rows[..n][i] == rows[i];
      }
    }
  }

  /** There is only one success, and it is the row the map shows. */
  lemma TheSuccessWins(rows: Table, row: ClauseAnalysis)
    requires DoneIsLast(rows) && row in rows && IsDone(row)
    ensures row.clauseId in LastWins(rows) && LastWins(rows)[row.clauseId] == row
  {
    var id := row.clauseId;
    var i :| 0 <= i < |rows| && rows[i] == row;
    assert AnyDone(rows, id);
    SuccessWins(rows, id);
    var j := Newest.HoldsARow(rows, ClauseOf, id);
  }

  // ------------------------------------------------ which clauses are left

  function NeedingAnalysis(clauses: seq<Clause>, done: set<string>): seq<Clause> {
    if clauses == [] then []
    else
      var rest := NeedingAnalysis(clauses[..|clauses| - 1], done);
      if clauses[|clauses| - 1].id in done then rest else rest + [clauses[|clauses| - 1]]
  }

  function DoneIds(rows: Table): set<string> {
    set i | 0 <= i < |rows| && IsDone(rows[i]) :: rows[i].clauseId
  }

  method ClausesNeedingAnalysis(clauses: seq<Clause>, rows: Table) returns (left: seq<Clause>)
    ensures left == NeedingAnalysis(clauses, DoneIds(rows))
  {
    left := [];
    if |clauses| == 0 { return; }
    var already := {};
    for i := 0 to |rows|
      invariant already == DoneIds(rows[..i])
    {
      assert rows[..i + 1] == rows[..i] + [rows[i]];
      assert DoneIds(rows[..i + 1]) == DoneIds(rows[..i]) + (if IsDone(rows[i]) then {rows[i].clauseId} else {}) by {
        DoneIdsExtend(rows[..i], rows[i]);
      }
      if IsDone(rows[i]) {
        already := already + {rows[i].clauseId};
      }
    }
    assert rows[..|rows|] == rows;
    for i := 0 to |clauses|
      invariant left == NeedingAnalysis(clauses[..i], already)
    {
      assert clauses[..i + 1][..i] == clauses[..i];
      if clauses[i].id !in already {
        left := left + [clauses[i]];
      }
    }
    assert clauses[..|clauses|] == clauses;
  }

  lemma DoneIdsExtend(rows: Table, row: ClauseAnalysis)
    ensures DoneIds(rows + [row]) == DoneIds(rows) + (if IsDone(row) then {row.clauseId} else {})
  {
    var all := rows + [row];
    forall id | id in DoneIds(rows) + (if IsDone(row) then {row.clauseId} else {})
      ensures id in DoneIds(all)
    {
      if id in DoneIds(rows) {
        var i :| 0 <= i < |rows| && IsDone(rows[i]) && rows[i].clauseId == id;
        assert all[i] == rows[i];
      } else {
        assert all[|rows|] == row;
      }
    }
  }

  /** What is left is exactly the clauses without a success, in order. */
  lemma {:induction false} NeedingAnalysisMeans(clauses: seq<Clause>, rows: Table)
    ensures forall c :: c in NeedingAnalysis(clauses, DoneIds(rows)) <==> c in clauses && !AnyDone(rows, c.id)
    ensures forall id :: AnyDone(rows, id) <==>
              exists i :: 0 <= i < |rows| && rows[i].clauseId == id
                          && (rows[i].status == "analyzed" || rows[i].status == "ok")
  {
    if clauses != [] {
      var n := |clauses| - 1;
      NeedingAnalysisMeans(clauses[..n], rows);
      assert clauses == clauses[..n] + [clauses[n]];
      assert clauses[n].id in DoneIds(rows) <==> AnyDone(rows, clauses[n].id);
    }
  }

  ghost predicate Ascending(clauses: seq<Clause>) {
    forall i, j :: 0 <= i < j < |clauses| ==> clauses[i].sequenceNumber < clauses[j].sequenceNumber
  }

  /** In their order: numbers that ascend still do. */
  lemma {:induction false} NeedingAnalysisInOrder(clauses: seq<Clause>, done: set<string>)
    requires Ascending(clauses)
    ensures Ascending(NeedingAnalysis(clauses, done))
    ensures forall c :: c in NeedingAnalysis(clauses, done) ==> c in clauses
  {
    if clauses != [] {
      var n := |clauses| - 1;
      NeedingAnalysisInOrder(clauses[..n], done);
      assert clauses == clauses[..n] + [clauses[n]];
      var rest := NeedingAnalysis(clauses[..n], done);
      forall i | 0 <= i < |rest|
        ensures rest[i].sequenceNumber < clauses[n].sequenceNumber
      {
        assert rest[i] in clauses[..n];
      }
    }
  }

  ghost predicate DistinctIds(clauses: seq<Clause>) {
    forall i, j :: 0 <= i < j < |clauses| ==> clauses[i].id != clauses[j].id
  }

  lemma {:induction false} NeedingAnalysisDistinct(clauses: seq<Clause>, done: set<string>)
    requires DistinctIds(clauses)
    ensures DistinctIds(NeedingAnalysis(clauses, done))
    ensures forall c :: c in NeedingAnalysis(clauses, done) ==> c in clauses
  {
    if clauses != [] {
      var n := |clauses| - 1;
      NeedingAnalysisDistinct(clauses[..n], done);
      assert forall i :: 0 <= i < n ==> clauses[..n][i] == clauses[i];
      forall c | c in NeedingAnalysis(clauses[..n], done)
        ensures c.id != clauses[n].id && c in clauses
      {
        var i :| 0 <= i < n && clauses[..n][i] == c;
        assert clauses[i] == c;
      }
    }
  }
}
