/** The analyses of one contract in the map-backed store of store/fake.go, against the
    table that keeps every row. */
module FakeStores {
  import opened Domain
  import opened Analyses
  import Newest

  class FakeStore {
    var analyses: map<string, ClauseAnalysis>

    /** Every row ever saved, oldest first. */
    ghost var saved: Table

    ghost predicate Valid()
      reads this
    {
      analyses == LastWins(saved)
    }

    constructor ()
      ensures Valid() && saved == []
    {
      analyses, saved := map[], [];
    }

    method SaveAnalysis(a: ClauseAnalysis)
      requires Valid()
      modifies this
      ensures Valid() && saved == old(saved) + [a]
    {
      analyses := analyses[a.clauseId := a];
      saved := saved + [a];
      assert saved[..|saved| - 1] == old(saved);
    }

    /** At most one row a clause, in clause order. */
    method GetAnalyses(clauses: seq<Clause>) returns (rows: Table)
      requires Valid()
      ensures rows == ReadBack(saved, clauses)
    {
      rows := [];
      for i := 0 to |clauses|
        invariant rows == ReadBack(saved, clauses[..i])
      {
        assert clauses[..i + 1][..i] == clauses[..i];
        if clauses[i].id in analyses {
          rows := rows + [analyses[clauses[i].id]];
        }
      }
      assert clauses[..|clauses|] == clauses;
    }
  }

  /** It reads clause by clause. */
  lemma {:induction false} ReadInOrder(saved: Table, a: seq<Clause>, b: seq<Clause>)
    ensures ReadBack(saved, a + b) == ReadBack(saved, a) + ReadBack(saved, b)
  {
    if b == [] {
      assert a + b == a;
    } else {
      assert (a + b)[..|a + b| - 1] == a + b[..|b| - 1];
      ReadInOrder(saved, a, b[..|b| - 1]);
    }
  }

  /** What the store gives back for the clauses after `saved`. */
  function ReadBack(saved: Table, clauses: seq<Clause>): Table {
    if clauses == [] then []
    else
      var rest, id := ReadBack(saved, clauses[..|clauses| - 1]), clauses[|clauses| - 1].id;
      if id in LastWins(saved) then rest + [LastWins(saved)[id]] else rest
  }

  lemma {:induction false} ReadBackRows(saved: Table, clauses: seq<Clause>, id: string)
    requires DistinctIds(clauses)
    ensures RowsOf(ReadBack(saved, clauses), id) ==
            if (exists c :: c in clauses && c.id == id) && id in LastWins(saved) then [LastWins(saved)[id]] else []
  {
    if clauses != [] {
      var n := |clauses| - 1;
      var c, rest := clauses[n], ReadBack(saved, clauses[..n]);
      ReadBackRows(saved, clauses[..n], id);
      assert clauses == clauses[..n] + [c];
      assert forall d :: d in clauses[..n] ==> d.id != c.id;
      if c.id in LastWins(saved) {
        var i := Newest.HoldsARow(saved, ClauseOf, c.id);
        RowsOfAppend(rest, [LastWins(saved)[c.id]], id);
      }
    }
  }

  /** Readers that take the newest row of each clause, the review and the report, see the
      same in both stores. */
  lemma StoresAgree(saved: Table, clauses: seq<Clause>, c: Clause)
    requires DistinctIds(clauses) && c in clauses
    ensures c.id in LastWins(ReadBack(saved, clauses)) <==> c.id in LastWins(saved)
    ensures c.id in LastWins(saved) ==> LastWins(ReadBack(saved, clauses))[c.id] == LastWins(saved)[c.id]
  {
    ReadBackRows(saved, clauses, c.id);
    LastWinsIsNewest(ReadBack(saved, clauses), c.id);
  }

  lemma {:induction false} SameLeft(clauses: seq<Clause>, done: set<string>, done': set<string>)
    requires forall c :: c in clauses ==> (c.id in done <==> c.id in done')
    ensures NeedingAnalysis(clauses, done) == NeedingAnalysis(clauses, done')
  {
    if clauses != [] {
      SameLeft(clauses[..|clauses| - 1], done, done');
    }
  }

  lemma {:induction false} DoneInRows(rows: Table, id: string)
    ensures AnyDone(rows, id) <==> exists r :: r in RowsOf(rows, id) && IsDone(r)
  {
    if rows != [] {
      var n := |rows| - 1;
      DoneInRows(rows[..n], id);
      if AnyDone(rows[..n], id) {
        var i :| 0 <= i < n && rows[..n][i].clauseId == id && IsDone(rows[..n][i]);
        assert rows[i] == rows[..n][i];
      }
      if AnyDone(rows, id) && !(rows[n].clauseId == id && IsDone(rows[n])) {
        var i :| 0 <= i < |rows| && rows[i].clauseId == id && IsDone(rows[i]);
        assert rows[..n][i] == rows[i];
      }
    }
  }

  /** The clauses left to analyse are found to be the same exactly when no success of one
      of them has been followed by a failure; so they are for every table the program
      produces, in which a success is last. */
  lemma StoresLeaveTheSame(saved: Table, clauses: seq<Clause>)
    requires DistinctIds(clauses)
    ensures NeedingAnalysis(clauses, DoneIds(ReadBack(saved, clauses))) == NeedingAnalysis(clauses, DoneIds(saved))
            <==> forall c :: c in clauses && AnyDone(saved, c.id) ==>
                   c.id in LastWins(saved) && IsDone(LastWins(saved)[c.id])
    ensures DoneIsLast(saved) ==>
              NeedingAnalysis(clauses, DoneIds(ReadBack(saved, clauses))) == NeedingAnalysis(clauses, DoneIds(saved))
  {
    var back := ReadBack(saved, clauses);
    NeedingAnalysisMeans(clauses, saved);
    NeedingAnalysisMeans(clauses, back);
    forall c | c in clauses
      ensures AnyDone(back, c.id) <==> c.id in LastWins(saved) && IsDone(LastWins(saved)[c.id])
      ensures AnyDone(back, c.id) ==> AnyDone(saved, c.id)
      ensures DoneIsLast(saved) && AnyDone(saved, c.id) ==> AnyDone(back, c.id)
      ensures c.id in DoneIds(saved) <==> AnyDone(saved, c.id)
      ensures c.id in DoneIds(back) <==> AnyDone(back, c.id)
    {
      BackIsDone(saved, clauses, c);
    }
    if forall c :: c in clauses ==> (AnyDone(saved, c.id) <==> AnyDone(back, c.id)) {
      SameLeft(clauses, DoneIds(back), DoneIds(saved));
    }
  }

  lemma BackIsDone(saved: Table, clauses: seq<Clause>, c: Clause)
    requires DistinctIds(clauses) && c in clauses
    ensures var back := ReadBack(saved, clauses);
            && (AnyDone(back, c.id) <==> c.id in LastWins(saved) && IsDone(LastWins(saved)[c.id]))
            && (AnyDone(back, c.id) ==> AnyDone(saved, c.id))
            && (DoneIsLast(saved) && AnyDone(saved, c.id) ==> AnyDone(back, c.id))
  {
    ReadBackRows(saved, clauses, c.id);
    DoneInRows(ReadBack(saved, clauses), c.id);
    if c.id in LastWins(saved) {
      var i := Newest.HoldsARow(saved, ClauseOf, c.id);
    }
    if DoneIsLast(saved) {
      SuccessWins(saved, c.id);
    }
  }
}
