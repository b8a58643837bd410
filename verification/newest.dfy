/** The map a reader builds by walking rows in order: later rows overwrite. */
module Newest {

  function ByKey<T>(rows: seq<T>, key: T -> string): map<string, T> {
    if rows == [] then map[]
    else ByKey(rows[..|rows| - 1], key)[key(rows[|rows| - 1]) := rows[|rows| - 1]]
  }

  method BuildByKey<T>(rows: seq<T>, key: T -> string) returns (m: map<string, T>)
    ensures m == ByKey(rows, key)
  {
    m := map[];
    for i := 0 to |rows|
      invariant m == ByKey(rows[..i], key)
    {
      assert rows[..i + 1][..i] == rows[..i];
      m := m[key(rows[i]) := rows[i]];
    }
    assert rows[..|rows|] == rows;
  }

  ghost predicate IsNewest<T>(rows: seq<T>, key: T -> string, i: int) {
    0 <= i < |rows| && forall j :: i < j < |rows| ==> key(rows[j]) != key(rows[i])
  }

  /** Every key some row has is in the map, with the last row that has it. */
  lemma {:induction false} HoldsTheNewest<T>(rows: seq<T>, key: T -> string, i: nat)
    requires i < |rows|
    ensures key(rows[i]) in ByKey(rows, key)
    ensures IsNewest(rows, key, i) ==> ByKey(rows, key)[key(rows[i])] == rows[i]
  {
    var n := |rows| - 1;
    if i < n {
      HoldsTheNewest(rows[..n], key, i);
      if IsNewest(rows, key, i) {
        assert IsNewest(rows[..n], key, i);
      }
    }
  }

  /** And the map holds nothing else. */
  lemma {:induction false} HoldsARow<T>(rows: seq<T>, key: T -> string, k: string) returns (i: nat)
    requires k in ByKey(rows, key)
    ensures IsNewest(rows, key, i) && key(rows[i]) == k && ByKey(rows, key)[k] == rows[i]
  {
    var n := |rows| - 1;
    if key(rows[n]) == k {
      i := n;
    } else {
      i := HoldsARow(rows[..n], key, k);
      assert rows[..n][i] == rows[i];
    }
  }
}
