/** `rows.sort(key=lambda row: row[order_by])` for string-valued columns: a
    stable sort in Python's string order. */
module RowSort {
  import opened JsonValues
  import opened Strings
  import opened MappingRows

  /** Every row has the column, and it holds a string. */
  predicate StringColumn(rows: seq<Row>, column: string) {
    forall k :: 0 <= k < |rows| ==> column in rows[k] && rows[k][column].Str?
  }

  function Key(row: Row, column: string): string
    requires column in row && row[column].Str?
  {
    row[column].s
  }

  /** The rows are in ascending order of the column. */
  predicate SortedBy(rows: seq<Row>, column: string) {
    StringColumn(rows, column) &&
    forall i, j :: 0 <= i < j < |rows| ==> LessEq(Key(rows[i], column), Key(rows[j], column))
  }

  /** The rows whose column holds `value`, in order. */
  function Matching(rows: seq<Row>, column: string, value: string): seq<Row>
    requires StringColumn(rows, column)
  {
    if rows == [] then []
    else
      var last := rows[|rows| - 1];
      Matching(rows[..|rows| - 1], column, value) + (if Key(last, column) == value then [last] else [])
  }

  /** Where a row goes among sorted rows: after every row whose key is not
      greater than its own, so that equal keys keep their input order. */
  function Position(sorted: seq<Row>, row: Row, column: string): (p: nat)
    requires StringColumn(sorted, column) && column in row && row[column].Str?
    ensures p <= |sorted|
    ensures forall k :: 0 <= k < p ==> !Less(Key(row, column), Key(sorted[k], column))
    ensures p < |sorted| ==> Less(Key(row, column), Key(sorted[p], column))
  {
    if sorted == [] then 0
    else if Less(Key(row, column), Key(sorted[0], column)) then 0
    else 1 + Position(sorted[1..], row, column)
  }

  function Insert(sorted: seq<Row>, row: Row, column: string): (r: seq<Row>)
    requires StringColumn(sorted, column) && column in row && row[column].Str?
    ensures multiset(r) == multiset(sorted) + multiset{row}
    ensures StringColumn(r, column)
  {
    var p := Position(sorted, row, column);
    InsertAt(sorted, row, p, column);
    sorted[..p] + [row] + sorted[p..]
  }

  /** Inserting a row at `p` adds it to the rows and keeps every row's
      column a string. */
  lemma InsertAt(rows: seq<Row>, row: Row, p: nat, column: string)
    requires p <= |rows|
    requires StringColumn(rows, column) && column in row && row[column].Str?
    ensures multiset(rows[..p] + [row] + rows[p..]) == multiset(rows) + multiset{row}
    ensures StringColumn(rows[..p] + [row] + rows[p..], column)
  {
    var r: seq<Row> := rows[..p] + [row] + rows[p..];
    assert rows == rows[..p] + rows[p..];
    forall k | 0 <= k < |r|
      ensures column in r[k] && r[k][column].Str?
    {
      if k < p {
        assert r[k] == rows[k];
      } else if p < k {
        assert r[k] == rows[k - 1];
      }
    }
  }

  /** The sort, one row at a time. */
  function SortBy(rows: seq<Row>, column: string): (sorted: seq<Row>)
    requires StringColumn(rows, column)
    ensures multiset(sorted) == multiset(rows)
    ensures StringColumn(sorted, column)
  {
    if rows == [] then []
    else
      var init := rows[..|rows| - 1];
      assert rows == init + [rows[|rows| - 1]];
      Insert(SortBy(init, column), rows[|rows| - 1], column)
  }

  /** Inserting into sorted rows keeps them sorted. */
  lemma {:induction false} InsertSorted(sorted: seq<Row>, row: Row, column: string)
    requires SortedBy(sorted, column) && column in row && row[column].Str?
    ensures SortedBy(Insert(sorted, row, column), column)
  {
    var p := Position(sorted, row, column);
    var r := Insert(sorted, row, column);
    var key := Key(row, column);
    forall k | 0 <= k < p
      ensures LessEq(Key(sorted[k], column), key)
    {
      if Key(sorted[k], column) != key {
        LessTotal(Key(sorted[k], column), key);
      }
    }
    forall k | p <= k < |sorted|
      ensures Less(key, Key(sorted[k], column))
    {
      LessEqLess(key, key, Key(sorted[p], column));
      if k > p {
        LessTransitiveEq(key, Key(sorted[p], column), Key(sorted[k], column));
      }
    }
    assert forall k :: 0 <= k < p ==> r[k] == sorted[k];
    assert r[p] == row;
    assert forall k :: p < k < |r| ==> r[k] == sorted[k - 1];
    forall i, j | 0 <= i < j < |r|
      ensures LessEq(Key(r[i], column), Key(r[j], column))
    {
      if j < p || (i < p && j == p) || (i > p) || (i == p) {
      } else {
        LessEqLess(Key(sorted[i], column), key, Key(sorted[j - 1], column));
      }
    }
  }

  lemma LessTransitiveEq(a: string, b: string, c: string)
    requires Less(a, b) && LessEq(b, c)
    ensures Less(a, c)
  {
    if b != c {
      LessTransitive(a, b, c);
    }
  }

  /** The sorted rows are in ascending order of the column. */
  lemma {:induction false} SortBySorted(rows: seq<Row>, column: string)
    requires StringColumn(rows, column)
    ensures SortedBy(SortBy(rows, column), column)
  {
    if rows != [] {
      var init := rows[..|rows| - 1];
      SortBySorted(init, column);
      InsertSorted(SortBy(init, column), rows[|rows| - 1], column);
    }
  }

  lemma {:induction false} MatchingConcat(a: seq<Row>, b: seq<Row>, column: string, value: string)
    requires StringColumn(a, column) && StringColumn(b, column)
    ensures StringColumn(a + b, column)
    ensures Matching(a + b, column, value) == Matching(a, column, value) + Matching(b, column, value)
    decreases |b|
  {
    if b == [] {
      assert a + b == a;
    } else {
      var init := b[..|b| - 1];
      MatchingConcat(a, init, column, value);
      assert (a + b)[..|a + b| - 1] == a + init;
    }
  }

  /** Rows whose keys all differ from `value` hold no match. */
  lemma {:induction false} NoMatching(rows: seq<Row>, column: string, value: string)
    requires StringColumn(rows, column)
    requires forall k :: 0 <= k < |rows| ==> Key(rows[k], column) != value
    ensures Matching(rows, column, value) == []
  {
    if rows != [] {
      NoMatching(rows[..|rows| - 1], column, value);
    }
  }

  /** Past its position, every key is greater than the inserted row's, so
      none matches it. */
  lemma {:induction false} NoMatchAfter(sorted: seq<Row>, row: Row, column: string)
    requires SortedBy(sorted, column) && column in row && row[column].Str?
    ensures var p := Position(sorted, row, column);
            Matching(sorted[p..], column, Key(row, column)) == []
  {
    var p := Position(sorted, row, column);
    var after := sorted[p..];
    var value := Key(row, column);
    forall k | 0 <= k < |after|
      ensures Key(after[k], column) != value
    {
      if k > 0 {
        LessTransitiveEq(value, Key(sorted[p], column), Key(sorted[p + k], column));
      }
      LessIrreflexive(value);
    }
    NoMatching(after, column, value);
  }

  /** The matches of the inserted rows, split around the new row. */
  lemma {:induction false} InsertMatching(sorted: seq<Row>, row: Row, column: string, value: string)
    requires StringColumn(sorted, column) && column in row && row[column].Str?
    ensures var p := Position(sorted, row, column);
            Matching(Insert(sorted, row, column), column, value) ==
              Matching(sorted[..p], column, value) + (if Key(row, column) == value then [row] else []) +
              Matching(sorted[p..], column, value)
    ensures var p := Position(sorted, row, column);
            Matching(sorted, column, value) == Matching(sorted[..p], column, value) + Matching(sorted[p..], column, value)
  {
    var p := Position(sorted, row, column);
    var before := sorted[..p];
    var after := sorted[p..];
    assert sorted == before + after;
    MatchingConcat(before, after, column, value);
    MatchingConcat(before, [row], column, value);
    MatchingConcat(before + [row], after, column, value);
    assert [row][..0] == [];
  }

  /** An inserted row comes after every row with the same key. */
  lemma {:induction false} InsertStable(sorted: seq<Row>, row: Row, column: string, value: string)
    requires SortedBy(sorted, column) && column in row && row[column].Str?
    ensures Matching(Insert(sorted, row, column), column, value) ==
              Matching(sorted, column, value) + (if Key(row, column) == value then [row] else [])
  {
    var p := Position(sorted, row, column);
    InsertMatching(sorted, row, column, value);
    var before := Matching(sorted[..p], column, value);
    var after := Matching(sorted[p..], column, value);
    var added := if Key(row, column) == value then [row] else [];
    calc {
      Matching(Insert(sorted, row, column), column, value);
      { InsertMatching(sorted, row, column, value); }
      before + added + after;
      { InsertAfter(sorted, row, column, value); }
      before + after + added;
      { InsertMatching(sorted, row, column, value); }
      Matching(sorted, column, value) + added;
    }
  }

  /** The inserted row's match can move past the later matches: there are
      none when it matches. */
  lemma InsertAfter(sorted: seq<Row>, row: Row, column: string, value: string)
    requires SortedBy(sorted, column) && column in row && row[column].Str?
    ensures var p := Position(sorted, row, column);
            var before := Matching(sorted[..p], column, value);
            var after := Matching(sorted[p..], column, value);
            var added := if Key(row, column) == value then [row] else [];
            before + added + after == before + after + added
  {
    if Key(row, column) == value {
      NoMatchAfter(sorted, row, column);
    }
  }

  /** The sort is stable: the rows sharing a key keep their input order. */
  lemma {:induction false} SortByStable(rows: seq<Row>, column: string, value: string)
    requires StringColumn(rows, column)
    ensures Matching(SortBy(rows, column), column, value) == Matching(rows, column, value)
  {
    if rows != [] {
      var init := rows[..|rows| - 1];
      SortByStable(init, column, value);
      SortBySorted(init, column);
      InsertStable(SortBy(init, column), rows[|rows| - 1], column, value);
    }
  }
}
