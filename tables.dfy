/** A sheet as the program holds it in memory: a header and rows in sheet
    order, and the one-row concatenation append_row performs
    (index.py, append_row: pd.concat with ignore_index). */
module Tables {
  import opened Schema
  import opened Rows

  datatype Table = Table(columns: seq<string>, rows: seq<Row>)

  /** What read_sheet returns for a sheet it cannot read: a frame with no columns and no rows. */
  const Empty := Table([], [])

  /** A header with every column named once. */
  predicate Distinct(cols: seq<string>)
  {
    forall i, j :: 0 <= i < j < |cols| ==> cols[i] != cols[j]
  }

  /** The header of a concatenation: the existing columns, then each column of
      the new row that the table does not have yet, in the row's order. */
  function MergeColumns(cols: seq<string>, extra: seq<string>): (r: seq<string>)
    decreases |extra|
    ensures |cols| <= |r| && r[..|cols|] == cols
  {
    if extra == [] then cols
    else MergeColumns(if extra[0] in cols then cols else cols + [extra[0]], extra[1..])
  }

  /** A column is in the merged header exactly when it is in the old header or in the row. */
  lemma {:induction false} MergeColumnsMembers(cols: seq<string>, extra: seq<string>, c: string)
    ensures c in MergeColumns(cols, extra) <==> c in cols || c in extra
    decreases |extra|
  {
    if extra != [] {
      var next := if extra[0] in cols then cols else cols + [extra[0]];
      MergeColumnsMembers(next, extra[1..], c);
      assert c in extra <==> c == extra[0] || c in extra[1..];
    }
  }

  /** A row whose columns the header already has leaves the header as it is. */
  lemma {:induction false} MergeKnownColumns(cols: seq<string>, extra: seq<string>)
    requires forall c :: c in extra ==> c in cols
    ensures MergeColumns(cols, extra) == cols
    decreases |extra|
  {
    if extra != [] {
      MergeKnownColumns(cols, extra[1..]);
    }
  }

  /** Dropping the first column of a duplicate-free header keeps it
      duplicate-free, and the first column is not among the rest. */
  lemma DistinctTail(cols: seq<string>)
    requires cols != [] && Distinct(cols)
    ensures Distinct(cols[1..]) && cols[0] !in cols[1..]
  {
    var tail := cols[1..];
    forall i, j | 0 <= i < j < |tail| ensures tail[i] != tail[j] {
      assert tail[i] == cols[i + 1] && tail[j] == cols[j + 1];
    }
  }

  /** New columns that are all distinct and all new are added at the end, in order. */
  lemma {:induction false} MergeNewColumns(cols: seq<string>, extra: seq<string>)
    requires Distinct(extra)
    requires forall c :: c in extra ==> c !in cols
    ensures MergeColumns(cols, extra) == cols + extra
    decreases |extra|
  {
    if extra != [] {
      var head, tail := extra[0], extra[1..];
      DistinctTail(extra);
      assert head !in cols by {
        assert head in extra;
      }
      assert MergeColumns(cols, extra) == MergeColumns(cols + [head], tail);
      forall c | c in tail ensures c !in cols + [head] {
        assert c in extra;
      }
      MergeNewColumns(cols + [head], tail);
      assert cols + [head] + tail == cols + extra;
    }
  }

  /** The table with one more row at the end. */
  function Concat(t: Table, r: Row): (u: Table)
    ensures |u.rows| == |t.rows| + 1 && u.rows[..|t.rows|] == t.rows && u.rows[|t.rows|] == r
    ensures |t.columns| <= |u.columns| && u.columns[..|t.columns|] == t.columns
    ensures forall c :: c in Columns(r) ==> c in u.columns
  {
    forall c | c in Columns(r) ensures c in MergeColumns(t.columns, Columns(r)) {
      MergeColumnsMembers(t.columns, Columns(r), c);
    }
    Table(MergeColumns(t.columns, Columns(r)), t.rows + [r])
  }

  /** Every kind of row names each of its columns once. */
  lemma ColumnsDistinct(r: Row)
    ensures Distinct(Columns(r))
  {
  }

  /** Appending a row to a sheet whose header is that row's own columns keeps
      the header; appending it to an unreadable (empty) sheet gives it that header. */
  lemma ConcatHeader(t: Table, r: Row)
    ensures t.columns == Columns(r) ==> Concat(t, r).columns == t.columns
    ensures t == Empty ==> Concat(t, r) == Table(Columns(r), [r])
  {
    if t.columns == Columns(r) {
      MergeKnownColumns(t.columns, Columns(r));
    }
    if t == Empty {
      ColumnsDistinct(r);
      MergeNewColumns([], Columns(r));
    }
  }
}
