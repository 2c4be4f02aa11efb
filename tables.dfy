/** pandas DataFrames as values: an ordered list of labelled columns and a
    sequence of rows, each row holding one cell per column. Labels may repeat
    (pandas allows it); reading a row by label takes the first column so
    labelled, and a label a row does not have reads as a missing value. */
module Tables {
  import opened Errors
  import opened JsonValues
  import opened Text

  /** The dtype a column was last coerced to. Only the tag is modelled, not
      what `pd.to_datetime` or `pd.to_numeric` do to the values. */
  datatype Kind = Raw | Date | Numeric

  datatype Column = Column(name: string, kind: Kind)

  datatype Table = Table(cols: seq<Column>, rows: seq<seq<Json>>)

  /** Every row has one cell per column. */
  predicate Valid(t: Table)
  {
    forall i :: 0 <= i < |t.rows| ==> |t.rows[i]| == |t.cols|
  }

  function Labels(cols: seq<Column>): (r: seq<string>)
    ensures |r| == |cols|
    ensures forall k :: 0 <= k < |cols| ==> r[k] == cols[k].name
  {
    seq(|cols|, k requires 0 <= k < |cols| => cols[k].name)
  }

  /** `df.columns`. */
  function Names(t: Table): seq<string>
  {
    Labels(t.cols)
  }

  /** The cell of `row` under label `n`: the first column so labelled, or a
      missing value. */
  function ValueAt(cols: seq<Column>, row: seq<Json>, n: string): Json
    requires |row| == |cols|
  {
    if |cols| == 0 then JNull
    else if cols[0].name == n then row[0]
    else ValueAt(cols[1..], row[1..], n)
  }

  /** `df.iloc[i][n]`, missing values included. */
  function Cell(t: Table, i: int, n: string): Json
    requires Valid(t) && 0 <= i < |t.rows|
  {
    ValueAt(t.cols, t.rows[i], n)
  }

  function Nulls(n: nat): (r: seq<Json>)
    ensures |r| == n
    ensures forall k :: 0 <= k < n ==> r[k] == JNull
  {
    seq(n, k requires 0 <= k < n => JNull)
  }

  lemma {:induction false} ValueAtMissing(cols: seq<Column>, row: seq<Json>, n: string)
    requires |row| == |cols|
    requires n !in Labels(cols)
    ensures ValueAt(cols, row, n) == JNull
  {
    if |cols| > 0 {
      assert Labels(cols[1..]) == Labels(cols)[1..];
      ValueAtMissing(cols[1..], row[1..], n);
    }
  }

  lemma {:induction false} ValueAtNulls(cols: seq<Column>, n: string)
    ensures ValueAt(cols, Nulls(|cols|), n) == JNull
  {
    if |cols| > 0 {
      assert Nulls(|cols|)[1..] == Nulls(|cols| - 1);
      ValueAtNulls(cols[1..], n);
    }
  }

  lemma {:induction false} ValueAtAppend(c1: seq<Column>, r1: seq<Json>, c2: seq<Column>, r2: seq<Json>, n: string)
    requires |r1| == |c1| && |r2| == |c2|
    ensures ValueAt(c1 + c2, r1 + r2, n) == if n in Labels(c1) then ValueAt(c1, r1, n) else ValueAt(c2, r2, n)
  {
    if |c1| > 0 {
      assert (c1 + c2)[1..] == c1[1..] + c2;
      assert (r1 + r2)[1..] == r1[1..] + r2;
      assert Labels(c1) == [c1[0].name] + Labels(c1[1..]);
      ValueAtAppend(c1[1..], r1[1..], c2, r2, n);
    } else {
      assert c1 + c2 == c2 && r1 + r2 == r2;
    }
  }

  // ---------------------------------------------------------------------
  // Building frames from JSON records.

  /** `pd.DataFrame.from_dict([d])`: one row, one column per key of `d`. */
  function RowTable(members: seq<(string, Json)>): (t: Table)
    ensures Valid(t) && |t.rows| == 1
  {
    Table(seq(|members|, k requires 0 <= k < |members| => Column(members[k].0, Raw)),
          [seq(|members|, k requires 0 <= k < |members| => members[k].1)])
  }

  lemma {:induction false} RowTableCell(members: seq<(string, Json)>, n: string)
    ensures Names(RowTable(members)) == Keys(members)
    ensures Cell(RowTable(members), 0, n) == LookupOr(members, n)
  {
    var t := RowTable(members);
    if |members| > 0 {
      var rest := RowTable(members[1..]);
      assert t.cols[1..] == rest.cols;
      assert t.rows[0][1..] == rest.rows[0];
      RowTableCell(members[1..], n);
      assert Keys(members) == [members[0].0] + Keys(members[1..]);
      assert Names(t) == [members[0].0] + Names(rest);
      if members[0].0 != n {
        assert Find(Keys(members), n) == 1 + Find(Keys(members[1..]), n);
      }
    }
  }

  /** The columns of `b` whose labels `a` lacks, in `b`'s order. */
  function NewColumns(a: seq<Column>, b: seq<Column>): (r: seq<Column>)
    ensures forall c :: c in r ==> c in b && c.name !in Labels(a)
    ensures forall c :: c in b && c.name !in Labels(a) ==> c in r
  {
    if |b| == 0 then []
    else (if b[0].name in Labels(a) then [] else [b[0]]) + NewColumns(a, b[1..])
  }

  /** Row `i` of `b` laid out for the columns `cols`. */
  function Realign(b: Table, i: int, cols: seq<Column>): (r: seq<Json>)
    requires Valid(b) && 0 <= i < |b.rows|
    ensures |r| == |cols|
  {
    seq(|cols|, k requires 0 <= k < |cols| => Cell(b, i, cols[k].name))
  }

  lemma {:induction false} ValueAtRealign(b: Table, i: int, cols: seq<Column>, n: string)
    requires Valid(b) && 0 <= i < |b.rows|
    ensures ValueAt(cols, Realign(b, i, cols), n) == if n in Labels(cols) then Cell(b, i, n) else JNull
  {
    if |cols| > 0 {
      assert Realign(b, i, cols)[1..] == Realign(b, i, cols[1..]);
      assert Labels(cols) == [cols[0].name] + Labels(cols[1..]);
      ValueAtRealign(b, i, cols[1..], n);
    }
  }

  /** `pd.concat([a, b], ignore_index=True)`: the rows of `a` then the rows of
      `b`, over the union of their columns in order of first appearance; a
      row gets a missing value under a column its frame did not have. */
  function ConcatRows(a: Table, b: Table): (r: Table)
    requires Valid(a) && Valid(b)
    ensures Valid(r)
    ensures |r.rows| == |a.rows| + |b.rows|
    ensures r.cols == a.cols + NewColumns(a.cols, b.cols)
  {
    var cols := a.cols + NewColumns(a.cols, b.cols);
    var extra := |cols| - |a.cols|;
    var top := seq(|a.rows|, i requires 0 <= i < |a.rows| => a.rows[i] + Nulls(extra));
    var bottom := seq(|b.rows|, i requires 0 <= i < |b.rows| => Realign(b, i, cols));
    assert forall i :: 0 <= i < |top| ==> top[i] == a.rows[i] + Nulls(extra) && |a.rows[i]| == |a.cols|;
    assert forall i :: 0 <= i < |bottom| ==> |bottom[i]| == |cols|;
    Table(cols, top + bottom)
  }

  lemma InLabels(cols: seq<Column>, c: Column)
    requires c in cols
    ensures c.name in Labels(cols)
  {
    var k :| 0 <= k < |cols| && cols[k] == c;
    assert Labels(cols)[k] == c.name;
  }

  lemma ConcatRowsCell(a: Table, b: Table, i: int, n: string)
    requires Valid(a) && Valid(b)
    requires 0 <= i < |a.rows| + |b.rows|
    ensures Cell(ConcatRows(a, b), i, n)
         == if i < |a.rows| then Cell(a, i, n) else Cell(b, i - |a.rows|, n)
  {
    var r := ConcatRows(a, b);
    var extra := NewColumns(a.cols, b.cols);
    if i < |a.rows| {
      assert r.rows[i] == a.rows[i] + Nulls(|extra|);
      ValueAtAppend(a.cols, a.rows[i], extra, Nulls(|extra|), n);
      ValueAtNulls(extra, n);
      if n !in Labels(a.cols) {
        ValueAtMissing(a.cols, a.rows[i], n);
      }
    } else {
      var j := i - |a.rows|;
      assert r.rows[i] == Realign(b, j, r.cols);
      ValueAtRealign(b, j, r.cols, n);
      if n !in Labels(r.cols) {
        NewColumnsLabels(a.cols, b.cols, n);
        ValueAtMissing(b.cols, b.rows[j], n);
      }
    }
  }

  lemma ConcatRowsNames(a: Table, b: Table, n: string)
    requires Valid(a) && Valid(b)
    ensures n in Names(ConcatRows(a, b)) <==> n in Names(a) || n in Names(b)
  {
    NewColumnsLabels(a.cols, b.cols, n);
  }

  /** The labels of `a` followed by the new columns of `b` are those of
      either. */
  lemma NewColumnsLabels(a: seq<Column>, b: seq<Column>, n: string)
    ensures n in Labels(a + NewColumns(a, b)) <==> n in Labels(a) || n in Labels(b)
  {
    var extra := NewColumns(a, b);
    assert Labels(a + extra) == Labels(a) + Labels(extra);
    if n in Labels(b) && n !in Labels(a) {
      NewLabelFromRight(a, b, n);
    }
    if n in Labels(extra) {
      NewLabelOfRight(a, b, n);
    }
  }

  lemma NewLabelFromRight(a: seq<Column>, b: seq<Column>, n: string)
    requires n in Labels(b) && n !in Labels(a)
    ensures n in Labels(NewColumns(a, b))
  {
    var extra := NewColumns(a, b);
    var k :| 0 <= k < |b| && Labels(b)[k] == n;
    assert b[k] in b;
    var m :| 0 <= m < |extra| && extra[m] == b[k];
    assert Labels(extra)[m] == n;
  }

  lemma NewLabelOfRight(a: seq<Column>, b: seq<Column>, n: string)
    requires n in Labels(NewColumns(a, b))
    ensures n in Labels(b)
  {
    var extra := NewColumns(a, b);
    var m :| 0 <= m < |extra| && Labels(extra)[m] == n;
    assert extra[m] in extra;
    var k :| 0 <= k < |b| && b[k] == extra[m];
    assert Labels(b)[k] == n;
  }

  predicate AllObjects(xs: seq<Json>)
  {
    forall k :: 0 <= k < |xs| ==> xs[k].JObj?
  }

  /** The frame the source accumulates by `pd.concat`-ing one
      `from_dict([x])` per record `x`, in order. */
  function Records(xs: seq<Json>): (t: Table)
    requires |xs| > 0 && AllObjects(xs)
    ensures Valid(t) && |t.rows| == |xs|
  {
    if |xs| == 1 then RowTable(xs[0].members)
    else ConcatRows(Records(xs[..|xs| - 1]), RowTable(xs[|xs| - 1].members))
  }

  /** Row `i` of the accumulated frame is record `i`, read by key. */
  lemma {:induction false} RecordsCell(xs: seq<Json>, i: int, n: string)
    requires |xs| > 0 && AllObjects(xs)
    requires 0 <= i < |xs|
    ensures Cell(Records(xs), i, n) == LookupOr(xs[i].members, n)
  {
    RowTableCell(xs[|xs| - 1].members, n);
    if |xs| > 1 {
      var init := xs[..|xs| - 1];
      ConcatRowsCell(Records(init), RowTable(xs[|xs| - 1].members), i, n);
      if i < |xs| - 1 {
        RecordsCell(init, i, n);
      }
    }
  }

  /** The columns of the accumulated frame are exactly the keys that occur in
      some record. */
  lemma {:induction false} RecordsNames(xs: seq<Json>, n: string)
    requires |xs| > 0 && AllObjects(xs)
    ensures n in Names(Records(xs)) <==> exists k :: 0 <= k < |xs| && n in Keys(xs[k].members)
  {
    var last := xs[|xs| - 1];
    RowTableCell(last.members, n);
    if |xs| > 1 {
      var init := xs[..|xs| - 1];
      ConcatRowsNames(Records(init), RowTable(last.members), n);
      RecordsNames(init, n);
      if exists k :: 0 <= k < |xs| && n in Keys(xs[k].members) {
        var k :| 0 <= k < |xs| && n in Keys(xs[k].members);
        if k < |xs| - 1 { assert init[k] == xs[k]; }
      }
    }
  }

  /** `pd.DataFrame(records)` for a decoded JSON list of objects; any other
      value is refused (the columnar writer accepts string labels only). */
  function FromRecords(j: Json): (r: Result<Table>)
    ensures r.Ok? ==> Valid(r.value)
    ensures r.Ok? <==> j.JArr? && AllObjects(j.items)
    ensures r.Ok? ==> |r.value.rows| == |j.items|
  {
    if j.JArr? && AllObjects(j.items) then
      if |j.items| == 0 then Ok(Table([], [])) else Ok(Records(j.items))
    else Err(ValueError)
  }

  // ---------------------------------------------------------------------
  // The frame operations the source applies.

  /** `df[:-1]`: every row but the last one. */
  function DropLast(t: Table): (r: Table)
    requires Valid(t)
    ensures Valid(r)
    ensures r.cols == t.cols
    ensures |t.rows| == 0 ==> r.rows == []
    ensures |t.rows| > 0 ==> r.rows == t.rows[..|t.rows| - 1]
  {
    if |t.rows| == 0 then t else Table(t.cols, t.rows[..|t.rows| - 1])
  }

  function OverwriteCols(cols: seq<Column>, name: string): (r: seq<Column>)
    ensures |r| == |cols|
    ensures Labels(r) == Labels(cols)
  {
    seq(|cols|, k requires 0 <= k < |cols| => if cols[k].name == name then Column(name, Raw) else cols[k])
  }

  function OverwriteRow(cols: seq<Column>, row: seq<Json>, name: string, v: Json): (r: seq<Json>)
    requires |row| == |cols|
    ensures |r| == |cols|
  {
    seq(|cols|, k requires 0 <= k < |cols| => if cols[k].name == name then v else row[k])
  }

  /** `df[name] = v` for a scalar `v`: overwrites the column so labelled, or
      appends one when there is none. */
  function WithConst(t: Table, name: string, v: Json): (r: Table)
    requires Valid(t)
    ensures Valid(r)
    ensures |r.rows| == |t.rows|
  {
    if name in Names(t) then
      Table(OverwriteCols(t.cols, name),
            seq(|t.rows|, i requires 0 <= i < |t.rows| => OverwriteRow(t.cols, t.rows[i], name, v)))
    else
      Table(t.cols + [Column(name, Raw)],
            seq(|t.rows|, i requires 0 <= i < |t.rows| => t.rows[i] + [v]))
  }

  lemma {:induction false} ValueAtOverwrite(cols: seq<Column>, row: seq<Json>, name: string, v: Json, n: string)
    requires |row| == |cols|
    ensures ValueAt(OverwriteCols(cols, name), OverwriteRow(cols, row, name, v), n)
         == if n == name && name in Labels(cols) then v else ValueAt(cols, row, n)
  {
    if |cols| > 0 {
      assert OverwriteCols(cols, name)[1..] == OverwriteCols(cols[1..], name);
      assert OverwriteRow(cols, row, name, v)[1..] == OverwriteRow(cols[1..], row[1..], name, v);
      assert Labels(cols) == [cols[0].name] + Labels(cols[1..]);
      ValueAtOverwrite(cols[1..], row[1..], name, v, n);
    }
  }

  /** After `df[name] = v` every row holds `v` under `name`, every other
      label reads as before, and the labels are unchanged or gain `name`
      at the end. */
  lemma WithConstCell(t: Table, name: string, v: Json, i: int, n: string)
    requires Valid(t) && 0 <= i < |t.rows|
    ensures Names(WithConst(t, name, v))
         == if name in Names(t) then Names(t) else Names(t) + [name]
    ensures Cell(WithConst(t, name, v), i, n) == if n == name then v else Cell(t, i, n)
  {
    var r := WithConst(t, name, v);
    if name in Names(t) {
      assert r.cols == OverwriteCols(t.cols, name);
      assert r.rows[i] == OverwriteRow(t.cols, t.rows[i], name, v);
      ValueAtOverwrite(t.cols, t.rows[i], name, v, n);
    } else {
      assert r.cols == t.cols + [Column(name, Raw)];
      assert r.rows[i] == t.rows[i] + [v];
      assert Names(r) == Names(t) + [name];
      ValueAtAppend(t.cols, t.rows[i], [Column(name, Raw)], [v], n);
      assert ValueAt([Column(name, Raw)], [v], n) == if n == name then v else JNull;
      if n == name {
        ValueAtMissing(t.cols, t.rows[i], n);
      } else if n !in Labels(t.cols) {
        ValueAtMissing(t.cols, t.rows[i], n);
      }
    }
  }

  /** `df.columns = df.columns.str.lower()`: relabel, keep every cell. */
  function Lowered(t: Table): (r: Table)
    ensures r.rows == t.rows
    ensures Names(r) == LowerAll(Names(t))
    ensures forall k :: 0 <= k < |t.cols| ==> r.cols[k].kind == t.cols[k].kind
  {
    Table(seq(|t.cols|, k requires 0 <= k < |t.cols| => Column(Lower(t.cols[k].name), t.cols[k].kind)),
          t.rows)
  }

  /** `df[name] = pd.to_datetime(df[name])` and the like: retag every column
      labelled `name`. */
  function WithKind(t: Table, name: string, kind: Kind): (r: Table)
    ensures r.rows == t.rows
    ensures Names(r) == Names(t)
    ensures forall k :: 0 <= k < |t.cols| ==>
              r.cols[k].kind == if t.cols[k].name == name then kind else t.cols[k].kind
  {
    Table(seq(|t.cols|, k requires 0 <= k < |t.cols| =>
                if t.cols[k].name == name then Column(name, kind) else t.cols[k]),
          t.rows)
  }

  /** How many columns carry the label `n`. */
  function Occurrences(cols: seq<Column>, n: string): (c: nat)
    ensures c <= |cols|
    ensures c > 0 <==> n in Labels(cols)
  {
    if |cols| == 0 then 0
    else
      assert Labels(cols) == [cols[0].name] + Labels(cols[1..]);
      (if cols[0].name == n then 1 else 0) + Occurrences(cols[1..], n)
  }

  /** Counting a label sees the labels only, not the kinds. */
  lemma {:induction false} OccurrencesSameLabels(c1: seq<Column>, c2: seq<Column>, n: string)
    requires Labels(c1) == Labels(c2)
    ensures Occurrences(c1, n) == Occurrences(c2, n)
  {
    if |c1| > 0 {
      assert Labels(c1[1..]) == Labels(c1)[1..];
      assert Labels(c2[1..]) == Labels(c2)[1..];
      OccurrencesSameLabels(c1[1..], c2[1..], n);
    }
  }

  /** What `pd.to_datetime` and `pd.to_numeric` raise when `df[n]` is a
      DataFrame, as it is when `n` labels several columns: `to_datetime`
      cannot assemble dates from repeated keys (ValueError), and
      `to_numeric` takes only one-dimensional input (TypeError). */
  function FrameArgError(kind: Kind): Error
  {
    if kind == Numeric then TypeError else ValueError
  }

  /** `df[name] = pd.to_datetime(df[name])` (kind Date) or `pd.to_numeric`
      (kind Numeric): KeyError when no column has the label, the conversion's
      error when several do, and otherwise the one column so labelled is
      retagged. */
  function Coerced(t: Table, name: string, kind: Kind): (r: Result<Table>)
    ensures r.Ok? <==> Occurrences(t.cols, name) == 1
    ensures r.Err? ==> r.error == if name in Names(t) then FrameArgError(kind) else KeyError(name)
    ensures r.Ok? ==> r.value.rows == t.rows && Names(r.value) == Names(t)
    ensures r.Ok? ==> forall k :: 0 <= k < |t.cols| ==>
                        r.value.cols[k] == if t.cols[k].name == name then Column(name, kind) else t.cols[k]
  {
    var c := Occurrences(t.cols, name);
    if c == 0 then Err(KeyError(name))
    else if c > 1 then Err(FrameArgError(kind))
    else Ok(WithKind(t, name, kind))
  }

  /** Reading a row by label sees the labels only, not the kinds. */
  lemma {:induction false} ValueAtSameLabels(c1: seq<Column>, c2: seq<Column>, row: seq<Json>, n: string)
    requires |row| == |c1| && Labels(c1) == Labels(c2)
    ensures ValueAt(c1, row, n) == ValueAt(c2, row, n)
  {
    if |c1| > 0 {
      assert Labels(c1[1..]) == Labels(c1)[1..];
      assert Labels(c2[1..]) == Labels(c2)[1..];
      ValueAtSameLabels(c1[1..], c2[1..], row[1..], n);
    }
  }

  /** The columns not labelled `name`. */
  function Without(cols: seq<Column>, name: string): (r: seq<Column>)
    ensures name !in Labels(r)
    ensures forall c :: c in r <==> c in cols && c.name != name
  {
    if |cols| == 0 then []
    else (if cols[0].name == name then [] else [cols[0]]) + Without(cols[1..], name)
  }

  /** The cells of `row` outside the columns labelled `name`. */
  function CellsWithout(cols: seq<Column>, row: seq<Json>, name: string): (r: seq<Json>)
    requires |row| == |cols|
    ensures |r| == |Without(cols, name)|
  {
    if |cols| == 0 then []
    else (if cols[0].name == name then [] else [row[0]]) + CellsWithout(cols[1..], row[1..], name)
  }

  /** `df.drop(name, axis=1)`: remove every column labelled `name`. */
  function Drop(t: Table, name: string): (r: Table)
    requires Valid(t)
    ensures Valid(r)
    ensures |r.rows| == |t.rows|
    ensures r.cols == Without(t.cols, name)
  {
    Table(Without(t.cols, name),
          seq(|t.rows|, i requires 0 <= i < |t.rows| => CellsWithout(t.cols, t.rows[i], name)))
  }

  /** Dropping `name` keeps every other label as often as it was there. */
  lemma {:induction false} OccurrencesWithout(cols: seq<Column>, name: string, n: string)
    requires n != name
    ensures Occurrences(Without(cols, name), n) == Occurrences(cols, n)
  {
    if |cols| > 0 {
      var w := Without(cols, name);
      var rest := Without(cols[1..], name);
      OccurrencesWithout(cols[1..], name, n);
      if cols[0].name == name {
        assert w == rest;
      } else {
        assert w == [cols[0]] + rest;
        assert w[1..] == rest;
      }
    }
  }

  lemma {:induction false} CellsWithoutValue(cols: seq<Column>, row: seq<Json>, name: string, n: string)
    requires |row| == |cols| && n != name
    ensures ValueAt(Without(cols, name), CellsWithout(cols, row, name), n) == ValueAt(cols, row, n)
  {
    if |cols| > 0 {
      CellsWithoutValue(cols[1..], row[1..], name, n);
      var w := Without(cols, name);
      var cells := CellsWithout(cols, row, name);
      var w' := Without(cols[1..], name);
      var cells' := CellsWithout(cols[1..], row[1..], name);
      if cols[0].name != name {
        assert w == [cols[0]] + w';
        assert cells == [row[0]] + cells';
        assert w[1..] == w' && cells[1..] == cells';
      } else {
        assert w == w' && cells == cells';
      }
    }
  }

  /** Dropping `name` keeps what every row holds under every other label. */
  lemma DropCell(t: Table, name: string, i: int, n: string)
    requires Valid(t) && 0 <= i < |t.rows| && n != name
    ensures Cell(Drop(t, name), i, n) == Cell(t, i, n)
  {
    CellsWithoutValue(t.cols, t.rows[i], name, n);
  }

  /** Row `i` of `t`, or an all-missing row past its end. */
  function RowOr(t: Table, i: int): (r: seq<Json>)
    requires Valid(t)
    ensures |r| == |t.cols|
  {
    if 0 <= i < |t.rows| then t.rows[i] else Nulls(|t.cols|)
  }

  /** `pd.concat([a, b], axis=1)`: the columns of `a` then those of `b`; row
      `i` is row `i` of each, a missing row being all missing values. */
  function ConcatCols(a: Table, b: Table): (r: Table)
    requires Valid(a) && Valid(b)
    ensures Valid(r)
    ensures r.cols == a.cols + b.cols
    ensures |r.rows| == if |a.rows| < |b.rows| then |b.rows| else |a.rows|
    ensures forall i :: 0 <= i < |a.rows| && i < |b.rows| ==> r.rows[i] == a.rows[i] + b.rows[i]
  {
    var n := if |a.rows| < |b.rows| then |b.rows| else |a.rows|;
    Table(a.cols + b.cols, seq(n, i requires 0 <= i < n => RowOr(a, i) + RowOr(b, i)))
  }
}
