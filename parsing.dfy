/** The two response parsers of `eod_prices.py`: `parse_csv` for the CSV
    endpoints and `parse_json` for the JSON documents. */
module Parsing {
  import opened Errors
  import opened Text
  import opened JsonValues
  import opened Tables
  import opened Frames

  /** `KeyValue(key, value)`: a constant column to add to every row. */
  datatype KeyValue = KeyValue(key: string, value: string)

  // ---------------------------------------------------------------------
  // parse_csv

  /** What `parse_csv(data, kv)` returns, for the table `raw` that
      `pd.read_csv` made of `data`: all rows but the last, the `kv` column
      set, then the labels lower-cased. */
  function CsvTable(raw: Table, kv: Option<KeyValue>): (t: Table)
    requires Valid(raw)
    ensures Valid(t)
  {
    var kept := DropLast(raw);
    var keyed := if kv.Some? then WithConst(kept, kv.value.key, JStr(kv.value.value)) else kept;
    Lowered(keyed)
  }

  method ParseCsv(raw: Table, kv: Option<KeyValue>) returns (df: Frame)
    requires Valid(raw)
    ensures fresh(df) && df.Valid()
    ensures df.Value() == CsvTable(raw, kv)
  {
    df := new Frame(DropLast(raw));
    if kv.Some? {
      df.SetConst(kv.value.key, JStr(kv.value.value));
    }
    df.LowerColumns();
  }

  /** The trailing line is dropped (an empty frame stays empty); without a
      key/value pair the remaining rows are kept verbatim. */
  lemma CsvRows(raw: Table, kv: Option<KeyValue>)
    requires Valid(raw)
    ensures |CsvTable(raw, kv).rows| == if |raw.rows| == 0 then 0 else |raw.rows| - 1
    ensures kv.None? ==> CsvTable(raw, kv).rows == raw.rows[..|CsvTable(raw, kv).rows|]
  {
  }

  /** Every label of the result is lower case, and the original columns keep
      their positions, each labelled with its lower-cased name. */
  lemma CsvLabels(raw: Table, kv: Option<KeyValue>)
    requires Valid(raw)
    ensures forall n :: n in Names(CsvTable(raw, kv)) ==> IsLower(n)
    ensures |raw.cols| <= |CsvTable(raw, kv).cols| <= |raw.cols| + 1
    ensures forall k :: 0 <= k < |raw.cols| ==> Names(CsvTable(raw, kv))[k] == Lower(raw.cols[k].name)
    ensures kv.None? ==> Names(CsvTable(raw, kv)) == LowerAll(Names(raw))
  {
    var t := CsvTable(raw, kv);
    forall n | n in Names(t) ensures IsLower(n) {
      var k :| 0 <= k < |Names(t)| && Names(t)[k] == n;
    }
    if kv.Some? {
      var keyed := WithConst(DropLast(raw), kv.value.key, JStr(kv.value.value));
      assert Names(t) == LowerAll(Names(keyed));
      forall k | 0 <= k < |raw.cols| ensures keyed.cols[k].name == raw.cols[k].name {
        if kv.value.key in Names(DropLast(raw)) {
          assert Labels(keyed.cols)[k] == Labels(raw.cols)[k];
        }
      }
    }
  }

  /** With `kv`, the column at the key's position (its old position, or a new
      last one) is labelled with the lower-cased key and holds `kv.value` in
      every row; every other column keeps its cells. */
  lemma CsvKeyColumn(raw: Table, kv: KeyValue)
    requires Valid(raw)
    ensures var t := CsvTable(raw, Some(kv));
            var j := Find(Names(raw), kv.key);
            && j < |t.cols|
            && Names(t)[j] == Lower(kv.key)
            && (forall i :: 0 <= i < |t.rows| ==> t.rows[i][j] == JStr(kv.value))
            && (forall i, k :: 0 <= i < |t.rows| && 0 <= k < |raw.cols| && raw.cols[k].name != kv.key ==>
                  t.rows[i][k] == raw.rows[i][k])
            && (kv.key !in Names(raw) ==> |t.cols| == |raw.cols| + 1)
  {
    var kept := DropLast(raw);
    var t := CsvTable(raw, Some(kv));
    var j := Find(Names(raw), kv.key);
    assert Names(kept) == Names(raw);
    if kv.key in Names(raw) {
      assert Labels(OverwriteCols(kept.cols, kv.key))[j] == kv.key;
    }
  }

  // ---------------------------------------------------------------------
  // parse_json

  /** The frame `parse_json` builds from the children of `level`: one
      `from_dict([child])` per child, concatenated in order. `level.keys()`
      on a non-dict and an empty `level` (the frame is still `None`) raise
      AttributeError. A child that is not a record gives a frame with the
      integer label `0`; `.str.lower()` refuses labels that are all
      integers, but lowers a mix of strings and integers, mapping the
      integers to NaN. Labels here are strings only, so the model raises
      AttributeError for every level with a child that is not a record. */
  function ChildrenTable(level: Json): (r: Result<Option<Table>>)
    ensures r.Ok? ==> r.value.Some? && Valid(r.value.value)
  {
    if !level.JObj? then Err(AttributeError)
    else
      var children := Values(level.members);
      if |children| == 0 || !AllObjects(children) then Err(AttributeError)
      else Ok(Some(Lowered(Records(children))))
  }

  lemma RecordsStep(xs: seq<Json>, i: int)
    requires 0 <= i < |xs| && AllObjects(xs[..i]) && xs[i].JObj?
    ensures AllObjects(xs[..i + 1])
    ensures Records(xs[..i + 1]) ==
              if i == 0 then RowTable(xs[i].members)
              else ConcatRows(Records(xs[..i]), RowTable(xs[i].members))
  {
    assert xs[..i + 1][..i] == xs[..i];
  }

  /** The loop of `parse_json` over `data.keys()`, then the relabelling. */
  method ConcatChildren(level: Json) returns (r: Result<Option<Table>>)
    ensures r == ChildrenTable(level)
  {
    if !level.JObj? {
      return Err(AttributeError);
    }
    var children := Values(level.members);
    var df: Option<Table> := None;
    var i := 0;
    while i < |children|
      invariant 0 <= i <= |children|
      invariant AllObjects(children[..i])
      invariant df == if i == 0 then None else Some(Records(children[..i]))
    {
      if !children[i].JObj? {
        assert !AllObjects(children);
        return Err(AttributeError);
      }
      var tmp := RowTable(children[i].members);
      RecordsStep(children, i);
      if df.None? {
        df := Some(tmp);
      } else {
        df := Some(ConcatRows(df.value, tmp));
      }
      i := i + 1;
    }
    assert children[..i] == children;
    if df.None? {
      return Err(AttributeError);
    }
    r := Ok(Some(Lowered(df.value)));
  }

  /** What `parse_json(data, key, sub_key)` returns: `Ok(None)` for Python's
      `None`, which it returns when a key is not there. */
  function ParseJsonSpec(data: Json, key: string, sub: Option<string>): (r: Result<Option<Table>>)
    ensures r.Ok? && r.value.Some? ==> Valid(r.value.value)
  {
    match PyIn(data, key)
    case Err(e) => Err(e)
    case Ok(found) =>
      if !found then Ok(None)
      else
        match PyIndex(data, key)
        case Err(e) => Err(e)
        case Ok(outer) =>
          if sub.None? then
            if outer.JObj? then Ok(Some(Lowered(RowTable(outer.members)))) else Err(AttributeError)
          else
            match PyIn(outer, sub.value)
            case Err(e) => Err(e)
            case Ok(found2) =>
              if !found2 then Ok(None)
              else
                match PyIndex(outer, sub.value)
                case Err(e) => Err(e)
                case Ok(level) => ChildrenTable(level)
  }

  method ParseJson(data: Json, key: string, sub: Option<string>) returns (r: Result<Option<Table>>)
    ensures r == ParseJsonSpec(data, key, sub)
  {
    var found := PyIn(data, key);
    if found.Err? {
      return Err(found.error);
    }
    if !found.value {
      return Ok(None);
    }
    // `key, data = (sub_key, data[key])` when a sub-key is given
    var k, d := key, data;
    if sub.Some? {
      var outer := PyIndex(data, key);
      if outer.Err? {
        return Err(outer.error);
      }
      k, d := sub.value, outer.value;
    }
    var inner := PyIn(d, k);
    if inner.Err? {
      return Err(inner.error);
    }
    if !inner.value {
      return Ok(None);
    }
    var node := PyIndex(d, k);
    if node.Err? {
      return Err(node.error);
    }
    if sub.Some? {
      r := ConcatChildren(node.value);
    } else if node.value.JObj? {
      r := Ok(Some(Lowered(RowTable(node.value.members))));
    } else {
      r := Err(AttributeError);
    }
  }

  /** For a dict whose entries are dicts: `None` exactly when `key` is
      missing, or `sub_key` is given and missing from `data[key]`. */
  lemma ParseJsonAbsent(data: Json, key: string, sub: Option<string>)
    requires data.JObj?
    requires key in Keys(data.members) ==> LookupOr(data.members, key).JObj?
    ensures ParseJsonSpec(data, key, sub) == Ok(None) <==>
              key !in Keys(data.members) ||
              (sub.Some? && sub.value !in Keys(LookupOr(data.members, key).members))
  {
  }

  /** Without a sub-key, `data[key]` becomes one row whose labels are its
      keys lower-cased and whose cells are its values. */
  lemma ParseJsonSingleRow(data: Json, key: string)
    requires data.JObj? && key in Keys(data.members)
    requires LookupOr(data.members, key).JObj?
    ensures var m := LookupOr(data.members, key).members;
            var r := ParseJsonSpec(data, key, None);
            && r.Ok? && r.value.Some?
            && |r.value.value.rows| == 1
            && Names(r.value.value) == LowerAll(Keys(m))
            && r.value.value.rows[0] == Values(m)
  {
    RowTableCell(LookupOr(data.members, key).members, "");
  }

  /** With a sub-key, each child of `data[key][sub_key]` becomes one row, in
      iteration order; row `i` holds child `i`'s value for each of its keys,
      and the labels are the keys of all children, lower-cased. */
  lemma ParseJsonPerChild(data: Json, key: string, sub: string)
    requires data.JObj? && key in Keys(data.members)
    requires LookupOr(data.members, key).JObj?
    requires sub in Keys(LookupOr(data.members, key).members)
    requires var level := LookupOr(LookupOr(data.members, key).members, sub);
             level.JObj? && |level.members| > 0 && AllObjects(Values(level.members))
    ensures var children := Values(LookupOr(LookupOr(data.members, key).members, sub).members);
            var r := ParseJsonSpec(data, key, Some(sub));
            && r.Ok? && r.value.Some?
            && r.value.value == Lowered(Records(children))
            && |r.value.value.rows| == |children|
            && (forall i, n :: 0 <= i < |children| ==> Cell(Records(children), i, n) == LookupOr(children[i].members, n))
            && (forall n :: n in Names(Records(children)) <==>
                  exists k :: 0 <= k < |children| && n in Keys(children[k].members))
  {
    var children := Values(LookupOr(LookupOr(data.members, key).members, sub).members);
    forall i, n | 0 <= i < |children|
      ensures Cell(Records(children), i, n) == LookupOr(children[i].members, n)
    {
      RecordsCell(children, i, n);
    }
    forall n ensures n in Names(Records(children)) <==>
                  exists k :: 0 <= k < |children| && n in Keys(children[k].members)
    {
      RecordsNames(children, n);
    }
  }

  /** An empty `data[key][sub_key]` leaves the frame `None`, and lowering its
      labels raises AttributeError. */
  lemma ParseJsonEmptyLevel(data: Json, key: string, sub: string)
    requires data.JObj? && key in Keys(data.members)
    requires LookupOr(data.members, key).JObj?
    requires LookupOr(LookupOr(data.members, key).members, sub) == JObj([])
    ensures ParseJsonSpec(data, key, Some(sub)) == Err(AttributeError)
  {
  }
}
