/** `SentimentsData`: news articles for a symbol, whose nested `sentiment`
    objects `parse_sentiments` spreads into columns of their own. */
module Sentiments {
  import opened Errors
  import opened Text
  import opened JsonValues
  import opened Tables
  import opened Frames
  import opened Environment
  import opened Parsing
  import opened EodPrices

  /** `SentimentsData(base_dir, api_token)`: the extra exclusion names
      `parse_sentiment`, which is not the static method's name. */
  function SentimentSource(baseDir: string, apiToken: string): (s: Source)
    ensures s.baseDir == baseDir + "/sentiments" && s.apiToken == apiToken
    ensures !Dispatchable(s, "parse_sentiment")
    ensures Dispatchable(s, "parse_sentiments")
  {
    NewSource(baseDir + "/sentiments", apiToken, ["parse_sentiment"])
  }

  /** The `sentiment` cell of every row, in row order. */
  function SentimentCells(t: Table): (r: seq<Json>)
    requires Valid(t)
    ensures |r| == |t.rows|
    ensures forall i :: 0 <= i < |t.rows| ==> r[i] == Cell(t, i, "sentiment")
  {
    seq(|t.rows|, i requires 0 <= i < |t.rows| => Cell(t, i, "sentiment"))
  }

  /** What `parse_sentiments` leaves in the frame it was given: the
      `sentiment` column dropped and `date` retagged as a date, each step
      done only when the steps before it got that far. */
  function FrameAfter(t: Table): (r: Table)
    requires Valid(t)
    ensures Valid(r)
  {
    if "sentiment" !in Names(t) || !AllObjects(SentimentCells(t)) then t
    else
      var d := Drop(t, "sentiment");
      match Coerced(d, "date", Date)
      case Ok(c) => c
      case Err(_) => d
  }

  /** What `parse_sentiments` returns or raises. */
  function ParseSentimentsSpec(t: Table): (r: Result<Table>)
    requires Valid(t)
    ensures r.Ok? ==> Valid(r.value)
  {
    if "sentiment" !in Names(t) then Err(AttributeError)
    else if !AllObjects(SentimentCells(t)) then Err(ValueError)
    else
      match Coerced(Drop(t, "sentiment"), "date", Date)
      case Err(e) => Err(e)
      case Ok(_) =>
        if |t.rows| == 0 then Ok(FrameAfter(t))
        else Ok(ConcatCols(FrameAfter(t), Records(SentimentCells(t))))
  }

  /** `SentimentsData.parse_sentiments(data)`: one row frame per sentiment
      object, concatenated in row order; then the caller's frame loses its
      `sentiment` column, gets its `date` column coerced, and is put side by
      side with the concatenated sentiments. */
  method ParseSentiments(data: Frame) returns (r: Result<Table>)
    requires data.Valid()
    modifies data
    ensures data.Valid()
    ensures data.Value() == FrameAfter(old(data.Value()))
    ensures r == ParseSentimentsSpec(old(data.Value()))
  {
    var t := data.Value();
    if "sentiment" !in Names(t) {
      return Err(AttributeError);
    }
    var cells := SentimentCells(t);
    var sentiment: Option<Table> := None;
    var i := 0;
    while i < |t.rows|
      invariant 0 <= i <= |t.rows|
      invariant data.Value() == t
      invariant AllObjects(cells[..i])
      invariant sentiment == if i == 0 then None else Some(Records(cells[..i]))
    {
      var cell := Cell(t, i, "sentiment");
      if !cell.JObj? {
        assert !AllObjects(cells);
        return Err(ValueError);
      }
      var tmp := RowTable(cell.members);
      RecordsStep(cells, i);
      if sentiment.None? {
        sentiment := Some(tmp);
      } else {
        sentiment := Some(ConcatRows(sentiment.value, tmp));
      }
      i := i + 1;
    }
    assert cells[..i] == cells;
    var dropped := data.Drop("sentiment");
    var o := data.Coerce("date", Date);
    if o.Raised? {
      return Err(o.error);
    }
    if sentiment.None? {
      r := Ok(data.Value());
    } else {
      r := Ok(ConcatCols(data.Value(), sentiment.value));
    }
  }

  /** `parse_sentiments` fails exactly when the `sentiment` column is
      missing, a sentiment is not an object, or there is not exactly one
      `date` column; when it succeeds it keeps
      every row, and its columns are the caller's remaining columns
      followed by those of the sentiments. */
  lemma ParseSentimentsShape(t: Table)
    requires Valid(t)
    ensures ParseSentimentsSpec(t).Ok? <==>
              "sentiment" in Names(t) && Occurrences(t.cols, "date") == 1 && AllObjects(SentimentCells(t))
    ensures ParseSentimentsSpec(t).Ok? ==>
              var r := ParseSentimentsSpec(t).value;
              && |r.rows| == |t.rows|
              && |FrameAfter(t).cols| <= |r.cols|
              && r.cols[..|FrameAfter(t).cols|] == FrameAfter(t).cols
              && Names(FrameAfter(t)) == Labels(Without(t.cols, "sentiment"))
              && "sentiment" !in Names(FrameAfter(t))
              && (forall k :: 0 <= k < |FrameAfter(t).cols| && FrameAfter(t).cols[k].name == "date" ==>
                    FrameAfter(t).cols[k].kind == Date)
  {
    var d := Drop(t, "sentiment");
    OccurrencesWithout(t.cols, "sentiment", "date");
    if ParseSentimentsSpec(t).Ok? {
      var r := ParseSentimentsSpec(t).value;
      var a := FrameAfter(t);
      assert a == Coerced(d, "date", Date).value;
      if |t.rows| > 0 {
        assert r.cols == a.cols + Records(SentimentCells(t)).cols;
        assert r.cols[..|a.cols|] == a.cols;
      }
    }
  }

  /** `date` survives the drop: it is in the dropped table exactly when it
      was in the table. */
  lemma DropNames(t: Table, name: string, n: string)
    requires Valid(t) && n != name
    ensures n in Names(Drop(t, name)) <==> n in Names(t)
  {
    var w := Without(t.cols, name);
    if n in Names(t) {
      var k :| 0 <= k < |t.cols| && Labels(t.cols)[k] == n;
      assert t.cols[k] in w;
      InLabels(w, t.cols[k]);
    }
    if n in Names(Drop(t, name)) {
      var k :| 0 <= k < |w| && Labels(w)[k] == n;
      assert w[k] in t.cols;
      InLabels(t.cols, w[k]);
    }
  }

  /** Row `i` of the result: read by label, the first part is row `i` of the
      input without its `sentiment` cell, and the appended part is row `i`'s
      sentiment object; the appended labels are the keys that occur in some
      row's sentiment object. */
  lemma ParseSentimentsRow(t: Table, i: int, n: string)
    requires Valid(t) && 0 <= i < |t.rows|
    requires ParseSentimentsSpec(t).Ok?
    ensures var r := ParseSentimentsSpec(t).value;
            var m := |FrameAfter(t).cols|;
            var cells := SentimentCells(t);
            && m <= |r.cols| && |r.rows| == |t.rows| && |r.rows[i]| == |r.cols|
            && (n != "sentiment" ==> ValueAt(r.cols[..m], r.rows[i][..m], n) == Cell(t, i, n))
            && ValueAt(r.cols[m..], r.rows[i][m..], n) == LookupOr(cells[i].members, n)
            && (n in Labels(r.cols[m..]) <==> exists k :: 0 <= k < |cells| && n in Keys(cells[k].members))
  {
    ParseSentimentsShape(t);
    var r := ParseSentimentsSpec(t).value;
    var cells := SentimentCells(t);
    var d := Drop(t, "sentiment");
    var a := FrameAfter(t);
    var s := Records(cells);
    var m := |a.cols|;
    assert r == ConcatCols(a, s);
    assert r.rows[i] == a.rows[i] + s.rows[i];
    assert r.cols[m..] == s.cols;
    assert r.rows[i][m..] == s.rows[i];
    assert r.rows[i][..m] == a.rows[i];
    if n != "sentiment" {
      ValueAtSameLabels(a.cols, d.cols, d.rows[i], n);
      DropCell(t, "sentiment", i, n);
    }
    RecordsCell(cells, i, n);
    RecordsNames(cells, n);
  }

  /** With no articles there is no `sentiment` column to read. */
  lemma ParseSentimentsEmpty()
    ensures ParseSentimentsSpec(Table([], [])) == Err(AttributeError)
  {
  }

  // ---------------------------------------------------------------------
  // `sentiments(symbol)`.

  function NewsUrl(src: Source, symbol: string): string
  {
    RequestUrl(src.apiToken, "news", ["s=" + symbol])
  }

  /** `sentiments(symbol)`: fetch the news, decode it, flatten it and write
      it under an empty parent directory. */
  function SentimentsStep(api: Api, w: World, src: Source, symbol: string): (s: Step)
    ensures s.world.requests == w.requests + [NewsUrl(src, symbol)]
    ensures s.world.log == w.log
    ensures s.outcome.Raised? ==> s.world.files == w.files
  {
    var w1 := Fetched(w, NewsUrl(src, symbol));
    match JsonOf(api(NewsUrl(src, symbol)))
    case Err(e) => Step(w1, Raised(e))
    case Ok(j) =>
      match FromRecords(j)
      case Err(e) => Step(w1, Raised(e))
      case Ok(t) =>
        match ParseSentimentsSpec(t)
        case Err(e) => Step(w1, Raised(e))
        case Ok(r) => Step(Written(w1, ParquetPath(src.baseDir, "", symbol), r), Done)
  }

  method Sentiments(env: Env, src: Source, symbol: string) returns (o: Outcome)
    modifies env
    ensures Step(env.State(), o) == SentimentsStep(env.api, old(env.State()), src, symbol)
  {
    var body := Request(env, src, "news", ["s=" + symbol]);
    var data := JsonOf(body);
    if data.Err? {
      return Raised(data.error);
    }
    var t := FromRecords(data.value);
    if t.Err? {
      return Raised(t.error);
    }
    var df := new Frame(t.value);
    var r := ParseSentiments(df);
    if r.Err? {
      return Raised(r.error);
    }
    ToParquet(env, src, symbol, r.value, "");
    o := Done;
  }

  /** How `sentiments` ends depends on the API's answer only, not on the
      state it starts from. */
  lemma SentimentsAnyWorld(api: Api, w1: World, w2: World, src: Source, symbol: string)
    ensures SentimentsStep(api, w1, src, symbol).outcome == SentimentsStep(api, w2, src, symbol).outcome
  {
  }

  /** The empty parent directory leaves a double slash in the path. */
  lemma EmptyParentPath(baseDir: string, symbol: string)
    ensures ParquetPath(baseDir, "", symbol) == baseDir + "//" + symbol + ".parq"
  {
    assert baseDir + "/" + "" == baseDir + "/";
    assert baseDir + "/" + "/" == baseDir + "//";
  }

  /** A successful `sentiments` writes one file, the symbol's under the
      empty parent directory, holding one row per article. */
  lemma SentimentsEffect(api: Api, w: World, src: Source, symbol: string)
    ensures var s := SentimentsStep(api, w, src, symbol);
            s.outcome.Done? ==>
              var path := ParquetPath(src.baseDir, "", symbol);
              && path in s.world.files
              && s.world.files == w.files[path := s.world.files[path]]
              && var j := JsonOf(api(NewsUrl(src, symbol))).value;
                 && j.JArr?
                 && |s.world.files[path].rows| == |j.items|
  {
    var s := SentimentsStep(api, w, src, symbol);
    if s.outcome.Done? {
      var t := FromRecords(JsonOf(api(NewsUrl(src, symbol))).value).value;
      ParseSentimentsShape(t);
    }
  }
}
