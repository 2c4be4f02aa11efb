/** `EodData`, the base of every downloader (request building, output paths,
    method discovery, the latest-prices listing) and `EodPricesData`, which
    stores the end-of-day price history of one symbol. */
module EodPrices {
  import opened Errors
  import opened Text
  import opened JsonValues
  import opened Tables
  import opened Frames
  import opened Environment
  import opened Parsing

  const EodUrl: string := "https://eodhistoricaldata.com/api"

  /** The names `get_methods` never returns, whatever the subclass adds. */
  const BaseExclude: seq<string> :=
    ["base_dir", "api_token", "get_methods", "to_parquet", "request",
     "bulk_request", "eod_latest_prices", "exclude_list"]

  /** An `EodData` object: its attributes never change after construction. */
  datatype Source = Source(baseDir: string, apiToken: string, excludeList: seq<string>)

  /** Whether `get_methods` keeps the attribute `x`. */
  predicate Dispatchable(src: Source, x: string)
  {
    !HasDunder(x) && x !in src.excludeList
  }

  /** `EodData(base_dir, api_token, exclude_list)`: the base exclusions
      followed by the subclass's own. */
  function NewSource(baseDir: string, apiToken: string, extra: seq<string>): (s: Source)
    ensures s.baseDir == baseDir && s.apiToken == apiToken
    ensures forall x :: x in BaseExclude || x in extra ==> !Dispatchable(s, x)
    ensures forall x :: !HasDunder(x) && x !in BaseExclude && x !in extra ==> Dispatchable(s, x)
  {
    Source(baseDir, apiToken, BaseExclude + extra)
  }

  // ---------------------------------------------------------------------
  // request

  /** The query-string tail: `"&" + "&".join(params)`, or nothing. */
  function ParamSuffix(params: seq<string>): string
  {
    if |params| > 0 then "&" + Join("&", params) else ""
  }

  /** Reference reading of the tail: each parameter preceded by its own `&`. */
  function AmpEach(params: seq<string>): string
  {
    if |params| == 0 then "" else "&" + params[0] + AmpEach(params[1..])
  }

  lemma {:induction false} ParamSuffixIsAmpEach(params: seq<string>)
    ensures ParamSuffix(params) == AmpEach(params)
  {
    if |params| > 1 {
      ParamSuffixIsAmpEach(params[1..]);
      assert ParamSuffix(params) == "&" + params[0] + ("&" + Join("&", params[1..]));
    }
  }

  /** The URL `request(path, params)` opens. */
  function RequestUrl(token: string, path: string, params: seq<string>): (url: string)
    ensures url == EodUrl + "/" + path + "?api_token=" + token + AmpEach(params)
  {
    ParamSuffixIsAmpEach(params);
    EodUrl + "/" + path + "?api_token=" + token + ParamSuffix(params)
  }

  /** Two requests for the same path with the same parameters under
      different tokens open different URLs, and so do two paths of the
      same length. */
  lemma RequestUrlDistinguishes(t1: string, t2: string, p1: string, p2: string, params: seq<string>)
    requires |p1| == |p2| && (p1 != p2 || (|t1| == |t2| && t1 != t2))
    ensures RequestUrl(t1, p1, params) != RequestUrl(t2, p2, params)
  {
    var u1, u2 := RequestUrl(t1, p1, params), RequestUrl(t2, p2, params);
    var n := |EodUrl + "/"|;
    if p1 != p2 {
      assert u1[n..n + |p1|] == p1;
      assert u2[n..n + |p2|] == p2;
    } else {
      var m := n + |p1| + |"?api_token="|;
      assert u1[m..m + |t1|] == t1;
      assert u2[m..m + |t2|] == t2;
    }
  }

  /** With one parameter the URL is the bare one followed by `&` and it. */
  lemma RequestUrlOneParam(token: string, path: string, p: string)
    ensures RequestUrl(token, path, [p]) == RequestUrl(token, path, []) + ("&" + p)
  {
  }

  lemma PrefixCancel(x: string, a: string, b: string)
    requires x + a == x + b
    ensures a == b
  {
    assert a == (x + a)[|x|..];
    assert b == (x + b)[|x|..];
  }

  method Request(env: Env, src: Source, path: string, params: seq<string>) returns (r: Result<Body>)
    modifies env
    ensures env.State() == Fetched(old(env.State()), RequestUrl(src.apiToken, path, params))
    ensures r == env.api(RequestUrl(src.apiToken, path, params))
  {
    r := env.Fetch(RequestUrl(src.apiToken, path, params));
  }

  // ---------------------------------------------------------------------
  // to_parquet

  /** `f"{base_dir}/{parent_dir}/{symbol}.parq"`. */
  function ParquetPath(baseDir: string, parent: string, symbol: string): string
  {
    baseDir + "/" + parent + "/" + symbol + ".parq"
  }

  /** Different symbols never share a file under the same directory. */
  lemma ParquetPathInjective(baseDir: string, parent: string, s1: string, s2: string)
    requires ParquetPath(baseDir, parent, s1) == ParquetPath(baseDir, parent, s2)
    ensures s1 == s2
  {
    var n := |baseDir + "/" + parent + "/"|;
    var p1, p2 := ParquetPath(baseDir, parent, s1), ParquetPath(baseDir, parent, s2);
    assert |s1| == |s2| by { assert |p1| == n + |s1| + 5 && |p2| == n + |s2| + 5; }
    assert p1[n..n + |s1|] == s1;
    assert p2[n..n + |s2|] == s2;
  }

  method ToParquet(env: Env, src: Source, symbol: string, data: Table, parent: string)
    modifies env
    ensures env.State() == Written(old(env.State()), ParquetPath(src.baseDir, parent, symbol), data)
  {
    env.Write(ParquetPath(src.baseDir, parent, symbol), data);
  }

  // ---------------------------------------------------------------------
  // get_methods

  /** `get_methods()` over the names `dir(self)` lists: those without `__`
      and not excluded, in the order `dir` gives them. */
  function GetMethods(src: Source, dir: seq<string>): (r: seq<string>)
    ensures forall x :: x in r <==> x in dir && Dispatchable(src, x)
    ensures |r| <= |dir|
  {
    if |dir| == 0 then []
    else (if Dispatchable(src, dir[0]) then [dir[0]] else []) + GetMethods(src, dir[1..])
  }

  /** `dir` sorts its names, and the filter keeps that order. */
  lemma {:induction false} GetMethodsSorted(src: Source, dir: seq<string>)
    requires Sorted(dir)
    ensures Sorted(GetMethods(src, dir))
  {
    if |dir| > 0 {
      var rest := GetMethods(src, dir[1..]);
      assert Sorted(dir[1..]) by {
        forall i, j | 0 <= i < j < |dir| - 1 ensures Less(dir[1..][i], dir[1..][j]) {
          assert dir[1..][i] == dir[i + 1] && dir[1..][j] == dir[j + 1];
        }
      }
      GetMethodsSorted(src, dir[1..]);
      if Dispatchable(src, dir[0]) {
        var r := [dir[0]] + rest;
        forall i, j | 0 <= i < j < |r| ensures Less(r[i], r[j]) {
          if i == 0 {
            assert r[j] == rest[j - 1];
            assert rest[j - 1] in dir[1..];
            var k :| 0 <= k < |dir[1..]| && dir[1..][k] == rest[j - 1];
            assert dir[k + 1] == r[j];
          } else {
            assert r[i] == rest[i - 1] && r[j] == rest[j - 1];
          }
        }
      }
    }
  }

  // ---------------------------------------------------------------------
  // eod_latest_prices

  function LatestUrl(src: Source, exchange: string): string
  {
    RequestUrl(src.apiToken, "eod-bulk-last-day/" + exchange, [])
  }

  /** `eod_latest_prices(exchange)`: the day's listing, through `parse_csv`
      without a key column. */
  function LatestPrices(api: Api, src: Source, exchange: string): (r: Result<Table>)
    ensures r.Ok? ==> Valid(r.value)
    ensures r.Ok? <==> CsvOf(api(LatestUrl(src, exchange))).Ok?
    ensures r.Ok? ==> r.value == CsvTable(CsvOf(api(LatestUrl(src, exchange))).value, None)
  {
    match CsvOf(api(LatestUrl(src, exchange)))
    case Err(e) => Err(e)
    case Ok(raw) => Ok(CsvTable(raw, None))
  }

  method EodLatestPrices(env: Env, src: Source, exchange: string) returns (r: Result<Table>)
    modifies env
    ensures env.State() == Fetched(old(env.State()), LatestUrl(src, exchange))
    ensures r == LatestPrices(env.api, src, exchange)
  {
    var body := Request(env, src, "eod-bulk-last-day/" + exchange, []);
    var raw := CsvOf(body);
    if raw.Err? {
      return Err(raw.error);
    }
    var df := ParseCsv(raw.value, None);
    r := Ok(df.Value());
  }

  // ---------------------------------------------------------------------
  // EodPricesData

  /** `EodPricesData(base_dir, api_token)`: no extra exclusions. */
  function EodPricesSource(baseDir: string, apiToken: string): (s: Source)
    ensures s.baseDir == baseDir && s.apiToken == apiToken
    ensures forall x :: Dispatchable(s, x) <==> !HasDunder(x) && x !in BaseExclude
  {
    NewSource(baseDir, apiToken, [])
  }

  function EodUrlFor(src: Source, symbol: string): string
  {
    RequestUrl(src.apiToken, "eod/" + symbol, [])
  }

  /** The frame `eod_prices` builds before writing it. */
  function PricesTable(raw: Table, symbol: string): Table
    requires Valid(raw)
  {
    CsvTable(raw, Some(KeyValue("symbol", symbol)))
  }

  /** `eod_prices(symbol)`: fetch the history, add the symbol column, make
      the `date` column dates (KeyError when there is none, ValueError when
      several columns are labelled `date`) and write
      `<base>/eod_prices/<symbol>.parq`. */
  function EodPricesStep(api: Api, w: World, src: Source, symbol: string): (s: Step)
    ensures s.world.requests == w.requests + [EodUrlFor(src, symbol)]
    ensures s.world.log == w.log
    ensures s.outcome.Raised? ==> s.world.files == w.files
  {
    var w1 := Fetched(w, EodUrlFor(src, symbol));
    match CsvOf(api(EodUrlFor(src, symbol)))
    case Err(e) => Step(w1, Raised(e))
    case Ok(raw) =>
      match Coerced(PricesTable(raw, symbol), "date", Date)
      case Err(e) => Step(w1, Raised(e))
      case Ok(t) => Step(Written(w1, ParquetPath(src.baseDir, "eod_prices", symbol), t), Done)
  }

  method EodPrices(env: Env, src: Source, symbol: string) returns (o: Outcome)
    modifies env
    ensures Step(env.State(), o) == EodPricesStep(env.api, old(env.State()), src, symbol)
  {
    var body := Request(env, src, "eod/" + symbol, []);
    var raw := CsvOf(body);
    if raw.Err? {
      return Raised(raw.error);
    }
    var df := ParseCsv(raw.value, Some(KeyValue("symbol", symbol)));
    o := df.Coerce("date", Date);
    if o.Done? {
      ToParquet(env, src, symbol, df.Value(), "eod_prices");
    }
  }

  /** How `eod_prices` ends depends on the API's answer only, not on the
      state it starts from. */
  lemma EodPricesAnyWorld(api: Api, w1: World, w2: World, src: Source, symbol: string)
    ensures EodPricesStep(api, w1, src, symbol).outcome == EodPricesStep(api, w2, src, symbol).outcome
  {
  }

  /** A successful `eod_prices` writes exactly one file, the symbol's own;
      it holds every downloaded row but the trailer, a `symbol` column
      holding the symbol in every row, and its `date` columns as dates.
      It fails exactly when the download or the CSV fails, or the listing
      has no `date` column or more than one. */
  lemma EodPricesEffect(api: Api, w: World, src: Source, symbol: string)
    ensures var s := EodPricesStep(api, w, src, symbol);
            var raw := CsvOf(api(EodUrlFor(src, symbol)));
            && (s.outcome.Done? <==> raw.Ok? && Occurrences(PricesTable(raw.value, symbol).cols, "date") == 1)
            && (raw.Ok? && s.outcome.Raised? ==>
                  s.outcome.error == if "date" in Names(PricesTable(raw.value, symbol)) then ValueError else KeyError("date"))
            && (s.outcome.Done? ==>
                  var path := ParquetPath(src.baseDir, "eod_prices", symbol);
                  var t := s.world.files[path];
                  && s.world.files == w.files[path := t]
                  && Valid(t)
                  && |t.rows| == (if |raw.value.rows| == 0 then 0 else |raw.value.rows| - 1)
                  && (exists j :: 0 <= j < |t.cols| && t.cols[j].name == "symbol" &&
                        forall i :: 0 <= i < |t.rows| ==> t.rows[i][j] == JStr(symbol))
                  && Occurrences(t.cols, "date") == 1
                  && (forall k :: 0 <= k < |t.cols| && t.cols[k].name == "date" ==> t.cols[k].kind == Date))
  {
    var raw := CsvOf(api(EodUrlFor(src, symbol)));
    if raw.Ok? && Coerced(PricesTable(raw.value, symbol), "date", Date).Ok? {
      PricesFile(raw.value, symbol);
    }
  }

  /** The frame `eod_prices` writes once its `date` column is converted. */
  lemma PricesFile(raw: Table, symbol: string)
    requires Valid(raw) && Coerced(PricesTable(raw, symbol), "date", Date).Ok?
    ensures var t := Coerced(PricesTable(raw, symbol), "date", Date).value;
            && Valid(t)
            && |t.rows| == (if |raw.rows| == 0 then 0 else |raw.rows| - 1)
            && (exists j :: 0 <= j < |t.cols| && t.cols[j].name == "symbol" &&
                  forall i :: 0 <= i < |t.rows| ==> t.rows[i][j] == JStr(symbol))
            && Occurrences(t.cols, "date") == 1
            && (forall k :: 0 <= k < |t.cols| && t.cols[k].name == "date" ==> t.cols[k].kind == Date)
  {
    var p := PricesTable(raw, symbol);
    var j := SymbolColumn(raw, symbol);
    var t := Coerced(p, "date", Date).value;
    OccurrencesSameLabels(t.cols, p.cols, "date");
    assert Names(t)[j] == "symbol";
    assert t.cols[j].name == "symbol";
    assert forall i :: 0 <= i < |t.rows| ==> t.rows[i][j] == JStr(symbol);
  }

  /** The listing before conversion: one row per downloaded row but the
      trailer, and a `symbol` column holding the symbol in every row. */
  lemma SymbolColumn(raw: Table, symbol: string) returns (j: nat)
    requires Valid(raw)
    ensures var p := PricesTable(raw, symbol);
            && Valid(p)
            && |p.rows| == (if |raw.rows| == 0 then 0 else |raw.rows| - 1)
            && j < |p.cols| && Names(p)[j] == "symbol"
            && forall i :: 0 <= i < |p.rows| ==> p.rows[i][j] == JStr(symbol)
  {
    CsvRows(raw, Some(KeyValue("symbol", symbol)));
    CsvKeyColumn(raw, KeyValue("symbol", symbol));
    j := Find(Names(raw), "symbol");
    assert Lower("symbol") == "symbol" by { LowerFixesLower("symbol"); }
  }
}
