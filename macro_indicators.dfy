/** `MacroIndicatorsData`: one request per indicator method, each response
    written by that method to a file named after the indicator (three
    methods name a different file). */
module MacroIndicators {
  import opened Errors
  import opened Text
  import opened JsonValues
  import opened Tables
  import opened Environment
  import opened EodPrices

  const MacroExclude: seq<string> := ["macro_indicators_exchange"]

  /** `MacroIndicatorsData(base_dir, api_token)`. */
  function MacroSource(baseDir: string, apiToken: string): (s: Source)
    ensures s.baseDir == baseDir + "/macro_indicators"
    ensures !Dispatchable(s, "macro_indicators_exchange")
  {
    NewSource(baseDir + "/macro_indicators", apiToken, MacroExclude)
  }

  /** The indicator methods the class defines (the class body defines
      `gross_capital_formation_percent_gdp` twice; the second definition
      replaces the first, so the class has it once). */
  const Indicators: set<string> := {
    "real_interest_rate", "population_total", "population_growth_annual",
    "inflation_consumer_prices_annual", "consumer_price_index", "gdp_current_usd",
    "gdp_per_capita_usd", "gdp_growth_annual", "debt_percent_gdp",
    "net_trades_goods_services", "inflation_gdp_deflator_annual",
    "agriculture_value_added_percent_gdp", "industry_value_added_percent_gdp",
    "services_value_added_percent_gdp", "exports_of_goods_services_percent_gdp",
    "imports_of_goods_services_percent_gdp", "gross_capital_formation_percent_gdp",
    "net_migration", "gni_usd", "gni_per_capita_usd", "gni_ppp_usd",
    "gni_per_capita_ppp_usd", "income_share_lowest_twenty", "life_expectancy",
    "fertility_rate", "prevalence_hiv_total", "co2_emissions_tons_per_capita",
    "surface_area_km", "poverty_poverty_lines_percent_population",
    "revenue_excluding_grants_percent_gdp", "cash_surplus_deficit_percent_gdp",
    "startup_procedures_register", "market_cap_domestic_companies_percent_gdp",
    "mobile_subscriptions_per_hundred", "internet_users_per_hundred",
    "high_technology_exports_percent_total", "merchandise_trade_percent_gdp",
    "total_debt_service_percent_gni"
  }

  /** The file name (without `.parq`) each indicator method writes. */
  function OutName(name: string): string
  {
    if name == "debt_percent_gdp" then "gdp_growth_annual"
    else if name == "income_share_lowest_twenty" then "gni_per_capita_ppp_usd"
    else if name == "merchandise_trade_percent_gdp" then "merchandise_trade_percent_gdpl"
    else name
  }

  /** The indicator method `name`: `to_parquet(OutName(name), data, exchange)`. */
  method Indicator(env: Env, src: Source, exchange: string, name: string, data: Table)
    requires name in Indicators
    modifies env
    ensures env.State() == Written(old(env.State()), OutPath(src, exchange, name), data)
  {
    ToParquet(env, src, OutName(name), data, exchange);
  }

  function IndicatorUrl(src: Source, exchange: string, name: string): string
  {
    RequestUrl(src.apiToken, "macro-indicator/" + exchange, ["indicator=" + name])
  }

  /** The file the indicator method `name` writes under `exchange`. */
  function OutPath(src: Source, exchange: string, name: string): string
  {
    ParquetPath(src.baseDir, exchange, OutName(name))
  }

  /** The table the response for `name` gives, when it gives one. */
  function Response(api: Api, src: Source, exchange: string, name: string): Result<Table>
  {
    match JsonOf(api(IndicatorUrl(src, exchange, name)))
    case Err(e) => Err(e)
    case Ok(j) => FromRecords(j)
  }

  /** One pass of the loop in `macro_indicators_exchange`: request, decode,
      build the frame, look the method up and call it. The pass completes
      exactly when the response gives a table and `name` is an indicator
      method, and then only the method's file changes. */
  function IndicatorStep(api: Api, w: World, src: Source, exchange: string, methods: set<string>, name: string): (s: Step)
    ensures s.world.requests == w.requests + [IndicatorUrl(src, exchange, name)]
    ensures s.world.log == w.log
    ensures s.outcome.Done? <==> name in methods && Response(api, src, exchange, name).Ok?
    ensures s.outcome.Done? ==>
              s.world.files == w.files[OutPath(src, exchange, name) := Response(api, src, exchange, name).value]
    ensures s.outcome.Raised? ==> s.world.files == w.files
    ensures s.outcome.Raised? && Response(api, src, exchange, name).Err? ==>
              s.outcome.error == Response(api, src, exchange, name).error
    ensures s.outcome.Raised? && Response(api, src, exchange, name).Ok? ==> s.outcome.error == AttributeError
  {
    var w1 := Fetched(w, IndicatorUrl(src, exchange, name));
    match Response(api, src, exchange, name)
    case Err(e) => Step(w1, Raised(e))
    case Ok(t) =>
      if name !in methods then Step(w1, Raised(AttributeError))
      else Step(Written(w1, OutPath(src, exchange, name), t), Done)
  }

  /** The pass of the loop as a runner over names. */
  function IndicatorRunner(api: Api, src: Source, exchange: string, methods: set<string>): Runner
  {
    (w: World, name: string) => IndicatorStep(api, w, src, exchange, methods, name)
  }

  /** The table a pass for `name` writes when it completes. */
  function IndicatorData(api: Api, src: Source, exchange: string, name: string): Table
  {
    match Response(api, src, exchange, name)
    case Ok(t) => t
    case Err(_) => Table([], [])
  }

  /** The loop over `names`, stopping at the first exception. */
  function RunFrom(run: Runner, w: World, names: seq<string>): Step
    decreases |names|
  {
    if |names| == 0 then Step(w, Done)
    else
      var s := run(w, names[0]);
      if s.outcome.Raised? then s else RunFrom(run, s.world, names[1..])
  }

  /** `macro_indicators_exchange(exchange)`: one pass per name `dir()` lists. */
  function MacroRun(api: Api, w: World, src: Source, exchange: string, methods: set<string>, dir: seq<string>): Step
  {
    RunFrom(IndicatorRunner(api, src, exchange, methods), w, GetMethods(src, dir))
  }

  method MacroIndicatorsExchange(env: Env, src: Source, exchange: string, dir: seq<string>) returns (o: Outcome)
    modifies env
    ensures Step(env.State(), o) == MacroRun(env.api, old(env.State()), src, exchange, Indicators, dir)
  {
    var names := GetMethods(src, dir);
    ghost var run := IndicatorRunner(env.api, src, exchange, Indicators);
    ghost var goal := RunFrom(run, env.State(), names);
    var i := 0;
    while i < |names|
      invariant 0 <= i <= |names|
      invariant goal == RunFrom(run, env.State(), names[i..])
    {
      var name := names[i];
      ghost var s := IndicatorStep(env.api, env.State(), src, exchange, Indicators, name);
      assert names[i..][1..] == names[i + 1..];
      assert RunFrom(run, env.State(), names[i..]) ==
             if s.outcome.Raised? then s else RunFrom(run, s.world, names[i + 1..]);
      var body := Request(env, src, "macro-indicator/" + exchange, ["indicator=" + name]);
      var data := JsonOf(body);
      if data.Err? {
        return Raised(data.error);
      }
      var t := FromRecords(data.value);
      if t.Err? {
        return Raised(t.error);
      }
      if name !in Indicators {
        return Raised(AttributeError);
      }
      Indicator(env, src, exchange, name, t.value);
      i := i + 1;
    }
    o := Done;
  }

  /** What one pass requests, when it completes and what it writes. */
  lemma IndicatorRunnerFacts(api: Api, src: Source, exchange: string, methods: set<string>)
    ensures OneRequestEach(IndicatorRunner(api, src, exchange, methods), (x: string) => IndicatorUrl(src, exchange, x))
    ensures CompletesOnly(IndicatorRunner(api, src, exchange, methods),
                          (x: string) => x in methods && Response(api, src, exchange, x).Ok?)
    ensures WritesEach(IndicatorRunner(api, src, exchange, methods),
                       (x: string) => OutPath(src, exchange, x), (x: string) => IndicatorData(api, src, exchange, x))
  {
  }

  // ---------------------------------------------------------------------
  // Which files a run writes.

  /** Only two pairs of indicators share an output file. */
  lemma OutNameCollisions(a: string, b: string)
    requires a in Indicators && b in Indicators && a != b
    ensures OutName(a) == OutName(b) <==>
              ({a, b} == {"gdp_growth_annual", "debt_percent_gdp"} ||
               {a, b} == {"gni_per_capita_ppp_usd", "income_share_lowest_twenty"})
  {
    GdplNotIndicator();
    if {a, b} == {"gdp_growth_annual", "debt_percent_gdp"} {
      assert a == "gdp_growth_annual" || a == "debt_percent_gdp";
    } else if {a, b} == {"gni_per_capita_ppp_usd", "income_share_lowest_twenty"} {
      assert a == "gni_per_capita_ppp_usd" || a == "income_share_lowest_twenty";
    }
  }

  lemma GdplNotIndicator()
    ensures "merchandise_trade_percent_gdpl" !in Indicators
  {
  }

  /** `OutName` is one-to-one once the two shadowed methods are set aside. */
  lemma OutNameInjectiveOff(a: string, b: string)
    requires a in Indicators - {"debt_percent_gdp", "income_share_lowest_twenty"}
    requires b in Indicators - {"debt_percent_gdp", "income_share_lowest_twenty"}
    requires OutName(a) == OutName(b)
    ensures a == b
  {
    GdplNotIndicator();
  }

  /** The files a run over the indicator names `n` writes. */
  function OutputFiles(src: Source, exchange: string, n: set<string>): set<string>
  {
    set x | x in n :: OutPath(src, exchange, x)
  }

  /** Names that write pairwise different files write as many files as there
      are names. */
  lemma {:induction false} OutputFilesSize(src: Source, exchange: string, n: set<string>)
    requires forall a, b :: a in n && b in n && OutPath(src, exchange, a) == OutPath(src, exchange, b) ==> a == b
    ensures |OutputFiles(src, exchange, n)| == |n|
    decreases |n|
  {
    if n != {} {
      var x :| x in n;
      var rest := n - {x};
      OutputFilesSize(src, exchange, rest);
      assert OutputFiles(src, exchange, n) == OutputFiles(src, exchange, rest) + {OutPath(src, exchange, x)};
      assert OutPath(src, exchange, x) !in OutputFiles(src, exchange, rest);
    }
  }

  /** A run over a set of indicator methods holding both shadowed pairs
      writes two files fewer than it has methods. */
  lemma DistinctOutputs(src: Source, exchange: string, n: set<string>)
    requires n <= Indicators
    requires {"gdp_growth_annual", "debt_percent_gdp", "gni_per_capita_ppp_usd", "income_share_lowest_twenty"} <= n
    ensures |OutputFiles(src, exchange, n)| == |n| - 2
  {
    var n1 := n - {"debt_percent_gdp"};
    var kept := n1 - {"income_share_lowest_twenty"};
    forall a, b | a in kept && b in kept && OutPath(src, exchange, a) == OutPath(src, exchange, b) ensures a == b {
      ParquetPathInjective(src.baseDir, exchange, OutName(a), OutName(b));
      OutNameInjectiveOff(a, b);
    }
    OutputFilesSize(src, exchange, kept);
    assert OutPath(src, exchange, "debt_percent_gdp") == OutPath(src, exchange, "gdp_growth_annual");
    assert OutPath(src, exchange, "income_share_lowest_twenty") == OutPath(src, exchange, "gni_per_capita_ppp_usd");
    assert OutputFiles(src, exchange, n) == OutputFiles(src, exchange, kept);
    assert |n1| == |n| - 1;
    assert |kept| == |n1| - 1;
  }

  /** A completed run called every name it listed to completion. */
  lemma {:induction false} RunCompleted(run: Runner, ok: string -> bool, w: World, names: seq<string>)
    requires CompletesOnly(run, ok)
    requires RunFrom(run, w, names).outcome.Done?
    ensures forall k :: 0 <= k < |names| ==> ok(names[k])
    decreases |names|
  {
    if |names| > 0 {
      var s := run(w, names[0]);
      RunCompleted(run, ok, s.world, names[1..]);
      forall k | 0 < k < |names| ensures ok(names[k]) {
        assert names[1..][k - 1] == names[k];
      }
    }
  }

  /** The files a completed run leaves are those it found and those of its
      names. */
  lemma {:induction false} RunWrites(run: Runner, path: string -> string, data: string -> Table, w: World, names: seq<string>)
    requires WritesEach(run, path, data)
    requires RunFrom(run, w, names).outcome.Done?
    ensures RunFrom(run, w, names).world.files.Keys == w.files.Keys + (set x | x in names :: path(x))
    decreases |names|
  {
    if |names| > 0 {
      var s := run(w, names[0]);
      assert s.world.files.Keys == w.files.Keys + {path(names[0])};
      RunWrites(run, path, data, s.world, names[1..]);
      assert names == [names[0]] + names[1..];
      assert (set x | x in names :: path(x)) == {path(names[0])} + (set x | x in names[1..] :: path(x));
    }
  }

  /** A completed run leaves alone every file none of its names writes. */
  lemma {:induction false} Untouched(run: Runner, path: string -> string, data: string -> Table, w: World, names: seq<string>, p: string)
    requires WritesEach(run, path, data)
    requires RunFrom(run, w, names).outcome.Done?
    requires forall j :: 0 <= j < |names| ==> path(names[j]) != p
    requires p in w.files
    ensures p in RunFrom(run, w, names).world.files
    ensures RunFrom(run, w, names).world.files[p] == w.files[p]
    decreases |names|
  {
    if |names| > 0 {
      var s := run(w, names[0]);
      forall j | 0 <= j < |names[1..]| ensures path(names[1..][j]) != p {
        assert names[1..][j] == names[j + 1];
      }
      Untouched(run, path, data, s.world, names[1..], p);
    }
  }

  /** After a completed run, the file of index `k` holds index `k`'s data
      when no later name writes the same file. */
  lemma {:induction false} LastWriter(run: Runner, path: string -> string, data: string -> Table, w: World, names: seq<string>, k: int)
    requires WritesEach(run, path, data)
    requires RunFrom(run, w, names).outcome.Done?
    requires 0 <= k < |names|
    requires forall j :: k < j < |names| ==> path(names[j]) != path(names[k])
    ensures path(names[k]) in RunFrom(run, w, names).world.files
    ensures RunFrom(run, w, names).world.files[path(names[k])] == data(names[k])
    decreases |names|
  {
    var s := run(w, names[0]);
    assert RunFrom(run, w, names) == RunFrom(run, s.world, names[1..]);
    if k == 0 {
      forall j | 0 <= j < |names[1..]| ensures path(names[1..][j]) != path(names[0]) {
        assert names[1..][j] == names[j + 1];
      }
      Untouched(run, path, data, s.world, names[1..], path(names[0]));
    } else {
      forall j | k - 1 < j < |names[1..]| ensures path(names[1..][j]) != path(names[1..][k - 1]) {
        assert names[1..][j] == names[j + 1];
      }
      LastWriter(run, path, data, s.world, names[1..], k - 1);
    }
  }

  /** A completed run has called every method `dir()` lists, each a real
      indicator whose response gave a table, and the files it leaves are
      those it found and those of its methods. */
  lemma MacroWrites(api: Api, w: World, src: Source, exchange: string, methods: set<string>, dir: seq<string>)
    requires MacroRun(api, w, src, exchange, methods, dir).outcome.Done?
    ensures forall k :: 0 <= k < |GetMethods(src, dir)| ==>
              GetMethods(src, dir)[k] in methods && Response(api, src, exchange, GetMethods(src, dir)[k]).Ok?
    ensures MacroRun(api, w, src, exchange, methods, dir).world.files.Keys ==
              w.files.Keys + OutputFiles(src, exchange, set x | x in GetMethods(src, dir))
  {
    var run := IndicatorRunner(api, src, exchange, methods);
    var names := GetMethods(src, dir);
    IndicatorRunnerFacts(api, src, exchange, methods);
    var ok := (x: string) => x in methods && Response(api, src, exchange, x).Ok?;
    var path := (x: string) => OutPath(src, exchange, x);
    RunCompleted(run, ok, w, names);
    RunWrites(run, path, (x: string) => IndicatorData(api, src, exchange, x), w, names);
    forall k | 0 <= k < |names| ensures names[k] in methods && Response(api, src, exchange, names[k]).Ok? {
      assert ok(names[k]);
    }
    assert (set x | x in names :: path(x)) == OutputFiles(src, exchange, set x | x in names);
  }

  lemma LessAsymmetric(a: string, b: string)
    requires Less(a, b)
    ensures !Less(b, a)
  {
    if Less(b, a) {
      LessTransitive(a, b, a);
      LessIrreflexive(a);
    }
  }

  /** In a completed run over the sorted `dir()`, a method whose file is
      otherwise written only by names that sort before it leaves its own
      response in that file. */
  lemma LastOfItsFile(api: Api, w: World, src: Source, exchange: string, methods: set<string>, dir: seq<string>, a: string)
    requires Sorted(dir)
    requires a in GetMethods(src, dir)
    requires MacroRun(api, w, src, exchange, methods, dir).outcome.Done?
    requires forall x :: x != a && OutName(x) == OutName(a) ==> Less(x, a)
    ensures Response(api, src, exchange, a).Ok?
    ensures OutPath(src, exchange, a) in MacroRun(api, w, src, exchange, methods, dir).world.files
    ensures MacroRun(api, w, src, exchange, methods, dir).world.files[OutPath(src, exchange, a)] ==
              Response(api, src, exchange, a).value
  {
    var run := IndicatorRunner(api, src, exchange, methods);
    var names := GetMethods(src, dir);
    var path := (x: string) => OutPath(src, exchange, x);
    var data := (x: string) => IndicatorData(api, src, exchange, x);
    IndicatorRunnerFacts(api, src, exchange, methods);
    GetMethodsSorted(src, dir);
    var g :| 0 <= g < |names| && names[g] == a;
    forall j | g < j < |names| ensures path(names[j]) != path(names[g]) {
      SortedDistinct(names, g, j);
      if path(names[j]) == path(a) {
        ParquetPathInjective(src.baseDir, exchange, OutName(names[j]), OutName(a));
        LessAsymmetric(names[j], a);
      }
    }
    LastWriter(run, path, data, w, names, g);
    RunCompleted(run, (x: string) => x in methods && Response(api, src, exchange, x).Ok?, w, names);
    assert data(names[g]) == IndicatorData(api, src, exchange, a);
  }

  /** Each of the two shadowed files has one other writer, and it sorts
      first: `debt_percent_gdp` for the `gdp_growth_annual` file and
      `gni_per_capita_ppp_usd` for the file `income_share_lowest_twenty`
      writes. */
  lemma FileSharers(x: string, y: string)
    requires y == "gdp_growth_annual" || y == "income_share_lowest_twenty"
    requires x != y && OutName(x) == OutName(y)
    ensures x == if y == "gdp_growth_annual" then "debt_percent_gdp" else "gni_per_capita_ppp_usd"
    ensures Less(x, y)
  {
    if y == "gdp_growth_annual" {
      assert LessAt("debt_percent_gdp", "gdp_growth_annual", 0);
    } else {
      assert LessAt("gni_per_capita_ppp_usd", "income_share_lowest_twenty", 0);
    }
  }

  /** Because `dir()` is sorted, `debt_percent_gdp` runs before
      `gdp_growth_annual` and `gni_per_capita_ppp_usd` before
      `income_share_lowest_twenty`: after a completed run the
      `gdp_growth_annual` file holds the `gdp_growth_annual` response and
      the `gni_per_capita_ppp_usd` file holds the
      `income_share_lowest_twenty` response. */
  lemma ShadowedFiles(api: Api, w: World, src: Source, exchange: string, dir: seq<string>)
    requires Sorted(dir)
    requires "gdp_growth_annual" in GetMethods(src, dir) && "income_share_lowest_twenty" in GetMethods(src, dir)
    requires MacroRun(api, w, src, exchange, Indicators, dir).outcome.Done?
    ensures Response(api, src, exchange, "gdp_growth_annual").Ok?
    ensures Response(api, src, exchange, "income_share_lowest_twenty").Ok?
    ensures var files := MacroRun(api, w, src, exchange, Indicators, dir).world.files;
            && ParquetPath(src.baseDir, exchange, "gdp_growth_annual") in files
            && files[ParquetPath(src.baseDir, exchange, "gdp_growth_annual")] ==
                 Response(api, src, exchange, "gdp_growth_annual").value
            && ParquetPath(src.baseDir, exchange, "gni_per_capita_ppp_usd") in files
            && files[ParquetPath(src.baseDir, exchange, "gni_per_capita_ppp_usd")] ==
                 Response(api, src, exchange, "income_share_lowest_twenty").value
  {
    forall x | x != "gdp_growth_annual" && OutName(x) == OutName("gdp_growth_annual")
      ensures Less(x, "gdp_growth_annual")
    {
      FileSharers(x, "gdp_growth_annual");
    }
    LastOfItsFile(api, w, src, exchange, Indicators, dir, "gdp_growth_annual");
    forall x | x != "income_share_lowest_twenty" && OutName(x) == OutName("income_share_lowest_twenty")
      ensures Less(x, "income_share_lowest_twenty")
    {
      FileSharers(x, "income_share_lowest_twenty");
    }
    LastOfItsFile(api, w, src, exchange, Indicators, dir, "income_share_lowest_twenty");
  }

  // ---------------------------------------------------------------------
  // Which requests a run issues.

  /** A run keeps the requests before it and adds at most one per name,
      one per name when it completes. */
  lemma {:induction false} RunRequestCount(run: Runner, url: string -> string, w: World, names: seq<string>)
    requires OneRequestEach(run, url)
    ensures var r := RunFrom(run, w, names).world.requests;
            |w.requests| <= |r| <= |w.requests| + |names| && r[..|w.requests|] == w.requests
    ensures RunFrom(run, w, names).outcome.Done? ==> |RunFrom(run, w, names).world.requests| == |w.requests| + |names|
    decreases |names|
  {
    if |names| > 0 {
      var s := run(w, names[0]);
      if s.outcome.Done? {
        RunRequestCount(run, url, s.world, names[1..]);
        var r := RunFrom(run, s.world, names[1..]).world.requests;
        assert r[..|w.requests|] == r[..|s.world.requests|][..|w.requests|];
      }
    }
  }

  /** The `j`-th request a run adds is the URL of its `j`-th name. */
  lemma {:induction false} RunRequestAt(run: Runner, url: string -> string, w: World, names: seq<string>, j: int)
    requires OneRequestEach(run, url)
    requires 0 <= j < |RunFrom(run, w, names).world.requests| - |w.requests|
    ensures j < |names|
    ensures RunFrom(run, w, names).world.requests[|w.requests| + j] == url(names[j])
    decreases |names|
  {
    RunRequestCount(run, url, w, names);
    var s := run(w, names[0]);
    assert s.world.requests == w.requests + [url(names[0])];
    if s.outcome.Raised? {
      assert RunFrom(run, w, names) == s;
    } else {
      assert RunFrom(run, w, names) == RunFrom(run, s.world, names[1..]);
      RunRequestCount(run, url, s.world, names[1..]);
      var r := RunFrom(run, s.world, names[1..]).world.requests;
      if j == 0 {
        assert r[|w.requests|] == r[..|s.world.requests|][|w.requests|];
      } else {
        RunRequestAt(run, url, s.world, names[1..], j - 1);
        assert names[1..][j - 1] == names[j];
      }
    }
  }

  /** A run requests the URLs of the methods `dir()` lists in order, up to
      and including the one that fails, and all of them when it completes. */
  lemma MacroRequests(api: Api, w: World, src: Source, exchange: string, methods: set<string>, dir: seq<string>)
    ensures var r := MacroRun(api, w, src, exchange, methods, dir).world.requests;
            var names := GetMethods(src, dir);
            && |w.requests| <= |r| <= |w.requests| + |names|
            && r[..|w.requests|] == w.requests
            && (forall j :: 0 <= j < |r| - |w.requests| ==> r[|w.requests| + j] == IndicatorUrl(src, exchange, names[j]))
            && (MacroRun(api, w, src, exchange, methods, dir).outcome.Done? ==> |r| == |w.requests| + |names|)
  {
    var run := IndicatorRunner(api, src, exchange, methods);
    var url := (x: string) => IndicatorUrl(src, exchange, x);
    var names := GetMethods(src, dir);
    IndicatorRunnerFacts(api, src, exchange, methods);
    RunRequestCount(run, url, w, names);
    var r := RunFrom(run, w, names).world.requests;
    forall j | 0 <= j < |r| - |w.requests| ensures j < |names| && r[|w.requests| + j] == IndicatorUrl(src, exchange, names[j]) {
      RunRequestAt(run, url, w, names, j);
    }
  }

  /** Different indicators are requested under different URLs. */
  lemma IndicatorUrlInjective(src: Source, exchange: string, a: string, b: string)
    requires IndicatorUrl(src, exchange, a) == IndicatorUrl(src, exchange, b)
    ensures a == b
  {
    var path := "macro-indicator/" + exchange;
    RequestUrlOneParam(src.apiToken, path, "indicator=" + a);
    RequestUrlOneParam(src.apiToken, path, "indicator=" + b);
    PrefixCancel(RequestUrl(src.apiToken, path, []), "&" + ("indicator=" + a), "&" + ("indicator=" + b));
    PrefixCancel("&", "indicator=" + a, "indicator=" + b);
    PrefixCancel("indicator=", a, b);
  }

  /** A run over names listed once, with a different URL for each name,
      requests no URL twice. */
  lemma RunRequestsDistinct(run: Runner, url: string -> string, w: World, names: seq<string>)
    requires OneRequestEach(run, url)
    requires forall a, b :: url(a) == url(b) ==> a == b
    requires forall i, j :: 0 <= i < j < |names| ==> names[i] != names[j]
    ensures var r := RunFrom(run, w, names).world.requests;
            forall i, j :: |w.requests| <= i < j < |r| ==> r[i] != r[j]
  {
    var r := RunFrom(run, w, names).world.requests;
    var n := |w.requests|;
    forall i, j | n <= i < j < |r| ensures r[i] != r[j] {
      RunRequestAt(run, url, w, names, i - n);
      RunRequestAt(run, url, w, names, j - n);
    }
  }

  /** Since `dir()` lists each name once, a run requests each indicator
      once: no URL is requested twice, so the twice-defined
      `gross_capital_formation_percent_gdp` is fetched at most once. */
  lemma RequestedOnce(api: Api, w: World, src: Source, exchange: string, methods: set<string>, dir: seq<string>)
    requires Sorted(dir)
    ensures var r := MacroRun(api, w, src, exchange, methods, dir).world.requests;
            |w.requests| <= |r| && r[..|w.requests|] == w.requests &&
            forall i, j :: |w.requests| <= i < j < |r| ==> r[i] != r[j]
  {
    var run := IndicatorRunner(api, src, exchange, methods);
    var url := (x: string) => IndicatorUrl(src, exchange, x);
    var names := GetMethods(src, dir);
    IndicatorRunnerFacts(api, src, exchange, methods);
    RunRequestCount(run, url, w, names);
    forall a, b | url(a) == url(b) ensures a == b {
      IndicatorUrlInjective(src, exchange, a, b);
    }
    GetMethodsSorted(src, dir);
    forall i, j | 0 <= i < j < |names| ensures names[i] != names[j] {
      SortedDistinct(names, i, j);
    }
    RunRequestsDistinct(run, url, w, names);
  }
}
