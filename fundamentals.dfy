/** `FundamentalsData` and its four subclasses: one request per symbol for
    the fundamentals document, then one table per section, each written by
    a method that `get_methods` discovers. */
module Fundamentals {
  import opened Errors
  import opened Text
  import opened JsonValues
  import opened Tables
  import opened Frames
  import opened Environment
  import opened Parsing
  import opened EodPrices

  /** The four subclasses, by the directory each writes under. */
  datatype SymbolType = Stock | Etf | MutualFund | Index

  function TypeDir(kind: SymbolType): string
  {
    match kind
    case Stock => "stock"
    case Etf => "etf"
    case MutualFund => "mutual_fund"
    case Index => "index"
  }

  const FundamentalsExclude: seq<string> := ["fundamentals", "fundamentals_exchange", "process_data"]

  /** A `FundamentalsData` object of the given type. */
  function FundSource(baseDir: string, apiToken: string, kind: SymbolType): (s: Source)
    ensures s.baseDir == baseDir + "/fundamentals/" + TypeDir(kind)
    ensures forall x :: x in BaseExclude || x in FundamentalsExclude ==> !Dispatchable(s, x)
  {
    NewSource(baseDir + "/fundamentals/" + TypeDir(kind), apiToken, FundamentalsExclude)
  }

  // ---------------------------------------------------------------------
  // The conversion functions of `earnings` and `financials`.

  /** Which `conv_fn` `process_data` receives. */
  datatype Conv = NoConv | EarningsConv | FinancialsConv

  /** The tag `conv_fn` gives a column with this label, or `None` when it
      leaves the column alone. */
  function ConvKind(conv: Conv, column: string): Option<Kind>
  {
    match conv
    case NoConv => None
    case EarningsConv =>
      if column in ["date", "reportdate"] then Some(Date)
      else if column in ["period", "currency", "beforeaftermarket"] then None
      else Some(Numeric)
    case FinancialsConv =>
      if column in ["date", "filing_date"] then Some(Date)
      else if column in ["currency_symbol"] then None
      else Some(Numeric)
  }

  function Retagged(conv: Conv, c: Column): Column
  {
    match ConvKind(conv, c.name)
    case None => c
    case Some(kind) => Column(c.name, kind)
  }

  /** The frame after `conv_fn`: each column retagged by its label. */
  function Converted(conv: Conv, t: Table): (r: Table)
    ensures r.rows == t.rows && |r.cols| == |t.cols|
    ensures forall k :: 0 <= k < |t.cols| ==> r.cols[k] == Retagged(conv, t.cols[k])
  {
    Table(seq(|t.cols|, k requires 0 <= k < |t.cols| => Retagged(conv, t.cols[k])), t.rows)
  }

  /** `conv_fn` converts the column at position `k` and its label is
      repeated, so `data[column]` is a DataFrame the conversion refuses. */
  predicate Clash(conv: Conv, cols: seq<Column>, k: int)
    requires 0 <= k < |cols|
  {
    ConvKind(conv, cols[k].name).Some? && Occurrences(cols, cols[k].name) > 1
  }

  /** The first position from `i` on where `conv_fn` raises, or the end. */
  function FirstClash(conv: Conv, cols: seq<Column>, i: nat): (k: nat)
    requires i <= |cols|
    ensures i <= k <= |cols|
    ensures forall j :: i <= j < k ==> !Clash(conv, cols, j)
    ensures k < |cols| ==> Clash(conv, cols, k)
    decreases |cols| - i
  {
    if i == |cols| || Clash(conv, cols, i) then i else FirstClash(conv, cols, i + 1)
  }

  /** What `conv_fn(data)` returns or raises: it fails at the first column
      it converts whose label is repeated, and otherwise returns the
      converted frame. */
  function ConvertStep(conv: Conv, t: Table): (r: Result<Table>)
    ensures r.Ok? <==> forall k :: 0 <= k < |t.cols| ==> !Clash(conv, t.cols, k)
    ensures r.Err? ==> r.error == ValueError || r.error == TypeError
    ensures r.Ok? ==> r.value == Converted(conv, t)
  {
    var k := FirstClash(conv, t.cols, 0);
    if k < |t.cols| then Err(FrameArgError(ConvKind(conv, t.cols[k].name).value)) else Ok(Converted(conv, t))
  }

  /** `cur` is `t` with the columns whose labels are in `done` converted. */
  ghost predicate ConvertedUpTo(conv: Conv, t: Table, cur: Table, done: seq<string>)
  {
    && cur.rows == t.rows && |cur.cols| == |t.cols| && Names(cur) == Names(t)
    && forall k :: 0 <= k < |t.cols| ==>
         cur.cols[k] == if t.cols[k].name in done then Retagged(conv, t.cols[k]) else t.cols[k]
  }

  /** Converting one more label extends the converted set by that label. */
  lemma ConvertedNext(conv: Conv, t: Table, cur: Table, done: seq<string>, n: string)
    requires ConvertedUpTo(conv, t, cur, done)
    requires ConvKind(conv, n).Some? ==> Coerced(cur, n, ConvKind(conv, n).value).Ok?
    ensures ConvertedUpTo(conv, t, if ConvKind(conv, n).Some? then Coerced(cur, n, ConvKind(conv, n).value).value else cur, done + [n])
  {
    var next := if ConvKind(conv, n).Some? then Coerced(cur, n, ConvKind(conv, n).value).value else cur;
    forall k | 0 <= k < |t.cols|
      ensures next.cols[k] == if t.cols[k].name in done + [n] then Retagged(conv, t.cols[k]) else t.cols[k]
    {
      if ConvKind(conv, n).Some? {
        assert Names(next)[k] == Names(cur)[k];
      }
    }
  }

  /** One turn of the loop over `data.columns`, at position `i`, when the
      column there is converted and its label is repeated: the conversion
      raises, and this is where `conv_fn` fails. */
  lemma ConvertRaisesAt(conv: Conv, t: Table, cur: Table, i: nat)
    requires i < |t.cols| && Names(cur) == Names(t)
    requires FirstClash(conv, t.cols, 0) == FirstClash(conv, t.cols, i)
    requires ConvKind(conv, t.cols[i].name).Some?
    requires Coerced(cur, t.cols[i].name, ConvKind(conv, t.cols[i].name).value).Err?
    ensures FirstClash(conv, t.cols, 0) == i
    ensures ConvertStep(conv, t) == Err(Coerced(cur, t.cols[i].name, ConvKind(conv, t.cols[i].name).value).error)
  {
    var n := t.cols[i].name;
    OccurrencesSameLabels(cur.cols, t.cols, n);
    assert Names(t)[i] == n;
    assert Clash(conv, t.cols, i);
  }

  /** One turn of the loop over `data.columns`, at position `i`, when the
      conversion there succeeds or there is none: `conv_fn` has not failed
      yet. */
  lemma ConvertPassesAt(conv: Conv, t: Table, cur: Table, i: nat)
    requires i < |t.cols| && Names(cur) == Names(t)
    requires FirstClash(conv, t.cols, 0) == FirstClash(conv, t.cols, i)
    requires ConvKind(conv, t.cols[i].name).Some? ==>
               Coerced(cur, t.cols[i].name, ConvKind(conv, t.cols[i].name).value).Ok?
    ensures FirstClash(conv, t.cols, 0) == FirstClash(conv, t.cols, i + 1)
  {
    OccurrencesSameLabels(cur.cols, t.cols, t.cols[i].name);
    assert !Clash(conv, t.cols, i);
  }

  /** The same turn: the converted set grows by the label at `i`. */
  lemma ConvertedAt(conv: Conv, t: Table, cur: Table, i: nat)
    requires i < |t.cols|
    requires ConvertedUpTo(conv, t, cur, Names(t)[..i])
    requires ConvKind(conv, t.cols[i].name).Some? ==>
               Coerced(cur, t.cols[i].name, ConvKind(conv, t.cols[i].name).value).Ok?
    ensures var n := t.cols[i].name;
            var kind := ConvKind(conv, n);
            ConvertedUpTo(conv, t, if kind.Some? then Coerced(cur, n, kind.value).value else cur, Names(t)[..i + 1])
  {
    var n := t.cols[i].name;
    ConvertedNext(conv, t, cur, Names(t)[..i], n);
    assert Names(t)[..i + 1] == Names(t)[..i] + [n];
  }

  /** Once every label is converted without a clash, the frame is the
      converted frame and `conv_fn` succeeds. */
  lemma ConvertDone(conv: Conv, t: Table, cur: Table)
    requires ConvertedUpTo(conv, t, cur, Names(t))
    requires FirstClash(conv, t.cols, 0) == |t.cols|
    ensures ConvertStep(conv, t).Ok? && cur == Converted(conv, t)
  {
    forall k | 0 <= k < |t.cols| ensures t.cols[k].name in Names(t) {
      assert Names(t)[k] == t.cols[k].name;
    }
  }

  /** `conv_fn(data)`: the loop over `data.columns`, converting in place.
      When it raises, the columns before the failing one stay converted. */
  method Convert(conv: Conv, df: Frame) returns (o: Outcome)
    requires df.Valid()
    modifies df
    ensures df.Valid()
    ensures var c := ConvertStep(conv, old(df.Value()));
            o == if c.Ok? then Done else Raised(c.error)
    ensures o.Done? ==> df.Value() == Converted(conv, old(df.Value()))
    ensures o.Raised? ==>
              var t := old(df.Value());
              ConvertedUpTo(conv, t, df.Value(), Names(t)[..FirstClash(conv, t.cols, 0)])
  {
    var t0 := df.Value();
    var names := Names(t0);
    var i := 0;
    while i < |names|
      invariant 0 <= i <= |names|
      invariant df.Valid()
      invariant ConvertedUpTo(conv, t0, df.Value(), names[..i])
      invariant FirstClash(conv, t0.cols, 0) == FirstClash(conv, t0.cols, i)
    {
      var kind := ConvKind(conv, names[i]);
      ghost var cur := df.Value();
      if kind.Some? {
        var r := df.Coerce(names[i], kind.value);
        if r.Raised? {
          ConvertRaisesAt(conv, t0, cur, i);
          return r;
        }
      }
      ConvertPassesAt(conv, t0, cur, i);
      ConvertedAt(conv, t0, cur, i);
      i := i + 1;
    }
    assert names[..i] == names;
    ConvertDone(conv, t0, df.Value());
    o := Done;
  }

  /** Earnings: `date` and `reportdate` become dates, `period`, `currency`
      and `beforeaftermarket` are untouched, every other column becomes
      numeric; labels and cells are unchanged. */
  lemma EarningsConversion(t: Table)
    ensures var r := Converted(EarningsConv, t);
            && r.rows == t.rows && Names(r) == Names(t)
            && forall k :: 0 <= k < |t.cols| ==>
                 var n := t.cols[k].name;
                 r.cols[k].kind ==
                   if n == "date" || n == "reportdate" then Date
                   else if n == "period" || n == "currency" || n == "beforeaftermarket" then t.cols[k].kind
                   else Numeric
  {
    var r := Converted(EarningsConv, t);
    assert Names(r) == Names(t) by {
      forall k | 0 <= k < |t.cols| ensures Names(r)[k] == Names(t)[k] {
      }
    }
  }

  /** Financials: `date` and `filing_date` become dates, `currency_symbol`
      is untouched, every other column becomes numeric. */
  lemma FinancialsConversion(t: Table)
    ensures var r := Converted(FinancialsConv, t);
            && r.rows == t.rows && Names(r) == Names(t)
            && forall k :: 0 <= k < |t.cols| ==>
                 var n := t.cols[k].name;
                 r.cols[k].kind ==
                   if n == "date" || n == "filing_date" then Date
                   else if n == "currency_symbol" then t.cols[k].kind
                   else Numeric
  {
    var r := Converted(FinancialsConv, t);
    assert Names(r) == Names(t) by {
      forall k | 0 <= k < |t.cols| ensures Names(r)[k] == Names(t)[k] {
      }
    }
  }

  // ---------------------------------------------------------------------
  // process_data

  /** The output directory name: `path_` when given, else the lower-cased
      key, joined with the lower-cased sub-key by `_` when there is one. */
  function DataPath(key: string, sub: Option<string>, path_: Option<string>): string
  {
    if path_.Some? then path_.value
    else if sub.Some? then Lower(key) + "_" + Lower(sub.value)
    else Lower(key)
  }

  /** `process_data(symbol, data, key, sub_key, path_, conv_fn)`. A
      conversion function is applied to the parse result before the
      absence test, so with one an absent section raises AttributeError. */
  function ProcessStep(w: World, src: Source, symbol: string, data: Json,
                       key: string, sub: Option<string>, path_: Option<string>, conv: Conv): (s: Step)
    ensures s.world.requests == w.requests
    ensures s.outcome.Raised? ==> s.world == w
  {
    match ParseJsonSpec(data, key, sub)
    case Err(e) => Step(w, Raised(e))
    case Ok(parsed) =>
      if conv != NoConv && parsed.None? then Step(w, Raised(AttributeError))
      else
        var path := DataPath(key, sub, path_);
        if parsed.None? then Step(Appended(w, Warning(symbol, path)), Done)
        else
          match if conv == NoConv then Ok(parsed.value) else ConvertStep(conv, parsed.value)
          case Err(e) => Step(w, Raised(e))
          case Ok(out) => Step(Written(w, ParquetPath(src.baseDir, path, symbol), out), Done)
  }

  method ProcessData(env: Env, src: Source, symbol: string, data: Json,
                     key: string, sub: Option<string>, path_: Option<string>, conv: Conv)
    returns (o: Outcome)
    modifies env
    ensures Step(env.State(), o) == ProcessStep(old(env.State()), src, symbol, data, key, sub, path_, conv)
  {
    var parsed := ParseJson(data, key, sub);
    if parsed.Err? {
      return Raised(parsed.error);
    }
    var t := parsed.value;
    if conv != NoConv {
      if t.None? {
        return Raised(AttributeError);
      }
      var df := new Frame(t.value);
      var c := Convert(conv, df);
      if c.Raised? {
        return c;
      }
      t := Some(df.Value());
    }
    var path := DataPath(key, sub, path_);
    if t.Some? {
      ToParquet(env, src, symbol, t.value, path);
    } else {
      env.Log(Warning(symbol, path));
    }
    o := Done;
  }

  /** The four ways `process_data` ends: a parsed section is written to
      exactly one file unless its conversion raises (a converted label is
      repeated); an absent one is only logged when there is no conversion
      function, and raises AttributeError when there is one. */
  lemma ProcessDataEffect(w: World, src: Source, symbol: string, data: Json,
                          key: string, sub: Option<string>, path_: Option<string>, conv: Conv)
    requires ParseJsonSpec(data, key, sub).Ok?
    ensures var s := ProcessStep(w, src, symbol, data, key, sub, path_, conv);
            var parsed := ParseJsonSpec(data, key, sub).value;
            var path := ParquetPath(src.baseDir, DataPath(key, sub, path_), symbol);
            && (parsed.Some? && conv != NoConv && ConvertStep(conv, parsed.value).Err? ==>
                  s == Step(w, Raised(ConvertStep(conv, parsed.value).error)))
            && (parsed.Some? && (conv == NoConv || ConvertStep(conv, parsed.value).Ok?) ==>
                  && s.outcome == Done && s.world.log == w.log
                  && path in s.world.files
                  && s.world.files == w.files[path := s.world.files[path]]
                  && s.world.files[path].rows == parsed.value.rows
                  && Names(s.world.files[path]) == Names(parsed.value))
            && (parsed.None? && conv == NoConv ==>
                  s.outcome == Done && s.world.files == w.files &&
                  s.world.log == w.log + [Warning(symbol, DataPath(key, sub, path_))])
            && (parsed.None? && conv != NoConv ==> s == Step(w, Raised(AttributeError)))
  {
    var parsed := ParseJsonSpec(data, key, sub).value;
    if parsed.Some? && conv != NoConv {
      var r := Converted(conv, parsed.value);
      assert Names(r) == Names(parsed.value) by {
        forall k | 0 <= k < |r.cols| ensures Names(r)[k] == Names(parsed.value)[k] {
        }
      }
    }
  }

  // ---------------------------------------------------------------------
  // The extractors.

  /** One `process_data` call; `nested` when it is made on
      `data["Financials"]` rather than on the whole document. */
  datatype Call = Call(nested: bool, key: string, sub: Option<string>, path: Option<string>, conv: Conv)

  function Section(key: string): Call
  {
    Call(false, key, None, None, NoConv)
  }

  function SubSection(key: string, sub: string): Call
  {
    Call(false, key, Some(sub), None, NoConv)
  }

  function CallStep(w: World, src: Source, symbol: string, data: Json, c: Call): (s: Step)
    ensures s.world.requests == w.requests
  {
    if c.nested then
      match PyIndex(data, "Financials")
      case Err(e) => Step(w, Raised(e))
      case Ok(fin) => ProcessStep(w, src, symbol, fin, c.key, c.sub, c.path, c.conv)
    else ProcessStep(w, src, symbol, data, c.key, c.sub, c.path, c.conv)
  }

  method CallOne(env: Env, src: Source, symbol: string, data: Json, c: Call) returns (o: Outcome)
    modifies env
    ensures Step(env.State(), o) == CallStep(old(env.State()), src, symbol, data, c)
  {
    var d := data;
    if c.nested {
      var fin := PyIndex(data, "Financials");
      if fin.Err? {
        return Raised(fin.error);
      }
      d := fin.value;
    }
    o := ProcessData(env, src, symbol, d, c.key, c.sub, c.path, c.conv);
  }

  /** A run of calls that stops at the first exception. */
  function RunCalls(w: World, src: Source, symbol: string, data: Json, calls: seq<Call>): Step
    decreases |calls|
  {
    if |calls| == 0 then Step(w, Done)
    else
      var s := CallStep(w, src, symbol, data, calls[0]);
      if s.outcome.Raised? then s else RunCalls(s.world, src, symbol, data, calls[1..])
  }

  lemma RunCallsUnfold(w: World, src: Source, symbol: string, data: Json, calls: seq<Call>, k: int)
    requires 0 <= k < |calls|
    ensures RunCalls(w, src, symbol, data, calls[k..]) ==
              var s := CallStep(w, src, symbol, data, calls[k]);
              if s.outcome.Raised? then s else RunCalls(s.world, src, symbol, data, calls[k + 1..])
  {
    assert calls[k..][1..] == calls[k + 1..];
  }

  lemma {:induction false} RunCallsRequests(w: World, src: Source, symbol: string, data: Json, calls: seq<Call>)
    ensures RunCalls(w, src, symbol, data, calls).world.requests == w.requests
    decreases |calls|
  {
    if |calls| > 0 {
      var s := CallStep(w, src, symbol, data, calls[0]);
      if s.outcome.Done? {
        RunCallsRequests(s.world, src, symbol, data, calls[1..]);
      }
    }
  }

  /** The loops of `earnings` and `outstanding_shares` over their sub-keys. */
  method ProcessEach(env: Env, src: Source, symbol: string, data: Json, calls: seq<Call>) returns (o: Outcome)
    modifies env
    ensures Step(env.State(), o) == RunCalls(old(env.State()), src, symbol, data, calls)
  {
    ghost var w0 := env.State();
    var i := 0;
    while i < |calls|
      invariant 0 <= i <= |calls|
      invariant RunCalls(w0, src, symbol, data, calls) == RunCalls(env.State(), src, symbol, data, calls[i..])
    {
      RunCallsUnfold(env.State(), src, symbol, data, calls, i);
      o := CallOne(env, src, symbol, data, calls[i]);
      if o.Raised? {
        return;
      }
      i := i + 1;
    }
    o := Done;
  }

  function EarningsCall(sub: string): Call
  {
    Call(false, "Earnings", Some(sub), None, EarningsConv)
  }

  const EarningsCalls: seq<Call> := [EarningsCall("History"), EarningsCall("Trend"), EarningsCall("Annual")]

  method Earnings(env: Env, src: Source, symbol: string, data: Json) returns (o: Outcome)
    modifies env
    ensures Step(env.State(), o) == RunCalls(old(env.State()), src, symbol, data, EarningsCalls)
  {
    o := ProcessEach(env, src, symbol, data, EarningsCalls);
  }

  /** `earnings` writes `earnings_history`, `earnings_trend` and
      `earnings_annual`, in that order, converting each. */
  lemma EarningsTargets()
    ensures |EarningsCalls| == 3
    ensures forall i :: 0 <= i < 3 ==> EarningsCalls[i].conv == EarningsConv && !EarningsCalls[i].nested
    ensures DataPath(EarningsCalls[0].key, EarningsCalls[0].sub, EarningsCalls[0].path) == "earnings_history"
    ensures DataPath(EarningsCalls[1].key, EarningsCalls[1].sub, EarningsCalls[1].path) == "earnings_trend"
    ensures DataPath(EarningsCalls[2].key, EarningsCalls[2].sub, EarningsCalls[2].path) == "earnings_annual"
  {
    assert Lower("Earnings") == "earnings";
    assert Lower("History") == "history";
    assert Lower("Trend") == "trend";
    assert Lower("Annual") == "annual";
  }

  const OutstandingCalls: seq<Call> := [SubSection("outstandingShares", "annual"), SubSection("outstandingShares", "quarterly")]

  method OutstandingShares(env: Env, src: Source, symbol: string, data: Json) returns (o: Outcome)
    modifies env
    ensures Step(env.State(), o) == RunCalls(old(env.State()), src, symbol, data, OutstandingCalls)
  {
    o := ProcessEach(env, src, symbol, data, OutstandingCalls);
  }

  /** `outstanding_shares` writes `outstandingshares_annual`, then
      `outstandingshares_quarterly`, without conversion. */
  lemma OutstandingTargets()
    ensures |OutstandingCalls| == 2
    ensures forall i :: 0 <= i < 2 ==> OutstandingCalls[i].conv == NoConv && !OutstandingCalls[i].nested
    ensures DataPath(OutstandingCalls[0].key, OutstandingCalls[0].sub, OutstandingCalls[0].path) == "outstandingshares_annual"
    ensures DataPath(OutstandingCalls[1].key, OutstandingCalls[1].sub, OutstandingCalls[1].path) == "outstandingshares_quarterly"
  {
    assert Lower("outstandingShares") == "outstandingshares";
    assert Lower("annual") == "annual";
    assert Lower("quarterly") == "quarterly";
  }

  const FinancialsKeys: seq<string> := ["Balance_Sheet", "Cash_Flow", "Income_Statement"]
  const FinancialsSubs: seq<string> := ["quarterly", "yearly"]

  /** `f"financials_{key.lower()}_{sub_key.lower()}"`. */
  function FinancialsPath(key: string, sub: string): string
  {
    "financials_" + Lower(key) + "_" + Lower(sub)
  }

  function FinancialsCall(key: string, sub: string): Call
  {
    Call(true, key, Some(sub), Some(FinancialsPath(key, sub)), FinancialsConv)
  }

  /** The six calls of the nested loop, keys outer and sub-keys inner. */
  const FinancialsCalls: seq<Call> :=
    [FinancialsCall("Balance_Sheet", "quarterly"), FinancialsCall("Balance_Sheet", "yearly"),
     FinancialsCall("Cash_Flow", "quarterly"), FinancialsCall("Cash_Flow", "yearly"),
     FinancialsCall("Income_Statement", "quarterly"), FinancialsCall("Income_Statement", "yearly")]

  lemma FinancialsCallAt(i: int, j: int)
    requires 0 <= i < 3 && 0 <= j < 2
    ensures FinancialsCalls[2 * i + j] == FinancialsCall(FinancialsKeys[i], FinancialsSubs[j])
  {
  }

  /** The body of the nested loop of `financials` for one key and sub-key. */
  method FinancialsOne(env: Env, src: Source, symbol: string, data: Json, key: string, sub: string)
    returns (o: Outcome)
    modifies env
    ensures Step(env.State(), o) == CallStep(old(env.State()), src, symbol, data, FinancialsCall(key, sub))
  {
    var path := FinancialsPath(key, sub);
    var fin := PyIndex(data, "Financials");
    if fin.Err? {
      return Raised(fin.error);
    }
    o := ProcessData(env, src, symbol, fin.value, key, Some(sub), Some(path), FinancialsConv);
  }

  method Financials(env: Env, src: Source, symbol: string, data: Json) returns (o: Outcome)
    modifies env
    ensures Step(env.State(), o) == RunCalls(old(env.State()), src, symbol, data, FinancialsCalls)
  {
    ghost var goal := RunCalls(env.State(), src, symbol, data, FinancialsCalls);
    ghost var k := 0;
    var i := 0;
    while i < |FinancialsKeys|
      invariant 0 <= i <= 3 && k == 2 * i
      invariant goal == RunCalls(env.State(), src, symbol, data, FinancialsCalls[k..])
    {
      var key := FinancialsKeys[i];
      var j := 0;
      while j < |FinancialsSubs|
        invariant 0 <= j <= 2 && k == 2 * i + j
        invariant goal == RunCalls(env.State(), src, symbol, data, FinancialsCalls[k..])
      {
        var sub := FinancialsSubs[j];
        FinancialsCallAt(i, j);
        RunCallsUnfold(env.State(), src, symbol, data, FinancialsCalls, k);
        o := FinancialsOne(env, src, symbol, data, key, sub);
        if o.Raised? {
          return;
        }
        j := j + 1;
        k := k + 1;
      }
      i := i + 1;
    }
    o := Done;
  }

  /** `financials` makes six calls on `data["Financials"]`, Balance_Sheet,
      Cash_Flow, Income_Statement each quarterly then yearly, converting
      each. */
  lemma FinancialsTargets()
    ensures |FinancialsCalls| == 6
    ensures forall n :: 0 <= n < 6 ==> FinancialsCalls[n].nested && FinancialsCalls[n].conv == FinancialsConv
    ensures [FinancialsCalls[0].key, FinancialsCalls[2].key, FinancialsCalls[4].key] ==
            ["Balance_Sheet", "Cash_Flow", "Income_Statement"]
    ensures forall n :: 0 <= n < 6 ==>
              FinancialsCalls[n].key == FinancialsCalls[n / 2 * 2].key &&
              FinancialsCalls[n].sub == Some(if n % 2 == 0 then "quarterly" else "yearly")
  {
  }

  /** Their paths are `financials_<key>_<sub>`, lower-cased. */
  lemma FinancialsPaths()
    ensures FinancialsPath("Balance_Sheet", "quarterly") == "financials_" + "balance_sheet" + "_" + "quarterly"
    ensures FinancialsPath("Balance_Sheet", "yearly") == "financials_" + "balance_sheet" + "_" + "yearly"
    ensures FinancialsPath("Cash_Flow", "quarterly") == "financials_" + "cash_flow" + "_" + "quarterly"
    ensures FinancialsPath("Cash_Flow", "yearly") == "financials_" + "cash_flow" + "_" + "yearly"
    ensures FinancialsPath("Income_Statement", "quarterly") == "financials_" + "income_statement" + "_" + "quarterly"
    ensures FinancialsPath("Income_Statement", "yearly") == "financials_" + "income_statement" + "_" + "yearly"
  {
    assert Lower("Balance_Sheet") == "balance_sheet";
    assert Lower("Cash_Flow") == "cash_flow";
    assert Lower("Income_Statement") == "income_statement";
    assert Lower("quarterly") == "quarterly";
    assert Lower("yearly") == "yearly";
  }

  /** Without a `Financials` entry the first call raises KeyError and
      nothing is written. */
  lemma FinancialsMissing(w: World, src: Source, symbol: string, data: Json)
    requires data.JObj? && "Financials" !in Keys(data.members)
    ensures RunCalls(w, src, symbol, data, FinancialsCalls) == Step(w, Raised(KeyError("Financials")))
  {
  }

  // ---------------------------------------------------------------------
  // Dispatch.

  /** What a dispatched method does. */
  datatype Handler = Extract(call: Call) | EarningsHandler | FinancialsHandler | OutstandingHandler

  /** `getattr(self, name)` on an object of the given subclass. The plain
      extractors read the document itself and convert nothing. */
  function Method(kind: SymbolType, name: string): (r: Option<Handler>)
    ensures r.Some? && r.value.Extract? ==> !r.value.call.nested && r.value.call.conv == NoConv
  {
    if name == "general" then Some(Extract(Section("General")))
    else
      match kind
      case Stock =>
        if name == "highlights" then Some(Extract(Section("Highlights")))
        else if name == "valuation" then Some(Extract(Section("Valuation")))
        else if name == "share_stats" then Some(Extract(Section("ShareStats")))
        else if name == "technicals" then Some(Extract(Section("Technicals")))
        else if name == "analyst_ratings" then Some(Extract(Section("AnalystRatings")))
        else if name == "earnings" then Some(EarningsHandler)
        else if name == "financials" then Some(FinancialsHandler)
        else if name == "outstanding_shares" then Some(OutstandingHandler)
        else None
      case Etf =>
        if name == "technicals" then Some(Extract(Section("Technicals")))
        else if name == "etf_data" then Some(Extract(Section("ETF_Data")))
        else if name == "etf_data_asset_allocation" then Some(Extract(SubSection("ETF_Data", "Asset_Allocation")))
        else if name == "etf_data_world_regions" then Some(Extract(SubSection("ETF_Data", "World_Regions")))
        else if name == "etf_data_sector_weights" then Some(Extract(SubSection("ETF_Data", "Sector_Weights")))
        else if name == "etf_data_fixed_income" then Some(Extract(SubSection("ETF_Data", "Fixed_Income")))
        else if name == "etf_data_top_10_holdings" then Some(Extract(SubSection("ETF_Data", "Top_10_Holdings")))
        else None
      case MutualFund =>
        if name == "mutual_fund_data" then Some(Extract(Section("MutualFund_Data")))
        else if name == "mutual_fund_data_asset_allocation" then Some(Extract(SubSection("MutualFund_Data", "Asset_Allocation")))
        else if name == "mutual_fund_data_value_growth" then Some(Extract(SubSection("MutualFund_Data", "Value_Growth")))
        else if name == "mutual_fund_data_top_holdings" then Some(Extract(SubSection("MutualFund_Data", "Top_Holdings")))
        else if name == "mutual_fund_data_market_capitalization" then Some(Extract(SubSection("MutualFund_Data", "Market_Capitalization")))
        else if name == "mutual_fund_data_sector_weights" then Some(Extract(SubSection("MutualFund_Data", "Sector_Weights")))
        else if name == "mutual_fund_data_world_regions" then Some(Extract(SubSection("MutualFund_Data", "World_Regions")))
        else None
      case Index =>
        if name == "components" then Some(Extract(Section("Components")))
        else None
  }

  /** The extractor methods each subclass defines (with the inherited
      `general`). */
  function Extractors(kind: SymbolType): set<string>
  {
    match kind
    case Stock =>
      {"general", "highlights", "valuation", "share_stats", "technicals", "analyst_ratings",
       "earnings", "financials", "outstanding_shares"}
    case Etf =>
      {"general", "technicals", "etf_data", "etf_data_asset_allocation", "etf_data_world_regions",
       "etf_data_sector_weights", "etf_data_fixed_income", "etf_data_top_10_holdings"}
    case MutualFund =>
      {"general", "mutual_fund_data", "mutual_fund_data_asset_allocation", "mutual_fund_data_value_growth",
       "mutual_fund_data_top_holdings", "mutual_fund_data_market_capitalization",
       "mutual_fund_data_sector_weights", "mutual_fund_data_world_regions"}
    case Index => {"general", "components"}
  }

  function HandlerStep(w: World, src: Source, symbol: string, data: Json, h: Handler): (s: Step)
    ensures s.world.requests == w.requests
  {
    match h
    case Extract(c) => CallStep(w, src, symbol, data, c)
    case EarningsHandler =>
      RunCallsRequests(w, src, symbol, data, EarningsCalls);
      RunCalls(w, src, symbol, data, EarningsCalls)
    case FinancialsHandler =>
      RunCallsRequests(w, src, symbol, data, FinancialsCalls);
      RunCalls(w, src, symbol, data, FinancialsCalls)
    case OutstandingHandler =>
      RunCallsRequests(w, src, symbol, data, OutstandingCalls);
      RunCalls(w, src, symbol, data, OutstandingCalls)
  }

  /** `fn = getattr(self, name); fn(symbol, data)`. */
  function NameStep(w: World, src: Source, kind: SymbolType, symbol: string, data: Json, name: string): (s: Step)
    ensures s.world.requests == w.requests
  {
    match Method(kind, name)
    case None => Step(w, Raised(AttributeError))
    case Some(h) => HandlerStep(w, src, symbol, data, h)
  }

  method Dispatch(env: Env, src: Source, kind: SymbolType, symbol: string, data: Json, name: string)
    returns (o: Outcome)
    modifies env
    ensures Step(env.State(), o) == NameStep(old(env.State()), src, kind, symbol, data, name)
  {
    var h := Method(kind, name);
    if h.None? {
      return Raised(AttributeError);
    }
    o := Handle(env, src, symbol, data, h.value);
  }

  /** `fn(symbol, data)` for the method found. */
  method Handle(env: Env, src: Source, symbol: string, data: Json, h: Handler) returns (o: Outcome)
    modifies env
    ensures Step(env.State(), o) == HandlerStep(old(env.State()), src, symbol, data, h)
  {
    match h
    case Extract(c) =>
      o := CallOne(env, src, symbol, data, c);
    case EarningsHandler =>
      o := Earnings(env, src, symbol, data);
    case FinancialsHandler =>
      o := Financials(env, src, symbol, data);
    case OutstandingHandler =>
      o := OutstandingShares(env, src, symbol, data);
  }

  /** The loop of `fundamentals` over `get_methods()`, stopping at the
      first exception. */
  function DispatchAll(w: World, src: Source, kind: SymbolType, symbol: string, data: Json, names: seq<string>): Step
    decreases |names|
  {
    if |names| == 0 then Step(w, Done)
    else
      var s := NameStep(w, src, kind, symbol, data, names[0]);
      if s.outcome.Raised? then s else DispatchAll(s.world, src, kind, symbol, data, names[1..])
  }

  lemma {:induction false} DispatchAllRequests(w: World, src: Source, kind: SymbolType, symbol: string,
                                               data: Json, names: seq<string>)
    ensures DispatchAll(w, src, kind, symbol, data, names).world.requests == w.requests
    decreases |names|
  {
    if |names| > 0 {
      var s := NameStep(w, src, kind, symbol, data, names[0]);
      if s.outcome.Done? {
        DispatchAllRequests(s.world, src, kind, symbol, data, names[1..]);
      }
    }
  }

  /** How a `process_data` call ends does not depend on the state. */
  lemma CallAnyWorld(w1: World, w2: World, src: Source, symbol: string, data: Json, c: Call)
    ensures CallStep(w1, src, symbol, data, c).outcome == CallStep(w2, src, symbol, data, c).outcome
  {
  }

  lemma {:induction false} RunCallsAnyWorld(w1: World, w2: World, src: Source, symbol: string, data: Json, calls: seq<Call>)
    ensures RunCalls(w1, src, symbol, data, calls).outcome == RunCalls(w2, src, symbol, data, calls).outcome
    decreases |calls|
  {
    if |calls| > 0 {
      CallAnyWorld(w1, w2, src, symbol, data, calls[0]);
      var s1 := CallStep(w1, src, symbol, data, calls[0]);
      var s2 := CallStep(w2, src, symbol, data, calls[0]);
      RunCallsAnyWorld(s1.world, s2.world, src, symbol, data, calls[1..]);
    }
  }

  lemma HandlerAnyWorld(w1: World, w2: World, src: Source, symbol: string, data: Json, h: Handler)
    ensures HandlerStep(w1, src, symbol, data, h).outcome == HandlerStep(w2, src, symbol, data, h).outcome
  {
    match h
    case Extract(c) => CallAnyWorld(w1, w2, src, symbol, data, c);
    case EarningsHandler => RunCallsAnyWorld(w1, w2, src, symbol, data, EarningsCalls);
    case FinancialsHandler => RunCallsAnyWorld(w1, w2, src, symbol, data, FinancialsCalls);
    case OutstandingHandler => RunCallsAnyWorld(w1, w2, src, symbol, data, OutstandingCalls);
  }

  lemma NameAnyWorld(w1: World, w2: World, src: Source, kind: SymbolType, symbol: string, data: Json, name: string)
    ensures NameStep(w1, src, kind, symbol, data, name).outcome == NameStep(w2, src, kind, symbol, data, name).outcome
  {
    var h := Method(kind, name);
    if h.Some? {
      HandlerAnyWorld(w1, w2, src, symbol, data, h.value);
    }
  }

  /** How the dispatch loop ends does not depend on the state it starts
      from: the document alone decides which method raises. */
  lemma {:induction false} DispatchAllAnyWorld(w1: World, w2: World, src: Source, kind: SymbolType, symbol: string,
                                               data: Json, names: seq<string>)
    ensures DispatchAll(w1, src, kind, symbol, data, names).outcome == DispatchAll(w2, src, kind, symbol, data, names).outcome
    decreases |names|
  {
    if |names| > 0 {
      NameAnyWorld(w1, w2, src, kind, symbol, data, names[0]);
      var s1 := NameStep(w1, src, kind, symbol, data, names[0]);
      var s2 := NameStep(w2, src, kind, symbol, data, names[0]);
      DispatchAllAnyWorld(s1.world, s2.world, src, kind, symbol, data, names[1..]);
    }
  }

  /** How `fundamentals` ends depends on the API's answer only. */
  lemma FundamentalsAnyWorld(api: Api, w1: World, w2: World, src: Source, kind: SymbolType, symbol: string, dir: seq<string>)
    ensures FundamentalsStep(api, w1, src, kind, symbol, dir).outcome == FundamentalsStep(api, w2, src, kind, symbol, dir).outcome
  {
    var data := JsonOf(api(FundamentalsUrl(src, symbol)));
    if data.Ok? {
      DispatchAllAnyWorld(Fetched(w1, FundamentalsUrl(src, symbol)), Fetched(w2, FundamentalsUrl(src, symbol)),
                          src, kind, symbol, data.value, GetMethods(src, dir));
    }
  }

  /** A method that extracts a section the document lacks (a stock with no
      `Highlights`, say) only logs a warning, and the loop goes on with
      the next name, so the sections after it are still written. */
  lemma AbsentSectionContinues(w: World, src: Source, kind: SymbolType, symbol: string, data: Json,
                               names: seq<string>, c: Call)
    requires |names| > 0 && Method(kind, names[0]) == Some(Extract(c))
    requires data.JObj? && c.key !in Keys(data.members)
    ensures !c.nested && c.conv == NoConv
    ensures DispatchAll(w, src, kind, symbol, data, names) ==
              DispatchAll(Appended(w, Warning(symbol, DataPath(c.key, c.sub, c.path))), src, kind, symbol, data, names[1..])
  {
    AbsentCall(w, src, symbol, data, c);
    assert NameStep(w, src, kind, symbol, data, names[0]) == CallStep(w, src, symbol, data, c);
  }

  lemma AbsentCall(w: World, src: Source, symbol: string, data: Json, c: Call)
    requires !c.nested && c.conv == NoConv
    requires data.JObj? && c.key !in Keys(data.members)
    ensures CallStep(w, src, symbol, data, c) == Step(Appended(w, Warning(symbol, DataPath(c.key, c.sub, c.path))), Done)
  {
    assert ParseJsonSpec(data, c.key, c.sub) == Ok(None);
  }

  function FundamentalsUrl(src: Source, symbol: string): string
  {
    RequestUrl(src.apiToken, "fundamentals/" + symbol, [])
  }

  /** `fundamentals(symbol)` on an object whose `dir()` is `dir`. */
  function FundamentalsStep(api: Api, w: World, src: Source, kind: SymbolType, symbol: string, dir: seq<string>): Step
  {
    var w1 := Fetched(w, FundamentalsUrl(src, symbol));
    match JsonOf(api(FundamentalsUrl(src, symbol)))
    case Err(e) => Step(w1, Raised(e))
    case Ok(data) => DispatchAll(w1, src, kind, symbol, data, GetMethods(src, dir))
  }

  method FundamentalsOf(env: Env, src: Source, kind: SymbolType, symbol: string, dir: seq<string>)
    returns (o: Outcome)
    modifies env
    ensures Step(env.State(), o) == FundamentalsStep(env.api, old(env.State()), src, kind, symbol, dir)
  {
    var body := Request(env, src, "fundamentals/" + symbol, []);
    var data := JsonOf(body);
    if data.Err? {
      return Raised(data.error);
    }
    o := DispatchEach(env, src, kind, symbol, data.value, GetMethods(src, dir));
  }

  lemma DispatchAllUnfold(w: World, src: Source, kind: SymbolType, symbol: string, data: Json, names: seq<string>, k: int)
    requires 0 <= k < |names|
    ensures DispatchAll(w, src, kind, symbol, data, names[k..]) ==
              var s := NameStep(w, src, kind, symbol, data, names[k]);
              if s.outcome.Raised? then s else DispatchAll(s.world, src, kind, symbol, data, names[k + 1..])
  {
    assert names[k..][1..] == names[k + 1..];
  }

  /** `for name in self.get_methods(): getattr(self, name)(symbol, data)`:
      every method receives the same decoded document. */
  method DispatchEach(env: Env, src: Source, kind: SymbolType, symbol: string, data: Json, names: seq<string>)
    returns (o: Outcome)
    modifies env
    ensures Step(env.State(), o) == DispatchAll(old(env.State()), src, kind, symbol, data, names)
  {
    ghost var w0 := env.State();
    var i := 0;
    while i < |names|
      invariant 0 <= i <= |names|
      invariant DispatchAll(w0, src, kind, symbol, data, names) ==
                DispatchAll(env.State(), src, kind, symbol, data, names[i..])
    {
      DispatchAllUnfold(env.State(), src, kind, symbol, data, names, i);
      o := Dispatch(env, src, kind, symbol, data, names[i]);
      if o.Raised? {
        return;
      }
      i := i + 1;
    }
    o := Done;
  }

  /** `fundamentals` issues exactly one request, whatever its methods do. */
  lemma FundamentalsOneRequest(api: Api, w: World, src: Source, kind: SymbolType, symbol: string, dir: seq<string>)
    ensures FundamentalsStep(api, w, src, kind, symbol, dir).world.requests == w.requests + [FundamentalsUrl(src, symbol)]
  {
    var w1 := Fetched(w, FundamentalsUrl(src, symbol));
    var data := JsonOf(api(FundamentalsUrl(src, symbol)));
    if data.Ok? {
      DispatchAllRequests(w1, src, kind, symbol, data.value, GetMethods(src, dir));
    }
  }

  lemma StockNoDunder(x: string)
    requires x in Extractors(Stock)
    ensures !HasDunder(x)
  {
    assert !HasDunder("general") && !HasDunder("highlights") && !HasDunder("valuation") &&
           !HasDunder("share_stats") && !HasDunder("technicals");
    assert !HasDunder("analyst_ratings") && !HasDunder("earnings") && !HasDunder("financials") &&
           !HasDunder("outstanding_shares");
  }

  lemma StockExtractors(x: string)
    requires x in Extractors(Stock)
    ensures !HasDunder(x) && x !in BaseExclude + FundamentalsExclude && Method(Stock, x).Some?
  {
    StockNoDunder(x);
  }

  lemma EtfNoDunder(x: string)
    requires x in Extractors(Etf)
    ensures !HasDunder(x)
  {
    assert !HasDunder("general") && !HasDunder("technicals") && !HasDunder("etf_data") &&
           !HasDunder("etf_data_asset_allocation");
    assert !HasDunder("etf_data_world_regions") && !HasDunder("etf_data_sector_weights") &&
           !HasDunder("etf_data_fixed_income") && !HasDunder("etf_data_top_10_holdings");
  }

  lemma EtfExtractors(x: string)
    requires x in Extractors(Etf)
    ensures !HasDunder(x) && x !in BaseExclude + FundamentalsExclude && Method(Etf, x).Some?
  {
    EtfNoDunder(x);
  }

  lemma MutualFundNoDunder(x: string)
    requires x in Extractors(MutualFund)
    ensures !HasDunder(x)
  {
    assert !HasDunder("mutual_fund_data") && !HasDunder("mutual_fund_data_asset_allocation") &&
           !HasDunder("mutual_fund_data_value_growth") && !HasDunder("mutual_fund_data_top_holdings");
    assert !HasDunder("mutual_fund_data_market_capitalization") && !HasDunder("mutual_fund_data_sector_weights") &&
           !HasDunder("mutual_fund_data_world_regions") && !HasDunder("general");
  }

  lemma MutualFundExtractors(x: string)
    requires x in Extractors(MutualFund)
    ensures !HasDunder(x) && x !in BaseExclude + FundamentalsExclude && Method(MutualFund, x).Some?
  {
    MutualFundNoDunder(x);
  }

  lemma IndexExtractors(x: string)
    requires x in Extractors(Index)
    ensures !HasDunder(x) && x !in BaseExclude + FundamentalsExclude && Method(Index, x).Some?
  {
  }

  /** Every extractor a subclass defines is dispatchable, and the subclass
      defines a method for each of them. */
  lemma ExtractorsDispatched(baseDir: string, apiToken: string, kind: SymbolType, x: string)
    requires x in Extractors(kind)
    ensures Dispatchable(FundSource(baseDir, apiToken, kind), x)
    ensures Method(kind, x).Some?
  {
    match kind
    case Stock => StockExtractors(x);
    case Etf => EtfExtractors(x);
    case MutualFund => MutualFundExtractors(x);
    case Index => IndexExtractors(x);
  }

  /** When `dir()` lists the subclass's extractors, what it inherits
      (attributes, base methods and the `FundamentalsData` methods) and
      dunder names, `get_methods` returns exactly the extractors, and each
      has a method. */
  lemma FundamentalsDispatchesExtractors(baseDir: string, apiToken: string, kind: SymbolType, dir: seq<string>)
    requires forall x :: x in dir ==> x in Extractors(kind) || x in BaseExclude || x in FundamentalsExclude || HasDunder(x)
    requires forall x :: x in Extractors(kind) ==> x in dir
    ensures forall x :: x in GetMethods(FundSource(baseDir, apiToken, kind), dir) <==> x in Extractors(kind)
    ensures forall x :: x in GetMethods(FundSource(baseDir, apiToken, kind), dir) ==> Method(kind, x).Some?
  {
    var src := FundSource(baseDir, apiToken, kind);
    forall x | x in Extractors(kind)
      ensures x in GetMethods(src, dir) && Method(kind, x).Some?
    {
      ExtractorsDispatched(baseDir, apiToken, kind, x);
    }
    forall x | x in GetMethods(src, dir) ensures x in Extractors(kind) {
      assert x in dir && Dispatchable(src, x);
    }
  }
}
