/** The loop of `EodData.bulk_request` (coco_quant/eod/eod_prices.py),
    whatever per-symbol operation it is given: one call per row of the
    day's listing, where the four transport and decoding exceptions are
    logged and skipped and any other one ends the loop. */
module BulkLoop {
  import opened Errors
  import opened Text
  import opened JsonValues
  import opened Tables
  import opened Environment
  import opened EodPrices

  /** `f"{v}"` for a cell of the listing. */
  function CellText(v: Json): string
  {
    match v
    case JStr(s) => s
    case JNum(n) => IntString(n)
    case JNull => "nan"
    case JBool(b) => if b then "True" else "False"
    case JArr(_) => ""
    case JObj(_) => ""
  }

  /** `f"{row['code']}.{row['ex']}"` for row `i`; a listing without one of
      the two columns raises `KeyError` for the first one missing. */
  function SymbolAt(t: Table, i: int): Result<string>
    requires Valid(t) && 0 <= i < |t.rows|
  {
    if "code" !in Names(t) then Err(KeyError("code"))
    else if "ex" !in Names(t) then Err(KeyError("ex"))
    else Ok(CellText(Cell(t, i, "code")) + "." + CellText(Cell(t, i, "ex")))
  }

  /** The symbol of every row, in the order `iterrows` visits them. */
  function RowSymbols(t: Table): (r: seq<Result<string>>)
    requires Valid(t)
    ensures |r| == |t.rows|
    ensures forall i :: 0 <= i < |t.rows| ==> r[i] == SymbolAt(t, i)
  {
    seq(|t.rows|, i requires 0 <= i < |t.rows| => SymbolAt(t, i))
  }

  /** The state after a call of `run` that ended with a handled exception:
      one log line naming the symbol. */
  function Recovered(s: Step, symbol: string): World
    requires s.outcome.Raised?
  {
    Appended(s.world, Logged(symbol, s.outcome.error))
  }

  /** The loop of `bulk_request` from row `i` on. */
  function BulkFrom(run: Runner, w: World, syms: seq<Result<string>>, i: nat): Step
    requires i <= |syms|
    decreases |syms| - i
  {
    if i == |syms| then Step(w, Done)
    else
      match syms[i]
      case Err(e) => Step(w, Raised(e))
      case Ok(symbol) =>
        var s := run(w, symbol);
        if s.outcome.Done? then BulkFrom(run, s.world, syms, i + 1)
        else if Handled(s.outcome.error) then BulkFrom(run, Recovered(s, symbol), syms, i + 1)
        else s
  }

  /** One turn of the loop: what becomes of row `i` once its symbol is read. */
  lemma BulkFromNext(run: Runner, w: World, syms: seq<Result<string>>, i: nat, symbol: string)
    requires i < |syms| && syms[i] == Ok(symbol)
    ensures var s := run(w, symbol);
            BulkFrom(run, w, syms, i) ==
              if s.outcome.Raised? && !Handled(s.outcome.error) then s
              else BulkFrom(run, if s.outcome.Done? then s.world else Recovered(s, symbol), syms, i + 1)
  {
  }

  // ---------------------------------------------------------------------
  // What a run does.

  /** A run from row `i` keeps the requests before it and adds at most one
      per remaining row, exactly one per remaining row when it completes. */
  lemma {:induction false} BulkRequestCount(run: Runner, url: string -> string, w: World, syms: seq<Result<string>>, i: nat)
    requires i <= |syms|
    requires OneRequestEach(run, url)
    ensures var r := BulkFrom(run, w, syms, i).world.requests;
            |w.requests| <= |r| <= |w.requests| + (|syms| - i) && r[..|w.requests|] == w.requests
    ensures BulkFrom(run, w, syms, i).outcome.Done? ==>
              |BulkFrom(run, w, syms, i).world.requests| == |w.requests| + (|syms| - i)
    decreases |syms| - i
  {
    if i < |syms| && syms[i].Ok? {
      var symbol := syms[i].value;
      var s := run(w, symbol);
      if !(s.outcome.Raised? && !Handled(s.outcome.error)) {
        var w1 := if s.outcome.Done? then s.world else Recovered(s, symbol);
        assert BulkFrom(run, w, syms, i) == BulkFrom(run, w1, syms, i + 1);
        BulkRequestCount(run, url, w1, syms, i + 1);
        var r := BulkFrom(run, w1, syms, i + 1).world.requests;
        assert r[..|w.requests|] == r[..|w1.requests|][..|w.requests|];
      }
    }
  }

  /** The `k`-th request of a run is the URL of the job for the row that
      many places after `i`: the loop calls the job once per row, in row
      order, with that row's symbol. */
  lemma {:induction false} BulkRequestAt(run: Runner, url: string -> string, w: World, syms: seq<Result<string>>, i: nat, k: int)
    requires i <= |syms|
    requires OneRequestEach(run, url)
    requires |w.requests| <= k < |BulkFrom(run, w, syms, i).world.requests|
    ensures i + (k - |w.requests|) < |syms|
    ensures syms[i + (k - |w.requests|)].Ok?
    ensures BulkFrom(run, w, syms, i).world.requests[k] == url(syms[i + (k - |w.requests|)].value)
    decreases |syms| - i
  {
    BulkRequestCount(run, url, w, syms, i);
    var n := |w.requests|;
    var symbol := syms[i].value;
    var s := run(w, symbol);
    assert s.world.requests == w.requests + [url(symbol)];
    if s.outcome.Raised? && !Handled(s.outcome.error) {
      assert BulkFrom(run, w, syms, i) == s;
      assert k == n;
      assert s.world.requests[k] == url(symbol);
    } else {
      var w1 := if s.outcome.Done? then s.world else Recovered(s, symbol);
      assert BulkFrom(run, w, syms, i) == BulkFrom(run, w1, syms, i + 1);
      assert w1.requests == w.requests + [url(symbol)];
      BulkRequestCount(run, url, w1, syms, i + 1);
      var r := BulkFrom(run, w1, syms, i + 1).world.requests;
      if k == n {
        assert r[..n + 1] == w1.requests;
        assert r[k] == w1.requests[k] == url(symbol);
      } else {
        BulkRequestAt(run, url, w1, syms, i + 1, k);
        assert i + (k - n) == (i + 1) + (k - (n + 1));
      }
    }
  }

  /** `bulk_request` once the listing has been requested: a listing that
      could not be read ends it with that error, otherwise the loop runs
      over its rows. */
  function BulkOver(run: Runner, w: World, listing: Result<Table>): Step
    requires listing.Ok? ==> Valid(listing.value)
  {
    match listing
    case Err(e) => Step(w, Raised(e))
    case Ok(t) => BulkFrom(run, w, RowSymbols(t), 0)
  }

  /** What a run over a listing requests and raises: nothing more when the
      listing fails; otherwise one URL per row in row order, with that row's
      symbol, all rows when it completes, and never a handled exception. */
  lemma BulkOverRun(run: Runner, url: string -> string, w: World, listing: Result<Table>)
    requires listing.Ok? ==> Valid(listing.value)
    requires OneRequestEach(run, url)
    ensures listing.Err? ==> BulkOver(run, w, listing) == Step(w, Raised(listing.error))
    ensures listing.Ok? ==>
              var t := listing.value;
              var s := BulkOver(run, w, listing);
              var r := s.world.requests;
              var n := |w.requests|;
              && n <= |r| <= n + |t.rows|
              && r[..n] == w.requests
              && (forall j :: 0 <= j < |r| - n ==> SymbolAt(t, j).Ok? && r[n + j] == url(SymbolAt(t, j).value))
              && (s.outcome.Done? ==> |r| == n + |t.rows|)
              && (s.outcome.Raised? ==> !Handled(s.outcome.error))
  {
    if listing.Ok? {
      var t := listing.value;
      var s := BulkFrom(run, w, RowSymbols(t), 0);
      BulkRunOf(run, url, w, RowSymbols(t));
      if s.outcome.Raised? && Handled(s.outcome.error) {
        RowSymbolsUnhandled(t, s.outcome.error);
      }
    }
  }

  /** `bulk_request(exchange, fn)` with `run` for `fn`: request the day's
      listing of the exchange, then run over its rows. */
  function BulkStep(run: Runner, api: Api, w: World, src: Source, exchange: string): Step
  {
    BulkOver(run, Fetched(w, LatestUrl(src, exchange)), LatestPrices(api, src, exchange))
  }

  /** A run starts with the listing request; a listing that could not be
      read ends it there, with that error. */
  lemma BulkRunListing(run: Runner, url: string -> string, api: Api, w: World, src: Source, exchange: string)
    requires OneRequestEach(run, url)
    ensures var r := BulkStep(run, api, w, src, exchange).world.requests;
            |r| > |w.requests| && r[..|w.requests| + 1] == w.requests + [LatestUrl(src, exchange)]
    ensures LatestPrices(api, src, exchange).Err? ==>
              BulkStep(run, api, w, src, exchange) ==
                Step(Fetched(w, LatestUrl(src, exchange)), Raised(LatestPrices(api, src, exchange).error))
  {
    BulkOverRun(run, url, Fetched(w, LatestUrl(src, exchange)), LatestPrices(api, src, exchange));
  }

  /** Once the listing is read, a run requests one URL per row in row
      order, `url` of the row's symbol, all rows when it completes; whatever
      it raises is none of the four handled exceptions. */
  lemma BulkRunRows(run: Runner, url: string -> string, api: Api, w: World, src: Source, exchange: string)
    requires OneRequestEach(run, url)
    requires LatestPrices(api, src, exchange).Ok?
    ensures var t := LatestPrices(api, src, exchange).value;
            var s := BulkStep(run, api, w, src, exchange);
            var n := |w.requests| + 1;
            && |s.world.requests| <= n + |t.rows|
            && (forall j :: 0 <= j < |s.world.requests| - n ==>
                  SymbolAt(t, j).Ok? && s.world.requests[n + j] == url(SymbolAt(t, j).value))
            && (s.outcome.Done? ==> |s.world.requests| == n + |t.rows|)
            && (s.outcome.Raised? ==> !Handled(s.outcome.error))
  {
    BulkOverRun(run, url, Fetched(w, LatestUrl(src, exchange)), LatestPrices(api, src, exchange));
  }

  /** A job failing with a handled exception costs one log line naming the
      symbol, and the loop goes on with the next row. */
  lemma HandledContinues(run: Runner, w: World, syms: seq<Result<string>>, i: nat)
    requires i < |syms| && syms[i].Ok?
    requires run(w, syms[i].value).outcome.Raised? && Handled(run(w, syms[i].value).outcome.error)
    ensures var s := run(w, syms[i].value);
            BulkFrom(run, w, syms, i) ==
              BulkFrom(run, s.world.(log := s.world.log + [Logged(syms[i].value, s.outcome.error)]), syms, i + 1)
  {
  }

  /** The log lines a run from row `i` adds when each job ends as `out`
      says: one line naming the symbol and the error for each job that
      raised. */
  function Caught(out: string -> Outcome, syms: seq<Result<string>>, i: nat): seq<LogEntry>
    requires i <= |syms| && forall j :: i <= j < |syms| ==> syms[j].Ok?
    decreases |syms| - i
  {
    if i == |syms| then []
    else
      var symbol := syms[i].value;
      (if out(symbol).Raised? then [Logged(symbol, out(symbol).error)] else []) + Caught(out, syms, i + 1)
  }

  /** A run whose rows all have a symbol, and whose jobs each end normally
      or with one of the four handled exceptions, goes through every row and
      does not raise. When the jobs log nothing themselves, the log gains
      exactly one line per failed job, in row order. */
  lemma {:induction false} BulkCompletes(run: Runner, out: string -> Outcome, w: World, syms: seq<Result<string>>, i: nat)
    requires i <= |syms|
    requires OutcomeOf(run, out)
    requires forall j :: i <= j < |syms| ==>
               syms[j].Ok? && (out(syms[j].value).Raised? ==> Handled(out(syms[j].value).error))
    ensures BulkFrom(run, w, syms, i).outcome.Done?
    ensures KeepsLog(run) ==> BulkFrom(run, w, syms, i).world.log == w.log + Caught(out, syms, i)
    decreases |syms| - i
  {
    if i < |syms| {
      var symbol := syms[i].value;
      var s := run(w, symbol);
      var w1 := if s.outcome.Done? then s.world else Recovered(s, symbol);
      BulkFromNext(run, w, syms, i, symbol);
      BulkCompletes(run, out, w1, syms, i + 1);
      if KeepsLog(run) {
        assert w1.log == w.log + (if out(symbol).Raised? then [Logged(symbol, out(symbol).error)] else []);
      }
    }
  }

  /** Whatever a run raises is none of the four handled exceptions, or a
      row's symbol could not be read. */
  lemma {:induction false} BulkRaisesUnhandled(run: Runner, w: World, syms: seq<Result<string>>, i: nat)
    requires i <= |syms|
    ensures BulkFrom(run, w, syms, i).outcome.Raised? ==>
              !Handled(BulkFrom(run, w, syms, i).outcome.error) ||
              Err(BulkFrom(run, w, syms, i).outcome.error) in syms[i..]
    decreases |syms| - i
  {
    if i < |syms| {
      if syms[i].Ok? {
        var symbol := syms[i].value;
        var s := run(w, symbol);
        if s.outcome.Done? {
          BulkRaisesUnhandled(run, s.world, syms, i + 1);
        } else if Handled(s.outcome.error) {
          BulkRaisesUnhandled(run, Recovered(s, symbol), syms, i + 1);
        }
      }
      assert syms[i..] == [syms[i]] + syms[i + 1..];
    }
  }

  /** A whole run over the listing: the requests before it are kept, then
      one URL per row in row order, with that row's symbol, and all rows
      when it completes. */
  lemma BulkRunOf(run: Runner, url: string -> string, w: World, syms: seq<Result<string>>)
    requires OneRequestEach(run, url)
    ensures |w.requests| <= |BulkFrom(run, w, syms, 0).world.requests| <= |w.requests| + |syms|
    ensures BulkFrom(run, w, syms, 0).world.requests[..|w.requests|] == w.requests
    ensures forall j :: 0 <= j < |BulkFrom(run, w, syms, 0).world.requests| - |w.requests| ==>
              syms[j].Ok? && BulkFrom(run, w, syms, 0).world.requests[|w.requests| + j] == url(syms[j].value)
    ensures BulkFrom(run, w, syms, 0).outcome.Done? ==>
              |BulkFrom(run, w, syms, 0).world.requests| == |w.requests| + |syms|
    ensures BulkFrom(run, w, syms, 0).outcome.Raised? ==>
              !Handled(BulkFrom(run, w, syms, 0).outcome.error) || Err(BulkFrom(run, w, syms, 0).outcome.error) in syms
  {
    var s := BulkFrom(run, w, syms, 0);
    var n := |w.requests|;
    BulkRequestCount(run, url, w, syms, 0);
    forall j | 0 <= j < |s.world.requests| - n
      ensures syms[j].Ok? && s.world.requests[n + j] == url(syms[j].value)
    {
      BulkRequestAt(run, url, w, syms, 0, n + j);
    }
    BulkRaisesUnhandled(run, w, syms, 0);
    if s.outcome.Raised? && Handled(s.outcome.error) {
      assert Err(s.outcome.error) in syms[0..];
      assert syms[0..] == syms;
    }
    assert s.world.requests[..n] == w.requests;
  }

  /** Reading the symbols of a listing never raises a handled exception. */
  lemma RowSymbolsUnhandled(t: Table, e: Error)
    requires Valid(t) && Err(e) in RowSymbols(t)
    ensures !Handled(e)
  {
  }

  /** A listing without `code` or `ex` columns ends the run at its first row,
      before any job runs. */
  lemma MissingColumns(run: Runner, w: World, t: Table)
    requires Valid(t) && |t.rows| > 0 && ("code" !in Names(t) || "ex" !in Names(t))
    ensures BulkFrom(run, w, RowSymbols(t), 0) ==
              Step(w, Raised(KeyError(if "code" !in Names(t) then "code" else "ex")))
  {
  }
}
