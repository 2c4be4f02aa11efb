/** `EodData.bulk_request` with the three per-symbol operations the SDK
    hands it. */
module Bulk {
  import opened Errors
  import opened Tables
  import opened Environment
  import opened EodPrices
  import opened Fundamentals
  import opened Sentiments
  import opened BulkLoop

  /** The bound method handed to `bulk_request`. */
  datatype Job =
    | EodPricesJob                                        // EodPricesData.eod_prices
    | FundamentalsJob(kind: SymbolType, dir: seq<string>) // FundamentalsData.fundamentals
    | SentimentsJob                                       // SentimentsData.sentiments

  /** The one URL each job requests for a symbol. */
  function JobUrl(src: Source, job: Job, symbol: string): string
  {
    match job
    case EodPricesJob => EodUrlFor(src, symbol)
    case FundamentalsJob(_, _) => FundamentalsUrl(src, symbol)
    case SentimentsJob => NewsUrl(src, symbol)
  }

  /** `fn(symbol)`: every job requests exactly its own URL once. */
  function JobStep(api: Api, w: World, src: Source, job: Job, symbol: string): (s: Step)
    ensures s.world.requests == w.requests + [JobUrl(src, job, symbol)]
  {
    match job
    case EodPricesJob => EodPricesStep(api, w, src, symbol)
    case FundamentalsJob(kind, dir) =>
      FundamentalsOneRequest(api, w, src, kind, symbol, dir);
      FundamentalsStep(api, w, src, kind, symbol, dir)
    case SentimentsJob => SentimentsStep(api, w, src, symbol)
  }

  method RunJob(env: Env, src: Source, job: Job, symbol: string) returns (o: Outcome)
    modifies env
    ensures Step(env.State(), o) == JobStep(env.api, old(env.State()), src, job, symbol)
  {
    match job
    case EodPricesJob => o := EodPrices.EodPrices(env, src, symbol);
    case FundamentalsJob(kind, dir) => o := FundamentalsOf(env, src, kind, symbol, dir);
    case SentimentsJob => o := Sentiments.Sentiments(env, src, symbol);
  }

  function JobRunner(api: Api, src: Source, job: Job): Runner
  {
    (w: World, symbol: string) => JobStep(api, w, src, job, symbol)
  }

  lemma JobRunnerRequests(api: Api, src: Source, job: Job)
    ensures OneRequestEach(JobRunner(api, src, job), (symbol: string) => JobUrl(src, job, symbol))
  {
  }

  /** How each job ends for each symbol, read off a run from an empty state. */
  function JobOutcomes(api: Api, src: Source, job: Job): string -> Outcome
  {
    (symbol: string) => JobStep(api, World(map[], [], []), src, job, symbol).outcome
  }

  /** Every job ends the same way whatever the state it starts from;
      `eod_prices` and `sentiments` log nothing themselves. With
      `BulkLoop.BulkCompletes` this gives the completion of the three bulk
      entry points. */
  lemma JobRunnerOutcome(api: Api, src: Source, job: Job)
    ensures OutcomeOf(JobRunner(api, src, job), JobOutcomes(api, src, job))
    ensures !job.FundamentalsJob? ==> KeepsLog(JobRunner(api, src, job))
  {
    forall w: World, symbol: string
      ensures JobRunner(api, src, job)(w, symbol).outcome == JobOutcomes(api, src, job)(symbol)
      ensures !job.FundamentalsJob? ==> JobRunner(api, src, job)(w, symbol).world.log == w.log
    {
      JobAnyWorld(api, src, job, w, symbol);
    }
  }

  lemma JobAnyWorld(api: Api, src: Source, job: Job, w: World, symbol: string)
    ensures JobStep(api, w, src, job, symbol).outcome == JobStep(api, World(map[], [], []), src, job, symbol).outcome
    ensures !job.FundamentalsJob? ==> JobStep(api, w, src, job, symbol).world.log == w.log
  {
    match job
    case EodPricesJob => EodPricesAnyWorld(api, w, World(map[], [], []), src, symbol);
    case FundamentalsJob(kind, dir) => FundamentalsAnyWorld(api, w, World(map[], [], []), src, kind, symbol, dir);
    case SentimentsJob => SentimentsAnyWorld(api, w, World(map[], [], []), src, symbol);
  }

  /** The body of the loop for one row: run the job, log a handled
      exception and tell the loop to go on, or tell it to stop. */
  method BulkRow(env: Env, src: Source, job: Job, symbol: string) returns (stop: bool, o: Outcome)
    modifies env
    ensures var s := JobRunner(env.api, src, job)(old(env.State()), symbol);
            && stop == (s.outcome.Raised? && !Handled(s.outcome.error))
            && (stop ==> o == s.outcome && env.State() == s.world)
            && (!stop ==> env.State() == if s.outcome.Done? then s.world else Recovered(s, symbol))
  {
    o := RunJob(env, src, job, symbol);
    stop := false;
    if o.Raised? {
      if Handled(o.error) {
        env.Log(Logged(symbol, o.error));
      } else {
        stop := true;
      }
    }
  }

  method BulkRequest(env: Env, src: Source, exchange: string, job: Job) returns (o: Outcome)
    modifies env
    ensures Step(env.State(), o) == BulkStep(JobRunner(env.api, src, job), env.api, old(env.State()), src, exchange)
  {
    ghost var run := JobRunner(env.api, src, job);
    ghost var goal := BulkStep(JobRunner(env.api, src, job), env.api, env.State(), src, exchange);
    var listing := EodLatestPrices(env, src, exchange);
    assert goal == BulkOver(run, env.State(), listing);
    if listing.Err? {
      return Raised(listing.error);
    }
    var t := listing.value;
    ghost var syms := RowSymbols(t);
    var i := 0;
    while i < |t.rows|
      invariant 0 <= i <= |t.rows|
      invariant goal == BulkFrom(run, env.State(), syms, i)
    {
      ghost var w := env.State();
      var symbol := SymbolAt(t, i);
      assert syms[i] == symbol;
      if symbol.Err? {
        return Raised(symbol.error);
      }
      BulkFromNext(run, w, syms, i, symbol.value);
      var stop, r := BulkRow(env, src, job, symbol.value);
      if stop {
        return r;
      }
      i := i + 1;
    }
    o := Done;
  }

  /** `EodPricesData.eod_prices_exchange`. */
  method EodPricesExchange(env: Env, src: Source, exchange: string) returns (o: Outcome)
    modifies env
    ensures Step(env.State(), o) == BulkStep(JobRunner(env.api, src, EodPricesJob), env.api, old(env.State()), src, exchange)
  {
    o := BulkRequest(env, src, exchange, EodPricesJob);
  }

  /** `FundamentalsData.fundamentals_exchange`. */
  method FundamentalsExchange(env: Env, src: Source, kind: SymbolType, exchange: string, dir: seq<string>)
    returns (o: Outcome)
    modifies env
    ensures Step(env.State(), o) == BulkStep(JobRunner(env.api, src, FundamentalsJob(kind, dir)), env.api, old(env.State()), src, exchange)
  {
    o := BulkRequest(env, src, exchange, FundamentalsJob(kind, dir));
  }

  /** `SentimentsData.sentiments_country`. */
  method SentimentsCountry(env: Env, src: Source, exchange: string) returns (o: Outcome)
    modifies env
    ensures Step(env.State(), o) == BulkStep(JobRunner(env.api, src, SentimentsJob), env.api, old(env.State()), src, exchange)
  {
    o := BulkRequest(env, src, exchange, SentimentsJob);
  }
}
