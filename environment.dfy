/** Everything outside the SDK that its code touches: the vendor's HTTP API
    (an oracle from URL to response), the output directory tree (a map from
    path to the table last written there) and the logger. */
module Environment {
  import opened Errors
  import opened JsonValues
  import opened Tables

  /** A response body as each decoder sees it: `pd.read_csv` of the text and
      `json.loads` of the text. */
  datatype Body = Body(csv: Result<Table>, json: Result<Json>)

  /** What `urllib.request.urlopen(url).read().decode()` gives for each URL:
      a body, or the transport error. */
  type Api = string -> Result<Body>

  datatype LogEntry =
    | Warning(symbol: string, path: string)     // `logger.warning(f"{symbol}: no {path} data")`
    | Logged(symbol: string, error: Error)      // `logger.error(...)` in `bulk_request`

  /** The response decoded by `pd.read_csv`; a ragged table is a parser
      error. */
  function CsvOf(r: Result<Body>): (t: Result<Table>)
    ensures t.Ok? ==> Valid(t.value)
    ensures t.Ok? <==> r.Ok? && r.value.csv.Ok? && Valid(r.value.csv.value)
  {
    match r
    case Err(e) => Err(e)
    case Ok(b) =>
      match b.csv
      case Err(e) => Err(e)
      case Ok(raw) => if Valid(raw) then Ok(raw) else Err(ParserError)
  }

  /** The response decoded by `json.loads`. */
  function JsonOf(r: Result<Body>): (j: Result<Json>)
    ensures j.Ok? <==> r.Ok? && r.value.json.Ok?
    ensures j.Ok? ==> j.value == r.value.json.value
  {
    match r
    case Err(e) => Err(e)
    case Ok(b) => b.json
  }

  /** The observable state: files on disk, URLs requested so far, log lines. */
  datatype World = World(files: map<string, Table>, requests: seq<string>, log: seq<LogEntry>)

  /** The state after an operation and how the operation ended. */
  datatype Step = Step(world: World, outcome: Outcome)

  /** A per-name operation as the loops of the SDK see it: from the state
      before the call and the name to the state after it and how it ended. */
  type Runner = (World, string) -> Step

  /** Every call of `run` requests exactly `url(name)`. */
  ghost predicate OneRequestEach(run: Runner, url: string -> string)
  {
    forall w: World, name: string :: run(w, name).world.requests == w.requests + [url(name)]
  }

  /** How a call of `run` ends depends on the name only, as `out` says. */
  ghost predicate OutcomeOf(run: Runner, out: string -> Outcome)
  {
    forall w: World, name: string :: run(w, name).outcome == out(name)
  }

  /** No call of `run` adds to the log. */
  ghost predicate KeepsLog(run: Runner)
  {
    forall w: World, name: string :: run(w, name).world.log == w.log
  }

  /** A call of `run` completes only for names `ok` holds for. */
  ghost predicate CompletesOnly(run: Runner, ok: string -> bool)
  {
    forall w: World, name: string :: run(w, name).outcome.Done? ==> ok(name)
  }

  /** A completed call of `run` writes `data(name)` to `path(name)` and
      changes no other file. */
  ghost predicate WritesEach(run: Runner, path: string -> string, data: string -> Table)
  {
    forall w: World, name: string :: run(w, name).outcome.Done? ==> run(w, name).world.files == w.files[path(name) := data(name)]
  }

  function Fetched(w: World, url: string): World
  {
    w.(requests := w.requests + [url])
  }

  /** `to_parquet` overwrites whatever was at `path`. */
  function Written(w: World, path: string, t: Table): World
  {
    w.(files := w.files[path := t])
  }

  function Appended(w: World, e: LogEntry): World
  {
    w.(log := w.log + [e])
  }

  class Env {
    const api: Api
    var files: map<string, Table>
    var requests: seq<string>
    var log: seq<LogEntry>

    function State(): World
      reads this
    {
      World(files, requests, log)
    }

    constructor (api: Api, files: map<string, Table>)
      ensures this.api == api && State() == World(files, [], [])
    {
      this.api := api;
      this.files := files;
      requests := [];
      log := [];
    }

    /** One GET of `url`. */
    method Fetch(url: string) returns (r: Result<Body>)
      modifies this
      ensures State() == Fetched(old(State()), url)
      ensures r == api(url)
    {
      requests := requests + [url];
      r := api(url);
    }

    /** `data.to_parquet(path)` after `os.makedirs`. */
    method Write(path: string, t: Table)
      modifies this
      ensures State() == Written(old(State()), path, t)
    {
      files := files[path := t];
    }

    method Log(e: LogEntry)
      modifies this
      ensures State() == Appended(old(State()), e)
    {
      log := log + [e];
    }
  }
}
