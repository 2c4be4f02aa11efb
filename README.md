# coco-quant-sdk EOD downloaders, modelled in Dafny

This project models the deterministic core of the `coco_quant.eod` package.
That package downloads market data from the EOD Historical Data REST API and
writes it to Parquet files. The parts modelled are these:

- **Response reshaping.** `parse_csv` and `parse_json` turn a response into a
  frame.
- **Request and path building.** `request` builds the URL and `to_parquet`
  builds the output path.
- **Method discovery.** `get_methods` filters the sorted `dir()` of a
  downloader through its exclusion list.
- **The bulk loop.** `bulk_request` runs one job per row of the day's
  listing. It logs four kinds of exception and lets every other one stop the
  loop.
- **The fundamentals extractors.** `process_data`, the `earnings` and
  `financials` column conversions, and the fixed fan-out of the four
  `FundamentalsData` subclasses.
- **The macro-indicator loop.** One request per indicator method, and the
  name-to-file mapping with its two collisions and one typo.
- **Sentiment flattening.** `parse_sentiments` and `sentiments`.

A pandas frame is an ordered list of labelled columns plus rows of cells
(`Tables`). Reading a row by label takes the first column with that label,
so repeated labels behave as in pandas. A JSON document is a datatype whose
objects are association lists, so dict iteration order is part of the value
(`JsonValues`).

The outside world is modelled as follows (`Environment`):

- The HTTP API is an oracle from URL to response, `Api`.
- The state is a `World`. It holds the file store as a map from path to the
  last table written there, the URLs requested so far, and the log lines.
- The class `Env` holds that state and is changed in place by `Fetch`,
  `Write` and `Log`.

Each state-changing operation of the SDK is a `method` on `Env`. A frame the
source mutates in place is a `Frames.Frame` object. Each method is proved
against a function that gives its result as a `Step`, the new world plus how
the call ended: `Done`, or `Raised(error)` for the Python exception that
propagates. The properties are then lemmas about those functions.

Files, by module:

- `text.dfy`: `Text`, ASCII lower-casing, Python string order, `'__' in s`.
- `errors.dfy`: `Errors`, the exceptions as values and the four `bulk_request` catches.
- `json.dfy`: `JsonValues`, JSON values, `in` and `[]` as Python evaluates them.
- `tables.dfy`: `Tables`, frames as values and the pandas operations the source uses.
- `frames.dfy`: `Frames`, the frame as a mutable object.
- `environment.dfy`: `Environment`, the API oracle, the world, `Env`, and the per-name runner abstraction.
- `parsing.dfy`: `Parsing`, `parse_csv` and `parse_json`.
- `eod_prices.py` is split across two files:
  - `eod_prices.dfy`: `EodPrices`, the `EodData` members and `EodPricesData.eod_prices`;
  - `bulk_loop.dfy` and `bulk.dfy`: `BulkLoop` and `Bulk`, `bulk_request` and the three `*_exchange` / `*_country` entry points.
- `fundamentals.dfy`: `Fundamentals`, `FundamentalsData` and its subclasses.
- `macro_indicators.dfy`: `MacroIndicators`.
- `sentiments.dfy`: `Sentiments`.

## Model

| member | source | states |
|---|---|---|
| EodPrices.NewSource | coco_quant/eod/eod_prices.py:48-52 | the exclusion list is the eight base names followed by the subclass's extras; a name is dispatchable exactly when it has no `__` and is in neither |
| EodPrices.EodPricesSource | coco_quant/eod/eod_prices.py:89-90 | `EodPricesData` excludes exactly the base names besides dunder names |
| EodPrices.ParamSuffixIsAmpEach | coco_quant/eod/eod_prices.py:56 | `"&" + "&".join(params)` (or nothing) equals each parameter preceded by its own `&`, in order |
| EodPrices.RequestUrl | coco_quant/eod/eod_prices.py:56-57 | the URL is the API base, `/`, the path, `?api_token=`, the token, then `&p` for each parameter in order |
| EodPrices.RequestUrlDistinguishes | coco_quant/eod/eod_prices.py:57 | different paths of one length, or different tokens of one length, give different URLs |
| EodPrices.RequestUrlOneParam | coco_quant/eod/eod_prices.py:56-57 | one parameter adds exactly `&` and that parameter to the bare URL |
| EodPrices.Request | coco_quant/eod/eod_prices.py:54-59 | `request` records exactly the built URL and returns the API's answer for it |
| EodPrices.ParquetPathInjective | coco_quant/eod/eod_prices.py:81 | under one base and parent directory, different symbols get different files |
| EodPrices.ToParquet | coco_quant/eod/eod_prices.py:79-81 | `to_parquet` replaces exactly the file `base/parent/symbol.parq` and nothing else |
| EodPrices.GetMethods | coco_quant/eod/eod_prices.py:83-85 | a name is returned exactly when `dir()` lists it and it is dispatchable; the filter keeps no more names than it is given |
| EodPrices.GetMethodsSorted | coco_quant/eod/eod_prices.py:85 | the result keeps `dir()`'s alphabetical order |
| EodPrices.LatestPrices | coco_quant/eod/eod_prices.py:75-77 | the listing is `parse_csv` of the `eod-bulk-last-day/<exchange>` response, and fails exactly when the CSV does |
| EodPrices.EodLatestPrices | coco_quant/eod/eod_prices.py:75-77 | the method makes one request and returns that listing |
| EodPrices.EodPricesStep | coco_quant/eod/eod_prices.py:93-97 | `eod_prices` requests `eod/<symbol>` once, records no warning or error, and writes nothing when it raises |
| EodPrices.EodPrices | coco_quant/eod/eod_prices.py:93-97 | the method's new world and outcome are those of `EodPricesStep` |
| EodPrices.EodPricesAnyWorld | coco_quant/eod/eod_prices.py:93-97 | how `eod_prices` ends depends on the API's answer only, not on the files, requests or log before it |
| EodPrices.PricesFile | coco_quant/eod/eod_prices.py:94-96 | the converted listing is well formed, keeps all rows but the trailer, has a `symbol` column holding the symbol in every row and one `date` column, tagged as dates |
| EodPrices.SymbolColumn | coco_quant/eod/eod_prices.py:94-95 | before conversion the listing keeps all rows but the trailer and holds the symbol in its `symbol` column in every row |
| EodPrices.EodPricesEffect | coco_quant/eod/eod_prices.py:93-97 | success exactly when the CSV parses and has exactly one `date` column; after a good download, KeyError("date") with none and ValueError with several; on success only the symbol's file under `eod_prices` changes; it holds all rows but the trailer, a `symbol` column with the symbol in every row, and `date` as dates |
| Parsing.CsvTable | coco_quant/eod/eod_prices.py:21-27 | `parse_csv` of a well-formed frame is well-formed |
| Parsing.ParseCsv | coco_quant/eod/eod_prices.py:21-27 | the in-place steps (slice, `df[key] = value`, relabel) give the frame `CsvTable` describes |
| Parsing.CsvRows | coco_quant/eod/eod_prices.py:23 | every row but the last is kept in order; an empty frame stays empty |
| Parsing.CsvLabels | coco_quant/eod/eod_prices.py:24-26 | every label is lower case; the original columns keep their positions with lower-cased labels; at most one column is added |
| Parsing.CsvKeyColumn | coco_quant/eod/eod_prices.py:24-26 | the key column, at its old position or appended, is labelled with the lower-cased key and holds the value in every row; other cells are unchanged |
| Parsing.ChildrenTable | coco_quant/eod/eod_prices.py:37-43 | a result is only ever a well-formed frame |
| Parsing.ConcatChildren | coco_quant/eod/eod_prices.py:36-43 | the loop concatenating one `from_dict([child])` per child, then relabelling, gives `ChildrenTable`, including its AttributeError cases |
| Parsing.ParseJson | coco_quant/eod/eod_prices.py:30-44 | the method, with its rebinding of `key` and `data`, returns what `ParseJsonSpec` says |
| Parsing.ParseJsonAbsent | coco_quant/eod/eod_prices.py:31-34 | for a dict of dicts the result is `None` exactly when `key` is missing, or `sub_key` is given and missing under `data[key]` |
| Parsing.ParseJsonSingleRow | coco_quant/eod/eod_prices.py:42-43 | without `sub_key`: one row whose labels are the lower-cased keys of `data[key]` and whose cells are its values |
| Parsing.ParseJsonPerChild | coco_quant/eod/eod_prices.py:37-43 | with `sub_key`: one row per child in iteration order; row `i` reads child `i`'s values by key; the labels are the keys of all children |
| Parsing.ParseJsonEmptyLevel | coco_quant/eod/eod_prices.py:35-43 | an empty child level raises AttributeError rather than giving an empty frame |
| Tables.RowTableCell | coco_quant/eod/eod_prices.py:39 | `from_dict([d])` has the keys of `d` as labels and reads each key's value |
| Tables.ConcatRows | coco_quant/eod/eod_prices.py:40 | `pd.concat` keeps all rows of both frames; its columns are the first frame's plus the second's new labels |
| Tables.ConcatRowsCell | coco_quant/eod/eod_prices.py:40 | a concatenated row reads by label as the row it came from, and a missing value where its frame lacked the label |
| Tables.ConcatRowsNames | coco_quant/eod/eod_prices.py:40 | the concatenated labels are those of either frame |
| Tables.Records | coco_quant/eod/eod_prices.py:38-40 | the accumulated frame has one row per record |
| Tables.RecordsCell | coco_quant/eod/eod_prices.py:38-40 | row `i` of the accumulated frame reads as record `i` |
| Tables.RecordsNames | coco_quant/eod/eod_prices.py:38-40 | its labels are exactly the keys that occur in some record |
| Tables.DropLast | coco_quant/eod/eod_prices.py:23 | `df[:-1]` keeps the columns and all rows but the last |
| Tables.WithConstCell | coco_quant/eod/eod_prices.py:25 | after `df[key] = value` every row holds the value under the key and reads as before elsewhere; the labels gain the key at the end when it was new |
| Tables.Lowered | coco_quant/eod/eod_prices.py:26 | relabelling lower-cases each label and keeps every cell and kind |
| Tables.WithKind | coco_quant/eod/eod_prices.py:96 | retagging a label changes the kind of exactly the columns with that label and keeps labels and cells |
| Tables.Occurrences | coco_quant/eod/eod_prices.py:96 | the count of columns with a label is positive exactly when the frame has that label |
| Tables.OccurrencesSameLabels | coco_quant/eod/eod_prices.py:96 | the count depends on the labels only, not on the kinds |
| Tables.OccurrencesWithout | coco_quant/eod/sentiments.py:21-22 | dropping `sentiment` keeps the number of `date` columns |
| Tables.Coerced | coco_quant/eod/eod_prices.py:96 | `df[n] = pd.to_datetime(df[n])` or `pd.to_numeric`: succeeds exactly when one column has the label, and retags just it; KeyError when none has it; ValueError (dates) or TypeError (numbers) when several do |
| Tables.Drop | coco_quant/eod/sentiments.py:21 | dropping a label removes every column with it from columns and rows alike |
| Tables.DropCell | coco_quant/eod/sentiments.py:21 | dropping one label keeps what each row holds under every other label |
| Tables.FromRecords | coco_quant/eod/sentiments.py:28 | `DataFrame.from_dict` of a list of objects has one row per object; anything else is refused |
| Tables.ConcatCols | coco_quant/eod/sentiments.py:23 | side-by-side concatenation puts the columns of both frames after each other, row by row |
| Frames.Frame.Coerce | coco_quant/eod/eod_prices.py:96 | the in-place conversion raises what `Coerced` raises, leaving the frame unchanged, and otherwise holds the retagged frame |
| Frames.Frame.Drop | coco_quant/eod/sentiments.py:21 | in-place drop: KeyError when the label is missing; otherwise the frame without it |
| Frames.Frame.SetConst | coco_quant/eod/eod_prices.py:25 | in-place `df[key] = value` |
| Frames.Frame.LowerColumns | coco_quant/eod/eod_prices.py:26 | in-place relabelling |
| Environment.CsvOf | coco_quant/eod/eod_prices.py:23 | `read_csv` succeeds exactly on a delivered, well-formed table |
| Environment.JsonOf | coco_quant/eod/sentiments.py:27 | `json.loads` succeeds exactly when the body decodes, giving that value |
| Environment.Env.Fetch | coco_quant/eod/eod_prices.py:58-59 | one request: the URL is recorded and the oracle's answer returned |
| Environment.Env.Write | coco_quant/eod/eod_prices.py:80-81 | one write replaces one path of the file store |
| JsonValues.Lookup | coco_quant/eod/eod_prices.py:36 | a key is found exactly when the dict has it, and the first binding is returned |
| JsonValues.PyIn | coco_quant/eod/eod_prices.py:31 | `key in data` tests a dict's keys and raises TypeError on a value that is not a dict, string or list |
| JsonValues.PyIndex | coco_quant/eod/eod_prices.py:33 | `data[key]` succeeds exactly on a dict that has the key; KeyError on a dict without it |
| Text.Lower | coco_quant/eod/eod_prices.py:26 | lower-casing keeps the length and non-letters and leaves no upper-case letter |
| Text.LowerIdempotent | coco_quant/eod/eod_prices.py:26 | lower-casing twice is lower-casing once |
| Text.Find | coco_quant/eod/eod_prices.py:36 | the first index holding the name, or the length when there is none |
| Text.LessTransitive | coco_quant/eod/eod_prices.py:85 | Python's string order, by which `dir()` sorts, is transitive |
| Text.SortedDistinct | coco_quant/eod/eod_prices.py:85 | a sorted `dir()` lists no name twice |
| BulkLoop.RowSymbols | coco_quant/eod/eod_prices.py:62-63 | one symbol per listing row, in row order |
| BulkLoop.BulkRequestCount | coco_quant/eod/eod_prices.py:62-65 | the loop keeps earlier requests and adds at most one per remaining row; completing means one per row |
| BulkLoop.BulkRequestAt | coco_quant/eod/eod_prices.py:62-65 | the `j`-th request added is the job's URL for row `j`'s symbol |
| BulkLoop.BulkRaisesUnhandled | coco_quant/eod/eod_prices.py:64-73 | the loop ends in an exception only when a job raised one of the uncaught kinds, or a row lacked `code`/`ex`; `BulkCompletes` is the converse |
| BulkLoop.BulkCompletes | coco_quant/eod/eod_prices.py:62-73 | when every row gives a symbol and every job either finishes or raises a caught kind, the loop finishes; with jobs that log nothing, the log gains exactly one error line per failing job, in row order |
| BulkLoop.BulkRunOf | coco_quant/eod/eod_prices.py:62-73 | from the first row: requests in row order with well-formed symbols; completing means one per row; an escaping exception is unhandled |
| BulkLoop.BulkOverRun | coco_quant/eod/eod_prices.py:61-73 | a failed listing raises before any job runs; otherwise the job requests follow the rows and only unhandled exceptions escape |
| BulkLoop.BulkRunListing | coco_quant/eod/eod_prices.py:62 | `bulk_request` first requests the listing; a failed listing raises its error and nothing else is requested |
| BulkLoop.BulkRunRows | coco_quant/eod/eod_prices.py:62-73 | after the listing, request `j` is the job URL of `code + "." + ex` of row `j`; completing means one job per row; only unhandled exceptions escape |
| BulkLoop.HandledContinues | coco_quant/eod/eod_prices.py:66-73 | a job raising HTTPError, socket.error, IncompleteRead or JSONDecodeError is logged and the loop goes on with the next row |
| BulkLoop.RowSymbolsUnhandled | coco_quant/eod/eod_prices.py:63 | the KeyError of a missing `code`/`ex` column is not one of the caught kinds |
| BulkLoop.MissingColumns | coco_quant/eod/eod_prices.py:63 | a non-empty listing without `code` or `ex` raises KeyError for the first missing one, before any job |
| Bulk.JobStep | coco_quant/eod/eod_prices.py:65 | each of the three jobs requests exactly its own URL once per call |
| Bulk.RunJob | coco_quant/eod/eod_prices.py:65 | `fn(symbol)` for the bound method handed over |
| Bulk.JobRunnerOutcome | coco_quant/eod/eod_prices.py:65 | whether a job finishes, and which error it raises, depends on the symbol only; `eod_prices` and `sentiments` log nothing themselves |
| Bulk.JobAnyWorld | coco_quant/eod/eod_prices.py:65 | each job ends as it would from the empty state; the price and sentiment jobs leave the log unchanged |
| Bulk.JobRunnerRequests | coco_quant/eod/eod_prices.py:65 | the jobs meet the one-request-per-call hypothesis of the loop lemmas |
| Bulk.BulkRow | coco_quant/eod/eod_prices.py:64-73 | one loop pass: the job's step, then a log line on a caught exception or a stop on any other |
| Bulk.BulkRequest | coco_quant/eod/eod_prices.py:61-73 | the method's new world and outcome are `BulkStep`'s |
| Bulk.EodPricesExchange | coco_quant/eod/eod_prices.py:99-100 | `eod_prices_exchange` is the bulk loop over `eod_prices` |
| Bulk.FundamentalsExchange | coco_quant/eod/fundamentals.py:37-38 | `fundamentals_exchange` is the bulk loop over `fundamentals` |
| Bulk.SentimentsCountry | coco_quant/eod/sentiments.py:32-33 | `sentiments_country` is the bulk loop over `sentiments` |
| Fundamentals.FundSource | coco_quant/eod/fundamentals.py:12-13 | output under `base/fundamentals/<type>`; `fundamentals`, `fundamentals_exchange`, `process_data` and the base names are never dispatched |
| Fundamentals.Converted | coco_quant/eod/fundamentals.py:61-67 | converting keeps the rows and retags each column by its label |
| Fundamentals.FirstClash | coco_quant/eod/fundamentals.py:62-66 | the first column from a position on that the conversion would refuse, or the end |
| Fundamentals.ConvertStep | coco_quant/eod/fundamentals.py:61-67 | `conv_fn` succeeds exactly when no converted label is repeated, and then gives the converted frame; otherwise ValueError or TypeError |
| Fundamentals.Convert | coco_quant/eod/fundamentals.py:61-67 | the in-place loop over `data.columns` finishes or raises as `ConvertStep` says; on success the frame is the converted one; on a raise the columns before the failing one are converted |
| Fundamentals.ConvertRaisesAt | coco_quant/eod/fundamentals.py:64-66 | a conversion that raises in the loop is at the first clash, with `ConvertStep`'s error |
| Fundamentals.ConvertPassesAt | coco_quant/eod/fundamentals.py:62-66 | a conversion that succeeds, or a kept column, is not a clash |
| Fundamentals.ConvertedAt | coco_quant/eod/fundamentals.py:62-66 | after one pass the converted prefix grows by that column's label |
| Fundamentals.ConvertDone | coco_quant/eod/fundamentals.py:62-67 | a loop that ends without a clash leaves the converted frame and `ConvertStep` succeeds |
| Fundamentals.ConvertedNext | coco_quant/eod/fundamentals.py:62-66 | converting one more label extends the converted prefix by it |
| Fundamentals.EarningsConversion | coco_quant/eod/fundamentals.py:61-67 | `date`/`reportdate` become dates, `period`/`currency`/`beforeaftermarket` keep their kind, all others become numeric; labels and cells unchanged |
| Fundamentals.FinancialsConversion | coco_quant/eod/fundamentals.py:73-79 | `date`/`filing_date` become dates, `currency_symbol` keeps its kind, all others become numeric; labels and cells unchanged |
| Fundamentals.ProcessStep | coco_quant/eod/fundamentals.py:15-25 | `process_data` requests nothing and changes nothing when it raises, whether in `parse_json` or in the conversion |
| Fundamentals.ProcessData | coco_quant/eod/fundamentals.py:15-25 | the method's new world and outcome are `ProcessStep`'s |
| Fundamentals.ProcessDataEffect | coco_quant/eod/fundamentals.py:16-25 | a parsed section that converts is written to exactly the derived path, rows and labels intact; a conversion that raises leaves the world as it was; an absent section is logged as a warning without a conversion function and raises AttributeError with one |
| Fundamentals.CallStep | coco_quant/eod/fundamentals.py:84 | a `process_data` call, on `data["Financials"]` for the nested ones, requests nothing |
| Fundamentals.CallOne | coco_quant/eod/fundamentals.py:84 | the method's new world and outcome are `CallStep`'s |
| Fundamentals.RunCallsRequests | coco_quant/eod/fundamentals.py:69-70 | a run of `process_data` calls requests nothing |
| Fundamentals.ProcessEach | coco_quant/eod/fundamentals.py:69-70 | the sub-key loop (also that of `outstanding_shares`, lines 87-88) is the run of its calls, stopping at the first exception |
| Fundamentals.Earnings | coco_quant/eod/fundamentals.py:60-70 | `earnings` is the run of its three calls |
| Fundamentals.EarningsTargets | coco_quant/eod/fundamentals.py:69-70 | those write `earnings_history`, `earnings_trend`, `earnings_annual` in that order, each converted |
| Fundamentals.OutstandingShares | coco_quant/eod/fundamentals.py:86-88 | `outstanding_shares` is the run of its two calls |
| Fundamentals.OutstandingTargets | coco_quant/eod/fundamentals.py:87-88 | those write `outstandingshares_annual` then `outstandingshares_quarterly`, unconverted |
| Fundamentals.FinancialsCallAt | coco_quant/eod/fundamentals.py:81-82 | pass `(i, j)` of the nested loop is call `2i + j` |
| Fundamentals.FinancialsOne | coco_quant/eod/fundamentals.py:83-84 | one pass: index `data["Financials"]`, then process it with the pass's path and conversion |
| Fundamentals.Financials | coco_quant/eod/fundamentals.py:72-84 | the nested loop is the run of the six calls, stopping at the first exception |
| Fundamentals.FinancialsTargets | coco_quant/eod/fundamentals.py:81-84 | six nested, converted calls: Balance_Sheet, Cash_Flow, Income_Statement, each quarterly then yearly |
| Fundamentals.FinancialsPaths | coco_quant/eod/fundamentals.py:83 | their paths are `financials_<key>_<sub>`, lower-cased |
| Fundamentals.FinancialsMissing | coco_quant/eod/fundamentals.py:84 | without `Financials` the first call raises KeyError and nothing changes |
| Fundamentals.Method | coco_quant/eod/fundamentals.py:27-140 | `getattr(self, name)`: the single-call extractors (`general`, `highlights`, `etf_data_world_regions`, ...) process `data` itself without a conversion function |
| Fundamentals.HandlerStep | coco_quant/eod/fundamentals.py:34-35 | a dispatched method requests nothing |
| Fundamentals.NameStep | coco_quant/eod/fundamentals.py:34-35 | `getattr`; a name without a method raises AttributeError |
| Fundamentals.Dispatch | coco_quant/eod/fundamentals.py:34-35 | the method's new world and outcome are `NameStep`'s |
| Fundamentals.Handle | coco_quant/eod/fundamentals.py:35 | each handler runs its extractor |
| Fundamentals.AbsentCall | coco_quant/eod/fundamentals.py:22-25 | an unconverted call on a section the document lacks logs the `no <path> data` warning and finishes |
| Fundamentals.AbsentSectionContinues | coco_quant/eod/fundamentals.py:33-35 | a dispatched plain extractor whose section is absent logs its warning and the loop goes on with the next name |
| Fundamentals.CallAnyWorld | coco_quant/eod/fundamentals.py:84 | how a `process_data` call ends does not depend on the state before it |
| Fundamentals.RunCallsAnyWorld | coco_quant/eod/fundamentals.py:69-70 | nor does a run of such calls |
| Fundamentals.HandlerAnyWorld | coco_quant/eod/fundamentals.py:35 | nor does a dispatched method |
| Fundamentals.NameAnyWorld | coco_quant/eod/fundamentals.py:34-35 | nor does one `getattr` call |
| Fundamentals.DispatchAllAnyWorld | coco_quant/eod/fundamentals.py:33-35 | nor does the dispatch loop |
| Fundamentals.FundamentalsAnyWorld | coco_quant/eod/fundamentals.py:30-35 | how `fundamentals` ends depends on the API's answer only |
| Fundamentals.DispatchAllRequests | coco_quant/eod/fundamentals.py:33-35 | the dispatch loop requests nothing |
| Fundamentals.DispatchEach | coco_quant/eod/fundamentals.py:33-35 | the loop passes the one decoded document to each name in order, stopping at the first exception |
| Fundamentals.FundamentalsOf | coco_quant/eod/fundamentals.py:30-35 | the method's new world and outcome are `FundamentalsStep`'s |
| Fundamentals.FundamentalsOneRequest | coco_quant/eod/fundamentals.py:31 | `fundamentals` issues exactly one request, `fundamentals/<symbol>` |
| Fundamentals.ExtractorsDispatched | coco_quant/eod/fundamentals.py:45-148 | every extractor a subclass defines is dispatchable and has a method |
| Fundamentals.FundamentalsDispatchesExtractors | coco_quant/eod/fundamentals.py:33 | over such a `dir()`, `get_methods` returns exactly the subclass's extractors, each with a method |
| Fundamentals.StockExtractors | coco_quant/eod/fundamentals.py:45-88 | the stock extractors are dispatched |
| Fundamentals.EtfExtractors | coco_quant/eod/fundamentals.py:95-114 | the ETF extractors are dispatched |
| Fundamentals.MutualFundExtractors | coco_quant/eod/fundamentals.py:121-140 | the mutual fund extractors are dispatched |
| Fundamentals.IndexExtractors | coco_quant/eod/fundamentals.py:147-148 | the index extractor is dispatched |
| MacroIndicators.MacroSource | coco_quant/eod/macro_indicators.py:12-13 | output under `base/macro_indicators`; the loop method itself is never dispatched |
| MacroIndicators.Indicator | coco_quant/eod/macro_indicators.py:23-138 | an indicator method writes exactly its output file |
| MacroIndicators.IndicatorStep | coco_quant/eod/macro_indicators.py:16-21 | one pass requests `macro-indicator/<exchange>` with `indicator=<name>`; it completes exactly for a real method with a good response, then writing only that method's file; otherwise nothing is written |
| MacroIndicators.MacroIndicatorsExchange | coco_quant/eod/macro_indicators.py:15-21 | the method's new world and outcome are `MacroRun`'s |
| MacroIndicators.IndicatorRunnerFacts | coco_quant/eod/macro_indicators.py:16-21 | a pass requests one URL, completes only for a real method and writes one file |
| MacroIndicators.OutNameCollisions | coco_quant/eod/macro_indicators.py:44-93 | two different indicators share a file exactly for `debt_percent_gdp`/`gdp_growth_annual` and `income_share_lowest_twenty`/`gni_per_capita_ppp_usd` |
| MacroIndicators.GdplNotIndicator | coco_quant/eod/macro_indicators.py:134-135 | the typo file `merchandise_trade_percent_gdpl` belongs to no indicator |
| MacroIndicators.OutNameInjectiveOff | coco_quant/eod/macro_indicators.py:23-138 | without the two shadowed methods, the mapping is one-to-one |
| MacroIndicators.OutputFilesSize | coco_quant/eod/macro_indicators.py:23-138 | names with pairwise different files write as many files as names |
| MacroIndicators.DistinctOutputs | coco_quant/eod/macro_indicators.py:44-93 | a set of indicators holding both shadowed pairs writes two files fewer than it has names |
| MacroIndicators.RunCompleted | coco_quant/eod/macro_indicators.py:16-21 | a completed loop completed every pass |
| MacroIndicators.RunWrites | coco_quant/eod/macro_indicators.py:16-21 | a completed loop leaves the files it found plus one per name |
| MacroIndicators.Untouched | coco_quant/eod/macro_indicators.py:16-21 | a completed loop leaves alone every file no name writes |
| MacroIndicators.LastWriter | coco_quant/eod/macro_indicators.py:16-21 | a file holds the data of the last name in the loop that writes it |
| MacroIndicators.MacroWrites | coco_quant/eod/macro_indicators.py:15-21 | a completed run called a real method with a good response for each name; the files are those it found plus the output files of its names |
| MacroIndicators.LessAsymmetric | coco_quant/eod/macro_indicators.py:16 | Python's string order is asymmetric |
| MacroIndicators.LastOfItsFile | coco_quant/eod/macro_indicators.py:16-21 | in a completed run over a sorted `dir()`, a method sorting after every other method with its file leaves its own response there |
| MacroIndicators.FileSharers | coco_quant/eod/macro_indicators.py:44-93 | only `debt_percent_gdp` shares `gdp_growth_annual`'s file and only `gni_per_capita_ppp_usd` shares `income_share_lowest_twenty`'s; each sorts first |
| MacroIndicators.ShadowedFiles | coco_quant/eod/macro_indicators.py:44-93 | after a completed run, the `gdp_growth_annual` file holds the `gdp_growth_annual` response and the `gni_per_capita_ppp_usd` file holds the `income_share_lowest_twenty` response |
| MacroIndicators.RunRequestCount | coco_quant/eod/macro_indicators.py:16-17 | the loop keeps earlier requests and adds at most one per name; completing means one per name |
| MacroIndicators.RunRequestAt | coco_quant/eod/macro_indicators.py:16-17 | the `j`-th request added is name `j`'s URL |
| MacroIndicators.MacroRequests | coco_quant/eod/macro_indicators.py:15-17 | the run requests the listed methods' URLs in order, one each when it completes |
| MacroIndicators.IndicatorUrlInjective | coco_quant/eod/macro_indicators.py:17 | different indicator names give different URLs |
| MacroIndicators.RunRequestsDistinct | coco_quant/eod/macro_indicators.py:16-17 | distinct names with distinct URLs never repeat a request |
| MacroIndicators.RequestedOnce | coco_quant/eod/macro_indicators.py:16-17 | over a sorted `dir()` no indicator is requested twice, so the twice-defined `gross_capital_formation_percent_gdp` once |
| Sentiments.SentimentSource | coco_quant/eod/sentiments.py:12-13 | output under `base/sentiments`; the exclusion `parse_sentiment` leaves `parse_sentiments` dispatchable |
| Sentiments.SentimentCells | coco_quant/eod/sentiments.py:18-19 | the `sentiment` cell of each row, in row order |
| Sentiments.ParseSentiments | coco_quant/eod/sentiments.py:15-23 | the loop, drop and coercion leave the caller's frame as `FrameAfter` and return what `ParseSentimentsSpec` says |
| Sentiments.ParseSentimentsShape | coco_quant/eod/sentiments.py:18-23 | success exactly with a `sentiment` column, exactly one `date` column and object sentiments; same row count; the caller's columns without `sentiment`, `date` as dates, come first |
| Sentiments.DropNames | coco_quant/eod/sentiments.py:21-22 | `date` survives dropping `sentiment` |
| Sentiments.ParseSentimentsRow | coco_quant/eod/sentiments.py:18-23 | row `i` reads as input row `i` in its first part and as row `i`'s sentiment object after it; the added labels are the sentiment keys |
| Sentiments.ParseSentimentsEmpty | coco_quant/eod/sentiments.py:18-21 | an empty article list has no `sentiment` column and raises AttributeError |
| Sentiments.SentimentsStep | coco_quant/eod/sentiments.py:25-30 | `sentiments` requests `news` with `s=<symbol>` once, records no warning or error, writes nothing when it raises |
| Sentiments.SentimentsAnyWorld | coco_quant/eod/sentiments.py:25-30 | how `sentiments` ends depends on the API's answer only |
| Sentiments.Sentiments | coco_quant/eod/sentiments.py:25-30 | the method's new world and outcome are `SentimentsStep`'s |
| Sentiments.EmptyParentPath | coco_quant/eod/sentiments.py:30 | with the empty parent the path has a double slash |
| Sentiments.SentimentsEffect | coco_quant/eod/sentiments.py:25-30 | success writes only the symbol's file, with one row per article |

## Left out

- HTTP transport is the `Api` oracle: `urlopen`, decoding and network failures are whatever it returns for a URL.
- `pd.read_csv` tokenising is a given table or error per response. A ragged result is a ParserError.
- `json.loads` is a given value or error per response.
- Parquet serialisation, `os.makedirs` and the filesystem are a map from path to the last table written.
- The values `pd.to_datetime` and `pd.to_numeric` produce are not modelled; only the dtype tag a column gets is. The conversions raise for a missing label (KeyError) and a repeated one (ValueError or TypeError), but failures on unparsable values are not modelled.
- Numbers are integers only; floating point is left out.
- Text.Lower: lower-casing is ASCII-only; Unicode case rules are not modelled.
- Warnings and errors are recorded as entries (symbol, path or error), not as text.
- The `logger.info` calls in `request` (`eod_prices.py` line 55) and in `EodPricesData.__init__` (line 91) are not recorded; the log holds only warnings and errors.
- JsonValues.Lookup: returns the first binding of a key. `json.loads` keeps the last value of a repeated key. The model's objects do not rule out repeated keys, so a document with one reads differently.
- Parsing.ChildrenTable: a level that mixes records with non-records raises AttributeError in the model. In pandas, `from_dict` labels a non-record child's column `0`. When some record adds a string label too, `.str.lower()` accepts the mixed labels and maps the `0` to NaN. Labels here are strings only, so that frame is not modelled.
- `dir()` is a parameter, assumed sorted where a lemma needs it. Python's attribute listing itself is not modelled.
- `bulk_request`'s `socket.error` clause catches every `OSError` (`HTTPError` included). The model has one transport error kind for it.
- `row['code']` on a frame with repeated labels gives a Series in pandas; the model reads the first such column.
- A cell that is a list or dict formats differently in Python's f-string; `BulkLoop.CellText` renders only strings, integers, booleans and null faithfully.
- Tables.FromRecords: `pd.DataFrame.from_dict` of a non-list, or of records that are not objects, is a ValueError in the model. pandas accepts some such shapes.
- Sentiments.ParseSentiments: a `sentiment` cell that is not an object is a ValueError before anything is dropped; pandas may accept some non-dict cells.
- MacroIndicators.IndicatorStep: builds a frame only from a list of objects; other `pd.DataFrame(data)` shapes are a ValueError.
- MacroIndicators: the lemmas take the set of defined methods as a parameter `methods`.
  - `MacroIndicatorsExchange` fixes it to `Indicators`.
  - The duplicate definition at lines 71-75 leaves one method, so `Indicators` is a set.
- BulkLoop: the loop lemmas are stated over any per-symbol runner meeting `OneRequestEach`. This holds because `fn` is any callable in `bulk_request`. `Bulk.JobRunnerRequests` shows the three jobs meet it.
- `coco_quant/eod/eod.py` is not part of this model. It is a facade, and its `sentiments_exchange` call names a method `SentimentsData` does not define (it defines `sentiments_country`).
- `financial_news.py`, `economic_events.py` and `setup.py` are not part of this model. They are fetch-and-write plumbing and packaging.
- The `parse_sentiment` exclusion does not name the static method `parse_sentiments`. So `get_methods` would dispatch `parse_sentiments` if something called it. `Sentiments.SentimentSource` records this; nothing in the core calls `get_methods` on a `SentimentsData`.
