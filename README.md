# Stock Market Analyzer: a Dafny model

This project models the analysis pipeline of the Stock Market Analyzer
Streamlit page (`streamlit_app.py`) and proves properties of it. A run of the
page does the following:

- It turns the comma-separated text box into a list of symbols: split on
  commas, then strip and upper-case each token.
- It refuses an empty date range.
- It downloads the price table (an input here).
- It warns if the download is empty.
- Otherwise it fills the `stock_data` dictionary symbol by symbol:
  - extract the symbol's columns;
  - fall back from "Adj Close" to "Close";
  - look up the share count (an input here) and fall back to 1,000,000,000
    when the lookup fails;
  - add "Market Cap" and its day-over-day change "Market Cap Change".
- It sums each symbol's change into one record per dictionary entry.
- It cuts the records into two top-five leaderboards: gainers by descending
  total, losers by ascending total.

Modules:

- `Wrappers`: the `Option` type.
- `Tickers`: Python's `str.split`, `str.strip`, `str.upper` and the
  comprehension of line 21, with their inverse (`Join`) and uniqueness proofs.
- `Frames`: the fetched table (flat for one symbol, grouped by
  (field, symbol) for several), the per-symbol transforms, `Series.diff` and
  `Series.sum`, and the fact that the summed change telescopes to shares
  times (last price minus first price).
- `Movers`: `sort_values` followed by `head(5)`, specified by `IsTop`. A
  board is as long as the input allows, sorted, drawn from the records
  (as a multiset), and no left-out record ranks above a kept one.
- `Pipeline`: the two loops as methods proved against specification
  functions, the dictionary as an insertion-ordered map, and the guards of
  the top level. What the page would display is modelled as a list of
  `Notice` values and an optional `Report`.

Inputs that are I/O in the source are parameters:

- the text box: `raw`;
- the two dates: day numbers `start` and `end`;
- the download: `Option<Frame>`, where `None` means it raised;
- the share lookups: `lookup(i)`, the answer to the lookup made in the
  i-th iteration of the loop. It is `Raised` when the info request or the
  "sharesOutstanding" key fails, `Count(n)` for a count, or `NotANumber`
  for a value such as `None`.

## Model

| member | source | states |
|---|---|---|
| Tickers.Split | streamlit_app.py:21 | `str.split(",")` yields one more piece than there are commas, and no piece contains a comma |
| Tickers.JoinSplit | streamlit_app.py:21 | joining the pieces of a split with the separator gives back the original text |
| Tickers.SplitJoin | streamlit_app.py:21 | splitting comma-joined comma-free pieces gives back exactly those pieces |
| Tickers.SkipSpace | streamlit_app.py:21 | from position k, the characters skipped are all whitespace and the one it stops at is not |
| Tickers.SkipSpaceBack | streamlit_app.py:21 | backwards from position k, the characters skipped are all whitespace and the one before where it stops is not |
| Tickers.SkipSpaceUnique | streamlit_app.py:21 | any position preceded (from k) only by whitespace and holding a non-whitespace character, or at the end, is where SkipSpace stops |
| Tickers.SkipSpaceBackUnique | streamlit_app.py:21 | any position followed (up to k) only by whitespace and preceded by a non-whitespace character, or at 0, is where SkipSpaceBack stops |
| Tickers.StripStart | streamlit_app.py:21 | the leading characters it skips are all whitespace, and the next one is not |
| Tickers.StripEnd | streamlit_app.py:21 | the trailing characters it skips are all whitespace, and the one before is not |
| Tickers.Strip | streamlit_app.py:21 | `str.strip()` cuts the token into a whitespace head, a trimmed middle and a whitespace tail, and returns the middle (empty for an all-whitespace token) |
| Tickers.StripUnique | streamlit_app.py:21 | for any whitespace + trimmed + whitespace decomposition, strip returns the trimmed part, so strip is fully determined by its contract |
| Tickers.ToUpper | streamlit_app.py:21 | a lower-case ASCII letter maps to its capital, every other character is kept, and whitespace-ness is preserved |
| Tickers.Upper | streamlit_app.py:21 | `str.upper()` keeps the length, maps each character with ToUpper and leaves no lower-case letter |
| Tickers.UpperOfUpper | streamlit_app.py:21 | upper-casing a string with no lower-case letter changes nothing |
| Tickers.Normalise | streamlit_app.py:21 | the symbol list has one entry per comma-separated token, in order, each the stripped and upper-cased token |
| Tickers.TokenToSymbol | streamlit_app.py:21 | a comma-free token normalises to a trimmed, comma-free symbol without lower-case letters |
| Tickers.NormaliseShape | streamlit_app.py:21 | the symbol list is never empty (commas + 1 entries), and every entry is a well-formed symbol |
| Tickers.NormaliseJoin | streamlit_app.py:21 | normalising a comma-joined list of well-formed symbols gives that list back |
| Tickers.NormaliseIdempotent | streamlit_app.py:21 | normalising the comma-joined output of a normalisation gives the same list |
| Frames.Group | streamlit_app.py:53-54 | selecting the symbol's column group and dropping the symbol level keeps exactly the fields present for that symbol, with their columns |
| Frames.Extract | streamlit_app.py:52-56 | with several symbols, the (field, symbol) group of a grouped download, and None (the selection raises) for a flat download or one with no column for the symbol; with one symbol, the flat download itself, and None for a grouped one |
| Frames.ResolvePrice | streamlit_app.py:60-64 | succeeds exactly when "Adj Close" or "Close" is present; afterwards "Adj Close" is present, equals "Close" if it was missing, and every other column is unchanged |
| Frames.ResolveShares | streamlit_app.py:68-79 | the looked-up count when the lookup gives a number, 1,000,000,000 when it raises, and no count (the multiplication of line 79 raises) exactly when the value is not a number |
| Frames.Capitalisation | streamlit_app.py:78-80 | one market cap per day, equal to that day's price times the share count |
| Frames.Diff | streamlit_app.py:83 | undefined on the first day, today minus yesterday on every later day |
| Frames.TelescopePrefix | streamlit_app.py:83-100 | the defined changes up to day k sum to the value on day k minus the value on day 0 |
| Frames.Telescope | streamlit_app.py:83-100 | `diff().sum()` of a series is its move: last value minus first, 0 for an empty series |
| Frames.Enrich | streamlit_app.py:77-83 | the columns are the input's plus "Market Cap"; every other column is unchanged; "Market Cap" is the capitalisation of "Adj Close"; the change column is its diff |
| Frames.TotalIsCapMove | streamlit_app.py:78-100 | an enriched table's total change is the move of its market cap over the window (0 with no rows) |
| Frames.ScaledMove | streamlit_app.py:78-80 | the move of the market cap is shares times the move of the price, so the total is shares times (last adjusted close minus first) |
| Movers.Insert | streamlit_app.py:110-115 | inserting adds exactly one record to the multiset |
| Movers.Sort | streamlit_app.py:110-115 | `sort_values` returns a permutation of the records, ordered by total in the requested direction |
| Movers.TopIsTop | streamlit_app.py:110-115 | sorting and keeping the first k gives a valid top-k board |
| Movers.PrefixIsTop | streamlit_app.py:110-115 | the first n records of a sorted sequence are a valid board of size n over it |
| Movers.GainersSpec | streamlit_app.py:110-112 | the gainers board has min(5, n) records, non-increasing, all taken from the records, with no left-out record having a larger total than a kept one |
| Movers.LosersSpec | streamlit_app.py:113-115 | the losers board has min(5, n) records, non-decreasing, all taken from the records, with no left-out record having a smaller total than a kept one |
| Movers.SmallBoardsHoldEverything | streamlit_app.py:110-115 | with five records or fewer, both boards hold every record |
| Pipeline.Store | streamlit_app.py:86 | dict assignment: sets the value for the key, keeps the key's place if it is present, otherwise appends it to the order |
| Pipeline.StoreKeys | streamlit_app.py:50-86 | storing the next symbol keeps the dictionary well formed and keyed by the distinct symbols seen so far, in first-appearance order |
| Pipeline.Distinct | streamlit_app.py:50-86 | the dictionary's keys: no duplicates, and the same set of symbols as the input |
| Pipeline.FirstIndex | streamlit_app.py:50-86 | the position of a symbol's first occurrence: it holds the symbol and no earlier position does; the length when the symbol is absent |
| Pipeline.DistinctOrder | streamlit_app.py:50-86 | the keys come in order of first appearance: an earlier key first occurs earlier in the input |
| Pipeline.ProcessSymbolNotices | streamlit_app.py:52-86 | an iteration gets through exactly when extraction succeeds, "Adj Close" or "Close" exists and the share value is a number; its notices are exactly the price warning (if "Adj Close" is missing) followed by the shares warning (if it got through and the lookup raised) |
| Pipeline.ProcessSymbolTotal | streamlit_app.py:58-100 | a successful iteration's "Adj Close" is the effective price ("Adj Close", else "Close"), its "Market Cap" is that price times the resolved share count, and its total is the move of the market cap |
| Pipeline.Attempts | streamlit_app.py:50-86 | the outcome of each iteration: symbol j with the j-th share lookup |
| Pipeline.BuildSucceeds | streamlit_app.py:50-86 | after i iterations the loop is still running exactly when each of them got through |
| Pipeline.BuildStaysFailed | streamlit_app.py:50-123 | once an iteration raises, the later iterations change nothing |
| Pipeline.BuildNotices | streamlit_app.py:61-74 | every notice the loop has shown comes from one of its iterations |
| Pipeline.BuildNoticesInOrder | streamlit_app.py:50-86 | the loop shows every reached iteration's notices in iteration order: all of them when every iteration got through, otherwise those up to and including the first iteration that raised |
| Pipeline.BuildKeys | streamlit_app.py:50-86 | while the loop runs, the dictionary holds each distinct symbol seen so far once, in first-appearance order |
| Pipeline.BuildLastWins | streamlit_app.py:50-86 | a repeated symbol's dictionary entry is the table of its last iteration |
| Pipeline.LastWinsStep | streamlit_app.py:86 | storing one more iteration's table keeps every symbol mapped to its last iteration's table |
| Pipeline.BuildSpec | streamlit_app.py:49-86 | at the end of the loop (LoopOutcome): it got through exactly when every iteration did, it showed only the two fallback warnings, and the dictionary holds each distinct symbol once in first-appearance order with its last iteration's table |
| Pipeline.FillStockData | streamlit_app.py:49-86 | the loop, run with any per-iteration outcome, ends in the state of the specification `Build`, stopping at the first iteration that raises |
| Pipeline.BuildStockData | streamlit_app.py:49-86 | the dictionary-filling loop ends in the state of `Build`, and that state has every property of LoopOutcome, as BuildSpec states it |
| Pipeline.MoversOf | streamlit_app.py:98-106 | one record per dictionary entry, in dictionary order, holding the symbol and its summed change |
| Pipeline.MoversOfCount | streamlit_app.py:98-107 | there are exactly as many records as dictionary keys |
| Pipeline.CollectMovers | streamlit_app.py:98-106 | the records-collecting loop produces MoversOf of the dictionary |
| Pipeline.Analyze | streamlit_app.py:21-125 | the top level computes `Pipeline`, in this order: date guard, symbol guard, download (error if it raises), empty-data warning, then the loops and boards |
| Pipeline.EvaluateSpec | streamlit_app.py:49-123 | within the try block: only fallback warnings plus possibly the generic error; a report exactly when every iteration gets through, otherwise the generic error; the dictionary is keyed by the distinct symbols; both boards are valid top-five boards over one record per distinct symbol |
| Pipeline.EvaluateNotices | streamlit_app.py:49-123 | the try block shows every iteration's notices in order when all got through, otherwise those up to the first iteration that raised, followed by the generic error |
| Pipeline.DateGuard | streamlit_app.py:31-32 | the date error is shown exactly when start >= end, it is then the only thing shown, and any report implies start < end |
| Pipeline.NoSymbolsUnreachable | streamlit_app.py:21-125 | the "Please enter stock symbols." warning can never be shown |
| Pipeline.EmptyDownload | streamlit_app.py:41-42 | an empty download with valid dates yields the no-data warning and nothing else |
| Pipeline.ReportSpec | streamlit_app.py:31-123 | a report is produced exactly when the dates are in order, the download returned a non-empty table, and every iteration got through |
| Pipeline.ScenarioSymbols | streamlit_app.py:21 | the text "AAPL" normalises to the single symbol "AAPL" |
| Pipeline.ScenarioIteration | streamlit_app.py:52-100 | closes 100, 102, 101 with no "Adj Close" and no share count give both fallback warnings, market caps 1e11, 1.02e11, 1.01e11, changes undefined, +2e9, -1e9, and a total of 1e9 |
| Pipeline.MissingSymbolScenario | streamlit_app.py:50-123 | two symbols and a grouped download with no column for the second: the run shows the generic error alone, with no price warning |
| Pipeline.MissingSymbol | streamlit_app.py:53 | selecting a symbol with no column in the grouped download raises before the iteration shows anything |
| Pipeline.SingleSymbolScenario | streamlit_app.py:21-115 | a whole run on that one-symbol input yields those two warnings, the one-entry dictionary, and that symbol as the only gainer and the only loser |

## Left out

- The Streamlit calls (title, text, headers, `st.dataframe`) are not modelled. Warnings and errors are modelled as `Notice` values in order of emission.
- The display loop of lines 89-92 only renders the dictionary, so it is not modelled.
- `yf.download` and `yf.Ticker(...).info` are network calls. They are inputs: a fetched `Option<Frame>` and a lookup answer per iteration. Consequently, two iterations on the same symbol may get different answers.
- The default dates (today and 365 days earlier) use the clock. Dates are plain day numbers compared with `>=`.
- Prices are mathematical reals: IEEE rounding is not modelled. NaN inside a fetched price column is not modelled either. Only the NaN that `diff` produces on the first row is modelled (as `None`, which `sum` skips).
- Share counts are integers. A `sharesOutstanding` value that is not a number (such as `None`) passes the lookup without the shares warning; the model has the multiplication of line 79 raise for it, so the run ends with the generic error. A float count is not modelled.
- Tickers.Upper: upper-cases ASCII letters only. Python's full Unicode mapping (e.g. 'ß' becoming "SS", which changes the length) is not modelled.
- Movers.Sort: is a stable insertion sort. `sort_values` leaves the order of equal totals unspecified, so Movers.GainersSpec and Movers.LosersSpec state only what holds for any tie-break (`IsTop`).
- The `.copy()` calls and the pandas DataFrame objects are modelled as values (column maps), so aliasing is not represented.
- Every exception inside the outer `try` ends the run with the one generic `Failure` notice and no report; the message text is not modelled. These exceptions are:
  - the download raising;
  - for several symbols, the column selection of line 53 raising `KeyError`, when the download is flat or has no column for the symbol;
  - a symbol missing both "Adj Close" and "Close";
  - a share value that is not a number, at the multiplication of line 79.
- A grouped (multi-level) download for a single symbol is outside what the download returns in this model. Line 56 would copy it without raising; the model maps it to the generic error instead of following pandas through lines 60-86 on grouped columns.
- Exceptions raised before the `try`, in Streamlit's own widgets, are not modelled.

Where the code and its description differ, the model follows the code:

- An empty or all-comma text box does not give an empty symbol list. `split(",")` always returns at least one piece, so the list holds empty strings and the "Please enter stock symbols." branch is dead (Pipeline.NoSymbolsUnreachable).
- Empty symbols are not filtered out. They go to the download like any other symbol.
- A symbol entered twice is not counted twice. The dictionary assignment overwrites, so the symbol appears once, in the place of its first occurrence, with the table of its last iteration (Pipeline.BuildLastWins, Pipeline.BuildSpec).
- A symbol whose columns lack both "Adj Close" and "Close" is not skipped. It first gets the fallback warning, then reading "Close" raises, and the outer handler ends the run with the generic error (Pipeline.ProcessSymbolNotices, Pipeline.EvaluateSpec).
