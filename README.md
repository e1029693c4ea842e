# CafeF price-history crawler: a Dafny model of the data pipeline

The repository is a Streamlit dashboard for Vietnamese stock prices. It pages
through CafeF's price-history endpoint for a ticker symbol, normalises the
rows (day parsed from `%d/%m/%Y` and stamped at 17:00, five numeric columns
coerced, rows without a day dropped, sorted by day), caches them in one CSV
file per symbol under `data_cache/`, re-fetches every cached symbol once a
day, and shows a date-range slice of the rows as a table and a chart.

This project models that pipeline once the network, the file system and
the UI are abstracted:

- `wrappers.dfy` (`Wrappers`): `Option` and `Attempt` (`Failed` stands for an exception escaping a call).
- `text.dfy` (`Text`): `str.upper()` over ASCII.
- `dates.dfy` (`Dates`): calendar days and timestamps, their order, the `%d/%m/%Y` parse done by `pd.to_datetime(..., errors="coerce")` and the `strftime("%d/%m/%Y")` of the table.
- `rows.dfy` (`Rows`): raw rows and Price Records, coercion, `dropna`, `sort_values`.
- `fetcher.dfy` (`Fetcher`): `get_stock_data`. The endpoint is an oracle `Remote` from (upper-cased symbol, page index) to a `Page`: `Raised`, `Unparseable`, `NoData` or `Items`. The `while page <= max_pages` loop is a method proved against the function `Paginate`.
- `cache.dfy` (`Cache`): `cache_path`, and the cache directory as a class `Store` holding a map from path to file content. `save_to_cache` is the method `Save`. `load_from_cache` is the function `LoadFrom`.
- `sweep.dfy` (`Sweep`): `update_all_cached_symbols`. The directory listing is an input sequence of names. The `for sym in symbols` loop is a method proved against the function `SweepFiles`.
- `dashboard.dfy` (`Dashboard`): the button handler at the end of `main`. It loads or fetches, filters by date range and takes `tail(120)`.

Inputs that the code gets from the outside world are parameters:
- the endpoint is `remote`, one fixed function for the whole run;
- `pd.to_numeric` on one value is `toNumeric`;
- the directory listing is `listing`;
- the paths where writing a CSV file raises are the set `Store.unwritable`;
- `datetime.today()` is `today`.

## Behaviour worth knowing

- A short page does not stop the loop. The loop stops only on an unparseable response, a response without `Data`, or an empty item list. So a short non-empty page 1 is followed by a request for page 2 (`Fetcher.ShortPageDoesNotStop`).
- Nothing checks how many items a page holds. The request asks for `PageSize` 100, so a fetch returns at most `max_pages × 100` rows only when the endpoint honours that (`Fetcher.FetchBound`). One oversized page breaks the bound (`Fetcher.PageSizeNotEnforced`).
- The date filter excludes the end day. Its upper bound is midnight of the end day, and every stored row is stamped 17:00, so a row dated on the end day is never shown (`Dashboard.EndDayExcluded`, `Dashboard.FetchedRange`).
- `cache_path` is `data_cache/UPPER.csv` only for symbols that do not start with `/`. `os.path.join` drops the directory for an absolute name (`Cache.CachePathShape`).
- A failed HTTP request is not caught inside `get_stock_data`: only `response.json()` is inside the `try`. The exception escapes and the sweep swallows it per symbol. The button handler does not catch it, nor an exception from `save_to_cache` (`Dashboard.Screen.Crashed`).

## Model

| member | source | states |
|---|---|---|
| `Text.Upper` | crawler.py:28 | `str.upper()` keeps the length and upper-cases each ASCII letter in place |
| `Text.UpperIdempotent` | crawler.py:74 | upper-casing leaves no lower-case ASCII letter, so doing it twice changes nothing |
| `Dates.StampOrder` | crawler.py:69 | the order on timestamps used by the sort and the filter is a total order (reflexive, total, antisymmetric, transitive) |
| `Dates.Midnight` | crawler.py:221-222 | `pd.to_datetime` of a plain date is that day at hour 0 |
| `Dates.AtHour` | crawler.py:65 | `replace(hour=h)` keeps the day and sets the hour |
| `Dates.DaysInMonth` | crawler.py:64 | months have 28 to 31 days; February has 29 exactly in Gregorian leap years |
| `Dates.ParseDate` | crawler.py:64 | every day the `%d/%m/%Y` parse produces is a real calendar day inside pandas' Timestamp range; anything else is NaT |
| `Dates.ParseFields` | crawler.py:64 | text made of three slash-free fields parses exactly when the fields are a strptime `%d`, `%m` and `%Y` token and the day they name exists |
| `Dates.ParseNeedsSlashes` | crawler.py:64 | text without a '/' (ISO dates, for one), other than the words `now` and `today`, is NaT |
| `Dates.ParseUnpadded` | crawler.py:64 | a one-digit day and month, as in `7/3/2020`, are accepted and read as their digit values |
| `Dates.ParseLeapDay` | crawler.py:64 | `29/02/YYYY` parses to 29 February exactly when YYYY is a leap year, for every year inside the Timestamp range |
| `Dates.ParseRejectsOutOfRange` | crawler.py:64 | a year before 1677 or after 2262 is NaT, whatever the day and month |
| `Dates.FormatDate` | crawler.py:226 | the table's day text is ten characters, `DD/MM/YYYY` |
| `Dates.FormatThenParse` | crawler.py:64-65 | the table's `%d/%m/%Y` text and the fetch's `%d/%m/%Y` parse are inverse on every valid day |
| `Rows.Coerce` | crawler.py:66-67 | a missing cell is NaN; a present one is what `pd.to_numeric` makes of it |
| `Rows.ParseStamp` | crawler.py:64-65 | the day column is set exactly when the `Ngay` text parses; the stamp is that day at hour 17 |
| `Rows.Normalised` | crawler.py:66-69 | a raw row survives normalisation exactly when its day parses; the numeric coercion never drops it |
| `Rows.Keep` | crawler.py:69 | `dropna` keeps as many rows as the raw rows less those with a bad day; every kept row is stamped 17:00 on a valid day |
| `Rows.KeepMembers` | crawler.py:64-69 | a row is kept exactly when some raw row with a parseable day normalises to it (nothing is defaulted) |
| `Rows.KeepAppend` | crawler.py:69 | dropping works row by row, so it keeps the order of the surviving rows |
| `Rows.InsertPermutes` | crawler.py:69 | inserting a row adds exactly that row |
| `Rows.InsertSorted` | crawler.py:69 | inserting a row into sorted rows keeps them sorted |
| `Rows.SortByDate` | crawler.py:69 | the sort's result is non-decreasing by timestamp and a permutation of its input |
| `Rows.Normalise` | crawler.py:58-69 | the normalised rows are sorted and a permutation of the rows with a parseable day |
| `Rows.NormaliseSpec` | crawler.py:58-69 | the fetch's rows are sorted, a permutation of the kept rows, raw count minus bad days in number, all stamped 17:00, each the normalisation of some raw row |
| `Rows.SortSortedIsIdentity` | crawler.py:86 | re-sorting rows in strictly increasing timestamp order, as the read does, leaves them as they are, whatever sort is used |
| `Rows.SortedPermutationUnique` | crawler.py:86 | rows with distinct timestamps have exactly one sorted order, so any sort, stable or not, returns them unchanged |
| `Fetcher.Field` | crawler.py:49-54 | `item.get(key)` is present exactly when the key is |
| `Fetcher.Extract` | crawler.py:48-55 | a raw row carries the item's `Ngay` as its day and `KhoiLuongKhopLenh` as its volume, each missing when the key is absent |
| `Fetcher.AppendItems` | crawler.py:47-55 | the item loop appends one extracted row per item, in item order |
| `Fetcher.Paginate` | crawler.py:24-56 | what the loop yields from a page on: the rows of consecutive continuing pages, `Failed` on a raising request (properties in `CollectPages`, `PaginateBound`, `EmptyFetches`) |
| `Fetcher.CollectPages` | crawler.py:24-56 | the loop requests pages 1..k with k ≤ max_pages; every page but the last has items; it stops before the budget only on a stopping page; it fails exactly when the last request raised; its rows are those of pages 1..k in page order |
| `Fetcher.StockData` | crawler.py:23-69 | the fetch fails exactly when collecting pages fails, and its rows are sorted |
| `Fetcher.GetStockData` | crawler.py:23-69 | the fetch equals the collected rows normalised, or fails when collecting raised; its rows are sorted |
| `Fetcher.FetchCaseInsensitive` | crawler.py:28 | the fetch is the same for a symbol and its upper-cased form |
| `Fetcher.FetchedRows` | crawler.py:56-69 | the fetch fails exactly when collecting fails; otherwise its rows are sorted, a permutation of the kept raw rows, raw count minus bad days in number, stamped 17:00 |
| `Fetcher.EmptyFetches` | crawler.py:24-45 | `max_pages = 0`, or a first page that stops the loop, gives no rows (or a failure if that page raised) |
| `Fetcher.PaginateBound` | crawler.py:26-56 | if every page holds at most 100 items, the pages from `page` to `max_pages` contribute at most 100 rows each |
| `Fetcher.FetchBound` | crawler.py:32-69 | the fetch returns at most `max_pages × 100` rows when every page honours `PageSize` |
| `Fetcher.PageSizeNotEnforced` | crawler.py:32-55 | one page of more than 100 items with `max_pages = 1` gives more than 100 rows |
| `Fetcher.ShortPageDoesNotStop` | crawler.py:40-56 | a short non-empty first page does not end the loop; page 2's rows follow page 1's |
| `Fetcher.ThreePages` | crawler.py:26-69 | pages of 100, 100 and 0 items give the 200 rows of pages 1 and 2, and 200 sorted rows when every day parses |
| `Cache.Join` | crawler.py:74 | `os.path.join` returns an absolute name as is and otherwise puts it below the directory |
| `Cache.CachePath` | crawler.py:73-74 | every cache path ends in `.csv` |
| `Cache.CachePathShape` | crawler.py:73-74 | the path is `data_cache/` + upper-cased symbol + `.csv`, or the upper-cased symbol + `.csv` for a symbol that starts with '/' |
| `Cache.CachePathCaseInsensitive` | crawler.py:74 | a symbol and its upper-cased form share a path |
| `Cache.CachePathInjective` | crawler.py:74 | two symbols share a path exactly when they agree after upper-casing |
| `Cache.LoadFrom` | crawler.py:81-89 | the read returns a date-sorted permutation of the stored rows, and empty rows, without failing, when the file is absent or unreadable |
| `Cache.Store.Save` | crawler.py:77-78 | the write replaces the whole entry at `cache_path(symbol)` and no other entry; when `to_csv` raises it reports that and no entry changes |
| `Cache.SaveThenLoad` | crawler.py:77-89 | after a save, a read of any symbol equal to it up to case returns a sorted permutation of the saved rows; a read of any other symbol is unchanged |
| `Cache.SaveLoadRoundTrip` | crawler.py:77-89 | rows with distinct timestamps come back from the cache exactly as saved |
| `Sweep.CsvNames` | crawler.py:94 | every name the listing filter keeps ends in `.csv` |
| `Sweep.CsvNamesMembers` | crawler.py:94 | the filter keeps exactly the listed names that end in `.csv` |
| `Sweep.CsvNamesAppend` | crawler.py:94 | the filter keeps listing order |
| `Sweep.SweepSymbolsDefault` | crawler.py:94-97 | the sweep list is `[DEFAULT_SYMBOL]` exactly when no listed name ends in `.csv` |
| `Sweep.SweepSymbolsMembers` | crawler.py:94-95 | otherwise a symbol is in the sweep list exactly when it is the upper-cased `splitext` stem of a listed `.csv` name |
| `Sweep.Stem` | crawler.py:95 | the stem is the whole name or the name less its `.csv` |
| `Sweep.SweepSymbols` | crawler.py:94-97 | the sweep list has one symbol per `.csv` name, or just the default symbol |
| `Sweep.StemRestoresName` | crawler.py:95 | for a name with something other than dots before `.csv`, the stem plus `.csv` is the name |
| `Sweep.DotOnlyName` | crawler.py:94-104 | a name with only dots before `.csv` (`.csv`, `..csv`) is its own stem, so its symbol is refreshed under the upper-cased name plus another `.csv`, never the listed file |
| `Sweep.SweepRefreshesListedFile` | crawler.py:94-104 | for a name whose stem is already upper case, the sweep writes back to the very file it listed |
| `Sweep.Refresh` | crawler.py:100-109 | one iteration changes at most the symbol's own file, adding at most that path |
| `Sweep.SweepFiles` | crawler.py:99-109 | the sweep never deletes a file |
| `Sweep.UpdateAllCachedSymbols` | crawler.py:93-109 | the directory after the sweep is the listed symbols processed in turn, each file overwritten only by a non-empty fetch whose write succeeds |
| `Sweep.SamePathSameFetch` | crawler.py:74-102 | two symbols that share a cache file get the same fetch |
| `Sweep.SweepUntouched` | crawler.py:100-109 | a symbol whose fetch fails or is empty, or whose file cannot be written, leaves its cache file, present or absent, as it was |
| `Sweep.SweepKeepsFresh` | crawler.py:99-104 | once a symbol's fresh rows are in its file, later symbols of the sweep leave them there |
| `Sweep.SweepWrites` | crawler.py:99-104 | when a listed symbol shares the file of a symbol whose fetch has rows and whose file can be written, the file ends up holding those rows |
| `Sweep.SweepAt` | crawler.py:99-109 | after the sweep, a symbol's file holds its fresh rows when a listed symbol shares it, the fetch gave rows and the write succeeds; otherwise it holds exactly what it held before |
| `Sweep.SweepLeavesOthers` | crawler.py:99-109 | files of symbols the sweep does not list are unchanged |
| `Sweep.SweepAppend` | crawler.py:99 | processing one list of symbols and then another is processing their concatenation |
| `Sweep.SweepSkipsFailures` | crawler.py:99-109 | a symbol whose fetch fails or is empty, or whose write raises, acts as if it were not listed, so the symbols after it are processed as usual |
| `Dashboard.FilterRange` | crawler.py:222 | the filter never adds rows (the member lemmas below say which it keeps) |
| `Dashboard.EndDate` | crawler.py:209-211 | the end date is the chosen one, or today when none is chosen |
| `Dashboard.Source` | crawler.py:214-218 | the handler's rows are sorted, and are the cached rows whenever the read gives any |
| `Dashboard.Tail` | crawler.py:227 | the table holds the last min(120, n) filtered rows, a suffix of them |
| `Dashboard.ToDisplay` | crawler.py:226 | a table row carries the day as `%d/%m/%Y` text and the numbers unchanged |
| `Dashboard.DisplayTable` | crawler.py:225-227 | the table formats each shown row, one table row per row |
| `Dashboard.FilterRangeMembers` | crawler.py:222 | the filter keeps exactly the rows with `date_from ≤ time ≤ date_to_final` |
| `Dashboard.FilterRangeAppend` | crawler.py:222 | the filter works row by row and keeps order |
| `Dashboard.FilterRangeSorted` | crawler.py:222 | filtered sorted rows stay sorted |
| `Dashboard.CloseStampedRange` | crawler.py:221-222 | for a 17:00 row the range is a half-open interval on days: start day in, end day out |
| `Dashboard.EndDayExcluded` | crawler.py:221-222 | the end day's row is never shown; the start day's row is shown when the range spans more than a day |
| `Dashboard.FetchedRange` | crawler.py:221-222 | on fetched rows the filter keeps exactly the rows whose day lies in [date_from, date_to), in day order |
| `Dashboard.TableDaysParseBack` | crawler.py:226 | each day in the table reads back, through the fetch's own parse, as the row's day |
| `Dashboard.OnShowChart` | crawler.py:213-236 | the handler loads, or on a cache miss fetches and saves a non-empty result; it crashes when the fetch or that save raises; otherwise it errors, warns, or shows the filtered rows with the last 120 in the table |

## Left out

- HTTP and JSON (crawler.py:34-38) are the oracle `Remote`. Timeouts, retries and the request's query string are outside the model. `Raised` stands for any exception while fetching or reading a page, for example a network error or a `Data` field that is not an object.
- The CSV files' format is abstracted to the rows themselves. This covers pandas serialisation, UTF-8 encoding and `parse_dates` type widening (crawler.py:78, crawler.py:85). A file whose `Ngày` column reads back as text is not modelled. That case would break the filter's comparison.
- Floating-point values are opaque `real` values produced by the abstract `toNumeric` and carried through unchanged. NaN is `None`.
- The background scheduler is not modelled: `scheduler_thread`, `start_scheduler_in_thread`, the `schedule` library, `SCHED_TIME` and the 30-second polling loop (crawler.py:112-123). So is the race between a sweep's write and a dashboard read. The sweep itself is `UpdateAllCachedSymbols`, modelled as one call.
- `make_figure` (crawler.py:127-197) is chart layout only.
- The Streamlit widgets and messages in `main` are left out. So is the default start date of 365 days before today.
- `print` logging, `os.makedirs` and `os.listdir` are left out; the listing is an input.
- Cache.Store.Save: a write that raises changes no file. A disk-full error part-way through `to_csv` could leave a truncated file, which is not modelled. Which paths fail is fixed for the run (`Store.unwritable`).
- Sweep.SamePathSameFetch: the endpoint `remote` is one fixed function, so a request repeated within a sweep gets the same answer. With two listed names of one upper-cased stem (`hpg.csv` and `HPG.csv`), the program fetches twice and the second answer may differ (a timeout after a success). The model cannot express this; `SweepUntouched`, `SweepKeepsFresh`, `SweepWrites` and `SweepAt` rely on the assumption for such listings.
- Unicode is left out. `upper()` is ASCII only. strptime's `\d` is taken as ASCII digits.
- Dates.ParseDate: pandas 2 reads the texts "now" and "today" as the current time, format or not, so such a day would be kept, at 17:00 with the clock's minutes. The model has no clock and no minutes: it gives NaT for them, and `Dates.ParseNeedsSlashes` excludes them. The endpoint sends `dd/mm/yyyy` days.
- Dates.ValidDate: the range 1677-09-22 to 2262-04-11 is that of pandas 2's nanosecond Timestamps. A pandas version with another default resolution would accept more years.
- Rows.SortSortedIsIdentity: stated for rows with distinct timestamps only. pandas' unstable sort may swap rows that share a timestamp, so re-sorting such rows is not promised to leave them in place.
- Rows.SortByDate: pandas' `sort_values` is an unstable quicksort. The model sorts by insertion, which is one of the orders pandas may produce. Only "sorted and a permutation" is promised, never the order of rows with equal timestamps.
