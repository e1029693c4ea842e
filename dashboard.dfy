/**
 * The data path behind the dashboard's "show chart" button (crawler.py:213-236):
 * load from the cache or fetch and store, then filter by the chosen date
 * range and show the last 120 rows of the filtered table.
 */
module Dashboard {
  import opened Wrappers
  import opened Dates
  import opened Rows
  import opened Fetcher
  import opened Cache

  /** `df_display.tail(120)`. */
  const TABLE_ROWS := 120

  /** `date_from <= row["Ngày"] <= date_to_final`, each bound taken at midnight of its day. */
  predicate InRange(row: Row, dateFrom: Date, dateTo: Date) {
    StampLe(Midnight(dateFrom), row.time) && StampLe(row.time, Midnight(dateTo))
  }

  /** `df[(df["Ngày"] >= date_from) & (df["Ngày"] <= date_to_final)]`. */
  function FilterRange(rows: seq<Row>, dateFrom: Date, dateTo: Date): (r: seq<Row>)
    ensures |r| <= |rows|
  {
    if rows == [] then []
    else (if InRange(rows[0], dateFrom, dateTo) then [rows[0]] else []) + FilterRange(rows[1..], dateFrom, dateTo)
  }

  /** `tail(n)`: the last `n` elements, or all of them when there are fewer. */
  function Tail<T>(xs: seq<T>, n: nat): (t: seq<T>)
    ensures |t| == if |xs| <= n then |xs| else n
    ensures xs == xs[..|xs| - |t|] + t
  {
    if |xs| <= n then xs else xs[|xs| - n..]
  }

  /** A table row: the day written `%d/%m/%Y`, the numbers as they are. */
  datatype DisplayRow = DisplayRow(day: string, open: Option<real>, close: Option<real>,
                                   high: Option<real>, low: Option<real>, volume: Option<real>)

  function ToDisplay(row: Row): (d: DisplayRow)
    ensures d.day == FormatDate(row.time.date) && d.volume == row.volume
  {
    DisplayRow(FormatDate(row.time.date), row.open, row.close, row.high, row.low, row.volume)
  }

  function DisplayTable(rows: seq<Row>): (t: seq<DisplayRow>)
    ensures |t| == |rows|
    ensures forall i | 0 <= i < |rows| :: t[i] == ToDisplay(rows[i])
  {
    seq(|rows|, i requires 0 <= i < |rows| => ToDisplay(rows[i]))
  }

  /** What the button handler ends in. */
  datatype Screen =
    | Crashed            // `get_stock_data` or `save_to_cache` raised inside the handler
    | FetchError         // `st.error`: neither the cache nor the fetch gave rows
    | EmptyRangeWarning  // `st.warning`: no row falls into the chosen range
    | Chart(count: nat, table: seq<DisplayRow>, plotted: seq<Row>)

  /** The end date: the one chosen, or today when the field is left empty. */
  function EndDate(dateTo: Option<Date>, today: Date): (d: Date)
    ensures dateTo.Some? ==> d == dateTo.value
    ensures dateTo.None? ==> d == today
  {
    if dateTo.Some? then dateTo.value else today
  }

  /** The rows the handler works with: the cached ones, or a fresh fetch on a cache miss. */
  function Source(files: Files, remote: Remote, toNumeric: Numeric, symbol: string): (r: Attempt<seq<Row>>)
    ensures r.Done? ==> Sorted(r.value)
    ensures LoadFrom(files, symbol) != [] ==> r == Done(LoadFrom(files, symbol))
  {
    var cached := LoadFrom(files, symbol);
    if cached != [] then Done(cached) else StockData(remote, toNumeric, symbol, MAX_PAGES)
  }

  /**
   * The handler of the "Hiển thị biểu đồ" button (crawler.py:213-236);
   * the clock's `datetime.today()` is the parameter `today`.
   */
  method OnShowChart(store: Store, remote: Remote, toNumeric: Numeric, symbol: string,
                     dateFrom: Date, dateTo: Option<Date>, today: Date)
    returns (screen: Screen)
    modifies store
    ensures store.unwritable == old(store.unwritable)
    ensures var src := Source(old(store.files), remote, toNumeric, symbol);
      store.files ==
        if LoadFrom(old(store.files), symbol) == [] && src.Done? && src.value != []
           && CachePath(symbol) !in store.unwritable
        then old(store.files)[CachePath(symbol) := Stored(src.value)]
        else old(store.files)
    ensures var src := Source(old(store.files), remote, toNumeric, symbol);
      match src
      case Failed => screen == Crashed
      case Done(rows) =>
        var filtered := FilterRange(rows, dateFrom, EndDate(dateTo, today));
        screen == if rows == [] then FetchError
                  else if LoadFrom(old(store.files), symbol) == [] && CachePath(symbol) in store.unwritable
                  then Crashed
                  else if filtered == [] then EmptyRangeWarning
                  else Chart(|filtered|, DisplayTable(Tail(filtered, TABLE_ROWS)), filtered)
  {
    var df := LoadFrom(store.files, symbol);
    if df == [] {
      var fetched := GetStockData(remote, toNumeric, symbol, MAX_PAGES);
      if fetched.Failed? {
        return Crashed;
      }
      df := fetched.value;
      if df != [] {
        var written := store.Save(symbol, df);
        if !written {
          return Crashed;
        }
      }
    }
    if df == [] {
      return FetchError;
    }
    var dateToFinal := EndDate(dateTo, today);
    var filtered := FilterRange(df, dateFrom, dateToFinal);
    if filtered == [] {
      return EmptyRangeWarning;
    }
    screen := Chart(|filtered|, DisplayTable(Tail(filtered, TABLE_ROWS)), filtered);
  }

  /** The filter keeps exactly the rows inside the range. */
  lemma {:induction false} FilterRangeMembers(rows: seq<Row>, dateFrom: Date, dateTo: Date, x: Row)
    ensures x in FilterRange(rows, dateFrom, dateTo) <==> x in rows && InRange(x, dateFrom, dateTo)
  {
    if rows != [] {
      FilterRangeMembers(rows[1..], dateFrom, dateTo, x);
      assert rows == [rows[0]] + rows[1..];
    }
  }

  /** The filter works row by row, so the rows it keeps stay in their order. */
  lemma {:induction false} FilterRangeAppend(a: seq<Row>, b: seq<Row>, dateFrom: Date, dateTo: Date)
    ensures FilterRange(a + b, dateFrom, dateTo) == FilterRange(a, dateFrom, dateTo) + FilterRange(b, dateFrom, dateTo)
  {
    if a == [] {
      assert a + b == b;
    } else {
      assert (a + b)[0] == a[0] && (a + b)[1..] == a[1..] + b;
      FilterRangeAppend(a[1..], b, dateFrom, dateTo);
    }
  }

  /** Filtering sorted rows gives sorted rows, so the chart's x axis stays in day order. */
  lemma {:induction false} FilterRangeSorted(rows: seq<Row>, dateFrom: Date, dateTo: Date)
    requires Sorted(rows)
    ensures Sorted(FilterRange(rows, dateFrom, dateTo))
  {
    if rows != [] {
      var rest := FilterRange(rows[1..], dateFrom, dateTo);
      FilterRangeSorted(rows[1..], dateFrom, dateTo);
      forall k | 0 <= k < |rest| ensures StampLe(rows[0].time, rest[k].time) {
        FilterRangeMembers(rows[1..], dateFrom, dateTo, rest[k]);
        var j :| 0 <= j < |rows[1..]| && rows[1..][j] == rest[k];
        assert rows[j + 1] == rest[k];
      }
    }
  }

  /**
   * For a row stamped at 17:00, the range is half-open on days: the start
   * day is in, the end day itself is out, because the end bound is
   * midnight of that day.
   */
  lemma CloseStampedRange(row: Row, dateFrom: Date, dateTo: Date)
    requires row.time.hour == CLOSE_HOUR
    ensures InRange(row, dateFrom, dateTo) <==> DateLe(dateFrom, row.time.date) && DateLt(row.time.date, dateTo)
  {
  }

  /** In particular the row of the end day is never shown, while the start day's row is when the range spans more than a day. */
  lemma EndDayExcluded(row: Row, dateFrom: Date, dateTo: Date)
    requires row.time.hour == CLOSE_HOUR
    ensures row.time.date == dateTo ==> !InRange(row, dateFrom, dateTo)
    ensures row.time.date == dateFrom && DateLt(dateFrom, dateTo) ==> InRange(row, dateFrom, dateTo)
  {
    CloseStampedRange(row, dateFrom, dateTo);
  }

  /**
   * On fetched rows the filter keeps exactly the rows whose day lies in
   * [dateFrom, dateTo), in day order.
   */
  lemma FetchedRange(remote: Remote, toNumeric: Numeric, symbol: string, dateFrom: Date, dateTo: Date)
    requires StockData(remote, toNumeric, symbol, MAX_PAGES).Done?
    ensures var rows := StockData(remote, toNumeric, symbol, MAX_PAGES).value;
      var shown := FilterRange(rows, dateFrom, dateTo);
      && Sorted(shown)
      && forall x :: x in shown <==> x in rows && DateLe(dateFrom, x.time.date) && DateLt(x.time.date, dateTo)
  {
    var rows := StockData(remote, toNumeric, symbol, MAX_PAGES).value;
    FetchedRows(remote, toNumeric, symbol, MAX_PAGES);
    FilterRangeSorted(rows, dateFrom, dateTo);
    forall x ensures x in FilterRange(rows, dateFrom, dateTo) <==>
      x in rows && DateLe(dateFrom, x.time.date) && DateLt(x.time.date, dateTo)
    {
      FilterRangeMembers(rows, dateFrom, dateTo, x);
      if x in rows {
        CloseStampedRange(x, dateFrom, dateTo);
      }
    }
  }

  /** Every day in the table reads back, through the fetch's own parse, as the row's day. */
  lemma TableDaysParseBack(rows: seq<Row>, i: nat)
    requires i < |rows| && ValidDate(rows[i].time.date)
    ensures ParseDate(DisplayTable(rows)[i].day) == Some(rows[i].time.date)
  {
    FormatThenParse(rows[i].time.date);
  }
}
