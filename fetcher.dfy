/**
 * `get_stock_data` (crawler.py:23-69): the pagination loop over the remote
 * price-history endpoint, followed by normalisation. The endpoint, called
 * with `Symbol=symbol.upper()`, empty `StartDate`/`EndDate`, `PageSize=100`
 * and a page index, is the oracle `Remote`.
 */
module Fetcher {
  import opened Wrappers
  import opened Text
  import opened Rows

  /** `get_stock_data`'s default page budget. */
  const MAX_PAGES := 120
  /** The `PageSize` every request asks for; nothing checks what comes back. */
  const PAGE_SIZE := 100

  /** One JSON item of `data["Data"]["Data"]`: its non-null fields, each as text. */
  type Item = map<string, string>

  /** What one request tells the loop. */
  datatype Page =
    | Raised                  // `requests.get` raised, or the envelope's "Data" is not an object
    | Unparseable             // `response.json()` raised
    | NoData                  // the JSON is empty, lacks "Data", or its "Data" is empty
    | Items(items: seq<Item>) // `data["Data"].get("Data", [])`

  /** The endpoint: (upper-cased symbol, page index) to what that request yields. */
  type Remote = (string, nat) -> Page

  /** The loop goes on past a page exactly when the page has a non-empty item list. */
  predicate Continues(p: Page) {
    p.Items? && p.items != []
  }

  function Field(item: Item, key: string): (c: Cell)
    ensures c.Some? <==> key in item
  {
    if key in item then Some(item[key]) else None
  }

  /** The dict appended for one item (crawler.py:48-55). */
  function Extract(item: Item): (r: RawRow)
    ensures r.day == Field(item, "Ngay") && r.volume == Field(item, "KhoiLuongKhopLenh")
  {
    RawRow(Field(item, "Ngay"), Field(item, "GiaMoCua"), Field(item, "GiaDongCua"),
           Field(item, "GiaCaoNhat"), Field(item, "GiaThapNhat"), Field(item, "KhoiLuongKhopLenh"))
  }

  function Extracted(items: seq<Item>): (rs: seq<RawRow>)
    ensures |rs| == |items|
    ensures forall i | 0 <= i < |items| :: rs[i] == Extract(items[i])
  {
    seq(|items|, i requires 0 <= i < |items| => Extract(items[i]))
  }

  /** The raw rows one page contributes. */
  function PageRows(p: Page): seq<RawRow> {
    if p.Items? then Extracted(p.items) else []
  }

  /** The raw rows of pages 1..n, in page order. */
  function Gathered(remote: Remote, symbol: string, n: nat): seq<RawRow> {
    if n == 0 then [] else Gathered(remote, symbol, n - 1) + PageRows(remote(symbol, n))
  }

  function Prefixed(prefix: seq<RawRow>, a: Attempt<seq<RawRow>>): Attempt<seq<RawRow>> {
    match a
    case Failed => Failed
    case Done(rest) => Done(prefix + rest)
  }

  lemma PrefixedTwice(a: seq<RawRow>, b: seq<RawRow>, x: Attempt<seq<RawRow>>)
    ensures Prefixed(a, Prefixed(b, x)) == Prefixed(a + b, x)
  {
    if x.Done? {
      assert a + (b + x.value) == (a + b) + x.value;
    }
  }

  /**
   * What the loop yields from page `page` on: the rows of consecutive
   * continuing pages up to the first page that stops it or past `maxPages`;
   * `Failed` when a request raises on the way.
   */
  function Paginate(remote: Remote, symbol: string, page: nat, maxPages: nat): Attempt<seq<RawRow>>
    decreases maxPages + 1 - page
  {
    if page > maxPages then Done([])
    else
      var p := remote(symbol, page);
      if p.Raised? then Failed
      else if !Continues(p) then Done([])
      else Prefixed(PageRows(p), Paginate(remote, symbol, page + 1, maxPages))
  }

  /** The `for item in items: all_data.append({...})` loop (crawler.py:47-55). */
  method AppendItems(allData: seq<RawRow>, items: seq<Item>) returns (out: seq<RawRow>)
    ensures out == allData + Extracted(items)
  {
    out := allData;
    for k := 0 to |items|
      invariant out == allData + Extracted(items[..k])
    {
      assert Extracted(items[..k + 1]) == Extracted(items[..k]) + [Extract(items[k])];
      out := out + [Extract(items[k])];
    }
    assert items[..|items|] == items;
  }

  lemma PaginateStep(remote: Remote, symbol: string, page: nat, maxPages: nat)
    requires page <= maxPages && Continues(remote(symbol, page))
    ensures Paginate(remote, symbol, page, maxPages) ==
      Prefixed(PageRows(remote(symbol, page)), Paginate(remote, symbol, page + 1, maxPages))
  {
  }

  /**
   * The `while page <= max_pages` loop (crawler.py:24-56). `requests` is the
   * number of pages asked for, pages 1, 2, ..., requests in that order: at
   * most `maxPages`, every page but the last continuing, and the last one
   * stopping the loop unless the budget ran out.
   */
  method CollectPages(remote: Remote, symbol: string, maxPages: nat)
    returns (collected: Attempt<seq<RawRow>>, ghost requests: nat)
    ensures collected == Paginate(remote, Upper(symbol), 1, maxPages)
    ensures requests <= maxPages
    ensures forall i | 1 <= i < requests :: Continues(remote(Upper(symbol), i))
    ensures requests < maxPages ==> requests > 0 && !Continues(remote(Upper(symbol), requests))
    ensures collected.Failed? <==> requests > 0 && remote(Upper(symbol), requests).Raised?
    ensures collected.Done? ==> collected.value == Gathered(remote, Upper(symbol), requests)
  {
    var sym := Upper(symbol);
    var allData: seq<RawRow> := [];
    var page: nat := 1;
    requests := 0;
    assert Prefixed([], Paginate(remote, sym, 1, maxPages)) == Paginate(remote, sym, 1, maxPages) by {
      match Paginate(remote, sym, 1, maxPages)
      case Failed =>
      case Done(rest) => assert [] + rest == rest;
    }
    while page <= maxPages
      invariant 1 <= page <= maxPages + 1
      invariant requests == page - 1
      invariant forall i | 1 <= i <= requests :: Continues(remote(sym, i))
      invariant allData == Gathered(remote, sym, requests)
      invariant Paginate(remote, sym, 1, maxPages) == Prefixed(allData, Paginate(remote, sym, page, maxPages))
      decreases maxPages + 1 - page
    {
      var response := remote(sym, page);
      requests := page;
      if response.Raised? {
        collected := Failed;
        return;
      }
      if response.Unparseable? || response.NoData? {
        break;
      }
      var items := response.items;
      if items == [] {
        break;
      }
      ghost var before := allData;
      allData := AppendItems(allData, items);
      PaginateStep(remote, sym, page, maxPages);
      PrefixedTwice(before, PageRows(response), Paginate(remote, sym, page + 1, maxPages));
      page := page + 1;
    }
    assert allData + [] == allData;
    collected := Done(allData);
  }

  /** `get_stock_data(symbol, max_pages)` as a value: `Failed` when it raises. */
  function StockData(remote: Remote, toNumeric: Numeric, symbol: string, maxPages: nat): (r: Attempt<seq<Row>>)
    ensures r.Failed? <==> Paginate(remote, Upper(symbol), 1, maxPages).Failed?
    ensures r.Done? ==> Sorted(r.value)
  {
    match Paginate(remote, Upper(symbol), 1, maxPages)
    case Failed => Failed
    case Done(raw) => Done(Normalise(toNumeric, raw))
  }

  /** `get_stock_data` (crawler.py:23-69). */
  method GetStockData(remote: Remote, toNumeric: Numeric, symbol: string, maxPages: nat)
    returns (result: Attempt<seq<Row>>)
    ensures result == StockData(remote, toNumeric, symbol, maxPages)
    ensures result.Done? ==> Sorted(result.value)
  {
    var collected;
    ghost var requests;
    collected, requests := CollectPages(remote, symbol, maxPages);
    match collected
    case Failed =>
      result := Failed;
    case Done(allData) =>
      if allData == [] {
        result := Done([]);
      } else {
        result := Done(Normalise(toNumeric, allData));
      }
  }

  /** The request carries `symbol.upper()`, so the fetch does not depend on the symbol's case. */
  lemma FetchCaseInsensitive(remote: Remote, toNumeric: Numeric, symbol: string, maxPages: nat)
    ensures StockData(remote, toNumeric, symbol, maxPages) == StockData(remote, toNumeric, Upper(symbol), maxPages)
  {
    UpperIdempotent(symbol);
  }

  /**
   * The fetch fails exactly when collecting raised; otherwise its rows are
   * the collected raw rows, normalised: sorted, a permutation of the rows
   * with a parseable day, and as many as the raw rows less the bad days.
   */
  lemma FetchedRows(remote: Remote, toNumeric: Numeric, symbol: string, maxPages: nat)
    ensures StockData(remote, toNumeric, symbol, maxPages).Failed? <==> Paginate(remote, Upper(symbol), 1, maxPages).Failed?
    ensures StockData(remote, toNumeric, symbol, maxPages).Done? ==>
      var raw := Paginate(remote, Upper(symbol), 1, maxPages).value;
      var rows := StockData(remote, toNumeric, symbol, maxPages).value;
      && Sorted(rows)
      && multiset(rows) == multiset(Keep(toNumeric, raw))
      && |rows| + BadDates(raw) == |raw|
      && forall row | row in rows :: row.time.hour == CLOSE_HOUR
  {
    var a := Paginate(remote, Upper(symbol), 1, maxPages);
    if a.Done? {
      NormaliseSpec(toNumeric, a.value);
    }
  }

  /** No budget, or a first page that stops the loop, gives an empty result. */
  lemma EmptyFetches(remote: Remote, symbol: string, maxPages: nat)
    ensures maxPages == 0 ==> Paginate(remote, symbol, 1, maxPages) == Done([])
    ensures maxPages > 0 && !Continues(remote(symbol, 1)) ==>
      Paginate(remote, symbol, 1, maxPages) == (if remote(symbol, 1).Raised? then Failed else Done([]))
  {
  }

  /** If every page within the budget holds at most PAGE_SIZE items, so does the collection per page. */
  lemma {:induction false} PaginateBound(remote: Remote, symbol: string, page: nat, maxPages: nat)
    requires 1 <= page <= maxPages + 1
    requires forall p | page <= p <= maxPages :: remote(symbol, p).Items? ==> |remote(symbol, p).items| <= PAGE_SIZE
    ensures Paginate(remote, symbol, page, maxPages).Done? ==>
      |Paginate(remote, symbol, page, maxPages).value| <= (maxPages + 1 - page) * PAGE_SIZE
    decreases maxPages + 1 - page
  {
    if page <= maxPages && Continues(remote(symbol, page)) {
      PaginateBound(remote, symbol, page + 1, maxPages);
      assert (maxPages + 1 - page) * PAGE_SIZE == (maxPages - page) * PAGE_SIZE + PAGE_SIZE;
    }
  }

  /** The fetch returns at most `maxPages * PAGE_SIZE` rows when the endpoint honours `PageSize`. */
  lemma FetchBound(remote: Remote, toNumeric: Numeric, symbol: string, maxPages: nat)
    requires forall p | 1 <= p <= maxPages ::
      remote(Upper(symbol), p).Items? ==> |remote(Upper(symbol), p).items| <= PAGE_SIZE
    ensures StockData(remote, toNumeric, symbol, maxPages).Done? ==>
      |StockData(remote, toNumeric, symbol, maxPages).value| <= maxPages * PAGE_SIZE
  {
    PaginateBound(remote, Upper(symbol), 1, maxPages);
    FetchedRows(remote, toNumeric, symbol, maxPages);
  }

  /** Nothing checks the page length: one oversized page exceeds `maxPages * PAGE_SIZE`. */
  lemma PageSizeNotEnforced(remote: Remote, symbol: string)
    requires remote(symbol, 1).Items? && |remote(symbol, 1).items| > PAGE_SIZE
    ensures Paginate(remote, symbol, 1, 1).Done?
    ensures |Paginate(remote, symbol, 1, 1).value| > 1 * PAGE_SIZE
  {
    var first := PageRows(remote(symbol, 1));
    assert Paginate(remote, symbol, 1, 1) == Done(first + []);
    assert first + [] == first;
  }

  /** A short first page does not end the loop: page 2 is still requested and its rows collected. */
  lemma ShortPageDoesNotStop(remote: Remote, symbol: string, maxPages: nat)
    requires maxPages >= 2
    requires remote(symbol, 1).Items? && 0 < |remote(symbol, 1).items| < PAGE_SIZE
    requires Continues(remote(symbol, 2))
    ensures Paginate(remote, symbol, 1, maxPages) ==
      Prefixed(PageRows(remote(symbol, 1)) + PageRows(remote(symbol, 2)), Paginate(remote, symbol, 3, maxPages))
  {
    PrefixedTwice(PageRows(remote(symbol, 1)), PageRows(remote(symbol, 2)), Paginate(remote, symbol, 3, maxPages));
  }

  /** Three pages of 100, 100 and 0 items: 200 raw rows, and 200 sorted rows when every day parses. */
  lemma ThreePages(remote: Remote, toNumeric: Numeric, symbol: string, maxPages: nat)
    requires maxPages >= 3
    requires remote(Upper(symbol), 1).Items? && |remote(Upper(symbol), 1).items| == 100
    requires remote(Upper(symbol), 2).Items? && |remote(Upper(symbol), 2).items| == 100
    requires remote(Upper(symbol), 3) == Items([])
    ensures Paginate(remote, Upper(symbol), 1, maxPages) ==
      Done(Extracted(remote(Upper(symbol), 1).items) + Extracted(remote(Upper(symbol), 2).items))
    ensures BadDates(Paginate(remote, Upper(symbol), 1, maxPages).value) == 0 ==>
      |StockData(remote, toNumeric, symbol, maxPages).value| == 200 &&
      Sorted(StockData(remote, toNumeric, symbol, maxPages).value)
  {
    var sym := Upper(symbol);
    assert Paginate(remote, sym, 3, maxPages) == Done([]);
    var second := Extracted(remote(sym, 2).items);
    assert Paginate(remote, sym, 2, maxPages) == Done(second + []);
    assert second + [] == second;
    FetchedRows(remote, toNumeric, symbol, maxPages);
  }
}
