/**
 * The daily sweep `update_all_cached_symbols` (crawler.py:93-109): derive
 * the symbols from the cache directory's listing, then re-fetch each one
 * and overwrite its file when the fetch returned rows.
 */
module Sweep {
  import opened Wrappers
  import opened Text
  import opened Rows
  import opened Fetcher
  import opened Cache

  const DEFAULT_SYMBOL := "HPG"

  /** `name.endswith(".csv")`, case-sensitive. */
  predicate EndsWithCsv(name: string) {
    |name| >= 4 && name[|name| - 4..] == ".csv"
  }

  predicate AllDots(s: string) {
    forall i | 0 <= i < |s| :: s[i] == '.'
  }

  /** Index just after the last '/', or 0 when there is none. */
  function BaseStart(s: string): (i: nat)
    ensures i <= |s|
    ensures forall k | i <= k < |s| :: s[k] != '/'
  {
    if s == [] then 0 else if s[|s| - 1] == '/' then |s| else BaseStart(s[..|s| - 1])
  }

  /**
   * `os.path.splitext(name)[0]` for a name ending in ".csv": the name less
   * its ".csv", except when only dots precede that suffix in the last path
   * component (".csv", "..csv"), where splitext finds no extension.
   */
  function Stem(name: string): (stem: string)
    requires EndsWithCsv(name)
    ensures stem == name || stem + ".csv" == name
  {
    var dot := |name| - 4;
    assert name[..dot] + name[dot..] == name;
    if AllDots(name[BaseStart(name[..dot])..dot]) then name else name[..dot]
  }

  /** `[f for f in listing if f.endswith(".csv")]`. */
  function CsvNames(listing: seq<string>): (names: seq<string>)
    ensures forall i | 0 <= i < |names| :: EndsWithCsv(names[i])
  {
    if listing == [] then []
    else (if EndsWithCsv(listing[0]) then [listing[0]] else []) + CsvNames(listing[1..])
  }

  /** The symbol list of crawler.py:94-97. */
  function SweepSymbols(listing: seq<string>): (symbols: seq<string>)
    ensures |symbols| == if CsvNames(listing) == [] then 1 else |CsvNames(listing)|
  {
    var names := CsvNames(listing);
    if names == [] then [DEFAULT_SYMBOL]
    else seq(|names|, i requires 0 <= i < |names| => Upper(Stem(names[i])))
  }

  /** The filter keeps exactly the names ending in ".csv". */
  lemma {:induction false} CsvNamesMembers(listing: seq<string>, name: string)
    ensures name in CsvNames(listing) <==> name in listing && EndsWithCsv(name)
  {
    if listing != [] {
      CsvNamesMembers(listing[1..], name);
      assert listing == [listing[0]] + listing[1..];
    }
  }

  /** The filter keeps listing order. */
  lemma {:induction false} CsvNamesAppend(a: seq<string>, b: seq<string>)
    ensures CsvNames(a + b) == CsvNames(a) + CsvNames(b)
  {
    if a == [] {
      assert a + b == b;
    } else {
      assert (a + b)[0] == a[0] && (a + b)[1..] == a[1..] + b;
      CsvNamesAppend(a[1..], b);
    }
  }

  /** With no name ending in ".csv" the sweep falls back to the default symbol alone. */
  lemma SweepSymbolsDefault(listing: seq<string>)
    ensures (forall f | f in listing :: !EndsWithCsv(f)) <==> SweepSymbols(listing) == [DEFAULT_SYMBOL] && CsvNames(listing) == []
  {
    if CsvNames(listing) != [] {
      var f := CsvNames(listing)[0];
      CsvNamesMembers(listing, f);
    } else {
      forall f | f in listing ensures !EndsWithCsv(f) {
        CsvNamesMembers(listing, f);
      }
    }
  }

  /**
   * Otherwise the sweep list holds exactly the upper-cased stems of the
   * names ending in ".csv".
   */
  lemma SweepSymbolsMembers(listing: seq<string>, s: string)
    requires CsvNames(listing) != []
    ensures s in SweepSymbols(listing) <==> exists f | f in listing && EndsWithCsv(f) :: s == Upper(Stem(f))
  {
    if s in SweepSymbols(listing) {
      SweepSymbolFromName(listing, s);
    }
    if exists f | f in listing && EndsWithCsv(f) :: s == Upper(Stem(f)) {
      var f :| f in listing && EndsWithCsv(f) && s == Upper(Stem(f));
      NameGivesSweepSymbol(listing, f);
    }
  }

  lemma SweepSymbolFromName(listing: seq<string>, s: string)
    requires CsvNames(listing) != [] && s in SweepSymbols(listing)
    ensures exists f | f in listing && EndsWithCsv(f) :: s == Upper(Stem(f))
  {
    var names := CsvNames(listing);
    var syms := SweepSymbols(listing);
    var i :| 0 <= i < |syms| && syms[i] == s;
    var f := names[i];
    CsvNamesMembers(listing, f);
    assert f in listing && EndsWithCsv(f) && s == Upper(Stem(f));
  }

  lemma NameGivesSweepSymbol(listing: seq<string>, f: string)
    requires f in listing && EndsWithCsv(f)
    ensures Upper(Stem(f)) in SweepSymbols(listing)
  {
    var names := CsvNames(listing);
    CsvNamesMembers(listing, f);
    var i :| 0 <= i < |names| && names[i] == f;
    assert SweepSymbols(listing)[i] == Upper(Stem(f));
  }

  /** splitext("X.csv") is ("X", ".csv") whenever X has something other than dots. */
  lemma StemRestoresName(name: string)
    requires EndsWithCsv(name) && '/' !in name
    requires !AllDots(name[..|name| - 4])
    ensures Stem(name) + ".csv" == name
  {
    var dot := |name| - 4;
    BaseStartIsAfterSlash(name[..dot]);
    assert BaseStart(name[..dot]) == 0;
    assert name[0..dot] == name[..dot];
    assert name[..dot] + name[dot..] == name;
  }

  lemma {:induction false} BaseStartIsAfterSlash(s: string)
    ensures BaseStart(s) > 0 ==> s[BaseStart(s) - 1] == '/'
  {
    if s != [] && s[|s| - 1] != '/' {
      BaseStartIsAfterSlash(s[..|s| - 1]);
    }
  }

  /**
   * The quirk of names such as ".csv" and "..csv": splitext finds no
   * extension, so the "symbol" is the whole upper-cased name, refreshed under
   * that name plus another ".csv" (".csv" becomes "data_cache/.CSV.csv"),
   * never the file that was listed.
   */
  lemma {:induction false} DotOnlyName(name: string)
    requires EndsWithCsv(name) && '/' !in name
    requires AllDots(name[..|name| - 4])
    ensures Stem(name) == name
    ensures CachePath(Upper(Stem(name))) == CACHE_DIR + "/" + Upper(name) + ".csv"
    ensures CachePath(Upper(Stem(name))) != CACHE_DIR + "/" + name
  {
    var dot := |name| - 4;
    var front := name[..dot];
    BaseStartIsAfterSlash(front);
    assert BaseStart(front) == 0;
    assert name[0..dot] == front;
    var up := Upper(name);
    assert up[0] == UpperChar(name[0]);
    UpperIdempotent(name);
    CachePathShape(up);
  }

  /**
   * For a name whose stem is in upper case already, the sweep refreshes the
   * very file it listed.
   */
  lemma SweepRefreshesListedFile(name: string)
    requires EndsWithCsv(name) && '/' !in name
    requires !AllDots(name[..|name| - 4]) && IsUpper(name[..|name| - 4])
    ensures CachePath(Upper(Stem(name))) == CACHE_DIR + "/" + name
  {
    StemRestoresName(name);
    var stem := Stem(name);
    assert stem == name[..|name| - 4];
    UpperOfUpper(stem);
    assert stem[0] == name[0];
    CachePathShape(stem);
  }

  /** Whether the sweep writes `symbol`'s file: its fetch succeeded with at least one row. */
  predicate Refreshes(remote: Remote, toNumeric: Numeric, symbol: string) {
    var fetched := StockData(remote, toNumeric, symbol, MAX_PAGES);
    fetched.Done? && fetched.value != []
  }

  /**
   * Whether the sweep changes `symbol`'s file: the fetch has rows and the
   * write does not raise.
   */
  predicate Writes(remote: Remote, toNumeric: Numeric, unwritable: set<string>, symbol: string) {
    Refreshes(remote, toNumeric, symbol) && CachePath(symbol) !in unwritable
  }

  /**
   * One iteration of the sweep (crawler.py:100-109): fetch, and save only a
   * non-empty result; a fetch or a write that raises is caught and changes nothing.
   */
  function Refresh(remote: Remote, toNumeric: Numeric, unwritable: set<string>, files: Files, symbol: string)
    : (r: Files)
    ensures r.Keys == files.Keys || r.Keys == files.Keys + {CachePath(symbol)}
    ensures forall p | p != CachePath(symbol) :: SameAt(r, files, p)
  {
    if Writes(remote, toNumeric, unwritable, symbol)
    then files[CachePath(symbol) := Stored(StockData(remote, toNumeric, symbol, MAX_PAGES).value)]
    else files
  }

  /** The directory after the sweep has processed `symbols` in turn. */
  function SweepFiles(remote: Remote, toNumeric: Numeric, unwritable: set<string>, files: Files, symbols: seq<string>)
    : (r: Files)
    ensures files.Keys <= r.Keys
    decreases |symbols|
  {
    if symbols == [] then files
    else SweepFiles(remote, toNumeric, unwritable, Refresh(remote, toNumeric, unwritable, files, symbols[0]), symbols[1..])
  }

  /** `update_all_cached_symbols()`, with `os.listdir(CACHE_DIR)` given as `listing`. */
  method UpdateAllCachedSymbols(store: Store, listing: seq<string>, remote: Remote, toNumeric: Numeric)
    modifies store
    ensures store.unwritable == old(store.unwritable)
    ensures store.files == SweepFiles(remote, toNumeric, store.unwritable, old(store.files), SweepSymbols(listing))
  {
    var symbols := SweepSymbols(listing);
    for i := 0 to |symbols|
      invariant store.unwritable == old(store.unwritable)
      invariant SweepFiles(remote, toNumeric, store.unwritable, store.files, symbols[i..]) ==
                SweepFiles(remote, toNumeric, store.unwritable, old(store.files), symbols)
    {
      var sym := symbols[i];
      assert symbols[i..][1..] == symbols[i + 1..];
      var df := GetStockData(remote, toNumeric, sym, MAX_PAGES);
      if df.Done? && df.value != [] {
        var written := store.Save(sym, df.value);
      }
    }
  }

  /** Two symbols sharing a cache file have the same fetch. */
  lemma SamePathSameFetch(remote: Remote, toNumeric: Numeric, a: string, b: string)
    requires CachePath(a) == CachePath(b)
    ensures StockData(remote, toNumeric, a, MAX_PAGES) == StockData(remote, toNumeric, b, MAX_PAGES)
  {
    CachePathInjective(a, b);
    FetchCaseInsensitive(remote, toNumeric, a, MAX_PAGES);
    FetchCaseInsensitive(remote, toNumeric, b, MAX_PAGES);
  }

  /** `a` and `b` agree on path `p`: both lack it, or both hold the same entry there. */
  predicate SameAt(a: Files, b: Files, p: string) {
    (p in a <==> p in b) && (p in a ==> a[p] == b[p])
  }

  /** A symbol whose fetch fails or is empty, or whose file cannot be written, leaves its file as it was. */
  lemma {:induction false} SweepUntouched(remote: Remote, toNumeric: Numeric, unwritable: set<string>, files: Files, symbols: seq<string>, s: string)
    requires !Writes(remote, toNumeric, unwritable, s)
    ensures SameAt(SweepFiles(remote, toNumeric, unwritable, files, symbols), files, CachePath(s))
    decreases |symbols|
  {
    if symbols != [] {
      var h := symbols[0];
      if CachePath(h) == CachePath(s) {
        SamePathSameFetch(remote, toNumeric, h, s);
      }
      SweepUntouched(remote, toNumeric, unwritable, Refresh(remote, toNumeric, unwritable, files, h), symbols[1..], s);
    }
  }

  /** Fresh rows for `s` stay in its file for the rest of the sweep. */
  lemma {:induction false} SweepKeepsFresh(remote: Remote, toNumeric: Numeric, unwritable: set<string>, files: Files, symbols: seq<string>, s: string)
    requires Refreshes(remote, toNumeric, s)
    requires CachePath(s) in files && files[CachePath(s)] == Stored(StockData(remote, toNumeric, s, MAX_PAGES).value)
    ensures SameAt(SweepFiles(remote, toNumeric, unwritable, files, symbols), files, CachePath(s))
    decreases |symbols|
  {
    if symbols != [] {
      var h := symbols[0];
      if CachePath(h) == CachePath(s) {
        SamePathSameFetch(remote, toNumeric, h, s);
      }
      SweepKeepsFresh(remote, toNumeric, unwritable, Refresh(remote, toNumeric, unwritable, files, h), symbols[1..], s);
    }
  }

  lemma ListedInTail(symbols: seq<string>, s: string)
    requires exists t | t in symbols :: CachePath(t) == CachePath(s)
    requires symbols != [] && CachePath(symbols[0]) != CachePath(s)
    ensures exists t | t in symbols[1..] :: CachePath(t) == CachePath(s)
  {
    var t :| t in symbols && CachePath(t) == CachePath(s);
    var i :| 0 <= i < |symbols| && symbols[i] == t;
    assert i != 0;
    assert symbols[1..][i - 1] == t;
  }

  /** A listed symbol sharing the file of `s` writes the fresh rows of `s` there. */
  lemma {:induction false} SweepWrites(remote: Remote, toNumeric: Numeric, unwritable: set<string>, files: Files, symbols: seq<string>, s: string)
    requires Writes(remote, toNumeric, unwritable, s)
    requires exists t | t in symbols :: CachePath(t) == CachePath(s)
    ensures var after := SweepFiles(remote, toNumeric, unwritable, files, symbols);
      CachePath(s) in after && after[CachePath(s)] == Stored(StockData(remote, toNumeric, s, MAX_PAGES).value)
    decreases |symbols|
  {
    var h := symbols[0];
    var next := Refresh(remote, toNumeric, unwritable, files, h);
    assert SweepFiles(remote, toNumeric, unwritable, files, symbols) == SweepFiles(remote, toNumeric, unwritable, next, symbols[1..]);
    if CachePath(h) == CachePath(s) {
      SamePathSameFetch(remote, toNumeric, h, s);
      SweepKeepsFresh(remote, toNumeric, unwritable, next, symbols[1..], s);
    } else {
      ListedInTail(symbols, s);
      SweepWrites(remote, toNumeric, unwritable, next, symbols[1..], s);
    }
  }

  /**
   * What the sweep leaves at the cache file of any symbol `s`: the fresh
   * rows when some listed symbol shares that file, the fetch has rows and the
   * file can be written; otherwise exactly what was there before. A failing
   * or empty fetch, or a failing write, therefore never touches a file, and
   * never stops the symbols after it.
   */
  lemma {:induction false} SweepAt(remote: Remote, toNumeric: Numeric, unwritable: set<string>, files: Files, symbols: seq<string>, s: string)
    ensures var after := SweepFiles(remote, toNumeric, unwritable, files, symbols);
      if (exists t | t in symbols :: CachePath(t) == CachePath(s)) && Writes(remote, toNumeric, unwritable, s)
      then CachePath(s) in after && after[CachePath(s)] == Stored(StockData(remote, toNumeric, s, MAX_PAGES).value)
      else SameAt(after, files, CachePath(s))
  {
    if !Writes(remote, toNumeric, unwritable, s) {
      SweepUntouched(remote, toNumeric, unwritable, files, symbols, s);
    } else if exists t | t in symbols :: CachePath(t) == CachePath(s) {
      SweepWrites(remote, toNumeric, unwritable, files, symbols, s);
    } else {
      SweepLeavesOthers(remote, toNumeric, unwritable, files, symbols, CachePath(s));
    }
  }

  /** The sweep writes only the files of listed symbols. */
  lemma {:induction false} SweepLeavesOthers(remote: Remote, toNumeric: Numeric, unwritable: set<string>, files: Files, symbols: seq<string>, p: string)
    requires forall t | t in symbols :: CachePath(t) != p
    ensures SameAt(SweepFiles(remote, toNumeric, unwritable, files, symbols), files, p)
    decreases |symbols|
  {
    if symbols != [] {
      assert symbols[0] in symbols;
      assert forall t | t in symbols[1..] :: t in symbols;
      SweepLeavesOthers(remote, toNumeric, unwritable, Refresh(remote, toNumeric, unwritable, files, symbols[0]), symbols[1..], p);
    }
  }

  /** Processing `a` then `b` is processing `a + b`. */
  lemma {:induction false} SweepAppend(remote: Remote, toNumeric: Numeric, unwritable: set<string>, files: Files, a: seq<string>, b: seq<string>)
    ensures SweepFiles(remote, toNumeric, unwritable, files, a + b) ==
            SweepFiles(remote, toNumeric, unwritable, SweepFiles(remote, toNumeric, unwritable, files, a), b)
    decreases |a|
  {
    if a == [] {
      assert a + b == b;
    } else {
      assert (a + b)[0] == a[0] && (a + b)[1..] == a[1..] + b;
      SweepAppend(remote, toNumeric, unwritable, Refresh(remote, toNumeric, unwritable, files, a[0]), a[1..], b);
    }
  }

  /** A symbol whose fetch fails or comes back empty, or whose write raises, is as if it were not listed. */
  lemma SweepSkipsFailures(remote: Remote, toNumeric: Numeric, unwritable: set<string>, files: Files, a: seq<string>, s: string, b: seq<string>)
    requires !Writes(remote, toNumeric, unwritable, s)
    ensures SweepFiles(remote, toNumeric, unwritable, files, a + [s] + b) == SweepFiles(remote, toNumeric, unwritable, files, a + b)
  {
    SweepAppend(remote, toNumeric, unwritable, files, a + [s], b);
    SweepAppend(remote, toNumeric, unwritable, files, a, [s]);
    SweepAppend(remote, toNumeric, unwritable, files, a, b);
    assert [s][1..] == [];
  }
}
