/**
 * The per-symbol cache files (crawler.py:73-89). The cache directory is a
 * map from a file path to what reading that file yields; pandas' CSV
 * writing and reading is abstracted to storing the rows themselves.
 */
module Cache {
  import opened Wrappers
  import opened Text
  import opened Rows

  const CACHE_DIR := "data_cache"

  /** `os.path.join(dir, name)` on POSIX: an absolute `name` discards `dir`. */
  function Join(dir: string, name: string): (p: string)
    ensures |name| > 0 && name[0] == '/' ==> p == name
    ensures (|name| == 0 || name[0] != '/') && dir != [] && dir[|dir| - 1] != '/' ==> p == dir + "/" + name
  {
    if |name| > 0 && name[0] == '/' then name
    else if dir == [] || dir[|dir| - 1] == '/' then dir + name
    else dir + "/" + name
  }

  /** `cache_path(symbol)`. */
  function CachePath(symbol: string): (p: string)
    ensures |p| >= 4 && p[|p| - 4..] == ".csv"
  {
    var name := Upper(symbol) + ".csv";
    var p := Join(CACHE_DIR, name);
    assert p == name || p == CACHE_DIR + "/" + name;
    assert p[|p| - 4..] == name[|name| - 4..];
    p
  }

  /**
   * The path is the cache directory, the upper-cased symbol and ".csv";
   * a symbol starting with '/' makes `os.path.join` drop the directory.
   */
  lemma CachePathShape(symbol: string)
    ensures (|symbol| == 0 || symbol[0] != '/') ==> CachePath(symbol) == CACHE_DIR + "/" + Upper(symbol) + ".csv"
    ensures |symbol| > 0 && symbol[0] == '/' ==> CachePath(symbol) == Upper(symbol) + ".csv"
  {
    var name := Upper(symbol) + ".csv";
    if |symbol| > 0 {
      assert name[0] == UpperChar(symbol[0]);
    }
    assert CACHE_DIR + "/" + name == CACHE_DIR + "/" + Upper(symbol) + ".csv";
  }

  /** The path depends on the symbol only through its upper-cased form. */
  lemma CachePathCaseInsensitive(symbol: string)
    ensures CachePath(symbol) == CachePath(Upper(symbol))
  {
    UpperIdempotent(symbol);
  }

  /** Two symbols share a cache file exactly when they agree after upper-casing. */
  lemma CachePathInjective(a: string, b: string)
    ensures CachePath(a) == CachePath(b) <==> Upper(a) == Upper(b)
  {
    CachePathShape(a);
    CachePathShape(b);
    var ua, ub := Upper(a) + ".csv", Upper(b) + ".csv";
    if CachePath(a) == CachePath(b) {
      // A path outside the directory starts with '/', one inside with 'd'.
      if (|a| > 0 && a[0] == '/') != (|b| > 0 && b[0] == '/') {
      } else if |a| > 0 && a[0] == '/' {
        assert ua == ub;
        assert Upper(a) == ua[..|ua| - 4] == ub[..|ub| - 4] == Upper(b);
      } else {
        var n := |CACHE_DIR| + 1;
        assert CachePath(a) == (CACHE_DIR + "/") + ua && CachePath(b) == (CACHE_DIR + "/") + ub;
        assert ua == CachePath(a)[n..] == CachePath(b)[n..] == ub;
        assert Upper(a) == ua[..|ua| - 4] == ub[..|ub| - 4] == Upper(b);
      }
    }
  }

  /** What reading one cache file yields: the stored rows, or a read failure. */
  datatype Entry = Stored(rows: seq<Row>) | Unreadable

  /** The cache directory: path to file; a path not in the map has no file. */
  type Files = map<string, Entry>

  /**
   * `load_from_cache(symbol)`: the stored rows sorted by day; empty,
   * without failing, when the file is missing or cannot be read.
   */
  function LoadFrom(files: Files, symbol: string): (r: seq<Row>)
    ensures Sorted(r)
    ensures CachePath(symbol) in files && files[CachePath(symbol)].Stored? ==>
      multiset(r) == multiset(files[CachePath(symbol)].rows)
    ensures !(CachePath(symbol) in files && files[CachePath(symbol)].Stored?) ==> r == []
  {
    var path := CachePath(symbol);
    if path !in files then []
    else
      match files[path]
      case Unreadable => []
      case Stored(rows) => SortByDate(rows)
  }

  /**
   * The cache directory as shared state: `save_to_cache` overwrites one file
   * in place. `unwritable` holds the paths where `to_csv` raises (a missing
   * sub-directory, no permission); the program never changes it.
   */
  class Store {
    var files: Files
    var unwritable: set<string>

    constructor (initial: Files, failing: set<string>)
      ensures files == initial && unwritable == failing
    {
      files := initial;
      unwritable := failing;
    }

    /**
     * `save_to_cache(symbol, rows)`: the whole file at `cache_path(symbol)` is
     * replaced and nothing else changes; `written` is false when the write
     * raises, and then no file changes.
     */
    method Save(symbol: string, rows: seq<Row>) returns (written: bool)
      modifies this
      ensures written <==> CachePath(symbol) !in unwritable
      ensures unwritable == old(unwritable)
      ensures files == if written then old(files)[CachePath(symbol) := Stored(rows)] else old(files)
      ensures forall p | p != CachePath(symbol) :: (p in files <==> p in old(files))
      ensures forall p | p != CachePath(symbol) && p in files :: files[p] == old(files)[p]
    {
      written := CachePath(symbol) !in unwritable;
      if written {
        files := files[CachePath(symbol) := Stored(rows)];
      }
    }
  }

  /**
   * After saving `rows` for `symbol`, loading any symbol with the same
   * upper-cased form gives a date-sorted permutation of `rows`, and loading
   * any other symbol gives what it gave before.
   */
  lemma SaveThenLoad(files: Files, symbol: string, rows: seq<Row>, other: string)
    ensures Upper(other) == Upper(symbol) ==>
      var r := LoadFrom(files[CachePath(symbol) := Stored(rows)], other);
      Sorted(r) && multiset(r) == multiset(rows)
    ensures Upper(other) != Upper(symbol) ==>
      LoadFrom(files[CachePath(symbol) := Stored(rows)], other) == LoadFrom(files, other)
  {
    CachePathInjective(symbol, other);
  }

  /**
   * Round trip: rows with distinct timestamps, such as one row per trading
   * day, come back from the cache exactly as saved, whatever sort the read
   * uses.
   */
  lemma SaveLoadRoundTrip(files: Files, symbol: string, rows: seq<Row>)
    requires StrictlySorted(rows)
    ensures LoadFrom(files[CachePath(symbol) := Stored(rows)], symbol) == rows
  {
    var r := LoadFrom(files[CachePath(symbol) := Stored(rows)], symbol);
    SortedPermutationUnique(rows, r);
  }
}
