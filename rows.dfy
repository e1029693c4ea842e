/**
 * The rows of one symbol: the raw records the pagination loop collects and
 * the normalised Price Records the fetch returns (crawler.py:47-69).
 */
module Rows {
  import opened Wrappers
  import opened Dates

  /** `item.get(key)` of one JSON field: None when the key is absent or null, otherwise the value as text. */
  type Cell = Option<string>

  /**
   * `pd.to_numeric(..., errors="coerce")` of one non-null value, left abstract:
   * `None` is the NaN a coercion failure produces. `real` stands for float64.
   */
  type Numeric = string -> Option<real>

  /**
   * One dict appended to `all_data`: the item's `Ngay`, `GiaMoCua`,
   * `GiaDongCua`, `GiaCaoNhat`, `GiaThapNhat` and `KhoiLuongKhopLenh` fields,
   * stored under the columns "Ngày", "Mở cửa", "Đóng cửa", "Cao nhất",
   * "Thấp nhất" and "Khối lượng".
   */
  datatype RawRow = RawRow(day: Cell, open: Cell, close: Cell, high: Cell, low: Cell, volume: Cell)

  /** A Price Record: the parsed day stamped at the close hour, and five nullable numbers. */
  datatype Row = Row(time: Stamp, open: Option<real>, close: Option<real>,
                     high: Option<real>, low: Option<real>, volume: Option<real>)

  /** The hour every parsed day is stamped with (`x.replace(hour=17)`). */
  const CLOSE_HOUR := 17

  function Coerce(toNumeric: Numeric, c: Cell): (r: Option<real>)
    ensures c.None? ==> r.None?
    ensures c.Some? ==> r == toNumeric(c.value)
  {
    match c
    case None => None
    case Some(text) => toNumeric(text)
  }

  /** The "Ngày" column after `pd.to_datetime` and `replace(hour=17)`; `None` is NaT. */
  function ParseStamp(c: Cell): (r: Option<Stamp>)
    ensures r.Some? <==> c.Some? && ParseDate(c.value).Some?
    ensures r.Some? ==> ParseDate(c.value) == Some(r.value.date)
    ensures r.Some? ==> r.value.hour == CLOSE_HOUR && ValidDate(r.value.date)
  {
    match c
    case None => None
    case Some(text) =>
      match ParseDate(text)
      case None => None
      case Some(d) => Some(AtHour(Midnight(d), CLOSE_HOUR))
  }

  /** One raw row after normalisation, or `None` when `dropna(subset=["Ngày"])` removes it. */
  function Normalised(toNumeric: Numeric, x: RawRow): (r: Option<Row>)
    ensures r.Some? <==> ParseStamp(x.day).Some?
  {
    match ParseStamp(x.day)
    case None => None
    case Some(t) =>
      Some(Row(t, Coerce(toNumeric, x.open), Coerce(toNumeric, x.close), Coerce(toNumeric, x.high),
               Coerce(toNumeric, x.low), Coerce(toNumeric, x.volume)))
  }

  /** How many raw rows carry a day that does not parse. */
  function BadDates(raw: seq<RawRow>): nat {
    if raw == [] then 0
    else (if ParseStamp(raw[0].day).None? then 1 else 0) + BadDates(raw[1..])
  }

  /** One raw row as the rows it contributes after `dropna`: none or one. */
  function KeepOne(toNumeric: Numeric, x: RawRow): (r: seq<Row>)
    ensures |r| <= 1
    ensures |r| == 1 <==> ParseStamp(x.day).Some?
  {
    match Normalised(toNumeric, x)
    case None => []
    case Some(row) => [row]
  }

  /** The rows `dropna(subset=["Ngày"])` keeps, in their original order, normalised. */
  function Keep(toNumeric: Numeric, raw: seq<RawRow>): (kept: seq<Row>)
    ensures |kept| + BadDates(raw) == |raw|
    ensures forall i | 0 <= i < |kept| :: kept[i].time.hour == CLOSE_HOUR && ValidDate(kept[i].time.date)
  {
    if raw == [] then [] else KeepOne(toNumeric, raw[0]) + Keep(toNumeric, raw[1..])
  }

  /** A row is kept exactly when some raw row with a parseable day normalises to it. */
  lemma {:induction false} KeepMembers(toNumeric: Numeric, raw: seq<RawRow>, row: Row)
    ensures row in Keep(toNumeric, raw) <==> exists i | 0 <= i < |raw| :: Normalised(toNumeric, raw[i]) == Some(row)
  {
    if raw != [] {
      KeepMembers(toNumeric, raw[1..], row);
      if exists i | 0 <= i < |raw| :: Normalised(toNumeric, raw[i]) == Some(row) {
        var i :| 0 <= i < |raw| && Normalised(toNumeric, raw[i]) == Some(row);
        if i > 0 {
          assert raw[1..][i - 1] == raw[i];
        }
      }
      if exists i | 0 <= i < |raw| - 1 :: Normalised(toNumeric, raw[1..][i]) == Some(row) {
        var i :| 0 <= i < |raw| - 1 && Normalised(toNumeric, raw[1..][i]) == Some(row);
        assert raw[i + 1] == raw[1..][i];
      }
    }
  }

  /** Dropping works row by row, so it keeps the order of the rows it keeps. */
  lemma {:induction false} KeepAppend(toNumeric: Numeric, a: seq<RawRow>, b: seq<RawRow>)
    ensures Keep(toNumeric, a + b) == Keep(toNumeric, a) + Keep(toNumeric, b)
  {
    if a != [] {
      assert (a + b)[0] == a[0];
      assert (a + b)[1..] == a[1..] + b;
      KeepAppend(toNumeric, a[1..], b);
    } else {
      assert a + b == b;
    }
  }

  /** Non-decreasing by timestamp. */
  predicate Sorted(rows: seq<Row>) {
    forall i, j | 0 <= i < j < |rows| :: StampLe(rows[i].time, rows[j].time)
  }

  /** Increasing by timestamp: no two rows share a day and hour. */
  predicate StrictlySorted(rows: seq<Row>) {
    forall i, j | 0 <= i < j < |rows| :: StampLt(rows[i].time, rows[j].time)
  }

  /** Puts `x` before the first row it does not come after. */
  function Insert(x: Row, rows: seq<Row>): (r: seq<Row>)
    ensures r != [] && (r[0] == x || (rows != [] && r[0] == rows[0]))
  {
    if rows == [] || StampLe(x.time, rows[0].time) then [x] + rows
    else [rows[0]] + Insert(x, rows[1..])
  }

  lemma {:induction false} InsertPermutes(x: Row, rows: seq<Row>)
    ensures multiset(Insert(x, rows)) == multiset(rows) + multiset{x}
  {
    if rows != [] && !StampLe(x.time, rows[0].time) {
      InsertPermutes(x, rows[1..]);
      assert rows == [rows[0]] + rows[1..];
    }
  }

  /** A sorted row sequence prefixed with a row no later than its head is sorted. */
  lemma {:induction false} ConsSorted(x: Row, rows: seq<Row>)
    requires Sorted(rows)
    requires rows != [] ==> StampLe(x.time, rows[0].time)
    ensures Sorted([x] + rows)
  {
    var r := [x] + rows;
    forall i, j | 0 <= i < j < |r|
      ensures StampLe(r[i].time, r[j].time)
    {
      if i == 0 {
        assert r[j] == rows[j - 1];
        if j > 1 {
          StampOrder(x.time, rows[0].time, rows[j - 1].time);
        }
      } else {
        assert r[i] == rows[i - 1] && r[j] == rows[j - 1];
      }
    }
  }

  lemma {:induction false} InsertSorted(x: Row, rows: seq<Row>)
    requires Sorted(rows)
    ensures Sorted(Insert(x, rows))
  {
    if rows == [] || StampLe(x.time, rows[0].time) {
      ConsSorted(x, rows);
    } else {
      var tail := rows[1..];
      assert Sorted(tail);
      InsertSorted(x, tail);
      var rest := Insert(x, tail);
      assert StampLe(rows[0].time, rest[0].time) by {
        StampOrder(x.time, rows[0].time, x.time);
        if rest[0] != x {
          assert rest[0] == rows[1];
        }
      }
      ConsSorted(rows[0], rest);
    }
  }

  /**
   * `sort_values("Ngày")`: a sorted permutation. pandas sorts with an
   * unstable quicksort; this insertion sort is one of the orders it may
   * produce, and nothing about the order of rows with equal timestamps is
   * promised here.
   */
  function SortByDate(rows: seq<Row>): (r: seq<Row>)
    ensures Sorted(r)
    ensures multiset(r) == multiset(rows)
  {
    if rows == [] then []
    else
      var rest := SortByDate(rows[1..]);
      InsertSorted(rows[0], rest);
      InsertPermutes(rows[0], rest);
      assert rows == [rows[0]] + rows[1..];
      Insert(rows[0], rest)
  }

  /** crawler.py:58-69: coerce, drop the rows without a day, sort by day. */
  function Normalise(toNumeric: Numeric, raw: seq<RawRow>): (r: seq<Row>)
    ensures Sorted(r) && multiset(r) == multiset(Keep(toNumeric, raw))
  {
    SortByDate(Keep(toNumeric, raw))
  }

  /**
   * What the fetch promises about its rows: sorted by timestamp, a
   * permutation of the rows with a parseable day, exactly the raw count
   * less the rows with a bad day, every row stamped at 17:00 on a parsed
   * day, and every row the normalisation of some raw row (nothing is
   * defaulted; a numeric coercion failure leaves the row in).
   */
  lemma NormaliseSpec(toNumeric: Numeric, raw: seq<RawRow>)
    ensures Sorted(Normalise(toNumeric, raw))
    ensures multiset(Normalise(toNumeric, raw)) == multiset(Keep(toNumeric, raw))
    ensures |Normalise(toNumeric, raw)| + BadDates(raw) == |raw|
    ensures forall row | row in Normalise(toNumeric, raw) ::
      row.time.hour == CLOSE_HOUR && ValidDate(row.time.date) &&
      exists i | 0 <= i < |raw| :: Normalised(toNumeric, raw[i]) == Some(row)
  {
    var kept := Keep(toNumeric, raw);
    var r := Normalise(toNumeric, raw);
    assert |multiset(r)| == |multiset(kept)|;
    forall row | row in r
      ensures row.time.hour == CLOSE_HOUR && ValidDate(row.time.date)
      ensures exists i | 0 <= i < |raw| :: Normalised(toNumeric, raw[i]) == Some(row)
    {
      assert row in multiset(kept);
      KeepMembers(toNumeric, raw, row);
    }
  }

  /**
   * Re-sorting rows already in increasing timestamp order, as the cache read
   * does, leaves them as they are, whatever sort is used. Rows sharing a
   * timestamp may be swapped by pandas' unstable sort, so nothing is said of them.
   */
  lemma SortSortedIsIdentity(rows: seq<Row>)
    requires StrictlySorted(rows)
    ensures SortByDate(rows) == rows
  {
    SortedPermutationUnique(rows, SortByDate(rows));
  }

  /** The smallest of a strictly sorted sequence heads every sorted permutation of it. */
  lemma SameHead(a: seq<Row>, b: seq<Row>)
    requires StrictlySorted(a) && Sorted(b)
    requires multiset(a) == multiset(b) && a != [] && b != []
    ensures a[0] == b[0]
  {
    assert b[0] in multiset(a);
    var j :| 0 <= j < |a| && a[j] == b[0];
    assert a[0] in multiset(b);
    var k :| 0 <= k < |b| && b[k] == a[0];
    assert StampLe(b[0].time, a[0].time) by {
      if k > 0 { assert StampLe(b[0].time, b[k].time); }
    }
    assert j == 0;
  }

  lemma MultisetTail(a: seq<Row>)
    requires a != []
    ensures multiset(a[1..]) == multiset(a) - multiset{a[0]}
  {
    assert a == [a[0]] + a[1..];
  }

  /**
   * Rows with distinct timestamps have one sorted order only: any sort of a
   * permutation of them, stable or not, gives them back unchanged.
   */
  lemma {:induction false} SortedPermutationUnique(a: seq<Row>, b: seq<Row>)
    requires StrictlySorted(a) && Sorted(b)
    requires multiset(a) == multiset(b)
    ensures a == b
  {
    assert |a| == |multiset(a)| == |multiset(b)| == |b|;
    if a != [] {
      SameHead(a, b);
      MultisetTail(a);
      MultisetTail(b);
      assert StrictlySorted(a[1..]) && Sorted(b[1..]);
      SortedPermutationUnique(a[1..], b[1..]);
    }
  }
}
