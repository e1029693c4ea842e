/**
 * Calendar dates as the dashboard sees them: the `%d/%m/%Y` parse that
 * `pd.to_datetime(..., format="%d/%m/%Y", errors="coerce")` performs on the
 * remote `Ngay` field, the `strftime("%d/%m/%Y")` used for the table, and
 * the order on timestamps that `sort_values` and the range filter use.
 */
module Dates {
  import opened Wrappers

  /** A proleptic Gregorian calendar day. */
  datatype Date = Date(year: int, month: int, day: int)

  /** A pandas Timestamp whose minutes, seconds and fractions are zero. */
  datatype Stamp = Stamp(date: Date, hour: int)

  predicate DateLt(a: Date, b: Date) {
    || a.year < b.year
    || (a.year == b.year && a.month < b.month)
    || (a.year == b.year && a.month == b.month && a.day < b.day)
  }

  predicate DateLe(a: Date, b: Date) {
    a == b || DateLt(a, b)
  }

  /** Timestamps compare by day first, then by hour. */
  predicate StampLt(a: Stamp, b: Stamp) {
    DateLt(a.date, b.date) || (a.date == b.date && a.hour < b.hour)
  }

  predicate StampLe(a: Stamp, b: Stamp) {
    a == b || StampLt(a, b)
  }

  /** `StampLe` is a total order: what `sort_values` and the comparisons in the filter rely on. */
  lemma StampOrder(a: Stamp, b: Stamp, c: Stamp)
    ensures StampLe(a, a)
    ensures StampLe(a, b) || StampLe(b, a)
    ensures StampLe(a, b) && StampLe(b, a) ==> a == b
    ensures StampLe(a, b) && StampLe(b, c) ==> StampLe(a, c)
    ensures StampLt(a, b) <==> !StampLe(b, a)
  {
  }

  /** `pd.to_datetime(d)` of a plain date: midnight of that day. */
  function Midnight(d: Date): (t: Stamp)
    ensures t.date == d && t.hour == 0
  {
    Stamp(d, 0)
  }

  /** `t.replace(hour=h)`. */
  function AtHour(t: Stamp, h: int): (r: Stamp)
    ensures r.date == t.date && r.hour == h
  {
    Stamp(t.date, h)
  }

  predicate IsLeap(year: int) {
    (year % 4 == 0 && year % 100 != 0) || year % 400 == 0
  }

  function DaysInMonth(year: int, month: int): (n: int)
    requires 1 <= month <= 12
    ensures 28 <= n <= 31
    ensures month == 2 ==> (n == 29 <==> IsLeap(year))
  {
    if month == 2 then (if IsLeap(year) then 29 else 28)
    else if month == 4 || month == 6 || month == 9 || month == 11 then 30
    else 31
  }

  /** First and last day a nanosecond pandas Timestamp can hold at midnight. */
  const MIN_DATE := Date(1677, 9, 22)
  const MAX_DATE := Date(2262, 4, 11)

  /** A day the parse can produce: a real calendar day inside the Timestamp range. */
  predicate ValidDate(d: Date) {
    && 1 <= d.month <= 12
    && 1 <= d.day <= DaysInMonth(d.year, d.month)
    && DateLe(MIN_DATE, d) && DateLe(d, MAX_DATE)
  }

  predicate IsDigit(c: char) {
    '0' <= c <= '9'
  }

  predicate AllDigits(s: string) {
    forall i | 0 <= i < |s| :: IsDigit(s[i])
  }

  function DigitValue(c: char): (n: nat)
    requires IsDigit(c)
    ensures n < 10
  {
    c as int - '0' as int
  }

  /** The decimal value of a run of digits. */
  function Number(s: string): nat
    requires AllDigits(s)
    decreases |s|
  {
    if s == [] then 0 else Number(s[..|s| - 1]) * 10 + DigitValue(s[|s| - 1])
  }

  /** Index of the first '/', or |s| when there is none. */
  function FirstSlash(s: string): (i: nat)
    ensures i <= |s|
    ensures i < |s| ==> s[i] == '/'
    ensures forall k | 0 <= k < i :: s[k] != '/'
  {
    if s == [] then 0 else if s[0] == '/' then 0 else 1 + FirstSlash(s[1..])
  }

  /** What strptime's `%d` pattern accepts: one or two digits, or a blank then a digit. */
  predicate DayToken(t: string) {
    || (1 <= |t| <= 2 && AllDigits(t))
    || (|t| == 2 && t[0] == ' ' && IsDigit(t[1]))
  }

  function DayValue(t: string): nat
    requires DayToken(t)
  {
    if t[0] == ' ' then DigitValue(t[1]) else Number(t)
  }

  /** `%m`: one or two digits. */
  predicate MonthToken(t: string) {
    1 <= |t| <= 2 && AllDigits(t)
  }

  /** `%Y`: exactly four digits. */
  predicate YearToken(t: string) {
    |t| == 4 && AllDigits(t)
  }

  /**
   * `%d/%m/%Y` parse of a whole string; `None` is pandas' NaT, which
   * `errors="coerce"` yields for text that does not match, a day that does
   * not exist, or a day outside the Timestamp range.
   */
  function ParseDate(s: string): (r: Option<Date>)
    ensures r.Some? ==> ValidDate(r.value)
  {
    var i := FirstSlash(s);
    if i == |s| then None
    else
      var rest := s[i + 1..];
      var j := FirstSlash(rest);
      if j == |rest| then None
      else
        var dayText, monthText, yearText := s[..i], rest[..j], rest[j + 1..];
        if DayToken(dayText) && MonthToken(monthText) && YearToken(yearText) then
          var d := Date(Number(yearText), Number(monthText), DayValue(dayText));
          if ValidDate(d) then Some(d) else None
        else None
  }

  function Digit(n: int): (c: char)
    requires 0 <= n < 10
    ensures IsDigit(c) && DigitValue(c) == n
  {
    ('0' as int + n) as char
  }

  /** Two zero-padded digits (`%d`, `%m` of strftime). */
  function Pad2(n: int): (s: string)
    ensures |s| == 2 && AllDigits(s)
  {
    var m := n % 100;
    [Digit(m / 10), Digit(m % 10)]
  }

  /** Four zero-padded digits (`%Y` of strftime for the years a Timestamp holds). */
  function Pad4(n: int): (s: string)
    ensures |s| == 4 && AllDigits(s)
  {
    var m := n % 10000;
    Pad2(m / 100) + Pad2(m % 100)
  }

  /** `strftime("%d/%m/%Y")`. */
  function FormatDate(d: Date): (s: string)
    ensures |s| == 10 && s[2] == '/' && s[5] == '/'
  {
    Pad2(d.day) + "/" + Pad2(d.month) + "/" + Pad4(d.year)
  }

  lemma {:induction false} Number1(s: string)
    requires |s| == 1 && AllDigits(s)
    ensures Number(s) == DigitValue(s[0])
  {
    assert s[..0] == [];
  }

  lemma {:induction false} Number2(s: string)
    requires |s| == 2 && AllDigits(s)
    ensures Number(s) == 10 * DigitValue(s[0]) + DigitValue(s[1])
  {
    var p := s[..1];
    assert p[0] == s[0];
    Number1(p);
  }

  lemma {:induction false} Number3(s: string)
    requires |s| == 3 && AllDigits(s)
    ensures Number(s) == 100 * DigitValue(s[0]) + 10 * DigitValue(s[1]) + DigitValue(s[2])
  {
    var p := s[..2];
    assert p[0] == s[0] && p[1] == s[1];
    Number2(p);
  }

  lemma {:induction false} Number4(s: string)
    requires |s| == 4 && AllDigits(s)
    ensures Number(s) ==
      1000 * DigitValue(s[0]) + 100 * DigitValue(s[1]) + 10 * DigitValue(s[2]) + DigitValue(s[3])
  {
    var p := s[..3];
    assert p[0] == s[0] && p[1] == s[1] && p[2] == s[2];
    Number3(p);
  }

  lemma {:induction false} Pad2Value(n: int)
    requires 0 <= n < 100
    ensures Number(Pad2(n)) == n
  {
    Number2(Pad2(n));
  }

  /** Four digits read as two two-digit halves. */
  lemma {:induction false} Number4Halves(s: string)
    requires |s| == 4 && AllDigits(s)
    ensures Number(s) == 100 * Number(s[..2]) + Number(s[2..])
  {
    var hi, lo := s[..2], s[2..];
    assert hi[0] == s[0] && hi[1] == s[1] && lo[0] == s[2] && lo[1] == s[3];
    Number4(s);
    Number2(hi);
    Number2(lo);
  }

  lemma {:induction false} Pad4Value(n: int)
    requires 0 <= n < 10000
    ensures Number(Pad4(n)) == n
  {
    var hi, lo := n / 100, n % 100;
    assert n % 10000 == n;
    var s := Pad4(n);
    assert s[..2] == Pad2(hi) && s[2..] == Pad2(lo);
    Number4Halves(s);
    Pad2Value(hi);
    Pad2Value(lo);
  }

  /**
   * The table's date text parses back to the same day: `strftime("%d/%m/%Y")`
   * and the fetch's `%d/%m/%Y` parse are inverse on every day a Timestamp holds.
   */
  lemma {:induction false} FormatThenParse(d: Date)
    requires ValidDate(d)
    ensures ParseDate(FormatDate(d)) == Some(d)
  {
    var s := FormatDate(d);
    var dd, mm, yy := Pad2(d.day), Pad2(d.month), Pad4(d.year);
    assert s == dd + "/" + (mm + "/" + yy);
    assert FirstSlash(s) == 2;
    var rest := s[3..];
    assert rest == mm + "/" + yy;
    assert FirstSlash(rest) == 2;
    assert s[..2] == dd && rest[..2] == mm && rest[3..] == yy;
    Pad2Value(d.day);
    Pad2Value(d.month);
    Pad4Value(d.year);
    assert dd[0] != ' ';
  }

  /** How `ParseDate` reads text made of three slash-free fields. */
  lemma {:induction false} ParseFields(dd: string, mm: string, yy: string)
    requires '/' !in dd && '/' !in mm && '/' !in yy
    ensures ParseDate(dd + "/" + mm + "/" + yy) ==
      if DayToken(dd) && MonthToken(mm) && YearToken(yy) then
        var d := Date(Number(yy), Number(mm), DayValue(dd));
        if ValidDate(d) then Some(d) else None
      else None
  {
    var s := dd + "/" + mm + "/" + yy;
    assert s == dd + "/" + (mm + "/" + yy);
    assert s[|dd|] == '/';
    assert FirstSlash(s) == |dd|;
    var rest := s[|dd| + 1..];
    assert rest == mm + "/" + yy;
    assert rest[|mm|] == '/';
    assert FirstSlash(rest) == |mm|;
    assert s[..|dd|] == dd && rest[..|mm|] == mm && rest[|mm| + 1..] == yy;
  }

  /** A one-digit day and month are accepted, as strptime's patterns allow (`7/3/2020`). */
  lemma {:induction false} ParseUnpadded(day: char, month: char, yy: string)
    requires IsDigit(day) && IsDigit(month) && YearToken(yy)
    ensures ParseDate([day] + "/" + [month] + "/" + yy) ==
      var d := Date(Number(yy), DigitValue(month), DigitValue(day));
      if ValidDate(d) then Some(d) else None
  {
    Number1([day]);
    Number1([month]);
    ParseFields([day], [month], yy);
  }

  /** 29 February parses in a leap year and is NaT in a common one. */
  lemma {:induction false} ParseLeapDay(yy: string)
    requires YearToken(yy) && MIN_DATE.year <= Number(yy) <= MAX_DATE.year
    ensures ParseDate("29/02/" + yy) ==
      if IsLeap(Number(yy)) then Some(Date(Number(yy), 2, 29)) else None
  {
    var dd, mm, y := "29", "02", Number(yy);
    assert "29/02/" + yy == dd + "/" + mm + "/" + yy;
    assert Number(dd) == 29 && Number(mm) == 2 by { Number2(dd); Number2(mm); }
    if y == MIN_DATE.year || y == MAX_DATE.year {
      assert !IsLeap(y);
    } else {
      assert DateLe(MIN_DATE, Date(y, 2, 29)) && DateLe(Date(y, 2, 29), MAX_DATE);
    }
    assert ValidDate(Date(y, 2, 29)) <==> IsLeap(y);
    ParseFields(dd, mm, yy);
  }

  /**
   * Text without a slash, such as ISO `2020-03-07`, is NaT; pandas reads the
   * words "now" and "today" as the clock instead, which the model leaves out.
   */
  lemma ParseNeedsSlashes(s: string)
    requires s != "now" && s != "today"
    requires forall k | 0 <= k < |s| :: s[k] != '/'
    ensures ParseDate(s) == None
  {
  }

  /** A year outside the Timestamp range is NaT, whatever the day and month. */
  lemma {:induction false} ParseRejectsOutOfRange(dd: string, mm: string, yy: string)
    requires '/' !in dd && '/' !in mm && YearToken(yy)
    requires Number(yy) < MIN_DATE.year || Number(yy) > MAX_DATE.year
    ensures ParseDate(dd + "/" + mm + "/" + yy) == None
  {
    assert '/' !in yy;
    ParseFields(dd, mm, yy);
  }
}
