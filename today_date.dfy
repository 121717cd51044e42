/** The folder date used for uploaded images (api/helper-methods/getTodayDate.js): the day of the
    month, the English month name and the year, joined by '-'. The clock is not modelled: the three
    date components are parameters. */
module TodayDate {
  import opened Common

  const Months: seq<string> := ["January", "February", "March", "April", "May", "June", "July",
                                "August", "September", "October", "November", "December"]

  function DigitChar(d: nat): char
    requires d < 10
  {
    (('0' as int) + d) as char
  }

  predicate IsDigit(c: char) { '0' <= c <= '9' }

  function DigitValue(c: char): nat
    requires IsDigit(c)
  {
    (c as int) - ('0' as int)
  }

  /** The decimal text JavaScript gives a non-negative integer: no sign, no padding. */
  function NatToString(n: nat): (s: string)
    ensures |s| > 0
    ensures forall i :: 0 <= i < |s| ==> IsDigit(s[i])
    decreases n
  {
    if n < 10 then [DigitChar(n)] else NatToString(n / 10) + [DigitChar(n % 10)]
  }

  /** The decimal text of any integer: a leading '-' for a negative one. */
  function IntToString(n: int): string
  {
    if n < 0 then "-" + NatToString(-n) else NatToString(n)
  }

  /** `getTodayDate`: `${day}-${months[month]}-${year}` with a 0-based month. */
  function FormatDate(day: nat, month: nat, year: int): string
    requires month < 12
  {
    IntToString(day) + "-" + Months[month] + "-" + IntToString(year)
  }

  /** The value of a string of decimal digits. */
  function ParseNat(s: string): nat
    requires forall i :: 0 <= i < |s| ==> IsDigit(s[i])
    decreases |s|
  {
    if s == [] then 0 else ParseNat(s[..|s| - 1]) * 10 + DigitValue(s[|s| - 1])
  }

  /** Reading the decimal text back gives the number. */
  lemma {:induction false} ParseNatToString(n: nat)
    ensures ParseNat(NatToString(n)) == n
    decreases n
  {
    var s := NatToString(n);
    if n >= 10 {
      ParseNatToString(n / 10);
      assert s[..|s| - 1] == NatToString(n / 10);
    }
  }

  /** The pieces of `s` between the '-' characters (JavaScript's `s.split("-")`). */
  function Split(s: string): (parts: seq<string>)
    ensures |parts| > 0
    decreases |s|
  {
    if s == [] then [""]
    else
      var rest := Split(s[1..]);
      if s[0] == '-' then [""] + rest else [[s[0]] + rest[0]] + rest[1..]
  }

  /** The number of '-' characters in `s`. */
  function Dashes(s: string): nat
    decreases |s|
  {
    if s == [] then 0 else (if s[0] == '-' then 1 else 0) + Dashes(s[1..])
  }

  predicate DashFree(s: string) { forall i :: 0 <= i < |s| ==> s[i] != '-' }

  lemma {:induction false} SplitDashFree(a: string)
    requires DashFree(a)
    ensures Split(a) == [a]
    decreases |a|
  {
    if a != [] {
      SplitDashFree(a[1..]);
      assert [a[0]] + a[1..] == a;
    }
  }

  lemma {:induction false} SplitJoin(a: string, b: string)
    requires DashFree(a)
    ensures Split(a + "-" + b) == [a] + Split(b)
    decreases |a|
  {
    if a == [] {
      assert a + "-" + b == ['-'] + b;
      assert (['-'] + b)[1..] == b;
    } else {
      var s := a + "-" + b;
      assert s[1..] == a[1..] + "-" + b;
      SplitJoin(a[1..], b);
      assert [a[0]] + a[1..] == a;
    }
  }

  lemma {:induction false} DashesJoin(a: string, b: string)
    ensures Dashes(a + b) == Dashes(a) + Dashes(b)
    decreases |a|
  {
    if a == [] {
      assert a + b == b;
    } else {
      assert (a + b)[1..] == a[1..] + b;
      DashesJoin(a[1..], b);
    }
  }

  lemma {:induction false} DashesDashFree(a: string)
    requires DashFree(a)
    ensures Dashes(a) == 0
    decreases |a|
  {
    if a != [] {
      DashesDashFree(a[1..]);
    }
  }

  lemma MonthsDashFree(month: nat)
    requires month < 12
    ensures DashFree(Months[month])
  {
  }

  /** The position of `name` in the month table, if it is there. */
  function MonthIndex(name: string): (r: Option<nat>)
    ensures r.Some? ==> r.value < 12 && Months[r.value] == name
  {
    if name == "January" then Some(0) else if name == "February" then Some(1)
    else if name == "March" then Some(2) else if name == "April" then Some(3)
    else if name == "May" then Some(4) else if name == "June" then Some(5)
    else if name == "July" then Some(6) else if name == "August" then Some(7)
    else if name == "September" then Some(8) else if name == "October" then Some(9)
    else if name == "November" then Some(10) else if name == "December" then Some(11)
    else None
  }

  /** Reads a date folder name back into (day, month, year), for a non-negative year. */
  function ParseDate(s: string): Option<(nat, nat, nat)>
  {
    var parts := Split(s);
    if |parts| == 3 && (forall i :: 0 <= i < |parts[0]| ==> IsDigit(parts[0][i]))
       && (forall i :: 0 <= i < |parts[2]| ==> IsDigit(parts[2][i]))
       && MonthIndex(parts[1]).Some?
    then Some((ParseNat(parts[0]), MonthIndex(parts[1]).value, ParseNat(parts[2])))
    else None
  }

  lemma MonthIndexOf(month: nat)
    requires month < 12
    ensures MonthIndex(Months[month]) == Some(month)
  {
    if month < 6 {
      assert month == 0 || month == 1 || month == 2 || month == 3 || month == 4 || month == 5;
    } else {
      assert month == 6 || month == 7 || month == 8 || month == 9 || month == 10 || month == 11;
    }
  }

  /** For a non-negative year the folder name splits on '-' into exactly the day's digits, the
      month's name from the table, and the year's digits. */
  lemma {:induction false} FormatDateSegments(day: nat, month: nat, year: int)
    requires month < 12 && year >= 0
    ensures Split(FormatDate(day, month, year)) == [NatToString(day), Months[month], NatToString(year)]
  {
    var d, m, y := NatToString(day), Months[month], NatToString(year);
    assert DashFree(d) && DashFree(y);
    MonthsDashFree(month);
    assert FormatDate(day, month, year) == d + "-" + (m + "-" + y);
    SplitJoin(d, m + "-" + y);
    SplitJoin(m, y);
    SplitDashFree(y);
  }

  /** Joining two dash-free pieces and a third by '-' adds two dashes to the third's. */
  lemma DashesJoined(d: string, m: string, y: string)
    requires DashFree(d) && DashFree(m)
    ensures Dashes(d + "-" + m + "-" + y) == 2 + Dashes(y)
  {
    assert d + "-" + m + "-" + y == d + ("-" + (m + ("-" + y)));
    DashesJoin(d, "-" + (m + ("-" + y)));
    DashesJoin("-", m + ("-" + y));
    DashesJoin(m, "-" + y);
    DashesJoin("-", y);
    DashesDashFree(d);
    DashesDashFree(m);
  }

  /** For a non-negative year the folder name holds exactly two '-'. */
  lemma FormatDateDashes(day: nat, month: nat, year: int)
    requires month < 12 && year >= 0
    ensures Dashes(FormatDate(day, month, year)) == 2
  {
    var d, y := NatToString(day), NatToString(year);
    MonthsDashFree(month);
    assert DashFree(d) && DashFree(y);
    DashesJoined(d, Months[month], y);
    DashesDashFree(y);
  }

  /** For a non-negative year the folder name reads back to the same day, month and year. */
  lemma {:induction false} FormatDateRoundTrip(day: nat, month: nat, year: int)
    requires month < 12 && year >= 0
    ensures ParseDate(FormatDate(day, month, year)) == Some((day, month, year as nat))
  {
    FormatDateSegments(day, month, year);
    ParseNatToString(day);
    ParseNatToString(year);
    MonthIndexOf(month);
  }

  /** A negative year adds its sign as a third '-', so the name no longer splits into three pieces. */
  lemma NegativeYearDashes(day: nat, month: nat, year: int)
    requires month < 12 && year < 0
    ensures Dashes(FormatDate(day, month, year)) == 3
  {
    var d, y := NatToString(day), NatToString(-year);
    MonthsDashFree(month);
    assert DashFree(d) && DashFree(y);
    DashesJoined(d, Months[month], "-" + y);
    DashesJoin("-", y);
    DashesDashFree(y);
  }
}
