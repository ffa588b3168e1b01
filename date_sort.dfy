/**
 * The ordering of `recentItems`: a stable sort by a time key, newest first,
 * as `Array.prototype.sort` does with the comparator `(a, b) => key(b) - key(a)`,
 * and the key `new Date(addedAt).getTime()` stands for.
 */
module DateSort {
  import opened Wrappers
  import opened Media
  import opened Seqs
  import opened Decimal

  /** A day of the proleptic Gregorian calendar, as year, month and day of month. */
  datatype Date = Date(year: nat, month: nat, day: nat)

  predicate IsLeapYear(y: nat)
  {
    y % 4 == 0 && (y % 100 != 0 || y % 400 == 0)
  }

  function DaysInMonth(y: nat, m: nat): nat
    requires 1 <= m <= 12
  {
    if m == 2 then (if IsLeapYear(y) then 29 else 28)
    else if m == 4 || m == 6 || m == 9 || m == 11 then 30
    else 31
  }

  /** The month exists and has the day. */
  predicate ValidDate(d: Date)
  {
    1 <= d.month <= 12 && 1 <= d.day <= DaysInMonth(d.year, d.month)
  }

  /**
   * The date a `yyyy-mm-dd` string names: four year digits, a dash, two month
   * digits, a dash, two day digits, and a day the month actually has.
   */
  function ParseDate(s: string): (r: Option<Date>)
    ensures r.Some? ==> |s| == 10 && s[4] == '-' && s[7] == '-' && ValidDate(r.value)
  {
    if |s| == 10 && s[4] == '-' && s[7] == '-'
       && AllDigits(s[..4]) && AllDigits(s[5..7]) && AllDigits(s[8..])
    then
      var d := Date(DigitsValue(s[..4]), DigitsValue(s[5..7]), DigitsValue(s[8..]));
      if 1 <= d.month <= 12 && 1 <= d.day <= DaysInMonth(d.year, d.month) then Some(d) else None
    else None
  }

  /** A date written as the integer `yyyymmdd`. */
  function Key(d: Date): int
  {
    d.year * 10000 + d.month * 100 + d.day
  }

  /**
   * The key standing for `new Date(s).getTime()`: the date's `yyyymmdd`
   * integer, for strings that name a calendar day.
   */
  function DateKey(s: string): (r: Option<int>)
    ensures r.Some? ==> |s| == 10 && s[4] == '-' && s[7] == '-'
    ensures r.Some? <==> ParseDate(s).Some?
  {
    match ParseDate(s)
    case Some(d) => Some(Key(d))
    case None => None
  }

  // ---------------------------------------------------------------------------
  // Counting days, to tie the key to the instant a date string denotes

  function DaysInYear(y: nat): nat
  {
    if IsLeapYear(y) then 366 else 365
  }

  /** Days from the first of January of year 0 to the first of January of `y`. */
  function DaysBeforeYear(y: nat): nat
  {
    if y == 0 then 0 else DaysBeforeYear(y - 1) + DaysInYear(y - 1)
  }

  /** Days from the first of January of `y` to the first of month `m`; month 13 stands for the next year. */
  function DaysBeforeMonth(y: nat, m: nat): nat
    requires 1 <= m <= 13
  {
    if m == 1 then 0 else DaysBeforeMonth(y, m - 1) + DaysInMonth(y, m - 1)
  }

  /** The number of the day since the first of January of year 0; midnight UTC of that day is the parsed instant. */
  function DayNumber(d: Date): nat
    requires ValidDate(d)
  {
    DaysBeforeYear(d.year) + DaysBeforeMonth(d.year, d.month) + d.day - 1
  }

  /** The twelve months make up the year. */
  lemma MonthsFillYear(y: nat)
    ensures DaysBeforeMonth(y, 13) == DaysInYear(y)
  {
    var feb := DaysInMonth(y, 2);
    assert DaysBeforeMonth(y, 2) == 31;
    assert DaysBeforeMonth(y, 3) == 31 + feb;
    assert DaysBeforeMonth(y, 4) == 31 + feb + 31;
    assert DaysBeforeMonth(y, 5) == 31 + feb + 31 + 30;
    assert DaysBeforeMonth(y, 6) == 31 + feb + 31 + 30 + 31;
    assert DaysBeforeMonth(y, 7) == 31 + feb + 31 + 30 + 31 + 30;
    assert DaysBeforeMonth(y, 8) == 31 + feb + 31 + 30 + 31 + 30 + 31;
    assert DaysBeforeMonth(y, 9) == 31 + feb + 31 + 30 + 31 + 30 + 31 + 31;
    assert DaysBeforeMonth(y, 10) == 31 + feb + 31 + 30 + 31 + 30 + 31 + 31 + 30;
    assert DaysBeforeMonth(y, 11) == 31 + feb + 31 + 30 + 31 + 30 + 31 + 31 + 30 + 31;
    assert DaysBeforeMonth(y, 12) == 31 + feb + 31 + 30 + 31 + 30 + 31 + 31 + 30 + 31 + 30;
    assert DaysBeforeMonth(y, 13) == 31 + feb + 31 + 30 + 31 + 30 + 31 + 31 + 30 + 31 + 30 + 31;
  }

  lemma {:induction false} DaysBeforeMonthMonotone(y: nat, m1: nat, m2: nat)
    requires 1 <= m1 <= m2 <= 13
    ensures DaysBeforeMonth(y, m1) <= DaysBeforeMonth(y, m2)
    decreases m2 - m1
  {
    if m1 < m2 {
      DaysBeforeMonthMonotone(y, m1, m2 - 1);
    }
  }

  lemma {:induction false} DaysBeforeYearMonotone(y1: nat, y2: nat)
    requires y1 < y2
    ensures DaysBeforeYear(y1) + DaysInYear(y1) <= DaysBeforeYear(y2)
    decreases y2 - y1
  {
    if y1 + 1 < y2 {
      DaysBeforeYearMonotone(y1, y2 - 1);
    }
  }

  /** A valid date falls inside its year. */
  lemma DayInsideYear(d: Date)
    requires ValidDate(d)
    ensures DaysBeforeMonth(d.year, d.month) + d.day - 1 < DaysInYear(d.year)
  {
    DaysBeforeMonthMonotone(d.year, d.month + 1, 13);
    MonthsFillYear(d.year);
  }

  /** Dates in calendar order, by year, then month, then day. */
  predicate Before(a: Date, b: Date)
  {
    a.year < b.year || (a.year == b.year && (a.month < b.month || (a.month == b.month && a.day < b.day)))
  }

  /** An earlier date has a smaller day number. */
  lemma BeforeIsEarlierDay(a: Date, b: Date)
    requires ValidDate(a) && ValidDate(b) && Before(a, b)
    ensures DayNumber(a) < DayNumber(b)
  {
    if a.year < b.year {
      DayInsideYear(a);
      DaysBeforeYearMonotone(a.year, b.year);
    } else if a.month < b.month {
      DaysBeforeMonthMonotone(a.year, a.month + 1, b.month);
    }
  }

  /** The `yyyymmdd` key orders valid dates as their day numbers do, and tells them apart. */
  lemma KeyOrdersDays(a: Date, b: Date)
    requires ValidDate(a) && ValidDate(b)
    ensures Key(a) < Key(b) <==> DayNumber(a) < DayNumber(b)
    ensures Key(a) == Key(b) <==> a == b
  {
    DateKeyChronological(a.year, a.month, a.day, b.year, b.month, b.day);
    DateKeyChronological(b.year, b.month, b.day, a.year, a.month, a.day);
    if Before(a, b) {
      BeforeIsEarlierDay(a, b);
    } else if Before(b, a) {
      BeforeIsEarlierDay(b, a);
    }
  }

  /**
   * For two strings that both get a key, the keys compare as the days the
   * strings name: the comparator `key(b) - key(a)` has the sign of
   * `getTime(b) - getTime(a)`.
   */
  lemma DateKeyOrdersDays(s: string, t: string)
    requires DateKey(s).Some? && DateKey(t).Some?
    ensures DateKey(s).value < DateKey(t).value <==> DayNumber(ParseDate(s).value) < DayNumber(ParseDate(t).value)
    ensures DateKey(s).value == DateKey(t).value <==> ParseDate(s).value == ParseDate(t).value
  {
    KeyOrdersDays(ParseDate(s).value, ParseDate(t).value);
  }

  /** The key orders dates as the calendar does: by year, then month, then day. */
  lemma DateKeyChronological(y1: nat, m1: nat, d1: nat, y2: nat, m2: nat, d2: nat)
    requires 1 <= m1 <= 12 && 1 <= d1 <= 31 && 1 <= m2 <= 12 && 1 <= d2 <= 31
    ensures y1 * 10000 + m1 * 100 + d1 < y2 * 10000 + m2 * 100 + d2
        <==> y1 < y2 || (y1 == y2 && (m1 < m2 || (m1 == m2 && d1 < d2)))
  {
    if y1 < y2 {
      assert y1 * 10000 + 10000 <= y2 * 10000;
    } else if y2 < y1 {
      assert y2 * 10000 + 10000 <= y1 * 10000;
    }
  }

  /** A well-formed `yyyy-mm-dd` string naming a day of its month, read digit by digit. */
  lemma DateKeyOfDigits(s: string)
    requires |s| == 10 && s[4] == '-' && s[7] == '-'
    requires forall i :: 0 <= i < 10 && i != 4 && i != 7 ==> IsDigit(s[i])
    requires var y := DigitValue(s[0]) * 1000 + DigitValue(s[1]) * 100 + DigitValue(s[2]) * 10 + DigitValue(s[3]);
             var m := DigitValue(s[5]) * 10 + DigitValue(s[6]);
             var d := DigitValue(s[8]) * 10 + DigitValue(s[9]);
             1 <= m <= 12 && 1 <= d <= DaysInMonth(y, m)
    ensures DateKey(s) == Some(
      (DigitValue(s[0]) * 1000 + DigitValue(s[1]) * 100 + DigitValue(s[2]) * 10 + DigitValue(s[3])) * 10000
      + (DigitValue(s[5]) * 10 + DigitValue(s[6])) * 100
      + DigitValue(s[8]) * 10 + DigitValue(s[9]))
  {
    TwoDigits(s[5..7]);
    TwoDigits(s[8..]);
    FourDigits(s[..4]);
  }

  /** A day the month lacks gets no key: the 30th of February, and the 29th outside leap years. */
  lemma MissingDaysRejected(s: string)
    requires |s| == 10 && s[4] == '-' && s[7] == '-'
    requires forall i :: 0 <= i < 10 && i != 4 && i != 7 ==> IsDigit(s[i])
    requires s[5..] == "02-30" || (s[5..] == "02-29" && !IsLeapYear(DigitsValue(s[..4])))
    ensures DateKey(s) == None
  {
    TwoDigits(s[5..7]);
    TwoDigits(s[8..]);
    assert s[5..7] == s[5..][..2] && s[8..] == s[5..][3..];
  }

  lemma TwoDigits(s: string)
    requires |s| == 2 && IsDigit(s[0]) && IsDigit(s[1])
    ensures AllDigits(s) && DigitsValue(s) == DigitValue(s[0]) * 10 + DigitValue(s[1])
  {
    var t := s[..1];
    assert t[..|t| - 1] == [];
    assert DigitsValue(t) == DigitValue(s[0]);
    assert s[..|s| - 1] == t;
  }

  lemma FourDigits(s: string)
    requires |s| == 4 && IsDigit(s[0]) && IsDigit(s[1]) && IsDigit(s[2]) && IsDigit(s[3])
    ensures AllDigits(s)
    ensures DigitsValue(s) == DigitValue(s[0]) * 1000 + DigitValue(s[1]) * 100 + DigitValue(s[2]) * 10 + DigitValue(s[3])
  {
    TwoDigits(s[..2]);
    assert s[..3][..2] == s[..2];
    assert DigitsValue(s[..3]) == DigitsValue(s[..2]) * 10 + DigitValue(s[2]);
  }

  /** Whether an item's `addedAt` parses. */
  predicate Dated(x: MediaItem)
  {
    DateKey(x.addedAt).Some?
  }

  predicate AllDated(s: seq<MediaItem>)
  {
    forall i :: 0 <= i < |s| ==> Dated(s[i])
  }

  /** The time key of an item; only read for items that are `Dated`. */
  function Stamp(x: MediaItem): int
  {
    match DateKey(x.addedAt)
    case Some(k) => k
    case None => 0
  }

  /** Non-increasing by key: the newest item comes first. */
  predicate NewestFirst<T>(key: T -> int, s: seq<T>)
  {
    forall i, j :: 0 <= i < j < |s| ==> key(s[i]) >= key(s[j])
  }

  /** Insert `x`, which precedes every element of `s` in the input, after the strictly newer ones. */
  function InsertBy<T>(key: T -> int, x: T, s: seq<T>): (r: seq<T>)
    ensures |r| == |s| + 1
    decreases |s|
  {
    if s == [] || key(s[0]) <= key(x) then
      [x] + s
    else
      [s[0]] + InsertBy(key, x, s[1..])
  }

  /** Insertion adds `x` and keeps every other element. */
  lemma {:induction false} InsertByPermutes<T>(key: T -> int, x: T, s: seq<T>)
    ensures multiset(InsertBy(key, x, s)) == multiset(s) + multiset{x}
    decreases |s|
  {
    if !(s == [] || key(s[0]) <= key(x)) {
      InsertByPermutes(key, x, s[1..]);
      assert s == [s[0]] + s[1..];
    }
  }

  /** Inserting an element no newer than a bound into elements no newer than it stays below it. */
  lemma {:induction false} InsertByBounded<T>(key: T -> int, x: T, s: seq<T>, b: int)
    requires key(x) <= b
    requires forall i :: 0 <= i < |s| ==> key(s[i]) <= b
    ensures forall j :: 0 <= j < |InsertBy(key, x, s)| ==> key(InsertBy(key, x, s)[j]) <= b
    decreases |s|
  {
    if !(s == [] || key(s[0]) <= key(x)) {
      InsertByBounded(key, x, s[1..], b);
      var t := InsertBy(key, x, s[1..]);
      assert InsertBy(key, x, s) == [s[0]] + t;
    }
  }

  /** Insertion into a newest-first sequence keeps it newest first. */
  lemma {:induction false} InsertBySorted<T>(key: T -> int, x: T, s: seq<T>)
    requires NewestFirst(key, s)
    ensures NewestFirst(key, InsertBy(key, x, s))
    decreases |s|
  {
    if !(s == [] || key(s[0]) <= key(x)) {
      InsertBySorted(key, x, s[1..]);
      var t := InsertBy(key, x, s[1..]);
      InsertByBounded(key, x, s[1..], key(s[0]));
      var r := [s[0]] + t;
      assert InsertBy(key, x, s) == r;
      forall i, j | 0 <= i < j < |r|
        ensures key(r[i]) >= key(r[j])
      {
        if i > 0 {
          assert r[i] == t[i - 1] && r[j] == t[j - 1];
        } else {
          assert r[j] == t[j - 1];
        }
      }
    }
  }

  /** Where insertion puts `x`: after the strictly newer prefix, before the first element no newer. */
  lemma {:induction false} InsertByAt<T>(key: T -> int, x: T, s: seq<T>, p: nat)
    requires p <= |s|
    requires forall j :: 0 <= j < p ==> key(s[j]) > key(x)
    requires p < |s| ==> key(s[p]) <= key(x)
    ensures InsertBy(key, x, s) == s[..p] + [x] + s[p..]
    decreases p
  {
    if p > 0 {
      InsertByAt(key, x, s[1..], p - 1);
      assert s[..p] == [s[0]] + s[1..][..p - 1];
      assert s[p..] == s[1..][p - 1..];
    }
  }

  /** Stable sort, newest first. */
  function SortBy<T>(key: T -> int, s: seq<T>): (r: seq<T>)
    ensures |r| == |s|
    decreases |s|
  {
    if s == [] then [] else InsertBy(key, s[0], SortBy(key, s[1..]))
  }

  /** The sort rearranges its input: same elements, same multiplicities. */
  lemma {:induction false} SortByPermutes<T>(key: T -> int, s: seq<T>)
    ensures multiset(SortBy(key, s)) == multiset(s)
    decreases |s|
  {
    if s != [] {
      SortByPermutes(key, s[1..]);
      InsertByPermutes(key, s[0], SortBy(key, s[1..]));
      assert s == [s[0]] + s[1..];
    }
  }

  /** The sort's output is newest first. */
  lemma {:induction false} SortBySorted<T>(key: T -> int, s: seq<T>)
    ensures NewestFirst(key, SortBy(key, s))
    decreases |s|
  {
    if s != [] {
      SortBySorted(key, s[1..]);
      InsertBySorted(key, s[0], SortBy(key, s[1..]));
    }
  }

  /** In a newest-first sequence, nothing after a prefix is newer than anything in it. */
  lemma PrefixIsNewest<T>(key: T -> int, s: seq<T>, n: nat, x: T, y: T)
    requires NewestFirst(key, s) && n <= |s|
    requires x in s[..n]
    requires y in multiset(s) - multiset(s[..n])
    ensures key(y) <= key(x)
  {
    var rest := s[n..];
    assert s == s[..n] + rest;
    assert multiset(s) == multiset(s[..n]) + multiset(rest);
    assert y in rest;
    var i :| 0 <= i < n && s[..n][i] == x;
    var j :| 0 <= j < |rest| && rest[j] == y;
    assert s[i] == x && s[n + j] == y;
  }

  /** The elements whose key is `k`. */
  function KeyIs<T>(key: T -> int, k: int): T -> bool
  {
    x => key(x) == k
  }

  lemma {:induction false} InsertByStable<T>(key: T -> int, x: T, s: seq<T>, k: int)
    requires NewestFirst(key, s)
    ensures Filter(KeyIs(key, k), InsertBy(key, x, s)) == Filter(KeyIs(key, k), [x]) + Filter(KeyIs(key, k), s)
    decreases |s|
  {
    var p := KeyIs(key, k);
    if s == [] || key(s[0]) <= key(x) {
      FilterAppend(p, [x], s);
    } else {
      InsertByStable(key, x, s[1..], k);
      var t := InsertBy(key, x, s[1..]);
      FilterAppend(p, [s[0]], t);
      FilterAppend(p, [s[0]], s[1..]);
      assert [s[0]] + s[1..] == s;
      assert [x][1..] == [] && [s[0]][1..] == [];
      if key(x) == k {
        assert Filter(p, [s[0]]) == [];
      } else {
        assert Filter(p, [x]) == [];
      }
    }
  }

  /** Stability: among elements with the same key, the sort keeps their input order. */
  lemma {:induction false} SortByStable<T>(key: T -> int, s: seq<T>, k: int)
    ensures Filter(KeyIs(key, k), SortBy(key, s)) == Filter(KeyIs(key, k), s)
    decreases |s|
  {
    if s != [] {
      SortByStable(key, s[1..], k);
      SortBySorted(key, s[1..]);
      InsertByStable(key, s[0], SortBy(key, s[1..]), k);
      FilterAppend(KeyIs(key, k), [s[0]], s[1..]);
      assert [s[0]] + s[1..] == s;
    }
  }

}
