/**
 * Calendar dates as Python's `datetime.date` has them (proleptic Gregorian,
 * years 1 to 9999), Python's `datetime.strptime(s, "%Y-%m-%d")` as a parser,
 * the order `>` between dates, and `weekday()`.
 */
module Dates {
  import opened Wrappers
  import opened Strings

  datatype Date = Date(year: int, month: int, day: int)

  predicate IsLeapYear(y: int)
  {
    y % 4 == 0 && (y % 100 != 0 || y % 400 == 0)
  }

  function DaysInMonth(y: int, m: int): (n: int)
    requires 1 <= m <= 12
    ensures 28 <= n <= 31
  {
    if m == 2 then (if IsLeapYear(y) then 29 else 28)
    else if m == 4 || m == 6 || m == 9 || m == 11 then 30
    else 31
  }

  /** The dates `datetime.date(y, m, d)` accepts without raising ValueError. */
  predicate IsValidDate(d: Date)
  {
    1 <= d.year <= 9999 && 1 <= d.month <= 12 && 1 <= d.day <= DaysInMonth(d.year, d.month)
  }

  /** Python's `a > b` on dates. */
  predicate After(a: Date, b: Date)
  {
    a.year > b.year
    || (a.year == b.year && a.month > b.month)
    || (a.year == b.year && a.month == b.month && a.day > b.day)
  }

  // strptime with the format "%Y-%m-%d". CPython turns the format into the
  // regular expression (\d\d\d\d)-(1[0-2]|0[1-9]|[1-9])-(3[01]|[12]\d|0[1-9]|[1-9]| [1-9]),
  // matches it at the start of the string, raises ValueError when characters
  // remain after the match, and raises ValueError again when the fields do
  // not form a date.

  /** The month group: the first alternative that matches, with its value and width. */
  function MonthToken(t: string): (r: Option<(int, nat)>)
    ensures r.Some? ==> 1 <= r.value.0 <= 12 && 1 <= r.value.1 <= 2 && r.value.1 <= |t|
  {
    if |t| >= 2 && t[0] == '1' && '0' <= t[1] <= '2' then Some((10 + DigitValue(t[1]), 2))
    else if |t| >= 2 && t[0] == '0' && '1' <= t[1] <= '9' then Some((DigitValue(t[1]), 2))
    else if |t| >= 1 && '1' <= t[0] <= '9' then Some((DigitValue(t[0]), 1))
    else None
  }

  /** The day group: the first alternative that matches, with its value and width. */
  function DayToken(t: string): (r: Option<(int, nat)>)
    ensures r.Some? ==> 1 <= r.value.0 <= 31 && 1 <= r.value.1 <= 2 && r.value.1 <= |t|
  {
    if |t| >= 2 && t[0] == '3' && '0' <= t[1] <= '1' then Some((30 + DigitValue(t[1]), 2))
    else if |t| >= 2 && '1' <= t[0] <= '2' && IsDigit(t[1]) then Some((10 * DigitValue(t[0]) + DigitValue(t[1]), 2))
    else if |t| >= 2 && t[0] == '0' && '1' <= t[1] <= '9' then Some((DigitValue(t[1]), 2))
    else if |t| >= 1 && '1' <= t[0] <= '9' then Some((DigitValue(t[0]), 1))
    else if |t| >= 2 && t[0] == ' ' && '1' <= t[1] <= '9' then Some((DigitValue(t[1]), 2))
    else None
  }

  /** `datetime.strptime(s, "%Y-%m-%d").date()`, with None where it raises ValueError. */
  function ParseIsoDate(s: string): (r: Option<Date>)
    ensures r.Some? ==> IsValidDate(r.value)
    ensures r.Some? ==> 8 <= |s| <= 10
  {
    if |s| < 5 || !AllDigits(s[..4]) || s[4] != '-' then None
    else
      var year := NatValue(s[..4]);
      match MonthToken(s[5..])
      case None => None
      case Some(month) =>
        var rest := s[5 + month.1..];
        if |rest| == 0 || rest[0] != '-' then None
        else
          match DayToken(rest[1..])
          case None => None
          case Some(day) =>
            var d := Date(year, month.0, day.0);
            if day.1 != |rest| - 1 then None        // unconverted data remains
            else if !IsValidDate(d) then None       // year 0, or no such day in the month
            else Some(d)
  }

  /** Two digits, zero-padded. */
  function Pad2(n: nat): (s: string)
    requires n < 100
    ensures |s| == 2 && AllDigits(s)
  {
    [DigitChar(n / 10), DigitChar(n % 10)]
  }

  /** Four digits, zero-padded. */
  function Pad4(n: nat): (s: string)
    requires n < 10000
    ensures |s| == 4 && AllDigits(s)
  {
    [DigitChar(n / 1000), DigitChar(n / 100 % 10), DigitChar(n / 10 % 10), DigitChar(n % 10)]
  }

  lemma NatValuePad4(n: nat)
    requires n < 10000
    ensures NatValue(Pad4(n)) == n
  {
    var y := Pad4(n);
    assert y[..1][..0] == [] && y[..2][..1] == y[..1] && y[..3][..2] == y[..2] && y[..4] == y;
    assert NatValue(y[..1]) == n / 1000;
    assert NatValue(y[..2]) == NatValue(y[..1]) * 10 + n / 100 % 10;
    assert NatValue(y[..3]) == NatValue(y[..2]) * 10 + n / 10 % 10;
    var a, b, c := n / 10, n / 100, n / 1000;
    assert b == a / 10 && c == b / 10;
    assert n == a * 10 + n % 10 && a == b * 10 + a % 10 && b == c * 10 + b % 10;
    assert NatValue(y) == ((c * 10 + b % 10) * 10 + a % 10) * 10 + n % 10;
  }

  /** Python `date.isoformat()`: YYYY-MM-DD. */
  function IsoFormat(d: Date): (s: string)
    requires IsValidDate(d)
    ensures |s| == 10
  {
    Pad4(d.year) + "-" + Pad2(d.month) + "-" + Pad2(d.day)
  }

  /** Every date written as `isoformat()` writes it is read back by `strptime`. */
  lemma ParseIsoFormat(d: Date)
    requires IsValidDate(d)
    ensures ParseIsoDate(IsoFormat(d)) == Some(d)
  {
    var s := IsoFormat(d);
    var y := Pad4(d.year);
    assert s[..4] == y;
    assert NatValue(y) == d.year by { NatValuePad4(d.year); }
    var m := Pad2(d.month);
    assert s[5..] == m + "-" + Pad2(d.day);
    var rest := s[7..];
    assert s[5 + 2..] == rest;
    assert rest == "-" + Pad2(d.day);
    assert rest[1..] == Pad2(d.day);
  }

  /** The ways `%m` reads month `m`: two digits, or one digit for the months before October. */
  predicate MonthSpelling(t: string, m: int)
    requires 1 <= m <= 12
  {
    t == Pad2(m) || (m < 10 && t == [DigitChar(m)])
  }

  /** The ways `%d` reads day `n`: two digits, or for the first nine days one digit, alone or after a space. */
  predicate DaySpelling(t: string, n: int)
    requires 1 <= n <= 31
  {
    t == Pad2(n) || (n < 10 && (t == [DigitChar(n)] || t == [' ', DigitChar(n)]))
  }

  /** `s` writes the date `d` in full in a form that "%Y-%m-%d" reads. */
  predicate Spells(s: string, d: Date)
    requires IsValidDate(d)
  {
    && |s| >= 8 && s[..4] == Pad4(d.year) && s[4] == '-'
    && ((MonthSpelling(s[5..7], d.month) && s[7] == '-' && DaySpelling(s[8..], d.day))
        || (MonthSpelling(s[5..6], d.month) && s[6] == '-' && DaySpelling(s[7..], d.day)))
  }

  /** strptime reads exactly the spellings of valid dates: what it accepts spells the date it returns. */
  lemma ParseIsoDateSpells(s: string)
    requires ParseIsoDate(s).Some?
    ensures Spells(s, ParseIsoDate(s).value)
  {
    var d := ParseIsoDate(s).value;
    Pad4NatValue(s[..4]);
    var month := MonthToken(s[5..]).value;
    MonthTokenSpelling(s[5..]);
    assert s[5..][..month.1] == s[5..5 + month.1];
    var rest := s[5 + month.1..];
    DayTokenSpelling(rest[1..]);
    assert rest[1..][..|rest| - 1] == rest[1..] == s[6 + month.1..];
  }

  /** ... and every spelling of a valid date is read as that date. */
  lemma SpellingParses(s: string, d: Date)
    requires IsValidDate(d) && Spells(s, d)
    ensures ParseIsoDate(s) == Some(d)
  {
    NatValuePad4(d.year);
    var w := if MonthSpelling(s[5..7], d.month) && s[7] == '-' && DaySpelling(s[8..], d.day) then 2 else 1;
    assert s[5..][..w] == s[5..5 + w] && s[5..][w] == s[5 + w];
    MonthTokenOfSpelling(s[5..], d.month, w);
    var rest := s[5 + w..];
    assert rest[1..] == s[6 + w..];
    DayTokenOfSpelling(rest[1..], d.day);
  }

  /** Text after a full date is unconverted data, which strptime rejects. */
  lemma TrailingDataRejected(d: Date, t: string)
    requires IsValidDate(d) && t != []
    ensures ParseIsoDate(IsoFormat(d) + t).None?
  {
  }

  lemma DigitCharValue(c: char)
    requires IsDigit(c)
    ensures DigitChar(DigitValue(c)) == c
  {
  }

  lemma Pad4NatValue(t: string)
    requires |t| == 4 && AllDigits(t)
    ensures NatValue(t) < 10000 && Pad4(NatValue(t)) == t
  {
    var a, b, c, e := DigitValue(t[0]), DigitValue(t[1]), DigitValue(t[2]), DigitValue(t[3]);
    assert t[..3][..2] == t[..2] && t[..2][..1] == t[..1] && t[..1][..0] == [];
    assert NatValue(t[..1]) == a;
    assert NatValue(t[..2]) == a * 10 + b;
    assert NatValue(t[..3]) == (a * 10 + b) * 10 + c;
    var n := NatValue(t);
    assert n == a * 1000 + b * 100 + c * 10 + e;
    DivModUnique(n, 1000, a, b * 100 + c * 10 + e);
    DivModUnique(n, 100, a * 10 + b, c * 10 + e);
    DivModUnique(a * 10 + b, 10, a, b);
    DivModUnique(n, 10, a * 100 + b * 10 + c, e);
    DivModUnique(a * 100 + b * 10 + c, 10, a * 10 + b, c);
    DigitCharValue(t[0]);
    DigitCharValue(t[1]);
    DigitCharValue(t[2]);
    DigitCharValue(t[3]);
  }

  /** Quotient and remainder by a power of ten are unique. */
  lemma DivModUnique(n: int, k: int, q: int, r: int)
    requires (k == 10 || k == 100 || k == 1000) && 0 <= r < k && n == q * k + r
    ensures n / k == q && n % k == r
  {
    if k == 10 {
      assert n == q * 10 + r;
    } else if k == 100 {
      assert n == q * 100 + r;
    } else {
      assert n == q * 1000 + r;
    }
  }

  lemma MonthTokenSpelling(t: string)
    requires MonthToken(t).Some?
    ensures MonthSpelling(t[..MonthToken(t).value.1], MonthToken(t).value.0)
  {
    var m := MonthToken(t).value;
    if m.1 == 2 {
      DigitCharValue(t[1]);
      assert m.0 / 10 == DigitValue(t[0]) && m.0 % 10 == DigitValue(t[1]);
      DigitCharValue(t[0]);
    } else {
      DigitCharValue(t[0]);
    }
  }

  lemma DayTokenSpelling(t: string)
    requires DayToken(t).Some?
    ensures DaySpelling(t[..DayToken(t).value.1], DayToken(t).value.0)
  {
    var n := DayToken(t).value;
    if n.1 == 2 && t[0] != ' ' {
      DigitCharValue(t[1]);
      assert n.0 / 10 == DigitValue(t[0]) && n.0 % 10 == DigitValue(t[1]);
      DigitCharValue(t[0]);
    } else if n.1 == 2 {
      DigitCharValue(t[1]);
    } else {
      DigitCharValue(t[0]);
    }
  }

  lemma MonthTokenOfSpelling(t: string, m: int, w: nat)
    requires 1 <= m <= 12 && w < |t| && MonthSpelling(t[..w], m) && t[w] == '-'
    ensures MonthToken(t) == Some((m, w))
  {
    if t[..w] == Pad2(m) {
      assert t[0] == DigitChar(m / 10) && t[1] == DigitChar(m % 10);
    } else {
      assert t[0] == DigitChar(m);
    }
  }

  lemma DayTokenOfSpelling(t: string, n: int)
    requires 1 <= n <= 31 && DaySpelling(t, n)
    ensures DayToken(t) == Some((n, |t|))
  {
  }

  /** Python `date.toordinal()`: 1 for 0001-01-01, counting days. */
  function Ordinal(d: Date): (n: int)
    requires IsValidDate(d)
    ensures n >= 1
  {
    var y := d.year - 1;
    y * 365 + y / 4 - y / 100 + y / 400 + DaysBeforeMonth(d.year, d.month) + d.day
  }

  /** Days of year `y` before the first day of month `m`. */
  function DaysBeforeMonth(y: int, m: int): (n: int)
    requires 1 <= m <= 12
    ensures 0 <= n <= 31 * (m - 1)
    decreases m
  {
    if m == 1 then 0 else DaysBeforeMonth(y, m - 1) + DaysInMonth(y, m - 1)
  }

  /** Python `date.weekday()`: Monday is 0, Sunday is 6. */
  function Weekday(d: Date): (w: int)
    requires IsValidDate(d)
    ensures 0 <= w <= 6
  {
    (Ordinal(d) + 6) % 7
  }

  /** The day after `d`, as `d + timedelta(days=1)` gives it; defined up to 9999-12-30. */
  function NextDay(d: Date): (e: Date)
    requires IsValidDate(d) && d != Date(9999, 12, 31)
    ensures IsValidDate(e) && After(e, d)
  {
    if d.day < DaysInMonth(d.year, d.month) then d.(day := d.day + 1)
    else if d.month < 12 then Date(d.year, d.month + 1, 1)
    else Date(d.year + 1, 1, 1)
  }

  /**
   * The ordinal counts days: the next day, across the end of a month and of a
   * year (leap years included), has the next ordinal and the next week day.
   */
  lemma OrdinalNextDay(d: Date)
    requires IsValidDate(d) && d != Date(9999, 12, 31)
    ensures Ordinal(NextDay(d)) == Ordinal(d) + 1
    ensures Weekday(NextDay(d)) == (Weekday(d) + 1) % 7
  {
    if d.day < DaysInMonth(d.year, d.month) {
      OrdinalSameMonth(d);
    } else if d.month < 12 {
      OrdinalNextMonth(d.year, d.month);
    } else {
      NewYear(d.year);
    }
    WeekdayStep(Ordinal(d));
  }

  lemma OrdinalSameMonth(d: Date)
    requires IsValidDate(d) && d.day < DaysInMonth(d.year, d.month)
    ensures Ordinal(d.(day := d.day + 1)) == Ordinal(d) + 1
  {
  }

  lemma OrdinalNextMonth(y: int, m: int)
    requires 1 <= y <= 9999 && 1 <= m < 12
    ensures Ordinal(Date(y, m + 1, 1)) == Ordinal(Date(y, m, DaysInMonth(y, m))) + 1
  {
    assert DaysBeforeMonth(y, m + 1) == DaysBeforeMonth(y, m) + DaysInMonth(y, m);
  }

  lemma WeekdayStep(n: int)
    ensures (n + 1 + 6) % 7 == ((n + 6) % 7 + 1) % 7
  {
  }

  /** New Year's Eve and the next New Year's Day have consecutive ordinals. */
  lemma NewYear(y: int)
    requires 1 <= y < 9999
    ensures Ordinal(Date(y + 1, 1, 1)) == Ordinal(Date(y, 12, 31)) + 1
  {
    DaysBeforeDecember(y);
    YearDays(y);
  }

  /** Days of year `y` before December: 334, or 335 in a leap year. */
  lemma DaysBeforeDecember(y: int)
    ensures DaysBeforeMonth(y, 12) == if IsLeapYear(y) then 335 else 334
  {
    assert DaysBeforeMonth(y, 3) == DaysBeforeMonth(y, 2) + DaysInMonth(y, 2);
    assert DaysBeforeMonth(y, 6) == DaysBeforeMonth(y, 3) + 92;
    assert DaysBeforeMonth(y, 9) == DaysBeforeMonth(y, 6) + 92;
    assert DaysBeforeMonth(y, 12) == DaysBeforeMonth(y, 9) + 91;
  }

  /** The days of the years before `y + 1` exceed those before `y` by the length of year `y`. */
  lemma YearDays(y: int)
    requires y >= 1
    ensures var before := (y - 1) * 365 + (y - 1) / 4 - (y - 1) / 100 + (y - 1) / 400;
      y * 365 + y / 4 - y / 100 + y / 400 == before + if IsLeapYear(y) then 366 else 365
  {
    DivStep(y, 4);
    DivStep(y, 100);
    DivStep(y, 400);
    var a, b, c := y / 4 - (y - 1) / 4, y / 100 - (y - 1) / 100, y / 400 - (y - 1) / 400;
    assert y * 365 == (y - 1) * 365 + 365;
    assert a - b + c == if IsLeapYear(y) then 1 else 0 by {
      if y % 400 == 0 {
        assert y % 100 == 0 && y % 4 == 0 by { MultipleOf400(y); }
      } else if y % 100 == 0 {
        assert y % 4 == 0 by { MultipleOf100(y); }
      }
    }
  }

  lemma MultipleOf400(y: int)
    requires y % 400 == 0
    ensures y % 100 == 0 && y % 4 == 0
  {
    assert y == (y / 400) * 400;
  }

  lemma MultipleOf100(y: int)
    requires y % 100 == 0
    ensures y % 4 == 0
  {
    assert y == (y / 100) * 100;
  }

  /** `n // k` moves up by one exactly at the multiples of `k`, for the leap-year divisors. */
  lemma DivStep(n: int, k: int)
    requires n >= 1 && (k == 4 || k == 100 || k == 400)
    ensures n / k - (n - 1) / k == if n % k == 0 then 1 else 0
  {
    if k == 4 {
      assert n / 4 - (n - 1) / 4 == if n % 4 == 0 then 1 else 0;
    } else if k == 100 {
      assert n / 100 - (n - 1) / 100 == if n % 100 == 0 then 1 else 0;
    } else {
      assert n / 400 - (n - 1) / 400 == if n % 400 == 0 then 1 else 0;
    }
  }

  /** The first of January 2024 was a Monday. */
  lemma WeekdayAnchor()
    ensures Weekday(Date(2024, 1, 1)) == 0
  {
  }

}
