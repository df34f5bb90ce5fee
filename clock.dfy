/** Clock times and calendar dates as the core reads and writes them: the
    "H:M" split that `map(int, s.split(":"))` performs, the zero-padded slot
    labels `f"{h:02d}:{m:02d}"`, `datetime.strptime(s, "%Y-%m-%d")` and
    `date.weekday()`. */
module Clock {
  import opened Python

  /** `h, m = map(int, s.split(":"))`: exactly two integer fields, otherwise
      Python raises ValueError (modelled as None). */
  function ParseClock(s: string): Option<(int, int)>
  {
    var parts := Split(s, ':');
    if |parts| != 2 then None
    else
      match (ParseInt(parts[0]), ParseInt(parts[1]))
      case (Some(h), Some(m)) => Some((h, m))
      case _ => None
  }

  /** The label `f"{h:02d}:{m:02d}"` that slot generation writes. */
  function SlotLabel(h: int, m: int): string
  {
    Pad2(h) + ":" + Pad2(m)
  }

  function MinuteOfDay(h: int, m: int): int
  {
    h * 60 + m
  }

  /** Parsing a slot label gives back the hour and minute it was written from. */
  lemma SlotLabelRoundTrip(h: int, m: int)
    ensures ParseClock(SlotLabel(h, m)) == Some((h, m))
  {
    SplitAt(Pad2(h), ':', Pad2(m));
    SplitWithout(Pad2(m), ':');
    Pad2RoundTrip(h);
    Pad2RoundTrip(m);
  }

  /** Two slot labels are equal only when they name the same hour and minute. */
  lemma SlotLabelInjective(h1: int, m1: int, h2: int, m2: int)
    requires SlotLabel(h1, m1) == SlotLabel(h2, m2)
    ensures h1 == h2 && m1 == m2
  {
    SlotLabelRoundTrip(h1, m1);
    SlotLabelRoundTrip(h2, m2);
  }

  /** A slot label never has its colon at index 1: an unpadded hour such as
      "9:00" is never a slot label. */
  lemma SlotLabelColon(h: int, m: int)
    ensures |SlotLabel(h, m)| >= 5 && SlotLabel(h, m)[1] != ':'
  {
    assert SlotLabel(h, m)[1] == Pad2(h)[1];
  }

  // ---------------------------------------------------------------- "HH:MM"

  /** A canonical "HH:MM" string: two digits, a colon, two digits, minutes 00-59. */
  predicate ZeroPadded(s: string)
  {
    |s| == 5 && IsDigit(s[0]) && IsDigit(s[1]) && s[2] == ':' && '0' <= s[3] <= '5' && IsDigit(s[4])
  }

  function PaddedMinutes(s: string): int
    requires ZeroPadded(s)
  {
    (DigitValue(s[0]) * 10 + DigitValue(s[1])) * 60 + DigitValue(s[3]) * 10 + DigitValue(s[4])
  }

  /** On canonical "HH:MM" strings Python's string comparison `a <= b` agrees
      with the comparison of minutes of the day. */
  lemma PaddedOrder(a: string, b: string)
    requires ZeroPadded(a) && ZeroPadded(b)
    ensures LexLe(a, b) <==> PaddedMinutes(a) <= PaddedMinutes(b)
  {
    if a[0] != b[0] {
      LexFirst(a, b);
    } else {
      LexStep(a, b);
      if a[1] != b[1] {
        LexFirst(a[1..], b[1..]);
      } else {
        LexStep(a[1..], b[1..]);
        assert a[1..][1..] == a[2..] && b[1..][1..] == b[2..];
        LexStep(a[2..], b[2..]);
        assert a[2..][1..] == a[3..] && b[2..][1..] == b[3..];
        if a[3] != b[3] {
          LexFirst(a[3..], b[3..]);
        } else {
          LexStep(a[3..], b[3..]);
          assert a[3..][1..] == a[4..] && b[3..][1..] == b[4..];
          if a[4] != b[4] {
            LexFirst(a[4..], b[4..]);
          } else {
            LexStep(a[4..], b[4..]);
          }
        }
      }
    }
  }

  lemma LexFirst(a: string, b: string)
    requires |a| > 0 && |b| > 0 && a[0] != b[0]
    ensures a != b && (LexLt(a, b) <==> a[0] < b[0])
  {
  }

  lemma LexStep(a: string, b: string)
    requires |a| > 0 && |b| > 0 && a[0] == b[0]
    ensures LexLt(a, b) == LexLt(a[1..], b[1..])
    ensures a == b <==> a[1..] == b[1..]
  {
    if a[1..] == b[1..] {
      assert a == [a[0]] + a[1..] && b == [b[0]] + b[1..];
    }
  }

  /** The value of a two-digit string. */
  lemma TwoDigits(s: string)
    requires |s| == 2 && AllDigits(s)
    ensures DigitsValue(s) == DigitValue(s[0]) * 10 + DigitValue(s[1])
  {
    var first := s[..1];
    assert first[..0] == [] && first[0] == s[0];
    assert DigitsValue(first) == DigitValue(s[0]);
  }

  /** A canonical "HH:MM" string parses to the hour and minute its digits spell. */
  lemma PaddedParses(s: string)
    requires ZeroPadded(s)
    ensures ParseClock(s) == Some((DigitValue(s[0]) * 10 + DigitValue(s[1]), DigitValue(s[3]) * 10 + DigitValue(s[4])))
    ensures MinuteOfDay(ParseClock(s).value.0, ParseClock(s).value.1) == PaddedMinutes(s)
  {
    assert s == s[..2] + [':'] + s[3..];
    SplitAt(s[..2], ':', s[3..]);
    SplitWithout(s[3..], ':');
    TwoDigits(s[..2]);
    TwoDigits(s[3..]);
  }

  // ---------------------------------------------------------------- dates

  datatype Date = Date(year: int, month: int, day: int)

  predicate IsLeap(y: int)
  {
    y % 4 == 0 && (y % 100 != 0 || y % 400 == 0)
  }

  function DaysInMonth(y: int, m: int): int
  {
    if m == 2 then (if IsLeap(y) then 29 else 28)
    else if m == 4 || m == 6 || m == 9 || m == 11 then 30
    else 31
  }

  /** Width of the `%m` field at the start of `s` (`1[0-2]|0[1-9]|[1-9]`), 0 if none. */
  function MonthWidth(s: string): nat
  {
    if |s| >= 2 && s[0] == '1' && '0' <= s[1] <= '2' then 2
    else if |s| >= 2 && s[0] == '0' && '1' <= s[1] <= '9' then 2
    else if |s| >= 1 && '1' <= s[0] <= '9' then 1
    else 0
  }

  /** The whole of `s` is a `%d` field: `3[01]|[12]\d|0[1-9]|[1-9]| [1-9]`. */
  predicate DayForm(s: string)
  {
    || (|s| == 2 && s[0] == '3' && '0' <= s[1] <= '1')
    || (|s| == 2 && '1' <= s[0] <= '2' && IsDigit(s[1]))
    || (|s| == 2 && s[0] == '0' && '1' <= s[1] <= '9')
    || (|s| == 1 && '1' <= s[0] <= '9')
    || (|s| == 2 && s[0] == ' ' && '1' <= s[1] <= '9')
  }

  function DayValue(s: string): (d: int)
    requires DayForm(s)
    ensures 1 <= d <= 31
  {
    if s[0] == ' ' then DigitValue(s[1])
    else if |s| == 1 then (assert s[..0] == []; DigitsValue(s))
    else (TwoDigits(s); DigitsValue(s))
  }

  /** `datetime.strptime(s, "%Y-%m-%d")`: four year digits, a month and a day
      field, nothing left over, and a day that exists in that month of a year
      from 1 on; otherwise ValueError (None). */
  function ParseDate(s: string): (d: Option<Date>)
    ensures d.Some? ==> 1 <= d.value.year && 1 <= d.value.month <= 12
    ensures d.Some? ==> 1 <= d.value.day <= DaysInMonth(d.value.year, d.value.month)
  {
    if |s| < 5 || !AllDigits(s[..4]) || s[4] != '-' then None
    else
      var rest := s[5..];
      var w := MonthWidth(rest);
      if w == 0 || |rest| <= w || rest[w] != '-' then None
      else
        var dayText := rest[w + 1..];
        if !DayForm(dayText) then None
        else
          var y := DigitsValue(s[..4]);
          var mo := DigitsValue(rest[..w]);
          var d := DayValue(dayText);
          MonthValue(rest, w);
          if 1 <= y && d <= DaysInMonth(y, mo) then Some(Date(y, mo, d)) else None
  }

  lemma MonthValue(s: string, w: nat)
    requires w == MonthWidth(s) && w > 0
    ensures AllDigits(s[..w]) && 1 <= DigitsValue(s[..w]) <= 12
  {
    if w == 2 {
      TwoDigits(s[..2]);
    } else {
      assert s[..1][..0] == [];
    }
  }

  /** `date.weekday()`: 0 is Monday, 6 is Sunday (Sakamoto's method, shifted
      from its Sunday-based count). */
  function Weekday(d: Date): (w: int)
    requires 1 <= d.month <= 12
    ensures 0 <= w < 7
  {
    (SakamotoSum(d) % 7 + 6) % 7
  }

  /** Sakamoto's day count, which agrees with the day number modulo 7. */
  function SakamotoSum(d: Date): int
    requires 1 <= d.month <= 12
  {
    var t := [0, 3, 2, 5, 0, 3, 5, 1, 4, 6, 2, 4];
    var y := if d.month < 3 then d.year - 1 else d.year;
    y + y / 4 - y / 100 + y / 400 + t[d.month - 1] + d.day
  }

  /** The day class check_availability uses: weekday 5 or 6 is the weekend. */
  function DayType(d: Date): string
    requires 1 <= d.month <= 12
  {
    if Weekday(d) >= 5 then "weekend" else "weekday"
  }

  // ---------------------------------------------------------------- calendar

  /** A date of the proleptic Gregorian calendar that `strptime` can return. */
  predicate ValidDate(d: Date)
  {
    1 <= d.year && 1 <= d.month <= 12 && 1 <= d.day <= DaysInMonth(d.year, d.month)
  }

  /** `n` written with exactly `width` digits, leading zeros included. */
  function Digits(n: nat, width: nat): (s: string)
    ensures |s| == width && AllDigits(s)
  {
    if width == 0 then [] else Digits(n / 10, width - 1) + [DigitChar(n % 10)]
  }

  function Pow10(k: nat): (p: nat)
    ensures p >= 1
  {
    if k == 0 then 1 else 10 * Pow10(k - 1)
  }

  /** Reading back a number written with enough digits gives the number. */
  lemma {:induction false} DigitsRoundTrip(n: nat, width: nat)
    requires n < Pow10(width)
    ensures DigitsValue(Digits(n, width)) == n
  {
    if width > 0 {
      var s := Digits(n, width);
      assert s[..|s| - 1] == Digits(n / 10, width - 1);
      DigitsRoundTrip(n / 10, width - 1);
    }
  }

  /** The text `d.strftime("%Y-%m-%d")` writes for a date with a four-digit year. */
  function DateText(d: Date): string
    requires 1 <= d.year <= 9999 && 1 <= d.month <= 12 && 1 <= d.day <= 31
  {
    Digits(d.year, 4) + "-" + Digits(d.month, 2) + "-" + Digits(d.day, 2)
  }

  /** Every valid date with a four-digit year parses back from its zero-padded
      "YYYY-MM-DD" text. */
  lemma ParseDateText(d: Date)
    requires ValidDate(d) && d.year <= 9999
    ensures ParseDate(DateText(d)) == Some(d)
  {
    var s := DateText(d);
    var y4, m2, d2 := Digits(d.year, 4), Digits(d.month, 2), Digits(d.day, 2);
    assert s[..4] == y4 && s[4] == '-';
    var rest := s[5..];
    assert rest == m2 + "-" + d2;
    DigitsRoundTrip(d.year, 4);
    DigitsRoundTrip(d.month, 2);
    DigitsRoundTrip(d.day, 2);
    TwoDigits(m2);
    TwoDigits(d2);
    assert MonthWidth(rest) == 2;
    assert rest[..2] == m2 && rest[2] == '-' && rest[3..] == d2;
    assert DayForm(d2);
  }

  /** The day after `d` in the calendar. */
  function NextDay(d: Date): (n: Date)
    requires ValidDate(d)
    ensures ValidDate(n)
  {
    if d.day < DaysInMonth(d.year, d.month) then Date(d.year, d.month, d.day + 1)
    else if d.month < 12 then Date(d.year, d.month + 1, 1)
    else Date(d.year + 1, 1, 1)
  }

  /** The year part of Sakamoto's sum gains one a year and one more in a leap year. */
  lemma YearShift(y: int)
    ensures (y + y / 4 - y / 100 + y / 400) - ((y - 1) + (y - 1) / 4 - (y - 1) / 100 + (y - 1) / 400)
            == if IsLeap(y) then 2 else 1
  {
    DivStep(y);
  }

  lemma DivStep(y: int)
    ensures y / 4 - (y - 1) / 4 == if y % 4 == 0 then 1 else 0
    ensures y / 100 - (y - 1) / 100 == if y % 100 == 0 then 1 else 0
    ensures y / 400 - (y - 1) / 400 == if y % 400 == 0 then 1 else 0
  {
  }

  /** `weekday()` counts days: 1 January of year 1 is a Monday, and each next
      day is the next day of the week. */
  lemma WeekdayFollowsCalendar(d: Date)
    requires ValidDate(d)
    ensures Weekday(Date(1, 1, 1)) == 0
    ensures Weekday(NextDay(d)) == (Weekday(d) + 1) % 7
  {
    var n := NextDay(d);
    if d.day < DaysInMonth(d.year, d.month) {
      assert SakamotoSum(n) == SakamotoSum(d) + 1;
    } else if d.month == 2 {
      FebruaryToMarch(d);
    } else if d.month < 12 {
      MonthEnd(d);
    } else {
      assert SakamotoSum(n) == SakamotoSum(d) + 1 - 35;
    }
    ShiftByOne(SakamotoSum(d), SakamotoSum(n));
  }

  lemma FebruaryToMarch(d: Date)
    requires ValidDate(d) && d.month == 2 && d.day == DaysInMonth(d.year, 2)
    ensures SakamotoSum(NextDay(d)) == SakamotoSum(d) + 1 - 28
  {
    YearShift(d.year);
  }

  lemma MonthEnd(d: Date)
    requires ValidDate(d) && d.month != 2 && d.month < 12 && d.day == DaysInMonth(d.year, d.month)
    ensures (SakamotoSum(NextDay(d)) - SakamotoSum(d) - 1) % 7 == 0
  {
    var t := [0, 3, 2, 5, 0, 3, 5, 1, 4, 6, 2, 4];
    assert SakamotoSum(NextDay(d)) - SakamotoSum(d) == t[d.month] + 1 - t[d.month - 1] - d.day;
  }

  lemma ShiftByOne(base: int, baseN: int)
    requires (baseN - base - 1) % 7 == 0
    ensures (baseN % 7 + 6) % 7 == ((base % 7 + 6) % 7 + 1) % 7
  {
    var k := (baseN - base - 1) / 7;
    assert baseN == base + 1 + 7 * k;
  }

  /** 4 June 2025 parses and is a Wednesday, so its hours are the weekday hours. */
  lemma June4th2025IsWednesday()
    ensures ParseDate("2025-06-04") == Some(Date(2025, 6, 4))
    ensures Weekday(Date(2025, 6, 4)) == 2 && DayType(Date(2025, 6, 4)) == "weekday"
  {
    June4th2025Parses();
  }

  lemma June4th2025Parses()
    ensures ParseDate("2025-06-04") == Some(Date(2025, 6, 4))
  {
    var s := "2025-06-04";
    assert s[..4] == "2025" && s[5..] == "06-04";
    var rest := "06-04";
    assert MonthWidth(rest) == 2 && rest[2] == '-';
    assert rest[..2] == "06" && rest[3..] == "04";
    assert DayForm("04");
    Year2025();
    TwoDigits("06");
    TwoDigits("04");
  }

  lemma Year2025()
    ensures AllDigits("2025") && DigitsValue("2025") == 2025
  {
    assert "2025"[..3] == "202" && "202"[..2] == "20" && "20"[..1] == "2" && "2"[..0] == [];
  }
}
