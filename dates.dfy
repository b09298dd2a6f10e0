/** Calendar dates, Python's `datetime.strptime(s, '%Y-%m-%d')` and the `%Y%m%d` rendering
    used in report file names. */
module Dates {
  import opened Wrappers
  import opened Text

  datatype Date = Date(year: int, month: int, day: int)

  predicate IsLeapYear(y: int)
  {
    y % 4 == 0 && (y % 100 != 0 || y % 400 == 0)
  }

  function DaysInMonth(y: int, m: int): int
    requires 1 <= m <= 12
  {
    if m == 2 then (if IsLeapYear(y) then 29 else 28)
    else if m == 4 || m == 6 || m == 9 || m == 11 then 30
    else 31
  }

  /** The dates Python's `datetime.date` can hold. */
  predicate ValidDate(d: Date)
  {
    1 <= d.year <= 9999 && 1 <= d.month <= 12 && 1 <= d.day <= DaysInMonth(d.year, d.month)
  }

  /** A date that exists, as every Python `date` value does. */
  type CalendarDate = d: Date | ValidDate(d) witness Date(1970, 1, 1)

  function Digits2(n: int): (r: string)
    requires 0 <= n < 100
    ensures |r| == 2 && IsDigits(r)
  {
    [DigitChar(n / 10), DigitChar(n % 10)]
  }

  function Digits4(n: int): (r: string)
    requires 0 <= n < 10000
    ensures |r| == 4 && IsDigits(r)
  {
    Digits2(n / 100) + Digits2(n % 100)
  }

  lemma Digits2Value(n: int)
    requires 0 <= n < 100
    ensures DigitsValue(Digits2(n)) == n
  {
    var s := Digits2(n);
    assert s[..1] == [DigitChar(n / 10)];
    assert s[..1][..0] == [];
    assert DigitsValue(s[..1]) == n / 10;
  }

  lemma Digits4Value(n: int)
    requires 0 <= n < 10000
    ensures DigitsValue(Digits4(n)) == n
  {
    var s := Digits4(n);
    var hi, lo := n / 100, n % 100;
    assert s[..3] == Digits2(hi) + [DigitChar(lo / 10)];
    assert s[..3][..2] == Digits2(hi);
    Digits2Value(hi);
    assert DigitsValue(s) == 100 * hi + lo;
  }

  /** Python's `date.isoformat()`, also what `str()` of a `datetime` starts with. */
  function IsoText(d: Date): (r: string)
    requires ValidDate(d)
    ensures |r| == 10
  {
    Digits4(d.year) + "-" + Digits2(d.month) + "-" + Digits2(d.day)
  }

  /** `date.strftime('%Y%m%d')`. */
  function Yyyymmdd(d: Date): (r: string)
    requires ValidDate(d)
    ensures |r| == 8 && IsDigits(r)
  {
    Digits4(d.year) + Digits2(d.month) + Digits2(d.day)
  }

  /** The first position of `c` in `s`, or `|s|` when there is none. */
  function IndexOf(s: string, c: char): (i: nat)
    ensures i <= |s| && (i < |s| ==> s[i] == c)
    ensures forall j :: 0 <= j < i ==> s[j] != c
  {
    if s == [] then 0 else if s[0] == c then 0 else 1 + IndexOf(s[1..], c)
  }

  function DigitValue(c: char): int
  {
    c as int - '0' as int
  }

  /** The month field of `%m`: the pattern `1[0-2]|0[1-9]|[1-9]` matching the whole token. */
  function MonthToken(t: string): Option<int>
  {
    if |t| == 1 && '1' <= t[0] <= '9' then Some(DigitValue(t[0]))
    else if |t| == 2 && t[0] == '0' && '1' <= t[1] <= '9' then Some(DigitValue(t[1]))
    else if |t| == 2 && t[0] == '1' && '0' <= t[1] <= '2' then Some(10 + DigitValue(t[1]))
    else None
  }

  /** The day field of `%d`: the pattern `3[01]|[12]\d|0[1-9]|[1-9]| [1-9]` matching the whole rest. */
  function DayToken(t: string): Option<int>
  {
    if |t| == 1 && '1' <= t[0] <= '9' then Some(DigitValue(t[0]))
    else if |t| == 2 && (t[0] == '0' || t[0] == ' ') && '1' <= t[1] <= '9' then Some(DigitValue(t[1]))
    else if |t| == 2 && (t[0] == '1' || t[0] == '2') && IsAsciiDigit(t[1]) then Some(10 * DigitValue(t[0]) + DigitValue(t[1]))
    else if |t| == 2 && t[0] == '3' && (t[1] == '0' || t[1] == '1') then Some(30 + DigitValue(t[1]))
    else None
  }

  /** `datetime.strptime(s, '%Y-%m-%d')`: four year digits, a dash, a month token, a dash, a day
      token that ends the string; the date must exist (year 1 or later, day within its month). */
  function ParseYmd(s: string): (r: Option<Date>)
    ensures r.Some? ==> ValidDate(r.value)
  {
    if |s| < 5 || !IsDigits(s[..4]) || s[4] != '-' then None
    else
      var rest := s[5..];
      var i := IndexOf(rest, '-');
      if i == |rest| then None
      else
        match (MonthToken(rest[..i]), DayToken(rest[i + 1..]))
        case (Some(m), Some(d)) =>
          var date := Date(DigitsValue(s[..4]), m, d);
          if ValidDate(date) then Some(date) else None
        case _ => None
  }

  /** The strings `strptime(s, '%Y-%m-%d')` accepts without raising `ValueError`. */
  predicate IsYmdDate(s: string)
  {
    ParseYmd(s).Some?
  }

  /** Every date written in ISO form parses back to itself. */
  lemma ParseYmdRoundTrip(d: Date)
    requires ValidDate(d)
    ensures ParseYmd(IsoText(d)) == Some(d)
  {
    var s := IsoText(d);
    assert s[..4] == Digits4(d.year);
    Digits4Value(d.year);
    var rest := s[5..];
    assert rest == Digits2(d.month) + "-" + Digits2(d.day);
    assert IsDigits(Digits2(d.month));
    assert rest[0] != '-' && rest[1] != '-' && rest[2] == '-';
    assert IndexOf(rest, '-') == 2;
    assert rest[..2] == Digits2(d.month);
    assert rest[3..] == Digits2(d.day);
    assert MonthToken(Digits2(d.month)) == Some(d.month);
    assert DayToken(Digits2(d.day)) == Some(d.day);
  }

  lemma Value2024()
    ensures DigitsValue("2024") == 2024
  {
    assert "2024"[..3] == "202" && "202"[..2] == "20" && "20"[..1] == "2" && "2"[..0] == "";
  }

  /** The pattern is lenient: single-digit months and days are accepted. */
  lemma ParseYmdSingleDigits()
    ensures ParseYmd("2024-1-5") == Some(Date(2024, 1, 5))
  {
    var s := "2024-1-5";
    assert s[..4] == "2024";
    Value2024();
    assert s[5..] == "1-5";
    assert IndexOf("1-5", '-') == 1;
    assert "1-5"[..1] == "1" && "1-5"[2..] == "5";
  }

  /** A day padded with a space instead of a zero is accepted too. */
  lemma ParseYmdSpacePaddedDay()
    ensures ParseYmd("2024-01- 5") == Some(Date(2024, 1, 5))
  {
    var s := "2024-01- 5";
    assert s[..4] == "2024";
    Value2024();
    assert s[5..] == "01- 5";
    assert IndexOf("01- 5", '-') == 2;
    assert "01- 5"[..2] == "01" && "01- 5"[3..] == " 5";
  }

  /** A day that its month does not have is refused. */
  lemma ParseYmdRejectsMissingDay()
    ensures ParseYmd("2023-02-29") == None
  {
    var s := "2023-02-29";
    assert s[5..] == "02-29";
    assert IndexOf("02-29", '-') == 2;
    assert "02-29"[..2] == "02" && "02-29"[3..] == "29";
  }

  /** Nothing may follow the day, not even white space. */
  lemma ParseYmdRejectsTrailingSpace()
    ensures ParseYmd("2024-01-15 ") == None
  {
    var s := "2024-01-15 ";
    assert s[5..] == "01-15 ";
    assert IndexOf("01-15 ", '-') == 2;
    assert "01-15 "[3..] == "15 ";
  }

  /** Reads back a `%Y%m%d` rendering. */
  function ParseYyyymmdd(s: string): (r: Option<Date>)
    ensures r.Some? ==> ValidDate(r.value)
  {
    if |s| != 8 || !IsDigits(s) then None
    else
      var date := Date(DigitsValue(s[..4]), DigitsValue(s[4..6]), DigitsValue(s[6..]));
      if ValidDate(date) then Some(date) else None
  }

  lemma YyyymmddRoundTrip(d: Date)
    requires ValidDate(d)
    ensures ParseYyyymmdd(Yyyymmdd(d)) == Some(d)
  {
    var s := Yyyymmdd(d);
    assert s[..4] == Digits4(d.year);
    assert s[4..6] == Digits2(d.month);
    assert s[6..] == Digits2(d.day);
    Digits4Value(d.year);
    Digits2Value(d.month);
    Digits2Value(d.day);
  }

  /** Different days never share a `%Y%m%d` rendering. */
  lemma YyyymmddInjective(a: Date, b: Date)
    requires ValidDate(a) && ValidDate(b) && Yyyymmdd(a) == Yyyymmdd(b)
    ensures a == b
  {
    YyyymmddRoundTrip(a);
    YyyymmddRoundTrip(b);
  }
}
