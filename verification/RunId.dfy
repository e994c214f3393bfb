/**
 * The run identifier of the ingestion workflow: the current time formatted
 * with `strftime("%d%m%Y%H%M%S")` (zillowanalytics.py). The clock is an
 * input here; `Parse` reads an identifier back, which shows that distinct
 * times never share an identifier.
 */
module RunId {
  import opened Wrappers

  /** A `datetime` down to the second. */
  datatype Timestamp = Timestamp(day: int, month: int, year: int, hour: int, minute: int, second: int)

  predicate IsLeapYear(year: int)
  {
    year % 4 == 0 && (year % 100 != 0 || year % 400 == 0)
  }

  function DaysInMonth(month: int, year: int): int
  {
    if month == 2 then (if IsLeapYear(year) then 29 else 28)
    else if month == 4 || month == 6 || month == 9 || month == 11 then 30
    else 31
  }

  /** The values a `datetime` can hold: years 1 to 9999 and a real calendar day. */
  predicate Valid(t: Timestamp)
  {
    && 1 <= t.year <= 9999
    && 1 <= t.month <= 12
    && 1 <= t.day <= DaysInMonth(t.month, t.year)
    && 0 <= t.hour < 24
    && 0 <= t.minute < 60
    && 0 <= t.second < 60
  }

  function Pow10(n: nat): nat
  {
    if n == 0 then 1 else 10 * Pow10(n - 1)
  }

  predicate IsDigit(c: char)
  {
    '0' <= c <= '9'
  }

  predicate AllDigits(s: string)
  {
    forall i :: 0 <= i < |s| ==> IsDigit(s[i])
  }

  function DigitChar(d: nat): (c: char)
    requires d < 10
    ensures IsDigit(c)
  {
    ('0' as int + d) as char
  }

  /** `n` as exactly `width` decimal digits, zero-padded on the left. */
  function Digits(n: nat, width: nat): (r: string)
    requires n < Pow10(width)
    ensures |r| == width
    ensures AllDigits(r)
  {
    if width == 0 then [] else Digits(n / 10, width - 1) + [DigitChar(n % 10)]
  }

  /** The number a string of decimal digits denotes. */
  function Value(s: string): nat
    requires AllDigits(s)
  {
    if s == [] then 0 else 10 * Value(s[..|s| - 1]) + (s[|s| - 1] as int - '0' as int)
  }

  lemma {:induction false} ValueOfDigits(n: nat, width: nat)
    requires n < Pow10(width)
    ensures Value(Digits(n, width)) == n
  {
    if width > 0 {
      var s := Digits(n, width);
      assert s[..|s| - 1] == Digits(n / 10, width - 1);
      ValueOfDigits(n / 10, width - 1);
    }
  }

  /**
   * `strftime("%d%m%Y%H%M%S")`: day, month, year, hour, minute and second,
   * each zero-padded, the year to four digits and the others to two.
   */
  function Format(t: Timestamp): (r: string)
    requires Valid(t)
    ensures |r| == 14
    ensures AllDigits(r)
  {
    Digits(t.day, 2) + Digits(t.month, 2) + Digits(t.year, 4)
      + Digits(t.hour, 2) + Digits(t.minute, 2) + Digits(t.second, 2)
  }

  /** Reads a run identifier back into the time it names. */
  function Parse(s: string): Option<Timestamp>
  {
    if |s| != 14 || !AllDigits(s) then None
    else
      var t := Timestamp(Value(s[0..2]), Value(s[2..4]), Value(s[4..8]),
                         Value(s[8..10]), Value(s[10..12]), Value(s[12..14]));
      if Valid(t) then Some(t) else None
  }

  lemma SplitAt(front: string, back: string)
    ensures (front + back)[..|front|] == front
    ensures (front + back)[|front|..] == back
  {
  }

  /** Formatting a valid time and parsing the identifier gives the time back. */
  lemma FormatParseRoundTrip(t: Timestamp)
    requires Valid(t)
    ensures Parse(Format(t)) == Some(t)
  {
    var s := Format(t);
    var d, mo, y := Digits(t.day, 2), Digits(t.month, 2), Digits(t.year, 4);
    var h, mi, se := Digits(t.hour, 2), Digits(t.minute, 2), Digits(t.second, 2);
    SplitAt(d + mo + y + h + mi, se);
    SplitAt(d + mo + y + h, mi);
    SplitAt(d + mo + y, h);
    SplitAt(d + mo, y);
    SplitAt(d, mo);
    assert s[0..2] == d;
    assert s[2..4] == mo;
    assert s[4..8] == y;
    assert s[8..10] == h;
    assert s[10..12] == mi;
    assert s[12..14] == se;
    ValueOfDigits(t.day, 2);
    ValueOfDigits(t.month, 2);
    ValueOfDigits(t.year, 4);
    ValueOfDigits(t.hour, 2);
    ValueOfDigits(t.minute, 2);
    ValueOfDigits(t.second, 2);
  }

  /** Two runs started at different seconds get different identifiers. */
  lemma FormatInjective(t1: Timestamp, t2: Timestamp)
    requires Valid(t1) && Valid(t2)
    requires Format(t1) == Format(t2)
    ensures t1 == t2
  {
    FormatParseRoundTrip(t1);
    FormatParseRoundTrip(t2);
  }
}
