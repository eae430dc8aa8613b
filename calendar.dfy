/** A model of the parts of System.DateTime the Plant class relies on: a moment
    as calendar fields of the proleptic Gregorian calendar, chronological
    order (`date > DateTime.Now`), and the zero-padded digit fields of the
    custom format specifiers "dd", "MM", "yyyy", "HH" and "mm" as a culture
    with the Gregorian calendar writes them. */
module Calendar {

  predicate IsLeapYear(year: int) {
    year % 4 == 0 && (year % 100 != 0 || year % 400 == 0)
  }

  function DaysInMonth(year: int, month: int): (n: int)
    requires 1 <= month <= 12
    ensures 28 <= n <= 31
    ensures n == 29 <==> month == 2 && IsLeapYear(year)
    ensures n == 30 <==> month in {4, 6, 9, 11}
  {
    if month == 2 then (if IsLeapYear(year) then 29 else 28)
    else if month in {4, 6, 9, 11} then 30
    else 31
  }

  /** A moment down to System.DateTime's resolution: `tick` counts the
      100-nanosecond intervals inside the second. */
  datatype Moment = Moment(year: int, month: int, day: int,
                           hour: int, minute: int, second: int, tick: int)
  {
    predicate WellFormed() {
      && 1 <= year <= 9999
      && 1 <= month <= 12
      && 1 <= day <= DaysInMonth(year, month)
      && 0 <= hour < 24
      && 0 <= minute < 60
      && 0 <= second < 60
      && 0 <= tick < 10_000_000
    }
  }

  /** Every value of System.DateTime is a well-formed moment. */
  type DateTime = m: Moment | m.WellFormed() witness Moment(1, 1, 1, 0, 0, 0, 0)

  /** The fields of a moment, most significant first. */
  function Key(m: Moment): (k: seq<int>)
    ensures |k| == 7 && k[0] == m.year
  {
    [m.year, m.month, m.day, m.hour, m.minute, m.second, m.tick]
  }

  /** Strict lexicographic order on keys of equal length. */
  predicate Precedes(a: seq<int>, b: seq<int>)
    requires |a| == |b|
    decreases |a|
  {
    |a| > 0 && (a[0] < b[0] || (a[0] == b[0] && Precedes(a[1..], b[1..])))
  }

  /** `a > b` on System.DateTime: `a` comes chronologically after `b`. */
  predicate Later(a: Moment, b: Moment) {
    Precedes(Key(b), Key(a))
  }

  lemma {:induction false} PrecedesIrreflexive(a: seq<int>)
    ensures !Precedes(a, a)
    decreases |a|
  {
    if |a| > 0 {
      PrecedesIrreflexive(a[1..]);
    }
  }

  lemma {:induction false} PrecedesTransitive(a: seq<int>, b: seq<int>, c: seq<int>)
    requires |a| == |b| == |c|
    requires Precedes(a, b) && Precedes(b, c)
    ensures Precedes(a, c)
    decreases |a|
  {
    if a[0] == b[0] == c[0] {
      PrecedesTransitive(a[1..], b[1..], c[1..]);
    }
  }

  lemma {:induction false} PrecedesTotal(a: seq<int>, b: seq<int>)
    requires |a| == |b|
    ensures a == b || Precedes(a, b) || Precedes(b, a)
    decreases |a|
  {
    if |a| > 0 && a[0] == b[0] {
      PrecedesTotal(a[1..], b[1..]);
      if a[1..] == b[1..] {
        assert a == [a[0]] + a[1..] && b == [b[0]] + b[1..];
      }
    }
  }

  /** `Later` is a strict total order on moments. */
  lemma LaterIsStrictTotalOrder(a: Moment, b: Moment, c: Moment)
    ensures !Later(a, a)
    ensures Later(a, b) && Later(b, c) ==> Later(a, c)
    ensures a == b || Later(a, b) || Later(b, a)
  {
    PrecedesIrreflexive(Key(a));
    if Later(a, b) && Later(b, c) {
      PrecedesTransitive(Key(c), Key(b), Key(a));
    }
    PrecedesTotal(Key(a), Key(b));
  }

  /** A later year is a later moment, whatever the other fields. */
  lemma LaterYear(a: Moment, b: Moment)
    requires a.year > b.year
    ensures Later(a, b)
  {
  }

  // Digit fields of the custom format specifiers.

  predicate IsDigit(c: char) {
    '0' <= c <= '9'
  }

  function Digit(d: int): (c: char)
    requires 0 <= d <= 9
    ensures IsDigit(c)
  {
    ('0' as int + d) as char
  }

  function DigitValue(c: char): (d: int)
    requires IsDigit(c)
    ensures 0 <= d <= 9
  {
    c as int - '0' as int
  }

  predicate AllDigits(s: string) {
    forall i :: 0 <= i < |s| ==> IsDigit(s[i])
  }

  /** "dd", "MM", "HH", "mm": a value below 100, zero-padded to two digits. */
  function TwoDigits(n: int): (s: string)
    requires 0 <= n <= 99
    ensures |s| == 2 && AllDigits(s)
  {
    [Digit(n / 10), Digit(n % 10)]
  }

  /** "yyyy": a year below 10000, zero-padded to four digits. */
  function FourDigits(n: int): (s: string)
    requires 0 <= n <= 9999
    ensures |s| == 4 && AllDigits(s)
  {
    TwoDigits(n / 100) + TwoDigits(n % 100)
  }

  /** The number two digits denote in decimal. */
  function TwoDigitsValue(s: string): (n: int)
    requires |s| == 2 && AllDigits(s)
    ensures 0 <= n <= 99
  {
    10 * DigitValue(s[0]) + DigitValue(s[1])
  }

  /** The number four digits denote in decimal. */
  function FourDigitsValue(s: string): (n: int)
    requires |s| == 4 && AllDigits(s)
    ensures 0 <= n <= 9999
  {
    100 * TwoDigitsValue(s[..2]) + TwoDigitsValue(s[2..])
  }

  /** Reading back the two digits written for `n` gives `n`, and writing the
      value of any two digits gives those digits. */
  lemma TwoDigitsRoundTrip(n: int, s: string)
    ensures 0 <= n <= 99 ==> TwoDigitsValue(TwoDigits(n)) == n
    ensures |s| == 2 && AllDigits(s) ==> TwoDigits(TwoDigitsValue(s)) == s
  {
  }

  /** The same two directions for the four digits of a year. */
  lemma FourDigitsRoundTrip(n: int, s: string)
    ensures 0 <= n <= 9999 ==> FourDigitsValue(FourDigits(n)) == n
    ensures |s| == 4 && AllDigits(s) ==> FourDigits(FourDigitsValue(s)) == s
  {
    if 0 <= n <= 9999 {
      var t := FourDigits(n);
      assert t[..2] == TwoDigits(n / 100) && t[2..] == TwoDigits(n % 100);
      TwoDigitsRoundTrip(n / 100, "");
      TwoDigitsRoundTrip(n % 100, "");
    }
    if |s| == 4 && AllDigits(s) {
      var hi, lo := TwoDigitsValue(s[..2]), TwoDigitsValue(s[2..]);
      assert (100 * hi + lo) / 100 == hi && (100 * hi + lo) % 100 == lo;
      TwoDigitsRoundTrip(0, s[..2]);
      TwoDigitsRoundTrip(0, s[2..]);
      assert s == s[..2] + s[2..];
    }
  }
}
