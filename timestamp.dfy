/**
 * Transaction dates. A transaction's date is written as text in the fixed
 * format "YYYY-MM-DD HH:MM:SS" (the format "%Y-%m-%d %H:%M:%S" of strftime);
 * reading a stored transaction back parses that text into a date and time
 * (strptime with the same format) and fails when it does not match.
 */
module Timestamp {
  import opened Wrappers

  /** A calendar date and a time of day, to the second. */
  datatype DateTime = DateTime(year: int, month: int, day: int, hour: int, minute: int, second: int)

  predicate IsLeapYear(y: int) {
    y % 4 == 0 && (y % 100 != 0 || y % 400 == 0)
  }

  function DaysInMonth(y: int, m: int): int
    requires 1 <= m <= 12
  {
    if m == 2 then (if IsLeapYear(y) then 29 else 28)
    else if m == 4 || m == 6 || m == 9 || m == 11 then 30
    else 31
  }

  /** The date-times a datetime object can hold (years 1 to 9999, real calendar days). */
  predicate Valid(d: DateTime) {
    && 1 <= d.year <= 9999
    && 1 <= d.month <= 12
    && 1 <= d.day <= DaysInMonth(d.year, d.month)
    && 0 <= d.hour <= 23
    && 0 <= d.minute <= 59
    && 0 <= d.second <= 59
  }

  /** A point in time as the clock reports it. */
  type Moment = d: DateTime | Valid(d) witness DateTime(1970, 1, 1, 0, 0, 0)

  predicate IsDigit(c: char) {
    '0' <= c <= '9'
  }

  predicate AllDigits(s: string) {
    forall i :: 0 <= i < |s| ==> IsDigit(s[i])
  }

  function Pow10(w: nat): nat {
    if w == 0 then 1 else 10 * Pow10(w - 1)
  }

  /** The quotient of `n` by ten (the bounds pin it down), computed by repeated subtraction. */
  function Quotient10(n: nat): (q: nat)
    ensures 10 * q <= n < 10 * q + 10
  {
    if n < 10 then 0 else 1 + Quotient10(n - 10)
  }

  /** The last `w` decimal digits of `n`, zero-padded to width `w`. */
  function Digits(n: nat, w: nat): (s: string)
    ensures |s| == w
  {
    if w == 0 then "" else Digits(Quotient10(n), w - 1) + [('0' as int + (n - 10 * Quotient10(n))) as char]
  }

  /** The number a string of decimal digits denotes. */
  function DigitsValue(s: string): nat
    requires AllDigits(s)
  {
    if s == [] then 0 else 10 * DigitsValue(s[..|s| - 1]) + (s[|s| - 1] as int - '0' as int)
  }

  lemma {:induction false} DigitsThenValue(n: nat, w: nat)
    requires n < Pow10(w)
    ensures AllDigits(Digits(n, w)) && DigitsValue(Digits(n, w)) == n
  {
    if w > 0 {
      var s := Digits(n, w);
      assert s[..|s| - 1] == Digits(n / 10, w - 1);
      DigitsThenValue(n / 10, w - 1);
    }
  }

  lemma {:induction false} ValueThenDigits(s: string)
    requires AllDigits(s)
    ensures DigitsValue(s) < Pow10(|s|)
    ensures Digits(DigitsValue(s), |s|) == s
  {
    if s != [] {
      var p := s[..|s| - 1];
      ValueThenDigits(p);
      var v, d := DigitsValue(p), s[|s| - 1] as int - '0' as int;
      assert DigitsValue(s) == 10 * v + d;
      assert (10 * v + d) / 10 == v && (10 * v + d) % 10 == d;
      assert s == p + [s[|s| - 1]];
    }
  }

  /** strftime("%Y-%m-%d %H:%M:%S"). */
  function Format(d: Moment): (s: string)
    ensures |s| == 19
  {
    Digits(d.year, 4) + "-" + Digits(d.month, 2) + "-" + Digits(d.day, 2) + " " +
    Digits(d.hour, 2) + ":" + Digits(d.minute, 2) + ":" + Digits(d.second, 2)
  }

  /** The fields of a string laid out as "DDDD-DD-DD DD:DD:DD", read as numbers. */
  predicate Shaped(s: string) {
    && |s| == 19
    && s[4] == '-' && s[7] == '-' && s[10] == ' ' && s[13] == ':' && s[16] == ':'
    && AllDigits(s[0..4]) && AllDigits(s[5..7]) && AllDigits(s[8..10])
    && AllDigits(s[11..13]) && AllDigits(s[14..16]) && AllDigits(s[17..19])
  }

  function Fields(s: string): DateTime
    requires Shaped(s)
  {
    DateTime(DigitsValue(s[0..4]), DigitsValue(s[5..7]), DigitsValue(s[8..10]),
             DigitsValue(s[11..13]), DigitsValue(s[14..16]), DigitsValue(s[17..19]))
  }

  /** strptime(s, "%Y-%m-%d %H:%M:%S"), on zero-padded input: None where it raises. */
  function Parse(s: string): (r: Option<Moment>)
    ensures r.Some? ==> Shaped(s)
  {
    if Shaped(s) && Valid(Fields(s)) then Some(Fields(s)) else None
  }

  /** Where each field sits in the fixed layout. */
  lemma Layout(y: string, mo: string, d: string, h: string, mi: string, se: string)
    requires |y| == 4 && |mo| == 2 && |d| == 2 && |h| == 2 && |mi| == 2 && |se| == 2
    ensures var s := y + "-" + mo + "-" + d + " " + h + ":" + mi + ":" + se;
      && s[0..4] == y && s[5..7] == mo && s[8..10] == d
      && s[11..13] == h && s[14..16] == mi && s[17..19] == se
      && s[4] == '-' && s[7] == '-' && s[10] == ' ' && s[13] == ':' && s[16] == ':'
  {
  }

  /** Text laid out as "YYYY-MM-DD HH:MM:SS" with digit fields is shaped, and its fields are their values. */
  lemma ParseLayout(y: string, mo: string, d: string, h: string, mi: string, se: string)
    requires |y| == 4 && |mo| == 2 && |d| == 2 && |h| == 2 && |mi| == 2 && |se| == 2
    requires AllDigits(y) && AllDigits(mo) && AllDigits(d) && AllDigits(h) && AllDigits(mi) && AllDigits(se)
    ensures var s := y + "-" + mo + "-" + d + " " + h + ":" + mi + ":" + se;
      && Shaped(s)
      && Fields(s) == DateTime(DigitsValue(y), DigitsValue(mo), DigitsValue(d),
                               DigitsValue(h), DigitsValue(mi), DigitsValue(se))
  {
    Layout(y, mo, d, h, mi, se);
  }

  /** Formatting a date-time and parsing the text gives the same date-time back. */
  lemma ParseFormat(d: Moment)
    ensures Parse(Format(d)) == Some(d)
  {
    assert Pow10(2) == 100 && Pow10(4) == 10000;
    DigitsThenValue(d.year, 4);
    DigitsThenValue(d.month, 2);
    DigitsThenValue(d.day, 2);
    DigitsThenValue(d.hour, 2);
    DigitsThenValue(d.minute, 2);
    DigitsThenValue(d.second, 2);
    ParseLayout(Digits(d.year, 4), Digits(d.month, 2), Digits(d.day, 2),
                Digits(d.hour, 2), Digits(d.minute, 2), Digits(d.second, 2));
  }

  /** A string that parses is exactly the formatting of what it parses to. */
  lemma FormatParse(s: string)
    requires Parse(s).Some?
    ensures Format(Parse(s).value) == s
  {
    var m := Parse(s).value;
    assert m == Fields(s);
    ValueThenDigits(s[0..4]);
    ValueThenDigits(s[5..7]);
    ValueThenDigits(s[8..10]);
    ValueThenDigits(s[11..13]);
    ValueThenDigits(s[14..16]);
    ValueThenDigits(s[17..19]);
    assert s == s[0..4] + [s[4]] + s[5..7] + [s[7]] + s[8..10] + [s[10]] +
                s[11..13] + [s[13]] + s[14..16] + [s[16]] + s[17..19];
  }
}
