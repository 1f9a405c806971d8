/**
 * UTC civil date-times as pandas holds them after `pd.to_datetime(..., utc=True)`,
 * their instant in nanoseconds since the epoch, and the fixed text form
 * `YYYY-MM-DDTHH:MM:SSZ` that the publisher writes and reads back.
 */
module Calendar {
  import opened Wrappers

  const NanosPerSecond: int := 1_000_000_000

  datatype Civil = Civil(year: int, month: int, day: int,
                         hour: int, minute: int, second: int, nanos: int)

  predicate IsLeapYear(y: int) {
    y % 4 == 0 && (y % 100 != 0 || y % 400 == 0)
  }

  function DaysInMonth(y: int, m: int): int
    requires 1 <= m <= 12
  {
    if m == 2 then (if IsLeapYear(y) then 29 else 28)
    else if m == 4 || m == 6 || m == 9 || m == 11 then 30
    else 31
  }

  /** A real calendar instant whose year has four digits (pandas covers 1677-2262). */
  predicate ValidCivil(c: Civil) {
    && 0 <= c.year <= 9999
    && 1 <= c.month <= 12
    && 1 <= c.day <= DaysInMonth(c.year, c.month)
    && 0 <= c.hour < 24 && 0 <= c.minute < 60 && 0 <= c.second < 60
    && 0 <= c.nanos < NanosPerSecond
  }

  type DateTime = c: Civil | ValidCivil(c) witness Civil(1970, 1, 1, 0, 0, 0, 0)

  /** Days from 1970-01-01 to the given proleptic Gregorian date. */
  function DaysFromCivil(y: int, m: int, d: int): int
    requires 1 <= m <= 12
  {
    var y' := if m <= 2 then y - 1 else y;
    var era := y' / 400;
    var yoe := y' - era * 400;
    var mp := (m + 9) % 12;
    var doy := (153 * mp + 2) / 5 + d - 1;
    var doe := yoe * 365 + yoe / 4 - yoe / 100 + doy;
    era * 146097 + doe - 719468
  }

  /** The instant as pandas stores it: nanoseconds since 1970-01-01T00:00:00Z. */
  function EpochNanos(t: DateTime): int {
    var secs := DaysFromCivil(t.year, t.month, t.day) * 86400
                + t.hour * 3600 + t.minute * 60 + t.second;
    secs * NanosPerSecond + t.nanos
  }

  /** The same instant with its sub-second part dropped, as `strftime` prints it. */
  function WholeSeconds(t: DateTime): (w: DateTime)
    ensures EpochNanos(w) == EpochNanos(t) - t.nanos
    ensures w.nanos == 0
  {
    t.(nanos := 0)
  }

  function DigitChar(d: int): char
    requires 0 <= d < 10
  {
    "0123456789"[d]
  }

  predicate IsDigit(c: char) { '0' <= c <= '9' }

  function DigitValue(c: char): (d: int)
    requires IsDigit(c)
    ensures 0 <= d < 10
  {
    c as int - '0' as int
  }

  lemma DigitRoundTrip(d: int)
    requires 0 <= d < 10
    ensures IsDigit(DigitChar(d)) && DigitValue(DigitChar(d)) == d
  {
  }

  /** `n` in exactly `width` decimal digits, most significant first. */
  function Digits(n: int, width: nat): (s: string)
    requires 0 <= n
    ensures |s| == width
    ensures forall i :: 0 <= i < |s| ==> IsDigit(s[i])
  {
    if width == 0 then []
    else
      DigitRoundTrip(n % 10);
      Digits(n / 10, width - 1) + [DigitChar(n % 10)]
  }

  /** The number written by a string of decimal digits. */
  function ReadDigits(s: string): (n: int)
    requires forall i :: 0 <= i < |s| ==> IsDigit(s[i])
    ensures 0 <= n
  {
    if s == [] then 0
    else ReadDigits(s[..|s| - 1]) * 10 + DigitValue(s[|s| - 1])
  }

  function Pow10(k: nat): (p: int)
    ensures p >= 1
  {
    if k == 0 then 1 else 10 * Pow10(k - 1)
  }

  /** Reading back `width` digits of `n` gives `n` whenever `n` fits in them. */
  lemma {:induction false} ReadDigitsOfDigits(n: int, width: nat)
    requires 0 <= n < Pow10(width)
    ensures ReadDigits(Digits(n, width)) == n
  {
    if width > 0 {
      var s := Digits(n, width);
      DigitRoundTrip(n % 10);
      assert s[..|s| - 1] == Digits(n / 10, width - 1);
      ReadDigitsOfDigits(n / 10, width - 1);
    }
  }

  /** The shape of `YYYY-MM-DDTHH:MM:SSZ`: separators in place, digits elsewhere. */
  predicate IsoShape(s: string) {
    && |s| == 20
    && s[4] == '-' && s[7] == '-' && s[10] == 'T'
    && s[13] == ':' && s[16] == ':' && s[19] == 'Z'
    && forall i :: i in {0, 1, 2, 3, 5, 6, 8, 9, 11, 12, 14, 15, 17, 18} ==> IsDigit(s[i])
  }

  /** `strftime("%Y-%m-%dT%H:%M:%SZ")`: the fields in fixed width, sub-seconds dropped. */
  function FormatIsoZ(t: DateTime): (s: string)
    ensures IsoShape(s)
  {
    Digits(t.year, 4) + "-" + Digits(t.month, 2) + "-" + Digits(t.day, 2) + "T"
    + Digits(t.hour, 2) + ":" + Digits(t.minute, 2) + ":" + Digits(t.second, 2) + "Z"
  }

  /**
   * Reads a `YYYY-MM-DDTHH:MM:SSZ` string as a UTC instant; `None` when the
   * string does not have that shape or names no real date and time.
   */
  function ParseIsoZ(s: string): (r: Option<DateTime>)
    ensures r.Some? ==> IsoShape(s) && r.value.nanos == 0
  {
    if !IsoShape(s) then None
    else
      var c := Civil(ReadDigits(s[0..4]), ReadDigits(s[5..7]), ReadDigits(s[8..10]),
                     ReadDigits(s[11..13]), ReadDigits(s[14..16]), ReadDigits(s[17..19]), 0);
      if ValidCivil(c) then Some(c) else None
  }

  /**
   * The publisher's text form loses nothing but the sub-seconds: reading it
   * back gives the same instant to the second.
   */
  lemma ParseFormatIsoZ(t: DateTime)
    ensures ParseIsoZ(FormatIsoZ(t)) == Some(WholeSeconds(t))
  {
    var s := FormatIsoZ(t);
    assert s[0..4] == Digits(t.year, 4);
    assert s[5..7] == Digits(t.month, 2);
    assert s[8..10] == Digits(t.day, 2);
    assert s[11..13] == Digits(t.hour, 2);
    assert s[14..16] == Digits(t.minute, 2);
    assert s[17..19] == Digits(t.second, 2);
    ReadDigitsOfDigits(t.year, 4);
    ReadDigitsOfDigits(t.month, 2);
    ReadDigitsOfDigits(t.day, 2);
    ReadDigitsOfDigits(t.hour, 2);
    ReadDigitsOfDigits(t.minute, 2);
    ReadDigitsOfDigits(t.second, 2);
  }
}
