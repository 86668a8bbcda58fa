/** Java's `LocalDateTime` and the two ways the job turns one into text: its
    `toString()` (ISO-8601, used inside an error report) and the pattern
    `yyyy-MM-dd-HH-mm-ss` (used in an error report's storage key). */
module TimeFormat {

  datatype LocalDateTime = LocalDateTime(
    year: int, month: int, day: int,
    hour: int, minute: int, second: int, nano: int)

  predicate IsLeapYear(y: int) {
    y % 4 == 0 && (y % 100 != 0 || y % 400 == 0)
  }

  function DaysInMonth(y: int, m: int): int {
    if m == 2 then (if IsLeapYear(y) then 29 else 28)
    else if m == 4 || m == 6 || m == 9 || m == 11 then 30
    else 31
  }

  /** A date-time a Java clock or parser can produce, restricted to the current era
      (years 1 to 999999999), where `toString()` and the `yyyy` pattern print the year alike. */
  predicate ValidDateTime(t: LocalDateTime) {
    && 1 <= t.year <= 999_999_999
    && 1 <= t.month <= 12
    && 1 <= t.day <= DaysInMonth(t.year, t.month)
    && 0 <= t.hour < 24
    && 0 <= t.minute < 60
    && 0 <= t.second < 60
    && 0 <= t.nano < 1_000_000_000
  }

  type DateTime = t: LocalDateTime | ValidDateTime(t)
    witness LocalDateTime(1970, 1, 1, 0, 0, 0, 0)

  /** A date-time truncated to the second: what the report-key pattern can show. */
  datatype Stamp = Stamp(year: int, month: int, day: int, hour: int, minute: int, second: int)

  function ToSeconds(t: DateTime): Stamp {
    Stamp(t.year, t.month, t.day, t.hour, t.minute, t.second)
  }

  function DigitChar(d: int): char
    requires 0 <= d < 10
  {
    ('0' as int + d) as char
  }

  function DigitValue(c: char): int {
    c as int - '0' as int
  }

  function Pow10(w: nat): nat {
    if w == 0 then 1 else 10 * Pow10(w - 1)
  }

  /** The last `w` decimal digits of `n`, with leading zeros. */
  function Fixed(n: nat, w: nat): (s: string)
    ensures |s| == w
  {
    if w == 0 then [] else Fixed(n / 10, w - 1) + [DigitChar(n % 10)]
  }

  /** The decimal digits of `n` without leading zeros (`Long.toString`). */
  function Digits(n: nat): string {
    if n < 10 then [DigitChar(n)] else Digits(n / 10) + [DigitChar(n % 10)]
  }

  /** The number a string of decimal digits denotes. */
  function DecimalValue(s: string): int {
    if s == [] then 0 else DecimalValue(s[..|s| - 1]) * 10 + DigitValue(s[|s| - 1])
  }

  /** A year as both `LocalDate.toString()` and the pattern `yyyy` print it: four digits
      with leading zeros, and a `+` sign before years that need more than four. */
  function YearText(y: nat): string {
    if y <= 9999 then Fixed(y, 4) else "+" + Digits(y)
  }

  /** `LocalDateTime.now().format(ofPattern("yyyy-MM-dd-HH-mm-ss"))`. */
  function KeyStamp(t: DateTime): string {
    YearText(t.year) + "-" + Fixed(t.month, 2) + "-" + Fixed(t.day, 2) + "-"
      + Fixed(t.hour, 2) + "-" + Fixed(t.minute, 2) + "-" + Fixed(t.second, 2)
  }

  /** The fraction `LocalTime.toString()` appends after the seconds: nothing for a whole
      second, else a dot and 3, 6 or 9 digits, the fewest that show the nanoseconds exactly. */
  function FractionText(nano: nat): string {
    if nano == 0 then ""
    else if nano % 1_000_000 == 0 then "." + Fixed(nano / 1_000_000, 3)
    else if nano % 1000 == 0 then "." + Fixed(nano / 1000, 6)
    else "." + Fixed(nano, 9)
  }

  /** `LocalDateTime.toString()`: `uuuu-MM-ddTHH:mm`, then `:ss` and the fraction unless
      both the seconds and the nanoseconds are zero. */
  function IsoText(t: DateTime): string {
    YearText(t.year) + "-" + Fixed(t.month, 2) + "-" + Fixed(t.day, 2) + "T"
      + Fixed(t.hour, 2) + ":" + Fixed(t.minute, 2)
      + (if t.second == 0 && t.nano == 0 then "" else ":" + Fixed(t.second, 2) + FractionText(t.nano))
  }

  /** Reads a key stamp back into the date-time fields it shows. */
  function ParseKeyStamp(s: string): Stamp
    requires |s| == 19
  {
    Stamp(DecimalValue(s[0..4]), DecimalValue(s[5..7]), DecimalValue(s[8..10]),
          DecimalValue(s[11..13]), DecimalValue(s[14..16]), DecimalValue(s[17..19]))
  }

  lemma {:induction false} FixedRoundTrip(n: nat, w: nat)
    requires n < Pow10(w)
    ensures DecimalValue(Fixed(n, w)) == n
  {
    if w > 0 {
      assert n / 10 < Pow10(w - 1);
      FixedRoundTrip(n / 10, w - 1);
      var s := Fixed(n, w);
      assert s[..|s| - 1] == Fixed(n / 10, w - 1);
      assert DigitValue(s[|s| - 1]) == n % 10;
    }
  }

  /** A four-digit year yields a 19-character key stamp that reads back as the
      date-time truncated to the second. */
  lemma KeyStampRoundTrip(t: DateTime)
    requires t.year <= 9999
    ensures |KeyStamp(t)| == 19
    ensures ParseKeyStamp(KeyStamp(t)) == ToSeconds(t)
  {
    var y, mo, d := Fixed(t.year, 4), Fixed(t.month, 2), Fixed(t.day, 2);
    var h, mi, s := Fixed(t.hour, 2), Fixed(t.minute, 2), Fixed(t.second, 2);
    var k := KeyStamp(t);
    assert k == y + "-" + mo + "-" + d + "-" + h + "-" + mi + "-" + s;
    assert k[0..4] == y;
    assert k[5..7] == mo;
    assert k[8..10] == d;
    assert k[11..13] == h;
    assert k[14..16] == mi;
    assert k[17..19] == s;
    assert Pow10(2) == 100 && Pow10(4) == 10000;
    FixedRoundTrip(t.year, 4);
    FixedRoundTrip(t.month, 2);
    FixedRoundTrip(t.day, 2);
    FixedRoundTrip(t.hour, 2);
    FixedRoundTrip(t.minute, 2);
    FixedRoundTrip(t.second, 2);
  }

  /** Two clock readings with four-digit years give the same key stamp exactly when
      they fall in the same second: the stamp resolves time down to the second and no further. */
  lemma KeyStampIdentifiesSecond(t1: DateTime, t2: DateTime)
    requires t1.year <= 9999 && t2.year <= 9999
    ensures KeyStamp(t1) == KeyStamp(t2) <==> ToSeconds(t1) == ToSeconds(t2)
  {
    KeyStampRoundTrip(t1);
    KeyStampRoundTrip(t2);
  }

  /** `toString()` omits the seconds of a whole minute and otherwise prints 0, 3, 6 or 9
      fraction digits. */
  lemma IsoTextLength(t: DateTime)
    requires t.year <= 9999
    ensures t.second == 0 && t.nano == 0 ==> |IsoText(t)| == 16
    ensures (t.second != 0 || t.nano != 0) && t.nano == 0 ==> |IsoText(t)| == 19
    ensures t.nano != 0 && t.nano % 1_000_000 == 0 ==> |IsoText(t)| == 23
    ensures t.nano % 1_000_000 != 0 && t.nano % 1000 == 0 ==> |IsoText(t)| == 26
    ensures t.nano % 1000 != 0 ==> |IsoText(t)| == 29
  {
  }
}
