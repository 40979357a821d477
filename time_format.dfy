/** The chat's `formatTime`: a local clock reading rendered as a 12-hour time such as
    "9:05 PM". The parsing of the ISO timestamp into local hours and minutes belongs to
    the JavaScript `Date` runtime and is taken as given: a `LocalTime` is its outcome. */
module TimeFormat {

  /** What `Date.getHours()` returns for a valid date. */
  type Hour = h: int | 0 <= h < 24
  /** What `Date.getMinutes()` returns for a valid date. */
  type Minute = m: int | 0 <= m < 60

  /** The local time a message timestamp denotes, or an invalid date (a missing or
      unparsable timestamp, for which both getters return NaN). */
  datatype LocalTime = At(hours: Hour, minutes: Minute) | InvalidDate

  predicate IsDigit(c: char) {
    '0' <= c <= '9'
  }

  predicate AllDigits(s: string) {
    forall k :: 0 <= k < |s| ==> IsDigit(s[k])
  }

  function DigitValue(c: char): (d: int)
    requires IsDigit(c)
    ensures 0 <= d < 10
  {
    c as int - '0' as int
  }

  function DigitChar(d: int): (c: char)
    requires 0 <= d < 10
    ensures IsDigit(c) && DigitValue(c) == d
  {
    ('0' as int + d) as char
  }

  /** The number a string of decimal digits denotes. */
  function DecimalValue(s: string): nat
    requires AllDigits(s)
  {
    if s == [] then 0 else DecimalValue(s[..|s| - 1]) * 10 + DigitValue(s[|s| - 1])
  }

  /** How JavaScript turns a non-negative integer into a string (inside a template
      literal or `'0' + n`): decimal digits without leading zeros. */
  function Decimal(n: nat): (r: string)
    ensures AllDigits(r) && DecimalValue(r) == n
    ensures n < 10 ==> |r| == 1
    ensures 10 <= n < 100 ==> |r| == 2
    ensures r[0] != '0' || n == 0
  {
    if n < 10 then [DigitChar(n)]
    else
      var r := Decimal(n / 10) + [DigitChar(n % 10)];
      assert r[..|r| - 1] == Decimal(n / 10);
      r
  }

  /** `hours % 12 || 12`: the hour on a 12-hour dial, same hour modulo 12. */
  function ClockHour(h: Hour): (r: int)
    ensures 1 <= r <= 12 && r % 12 == h % 12
  {
    if h % 12 == 0 then 12 else h % 12
  }

  function Meridiem(h: Hour): string {
    if h >= 12 then "PM" else "AM"
  }

  /** `minutes < 10 ? '0' + minutes : minutes`: always exactly two digits. */
  function MinutesText(m: Minute): (r: string)
    ensures |r| == 2 && AllDigits(r) && DecimalValue(r) == m
  {
    if m < 10 then
      var r := "0" + Decimal(m);
      assert r[..1] == "0";
      r
    else Decimal(m)
  }

  /** `formatTime`. For an invalid date JavaScript computes NaN for both fields:
      NaN >= 12 is false, so the suffix is AM; NaN % 12 is falsy, so the hour is 12;
      NaN < 10 is false, so the minutes print as "NaN". */
  function FormatTime(t: LocalTime): string {
    match t
    case InvalidDate => "12:NaN AM"
    case At(h, m) => Decimal(ClockHour(h)) + ":" + MinutesText(m) + " " + Meridiem(h)
  }

  /** Reads a rendered "h:mm AM" / "h:mm PM" time back into a 24-hour local time;
      anything else reads as an invalid date. The inverse of `FormatTime`. */
  function ReadTime(s: string): LocalTime {
    if |s| != 7 && |s| != 8 then InvalidDate
    else
      var n := |s| - 6;
      var hs, ms, suffix := s[..n], s[n + 1..n + 3], s[n + 4..];
      if s[n] == ':' && s[n + 3] == ' ' && AllDigits(hs) && AllDigits(ms)
         && (suffix == "AM" || suffix == "PM") then
        var hv, mv := DecimalValue(hs), DecimalValue(ms);
        if 1 <= hv <= 12 && mv < 60 then
          At(hv % 12 + (if suffix == "PM" then 12 else 0), mv)
        else InvalidDate
      else InvalidDate
  }

  /** The layout of a formatted valid time: one or two hour digits denoting a value in
      1..12 congruent to the hour modulo 12, a colon, exactly two minute digits
      denoting the minutes, a space, and "AM" exactly when the hour is before noon. */
  lemma FormatTimeLayout(h: Hour, m: Minute)
    ensures var r := FormatTime(At(h, m));
            var n := |r| - 6;
            && (n == 1 || n == 2)
            && AllDigits(r[..n]) && 1 <= DecimalValue(r[..n]) <= 12
            && DecimalValue(r[..n]) % 12 == h % 12
            && r[n] == ':'
            && AllDigits(r[n + 1..n + 3]) && DecimalValue(r[n + 1..n + 3]) == m
            && r[n + 3] == ' '
            && (r[n + 4..] == "AM" <==> h < 12)
            && (r[n + 4..] == "AM" || r[n + 4..] == "PM")
  {
    var hs, ms, mer := Decimal(ClockHour(h)), MinutesText(m), Meridiem(h);
    var r := FormatTime(At(h, m));
    assert r == hs + ":" + ms + " " + mer;
    var n := |hs|;
    assert |r| == n + 6;
    assert r[..n] == hs;
    assert r[n + 1..n + 3] == ms;
    assert r[n + 4..] == mer;
  }

  /** Midnight is 12 AM and noon is 12 PM. */
  lemma MidnightAndNoon()
    ensures FormatTime(At(0, 0)) == "12:00 AM"
    ensures FormatTime(At(12, 30)) == "12:30 PM"
    ensures FormatTime(At(21, 5)) == "9:05 PM"
  {
  }

  /** Formatting loses nothing: reading a formatted time back gives the original,
      for valid and invalid dates alike. */
  lemma ReadFormattedTime(t: LocalTime)
    ensures ReadTime(FormatTime(t)) == t
  {
    if t.At? {
      var h, m := t.hours, t.minutes;
      FormatTimeLayout(h, m);
      var r := FormatTime(t);
      var n := |r| - 6;
      var hv, mv := DecimalValue(r[..n]), DecimalValue(r[n + 1..n + 3]);
      var pm := r[n + 4..] == "PM";
      assert ReadTime(r) == At(hv % 12 + (if pm then 12 else 0), mv);
      assert hv % 12 == h % 12;
      if h < 12 {
        assert !pm;
      } else {
        assert pm && h % 12 == h - 12;
      }
    }
  }

  /** Two different local times never format to the same text. */
  lemma FormatTimeInjective(t1: LocalTime, t2: LocalTime)
    requires FormatTime(t1) == FormatTime(t2)
    ensures t1 == t2
  {
    ReadFormattedTime(t1);
    ReadFormattedTime(t2);
  }
}
