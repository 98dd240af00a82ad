/**
 * A reading of `datetime.now()` and the two renderings the decision tools
 * use: `strftime('%Y-%m-%d %H:%M:%S')` and `isoformat()`. The clock is
 * not read here: callers pass the reading in.
 */
module Clock {
  import opened Wrappers
  import opened Text

  datatype DateTime = DateTime(
    year: nat, month: nat, day: nat,
    hour: nat, minute: nat, second: nat, microsecond: nat)

  predicate IsLeapYear(y: nat) {
    (y % 4 == 0 && y % 100 != 0) || y % 400 == 0
  }

  function DaysInMonth(y: nat, m: nat): nat
    requires 1 <= m <= 12
  {
    if m == 2 then (if IsLeapYear(y) then 29 else 28)
    else if m == 4 || m == 6 || m == 9 || m == 11 then 30
    else 31
  }

  /** The values Python's `datetime` accepts (MINYEAR = 1, MAXYEAR = 9999). */
  predicate Valid(t: DateTime) {
    && 1 <= t.year <= 9999
    && 1 <= t.month <= 12
    && 1 <= t.day <= DaysInMonth(t.year, t.month)
    && t.hour < 24 && t.minute < 60 && t.second < 60
    && t.microsecond < 1000000
  }

  /** The part both renderings share after the date: `HH:MM:SS`. */
  function TimeOfDay(t: DateTime): string {
    Pad(t.hour, 2) + ":" + Pad(t.minute, 2) + ":" + Pad(t.second, 2)
  }

  /** `strftime('%Y-%m-%d %H:%M:%S')`: `%Y` is the year in decimal without
      padding, as the C library on Linux renders it. */
  function Strftime(t: DateTime): string {
    NatToString(t.year) + "-" + Pad(t.month, 2) + "-" + Pad(t.day, 2) + " " + TimeOfDay(t)
  }

  /** `isoformat()`: a four-digit year, a `T` separator, and `.ffffff`
      only when the microseconds are not zero. */
  function IsoFormat(t: DateTime): string {
    BaseStamp(t, 'T') + (if t.microsecond == 0 then "" else "." + Pad(t.microsecond, 6))
  }

  /** The shape `YYYY-MM-DD<sep>HH:MM:SS`, optionally followed by `.ffffff`. */
  predicate IsStamp(s: string, sep: char) {
    && (|s| == 19 || (|s| == 26 && s[19] == '.' && IsDigits(s[20..26])))
    && s[4] == '-' && s[7] == '-' && s[10] == sep && s[13] == ':' && s[16] == ':'
    && IsDigits(s[0..4]) && IsDigits(s[5..7]) && IsDigits(s[8..10])
    && IsDigits(s[11..13]) && IsDigits(s[14..16]) && IsDigits(s[17..19])
  }

  /** Reads a stamp of the shape above back into a reading. */
  function ParseStamp(s: string, sep: char): Option<DateTime> {
    if IsStamp(s, sep) then
      Some(DateTime(
        DigitsValue(s[0..4]), DigitsValue(s[5..7]), DigitsValue(s[8..10]),
        DigitsValue(s[11..13]), DigitsValue(s[14..16]), DigitsValue(s[17..19]),
        if |s| == 26 then DigitsValue(s[20..26]) else 0))
    else None
  }

  /** Date and time without microseconds, with the given separator. */
  function BaseStamp(t: DateTime, sep: char): string {
    Pad(t.year, 4) + "-" + Pad(t.month, 2) + "-" + Pad(t.day, 2) + [sep] + TimeOfDay(t)
  }

  lemma BaseStampFields(t: DateTime, sep: char)
    ensures var s := BaseStamp(t, sep);
      && |s| == 19
      && s[0..4] == Pad(t.year, 4) && s[5..7] == Pad(t.month, 2) && s[8..10] == Pad(t.day, 2)
      && s[11..13] == Pad(t.hour, 2) && s[14..16] == Pad(t.minute, 2) && s[17..19] == Pad(t.second, 2)
      && s[4] == '-' && s[7] == '-' && s[10] == sep && s[13] == ':' && s[16] == ':'
  {
    var s := BaseStamp(t, sep);
    var date := Pad(t.year, 4) + "-" + Pad(t.month, 2) + "-" + Pad(t.day, 2) + [sep];
    var time := TimeOfDay(t);
    assert s == date + time && |date| == 11 && |time| == 8;
    var y, mo, d := Pad(t.year, 4), Pad(t.month, 2), Pad(t.day, 2);
    var h, mi, se := Pad(t.hour, 2), Pad(t.minute, 2), Pad(t.second, 2);
    assert s[0..4] == y by { assert s[0] == y[0] && s[1] == y[1] && s[2] == y[2] && s[3] == y[3]; }
    assert s[5..7] == mo by { assert s[5] == mo[0] && s[6] == mo[1]; }
    assert s[8..10] == d by { assert s[8] == d[0] && s[9] == d[1]; }
    assert s[11..13] == h by { assert s[11] == h[0] && s[12] == h[1]; }
    assert s[14..16] == mi by { assert s[14] == mi[0] && s[15] == mi[1]; }
    assert s[17..19] == se by { assert s[17] == se[0] && s[18] == se[1]; }
  }

  /** The fields of a valid reading fit their widths, so each is read back. */
  lemma BaseStampRoundTrip(t: DateTime, sep: char)
    requires Valid(t)
    ensures var s := BaseStamp(t, sep);
      && IsStamp(s, sep)
      && DigitsValue(s[0..4]) == t.year && DigitsValue(s[5..7]) == t.month
      && DigitsValue(s[8..10]) == t.day && DigitsValue(s[11..13]) == t.hour
      && DigitsValue(s[14..16]) == t.minute && DigitsValue(s[17..19]) == t.second
  {
    BaseStampFields(t, sep);
    assert Pow10(2) == 100;
    assert Pow10(4) == 10000;
    PadRoundTrip(t.year, 4);
    PadRoundTrip(t.month, 2);
    PadRoundTrip(t.day, 2);
    PadRoundTrip(t.hour, 2);
    PadRoundTrip(t.minute, 2);
    PadRoundTrip(t.second, 2);
  }

  /** `isoformat()` is read back to the very same reading. */
  lemma IsoFormatRoundTrip(t: DateTime)
    requires Valid(t)
    ensures ParseStamp(IsoFormat(t), 'T') == Some(t)
  {
    var base := BaseStamp(t, 'T');
    var s := IsoFormat(t);
    BaseStampRoundTrip(t, 'T');
    if t.microsecond == 0 {
      assert s == base;
    } else {
      var frac := "." + Pad(t.microsecond, 6);
      assert s == base + frac;
      assert s[..19] == base;
      assert s[0..4] == base[0..4] && s[5..7] == base[5..7] && s[8..10] == base[8..10];
      assert s[11..13] == base[11..13] && s[14..16] == base[14..16] && s[17..19] == base[17..19];
      assert s[20..26] == Pad(t.microsecond, 6);
      assert Pow10(6) == 1000000;
      PadRoundTrip(t.microsecond, 6);
    }
  }

  /** A year of four digits renders the same with and without padding. */
  lemma {:induction false} NatToStringIsPad(n: nat, w: nat)
    requires w >= 1 && Pow10(w - 1) <= n < Pow10(w)
    ensures NatToString(n) == Pad(n, w)
  {
    if w > 1 {
      PowAtLeastTen(w - 1);
      NatToStringIsPad(n / 10, w - 1);
    }
  }

  /** From year 1000 on, the `strftime` stamp is the `isoformat()` one with
      a space for the `T` and without the microseconds, and it is read back
      to the reading with its microseconds dropped. */
  lemma StrftimeMatchesIsoFormat(t: DateTime)
    requires Valid(t) && t.year >= 1000
    ensures |Strftime(t)| == 19
    ensures Strftime(t)[..10] == IsoFormat(t)[..10] && Strftime(t)[10] == ' '
    ensures Strftime(t)[11..] == IsoFormat(t)[11..19]
    ensures ParseStamp(Strftime(t), ' ') == Some(t.(microsecond := 0))
  {
    assert Pow10(3) == 1000 && Pow10(4) == 10000;
    NatToStringIsPad(t.year, 4);
    assert Strftime(t) == BaseStamp(t, ' ');
    BaseStampFields(t, ' ');
    BaseStampFields(t, 'T');
    BaseStampRoundTrip(t, ' ');
    assert IsoFormat(t)[..19] == BaseStamp(t, 'T');
  }
}
