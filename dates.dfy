/** The launch date of an instance, printed as `strftime('%Y-%m-%d')` prints a datetime. */
module Dates {
  import opened Common
  import opened Text

  /** The calendar part of a launch timestamp; the time of day is never printed. */
  datatype Date = Date(year: nat, month: nat, day: nat)

  /** The ranges a Python datetime guarantees for its fields. */
  predicate ValidDate(d: Date) {
    1 <= d.year <= 9999 && 1 <= d.month <= 12 && 1 <= d.day <= 31
  }

  /** `%Y-%m-%d`: a four-digit year, two-digit month and day, all zero-padded. */
  function FormatDate(d: Date): string {
    ZeroPad(Digits(d.year), 4) + "-" + ZeroPad(Digits(d.month), 2) + "-" + ZeroPad(Digits(d.day), 2)
  }

  /** Reads a YYYY-MM-DD text back into a date. */
  function ParseDate(s: string): Option<Date> {
    if |s| == 10 && s[4] == '-' && s[7] == '-'
      && AllDigits(s[..4]) && AllDigits(s[5..7]) && AllDigits(s[8..])
    then Some(Date(DigitsValue(s[..4]), DigitsValue(s[5..7]), DigitsValue(s[8..])))
    else None
  }

  /** A formatted date has ten characters, dashes at positions 4 and 7, and reads back as the same date. */
  lemma FormatDateRoundTrip(d: Date)
    requires ValidDate(d)
    ensures |FormatDate(d)| == 10
    ensures FormatDate(d)[4] == '-' && FormatDate(d)[7] == '-'
    ensures ParseDate(FormatDate(d)) == Some(d)
  {
    assert Pow10(4) == 10000 && Pow10(2) == 100;
    DigitsLength(d.year, 4);
    DigitsLength(d.month, 2);
    DigitsLength(d.day, 2);
    PaddedDigitsRoundTrip(d.year, 4);
    PaddedDigitsRoundTrip(d.month, 2);
    PaddedDigitsRoundTrip(d.day, 2);
    var y, m, dd := ZeroPad(Digits(d.year), 4), ZeroPad(Digits(d.month), 2), ZeroPad(Digits(d.day), 2);
    var s := FormatDate(d);
    assert s == y + "-" + m + "-" + dd;
    assert s[..4] == y;
    assert s[5..7] == m;
    assert s[8..] == dd;
  }
}
