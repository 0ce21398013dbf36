/** The digital readout of the clock: the wall-clock hour shown in 12- or
    24-hour form, and each of hours, minutes and seconds written with at
    least two decimal digits. */
module Display {

  // ---------------------------------------------------------------------
  // Decimal text of a natural number, as a JavaScript number becomes a
  // string when it is assigned to a text field.
  // ---------------------------------------------------------------------

  predicate IsDigit(c: char) {
    '0' <= c <= '9'
  }

  predicate AllDigits(s: string) {
    forall i :: 0 <= i < |s| ==> IsDigit(s[i])
  }

  function DigitChar(d: nat): (c: char)
    requires d < 10
    ensures IsDigit(c) && c as int - '0' as int == d
  {
    ('0' as int + d) as char
  }

  function DigitValue(c: char): (d: nat)
    requires IsDigit(c)
    ensures d < 10 && DigitChar(d) == c
  {
    c as int - '0' as int
  }

  /** The shortest decimal numeral of n: no leading zero except for 0 itself. */
  function Decimal(n: nat): (s: string)
    ensures 1 <= |s| && AllDigits(s)
    ensures |s| == 1 <==> n < 10
    ensures |s| > 1 ==> s[0] != '0'
    decreases n
  {
    if n < 10 then [DigitChar(n)] else Decimal(n / 10) + [DigitChar(n % 10)]
  }

  /** Reads a numeral back: the value of a string of decimal digits. */
  function ParseDecimal(s: string): (n: nat)
    requires AllDigits(s)
    decreases |s|
  {
    if s == [] then 0
    else ParseDecimal(s[..|s| - 1]) * 10 + DigitValue(s[|s| - 1])
  }

  lemma {:induction false} ParseDecimalOfDecimal(n: nat)
    ensures ParseDecimal(Decimal(n)) == n
    decreases n
  {
    if n >= 10 {
      var s := Decimal(n);
      assert s[..|s| - 1] == Decimal(n / 10);
      ParseDecimalOfDecimal(n / 10);
    }
  }

  /** A leading '0' does not change the value a numeral reads as. */
  lemma {:induction false} ParseDecimalLeadingZero(s: string)
    requires AllDigits(s)
    ensures ParseDecimal("0" + s) == ParseDecimal(s)
    decreases |s|
  {
    if s != [] {
      var t := "0" + s;
      assert t[..|t| - 1] == "0" + s[..|s| - 1];
      ParseDecimalLeadingZero(s[..|s| - 1]);
    }
  }

  // ---------------------------------------------------------------------
  // Two-digit padding: `v < 10 ? '0' + v : v`
  // ---------------------------------------------------------------------

  /** A field of the readout: '0' prepended to a single-digit value. */
  function Pad(n: nat): (s: string)
    ensures AllDigits(s)
    ensures n < 100 ==> |s| == 2
    ensures n < 100 ==> (s[0] == '0' <==> n < 10)
  {
    if n < 10 then "0" + Decimal(n) else Decimal(n)
  }

  /** Every value below 100 shows as exactly its tens digit and its units digit. */
  lemma PadDigits(n: nat)
    requires n < 100
    ensures Pad(n) == [DigitChar(n / 10), DigitChar(n % 10)]
  {
    if n >= 10 {
      assert Decimal(n / 10) == [DigitChar(n / 10)];
    }
  }

  /** Reading a padded field back yields the value it was made from. */
  lemma PadRoundTrip(n: nat)
    ensures ParseDecimal(Pad(n)) == n
  {
    ParseDecimalOfDecimal(n);
    if n < 10 {
      ParseDecimalLeadingZero(Decimal(n));
    }
  }

  /** Padding is one-to-one: two different values never show alike. */
  lemma PadInjective(a: nat, b: nat)
    requires Pad(a) == Pad(b)
    ensures a == b
  {
    PadRoundTrip(a);
    PadRoundTrip(b);
  }

  // ---------------------------------------------------------------------
  // The hour shown: `if (!is24Hour) h = h % 12 || 12`
  // ---------------------------------------------------------------------

  /** The hour as displayed. In 24-hour form the wall-clock hour passes
      through; in 12-hour form it is the hour of the 12-hour dial, the
      representative of h modulo 12 that lies in 1..12. */
  function DisplayHour(h: nat, is24Hour: bool): (r: nat)
    ensures is24Hour ==> r == h
    ensures !is24Hour ==> 1 <= r <= 12 && r % 12 == h % 12
  {
    if is24Hour then h
    else
      var dial := h % 12;
      if dial == 0 then 12 else dial
  }

  /** The 12-hour table for the hours a clock reports: midnight and noon
      show 12, the morning hours show as they are, the afternoon hours
      lose twelve. */
  lemma TwelveHourTable(h: nat)
    requires h < 24
    ensures h == 0 || h == 12 ==> DisplayHour(h, false) == 12
    ensures 1 <= h <= 11 ==> DisplayHour(h, false) == h
    ensures 13 <= h ==> DisplayHour(h, false) == h - 12
  {
  }

  /** In 24-hour form a valid hour stays a valid hour. */
  lemma TwentyFourHourRange(h: nat)
    requires h < 24
    ensures DisplayHour(h, true) < 24
  {
  }

  /** An hour in the morning and the same hour in the afternoon show alike on
      the 12-hour dial, and no two other hours of the day do. */
  lemma TwelveHourCollisions(h: nat, k: nat)
    requires h < 24 && k < 24
    ensures DisplayHour(h, false) == DisplayHour(k, false) <==> h % 12 == k % 12
  {
  }

  // ---------------------------------------------------------------------
  // The readout
  // ---------------------------------------------------------------------

  /** The three text fields of the digital display. */
  datatype Readout = Readout(hours: string, minutes: string, seconds: string)

  /** What the display shows for the wall-clock fields of one time sample. */
  function DigitalReadout(h: nat, m: nat, s: nat, is24Hour: bool): (r: Readout)
    ensures |r.hours| >= 2 && |r.minutes| >= 2 && |r.seconds| >= 2
    ensures AllDigits(r.hours) && AllDigits(r.minutes) && AllDigits(r.seconds)
  {
    Readout(Pad(DisplayHour(h, is24Hour)), Pad(m), Pad(s))
  }

  /** For any time a clock reports, each field is two digits and reads back
      as the displayed hour, the minute and the second. */
  lemma ReadoutRoundTrip(h: nat, m: nat, s: nat, is24Hour: bool)
    requires h < 24 && m < 60 && s < 60
    ensures var r := DigitalReadout(h, m, s, is24Hour);
      && |r.hours| == 2 && |r.minutes| == 2 && |r.seconds| == 2
      && AllDigits(r.hours) && AllDigits(r.minutes) && AllDigits(r.seconds)
      && ParseDecimal(r.hours) == DisplayHour(h, is24Hour)
      && ParseDecimal(r.minutes) == m
      && ParseDecimal(r.seconds) == s
  {
    PadRoundTrip(DisplayHour(h, is24Hour));
    PadRoundTrip(m);
    PadRoundTrip(s);
  }

  /** The format flag decides the hour field only. */
  lemma FormatOnlyAffectsHours(h: nat, m: nat, s: nat, a: bool, b: bool)
    ensures DigitalReadout(h, m, s, a).minutes == DigitalReadout(h, m, s, b).minutes
    ensures DigitalReadout(h, m, s, a).seconds == DigitalReadout(h, m, s, b).seconds
  {
  }

  /** The two formats show the same hour field exactly for the hours 1 to 12. */
  lemma HourFieldAgrees(h: nat, m: nat, s: nat)
    requires h < 24
    ensures DigitalReadout(h, m, s, true).hours == DigitalReadout(h, m, s, false).hours
        <==> 1 <= h <= 12
  {
    if DigitalReadout(h, m, s, true).hours == DigitalReadout(h, m, s, false).hours {
      PadInjective(DisplayHour(h, true), DisplayHour(h, false));
    }
  }

  /** The afternoon example: 14:05:09 reads "14" "05" "09" in 24-hour form
      and "02" "05" "09" in 12-hour form; midnight shows hour "12". */
  lemma ReadoutExamples()
    ensures DigitalReadout(14, 5, 9, true) == Readout("14", "05", "09")
    ensures DigitalReadout(14, 5, 9, false) == Readout("02", "05", "09")
    ensures DigitalReadout(0, 0, 0, false).hours == "12"
  {
  }
}
