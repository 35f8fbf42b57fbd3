/**
 * `_.formatDate`: the fixed layout "Y-MM-DD HH:mm:ss.SSS" used for every
 * timestamp the library sends, and a parser that reads it back.
 */
module DateFormat {
  import opened Wrappers
  import opened Decimal
  import opened JsValues

  /** Leading zeros do not change the number a digit string denotes. */
  lemma {:induction false} ParseLeadingZero(s: string)
    requires AllDigits(s)
    ensures AllDigits("0" + s) && ParseDigits("0" + s) == ParseDigits(s)
    decreases |s|
  {
    if s != [] {
      ParseLeadingZero(s[..|s| - 1]);
      assert ("0" + s)[..|s|] == "0" + s[..|s| - 1];
    }
  }

  lemma SmallNatToString(n: nat)
    ensures n < 10 ==> |NatToString(n)| == 1
    ensures 10 <= n < 100 ==> |NatToString(n)| == 2
    ensures 100 <= n < 1000 ==> |NatToString(n)| == 3
  {
    if n >= 10 {
      SmallNatToString(n / 10);
    }
  }

  /** `pad(n)`: a leading '0' below ten. */
  function Pad2(n: nat): (s: string)
    requires n < 100
    ensures |s| == 2 && AllDigits(s) && ParseDigits(s) == n
  {
    NatToStringRoundTrip(n);
    SmallNatToString(n);
    ParseLeadingZero(NatToString(n));
    if n < 10 then "0" + NatToString(n) else NatToString(n)
  }

  /** `padMilliseconds(n)`: leading zeros up to three digits. */
  function Pad3(n: nat): (s: string)
    requires n < 1000
    ensures |s| == 3 && AllDigits(s) && ParseDigits(s) == n
  {
    NatToStringRoundTrip(n);
    SmallNatToString(n);
    ParseLeadingZero(NatToString(n));
    ParseLeadingZero("0" + NatToString(n));
    assert "00" + NatToString(n) == "0" + ("0" + NatToString(n));
    if n < 10 then "00" + NatToString(n)
    else if n < 100 then "0" + NatToString(n)
    else NatToString(n)
  }

  /** The part after the year: "-MM-DD HH:mm:ss.SSS", with the month counted from 1. */
  function TimeOfYear(d: DateTime): string {
    "-" + Pad2(d.month + 1) + "-" + Pad2(d.day) + " " + Pad2(d.hours) + ":" +
    Pad2(d.minutes) + ":" + Pad2(d.seconds) + "." + Pad3(d.millis)
  }

  /** The separators of "-MM-DD HH:mm:ss.SSS" at their offsets, digits everywhere else. */
  predicate IsTimeOfYearLayout(t: string) {
    && |t| == 19
    && t[0] == '-' && t[3] == '-' && t[6] == ' ' && t[9] == ':' && t[12] == ':' && t[15] == '.'
    && forall i :: 0 <= i < 19 && i !in {0, 3, 6, 9, 12, 15} ==> IsDigit(t[i])
  }

  /** `_.formatDate(d)`: the unpadded year, then the fixed-width rest. */
  function FormatDate(d: DateTime): string {
    IntToString(d.year) + TimeOfYear(d)
  }

  /** Fixed-width digit fields joined by the separators of "-MM-DD HH:mm:ss.SSS". */
  lemma JoinedLayout(mo: string, dd: string, hh: string, mi: string, ss: string, ms: string)
    requires |mo| == 2 && |dd| == 2 && |hh| == 2 && |mi| == 2 && |ss| == 2 && |ms| == 3
    requires AllDigits(mo) && AllDigits(dd) && AllDigits(hh) && AllDigits(mi) && AllDigits(ss) && AllDigits(ms)
    ensures var t := "-" + mo + "-" + dd + " " + hh + ":" + mi + ":" + ss + "." + ms;
      IsTimeOfYearLayout(t)
      && t[1..3] == mo && t[4..6] == dd && t[7..9] == hh && t[10..12] == mi && t[13..15] == ss && t[16..19] == ms
  {
    var t := "-" + mo + "-" + dd + " " + hh + ":" + mi + ":" + ss + "." + ms;
    assert t[1..3] == mo;
    assert t[4..6] == dd;
    assert t[7..9] == hh;
    assert t[10..12] == mi;
    assert t[13..15] == ss;
    assert t[16..19] == ms;
  }

  /** The part after the year has the fixed layout, and each field holds its padded number. */
  lemma TimeOfYearFields(d: DateTime)
    ensures var t := TimeOfYear(d);
      IsTimeOfYearLayout(t)
      && t[1..3] == Pad2(d.month + 1) && t[4..6] == Pad2(d.day) && t[7..9] == Pad2(d.hours)
      && t[10..12] == Pad2(d.minutes) && t[13..15] == Pad2(d.seconds) && t[16..19] == Pad3(d.millis)
  {
    JoinedLayout(Pad2(d.month + 1), Pad2(d.day), Pad2(d.hours), Pad2(d.minutes), Pad2(d.seconds), Pad3(d.millis));
  }

  /** A formatted timestamp is the year's digits followed by the 19-character layout. */
  lemma FormatDateLayout(d: DateTime)
    ensures var r := FormatDate(d);
      |r| == |IntToString(d.year)| + 19 && IsTimeOfYearLayout(r[|r| - 19..])
  {
    TimeOfYearFields(d);
    var r := FormatDate(d);
    assert r[|r| - 19..] == TimeOfYear(d);
  }

  /** A formatted timestamp splits back into the year's text and the part after it. */
  lemma FormatDateSplit(d: DateTime)
    ensures var s := FormatDate(d);
      |s| >= 20 && s[..|s| - 19] == IntToString(d.year) && s[|s| - 19..] == TimeOfYear(d)
  {
    IntToStringRoundTrip(d.year);
    TimeOfYearFields(d);
    var s := FormatDate(d);
    assert s[|s| - 19..] == TimeOfYear(d);
  }

  /** The number written in `t[i..j]`. */
  function Field(t: string, i: nat, j: nat): nat
    requires i <= j <= |t| && AllDigits(t[i..j])
  {
    ParseDigits(t[i..j])
  }

  /** Reads a timestamp in the layout of FormatDate back into its calendar fields. */
  function ParseDate(s: string): Option<DateTime> {
    if |s| < 20 then None
    else
      var y := s[..|s| - 19];
      var t := s[|s| - 19..];
      if !IsIntString(y) || !IsTimeOfYearLayout(t) then None
      else
        assert AllDigits(t[1..3]) && AllDigits(t[4..6]) && AllDigits(t[7..9]);
        assert AllDigits(t[10..12]) && AllDigits(t[13..15]) && AllDigits(t[16..19]);
        var month, day, hours := Field(t, 1, 3), Field(t, 4, 6), Field(t, 7, 9);
        var minutes, seconds, millis := Field(t, 10, 12), Field(t, 13, 15), Field(t, 16, 19);
        if 1 <= month <= 12 && 1 <= day <= 31 && hours < 24 && minutes < 60 && seconds < 60 && millis < 1000
        then Some(DateTime(ParseInt(y), month - 1, day, hours, minutes, seconds, millis))
        else None
  }

  /** Every formatted timestamp reads back as the Date it came from. */
  lemma FormatDateRoundTrip(d: DateTime)
    ensures ParseDate(FormatDate(d)) == Some(d)
  {
    TimeOfYearFields(d);
    IntToStringRoundTrip(d.year);
    FormatDateSplit(d);
  }

  /** Distinct Dates never share a timestamp. */
  lemma FormatDateInjective(d1: DateTime, d2: DateTime)
    requires FormatDate(d1) == FormatDate(d2)
    ensures d1 == d2
  {
    FormatDateRoundTrip(d1);
    FormatDateRoundTrip(d2);
  }
}
