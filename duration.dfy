/**
 * `formatDuration(seconds)`: the projects page, the video card and the video modal each
 * define the same helper; it is modelled once here. Durations are whole seconds.
 */
module Duration {
  import opened Text
  import opened Records

  /** "" for 0 (JavaScript `!seconds`), otherwise minutes, ':', and the seconds padded to two digits. */
  function FormatDuration(seconds: nat): string
  {
    if seconds == 0 then ""
    else DecimalString(seconds / 60) + ":" + PadStart(DecimalString(seconds % 60), 2, '0')
  }

  /** Reads an "m:ss" label back into seconds; "" reads as 0. The partner of FormatDuration. */
  function ParseDuration(t: string): Option<nat>
  {
    if t == "" then Some(0)
    else if |t| < 4 || t[|t| - 3] != ':' then None
    else
      var minutes := t[..|t| - 3];
      var secs := t[|t| - 2..];
      if AllDigits(minutes) && AllDigits(secs) && DecimalValue(secs) < 60
      then Some(60 * DecimalValue(minutes) + DecimalValue(secs))
      else None
  }

  /** The seconds field of a label: two digits whose value is the seconds `x`. */
  lemma SecondsField(x: nat)
    requires x < 60
    ensures var f := PadStart(DecimalString(x), 2, '0');
            |f| == 2 && AllDigits(f) && DecimalValue(f) == x
  {
    if x < 10 {
      OneDigitSeconds(x);
    } else {
      TwoDigitSeconds(x);
    }
  }

  lemma OneDigitSeconds(x: nat)
    requires x < 10
    ensures var f := PadStart(DecimalString(x), 2, '0');
            |f| == 2 && AllDigits(f) && DecimalValue(f) == x
  {
    var c := DigitChar(x);
    assert DecimalString(x) == [c];
    var f := PadStart([c], 2, '0');
    assert f[0] == '0' && f[1] == c;
    assert f[..1] == ['0'];
    assert DecimalValue(['0']) == 10 * DecimalValue([]) + DigitValue('0');
    assert DigitValue(c) == x;
  }

  lemma TwoDigitSeconds(x: nat)
    requires 10 <= x < 60
    ensures var f := PadStart(DecimalString(x), 2, '0');
            |f| == 2 && AllDigits(f) && DecimalValue(f) == x
  {
    var d := DecimalString(x);
    assert |DecimalString(x / 10)| == 1;
    assert |d| == 2;
    assert PadStart(d, 2, '0') == d;
    DecimalRoundTrip(x);
  }

  /** The exact shape of a non-empty label: decimal minutes, ':', two-digit seconds. */
  lemma FormatDurationShape(s: nat)
    ensures var r := FormatDuration(s);
            && (r == "" <==> s == 0)
            && (s > 0 ==>
                  && |r| >= 4
                  && r[|r| - 3] == ':'
                  && r[..|r| - 3] == DecimalString(s / 60)
                  && AllDigits(r[|r| - 2..])
                  && DecimalValue(r[|r| - 2..]) == s % 60)
  {
    if s > 0 {
      var m := DecimalString(s / 60);
      var f := PadStart(DecimalString(s % 60), 2, '0');
      assert FormatDuration(s) == m + ":" + f;
      SecondsField(s % 60);
      LabelParts(m, f);
    }
  }

  lemma LabelParts(m: string, f: string)
    requires |m| >= 1 && |f| == 2
    ensures var r := m + ":" + f;
            |r| >= 4 && r[|r| - 3] == ':' && r[..|r| - 3] == m && r[|r| - 2..] == f
  {
    var r := m + ":" + f;
    assert r[..|r| - 3] == m;
    assert r[|r| - 2..] == f;
  }

  /** Parsing a formatted duration gives the seconds back, so no two durations share a label. */
  lemma FormatDurationRoundTrip(s: nat)
    ensures ParseDuration(FormatDuration(s)) == Some(s)
  {
    if s > 0 {
      FormatDurationShape(s);
      DecimalRoundTrip(s / 60);
      ParseShaped(FormatDuration(s), s / 60, s % 60);
    }
  }

  /** A label of decimal minutes worth `q`, ':', and two digits worth `x` below 60 parses to `60 * q + x`. */
  lemma ParseShaped(r: string, q: nat, x: nat)
    requires |r| >= 4 && r[|r| - 3] == ':' && x < 60
    requires AllDigits(r[..|r| - 3]) && DecimalValue(r[..|r| - 3]) == q
    requires AllDigits(r[|r| - 2..]) && DecimalValue(r[|r| - 2..]) == x
    ensures ParseDuration(r) == Some(60 * q + x)
  {
  }

  /**
   * The duration text the card and the modal show, `duration > 0 && formatDuration(duration)`:
   * nothing for a missing or zero duration.
   */
  function DurationLabel(duration: Option<nat>): Option<string>
  {
    if duration.Some? && duration.value > 0 then Some(FormatDuration(duration.value)) else None
  }

  lemma DurationLabelShown(duration: Option<nat>)
    ensures DurationLabel(duration).Some? <==> duration.Some? && duration.value > 0
    ensures DurationLabel(duration).Some? ==>
              DurationLabel(duration).value != "" &&
              ParseDuration(DurationLabel(duration).value) == Some(duration.value)
  {
    if duration.Some? && duration.value > 0 {
      FormatDurationRoundTrip(duration.value);
      FormatDurationShape(duration.value);
    }
  }
}
