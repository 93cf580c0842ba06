/**
 * `formatTime`, copied unchanged into both web clients, the bot's play
 * command and the Telegram service: seconds rendered as minutes, a colon
 * and the seconds of the minute, padded to two digits.
 */
module TimeFormat {
  import opened Wrappers
  import opened Strings

  /** `x` is a whole multiple of 60. */
  predicate MultipleOfSixty(x: real) {
    (x / 60.0).Floor as real == x / 60.0
  }

  /** JavaScript's `x % 60` on a number: the remainder takes the sign of `x`. */
  function RemSixty(x: real): (r: real)
    ensures x >= 0.0 ==> 0.0 <= r < 60.0
    ensures x < 0.0 ==> -60.0 < r <= 0.0
    ensures MultipleOfSixty(x - r)
  {
    var q := if x >= 0.0 then (x / 60.0).Floor else -((-x / 60.0).Floor);
    x - 60.0 * q as real
  }

  /** The seconds of the minute as the template writes them: a `0` before a value under 10. */
  function SecondsText(secs: int): string {
    (if secs < 10 then "0" else "") + IntToString(secs)
  }

  /** `formatTime(seconds)`. */
  function FormatTime(seconds: real): string {
    var mins := (seconds / 60.0).Floor;
    var secs := RemSixty(seconds).Floor;
    IntToString(mins) + ":" + SecondsText(secs)
  }

  /** Two decimal digits for a number below 100. */
  function TwoDigits(n: nat): (r: string)
    requires n < 100
    ensures |r| == 2 && AllDigits(r) && DigitsValue(r) == n
  {
    var r := [DigitChar(n / 10), DigitChar(n % 10)];
    assert r[..1] == [DigitChar(n / 10)] && r[..1][..0] == [];
    assert DigitsValue(r[..1]) == n / 10;
    assert DigitsValue(r) == (n / 10) * 10 + n % 10;
    r
  }

  /** `Math.floor` pinned down by the unit interval that holds its argument. */
  lemma FloorIs(x: real, k: int)
    requires k as real <= x < k as real + 1.0
    ensures x.Floor == k
  {
  }

  /** Whole minutes and whole seconds of a non-negative time: `floor(s / 60)` and `floor(s % 60)`. */
  lemma SplitMinutes(seconds: real)
    requires seconds >= 0.0
    ensures (seconds / 60.0).Floor == seconds.Floor / 60
    ensures RemSixty(seconds).Floor == seconds.Floor % 60
  {
    var n := seconds.Floor;
    var q := n / 60;
    var m := n % 60;
    assert n == 60 * q + m && 0 <= m < 60;
    var qr := q as real;
    assert 60.0 * qr <= seconds < 60.0 * qr + 60.0;
    FloorIs(seconds / 60.0, q);
    var rem := seconds - 60.0 * qr;
    assert RemSixty(seconds) == rem;
    assert m as real <= rem < m as real + 1.0;
    FloorIs(rem, m);
  }

  /** For a non-negative time the seconds part is always exactly two digits. */
  lemma SecondsTextTwoDigits(secs: nat)
    requires secs < 60
    ensures SecondsText(secs) == TwoDigits(secs)
  {
    if secs >= 10 {
      assert NatToString(secs) == NatToString(secs / 10) + [DigitChar(secs % 10)];
    }
  }

  /** A non-negative time renders as its whole minutes, a colon and two digits of seconds. */
  lemma FormatTimeShape(seconds: real)
    requires seconds >= 0.0
    ensures var n := seconds.Floor;
      FormatTime(seconds) == NatToString(n / 60) + ":" + TwoDigits(n % 60)
  {
    SplitMinutes(seconds);
    SecondsTextTwoDigits(seconds.Floor % 60);
  }

  /** Reads an `m:ss` clock back into whole seconds. */
  function ParseClock(t: string): Option<nat> {
    var colon := IndexOfFrom(t, ":", 0);
    if colon.None? then None else ClockValue(t[..colon.value], t[colon.value + 1..])
  }

  /** The value of the minutes and seconds texts of a clock, when both are well formed. */
  function ClockValue(m: string, s: string): Option<nat> {
    if |m| > 0 && AllDigits(m) && |s| == 2 && AllDigits(s) && DigitsValue(s) < 60
    then Some(DigitsValue(m) * 60 + DigitsValue(s))
    else None
  }

  /** A clock of digits, a colon and two digits below 60 reads as minutes times 60 plus seconds. */
  lemma ParseClockOf(m: string, s: string)
    requires |m| > 0 && AllDigits(m) && |s| == 2 && AllDigits(s) && DigitsValue(s) < 60
    ensures ParseClock(m + ":" + s) == Some(DigitsValue(m) * 60 + DigitsValue(s))
  {
    ParseClockSplits(m, s);
    ClockValueOf(m, s);
  }

  /** Well-formed minutes and seconds texts give minutes times 60 plus seconds. */
  lemma ClockValueOf(m: string, s: string)
    requires |m| > 0 && AllDigits(m) && |s| == 2 && AllDigits(s) && DigitsValue(s) < 60
    ensures ClockValue(m, s) == Some(DigitsValue(m) * 60 + DigitsValue(s))
  {
  }

  /** A clock whose minutes are digits is cut at the colon after them. */
  lemma ParseClockSplits(m: string, s: string)
    requires AllDigits(m)
    ensures ParseClock(m + ":" + s) == ClockValue(m, s)
  {
    FirstColon(m, s);
    ParseClockAt(m + ":" + s, |m|);
  }

  /** `ParseClock` reads the texts either side of the first colon. */
  lemma ParseClockAt(t: string, k: nat)
    requires IndexOfFrom(t, ":", 0) == Some(k)
    ensures ParseClock(t) == ClockValue(t[..k], t[k + 1..])
  {
  }

  /** In digits, a colon and more text, the first colon is the one after the digits. */
  lemma FirstColon(m: string, s: string)
    requires AllDigits(m)
    ensures var t := m + ":" + s;
      IndexOfFrom(t, ":", 0) == Some(|m|) && t[..|m|] == m && t[|m| + 1..] == s
  {
    var t := m + ":" + s;
    var k := |m|;
    assert t[..k] == m;
    assert t[k + 1..] == s;
    assert t[k..k + 1] == ":";
    forall j | 0 <= j < k
      ensures !OccursAt(t, ":", j)
    {
      assert t[j..j + 1][0] == m[j];
    }
    assert OccursAt(t, ":", k);
  }

  /** Reading back a rendered non-negative time gives its whole seconds. */
  lemma FormatTimeRoundTrip(seconds: real)
    requires seconds >= 0.0
    ensures ParseClock(FormatTime(seconds)) == Some(seconds.Floor)
  {
    FormatTimeShape(seconds);
    var n := seconds.Floor;
    NatToStringRoundTrip(n / 60);
    ParseClockOf(NatToString(n / 60), TwoDigits(n % 60));
  }

  /** A negative time keeps JavaScript's signs: -5 seconds renders as `-1:0-5`. */
  lemma NegativeTime()
    ensures FormatTime(-5.0) == "-1:0-5"
  {
    assert (-5.0 / 60.0).Floor == -1;
    assert RemSixty(-5.0) == -5.0;
    assert NatToString(1) == "1" && NatToString(5) == "5";
  }
}
