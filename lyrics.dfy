/**
 * The two lyric parsers of the lyrics controller: synced LRC text, one
 * `[mm:ss.xx]text` line per line, and plain text whose verses are
 * separated by blank lines and spread 30 seconds apart.
 */
module Lyrics {
  import opened Wrappers
  import opened Strings

  /** One parsed line: its text and the time in seconds it starts at. */
  datatype LyricLine = LyricLine(text: string, time: real)

  /** The end of the run of decimal digits that starts at `i`. */
  function DigitRun(s: string, i: nat): (j: nat)
    requires i <= |s|
    ensures i <= j <= |s| && AllDigits(s[i..j])
    ensures j == |s| || !IsDigit(s[j])
    decreases |s| - i
  {
    if i < |s| && IsDigit(s[i]) then DigitRun(s, i + 1) else i
  }

  /** What `.*` matches at the start of `s`: everything before the first line terminator. */
  function UpToLineTerminator(s: string): (r: string)
    ensures |r| <= |s| && r == s[..|r|]
    ensures forall k :: 0 <= k < |r| ==> !IsLineTerminator(r[k])
    ensures |r| == |s| || IsLineTerminator(s[|r|])
  {
    if s == [] || IsLineTerminator(s[0]) then [] else [s[0]] + UpToLineTerminator(s[1..])
  }

  /** The groups of a match of `^\[(\d+):(\d+\.\d+)\](.*)`, the seconds group split at its dot. */
  datatype Tag = Tag(minutes: string, whole: string, fraction: string, rest: string)

  /** A well-formed timestamp group: one or more digits. */
  predicate IsNumeral(s: string) {
    |s| > 0 && AllDigits(s)
  }

  /** `line.match(/^\[(\d+):(\d+\.\d+)\](.*)/)`. */
  function MatchTag(line: string): Option<Tag> {
    if |line| == 0 || line[0] != '[' then None
    else
      var a := DigitRun(line, 1);
      if a == 1 || a == |line| || line[a] != ':' then None
      else
        var b := DigitRun(line, a + 1);
        if b == a + 1 || b == |line| || line[b] != '.' then None
        else
          var c := DigitRun(line, b + 1);
          if c == b + 1 || c == |line| || line[c] != ']' then None
          else Some(Tag(line[1..a], line[a + 1..b], line[b + 1..c], UpToLineTerminator(line[c + 1..])))
  }

  /** The text a tag with these groups spells, before the rest of the line. */
  function TagText(minutes: string, whole: string, fraction: string): string {
    "[" + minutes + ":" + whole + "." + fraction + "]"
  }

  /** A match spells its groups at the start of the line; the rest is the line up to its first line terminator. */
  lemma MatchTagSound(line: string)
    requires MatchTag(line).Some?
    ensures var t := MatchTag(line).value;
      && IsNumeral(t.minutes) && IsNumeral(t.whole) && IsNumeral(t.fraction)
      && var head := TagText(t.minutes, t.whole, t.fraction);
         |head| <= |line| && line[..|head|] == head && t.rest == UpToLineTerminator(line[|head|..])
  {
    var t := MatchTag(line).value;
    var a := DigitRun(line, 1);
    var b := DigitRun(line, a + 1);
    var c := DigitRun(line, b + 1);
    TagTextAt(line, a, b, c);
  }

  /** The groups cut out of a line at `a`, `b` and `c` spell the line up to `c`. */
  lemma TagTextAt(line: string, a: nat, b: nat, c: nat)
    requires 0 < a < b < c < |line|
    requires line[0] == '[' && line[a] == ':' && line[b] == '.' && line[c] == ']'
    ensures TagText(line[1..a], line[a + 1..b], line[b + 1..c]) == line[..c + 1]
  {
    assert line[..a] == "[" + line[1..a];
    assert line[..a + 1] == line[..a] + ":";
    assert line[..b] == line[..a + 1] + line[a + 1..b];
    assert line[..b + 1] == line[..b] + ".";
    assert line[..c] == line[..b + 1] + line[b + 1..c];
    assert line[..c + 1] == line[..c] + "]";
  }

  /** The run of digits at `i` ends where the next non-digit stands. */
  lemma DigitRunAt(s: string, i: nat, j: nat)
    requires i <= j < |s| && AllDigits(s[i..j]) && !IsDigit(s[j])
    ensures DigitRun(s, i) == j
    decreases j - i
  {
    if i < j {
      assert IsDigit(s[i..j][0]);
      assert s[i + 1..j] == s[i..j][1..];
      DigitRunAt(s, i + 1, j);
    }
  }

  /** A line whose digit runs end at `a`, `b` and `c` in front of `:`, `.` and `]` matches with those groups. */
  lemma MatchTagAt(line: string, a: nat, b: nat, c: nat)
    requires 1 < a && a + 1 < b && b + 1 < c < |line| && line[0] == '['
    requires AllDigits(line[1..a]) && line[a] == ':'
    requires AllDigits(line[a + 1..b]) && line[b] == '.'
    requires AllDigits(line[b + 1..c]) && line[c] == ']'
    ensures MatchTag(line) == Some(Tag(line[1..a], line[a + 1..b], line[b + 1..c], UpToLineTerminator(line[c + 1..])))
  {
    DigitRunsAt(line, a, b, c);
  }

  /** The three digit runs of such a line end at `a`, `b` and `c`. */
  lemma DigitRunsAt(line: string, a: nat, b: nat, c: nat)
    requires 1 < a && a + 1 < b && b + 1 < c < |line|
    requires AllDigits(line[1..a]) && line[a] == ':'
    requires AllDigits(line[a + 1..b]) && line[b] == '.'
    requires AllDigits(line[b + 1..c]) && line[c] == ']'
    ensures DigitRun(line, 1) == a && DigitRun(line, a + 1) == b && DigitRun(line, b + 1) == c
  {
    DigitRunAt(line, 1, a);
    DigitRunAt(line, a + 1, b);
    DigitRunAt(line, b + 1, c);
  }

  /** Every line that starts with a well-formed tag matches, with exactly those groups. */
  lemma MatchTagComplete(minutes: string, whole: string, fraction: string, tail: string)
    requires IsNumeral(minutes) && IsNumeral(whole) && IsNumeral(fraction)
    ensures MatchTag(TagText(minutes, whole, fraction) + tail) == Some(Tag(minutes, whole, fraction, UpToLineTerminator(tail)))
  {
    var p1 := "[" + minutes + ":";
    var p2 := p1 + whole + ".";
    var p3 := p2 + fraction + "]";
    var line := p3 + tail;
    assert line == TagText(minutes, whole, fraction) + tail;
    var a := |p1| - 1;
    var b := |p2| - 1;
    var c := |p3| - 1;
    assert line[..|p3|] == p3 && p3[..|p2|] == p2 && p2[..|p1|] == p1;
    assert line[1..a] == p1[1..a] == minutes && line[a] == ':';
    assert line[a + 1..b] == p2[a + 1..b] == whole && line[b] == '.';
    assert line[b + 1..c] == p3[b + 1..c] == fraction && line[c] == ']';
    assert line[c + 1..] == tail;
    MatchTagAt(line, a, b, c);
  }

  /** `10^n`. */
  function Pow10(n: nat): (p: nat)
    ensures p >= 1
  {
    if n == 0 then 1 else 10 * Pow10(n - 1)
  }

  /** `parseFloat` of `whole.fraction`, taken exactly. */
  function SecondsValue(whole: string, fraction: string): (r: real)
    requires AllDigits(whole) && AllDigits(fraction)
    ensures DigitsValue(whole) as real <= r < DigitsValue(whole) as real + 1.0
  {
    FractionBelowOne(fraction);
    DigitsValue(whole) as real + (DigitsValue(fraction) as real) / (Pow10(|fraction|) as real)
  }

  /** The fractional digits of a number stand for a value in [0, 1). */
  lemma FractionBelowOne(fraction: string)
    requires AllDigits(fraction)
    ensures 0.0 <= (DigitsValue(fraction) as real) / (Pow10(|fraction|) as real) < 1.0
  {
    FractionBound(fraction);
    QuotientBelowOne(DigitsValue(fraction) as real, Pow10(|fraction|) as real);
  }

  /** A quotient of a smaller by a larger non-negative real lies in [0, 1). */
  lemma QuotientBelowOne(f: real, p: real)
    requires 0.0 <= f < p
    ensures 0.0 <= f / p < 1.0
  {
    assert f / p * p == f;
  }

  /** A string of `n` digits stands for less than `10^n`. */
  lemma {:induction false} FractionBound(s: string)
    requires AllDigits(s)
    ensures DigitsValue(s) < Pow10(|s|)
  {
    if s != [] {
      FractionBound(s[..|s| - 1]);
    }
  }

  /** The parser's mapping of one line. */
  function ParseLine(line: string): (r: LyricLine)
    ensures MatchTag(line).None? ==> r == LyricLine(Trim(line), 0.0)
    ensures MatchTag(line).Some? ==>
      var t := MatchTag(line).value;
      && IsNumeral(t.minutes) && IsNumeral(t.whole) && IsNumeral(t.fraction)
      && r.text == Trim(t.rest)
      && r.time == (DigitsValue(t.minutes) * 60) as real + SecondsValue(t.whole, t.fraction)
  {
    match MatchTag(line)
    case None => LyricLine(Trim(line), 0.0)
    case Some(t) =>
      MatchTagSound(line);
      LyricLine(Trim(t.rest), (DigitsValue(t.minutes) * 60) as real + SecondsValue(t.whole, t.fraction))
  }

  /** A line that starts with a well-formed tag gets the trimmed rest of its first line at minutes times 60 plus the seconds. */
  lemma ParseTaggedLine(minutes: string, whole: string, fraction: string, tail: string)
    requires IsNumeral(minutes) && IsNumeral(whole) && IsNumeral(fraction)
    ensures ParseLine(TagText(minutes, whole, fraction) + tail)
      == LyricLine(Trim(UpToLineTerminator(tail)), (DigitsValue(minutes) * 60) as real + SecondsValue(whole, fraction))
  {
    var line := TagText(minutes, whole, fraction) + tail;
    MatchTagComplete(minutes, whole, fraction, tail);
    var t := MatchTag(line).value;
    assert t == Tag(minutes, whole, fraction, UpToLineTerminator(tail));
    var r := ParseLine(line);
    assert r.text == Trim(UpToLineTerminator(tail));
    assert r.time == (DigitsValue(minutes) * 60) as real + SecondsValue(whole, fraction);
  }

  /** A tag without a fractional part, such as `[01:23]`, is not a tag: the line keeps its text and gets time 0. */
  lemma WholeSecondTagIsText(tail: string)
    ensures ParseLine("[01:23]" + tail) == LyricLine(Trim("[01:23]" + tail), 0.0)
  {
    var line := "[01:23]" + tail;
    assert line[3] == ':' && line[6] == ']';
    DigitRunAt(line, 1, 3);
    DigitRunAt(line, 4, 6);
  }

  /** `[01:23.45]` stands for 83.45 seconds. */
  lemma SampleTagTime(tail: string)
    ensures ParseLine("[01:23.45]" + tail).time == 83.45
  {
    MatchTagComplete("01", "23", "45", tail);
    assert TagText("01", "23", "45") == "[01:23.45]";
    assert DigitsValue("01") == 1 by { assert "01"[..1] == "0" && "0"[..0] == ""; }
    assert DigitsValue("23") == 23 by { assert "23"[..1] == "2" && "2"[..0] == ""; }
    assert DigitsValue("45") == 45 by { assert "45"[..1] == "4" && "4"[..0] == ""; }
    assert Pow10(2) == 100;
    assert SecondsValue("23", "45") == 23.45;
  }

  /** `parseLrclibLyrics`: one entry per `\n`-separated line, in order. */
  function ParseLrclibLyrics(syncedLyrics: string): (r: seq<LyricLine>)
    ensures var lines := Split(syncedLyrics, "\n");
      |r| == |lines| && forall i :: 0 <= i < |r| ==> r[i] == ParseLine(lines[i])
  {
    var lines := Split(syncedLyrics, "\n");
    seq(|lines|, i requires 0 <= i < |lines| => ParseLine(lines[i]))
  }

  /** A synced line `[mm:ss.xx]text` becomes entry `i` with the text and the time its tag spells. */
  lemma ParseLrclibTaggedLine(syncedLyrics: string, i: nat, minutes: string, whole: string, fraction: string, tail: string)
    requires i < |Split(syncedLyrics, "\n")|
    requires Split(syncedLyrics, "\n")[i] == TagText(minutes, whole, fraction) + tail
    requires IsNumeral(minutes) && IsNumeral(whole) && IsNumeral(fraction)
    ensures |ParseLrclibLyrics(syncedLyrics)| == |Split(syncedLyrics, "\n")|
    ensures ParseLrclibLyrics(syncedLyrics)[i]
      == LyricLine(Trim(UpToLineTerminator(tail)), (DigitsValue(minutes) * 60) as real + SecondsValue(whole, fraction))
  {
    ParseTaggedLine(minutes, whole, fraction, tail);
  }

  /** `parsePlainLyrics`: one entry per blank-line-separated verse, verse `i` at `30 i` seconds. */
  function ParsePlainLyrics(lyrics: string): (r: seq<LyricLine>)
    ensures var verses := Split(lyrics, "\n\n");
      && |r| == |verses|
      && (forall i :: 0 <= i < |r| ==> r[i].text == Trim(verses[i]) && r[i].time == (30 * i) as real)
    ensures forall i, j :: 0 <= i < j < |r| ==> r[i].time < r[j].time
  {
    var verses := Split(lyrics, "\n\n");
    seq(|verses|, i requires 0 <= i < |verses| => LyricLine(Trim(verses[i]), (i * 30) as real))
  }
}
