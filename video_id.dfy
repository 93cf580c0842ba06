/**
 * `extractVideoId`, copied unchanged into the bot's play command and the
 * Telegram service: the match of
 * `^.*(youtu.be\/|v\/|u\/\w\/|embed\/|watch\?v=|&v=)([^#&?]*).*`
 * whose second group is kept when it is exactly 11 characters long.
 *
 * The expression has no `u` flag, so it works on UTF-16 code units, and
 * `length` counts them: an astral character in the id counts twice, and the
 * `.` of `youtu.be` cannot match one.
 *
 * Because the leading `.*` is greedy, the regular expression engine tries
 * the delimiter at the rightmost position on the first line first; the six
 * alternatives begin with six different characters, so at most one of them
 * matches at any position, and the trailing `.*` always succeeds, so the
 * second group is the whole run of characters other than `#`, `&` and `?`.
 */
module VideoId {
  import opened Wrappers
  import opened Strings

  /** The length of a valid video id, in UTF-16 code units. */
  const IdLength: nat := 11

  /** `\w`: an ASCII letter, digit or underscore. */
  predicate IsWordChar(c: char) {
    ('a' <= c <= 'z') || ('A' <= c <= 'Z') || ('0' <= c <= '9') || c == '_'
  }

  /** A character that ends the id group `[^#&?]*`. */
  predicate IsIdStop(c: char) {
    c == '#' || c == '&' || c == '?'
  }

  /** The length of the delimiter alternative that matches at `p`, if one does. */
  function DelimiterAt(s: string, p: nat): (r: Option<nat>)
    requires p <= |s|
    ensures r.Some? ==> 2 <= r.value && p + r.value <= |s|
  {
    if p + 9 <= |s| && s[p] == 'y' && s[p + 1] == 'o' && s[p + 2] == 'u' && s[p + 3] == 't' && s[p + 4] == 'u'
      && !IsLineTerminator(s[p + 5]) && !IsAstral(s[p + 5]) && s[p + 6] == 'b' && s[p + 7] == 'e' && s[p + 8] == '/'
    then Some(9)
    else if p + 2 <= |s| && s[p] == 'v' && s[p + 1] == '/' then Some(2)
    else if p + 4 <= |s| && s[p] == 'u' && s[p + 1] == '/' && IsWordChar(s[p + 2]) && s[p + 3] == '/' then Some(4)
    else if p + 6 <= |s| && s[p] == 'e' && s[p + 1] == 'm' && s[p + 2] == 'b' && s[p + 3] == 'e' && s[p + 4] == 'd'
      && s[p + 5] == '/'
    then Some(6)
    else if p + 8 <= |s| && s[p] == 'w' && s[p + 1] == 'a' && s[p + 2] == 't' && s[p + 3] == 'c' && s[p + 4] == 'h'
      && s[p + 5] == '?' && s[p + 6] == 'v' && s[p + 7] == '='
    then Some(8)
    else if p + 3 <= |s| && s[p] == '&' && s[p + 1] == 'v' && s[p + 2] == '=' then Some(3)
    else None
  }

  /** The rightmost position at or before `p` where a delimiter matches. */
  function LastDelimiter(s: string, p: nat): (r: Option<nat>)
    requires p <= |s|
    ensures r.Some? ==> r.value <= p && DelimiterAt(s, r.value).Some?
    ensures r.Some? ==> forall q :: r.value < q <= p ==> DelimiterAt(s, q).None?
    ensures r.None? ==> forall q :: 0 <= q <= p ==> DelimiterAt(s, q).None?
  {
    if DelimiterAt(s, p).Some? then Some(p)
    else if p == 0 then None
    else LastDelimiter(s, p - 1)
  }

  /** The end of the run of non-stop characters that starts at `i`: the greedy `[^#&?]*`. */
  function IdEnd(s: string, i: nat): (j: nat)
    requires i <= |s|
    ensures i <= j <= |s|
    ensures forall k :: i <= k < j ==> !IsIdStop(s[k])
    ensures j == |s| || IsIdStop(s[j])
    decreases |s| - i
  {
    if i < |s| && !IsIdStop(s[i]) then IdEnd(s, i + 1) else i
  }

  /** The end of the line that `i` lies on: how far `.*` reaches from `i`. */
  function LineEnd(s: string, i: nat): (j: nat)
    requires i <= |s|
    ensures i <= j <= |s|
    ensures forall k :: i <= k < j ==> !IsLineTerminator(s[k])
    ensures j == |s| || IsLineTerminator(s[j])
    decreases |s| - i
  {
    if i < |s| && !IsLineTerminator(s[i]) then LineEnd(s, i + 1) else i
  }

  /** The length of the first line: how far `^.*` can reach. */
  function FirstLineLength(s: string): (n: nat)
    ensures n <= |s|
  {
    LineEnd(s, 0)
  }

  /** `extractVideoId(url)`, with `None` for `null`. */
  function ExtractVideoId(url: string): (r: Option<string>)
    ensures r.Some? ==> Utf16Length(r.value) == IdLength && forall k :: 0 <= k < |r.value| ==> !IsIdStop(r.value[k])
  {
    match LastDelimiter(url, FirstLineLength(url))
    case None => None
    case Some(p) =>
      var start := p + DelimiterAt(url, p).value;
      var id := url[start..IdEnd(url, start)];
      if Utf16Length(id) == IdLength then Some(id) else None
  }

  /**
   * The regular expression matches `url` with the delimiter of length `len`
   * at `p` and second group `id`: `p` lies on the first line, no delimiter
   * matches further right on it, and `id` is the whole run of non-stop
   * characters after the delimiter.
   */
  ghost predicate Matches(url: string, p: nat, len: nat, id: string) {
    && p <= FirstLineLength(url)
    && DelimiterAt(url, p) == Some(len)
    && (forall q :: p < q <= FirstLineLength(url) ==> DelimiterAt(url, q).None?)
    && p + len + |id| <= |url|
    && url[p + len..p + len + |id|] == id
    && (forall k :: 0 <= k < |id| ==> !IsIdStop(id[k]))
    && (p + len + |id| == |url| || IsIdStop(url[p + len + |id|]))
  }

  /** The extractor returns `id` exactly when the pattern matches with group `id` of 11 code units. */
  lemma ExtractVideoIdIff(url: string, id: string)
    ensures ExtractVideoId(url) == Some(id) <==> Utf16Length(id) == IdLength && exists p: nat, len: nat :: Matches(url, p, len, id)
  {
    if ExtractVideoId(url) == Some(id) {
      ExtractedMatches(url);
    }
    if Utf16Length(id) == IdLength && exists p: nat, len: nat :: Matches(url, p, len, id) {
      var p: nat, len: nat :| Matches(url, p, len, id);
      MatchExtracted(url, p, len, id);
    }
  }

  /** What the extractor returns is the group of a match. */
  lemma ExtractedMatches(url: string)
    requires ExtractVideoId(url).Some?
    ensures exists p: nat, len: nat :: Matches(url, p, len, ExtractVideoId(url).value)
  {
    var id := ExtractVideoId(url).value;
    var p := LastDelimiter(url, FirstLineLength(url)).value;
    var len := DelimiterAt(url, p).value;
    var end := IdEnd(url, p + len);
    assert id == url[p + len..end];
    assert p + len + |id| == end;
    assert Matches(url, p, len, id);
  }

  /** The group of a match, when it is 11 code units long, is what the extractor returns. */
  lemma MatchExtracted(url: string, p: nat, len: nat, id: string)
    requires Utf16Length(id) == IdLength && Matches(url, p, len, id)
    ensures ExtractVideoId(url) == Some(id)
  {
    var start := p + len;
    var end := start + |id|;
    LastDelimiterIs(url, p, FirstLineLength(url));
    forall k | start <= k < end
      ensures !IsIdStop(url[k])
    {
      assert url[k] == id[k - start];
    }
    IdEndAt(url, start, end);
  }

  /** The rightmost delimiter up to `top` is at `p` when one matches there and none further right. */
  lemma {:induction false} LastDelimiterIs(s: string, p: nat, top: nat)
    requires p <= top <= |s| && DelimiterAt(s, p).Some?
    requires forall q :: p < q <= top ==> DelimiterAt(s, q).None?
    ensures LastDelimiter(s, top) == Some(p)
    decreases top - p
  {
    if top > p {
      LastDelimiterIs(s, p, top - 1);
    }
  }

  /** The greedy run ends at the first stop character. */
  lemma IdEndAt(s: string, i: nat, j: nat)
    requires i <= j <= |s|
    requires forall k :: i <= k < j ==> !IsIdStop(s[k])
    requires j == |s| || IsIdStop(s[j])
    ensures IdEnd(s, i) == j
    decreases j - i
  {
    if i < j {
      IdEndAt(s, i + 1, j);
    }
  }

  /** Every delimiter alternative ends in `/` or `=`. */
  lemma DelimiterEnds(s: string, p: nat)
    requires p <= |s| && DelimiterAt(s, p).Some?
    ensures var e := p + DelimiterAt(s, p).value - 1; s[e] == '/' || s[e] == '='
  {
  }

  /** With no `/` or `=` after position `lo`, no delimiter matches at or after `lo`. */
  lemma NoDelimiterAfter(s: string, lo: nat)
    requires forall k :: lo < k < |s| ==> s[k] != '/' && s[k] != '='
    ensures forall q :: lo <= q <= |s| ==> DelimiterAt(s, q).None?
  {
    forall q | lo <= q <= |s|
      ensures DelimiterAt(s, q).None?
    {
      if DelimiterAt(s, q).Some? {
        DelimiterEnds(s, q);
      }
    }
  }

  /** The line of `i` runs to the end when no line terminator follows. */
  lemma LineEndAtEnd(s: string, i: nat)
    requires i <= |s|
    requires forall k :: i <= k < |s| ==> !IsLineTerminator(s[k])
    ensures LineEnd(s, i) == |s|
    decreases |s| - i
  {
    if i < |s| {
      LineEndAtEnd(s, i + 1);
    }
  }

  /** The text of a watch link in front of its id. */
  const WatchPrefix: string := "https://www.youtube.com/watch?v="

  /** The watch link prefix is on one line. */
  lemma WatchPrefixOneLine()
    ensures |WatchPrefix| == 32 && forall k :: 0 <= k < |WatchPrefix| ==> !IsLineTerminator(WatchPrefix[k])
  {
  }

  /** A character YouTube uses in video ids. */
  predicate IsVideoIdChar(c: char) {
    IsWordChar(c) || c == '-'
  }

  /** A character that can stand in the id of a link: it neither ends the group nor starts a delimiter or a new line. */
  predicate IsLinkIdChar(c: char) {
    !IsIdStop(c) && c != '/' && c != '=' && !IsLineTerminator(c)
  }

  /** A short link `https://youtu.be/<id>` yields its id when that is 11 code units long. */
  lemma ShortLink(id: string)
    requires Utf16Length(id) == IdLength && forall k :: 0 <= k < |id| ==> IsLinkIdChar(id[k])
    ensures ExtractVideoId("https://youtu.be/" + id) == Some(id)
  {
    ShortLinkMatches(id);
    MatchExtracted("https://youtu.be/" + id, 8, 9, id);
  }

  /** In a short link the pattern matches at the `youtu.be/` delimiter, with the id as its group. */
  lemma ShortLinkMatches(id: string)
    requires forall k :: 0 <= k < |id| ==> IsLinkIdChar(id[k])
    ensures Matches("https://youtu.be/" + id, 8, 9, id)
  {
    var url := "https://youtu.be/" + id;
    assert DelimiterAt(url, 8) == Some(9);
    NoDelimiterAfter(url, 16);
    forall q | 8 < q < 16
      ensures DelimiterAt(url, q).None?
    {
    }
    forall k | 17 <= k < |url|
      ensures !IsLineTerminator(url[k])
    {
      assert url[k] == id[k - 17];
    }
    LineEndAtEnd(url, 0);
    assert url[17..17 + |id|] == id;
    assert Matches(url, 8, 9, id);
  }

  /** A watch link yields its id, whatever parameters follow it after a `#`, `&` or `?`. */
  lemma WatchLink(id: string, tail: string)
    requires |id| == IdLength && forall k :: 0 <= k < |id| ==> IsVideoIdChar(id[k])
    requires tail == [] || IsIdStop(tail[0])
    requires forall k :: 0 <= k < |tail| ==> tail[k] != '/' && tail[k] != '=' && !IsLineTerminator(tail[k])
    ensures ExtractVideoId("https://www.youtube.com/watch?v=" + id + tail) == Some(id)
  {
    var url := WatchPrefix + id + tail;
    Utf16LengthWithoutAstral(id);
    WatchPrefixOneLine();
    assert DelimiterAt(url, 24) == Some(8);
    NoDelimiterAfter(url, 31);
    forall q | 24 < q < 31
      ensures DelimiterAt(url, q).None?
    {
    }
    forall k | 0 <= k < |url|
      ensures !IsLineTerminator(url[k])
    {
      if k >= 32 + |id| {
        assert url[k] == tail[k - 32 - |id|];
      } else if k >= 32 {
        assert url[k] == id[k - 32];
      } else {
        assert url[k] == WatchPrefix[k];
      }
    }
    LineEndAtEnd(url, 0);
    assert url[32..32 + |id|] == id;
    assert Matches(url, 24, 8, id);
    ExtractVideoIdIff(url, id);
  }

  /**
   * An astral character in a short link's id counts as two code units, so an
   * id of one such character and nine ordinary ones, 10 characters in all,
   * passes the length test.
   */
  lemma AstralIdCountsTwice(c: char, rest: string)
    requires IsAstral(c) && |rest| == 9 && forall k :: 0 <= k < |rest| ==> IsVideoIdChar(rest[k])
    ensures var id := [c] + rest;
      |id| == 10 && ExtractVideoId("https://youtu.be/" + id) == Some(id)
  {
    var id := [c] + rest;
    assert id[1..] == rest;
    Utf16LengthWithoutAstral(rest);
    assert Utf16Length(id) == IdLength;
    forall k | 0 <= k < |id|
      ensures IsLinkIdChar(id[k])
    {
      if k > 0 {
        assert id[k] == rest[k - 1];
      }
    }
    ShortLink(id);
  }
}
