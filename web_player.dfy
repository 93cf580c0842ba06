/**
 * The client-side rules of the web player (`static/scripts/app.js`, and its
 * subset `webapp/public/scripts/app.js`): wrap-around navigation over the
 * track list, speed steps, the throttled position report, the active lyric
 * line and the touch gestures. The closure variables of the script and the
 * audio element's state are the fields of one object; requests to the
 * backend come back as values, the DOM and the audio engine are not modelled.
 */
module WebPlayer {
  import opened Wrappers
  import opened Strings
  import opened Tracks
  import opened TimeFormat
  import Lyrics

  // ---------------------------------------------------------------------
  // Navigation
  // ---------------------------------------------------------------------

  /** JavaScript's `a % n` on integers: it truncates, so the result takes the sign of `a`. */
  function JsRem(a: int, n: int): (r: int)
    requires n > 0
    ensures a >= 0 ==> r == a % n
    ensures a < 0 ==> -n < r <= 0
  {
    if a >= 0 then a % n else -((-a) % n)
  }

  /** Division of `x` by `n` is the unique split into `q` whole `n`s and a remainder below `n`. */
  lemma DivModUnique(x: int, n: int, q: int, r: int)
    requires n > 0 && 0 <= r < n && x == n * q + r
    ensures x / n == q && x % n == r
  {
    var q' := x / n;
    var r' := x % n;
    assert x == n * q' + r' && 0 <= r' < n;
    var d := q' - q;
    assert n * d == r - r';
    if d >= 1 {
      MulAtLeast(n, d);
    } else if d <= -1 {
      MulAtLeast(n, -d);
    }
  }

  /** A positive multiple of `n` is at least `n`. */
  lemma {:induction false} MulAtLeast(n: int, d: int)
    requires n > 0 && d >= 1
    ensures n * d >= n && n * -d <= -n
    decreases d
  {
    if d > 1 {
      MulAtLeast(n, d - 1);
      assert n * d == n * (d - 1) + n;
    }
  }

  /** The remainder of a successor: one more, wrapping to 0 after `n - 1`. */
  lemma ModSucc(a: int, n: int)
    requires a >= 0 && n > 0
    ensures (a + 1) % n == if a % n == n - 1 then 0 else a % n + 1
  {
    var q := a / n;
    var j := a % n;
    assert a == n * q + j && 0 <= j < n;
    if j == n - 1 {
      DivModUnique(a + 1, n, q + 1, 0);
    } else {
      DivModUnique(a + 1, n, q, j + 1);
    }
  }

  /** `(currentTrackIndex + 1) % tracks.length`. */
  function NextIndex(i: int, n: int): int
    requires n > 0
  {
    JsRem(i + 1, n)
  }

  /** `(currentTrackIndex - 1 + tracks.length) % tracks.length`. */
  function PreviousIndex(i: int, n: int): int
    requires n > 0
  {
    JsRem(i - 1 + n, n)
  }

  /** From an index in range both steps stay in range, wrapping at the ends. */
  lemma NavigationWraps(i: int, n: int)
    requires 0 <= i < n
    ensures NextIndex(i, n) == if i == n - 1 then 0 else i + 1
    ensures PreviousIndex(i, n) == if i == 0 then n - 1 else i - 1
  {
    if i == n - 1 {
      DivModUnique(i + 1, n, 1, 0);
    } else {
      DivModUnique(i + 1, n, 0, i + 1);
    }
    if i == 0 {
      DivModUnique(i - 1 + n, n, 0, n - 1);
    } else {
      DivModUnique(i - 1 + n, n, 1, i - 1);
    }
  }

  /** Going back after going forward, or forward after going back, returns to the same track. */
  lemma PreviousUndoesNext(i: int, n: int)
    requires 0 <= i < n
    ensures PreviousIndex(NextIndex(i, n), n) == i
    ensures NextIndex(PreviousIndex(i, n), n) == i
  {
    NavigationWraps(i, n);
    NavigationWraps(NextIndex(i, n), n);
    NavigationWraps(PreviousIndex(i, n), n);
  }

  /** `k` steps forward from `i`. */
  function NextTimes(i: int, n: int, k: nat): int
    requires n > 0
  {
    if k == 0 then i else NextIndex(NextTimes(i, n, k - 1), n)
  }

  /** `k` steps forward land on `(i + k) mod n`, so `n` steps come back to the start. */
  lemma {:induction false} NextTimesIsRotation(i: int, n: int, k: nat)
    requires 0 <= i < n
    ensures NextTimes(i, n, k) == (i + k) % n
  {
    if k > 0 {
      NextTimesIsRotation(i, n, k - 1);
      NavigationWraps((i + k - 1) % n, n);
      ModSucc(i + k - 1, n);
    }
  }

  // ---------------------------------------------------------------------
  // Speed
  // ---------------------------------------------------------------------

  /** `Math.round(x * 100) / 100`, with `Math.round(y)` as `floor(y + 0.5)`. */
  function RoundToHundredths(x: real): real {
    ((x * 100.0 + 0.5).Floor as real) / 100.0
  }

  /** Rounding moves a value by at most half a hundredth, and leaves whole hundredths alone. */
  lemma RoundingError(x: real, k: int)
    ensures x - 0.005 < RoundToHundredths(x) <= x + 0.005
    ensures RoundToHundredths(k as real / 100.0) == k as real / 100.0
  {
    var y := k as real / 100.0;
    assert y * 100.0 + 0.5 == k as real + 0.5;
    FloorIs(k as real + 0.5, k);
  }

  /** The speed range `adjustSpeed` accepts. */
  predicate InSpeedRange(s: real) {
    0.5 <= s <= 2.0
  }

  /** The rounded sum `adjustSpeed` considers. */
  function SteppedSpeed(speed: real, change: real): real {
    RoundToHundredths(speed + change)
  }

  /** A speed on the quarter grid of the buttons: `k / 4` for a whole `k`. */
  predicate OnQuarterGrid(s: real) {
    (s * 4.0).Floor as real == s * 4.0
  }

  /** The speed buttons move a quarter-grid speed by exactly one quarter, and keep it on the grid. */
  lemma QuarterStep(s: real, up: bool)
    requires OnQuarterGrid(s)
    ensures var next := SteppedSpeed(s, if up then 0.25 else -0.25);
      next == s + (if up then 0.25 else -0.25) && OnQuarterGrid(next)
  {
    var k := (s * 4.0).Floor;
    var d := if up then 1 else -1;
    var change := if up then 0.25 else -0.25;
    assert s == k as real / 4.0;
    var sum := s + change;
    assert sum == (25 * (k + d)) as real / 100.0;
    RoundingError(sum, 25 * (k + d));
    assert sum * 4.0 == (k + d) as real;
    FloorIs(sum * 4.0, k + d);
  }

  // ---------------------------------------------------------------------
  // Position throttle
  // ---------------------------------------------------------------------

  /** `updateProgress` reports the position: a chat is known, no seek is under way and over a second has passed. */
  predicate ShouldReport(hasChat: bool, isSeeking: bool, now: int, lastPositionUpdate: int) {
    hasChat && !isSeeking && now - lastPositionUpdate > 1000
  }

  /** One call of `updateProgress`: the clock reading and the conditions at that moment. */
  datatype Tick = Tick(now: int, hasChat: bool, isSeeking: bool)

  /** The clock readings at which a run of `updateProgress` calls reports, starting from `last`. */
  function Reports(last: int, ticks: seq<Tick>): (r: seq<int>)
    ensures |r| <= |ticks|
    ensures |r| > 0 ==> r[0] - last > 1000
    ensures forall i :: 1 <= i < |r| ==> r[i] - r[i - 1] > 1000
    decreases |ticks|
  {
    if ticks == [] then []
    else
      var t := ticks[0];
      if ShouldReport(t.hasChat, t.isSeeking, t.now, last) then
        var rest := Reports(t.now, ticks[1..]);
        var r := [t.now] + rest;
        assert r[0] == t.now && forall i :: 1 <= i < |r| ==> r[i] == rest[i - 1];
        assert forall i :: 1 <= i < |r| ==> r[i] - r[i - 1] > 1000 by {
          forall i | 1 <= i < |r|
            ensures r[i] - r[i - 1] > 1000
          {
            if i >= 2 {
              assert r[i - 1] == rest[i - 2];
            }
          }
        }
        r
      else Reports(last, ticks[1..])
  }

  /** While a seek is under way, or no chat is known, nothing is reported. */
  lemma {:induction false} NoReportsWhileSeeking(last: int, ticks: seq<Tick>)
    requires forall i :: 0 <= i < |ticks| ==> ticks[i].isSeeking || !ticks[i].hasChat
    ensures Reports(last, ticks) == []
    decreases |ticks|
  {
    if ticks != [] {
      NoReportsWhileSeeking(last, ticks[1..]);
    }
  }

  // ---------------------------------------------------------------------
  // Lyrics
  // ---------------------------------------------------------------------

  /** The length of the leading run of lines that start no later than `t`. */
  function LeadingRun(lines: seq<Lyrics.LyricLine>, t: real): (n: nat)
    ensures n <= |lines|
    ensures forall k :: 0 <= k < n ==> lines[k].time <= t
    ensures n == |lines| || lines[n].time > t
  {
    if lines == [] || lines[0].time > t then 0 else 1 + LeadingRun(lines[1..], t)
  }

  /** The index `updateLyricsPosition` highlights: the last line of the leading run, or 0. */
  function ActiveLyric(lines: seq<Lyrics.LyricLine>, t: real): nat {
    var n := LeadingRun(lines, t);
    if n == 0 then 0 else n - 1
  }

  /**
   * For lines in time order the active line is the last one that has started:
   * it has started unless none has, and every later line starts after `t`.
   */
  lemma ActiveLyricOfOrderedLines(lines: seq<Lyrics.LyricLine>, t: real)
    requires forall i, j :: 0 <= i < j < |lines| ==> lines[i].time <= lines[j].time
    requires lines != []
    ensures var a := ActiveLyric(lines, t);
      && a < |lines|
      && (lines[a].time <= t || forall k :: 0 <= k < |lines| ==> lines[k].time > t)
      && forall k :: a < k < |lines| ==> lines[k].time > t
  {
    var n := LeadingRun(lines, t);
    if n == 0 {
      forall k | 0 <= k < |lines|
        ensures lines[k].time > t
      {
        assert lines[0].time <= lines[k].time || k == 0;
      }
    } else {
      forall k | n - 1 < k < |lines|
        ensures lines[k].time > t
      {
        if n < |lines| {
          assert lines[n].time <= lines[k].time || k == n;
        }
      }
    }
  }

  /** An earlier line that has not started yet hides every later one, even one that has. */
  lemma ActiveLyricStopsAtFirstFutureLine(lines: seq<Lyrics.LyricLine>, t: real, j: nat)
    requires j < |lines| && lines[j].time > t
    ensures ActiveLyric(lines, t) < j || (j == 0 && ActiveLyric(lines, t) == 0)
  {
  }

  /** The search loop of `updateLyricsPosition`. */
  method FindActiveLyric(lines: seq<Lyrics.LyricLine>, currentTime: real) returns (newIndex: nat)
    ensures newIndex == ActiveLyric(lines, currentTime)
  {
    newIndex := 0;
    var i := 0;
    while i < |lines|
      invariant 0 <= i <= |lines|
      invariant forall k :: 0 <= k < i ==> lines[k].time <= currentTime
      invariant newIndex == if i == 0 then 0 else i - 1
    {
      if lines[i].time <= currentTime {
        newIndex := i;
      } else {
        break;
      }
      i := i + 1;
    }
    LeadingRunIs(lines, currentTime, i);
  }

  /** The leading run ends at the first line that has not started. */
  lemma {:induction false} LeadingRunIs(lines: seq<Lyrics.LyricLine>, t: real, n: nat)
    requires n <= |lines|
    requires forall k :: 0 <= k < n ==> lines[k].time <= t
    requires n == |lines| || lines[n].time > t
    ensures LeadingRun(lines, t) == n
  {
    if n > 0 {
      LeadingRunIs(lines[1..], t, n - 1);
    }
  }

  // ---------------------------------------------------------------------
  // Gestures
  // ---------------------------------------------------------------------

  /** What a touch does, in the order `handleTouchEnd` tests for it. */
  datatype Gesture = Rewind | Forward | VolumeDown | VolumeUp | TogglePlay | Ignore

  function Abs(x: real): real {
    if x < 0.0 then -x else x
  }

  /** The decision rules of `handleTouchEnd` for a movement `dx`, `dy` over `elapsed` milliseconds. */
  function ClassifyTouch(dx: real, dy: real, elapsed: int): Gesture {
    if Abs(dx) > 50.0 && elapsed < 500 then (if dx > 0.0 then Rewind else Forward)
    else if Abs(dy) > 30.0 && elapsed < 500 then (if dy > 0.0 then VolumeDown else VolumeUp)
    else if elapsed < 300 then TogglePlay
    else Ignore
  }

  /**
   * A quick horizontal swipe always seeks, whatever the vertical movement; a
   * quick vertical swipe changes the volume only when the horizontal movement
   * is small; a tap is a short touch that moved little; everything else is
   * ignored.
   */
  lemma GesturePriority(dx: real, dy: real, elapsed: int)
    ensures var g := ClassifyTouch(dx, dy, elapsed);
      && ((g == Rewind || g == Forward) <==> Abs(dx) > 50.0 && elapsed < 500)
      && ((g == VolumeDown || g == VolumeUp) <==> Abs(dx) <= 50.0 && Abs(dy) > 30.0 && elapsed < 500)
      && (g == TogglePlay <==> Abs(dx) <= 50.0 && Abs(dy) <= 30.0 && elapsed < 300)
      && (g == Ignore <==> elapsed >= 500 || (Abs(dx) <= 50.0 && Abs(dy) <= 30.0 && elapsed >= 300))
      && (g == Rewind ==> dx > 0.0) && (g == Forward ==> dx < 0.0)
      && (g == VolumeDown ==> dy > 0.0) && (g == VolumeUp ==> dy < 0.0)
  {
  }

  /** Swipe down: `Math.max(0, volumeBar.value - 10)`; the subtraction converts the text to a number. */
  function LowerVolume(v: int): int {
    if v - 10 < 0 then 0 else v - 10
  }

  /**
   * Swipe up as written: `Math.min(100, volumeBar.value + 10)`, where the value
   * of a range input is text, so `+` appends the digits `10`.
   */
  function RaiseVolumeAsWritten(v: nat): int {
    var appended := DigitsValue(NatToString(v) + "10");
    if appended < 100 then appended else 100
  }

  /** Swipe up as intended: ten more, capped at 100. */
  function RaiseVolume(v: int): int {
    if v + 10 > 100 then 100 else v + 10
  }

  /** Appending the text `10` to the digits of `v` reads back as `100 v + 10`. */
  lemma AppendTenToDigits(v: nat)
    ensures DigitsValue(NatToString(v) + "10") == 100 * v + 10
  {
    var s := NatToString(v);
    NatToStringRoundTrip(v);
    assert (s + "10")[..|s| + 1] == s + "1";
    assert (s + "1")[..|s|] == s;
  }

  /** As written, any volume from 1 up jumps straight to 100, and 0 goes to 10. */
  lemma RaiseVolumeAsWrittenJumps(v: nat)
    ensures RaiseVolumeAsWritten(v) == if v == 0 then 10 else 100
  {
    AppendTenToDigits(v);
  }

  /** The input that shows it: from 50 a swipe up gives 100, not 60. */
  lemma RaiseVolumeAsWrittenCounterexample()
    ensures RaiseVolumeAsWritten(50) == 100 && RaiseVolume(50) == 60
  {
    RaiseVolumeAsWrittenJumps(50);
  }

  /** Both volume swipes keep the volume in [0, 100] and move it by at most 10, and by exactly 10 away from the ends. */
  lemma VolumeSwipesStep(v: int)
    requires 0 <= v <= 100
    ensures 0 <= LowerVolume(v) <= v && v - LowerVolume(v) <= 10 && (v >= 10 ==> LowerVolume(v) == v - 10)
    ensures v <= RaiseVolume(v) <= 100 && RaiseVolume(v) - v <= 10 && (v <= 90 ==> RaiseVolume(v) == v + 10)
  {
  }

  // ---------------------------------------------------------------------
  // The player
  // ---------------------------------------------------------------------

  /** A request the script sends to the backend. */
  datatype Request =
    | NoRequest
    | ReportPosition(position: real)
    | ReportSpeed(speed: real)
    | ReportVolume(volume: int)
    | ReportResume
    | ReportPause

  /** `updatePlaybackState(playing)`: what the audio element's `play` and `pause` listeners send. */
  function PlaybackStateReport(playing: bool, hasChat: bool): seq<Request> {
    if !hasChat then [] else if playing then [ReportResume] else [ReportPause]
  }

  /** Every field of the player at once. */
  datatype View = View(
    tracks: seq<Track>, currentTrackIndex: int, currentTrack: Option<Track>,
    currentSpeed: real, lastPositionUpdate: int, isSeeking: bool,
    lyricsData: Option<seq<Lyrics.LyricLine>>, currentLyricIndex: int,
    currentTime: real, duration: real, paused: bool, volume: int, timeText: string)

  /** The script's closure variables and the parts of the page it reads and writes. */
  class Player {
    var tracks: seq<Track>
    var currentTrackIndex: int
    var currentTrack: Option<Track>
    var currentSpeed: real
    var lastPositionUpdate: int
    var isSeeking: bool
    var lyricsData: Option<seq<Lyrics.LyricLine>>
    var currentLyricIndex: int
    /** `audio.currentTime`, `audio.duration` and `audio.paused`. */
    var currentTime: real
    var duration: real
    var paused: bool
    /** `volumeBar.value`, read as a number. */
    var volume: int
    /** `currentTimeEl.textContent`. */
    var timeText: string

    function Snapshot(): View
      reads this
    {
      View(tracks, currentTrackIndex, currentTrack, currentSpeed, lastPositionUpdate, isSeeking,
           lyricsData, currentLyricIndex, currentTime, duration, paused, volume, timeText)
    }

    /**
     * The track index points into a non-empty track list. The script keeps the
     * index non-negative but not always in range: a new search result or a
     * restored queue replaces the list without touching the index.
     */
    predicate IndexInRange()
      reads this
    {
      tracks == [] || 0 <= currentTrackIndex < |tracks|
    }

    /** The audio position lies within the track and the volume bar within its range. */
    predicate AudioInRange()
      reads this
    {
      0.0 <= currentTime <= duration && 0 <= volume <= 100
    }

    /** The script's initial values; `volume` is the volume bar's starting value. */
    constructor (volume: int)
      requires 0 <= volume <= 100
      ensures Snapshot() == View([], 0, None, 1.0, 0, false, None, 0, 0.0, 0.0, true, volume, "0:00")
      ensures IndexInRange() && AudioInRange()
    {
      tracks := [];
      currentTrackIndex := 0;
      currentTrack := None;
      currentSpeed := 1.0;
      lastPositionUpdate := 0;
      isSeeking := false;
      lyricsData := None;
      currentLyricIndex := 0;
      currentTime := 0.0;
      duration := 0.0;
      paused := true;
      this.volume := volume;
      timeText := "0:00";
    }

    /** `playNext`: on a non-empty list, the next track, wrapping to the first; then `playTrack` loads it. */
    method PlayNext()
      requires currentTrackIndex >= 0
      modifies this
      ensures currentTrackIndex >= 0 && IndexInRange()
      ensures old(tracks) == [] ==> Snapshot() == old(Snapshot())
      ensures old(tracks) != [] ==>
        var i := NextIndex(old(currentTrackIndex), |old(tracks)|);
        Snapshot() == old(Snapshot()).(currentTrackIndex := i, currentTrack := Some(old(tracks)[i]))
    {
      if |tracks| == 0 {
        return;
      }
      currentTrackIndex := NextIndex(currentTrackIndex, |tracks|);
      currentTrack := Some(tracks[currentTrackIndex]);
    }

    /** `playPrevious`: on a non-empty list, the previous track, wrapping to the last. */
    method PlayPrevious()
      requires currentTrackIndex >= 0
      modifies this
      ensures currentTrackIndex >= 0 && IndexInRange()
      ensures old(tracks) == [] ==> Snapshot() == old(Snapshot())
      ensures old(tracks) != [] ==>
        var i := PreviousIndex(old(currentTrackIndex), |old(tracks)|);
        Snapshot() == old(Snapshot()).(currentTrackIndex := i, currentTrack := Some(old(tracks)[i]))
    {
      if |tracks| == 0 {
        return;
      }
      currentTrackIndex := PreviousIndex(currentTrackIndex, |tracks|);
      currentTrack := Some(tracks[currentTrackIndex]);
    }

    /** `adjustSpeed(change)`: commits the rounded speed only within [0.5, 2.0], and reports it. */
    method AdjustSpeed(change: real, hasChat: bool) returns (request: Request)
      modifies this
      ensures var next := SteppedSpeed(old(currentSpeed), change);
        if InSpeedRange(next) then
          && Snapshot() == old(Snapshot()).(currentSpeed := next)
          && request == if hasChat then ReportSpeed(next) else NoRequest
        else Snapshot() == old(Snapshot()) && request == NoRequest
      ensures InSpeedRange(old(currentSpeed)) ==> InSpeedRange(currentSpeed)
    {
      var newSpeed := SteppedSpeed(currentSpeed, change);
      request := NoRequest;
      if InSpeedRange(newSpeed) {
        currentSpeed := newSpeed;
        if hasChat {
          request := ReportSpeed(currentSpeed);
        }
      }
    }

    /**
     * `updateProgress` of the web app: shows the time unless a seek is under
     * way, and reports the position when `ShouldReport` holds.
     */
    method UpdateProgress(now: int, hasChat: bool) returns (request: Request)
      modifies this
      ensures var shown := if old(isSeeking) then old(timeText) else FormatTime(old(currentTime));
        if ShouldReport(hasChat, old(isSeeking), now, old(lastPositionUpdate)) then
          && Snapshot() == old(Snapshot()).(timeText := shown, lastPositionUpdate := now)
          && request == ReportPosition(currentTime)
        else Snapshot() == old(Snapshot()).(timeText := shown) && request == NoRequest
    {
      if !isSeeking {
        timeText := FormatTime(currentTime);
      }
      request := NoRequest;
      if hasChat && !isSeeking && now - lastPositionUpdate > 1000 {
        lastPositionUpdate := now;
        request := ReportPosition(currentTime);
      }
    }

    /** `updateLyricsPosition`: moves the highlight to `ActiveLyric` when it differs; reports whether it moved. */
    method UpdateLyricsPosition() returns (moved: bool)
      modifies this
      ensures old(lyricsData).None? ==> Snapshot() == old(Snapshot()) && !moved
      ensures old(lyricsData).Some? ==>
        var a := ActiveLyric(old(lyricsData).value, old(currentTime));
        && Snapshot() == old(Snapshot()).(currentLyricIndex := a)
        && (moved <==> a != old(currentLyricIndex))
    {
      moved := false;
      if lyricsData.None? {
        return;
      }
      var newIndex := FindActiveLyric(lyricsData.value, currentTime);
      if newIndex != currentLyricIndex {
        currentLyricIndex := newIndex;
        moved := true;
      }
    }

    /** `updateProgress` of the static player: the web app's version followed by `updateLyricsPosition`. */
    method UpdateProgressWithLyrics(now: int, hasChat: bool) returns (request: Request)
      modifies this
      ensures var shown := if old(isSeeking) then old(timeText) else FormatTime(old(currentTime));
        var reported := ShouldReport(hasChat, old(isSeeking), now, old(lastPositionUpdate));
        var lyric := if old(lyricsData).Some? then ActiveLyric(old(lyricsData).value, old(currentTime))
                     else old(currentLyricIndex);
        && Snapshot() == old(Snapshot()).(timeText := shown,
             lastPositionUpdate := if reported then now else old(lastPositionUpdate),
             currentLyricIndex := lyric)
        && request == if reported then ReportPosition(currentTime) else NoRequest
    {
      request := UpdateProgress(now, hasChat);
      var moved := UpdateLyricsPosition();
    }

    /**
     * `togglePlay`: plays when paused and pauses otherwise, and reports which.
     * The `play` or `pause` event the audio element then fires runs its
     * listener, whose `updatePlaybackState` sends the same report again.
     */
    method TogglePlayback(hasChat: bool) returns (requests: seq<Request>)
      modifies this
      ensures Snapshot() == old(Snapshot()).(paused := !old(paused))
      ensures var r := if old(paused) then ReportResume else ReportPause;
        requests == if hasChat then [r, r] else []
    {
      paused := !paused;
      requests := if !hasChat then [] else if paused then [ReportPause] else [ReportResume];
      requests := requests + PlaybackStateReport(!paused, hasChat);
    }

    /**
     * `handleDoubleTap`: toggles playback. The script registers it twice for
     * `dblclick`, but with the same function both times, so the page runs it
     * once per double click.
     */
    method HandleDoubleTap(hasChat: bool) returns (requests: seq<Request>)
      modifies this
      ensures Snapshot() == old(Snapshot()).(paused := !old(paused))
      ensures var r := if old(paused) then ReportResume else ReportPause;
        requests == if hasChat then [r, r] else []
    {
      requests := TogglePlayback(hasChat);
    }

    /**
     * `handleTouchEnd`: seeks by 10 seconds within the track, steps the volume
     * by 10 within [0, 100] and reports it, or toggles playback, as
     * `ClassifyTouch` decides. The swipe up uses the intended `RaiseVolume`.
     */
    method HandleTouchEnd(dx: real, dy: real, elapsed: int, hasChat: bool) returns (g: Gesture, requests: seq<Request>)
      modifies this
      ensures g == ClassifyTouch(dx, dy, elapsed)
      ensures var before := old(Snapshot());
        match g
        case Rewind =>
          Snapshot() == before.(currentTime := if before.currentTime - 10.0 < 0.0 then 0.0 else before.currentTime - 10.0)
          && requests == []
        case Forward =>
          Snapshot() == before.(currentTime := if before.duration < before.currentTime + 10.0 then before.duration
                                               else before.currentTime + 10.0)
          && requests == []
        case VolumeDown =>
          Snapshot() == before.(volume := LowerVolume(before.volume))
          && requests == if hasChat then [ReportVolume(volume)] else []
        case VolumeUp =>
          Snapshot() == before.(volume := RaiseVolume(before.volume))
          && requests == if hasChat then [ReportVolume(volume)] else []
        case TogglePlay =>
          var r := if before.paused then ReportResume else ReportPause;
          Snapshot() == before.(paused := !before.paused)
          && requests == if hasChat then [r, r] else []
        case Ignore =>
          Snapshot() == before && requests == []
      ensures old(AudioInRange()) ==> AudioInRange()
    {
      g := ClassifyTouch(dx, dy, elapsed);
      requests := [];
      match g
      case Rewind =>
        currentTime := if currentTime - 10.0 < 0.0 then 0.0 else currentTime - 10.0;
      case Forward =>
        currentTime := if duration < currentTime + 10.0 then duration else currentTime + 10.0;
      case VolumeDown =>
        volume := LowerVolume(volume);
        if hasChat {
          requests := [ReportVolume(volume)];
        }
      case VolumeUp =>
        volume := RaiseVolume(volume);
        if hasChat {
          requests := [ReportVolume(volume)];
        }
      case TogglePlay =>
        requests := TogglePlayback(hasChat);
      case Ignore =>
    }
  }
}
