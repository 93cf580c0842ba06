/**
 * The bot's `/play`, `/pause`, `/resume`, `/stop`, `/end` and `/status`
 * commands and its control buttons, over the in-memory player service.
 * Replies are modelled as values; sending them, the video lookup and the
 * stream creation are outside the model, and their results come in as
 * parameters.
 */
module BotPlay {
  import opened Wrappers
  import opened Strings
  import opened Tracks
  import opened VideoId
  import opened TimeFormat
  import MemoryPlayer

  /** The argument of a command: `text.split(' ').slice(1).join(' ')`. */
  function Query(text: string): string {
    Join(Split(text, " ")[1..], " ")
  }

  /** The argument is everything after the first space, or empty when there is no space. */
  lemma QueryAfterFirstSpace(text: string)
    ensures Query(text) == (match IndexOf(text, " ") case None => "" case Some(k) => text[k + 1..])
  {
    match IndexOf(text, " ")
    case None =>
    case Some(k) =>
      assert Split(text, " ")[1..] == Split(text[k + 1..], " ");
      JoinSplit(text[k + 1..], " ");
  }

  /** `query.match(/youtu\.?be/)` succeeds. */
  predicate MentionsYoutube(query: string) {
    Contains(query, "youtube") || Contains(query, "youtu.be")
  }

  /** Where the `/play` command goes for a message text. */
  datatype PlayRoute =
    | AskForQuery                      // empty argument: the usage reply
    | InvalidUrl                       // a YouTube link without an 11-character id
    | FetchVideo(videoId: string)      // a YouTube link: look the video up and play it
    | OpenWebApp(query: string)        // anything else: a search in the web player

  /** The branch structure of the `/play` handler. */
  function RoutePlay(text: string): PlayRoute {
    var query := Query(text);
    if query == "" then AskForQuery
    else if MentionsYoutube(query) then
      match ExtractVideoId(query)
      case None => InvalidUrl
      case Some(id) => FetchVideo(id)
    else OpenWebApp(query)
  }

  /**
   * The usage reply comes exactly for a bare command or one whose first space
   * ends the text; the invalid-link reply exactly for a YouTube mention
   * without an 11-character id; a video is fetched exactly for a YouTube
   * mention with one; every other non-empty argument goes to the web player
   * verbatim.
   */
  lemma RoutePlayCases(text: string)
    ensures RoutePlay(text) == AskForQuery <==>
      (match IndexOf(text, " ") case None => true case Some(k) => k + 1 == |text|)
    ensures var q := Query(text);
      RoutePlay(text) == InvalidUrl <==> q != "" && MentionsYoutube(q) && ExtractVideoId(q).None?
    ensures var q := Query(text);
      RoutePlay(text).FetchVideo? <==> q != "" && MentionsYoutube(q) && ExtractVideoId(q).Some?
    ensures RoutePlay(text).FetchVideo? ==>
      ExtractVideoId(Query(text)) == Some(RoutePlay(text).videoId) && Utf16Length(RoutePlay(text).videoId) == IdLength
    ensures var q := Query(text);
      RoutePlay(text).OpenWebApp? <==> q != "" && !MentionsYoutube(q)
    ensures RoutePlay(text).OpenWebApp? ==> RoutePlay(text).query == Query(text)
  {
    QueryAfterFirstSpace(text);
  }

  /** A message without a space, such as a bare `/play`, gets the usage reply. */
  lemma BareCommandAsksForQuery(text: string)
    requires !Contains(text, " ")
    ensures RoutePlay(text) == AskForQuery
  {
    QueryAfterFirstSpace(text);
  }

  /** An inline keyboard button: its label and its callback data. */
  datatype Button = Button(text: string, callbackData: string)

  type Keyboard = seq<seq<Button>>

  /** The middle button of the first row: the action that flips the playing state. */
  function ToggleButton(isPlaying: bool): (b: Button)
    ensures b.callbackData == "pause" <==> isPlaying
    ensures b.callbackData == "play" <==> !isPlaying
  {
    if isPlaying then Button("\U{23F8} Pause", "pause") else Button("\U{25B6} Play", "play")
  }

  /** `getPlayerControls` for a chat whose record has this `isPlaying`. */
  function PlayerControls(isPlaying: bool): (k: Keyboard)
    ensures |k| == 3 && |k[0]| == 3 && k[0][1] == ToggleButton(isPlaying)
  {
    [
      [Button("\U{23EE} Previous", "prev"), ToggleButton(isPlaying), Button("\U{23ED} Next", "next")],
      [Button("\U{23F9} Stop", "stop"), Button("\U{1F500} Shuffle", "shuffle"), Button("\U{1F509} Volume", "volume")],
      [Button("\U{274C} End Session", "end")]
    ]
  }

  /** The keyboards for the two states differ only in the toggle button. */
  lemma ControlsDifferOnlyInToggle(a: bool, b: bool)
    ensures var ka, kb := PlayerControls(a), PlayerControls(b);
      forall i, j :: 0 <= i < 3 && 0 <= j < |ka[i]| && (i, j) != (0, 1) ==> j < |kb[i]| && ka[i][j] == kb[i][j]
    ensures a != b ==> PlayerControls(a) != PlayerControls(b)
  {
    assert PlayerControls(a)[0][1] == ToggleButton(a);
  }

  /**
   * What `yts({ videoId })` reports about a video; `author` is the name of
   * its author object, `None` when the info has no author object.
   */
  datatype VideoInfo = VideoInfo(title: string, seconds: real, thumbnail: string, author: Option<string>, url: string)

  /** The track object the `/play` handler builds from a video id and an info with an author. */
  function TrackOf(videoId: string, info: VideoInfo): (t: Track)
    requires info.author.Some?
    ensures t.id == videoId && t.title == info.title && t.artist == info.author.value
    ensures t.duration == info.seconds && t.thumbnail == info.thumbnail && t.url == Some(info.url)
  {
    Track(videoId, info.title, info.author.value, info.seconds, info.thumbnail, Some(info.url))
  }

  /** A reply of the bot. */
  datatype Reply =
    | Text(text: string)
    | TextWithControls(text: string, controls: Keyboard)
    | Audio(streamUrl: string, title: string, performer: string, caption: string, controls: Keyboard)
    | OpenPlayer(query: string)

  const UsageText := "Please provide a search query or YouTube URL after /play"
  const InvalidUrlText := "Invalid YouTube URL"
  const NoInfoText := "Could not fetch video information"
  /** The reply of the handler's catch-all, for anything its body throws. */
  const FailureText := "Failed to process your request. Please try again."

  /** `getPlayerControls(chatId)`: reads the chat's record (creating it if absent) and builds the keyboard. */
  method Controls(svc: MemoryPlayer.PlayerService, chatId: MemoryPlayer.ChatId) returns (k: Keyboard)
    requires svc.Valid()
    modifies svc
    ensures svc.Valid() && fresh(svc.players.Values - old(svc.players.Values))
    ensures svc.contents == old(svc.contents)[chatId := MemoryPlayer.Lookup(old(svc.contents), chatId)]
    ensures k == PlayerControls(MemoryPlayer.Lookup(old(svc.contents), chatId).isPlaying)
  {
    var p := svc.GetState(chatId);
    k := PlayerControls(p.isPlaying);
  }

  /** The lookup found the video and its info names an author, so the handler gets as far as `play`. */
  predicate Playable(info: Result<Option<VideoInfo>, string>) {
    info.Success? && info.value.Some? && info.value.value.author.Some?
  }

  /**
   * The `/play` command. `info` is the outcome of the video lookup (a
   * failure when it rejects, `None` when it finds nothing) and `stream` that
   * of the stream creation. A lookup that rejects, an info without an author
   * and a stream creation that throws all end in the catch-all reply; the
   * last one comes after `play`, so the record is left playing the new track.
   */
  method PlayCommand(svc: MemoryPlayer.PlayerService, chatId: MemoryPlayer.ChatId, text: string,
                     info: Result<Option<VideoInfo>, string>, stream: Result<string, string>) returns (reply: Reply)
    requires svc.Valid()
    modifies svc, svc.players.Values
    ensures svc.Valid() && fresh(svc.players.Values - old(svc.players.Values))
    ensures var route := RoutePlay(text);
      if route.FetchVideo? && Playable(info) then
        var t := TrackOf(route.videoId, info.value.value);
        && svc.contents == old(svc.contents)[chatId :=
             MemoryPlayer.Lookup(old(svc.contents), chatId).(currentTrack := Some(t), isPlaying := true, position := 0.0)]
        && reply == if stream.Failure? then Text(FailureText)
                    else Audio(stream.value, t.title, t.artist, "Now playing: " + t.title, PlayerControls(true))
      else
        && svc.contents == old(svc.contents)
        && reply == match route
             case AskForQuery => Text(UsageText)
             case InvalidUrl => Text(InvalidUrlText)
             case FetchVideo(_) => if info == Success(None) then Text(NoInfoText) else Text(FailureText)
             case OpenWebApp(q) => OpenPlayer(q)
  {
    var route := RoutePlay(text);
    match route
    case AskForQuery =>
      reply := Text(UsageText);
    case InvalidUrl =>
      reply := Text(InvalidUrlText);
    case OpenWebApp(q) =>
      reply := OpenPlayer(q);
    case FetchVideo(id) =>
      if info.Failure? {
        reply := Text(FailureText);
      } else if info.value.None? {
        reply := Text(NoInfoText);
      } else if info.value.value.author.None? {
        reply := Text(FailureText);
      } else {
        var t := TrackOf(id, info.value.value);
        var p := svc.Play(chatId, t);
        if stream.Failure? {
          reply := Text(FailureText);
        } else {
          var k := Controls(svc, chatId);
          reply := Audio(stream.value, t.title, t.artist, "Now playing: " + t.title, k);
        }
      }
  }

  /** The `/pause` command: pauses, then names the track or says nothing is playing. */
  method PauseCommand(svc: MemoryPlayer.PlayerService, chatId: MemoryPlayer.ChatId) returns (reply: Reply)
    requires svc.Valid()
    modifies svc, svc.players.Values
    ensures svc.Valid() && fresh(svc.players.Values - old(svc.players.Values))
    ensures var v := MemoryPlayer.Lookup(old(svc.contents), chatId);
      && svc.contents == old(svc.contents)[chatId := v.(isPlaying := false)]
      && reply == if v.currentTrack.None? then Text("No active playback to pause")
                  else TextWithControls("\U{23F8} Paused: " + v.currentTrack.value.title, PlayerControls(false))
  {
    var p := svc.Pause(chatId);
    if p.currentTrack.None? {
      reply := Text("No active playback to pause");
    } else {
      var title := p.currentTrack.value.title;
      var k := Controls(svc, chatId);
      reply := TextWithControls("\U{23F8} Paused: " + title, k);
    }
  }

  /**
   * The `/resume` command. The service sets `isPlaying` even without a track,
   * so a chat with nothing loaded is marked playing and told there is no track.
   */
  method ResumeCommand(svc: MemoryPlayer.PlayerService, chatId: MemoryPlayer.ChatId) returns (reply: Reply)
    requires svc.Valid()
    modifies svc, svc.players.Values
    ensures svc.Valid() && fresh(svc.players.Values - old(svc.players.Values))
    ensures var v := MemoryPlayer.Lookup(old(svc.contents), chatId);
      && svc.contents == old(svc.contents)[chatId := v.(isPlaying := true)]
      && reply == if v.currentTrack.None? then Text("No track to resume")
                  else TextWithControls("\U{25B6} Resumed: " + v.currentTrack.value.title, PlayerControls(true))
  {
    var p := svc.Resume(chatId);
    if p.currentTrack.None? {
      reply := Text("No track to resume");
    } else {
      var title := p.currentTrack.value.title;
      var k := Controls(svc, chatId);
      reply := TextWithControls("\U{25B6} Resumed: " + title, k);
    }
  }

  /** The `/stop` command: stops and rewinds, then names the track. */
  method StopCommand(svc: MemoryPlayer.PlayerService, chatId: MemoryPlayer.ChatId) returns (reply: Reply)
    requires svc.Valid()
    modifies svc, svc.players.Values
    ensures svc.Valid() && fresh(svc.players.Values - old(svc.players.Values))
    ensures var v := MemoryPlayer.Lookup(old(svc.contents), chatId);
      && svc.contents == old(svc.contents)[chatId := v.(isPlaying := false, position := 0.0)]
      && reply == if v.currentTrack.None? then Text("No active playback to stop")
                  else Text("\U{23F9} Stopped: " + v.currentTrack.value.title)
  {
    var p := svc.Stop(chatId);
    if p.currentTrack.None? {
      reply := Text("No active playback to stop");
    } else {
      reply := Text("\U{23F9} Stopped: " + p.currentTrack.value.title);
    }
  }

  /** The `/end` command: forgets the chat. */
  method EndCommand(svc: MemoryPlayer.PlayerService, chatId: MemoryPlayer.ChatId) returns (reply: Reply)
    requires svc.Valid()
    modifies svc, svc.players.Values
    ensures svc.Valid() && svc.players.Values <= old(svc.players.Values)
    ensures svc.contents == old(svc.contents) - {chatId}
    ensures reply == Text("\U{274C} Playback session ended")
  {
    svc.End(chatId);
    reply := Text("\U{274C} Playback session ended");
  }

  /** The status text of a record with a loaded track. */
  function StatusText(v: MemoryPlayer.PlayerValue): string
    requires v.currentTrack.Some?
  {
    var t := v.currentTrack.value;
    "\U{1F3B5} " + (if v.isPlaying then "Now Playing" else "Paused") + ": " + t.title + "\n"
    + "\U{1F464} Artist: " + t.artist + "\n"
    + "\U{23F1} Position: " + FormatTime(v.position) + "/" + FormatTime(t.duration) + "\n"
    + "\U{1F3A7} Volume: " + IntToString(v.volume) + "%"
  }

  /** The `/status` command: reads the record (creating it if absent) and reports it. */
  method StatusCommand(svc: MemoryPlayer.PlayerService, chatId: MemoryPlayer.ChatId) returns (reply: Reply)
    requires svc.Valid()
    modifies svc
    ensures svc.Valid() && fresh(svc.players.Values - old(svc.players.Values))
    ensures var v := MemoryPlayer.Lookup(old(svc.contents), chatId);
      && svc.contents == old(svc.contents)[chatId := v]
      && reply == if v.currentTrack.None? then Text("No active playback")
                  else TextWithControls(StatusText(v), PlayerControls(v.isPlaying))
  {
    var p := svc.GetState(chatId);
    if p.currentTrack.None? {
      reply := Text("No active playback");
    } else {
      var text := StatusText(p.Value());
      var k := Controls(svc, chatId);
      reply := TextWithControls(text, k);
    }
  }

  /** What a button press does to the message it came from. */
  datatype ActionResult =
    | EditMarkup(controls: Keyboard, notice: string)
    | DeleteMessage(notice: string)
    | Unhandled

  /** The `bot.action` handlers, by callback data; `prev`, `next`, `shuffle` and `volume` have none. */
  method HandleAction(svc: MemoryPlayer.PlayerService, chatId: MemoryPlayer.ChatId, data: string)
    returns (r: ActionResult)
    requires svc.Valid()
    modifies svc, svc.players.Values
    ensures svc.Valid()
    ensures var v := MemoryPlayer.Lookup(old(svc.contents), chatId);
      && (data == "play" ==>
            svc.contents == old(svc.contents)[chatId := v.(isPlaying := true)]
            && r == EditMarkup(PlayerControls(true), "\U{25B6} Playback resumed"))
      && (data == "pause" ==>
            svc.contents == old(svc.contents)[chatId := v.(isPlaying := false)]
            && r == EditMarkup(PlayerControls(false), "\U{23F8} Playback paused"))
      && (data == "stop" ==>
            svc.contents == old(svc.contents)[chatId := v.(isPlaying := false, position := 0.0)]
            && r == DeleteMessage("\U{23F9} Playback stopped"))
      && (data == "end" ==>
            svc.contents == old(svc.contents) - {chatId} && r == DeleteMessage("\U{274C} Session ended"))
      && (data !in {"play", "pause", "stop", "end"} ==> svc.contents == old(svc.contents) && r == Unhandled)
  {
    if data == "play" {
      var p := svc.Resume(chatId);
      var k := Controls(svc, chatId);
      r := EditMarkup(k, "\U{25B6} Playback resumed");
    } else if data == "pause" {
      var p := svc.Pause(chatId);
      var k := Controls(svc, chatId);
      r := EditMarkup(k, "\U{23F8} Playback paused");
    } else if data == "stop" {
      var p := svc.Stop(chatId);
      r := DeleteMessage("\U{23F9} Playback stopped");
    } else if data == "end" {
      svc.End(chatId);
      r := DeleteMessage("\U{274C} Session ended");
    } else {
      r := Unhandled;
    }
  }

  /**
   * Pressing the toggle button of a freshly drawn keyboard flips the chat's
   * playing state, and the redrawn keyboard offers the opposite action.
   */
  method PressToggle(svc: MemoryPlayer.PlayerService, chatId: MemoryPlayer.ChatId)
    returns (before: Keyboard, after: ActionResult)
    requires svc.Valid()
    modifies svc, svc.players.Values
    ensures svc.Valid()
    ensures var wasPlaying := MemoryPlayer.Lookup(old(svc.contents), chatId).isPlaying;
      && before == PlayerControls(wasPlaying)
      && after.EditMarkup? && after.controls == PlayerControls(!wasPlaying)
      && chatId in svc.contents && svc.contents[chatId].isPlaying == !wasPlaying
  {
    before := Controls(svc, chatId);
    after := HandleAction(svc, chatId, before[0][1].callbackData);
  }
}
