# Telegram music player: the player state and the rules around it

This project models, in Dafny, the per-chat player of a Telegram music bot and the small rules that surround it:

- **In-memory player service** (`MemoryPlayer`). It keeps a map from chat id to a mutable player record. A record is created with default values on first access and deleted by `end`. The bot's commands call it.
- **Store-backed player service** (`StorePlayer`). It runs over the MongoDB adapter (`MongoStore`), which holds one document per chat. The adapter offers:
  - find-or-create;
  - `$set` of the given fields plus a fresh `updatedAt`, without upsert;
  - delete.

  The service adds queueing, skipping, an unclamped position update, and clamped volume and speed.
- **Database health monitor** (`MongoMonitor`). It counts consecutive failed pings and exits the process at the third.
- **Lyric parsers** (`Lyrics`). One reads synced LRC lines of the form `[mm:ss.xx]text`. The other reads plain text whose verses are separated by blank lines and placed 30 seconds apart.
- **Web player's client rules** (`WebPlayer`, from both copies of the page script):
  - wrap-around next/previous;
  - speed steps within [0.5, 2.0];
  - the throttled position report;
  - the active lyric line;
  - touch gestures and toggling playback.
- **Shared helpers**:
  - `formatTime`, copied into four files (`TimeFormat`);
  - `extractVideoId`, copied into two files (`VideoId`).
- **Bot's play command and its control keyboard** (`BotPlay`).
- **Telegram service's web-app link** (`TelegramService`).

JavaScript's semantics are written out where they matter:

- `%` truncates, so its result takes the sign of the dividend.
- `Math.round(y)` is `floor(y + 0.5)`.
- `parseFloat` can yield NaN, and `Math.min`/`Math.max` pass NaN through.
- Regular expressions are modelled as the engine runs them:
  - the leading `.*` is greedy and stops at a line terminator;
  - `\d` means ASCII digits;
  - `(.*)` captures up to the first line terminator.
- `+` on a range input's text value concatenates.

Services are classes whose methods change their fields, and every method states its whole new state. The pure parts are functions, with lemmas that relate them to an independent description or an inverse:

- the regular expressions, to a match predicate;
- `formatTime`, to a clock reader;
- the monitor, to "three failures in a row";
- navigation, to its inverse and to rotation.

Where the code and its documentation disagree, the model follows the code:

- `resume` has no check for a loaded track.
- The position update is not clamped to the track.
- A new document has no speed field.
- There is no per-chat locking.
- A store-backed `play` for a chat without a document persists nothing, because `updateOne` runs without upsert, yet it still returns the update.

## Model

| member | source | states |
|---|---|---|
| MemoryPlayer.PlayerService.constructor | backend/src/api/services/player.js:4-6 | the service starts with no records |
| MemoryPlayer.PlayerState.Fresh | backend/src/api/services/player.js:10-16 | a new record has no track, an empty queue, is not playing, is at position 0 and has volume 50 |
| MemoryPlayer.PlayerService.GetPlayer | backend/src/api/services/player.js:8-19 | a known chat gets its stored record object back and nothing changes; an unknown chat gets a fresh default record, which is inserted; every other chat is untouched |
| MemoryPlayer.PlayerState.Load | backend/src/api/services/player.js:23-25 | the record gets the track, is playing and is at position 0; queue and volume are kept |
| MemoryPlayer.PlayerState.Rewind | backend/src/api/services/player.js:47-48 | the record is not playing and is at position 0; track, queue and volume are kept |
| MemoryPlayer.PlayerState.Unload | backend/src/api/services/player.js:54-56 | the record has no track, is not playing and is at position 0; queue and volume are kept |
| MemoryPlayer.PlayerService.Play | backend/src/api/services/player.js:21-27 | only the chat's record changes: the track is loaded, playing, at position 0; queue and volume are kept; a missing record is created first |
| MemoryPlayer.PlayerService.Pause | backend/src/api/services/player.js:29-35 | only the chat's record changes, and only in `isPlaying`, which becomes false |
| MemoryPlayer.PauseTwiceScenario | backend/src/api/services/player.js:29-35 | pausing twice leaves the same record as pausing once |
| MemoryPlayer.PlayerService.Resume | backend/src/api/services/player.js:37-43 | only `isPlaying` of the chat's record changes, to true, even when no track is loaded |
| MemoryPlayer.PlayerService.Stop | backend/src/api/services/player.js:45-50 | `isPlaying` becomes false and position 0; the track, queue and volume are kept |
| MemoryPlayer.PlayerService.End | backend/src/api/services/player.js:52-59 | the chat leaves the map and the other chats stay; the forgotten record object is left cleared (no track, not playing, position 0) |
| MemoryPlayer.PlayerService.GetState | backend/src/api/services/player.js:61-63 | the same as getPlayer: the stored record, or a newly inserted default |
| MemoryPlayer.EndScenario | backend/src/api/services/player.js:52-63 | after `end`, the next `getState` of that chat is a default record, while another chat keeps its track |
| Tracks.Summary | src/api/services/player.js:36-42 | a queue entry is the track with every field but its url |
| MongoStore.Clamp | src/api/services/player.js:229 | `Math.max(0, Math.min(100, v))` lies in [0, 100], is the input when the input is inside, is the nearer bound otherwise, and is NaN exactly for NaN (the same code is copied at `src/api/services/player.js:248`) |
| MongoStore.DefaultDoc | src/api/services/mongodb.js:22-32 | a new document has no track, an empty queue, is not playing, has position 0 and volume 50, has no speed field, and both timestamps equal the creation time |
| MongoStore.Apply | src/api/services/mongodb.js:37-42 | `$set` overwrites exactly the fields the update gives; chat id and creation time are kept and `updatedAt` is the adapter's clock |
| MongoStore.ApplyThen | src/api/services/mongodb.js:38-41 | two updates in a row act as their merge, with the later one winning field by field; repeating an update changes nothing more |
| MongoStore.View | src/api/services/mongodb.js:17-20 | a lookup yields the stored document, or the default document when there is none |
| MongoStore.Store.GetPlayer | src/api/services/mongodb.js:17-20 | returns the stored document unchanged, or inserts and returns the default; no other document changes |
| MongoStore.Store.CreatePlayer | src/api/services/mongodb.js:22-35 | inserts the default document for a new chat; a second insert for the same chat is refused by the unique index and changes nothing |
| MongoStore.Store.UpdatePlayer | src/api/services/mongodb.js:37-42 | only the matching document changes, by `Apply`; for a chat without a document nothing happens (no upsert) |
| MongoStore.Store.DeletePlayer | src/api/services/mongodb.js:44-46 | exactly the chat's document is removed |
| StorePlayer.PlayerService.GetPlayer | src/api/services/player.js:9-17 | the stored document, or a default one that is inserted; nothing else changes |
| StorePlayer.PlayUpdate | src/api/services/player.js:27-46 | the update loads the whole track, queues its url-less summary alone, plays from 0, and leaves volume and speed alone |
| StorePlayer.PlayerService.Play | src/api/services/player.js:25-49 | writes that update to the chat's document, if one exists, and returns it; no other document changes; volume and speed bounds are kept |
| StorePlayer.PlayerService.Pause | src/api/services/player.js:61-68 | `isPlaying` becomes false, whether or not a track is loaded; the re-read document is returned (a default one when there was none) |
| StorePlayer.PlayerService.Resume | src/api/services/player.js:80-87 | `isPlaying` becomes true with no check for a loaded track; a chat without a document gets a default, non-playing one |
| StorePlayer.PlayerService.Stop | src/api/services/player.js:99-107 | only `isPlaying` (false), position (0) and `updatedAt` change; track and queue are kept |
| StorePlayer.PlayerService.End | src/api/services/player.js:119-122 | exactly the chat's document is deleted |
| StorePlayer.PlayerService.UpdatePosition | src/api/services/player.js:135-140 | the parsed number is stored as given, NaN and values past the track included; nothing else changes |
| StorePlayer.SessionScenario | src/api/services/player.js:135-140 | a position past the track's end is stored; `stop` then keeps the track; a one-entry queue cannot be skipped; after `end` the chat gets a fresh default |
| StorePlayer.Enqueued | src/api/services/player.js:156-162 | the new queue is one longer, keeps the old entries in order as its prefix, and ends with the track's summary |
| StorePlayer.PlayerService.AddToQueue | src/api/services/player.js:153-169 | reads (creating if needed), stores the old queue plus the summary, and returns the re-read document |
| StorePlayer.SkipUpdate | src/api/services/player.js:185-198 | fails with the rethrown message exactly when at most one entry is queued; otherwise drops the head, makes the new head current and plays it from 0 |
| StorePlayer.SkipShrinksQueue | src/api/services/player.js:189-196 | after a skip the queue is one shorter, the old head followed by it gives back the old queue, and the current track is its first entry |
| StorePlayer.PlayerService.SkipNext | src/api/services/player.js:181-205 | on failure only the read (and possible creation) has happened; on success the skip update is written and returned |
| StorePlayer.PlayerService.GetState | src/api/services/player.js:213-220 | the stored document, or a newly inserted default |
| StorePlayer.PlayerService.SetVolume | src/api/services/player.js:227-233 | stores the volume clamped to [0, 100] and nothing else |
| StorePlayer.PlayerService.SetPlaybackSpeed | src/api/services/player.js:246-252 | stores the speed clamped to [0.5, 2.0] and nothing else |
| MongoMonitor.Monitor.constructor | src/api/services/mongoMonitor.js:5-11 | no ping yet, no failures, three failures allowed |
| MongoMonitor.Check | src/api/services/mongoMonitor.js:13-27 | a success records the time and resets the count; a failure adds one and exits when the count reaches three; after exit nothing changes |
| MongoMonitor.Monitor.CheckHealth | src/api/services/mongoMonitor.js:13-27 | the fields change as `Check` says, and the count stays below three while running and is three on exit |
| MongoMonitor.ExitIffConsecutiveFailures | src/api/services/mongoMonitor.js:20-25 | over any sequence of pings the process exits exactly when three pings in a row failed; while it runs, the count is the number of trailing failures and below three |
| MongoMonitor.TrailingFailuresAtLeast | src/api/services/mongoMonitor.js:20 | the last k pings all failed exactly when at least k failures trail the sequence |
| MongoMonitor.Monitor.GetStatus | src/api/services/mongoMonitor.js:29-35 | reports lastPing and the count unchanged; latency is absent exactly when no ping has succeeded, and otherwise now minus lastPing |
| Strings.JoinSplit | bot/src/commands/play.js:12 | joining the pieces of a split with the same separator gives back the text |
| Strings.SplitPiecesAvoidSeparator | backend/src/api/controllers/lyrics.js:41 | no piece of a split contains the separator, so no verse holds a blank line |
| Strings.SplitCutsLeftmost | backend/src/api/controllers/lyrics.js:41 | for every piece but the last, the separator first occurs in that piece plus the separator right at the piece's end: each cut is the leftmost one, so `a\n\n\nb` splits as `a` and `\nb` |
| Strings.Trim | backend/src/api/controllers/lyrics.js:32 | the result is the text without its leading and trailing whitespace, and starts and ends with non-whitespace |
| Lyrics.MatchTagSound | backend/src/api/controllers/lyrics.js:27 | a match has three non-empty digit groups spelled `[m:s.f]` at the start of the line, and the rest is the line up to its first line terminator |
| Lyrics.MatchTagComplete | backend/src/api/controllers/lyrics.js:27 | every line that starts with such a tag matches, with exactly those groups |
| Lyrics.SecondsValue | backend/src/api/controllers/lyrics.js:30 | the seconds group reads as its whole part plus a fraction in [0, 1) |
| Lyrics.ParseLine | backend/src/api/controllers/lyrics.js:27-36 | a tagged line gives the trimmed rest at minutes × 60 plus seconds; any other line gives its trimmed text at time 0 |
| Lyrics.ParseTaggedLine | backend/src/api/controllers/lyrics.js:27-36 | a line starting with a tag `[m:s.f]` gives the trimmed rest of its first line at m × 60 + s.f seconds |
| Lyrics.WholeSecondTagIsText | backend/src/api/controllers/lyrics.js:27 | a tag without a fractional part such as `[01:23]` does not match: the line keeps its tag as text at time 0 |
| Lyrics.SampleTagTime | backend/src/api/controllers/lyrics.js:29-33 | `[01:23.45]` stands for 83.45 seconds |
| Lyrics.ParseLrclibLyrics | backend/src/api/controllers/lyrics.js:25-38 | one entry per `\n`-separated line, in order, each parsed by `ParseLine` |
| Lyrics.ParseLrclibTaggedLine | backend/src/api/controllers/lyrics.js:25-38 | line `i` of the synced lyrics, when it starts with a tag `[m:s.f]`, becomes entry `i` with the trimmed rest of the line at m × 60 + s.f seconds |
| Lyrics.ParsePlainLyrics | backend/src/api/controllers/lyrics.js:40-45 | one entry per blank-line-separated verse, with its trimmed text, verse i at 30·i seconds, so times strictly increase |
| TimeFormat.RemSixty | static/scripts/app.js:626 | JavaScript's `% 60` differs from its argument by a whole multiple of 60 and takes the argument's sign |
| TimeFormat.SplitMinutes | static/scripts/app.js:625-626 | for a non-negative time the minutes and seconds are the whole seconds divided by 60 and their remainder |
| TimeFormat.FormatTimeShape | static/scripts/app.js:624-628 | a non-negative time renders as its whole minutes, a colon and exactly two digits of seconds (the same code is copied at `webapp/public/scripts/app.js:414-418`, `bot/src/commands/play.js:173-177`, `src/api/services/telegram.js:199-203`) |
| TimeFormat.FormatTimeRoundTrip | static/scripts/app.js:624-628 | reading the rendered clock back gives the whole seconds of the time (the same code is copied at `webapp/public/scripts/app.js:414-418`, `bot/src/commands/play.js:173-177`, `src/api/services/telegram.js:199-203`) |
| TimeFormat.NegativeTime | static/scripts/app.js:624-628 | a negative time keeps JavaScript's signs: -5 renders as `-1:0-5` |
| VideoId.ExtractVideoId | bot/src/commands/play.js:166-170 | the result is absent or exactly 11 UTF-16 code units long, none of them `#`, `&` or `?` (the same code is copied at `src/api/services/telegram.js:192-196`) |
| VideoId.ExtractVideoIdIff | bot/src/commands/play.js:167-169 | the result is `id` exactly when `id` is 11 code units long and the pattern matches with it: at the rightmost delimiter on the first line, `id` being the whole run of characters other than `#&?` after it (the same code is copied at `src/api/services/telegram.js:193-195`) |
| VideoId.ExtractedMatches | bot/src/commands/play.js:167-169 | a returned id is the group of a match of the pattern |
| VideoId.MatchExtracted | bot/src/commands/play.js:167-169 | the group of a match, when it is 11 code units long, is what is returned |
| VideoId.LastDelimiter | bot/src/commands/play.js:167 | the delimiter position is the rightmost one the greedy `.*` allows |
| VideoId.ShortLink | bot/src/commands/play.js:166-170 | `https://youtu.be/<id>` yields its id when that is 11 code units long and free of `#&?/=` and line terminators |
| VideoId.WatchLink | bot/src/commands/play.js:166-170 | a `watch?v=<id>` link yields its id whatever parameters follow a `#`, `&` or `?` |
| VideoId.AstralIdCountsTwice | bot/src/commands/play.js:169 | an id of one character outside the Basic Multilingual Plane and nine ordinary ones, 10 characters in all, is 11 code units long and is accepted |
| Strings.Utf16Length | bot/src/commands/play.js:169 | `length` counts between one and two code units per character |
| BotPlay.QueryAfterFirstSpace | bot/src/commands/play.js:12 | the argument is everything after the first space, or empty without one (the same code is copied at `src/api/services/telegram.js:23`) |
| BotPlay.BareCommandAsksForQuery | bot/src/commands/play.js:14-16 | a text without a space gets the usage reply |
| BotPlay.RoutePlayCases | bot/src/commands/play.js:12-23 | each reply comes exactly in its own case: the usage reply when nothing follows the first space; the invalid-link reply for a text matching `youtu.?be` without an 11-unit id; a video fetch for one with such an id; the web player, given the argument as it is, for every other non-empty argument (the same code is copied at `src/api/services/telegram.js:23-35`) |
| BotPlay.TrackOf | bot/src/commands/play.js:31-38 | for an info with an author, the track takes the id, and the title, length, thumbnail, author name and url of the video info (the same code is copied at `src/api/services/telegram.js:45-52`) |
| BotPlay.ToggleButton | bot/src/commands/play.js:188 | the toggle's action is `pause` exactly when playing and `play` exactly when not |
| BotPlay.PlayerControls | bot/src/commands/play.js:184-200 | three rows, the first of three buttons with the toggle in the middle |
| BotPlay.ControlsDifferOnlyInToggle | bot/src/commands/play.js:184-200 | the keyboards for the two states agree on every button but the toggle, and differ |
| BotPlay.Controls | bot/src/commands/play.js:180-201 | reads the chat's record (creating it if absent) and draws the keyboard for its playing state |
| BotPlay.PlayCommand | bot/src/commands/play.js:9-71 | the usage, invalid-link, no-info and web-player replies change no record; a lookup that rejects or an info without an author gets the failure reply and changes no record; otherwise the video is loaded and playing from 0, and the reply is the audio with controls showing pause, or the failure reply, with the record still playing, when the stream cannot be created |
| BotPlay.PauseCommand | bot/src/commands/play.js:74-90 | pauses, then replies with the track's title, or says there is no active playback |
| BotPlay.ResumeCommand | bot/src/commands/play.js:93-109 | marks the chat playing even without a track, then names the track or says there is none |
| BotPlay.StopCommand | bot/src/commands/play.js:112-126 | stops and rewinds, then names the track or says there is none |
| BotPlay.EndCommand | bot/src/commands/play.js:129-138 | forgets the chat and confirms |
| BotPlay.StatusCommand | bot/src/commands/play.js:141-163 | reports state, title, artist, formatted position and length, and volume, or says there is no playback |
| BotPlay.HandleAction | bot/src/commands/play.js:204-230 | `play`, `pause`, `stop` and `end` buttons act on the chat's record and redraw or delete the message; other buttons do nothing |
| BotPlay.PressToggle | bot/src/commands/play.js:188-216 | pressing the toggle flips the chat's playing state, and the redrawn keyboard offers the opposite action |
| TelegramService.GenerateWebAppUrl | src/api/services/telegram.js:9-11 | the link is the base address, then exactly `?query=`, then the encoded query |
| TelegramService.PlayerControls | src/api/services/telegram.js:206-229 | the service's keyboard is fixed: three rows, and no button plays or pauses |
| TelegramService.QueryStringOfWebAppUrl | src/api/services/telegram.js:10 | for a base without `?`, the link's query string is exactly `query=` and the encoded query |
| WebPlayer.Player.constructor | static/scripts/app.js:14-31 | the script's initial values: no tracks, index 0, speed 1, no lyrics, no report yet |
| WebPlayer.JsRem | static/scripts/app.js:563 | JavaScript's `%` agrees with the mathematical remainder on non-negative numbers and is non-positive on negative ones |
| WebPlayer.NavigationWraps | static/scripts/app.js:553-565 | from an index in range, next moves one on and wraps to the first track, previous moves one back and wraps to the last (the same code is copied at `webapp/public/scripts/app.js:335-347`) |
| WebPlayer.PreviousUndoesNext | static/scripts/app.js:556-563 | previous after next, and next after previous, return to the same track |
| WebPlayer.NextTimesIsRotation | static/scripts/app.js:560-565 | k presses of next land on (i + k) mod n, so n presses come back to the start |
| WebPlayer.Player.PlayNext | static/scripts/app.js:560-565 | on an empty list nothing changes; otherwise the index moves to the next one, in range, and that track becomes current (the same code is copied at `webapp/public/scripts/app.js:342-347`) |
| WebPlayer.Player.PlayPrevious | static/scripts/app.js:553-558 | on an empty list nothing changes; otherwise the index moves to the previous one, in range, and that track becomes current (the same code is copied at `webapp/public/scripts/app.js:335-340`) |
| WebPlayer.RoundingError | static/scripts/app.js:346 | rounding to hundredths moves a value by at most half a hundredth and keeps whole hundredths |
| WebPlayer.QuarterStep | static/scripts/app.js:76-77 | the speed buttons move a speed on the quarter grid by exactly a quarter and keep it on the grid |
| WebPlayer.Player.AdjustSpeed | static/scripts/app.js:345-356 | the rounded speed is committed, and reported when a chat is known, only inside [0.5, 2.0]; otherwise nothing changes; the range is preserved (the same code is copied at `webapp/public/scripts/app.js:128-139`) |
| WebPlayer.Reports | static/scripts/app.js:596-603 | over any run of progress events the position is reported more than a second after the last report, each time (the same code is copied at `webapp/public/scripts/app.js:378-385`) |
| WebPlayer.NoReportsWhileSeeking | static/scripts/app.js:597-599 | nothing is reported while seeking or without a chat (the same code is copied at `webapp/public/scripts/app.js:379-381`) |
| WebPlayer.Player.UpdateProgress | webapp/public/scripts/app.js:368-386 | the time is shown unless seeking; the position is reported, and the report time moved, exactly when the throttle allows |
| WebPlayer.Player.UpdateProgressWithLyrics | static/scripts/app.js:586-605 | the same, followed by moving the lyric highlight |
| WebPlayer.FindActiveLyric | static/scripts/app.js:266-273 | the loop finds the last line of the leading run of started lines, or 0 |
| WebPlayer.ActiveLyricOfOrderedLines | static/scripts/app.js:266-273 | for lines in time order, the active line has started (unless none has) and every later line has not |
| WebPlayer.ActiveLyricStopsAtFirstFutureLine | static/scripts/app.js:268-272 | a line that has not started hides every later one |
| WebPlayer.Player.UpdateLyricsPosition | static/scripts/app.js:259-289 | without lyrics nothing changes; otherwise the highlight moves to the active line and reports whether it moved |
| WebPlayer.GesturePriority | static/scripts/app.js:199-229 | a quick horizontal swipe seeks whatever the vertical movement; a quick vertical swipe sets the volume only when the horizontal movement is small; a short, small touch toggles; the rest is ignored |
| WebPlayer.VolumeSwipesStep | static/scripts/app.js:217-221 | both volume swipes keep the volume in [0, 100], move it by at most 10, and by exactly 10 away from the ends |
| WebPlayer.Player.HandleTouchEnd | static/scripts/app.js:191-230 | seeks by 10 s within [0, duration], steps the volume and reports it, or toggles with both reports, as the gesture rules decide; position and volume stay in range |
| WebPlayer.Player.TogglePlayback | static/scripts/app.js:531-543 | flips paused; when a chat is known, resume or pause is reported twice, once by the toggle and once by the audio element listener at lines 122-131 (the same code is copied at `webapp/public/scripts/app.js:313-325`) |
| WebPlayer.Player.HandleDoubleTap | static/scripts/app.js:233-236 | a double click toggles once, with the toggle's two reports; the second registration of the same listener adds nothing |
| WebPlayer.AppendTenToDigits | static/scripts/app.js:221 | appending the text `10` to the digits of v reads back as 100·v + 10 |
| WebPlayer.RaiseVolumeAsWrittenJumps | static/scripts/app.js:221 | as written, a swipe up takes any volume from 1 straight to 100, and 0 to 10 |
| WebPlayer.RaiseVolumeAsWrittenCounterexample | static/scripts/app.js:221 | from 50, a swipe up gives 100 as written and 60 as intended |

## Findings

| source | as written | input that shows it | evidently intended | confidence | as-written member | corrected member |
|---|---|---|---|---|---|---|
| static/scripts/app.js:221 | `Math.min(100, volumeBar.value + 10)`: the range input's value is text, so `+` appends `10` | volume 50: the text `5010` is capped to 100 | `Math.min(100, v + 10)`, giving 60 | high, not executed | WebPlayer.RaiseVolumeAsWritten, WebPlayer.RaiseVolumeAsWrittenCounterexample | WebPlayer.RaiseVolume, WebPlayer.VolumeSwipesStep (used by WebPlayer.Player.HandleTouchEnd) |

## Left out

- Concurrency: every service method is modelled as one atomic step. The source has no per-chat locking, and interleaved `await`s could lose updates.
- The MongoDB client, connection and index creation are not modelled. The unique index on `chatId` appears only as the refusal in `MongoStore.Store.CreatePlayer`.
- The playlist methods `createPlaylist` and `getUserPlaylists` are left out. They are direct driver calls, on a collection that is never initialised.
- Timestamps are not modelled as real clocks. `Date.now()` and `new Date()` are parameters, and the adapter's `updatedAt` is the same value the service stamped.
- The monitor's ping and its 30-second timer are inputs, not modelled. A ping outcome comes in as a boolean, and the timer becomes the sequence of probes.
- MongoMonitor.Monitor.CheckHealth: requires a running monitor. After `process.exit(1)` no further check runs, so the exit is recorded as a field instead of ending the process.
- The yt-dlp and stream-cleaner services are left out; they are shell, filesystem and timer work.
- The search controller is left out.
- The Genius lyrics service and the HTTP fallback chain of `getLyrics` are left out; they are network calls.
- Express routes and app wiring are left out, as are the bot and Telegram bootstrap. `bot/src/webapp.js` is not part of this model.
- The DOM, the audio element's playback engine, the visualizer, `fetch` and the Telegram reply API are not modelled. Requests and replies are returned as values.
- The web player's other handlers are left out: seeking with the progress bar, `stop`, `endSession`, `setVolume`, and the `fetchPlayerState`/`initVolume`/`initSpeed`/`searchTracks`/`playTrack` loaders. They consist only of audio and network calls.
- WebPlayer.Player.PlayNext: `playTrack` (stream lookup and audio start) is reduced to making the track current.
- WebPlayer.Player.PlayPrevious: the same reduction of `playTrack`.
- WebPlayer.Player.TogglePlayback: the audio element is taken to fire its `play` or `pause` event after every toggle. A refused `play()` fires none, and then only the toggle's own report is sent. The listeners' `isPlaying` flag and button label are display state and are not modelled. Neither are their reports when `playTrack` starts a track.
- Strings are sequences of Unicode characters. JavaScript's code units are modelled only where the core counts them: the `length` test of `extractVideoId` (`Strings.Utf16Length`) and the `.` of its pattern, which cannot match an astral character.
- StorePlayer.PlayerService: the adapter is taken never to fail. Driver errors are not modelled, and neither is each method's catch, which logs and rethrows `Failed to …`. The track passed to `play` and `addToQueue` is always present, so the `TypeError` on a missing track, also rethrown by the catch, is not modelled. The one failure that is modelled is skipNext's own short-queue throw, which surfaces as `Failed to skip to next track`.
- Floating point is not modelled. Numbers are exact reals, so IEEE rounding in `Math.round((s + change) * 100) / 100` and in `parseFloat` is not captured.
- Infinities are not modelled.
- NaN is modelled only in the store, for `parseFloat`/`parseInt` results. A NaN duration in the web player and `formatTime` of NaN are not modelled.
- Lyrics.SecondsValue: `parseFloat` of the seconds group is taken as the exact decimal value.
- WebPlayer.RoundToHundredths: exact; the binary rounding of `Math.round` on a product is not modelled.
- `encodeURIComponent` is a parameter of `TelegramService.GenerateWebAppUrl`, and the configured base address is an argument.
- Fetching video information and creating the stream are results passed in to `BotPlay.PlayCommand`: a rejection, no info, or an info, and a stream address or a failure. The errors the catch-all also catches from sending a reply are not modelled.
- The Telegram service's command handlers are not modelled as handlers, because they post to the backend over HTTP. Their query extraction and routing share `BotPlay.RoutePlay`.
- Touch coordinates are exact reals. The touch-start handler is reduced to the differences `dx` and `dy` and the elapsed time.
- WebPlayer.Player.HandleTouchEnd: models the intended swipe up (`WebPlayer.RaiseVolume`), not the concatenation as written. That is the finding above.
- Emoji feedback and the lyric scrolling are not modelled; they are display only.
- The throttle's `tg.initDataUnsafe?.chat?.id` test is reduced to a boolean `hasChat`.
