/**
 * The store-backed player service: every operation is a read-modify-write
 * of the chat's document through the adapter. Mutations go through
 * `updatePlayer`, which leaves a chat without a document untouched;
 * `pause`, `resume`, `stop` and `addToQueue` re-read through `getPlayer`,
 * which inserts a default document when there is none.
 */
module StorePlayer {
  import opened Wrappers
  import opened Tracks
  import opened MongoStore

  /** The message `skipNext` rethrows with. */
  const SkipFailed: string := "Failed to skip to next track"

  /** The update object of `play`: the full track, a one-entry queue of its summary, playing from 0. */
  function PlayUpdate(track: Track, now: Time): (u: Patch)
    ensures u.currentTrack == Some(Some(track)) && u.queue == Some([Summary(track)])
    ensures u.isPlaying == Some(true) && u.position == Some(Finite(0.0))
    ensures u.volume.None? && u.playbackSpeed.None? && u.updatedAt == now
  {
    Stamp(now).(
      currentTrack := Some(Some(Track(track.id, track.title, track.artist, track.duration, track.thumbnail, track.url))),
      queue := Some([Summary(track)]),
      isPlaying := Some(true),
      position := Some(Finite(0.0)))
  }

  /** `[...queue, summary]` of `addToQueue`: one more entry, the old ones first and in order. */
  function Enqueued(queue: seq<Track>, track: Track): (r: seq<Track>)
    ensures |r| == |queue| + 1
    ensures r[..|queue|] == queue
    ensures r[|queue|] == Summary(track)
  {
    queue + [Summary(track)]
  }

  /**
   * The decision of `skipNext` on the document it read: fail when at most one
   * entry is queued, otherwise drop the head and play the new head from 0.
   */
  function SkipUpdate(queue: seq<Track>, now: Time): (r: Result<Patch, string>)
    ensures r.Failure? <==> |queue| <= 1
    ensures r.Failure? ==> r.error == SkipFailed
    ensures r.Success? ==>
      && r.value.queue == Some(queue[1..])
      && r.value.currentTrack == Some(Some(queue[1]))
      && r.value.isPlaying == Some(true) && r.value.position == Some(Finite(0.0))
      && r.value.volume.None? && r.value.playbackSpeed.None? && r.value.updatedAt == now
  {
    if |queue| <= 1 then
      Failure(SkipFailed)
    else
      var newQueue := queue[1..];
      Success(Stamp(now).(
        currentTrack := Some(Some(newQueue[0])),
        queue := Some(newQueue),
        isPlaying := Some(true),
        position := Some(Finite(0.0))))
  }

  /** Skipping shortens the queue by exactly its head, and the new current track is the old second entry. */
  lemma {:induction false} SkipShrinksQueue(d: PlayerDoc, now: Time)
    requires |d.queue| > 1
    ensures SkipUpdate(d.queue, now).Success?
    ensures var after := Apply(d, SkipUpdate(d.queue, now).value, now);
      && |after.queue| == |d.queue| - 1
      && [d.queue[0]] + after.queue == d.queue
      && after.currentTrack == Some(after.queue[0])
  {
    var after := Apply(d, SkipUpdate(d.queue, now).value, now);
    assert after.queue == d.queue[1..];
  }

  /** The bounds the service's clamps give: volume in [0, 100] and speed in [0.5, 2.0], NaN aside. */
  ghost predicate Bounded(d: PlayerDoc) {
    && (d.volume.Finite? ==> 0.0 <= d.volume.value <= 100.0)
    && (d.playbackSpeed.Some? && d.playbackSpeed.value.Finite? ==> 0.5 <= d.playbackSpeed.value.value <= 2.0)
  }

  ghost predicate AllBounded(m: map<ChatId, PlayerDoc>) {
    forall c :: c in m ==> Bounded(m[c])
  }

  /** `PlayerService` over the adapter `db`. */
  class PlayerService {
    const db: Store

    constructor (db: Store)
      ensures this.db == db
    {
      this.db := db;
    }

    /** `getPlayer`. */
    method GetPlayer(chatId: ChatId, now: Time) returns (d: PlayerDoc)
      requires db.Valid()
      modifies db
      ensures db.Valid()
      ensures d == View(old(db.players), chatId, now)
      ensures db.players == old(db.players)[chatId := d]
    {
      d := db.GetPlayer(chatId, now);
    }

    /**
     * `play`: writes the update and returns it. Without a stored document the
     * write is dropped and the returned update was never applied.
     */
    method Play(chatId: ChatId, track: Track, now: Time) returns (u: Patch)
      requires db.Valid()
      modifies db
      ensures db.Valid()
      ensures u == PlayUpdate(track, now)
      ensures chatId in old(db.players) ==> db.players == old(db.players)[chatId := Apply(old(db.players)[chatId], u, now)]
      ensures chatId !in old(db.players) ==> db.players == old(db.players)
      ensures AllBounded(old(db.players)) ==> AllBounded(db.players)
    {
      u := PlayUpdate(track, now);
      db.UpdatePlayer(chatId, u, now);
    }

    /** `pause`: clears `isPlaying`, then re-reads the document (creating a default one if there was none). */
    method Pause(chatId: ChatId, now: Time) returns (d: PlayerDoc)
      requires db.Valid()
      modifies db
      ensures db.Valid()
      ensures chatId in old(db.players) ==> d == Apply(old(db.players)[chatId], Stamp(now).(isPlaying := Some(false)), now)
      ensures chatId !in old(db.players) ==> d == DefaultDoc(chatId, now)
      ensures !d.isPlaying && db.players == old(db.players)[chatId := d]
      ensures AllBounded(old(db.players)) ==> AllBounded(db.players)
    {
      db.UpdatePlayer(chatId, Stamp(now).(isPlaying := Some(false)), now);
      d := db.GetPlayer(chatId, now);
    }

    /**
     * `resume`: sets `isPlaying` with no check for a loaded track, then
     * re-reads. A chat without a document gets the default one, which is not playing.
     */
    method Resume(chatId: ChatId, now: Time) returns (d: PlayerDoc)
      requires db.Valid()
      modifies db
      ensures db.Valid()
      ensures chatId in old(db.players) ==> d == Apply(old(db.players)[chatId], Stamp(now).(isPlaying := Some(true)), now) && d.isPlaying
      ensures chatId !in old(db.players) ==> d == DefaultDoc(chatId, now) && !d.isPlaying
      ensures db.players == old(db.players)[chatId := d]
      ensures AllBounded(old(db.players)) ==> AllBounded(db.players)
    {
      db.UpdatePlayer(chatId, Stamp(now).(isPlaying := Some(true)), now);
      d := db.GetPlayer(chatId, now);
    }

    /** `stop`: clears `isPlaying` and rewinds to 0; track, queue, volume and speed stay. */
    method Stop(chatId: ChatId, now: Time) returns (d: PlayerDoc)
      requires db.Valid()
      modifies db
      ensures db.Valid()
      ensures chatId in old(db.players) ==>
        d == Apply(old(db.players)[chatId], Stamp(now).(isPlaying := Some(false), position := Some(Finite(0.0))), now)
      ensures chatId !in old(db.players) ==> d == DefaultDoc(chatId, now)
      ensures !d.isPlaying && d.position == Finite(0.0)
      ensures db.players == old(db.players)[chatId := d]
      ensures AllBounded(old(db.players)) ==> AllBounded(db.players)
    {
      db.UpdatePlayer(chatId, Stamp(now).(isPlaying := Some(false), position := Some(Finite(0.0))), now);
      d := db.GetPlayer(chatId, now);
    }

    /** `end`: deletes the chat's document and returns `null`. */
    method End(chatId: ChatId)
      requires db.Valid()
      modifies db
      ensures db.Valid()
      ensures db.players == old(db.players) - {chatId}
      ensures AllBounded(old(db.players)) ==> AllBounded(db.players)
    {
      db.DeletePlayer(chatId);
    }

    /** `updatePosition`: stores the parsed number as it is, with no clamping to the track. */
    method UpdatePosition(chatId: ChatId, position: Num, now: Time)
      requires db.Valid()
      modifies db
      ensures db.Valid()
      ensures chatId in old(db.players) ==>
        db.players == old(db.players)[chatId := Apply(old(db.players)[chatId], Stamp(now).(position := Some(position)), now)]
      ensures chatId !in old(db.players) ==> db.players == old(db.players)
      ensures AllBounded(old(db.players)) ==> AllBounded(db.players)
    {
      db.UpdatePlayer(chatId, Stamp(now).(position := Some(position)), now);
    }

    /** `addToQueue`: reads (creating if needed), appends the track's summary, writes, re-reads. */
    method AddToQueue(chatId: ChatId, track: Track, now: Time) returns (d: PlayerDoc)
      requires db.Valid()
      modifies db
      ensures db.Valid()
      ensures var before := View(old(db.players), chatId, now);
        d == Apply(before, Stamp(now).(queue := Some(Enqueued(before.queue, track))), now)
      ensures db.players == old(db.players)[chatId := d]
      ensures AllBounded(old(db.players)) ==> AllBounded(db.players)
    {
      var player := db.GetPlayer(chatId, now);
      var newQueue := Enqueued(player.queue, track);
      db.UpdatePlayer(chatId, Stamp(now).(queue := Some(newQueue)), now);
      d := db.GetPlayer(chatId, now);
    }

    /**
     * `skipNext`: reads (creating if needed); with at most one queued entry it
     * fails and writes nothing more, otherwise it writes and returns the skip update.
     */
    method SkipNext(chatId: ChatId, now: Time) returns (r: Result<Patch, string>)
      requires db.Valid()
      modifies db
      ensures db.Valid()
      ensures var before := View(old(db.players), chatId, now);
        && r == SkipUpdate(before.queue, now)
        && (r.Failure? ==> db.players == old(db.players)[chatId := before])
        && (r.Success? ==> db.players == old(db.players)[chatId := Apply(before, r.value, now)])
      ensures AllBounded(old(db.players)) ==> AllBounded(db.players)
    {
      var player := db.GetPlayer(chatId, now);
      r := SkipUpdate(player.queue, now);
      if r.Success? {
        db.UpdatePlayer(chatId, r.value, now);
      }
    }

    /** `getState`. */
    method GetState(chatId: ChatId, now: Time) returns (d: PlayerDoc)
      requires db.Valid()
      modifies db
      ensures db.Valid()
      ensures d == View(old(db.players), chatId, now)
      ensures db.players == old(db.players)[chatId := d]
      ensures AllBounded(old(db.players)) ==> AllBounded(db.players)
    {
      d := db.GetPlayer(chatId, now);
    }

    /** `setVolume`: stores the volume clamped to [0, 100]. */
    method SetVolume(chatId: ChatId, volume: Num, now: Time)
      requires db.Valid()
      modifies db
      ensures db.Valid()
      ensures chatId in old(db.players) ==>
        db.players == old(db.players)[chatId := Apply(old(db.players)[chatId], Stamp(now).(volume := Some(Clamp(volume, 0.0, 100.0))), now)]
      ensures chatId !in old(db.players) ==> db.players == old(db.players)
      ensures AllBounded(old(db.players)) ==> AllBounded(db.players)
    {
      var clampedVolume := Clamp(volume, 0.0, 100.0);
      db.UpdatePlayer(chatId, Stamp(now).(volume := Some(clampedVolume)), now);
    }

    /** `setPlaybackSpeed`: stores the speed clamped to [0.5, 2.0]. */
    method SetPlaybackSpeed(chatId: ChatId, speed: Num, now: Time)
      requires db.Valid()
      modifies db
      ensures db.Valid()
      ensures chatId in old(db.players) ==>
        db.players == old(db.players)[chatId := Apply(old(db.players)[chatId], Stamp(now).(playbackSpeed := Some(Clamp(speed, 0.5, 2.0))), now)]
      ensures chatId !in old(db.players) ==> db.players == old(db.players)
      ensures AllBounded(old(db.players)) ==> AllBounded(db.players)
    {
      var clampedSpeed := Clamp(speed, 0.5, 2.0);
      db.UpdatePlayer(chatId, Stamp(now).(playbackSpeed := Some(clampedSpeed)), now);
    }
  }

  /**
   * One chat's session: after `getState` creates the document, `play` loads
   * the track, a position past the track's end is stored unclamped, `stop`
   * rewinds and keeps the track, a one-entry queue cannot be skipped, and
   * after `end` the next `getState` is a fresh default document.
   */
  method SessionScenario(track: Track, t0: Time, t1: Time) returns (skipped: Result<Patch, string>, stopped: PlayerDoc, after: PlayerDoc)
    ensures skipped == Failure(SkipFailed)
    ensures stopped.currentTrack == Some(track) && !stopped.isPlaying && stopped.position == Finite(0.0)
    ensures after == DefaultDoc(42, t1)
  {
    var db := new Store();
    var service := new PlayerService(db);
    var d := service.GetState(42, t0);
    var u := service.Play(42, track, t0);
    service.UpdatePosition(42, Finite(track.duration + 10.0), t0);
    assert db.players[42].position == Finite(track.duration + 10.0);
    stopped := service.Stop(42, t0);
    skipped := service.SkipNext(42, t0);
    service.End(42);
    after := service.GetState(42, t1);
  }
}
