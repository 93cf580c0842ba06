/**
 * The persistence adapter of the store-backed player: one document per chat
 * in the `players` collection, which has a unique index on `chatId`.
 * `getPlayer` is find-or-create, `updatePlayer` is an `updateOne` with a
 * `$set` of the given fields plus a fresh `updatedAt` (no upsert), and
 * `deletePlayer` is a `deleteOne`.
 */
module MongoStore {
  import opened Wrappers
  import opened Tracks

  /** Chat identifiers as the documents store them. */
  type ChatId = int

  /** `Date` values, in milliseconds. */
  type Time = int

  /** A JavaScript number as `parseFloat`/`parseInt` yield it: a finite value or NaN. */
  datatype Num = Finite(value: real) | NaN

  /** `Math.min` on two numbers: NaN when either is NaN. */
  function Min(a: Num, b: Num): Num {
    if a.NaN? || b.NaN? then NaN else if a.value <= b.value then a else b
  }

  /** `Math.max` on two numbers: NaN when either is NaN. */
  function Max(a: Num, b: Num): Num {
    if a.NaN? || b.NaN? then NaN else if a.value >= b.value then a else b
  }

  /** `Math.max(lo, Math.min(hi, x))`: `x` forced into `[lo, hi]`, with NaN passing through. */
  function Clamp(x: Num, lo: real, hi: real): (r: Num)
    requires lo <= hi
    ensures r.NaN? <==> x.NaN?
    ensures r.Finite? ==> lo <= r.value <= hi
    ensures x.Finite? && lo <= x.value <= hi ==> r == x
    ensures x.Finite? && x.value < lo ==> r == Finite(lo)
    ensures x.Finite? && x.value > hi ==> r == Finite(hi)
  {
    Max(Finite(lo), Min(Finite(hi), x))
  }

  /** One document of the `players` collection. `playbackSpeed` is absent until first set. */
  datatype PlayerDoc = PlayerDoc(
    chatId: ChatId,
    currentTrack: Option<Track>,
    queue: seq<Track>,
    isPlaying: bool,
    position: Num,
    volume: Num,
    playbackSpeed: Option<Num>,
    createdAt: Time,
    updatedAt: Time)

  /** `createPlayer`'s document: no track, empty queue, stopped at 0, volume 50, no speed field. */
  function DefaultDoc(chatId: ChatId, now: Time): (d: PlayerDoc)
    ensures d.chatId == chatId && d.currentTrack.None? && d.queue == []
    ensures !d.isPlaying && d.position == Finite(0.0) && d.volume == Finite(50.0)
    ensures d.playbackSpeed.None? && d.createdAt == now && d.updatedAt == now
  {
    PlayerDoc(chatId, None, [], false, Finite(0.0), Finite(50.0), None, now, now)
  }

  /**
   * An update object of the player service: the fields to `$set` (`None`
   * leaves a field alone) and the `updatedAt` the service stamped on it.
   */
  datatype Patch = Patch(
    currentTrack: Option<Option<Track>>,
    queue: Option<seq<Track>>,
    isPlaying: Option<bool>,
    position: Option<Num>,
    volume: Option<Num>,
    playbackSpeed: Option<Num>,
    updatedAt: Time)

  /** An update object that sets nothing but its timestamp. */
  function Stamp(now: Time): Patch {
    Patch(None, None, None, None, None, None, now)
  }

  function Pick<T>(given: Option<T>, current: T): T {
    if given.Some? then given.value else current
  }

  /** `$set: { ...u, updatedAt: now }`: the given fields overwrite, the adapter's clock wins for `updatedAt`. */
  function Apply(d: PlayerDoc, u: Patch, now: Time): (r: PlayerDoc)
    ensures r.chatId == d.chatId && r.createdAt == d.createdAt && r.updatedAt == now
    ensures u.currentTrack.None? ==> r.currentTrack == d.currentTrack
    ensures u.queue.None? ==> r.queue == d.queue
    ensures u.isPlaying.None? ==> r.isPlaying == d.isPlaying
    ensures u.position.None? ==> r.position == d.position
    ensures u.volume.None? ==> r.volume == d.volume
    ensures u.playbackSpeed.None? ==> r.playbackSpeed == d.playbackSpeed
  {
    d.(currentTrack := Pick(u.currentTrack, d.currentTrack),
       queue := Pick(u.queue, d.queue),
       isPlaying := Pick(u.isPlaying, d.isPlaying),
       position := Pick(u.position, d.position),
       volume := Pick(u.volume, d.volume),
       playbackSpeed := if u.playbackSpeed.Some? then u.playbackSpeed else d.playbackSpeed,
       updatedAt := now)
  }

  /** Two updates in a row: every field the later one sets wins. */
  function Then(first: Patch, second: Patch): Patch {
    Patch(
      if second.currentTrack.Some? then second.currentTrack else first.currentTrack,
      if second.queue.Some? then second.queue else first.queue,
      if second.isPlaying.Some? then second.isPlaying else first.isPlaying,
      if second.position.Some? then second.position else first.position,
      if second.volume.Some? then second.volume else first.volume,
      if second.playbackSpeed.Some? then second.playbackSpeed else first.playbackSpeed,
      second.updatedAt)
  }

  /** Applying two updates is applying their merge; in particular repeating an update changes nothing more. */
  lemma ApplyThen(d: PlayerDoc, first: Patch, second: Patch, t1: Time, t2: Time)
    ensures Apply(Apply(d, first, t1), second, t2) == Apply(d, Then(first, second), t2)
    ensures Apply(Apply(d, first, t1), first, t1) == Apply(d, first, t1)
  {
  }

  /** What `getPlayer` returns for `chatId` over the collection `m` at time `now`. */
  function View(m: map<ChatId, PlayerDoc>, chatId: ChatId, now: Time): (d: PlayerDoc)
    ensures chatId in m ==> d == m[chatId]
    ensures chatId !in m ==> d == DefaultDoc(chatId, now)
  {
    if chatId in m then m[chatId] else DefaultDoc(chatId, now)
  }

  /** What `insertOne` reports when the unique index on `chatId` refuses a document. */
  datatype StoreError = DuplicateKey

  /** `MongoDBService` over its `players` collection. */
  class Store {
    var players: map<ChatId, PlayerDoc>

    /** Every document sits under its own chat id. */
    ghost predicate Valid()
      reads this
    {
      forall c :: c in players ==> players[c].chatId == c
    }

    constructor ()
      ensures Valid() && players == map[]
    {
      players := map[];
    }

    /** `getPlayer`: the stored document, or a default one that is inserted first. */
    method GetPlayer(chatId: ChatId, now: Time) returns (d: PlayerDoc)
      requires Valid()
      modifies this
      ensures Valid()
      ensures d == View(old(players), chatId, now) && d.chatId == chatId
      ensures players == old(players)[chatId := d]
    {
      if chatId in players {
        d := players[chatId];
      } else {
        var created := CreatePlayer(chatId, now);
        d := created.value;
      }
    }

    /** `createPlayer`: inserts the default document; the unique index refuses a second one. */
    method CreatePlayer(chatId: ChatId, now: Time) returns (r: Result<PlayerDoc, StoreError>)
      requires Valid()
      modifies this
      ensures Valid()
      ensures chatId in old(players) ==> r == Failure(DuplicateKey) && players == old(players)
      ensures chatId !in old(players) ==>
        r == Success(DefaultDoc(chatId, now)) && players == old(players)[chatId := DefaultDoc(chatId, now)]
    {
      if chatId in players {
        r := Failure(DuplicateKey);
      } else {
        var doc := DefaultDoc(chatId, now);
        players := players[chatId := doc];
        r := Success(doc);
      }
    }

    /** `updatePlayer`: `$set` on the matching document; without upsert, nothing happens when there is none. */
    method UpdatePlayer(chatId: ChatId, u: Patch, now: Time)
      requires Valid()
      modifies this
      ensures Valid()
      ensures chatId in old(players) ==> players == old(players)[chatId := Apply(old(players)[chatId], u, now)]
      ensures chatId !in old(players) ==> players == old(players)
    {
      if chatId in players {
        players := players[chatId := Apply(players[chatId], u, now)];
      }
    }

    /** `deletePlayer`: removes the chat's document, if any. */
    method DeletePlayer(chatId: ChatId)
      requires Valid()
      modifies this
      ensures Valid()
      ensures players == old(players) - {chatId}
    {
      players := players - {chatId};
    }
  }
}
