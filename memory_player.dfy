/**
 * The in-memory player service of the backend: a `Map` from chat id to a
 * mutable player record, created lazily with default values on first
 * access and deleted by `end`. Every method returns the live record object,
 * so callers see later in-place changes to it.
 */
module MemoryPlayer {
  import opened Wrappers
  import opened Tracks

  /** Telegram chat identifiers (`ctx.chat.id`). */
  type ChatId = int

  /** The contents of one player record. */
  datatype PlayerValue = PlayerValue(
    currentTrack: Option<Track>,
    queue: seq<Track>,
    isPlaying: bool,
    position: real,
    volume: int)

  /** The record `getPlayer` creates for a chat it has not seen. */
  const Default: PlayerValue := PlayerValue(None, [], false, 0.0, 50)

  /** What `getPlayer` yields for `c` over the record contents `m`. */
  function Lookup(m: map<ChatId, PlayerValue>, c: ChatId): (v: PlayerValue)
    ensures c in m ==> v == m[c]
    ensures c !in m ==> v == Default
  {
    if c in m then m[c] else Default
  }

  /** One mutable player record. */
  class PlayerState {
    var currentTrack: Option<Track>
    var queue: seq<Track>
    var isPlaying: bool
    var position: real
    var volume: int

    function Value(): PlayerValue
      reads this
    {
      PlayerValue(currentTrack, queue, isPlaying, position, volume)
    }

    /** The object literal of `getPlayer`. */
    constructor Fresh()
      ensures Value() == Default
    {
      currentTrack := None;
      queue := [];
      isPlaying := false;
      position := 0.0;
      volume := 50;
    }

    /** The three assignments of `play` to the record: `track` loaded, playing from 0. */
    method Load(track: Track)
      modifies this
      ensures Value() == old(Value()).(currentTrack := Some(track), isPlaying := true, position := 0.0)
    {
      currentTrack := Some(track);
      isPlaying := true;
      position := 0.0;
    }

    /** The two assignments of `stop` to the record: stopped and rewound. */
    method Rewind()
      modifies this
      ensures Value() == old(Value()).(isPlaying := false, position := 0.0)
    {
      isPlaying := false;
      position := 0.0;
    }

    /** The three assignments of `end` to the record: no track, stopped, rewound. */
    method Unload()
      modifies this
      ensures Value() == old(Value()).(currentTrack := None, isPlaying := false, position := 0.0)
    {
      currentTrack := None;
      isPlaying := false;
      position := 0.0;
    }
  }

  /** `PlayerService` with its `players` map. */
  class PlayerService {
    var players: map<ChatId, PlayerState>
    /** The contents of every record, by chat. */
    ghost var contents: map<ChatId, PlayerValue>

    /** `contents` mirrors the records, and distinct chats never share a record object. */
    ghost predicate Valid()
      reads this, players.Values
    {
      && players.Keys == contents.Keys
      && (forall c :: c in players ==> players[c].Value() == contents[c])
      && (forall a, b :: a in players && b in players && a != b ==> players[a] != players[b])
    }

    constructor ()
      ensures Valid() && contents == map[] && players == map[]
    {
      players := map[];
      contents := map[];
    }

    /** `getPlayer`: the record of `chatId`, inserting a default one when there is none. */
    method GetPlayer(chatId: ChatId) returns (p: PlayerState)
      requires Valid()
      modifies this
      ensures Valid() && chatId in players && p == players[chatId]
      ensures fresh(players.Values - old(players.Values))
      ensures chatId in old(players) ==> p == old(players[chatId]) && players == old(players)
      ensures chatId !in old(players) ==> fresh(p) && players == old(players)[chatId := p]
      ensures contents == old(contents)[chatId := Lookup(old(contents), chatId)]
    {
      if chatId !in players {
        var created := new PlayerState.Fresh();
        players := players[chatId := created];
        contents := contents[chatId := Default];
      }
      p := players[chatId];
    }

    /** `play`: loads `track` and starts playing from 0; queue and volume stay. */
    method Play(chatId: ChatId, track: Track) returns (p: PlayerState)
      requires Valid()
      modifies this, players.Values
      ensures Valid() && chatId in players && p == players[chatId]
      ensures fresh(players.Values - old(players.Values))
      ensures contents == old(contents)[chatId :=
        Lookup(old(contents), chatId).(currentTrack := Some(track), isPlaying := true, position := 0.0)]
    {
      p := GetPlayer(chatId);
      p.Load(track);
      contents := old(contents)[chatId := p.Value()];
    }

    /** `pause`: clears `isPlaying` (only when set); nothing else changes. */
    method Pause(chatId: ChatId) returns (p: PlayerState)
      requires Valid()
      modifies this, players.Values
      ensures Valid() && chatId in players && p == players[chatId]
      ensures fresh(players.Values - old(players.Values))
      ensures contents == old(contents)[chatId := Lookup(old(contents), chatId).(isPlaying := false)]
    {
      p := GetPlayer(chatId);
      ghost var before := Lookup(old(contents), chatId);
      assert p.Value() == before;
      if p.isPlaying {
        p.isPlaying := false;
      }
      contents := old(contents)[chatId := p.Value()];
    }

    /** `resume`: sets `isPlaying` (only when clear), whether or not a track is loaded. */
    method Resume(chatId: ChatId) returns (p: PlayerState)
      requires Valid()
      modifies this, players.Values
      ensures Valid() && chatId in players && p == players[chatId]
      ensures fresh(players.Values - old(players.Values))
      ensures contents == old(contents)[chatId := Lookup(old(contents), chatId).(isPlaying := true)]
    {
      p := GetPlayer(chatId);
      ghost var before := Lookup(old(contents), chatId);
      assert p.Value() == before;
      if !p.isPlaying {
        p.isPlaying := true;
      }
      contents := old(contents)[chatId := p.Value()];
    }

    /** `stop`: stops and rewinds; the loaded track and the queue stay. */
    method Stop(chatId: ChatId) returns (p: PlayerState)
      requires Valid()
      modifies this, players.Values
      ensures Valid() && chatId in players && p == players[chatId]
      ensures fresh(players.Values - old(players.Values))
      ensures contents == old(contents)[chatId := Lookup(old(contents), chatId).(isPlaying := false, position := 0.0)]
    {
      p := GetPlayer(chatId);
      p.Rewind();
      contents := old(contents)[chatId := p.Value()];
    }

    /**
     * `end`: unloads the track of the record, stops and rewinds it, then forgets
     * the chat (the method returns `null`). A caller still holding the old
     * record object sees it cleared; queue and volume in it stay.
     */
    method End(chatId: ChatId)
      requires Valid()
      modifies this, players.Values
      ensures Valid() && players.Values <= old(players.Values)
      ensures contents == old(contents) - {chatId}
      ensures chatId in old(players) ==>
        old(players[chatId]).Value() == old(contents[chatId]).(currentTrack := None, isPlaying := false, position := 0.0)
    {
      var p := GetPlayer(chatId);
      p.Unload();
      players := players - {chatId};
      contents := old(contents) - {chatId};
    }

    /** `getState`: the same as `getPlayer`. */
    method GetState(chatId: ChatId) returns (p: PlayerState)
      requires Valid()
      modifies this
      ensures Valid() && chatId in players && p == players[chatId]
      ensures fresh(players.Values - old(players.Values))
      ensures p.Value() == Lookup(old(contents), chatId)
      ensures contents == old(contents)[chatId := Lookup(old(contents), chatId)]
    {
      p := GetPlayer(chatId);
    }
  }

  /** Pausing twice leaves the record as pausing once does. */
  method PauseTwiceScenario(t: Track) returns (once: PlayerValue, twice: PlayerValue)
    ensures once == twice == Default.(currentTrack := Some(t))
  {
    var service := new PlayerService();
    var p := service.Play(1, t);
    p := service.Pause(1);
    once := p.Value();
    p := service.Pause(1);
    twice := p.Value();
  }

  /** Ending one chat leaves another chat's record alone, and the ended chat starts afresh. */
  method EndScenario(t: Track, u: Track) returns (ended: PlayerValue, other: PlayerValue)
    ensures ended == Default
    ensures other == Default.(currentTrack := Some(u), isPlaying := true)
  {
    var service := new PlayerService();
    var q := service.Play(2, u);
    var p := service.Play(1, t);
    service.End(1);
    assert 1 !in service.contents && service.contents[2] == Default.(currentTrack := Some(u), isPlaying := true);
    p := service.GetState(1);
    ended := p.Value();
    q := service.GetState(2);
    other := q.Value();
  }
}
