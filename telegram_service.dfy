/**
 * The Telegram service of the root application: the link into the web
 * player and the routing of its `/play` command, which is the bot's routing
 * (`BotPlay.RoutePlay`) with the backend calls in place of the in-memory
 * service.
 */
module TelegramService {
  import opened Wrappers
  import opened Strings
  import opened BotPlay

  /**
   * `generateWebAppUrl(query)`: the configured base address, `?query=` and the
   * encoded query. `encodeURIComponent` is a parameter.
   */
  function GenerateWebAppUrl(baseUrl: string, query: string, encode: string -> string): (url: string)
    ensures |url| == |baseUrl| + 7 + |encode(query)|
    ensures url[..|baseUrl|] == baseUrl && url[|baseUrl|..|baseUrl| + 7] == "?query=" && url[|baseUrl| + 7..] == encode(query)
  {
    baseUrl + "?query=" + encode(query)
  }

  /**
   * For a base address without `?`, the query string of the link (what
   * follows its first `?`) is exactly `query=` and the encoded query.
   */
  lemma QueryStringOfWebAppUrl(baseUrl: string, query: string, encode: string -> string)
    requires !Contains(baseUrl, "?")
    ensures var url := GenerateWebAppUrl(baseUrl, query, encode);
      IndexOf(url, "?") == Some(|baseUrl|) && url[|baseUrl| + 1..] == "query=" + encode(query)
  {
    var url := GenerateWebAppUrl(baseUrl, query, encode);
    assert OccursAt(url, "?", |baseUrl|);
    forall j | 0 <= j < |baseUrl|
      ensures !OccursAt(url, "?", j)
    {
      if OccursAt(url, "?", j) {
        assert OccursAt(baseUrl, "?", j);
        ContainsIff(baseUrl, "?");
      }
    }
    assert IndexOfFrom(url, "?", 0) == Some(|baseUrl|);
  }

  /**
   * The service's `getPlayerControls`: the same keyboard whatever the chat's
   * state, with no play or pause button in it.
   */
  function PlayerControls(): (k: Keyboard)
    ensures |k| == 3 && |k[0]| == 2 && |k[1]| == 3 && |k[2]| == 1
    ensures forall i, j :: 0 <= i < |k| && 0 <= j < |k[i]| ==>
      k[i][j].callbackData != "play" && k[i][j].callbackData != "pause"
  {
    [
      [Button("\U{23EE} Previous", "prev"), Button("\U{23ED} Next", "next")],
      [Button("\U{23F9} Stop", "stop"), Button("\U{1F500} Shuffle", "shuffle"), Button("\U{1F509} Volume", "volume")],
      [Button("\U{274C} End Session", "end")]
    ]
  }
}
