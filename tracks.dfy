/** The track descriptor every component passes around. */
module Tracks {
  import opened Wrappers

  /**
   * A track as a YouTube lookup describes it: the 11-character video id,
   * title, artist, duration in seconds, thumbnail URL and, when the lookup
   * gave one, the watch URL.
   */
  datatype Track = Track(
    id: string,
    title: string,
    artist: string,
    duration: real,
    thumbnail: string,
    url: Option<string>)

  /** The queue entry the store-backed service builds from a track: every field but `url`. */
  function Summary(t: Track): (s: Track)
    ensures s.url.None?
    ensures s.id == t.id && s.title == t.title && s.artist == t.artist
    ensures s.duration == t.duration && s.thumbnail == t.thumbnail
  {
    t.(url := None)
  }
}
