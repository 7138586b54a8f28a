/**
 * The parts of the track-listing responses that the program reads.
 *
 * A page is one response of the playlist-tracks endpoint: its `items` and
 * whether its `next` cursor is set. An item's `track` may be null when the
 * track was removed, so it is optional here.
 */
module SpotifyApi {
  import opened Wrappers

  datatype Artist = Artist(name: string)

  datatype Track = Track(id: string, name: string, artists: seq<Artist>)

  datatype Item = Item(track: Option<Track>)

  datatype Page = Page(items: seq<Item>, hasNext: bool)
}
