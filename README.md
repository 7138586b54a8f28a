# spotify-playlist, modelled in Dafny

`spotify-playlist.py` prints the tracks of a playlist of the Spotify music service as one
JSON record per line. Its logic, apart from the calls into the `spotipy` client, is:

- pulling the playlist identifier out of a link or URI with the pattern
  `playlist[/|:]([a-zA-Z0-9]+)` (`extract_playlist_id`);
- resolving the client id and secret from explicit arguments, falling back to the
  `SPOTIFY_CLIENT_ID` and `SPOTIFY_CLIENT_SECRET` environment variables;
- fetching the first page of the playlist's track listing and then each following page
  while the service reports a `next` page, accumulating the items in order;
- flattening every item whose track is not null into `{artist, name, url}`, where the
  artist field is the artist names joined with `", "` and the url is
  `https://open.spotify.com/track/` followed by the track identifier.

Modules:

- `Wrappers` (`wrappers.dfy`): `Option` for Python's `None`, `Result` for raised errors.
- `PlaylistId` (`playlist_id.dfy`): the pattern written out by hand. `MatchAt(s, i)` says the
  pattern can start at `i`; `ExtractPlaylistId` returns the greedy alphanumeric run after the
  leftmost such position, or `CouldNotExtract(url)`.
- `Credentials` (`credentials.dfy`): the "argument, else environment, else error" rule, with
  the environment passed in as a map.
- `SpotifyApi` (`spotify_api.dfy`): the response shapes the program reads (pages, items,
  optional tracks, artists).
- `Pagination` (`pagination.dfy`): the `while results['next']` loop as the method `FetchAll`,
  proved against `FetchedCount` (pages up to and including the first one without `next`) and
  `ItemsOf` (their items concatenated in page order).
- `Flatten` (`flatten.dfy`): the `for item in tracks` loop as the method `FlattenTracks`,
  proved against `Flattened`, whose meaning is given by `PresentIndices`.
- `TrackInfo` (`track_info.dfy`): `get_track_info` as the method `GetTrackInfo`, composing the
  above in the source's order: credentials, identifier, pages, records.

The pattern's character class `[/|:]` accepts `|` as well as `/` and `:`, because `|` is a
literal inside a class. The source's comments (spotify-playlist.py:24-26) show only the `/` and
`:` forms; the model follows the pattern and accepts all three (`PlaylistId.ExtractAfterPipe`).

## Model

| member | source | states |
|---|---|---|
| `PlaylistId.ExtractPlaylistId` | spotify-playlist.py:22-34 | fails, with the input in the error, exactly when no position holds `playlist`, a separator and a letter or digit; otherwise returns the capture at a leftmost such position, a non-empty maximal run of ASCII letters and digits |
| `PlaylistId.FindMatch` | spotify-playlist.py:28-29 | the search returns a position where the pattern matches and no earlier position (from the start point) matches; when it finds nothing, no position matches |
| `PlaylistId.RunLength` | spotify-playlist.py:28 | the greedy `+`: the run after the separator holds only letters and digits and ends at the end of the input or at a character that is neither |
| `PlaylistId.ExtractDeterminedByLeftmost` | spotify-playlist.py:28-32 | conversely, if `i` is the leftmost match and `id` the maximal run after it, the extractor returns exactly `id` |
| `PlaylistId.ExtractAfterPrefix` | spotify-playlist.py:28-32 | for any text with no match before `playlist`, a separator, an alphanumeric id and then the end or a non-alphanumeric character, the result is that id |
| `PlaylistId.ExtractFromWebLink` | spotify-playlist.py:24-25 | `https://open.spotify.com/playlist/<id>` yields `<id>`, also when a query string such as `?si=...` follows |
| `PlaylistId.ExtractFromUri` | spotify-playlist.py:26 | `spotify:playlist:<id>` yields `<id>` |
| `PlaylistId.ExtractAfterPipe` | spotify-playlist.py:28 | `playlist|<id>` yields `<id>`: `|` is a separator |
| `PlaylistId.ExtractSkipsIncompleteMarker` | spotify-playlist.py:28-29 | an earlier `playlist/` not followed by a letter or digit is skipped and the later match is used |
| `PlaylistId.ExtractWithoutKeywordFails` | spotify-playlist.py:31-34 | input without the text `playlist` fails with the input-naming error |
| `PlaylistId.ExtractWithoutIdentifierFails` | spotify-playlist.py:31-34 | `spotify:playlist:` with nothing after the separator fails |
| `PlaylistId.ExtractExampleLink` | spotify-playlist.py:25 | the documented example link yields `37i9dQZF1DXcBWIGoYBM5M` |
| `Credentials.ResolveCredentials` | spotify-playlist.py:49-56 | succeeds iff each credential has a non-empty argument or a non-empty environment value; the argument takes precedence; both resolved values are non-empty |
| `Credentials.ExplicitArgumentsWin` | spotify-playlist.py:49-50 | non-empty arguments are used whatever the environment holds |
| `Credentials.EmptyArgumentFallsBack` | spotify-playlist.py:49-56 | an empty argument behaves as an absent one; with the variable unset that is the missing-credentials error |
| `Pagination.FetchedCount` | spotify-playlist.py:68-70 | fetching stops at the first page without `next`: every earlier fetched page has `next`, the last fetched one does not |
| `Pagination.FetchAll` | spotify-playlist.py:65-70 | the loop requests exactly `FetchedCount` pages and the accumulated list is the in-order concatenation of their items |
| `Pagination.ItemsOfAppend` | spotify-playlist.py:66-70 | accumulation composes: the items of two runs of pages are the items of the first run followed by those of the second |
| `Pagination.ItemsOfMembership` | spotify-playlist.py:66-70 | an item is accumulated iff one of the pages holds it |
| `Flatten.JoinSnoc` | spotify-playlist.py:78 | joining one more artist name appends `", "` and that name |
| `Flatten.JoinLength` | spotify-playlist.py:78 | the joined text is the names' total length plus one separator between each two names |
| `Flatten.Join` | spotify-playlist.py:78 | `", ".join`: no names give the empty text, a single name is returned unchanged, and otherwise the text starts with the first name (what follows is fixed by `JoinSnoc`) |
| `Flatten.ToRecord` | spotify-playlist.py:77-84 | the record's name is the track name unchanged; its url is the permalink prefix followed by exactly the track id; its artist field is the artists' names in the service's order joined with `", "`, so it starts with the first artist's name, is that name alone for a single artist and empty for none |
| `Flatten.ToRecordOneMoreArtist` | spotify-playlist.py:77-78 | appending an artist to the track appends `", "` and that artist's name to the artist field |
| `Flatten.ToRecordTwoArtists` | spotify-playlist.py:77-84 | artists `A` and `B` give the artist field `A, B` |
| `Flatten.PresentIndices` | spotify-playlist.py:73-75 | the positions of the items with a present track, strictly increasing, each such position included and no other |
| `Flatten.FlattenedByIndices` | spotify-playlist.py:72-87 | the output has one record per present item, record `j` built from the `j`-th present item: exactly once each, in input order |
| `Flatten.FlattenedLength` | spotify-playlist.py:72-85 | no more records than items, and equally many exactly when no track is null |
| `Flatten.FlattenedAppend` | spotify-playlist.py:72-85 | flattening two runs of items is flattening each and concatenating |
| `Flatten.FlattenTracks` | spotify-playlist.py:72-87 | the loop's output is `Flattened` of the accumulated items |
| `TrackInfo.GetTrackInfo` | spotify-playlist.py:36-87 | missing credentials fail first with the credentials error; then a non-extractable input fails with the extraction error naming the input; an unknown playlist fails upstream; otherwise the result is the flattening of the items of exactly the fetched pages |

## Left out

- `cleanup_cache` and its exit hook (spotify-playlist.py:10-20): deleting cache files is file-system I/O with errors ignored.
- `main` (spotify-playlist.py:89-112): argument handling, printing to standard output and error, JSON serialisation and exit codes are I/O.
- `SpotifyClientCredentials`, `spotipy.Spotify`, `playlist_tracks` and `next` are network calls into a library that is not part of this model. The service is a map from playlist identifier to the pages it serves; a missing identifier stands for any failing call (`UpstreamError`). Whether the service accepts the credentials is not modelled.
- `TrackInfo.GetTrackInfo` and `Pagination.FetchAll` require every listing to contain a page without `next`; a service that reports a next page forever is not modelled.
- Reading `os.environ` is replaced by an environment map passed in as a parameter.
- Python truthiness of `item['track']` is reduced to null versus present (an empty track object is treated as present).
- The source's `tracks` list is the first response's own `items` list, extended in place; that aliasing is not modelled, only the accumulated contents.
