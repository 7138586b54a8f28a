/**
 * The whole track-information pipeline: resolve the credentials, extract the
 * playlist identifier, fetch every page of the listing and flatten it.
 *
 * The service is a map from playlist identifier to the pages it serves for
 * that playlist; asking for an identifier it does not know fails upstream.
 */
module TrackInfo {
  import opened Wrappers
  import opened SpotifyApi
  import PlaylistId
  import Credentials
  import opened Pagination
  import opened Flatten

  /**
   * The three kinds of failure: the credentials error and the extraction error
   * passed through as raised, or a failing service call.
   */
  datatype Error =
    | CredentialsFailed(credentialsError: Credentials.CredentialsError)
    | ExtractionFailed(extractError: PlaylistId.ExtractError)
    | UpstreamError(playlistId: string)

  /** Every listing the service serves ends with a page without a `next` cursor. */
  predicate ListingsEnd(api: map<string, seq<Page>>) {
    forall id :: id in api ==> HasFinalPage(api[id])
  }

  /**
   * Credentials are checked first, then the identifier is extracted, then
   * every page is fetched and the accumulated items are flattened.
   */
  method GetTrackInfo(url: string, clientId: Option<string>, clientSecret: Option<string>,
                      env: map<string, string>, api: map<string, seq<Page>>)
    returns (r: Result<seq<TrackRecord>, Error>)
    requires ListingsEnd(api)
    ensures Credentials.ResolveCredentials(clientId, clientSecret, env).Err? ==> r == Err(CredentialsFailed(Credentials.MissingCredentials))
    ensures Credentials.ResolveCredentials(clientId, clientSecret, env).Ok? && PlaylistId.ExtractPlaylistId(url).Err? ==>
      r == Err(ExtractionFailed(PlaylistId.CouldNotExtract(url)))
    ensures Credentials.ResolveCredentials(clientId, clientSecret, env).Ok? && PlaylistId.ExtractPlaylistId(url).Ok? ==>
      var id := PlaylistId.ExtractPlaylistId(url).value;
      r == if id in api then Ok(Flattened(ItemsOf(api[id][..FetchedCount(api[id])]))) else Err(UpstreamError(id))
  {
    var credentials := Credentials.ResolveCredentials(clientId, clientSecret, env);
    if credentials.Err? {
      return Err(CredentialsFailed(credentials.error));
    }
    var extracted := PlaylistId.ExtractPlaylistId(url);
    if extracted.Err? {
      return Err(ExtractionFailed(extracted.error));
    }
    var playlistId := extracted.value;
    if playlistId !in api {
      return Err(UpstreamError(playlistId));
    }
    var tracks, _ := FetchAll(api[playlistId]);
    var trackInfo := FlattenTracks(tracks);
    return Ok(trackInfo);
  }
}
