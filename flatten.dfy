/**
 * Flattening accumulated items into output records.
 *
 * Items whose track is null are skipped; every other item becomes one record
 * holding the artist names joined with ", ", the track name and the track's
 * permalink. Output order is input order.
 */
module Flatten {
  import opened Wrappers
  import opened SpotifyApi

  /** The fixed permalink template; the track identifier is appended to it. */
  const TRACK_URL_PREFIX: string := "https://open.spotify.com/track/"

  /** The separator placed between artist names. */
  const ARTIST_SEPARATOR: string := ", "

  /** One output record. */
  datatype TrackRecord = TrackRecord(artist: string, name: string, url: string)

  /**
   * `sep.join(parts)`: the parts in order with `sep` between neighbours. No
   * parts give the empty text, one part is returned as it is, and otherwise
   * the text starts with the first part.
   */
  function Join(parts: seq<string>, sep: string): (r: string)
    ensures |parts| == 0 ==> r == ""
    ensures |parts| == 1 ==> r == parts[0]
    ensures |parts| > 0 ==> parts[0] <= r
  {
    if |parts| == 0 then ""
    else if |parts| == 1 then parts[0]
    else parts[0] + sep + Join(parts[1..], sep)
  }

  /** Joining one more part puts the separator and that part at the end. */
  lemma {:induction false} JoinSnoc(parts: seq<string>, sep: string, last: string)
    requires |parts| > 0
    ensures Join(parts + [last], sep) == Join(parts, sep) + sep + last
    decreases |parts|
  {
    if |parts| > 1 {
      assert (parts + [last])[1..] == parts[1..] + [last];
      JoinSnoc(parts[1..], sep, last);
    }
  }

  /** The joined text is as long as the parts together plus one separator between each two of them. */
  lemma {:induction false} JoinLength(parts: seq<string>, sep: string)
    requires |parts| > 0
    ensures |Join(parts, sep)| == TotalLength(parts) + (|parts| - 1) * |sep|
    decreases |parts|
  {
    if |parts| > 1 {
      JoinLength(parts[1..], sep);
    }
  }

  /** Sum of the lengths of the parts. */
  function TotalLength(parts: seq<string>): nat {
    if parts == [] then 0 else |parts[0]| + TotalLength(parts[1..])
  }

  /** The names of the artists, in the order the service lists them. */
  function ArtistNames(artists: seq<Artist>): seq<string> {
    seq(|artists|, i requires 0 <= i < |artists| => artists[i].name)
  }

  /**
   * The record built from a present track: the name is the track's own, the
   * url is the permalink prefix followed by exactly the track identifier, and
   * the artist field is the artists' names in the service's order joined with
   * ", " (so it starts with the first artist's name, is that name alone for a
   * single artist, and is empty for none).
   */
  function ToRecord(t: Track): (r: TrackRecord)
    ensures r.name == t.name
    ensures TRACK_URL_PREFIX <= r.url && r.url[|TRACK_URL_PREFIX|..] == t.id
    ensures |t.artists| == 0 ==> r.artist == ""
    ensures |t.artists| == 1 ==> r.artist == t.artists[0].name
    ensures |t.artists| > 0 ==> t.artists[0].name <= r.artist
    ensures r.artist == Join(ArtistNames(t.artists), ARTIST_SEPARATOR)
  {
    TrackRecord(Join(ArtistNames(t.artists), ARTIST_SEPARATOR), t.name, TRACK_URL_PREFIX + t.id)
  }

  /** One more artist at the end of the list appends ", " and that artist's name to the artist field. */
  lemma ToRecordOneMoreArtist(id: string, name: string, artists: seq<Artist>, a: Artist)
    requires |artists| > 0
    ensures ToRecord(Track(id, name, artists + [a])).artist
      == ToRecord(Track(id, name, artists)).artist + ARTIST_SEPARATOR + a.name
  {
    assert ArtistNames(artists + [a]) == ArtistNames(artists) + [a.name];
    JoinSnoc(ArtistNames(artists), ARTIST_SEPARATOR, a.name);
  }

  /** A track with two artists becomes one record whose artist field lists both, comma-separated. */
  lemma ToRecordTwoArtists()
    ensures ToRecord(Track("abc", "Song", [Artist("A"), Artist("B")]))
      == TrackRecord("A, B", "Song", "https://open.spotify.com/track/abc")
  {
  }

  /** The records for the items whose track is present, in input order. */
  function Flattened(items: seq<Item>): seq<TrackRecord> {
    if items == [] then []
    else
      var last := items[|items| - 1];
      Flattened(items[..|items| - 1]) + (if last.track.Some? then [ToRecord(last.track.value)] else [])
  }

  /**
   * The positions of the items whose track is present, in increasing order:
   * each such position exactly once and no other.
   */
  function PresentIndices(items: seq<Item>): (idx: seq<nat>)
    ensures forall j :: 0 <= j < |idx| ==> idx[j] < |items| && items[idx[j]].track.Some?
    ensures forall j, k :: 0 <= j < k < |idx| ==> idx[j] < idx[k]
    ensures forall i :: 0 <= i < |items| && items[i].track.Some? ==> i in idx
  {
    if items == [] then []
    else
      var n := |items| - 1;
      var init := items[..n];
      assert forall i :: 0 <= i < n ==> init[i] == items[i];
      PresentIndices(init) + (if items[n].track.Some? then [n] else [])
  }

  /**
   * The flattened output holds exactly one record per present item, in the
   * items' order: record `j` is built from the item at the `j`-th present
   * position.
   */
  lemma {:induction false} FlattenedByIndices(items: seq<Item>)
    ensures |Flattened(items)| == |PresentIndices(items)|
    ensures forall j :: 0 <= j < |Flattened(items)| ==>
      Flattened(items)[j] == ToRecord(items[PresentIndices(items)[j]].track.value)
  {
    if items != [] {
      var n := |items| - 1;
      var init := items[..n];
      FlattenedByIndices(init);
      assert forall i :: 0 <= i < n ==> init[i] == items[i];
    }
  }

  /** No more records than items, and as many exactly when no track is missing. */
  lemma {:induction false} FlattenedLength(items: seq<Item>)
    ensures |Flattened(items)| <= |items|
    ensures |Flattened(items)| == |items| <==> forall i :: 0 <= i < |items| ==> items[i].track.Some?
  {
    if items != [] {
      var n := |items| - 1;
      var init := items[..n];
      FlattenedLength(init);
      assert forall i :: 0 <= i < n ==> init[i] == items[i];
      if items[n].track.None? {
        assert !(forall i :: 0 <= i < |items| ==> items[i].track.Some?) by {
          assert items[n].track.None?;
        }
      }
    }
  }

  /** Flattening the items of two runs is flattening each and concatenating. */
  lemma {:induction false} FlattenedAppend(a: seq<Item>, b: seq<Item>)
    ensures Flattened(a + b) == Flattened(a) + Flattened(b)
    decreases |b|
  {
    if b == [] {
      assert a + b == a;
    } else {
      var last := |b| - 1;
      assert (a + b)[..|a + b| - 1] == a + b[..last];
      FlattenedAppend(a, b[..last]);
    }
  }

  /** For each item, skips it when its track is null and otherwise appends its record. */
  method FlattenTracks(tracks: seq<Item>) returns (trackInfo: seq<TrackRecord>)
    ensures trackInfo == Flattened(tracks)
  {
    trackInfo := [];
    for i := 0 to |tracks|
      invariant trackInfo == Flattened(tracks[..i])
    {
      assert tracks[..i + 1][..i] == tracks[..i];
      var track := tracks[i].track;
      if track.Some? {
        var t := track.value;
        var artistsStr := Join(ArtistNames(t.artists), ARTIST_SEPARATOR);
        trackInfo := trackInfo + [TrackRecord(artistsStr, t.name, TRACK_URL_PREFIX + t.id)];
      }
    }
    assert tracks[..|tracks|] == tracks;
  }
}
