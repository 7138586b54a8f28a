/**
 * Extraction of a playlist identifier from a playlist URL or URI.
 *
 * The source searches the input with the regular expression
 * `playlist[/|:]([a-zA-Z0-9]+)` and returns the first capture group of the
 * leftmost match, raising an error when there is none. Here the pattern is
 * written out by hand: `MatchAt` says where the pattern can start, and the
 * captured group is the longest run of letters and digits after the separator.
 */
module PlaylistId {
  import opened Wrappers

  /** The literal text that starts the pattern. */
  const KEYWORD: string := "playlist"

  /** Offset of the captured identifier from the start of a match: the keyword, then one separator. */
  const ID_OFFSET: nat := |KEYWORD| + 1

  /** The error raised when the input holds no identifier; it carries the input, as the message does. */
  datatype ExtractError = CouldNotExtract(url: string)

  /** The character class `[/|:]`. Inside a class `|` is a literal, so it is a third separator. */
  predicate IsSeparator(c: char) {
    c == '/' || c == '|' || c == ':'
  }

  /** The character class `[a-zA-Z0-9]`: ASCII letters and digits only. */
  predicate IsAlnum(c: char) {
    'a' <= c <= 'z' || 'A' <= c <= 'Z' || '0' <= c <= '9'
  }

  /** The text `playlist` occurs at position `i` of `s`. */
  predicate KeywordAt(s: string, i: int) {
    0 <= i && i + |KEYWORD| <= |s| && s[i..i + |KEYWORD|] == KEYWORD
  }

  /** The whole pattern matches when started at position `i` of `s`: the keyword, a separator and at least one letter or digit. */
  predicate MatchAt(s: string, i: int) {
    KeywordAt(s, i) && i + ID_OFFSET < |s| && IsSeparator(s[i + |KEYWORD|]) && IsAlnum(s[i + ID_OFFSET])
  }

  /** No match starts before position `k`. */
  predicate NoMatchBefore(s: string, k: int) {
    forall j :: 0 <= j < k ==> !MatchAt(s, j)
  }

  /** `i` is the position where a left-to-right search first finds the pattern. */
  predicate IsLeftmostMatch(s: string, i: int) {
    MatchAt(s, i) && NoMatchBefore(s, i)
  }

  /** `s[start..start + len]` consists of letters and digits only, and the run cannot be extended (greedy `+`). */
  predicate IsMaximalRun(s: string, start: int, len: int) {
    0 <= start && 0 <= len && start + len <= |s| &&
    (forall k :: start <= k < start + len ==> IsAlnum(s[k])) &&
    (start + len == |s| || !IsAlnum(s[start + len]))
  }

  /** `id` is what the capture group holds for the match at position `i`. */
  predicate CapturedAt(s: string, i: int, id: string) {
    0 <= i && IsMaximalRun(s, i + ID_OFFSET, |id|) && s[i + ID_OFFSET..i + ID_OFFSET + |id|] == id
  }

  /** Length of the greedy run of letters and digits starting at `start`. */
  function RunLength(s: string, start: nat): (n: nat)
    requires start <= |s|
    ensures IsMaximalRun(s, start, n)
    decreases |s| - start
  {
    if start < |s| && IsAlnum(s[start]) then 1 + RunLength(s, start + 1) else 0
  }

  /** The position of the leftmost match at or after `from`, the way a search tries one start position after another. */
  function FindMatch(s: string, from: nat): (r: Option<nat>)
    ensures r.Some? ==> from <= r.value && MatchAt(s, r.value)
    ensures forall j :: from <= j && (r.None? || j < r.value) ==> !MatchAt(s, j)
    decreases |s| - from
  {
    if |s| <= from + ID_OFFSET then None
    else if MatchAt(s, from) then Some(from)
    else FindMatch(s, from + 1)
  }

  /**
   * The identifier of the playlist named by `url`: the maximal run of letters
   * and digits after the leftmost `playlist` that is followed by a separator
   * and at least one letter or digit; an error when there is no such place.
   */
  function ExtractPlaylistId(url: string): (r: Result<string, ExtractError>)
    ensures r.Err? <==> forall i :: !MatchAt(url, i)
    ensures r.Err? ==> r.error == CouldNotExtract(url)
    ensures r.Ok? ==> exists i :: IsLeftmostMatch(url, i) && CapturedAt(url, i, r.value)
    ensures r.Ok? ==> |r.value| > 0 && forall k :: 0 <= k < |r.value| ==> IsAlnum(r.value[k])
  {
    match FindMatch(url, 0)
    case None => Err(CouldNotExtract(url))
    case Some(i) =>
      var start := i + ID_OFFSET;
      var id := url[start..start + RunLength(url, start)];
      assert IsLeftmostMatch(url, i) && CapturedAt(url, i, id);
      Ok(id)
  }

  /** Two maximal runs from the same place have the same length. */
  lemma MaximalRunUnique(s: string, start: int, m: int, n: int)
    requires IsMaximalRun(s, start, m) && IsMaximalRun(s, start, n)
    ensures m == n
  {
  }

  /**
   * The contract of ExtractPlaylistId pins its result down: whatever is the
   * capture at the leftmost match is exactly what is returned.
   */
  lemma ExtractDeterminedByLeftmost(s: string, i: int, id: string)
    requires IsLeftmostMatch(s, i) && CapturedAt(s, i, id)
    ensures ExtractPlaylistId(s) == Ok(id)
  {
    var r := ExtractPlaylistId(s);
    var i' :| IsLeftmostMatch(s, i') && CapturedAt(s, i', r.value);
    assert i' == i;
    MaximalRunUnique(s, i + ID_OFFSET, |id|, |r.value|);
  }

  /**
   * When nothing before `prefix`'s end starts a match, the identifier is the
   * letters and digits after `playlist` and a separator, up to the first
   * character that is neither (such as the `?` of a query string).
   */
  lemma ExtractAfterPrefix(prefix: string, sep: char, id: string, rest: string)
    requires IsSeparator(sep)
    requires |id| > 0 && forall k :: 0 <= k < |id| ==> IsAlnum(id[k])
    requires rest == [] || !IsAlnum(rest[0])
    requires NoMatchBefore(prefix + KEYWORD + [sep] + id + rest, |prefix|)
    ensures ExtractPlaylistId(prefix + KEYWORD + [sep] + id + rest) == Ok(id)
  {
    var s := prefix + KEYWORD + [sep] + id + rest;
    var i := |prefix|;
    assert s[i..i + |KEYWORD|] == KEYWORD;
    assert s[i + |KEYWORD|] == sep;
    assert s[i + ID_OFFSET..i + ID_OFFSET + |id|] == id;
    assert forall k :: 0 <= k < |id| ==> s[i + ID_OFFSET + k] == id[k];
    assert rest != [] ==> s[i + ID_OFFSET + |id|] == rest[0];
    ExtractDeterminedByLeftmost(s, i, id);
  }

  /** `p` directly followed by `l` at position `j` of `t`: the only way the keyword can begin. */
  predicate PlAt(t: string, j: int) {
    0 <= j && j + 1 < |t| && t[j] == 'p' && t[j + 1] == 'l'
  }

  /** Wherever the keyword occurs, it begins with `pl`. */
  lemma KeywordBeginsWithPl(s: string, j: int)
    ensures KeywordAt(s, j) ==> PlAt(s, j)
  {
    if KeywordAt(s, j) {
      assert s[j] == s[j..j + |KEYWORD|][0] && s[j + 1] == s[j..j + |KEYWORD|][1];
    }
  }

  /** A prefix in which the keyword cannot begin, even reaching into the keyword that follows it, holds no match. */
  lemma NoMatchInPrefix(prefix: string, rest: string)
    requires forall j :: 0 <= j < |prefix| ==> !PlAt(prefix + "pl", j)
    ensures NoMatchBefore(prefix + KEYWORD + rest, |prefix|)
  {
    var s := prefix + KEYWORD + rest;
    var t := prefix + "pl";
    forall j | 0 <= j < |prefix|
      ensures !MatchAt(s, j)
    {
      assert !PlAt(t, j) && s[j] == t[j] && s[j + 1] == t[j + 1];
      KeywordBeginsWithPl(s, j);
    }
  }

  /** How a web link splits into the site prefix, the keyword, the separator and the rest. */
  lemma WebLinkShape(id: string, rest: string)
    ensures "https://open.spotify.com/" + KEYWORD + ['/'] + id + rest == "https://open.spotify.com/" + KEYWORD + (['/'] + id + rest)
    ensures "https://open.spotify.com/" + KEYWORD + ['/'] + id + rest == "https://open.spotify.com/playlist/" + id + rest
  {
  }

  /** A web link `https://open.spotify.com/playlist/<id>`, possibly followed by a query string, yields `<id>`. */
  lemma ExtractFromWebLink(id: string, rest: string)
    requires |id| > 0 && forall k :: 0 <= k < |id| ==> IsAlnum(id[k])
    requires rest == [] || !IsAlnum(rest[0])
    ensures ExtractPlaylistId("https://open.spotify.com/playlist/" + id + rest) == Ok(id)
  {
    var prefix := "https://open.spotify.com/";
    assert forall j :: 0 <= j < |prefix| ==> !PlAt(prefix + "pl", j);
    NoMatchInPrefix(prefix, ['/'] + id + rest);
    WebLinkShape(id, rest);
    ExtractAfterPrefix(prefix, '/', id, rest);
  }

  /** A URI `spotify:playlist:<id>` yields `<id>`. */
  lemma ExtractFromUri(id: string)
    requires |id| > 0 && forall k :: 0 <= k < |id| ==> IsAlnum(id[k])
    ensures ExtractPlaylistId("spotify:playlist:" + id) == Ok(id)
  {
    var prefix := "spotify:";
    assert forall j :: 0 <= j < |prefix| ==> !PlAt(prefix + "pl", j);
    NoMatchInPrefix(prefix, [':'] + id);
    assert prefix + KEYWORD + [':'] + id + [] == prefix + KEYWORD + ([':'] + id);
    assert prefix + KEYWORD + [':'] + id + [] == "spotify:playlist:" + id;
    ExtractAfterPrefix(prefix, ':', id, []);
  }

  /** `|` is accepted as a separator too, because it is a literal inside the character class. */
  lemma ExtractAfterPipe(id: string)
    requires |id| > 0 && forall k :: 0 <= k < |id| ==> IsAlnum(id[k])
    ensures ExtractPlaylistId("playlist|" + id) == Ok(id)
  {
    assert "" + KEYWORD + ['|'] + id + [] == "playlist|" + id;
    ExtractAfterPrefix("", '|', id, []);
  }

  /** An earlier `playlist` whose separator is not followed by a letter or digit is skipped and the search goes on. */
  lemma ExtractSkipsIncompleteMarker(id: string)
    requires |id| > 0 && forall k :: 0 <= k < |id| ==> IsAlnum(id[k])
    ensures ExtractPlaylistId("playlist/-playlist/" + id) == Ok(id)
  {
    var prefix := "playlist/-";
    var s := prefix + KEYWORD + ['/'] + id + [];
    assert s == "playlist/-playlist/" + id;
    forall j | 0 <= j < |prefix|
      ensures !MatchAt(s, j)
    {
      assert s[j] == prefix[j] && s[j + 1] == (prefix + KEYWORD)[j + 1];
      assert j == 0 ==> s[ID_OFFSET] == '-';
    }
    ExtractAfterPrefix(prefix, '/', id, []);
  }

  /** Input without the text `playlist` holds no identifier and is reported as an error naming the input. */
  lemma ExtractWithoutKeywordFails(s: string)
    requires forall j :: !KeywordAt(s, j)
    ensures ExtractPlaylistId(s) == Err(CouldNotExtract(s))
  {
  }

  /** A URI that ends right after the separator holds no identifier and is rejected. */
  lemma ExtractWithoutIdentifierFails()
    ensures ExtractPlaylistId("spotify:playlist:") == Err(CouldNotExtract("spotify:playlist:"))
  {
    var prefix := "spotify:";
    assert forall j :: 0 <= j < |prefix| ==> !PlAt(prefix + "pl", j);
    NoMatchInPrefix(prefix, [':']);
    assert prefix + KEYWORD + [':'] == "spotify:playlist:";
  }

  /** The identifier of a typical playlist link. */
  lemma ExtractExampleLink()
    ensures ExtractPlaylistId("https://open.spotify.com/playlist/37i9dQZF1DXcBWIGoYBM5M") == Ok("37i9dQZF1DXcBWIGoYBM5M")
  {
    var id := "37i9dQZF1DXcBWIGoYBM5M";
    assert forall k :: 0 <= k < |id| ==> IsAlnum(id[k]);
    assert "https://open.spotify.com/playlist/" + id + "" == "https://open.spotify.com/playlist/37i9dQZF1DXcBWIGoYBM5M";
    ExtractFromWebLink(id, "");
  }
}
