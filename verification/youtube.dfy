/**
 The video-id extractor shared, character for character, by the song list, the song
 details page and the audio library: the first capture of the regular expression
 `(?:youtu\.be\/|v=)([^&]+)`, or `''` when it does not match.
 */
module YouTube {
  import opened Wrappers
  import opened Strings

  /** The short-link marker `youtu.be/`. */
  const ShortMarker := "youtu.be/"

  /** The query-parameter marker `v=`. */
  const ParamMarker := "v="

  /** The player URL every embed starts with. */
  const EmbedPrefix := "https://www.youtube.com/embed/"

  /** The length of the marker the expression takes at index `k` of `link`, or 0 when it
      cannot match there. A marker only counts when at least one character other than
      `&` follows it, since the capture `[^&]+` must not be empty; the two markers start
      with different letters, so at most one applies. */
  function MarkerAt(link: string, k: nat): (m: nat)
    ensures m == 0 || m == |ShortMarker| || m == |ParamMarker|
    ensures m > 0 ==> k + m < |link| && link[k + m] != '&'
    ensures m == |ShortMarker| <==> OccursAt(link, ShortMarker, k) && k + |ShortMarker| < |link| && link[k + |ShortMarker|] != '&'
    ensures m == |ParamMarker| <==> OccursAt(link, ParamMarker, k) && k + |ParamMarker| < |link| && link[k + |ParamMarker|] != '&'
  {
    OccursHead(link, ShortMarker, k);
    OccursHead(link, ParamMarker, k);
    if OccursAt(link, ShortMarker, k) && k + |ShortMarker| < |link| && link[k + |ShortMarker|] != '&' then
      |ShortMarker|
    else if OccursAt(link, ParamMarker, k) && k + |ParamMarker| < |link| && link[k + |ParamMarker|] != '&' then
      |ParamMarker|
    else 0
  }

  /** An occurrence starts with the first character of what occurs. */
  lemma OccursHead(s: string, p: string, k: nat)
    requires |p| > 0
    ensures OccursAt(s, p, k) ==> s[k] == p[0]
  {
    if OccursAt(s, p, k) {
      assert s[k..k + |p|][0] == s[k];
    }
  }

  /** The expression matches starting at index `k`. */
  predicate MatchesAt(link: string, k: nat) {
    MarkerAt(link, k) > 0
  }

  /** The leftmost index at or after `from` where the expression matches. */
  function FirstMatch(link: string, from: nat): (r: Option<nat>)
    requires from <= |link|
    ensures r.Some? ==> from <= r.value < |link| && MatchesAt(link, r.value)
    ensures r.Some? ==> forall k :: from <= k < r.value ==> !MatchesAt(link, k)
    ensures r.None? ==> forall k :: from <= k <= |link| ==> !MatchesAt(link, k)
    decreases |link| - from
  {
    if from == |link| then None
    else if MatchesAt(link, from) then Some(from)
    else FirstMatch(link, from + 1)
  }

  /** The index of the first `&`, or the length when there is none. */
  function AmpIndex(s: string): (n: nat)
    ensures n <= |s|
    ensures forall i :: 0 <= i < n ==> s[i] != '&'
    ensures n < |s| ==> s[n] == '&'
  {
    if |s| == 0 || s[0] == '&' then 0 else 1 + AmpIndex(s[1..])
  }

  /** The greedy `[^&]+`: the longest prefix free of `&`. */
  function UntilAmp(s: string): (r: string)
    ensures |r| <= |s| && r == s[..|r|]
    ensures '&' !in r
    ensures |r| < |s| ==> s[|r|] == '&'
  {
    s[..AmpIndex(s)]
  }

  /** `extractYouTubeID`: the capture of the leftmost match, `''` when there is none. */
  function ExtractId(link: string): (id: string)
    ensures id == "" <==> forall k :: 0 <= k <= |link| ==> !MatchesAt(link, k)
    ensures '&' !in id
  {
    match FirstMatch(link, 0)
    case None => ""
    case Some(k) =>
      var rest := link[k + MarkerAt(link, k)..];
      assert rest[0] != '&';
      UntilAmp(rest)
  }

  /** The id is the run of characters other than `&` right after the leftmost marker
      that is followed by one. */
  lemma ExtractAt(link: string, k: nat)
    requires MatchesAt(link, k) && NoMatchBetween(link, 0, k)
    ensures ExtractId(link) == UntilAmp(link[k + MarkerAt(link, k)..])
    ensures ExtractId(link) != ""
  {
    var r := FirstMatch(link, 0);
    assert r.Some?;
    assert r.value == k;
  }

  /** A position whose character starts neither marker is not a match. */
  lemma NoMarkerStart(link: string, k: nat)
    requires k < |link| ==> link[k] != 'y' && link[k] != 'v'
    ensures !MatchesAt(link, k)
  {
    OccursHead(link, ShortMarker, k);
    OccursHead(link, ParamMarker, k);
  }

  /** No match starts at an index from `lo` up to, not including, `hi`. */
  predicate NoMatchBetween(link: string, lo: nat, hi: nat) {
    forall k :: lo <= k < hi ==> !MatchesAt(link, k)
  }

  /** Two adjacent stretches without a match make one. */
  lemma NoMatchJoin(link: string, lo: nat, mid: nat, hi: nat)
    requires lo <= mid <= hi
    requires NoMatchBetween(link, lo, mid) && NoMatchBetween(link, mid, hi)
    ensures NoMatchBetween(link, lo, hi)
  {
  }

  /** No match starts inside a stretch of characters without `y` and `v`. */
  lemma NoMarkerIn(link: string, lo: nat, hi: nat)
    requires lo <= hi <= |link|
    requires 'y' !in link[lo..hi] && 'v' !in link[lo..hi]
    ensures NoMatchBetween(link, lo, hi)
  {
    forall k | lo <= k < hi ensures !MatchesAt(link, k) {
      assert link[k] == link[lo..hi][k - lo];
      NoMarkerStart(link, k);
    }
  }

  /** A `watch?v=` link: when nothing before the parameter can start a marker, the id
      is the parameter's value up to the next `&`. */
  lemma WatchLink(page: string, value: string)
    requires 'y' !in page && 'v' !in page
    requires |value| > 0 && value[0] != '&'
    ensures ExtractId(page + ParamMarker + value) == UntilAmp(value)
  {
    var link := page + ParamMarker + value;
    assert link[..|page|] == page;
    NoMarkerIn(link, 0, |page|);
    assert link[|page|..|page| + 2] == ParamMarker;
    assert MarkerAt(link, |page|) == 2;
    ExtractAt(link, |page|);
    assert link[|page| + 2..] == value;
  }

  /** A short link `https://youtu.be/<value>` yields the value up to the next `&`. */
  lemma ShortLink(value: string)
    requires |value| > 0 && value[0] != '&'
    ensures ExtractId("https://" + ShortMarker + value) == UntilAmp(value)
  {
    var link := "https://" + ShortMarker + value;
    assert link[..8] == "https://";
    NoMarkerIn(link, 0, 8);
    assert link[8..17] == ShortMarker;
    assert MarkerAt(link, 8) == 9;
    ExtractAt(link, 8);
    assert link[17..] == value;
  }

  /** The id of the watch link used throughout the component tests. */
  lemma ExampleWatchLink(link: string)
    requires link == ExampleLink
    ensures ExtractId(link) == "dQw4w9WgXcQ"
  {
    ExampleHost(link);
    ExamplePath(link);
    NoMatchJoin(link, 0, 13, 30);
    ExampleParam(link);
    ExtractAt(link, 30);
    ExampleIdAmpFree();
    AmpFree(link[32..]);
  }

  const ExampleLink := "https://www.youtube.com/watch?v=dQw4w9WgXcQ"

  /** `https://www.y`: the only candidate, at the `y`, is `youtube.c`, not `youtu.be/`. */
  lemma ExampleHost(link: string)
    requires link == ExampleLink
    ensures NoMatchBetween(link, 0, 13)
  {
    assert link[..12] == "https://www.";
    NoMarkerIn(link, 0, 12);
    assert link[12..21] != ShortMarker by {
      assert link[17] == 'b';
    }
    assert link[12] == 'y';
    OccursHead(link, ParamMarker, 12);
    assert NoMatchBetween(link, 12, 13);
    NoMatchJoin(link, 0, 12, 13);
  }

  /** `outube.com/watch?` holds neither `y` nor `v`. */
  lemma ExamplePath(link: string)
    requires link == ExampleLink
    ensures NoMatchBetween(link, 13, 30)
  {
    var path := "outube.com/watch?";
    assert link == "https://www.y" + path + "v=dQw4w9WgXcQ";
    assert link[13..30] == path;
    NoMarkerIn(link, 13, 30);
  }

  /** The parameter marker at index 30, and the value after it. */
  lemma ExampleParam(link: string)
    requires link == ExampleLink
    ensures MarkerAt(link, 30) == 2 && link[32..] == "dQw4w9WgXcQ"
  {
    assert link[30..32] == ParamMarker;
  }

  lemma ExampleIdAmpFree()
    ensures '&' !in "dQw4w9WgXcQ"
  {
  }

  /** A string without `&` is its own greedy run. */
  lemma AmpFree(s: string)
    requires '&' !in s
    ensures UntilAmp(s) == s
  {
    assert AmpIndex(s) == |s|;
  }

  /** The embed URL the list and details pages give the player. */
  function EmbedSrc(link: string): (src: string)
    ensures StartsWith(src, EmbedPrefix) && src[|EmbedPrefix|..] == ExtractId(link)
  {
    EmbedPrefix + ExtractId(link)
  }
}
