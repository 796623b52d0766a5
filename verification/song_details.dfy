/**
 The song details page (`frontend/src/pages/SongDetails.tsx`): it fetches one song by
 the id in its route, shows a player for a non-empty video link, and links to the full
 lyrics page.
 */
module SongDetails {
  import opened Wrappers
  import opened Strings
  import opened Catalog
  import opened YouTube
  import SongList
  import SongRoutes
  import Worker

  /** Where the page fetches its song from: the raw worker's item path. */
  function FetchPath(id: string): (p: string)
    ensures StartsWith(p, Worker.SongsPrefix) && p[|Worker.SongsPrefix|..] == id
  {
    Worker.SongsPrefix + id
  }

  const LyricsSuffix := "/lyrics"

  /** The "View Full Lyrics" link: the song's page followed by `/lyrics`. */
  function LyricsPath(id: string): (p: string)
    ensures StartsWith(p, SongList.DetailPath(id))
    ensures p[|SongList.DetailPath(id)|..] == LyricsSuffix
  {
    SongList.DetailPath(id) + LyricsSuffix
  }

  /** The page's player: the same extractor and embed URL as the list, shown under the
      same condition, so a song's player is the same on both pages. */
  function Player(link: Option<string>): (src: Option<string>)
    ensures src == SongList.Player(link)
  {
    if link.Some? && link.value != "" then Some(EmbedPrefix + ExtractId(link.value)) else None
  }

  /** The worker answers the page's fetch with its single-row route and looks up exactly
      the page's id, when the id holds no `/`. */
  lemma FetchReachesWorker(id: string)
    requires '/' !in id
    ensures Worker.Dispatch("GET", FetchPath(id)) == Worker.GetOne
    ensures LastSegment(FetchPath(id)) == id
  {
    Worker.SongPathId(id);
  }

  /** An id with a `/` in it is not what the worker looks up. */
  lemma SlashedIdLost(id: string)
    requires '/' in id
    ensures LastSegment(FetchPath(id)) != id
  {
  }

  /** The Hono application, mounted under `/api`, has no route for the page's fetch
      path: it serves single songs under `/song/`, not `/songs/`. */
  lemma FetchMissesHonoRoute(id: string)
    ensures var sub := FetchPath(id)[4..];
      FetchPath(id) == "/api" + sub && SongRoutes.SongIdParam(sub).None? && sub != "/songs"
  {
    var sub := FetchPath(id)[4..];
    assert sub == "/songs/" + id;
    assert sub[5] == 's';
    assert "/song/"[5] == '/';
  }
}
