/**
 The frontend's API path builders (`frontend/src/utils/apiRoutes.ts`) and how they meet
 the two servers: the Hono application mounted under `/api`, and the raw worker.
 */
module ApiRoutes {
  import opened Wrappers
  import opened Strings
  import SongRoutes
  import Worker

  const ApiBase := "/api"

  /** The collection path. */
  const Songs := ApiBase + "/songs"

  /** The login path. */
  const Login := ApiBase + "/login"

  const SongBase := ApiBase + "/song/"

  /** The path of one song: the item prefix followed by the id, verbatim. */
  function Song(id: string): (p: string)
    ensures |p| == |SongBase| + |id|
    ensures StartsWith(p, SongBase) && p[|SongBase|..] == id
  {
    SongBase + id
  }

  /** The collection, item and login paths are what the server routes expect. */
  lemma Literals()
    ensures Songs == "/api/songs" && Login == "/api/login" && SongBase == "/api/song/"
  {
  }

  /** Distinct ids give distinct paths. */
  lemma SongInjective(a: string, b: string)
    requires Song(a) == Song(b)
    ensures a == b
  {
    assert a == Song(a)[|SongBase|..];
  }

  /** No song path is the collection path: they differ at index 9, where the item path
      has `/` and the collection path has `s`, or the item path is shorter. */
  lemma SongIsNotSongs(id: string)
    ensures Song(id) != Songs
  {
    assert Song(id)[9] == '/';
    assert Songs[9] == 's';
  }

  /** Mounted under `/api`, the Hono application receives the rest of the path; for a
      one-segment id that rest is exactly its `/song/:id` route, with `id` as the
      parameter. */
  lemma SongMatchesMountedRoute(id: string)
    requires id != "" && '/' !in id
    ensures var sub := Song(id)[|ApiBase|..];
      Song(id) == ApiBase + sub && SongRoutes.SongIdParam(sub) == Some(id)
  {
    var sub := Song(id)[|ApiBase|..];
    assert sub == "/song/" + id;
  }

  /** The collection path reaches the Hono application's `/songs` route, and the raw
      worker's creation branch for a POST. */
  lemma SongsMatchesMountedRoute()
    ensures Songs == ApiBase + "/songs"
    ensures Songs[|ApiBase|..] == "/songs"
    ensures Worker.Dispatch("POST", Songs) == Worker.Create
  {
    assert Songs == Worker.SongsPath;
  }

  /** The raw worker serves items under `/api/songs/`, so it answers the frontend's item
      path with its fallback, whatever the method. */
  lemma WorkerMissesSongPath(verb: string, id: string)
    ensures Worker.Dispatch(verb, Song(id)) == Worker.Hello
  {
    SongIsNotSongs(id);
    var p := Song(id);
    assert p[9] == '/';
    assert Worker.SongsPrefix[9] == 's';
  }
}
