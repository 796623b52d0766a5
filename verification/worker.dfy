/**
 The TypeScript Cloudflare worker (`api/index.ts`): one `fetch` handler that tries its
 routes in source order, takes a song's id from the last `/`-segment of the path, and
 talks to the `songs` table directly, without validation and without authorization.
 */
module Worker {
  import opened Wrappers
  import opened Strings
  import opened Catalog

  const SongsPath := "/api/songs"
  const SongsPrefix := "/api/songs/"

  /** The branch of the handler that answers a request. */
  datatype Route = Create | Update | Delete | List | GetOne | Hello

  /** The routes tried in source order. The exact path and the prefix never both
      match, so each branch is characterised by its own condition alone. */
  function Dispatch(verb: string, path: string): (r: Route)
    ensures r == Create <==> path == SongsPath && verb == "POST"
    ensures r == Update <==> StartsWith(path, SongsPrefix) && verb == "PUT"
    ensures r == Delete <==> StartsWith(path, SongsPrefix) && verb == "DELETE"
    ensures r == List <==> path == SongsPath && verb != "POST"
    ensures r == GetOne <==> StartsWith(path, SongsPrefix) && verb != "PUT" && verb != "DELETE"
    ensures r == Hello <==> path != SongsPath && !StartsWith(path, SongsPrefix)
  {
    if path == SongsPath && verb == "POST" then Create
    else if StartsWith(path, SongsPrefix) && verb == "PUT" then Update
    else if StartsWith(path, SongsPrefix) && verb == "DELETE" then Delete
    else if path == SongsPath then List
    else if StartsWith(path, SongsPrefix) then GetOne
    else Hello
  }

  /** Any error a writing route can raise (a body that does not parse, a constraint the
      database refuses) is answered 400 with its message. */
  function Failed(message: string): Response {
    Response(400, FailureJson(message))
  }

  const IdMissing := Response(400, Text("Song ID missing"))

  /** `POST /api/songs`: the body's twelve members are inserted under a fresh id.
      `audio_link` is not among the inserted columns, so the new row has none. */
  function CreateRow(store: Store, body: Result<Fields, string>, freshId: string): (o: Outcome)
    requires freshId !in store
    ensures body.Failure? ==> o == Outcome(Failed(body.error), store)
    ensures body.Success? ==>
      && o.response == Response(201, SuccessJson(None))
      && (forall id :: id in o.store <==> id in store || id == freshId)
      && (forall id :: id in store ==> o.store[id] == store[id])
      && o.store[freshId].id == freshId
      && o.store[freshId].fields.audio_link.None?
      && (forall f :: f != AudioLink ==> Value(o.store[freshId].fields, f) == Value(body.value, f))
  {
    if body.Failure? then Outcome(Failed(body.error), store)
    else
      Outcome(Response(201, SuccessJson(None)),
              store[freshId := Song(freshId, body.value.(audio_link := None))])
  }

  /** `PUT /api/songs/:id`: the id check comes before the body is read; a row that is not
      there changes nothing and is a 404; otherwise the twelve columns are replaced and
      `audio_link` keeps what it held. */
  function UpdateRow(store: Store, path: string, body: Result<Fields, string>): (o: Outcome)
    ensures LastSegment(path) == "" ==> o == Outcome(IdMissing, store)
    ensures LastSegment(path) != "" && body.Failure? ==> o == Outcome(Failed(body.error), store)
    ensures LastSegment(path) != "" && body.Success? && LastSegment(path) !in store ==>
      o == Outcome(Response(404, Text("Song not found or no changes made")), store)
    ensures var id := LastSegment(path);
      id != "" && body.Success? && id in store ==>
        && o.response == Response(200, SuccessJson(None))
        && (forall other :: other in o.store <==> other in store)
        && (forall other :: other in store && other != id ==> o.store[other] == store[other])
        && o.store[id].id == store[id].id
        && o.store[id].fields.audio_link == store[id].fields.audio_link
        && (forall f :: f != AudioLink ==> Value(o.store[id].fields, f) == Value(body.value, f))
  {
    var id := LastSegment(path);
    if id == "" then Outcome(IdMissing, store)
    else if body.Failure? then Outcome(Failed(body.error), store)
    else if id !in store then
      Outcome(Response(404, Text("Song not found or no changes made")), store)
    else
      var row := store[id];
      Outcome(Response(200, SuccessJson(None)),
              store[id := row.(fields := body.value.(audio_link := row.fields.audio_link))])
  }

  /** `DELETE /api/songs/:id`: unlike the Hono route, an absent row is a 404. */
  function DeleteRow(store: Store, path: string): (o: Outcome)
    ensures LastSegment(path) == "" ==> o == Outcome(IdMissing, store)
    ensures LastSegment(path) != "" && LastSegment(path) !in store ==>
      o == Outcome(Response(404, Text("Song not found")), store)
    ensures var id := LastSegment(path);
      id != "" && id in store ==>
        && o.response == Response(200, SuccessJson(Some("Song deleted successfully")))
        && (forall other :: other in o.store <==> other in store && other != id)
        && (forall other :: other in o.store ==> o.store[other] == store[other])
  {
    var id := LastSegment(path);
    if id == "" then Outcome(IdMissing, store)
    else if id !in store then Outcome(Response(404, Text("Song not found")), store)
    else Outcome(Response(200, SuccessJson(Some("Song deleted successfully"))), store - {id})
  }

  /** The page size of the listing. */
  const PageSize := 20

  /** `scan` is the table in the order the database reads it: every stored row exactly
      once, and nothing else. */
  predicate Scans(scan: seq<Song>, store: Store) {
    && (forall i :: 0 <= i < |scan| ==> scan[i].id in store && store[scan[i].id] == scan[i])
    && (forall i, j :: 0 <= i < j < |scan| ==> scan[i].id != scan[j].id)
    && (forall id :: id in store ==> exists i :: 0 <= i < |scan| && scan[i].id == id)
  }

  /** The ids of a sequence of rows. */
  function IdsOf(scan: seq<Song>): (ids: set<string>)
    ensures forall i :: 0 <= i < |scan| ==> scan[i].id in ids
    ensures forall id :: id in ids ==> exists i :: 0 <= i < |scan| && scan[i].id == id
  {
    if scan == [] then {}
    else
      var rest := IdsOf(scan[1..]);
      assert forall i :: 1 <= i < |scan| ==> scan[i] == scan[1..][i - 1];
      {scan[0].id} + rest
  }

  /** Rows with distinct ids have as many ids as rows. */
  lemma {:induction false} DistinctIdsCount(scan: seq<Song>)
    requires forall i, j :: 0 <= i < j < |scan| ==> scan[i].id != scan[j].id
    ensures |IdsOf(scan)| == |scan|
    decreases |scan|
  {
    if scan != [] {
      DistinctIdsCount(scan[1..]);
      assert scan[0].id !in IdsOf(scan[1..]) by {
        forall i | 0 <= i < |scan[1..]| ensures scan[1..][i].id != scan[0].id {
          assert scan[1..][i] == scan[i + 1];
        }
      }
    }
  }

  /** A scan of the table has one row per stored song. */
  lemma ScanSize(scan: seq<Song>, store: Store)
    requires Scans(scan, store)
    ensures |scan| == |store|
  {
    DistinctIdsCount(scan);
    assert IdsOf(scan) == store.Keys;
  }

  /** `SELECT id, title, artist, youtube_link, lyrics FROM songs LIMIT 20` over the
      rows in the order the database scans them. */
  function ListRows(scan: seq<Song>): (rows: seq<Summary>)
    ensures |rows| == if |scan| < PageSize then |scan| else PageSize
    ensures forall i :: 0 <= i < |rows| ==> rows[i] == Summarize(scan[i])
  {
    var n := if |scan| < PageSize then |scan| else PageSize;
    seq(n, i requires 0 <= i < n => Summarize(scan[i]))
  }

  /** Any other method on `/api/songs/:id`: the whole row, or a plain-text 404. */
  function GetRow(store: Store, path: string): (r: Response)
    ensures r.status == 200 <==> LastSegment(path) in store
    ensures LastSegment(path) in store ==> r.body == SongJson(store[LastSegment(path)])
    ensures LastSegment(path) !in store ==> r.body == Text("Not Found")
  {
    var id := LastSegment(path);
    if id in store then Response(200, SongJson(store[id])) else Response(404, Text("Not Found"))
  }

  /** A request as the worker sees it. The body is what the database stores for the
      twelve bound members of the parsed JSON (a schema-shaped row), or the message of
      the error reading or binding it raised. There is no header: no route looks at one. */
  datatype Request = Request(verb: string, path: string, body: Result<Fields, string>)

  /** The whole handler. `freshId` is the id the database assigns to an inserted row,
      `scan` the table in the order the database reads it. */
  function Fetch(store: Store, req: Request, freshId: string, scan: seq<Song>): (o: Outcome)
    requires Dispatch(req.verb, req.path) == Create ==> freshId !in store
    requires Dispatch(req.verb, req.path) == List ==> Scans(scan, store)
    ensures Dispatch(req.verb, req.path) == Hello ==>
      o == Outcome(Response(200, Text("Hello from Worker")), store)
    ensures Dispatch(req.verb, req.path) == List ==>
      o == Outcome(Response(200, SummariesJson(ListRows(scan))), store)
    ensures Dispatch(req.verb, req.path) == GetOne ==> o == Outcome(GetRow(store, req.path), store)
    ensures o.store != store ==> Dispatch(req.verb, req.path) in {Create, Update, Delete}
  {
    match Dispatch(req.verb, req.path)
    case Create => CreateRow(store, req.body, freshId)
    case Update => UpdateRow(store, req.path, req.body)
    case Delete => DeleteRow(store, req.path)
    case List => Outcome(Response(200, SummariesJson(ListRows(scan))), store)
    case GetOne => Outcome(GetRow(store, req.path), store)
    case Hello => Outcome(Response(200, Text("Hello from Worker")), store)
  }

  // ---------------------------------------------------------------- properties

  /** The id of `/api/songs/<id>` is `id` itself when it holds no `/`. */
  lemma SongPathId(id: string)
    requires '/' !in id
    ensures StartsWith(SongsPrefix + id, SongsPrefix)
    ensures LastSegment(SongsPrefix + id) == id
  {
    assert (SongsPrefix + id)[..|SongsPrefix|] == SongsPrefix;
    assert SongsPrefix + id == SongsPath + "/" + id;
    LastSegmentAfterSlash(SongsPath, id);
  }

  /** A path that ends in `/` has an empty last segment. */
  lemma TrailingSlashNoId(path: string)
    requires |path| > 0 && path[|path| - 1] == '/'
    ensures LastSegment(path) == ""
  {
  }

  /** `PUT` or `DELETE` on a path ending in `/` is answered 400 without touching the table. */
  lemma MissingIdRejected(store: Store, req: Request, freshId: string, scan: seq<Song>)
    requires req.verb == "PUT" || req.verb == "DELETE"
    requires StartsWith(req.path, SongsPrefix) && req.path[|req.path| - 1] == '/'
    ensures Fetch(store, req, freshId, scan) == Outcome(IdMissing, store)
  {
    TrailingSlashNoId(req.path);
  }

  /** No route checks who is asking: an update of a stored row with a well-formed body
      always goes through. */
  lemma UpdateIsUnguarded(store: Store, id: string, fs: Fields, freshId: string, scan: seq<Song>)
    requires id in store && id != "" && '/' !in id
    ensures var o := Fetch(store, Request("PUT", SongsPrefix + id, Success(fs)), freshId, scan);
      o.response.status == 200 && Value(o.store[id].fields, Title) == Some(JStr(fs.title))
  {
    SongPathId(id);
  }

  /** A row inserted through `POST /api/songs` is then served by `GET /api/songs/<id>`. */
  lemma CreateThenGet(store: Store, fs: Fields, freshId: string, scan: seq<Song>)
    requires freshId !in store && freshId != "" && '/' !in freshId
    ensures var created := Fetch(store, Request("POST", SongsPath, Success(fs)), freshId, scan).store;
      var got := Fetch(created, Request("GET", SongsPrefix + freshId, Success(fs)), freshId, scan);
      got.response == Response(200, SongJson(Song(freshId, fs.(audio_link := None))))
  {
    var created := CreateRow(store, Success(fs), freshId).store;
    assert freshId in created;
    assert created[freshId] == Song(freshId, fs.(audio_link := None));
    SongPathId(freshId);
    assert Dispatch("GET", SongsPrefix + freshId) == GetOne;
  }

  /** A row deleted through `DELETE /api/songs/<id>` is then a 404. */
  lemma DeleteThenGet(store: Store, id: string, freshId: string, scan: seq<Song>)
    requires id in store && id != "" && '/' !in id
    ensures var deleted := Fetch(store, Request("DELETE", SongsPrefix + id, Failure("")), freshId, scan).store;
      Fetch(deleted, Request("GET", SongsPrefix + id, Failure("")), freshId, scan).response
          == Response(404, Text("Not Found"))
  {
    SongPathId(id);
    assert Dispatch("GET", SongsPrefix + id) == GetOne;
  }

  /** Every listed row is the projection of a stored song, and no song is listed twice. */
  lemma ListedAreStored(scan: seq<Song>, store: Store)
    requires Scans(scan, store)
    ensures forall i :: 0 <= i < |ListRows(scan)| ==>
      ListRows(scan)[i].id in store && ListRows(scan)[i] == Summarize(store[ListRows(scan)[i].id])
    ensures forall i, j :: 0 <= i < j < |ListRows(scan)| ==> ListRows(scan)[i].id != ListRows(scan)[j].id
  {
  }

  /** The listing holds twenty rows, or the whole table when it is smaller; in the
      latter case every stored song is listed. */
  lemma ListedCount(scan: seq<Song>, store: Store)
    requires Scans(scan, store)
    ensures |ListRows(scan)| == if |store| < PageSize then |store| else PageSize
    ensures |store| <= PageSize ==>
      forall id :: id in store ==> exists i :: 0 <= i < |ListRows(scan)| && ListRows(scan)[i] == Summarize(store[id])
  {
    ScanSize(scan, store);
    if |store| <= PageSize {
      forall id | id in store
        ensures exists i :: 0 <= i < |ListRows(scan)| && ListRows(scan)[i] == Summarize(store[id])
      {
        var i :| 0 <= i < |scan| && scan[i].id == id;
        assert ListRows(scan)[i] == Summarize(store[id]);
      }
    }
  }
}
