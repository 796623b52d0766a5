/**
 The JavaScript worker (`api/index.js`): the same three queries as the TypeScript
 worker, but with the listing tried first, so the insert branch is never reached.
 */
module WorkerJs {
  import opened Wrappers
  import opened Strings
  import opened Catalog
  import opened Worker

  /** The routes in source order: exact path, prefix, then the insert. */
  function DispatchJs(verb: string, path: string): (r: Route)
    ensures r == List <==> path == SongsPath
    ensures r == GetOne <==> StartsWith(path, SongsPrefix)
    ensures r == Hello <==> path != SongsPath && !StartsWith(path, SongsPrefix)
  {
    if path == SongsPath then List
    else if StartsWith(path, SongsPrefix) then GetOne
    else if path == SongsPath && verb == "POST" then Create
    else Hello
  }

  /** The insert branch is dead: whatever the method, no request reaches it. */
  lemma NoCreate(verb: string, path: string)
    ensures DispatchJs(verb, path) != Create
  {
    var r := DispatchJs(verb, path);
    if path == SongsPath {
      assert r == List;
    } else if StartsWith(path, SongsPrefix) {
      assert r == GetOne;
    }
  }

  /** A `POST` to the collection is answered by the listing. */
  lemma PostIsListed(scan: seq<Song>, store: Store, body: Result<Fields, string>)
    requires Scans(scan, store)
    ensures FetchJs(store, Request("POST", SongsPath, body), scan)
      == Response(200, SummariesJson(ListRows(scan)))
  {
  }

  /** The whole handler. It only reads, so it returns a response and no new table. */
  function FetchJs(store: Store, req: Request, scan: seq<Song>): (r: Response)
    requires req.path == SongsPath ==> Scans(scan, store)
    ensures req.path == SongsPath ==> r == Response(200, SummariesJson(ListRows(scan)))
    ensures StartsWith(req.path, SongsPrefix) ==> r == GetRow(store, req.path)
    ensures req.path != SongsPath && !StartsWith(req.path, SongsPrefix) ==>
      r == Response(200, Text("Hello from Worker"))
  {
    match DispatchJs(req.verb, req.path)
    case List => Response(200, SummariesJson(ListRows(scan)))
    case GetOne => GetRow(store, req.path)
    case Hello => Response(200, Text("Hello from Worker"))
    case _ => assert false; Response(200, Text("Hello from Worker"))
  }

  /** For every method but the three writing ones, the two workers answer alike and
      the TypeScript one leaves the table as it was. */
  lemma ReadsAgree(store: Store, req: Request, freshId: string, scan: seq<Song>)
    requires req.verb != "POST" && req.verb != "PUT" && req.verb != "DELETE"
    requires req.path == SongsPath ==> Scans(scan, store)
    ensures Fetch(store, req, freshId, scan) == Outcome(FetchJs(store, req, scan), store)
  {
    var r := Dispatch(req.verb, req.path);
    assert r != Create && r != Update && r != Delete;
  }
}
