/**
 The Hono sub-application serving the song API: a bearer-token gate in front of the
 three writing routes, a list route that builds one parameterised SQL statement from
 optional filters, and get / create / update / delete by id over the `songs` table.

 The table is the abstract map `Store`; executing the list statement is the parameter
 `runQuery`; `crypto.randomUUID()` is the parameter `freshId`.
 */
module SongRoutes {
  import opened Wrappers
  import opened Strings
  import opened Catalog
  import opened Validation
  import opened ListQuery

  // ---------------------------------------------------------------- authorisation

  /** The auth middleware: a request passes exactly when its Authorization header is
      `"Bearer "` followed by the configured secret. With no secret configured, nothing
      passes. */
  function Authorize(header: Option<string>, secret: Option<string>): (admitted: bool)
    ensures admitted <==> secret.Some? && header == Some("Bearer " + secret.value)
  {
    if header.None? || header.value == "" || !StartsWith(header.value, "Bearer ") then false
    else
      var token := header.value[7..];
      assert StartsWith(header.value, "Bearer ") ==> header.value == "Bearer " + token;
      secret.Some? && token == secret.value
  }

  const Unauthorized := Response(401, ErrorJson("Unauthorized", None))

  // ---------------------------------------------------------------- handlers

  /** `GET /song/:id`: the row when there is one, 404 otherwise. */
  function GetSong(store: Store, id: string): (r: Response)
    ensures r.status == 200 <==> id in store
    ensures id in store ==> r.body == SongJson(store[id])
    ensures id !in store ==> r == Response(404, ErrorJson("Song not found", None))
  {
    if id !in store then Response(404, ErrorJson("Song not found", None))
    else Response(200, SongJson(store[id]))
  }

  /** The 400 answer to a body the schema rejects, carrying the field issues. */
  function Invalid(issues: seq<Issue>): Response {
    Response(400, ErrorJson("Invalid input", Some(Issues(issues))))
  }

  /** Storing a row under an id: that id now holds exactly this row, every other row
      is as it was, and no other id appears. */
  function Commit(store: Store, id: string, fs: Fields): (r: Store)
    ensures forall k :: k in r <==> k in store || k == id
    ensures forall k :: k in store && k != id ==> r[k] == store[k]
    ensures r[id] == Song(id, fs)
  {
    store[id := Song(id, fs)]
  }

  /** `POST /songs` past the auth gate. A body that does not parse is a 500; one the
      schema rejects is a 400 and touches nothing; a valid one is stored under the fresh
      id, every other row kept, and answered 201 with the new row. */
  function CreateSong(store: Store, body: Result<Json, string>, freshId: string, isUrl: string -> bool): (o: Outcome)
    requires freshId !in store
    ensures body.Failure? ==>
      o == Outcome(Response(500, ErrorJson("Failed to create song", Some(Reason(body.error)))), store)
    ensures body.Success? && ValidateSong(body.value, isUrl).Failure? ==>
      o == Outcome(Invalid(ValidateSong(body.value, isUrl).error), store)
    ensures body.Success? && ValidateSong(body.value, isUrl).Success? ==>
      && o.response.status == 201
      && (forall id :: id in o.store <==> id in store || id == freshId)
      && (forall id :: id in store ==> o.store[id] == store[id])
      && o.store[freshId] == Song(freshId, ValidateSong(body.value, isUrl).value)
      && o.response.body == SongJson(o.store[freshId])
  {
    if body.Failure? then
      Outcome(Response(500, ErrorJson("Failed to create song", Some(Reason(body.error)))), store)
    else
      var v := ValidateSong(body.value, isUrl);
      if v.Failure? then Outcome(Invalid(v.error), store)
      else
        Outcome(Response(201, SongJson(Song(freshId, v.value))), Commit(store, freshId, v.value))
  }

  /** `PUT /song/:id` past the auth gate. Validation comes first; then the row's thirteen
      columns are all replaced by the validated values, so an omitted field becomes
      NULL. An id with no row is a 404 and creates nothing. */
  function UpdateSong(store: Store, id: string, body: Result<Json, string>, isUrl: string -> bool): (o: Outcome)
    ensures body.Failure? ==>
      o == Outcome(Response(500, ErrorJson("Failed to update song", Some(Reason(body.error)))), store)
    ensures body.Success? && ValidateSong(body.value, isUrl).Failure? ==>
      o == Outcome(Invalid(ValidateSong(body.value, isUrl).error), store)
    ensures body.Success? && ValidateSong(body.value, isUrl).Success? && id !in store ==>
      o == Outcome(Response(404, ErrorJson("Update failed or song not found", None)), store)
    ensures body.Success? && ValidateSong(body.value, isUrl).Success? && id in store ==>
      && o.response.status == 200
      && (forall other :: other in o.store <==> other in store)
      && (forall other :: other in store && other != id ==> o.store[other] == store[other])
      && o.store[id] == Song(id, ValidateSong(body.value, isUrl).value)
      && o.response.body == SongJson(o.store[id])
  {
    if body.Failure? then
      Outcome(Response(500, ErrorJson("Failed to update song", Some(Reason(body.error)))), store)
    else
      var v := ValidateSong(body.value, isUrl);
      if v.Failure? then Outcome(Invalid(v.error), store)
      else if id !in store then
        Outcome(Response(404, ErrorJson("Update failed or song not found", None)), store)
      else
        Outcome(Response(200, SongJson(Song(id, v.value))), Commit(store, id, v.value))
  }

  /** `DELETE /song/:id` past the auth gate: always 200, whether or not the row
      existed; afterwards the id is gone and every other row is as it was. */
  function DeleteSong(store: Store, id: string): (o: Outcome)
    ensures o.response == Response(200, MessageJson("Song deleted successfully"))
    ensures id !in o.store
    ensures forall other :: other in o.store <==> other in store && other != id
    ensures forall other :: other in o.store ==> o.store[other] == store[other]
  {
    Outcome(Response(200, MessageJson("Song deleted successfully")), store - {id})
  }

  // ---------------------------------------------------------------- routing

  /** A request as the sub-application sees it: the path is relative to its mount
      point. */
  datatype Request = Request(
    verb: string,
    path: string,
    query: ListParams,
    authorization: Option<string>,
    body: Result<Json, string>)

  /** The `:id` of a path matching `/song/:id`: one non-empty segment. */
  function SongIdParam(path: string): (r: Option<string>)
    ensures r.Some? <==> exists id :: id != "" && '/' !in id && path == "/song/" + id
    ensures r.Some? ==> r.value != "" && '/' !in r.value && path == "/song/" + r.value
  {
    if StartsWith(path, "/song/") && |path| > 6 && '/' !in path[6..] then
      assert path == "/song/" + path[6..];
      Some(path[6..])
    else
      assert forall id :: path == "/song/" + id ==> id == path[6..];
      None
  }

  /** The three routes behind the auth gate. */
  predicate IsWrite(req: Request) {
    || (req.verb == "POST" && req.path == "/songs")
    || ((req.verb == "PUT" || req.verb == "DELETE") && SongIdParam(req.path).Some?)
  }

  /** The sub-application: route by method and path, gate the writing routes. A write
      without the right token is a 401 that reaches no handler; only an admitted write
      can change the store. */
  function Serve(store: Store, req: Request, secret: Option<string>, freshId: string,
                 isUrl: string -> bool, runQuery: SqlQuery -> seq<Song>): (o: Outcome)
    requires freshId !in store
    ensures IsWrite(req) && !Authorize(req.authorization, secret) ==> o == Outcome(Unauthorized, store)
    ensures o.store != store ==> IsWrite(req) && Authorize(req.authorization, secret)
  {
    var id := SongIdParam(req.path);
    if req.verb == "GET" && req.path == "/songs" then
      Outcome(Response(200, SongsJson(runQuery(BuildListQuery(req.query)))), store)
    else if req.verb == "GET" && id.Some? then
      Outcome(GetSong(store, id.value), store)
    else if req.verb == "POST" && req.path == "/songs" then
      if !Authorize(req.authorization, secret) then Outcome(Unauthorized, store)
      else CreateSong(store, req.body, freshId, isUrl)
    else if req.verb == "PUT" && id.Some? then
      if !Authorize(req.authorization, secret) then Outcome(Unauthorized, store)
      else UpdateSong(store, id.value, req.body, isUrl)
    else if req.verb == "DELETE" && id.Some? then
      if !Authorize(req.authorization, secret) then Outcome(Unauthorized, store)
      else DeleteSong(store, id.value)
    else
      Outcome(Response(404, Text("404 Not Found")), store)
  }

  /** Rows stay stored under their own ids, whatever request is served. */
  lemma ServeKeepsKeys(store: Store, req: Request, secret: Option<string>, freshId: string,
                       isUrl: string -> bool, runQuery: SqlQuery -> seq<Song>)
    requires freshId !in store && WellKeyed(store)
    ensures WellKeyed(Serve(store, req, secret, freshId, isUrl, runQuery).store)
  {
    var id := SongIdParam(req.path);
    var o := Serve(store, req, secret, freshId, isUrl, runQuery);
    if o.store != store {
      assert Authorize(req.authorization, secret);
      if req.verb == "POST" && req.path == "/songs" {
        assert o == CreateSong(store, req.body, freshId, isUrl);
        CreateKeepsKeys(store, req.body, freshId, isUrl);
      } else if req.verb == "PUT" {
        assert o == UpdateSong(store, id.value, req.body, isUrl);
        UpdateKeepsKeys(store, id.value, req.body, isUrl);
      } else {
        assert o == DeleteSong(store, id.value);
      }
    }
  }

  lemma CreateKeepsKeys(store: Store, body: Result<Json, string>, freshId: string, isUrl: string -> bool)
    requires freshId !in store && WellKeyed(store)
    ensures WellKeyed(CreateSong(store, body, freshId, isUrl).store)
  {
  }

  lemma UpdateKeepsKeys(store: Store, id: string, body: Result<Json, string>, isUrl: string -> bool)
    requires WellKeyed(store)
    ensures WellKeyed(UpdateSong(store, id, body, isUrl).store)
  {
    var o := UpdateSong(store, id, body, isUrl);
    if o.store != store {
      forall k | k in o.store ensures o.store[k].id == k {
        if k != id {
          assert o.store[k] == store[k];
        }
      }
    }
  }

  // ---------------------------------------------------------------- round trips

  /** A created song can be fetched back under its new id, with the validated fields. */
  lemma CreateThenGet(store: Store, body: Json, freshId: string, isUrl: string -> bool)
    requires freshId !in store
    requires ValidateSong(body, isUrl).Success?
    ensures var o := CreateSong(store, Success(body), freshId, isUrl);
      GetSong(o.store, freshId) == Response(200, SongJson(Song(freshId, ValidateSong(body, isUrl).value)))
  {
  }

  /** After a delete, fetching the same id is a 404. */
  lemma DeleteThenGet(store: Store, id: string)
    ensures GetSong(DeleteSong(store, id).store, id).status == 404
  {
  }

  /** An update replaces every column: a field left out of the body is NULL afterwards,
      whatever it held before. */
  lemma UpdateClearsOmitted(store: Store, id: string, body: Json, f: Field, isUrl: string -> bool)
    requires UpdateSong(store, id, Success(body), isUrl).response.status == 200
    requires f != Root && Lookup(body.fields, Key(f)).None?
    ensures Value(UpdateSong(store, id, Success(body), isUrl).store[id].fields, f).None?
  {
  }

  /** Deleting a song right after creating it leaves the table as it was. */
  lemma CreateThenDelete(store: Store, body: Json, freshId: string, isUrl: string -> bool)
    requires freshId !in store
    ensures DeleteSong(CreateSong(store, Success(body), freshId, isUrl).store, freshId).store == store
  {
    if ValidateSong(body, isUrl).Success? {
      DeleteCreated(store, body, freshId, isUrl);
    } else {
      DeleteRejected(store, body, freshId, isUrl);
    }
  }

  /** A valid body adds exactly one row, which the delete removes again. */
  lemma DeleteCreated(store: Store, body: Json, freshId: string, isUrl: string -> bool)
    requires freshId !in store && ValidateSong(body, isUrl).Success?
    ensures DeleteSong(CreateSong(store, Success(body), freshId, isUrl).store, freshId).store == store
  {
    var created := CreateSong(store, Success(body), freshId, isUrl).store;
    var deleted := DeleteSong(created, freshId).store;
    SameRows(deleted, store);
  }

  /** Two tables with the same ids and the same row under each id are equal. */
  lemma SameRows(a: Store, b: Store)
    requires forall k :: k in a <==> k in b
    requires forall k :: k in a ==> a[k] == b[k]
    ensures a == b
  {
  }

  /** A rejected body leaves the table alone, and deleting an absent id does nothing. */
  lemma DeleteRejected(store: Store, body: Json, freshId: string, isUrl: string -> bool)
    requires freshId !in store && ValidateSong(body, isUrl).Failure?
    ensures DeleteSong(CreateSong(store, Success(body), freshId, isUrl).store, freshId).store == store
  {
    assert CreateSong(store, Success(body), freshId, isUrl).store == store;
    assert store - {freshId} == store;
  }

  /** What a fetch returns after a create is the body's own values, trimmed: every
      column holds exactly the cleaned member of the request body. */
  lemma FetchedIsCleanedBody(store: Store, body: Json, freshId: string, isUrl: string -> bool, f: Field)
    requires freshId !in store && ValidateSong(body, isUrl).Success? && f != Root
    ensures var fetched := GetSong(CreateSong(store, Success(body), freshId, isUrl).store, freshId);
      fetched.status == 200 && Value(fetched.body.song.fields, f) == Cleaned(Lookup(body.fields, Key(f)))
  {
  }
}
