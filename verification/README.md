# ksda song catalogue — a Dafny model

The ksda catalogue stores hymns and praise songs in a `songs` table and serves them through
two servers. The first is a Hono application (`api/routes/songs.ts`, validated by the zod schema
in `api/validation.ts`), which lists, fetches, creates, updates and deletes songs behind a
bearer-token gate. The second is a raw Cloudflare worker in two versions, `api/index.ts` and
`api/index.js`. A React frontend (`frontend/src/...`) lists songs, shows one song, plays
their videos, and adds or edits a song through a form.

This project models that core as pure Dafny functions over immutable data:

- the table is a `map` from id to row (`Catalog.Store`);
- a handler is a function from the table and a request to an `Outcome`, which holds the
  response and the table it leaves;
- the zod schema is a function from a parsed JSON value to either the stored row or the list
  of field issues.

The frontend is modelled as the values its components compute:

- the YouTube id extractor (a regular expression), the link check of the form, and the tag
  normalisation;
- the JSON body the form sends;
- the paths the pages fetch from and link to;
- the toast list.

Lemmas state the promises that connect these parts:

- round trips: create then get, create then delete, and the edit form's tags;
- invariants: rows stay under their own ids, and a write that is not authorised changes nothing;
- route agreement between the frontend, the Hono application and the workers;
- the places where the pieces disagree.

The project has one module per source file:

| module | file |
|---|---|
| `SongRoutes` | `songs.ts`, its routes |
| `ListQuery` | `songs.ts`, its list statement |
| `Validation` | `validation.ts` |
| `Worker` | `index.ts` |
| `WorkerJs` | `index.js` |
| `ApiRoutes` | `apiRoutes.ts` |
| `SongList` | `SongList.tsx` |
| `SongDetails` | `SongDetails.tsx` |
| `SongCard` | `SongCard.tsx` |
| `AudioLibrary` | `AudioLibrary.tsx` |
| `Toasts` | `ToastProvider.tsx` |
| `AddSong`, `Tags` and `LinkPattern` | `AddSong.tsx` |
| `YouTube` | the id extractor that three pages share |

`Strings`, `Catalog`, `Wrappers` and `Seqs` hold the JavaScript string operations, the shared
entities and the option, result and subsequence helpers.

The model has five parameters:

- `crypto.randomUUID()` and the database's own id are the parameter `freshId`;
- zod's URL check is the parameter `isUrl`;
- running the list statement is the parameter `runQuery`;
- the raw workers' `LIMIT 20` scan is the parameter `scan`, which holds every stored row once;
- `localStorage`'s secret is the parameter `secret`.

Behaviours of the code that the model keeps as written:

- `GET /songs` binds the default limit `'9'` and offset `'0'` and orders by `created_at DESC`.
- Limit and offset are passed through `parseInt` unclamped. A negative offset and a
  non-numeric value (NaN) are bound as they are.
- The Hono `DELETE` answers 200 even when no row was deleted.
- No route adds CORS headers.
- The raw workers check no credentials at all.
- The raw workers serve items under `/api/songs/<id>`, while the frontend's item path is
  `/api/song/<id>`.

## Model

| member | source | states |
|---|---|---|
| SongRoutes.Authorize | api/routes/songs.ts:7-17 | a request is admitted exactly when a secret is configured and the header is `Bearer ` followed by that secret |
| SongRoutes.GetSong | api/routes/songs.ts:83-96 | 200 with the row exactly when the id is stored, else the 404 `Song not found` error |
| SongRoutes.Commit | api/routes/songs.ts:110-118 | storing a row puts exactly that row under the id and leaves every other row and id as it was |
| SongRoutes.CreateSong | api/routes/songs.ts:99-128 | an unreadable body is a 500 and a rejected one a 400 with the issues, and neither touches the table; a valid one adds exactly the validated row under the fresh id and returns it with 201 |
| SongRoutes.UpdateSong | api/routes/songs.ts:131-184 | the error cases leave the table unchanged (unreadable 500, invalid 400, absent id 404); otherwise the row is replaced wholesale by the validated row, the others are kept, and the answer is 200 with the new row |
| SongRoutes.DeleteSong | api/routes/songs.ts:187-200 | always 200 with the success message; afterwards the id is absent and every other row is unchanged |
| SongRoutes.SongIdParam | api/routes/songs.ts:83 | `/song/:id` matches exactly the paths `/song/` followed by a non-empty segment without `/`, and yields that segment |
| SongRoutes.Serve | api/routes/songs.ts:40-200 | a write without the right token is a 401 that leaves the table unchanged; only an admitted write changes the table |
| SongRoutes.ServeKeepsKeys | api/routes/songs.ts:110-118 | whatever request is served, every row stays stored under its own id |
| SongRoutes.CreateKeepsKeys | api/routes/songs.ts:110-118 | creation keeps every row under its own id |
| SongRoutes.UpdateKeepsKeys | api/routes/songs.ts:160-169 | update keeps every row under its own id |
| SongRoutes.CreateThenGet | api/routes/songs.ts:110-122 | a created song is then fetched under its new id with the validated fields |
| SongRoutes.DeleteThenGet | api/routes/songs.ts:187-191 | after a delete, getting the same id is a 404 |
| SongRoutes.UpdateClearsOmitted | api/routes/songs.ts:143-169 | a successful update leaves NULL in every field the body omitted |
| SongRoutes.CreateThenDelete | api/routes/songs.ts:110-118 | deleting the fresh id right after a create restores the table, whether or not the body was valid |
| SongRoutes.DeleteCreated | api/routes/songs.ts:110-118 | a valid create adds exactly one row, which deleting it removes |
| SongRoutes.DeleteRejected | api/routes/songs.ts:102-106 | a rejected body adds nothing, so deleting the fresh id changes nothing |
| SongRoutes.FetchedIsCleanedBody | api/routes/songs.ts:102-122 | every column of a created row holds the body's member for it, trimmed when it is a string |
| ListQuery.BuildListQuery | api/routes/songs.ts:45-73 | the statement has exactly one `?` per bound value; it binds `%search%` twice first, then the language, then the category, each only when given, and ends with the parsed limit and offset |
| ListQuery.FilterParamsOrder | api/routes/songs.ts:51-64 | the filter values in order: `%search%` twice, then the language, then the category, each only when given |
| ListQuery.ListTextFrame | api/routes/songs.ts:47-70 | the text starts with `SELECT * FROM songs` and ends with `ORDER BY created_at DESC LIMIT ? OFFSET ?` |
| ListQuery.ListTextWhere | api/routes/songs.ts:66-68 | the text has a WHERE part exactly when one of search, language and category is given |
| ListQuery.WhereClause | api/routes/songs.ts:66-68 | empty without conditions; otherwise it starts with ` WHERE ` |
| ListQuery.ConditionsOrder | api/routes/songs.ts:51-64 | one condition per given filter: the search first, then the language, then the category last |
| ListQuery.WhereSplitsBack | api/routes/songs.ts:66-67 | the text after ` WHERE ` splits at ` AND ` back into exactly the conditions, in order |
| ListQuery.ListTextConditions | api/routes/songs.ts:47-70 | between the `SELECT` and ` WHERE ` prefix and the ordering suffix, the text splits at ` AND ` into exactly the conditions of the given filters, in order |
| ListQuery.ConditionsCount | api/routes/songs.ts:51-64 | the conditions carry exactly one `?` per filter value |
| ListQuery.TextDependsOnlyOnShape | api/routes/songs.ts:47-70 | two requests giving the same filters produce the same text, so no request value is spliced into the SQL |
| ListQuery.LimitNotClamped | api/routes/songs.ts:71 | any run of digits given as limit is bound as its full decimal value |
| ListQuery.NegativeOffsetKept | api/routes/songs.ts:71 | `-` before digits given as offset is bound as the negative value |
| ListQuery.PagingDefaults | api/routes/songs.ts:45 | an absent limit binds 9 and an absent offset 0; an empty one binds NaN |
| Validation.CheckField | api/validation.ts:4-16 | each schema entry passes exactly when its member is acceptable for that field, and yields the cleaned (trimmed) value |
| Validation.IssuesOf | api/validation.ts:3-17 | the issues flag exactly the listed fields that fail |
| Validation.ValidateSong | api/validation.ts:3-17 | a non-object is rejected at the root; an object succeeds exactly when every field is acceptable, and its row holds each cleaned member |
| Validation.NoIssuesIffAccepted | api/validation.ts:3-17 | the schema reports no issue exactly when every field is acceptable |
| Validation.CleanedIdempotent | api/validation.ts:4-16 | cleaning a cleaned value changes nothing |
| Validation.ValidateIdempotent | api/validation.ts:3-17 | re-validating the JSON of a validated row succeeds with the same row |
| Validation.AcceptedTitleTrimmed | api/validation.ts:4 | an accepted body is stored with its title trimmed |
| Validation.FieldRejected | api/validation.ts:3-17 | a body with one unacceptable field is rejected, and that field is flagged |
| Validation.BlankTitleRejected | api/validation.ts:4 | an empty or whitespace-only title is rejected and flagged |
| Validation.NullArtistRejected | api/validation.ts:5 | a `null` artist is rejected: `optional()` admits an absent member but not `null` |
| Validation.NullTextRejected | api/validation.ts:5-16 | `null` for any text field is rejected and flagged |
| Validation.NonPositiveDurationRejected | api/validation.ts:14 | a zero or negative duration is rejected and flagged |
| Validation.DurationRejected | api/validation.ts:14 | a present duration that is not a positive whole number, `null` included, is rejected and flagged |
| Validation.ValidatedIsClean | api/validation.ts:4-16 | every string a successful validation keeps is trimmed; the title is non-empty; a duration is a positive integer |
| Worker.Dispatch | api/index.ts:26-118 | the branch chosen is characterised by method and path alone: POST to `/api/songs` creates; PUT and DELETE under `/api/songs/` update and delete; other methods list or get; any other path says hello |
| Worker.CreateRow | api/index.ts:26-47 | an unreadable body is a 400 with its message and the table is kept; otherwise exactly one row is added under the fresh id with every inserted column from the body and no `audio_link`, answered 201 |
| Worker.UpdateRow | api/index.ts:50-79 | an empty last segment is a 400 and an unreadable body a 400; an absent row is a 404; each leaves the table unchanged; otherwise the twelve columns are replaced, `audio_link` is kept, other rows are unchanged, 200 |
| Worker.DeleteRow | api/index.ts:81-103 | an empty last segment is a 400 and an absent row a 404, and neither changes the table; otherwise exactly that row is removed, 200 |
| Worker.ListRows | api/index.ts:105-108 | at most twenty rows, each the projection of the scanned row at the same position |
| Worker.ScanSize | api/index.ts:105-108 | a scan of the table has exactly one row per stored song |
| Worker.ListedAreStored | api/index.ts:105-108 | every listed row is the projection of the stored song with its id, and no id is listed twice |
| Worker.ListedCount | api/index.ts:105-108 | the listing holds twenty rows, or the whole table when it is smaller, and then every stored song is listed |
| Worker.GetRow | api/index.ts:110-116 | 200 with the row exactly when the last segment is a stored id, else the plain-text 404 |
| Worker.Fetch | api/index.ts:22-119 | the fallback answers hello and the list and get routes answer from the table, all leaving it unchanged; only create, update and delete can change it |
| Worker.SongPathId | api/index.ts:52 | the last segment of `/api/songs/<id>` is `id` when it has no `/` |
| Worker.TrailingSlashNoId | api/index.ts:52-55 | a path ending in `/` has an empty id |
| Worker.MissingIdRejected | api/index.ts:50-55 | PUT or DELETE on a path ending in `/` is the 400 `Song ID missing`, with the table unchanged |
| Worker.UpdateIsUnguarded | api/index.ts:50-71 | any request can update a stored row: there is no authorisation |
| Worker.CreateThenGet | api/index.ts:26-116 | a row inserted by POST is then served whole by GET on its id: the posted columns, and no `audio_link` |
| Worker.DeleteThenGet | api/index.ts:81-116 | a row deleted by DELETE is then a 404 |
| WorkerJs.DispatchJs | api/index.js:4-15 | the exact path always lists, the prefix always gets one row, and every other path says hello |
| WorkerJs.NoCreate | api/index.js:4-15 | the insert branch is unreachable for every method and path |
| WorkerJs.PostIsListed | api/index.js:4-7 | a POST to `/api/songs` is answered with the listing |
| WorkerJs.FetchJs | api/index.js:2-33 | listing on the exact path, one row under the prefix, and hello elsewhere |
| WorkerJs.ReadsAgree | api/index.js:2-33 | for methods other than POST, PUT and DELETE, the JavaScript and TypeScript workers answer alike and leave the table unchanged |
| ApiRoutes.Song | frontend/src/utils/apiRoutes.ts:5 | the item path is `/api/song/` followed by the id verbatim |
| ApiRoutes.Literals | frontend/src/utils/apiRoutes.ts:1-6 | the collection, item and login paths are `/api/songs`, `/api/song/` and `/api/login` |
| ApiRoutes.SongInjective | frontend/src/utils/apiRoutes.ts:5 | distinct ids give distinct item paths |
| ApiRoutes.SongIsNotSongs | frontend/src/utils/apiRoutes.ts:4-5 | no item path is the collection path |
| ApiRoutes.SongMatchesMountedRoute | frontend/src/utils/apiRoutes.ts:5 | under the `/api` mount the item path matches the Hono `/song/:id` route with the same id, for a one-segment id |
| ApiRoutes.SongsMatchesMountedRoute | frontend/src/utils/apiRoutes.ts:4 | the collection path reaches the Hono `/songs` route and, for POST, the raw worker's insert branch |
| ApiRoutes.WorkerMissesSongPath | frontend/src/utils/apiRoutes.ts:5 | the raw worker answers every item path of the frontend with its fallback |
| YouTube.ExtractId | frontend/src/components/SongList.tsx:17-20 | empty when no marker matches; otherwise the `&`-free run right after the leftmost `youtu.be/` or `v=` |
| YouTube.ExtractAt | frontend/src/components/SongList.tsx:17-20 | the id is the `&`-free run after the leftmost marker |
| YouTube.WatchLink | frontend/src/components/SongList.tsx:18 | a `watch?v=` link yields its parameter value up to the next `&` |
| YouTube.ShortLink | frontend/src/components/SongList.tsx:18 | a `https://youtu.be/` link yields its path up to the next `&` |
| YouTube.ExampleWatchLink | frontend/src/components/SongList.test.tsx:12 | the test link yields the id `dQw4w9WgXcQ` |
| YouTube.EmbedSrc | frontend/src/components/SongList.tsx:39 | the embed URL is the player prefix followed by the extracted id |
| SongList.DetailPath | frontend/src/components/SongList.tsx:28 | a song's page is `/songs/` followed by its id |
| SongList.DetailPathInjective | frontend/src/components/SongList.tsx:28 | distinct songs link to distinct pages |
| SongList.LyricsPreview | frontend/src/components/SongList.tsx:49 | missing or empty lyrics show the notice; otherwise the first 200 characters followed by `...` |
| SongList.ShortLyricsWhole | frontend/src/components/SongList.tsx:49 | lyrics of at most 200 characters are shown whole, followed by `...` |
| SongList.Player | frontend/src/components/SongList.tsx:34-39 | a player only for a non-empty link, with the embed URL of its extracted id |
| SongList.RenderCard | frontend/src/components/SongList.tsx:24-58 | both links of a card lead to the song's page; the card shows the title, `by ` followed by the artist (nothing after it when there is none), the player and the preview |
| SongList.Render | frontend/src/components/SongList.tsx:24 | one card per song, in order |
| SongList.ExampleCard | frontend/src/components/SongList.test.tsx:9-12 | the first test song links to `/songs/1` and embeds `dQw4w9WgXcQ` |
| SongDetails.FetchPath | frontend/src/pages/SongDetails.tsx:19 | the page fetches `/api/songs/` followed by the route's id |
| SongDetails.LyricsPath | frontend/src/pages/SongDetails.tsx:52 | the lyrics link is the song's page followed by `/lyrics` |
| SongDetails.Player | frontend/src/pages/SongDetails.tsx:35-39 | a player only for a non-empty link, with the same embed URL as the list |
| SongDetails.FetchReachesWorker | frontend/src/pages/SongDetails.tsx:19 | the raw worker answers the page's fetch with its one-row route, looking up exactly the id |
| SongDetails.SlashedIdLost | frontend/src/pages/SongDetails.tsx:19 | an id containing `/` is not the one the worker looks up |
| SongDetails.FetchMissesHonoRoute | frontend/src/pages/SongDetails.tsx:19 | under the `/api` mount the Hono application has no GET route for the page's fetch path |
| SongCard.CardId | frontend/src/components/SongCard.tsx:12 | no id without a link or without `v=`; otherwise at most eleven characters of the text between the first `v=` and the next |
| SongCard.CardIdIsSegment | frontend/src/components/SongCard.tsx:12 | the id is the first eleven characters of that text |
| SongCard.PlayerSrc | frontend/src/components/SongCard.tsx:18-22 | a player exactly when the id is non-empty, with the embed URL of that id |
| SongCard.TrailingMarkerNoPlayer | frontend/src/components/SongCard.tsx:12-18 | a link ending in its first `v=` gives an empty id and no player |
| SongCard.WatchLinkCardId | frontend/src/components/SongCard.tsx:12 | a watch link with a short, `v`-free value gives that value as the card's id |
| SongCard.WatchLinkAgrees | frontend/src/components/SongCard.tsx:12 | for a watch link with a short value free of `v` and `&`, the card's id and the shared extractor's id agree |
| SongCard.ShortLinkDisagrees | frontend/src/components/SongCard.tsx:12 | for a short link the card finds no id while the shared extractor does |
| SongCard.AmpDisagrees | frontend/src/components/SongCard.tsx:12 | with a further `&` parameter the card keeps it in the id while the shared extractor stops at `&` |
| AudioLibrary.AudioSrc | frontend/src/pages/AudioLibrary.tsx:69 | the embed URL is the player prefix, the extracted id, then the fixed player options |
| AudioLibrary.NoMarkerEmptyId | frontend/src/pages/AudioLibrary.tsx:15-18 | a link without a marker still gets a player, with an empty id |
| AudioLibrary.Linked | frontend/src/pages/AudioLibrary.tsx:61 | exactly the songs with a non-empty link are kept |
| AudioLibrary.LinkedInOrder | frontend/src/pages/AudioLibrary.tsx:61 | the kept songs keep the fetched order |
| AudioLibrary.LinkedIdempotent | frontend/src/pages/AudioLibrary.tsx:61 | filtering twice is filtering once |
| AudioLibrary.LinkedOne | frontend/src/pages/AudioLibrary.tsx:61 | one song is kept exactly when it has a link |
| AudioLibrary.LinkedAppend | frontend/src/pages/AudioLibrary.tsx:61 | filtering two lists one after the other keeps what filtering each keeps, so every song keeps its multiplicity |
| AudioLibrary.Library | frontend/src/pages/AudioLibrary.tsx:55-61 | the notice shows exactly when no songs were fetched; otherwise one player per linked song, in order |
| AudioLibrary.UnlinkedSongsEmptyGrid | frontend/src/pages/AudioLibrary.tsx:55-61 | fetched songs without any link give an empty grid and no notice |
| Toasts.Show | frontend/src/components/ToastProvider.tsx:20-23 | one toast is appended with the fresh id, the message and the kind (`info` by default); the others are unchanged |
| Toasts.Remove | frontend/src/components/ToastProvider.tsx:25-27 | exactly the toasts with other ids remain |
| Toasts.RemoveInOrder | frontend/src/components/ToastProvider.tsx:26 | the remaining toasts keep their order |
| Toasts.RemoveAbsent | frontend/src/components/ToastProvider.tsx:26 | closing an id that is not shown changes nothing |
| Toasts.ShowThenRemove | frontend/src/components/ToastProvider.tsx:20-27 | closing a toast shown under an unused id restores the list |
| Toasts.RemoveIdempotent | frontend/src/components/ToastProvider.tsx:26 | closing twice is closing once |
| Toasts.ShowReusedId | frontend/src/components/ToastProvider.tsx:20-27 | a toast shown under a used id is closed together with the earlier one, and the list shrinks |
| Tags.CleanTokens | frontend/src/pages/AddSong.tsx:103 | the pieces trimmed, with the empty ones dropped, in order |
| Tags.Tokens | frontend/src/pages/AddSong.tsx:103 | the tokens are non-empty, trimmed and free of commas |
| Tags.NormalizeTags | frontend/src/pages/AddSong.tsx:103 | `null` exactly when no token is left; otherwise a non-empty string |
| Tags.NormalizeSplits | frontend/src/pages/AddSong.tsx:103 | the tags sent split back at `,` into exactly the tokens typed, in order |
| Tags.NormalizeIdempotent | frontend/src/pages/AddSong.tsx:103 | normalising the sent tags changes nothing |
| Tags.BlankTagsNull | frontend/src/pages/AddSong.tsx:103 | the tags are sent as `null` exactly when the input is only commas and whitespace |
| Tags.EditedTagsRoundTrip | frontend/src/pages/AddSong.tsx:44-103 | stored tokens shown joined with `", "` are sent back unchanged |
| LinkPattern.PatternAccepts | frontend/src/pages/AddSong.tsx:68 | every link of the form scheme, optional `www.`, host, `/` and a line-free rest matches |
| LinkPattern.PatternShape | frontend/src/pages/AddSong.tsx:68 | every matching link has that form |
| LinkPattern.MobileHostRejected | frontend/src/pages/AddSong.tsx:68 | `https://m.youtube.com/...` links are refused |
| AddSong.OrElse | frontend/src/pages/AddSong.tsx:36-47 | a NULL or empty column gives the fallback, any other value itself |
| AddSong.Leading | frontend/src/pages/AddSong.tsx:36-43 | title, artist, link, lyrics, composer and region are loaded from the row or empty, language and category fall back to `swahili` and `praise`; the other inputs keep their initial values |
| AddSong.DurationOf | frontend/src/pages/AddSong.tsx:45 | a NULL or zero duration loads as an empty input |
| AddSong.LoadAsWritten | frontend/src/pages/AddSong.tsx:36-54 | a non-empty stored tag string stops the load with the error notice after the category |
| AddSong.ShownTags | frontend/src/pages/AddSong.tsx:44 | the shown tags split at `", "` are the stored tags split at `,` |
| AddSong.Load | frontend/src/pages/AddSong.tsx:36-47 | the intended load fills every input from the row with the fallbacks of the code (`swahili`, `praise`, `active`, unchecked, empty), shows the stored tags so that they split back at `, ` into the stored pieces, and shows no notice |
| AddSong.TaggedSongLosesTags | frontend/src/pages/AddSong.tsx:44 | as written, a tagged song loads with the error notice and an empty tag input, so saving it sends `tags: null` |
| AddSong.FailedLoadSaveRefused | frontend/src/pages/AddSong.tsx:44-103 | the form left by the failed load sends `tags: null`, which the API schema refuses and flags |
| AddSong.LoadKeepsTags | frontend/src/pages/AddSong.tsx:44-103 | with the intended load, saving an unchanged form sends back the stored tags |
| AddSong.ValidateForm | frontend/src/pages/AddSong.tsx:58-83 | an error exactly for a blank title, for a non-empty link outside the pattern, and for a duration that is not a positive number |
| AddSong.OrNull | frontend/src/pages/AddSong.tsx:95-106 | empty text is sent as `null`, other text as typed |
| AddSong.TagsMember | frontend/src/pages/AddSong.tsx:103 | `null` exactly when only commas and blanks were typed; otherwise a non-empty string |
| AddSong.SongData | frontend/src/pages/AddSong.tsx:94-107 | the link is sent as typed, `''` included; the tags normalised; the duration `null` exactly when the input holds no number, else that number; the flag as is |
| AddSong.SongDataMembers | frontend/src/pages/AddSong.tsx:94-107 | each text member other than the link is `null` exactly when its input is empty |
| AddSong.BlankFieldRejected | frontend/src/pages/AddSong.tsx:94-107 | any text field other than the link that is left empty is sent as `null` and rejected by the API schema |
| AddSong.BlankTagsRejected | frontend/src/pages/AddSong.tsx:103 | blank tags are sent as `null` and rejected by the API schema |
| AddSong.DefaultFormRejected | frontend/src/pages/AddSong.tsx:11-22 | the initial form with only a title typed passes the form's checks but is rejected by the API |
| AddSong.BlankDurationRejected | frontend/src/pages/AddSong.tsx:104 | an empty duration is sent as `null` and rejected by the API schema |
| AddSong.FractionalDurationRejected | frontend/src/pages/AddSong.tsx:75-80 | a fractional duration passes the form but is rejected by the API, which wants an integer |
| AddSong.FilledFormAccepted | frontend/src/pages/AddSong.tsx:94-107 | a filled-in form with an integral duration and a URL link is accepted, and stored with its title trimmed |
| AddSong.Submit | frontend/src/pages/AddSong.tsx:85-127 | an invalid form sends nothing and a missing secret leads to login; otherwise the body goes with the bearer secret, by PUT to the item path when editing and by POST to the collection when adding |
| AddSong.EmptyFormRejected | frontend/src/pages/AddSong.tsx:61-63 | the initial form is refused for its empty title alone |
| AddSong.SubmitAuthorized | frontend/src/pages/AddSong.tsx:113-124 | the API admits the request exactly when the stored secret equals the server's |
| AddSong.EditReachesUpdateRoute | frontend/src/pages/AddSong.tsx:109-110 | an edit reaches the Hono update route for its id, and the raw worker's fallback |
| AddSong.AddReachesCreateRoute | frontend/src/pages/AddSong.tsx:109-110 | an addition reaches the Hono `/songs` route and the raw worker's insert branch |
| AddSong.Settle | frontend/src/pages/AddSong.tsx:129-154 | only a parsed 2xx answer changes the form (reset when adding) and navigates home; a parsed failure shows `Failed to update/add song:` with the reason; an exception shows `Error:` with its message or the generic text; the form is kept otherwise |
| AddSong.AnswerOf | frontend/src/pages/AddSong.tsx:129-149 | a plain-text body throws; otherwise success is a 2xx status and the reason is the body's `error`, or the status text when that is empty |
| AddSong.EditOnWorkerThrows | frontend/src/pages/AddSong.tsx:109-154 | an edit sent to the raw worker gets its plain-text fallback, so the page shows the parse error, keeps the form and the table is untouched |
| AddSong.AddedFormCleared | frontend/src/pages/AddSong.tsx:133-146 | after an addition the form is back at its initial state, which cannot be sent again as it is |
| Strings.Trim | api/validation.ts:4 | the result is trimmed, no longer than the input, and empty exactly when the input is all whitespace |
| Strings.TrimIdempotent | api/validation.ts:4 | trimming twice is trimming once |
| Strings.Split | api/index.ts:52 | there is at least one piece, and no piece contains the separator |
| Strings.JoinSplit | api/index.ts:52 | joining the pieces of a split with the separator gives back the input |
| Strings.SplitJoinMarked | api/routes/songs.ts:66-67 | joining pieces that lack the separator's second character and splitting again gives the pieces back |
| Strings.SplitLast | api/index.ts:52 | the last piece is the suffix after the last separator, or the whole input |
| Strings.LastSegment | api/index.ts:52 | the suffix after the last `/`, free of `/` |
| Strings.ParseDigits | api/routes/songs.ts:71 | `parseInt` reads a run of digits as its decimal value |
| Strings.ParseNegative | api/routes/songs.ts:71 | `parseInt` reads `-` and digits as the negated value |

## Left out

- Network I/O, JSON parsing and React rendering are not modelled. A body is given already
  parsed, or as the message of its parse error. A page is modelled as the values it shows.
- Timers and the toast's own auto-close (`Toast.tsx`) are not part of this model.
- The database engine is not modelled:
  - the Hono list statement is built exactly, but executing it is the parameter `runQuery`;
  - store failures (the `catch` branches) are modelled only for a body that cannot be read;
  - the raw workers' scan is a parameter that holds every stored row once, in an order the
    model leaves open.
- zod's `.url()` is the parameter `isUrl` and is not checked against the WHATWG URL grammar.
- Binding `undefined`: the raw worker binds the optional members missing from the body, and
  the Hono routes bind the validated row's absent members (`api/routes/songs.ts:115-118`,
  `166-169`). The model stores NULL for them in both servers and does not model a driver that
  refuses `undefined`. A body's `title` is always present in the model.
- Type affinity: the raw worker and the Hono routes store `is_featured` as given, and the model
  keeps the boolean.
- Worker.CreateRow: the body is the row the database would store for the twelve bound
  members, not the raw JSON (`{}`, a numeric title, a text duration). D1's binding of arbitrary
  JSON values and SQLite's type affinity are not modelled; a value that fails to bind is the
  body's error message.
- Worker.UpdateRow: the body is assumed schema-shaped in the same way as for Worker.CreateRow.
- SongList.LyricsPreview: the 200 are counted in characters, while JavaScript's `slice`
  counts UTF-16 code units. The two agree only when no character lies outside the Basic
  Multilingual Plane, so the cut can fall elsewhere (or inside a surrogate pair in JavaScript)
  for emoji. SongList.ShortLyricsWhole inherits that gap.
- SongCard.CardId: the 11 of `substring(0, 11)` are counted in characters, not UTF-16 code
  units, with the same gap. SongCard.CardIdIsSegment inherits it.
- SongRoutes.SongIdParam: Hono's percent-decoding of `:id` is not modelled; the id is the raw
  path segment.
- SongRoutes.Serve: Hono answers HEAD with the GET handlers; the model routes only the verb as
  given.
- Numbers are exact reals. Doubles beyond 2^53 and `Infinity` are not modelled, and `Number(x)`
  of a form input is either a real or NaN.
- SongDetails: the "Song not found." notice is not modelled. The worker answers a missing song
  with plain text, so `res.json()` rejects and the page stays on "Loading...". Rejected promises
  are not modelled.
- Loading notices and error banners that only reflect fetch progress are not modelled.
- Login (`/api/login`) appears only as a path; its page is not part of this model.
- The Hono `results || []` fallback is not modelled: `runQuery` always returns a sequence.
- Validation.ValidateSong: issues are reported per field with a problem kind, not with zod's
  exact message text or the shape of `flatten()`.

## Findings

| source | as written | input that shows it | evidently intended | confidence | as-written member | corrected member |
|---|---|---|---|---|---|---|
| frontend/src/pages/AddSong.tsx:44 | the stored `tags` column is a string, yet the load calls `data.tags.join(', ')` on it, which throws | editing a song whose `tags` column is `"praise,worship"` | show the stored tags joined with `", "` and load the rest of the song | not executed | AddSong.TaggedSongLosesTags | AddSong.LoadKeepsTags |

The `.join` call throws a TypeError. The load then stops after the category and shows the
failure notice. The tag input stays empty, so saving the form sends `tags: null`, which the
API schema refuses (`AddSong.FailedLoadSaveRefused`).
`AddSong.LoadAsWritten` models that path and `AddSong.Load` models the intended one.
