# Gallery upload service, modelled in Dafny

The service keeps an in-memory list of gallery records. `POST /api/gallery`
takes one uploaded file plus optional `name` and `message` text fields. Once
the upload middleware has accepted the request, the handler answers 400
`{error: "No file uploaded"}` when no file arrived. When one did, it builds a
record `{id, type, src, name, message}`, pushes it onto the list and echoes it. `GET /api/gallery` returns the list as it stands. The upload middleware
stores each file under the name `<clock-ms>-<original name>`.

The model has two modules:

- `JsText` (js_text.dfy) holds the JavaScript string behaviour the handlers rely on:
  `startsWith`, the decimal rendering of a millisecond count when it is
  concatenated with a string, and `||` on a field that is `undefined` or a
  string. It also holds the inverse of the decimal rendering, used for the
  round-trip proofs.
- `Gallery` (gallery.dfy) holds the records, the stored-file name rule, record
  construction, and the list. The list is the class `Store`: a `seq<Item>`
  field that `Post` reassigns, a `List` method, and the pure `PostOutcome`
  that specifies one POST. `AfterPosts` folds `PostOutcome` over a run of
  requests, for the properties that relate several POSTs.

Every `Date.now()` reading is a parameter. `now` is the reading for `id`
(server.js:45). `clock` is the separate reading the upload middleware takes
for the file name (server.js:19). The two need not be equal.

`id` is a `Date.now()` reading, so two POSTs in the same millisecond get equal
ids. No uniqueness is claimed.

## Model

| member | source | states |
|---|---|---|
| `JsText.StartsWith` | server.js:46 | `s.startsWith(p)` holds exactly when `p` is no longer than `s` and equals `s`'s first `|p|` characters (stated against the slice definition) |
| `JsText.Decimal` | server.js:19 | the millisecond count becomes a non-empty string of decimal digits that starts with `0` only for the number zero |
| `JsText.DecimalRoundTrip` | server.js:19 | reading the rendered digits back in base ten gives the original number |
| `JsText.DecimalInjective` | server.js:19 | different clock readings never render to the same digits |
| `JsText.FirstIndexOf` | server.js:19 | not a model of source code: the search used by the inverse of the name rule (see `Gallery.StoredFilenameRoundTrip`); the index found holds the searched character and no earlier index does; the index is `|s|` only when the character is absent |
| `JsText.Or` | server.js:48-49 | `v \|\| d` gives the field when it is a non-empty string, and `d` when it is `undefined` or `""` |
| `Gallery.MediaType.Label` | server.js:46 | a record's `type` string is `"image"` or `"video"` and nothing else, and it is `"image"` exactly for `Image` |
| `Gallery.Response.Status` | server.js:40-53 | a response with a record answers 200; an error response answers its own status |
| `Gallery.StoredFilename` | server.js:19 | the stored name is the decimal clock reading, then `-`, then the original name, so it ends with `"-" + originalname` |
| `Gallery.ParseStoredFilename` | server.js:19 | not a model of source code: the inverse of the name rule, used by `Gallery.StoredFilenameRoundTrip`; a stored name is split only at a dash that is present in it |
| `Gallery.StoredFilenameRoundTrip` | server.js:19 | splitting a stored name at its first dash gives back the clock reading and the original name, even when the original name contains dashes |
| `Gallery.StoredFilenameInjective` | server.js:19 | two uploads get the same stored name only with the same clock reading and the same original name |
| `Gallery.Received` | server.js:18-20 | the file the middleware hands on keeps its original name and mimetype, its stored name is exactly `StoredFilename(clock, originalname)`, and that name decodes to the clock reading and the original name |
| `Gallery.Classify` | server.js:46 | `Image` exactly when the mimetype starts with `image/`; `Video` in every other case |
| `Gallery.BuildItem` | server.js:44-50 | `id` is the clock reading; `type` is `"image"` iff the mimetype starts with `image/`, else `"video"`; `src` is `/uploads/` then the stored name; a non-empty `name`/`message` is kept, and a missing or empty one becomes `"Anonymous"`/`""` |
| `Gallery.BuildItemWellFormed` | server.js:44-50 | every built record has a `src` under `/uploads/` and a non-empty `name` |
| `Gallery.SrcEndsWithOriginalName` | server.js:47 | for a file the middleware stored, `src` ends with `-` and the original file name (the name rule of server.js:19 seen through the record) |
| `Gallery.PostOutcome` | server.js:39-54 | without a file: 400, `"No file uploaded"`, list unchanged; with one: 200, the built record, and the list is the old list with that record appended at the end |
| `Gallery.AfterPostsCount` | server.js:52 | after a run of POSTs the list has grown by exactly the number that carried a file |
| `Gallery.AfterPostsKeepsPrefix` | server.js:52 | records already in the list keep their positions and values through any run of POSTs |
| `Gallery.AfterPostsWellFormed` | server.js:44-52 | a list of well-formed records stays well formed through any run of POSTs |
| `Gallery.FreshStoreAfterUploads` | server.js:31-54 | N POSTs that all carry a file, into the initially empty list, leave exactly N records |
| `Gallery.Store.constructor` | server.js:31 | the list starts empty (and is trivially well formed) |
| `Gallery.Store.List` | server.js:34-36 | GET returns the stored list exactly, in insertion order, and changes nothing |
| `Gallery.Store.Post` | server.js:39-54 | the response and the new list are those `PostOutcome` gives for the old list; the list stays well formed |
| `Gallery.RunPosts` | server.js:39-54 | a run of POSTs on one store leaves exactly the list `AfterPosts` gives for the old list, and keeps the store well formed |
| `Gallery.UploadsThenList` | server.js:31-54 | N POSTs that all carry a file on a fresh store, then GET, return exactly N well-formed records, the fold of those POSTs over `[]` |
| `Gallery.FreshStoreListsEmpty` | server.js:31-36 | GET on a fresh store returns `[]` |
| `Gallery.UploadCatScenario` | server.js:39-54 | POST of `cat.jpg` as `image/jpeg` with name Alice and message hi answers 200 with an image record from Alice saying hi; the list then holds exactly that record |
| `Gallery.NoFileScenario` | server.js:40-42 | POST without a file answers 400 `"No file uploaded"` and the list stays empty |

## Left out

- Express routing, static file serving (server.js:26-28), `express.json()`, `app.listen` and the `PORT` variable (server.js:57-60): HTTP and process plumbing.
- Creating the uploads directory (server.js:8-11) and multer's disk write and destination (server.js:14-17, 23): filesystem I/O. Only the file-name string rule is modelled.
- Rejections by the upload middleware before the handler runs (server.js:39, `upload.single('file')`): a file part under another field name, a second `file` part, or a failed disk write raise an error that Express answers with status 500, and nothing is appended. Gallery.Store.Post models only the handler, once the middleware has accepted zero or one `file` part.
- Strings are modelled as sequences of Unicode scalar values, not UTF-16 code units: `|s|` is not JavaScript's `.length`, and strings holding lone surrogates cannot be represented.
- `Date.now()` as a clock: every reading is a parameter. Uniqueness of `id` is not claimed, because two POSTs in the same millisecond get the same id.
- JsText.Decimal: renders every natural number in plain decimal. JavaScript uses exponent notation from 10^21 ms on, and a clock before 1970 would give a negative number. Neither occurs for real clock readings, so the model uses `nat`.
- Gallery.Body: each text field is `undefined` or one string. A field sent several times, which multer delivers as an array, is not modelled.
- JSON serialisation of the record and of the error body: a library call.
- Interleaving of concurrent requests on the shared list: runtime scheduling. POSTs are modelled one after another.
- No bucket or database backend is modelled.
