# Streaming backend: processing, streaming and access control in Dafny

This project models the core of the backend of a multi-tenant video
streaming application (an Express server over MongoDB and Socket.io).
It covers four parts:

- **The video processing service** (`VideoProcessor`). A run looks the
  video up and checks that its file exists. It then writes `processing`
  at 0 and walks five fixed stages that write and announce 20, 40, 60,
  80 and 100. It ends with a single `completed` update carrying a mock
  classification and a mock duration. Any rejected store call instead
  turns the run into `failed` at 0, reported to the uploader's room and
  the tenant's room.
- **Streaming** (`GET /stream/:id` and `GET /stream/:id/info`). An
  ordered series of gates is followed by one more view. Then the `Range`
  header is resolved into 200, 206 or 416, with `Content-Range` and
  `Content-Length` as in sections 2.1, 4.1, 4.2 and 4.4 of RFC 7233, or
  into 500 for a range Node.js refuses to read.
  The `/info` route reports whether the video can be streamed.
- **The video routes** (upload, list, get, delete, reprocess) with their
  tenant and role gates, the list query, and the records they create,
  reset or delete.
- **Authentication**: the two token middlewares, the role check,
  register, login, `/auth/me`, and the two Mongoose schemas with their
  enumerations, defaults, setters and required fields.

## How it is modelled

- **The store.** MongoDB and the upload directory are the class
  `Store.Database`:
  - `videos` is a map keyed by `_id`;
  - `users` is a sequence in insertion order;
  - `files` maps each path present on disk to its size.

  Each awaited Mongoose or `fs` call is one method with a field-level
  `modifies` frame.
- **The processor.** `Processor.VideoProcessor` is a class. It keeps the
  deliveries it has made in `emitted`, in order, and the runs the routes
  started without awaiting them in `submitted`.
- **Methods and specification functions.** Each stateful method is
  proved equal to a pure function of the old state, and the properties
  are lemmas about that function:
  - `ProcessVideo` against `Run`;
  - `StreamVideo` against `Stream` and `ViewsAfter`;
  - `HandleUpload` against `Upload`;
  - `HandleRegister` against `Register`;
  - the middlewares against `Authenticate`.
- **What the environment decides is a parameter.**
  - `random` is `Math.random()`.
  - `fault` names the awaited store call that rejects, and `errMsg` is
    its message.
  - `hasIo` says whether a Socket.io server exists, and `registered`
    whether the application holds a processor.
  - A run reads `Database.users` for `populate("uploadedBy")`: the
    uploader is null when no user has the record's `uploadedBy`.
  - `verify`, `sign`, `hash` and `compare` stand for JWT and bcrypt.
  - `newId` is the `_id` Mongo assigns.
  - `order` is the store's order for the requested `sort`.
- **JavaScript built-ins.**
  - `trim` uses the ECMAScript white-space set.
  - `split` on one character and `replace` of the first match are
    modelled as written.
  - `parseInt` is modelled as "leading digit prefix, else NaN" (`None`).
- **NaN comparisons.** A comparison with NaN is false. Because of this, a
  range with a NaN bound, or with its start after its end, is resolved
  to `Undetermined`. The handler passes it to `fs.createReadStream`,
  which throws before any header is set, and the error handler
  (Backend/src/server.js:102-107) answers 500 with the error's message,
  the parameter `streamError`. The view is already counted.

### Where the code differs from its documentation or the standard

- **Failure report.** A failed run reports progress 0, not the last
  progress reached.
- **Reprocess.** `reprocess` keeps `sensitivityStatus` and `duration`;
  only `status` and `processingProgress` are reset.
- **Write before a failure.** A run whose re-read after the final
  update rejects has already written its classification and duration
  before it is marked `failed`.
- **No mutual exclusion.** `processingQueue` is never written, so
  nothing keeps two runs of one video apart. The model claims no
  mutual exclusion.
- **Blank title or name.**
  - A title made only of spaces passes the upload handler's check,
    fails validation once trimmed, and ends in 500 with the file
    deleted.
  - A name made only of spaces fails registration the same way.
- **Empty Bearer token.** A header with two spaces after `Bearer`
  (`Bearer  x`) splits into an empty token and gives 401 "token missing",
  even when a cookie holds a valid token.
- **Self-chosen role.** Anyone can register with any role, `admin`
  included.
- **Ranges.**
  - A range ending at or beyond the file is refused with 416, where
    section 2.1 of RFC 7233 would shorten it.
  - A suffix range `bytes=-n` is never served: 416 when n reaches the
    size, 500 otherwise.
  - A reversed range such as `bytes=5-3` gets 500, not 416.
- **Deleted uploader.**
  - On `/stream/:id/info` and `GET /videos/:id`, a viewer whose video's
    uploader no longer exists gets a 500. The viewer test reads `_id` of
    the null that `populate` leaves.
  - With a Socket.io server, processing such a video never completes.
    Its first report reads `_id` of the same null and throws. The `catch`
    block then marks the video `failed` at 0 and reports the `TypeError`'s
    message, whether or not the file exists.

## Model

| member | source | states |
|---|---|---|
| Models.ParseRole | Backend/src/models/User.js:28-32 | a role parses exactly when it is one of `viewer`, `editor`, `admin`, and its name reads back |
| Models.RoleNameRoundTrip | Backend/src/models/User.js:28-32 | every role's name parses back to that role |
| Models.NewVideo | Backend/src/models/Video.js:7-74 | `Video.create` succeeds iff the trimmed title and every required string are non-empty; the record is well formed, `pending`/`unknown` at progress 0 with no views, no thumbnail and no duration, and carries the trimmed title and description and the given `filename`, `originalName`, `filepath`, `mimeType`, size, uploader and tenant |
| Models.NormalizeEmail | Backend/src/models/User.js:12-18 | the stored address has no surrounding spaces and no ASCII capital |
| Models.NormalizeEmailIdempotent | Backend/src/models/User.js:12-18 | normalizing a stored address again changes nothing, so a lookup that casts its filter finds it |
| Models.NewUser | Backend/src/models/User.js:7-32 | `User.create` succeeds iff name, normalized email, hash and tenant are non-empty and the role is in the enumeration; the user has the trimmed name, the normalized email, the given hash and the role given or `viewer` |
| JsText.Trim | Backend/src/models/Video.js:7-16 | `trim` removes exactly the leading and the trailing white space: the result is the input's infix from its first non-space character, with only spaces before and after it, starting and ending with a non-space, and empty exactly when the input is all spaces |
| JsText.TrimIdempotent | Backend/src/models/User.js:8-11 | trimming twice is trimming once |
| JsText.ToLower | Backend/src/services/videoProcessor.js:126 | `toLowerCase` maps each character and leaves no ASCII capital |
| JsText.ToLowerIdempotent | Backend/src/models/User.js:12-18 | lower-casing twice is lower-casing once |
| JsText.ToLowerKeepsSpaces | Backend/src/models/User.js:12-18 | lower-casing neither creates nor removes a space |
| JsText.Contains | Backend/src/services/videoProcessor.js:126 | `includes` holds iff the pattern occurs at some index |
| JsText.Split | Backend/src/routes/streamRoutes.js:61 | `split` on one character gives at least one part, no part holds the separator, and joining the parts gives the input back |
| JsText.SplitAfter | Backend/src/routes/streamRoutes.js:61 | splitting `a + sep + b` with no separator in `a` gives `a` followed by the parts of `b` |
| JsText.SplitNone | Backend/src/routes/streamRoutes.js:61 | a string without the separator splits into itself alone |
| JsText.ReplaceFirst | Backend/src/routes/streamRoutes.js:61 | nothing changes when the pattern is absent, and a leading match is replaced |
| JsText.ReplaceFirstAtFirstOccurrence | Backend/src/routes/streamRoutes.js:61 | `replace` puts the replacement in place of the first occurrence of the pattern, wherever it is, and keeps the text on both sides |
| JsText.ParseInt | Backend/src/routes/streamRoutes.js:62-63 | `parseInt` is NaN iff no digit follows the leading spaces and optional sign; otherwise the value is that of the leading digits, negated after a `-` |
| JsText.NatToString | Backend/src/routes/streamRoutes.js:68-80 | the decimal rendering is all digits, has no leading zero and reads back as the number |
| JsText.ParseIntOfRendered | Backend/src/routes/streamRoutes.js:62-63 | `parseInt` reads back a rendered number whatever non-digit text follows it |
| Store.ApplyPatch | Backend/src/services/videoProcessor.js:31-34 | an update sets the paths it names and leaves every other path of the record as it was |
| Store.PatchKeepsWellFormed | Backend/src/models/Video.js:51-56 | an update whose progress is within [0, 100] keeps a record well formed |
| Store.FindUserByEmail | Backend/src/routes/authRoutes.js:36 | `findOne({email})` finds nothing iff no user has the address, otherwise the first such user |
| Store.FindUserById | Backend/src/middleware/auth.js:21 | `findById` finds nothing iff no user has the id, otherwise a stored user with that id |
| Store.Database.FindByIdAndUpdate | Backend/src/routes/videoRoutes.js:227-230 | the record under the id is updated; an unknown id changes nothing |
| Store.Database.IncrementViews | Backend/src/routes/streamRoutes.js:57 | `$inc views` adds one view to the record and changes nothing else |
| Store.Database.InsertVideo | Backend/src/routes/videoRoutes.js:29-41 | the new record is stored under its fresh id |
| Store.Database.DeleteVideo | Backend/src/routes/videoRoutes.js:199 | the record is removed and no other |
| Store.Database.InsertUser | Backend/src/routes/authRoutes.js:42-48 | the new user is appended |
| Store.Database.Unlink | Backend/src/routes/videoRoutes.js:24 | the file is removed from the upload directory and no other |
| Processor.MockSensitivity | Backend/src/services/videoProcessor.js:117-131 | never `unknown`; `safe` when the lower-cased title contains "test"; otherwise `safe` iff the draw is above 0.2 |
| Processor.TestTitleAlwaysSafe | Backend/src/services/videoProcessor.js:126-128 | a title holding "test" in any mix of cases is classified safe whatever the draw |
| Processor.ToLowerAppend | Backend/src/services/videoProcessor.js:126 | lower-casing distributes over concatenation |
| Processor.MockDuration | Backend/src/services/videoProcessor.js:137-143 | the duration lies in [10, 3600], is the floor of size / 2 MiB inside the clamp, and is 10 or 3600 outside it |
| Processor.RoomsDiffer | Backend/src/services/videoProcessor.js:162-165 | the uploader's room and the tenant's room are different rooms |
| Processor.Deliveries | Backend/src/services/videoProcessor.js:148-165 | when `emitProgress` does not throw: nothing without a Socket.io server; otherwise one payload to `user:<uploader>` and the same payload to `tenant:<tenant>`, whose sensitivity is the argument when given and the record's otherwise |
| Processor.StagesDone | Backend/src/services/videoProcessor.js:80-90 | at most the five stages complete |
| Processor.StagesWritten | Backend/src/services/videoProcessor.js:80-90 | the stage writes stop at the rejected one, or after the first when its report throws |
| Processor.VideoProcessor.constructor | Backend/src/services/videoProcessor.js:11-14 | a new processor has an empty queue and has emitted nothing |
| Processor.VideoProcessor.Submit | Backend/src/routes/videoRoutes.js:44-50 | an unawaited `processVideo(id)` is recorded after the earlier ones |
| Processor.VideoProcessor.EmitProgress | Backend/src/services/videoProcessor.js:148-168 | with a Socket.io server and a null populated uploader the report throws and sends nothing; otherwise the deliveries are appended to what was emitted |
| Processor.VideoProcessor.RecoverFromError | Backend/src/services/videoProcessor.js:51-60 | the `catch` block writes `failed`/0 and reports the re-read record at 0 with the error's message |
| Processor.Recover | Backend/src/services/videoProcessor.js:51-60 | the `catch` block leaves a stored record `failed` at 0 with every other path kept, and leaves a store without the record unchanged and silent |
| Processor.Run | Backend/src/services/videoProcessor.js:20-61 | a run never adds or removes a record, and a stored record always ends `completed` or `failed`, never `pending` or `processing` |
| Processor.RunFound | Backend/src/services/videoProcessor.js:30-49 | once the record is found it ends `completed` or `failed`, and `failed` whenever its file is missing |
| Processor.RunStarted | Backend/src/services/videoProcessor.js:41-60 | once the file is found the record ends `completed` or `failed` |
| Processor.Analyze | Backend/src/services/videoProcessor.js:71-111 | analysis keeps the set of records; it rejects exactly when a stage write, the final write or the re-read rejects, or a report reads a null uploader; otherwise the record is `completed` at 100 |
| Processor.VideoProcessor.ProcessVideo | Backend/src/services/videoProcessor.js:20-61 | the store and the deliveries after `processVideo` are those of `Run`, with the uploader populated from the stored users |
| Processor.VideoProcessor.StartAndAnalyze | Backend/src/services/videoProcessor.js:41-60 | from the `processing` update on, the store and deliveries are those of `RunStarted`, including the `catch` block run when the start report throws on a null uploader |
| Processor.VideoProcessor.AnalyzeThenRecover | Backend/src/services/videoProcessor.js:49-60 | `await this.analyzeVideo(video)` leaves the store and deliveries of `Analyze`, followed by the `catch` block when it throws |
| Processor.VideoProcessor.RunStages | Backend/src/services/videoProcessor.js:80-90 | the stage loop writes and announces each stage in order up to the first failing write, or stops after the first write when its report throws |
| Processor.VideoProcessor.AnalyzeVideo | Backend/src/services/videoProcessor.js:71-111 | the store, deliveries and rejection of `analyzeVideo` are those of `Analyze`, for a populated uploader that exists or not |
| Processor.VideoProcessor.GetQueueStatus | Backend/src/services/videoProcessor.js:180-185 | the size is the number of jobs, and the jobs are the queue's keys, each once |
| ProcessingProperties.TraceAppend | Backend/src/services/videoProcessor.js:148-165 | what a room receives from two batches of deliveries is what it receives from each, in order |
| ProcessingProperties.DeliveriesTrace | Backend/src/services/videoProcessor.js:161-165 | a subscribed room receives each report exactly once |
| ProcessingProperties.StageTrace | Backend/src/services/videoProcessor.js:80-90 | the first n stages are reported as 20, 40, ... processing, in order |
| ProcessingProperties.StageEventsSilent | Backend/src/services/videoProcessor.js:149 | the stages report nothing without a Socket.io server |
| ProcessingProperties.AnalyzeKeepsOwner | Backend/src/services/videoProcessor.js:71-111 | an analysis never changes the record's uploader or tenant, so its rooms stay the same |
| ProcessingProperties.StagesReachedTrace | Backend/src/services/videoProcessor.js:42-90 | the start report followed by the stages reached is the matching prefix of 0, 20, ..., 100 |
| ProcessingProperties.StartedFailureTrace | Backend/src/services/videoProcessor.js:42-60 | a run failing after its `processing` update reports the stages reached and then one `failed` at 0 |
| ProcessingProperties.StartedSuccessTrace | Backend/src/services/videoProcessor.js:42-108 | a run that completes reports 0, 20, 40, 60, 80, 100 processing and then 100 completed |
| ProcessingProperties.StartedTrace | Backend/src/services/videoProcessor.js:42-108 | once started, a run reports the success sequence, or a prefix of it followed by `failed` at 0 |
| ProcessingProperties.RunTrace | Backend/src/services/videoProcessor.js:20-111 | a subscriber sees 0, 20, 40, 60, 80, 100 processing then 100 completed; a failing run shows a prefix of that followed by one `failed` at 0, and a run whose uploader was deleted shows the `failed` report alone |
| ProcessingProperties.RunProgressNonDecreasing | Backend/src/services/videoProcessor.js:42-90 | the reported progress never decreases; the only drop is the final `failed` report at 0, which ends every run that a fault or a deleted uploader interrupts |
| ProcessingProperties.RunWithoutIoIsSilent | Backend/src/services/videoProcessor.js:149 | without a Socket.io server a run reports nothing, whatever happens |
| ProcessingProperties.MissingRecordUntouched | Backend/src/services/videoProcessor.js:22-27 | an unknown id leaves the store unchanged and reports nothing, whatever fails |
| ProcessingProperties.MissingFileFails | Backend/src/services/videoProcessor.js:30-37 | a missing file gives exactly one `failed`/0 update and one `failed` report at 0 per room; the record never enters `processing` |
| ProcessingProperties.CompletedRecord | Backend/src/services/videoProcessor.js:100-108 | a run without a fault writes exactly `completed`, the classification, 100 and the duration, leaves the thumbnail, and last reports `completed`/100 with the classification; with a Socket.io server and a deleted uploader it leaves the record `failed` at 0 instead |
| ProcessingProperties.FailedRecord | Backend/src/services/videoProcessor.js:51-60 | any fault after the lookup, or a first report on a deleted uploader, leaves the record `failed` at 0 with every other path unchanged (classification and duration too, unless the re-read failed) and last reports `failed`/0 with the rejected call's or the `TypeError`'s message |
| ProcessingProperties.DeletedUploaderFails | Backend/src/services/videoProcessor.js:22-60 | with a Socket.io server, a run whose uploader was deleted ends `failed` at 0 with every other path unchanged, and each room receives one `failed`/0 report with the `TypeError`'s message, whether the file exists or not |
| ProcessingProperties.PatchedAtTrans | Backend/src/services/videoProcessor.js:20-111 | two runs of updates confined to one record compose |
| ProcessingProperties.PatchOnePatched | Backend/src/services/videoProcessor.js:31-34 | one in-bounds update is confined to its record and its four paths |
| ProcessingProperties.RecoverPatched | Backend/src/services/videoProcessor.js:53-56 | the `catch` block touches only the record's status and progress |
| ProcessingProperties.AnalyzePatched | Backend/src/services/videoProcessor.js:85-105 | the analysis touches only the record's four processing paths |
| ProcessingProperties.StartedPatched | Backend/src/services/videoProcessor.js:42-60 | a started run touches only the record's four processing paths |
| ProcessingProperties.RunPatchesOnly | Backend/src/services/videoProcessor.js:20-111 | a run adds and removes no record, leaves every other record as it was, and changes its own only in status, classification, progress and duration |
| ProcessingProperties.RunKeepsWellFormed | Backend/src/models/Video.js:51-56 | every stored record stays well formed across a run |
| Access.ViewGate | Backend/src/routes/videoRoutes.js:134-146 | 404 for an unknown id, 403 across tenants, 500 for a viewer whose populated uploader is gone, 403 for a viewer who is not the uploader; passes iff the caller may view |
| Access.ManageGate | Backend/src/routes/videoRoutes.js:179-191 | 404 for an unknown id, 403 across tenants, 403 "only ... your own videos" for an editor who is not the uploader; passes iff the caller may manage |
| Access.ManageByRole | Backend/src/routes/videoRoutes.js:188-191 | an admin manages every video of the tenant, an editor exactly their own |
| Access.GatesKeepTenants | Backend/src/routes/streamRoutes.js:27-30 | no gate lets anyone across a tenant boundary |
| Access.Lookup | Backend/src/routes/streamRoutes.js:21 | `findById` finds a record iff the id is stored |
| Middleware.BearerToken | Backend/src/middleware/auth.js:10-11 | a token is taken iff the header is non-empty and starts with `Bearer `; it holds no space |
| Middleware.BearerTokenOfHeader | Backend/src/middleware/auth.js:10-11 | `Bearer <t>` yields `t`, whatever space-separated text follows |
| Middleware.BearerTakesPrecedence | Backend/src/middleware/streamAuth.js:15-25 | a Bearer header wins over the query parameter and the cookie in both middlewares |
| Middleware.EmptyBearerShadowsCookie | Backend/src/middleware/auth.js:10-18 | `Bearer  x` (two spaces) splits into an empty token and ends in 401 "token missing" although the cookie holds a token |
| Middleware.NonBearerFallsThrough | Backend/src/middleware/streamAuth.js:15-24 | a header that is not a Bearer header falls through to the query parameter, then the cookie |
| Middleware.PrincipalOf | Backend/src/middleware/auth.js:25-31 | the principal carries the stored user's id, email, name, role and tenant |
| Middleware.Authenticate | Backend/src/middleware/auth.js:16-37 | 401 "token missing" without a token, 401 "invalid" when verification throws, 401 "user not found" for an unknown id; authenticated iff all three pass, as the stored user |
| Middleware.AuthMiddleware | Backend/src/middleware/auth.js:4-38 | the verdict is `Authenticate` of the Bearer token, else the cookie |
| Middleware.AuthToken | Backend/src/middleware/auth.js:8-14 | the token is the Bearer header's whenever the header starts with `Bearer `, else a non-empty cookie, never the query parameter; none iff neither is present |
| Middleware.StreamToken | Backend/src/middleware/streamAuth.js:12-25 | the token is the Bearer header's, else a non-empty query parameter, else a non-empty cookie; none iff none is present; without a query token it is the token `authMiddleware` picks |
| Middleware.StreamAuthMiddleware | Backend/src/middleware/streamAuth.js:8-52 | the verdict is `Authenticate` of the Bearer token, else the query parameter, else the cookie |
| Middleware.RequireRoles | Backend/src/middleware/auth.js:40-50 | 401 without a principal, 403 for a role not allowed, `next` iff the role is allowed |
| Middleware.ViewerCannotManage | Backend/src/routes/videoRoutes.js:14 | a viewer is refused 403 by the role check of upload, delete and reprocess |
| Streaming.RangeBounds | Backend/src/routes/streamRoutes.js:61-63 | a parsed start is non-negative and a parsed end is at least -1 |
| Streaming.Resolve | Backend/src/routes/streamRoutes.js:59-83 | no header gives the whole file; 416 iff start or end is at or beyond the file size; 206 iff both bounds parse, are ordered and lie within the file, and then the range is what the header says |
| Streaming.RangeReply | Backend/src/routes/streamRoutes.js:66-111 | 200 with `Content-Length` the size; 206 with `Content-Range` and `Content-Length` last-first+1; 416 with `bytes */size` and no body; 500 with the stream error's message for a NaN or reversed range; `Accept-Ranges`, type and caching on 200 and 206 |
| Streaming.StreamGate | Backend/src/routes/streamRoutes.js:23-49 | 404, 403, 403, then 400 with status and progress for a video not completed, then 404 for a missing file; passes iff all hold |
| Streaming.ViewsAfter | Backend/src/routes/streamRoutes.js:57 | exactly one more view on the record once the gates pass, nothing else changes |
| Streaming.StreamVideo | Backend/src/routes/streamRoutes.js:16-114 | the reply and the store after `GET /stream/:id` are `Stream` and `ViewsAfter` |
| Streaming.Stream | Backend/src/routes/streamRoutes.js:16-114 | bytes (200 or 206) go only to a caller who may view a completed video whose file exists; 206 iff the gates pass and the range resolves to a partial range |
| Streaming.StreamInfo | Backend/src/routes/streamRoutes.js:120-169 | the read gates, and no 400; `available` iff completed and the file exists, `fileSize` 0 for a missing file, `streamUrl` `/stream/<id>` |
| Streaming.BoundsOfHeader | Backend/src/routes/streamRoutes.js:61-63 | `bytes=<p>-<q>` is read as `parseInt(p)` and `parseInt(q)`, or size-1 when `q` is empty |
| Streaming.ParseRendered | Backend/src/routes/streamRoutes.js:62-63 | a rendered position parses back and holds no dash |
| Streaming.ClosedRangeServed | Backend/src/routes/streamRoutes.js:73-83 | `bytes=a-b` with a <= b < size is served as exactly those bytes |
| Streaming.OpenRangeServed | Backend/src/routes/streamRoutes.js:63 | `bytes=a-` with a < size runs to the last byte |
| Streaming.RangeBeyondFileRefused | Backend/src/routes/streamRoutes.js:66-71 | a range starting or ending at or beyond the file is refused with 416 |
| Streaming.SuffixRangeNotServed | Backend/src/routes/streamRoutes.js:61-73 | `bytes=-n` is never a 206; it is 416 iff n reaches the file size, and 500 otherwise |
| Streaming.ReversedRangeFails | Backend/src/routes/streamRoutes.js:61-73 | `bytes=a-b` with b < a inside the file is not refused with 416 but answered 500 |
| Streaming.SuffixBounds | Backend/src/routes/streamRoutes.js:61-63 | `bytes=-n` reads as a NaN start and the end n |
| Streaming.ParseEmpty | Backend/src/routes/streamRoutes.js:62 | `parseInt("")` is NaN |
| Streaming.PartialWithinFile | Backend/src/routes/streamRoutes.js:73 | a 206 claims between 1 and size bytes |
| Streaming.RefusedRangeCountsView | Backend/src/routes/streamRoutes.js:57-71 | a 416 still counts a view |
| Streaming.FailedRangeCountsView | Backend/src/routes/streamRoutes.js:57-111 | a 500 from the stream route comes only from an unresolvable range, after the gates passed and the view was counted |
| Streaming.InfoAgreesWithStream | Backend/src/routes/streamRoutes.js:120-169 | for a caller who may view, `/info` answers 200 and says available exactly when the stream route passes its gates, while the stream route answers 400 for a video not completed |
| VideoRoutes.Upload | Backend/src/routes/videoRoutes.js:14-74 | 403 for a viewer, 400 without a file, 400 without a title after deleting the file; a record is created iff validation passes, `pending`/`unknown` with the caller's id and tenant, the trimmed title, the description or "", multer's `filename`, `originalName`, `path`, `mimetype` and size, no duration and no thumbnail, answered 201; otherwise 500 with the validation error; the file is deleted iff no record is created |
| VideoRoutes.Create | Backend/src/routes/videoRoutes.js:29-73 | once the checks pass, the record created is the one `NewVideo` builds from the file and the caller, answered 201, or none with 500 and the validation error; the file is deleted exactly when no record is created |
| VideoRoutes.HandleUpload | Backend/src/routes/videoRoutes.js:14-74 | the reply, store and upload directory after an upload are those `Upload` decides; a run is submitted iff a record is created and a processor is registered |
| VideoRoutes.CreateAndAdmit | Backend/src/routes/videoRoutes.js:29-73 | the handler from `Video.create` on stores or deletes as `Create` decides, and submits a run iff it stores and a processor is registered |
| VideoRoutes.Admit | Backend/src/routes/videoRoutes.js:29-50 | the record is stored, and its run is submitted iff a processor is registered |
| VideoRoutes.QueryFor | Backend/src/routes/videoRoutes.js:82-96 | the query pins the caller's tenant, adds status and sensitivity only when given, and pins the uploader to the caller iff the caller is a viewer |
| VideoRoutes.Matches | Backend/src/routes/videoRoutes.js:98 | `Video.find(query)` selects only records of the query's tenant, and without filters every record of that tenant |
| VideoRoutes.BuildQuery | Backend/src/routes/videoRoutes.js:82-96 | the query built field by field is `QueryFor` |
| VideoRoutes.Select | Backend/src/routes/videoRoutes.js:98-101 | the selected ids are exactly the stored ids in the order that match the query, kept in the order's sequence, and distinct when the order holds each id once |
| VideoRoutes.List | Backend/src/routes/videoRoutes.js:77-125 | 200 with `count` the number of entries; each entry is a stored record matching the query, every matching stored record is listed, the entries follow the store's order, and no record is listed twice when the order holds each id once |
| VideoRoutes.ListShowsWhatCallerMayView | Backend/src/routes/videoRoutes.js:82-101 | without filters, the list holds a video iff the caller may view it |
| VideoRoutes.GetVideo | Backend/src/routes/videoRoutes.js:128-172 | the read gates with the uploader populated, then 200 with the record; a 200 only for a caller who may view |
| VideoRoutes.Delete | Backend/src/routes/videoRoutes.js:175-205 | 403 for a viewer, then the manage gates; deleted iff the caller may manage the stored video, answered "Video deleted successfully" |
| VideoRoutes.HandleDelete | Backend/src/routes/videoRoutes.js:175-205 | once allowed, the file is removed if present and the record is removed; nothing changes otherwise |
| VideoRoutes.DeleteByRole | Backend/src/routes/videoRoutes.js:188-191 | an admin deletes any video of the tenant, an editor only their own, a viewer none |
| VideoRoutes.Reprocess | Backend/src/routes/videoRoutes.js:208-244 | 403 for a viewer, then the manage gates; started iff the caller may manage the stored video |
| VideoRoutes.HandleReprocess | Backend/src/routes/videoRoutes.js:208-244 | once allowed, the record is reset to `pending`/0; a run is submitted iff allowed and a processor is registered; nothing changes otherwise |
| VideoRoutes.ReprocessIgnoresStatus | Backend/src/routes/videoRoutes.js:226-230 | the decision does not depend on the current status or progress, and the reset keeps every other path |
| AuthRoutes.ViewOf | Backend/src/routes/authRoutes.js:53-59 | the user object holds the id, name, email, role and tenant, and no password hash |
| AuthRoutes.Register | Backend/src/routes/authRoutes.js:28-65 | 400 unless all four fields are present, 409 for an address already stored; a user is created iff validation passes, with the hash only, the role given or `viewer`, answered 201 with the user object and a token; 500 exactly on a validation failure |
| AuthRoutes.HandleRegister | Backend/src/routes/authRoutes.js:28-65 | the reply and the user table after registration are those `Register` decides |
| AuthRoutes.Login | Backend/src/routes/authRoutes.js:68-100 | 400 without email or password; 200 with the user object and a token iff a user has the normalized address and the password matches, otherwise 401 "Invalid credentials" |
| AuthRoutes.Me | Backend/src/routes/authRoutes.js:103-114 | 200 echoing name, email, role and tenant of the principal, and no id |
| AuthRoutes.MeIntended | Backend/src/routes/authRoutes.js:103-114 | `/auth/me` reading the principal's `userId` returns that id |
| AuthRoutes.RegisterKeepsEmailsUnique | Backend/src/models/User.js:12-18 | registration keeps stored addresses unique |
| AuthRoutes.RegisteredUserCanLogIn | Backend/src/routes/authRoutes.js:36-96 | whoever registers logs in with the same password and any address that normalizes alike, and gets the same user object |
| AuthRoutes.LoginFailuresAlike | Backend/src/routes/authRoutes.js:75-83 | an unknown address and a wrong password get the same 401 |
| AuthRoutes.IssuedTokenAuthenticates | Backend/src/routes/authRoutes.js:16-25 | a token issued for a stored user authenticates as that user, when verification recovers the signed claims |
| AuthRoutes.TokenCarriesClaimsOnly | Backend/src/routes/authRoutes.js:16-25 | `createToken` signs the user's id, role and tenant only: users that agree on those get the same token |
| AuthRoutes.FirstUserWithId | Backend/src/middleware/auth.js:21 | `findById` returns the first user with the id |
| AuthRoutes.MeLosesSessionId | Backend/src/routes/authRoutes.js:107 | as written, `/auth/me` never returns the user object login returned |
| AuthRoutes.MeIntendedMatchesSession | Backend/src/routes/authRoutes.js:107 | reading `userId`, `/auth/me` returns exactly the user object login returned |

## Left out

- **Thumbnails and ffmpeg.** `Backend/src/utils/thumbnailGenerator.js` and `Backend/src/utils/ffmpegHelper.js` are not part of this model. They run shell tools, and the processor does not call them.
- **Server wiring.** `Backend/src/server.js` (Express, Socket.io, Mongo and the environment) is not part of this model. Its room-join rule is the assumption behind `Subscribes`, and its error handler's 500 with the error's message is taken as the answer to a rejected `create`.
- **Timing and logging.** `sleep(2000)`, timestamps (`createdAt`, `updatedAt`, `timestamp`) and console logging are left out; they change nothing observable in the store or the replies.
- **Size formatting.** The `sizeMB` virtual and `toFixed(2)` are left out: they are floating-point formatting of `size`.
- **Byte transfer.** Piping the bytes, stream `error` events and `fs.statSync` are left out. The reply names the bytes; the file's presence and size are `Database.files`.
- **Libraries as parameters.** bcrypt, `jwt.sign` and `jwt.verify` are the parameters `hash`, `compare`, `sign` and `verify`. Token expiry is part of `verify`.
- **Multer.** Its configuration (destination, filters, limits) is left out. `HandleUpload` assumes the file multer wrote is present.
- **Mongoose populate and sort.**
  - `populate` is modelled as whether the uploader still exists: the gates of `GET /videos/:id` and `/stream/:id/info`, and the run's reports, which read `_id` of the null it leaves.
  - `sort` is the input `order`.
  - The reply entries carry the stored record, not its populated form.
- **Query casting.** Mongoose's casting of query values other than the `email` setters is left out. Request fields are strings or absent.
- **Store errors in routes.** A rejected Mongo call inside a route handler, which Express would answer with 500, is left out. Only the processor models rejected store calls (`Fault`).
- Processor.Fault: at most one store call rejects per run, and never one inside the `catch` block. A rejected `failed` write or re-read there (Backend/src/services/videoProcessor.js:53-58) would end the run with no failed write and no report, so ProcessingProperties.FailedRecord and ProcessingProperties.DeletedUploaderFails hold under this assumption only.
- **Concurrency.** Two runs of one video, or a run racing a route, are not modelled. Runs are sequential, and `submitted` only records which runs were started.
- **Failed run with no record.** When both the run and the re-read of a failed run find no record, `emitProgress(null, ...)` throws inside the `catch` block. The model records no report and ignores the rejected promise, which the routes only log.
- **Frontend.** The Frontend files are UI and network client code and are left out.
- JsText.ToLower: covers ASCII letters only, where `toLowerCase` maps every Unicode capital; so Models.NormalizeEmail stores an address such as `É@x.com` unchanged where Mongoose would store `é@x.com`.
- Streaming.RangeReply: the 500 for a NaN or reversed range carries Node.js's error message as the parameter `streamError`; its wording is not modelled.
- Processor.VideoProcessor.constructor: does not model the `io` object itself, only whether it is present (`hasIo`).

## Findings

| source | as written | input that shows it | evidently intended | confidence | as-written member | corrected member |
|---|---|---|---|---|---|---|
| Backend/src/routes/authRoutes.js:107 | `id: user._id`, but `req.user` built at Backend/src/middleware/auth.js:25-31 has `userId` and no `_id` | any authenticated `GET /auth/me`: the reply's `user.id` is absent, while login returned the user's id | `id: user.userId`, so `/auth/me` returns the same user object as login | high (not executed) | AuthRoutes.MeLosesSessionId | AuthRoutes.MeIntendedMatchesSession |
