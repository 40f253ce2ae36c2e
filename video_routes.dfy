/** The `/videos` routes (Backend/src/routes/videoRoutes.js), all behind
    `authMiddleware`: upload, list, get, delete and reprocess. The file
    multer stores is an entry of `Database.files`; the processing run an
    upload or a reprocess starts without awaiting it is recorded by
    `VideoProcessor.Submit`, or skipped when no processor is registered
    with the application (`registered`). */
module VideoRoutes {
  import opened Wrappers
  import opened JsText
  import opened Models
  import opened Store
  import opened Http
  import opened Access
  import opened Middleware
  import opened Processor

  /** `req.file` as multer fills it. */
  datatype UploadedFile = UploadedFile(filename: string, originalName: string, path: string,
                                       mimeType: string, size: nat)

  datatype VideoPayload =
    | Uploaded(id: string, video: VideoRecord)
    | VideoList(count: nat, entries: seq<(string, VideoRecord)>)
    | VideoDetail(id: string, video: VideoRecord)
    | ValidationFailed(error: ValidationError)

  const NoFile: string := "No video file uploaded"
  const TitleRequired: string := "Title is required"
  const Deleted: string := "Video deleted successfully"
  const ReprocessStarted: string := "Video reprocessing started"

  // --------------------------------------------------------------- upload

  /** What an upload leaves behind: the reply, the record created (stored
      under the new id), and whether the uploaded file was deleted. */
  datatype UploadOutcome = UploadOutcome(reply: Reply<VideoPayload>, created: Option<VideoRecord>, unlinked: bool)

  /** `POST /videos/upload`: the role check, then multer, then the
      handler. `Video.create` trims the title, so a title of spaces passes
      the handler's own check and fails validation: 500, file deleted. */
  function Upload(user: Principal, newId: string, file: Option<UploadedFile>,
                  title: Option<string>, description: Option<string>): (r: UploadOutcome)
    ensures user.role !in ManagerRoles ==> r == UploadOutcome(JsonMessage(403, InsufficientRole), None, false)
    ensures user.role in ManagerRoles && file.None? ==> r == UploadOutcome(JsonMessage(400, NoFile), None, false)
    ensures user.role in ManagerRoles && file.Some? && !Truthy(title)
            ==> r == UploadOutcome(JsonMessage(400, TitleRequired), None, true)
    ensures r.created.Some? <==>
      && user.role in ManagerRoles && file.Some? && Truthy(title)
      && NewVideo(title.value, Describe(description), file.value.filename, file.value.originalName,
                  file.value.path, file.value.mimeType, file.value.size, user.userId, user.tenantId).Success?
    ensures r.created.Some? ==>
      var v := r.created.value;
      && v.status == Pending && v.sensitivityStatus == Unknown && v.processingProgress == 0 && v.views == 0
      && v.uploadedBy == user.userId && v.tenantId == user.tenantId
      && v.title == Trim(title.value) && v.description == Trim(Describe(description))
      && v.filename == file.value.filename && v.originalName == file.value.originalName
      && v.filepath == file.value.path && v.mimeType == file.value.mimeType && v.size == file.value.size
      && v.duration == None && v.thumbnail == ""
      && r.reply == Reply(201, map[], Payload(Uploaded(newId, v)))
    ensures user.role in ManagerRoles && file.Some? && Truthy(title) && r.created.None? ==>
      var c := NewVideo(title.value, Describe(description), file.value.filename, file.value.originalName,
                        file.value.path, file.value.mimeType, file.value.size, user.userId, user.tenantId);
      r.reply == Reply(500, map[], Payload(ValidationFailed(c.error)))
    ensures r.unlinked <==> user.role in ManagerRoles && file.Some? && r.created.None?
  {
    var denied := RequireRoles<VideoPayload>(Some(user), ManagerRoles);
    if denied.Some? then UploadOutcome(denied.value, None, false)
    else if file.None? then UploadOutcome(JsonMessage(400, NoFile), None, false)
    else if !Truthy(title) then UploadOutcome(JsonMessage(400, TitleRequired), None, true)
    else Create(user, newId, file.value, title.value, description)
  }

  /** Lines 29-61 once the checks passed: `Video.create`, answered 201 with
      the record, or 500 with the validation error and the file deleted. */
  function Create(user: Principal, newId: string, f: UploadedFile, title: string,
                  description: Option<string>): (r: UploadOutcome)
    ensures var c := NewVideo(title, Describe(description), f.filename, f.originalName, f.path,
                              f.mimeType, f.size, user.userId, user.tenantId);
      && r.created == (if c.Success? then Some(c.value) else None)
      && r.reply == (if c.Success? then Reply(201, map[], Payload(Uploaded(newId, c.value)))
                     else Reply(500, map[], Payload(ValidationFailed(c.error))))
    ensures r.unlinked <==> r.created.None?
  {
    var created := NewVideo(title, Describe(description), f.filename, f.originalName, f.path,
                            f.mimeType, f.size, user.userId, user.tenantId);
    if created.Failure? then UploadOutcome(Reply(500, map[], Payload(ValidationFailed(created.error))), None, true)
    else UploadOutcome(Reply(201, map[], Payload(Uploaded(newId, created.value))), Some(created.value), false)
  }

  /** `description || ""`. */
  function Describe(description: Option<string>): string
  {
    if Truthy(description) then description.value else ""
  }

  /** The handler of `POST /videos/upload` on the store. `newId` is the
      `_id` Mongo assigns; multer has written the file before the handler
      runs. */
  method HandleUpload(db: Database, processor: VideoProcessor, registered: bool, user: Principal, newId: string,
                      file: Option<UploadedFile>, title: Option<string>, description: Option<string>)
    returns (reply: Reply<VideoPayload>)
    requires newId !in db.videos
    requires file.Some? ==> file.value.path in db.files
    modifies db`videos, db`files, processor`submitted
    ensures var r := Upload(user, newId, file, title, description);
      && reply == r.reply
      && db.videos == (if r.created.Some? then old(db.videos)[newId := r.created.value] else old(db.videos))
      && db.files == (if r.unlinked then old(db.files) - {file.value.path} else old(db.files))
      && processor.submitted == old(processor.submitted) + (if registered && r.created.Some? then [newId] else [])
  {
    if user.role !in ManagerRoles {
      return JsonMessage(403, InsufficientRole);
    }
    if file.None? {
      return JsonMessage(400, NoFile);
    }
    if !Truthy(title) {
      db.Unlink(file.value.path);
      return JsonMessage(400, TitleRequired);
    }
    reply := CreateAndAdmit(db, processor, registered, user, newId, file.value, title.value, description);
  }

  /** The handler from `Video.create` on, proved against `Create`. */
  method CreateAndAdmit(db: Database, processor: VideoProcessor, registered: bool, user: Principal,
                        newId: string, f: UploadedFile, title: string, description: Option<string>)
    returns (reply: Reply<VideoPayload>)
    requires newId !in db.videos
    requires f.path in db.files
    modifies db`videos, db`files, processor`submitted
    ensures reply == Create(user, newId, f, title, description).reply
    ensures var created := Create(user, newId, f, title, description).created;
      db.videos == if created.Some? then old(db.videos)[newId := created.value] else old(db.videos)
    ensures db.files == if Create(user, newId, f, title, description).unlinked then old(db.files) - {f.path}
                        else old(db.files)
    ensures processor.submitted == old(processor.submitted)
      + (if registered && Create(user, newId, f, title, description).created.Some? then [newId] else [])
  {
    var created := NewVideo(title, Describe(description), f.filename, f.originalName, f.path,
                            f.mimeType, f.size, user.userId, user.tenantId);
    ghost var r := Create(user, newId, f, title, description);
    if created.Failure? {
      assert r == UploadOutcome(Reply(500, map[], Payload(ValidationFailed(created.error))), None, true);
      db.Unlink(f.path);
      return Reply(500, map[], Payload(ValidationFailed(created.error)));
    }
    assert r == UploadOutcome(Reply(201, map[], Payload(Uploaded(newId, created.value))), Some(created.value), false);
    Admit(db, processor, registered, newId, created.value);
    reply := Reply(201, map[], Payload(Uploaded(newId, created.value)));
  }

  /** Lines 29-50 once validation passed: store the record, then start
      its processing run without waiting for it. */
  method Admit(db: Database, processor: VideoProcessor, registered: bool, newId: string, v: VideoRecord)
    requires newId !in db.videos
    modifies db`videos, processor`submitted
    ensures db.videos == old(db.videos)[newId := v]
    ensures processor.submitted == old(processor.submitted) + (if registered then [newId] else [])
  {
    db.InsertVideo(newId, v);
    if registered {
      processor.Submit(newId);
    }
  }

  // ----------------------------------------------------------------- list

  /** The filter of `GET /videos`: the caller's tenant always, `status`
      and `sensitivityStatus` when given, the caller's id for a viewer. */
  datatype ListQuery = ListQuery(tenantId: string, status: Option<string>, sensitivityStatus: Option<string>,
                                 uploadedBy: Option<string>)

  /** The query the handler builds. */
  function QueryFor(user: Principal, status: Option<string>, sensitivityStatus: Option<string>): (q: ListQuery)
    ensures q.tenantId == user.tenantId
    ensures q.status == (if Truthy(status) then status else None)
    ensures q.sensitivityStatus == (if Truthy(sensitivityStatus) then sensitivityStatus else None)
    ensures q.uploadedBy.Some? <==> user.role == Viewer
    ensures q.uploadedBy.Some? ==> q.uploadedBy.value == user.userId
  {
    ListQuery(user.tenantId, if Truthy(status) then status else None,
              if Truthy(sensitivityStatus) then sensitivityStatus else None,
              if user.role == Viewer then Some(user.userId) else None)
  }

  /** Lines 82-96: start from the tenant and add each filter in turn. */
  method BuildQuery(user: Principal, status: Option<string>, sensitivityStatus: Option<string>) returns (q: ListQuery)
    ensures q == QueryFor(user, status, sensitivityStatus)
  {
    q := ListQuery(user.tenantId, None, None, None);
    if Truthy(status) {
      q := q.(status := status);
    }
    if Truthy(sensitivityStatus) {
      q := q.(sensitivityStatus := sensitivityStatus);
    }
    if user.role == Viewer {
      q := q.(uploadedBy := Some(user.userId));
    }
  }

  /** Whether `Video.find(q)` selects a record: equality on each path set. */
  predicate Matches(v: VideoRecord, q: ListQuery)
    ensures Matches(v, q) ==> v.tenantId == q.tenantId
    ensures q.status.None? && q.sensitivityStatus.None? && q.uploadedBy.None?
            ==> (Matches(v, q) <==> v.tenantId == q.tenantId)
  {
    && v.tenantId == q.tenantId
    && (q.status.Some? ==> StatusName(v.status) == q.status.value)
    && (q.sensitivityStatus.Some? ==> SensitivityName(v.sensitivityStatus) == q.sensitivityStatus.value)
    && (q.uploadedBy.Some? ==> v.uploadedBy == q.uploadedBy.value)
  }

  /** `xs` is `ys` with some elements left out and the rest in order. */
  predicate SubsequenceOf(xs: seq<string>, ys: seq<string>)
    decreases |ys|
  {
    if xs == [] then true
    else if ys == [] then false
    else (xs[0] == ys[0] && SubsequenceOf(xs[1..], ys[1..])) || SubsequenceOf(xs, ys[1..])
  }

  /** No id occurs twice. */
  predicate Distinct(xs: seq<string>)
  {
    forall i, j :: 0 <= i < j < |xs| ==> xs[i] != xs[j]
  }

  /** The ids in `order` whose records match, in that order. */
  function Select(videos: map<string, VideoRecord>, q: ListQuery, order: seq<string>): (ids: seq<string>)
    ensures |ids| <= |order|
    ensures forall id :: id in ids <==> id in order && id in videos && Matches(videos[id], q)
    ensures SubsequenceOf(ids, order)
    ensures Distinct(order) ==> Distinct(ids)
  {
    if order == [] then []
    else
      var rest := Select(videos, q, order[1..]);
      if order[0] in videos && Matches(videos[order[0]], q) then
        assert ([order[0]] + rest)[1..] == rest;
        assert Distinct(order) ==> order[0] !in order[1..];
        [order[0]] + rest
      else rest
  }

  /** `GET /videos`. `order` is the store's order for the requested
      `sort`: every stored id once, so every record is listed at most
      once. */
  function List(videos: map<string, VideoRecord>, user: Principal, status: Option<string>,
                sensitivityStatus: Option<string>, order: seq<string>): (r: Reply<VideoPayload>)
    ensures r.status == 200 && r.body.Payload? && r.body.value.VideoList?
    ensures r.body.value.count == |r.body.value.entries|
    ensures forall k :: 0 <= k < |r.body.value.entries| ==>
      var e := r.body.value.entries[k];
      e.0 in videos && e.1 == videos[e.0] && Matches(e.1, QueryFor(user, status, sensitivityStatus))
    ensures forall id ::
              (exists k :: 0 <= k < |r.body.value.entries| && r.body.value.entries[k].0 == id)
              <==> id in order && id in videos && Matches(videos[id], QueryFor(user, status, sensitivityStatus))
    ensures SubsequenceOf(IdsOf(r.body.value.entries), order)
    ensures Distinct(order) ==> Distinct(IdsOf(r.body.value.entries))
  {
    var ids := Select(videos, QueryFor(user, status, sensitivityStatus), order);
    var entries := seq(|ids|, k requires 0 <= k < |ids| => (ids[k], videos[ids[k]]));
    assert IdsOf(entries) == ids;
    Reply(200, map[], Payload(VideoList(|entries|, entries)))
  }

  /** The ids of listed entries, in order. */
  function IdsOf(entries: seq<(string, VideoRecord)>): (ids: seq<string>)
    ensures |ids| == |entries| && forall k :: 0 <= k < |entries| ==> ids[k] == entries[k].0
  {
    seq(|entries|, k requires 0 <= k < |entries| => entries[k].0)
  }

  /** The list shows exactly what the caller may read that passes the
      filters: nothing across tenants, nothing of others to a viewer. */
  lemma ListShowsWhatCallerMayView(videos: map<string, VideoRecord>, user: Principal, order: seq<string>, id: string)
    requires forall k :: k in videos ==> k in order
    ensures var r := List(videos, user, None, None, order);
      (exists k :: 0 <= k < |r.body.value.entries| && r.body.value.entries[k].0 == id)
      <==> id in videos && CanView(videos[id], user)
  {
    var r := List(videos, user, None, None, order);
    var q := QueryFor(user, None, None);
    var ids := Select(videos, q, order);
    assert forall k :: 0 <= k < |ids| ==> r.body.value.entries[k].0 == ids[k];
    if id in videos && CanView(videos[id], user) {
      assert Matches(videos[id], q);
      var k :| 0 <= k < |ids| && ids[k] == id;
      assert r.body.value.entries[k].0 == id;
    }
  }

  // ------------------------------------------------------------------ get

  /** `GET /videos/:id`: the read gates with `uploadedBy` populated from
      `users`, then the record. */
  function GetVideo(videos: map<string, VideoRecord>, users: seq<User>, id: string, user: Principal): (r: Reply<VideoPayload>)
    ensures var video := Lookup(videos, id);
      var gate := ViewGate<VideoPayload>(video, user, video.Some? && FindUserById(users, video.value.uploadedBy).Some?);
      && (gate.Some? ==> r == gate.value)
      && (gate.None? ==> r == Reply(200, map[], Payload(VideoDetail(id, videos[id]))))
    ensures r.status == 200 ==> id in videos && CanView(videos[id], user)
  {
    var video := Lookup(videos, id);
    var gate := ViewGate<VideoPayload>(video, user, video.Some? && FindUserById(users, video.value.uploadedBy).Some?);
    if gate.Some? then gate.value else Reply(200, map[], Payload(VideoDetail(id, videos[id])))
  }

  // --------------------------------------------------------------- delete

  /** `DELETE /videos/:id`: the role check and the manage gates; once
      they pass, the file is removed if present and then the record. */
  function Delete(videos: map<string, VideoRecord>, user: Principal, id: string): (r: (Reply<VideoPayload>, bool))
    ensures r.1 <==> user.role in ManagerRoles && id in videos && CanManage(videos[id], user)
    ensures r.1 ==> r.0 == JsonMessage(200, Deleted)
    ensures user.role !in ManagerRoles ==> r.0 == JsonMessage(403, InsufficientRole)
    ensures user.role in ManagerRoles ==> (!r.1 <==> ManageGate<VideoPayload>(Lookup(videos, id), user, "delete").Some?)
    ensures user.role in ManagerRoles && !r.1 ==> r.0 == ManageGate<VideoPayload>(Lookup(videos, id), user, "delete").value
  {
    var denied := RequireRoles<VideoPayload>(Some(user), ManagerRoles);
    if denied.Some? then (denied.value, false)
    else
      var gate := ManageGate<VideoPayload>(Lookup(videos, id), user, "delete");
      if gate.Some? then (gate.value, false) else (JsonMessage(200, Deleted), true)
  }

  method HandleDelete(db: Database, user: Principal, id: string) returns (reply: Reply<VideoPayload>)
    modifies db`videos, db`files
    ensures var r := Delete(old(db.videos), user, id);
      && reply == r.0
      && db.videos == (if r.1 then old(db.videos) - {id} else old(db.videos))
      && db.files == (if r.1 then old(db.files) - {old(db.videos)[id].filepath} else old(db.files))
  {
    if user.role !in ManagerRoles {
      return JsonMessage(403, InsufficientRole);
    }
    if id !in db.videos {
      return JsonMessage(404, VideoNotFound);
    }
    var video := db.videos[id];
    if video.tenantId != user.tenantId {
      return JsonMessage(403, AccessDenied);
    }
    if user.role == Editor && video.uploadedBy != user.userId {
      return JsonMessage(403, OwnOnlyMessage("delete"));
    }
    if video.filepath in db.files {
      db.Unlink(video.filepath);
    }
    db.DeleteVideo(id);
    reply := JsonMessage(200, Deleted);
  }

  /** An admin deletes any video of their tenant, an editor only their own. */
  lemma DeleteByRole(videos: map<string, VideoRecord>, user: Principal, id: string)
    requires id in videos
    ensures user.role == Admin ==> (Delete(videos, user, id).1 <==> videos[id].tenantId == user.tenantId)
    ensures user.role == Editor ==>
      (Delete(videos, user, id).1 <==> videos[id].tenantId == user.tenantId && videos[id].uploadedBy == user.userId)
    ensures user.role == Viewer ==> !Delete(videos, user, id).1
  {
    ManageByRole(videos[id], user);
  }

  // ------------------------------------------------------------ reprocess

  /** `POST /videos/:id/reprocess`: the role check and the manage gates;
      once they pass the record goes back to `pending` at 0 and a run is
      started, whatever state it was in. */
  function Reprocess(videos: map<string, VideoRecord>, user: Principal, id: string): (r: (Reply<VideoPayload>, bool))
    ensures r.1 <==> user.role in ManagerRoles && id in videos && CanManage(videos[id], user)
    ensures r.1 ==> r.0 == JsonMessage(200, ReprocessStarted)
    ensures user.role !in ManagerRoles ==> r.0 == JsonMessage(403, InsufficientRole)
    ensures user.role in ManagerRoles && !r.1 ==> r.0 == ManageGate<VideoPayload>(Lookup(videos, id), user, "reprocess").value
  {
    var denied := RequireRoles<VideoPayload>(Some(user), ManagerRoles);
    if denied.Some? then (denied.value, false)
    else
      var gate := ManageGate<VideoPayload>(Lookup(videos, id), user, "reprocess");
      if gate.Some? then (gate.value, false) else (JsonMessage(200, ReprocessStarted), true)
  }

  /** The reset a reprocess writes; classification and duration stay. */
  const ResetPatch: VideoPatch := StatusPatch(Pending, 0)

  method HandleReprocess(db: Database, processor: VideoProcessor, registered: bool, user: Principal, id: string)
    returns (reply: Reply<VideoPayload>)
    modifies db`videos, processor`submitted
    ensures var r := Reprocess(old(db.videos), user, id);
      && reply == r.0
      && db.videos == (if r.1 then old(db.videos)[id := ApplyPatch(old(db.videos)[id], ResetPatch)] else old(db.videos))
      && processor.submitted == old(processor.submitted) + (if registered && r.1 then [id] else [])
  {
    if user.role !in ManagerRoles {
      return JsonMessage(403, InsufficientRole);
    }
    if id !in db.videos {
      return JsonMessage(404, VideoNotFound);
    }
    var video := db.videos[id];
    if video.tenantId != user.tenantId {
      return JsonMessage(403, AccessDenied);
    }
    if user.role == Editor && video.uploadedBy != user.userId {
      return JsonMessage(403, OwnOnlyMessage("reprocess"));
    }
    db.FindByIdAndUpdate(id, ResetPatch);
    if registered {
      processor.Submit(id);
    }
    reply := JsonMessage(200, ReprocessStarted);
  }

  /** Reprocessing does not look at the current state: a video being
      processed or already completed is reset like a failed one, and the
      reset keeps every path but `status` and `processingProgress`. */
  lemma ReprocessIgnoresStatus(videos: map<string, VideoRecord>, user: Principal, id: string, s: Status, p: int)
    requires id in videos
    ensures var other := videos[id := videos[id].(status := s, processingProgress := p)];
      Reprocess(other, user, id) == Reprocess(videos, user, id)
    ensures var w := ApplyPatch(videos[id], ResetPatch);
      w == videos[id].(status := Pending, processingProgress := 0)
  {
  }
}
