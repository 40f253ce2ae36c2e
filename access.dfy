/** The authenticated caller and the per-video access gates repeated in
    Backend/src/routes/videoRoutes.js and Backend/src/routes/streamRoutes.js. */
module Access {
  import opened Wrappers
  import opened Models
  import opened Http

  /** `req.user` as both authentication middlewares build it. */
  datatype Principal = Principal(userId: string, email: string, name: string, role: Role, tenantId: string)

  const VideoNotFound: string := "Video not found"
  const AccessDenied: string := "Access denied"

  /** Who may read a video: someone of its tenant, and a viewer only for
      a video they uploaded. */
  predicate CanView(v: VideoRecord, user: Principal)
  {
    v.tenantId == user.tenantId && (user.role == Viewer ==> v.uploadedBy == user.userId)
  }

  /** Who may delete or reprocess a video: someone of its tenant, and an
      editor only for a video they uploaded. */
  predicate CanManage(v: VideoRecord, user: Principal)
  {
    v.tenantId == user.tenantId && (user.role == Editor ==> v.uploadedBy == user.userId)
  }

  /** The read gates, in order: 404 for an unknown id, 403 across tenants,
      403 for a viewer who is not the uploader. `uploaderFound` is false
      only when the route populated `uploadedBy` and that user is gone: the
      viewer test then reads `_id` of null and the request ends in 500. */
  function ViewGate<P>(video: Option<VideoRecord>, user: Principal, uploaderFound: bool): (r: Option<Reply<P>>)
    ensures r.None? <==> video.Some? && CanView(video.value, user) && (user.role == Viewer ==> uploaderFound)
    ensures video.None? ==> r == Some(JsonMessage(404, VideoNotFound))
    ensures video.Some? && video.value.tenantId != user.tenantId ==> r == Some(JsonMessage(403, AccessDenied))
    ensures video.Some? && video.value.tenantId == user.tenantId && user.role == Viewer && !uploaderFound
            ==> r == Some(JsonMessage(500, NullUploaderMessage))
    ensures video.Some? && video.value.tenantId == user.tenantId && user.role == Viewer && uploaderFound
            && video.value.uploadedBy != user.userId
            ==> r == Some(JsonMessage(403, AccessDenied))
  {
    if video.None? then Some(JsonMessage(404, VideoNotFound))
    else if video.value.tenantId != user.tenantId then Some(JsonMessage(403, AccessDenied))
    else if user.role == Viewer && !uploaderFound then Some(JsonMessage(500, NullUploaderMessage))
    else if user.role == Viewer && video.value.uploadedBy != user.userId then Some(JsonMessage(403, AccessDenied))
    else None
  }

  /** The 403 message of an editor acting on someone else's video. */
  function OwnOnlyMessage(action: string): string
  {
    "Access denied. You can only " + action + " your own videos."
  }

  /** The gates of delete and reprocess, in order: 404 for an unknown id,
      403 across tenants, 403 with `OwnOnlyMessage(action)` for an editor
      who is not the uploader. */
  function ManageGate<P>(video: Option<VideoRecord>, user: Principal, action: string): (r: Option<Reply<P>>)
    ensures r.None? <==> video.Some? && CanManage(video.value, user)
    ensures video.None? ==> r == Some(JsonMessage(404, VideoNotFound))
    ensures video.Some? && video.value.tenantId != user.tenantId ==> r == Some(JsonMessage(403, AccessDenied))
    ensures video.Some? && video.value.tenantId == user.tenantId && !CanManage(video.value, user)
            ==> r == Some(JsonMessage(403, OwnOnlyMessage(action)))
  {
    if video.None? then Some(JsonMessage(404, VideoNotFound))
    else if video.value.tenantId != user.tenantId then Some(JsonMessage(403, AccessDenied))
    else if user.role == Editor && video.value.uploadedBy != user.userId then Some(JsonMessage(403, OwnOnlyMessage(action)))
    else None
  }

  /** An admin manages every video of their tenant; an editor exactly
      those of their tenant they uploaded. */
  lemma ManageByRole(v: VideoRecord, user: Principal)
    ensures user.role == Admin ==> (CanManage(v, user) <==> v.tenantId == user.tenantId)
    ensures user.role == Editor ==> (CanManage(v, user) <==> v.tenantId == user.tenantId && v.uploadedBy == user.userId)
  {
  }

  /** No gate lets anyone past a tenant boundary. */
  lemma GatesKeepTenants(v: VideoRecord, user: Principal)
    requires v.tenantId != user.tenantId
    ensures !CanView(v, user) && !CanManage(v, user)
  {
  }

  /** Lookup of a record by id: `Video.findById`. */
  function Lookup(videos: map<string, VideoRecord>, id: string): (r: Option<VideoRecord>)
    ensures r.Some? <==> id in videos
    ensures r.Some? ==> r.value == videos[id]
  {
    if id in videos then Some(videos[id]) else None
  }
}
