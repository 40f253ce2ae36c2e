/** The document store and the upload directory the backend talks to:
    the `Video` and `User` collections and the files on disk. Each method
    is one awaited Mongoose or `fs` call. */
module Store {
  import opened Wrappers
  import opened Models

  /** The update document of a `findByIdAndUpdate` on a video: the paths
      the backend ever sets there. An absent path is left alone; nothing in
      the backend updates `thumbnail`, so it has no slot. */
  datatype VideoPatch = VideoPatch(
    status: Option<Status>,
    sensitivityStatus: Option<Sensitivity>,
    processingProgress: Option<int>,
    duration: Option<nat>)

  function ApplyPatch(v: VideoRecord, p: VideoPatch): (w: VideoRecord)
    ensures w.status == p.status.GetOr(v.status)
    ensures w.sensitivityStatus == p.sensitivityStatus.GetOr(v.sensitivityStatus)
    ensures w.processingProgress == p.processingProgress.GetOr(v.processingProgress)
    ensures w.duration == (if p.duration.Some? then p.duration else v.duration)
    ensures w.(status := v.status, sensitivityStatus := v.sensitivityStatus,
               processingProgress := v.processingProgress, duration := v.duration) == v
  {
    v.(status := p.status.GetOr(v.status),
       sensitivityStatus := p.sensitivityStatus.GetOr(v.sensitivityStatus),
       processingProgress := p.processingProgress.GetOr(v.processingProgress),
       duration := if p.duration.Some? then p.duration else v.duration)
  }

  /** `{status, processingProgress}` as written on failure and by `reprocess`. */
  function StatusPatch(s: Status, progress: int): VideoPatch
  {
    VideoPatch(Some(s), None, Some(progress), None)
  }

  function ProgressPatch(progress: int): VideoPatch
  {
    VideoPatch(None, None, Some(progress), None)
  }

  predicate PatchInBounds(p: VideoPatch)
  {
    p.processingProgress.Some? ==> MinProgress <= p.processingProgress.value <= MaxProgress
  }

  /** An update that keeps the progress within its bounds keeps a record well formed. */
  lemma PatchKeepsWellFormed(v: VideoRecord, p: VideoPatch)
    requires WellFormedVideo(v) && PatchInBounds(p)
    ensures WellFormedVideo(ApplyPatch(v, p))
  {
  }

  predicate UniqueEmails(users: seq<User>)
  {
    forall i, j :: 0 <= i < j < |users| ==> users[i].email != users[j].email
  }

  /** Position `k` holds the first user whose address is `email`. */
  predicate FirstWithEmail(users: seq<User>, email: string, k: int)
  {
    0 <= k < |users| && users[k].email == email &&
    forall j :: 0 <= j < k ==> users[j].email != email
  }

  /** `User.findOne({email})`: the first user, in insertion order, whose
      stored address equals the (already cast) filter value. */
  function FindUserByEmail(users: seq<User>, email: string): (r: Option<User>)
    ensures r.None? <==> forall k :: 0 <= k < |users| ==> users[k].email != email
    ensures r.Some? ==> exists k :: FirstWithEmail(users, email, k) && users[k] == r.value
  {
    if users == [] then None
    else if users[0].email == email then Some(users[0])
    else
      var r := FindUserByEmail(users[1..], email);
      assert r.Some? ==> exists k :: FirstWithEmail(users, email, k) && users[k] == r.value by {
        if r.Some? {
          var k :| FirstWithEmail(users[1..], email, k) && users[1..][k] == r.value;
          assert users[k + 1] == r.value;
          assert forall j :: 0 <= j < k + 1 ==> users[j].email != email by {
            forall j | 0 <= j < k + 1 ensures users[j].email != email {
              if j > 0 { assert users[j] == users[1..][j - 1]; }
            }
          }
          assert FirstWithEmail(users, email, k + 1);
        }
      }
      r
  }

  /** `User.findById(id)`: the first user whose `_id` is `id`. */
  function FindUserById(users: seq<User>, id: string): (r: Option<User>)
    ensures r.None? <==> forall k :: 0 <= k < |users| ==> users[k].id != id
    ensures r.Some? ==> r.value.id == id && r.value in users
  {
    if users == [] then None
    else if users[0].id == id then Some(users[0])
    else FindUserById(users[1..], id)
  }

  class Database {
    /** The `videos` collection, keyed by `_id`. */
    var videos: map<string, VideoRecord>
    /** The `users` collection in insertion order. */
    var users: seq<User>
    /** The upload directory: path of each file present and its size in bytes. */
    var files: map<string, nat>

    constructor ()
      ensures videos == map[] && users == [] && files == map[]
    {
      videos := map[];
      users := [];
      files := map[];
    }

    /** `Video.findByIdAndUpdate(id, patch)`: a no-op for an unknown id. */
    method FindByIdAndUpdate(id: string, p: VideoPatch)
      modifies this`videos
      ensures videos == if id in old(videos) then old(videos)[id := ApplyPatch(old(videos)[id], p)]
                        else old(videos)
    {
      if id in videos {
        videos := videos[id := ApplyPatch(videos[id], p)];
      }
    }

    /** `Video.findByIdAndUpdate(id, {$inc: {views: 1}})`. */
    method IncrementViews(id: string)
      modifies this`videos
      ensures videos == if id in old(videos) then old(videos)[id := old(videos)[id].(views := old(videos)[id].views + 1)]
                        else old(videos)
    {
      if id in videos {
        videos := videos[id := videos[id].(views := videos[id].views + 1)];
      }
    }

    /** `Video.create`, after validation, under a fresh `_id`. */
    method InsertVideo(id: string, v: VideoRecord)
      requires id !in videos
      modifies this`videos
      ensures videos == old(videos)[id := v]
    {
      videos := videos[id := v];
    }

    /** `Video.findByIdAndDelete(id)`. */
    method DeleteVideo(id: string)
      modifies this`videos
      ensures videos == old(videos) - {id}
    {
      videos := videos - {id};
    }

    /** `User.create`, after validation. */
    method InsertUser(u: User)
      modifies this`users
      ensures users == old(users) + [u]
    {
      users := users + [u];
    }

    /** `fs.unlinkSync(path)` on a file that exists. */
    method Unlink(path: string)
      requires path in files
      modifies this`files
      ensures files == old(files) - {path}
    {
      files := files - {path};
    }
  }
}
