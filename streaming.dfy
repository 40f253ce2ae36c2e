/** `GET /stream/:id` and `GET /stream/:id/info`
    (Backend/src/routes/streamRoutes.js): the gate sequence, the view
    count, the `Range` header resolution and the reply chosen from it. The
    upload directory is `Database.files` (existence and size); the bytes
    themselves are named by the reply, not piped. */
module Streaming {
  import opened Wrappers
  import opened JsText
  import opened Models
  import opened Store
  import opened Http
  import opened Access

  // ------------------------------------------------------------ payloads

  /** What `/info` reports under `streaming`. */
  datatype StreamingInfo = StreamingInfo(available: bool, fileSize: nat, streamUrl: string)

  datatype StreamPayload =
    | NotReady(message: string, status: Status, progress: int)
    | WholeFile(path: string)
    | FileBytes(path: string, first: nat, last: nat)
    | Info(id: string, video: VideoRecord, streaming: StreamingInfo)

  const NotReadyMessage: string := "Video is not ready for streaming"
  const FileMissingMessage: string := "Video file not found on server"
  const CacheControl: string := "public, max-age=3600"

  // --------------------------------------------------------------- range

  /** How a `Range` header is resolved against a file of `fileSize` bytes. */
  datatype ByteRange =
    | Whole                             // no header: 200
    | Partial(first: nat, last: nat)    // 206 with bytes first..last inclusive
    | NotSatisfiable                    // 416
    | Undetermined                      // NaN start or end, or start > end: 500

  /** The first and last byte positions the handler reads from a header:
      `bytes=` removed once, the rest split on `-`; the start is `parseInt`
      of the first part, the end `parseInt` of the second part when it is
      non-empty and `fileSize - 1` otherwise. `None` is NaN. */
  function RangeBounds(header: string, fileSize: nat): (r: (Option<int>, Option<int>))
    ensures r.0.Some? ==> r.0.value >= 0
    ensures r.1.Some? ==> r.1.value >= -1
  {
    var parts := Split(ReplaceFirst(header, "bytes=", ""), '-');
    var end := if |parts| > 1 && parts[1] != "" then ParseInt(parts[1]) else Some(fileSize as int - 1);
    (ParseInt(parts[0]), end)
  }

  /** The handler's decision on a `Range` header. A number compared with
      NaN is false, so a NaN bound never triggers the 416 test; the handler
      never checks `start <= end`. */
  function Resolve(range: Option<string>, fileSize: nat): (r: ByteRange)
    ensures r == Whole <==> !Truthy(range)
    ensures r.Partial? ==> r.first <= r.last < fileSize
    ensures r.Partial? ==> RangeBounds(range.value, fileSize) == (Some(r.first as int), Some(r.last as int))
    ensures Truthy(range) ==>
      var b := RangeBounds(range.value, fileSize);
      (r == NotSatisfiable <==> (b.0.Some? && b.0.value >= fileSize) || (b.1.Some? && b.1.value >= fileSize))
    ensures Truthy(range) ==>
      var b := RangeBounds(range.value, fileSize);
      (r.Partial? <==> b.0.Some? && b.1.Some? && b.0.value <= b.1.value < fileSize)
  {
    if !Truthy(range) then Whole
    else
      var b := RangeBounds(range.value, fileSize);
      if (b.0.Some? && b.0.value >= fileSize) || (b.1.Some? && b.1.value >= fileSize) then NotSatisfiable
      else if b.0.Some? && b.1.Some? && b.0.value <= b.1.value then Partial(b.0.value, b.1.value)
      else Undetermined
  }

  predicate HasHeader<P>(r: Reply<P>, name: string, value: string)
  {
    name in r.headers && r.headers[name] == value
  }

  /** The headers and body chosen for a resolved range. An `Undetermined`
      range reaches `fs.createReadStream` before any header is set, and
      Node.js throws there: `start` and `end` must be integers at least 0
      with `start <= end`. The `catch` hands the error to the application's
      error handler (Backend/src/server.js:102-107), which answers 500 with
      its message, `streamError` (the message of Node.js's range error). */
  function RangeReply(b: ByteRange, path: string, fileSize: nat, mimeType: string,
                      streamError: string): (r: Reply<StreamPayload>)
    requires b.Partial? ==> b.first <= b.last
    ensures b.Whole? ==>
      && r.status == 200 && r.body == Payload(WholeFile(path))
      && HasHeader(r, "Content-Length", NatToString(fileSize))
      && "Content-Range" !in r.headers
    ensures b.Partial? ==>
      && r.status == 206 && r.body == Payload(FileBytes(path, b.first, b.last))
      && HasHeader(r, "Content-Length", NatToString(b.last - b.first + 1))
      && HasHeader(r, "Content-Range", ContentRange(b.first, b.last, fileSize))
    ensures b.NotSatisfiable? ==>
      && r.status == 416 && r.body == Empty
      && r.headers == map["Content-Range" := "bytes */" + NatToString(fileSize)]
    ensures b.Undetermined? ==> r == JsonMessage(500, streamError)
    ensures b.Whole? || b.Partial? ==>
      && HasHeader(r, "Accept-Ranges", "bytes")
      && HasHeader(r, "Content-Type", mimeType)
      && HasHeader(r, "Cache-Control", CacheControl)
  {
    match b
    case Whole =>
      Reply(200, map["Content-Length" := NatToString(fileSize), "Content-Type" := mimeType,
                     "Accept-Ranges" := "bytes", "Cache-Control" := CacheControl],
            Payload(WholeFile(path)))
    case Partial(first, last) =>
      Reply(206, map["Content-Range" := ContentRange(first, last, fileSize),
                     "Accept-Ranges" := "bytes",
                     "Content-Length" := NatToString(last - first + 1),
                     "Content-Type" := mimeType, "Cache-Control" := CacheControl],
            Payload(FileBytes(path, first, last)))
    case NotSatisfiable =>
      Reply(416, map["Content-Range" := "bytes */" + NatToString(fileSize)], Empty)
    case Undetermined => JsonMessage(500, streamError)
  }

  /** `bytes <first>-<last>/<size>`, section 4.2 of RFC 7233. */
  function ContentRange(first: nat, last: nat, fileSize: nat): string
  {
    "bytes " + NatToString(first) + "-" + NatToString(last) + "/" + NatToString(fileSize)
  }

  // ------------------------------------------------------ GET /stream/:id

  /** The gates of `GET /stream/:id`, in order: the read gates (this route
      does not populate `uploadedBy`), 400 with status and progress for a
      video that is not completed, 404 when its file is gone. */
  function StreamGate(video: Option<VideoRecord>, user: Principal, files: map<string, nat>): (r: Option<Reply<StreamPayload>>)
    ensures r.None? <==> video.Some? && CanView(video.value, user) && video.value.status == Completed
                         && video.value.filepath in files
    ensures ViewGate<StreamPayload>(video, user, true).Some? ==> r == ViewGate(video, user, true)
    ensures video.Some? && CanView(video.value, user) && video.value.status != Completed
            ==> r == Some(Reply(400, map[], Payload(NotReady(NotReadyMessage, video.value.status,
                                                             video.value.processingProgress))))
    ensures video.Some? && CanView(video.value, user) && video.value.status == Completed
            && video.value.filepath !in files
            ==> r == Some(JsonMessage(404, FileMissingMessage))
  {
    var denied := ViewGate<StreamPayload>(video, user, true);
    if denied.Some? then denied
    else
      var v := video.value;
      if v.status != Completed then
        Some(Reply(400, map[], Payload(NotReady(NotReadyMessage, v.status, v.processingProgress))))
      else if v.filepath !in files then Some(JsonMessage(404, FileMissingMessage))
      else None
  }

  /** The reply of `GET /stream/:id`; `streamError` as for `RangeReply`. */
  function Stream(videos: map<string, VideoRecord>, files: map<string, nat>, id: string,
                  user: Principal, range: Option<string>, streamError: string): (r: Reply<StreamPayload>)
    ensures r.status == 200 || r.status == 206 ==>
      && id in videos && CanView(videos[id], user) && videos[id].status == Completed
      && videos[id].filepath in files
    ensures r.status == 206 <==> StreamGate(Lookup(videos, id), user, files).None?
                                 && Resolve(range, files[videos[id].filepath]).Partial?
  {
    var gate := StreamGate(Lookup(videos, id), user, files);
    if gate.Some? then gate.value
    else
      var v := videos[id];
      var b := Resolve(range, files[v.filepath]);
      RangeReply(b, v.filepath, files[v.filepath], v.mimeType, streamError)
  }

  /** The store after `GET /stream/:id`: one more view once the gates pass. */
  function ViewsAfter(videos: map<string, VideoRecord>, files: map<string, nat>, id: string,
                      user: Principal): (r: map<string, VideoRecord>)
    ensures r.Keys == videos.Keys
    ensures forall k :: k in videos && k != id ==> r[k] == videos[k]
    ensures id in videos ==> r[id] == videos[id].(views := r[id].views)
    ensures id in videos ==>
      r[id].views == videos[id].views + (if StreamGate(Lookup(videos, id), user, files).None? then 1 else 0)
  {
    if StreamGate(Lookup(videos, id), user, files).None? then videos[id := videos[id].(views := videos[id].views + 1)]
    else videos
  }

  /** The handler of `GET /stream/:id`. */
  method StreamVideo(db: Database, id: string, user: Principal, range: Option<string>, streamError: string)
    returns (r: Reply<StreamPayload>)
    modifies db`videos
    ensures r == Stream(old(db.videos), db.files, id, user, range, streamError)
    ensures db.videos == ViewsAfter(old(db.videos), db.files, id, user)
  {
    if id !in db.videos {
      return JsonMessage(404, VideoNotFound);
    }
    var video := db.videos[id];
    if video.tenantId != user.tenantId {
      return JsonMessage(403, AccessDenied);
    }
    if user.role == Viewer && video.uploadedBy != user.userId {
      return JsonMessage(403, AccessDenied);
    }
    if video.status != Completed {
      return Reply(400, map[], Payload(NotReady(NotReadyMessage, video.status, video.processingProgress)));
    }
    if video.filepath !in db.files {
      return JsonMessage(404, FileMissingMessage);
    }
    var fileSize := db.files[video.filepath];
    db.IncrementViews(id);
    var b := Resolve(range, fileSize);
    r := RangeReply(b, video.filepath, fileSize, video.mimeType, streamError);
  }

  // ------------------------------------------------- GET /stream/:id/info

  /** `GET /stream/:id/info`: the read gates (with `uploadedBy` populated
      from `users`) and then always 200, whether or not the video is
      ready; `available` holds when it is completed and its file exists. */
  function StreamInfo(videos: map<string, VideoRecord>, files: map<string, nat>, users: seq<User>,
                      id: string, user: Principal): (r: Reply<StreamPayload>)
    ensures var video := Lookup(videos, id);
      var gate := ViewGate<StreamPayload>(video, user, video.Some? && FindUserById(users, video.value.uploadedBy).Some?);
      && (gate.Some? ==> r == gate.value)
      && (gate.None? ==>
            && r.status == 200 && r.body.Payload? && r.body.value.Info?
            && r.body.value.video == videos[id] && r.body.value.id == id)
    ensures r.status == 200 ==> r.body.Payload? && r.body.value.Info? && id in videos
    ensures r.status == 200 ==>
      var v := videos[id]; var s := r.body.value.streaming;
      && (s.available <==> v.status == Completed && v.filepath in files)
      && s.fileSize == (if v.filepath in files then files[v.filepath] else 0)
      && s.streamUrl == "/stream/" + id
  {
    var video := Lookup(videos, id);
    var gate := ViewGate<StreamPayload>(video, user, video.Some? && FindUserById(users, video.value.uploadedBy).Some?);
    if gate.Some? then gate.value
    else
      var v := videos[id];
      var fileExists := v.filepath in files;
      var fileSize := if fileExists then files[v.filepath] else 0;
      Reply(200, map[], Payload(Info(id, v, StreamingInfo(v.status == Completed && fileExists, fileSize, "/stream/" + id))))
  }

  // ----------------------------------------------------------- properties

  /** The bounds read from `bytes=<p>-<q>` when neither part holds a dash. */
  lemma {:induction false} BoundsOfHeader(p: string, q: string, fileSize: nat)
    requires '-' !in p && '-' !in q
    ensures RangeBounds("bytes=" + p + "-" + q, fileSize)
            == (ParseInt(p), if q != "" then ParseInt(q) else Some(fileSize as int - 1))
  {
    var header := "bytes=" + p + "-" + q;
    var rest := p + "-" + q;
    assert header == "bytes=" + rest;
    assert StartsWith(header, "bytes=");
    assert ReplaceFirst(header, "bytes=", "") == rest;
    assert rest == p + ['-'] + q;
    SplitAfter(p, '-', q);
    SplitNone(q, '-');
  }

  lemma ParseRendered(n: nat)
    ensures ParseInt(NatToString(n)) == Some(n)
    ensures '-' !in NatToString(n)
  {
    ParseIntOfRendered(n, []);
    assert NatToString(n) + [] == NatToString(n);
  }

  /** The rendered range `bytes=a-b` with `a <= b < fileSize` is served as
      exactly those bytes. */
  lemma ClosedRangeServed(a: nat, b: nat, fileSize: nat)
    requires a <= b < fileSize
    ensures Resolve(Some("bytes=" + NatToString(a) + "-" + NatToString(b)), fileSize) == Partial(a, b)
  {
    ParseRendered(a);
    ParseRendered(b);
    BoundsOfHeader(NatToString(a), NatToString(b), fileSize);
  }

  /** The open range `bytes=a-` with `a < fileSize` runs to the last byte. */
  lemma OpenRangeServed(a: nat, fileSize: nat)
    requires a < fileSize
    ensures Resolve(Some("bytes=" + NatToString(a) + "-"), fileSize) == Partial(a, fileSize - 1)
  {
    ParseRendered(a);
    BoundsOfHeader(NatToString(a), "", fileSize);
    assert "bytes=" + NatToString(a) + "-" + "" == "bytes=" + NatToString(a) + "-";
  }

  /** A range that starts or ends at or beyond the end of the file is
      refused with 416, even where section 2.1 of RFC 7233 would shorten
      an end beyond the file to its last byte. */
  lemma RangeBeyondFileRefused(a: nat, b: nat, fileSize: nat)
    requires a >= fileSize || b >= fileSize
    ensures Resolve(Some("bytes=" + NatToString(a) + "-" + NatToString(b)), fileSize) == NotSatisfiable
  {
    ParseRendered(a);
    ParseRendered(b);
    BoundsOfHeader(NatToString(a), NatToString(b), fileSize);
  }

  /** A suffix range `bytes=-n` (section 2.1 of RFC 7233: the last n
      bytes) has no start the handler can parse: it is never served as a
      206, is refused with 416 only when n reaches the file size, and
      otherwise makes `fs.createReadStream` throw, answered with 500. */
  lemma SuffixRangeNotServed(n: nat, fileSize: nat, path: string, mimeType: string, streamError: string)
    ensures var r := Resolve(Some("bytes=-" + NatToString(n)), fileSize);
      && !r.Partial?
      && (r == NotSatisfiable <==> n >= fileSize)
      && (n < fileSize ==> RangeReply(r, path, fileSize, mimeType, streamError) == JsonMessage(500, streamError))
  {
    SuffixBounds(n, fileSize);
  }

  /** A reversed range `bytes=a-b` with b < a inside the file is not
      refused with 416 but makes `fs.createReadStream` throw: 500. */
  lemma ReversedRangeFails(a: nat, b: nat, fileSize: nat, path: string, mimeType: string, streamError: string)
    requires b < a < fileSize
    ensures var r := Resolve(Some("bytes=" + NatToString(a) + "-" + NatToString(b)), fileSize);
      && r == Undetermined
      && RangeReply(r, path, fileSize, mimeType, streamError) == JsonMessage(500, streamError)
  {
    ParseRendered(a);
    ParseRendered(b);
    BoundsOfHeader(NatToString(a), NatToString(b), fileSize);
  }

  lemma SuffixBounds(n: nat, fileSize: nat)
    ensures RangeBounds("bytes=-" + NatToString(n), fileSize) == (None, Some(n))
  {
    var q := NatToString(n);
    ParseRendered(n);
    ParseEmpty();
    SuffixParts(q);
  }

  /** `bytes=-q` loses its unit and splits into an empty start and `q`. */
  lemma SuffixParts(q: string)
    requires '-' !in q
    ensures Split(ReplaceFirst("bytes=-" + q, "bytes=", ""), '-') == [[], q]
  {
    var h := "bytes=-" + q;
    assert StartsWith(h, "bytes=") && h[6..] == "-" + q;
    assert ReplaceFirst(h, "bytes=", "") == [] + ['-'] + q;
    SplitAfter([], '-', q);
    SplitNone(q, '-');
  }

  lemma ParseEmpty()
    ensures ParseInt([]) == None
  {
    assert TrimStart([]) == [];
  }

  /** A 206 never claims more bytes than the file holds. */
  lemma PartialWithinFile(range: Option<string>, fileSize: nat)
    requires Resolve(range, fileSize).Partial?
    ensures var b := Resolve(range, fileSize);
      1 <= b.last - b.first + 1 <= fileSize
  {
  }

  /** Every reply of the stream route after its gates: 416 exactly when a
      bound reaches the file size, and then the view is already counted. */
  lemma RefusedRangeCountsView(videos: map<string, VideoRecord>, files: map<string, nat>, id: string,
                               user: Principal, range: Option<string>, streamError: string)
    requires Stream(videos, files, id, user, range, streamError).status == 416
    ensures id in videos && videos[id].filepath in files
    ensures ViewsAfter(videos, files, id, user)[id].views == videos[id].views + 1
    ensures Truthy(range)
  {
  }

  /** A 500 from the stream route comes only from a range the handler
      could not resolve, after the gates passed and the view was counted. */
  lemma FailedRangeCountsView(videos: map<string, VideoRecord>, files: map<string, nat>, id: string,
                              user: Principal, range: Option<string>, streamError: string)
    requires Stream(videos, files, id, user, range, streamError).status == 500
    ensures id in videos && videos[id].filepath in files
    ensures Resolve(range, files[videos[id].filepath]) == Undetermined
    ensures ViewsAfter(videos, files, id, user)[id].views == videos[id].views + 1
  {
  }

  /** `/info` differs from the stream route only after the read gates:
      it reports `available` exactly when the stream route would send bytes
      or refuse the range, and it answers 200 for a video still in work. */
  lemma InfoAgreesWithStream(videos: map<string, VideoRecord>, files: map<string, nat>, users: seq<User>,
                             id: string, user: Principal, range: Option<string>, streamError: string)
    requires id in videos && CanView(videos[id], user)
    requires user.role == Viewer ==> FindUserById(users, videos[id].uploadedBy).Some?
    ensures var info := StreamInfo(videos, files, users, id, user);
      && info.status == 200
      && (info.body.value.streaming.available <==> StreamGate(Lookup(videos, id), user, files).None?)
    ensures videos[id].status != Completed ==>
      Stream(videos, files, id, user, range, streamError).status == 400
  {
  }
}
