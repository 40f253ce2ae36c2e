/** The video processing service (Backend/src/services/videoProcessor.js):
    a run looks the video up, checks its file, walks five fixed stages that
    write and announce the progress, and finishes with one `completed`
    update, or turns any rejected store call into `failed` at progress 0.

    What the JavaScript leaves to the environment is a parameter here:
    `random` is the value `Math.random()` drew, `fault` names the awaited
    store call that rejects (if any) and `errMsg` is that error's message.
    Sleeping, timestamps and logging do nothing observable and are not
    modelled. Runs are sequential: nothing in the source keeps two runs of
    one video apart. */
module Processor {
  import opened Wrappers
  import opened JsText
  import opened Models
  import opened Store

  // ------------------------------------------------------------ constants

  datatype Stage = Stage(progress: int, message: string)

  const Stages: seq<Stage> := [
    Stage(20, "Extracting video metadata..."),
    Stage(40, "Analyzing video frames..."),
    Stage(60, "Detecting sensitive content..."),
    Stage(80, "Generating thumbnail..."),
    Stage(100, "Processing complete!")
  ]

  const StartMessage: string := "Starting video analysis..."
  const MissingFileMessage: string := "Video file not found"
  const DoneMessage: string := "Video ready for streaming!"

  /** Two MiB: the estimate assumes this many bytes per second of video. */
  const BytesPerSecond: nat := 2 * 1024 * 1024
  const MinDuration: nat := 10
  const MaxDuration: nat := 3600

  // ------------------------------------------------------ mock analysis

  /** `mockSensitivityAnalysis`: a title containing "test" in any case is
      safe; otherwise the draw decides, safe strictly above 0.2. */
  function MockSensitivity(title: string, random: real): (r: Sensitivity)
    ensures r != Unknown
    ensures Contains(ToLower(title), "test") ==> r == Safe
    ensures !Contains(ToLower(title), "test") ==> (r == Safe <==> random > 0.2)
  {
    if Contains(ToLower(title), "test") then Safe
    else if random > 0.2 then Safe
    else Flagged
  }

  lemma {:induction false} ToLowerAppend(a: string, b: string)
    ensures ToLower(a + b) == ToLower(a) + ToLower(b)
  {
    assert forall k :: 0 <= k < |a + b| ==> ToLower(a + b)[k] == (ToLower(a) + ToLower(b))[k] by {
      forall k | 0 <= k < |a + b|
        ensures ToLower(a + b)[k] == (ToLower(a) + ToLower(b))[k]
      {
        if k < |a| { assert (a + b)[k] == a[k]; } else { assert (a + b)[k] == b[k - |a|]; }
      }
    }
  }

  /** Whatever surrounds it and whatever the draw, a title holding "test"
      written in any mix of cases ("Test", "TEST", ...) is classified safe. */
  lemma {:induction false} TestTitleAlwaysSafe(before: string, word: string, after: string, random: real)
    requires ToLower(word) == "test"
    ensures MockSensitivity(before + word + after, random) == Safe
  {
    ToLowerAppend(before + word, after);
    ToLowerAppend(before, word);
    var l := ToLower(before + word + after);
    assert l == ToLower(before) + "test" + ToLower(after);
    assert OccursAt(l, "test", |ToLower(before)|) by {
      assert l[|before|..|before| + 4] == "test";
    }
  }

  /** `mockExtractDuration`: the size in 2 MiB units, rounded down and
      clamped to [10, 3600] seconds. Sizes are whole bytes, so the
      floating-point division in the source is exact. */
  function MockDuration(size: nat): (d: nat)
    ensures MinDuration <= d <= MaxDuration
    ensures size < MinDuration * BytesPerSecond ==> d == MinDuration
    ensures size >= MaxDuration * BytesPerSecond ==> d == MaxDuration
    ensures MinDuration * BytesPerSecond <= size < MaxDuration * BytesPerSecond ==>
              d * BytesPerSecond <= size < (d + 1) * BytesPerSecond
  {
    var estimated := size / BytesPerSecond;
    if estimated < MinDuration then MinDuration
    else if estimated > MaxDuration then MaxDuration
    else estimated
  }

  // ---------------------------------------------------------- progress

  /** The `video:progress` payload; the timestamp is not modelled. */
  datatype ProgressEvent = ProgressEvent(
    videoId: string,
    title: string,
    progress: int,
    status: Status,
    message: string,
    sensitivityStatus: Sensitivity)

  /** One delivery of a payload to one Socket.io room. */
  datatype Emission = Emission(room: string, event: ProgressEvent)

  function UserRoom(userId: string): string
  {
    "user:" + userId
  }

  function TenantRoom(tenantId: string): string
  {
    "tenant:" + tenantId
  }

  lemma RoomsDiffer(userId: string, tenantId: string)
    ensures UserRoom(userId) != TenantRoom(tenantId)
  {
    assert UserRoom(userId)[0] == 'u' && TenantRoom(tenantId)[0] == 't';
  }

  /** What `emitProgress(video, progress, status, message, sensitivity)`
      sends when it does not throw: nothing without a Socket.io server,
      else one payload to the uploader's room and the same payload to the
      tenant's room. */
  function Deliveries(hasIo: bool, id: string, v: VideoRecord, progress: int, status: Status,
                      message: string, sensitivity: Option<Sensitivity>): (es: seq<Emission>)
    ensures !hasIo ==> es == []
    ensures hasIo ==>
      && |es| == 2 && es[0].event == es[1].event
      && es[0].room == UserRoom(v.uploadedBy) && es[1].room == TenantRoom(v.tenantId)
      && es[0].room != es[1].room
    ensures hasIo ==>
      && es[0].event.videoId == id && es[0].event.title == v.title
      && es[0].event.progress == progress && es[0].event.status == status
      && es[0].event.message == message
      && es[0].event.sensitivityStatus == (if sensitivity.Some? then sensitivity.value else v.sensitivityStatus)
  {
    if !hasIo then []
    else
      var update := ProgressEvent(id, v.title, progress, status, message,
                                  if sensitivity.Some? then sensitivity.value else v.sensitivityStatus);
      RoomsDiffer(v.uploadedBy, v.tenantId);
      [Emission(UserRoom(v.uploadedBy), update), Emission(TenantRoom(v.tenantId), update)]
  }

  /** The deliveries of the first `n` stages, in order. */
  function StageEvents(hasIo: bool, id: string, v: VideoRecord, n: nat): seq<Emission>
    requires n <= |Stages|
  {
    if n == 0 then []
    else StageEvents(hasIo, id, v, n - 1)
         + Deliveries(hasIo, id, v, Stages[n - 1].progress, Processing, Stages[n - 1].message, None)
  }

  /** `populate("uploadedBy")` left the uploader null: no user has the
      record's `uploadedBy` as `_id`. */
  predicate UploaderGone(users: seq<User>, v: VideoRecord)
  {
    FindUserById(users, v.uploadedBy).None?
  }

  // -------------------------------------------------- the run, as values

  /** Which awaited store call rejects during a run. `AtLookup` is the
      initial `findById`, `AtMissingFileWrite` the `failed` update for a
      missing file, `AtStartWrite` the `processing` update, `AtStage(i)` the
      progress write of stage `i`, `AtFinalWrite` the `completed` update and
      `AtReload` the `findById` after it. */
  datatype Fault =
    | NoFault
    | AtLookup
    | AtMissingFileWrite
    | AtStartWrite
    | AtStage(index: nat)
    | AtFinalWrite
    | AtReload

  datatype RunResult = RunResult(videos: map<string, VideoRecord>, events: seq<Emission>)

  datatype AnalyzeResult = AnalyzeResult(videos: map<string, VideoRecord>, events: seq<Emission>, thrown: bool)

  const FailedPatch: VideoPatch := StatusPatch(Failed, 0)
  const StartPatch: VideoPatch := StatusPatch(Processing, 0)

  /** The update written once all stages are done; it has no thumbnail. */
  function FinalPatch(sensitivity: Sensitivity, duration: nat): VideoPatch
  {
    VideoPatch(Some(Completed), Some(sensitivity), Some(100), Some(duration))
  }

  /** The `catch` block: mark the video failed at 0, read it again and
      report the error. Without a record there is nothing to report (with
      a Socket.io server the report itself throws, and the returned promise
      rejects). */
  function Recover(videos: map<string, VideoRecord>, hasIo: bool, id: string, errMsg: string): (r: RunResult)
    ensures id in videos ==> r.videos == videos[id := videos[id].(status := Failed, processingProgress := 0)]
    ensures id !in videos ==> r == RunResult(videos, [])
  {
    var after := if id in videos then videos[id := ApplyPatch(videos[id], FailedPatch)] else videos;
    RunResult(after, if id in after then Deliveries(hasIo, id, after[id], 0, Failed, errMsg, None) else [])
  }

  /** How many stage writes complete before the fault, when every report
      goes through. */
  function StagesDone(fault: Fault): (n: nat)
    ensures n <= |Stages|
  {
    if fault.AtStage? && fault.index < |Stages| then fault.index else |Stages|
  }

  /** How many stage writes complete: those before the fault, or only the
      first when `reportThrows` (its report reads the null uploader). */
  function StagesWritten(fault: Fault, reportThrows: bool): (n: nat)
    ensures n <= StagesDone(fault)
    ensures reportThrows ==> n <= 1
    ensures !reportThrows ==> n == StagesDone(fault)
  {
    if reportThrows && StagesDone(fault) > 0 then 1 else if reportThrows then 0 else StagesDone(fault)
  }

  /** The store after the first `n` stage writes. */
  function Staged(videos: map<string, VideoRecord>, id: string, n: nat): map<string, VideoRecord>
    requires id in videos && n <= |Stages|
  {
    if n == 0 then videos
    else videos[id := ApplyPatch(videos[id], ProgressPatch(Stages[n - 1].progress))]
  }

  /** `analyzeVideo(video)` from the store it starts on: the stages, then
      the final update and its announcement; `thrown` when a call rejects
      or a report throws. `gone` says that the populated `video` has a null
      uploader; the final report populates again and finds the same. */
  function Analyze(videos: map<string, VideoRecord>, hasIo: bool, id: string, v: VideoRecord,
                   gone: bool, random: real, fault: Fault): (r: AnalyzeResult)
    requires id in videos
    ensures r.videos.Keys == videos.Keys
    ensures r.thrown <==> (hasIo && gone) || (fault.AtStage? && fault.index < |Stages|)
                          || fault == AtFinalWrite || fault == AtReload
    ensures fault != AtReload && !r.thrown ==> r.videos[id].status == Completed && r.videos[id].processingProgress == 100
  {
    var n := StagesWritten(fault, hasIo && gone);
    var staged := Staged(videos, id, n);
    if hasIo && gone then AnalyzeResult(staged, [], true)
    else
    var stageEvents := StageEvents(hasIo, id, v, n);
    if n < |Stages| || fault == AtFinalWrite then AnalyzeResult(staged, stageEvents, true)
    else
      var sensitivity := MockSensitivity(v.title, random);
      var done := staged[id := ApplyPatch(staged[id], FinalPatch(sensitivity, MockDuration(v.size)))];
      if fault == AtReload then AnalyzeResult(done, stageEvents, true)
      else AnalyzeResult(done, stageEvents + Deliveries(hasIo, id, done[id], 100, Completed, DoneMessage, Some(sensitivity)), false)
  }

  /** `processVideo(id)` from the store, users and upload directory it
      starts on: the store it leaves and the deliveries it makes, in order. */
  function Run(videos: map<string, VideoRecord>, files: map<string, nat>, users: seq<User>, hasIo: bool,
               id: string, random: real, fault: Fault, errMsg: string): (r: RunResult)
    ensures r.videos.Keys == videos.Keys
    ensures id in videos ==> r.videos[id].status == Completed || r.videos[id].status == Failed
  {
    if fault == AtLookup then Recover(videos, hasIo, id, errMsg)
    else if id !in videos then RunResult(videos, [])
    else RunFound(videos, files, hasIo, id, UploaderGone(users, videos[id]), random, fault, errMsg)
  }

  /** A run once the record is found and populated: the file check, then
      the start. With a Socket.io server and a null uploader (`gone`) the
      first report throws a `TypeError`, and the `catch` block runs. */
  function RunFound(videos: map<string, VideoRecord>, files: map<string, nat>, hasIo: bool, id: string,
                    gone: bool, random: real, fault: Fault, errMsg: string): (r: RunResult)
    requires id in videos
    ensures r.videos.Keys == videos.Keys
    ensures r.videos[id].status == Completed || r.videos[id].status == Failed
    ensures videos[id].filepath !in files ==> r.videos[id].status == Failed
  {
    var v := videos[id];
    if v.filepath !in files then
      if fault == AtMissingFileWrite then Recover(videos, hasIo, id, errMsg)
      else
        var failed := videos[id := ApplyPatch(v, FailedPatch)];
        if hasIo && gone then Recover(failed, hasIo, id, NullUploaderMessage)
        else RunResult(failed, Deliveries(hasIo, id, v, 0, Failed, MissingFileMessage, None))
    else if fault == AtStartWrite then Recover(videos, hasIo, id, errMsg)
    else RunStarted(videos, hasIo, id, gone, random, fault, errMsg)
  }

  /** A run once the file is found: the `processing` update and its
      announcement, the analysis, and the `catch` block if a call rejects
      or a report throws. */
  function RunStarted(videos: map<string, VideoRecord>, hasIo: bool, id: string, gone: bool,
                      random: real, fault: Fault, errMsg: string): (r: RunResult)
    requires id in videos
    ensures r.videos.Keys == videos.Keys
    ensures r.videos[id].status == Completed || r.videos[id].status == Failed
  {
    var v := videos[id];
    var started := videos[id := ApplyPatch(v, StartPatch)];
    if hasIo && gone then Recover(started, hasIo, id, NullUploaderMessage)
    else
    var startEvents := Deliveries(hasIo, id, v, 0, Processing, StartMessage, None);
    var a := Analyze(started, hasIo, id, v, gone, random, fault);
    if a.thrown then
      var r := Recover(a.videos, hasIo, id, errMsg);
      RunResult(r.videos, startEvents + a.events + r.events)
    else RunResult(a.videos, startEvents + a.events)
  }

  // ------------------------------------------------------------ the class

  class VideoProcessor {
    /** The store the service reads and writes (the `Video` model). */
    const db: Database
    /** Whether a Socket.io server was passed to the constructor. */
    const hasIo: bool
    /** Declared as a job table; nothing ever adds to it. */
    var processingQueue: map<string, bool>
    /** Every delivery made so far, in order. */
    var emitted: seq<Emission>
    /** Runs handed over by the routes without being awaited, in order. */
    var submitted: seq<string>

    constructor (db: Database, hasIo: bool)
      ensures this.db == db && this.hasIo == hasIo
      ensures processingQueue == map[] && emitted == [] && submitted == []
    {
      this.db := db;
      this.hasIo := hasIo;
      processingQueue := map[];
      emitted := [];
      submitted := [];
    }

    /** `processVideo(id)` called without `await`: the caller goes on, the
        run happens later as a separate `ProcessVideo`. */
    method Submit(id: string)
      modifies this`submitted
      ensures submitted == old(submitted) + [id]
    {
      submitted := submitted + [id];
    }

    /** `emitProgress`. `uploaderGone` says that `video` was loaded with
        `populate("uploadedBy")` and its uploader no longer exists: with a
        Socket.io server, reading `_id` of that null throws (`thrown`)
        after the payload is built and before anything is sent. */
    method EmitProgress(id: string, video: VideoRecord, uploaderGone: bool, progress: int, status: Status,
                        message: string, sensitivity: Option<Sensitivity>) returns (thrown: bool)
      modifies this`emitted
      ensures thrown == (hasIo && uploaderGone)
      ensures emitted == old(emitted) + (if thrown then [] else Deliveries(hasIo, id, video, progress, status, message, sensitivity))
    {
      if !hasIo {
        return false;
      }
      var update := ProgressEvent(id, video.title, progress, status, message,
                                  if sensitivity.Some? then sensitivity.value else video.sensitivityStatus);
      if uploaderGone {
        return true;
      }
      emitted := emitted + [Emission(UserRoom(video.uploadedBy), update)];
      emitted := emitted + [Emission(TenantRoom(video.tenantId), update)];
      return false;
    }

    /** The `catch` block of `processVideo`. The record is read again
        without `populate`: its `uploadedBy` is the id itself, whose `_id`
        is that id, so this report does not throw. */
    method RecoverFromError(id: string, errMsg: string)
      modifies db`videos, this`emitted
      ensures db.videos == Recover(old(db.videos), hasIo, id, errMsg).videos
      ensures emitted == old(emitted) + Recover(old(db.videos), hasIo, id, errMsg).events
    {
      db.FindByIdAndUpdate(id, FailedPatch);
      if id in db.videos {
        var _ := EmitProgress(id, db.videos[id], false, 0, Failed, errMsg, None);
      }
    }

    /** `processVideo(id)`. */
    method ProcessVideo(id: string, random: real, fault: Fault, errMsg: string)
      modifies db`videos, this`emitted
      ensures db.videos == Run(old(db.videos), db.files, db.users, hasIo, id, random, fault, errMsg).videos
      ensures emitted == old(emitted) + Run(old(db.videos), db.files, db.users, hasIo, id, random, fault, errMsg).events
    {
      if fault == AtLookup {
        RecoverFromError(id, errMsg);
        return;
      }
      if id !in db.videos {
        return;
      }
      var video := db.videos[id];
      var uploaderGone := FindUserById(db.users, video.uploadedBy).None?;
      if video.filepath !in db.files {
        if fault == AtMissingFileWrite {
          RecoverFromError(id, errMsg);
          return;
        }
        db.FindByIdAndUpdate(id, FailedPatch);
        var thrown := EmitProgress(id, video, uploaderGone, 0, Failed, MissingFileMessage, None);
        if thrown {
          RecoverFromError(id, NullUploaderMessage);
        }
        return;
      }
      if fault == AtStartWrite {
        RecoverFromError(id, errMsg);
        return;
      }
      StartAndAnalyze(id, uploaderGone, random, fault, errMsg);
    }

    /** From the `processing` update to the end of `processVideo`, for the
        record stored under `id`, populated with a null uploader when
        `uploaderGone`. */
    method StartAndAnalyze(id: string, uploaderGone: bool, random: real, fault: Fault, errMsg: string)
      requires id in db.videos
      modifies db`videos, this`emitted
      ensures db.videos == RunStarted(old(db.videos), hasIo, id, uploaderGone, random, fault, errMsg).videos
      ensures emitted == old(emitted) + RunStarted(old(db.videos), hasIo, id, uploaderGone, random, fault, errMsg).events
    {
      var video := db.videos[id];
      db.FindByIdAndUpdate(id, StartPatch);
      var thrown := EmitProgress(id, video, uploaderGone, 0, Processing, StartMessage, None);
      if thrown {
        RecoverFromError(id, NullUploaderMessage);
        return;
      }
      AnalyzeThenRecover(id, video, uploaderGone, random, fault, errMsg);
    }

    /** `await this.analyzeVideo(video)` and, if it throws, the `catch` block. */
    method AnalyzeThenRecover(id: string, video: VideoRecord, uploaderGone: bool, random: real, fault: Fault,
                              errMsg: string)
      requires id in db.videos
      modifies db`videos, this`emitted
      ensures var a := Analyze(old(db.videos), hasIo, id, video, uploaderGone, random, fault);
        && db.videos == (if a.thrown then Recover(a.videos, hasIo, id, errMsg).videos else a.videos)
        && emitted == old(emitted) + a.events + (if a.thrown then Recover(a.videos, hasIo, id, errMsg).events else [])
    {
      var thrown := AnalyzeVideo(id, video, uploaderGone, random, fault);
      if thrown {
        RecoverFromError(id, errMsg);
      }
    }

    /** The `for` loop of `analyzeVideo`: each stage writes its progress
        and announces it; `thrown` when a stage write rejects or the first
        announcement reads a null uploader. */
    method RunStages(id: string, video: VideoRecord, uploaderGone: bool, fault: Fault) returns (thrown: bool)
      requires id in db.videos
      modifies db`videos, this`emitted
      ensures thrown == (StagesDone(fault) < |Stages| || (hasIo && uploaderGone))
      ensures db.videos == Staged(old(db.videos), id, StagesWritten(fault, hasIo && uploaderGone))
      ensures emitted == old(emitted) + (if hasIo && uploaderGone then [] else StageEvents(hasIo, id, video, StagesDone(fault)))
    {
      for i := 0 to |Stages|
        invariant id in db.videos
        invariant db.videos == Staged(old(db.videos), id, i)
        invariant emitted == old(emitted) + StageEvents(hasIo, id, video, i)
        invariant forall j :: 0 <= j < i ==> fault != AtStage(j)
        invariant hasIo && uploaderGone ==> i == 0
      {
        if fault == AtStage(i) {
          return true;
        }
        db.FindByIdAndUpdate(id, ProgressPatch(Stages[i].progress));
        var failed := EmitProgress(id, video, uploaderGone, Stages[i].progress, Processing, Stages[i].message, None);
        if failed {
          return true;
        }
      }
      return false;
    }

    /** `analyzeVideo(video)` for the video stored under `id`, populated
        with a null uploader when `uploaderGone`. */
    method AnalyzeVideo(id: string, video: VideoRecord, uploaderGone: bool, random: real, fault: Fault)
      returns (thrown: bool)
      requires id in db.videos
      modifies db`videos, this`emitted
      ensures thrown == Analyze(old(db.videos), hasIo, id, video, uploaderGone, random, fault).thrown
      ensures db.videos == Analyze(old(db.videos), hasIo, id, video, uploaderGone, random, fault).videos
      ensures emitted == old(emitted) + Analyze(old(db.videos), hasIo, id, video, uploaderGone, random, fault).events
    {
      thrown := RunStages(id, video, uploaderGone, fault);
      if thrown || fault == AtFinalWrite {
        return true;
      }
      var sensitivity := MockSensitivity(video.title, random);
      var duration := MockDuration(video.size);
      db.FindByIdAndUpdate(id, FinalPatch(sensitivity, duration));
      if fault == AtReload {
        return true;
      }
      var updated := db.videos[id];
      thrown := EmitProgress(id, updated, uploaderGone, 100, Completed, DoneMessage, Some(sensitivity));
    }

    /** `getQueueStatus()`: the number of jobs and their ids. */
    method GetQueueStatus() returns (size: nat, jobs: seq<string>)
      ensures size == |processingQueue|
      ensures |jobs| == size
      ensures forall j :: j in jobs <==> j in processingQueue
      ensures forall a, b :: 0 <= a < b < |jobs| ==> jobs[a] != jobs[b]
    {
      var rest := processingQueue.Keys;
      jobs := [];
      while rest != {}
        invariant rest <= processingQueue.Keys
        invariant forall j :: j in jobs <==> j in processingQueue && j !in rest
        invariant |jobs| + |rest| == |processingQueue.Keys|
        invariant forall a, b :: 0 <= a < b < |jobs| ==> jobs[a] != jobs[b]
        decreases rest
      {
        var k :| k in rest;
        jobs := jobs + [k];
        rest := rest - {k};
      }
      size := |processingQueue|;
    }
  }
}
