/** What a processing run guarantees, proved about `Processor.Run`, the
    function that `VideoProcessor.ProcessVideo` is verified against. */
module ProcessingProperties {
  import opened Wrappers
  import opened Models
  import opened Store
  import opened Processor

  /** The (progress, status) pairs a subscriber of `room` receives, in order. */
  function Trace(es: seq<Emission>, room: string): seq<(int, Status)>
  {
    if es == [] then []
    else (if es[0].room == room then [(es[0].event.progress, es[0].event.status)] else [])
         + Trace(es[1..], room)
  }

  lemma {:induction false} TraceAppend(a: seq<Emission>, b: seq<Emission>, room: string)
    ensures Trace(a + b, room) == Trace(a, room) + Trace(b, room)
    decreases |a|
  {
    if a != [] {
      TraceAppend(a[1..], b, room);
      assert (a + b)[1..] == a[1..] + b;
    } else {
      assert a + b == b;
    }
  }

  /** A room that receives the reports about `v`: its uploader's or its tenant's. */
  predicate Subscribes(room: string, v: VideoRecord)
  {
    room == UserRoom(v.uploadedBy) || room == TenantRoom(v.tenantId)
  }

  lemma DeliveriesTrace(id: string, v: VideoRecord, progress: int, status: Status, message: string,
                        sensitivity: Option<Sensitivity>, room: string)
    requires Subscribes(room, v)
    ensures Trace(Deliveries(true, id, v, progress, status, message, sensitivity), room) == [(progress, status)]
  {
    var es := Deliveries(true, id, v, progress, status, message, sensitivity);
    assert Trace(es[1..][1..], room) == [];
    if room == es[0].room {
      assert Trace(es[1..], room) == [];
    } else {
      assert Trace(es[1..], room) == [(progress, status)];
    }
  }

  /** What each subscriber sees of a run that completes. */
  const SuccessTrace: seq<(int, Status)> := [
    (0, Processing), (20, Processing), (40, Processing), (60, Processing),
    (80, Processing), (100, Processing), (100, Completed)
  ]

  predicate NonDecreasing(t: seq<(int, Status)>)
  {
    forall i, j :: 0 <= i < j < |t| ==> t[i].0 <= t[j].0
  }

  lemma {:induction false} StageTrace(id: string, v: VideoRecord, n: nat, room: string)
    requires n <= |Stages| && Subscribes(room, v)
    ensures Trace(StageEvents(true, id, v, n), room) == SuccessTrace[1..n + 1]
  {
    if n > 0 {
      StageTrace(id, v, n - 1, room);
      TraceAppend(StageEvents(true, id, v, n - 1),
                  Deliveries(true, id, v, Stages[n - 1].progress, Processing, Stages[n - 1].message, None), room);
      DeliveriesTrace(id, v, Stages[n - 1].progress, Processing, Stages[n - 1].message, None, room);
      assert SuccessTrace[1..n + 1] == SuccessTrace[1..n] + [SuccessTrace[n]];
    }
  }

  lemma {:induction false} StageEventsSilent(id: string, v: VideoRecord, n: nat)
    requires n <= |Stages|
    ensures StageEvents(false, id, v, n) == []
  {
    if n > 0 {
      StageEventsSilent(id, v, n - 1);
    }
  }

  /** A fault that actually interrupts a run whose file exists. */
  predicate Fires(fault: Fault)
  {
    || fault == AtLookup || fault == AtStartWrite || fault == AtFinalWrite || fault == AtReload
    || (fault.AtStage? && fault.index < |Stages|)
  }

  /** How many reports a subscriber receives before the failure report;
      none when the first report throws on a deleted uploader (`gone`). */
  function ReportsBeforeFailure(fault: Fault, gone: bool): nat
  {
    if gone then 0 else
    match fault
    case AtStage(i) => if i < |Stages| then i + 1 else |SuccessTrace|
    case AtFinalWrite => |Stages| + 1
    case AtReload => |Stages| + 1
    case NoFault => |SuccessTrace|
    case AtMissingFileWrite => |SuccessTrace|
    case _ => 0
  }

  /** The owner and tenant of the record under analysis never change. */
  lemma AnalyzeKeepsOwner(videos: map<string, VideoRecord>, hasIo: bool, id: string, v: VideoRecord,
                          gone: bool, random: real, fault: Fault)
    requires id in videos
    ensures var a := Analyze(videos, hasIo, id, v, gone, random, fault);
      && id in a.videos
      && a.videos[id].uploadedBy == videos[id].uploadedBy
      && a.videos[id].tenantId == videos[id].tenantId
  {
    AnalyzePatched(videos, hasIo, id, v, gone, random, fault);
  }

  /** The reports up to the last stage reached: the start and the stages. */
  lemma {:induction false} StagesReachedTrace(id: string, v: VideoRecord, fault: Fault, room: string)
    requires Subscribes(room, v)
    ensures var startEvents := Deliveries(true, id, v, 0, Processing, StartMessage, None);
      Trace(startEvents + StageEvents(true, id, v, StagesDone(fault)), room)
      == SuccessTrace[..StagesDone(fault) + 1]
  {
    var n := StagesDone(fault);
    var startEvents := Deliveries(true, id, v, 0, Processing, StartMessage, None);
    DeliveriesTrace(id, v, 0, Processing, StartMessage, None, room);
    StageTrace(id, v, n, room);
    TraceAppend(startEvents, StageEvents(true, id, v, n), room);
    assert SuccessTrace[..n + 1] == [SuccessTrace[0]] + SuccessTrace[1..n + 1];
  }

  /** The reports of a run that fails after its `processing` update. */
  lemma {:induction false} StartedFailureTrace(videos: map<string, VideoRecord>, id: string, random: real,
                                               fault: Fault, errMsg: string, room: string)
    requires id in videos && Subscribes(room, videos[id])
    requires Analyze(videos[id := ApplyPatch(videos[id], StartPatch)], true, id, videos[id], false, random, fault).thrown
    ensures Trace(RunStarted(videos, true, id, false, random, fault, errMsg).events, room)
            == SuccessTrace[..StagesDone(fault) + 1] + [(0, Failed)]
  {
    var v := videos[id];
    var started := videos[id := ApplyPatch(v, StartPatch)];
    var startEvents := Deliveries(true, id, v, 0, Processing, StartMessage, None);
    var a := Analyze(started, true, id, v, false, random, fault);
    var n := StagesDone(fault);
    assert a.events == StageEvents(true, id, v, n);
    StagesReachedTrace(id, v, fault, room);
    AnalyzeKeepsOwner(started, true, id, v, false, random, fault);
    var r := Recover(a.videos, true, id, errMsg);
    var failed := ApplyPatch(a.videos[id], FailedPatch);
    assert r.events == Deliveries(true, id, failed, 0, Failed, errMsg, None);
    DeliveriesTrace(id, failed, 0, Failed, errMsg, None, room);
    TraceAppend(startEvents + a.events, r.events, room);
    assert RunStarted(videos, true, id, false, random, fault, errMsg).events == startEvents + a.events + r.events;
  }

  /** The reports of a run that completes. */
  lemma {:induction false} StartedSuccessTrace(videos: map<string, VideoRecord>, id: string, random: real,
                                               fault: Fault, errMsg: string, room: string)
    requires id in videos && Subscribes(room, videos[id])
    requires !Analyze(videos[id := ApplyPatch(videos[id], StartPatch)], true, id, videos[id], false, random, fault).thrown
    ensures Trace(RunStarted(videos, true, id, false, random, fault, errMsg).events, room) == SuccessTrace
  {
    var v := videos[id];
    var started := videos[id := ApplyPatch(v, StartPatch)];
    var startEvents := Deliveries(true, id, v, 0, Processing, StartMessage, None);
    var a := Analyze(started, true, id, v, false, random, fault);
    var n := StagesDone(fault);
    assert n == |Stages|;
    var stageEvents := StageEvents(true, id, v, n);
    var sensitivity := MockSensitivity(v.title, random);
    AnalyzeKeepsOwner(started, true, id, v, false, random, fault);
    var doneEvents := Deliveries(true, id, a.videos[id], 100, Completed, DoneMessage, Some(sensitivity));
    assert a.events == stageEvents + doneEvents;
    StagesReachedTrace(id, v, fault, room);
    DeliveriesTrace(id, a.videos[id], 100, Completed, DoneMessage, Some(sensitivity), room);
    assert startEvents + a.events == (startEvents + stageEvents) + doneEvents;
    TraceAppend(startEvents + stageEvents, doneEvents, room);
  }

  /** The reports of a run once its `processing` update is written, for
      an uploader that still exists. */
  lemma StartedTrace(videos: map<string, VideoRecord>, id: string, random: real,
                     fault: Fault, errMsg: string, room: string)
    requires id in videos && Subscribes(room, videos[id]) && fault != AtLookup && fault != AtStartWrite
    ensures Trace(RunStarted(videos, true, id, false, random, fault, errMsg).events, room)
            == if Fires(fault) then SuccessTrace[..ReportsBeforeFailure(fault, false)] + [(0, Failed)]
               else SuccessTrace
  {
    var started := videos[id := ApplyPatch(videos[id], StartPatch)];
    if Analyze(started, true, id, videos[id], false, random, fault).thrown {
      StartedFailureTrace(videos, id, random, fault, errMsg, room);
      assert Fires(fault) && ReportsBeforeFailure(fault, false) == StagesDone(fault) + 1;
    } else {
      StartedSuccessTrace(videos, id, random, fault, errMsg, room);
    }
  }

  /** A subscriber sees 0, 20, 40, 60, 80, 100 while processing and then
      100 completed; a run that fails shows a prefix of that sequence
      followed by one `failed` report at progress 0. A run whose uploader
      was deleted shows the `failed` report alone. */
  lemma RunTrace(videos: map<string, VideoRecord>, files: map<string, nat>, users: seq<User>, id: string,
                 random: real, fault: Fault, errMsg: string, room: string)
    requires id in videos && videos[id].filepath in files && Subscribes(room, videos[id])
    ensures var gone := UploaderGone(users, videos[id]);
      Trace(Run(videos, files, users, true, id, random, fault, errMsg).events, room)
      == if Fires(fault) || gone then SuccessTrace[..ReportsBeforeFailure(fault, gone)] + [(0, Failed)]
         else SuccessTrace
  {
    var v := videos[id];
    var gone := UploaderGone(users, v);
    if fault == AtLookup || fault == AtStartWrite {
      var r := Recover(videos, true, id, errMsg);
      assert Run(videos, files, users, true, id, random, fault, errMsg) == r;
      assert r.events == Deliveries(true, id, ApplyPatch(v, FailedPatch), 0, Failed, errMsg, None);
      DeliveriesTrace(id, ApplyPatch(v, FailedPatch), 0, Failed, errMsg, None, room);
    } else if gone {
      var started := videos[id := ApplyPatch(v, StartPatch)];
      var r := Recover(started, true, id, NullUploaderMessage);
      assert Run(videos, files, users, true, id, random, fault, errMsg) == r;
      var failed := ApplyPatch(started[id], FailedPatch);
      assert r.events == Deliveries(true, id, failed, 0, Failed, NullUploaderMessage, None);
      DeliveriesTrace(id, failed, 0, Failed, NullUploaderMessage, None, room);
    } else {
      assert Run(videos, files, users, true, id, random, fault, errMsg) == RunStarted(videos, true, id, false, random, fault, errMsg);
      StartedTrace(videos, id, random, fault, errMsg, room);
    }
  }

  /** What each subscriber of a run whose file exists sees: the success
      sequence, or the first reports of it followed by `failed` at 0. */
  function ExpectedTrace(fault: Fault, gone: bool): seq<(int, Status)>
  {
    if Fires(fault) || gone then SuccessTrace[..ReportsBeforeFailure(fault, gone)] + [(0, Failed)]
    else SuccessTrace
  }

  lemma ExpectedTraceShape(fault: Fault, gone: bool)
    ensures var t := ExpectedTrace(fault, gone);
      && |t| >= 1
      && (Fires(fault) || gone ==> NonDecreasing(t[..|t| - 1]) && t[|t| - 1] == (0, Failed))
      && (!(Fires(fault) || gone) ==> NonDecreasing(t) && t[|t| - 1] == (100, Completed))
  {
    assert NonDecreasing(SuccessTrace);
    if Fires(fault) || gone {
      var before := SuccessTrace[..ReportsBeforeFailure(fault, gone)];
      assert ExpectedTrace(fault, gone)[..|ExpectedTrace(fault, gone)| - 1] == before;
    }
  }

  /** Progress never goes down while a run is reported; the only drop is
      the single final `failed` report at 0. */
  lemma RunProgressNonDecreasing(videos: map<string, VideoRecord>, files: map<string, nat>, users: seq<User>,
                                 id: string, random: real, fault: Fault, errMsg: string, room: string)
    requires id in videos && videos[id].filepath in files && Subscribes(room, videos[id])
    ensures var t := Trace(Run(videos, files, users, true, id, random, fault, errMsg).events, room);
      var fails := Fires(fault) || UploaderGone(users, videos[id]);
      && |t| >= 1
      && (fails ==> NonDecreasing(t[..|t| - 1]) && t[|t| - 1] == (0, Failed))
      && (!fails ==> NonDecreasing(t) && t[|t| - 1] == (100, Completed))
  {
    RunTrace(videos, files, users, id, random, fault, errMsg, room);
    ExpectedTraceShape(fault, UploaderGone(users, videos[id]));
  }

  /** Without a Socket.io server a run reports nothing, whatever happens. */
  lemma RunWithoutIoIsSilent(videos: map<string, VideoRecord>, files: map<string, nat>, users: seq<User>, id: string,
                             random: real, fault: Fault, errMsg: string)
    ensures Run(videos, files, users, false, id, random, fault, errMsg).events == []
  {
    if id in videos {
      StageEventsSilent(id, videos[id], StagesDone(fault));
    }
  }

  /** An unknown id: no store update and no report, whatever fails. */
  lemma MissingRecordUntouched(videos: map<string, VideoRecord>, files: map<string, nat>, users: seq<User>,
                               hasIo: bool, id: string, random: real, fault: Fault, errMsg: string)
    requires id !in videos
    ensures Run(videos, files, users, hasIo, id, random, fault, errMsg) == RunResult(videos, [])
  {
  }

  /** A missing file: one `failed`/0 update and a `failed` report at 0;
      the record never enters `processing`. */
  lemma MissingFileFails(videos: map<string, VideoRecord>, files: map<string, nat>, users: seq<User>,
                         hasIo: bool, id: string, random: real, fault: Fault, errMsg: string)
    requires id in videos && videos[id].filepath !in files
    ensures var r := Run(videos, files, users, hasIo, id, random, fault, errMsg);
      && r.videos == videos[id := videos[id].(status := Failed, processingProgress := 0)]
      && |r.events| == (if hasIo then 2 else 0)
      && forall e :: e in r.events ==> e.event.status == Failed && e.event.progress == 0
  {
  }

  /** A run with no fault ends with exactly `status`, `sensitivityStatus`,
      `processingProgress` and `duration` written (the thumbnail and every
      other path keep their values) and a last report `completed` at 100
      carrying the computed classification; unless its first report throws
      on a deleted uploader, which leaves the record `failed` at 0. */
  lemma CompletedRecord(videos: map<string, VideoRecord>, files: map<string, nat>, users: seq<User>,
                        hasIo: bool, id: string, random: real, errMsg: string)
    requires id in videos && videos[id].filepath in files
    ensures var v := videos[id];
      var r := Run(videos, files, users, hasIo, id, random, NoFault, errMsg);
      var sensitivity := MockSensitivity(v.title, random);
      var throws := hasIo && UploaderGone(users, v);
      && (!throws ==>
            && r.videos == videos[id := v.(status := Completed, sensitivityStatus := sensitivity,
                                           processingProgress := 100, duration := Some(MockDuration(v.size)))]
            && r.videos[id].thumbnail == v.thumbnail
            && (hasIo ==>
                  && |r.events| >= 2
                  && r.events[|r.events| - 1].event == ProgressEvent(id, v.title, 100, Completed, DoneMessage, sensitivity)))
      && (throws ==> r.videos == videos[id := v.(status := Failed, processingProgress := 0)])
  {
    var v := videos[id];
    var gone := UploaderGone(users, v);
    var started := videos[id := ApplyPatch(v, StartPatch)];
    if !(hasIo && gone) {
      var a := Analyze(started, hasIo, id, v, gone, random, NoFault);
      assert !a.thrown;
    }
  }

  /** A run interrupted after the lookup ends `failed` at 0 with every
      other path as it was (the classification and duration too, unless
      it was the re-read after the final update that failed), and its last
      report is `failed` at 0 with the error's message: the rejected call's,
      or the `TypeError`'s when the first report read a deleted uploader. */
  lemma FailedRecord(videos: map<string, VideoRecord>, files: map<string, nat>, users: seq<User>, hasIo: bool,
                     id: string, random: real, fault: Fault, errMsg: string)
    requires id in videos && videos[id].filepath in files
    requires Fires(fault) || (hasIo && UploaderGone(users, videos[id]))
    ensures var v := videos[id];
      var r := Run(videos, files, users, hasIo, id, random, fault, errMsg);
      var throws := hasIo && UploaderGone(users, v);
      var message := if throws && fault != AtLookup && fault != AtStartWrite then NullUploaderMessage else errMsg;
      && id in r.videos
      && r.videos[id].status == Failed && r.videos[id].processingProgress == 0
      && r.videos[id].(sensitivityStatus := v.sensitivityStatus, duration := v.duration)
         == v.(status := Failed, processingProgress := 0)
      && ((fault != AtReload || throws) ==> r.videos[id] == v.(status := Failed, processingProgress := 0))
      && (hasIo ==>
            && |r.events| >= 2
            && r.events[|r.events| - 1].event
               == ProgressEvent(id, v.title, 0, Failed, message, r.videos[id].sensitivityStatus))
  {
    var v := videos[id];
    var gone := UploaderGone(users, v);
    if fault != AtLookup && fault != AtStartWrite && !(hasIo && gone) {
      var started := videos[id := ApplyPatch(v, StartPatch)];
      var a := Analyze(started, hasIo, id, v, gone, random, fault);
      assert a.thrown;
    }
  }

  /** With a Socket.io server, a run whose uploader was deleted fails at
      its first report, whether its file exists or not: the record ends
      `failed` at 0 with every other path as it was, and each of the two
      rooms receives one `failed` report at 0 with the `TypeError`'s
      message. (A rejected lookup or a rejected write before that report
      is the case of `FailedRecord` and `MissingFileFails`.) */
  lemma DeletedUploaderFails(videos: map<string, VideoRecord>, files: map<string, nat>, users: seq<User>,
                             id: string, random: real, fault: Fault, errMsg: string)
    requires id in videos && UploaderGone(users, videos[id])
    requires fault != AtLookup && fault != AtMissingFileWrite && fault != AtStartWrite
    ensures var failed := videos[id].(status := Failed, processingProgress := 0);
      var r := Run(videos, files, users, true, id, random, fault, errMsg);
      && r.videos == videos[id := failed]
      && r.events == Deliveries(true, id, failed, 0, Failed, NullUploaderMessage, None)
  {
    var v := videos[id];
    var failed := v.(status := Failed, processingProgress := 0);
    if v.filepath in files {
      var started := videos[id := ApplyPatch(v, StartPatch)];
      assert started[id := ApplyPatch(started[id], FailedPatch)] == videos[id := failed];
    } else {
      var once := videos[id := ApplyPatch(v, FailedPatch)];
      assert once[id := ApplyPatch(once[id], FailedPatch)] == videos[id := failed];
    }
  }

  // ------------------------------------------------------------ frames

  /** `after` differs from `before` at most in record `id`, and there only
      in the four paths an update of the processor writes; a well-formed
      record stays well formed. */
  predicate PatchedAt(before: map<string, VideoRecord>, after: map<string, VideoRecord>, id: string)
  {
    && after.Keys == before.Keys
    && (forall k :: k in before && k != id ==> after[k] == before[k])
    && (id in before ==>
          && after[id].(status := before[id].status, sensitivityStatus := before[id].sensitivityStatus,
                        processingProgress := before[id].processingProgress, duration := before[id].duration)
             == before[id]
          && (WellFormedVideo(before[id]) ==> WellFormedVideo(after[id])))
  }

  lemma PatchedAtTrans(a: map<string, VideoRecord>, b: map<string, VideoRecord>, c: map<string, VideoRecord>, id: string)
    requires PatchedAt(a, b, id) && PatchedAt(b, c, id)
    ensures PatchedAt(a, c, id)
  {
  }

  lemma PatchOnePatched(videos: map<string, VideoRecord>, id: string, p: VideoPatch)
    requires id in videos && PatchInBounds(p)
    ensures PatchedAt(videos, videos[id := ApplyPatch(videos[id], p)], id)
  {
    var after := videos[id := ApplyPatch(videos[id], p)];
    assert after.Keys == videos.Keys;
    assert forall k :: k in videos && k != id ==> after[k] == videos[k];
    assert after[id] == ApplyPatch(videos[id], p);
    if WellFormedVideo(videos[id]) {
      PatchKeepsWellFormed(videos[id], p);
    }
  }

  lemma RecoverPatched(videos: map<string, VideoRecord>, hasIo: bool, id: string, errMsg: string)
    ensures PatchedAt(videos, Recover(videos, hasIo, id, errMsg).videos, id)
  {
    if id in videos {
      PatchOnePatched(videos, id, FailedPatch);
    }
  }

  lemma AnalyzePatched(videos: map<string, VideoRecord>, hasIo: bool, id: string, v: VideoRecord,
                       gone: bool, random: real, fault: Fault)
    requires id in videos
    ensures PatchedAt(videos, Analyze(videos, hasIo, id, v, gone, random, fault).videos, id)
  {
    var n := StagesWritten(fault, hasIo && gone);
    var staged := Staged(videos, id, n);
    if n > 0 {
      PatchOnePatched(videos, id, ProgressPatch(Stages[n - 1].progress));
    }
    if !(hasIo && gone) && n == |Stages| && fault != AtFinalWrite {
      var sensitivity := MockSensitivity(v.title, random);
      PatchOnePatched(staged, id, FinalPatch(sensitivity, MockDuration(v.size)));
      PatchedAtTrans(videos, staged, staged[id := ApplyPatch(staged[id], FinalPatch(sensitivity, MockDuration(v.size)))], id);
    }
  }

  lemma StartedPatched(videos: map<string, VideoRecord>, hasIo: bool, id: string, gone: bool,
                       random: real, fault: Fault, errMsg: string)
    requires id in videos
    ensures PatchedAt(videos, RunStarted(videos, hasIo, id, gone, random, fault, errMsg).videos, id)
  {
    var v := videos[id];
    var started := videos[id := ApplyPatch(v, StartPatch)];
    PatchOnePatched(videos, id, StartPatch);
    if hasIo && gone {
      RecoverPatched(started, hasIo, id, NullUploaderMessage);
      PatchedAtTrans(videos, started, Recover(started, hasIo, id, NullUploaderMessage).videos, id);
      return;
    }
    var a := Analyze(started, hasIo, id, v, gone, random, fault);
    AnalyzePatched(started, hasIo, id, v, gone, random, fault);
    PatchedAtTrans(videos, started, a.videos, id);
    if a.thrown {
      RecoverPatched(a.videos, hasIo, id, errMsg);
      PatchedAtTrans(videos, a.videos, Recover(a.videos, hasIo, id, errMsg).videos, id);
    }
  }

  /** A run adds and removes no record, leaves every other record as it
      was, changes its own only in `status`, `sensitivityStatus`,
      `processingProgress` and `duration`, and keeps it well formed. */
  lemma RunPatchesOnly(videos: map<string, VideoRecord>, files: map<string, nat>, users: seq<User>, hasIo: bool,
                       id: string, random: real, fault: Fault, errMsg: string)
    ensures PatchedAt(videos, Run(videos, files, users, hasIo, id, random, fault, errMsg).videos, id)
  {
    if fault == AtLookup {
      RecoverPatched(videos, hasIo, id, errMsg);
    } else if id in videos {
      var v := videos[id];
      var gone := UploaderGone(users, v);
      if v.filepath !in files || fault == AtStartWrite {
        RecoverPatched(videos, hasIo, id, errMsg);
        PatchOnePatched(videos, id, FailedPatch);
        var failed := videos[id := ApplyPatch(v, FailedPatch)];
        RecoverPatched(failed, hasIo, id, NullUploaderMessage);
        PatchedAtTrans(videos, failed, Recover(failed, hasIo, id, NullUploaderMessage).videos, id);
      } else {
        assert Run(videos, files, users, hasIo, id, random, fault, errMsg)
               == RunStarted(videos, hasIo, id, gone, random, fault, errMsg);
        StartedPatched(videos, hasIo, id, gone, random, fault, errMsg);
      }
    }
  }

  /** Every stored record stays well formed across a run. */
  lemma RunKeepsWellFormed(videos: map<string, VideoRecord>, files: map<string, nat>, users: seq<User>, hasIo: bool,
                           id: string, random: real, fault: Fault, errMsg: string)
    requires forall k :: k in videos ==> WellFormedVideo(videos[k])
    ensures var r := Run(videos, files, users, hasIo, id, random, fault, errMsg);
      forall k :: k in r.videos ==> WellFormedVideo(r.videos[k])
  {
    RunPatchesOnly(videos, files, users, hasIo, id, random, fault, errMsg);
  }
}
