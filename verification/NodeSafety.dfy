/** The invariant over events and over whole runs. */
module NodeSafety {
  import opened Bytes
  import opened Keys
  import opened Merkle
  import opened Domain
  import opened Download
  import opened Node
  import opened NodeInvariant
  import opened NodePreservation

  // ----- publish and download requests -----

  lemma PublishStartInv(w: World, s: State, sid: nat, d: Dir)
    requires WellFormed(w) && Inv(w, s) && CanPublishStart(w, s, sid, d)
    ensures Inv(w, DoPublishStart(w, s, sid, d))
  {
    assert Genuine(w, d);
    var b := Restored(w, s.disk, d, w.contents[d]);
    DestinationWritten(w, s.disk, d, w.contents[d]);
    InvGrows(w, s, b, None, None);
    assert s.mem.sessions - {sid} == s.mem.sessions;
    assert EndSession(s.(disk := b), sid) == s.(disk := b);
    InvSessionEnters(w, s.(disk := b), sid, Splitting(d, 0));
  }

  /** The disk with the next chunk file of a file being published. */
  function WithNextChunk(w: World, s: State, sid: nat): Disk
    requires CanPublishChunk(w, s, sid)
  {
    var Splitting(d, next) := s.mem.sessions[sid];
    s.disk.(files := s.disk.files[ChunkPath(d, next, FILE_CHUNK_EXTENSION) := w.contents[d][next]])
  }

  lemma NextChunkInv(w: World, s: State, sid: nat)
    requires WellFormed(w) && Inv(w, s) && CanPublishChunk(w, s, sid)
    ensures
      var Splitting(d, next) := s.mem.sessions[sid];
      var b := WithNextChunk(w, s, sid);
      Inv(w, s.(disk := b)) && Grows(w, s.disk, b) && ChunkOk(w, b, d, next)
  {
    var Splitting(d, next) := s.mem.sessions[sid];
    assert SessionOk(w, s.disk, s.mem.sessions[sid]);
    assert Genuine(w, d);
    ChunkStored(w, s.disk, d, next, w.contents[d][next]);
    InvGrows(w, s, WithNextChunk(w, s, sid), None, None);
  }

  lemma PublishChunkInv(w: World, s: State, sid: nat)
    requires WellFormed(w) && Inv(w, s) && CanPublishChunk(w, s, sid)
    ensures Inv(w, DoPublishChunk(w, s, sid))
  {
    var Splitting(d, next) := s.mem.sessions[sid];
    var b := WithNextChunk(w, s, sid);
    NextChunkInv(w, s, sid);
    InvSessionLeaves(w, s.(disk := b), sid);
    SessionLeaves(w, b, s.mem.sessions, sid);
    SplittingNext(w, s.disk, b, d, next);
    InvSessionEnters(w, s.(disk := b), sid, Splitting(d, next + 1));
  }

  lemma SplittingNext(w: World, a: Disk, b: Disk, d: Dir, next: nat)
    requires SessionOk(w, a, Splitting(d, next)) && Grows(w, a, b) && b.claimed == a.claimed
    requires ChunkOk(w, b, d, next) && next < |w.contents[d]|
    ensures SessionOk(w, b, Splitting(d, next + 1))
  {
  }

  /** Metadata files of directories that no record and no other session uses may change. */
  lemma MetaChanged(w: World, s: State, sid: nat, d: Dir, file: MetaFile, session: Session)
    requires Inv(w, s) && d in w.meta && d !in s.disk.claimed
    requires file.Saved? ==> file.metadata == w.meta[d]
    requires NoneUses(s.mem.sessions - {sid}, Some(d)) && !session.LookingUp? && session.dir == d
    requires SessionOk(w, s.disk.(metas := s.disk.metas[d := file]), session)
    ensures Inv(w, SetSession(SetMeta(s, d, file), sid, session))
  {
    InvSessionLeaves(w, s, sid);
    var b := s.disk.(metas := s.disk.metas[d := file]);
    InvGrows(w, EndSession(s, sid), b, Some(d), None);
    InvSessionEnters(w, SetMeta(s, d, file), sid, session);
  }

  lemma PublishSaveInv(w: World, s: State, sid: nat)
    requires WellFormed(w) && Inv(w, s) && CanPublishSave(w, s, sid)
    ensures Inv(w, DoPublishSave(s, sid))
  {
    var d := s.mem.sessions[sid].dir;
    assert SessionOk(w, s.disk, s.mem.sessions[sid]);
    assert Genuine(w, d);
    SessionLeaves(w, s.disk, s.mem.sessions, sid);
    var b := s.disk.(metas := s.disk.metas[d := Torn]);
    assert AllChunks(w, b, d) by {
      forall i: nat | i < |w.meta[d].merkleProofs| ensures ChunkOk(w, b, d, i) {
        assert ChunkOk(w, s.disk, d, i);
      }
    }
    MetaChanged(w, s, sid, d, Torn, Saving(d, true));
  }

  lemma MetadataArrivesInv(w: World, s: State, sid: nat, d: Dir)
    requires WellFormed(w) && Inv(w, s) && CanMetadataArrives(w, s, sid, d)
    ensures Inv(w, SetSession(SetMeta(s, d, Torn), sid, Saving(d, false)))
  {
    MetaChanged(w, s, sid, d, Torn, Saving(d, false));
  }

  lemma SaveDoneInv(w: World, s: State, sid: nat, written: bool)
    requires WellFormed(w) && Inv(w, s) && CanSaveDone(w, s, sid)
    ensures Inv(w, DoSaveDone(w, s, sid, written))
  {
    var Saving(d, publish) := s.mem.sessions[sid];
    assert SessionOk(w, s.disk, s.mem.sessions[sid]);
    SessionLeaves(w, s.disk, s.mem.sessions, sid);
    var file := MetaAfter(w, d, written);
    var b := s.disk.(metas := s.disk.metas[d := file]);
    if publish {
      forall i: nat | i < |w.meta[d].merkleProofs| ensures ChunkOk(w, b, d, i) {
        assert ChunkOk(w, s.disk, d, i);
      }
    }
    MetaChanged(w, s, sid, d, file, Described(d, publish));
  }

  lemma StoreRecordInv(w: World, s: State, sid: nat, ok: bool)
    requires WellFormed(w) && Inv(w, s) && CanStoreRecord(w, s, sid)
    ensures Inv(w, DoStoreRecord(w, s, sid, ok))
  {
    InvSessionLeaves(w, s, sid);
    if ok {
      var Described(d, publish) := s.mem.sessions[sid];
      ClaimInv(w, s, sid);
      var t := EndSession(s, sid).(disk := s.disk.(claimed := s.disk.claimed + {d}));
      InvStore(w, t, DoStoreRecord(w, s, sid, ok).store);
    }
  }

  lemma ClaimInv(w: World, s: State, sid: nat)
    requires WellFormed(w) && Inv(w, s) && CanStoreRecord(w, s, sid)
    ensures
      var Described(d, publish) := s.mem.sessions[sid];
      var b := s.disk.(claimed := s.disk.claimed + {d});
      && Inv(w, EndSession(s, sid).(disk := b))
      && Genuine(w, d) && (publish ==> JobOk(w, b, w.meta[d]))
  {
    var Described(d, publish) := s.mem.sessions[sid];
    assert SessionOk(w, s.disk, s.mem.sessions[sid]);
    assert Genuine(w, d);
    InvSessionLeaves(w, s, sid);
    SessionLeaves(w, s.disk, s.mem.sessions, sid);
    InvGrows(w, EndSession(s, sid), s.disk.(claimed := s.disk.claimed + {d}), Some(d), None);
  }

  // ----- the publish queue -----

  lemma TakeJobInv(w: World, s: State, key: Key)
    requires Inv(w, s) && CanTakeJob(s, key)
    ensures Inv(w, SetWorker(s, Announcing(s.store.jobs[key], 0)))
  {
  }

  function NextAnnouncement(m: FileMetadata, next: nat): Announcement {
    if next == 0 then OfMetadata(m.chunksDir) else OfChunk(m.chunksDir, next - 1)
  }

  lemma AnnouncedOneMore(m: FileMetadata, next: nat, announced: set<Announcement>)
    requires AnnouncedUpTo(m, next, announced)
    ensures AnnouncedUpTo(m, next + 1, announced + {NextAnnouncement(m, next)})
  {
  }

  lemma JobChunk(w: World, disk: Disk, m: FileMetadata, i: nat)
    requires WellFormed(w) && JobOk(w, disk, m) && i < m.totalChunks
    ensures ChunkOk(w, disk, m.chunksDir, i)
  {
    assert Genuine(w, m.chunksDir);
  }

  lemma AnnounceNextInv(w: World, s: State, ok: bool)
    requires WellFormed(w) && Inv(w, s) && s.mem.worker.Announcing?
    ensures Inv(w, DoAnnounceNext(s, ok))
  {
    var Announcing(m, next) := s.mem.worker;
    if ok {
      AnnouncedOneMore(m, next, s.announced);
      if next > 0 { JobChunk(w, s.disk, m, next - 1); }
      AnnouncedInv(w, s, NextAnnouncement(m, next), DoAnnounceNext(s, true));
    } else {
      InvWorker(w, s, Announcing(m, 0));
    }
  }

  lemma AnnouncedInv(w: World, s: State, a: Announcement, t: State)
    requires Inv(w, s) && (a.OfChunk? ==> ChunkOk(w, s.disk, a.dir, a.id))
    requires t == SetWorker(Announce(s, a), t.mem.worker) && WorkerOk(w, s.disk, s.store, t.announced, t.mem.worker)
    ensures Inv(w, t)
  {
  }

  lemma RecordPublishedInv(w: World, s: State, ok: bool)
    requires Inv(w, s) && s.mem.worker.Recording?
    ensures Inv(w, DoRecordPublished(w, s, ok))
  {
    if ok {
      var store := DoRecordPublished(w, s, ok).store;
      InvStore(w, s, store);
      InvWorker(w, s.(store := store), Clearing(s.mem.worker.m));
    }
  }

  lemma ClearJobInv(w: World, s: State, ok: bool)
    requires Inv(w, s) && s.mem.worker.Clearing?
    ensures Inv(w, DoClearJob(w, s, ok))
  {
    if ok {
      InvWorker(w, s, Idle);
      InvStore(w, SetWorker(s, Idle), DoClearJob(w, s, ok).store);
    }
  }

  lemma ReannounceInv(w: World, s: State, key: Key, next: nat)
    requires WellFormed(w) && Inv(w, s) && CanReannounce(s, key, next)
    ensures Inv(w, DoReannounce(s, key, next))
  {
    var d := s.store.published[key].chunksDir;
    assert PublishedOk(w, s.disk, s.store.published[key]);
    assert Genuine(w, d);
    if next > 0 {
      assert ChunkOk(w, s.disk, d, next - 1);
    }
    InvAnnounce(w, s, if next == 0 then OfMetadata(d) else OfChunk(d, next - 1));
  }

  lemma StartUpInv(w: World, s: State, skipped: set<Key>)
    requires WellFormed(w) && Inv(w, s) && CanStartUp(s, skipped)
    ensures Inv(w, DoStartUp(s, skipped))
  {
    var t := DoStartUp(s, skipped);
    forall d, i | OfChunk(d, i) in t.announced
      ensures ChunkOk(w, s.disk, d, i)
    {
      if OfChunk(d, i) !in s.announced {
        var k :| k in s.store.published && k !in skipped
          && OfChunk(d, i) in Announced(s, s.store.published[k].chunksDir);
        assert PublishedOk(w, s.disk, s.store.published[k]);
        assert Genuine(w, d);
      }
    }
    MoreAnnounced(w, s, t);
  }

  lemma MoreAnnounced(w: World, s: State, t: State)
    requires Inv(w, s) && s.announced <= t.announced && AnnouncementsInv(w, s.disk, t.announced)
    requires t == SetWorker(s.(announced := t.announced), Idle)
    ensures Inv(w, t)
  {
  }

  // ----- scheduling and chunk tasks -----

  /** What the invariant says of one task, without its cases. */
  lemma TaskFacts(w: World, s: State, tid: nat)
    requires WellFormed(w) && Inv(w, s) && tid in s.mem.tasks
    ensures
      var Task(record, phase) := s.mem.tasks[tid];
      var d := record.chunksDir;
      && d in w.meta && Genuine(w, d) && d in s.disk.claimed
      && (Readable(s.disk, d) ==> s.disk.metas[d].metadata == w.meta[d])
      && (phase.Writing? ==>
            && phase.m == w.meta[d] && |phase.pieces| <= phase.m.totalChunks && AllAccepted(w, phase.m, phase.pieces)
            && PartFile(phase.m) in s.disk.files && s.disk.files[PartFile(phase.m)] == Flat(phase.pieces)
            && forall i: nat :: i < phase.m.totalChunks ==> ChunkOk(w, s.disk, d, i))
      && (phase.Deleting? ==> record.key in s.store.published && Complete(w, s.disk, d))
  {
    assert TaskOk(w, s.disk, s.store.published.Keys, s.mem.chunks.Keys, tid, s.mem.tasks[tid]);
  }

  lemma TickInv(w: World, s: State, snapshot: seq<PendingDownloadRecord>)
    requires Inv(w, s) && CanTick(s, snapshot)
    ensures Inv(w, s.(mem := s.mem.(stream := snapshot)))
  {
  }

  lemma StreamMoves(w: World, s: State, stream: seq<PendingDownloadRecord>, active: set<Key>)
    requires Inv(w, s) && s.mem.active <= active
    requires forall i :: 0 <= i < |stream| ==> RecordOk(w, s.disk, stream[i])
    ensures Inv(w, s.(mem := s.mem.(stream := stream, active := active)))
  {
  }

  lemma NextRecordInv(w: World, s: State, tid: nat)
    requires Inv(w, s) && CanNextRecord(s, tid)
    ensures Inv(w, DoNextRecord(s, tid))
  {
    var record := s.mem.stream[0];
    var active := if record.key in s.mem.active then s.mem.active else s.mem.active + {record.key};
    StreamMoves(w, s, [], s.mem.active);
    StreamMoves(w, s, s.mem.stream[1..], active);
    var rest := s.(mem := s.mem.(stream := s.mem.stream[1..], active := active));
    if s.mem.free > 0 && record.key !in s.mem.active {
      assert RecordOk(w, s.disk, record);
      assert WithoutTask(rest, tid) == rest by {
        assert rest.mem.tasks - {tid} == rest.mem.tasks;
      }
      InvTaskEnters(w, rest, tid, Task(record, Starting));
    }
  }

  lemma ReadMetadataInv(w: World, s: State, tid: nat, ok: bool)
    requires WellFormed(w) && Inv(w, s) && CanReadMetadata(s, tid, ok)
    ensures Inv(w, DoReadMetadata(s, tid, ok))
  {
    NoChunks(w, s, tid);
    assert TaskOk(w, s.disk, s.store.published.Keys, s.mem.chunks.Keys, tid, s.mem.tasks[tid]);
    if ok {
      var total := |w.meta[s.mem.tasks[tid].record.chunksDir].merkleProofs|;
      TasksStart(w, s.disk, s.store.published.Keys, s.mem.tasks, s.mem.chunks, tid, total);
      KeyKept(s.mem.tasks, s.mem.active, tid, s.mem.tasks[tid].(phase := Collecting(total, None)));
    } else {
      GrowsReflexive(w, s.disk);
      InvTaskMoves(w, s, s.disk, tid, Ended);
    }
  }

  /** A chunk task gets into a new state, and perhaps gives back its permit. */
  lemma ChunkStateInv(w: World, s: State, t: State, c: ChunkTask, state: ChunkState)
    requires Inv(w, s) && c in s.mem.chunks
    requires state == OnDisk || state == Done(Got) ==>
               c.task in s.mem.tasks && ChunkOk(w, s.disk, s.mem.tasks[c.task].record.chunksDir, c.id)
    requires t == s.(mem := s.mem.(chunks := s.mem.chunks[c := state], free := t.mem.free))
    ensures Inv(w, t)
  {
    assert ChunkTaskOk(w, s.disk, s.mem.tasks, c, s.mem.chunks[c]);
    ChunkMoves(w, s.disk, s.store.published.Keys, s.mem.tasks, s.mem.chunks, c, state);
  }

  lemma VerifyAndSaveInv(w: World, s: State, c: ChunkTask, ok: bool)
    requires WellFormed(w) && Inv(w, s) && CanVerifyAndSave(s, c)
    ensures Inv(w, DoVerifyAndSave(w, s, c, ok))
  {
    TaskFacts(w, s, c.task);
    var d := s.mem.tasks[c.task].record.chunksDir;
    if ok && Readable(s.disk, d)
      && c.id < |w.meta[d].merkleProofs| && Check(w, w.meta[d], c.id, s.mem.chunks[c].bytes) == Accepted
    {
      SavedInv(w, s, c);
    } else {
      ChunkStateInv(w, s, FinishChunk(s, c, Failed), c, Done(Failed));
    }
  }

  lemma SavedInv(w: World, s: State, c: ChunkTask)
    requires WellFormed(w) && Inv(w, s) && CanVerifyAndSave(s, c)
    requires s.mem.tasks[c.task].record.chunksDir in w.meta
    requires
      var m := w.meta[s.mem.tasks[c.task].record.chunksDir];
      c.id < |m.merkleProofs| && Check(w, m, c.id, s.mem.chunks[c].bytes) == Accepted
    ensures
      var d := s.mem.tasks[c.task].record.chunksDir;
      var file := ChunkPath(d, c.id, w.meta[d].chunkFileExtension);
      Inv(w, SetChunk(SetFiles(s, s.disk.files[file := s.mem.chunks[c].bytes]), c, OnDisk))
  {
    var d, bytes := s.mem.tasks[c.task].record.chunksDir, s.mem.chunks[c].bytes;
    ChunkStored(w, s.disk, d, c.id, bytes);
    var b := s.disk.(files := s.disk.files[ChunkPath(d, c.id, w.meta[d].chunkFileExtension) := bytes]);
    InvGrows(w, s, b, None, None);
    ChunkStateInv(w, s.(disk := b), SetChunk(s.(disk := b), c, OnDisk), c, OnDisk);
  }

  lemma AnnounceChunkInv(w: World, s: State, c: ChunkTask, ok: bool)
    requires Inv(w, s) && CanAnnounceChunk(s, c)
    ensures Inv(w, DoAnnounceChunk(s, c, ok))
  {
    assert ChunkTaskOk(w, s.disk, s.mem.tasks, c, s.mem.chunks[c]);
    if ok {
      var a := OfChunk(s.mem.tasks[c.task].record.chunksDir, c.id);
      InvAnnounce(w, s, a);
      ChunkStateInv(w, Announce(s, a), DoAnnounceChunk(s, c, ok), c, Done(Got));
    } else {
      ChunkStateInv(w, s, FinishChunk(s, c, Nothing), c, Done(Nothing));
    }
  }

  lemma JoinInv(w: World, s: State, c: ChunkTask, putOk: bool)
    requires Inv(w, s) && CanJoin(s, c)
    ensures Inv(w, DoJoin(s, c, putOk))
  {
    var t := DoJoin(s, c, putOk);
    var after := t.mem.tasks[c.task];
    TasksJoin(w, s.disk, s.store.published.Keys, s.mem.tasks, s.mem.chunks, c, after);
    KeyKept(s.mem.tasks, s.mem.active, c.task, after);
    var u := s.(mem := t.mem);
    assert Inv(w, u);
    InvStore(w, u, t.store);
  }

  lemma KeyKept(tasks: map<nat, Task>, active: set<Key>, tid: nat, task: Task)
    requires OneTaskPerKey(tasks) && KeysActive(tasks, active)
    requires tid in tasks && tasks[tid].record.key == task.record.key
    ensures OneTaskPerKey(tasks[tid := task]) && KeysActive(tasks[tid := task], active)
  {
  }

  lemma JoinsDoneInv(w: World, s: State, tid: nat)
    requires WellFormed(w) && Inv(w, s) && CanJoinsDone(s, tid)
    ensures Inv(w, DoJoinsDone(s, tid))
  {
    var Task(record, Collecting(total, firstError)) := s.mem.tasks[tid];
    assert TaskOk(w, s.disk, s.store.published.Keys, s.mem.chunks.Keys, tid, s.mem.tasks[tid]);
    PassComplete(w, s, tid);
    GrowsReflexive(w, s.disk);
    InvTaskMoves(w, s, s.disk, tid, DoJoinsDone(s, tid).mem.tasks[tid].phase);
  }

  /** A pass is over: the task goes on to complete the download exactly when no chunk is missing, and
      otherwise has ended. */
  lemma PassComplete(w: World, s: State, tid: nat)
    requires Inv(w, s) && CanJoinsDone(s, tid)
    ensures
      var task := s.mem.tasks[tid];
      DoJoinsDone(s, tid).mem.tasks[tid] == task.(phase := if AllDownloaded(w, task.record) then Completing else Ended)
  {
    var Task(record, Collecting(total, firstError)) := s.mem.tasks[tid];
    assert TaskOk(w, s.disk, s.store.published.Keys, s.mem.chunks.Keys, tid, s.mem.tasks[tid]);
    assert record.downloadedChunks <= Ids(total) by {
      forall i | i in record.downloadedChunks ensures i in Ids(total) {
        assert ChunkOk(w, s.disk, record.chunksDir, i);
      }
    }
    CountIsComplete(record.downloadedChunks, total);
  }

  // ----- completion -----

  lemma EndPassInv(w: World, s: State, tid: nat)
    requires WellFormed(w) && Inv(w, s) && tid in s.mem.tasks && !s.mem.tasks[tid].phase.Collecting?
    ensures Inv(w, SetPhase(s, tid, Ended))
  {
    NoChunks(w, s, tid);
    GrowsReflexive(w, s.disk);
    assert TaskOk(w, s.disk, s.store.published.Keys, s.mem.chunks.Keys, tid, s.mem.tasks[tid]);
    InvTaskMoves(w, s, s.disk, tid, Ended);
  }

  lemma OpenPartInv(w: World, s: State, tid: nat, ok: bool)
    requires WellFormed(w) && Inv(w, s) && CanOpenPart(s, tid, ok)
    ensures Inv(w, DoOpenPart(s, tid, ok))
  {
    if !ok {
      EndPassInv(w, s, tid);
    } else {
      NoChunks(w, s, tid);
      var task := s.mem.tasks[tid];
      assert TaskOk(w, s.disk, s.store.published.Keys, s.mem.chunks.Keys, tid, task);
      var m := w.meta[task.record.chunksDir];
      if Destination(m) in s.disk.files {
        GrowsReflexive(w, s.disk);
        InvTaskMoves(w, s, s.disk, tid, Publishing(m));
      } else {
        var files := s.disk.files[PartFile(m) := []];
        PartChanged(w, s.disk, task.record.chunksDir, files);
        InvTaskMoves(w, s, s.disk.(files := files), tid, Writing(m, []));
      }
    }
  }

  lemma AppendedOk(w: World, s: State, b: Disk, tid: nat)
    requires WellFormed(w) && Inv(w, s) && CanAppendChunk(s, tid, true)
    requires
      var Writing(m, pieces) := s.mem.tasks[tid].phase;
      b == s.disk.(files :=
        s.disk.files[PartFile(m) := s.disk.files[PartFile(m)] + s.disk.files[ChunkFile(m, |pieces|)]])
    requires Grows(w, s.disk, b)
    ensures
      var Task(record, Writing(m, pieces)) := s.mem.tasks[tid];
      TaskOk(w, b, s.store.published.Keys, s.mem.chunks.Keys, tid,
             Task(record, Writing(m, pieces + [s.disk.files[ChunkFile(m, |pieces|)]])))
  {
    var Task(record, Writing(m, pieces)) := s.mem.tasks[tid];
    var bytes := s.disk.files[ChunkFile(m, |pieces|)];
    assert TaskOk(w, s.disk, s.store.published.Keys, s.mem.chunks.Keys, tid, s.mem.tasks[tid]);
    assert Genuine(w, record.chunksDir);
    assert ChunkOk(w, s.disk, record.chunksDir, |pieces|);
    FlatSnoc(pieces, bytes);
    assert AllAccepted(w, m, pieces + [bytes]);
    assert RecordOk(w, b, record);
  }

  lemma AppendChunkInv(w: World, s: State, tid: nat, ok: bool)
    requires WellFormed(w) && Inv(w, s) && CanAppendChunk(s, tid, ok)
    ensures Inv(w, DoAppendChunk(s, tid, ok))
  {
    if !ok {
      EndPassInv(w, s, tid);
    } else {
      NoChunks(w, s, tid);
      var Task(record, Writing(m, pieces)) := s.mem.tasks[tid];
      var bytes := s.disk.files[ChunkFile(m, |pieces|)];
      var b := s.disk.(files := s.disk.files[PartFile(m) := s.disk.files[PartFile(m)] + bytes]);
      assert m == w.meta[record.chunksDir] by { TaskFacts(w, s, tid); }
      PartChanged(w, s.disk, record.chunksDir, b.files);
      AppendedOk(w, s, b, tid);
      InvTaskMoves(w, s, b, tid, Writing(m, pieces + [bytes]));
    }
  }

  lemma RenamePartInv(w: World, s: State, tid: nat, ok: bool)
    requires WellFormed(w) && Inv(w, s) && CanRenamePart(s, tid, ok)
    ensures Inv(w, DoRenamePart(s, tid, ok))
  {
    if !ok {
      EndPassInv(w, s, tid);
    } else {
      NoChunks(w, s, tid);
      var task := s.mem.tasks[tid];
      var Writing(m, pieces) := task.phase;
      var d := task.record.chunksDir;
      assert TaskOk(w, s.disk, s.store.published.Keys, s.mem.chunks.Keys, tid, task);
      assert Genuine(w, d);
      var a := s.disk.(files := s.disk.files - {PartFile(m)});
      PartChanged(w, s.disk, d, a.files);
      DestinationWritten(w, a, d, pieces);
      var b := Restored(w, a, d, pieces);
      assert b == DoRenamePart(s, tid, ok).disk;
      InvTaskMoves(w, s, b, tid, Publishing(m));
    }
  }

  lemma PutPublishedInv(w: World, s: State, tid: nat, ok: bool)
    requires WellFormed(w) && Inv(w, s) && InPublishing(s, tid)
    ensures Inv(w, DoPutPublished(s, tid, ok))
  {
    if !ok {
      EndPassInv(w, s, tid);
    } else {
      NoChunks(w, s, tid);
      var Task(record, Publishing(m)) := s.mem.tasks[tid];
      var d := record.chunksDir;
      assert TaskOk(w, s.disk, s.store.published.Keys, s.mem.chunks.Keys, tid, s.mem.tasks[tid]);
      assert Genuine(w, d);
      var published := PublishedFileRecord(record.key, record.originalFileName, d, m.public);
      forall i: nat | i < |m.merkleProofs| ensures ChunkOk(w, s.disk, d, i) {
        assert i in record.downloadedChunks;
      }
      assert PublishedOk(w, s.disk, published);
      var t := s.(store := s.store.(published := s.store.published[record.key := published]));
      InvStore(w, s, t.store);
      GrowsReflexive(w, s.disk);
      InvTaskMoves(w, t, s.disk, tid, Deleting(m));
    }
  }

  lemma DeletePendingInv(w: World, s: State, tid: nat, ok: bool)
    requires WellFormed(w) && Inv(w, s) && InDeleting(s, tid)
    ensures Inv(w, DoDeletePending(s, tid, ok))
  {
    if !ok {
      EndPassInv(w, s, tid);
    } else {
      NoChunks(w, s, tid);
      var Task(record, Deleting(m)) := s.mem.tasks[tid];
      assert TaskOk(w, s.disk, s.store.published.Keys, s.mem.chunks.Keys, tid, s.mem.tasks[tid]);
      var t := s.(store := s.store.(pending := s.store.pending - {record.key}));
      InvStore(w, s, t.store);
      GrowsReflexive(w, s.disk);
      InvTaskMoves(w, t, s.disk, tid, Providing(m));
    }
  }

  lemma ProvideRestoredInv(w: World, s: State, tid: nat)
    requires WellFormed(w) && Inv(w, s) && InProviding(s, tid)
    ensures Inv(w, DoProvideRestored(s, tid))
  {
    var a := OfMetadata(s.mem.tasks[tid].phase.m.chunksDir);
    InvAnnounce(w, s, a);
    EndPassInv(w, Announce(s, a), tid);
  }

  lemma EndTaskInv(w: World, s: State, tid: nat)
    requires Inv(w, s) && InEnded(s, tid)
    ensures Inv(w, DoEndTask(s, tid))
  {
    NoChunks(w, s, tid);
    InvTaskLeaves(w, s, tid);
  }

  // ----- all events, all runs -----

  lemma GrowsReflexive(w: World, disk: Disk)
    ensures Grows(w, disk, disk) && SameElsewhere(disk, disk, None)
    ensures forall x :: KeepsParts(w, disk, disk, x)
  {
  }

  lemma RequestInv(w: World, s: State, e: RequestEvent)
    requires WellFormed(w) && Inv(w, s) && CanRequest(w, s, e)
    ensures Inv(w, DoRequest(w, s, e))
  {
    match e
    case PublishStart(sid, d) => PublishStartInv(w, s, sid, d);
    case PublishChunk(sid) => PublishChunkInv(w, s, sid);
    case PublishSave(sid) => PublishSaveInv(w, s, sid);
    case LookUp(sid, key) =>
      assert s.mem.sessions - {sid} == s.mem.sessions;
      InvSessionLeaves(w, s, sid);
      InvSessionEnters(w, s, sid, LookingUp(key, false));
    case RequestMetadata(sid) =>
      InvSessionLeaves(w, s, sid);
      InvSessionEnters(w, s, sid, LookingUp(s.mem.sessions[sid].key, true));
    case MetadataArrives(sid, d) => MetadataArrivesInv(w, s, sid, d);
    case SaveDone(sid, written) => SaveDoneInv(w, s, sid, written);
    case ProvideRequested(sid) => InvAnnounce(w, s, OfMetadata(s.mem.sessions[sid].dir));
    case StoreRecord(sid, ok) => StoreRecordInv(w, s, sid, ok);
    case RequestFails(sid) => InvSessionLeaves(w, s, sid);
  }

  lemma QueueInv(w: World, s: State, e: QueueEvent)
    requires WellFormed(w) && Inv(w, s) && CanQueue(w, s, e)
    ensures Inv(w, DoQueue(w, s, e))
  {
    match e
    case TakeJob(key) => TakeJobInv(w, s, key);
    case AnnounceNext(ok) => AnnounceNextInv(w, s, ok);
    case RecordPublished(ok) => RecordPublishedInv(w, s, ok);
    case ClearJob(ok) => ClearJobInv(w, s, ok);
    case Reannounce(key, next) => ReannounceInv(w, s, key, next);
    case StartUp(skipped) => StartUpInv(w, s, skipped);
  }

  lemma PassInv(w: World, s: State, e: PassEvent)
    requires WellFormed(w) && Inv(w, s) && CanPass(w, s, e)
    ensures Inv(w, DoPass(w, s, e))
  {
    match e
    case Tick(snapshot) => TickInv(w, s, snapshot);
    case NextRecord(tid) => NextRecordInv(w, s, tid);
    case ReadMetadata(tid, ok) => ReadMetadataInv(w, s, tid, ok);
    case Acquire(c) => ChunkStateInv(w, s, DoAcquire(s, c), c, Requesting);
    case Reply(c, reply) => ReplyInv(w, s, c, reply);
    case VerifyAndSave(c, ok) => VerifyAndSaveInv(w, s, c, ok);
    case AnnounceChunk(c, ok) => AnnounceChunkInv(w, s, c, ok);
    case Join(c, putOk) => JoinInv(w, s, c, putOk);
    case JoinsDone(tid) => JoinsDoneInv(w, s, tid);
  }

  lemma FinishInv(w: World, s: State, e: FinishEvent)
    requires WellFormed(w) && Inv(w, s) && CanFinish(w, s, e)
    ensures Inv(w, DoFinish(w, s, e))
  {
    match e
    case OpenPart(tid, ok) => OpenPartInv(w, s, tid, ok);
    case AppendChunk(tid, ok) => AppendChunkInv(w, s, tid, ok);
    case RenamePart(tid, ok) => RenamePartInv(w, s, tid, ok);
    case PutPublished(tid, ok) => PutPublishedInv(w, s, tid, ok);
    case DeletePending(tid, ok) => DeletePendingInv(w, s, tid, ok);
    case ProvideRestored(tid) => ProvideRestoredInv(w, s, tid);
    case EndTask(tid) => EndTaskInv(w, s, tid);
  }

  lemma StepInv(w: World, s: State, e: Event)
    requires WellFormed(w) && Inv(w, s) && Enabled(w, s, e)
    ensures Inv(w, Step(w, s, e))
  {
    match e
    case Crash => CrashInv(w, s);
    case OfRequest(r) => RequestInv(w, s, r);
    case OfQueue(q) => QueueInv(w, s, q);
    case OfPass(p) => PassInv(w, s, p);
    case OfFinish(f) => FinishInv(w, s, f);
  }

  lemma CrashInv(w: World, s: State)
    requires Inv(w, s)
    ensures Inv(w, s.(mem := FreshMemory(w)))
  {
  }

  lemma ReplyInv(w: World, s: State, c: ChunkTask, reply: Option<Option<FileResponse>>)
    requires Inv(w, s) && CanReply(s, c)
    ensures Inv(w, DoReply(s, c, reply))
  {
    var t := DoReply(s, c, reply);
    ChunkStateInv(w, s, t, c, t.mem.chunks[c]);
  }

  lemma InitInv(w: World)
    ensures Inv(w, Init(w))
  {
  }

  /** The invariant holds after every run. */
  lemma {:induction false} RunInv(w: World, s: State, es: seq<Event>)
    requires WellFormed(w) && Inv(w, s) && Possible(w, s, es)
    ensures Inv(w, Run(w, s, es))
    decreases |es|
  {
    if es != [] {
      StepInv(w, s, es[0]);
      RunInv(w, Step(w, s, es[0]), es[1..]);
    }
  }
}
