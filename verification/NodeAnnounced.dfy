/** What is announced of downloads: the metadata and every chunk recorded as downloaded, anywhere; of a file
    recorded as published, all of it; and, once more, the metadata of a file whose download is done. */
module NodeAnnounced {
  import opened Bytes
  import opened Domain
  import opened Download
  import opened Node
  import opened NodeInvariant
  import opened NodeSafety
  import opened NodeRecovery
  import opened NodeConvergence

  // ----- recorded chunks are announced -----

  /** Every chunk that the record has. */
  ghost predicate RecordAnnounced(announced: set<Announcement>, r: PendingDownloadRecord) {
    forall i :: i in r.downloadedChunks ==> OfChunk(r.chunksDir, i) in announced
  }

  ghost predicate JoinAnnounced(announced: set<Announcement>, tasks: map<nat, Task>, c: ChunkTask, state: ChunkState) {
    state == Done(Got) ==> c.task in tasks && OfChunk(tasks[c.task].record.chunksDir, c.id) in announced
  }

  /** The metadata of its file. */
  ghost predicate MetadataAnnounced(announced: set<Announcement>, r: PendingDownloadRecord) {
    OfMetadata(r.chunksDir) in announced
  }

  /** Every chunk in a pending record, be it stored, streamed or a task's, has been announced, and so has every
      chunk whose task has ended well. */
  ghost predicate DownloadsAnnounced(s: State) {
    && (forall k :: k in s.store.pending ==> RecordAnnounced(s.announced, s.store.pending[k]))
    && (forall i :: 0 <= i < |s.mem.stream| ==> RecordAnnounced(s.announced, s.mem.stream[i]))
    && (forall t :: t in s.mem.tasks ==> RecordAnnounced(s.announced, s.mem.tasks[t].record))
    && (forall c :: c in s.mem.chunks ==> JoinAnnounced(s.announced, s.mem.tasks, c, s.mem.chunks[c]))
  }

  /** The metadata of every pending record has been announced. */
  ghost predicate RequestsAnnounced(s: State) {
    && (forall k :: k in s.store.pending ==> MetadataAnnounced(s.announced, s.store.pending[k]))
    && (forall i :: 0 <= i < |s.mem.stream| ==> MetadataAnnounced(s.announced, s.mem.stream[i]))
    && (forall t :: t in s.mem.tasks ==> MetadataAnnounced(s.announced, s.mem.tasks[t].record))
  }

  /** A file recorded as published has been announced as a whole. */
  ghost predicate PublishedAnnounced(w: World, s: State) {
    forall k :: k in s.store.published ==> FullyAnnounced(w, s.announced, s.store.published[k].chunksDir)
  }

  /** The metadata and every chunk of the file have been announced. */
  ghost predicate FullyAnnounced(w: World, announced: set<Announcement>, d: Dir) {
    && d in w.meta && OfMetadata(d) in announced
    && forall i: nat :: i < w.meta[d].totalChunks ==> OfChunk(d, i) in announced
  }

  /** What changes nothing of this: records as before or without chunks, chunk tasks as before or not ended well. */
  ghost predicate NothingClaimed(s: State, t: State) {
    && s.announced <= t.announced
    && (forall k :: k in t.store.pending ==>
          (k in s.store.pending && t.store.pending[k] == s.store.pending[k])
          || RecordAnnounced(t.announced, t.store.pending[k]))
    && (forall i :: 0 <= i < |t.mem.stream| ==> t.mem.stream[i] in s.mem.stream)
    && (forall i :: i in t.mem.tasks ==> i in s.mem.tasks && t.mem.tasks[i].record == s.mem.tasks[i].record)
    && (forall c :: c in t.mem.chunks ==>
          t.mem.chunks[c] != Done(Got)
          || (c in s.mem.chunks && t.mem.chunks[c] == s.mem.chunks[c] && c.task in t.mem.tasks))
  }

  lemma StillAnnounced(s: State, t: State)
    requires DownloadsAnnounced(s) && NothingClaimed(s, t)
    ensures DownloadsAnnounced(t)
  {
    forall i | 0 <= i < |t.mem.stream|
      ensures RecordAnnounced(t.announced, t.mem.stream[i])
    {
      var j :| 0 <= j < |s.mem.stream| && s.mem.stream[j] == t.mem.stream[i];
    }
    forall c | c in t.mem.chunks
      ensures JoinAnnounced(t.announced, t.mem.tasks, c, t.mem.chunks[c])
    {
      if t.mem.chunks[c] == Done(Got) { assert JoinAnnounced(s.announced, s.mem.tasks, c, s.mem.chunks[c]); }
    }
  }

  lemma RequestAnnounced(w: World, s: State, e: RequestEvent)
    requires WellFormed(w) && DownloadsAnnounced(s) && CanRequest(w, s, e)
    ensures DownloadsAnnounced(DoRequest(w, s, e)) && s.announced <= DoRequest(w, s, e).announced
  {
    if e.StoreRecord? { assert Genuine(w, s.mem.sessions[e.sid].dir); }
    StillAnnouncedTasks(s, DoRequest(w, s, e));
  }

  /** When tasks, chunk tasks and stream are the same. */
  lemma StillAnnouncedTasks(s: State, t: State)
    requires DownloadsAnnounced(s) && s.announced <= t.announced
    requires t.mem.tasks == s.mem.tasks && t.mem.chunks == s.mem.chunks && t.mem.stream == s.mem.stream
    requires forall k :: k in t.store.pending ==>
      || (k in s.store.pending && t.store.pending[k] == s.store.pending[k])
      || RecordAnnounced(t.announced, t.store.pending[k])
    ensures DownloadsAnnounced(t)
  {
    forall c | c in t.mem.chunks
      ensures JoinAnnounced(t.announced, t.mem.tasks, c, t.mem.chunks[c])
    {
      assert JoinAnnounced(s.announced, s.mem.tasks, c, s.mem.chunks[c]);
    }
  }

  lemma QueueAnnounced(w: World, s: State, e: QueueEvent)
    requires DownloadsAnnounced(s) && CanQueue(w, s, e)
    ensures DownloadsAnnounced(DoQueue(w, s, e)) && s.announced <= DoQueue(w, s, e).announced
  {
    StillAnnouncedTasks(s, DoQueue(w, s, e));
  }

  lemma TickAnnounced(s: State, snapshot: seq<PendingDownloadRecord>)
    requires DownloadsAnnounced(s) && CanTick(s, snapshot)
    ensures DownloadsAnnounced(s.(mem := s.mem.(stream := snapshot)))
  {
    forall c | c in s.mem.chunks
      ensures JoinAnnounced(s.announced, s.mem.tasks, c, s.mem.chunks[c])
    {
    }
  }

  /** Every chunk task is one of a task that is collecting. */
  ghost predicate Attached(mem: Memory) {
    forall c :: c in mem.chunks ==> c.task in mem.tasks && mem.tasks[c.task].phase.Collecting?
  }

  lemma ChunksAttached(w: World, s: State)
    requires Inv(w, s)
    ensures Attached(s.mem)
  {
    forall c | c in s.mem.chunks
      ensures c.task in s.mem.tasks && s.mem.tasks[c.task].phase.Collecting?
    {
      ChunkFacts(w, s, c);
    }
  }

  lemma NextRecordAnnounced(s: State, tid: nat)
    requires Attached(s.mem) && DownloadsAnnounced(s) && CanNextRecord(s, tid)
    ensures DownloadsAnnounced(DoNextRecord(s, tid))
  {
    var t := DoNextRecord(s, tid);
    assert RecordAnnounced(s.announced, s.mem.stream[0]);
    forall c | c in t.mem.chunks
      ensures JoinAnnounced(t.announced, t.mem.tasks, c, t.mem.chunks[c])
    {
      assert JoinAnnounced(s.announced, s.mem.tasks, c, s.mem.chunks[c]);
    }
  }

  lemma AnnounceChunkAnnounced(s: State, c: ChunkTask, ok: bool)
    requires DownloadsAnnounced(s) && CanAnnounceChunk(s, c)
    ensures DownloadsAnnounced(DoAnnounceChunk(s, c, ok)) && s.announced <= DoAnnounceChunk(s, c, ok).announced
  {
    var t := DoAnnounceChunk(s, c, ok);
    forall x | x in t.mem.chunks
      ensures JoinAnnounced(t.announced, t.mem.tasks, x, t.mem.chunks[x])
    {
      if x != c { assert JoinAnnounced(s.announced, s.mem.tasks, x, s.mem.chunks[x]); }
    }
  }

  lemma JoinedAnnounced(s: State, c: ChunkTask, putOk: bool)
    requires DownloadsAnnounced(s) && CanJoin(s, c)
    ensures DownloadsAnnounced(DoJoin(s, c, putOk)) && s.announced <= DoJoin(s, c, putOk).announced
  {
    var t := DoJoin(s, c, putOk);
    assert JoinAnnounced(s.announced, s.mem.tasks, c, s.mem.chunks[c]);
    assert RecordAnnounced(t.announced, t.mem.tasks[c.task].record) by {
      assert RecordAnnounced(s.announced, s.mem.tasks[c.task].record);
    }
    forall x | x in t.mem.chunks
      ensures JoinAnnounced(t.announced, t.mem.tasks, x, t.mem.chunks[x])
    {
      assert JoinAnnounced(s.announced, s.mem.tasks, x, s.mem.chunks[x]);
    }
  }

  lemma ReadClaimsNothing(s: State, tid: nat, ok: bool)
    requires Attached(s.mem) && CanReadMetadata(s, tid, ok)
    ensures NothingClaimed(s, DoReadMetadata(s, tid, ok))
  {
  }

  lemma JoinsDoneClaimsNothing(s: State, tid: nat)
    requires Attached(s.mem) && CanJoinsDone(s, tid)
    ensures NothingClaimed(s, DoJoinsDone(s, tid))
  {
  }

  lemma ChunkClaimsNothing(w: World, s: State, e: PassEvent)
    requires Attached(s.mem) && CanPass(w, s, e) && (e.Acquire? || e.Reply? || e.VerifyAndSave?)
    ensures NothingClaimed(s, DoPass(w, s, e))
  {
  }

  lemma PassAnnounced(w: World, s: State, e: PassEvent)
    requires Attached(s.mem) && DownloadsAnnounced(s) && CanPass(w, s, e)
    ensures DownloadsAnnounced(DoPass(w, s, e)) && s.announced <= DoPass(w, s, e).announced
  {
    if e.Tick? {
      TickAnnounced(s, e.snapshot);
    } else if e.NextRecord? {
      NextRecordAnnounced(s, e.tid);
    } else if e.AnnounceChunk? {
      AnnounceChunkAnnounced(s, e.c, e.ok);
    } else if e.Join? {
      JoinedAnnounced(s, e.c, e.putOk);
    } else {
      if e.ReadMetadata? {
        ReadClaimsNothing(s, e.tid, e.ok);
      } else if e.JoinsDone? {
        JoinsDoneClaimsNothing(s, e.tid);
      } else {
        ChunkClaimsNothing(w, s, e);
      }
      StillAnnounced(s, DoPass(w, s, e));
    }
  }

  lemma FinishClaimsNothing(w: World, s: State, e: FinishEvent)
    requires Attached(s.mem) && CanFinish(w, s, e)
    ensures NothingClaimed(s, DoFinish(w, s, e))
  {
  }

  lemma StepAnnounced(w: World, s: State, e: Event)
    requires WellFormed(w) && Inv(w, s) && DownloadsAnnounced(s) && Enabled(w, s, e)
    ensures DownloadsAnnounced(Step(w, s, e)) && s.announced <= Step(w, s, e).announced
  {
    ChunksAttached(w, s);
    match e
    case Crash =>
    case OfRequest(r) => RequestAnnounced(w, s, r);
    case OfQueue(q) => QueueAnnounced(w, s, q);
    case OfPass(p) => PassAnnounced(w, s, p);
    case OfFinish(f) =>
      FinishClaimsNothing(w, s, f);
      StillAnnounced(s, DoFinish(w, s, f));
  }

  // ----- requested and published files are announced -----

  lemma RequestDescribes(w: World, s: State, e: RequestEvent)
    requires WellFormed(w) && RequestsAnnounced(s) && CanRequest(w, s, e)
    ensures RequestsAnnounced(DoRequest(w, s, e))
  {
    if e.StoreRecord? { assert Genuine(w, s.mem.sessions[e.sid].dir); }
  }

  lemma QueueDescribes(w: World, s: State, e: QueueEvent)
    requires RequestsAnnounced(s) && CanQueue(w, s, e)
    ensures RequestsAnnounced(DoQueue(w, s, e))
  {
  }

  lemma TickDescribes(s: State, snapshot: seq<PendingDownloadRecord>)
    requires RequestsAnnounced(s) && CanTick(s, snapshot)
    ensures RequestsAnnounced(s.(mem := s.mem.(stream := snapshot)))
  {
  }

  lemma NextRecordDescribes(s: State, tid: nat)
    requires RequestsAnnounced(s) && CanNextRecord(s, tid)
    ensures RequestsAnnounced(DoNextRecord(s, tid))
  {
  }

  lemma JoinDescribes(s: State, c: ChunkTask, putOk: bool)
    requires RequestsAnnounced(s) && CanJoin(s, c)
    ensures RequestsAnnounced(DoJoin(s, c, putOk))
  {
  }

  lemma OtherPassDescribes(w: World, s: State, e: PassEvent)
    requires RequestsAnnounced(s) && CanPass(w, s, e) && !e.Tick? && !e.NextRecord? && !e.Join?
    ensures RequestsAnnounced(DoPass(w, s, e))
  {
  }

  lemma PassDescribes(w: World, s: State, e: PassEvent)
    requires RequestsAnnounced(s) && CanPass(w, s, e)
    ensures RequestsAnnounced(DoPass(w, s, e))
  {
    match e
    case Tick(snapshot) => TickDescribes(s, snapshot);
    case NextRecord(tid) => NextRecordDescribes(s, tid);
    case Join(c, putOk) => JoinDescribes(s, c, putOk);
    case _ => OtherPassDescribes(w, s, e);
  }

  lemma FinishDescribes(w: World, s: State, e: FinishEvent)
    requires RequestsAnnounced(s) && CanFinish(w, s, e)
    ensures RequestsAnnounced(DoFinish(w, s, e))
  {
  }

  lemma StepDescribes(w: World, s: State, e: Event)
    requires WellFormed(w) && RequestsAnnounced(s) && Enabled(w, s, e)
    ensures RequestsAnnounced(Step(w, s, e))
  {
    match e
    case Crash =>
    case OfRequest(r) => RequestDescribes(w, s, r);
    case OfQueue(q) => QueueDescribes(w, s, q);
    case OfPass(p) => PassDescribes(w, s, p);
    case OfFinish(f) => FinishDescribes(w, s, f);
  }

  lemma DownloadedIsTold(w: World, s: State, tid: nat)
    requires WellFormed(w) && Inv(w, s) && DownloadsAnnounced(s) && RequestsAnnounced(s) && InPublishing(s, tid)
    ensures FullyAnnounced(w, s.announced, s.mem.tasks[tid].record.chunksDir)
  {
    var task := s.mem.tasks[tid];
    assert TaskOk(w, s.disk, s.store.published.Keys, s.mem.chunks.Keys, tid, task);
    assert Genuine(w, task.record.chunksDir);
    assert RecordAnnounced(s.announced, task.record) && MetadataAnnounced(s.announced, task.record);
  }

  lemma QueuePublishes(w: World, s: State, e: QueueEvent)
    requires Inv(w, s) && PublishedAnnounced(w, s) && CanQueue(w, s, e)
    ensures PublishedAnnounced(w, DoQueue(w, s, e))
  {
  }

  lemma FinishPublishes(w: World, s: State, e: FinishEvent)
    requires PublishedAnnounced(w, s) && CanFinish(w, s, e)
    requires e.PutPublished? ==> FullyAnnounced(w, s.announced, s.mem.tasks[e.tid].record.chunksDir)
    ensures PublishedAnnounced(w, DoFinish(w, s, e))
  {
  }

  lemma StepPublishes(w: World, s: State, e: Event)
    requires WellFormed(w) && Inv(w, s) && Enabled(w, s, e)
    requires DownloadsAnnounced(s) && RequestsAnnounced(s) && PublishedAnnounced(w, s)
    ensures PublishedAnnounced(w, Step(w, s, e))
  {
    match e
    case OfQueue(q) => QueuePublishes(w, s, q);
    case OfFinish(f) =>
      if f.PutPublished? { DownloadedIsTold(w, s, f.tid); }
      FinishPublishes(w, s, f);
    case OfPass(p) =>
      StepAnnounced(w, s, e);
      PassKeepsStore(w, s, p);
    case _ =>
  }

  lemma PassKeepsStore(w: World, s: State, e: PassEvent)
    requires CanPass(w, s, e)
    ensures DoPass(w, s, e).store.published == s.store.published
  {
  }

  /** Over every run, whatever fails: no download is pending unless its metadata has been announced, no chunk
      recorded as downloaded unless it has been, and no file as published unless all of it has been. */
  lemma {:induction false} RunAnnounced(w: World, s: State, es: seq<Event>)
    requires WellFormed(w) && Inv(w, s) && Possible(w, s, es)
    requires DownloadsAnnounced(s) && RequestsAnnounced(s) && PublishedAnnounced(w, s)
    ensures
      var t := Run(w, s, es);
      DownloadsAnnounced(t) && RequestsAnnounced(t) && PublishedAnnounced(w, t) && s.announced <= t.announced
    decreases |es|
  {
    if es != [] {
      StepInv(w, s, es[0]);
      StepAnnounced(w, s, es[0]);
      StepDescribes(w, s, es[0]);
      StepPublishes(w, s, es[0]);
      RunAnnounced(w, Step(w, s, es[0]), es[1..]);
    }
  }

  lemma InitAnnounced(w: World)
    ensures DownloadsAnnounced(Init(w)) && RequestsAnnounced(Init(w)) && PublishedAnnounced(w, Init(w))
  {
  }

  // ----- a download that is done is announced as a whole -----

  /** If the task has ended, its file has been announced as a whole. */
  ghost predicate ToldWhenEnded(w: World, s: State, task: Task) {
    task.phase.Ended? ==> FullyAnnounced(w, s.announced, task.record.chunksDir)
  }

  lemma ProvidedIsTold(w: World, s: State, tid: nat)
    requires WellFormed(w) && Inv(w, s) && DownloadsAnnounced(s) && InProviding(s, tid)
    ensures FullyAnnounced(w, DoProvideRestored(s, tid).announced, s.mem.tasks[tid].record.chunksDir)
  {
    var task := s.mem.tasks[tid];
    assert TaskOk(w, s.disk, s.store.published.Keys, s.mem.chunks.Keys, tid, task);
    assert Genuine(w, task.record.chunksDir);
    assert RecordAnnounced(s.announced, task.record);
  }

  lemma OwnFinishTold(w: World, s: State, tid: nat, e: FinishEvent)
    requires WellFormed(w) && Inv(w, s) && DownloadsAnnounced(s)
    requires CanFinish(w, s, e) && HonestFinish(e) && e.tid == tid
    requires ToldWhenEnded(w, s, s.mem.tasks[tid])
    ensures ToldWhenEnded(w, DoFinish(w, s, e), Now(DoFinish(w, s, e), tid, s.mem.tasks[tid].record))
  {
    if e.ProvideRestored? { ProvidedIsTold(w, s, tid); }
  }

  /** A pass that is honest does not end the task. */
  lemma OwnPassTold(w: World, s: State, tid: nat, e: PassEvent)
    requires Attached(s.mem) && CanPass(w, s, e) && tid in s.mem.tasks && Honest(w, s, tid, OfPass(e)) && !e.JoinsDone?
    ensures tid in DoPass(w, s, e).mem.tasks && !DoPass(w, s, e).mem.tasks[tid].phase.Ended?
  {
  }

  lemma JoinsDoneHealthy(w: World, s: State, tid: nat)
    requires Inv(w, s) && CanJoinsDone(s, tid) && Working(w, s, tid)
    ensures DoJoinsDone(s, tid).mem.tasks[tid].phase.Completing?
  {
    assert TaskOk(w, s.disk, s.store.published.Keys, s.mem.chunks.Keys, tid, s.mem.tasks[tid]);
    assert AllDownloaded(w, s.mem.tasks[tid].record);
    PassComplete(w, s, tid);
  }

  lemma StepTold(w: World, s: State, tid: nat, e: Event)
    requires WellFormed(w) && Inv(w, s) && DownloadsAnnounced(s) && Working(w, s, tid) && Enabled(w, s, e)
    requires (Honest(w, s, tid, e) || Harmless(e, tid)) && ToldWhenEnded(w, s, s.mem.tasks[tid])
    ensures ToldWhenEnded(w, Step(w, s, e), Now(Step(w, s, e), tid, s.mem.tasks[tid].record))
  {
    StepAnnounced(w, s, e);
    if !Honest(w, s, tid, e) {
      OthersLeaveTask(w, s, tid, e);
    } else if e == OfPass(JoinsDone(tid)) {
      JoinsDoneHealthy(w, s, tid);
    } else if e.OfPass? {
      ChunksAttached(w, s);
      OwnPassTold(w, s, tid, e.pass);
    } else {
      OwnFinishTold(w, s, tid, e.finish);
    }
  }

  /** When a healthy task is gone after an honest run, its file has been announced as a whole: the metadata key
      and the key of every chunk. */
  lemma {:induction false} HonestRunAnnounces(w: World, s: State, tid: nat, es: seq<Event>)
    requires WellFormed(w) && Inv(w, s) && DownloadsAnnounced(s) && Working(w, s, tid)
    requires Possible(w, s, es) && HonestRun(w, s, tid, es) && ToldWhenEnded(w, s, s.mem.tasks[tid])
    ensures
      var t := Run(w, s, es);
      tid !in t.mem.tasks ==> FullyAnnounced(w, t.announced, s.mem.tasks[tid].record.chunksDir)
    decreases |es|
  {
    if es != [] {
      var t := Step(w, s, es[0]);
      StepInv(w, s, es[0]);
      StepAnnounced(w, s, es[0]);
      StepTold(w, s, tid, es[0]);
      HonestStep(w, s, tid, es[0]);
      if tid in t.mem.tasks {
        HonestRunAnnounces(w, t, tid, es[1..]);
      } else {
        assert es[1..] == [];
      }
    }
  }
}
