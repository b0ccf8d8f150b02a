/** What a node promises over whole runs, crashes and failures included. */
module NodeTheorems {
  import opened Bytes
  import opened Keys
  import opened Merkle
  import opened Domain
  import opened Node
  import opened NodeInvariant
  import opened NodePreservation
  import opened NodeSafety

  // ----- nothing good is ever undone -----

  lemma PublishChunkGrows(w: World, s: State, sid: nat)
    requires WellFormed(w) && Inv(w, s) && CanPublishChunk(w, s, sid)
    ensures Grows(w, s.disk, DoPublishChunk(w, s, sid).disk)
  {
    NextChunkInv(w, s, sid);
  }

  lemma MetaGrows(w: World, s: State, sid: nat, file: MetaFile)
    requires Inv(w, s) && sid in s.mem.sessions && !s.mem.sessions[sid].LookingUp?
    ensures Grows(w, s.disk, SetMeta(s, s.mem.sessions[sid].dir, file).disk)
  {
    assert SessionOk(w, s.disk, s.mem.sessions[sid]);
  }

  lemma PublishStartGrows(w: World, s: State, sid: nat, d: Dir)
    requires WellFormed(w) && Inv(w, s) && CanPublishStart(w, s, sid, d)
    ensures Grows(w, s.disk, DoPublishStart(w, s, sid, d).disk)
  {
    assert Genuine(w, d);
    DestinationWritten(w, s.disk, d, w.contents[d]);
  }

  ghost predicate WritesOnDisk(e: RequestEvent) {
    e.PublishStart? || e.PublishChunk? || e.PublishSave? || e.SaveDone?
  }

  lemma OtherRequestGrows(w: World, s: State, e: RequestEvent)
    requires CanRequest(w, s, e) && !WritesOnDisk(e)
    ensures Grows(w, s.disk, DoRequest(w, s, e).disk)
  {
  }

  lemma RequestGrows(w: World, s: State, e: RequestEvent)
    requires WellFormed(w) && Inv(w, s) && CanRequest(w, s, e)
    ensures Grows(w, s.disk, DoRequest(w, s, e).disk)
  {
    if !WritesOnDisk(e) {
      OtherRequestGrows(w, s, e);
    } else {
      match e
      case PublishStart(sid, d) => PublishStartGrows(w, s, sid, d);
      case PublishChunk(sid) => PublishChunkGrows(w, s, sid);
      case PublishSave(sid) => MetaGrows(w, s, sid, Torn);
      case SaveDone(sid, written) => MetaGrows(w, s, sid, MetaAfter(w, s.mem.sessions[sid].dir, written));
    }
  }

  lemma SaveGrows(w: World, s: State, c: ChunkTask, ok: bool)
    requires WellFormed(w) && Inv(w, s) && CanVerifyAndSave(s, c)
    ensures Grows(w, s.disk, DoVerifyAndSave(w, s, c, ok).disk)
  {
    TaskFacts(w, s, c.task);
    var d, bytes := s.mem.tasks[c.task].record.chunksDir, s.mem.chunks[c].bytes;
    if c.id < |w.meta[d].merkleProofs| && Check(w, w.meta[d], c.id, bytes) == Accepted {
      ChunkStored(w, s.disk, d, c.id, bytes);
    }
    GrowsReflexive(w, s.disk);
  }

  lemma OthersSaveNothing(w: World, s: State, e: PassEvent)
    requires CanPass(w, s, e) && !e.VerifyAndSave?
    ensures DoPass(w, s, e).disk == s.disk
  {
  }

  lemma PassGrows(w: World, s: State, e: PassEvent)
    requires WellFormed(w) && Inv(w, s) && CanPass(w, s, e)
    ensures Grows(w, s.disk, DoPass(w, s, e).disk)
  {
    if e.VerifyAndSave? {
      SaveGrows(w, s, e.c, e.ok);
    } else {
      OthersSaveNothing(w, s, e);
      GrowsReflexive(w, s.disk);
    }
  }

  lemma OpenGrows(w: World, s: State, tid: nat)
    requires WellFormed(w) && Inv(w, s) && CanOpenPart(s, tid, true)
    ensures Grows(w, s.disk, DoOpenPart(s, tid, true).disk)
  {
    TaskFacts(w, s, tid);
    GrowsReflexive(w, s.disk);
    var d := s.mem.tasks[tid].record.chunksDir;
    PartChanged(w, s.disk, d, s.disk.files[PartFile(w.meta[d]) := []]);
  }

  lemma AppendGrows(w: World, s: State, tid: nat)
    requires WellFormed(w) && Inv(w, s) && CanAppendChunk(s, tid, true)
    ensures Grows(w, s.disk, DoAppendChunk(s, tid, true).disk)
  {
    TaskFacts(w, s, tid);
    PartChanged(w, s.disk, s.mem.tasks[tid].record.chunksDir, DoAppendChunk(s, tid, true).disk.files);
  }

  lemma RenameGrows(w: World, s: State, tid: nat)
    requires WellFormed(w) && Inv(w, s) && CanRenamePart(s, tid, true)
    ensures Grows(w, s.disk, DoRenamePart(s, tid, true).disk)
  {
    TaskFacts(w, s, tid);
    var d := s.mem.tasks[tid].record.chunksDir;
    var a := s.disk.(files := s.disk.files - {PartFile(w.meta[d])});
    PartChanged(w, s.disk, d, a.files);
    RestoredGrows(w, a, d, s.mem.tasks[tid].phase.pieces);
  }

  ghost predicate WritesFile(e: FinishEvent) {
    (e.OpenPart? || e.AppendChunk? || e.RenamePart?) && e.ok
  }

  lemma OthersWriteNoFile(w: World, s: State, e: FinishEvent)
    requires CanFinish(w, s, e) && !WritesFile(e)
    ensures DoFinish(w, s, e).disk == s.disk
  {
  }

  lemma FinishGrows(w: World, s: State, e: FinishEvent)
    requires WellFormed(w) && Inv(w, s) && CanFinish(w, s, e)
    ensures Grows(w, s.disk, DoFinish(w, s, e).disk)
  {
    if !WritesFile(e) {
      OthersWriteNoFile(w, s, e);
      GrowsReflexive(w, s.disk);
    } else {
      match e
      case OpenPart(tid, _) => OpenGrows(w, s, tid);
      case AppendChunk(tid, _) => AppendGrows(w, s, tid);
      case RenamePart(tid, _) => RenameGrows(w, s, tid);
    }
  }

  lemma QueueGrows(w: World, s: State, e: QueueEvent)
    requires CanQueue(w, s, e)
    ensures Grows(w, s.disk, DoQueue(w, s, e).disk)
  {
    GrowsReflexive(w, s.disk);
  }

  lemma StepGrows(w: World, s: State, e: Event)
    requires WellFormed(w) && Inv(w, s) && Enabled(w, s, e)
    ensures Grows(w, s.disk, Step(w, s, e).disk)
  {
    match e
    case Crash => GrowsReflexive(w, s.disk);
    case OfRequest(r) => RequestGrows(w, s, r);
    case OfQueue(q) => QueueGrows(w, s, q);
    case OfPass(p) => PassGrows(w, s, p);
    case OfFinish(f) => FinishGrows(w, s, f);
  }

  /** Verified chunks stay verified and restored files stay complete, over every run. */
  lemma {:induction false} RunGrows(w: World, s: State, es: seq<Event>)
    requires WellFormed(w) && Inv(w, s) && Possible(w, s, es)
    ensures Inv(w, Run(w, s, es)) && Grows(w, s.disk, Run(w, s, es).disk)
    decreases |es|
  {
    if es == [] {
      GrowsReflexive(w, s.disk);
    } else {
      StepInv(w, s, es[0]);
      StepGrows(w, s, es[0]);
      RunGrows(w, Step(w, s, es[0]), es[1..]);
    }
  }

  // ----- no download and no job is lost -----

  /** What was pending is pending or published, what was a job is a job or published, and what was
      published is published. */
  ghost predicate NothingLost(a: Store, b: Store) {
    && a.published.Keys <= b.published.Keys
    && (forall k :: k in a.pending ==> k in b.pending || k in b.published)
    && (forall k :: k in a.jobs ==> k in b.jobs || k in b.published)
  }

  lemma QueueLosesNothing(w: World, s: State, e: QueueEvent)
    requires Inv(w, s) && CanQueue(w, s, e)
    ensures NothingLost(s.store, DoQueue(w, s, e).store)
  {
  }

  lemma FinishLosesNothing(w: World, s: State, e: FinishEvent)
    requires CanFinish(w, s, e)
    requires e.DeletePending? ==> s.mem.tasks[e.tid].record.key in s.store.published
    ensures NothingLost(s.store, DoFinish(w, s, e).store)
  {
  }

  lemma StepLosesNothing(w: World, s: State, e: Event)
    requires WellFormed(w) && Inv(w, s) && Enabled(w, s, e)
    ensures NothingLost(s.store, Step(w, s, e).store)
  {
    match e
    case Crash =>
    case OfRequest(r) => RequestLosesNothing(w, s, r);
    case OfQueue(q) => QueueLosesNothing(w, s, q);
    case OfPass(p) => PassLosesNothing(w, s, p);
    case OfFinish(f) =>
      TaskFacts(w, s, f.tid);
      FinishLosesNothing(w, s, f);
  }

  lemma RequestLosesNothing(w: World, s: State, e: RequestEvent)
    requires CanRequest(w, s, e)
    ensures NothingLost(s.store, DoRequest(w, s, e).store)
  {
  }

  lemma PassLosesNothing(w: World, s: State, e: PassEvent)
    requires CanPass(w, s, e)
    ensures NothingLost(s.store, DoPass(w, s, e).store)
  {
  }

  /** Over every run, whatever fails and wherever it crashes. */
  lemma {:induction false} RunLosesNothing(w: World, s: State, es: seq<Event>)
    requires WellFormed(w) && Inv(w, s) && Possible(w, s, es)
    ensures NothingLost(s.store, Run(w, s, es).store)
    decreases |es|
  {
    if es != [] {
      StepInv(w, s, es[0]);
      StepLosesNothing(w, s, es[0]);
      RunLosesNothing(w, Step(w, s, es[0]), es[1..]);
    }
  }

  // ----- no file is requested twice -----

  /** The requests that are looking up a file, or those of them that have asked for its metadata. */
  function LookUps(s: State, key: Key, asked: bool): set<nat> {
    set i | i in s.mem.sessions && s.mem.sessions[i].LookingUp? && s.mem.sessions[i].key == key
            && (asked ==> s.mem.sessions[i].requested)
  }

  lemma RequestLookUps(w: World, s: State, e: RequestEvent, key: Key)
    requires CanRequest(w, s, e)
    ensures key in s.store.published ==> LookUps(DoRequest(w, s, e), key, false) <= LookUps(s, key, false)
    ensures key in s.store.pending ==> LookUps(DoRequest(w, s, e), key, true) <= LookUps(s, key, true)
  {
  }

  lemma StepLookUps(w: World, s: State, e: Event, key: Key)
    requires Enabled(w, s, e)
    ensures key in s.store.published ==> LookUps(Step(w, s, e), key, false) <= LookUps(s, key, false)
    ensures key in s.store.pending ==> LookUps(Step(w, s, e), key, true) <= LookUps(s, key, true)
  {
    match e
    case Crash =>
    case OfRequest(r) => RequestLookUps(w, s, r, key);
    case OfQueue(q) => QueueKeepsSessions(w, s, q);
    case OfPass(p) => PassKeepsSessions(w, s, p);
    case OfFinish(f) => FinishKeepsSessions(w, s, f);
  }

  lemma QueueKeepsSessions(w: World, s: State, e: QueueEvent)
    requires CanQueue(w, s, e)
    ensures DoQueue(w, s, e).mem.sessions == s.mem.sessions
  {
  }

  lemma PassKeepsSessions(w: World, s: State, e: PassEvent)
    requires CanPass(w, s, e)
    ensures DoPass(w, s, e).mem.sessions == s.mem.sessions
  {
  }

  lemma FinishKeepsSessions(w: World, s: State, e: FinishEvent)
    requires CanFinish(w, s, e)
    ensures DoFinish(w, s, e).mem.sessions == s.mem.sessions
  {
  }

  /** The file is pending in every state of the run but the last. */
  ghost predicate StaysPending(w: World, s: State, es: seq<Event>, key: Key)
    requires Possible(w, s, es)
    decreases |es|
  {
    es == [] || (key in s.store.pending && StaysPending(w, Step(w, s, es[0]), es[1..], key))
  }

  /** Once a file is published, no request for it begins any more, and while it is pending, none asks for its
      metadata. */
  lemma {:induction false} RunLookUps(w: World, s: State, es: seq<Event>, key: Key)
    requires WellFormed(w) && Inv(w, s) && Possible(w, s, es)
    ensures key in s.store.published ==> LookUps(Run(w, s, es), key, false) <= LookUps(s, key, false)
    ensures StaysPending(w, s, es, key) ==> LookUps(Run(w, s, es), key, true) <= LookUps(s, key, true)
    decreases |es|
  {
    if es != [] {
      StepInv(w, s, es[0]);
      StepLosesNothing(w, s, es[0]);
      StepLookUps(w, s, es[0], key);
      RunLookUps(w, Step(w, s, es[0]), es[1..], key);
    }
  }

  // ----- serving chunks -----

  /** Where a requested chunk is looked for: among the published files, and then, in the store as it is
      later, among the chunks a pending download has recorded. */
  function Locate(first: Store, second: Store, key: Key, id: nat): Option<Dir> {
    if key in first.published then Some(first.published[key].chunksDir)
    else if key in second.pending && id in second.pending[key].downloadedChunks then Some(second.pending[key].chunksDir)
    else None
  }

  /** The reply to a request for a chunk, which is read from `last` after its metadata was read from
      `third`. */
  function ReplyTo(first: Store, second: Store, third: Disk, last: Disk, key: Key, id: nat): FileResponse {
    match Locate(first, second, key, id)
    case None => NotFound
    case Some(d) =>
      if !Readable(third, d) then Error
      else
        var m := third.metas[d].metadata;
        if id >= m.totalChunks || ChunkFile(m, id) !in last.files then Error
        else Success(last.files[ChunkFile(m, id)])
  }

  /** The reply for a chunk that is looked for in a directory, whose metadata could be read or not. */
  ghost predicate ServedFrom(w: World, d: Dir, readable: bool, key: Key, id: nat, reply: FileResponse) {
    && d in w.meta && KeyAt(w, d) == key
    && if readable && id < w.meta[d].totalChunks
       then reply.Success? && id < |w.meta[d].merkleProofs| && Check(w, w.meta[d], id, reply.bytes) == Accepted
       else reply == Error
  }

  /** A chunk of a published file is served exactly if its number is valid and the metadata of the file's
      directory can be read; so is a chunk that a pending download has recorded, if the file is not
      published; and then a requester with the file's metadata accepts the bytes, no matter what
      happens between the four reads it takes. Any other chunk is not found. */
  lemma ServedChunkVerifies(w: World, s: State, a: seq<Event>, b: seq<Event>, c: seq<Event>, key: Key, id: nat)
    requires WellFormed(w) && Inv(w, s) && Possible(w, s, a)
    requires Possible(w, Run(w, s, a), b) && Possible(w, Run(w, Run(w, s, a), b), c)
    ensures
      var second := Run(w, s, a);
      var third := Run(w, second, b);
      var last := Run(w, third, c);
      var reply := ReplyTo(s.store, second.store, third.disk, last.disk, key, id);
      if key in s.store.published then
        var d := s.store.published[key].chunksDir;
        ServedFrom(w, d, Readable(second.disk, d), key, id, reply)
      else if key in second.store.pending && id in second.store.pending[key].downloadedChunks then
        var d := second.store.pending[key].chunksDir;
        ServedFrom(w, d, Readable(second.disk, d), key, id, reply)
      else reply == NotFound
  {
    var second := Run(w, s, a);
    var third := Run(w, second, b);
    RunGrows(w, s, a);
    RunGrows(w, second, b);
    RunGrows(w, third, c);
    match Locate(s.store, second.store, key, id)
    case None =>
    case Some(d) =>
      LocatedOk(w, s, second, key, id);
      StillThere(w, second.disk, third.disk, d, id);
      StillThere(w, third.disk, Run(w, third, c).disk, d, id);
  }

  /** The directory of a file, and a chunk there that a request with a valid number may ask for. */
  ghost predicate Servable(w: World, disk: Disk, d: Dir, id: nat) {
    && DiskInv(w, disk) && d in w.meta && d in disk.claimed && Genuine(w, d)
    && (id < w.meta[d].totalChunks ==> ChunkOk(w, disk, d, id))
  }

  lemma LocatedOk(w: World, first: State, second: State, key: Key, id: nat)
    requires WellFormed(w) && Inv(w, first) && Inv(w, second) && Grows(w, first.disk, second.disk)
    requires Locate(first.store, second.store, key, id).Some?
    ensures
      var d := Locate(first.store, second.store, key, id).value;
      Servable(w, second.disk, d, id) && KeyAt(w, d) == key
  {
    if key in first.store.published {
      var d := first.store.published[key].chunksDir;
      assert PublishedOk(w, first.disk, first.store.published[key]);
      assert Genuine(w, d);
      if id < w.meta[d].totalChunks { assert ChunkOk(w, first.disk, d, id); }
    } else {
      assert RecordOk(w, second.disk, second.store.pending[key]);
    }
  }

  lemma StillThere(w: World, a: Disk, b: Disk, d: Dir, id: nat)
    requires Servable(w, a, d, id) && Grows(w, a, b) && DiskInv(w, b)
    ensures Servable(w, b, d, id) && (Readable(b, d) <==> Readable(a, d))
    ensures Readable(b, d) ==> b.metas[d].metadata == w.meta[d]
  {
  }

  // ----- the publish queue -----

  /** A job is removed only when everything about its file has been announced and the file is
      recorded as published. */
  lemma JobClearedWhenPublished(w: World, s: State)
    requires Inv(w, s) && s.mem.worker.Clearing?
    ensures
      var m := s.mem.worker.m;
      var key := MetadataKey(w.keyHash, m);
      var store := DoClearJob(w, s, true).store;
      && key in s.store.jobs && store.jobs == s.store.jobs - {key} && |store.jobs| == |s.store.jobs| - 1
      && key in store.published
      && OfMetadata(m.chunksDir) in s.announced
      && forall i: nat :: i < m.totalChunks ==> OfChunk(m.chunksDir, i) in s.announced
  {
    var key := MetadataKey(w.keyHash, s.mem.worker.m);
    assert (s.store.jobs - {key}).Keys == s.store.jobs.Keys - {key};
  }

  /** Recording a file as published leaves the record of another file alone, be it that they differ only in
      name, chunk count, root or visibility; unless the key hash collides. */
  lemma RecordsStayApart(w: World, s: State, other: FileMetadata)
    requires s.mem.worker.Recording? && MetadataKey(w.keyHash, other) in s.store.published
    requires
      var m := s.mem.worker.m;
      var x := (m.originalFileName, m.totalChunks, m.merkleRoot, m.public);
      var y := (other.originalFileName, other.totalChunks, other.merkleRoot, other.public);
      x != y && !KeyCollision(w.keyHash, x, y)
    ensures
      var key, published := MetadataKey(w.keyHash, other), DoRecordPublished(w, s, true).store.published;
      && key in published && published[key] == s.store.published[key]
      && MetadataKey(w.keyHash, s.mem.worker.m) in published && MetadataKey(w.keyHash, s.mem.worker.m) != key
  {
    KeyTellsApart(w.keyHash, s.mem.worker.m, other);
  }

  ghost predicate StoresNoJob(s: State, e: Event) {
    (e.OfRequest? && e.request.StoreRecord? && e.request.sid in s.mem.sessions
      && s.mem.sessions[e.request.sid].Described?)
    ==> !s.mem.sessions[e.request.sid].publish
  }

  function Clears(e: Event): nat {
    if e == OfQueue(ClearJob(true)) then 1 else 0
  }

  lemma StepJobs(w: World, s: State, e: Event)
    requires Inv(w, s) && Enabled(w, s, e) && StoresNoJob(s, e)
    ensures |Step(w, s, e).store.jobs| + Clears(e) == |s.store.jobs|
  {
    if e == OfQueue(ClearJob(true)) {
      JobClearedWhenPublished(w, s);
    } else {
      OthersKeepJobs(w, s, e);
    }
  }

  lemma OthersKeepJobs(w: World, s: State, e: Event)
    requires Enabled(w, s, e) && StoresNoJob(s, e) && e != OfQueue(ClearJob(true))
    ensures Step(w, s, e).store.jobs == s.store.jobs
  {
    match e
    case Crash =>
    case OfRequest(r) =>
    case OfQueue(q) =>
    case OfPass(p) => PassKeepsJobs(w, s, p);
    case OfFinish(f) => FinishKeepsJobs(w, s, f);
  }

  lemma PassKeepsJobs(w: World, s: State, e: PassEvent)
    requires CanPass(w, s, e)
    ensures DoPass(w, s, e).store.jobs == s.store.jobs
  {
  }

  lemma FinishKeepsJobs(w: World, s: State, e: FinishEvent)
    requires CanFinish(w, s, e)
    ensures DoFinish(w, s, e).store.jobs == s.store.jobs
  {
  }

  ghost predicate NoJobsStored(w: World, s: State, es: seq<Event>)
    requires Possible(w, s, es)
    decreases |es|
  {
    es == [] || (StoresNoJob(s, es[0]) && NoJobsStored(w, Step(w, s, es[0]), es[1..]))
  }

  function ClearCount(es: seq<Event>): nat {
    if es == [] then 0 else Clears(es[0]) + ClearCount(es[1..])
  }

  /** While no job is added, every completed turn takes exactly one job off the queue, crashes or
      not. */
  lemma {:induction false} QueueShrinks(w: World, s: State, es: seq<Event>)
    requires WellFormed(w) && Inv(w, s) && Possible(w, s, es) && NoJobsStored(w, s, es)
    ensures |Run(w, s, es).store.jobs| + ClearCount(es) == |s.store.jobs|
    decreases |es|
  {
    if es != [] {
      StepInv(w, s, es[0]);
      StepJobs(w, s, es[0]);
      QueueShrinks(w, Step(w, s, es[0]), es[1..]);
    }
  }

  // ----- progress within a task -----

  /** The phases in the order in which a task goes through them. */
  function Rank(phase: Phase): nat {
    match phase
    case Starting => 0
    case Collecting(_, _) => 1
    case Completing => 2
    case Writing(_, _) => 3
    case Publishing(_) => 4
    case Deleting(_) => 5
    case Providing(_) => 6
    case Ended => 7
  }

  /** A later version of a task: further on, with the same record but for more chunks. */
  ghost predicate Later(a: Task, b: Task) {
    && Rank(a.phase) <= Rank(b.phase)
    && a.record.downloadedChunks <= b.record.downloadedChunks
    && b.record == a.record.(downloadedChunks := b.record.downloadedChunks)
  }

  lemma StepLater(w: World, s: State, e: Event, tid: nat)
    requires Enabled(w, s, e) && tid in s.mem.tasks && tid in Step(w, s, e).mem.tasks
    ensures Later(s.mem.tasks[tid], Step(w, s, e).mem.tasks[tid])
  {
    match e
    case Crash =>
    case OfRequest(r) => RequestKeepsTasks(w, s, r);
    case OfQueue(q) => QueueKeepsTasks(w, s, q);
    case OfPass(p) => PassLater(w, s, p, tid);
    case OfFinish(f) => FinishLater(w, s, f, tid);
  }

  lemma RequestKeepsTasks(w: World, s: State, e: RequestEvent)
    requires CanRequest(w, s, e)
    ensures DoRequest(w, s, e).mem.tasks == s.mem.tasks
  {
  }

  lemma QueueKeepsTasks(w: World, s: State, e: QueueEvent)
    requires CanQueue(w, s, e)
    ensures DoQueue(w, s, e).mem.tasks == s.mem.tasks
  {
  }

  lemma PassLater(w: World, s: State, e: PassEvent, tid: nat)
    requires CanPass(w, s, e) && tid in s.mem.tasks && tid in DoPass(w, s, e).mem.tasks
    ensures Later(s.mem.tasks[tid], DoPass(w, s, e).mem.tasks[tid])
  {
  }

  lemma FinishLater(w: World, s: State, e: FinishEvent, tid: nat)
    requires CanFinish(w, s, e) && tid in s.mem.tasks && tid in DoFinish(w, s, e).mem.tasks
    ensures Later(s.mem.tasks[tid], DoFinish(w, s, e).mem.tasks[tid])
  {
  }

  /** The task is there all through the run. */
  ghost predicate Lives(w: World, s: State, es: seq<Event>, tid: nat)
    requires Possible(w, s, es)
    decreases |es|
  {
    tid in s.mem.tasks && (es == [] || Lives(w, Step(w, s, es[0]), es[1..], tid))
  }

  /** The task tries to persist its progress. */
  ghost predicate Persists(e: Event, tid: nat) {
    e.OfPass? && e.pass.Join? && e.pass.c.task == tid
  }

  /** A task never goes back: its record stays the same but for the downloaded chunks, which only
      grow, and once its pass has ended, so before it restores, publishes or deletes anything, it does
      not write its pending record again. */
  lemma {:induction false} TaskAdvances(w: World, s: State, es: seq<Event>, tid: nat)
    requires Possible(w, s, es) && Lives(w, s, es, tid)
    ensures tid in Run(w, s, es).mem.tasks && Later(s.mem.tasks[tid], Run(w, s, es).mem.tasks[tid])
    ensures Rank(s.mem.tasks[tid].phase) > 1 ==> forall i :: 0 <= i < |es| ==> !Persists(es[i], tid)
    decreases |es|
  {
    if es != [] {
      var t := Step(w, s, es[0]);
      StepLater(w, s, es[0], tid);
      TaskAdvances(w, t, es[1..], tid);
      forall i | 0 <= i < |es| && Rank(s.mem.tasks[tid].phase) > 1
        ensures !Persists(es[i], tid)
      {
        if i > 0 { assert es[i] == es[1..][i - 1]; }
      }
    }
  }
}
