/** A node as a transition system.

    One event is what happens between two points where the program can be interrupted: a disk
    write, a store operation, a message, a lock or permit. The events of different tasks
    interleave freely, disk and store operations may fail, peers answer anything, and a crash
    keeps only disk and store. */
module Node {
  import opened Bytes
  import opened Keys
  import opened Merkle
  import opened Domain
  import opened Download

  /** Chunk verification: chunk, index, proof bytes, root, total leaves. */
  type Verifier = (Bytes, nat, Bytes, Digest, nat) -> Verdict

  /** What the node's chunk directories are for: `meta[d]` is the metadata belonging to
      directory `d`, `contents[d]` the chunks it was made from. */
  datatype World = World(
    verify: Verifier,
    keyHash: KeyHash,
    permits: nat,
    meta: map<Dir, FileMetadata>,
    contents: map<Dir, seq<Bytes>>)

  function Check(w: World, m: FileMetadata, id: nat, bytes: Bytes): Verdict
    requires id < |m.merkleProofs|
  {
    w.verify(bytes, id, m.merkleProofs[id], m.merkleRoot, m.totalChunks)
  }

  ghost predicate AllAccepted(w: World, m: FileMetadata, pieces: seq<Bytes>) {
    && |pieces| <= |m.merkleProofs|
    && forall i :: 0 <= i < |pieces| ==> Check(w, m, i, pieces[i]) == Accepted
  }

  /** Two files have different destinations, and neither is assembled where the other belongs. */
  ghost predicate Apart(w: World, d: Dir, e: Dir)
    requires d in w.meta && e in w.meta
  {
    && (Destination(w.meta[d]) == Destination(w.meta[e]) ==> d == e)
    && PartFile(w.meta[d]) != Destination(w.meta[e])
  }

  ghost predicate Genuine(w: World, d: Dir)
    requires d in w.meta
  {
    && d in w.contents
    && w.meta[d].chunksDir == d
    && w.meta[d].totalChunks == |w.meta[d].merkleProofs| == |w.contents[d]|
    && AllAccepted(w, w.meta[d], w.contents[d])
  }

  ghost predicate WellFormed(w: World) {
    && (forall d, e :: d in w.meta && e in w.meta ==> Apart(w, d, e))
    && (forall d :: d in w.meta ==> Genuine(w, d))
  }

  function KeyAt(w: World, d: Dir): Key
    requires d in w.meta
  {
    MetadataKey(w.keyHash, w.meta[d])
  }

  // ----- state -----

  /** `pieces` remembers what each destination was put together from, and `claimed` the
      directories that a stored record has ever referred to; neither influences an event other
      than by the rule that a request does not reuse such a directory. */
  datatype Disk = Disk(
    metas: map<Dir, MetaFile>,
    files: map<Path, Bytes>,
    pieces: map<Dir, seq<Bytes>>,
    claimed: set<Dir>)

  datatype Store = Store(
    published: map<Key, PublishedFileRecord>,
    pending: map<Key, PendingDownloadRecord>,
    jobs: map<Key, FileMetadata>)

  /** A gRPC request being carried out. */
  datatype Session =
    | LookingUp(key: Key, requested: bool)
    | Splitting(dir: Dir, next: nat)
    | Saving(dir: Dir, publish: bool)
    | Described(dir: Dir, publish: bool)

  /** The event loop, and the turn of the publish queue that it is working on. Until start-up is over,
      nothing is scheduled or taken from the queue, and no answer arrives; only requests are carried
      out. Announcement 0 is the metadata, announcement `k + 1` is chunk `k`. */
  datatype Worker =
    | Booting
    | Idle
    | Announcing(m: FileMetadata, next: nat)
    | Recording(m: FileMetadata)
    | Clearing(m: FileMetadata)

  datatype Phase =
    | Starting
    | Collecting(total: nat, firstError: Option<nat>)
    | Completing
    | Writing(m: FileMetadata, pieces: seq<Bytes>)
    | Publishing(m: FileMetadata)
    | Deleting(m: FileMetadata)
    | Providing(m: FileMetadata)
    | Ended

  datatype Task = Task(record: PendingDownloadRecord, phase: Phase)

  datatype ChunkTask = ChunkTask(task: nat, id: nat)

  datatype ChunkState =
    | Waiting
    | Requesting
    | Received(bytes: Bytes)
    | OnDisk
    | Done(outcome: Outcome)

  datatype Memory = Memory(
    free: nat,
    active: set<Key>,
    stream: seq<PendingDownloadRecord>,
    tasks: map<nat, Task>,
    chunks: map<ChunkTask, ChunkState>,
    sessions: map<nat, Session>,
    worker: Worker)

  /** An announced key: of the metadata, or of a chunk, of the file in a directory. */
  datatype Announcement = OfMetadata(dir: Dir) | OfChunk(dir: Dir, id: nat)

  datatype State = State(disk: Disk, store: Store, mem: Memory, announced: set<Announcement>)

  function FreshMemory(w: World): Memory {
    Memory(w.permits, {}, [], map[], map[], map[], Booting)
  }

  function Init(w: World): State {
    State(Disk(map[], map[], map[], {}), Store(map[], map[], map[]), FreshMemory(w), {})
  }

  // ----- events -----

  /** Publish and download requests. */
  datatype RequestEvent =
    | PublishStart(sid: nat, dir: Dir)
    | PublishChunk(sid: nat)
    | PublishSave(sid: nat)
    | LookUp(sid: nat, key: Key)
    | RequestMetadata(sid: nat)
    | MetadataArrives(sid: nat, dir: Dir)
    | SaveDone(sid: nat, written: bool)
    | ProvideRequested(sid: nat)
    | StoreRecord(sid: nat, ok: bool)
    | RequestFails(sid: nat)

  /** The publish queue, and announcing again at start-up. */
  datatype QueueEvent =
    | TakeJob(key: Key)
    | AnnounceNext(ok: bool)
    | RecordPublished(ok: bool)
    | ClearJob(ok: bool)
    | Reannounce(key: Key, next: nat)
    | StartUp(skipped: set<Key>)

  /** Scheduling, and one pass of a download task over its missing chunks. */
  datatype PassEvent =
    | Tick(snapshot: seq<PendingDownloadRecord>)
    | NextRecord(tid: nat)
    | ReadMetadata(tid: nat, ok: bool)
    | Acquire(c: ChunkTask)
    | Reply(c: ChunkTask, reply: Option<Option<FileResponse>>)
    | VerifyAndSave(c: ChunkTask, ok: bool)
    | AnnounceChunk(c: ChunkTask, ok: bool)
    | Join(c: ChunkTask, putOk: bool)
    | JoinsDone(tid: nat)

  /** Restoring, publishing and the end of a download task. */
  datatype FinishEvent =
    | OpenPart(tid: nat, ok: bool)
    | AppendChunk(tid: nat, ok: bool)
    | RenamePart(tid: nat, ok: bool)
    | PutPublished(tid: nat, ok: bool)
    | DeletePending(tid: nat, ok: bool)
    | ProvideRestored(tid: nat)
    | EndTask(tid: nat)

  datatype Event =
    | Crash
    | OfRequest(request: RequestEvent)
    | OfQueue(queue: QueueEvent)
    | OfPass(pass: PassEvent)
    | OfFinish(finish: FinishEvent)

  // ----- small updates -----

  function SetSession(s: State, sid: nat, session: Session): State {
    s.(mem := s.mem.(sessions := s.mem.sessions[sid := session]))
  }

  function EndSession(s: State, sid: nat): State {
    s.(mem := s.mem.(sessions := s.mem.sessions - {sid}))
  }

  function SetWorker(s: State, worker: Worker): State {
    s.(mem := s.mem.(worker := worker))
  }

  function SetTask(s: State, tid: nat, task: Task): State {
    s.(mem := s.mem.(tasks := s.mem.tasks[tid := task]))
  }

  function SetPhase(s: State, tid: nat, phase: Phase): State
    requires tid in s.mem.tasks
  {
    SetTask(s, tid, s.mem.tasks[tid].(phase := phase))
  }

  function SetChunk(s: State, c: ChunkTask, chunk: ChunkState): State {
    s.(mem := s.mem.(chunks := s.mem.chunks[c := chunk]))
  }

  /** A chunk task ends, and its permit goes back. */
  function FinishChunk(s: State, c: ChunkTask, outcome: Outcome): State {
    s.(mem := s.mem.(chunks := s.mem.chunks[c := Done(outcome)], free := s.mem.free + 1))
  }

  function SetFiles(s: State, files: map<Path, Bytes>): State {
    s.(disk := s.disk.(files := files))
  }

  function SetMeta(s: State, d: Dir, file: MetaFile): State {
    s.(disk := s.disk.(metas := s.disk.metas[d := file]))
  }

  function Announce(s: State, a: Announcement): State {
    s.(announced := s.announced + {a})
  }

  // ----- publish requests -----

  /** No stored record and no other request refers to the directory. */
  ghost predicate DirFree(s: State, d: Dir) {
    d !in s.disk.claimed
    && forall i :: i in s.mem.sessions && !s.mem.sessions[i].LookingUp? ==> s.mem.sessions[i].dir != d
  }

  /** The user's file lies at the destination of its own chunk directory. */
  ghost predicate CanPublishStart(w: World, s: State, sid: nat, d: Dir) {
    && sid !in s.mem.sessions && d in w.meta && d in w.contents && DirFree(s, d)
    && w.meta[d].totalChunks > 0 && w.meta[d].chunkFileExtension == FILE_CHUNK_EXTENSION
    && (Destination(w.meta[d]) in s.disk.files ==> s.disk.files[Destination(w.meta[d])] == Flat(w.contents[d]))
  }

  function DoPublishStart(w: World, s: State, sid: nat, d: Dir): State
    requires d in w.meta && d in w.contents
  {
    var disk := s.disk.(files := s.disk.files[Destination(w.meta[d]) := Flat(w.contents[d])],
                        pieces := s.disk.pieces[d := w.contents[d]]);
    SetSession(s.(disk := disk), sid, Splitting(d, 0))
  }

  predicate InSplitting(w: World, s: State, sid: nat) {
    sid in s.mem.sessions && s.mem.sessions[sid].Splitting? && s.mem.sessions[sid].dir in w.contents
  }

  predicate CanPublishChunk(w: World, s: State, sid: nat) {
    InSplitting(w, s, sid) && s.mem.sessions[sid].next < |w.contents[s.mem.sessions[sid].dir]|
  }

  function DoPublishChunk(w: World, s: State, sid: nat): State
    requires CanPublishChunk(w, s, sid)
  {
    var Splitting(d, next) := s.mem.sessions[sid];
    var written := SetFiles(s, s.disk.files[ChunkPath(d, next, FILE_CHUNK_EXTENSION) := w.contents[d][next]]);
    SetSession(written, sid, Splitting(d, next + 1))
  }

  predicate CanPublishSave(w: World, s: State, sid: nat) {
    InSplitting(w, s, sid) && s.mem.sessions[sid].next == |w.contents[s.mem.sessions[sid].dir]|
  }

  function DoPublishSave(s: State, sid: nat): State
    requires sid in s.mem.sessions && s.mem.sessions[sid].Splitting?
  {
    var d := s.mem.sessions[sid].dir;
    SetSession(SetMeta(s, d, Torn), sid, Saving(d, true))
  }

  // ----- download requests -----

  predicate CanLookUp(s: State, sid: nat, key: Key) {
    sid !in s.mem.sessions && key !in s.store.published
  }

  predicate CanRequestMetadata(s: State, sid: nat) {
    && sid in s.mem.sessions && s.mem.sessions[sid].LookingUp? && !s.mem.sessions[sid].requested
    && s.mem.sessions[sid].key !in s.store.pending
  }

  /** The metadata received is that of the requested file, and its directory is not in use. */
  ghost predicate CanMetadataArrives(w: World, s: State, sid: nat, d: Dir) {
    && sid in s.mem.sessions && s.mem.sessions[sid].LookingUp? && s.mem.sessions[sid].requested && d in w.meta
    && KeyAt(w, d) == s.mem.sessions[sid].key
    && Destination(w.meta[d]) !in s.disk.files && DirFree(s, d) && !s.mem.worker.Booting?
  }

  predicate CanSaveDone(w: World, s: State, sid: nat) {
    sid in s.mem.sessions && s.mem.sessions[sid].Saving? && s.mem.sessions[sid].dir in w.meta
  }

  /** Saving metadata is done, as far as the request can tell. The last part of it is written when the
      writer is dropped, and a failure then is not noticed: the file stays torn. */
  function DoSaveDone(w: World, s: State, sid: nat, written: bool): State
    requires CanSaveDone(w, s, sid)
  {
    var Saving(d, publish) := s.mem.sessions[sid];
    SetSession(SetMeta(s, d, MetaAfter(w, d, written)), sid, Described(d, publish))
  }

  function MetaAfter(w: World, d: Dir, written: bool): MetaFile
    requires d in w.meta
  {
    if written then Saved(w.meta[d]) else Torn
  }

  predicate CanStoreRecord(w: World, s: State, sid: nat) {
    sid in s.mem.sessions && s.mem.sessions[sid].Described? && s.mem.sessions[sid].dir in w.meta
  }

  /** A download request announces the metadata before it stores its record. */
  predicate MetadataSent(s: State, session: Session)
    requires session.Described?
  {
    session.publish || OfMetadata(session.dir) in s.announced
  }

  function DoStoreRecord(w: World, s: State, sid: nat, ok: bool): State
    requires CanStoreRecord(w, s, sid)
  {
    var Described(d, publish) := s.mem.sessions[sid];
    var m := w.meta[d];
    var key := KeyAt(w, d);
    if !ok then EndSession(s, sid)
    else
      var store :=
        if publish then s.store.(jobs := s.store.jobs[key := m])
        else s.store.(pending :=
          s.store.pending[key := PendingDownloadRecord(key, m.originalFileName, m.chunksDir, {})]);
      EndSession(s.(disk := s.disk.(claimed := s.disk.claimed + {d}), store := store), sid)
  }

  // ----- the publish queue -----

  predicate CanTakeJob(s: State, key: Key) {
    s.mem.worker.Idle? && key in s.store.jobs && forall k :: k in s.store.jobs && k != key ==> Before(key, k)
  }

  function DoAnnounceNext(s: State, ok: bool): State
    requires s.mem.worker.Announcing?
  {
    var Announcing(m, next) := s.mem.worker;
    if !ok then SetWorker(s, Announcing(m, 0))
    else
      var a := if next == 0 then OfMetadata(m.chunksDir) else OfChunk(m.chunksDir, next - 1);
      SetWorker(Announce(s, a), if next < m.totalChunks then Announcing(m, next + 1) else Recording(m))
  }

  function DoRecordPublished(w: World, s: State, ok: bool): State
    requires s.mem.worker.Recording?
  {
    if !ok then s
    else
      var m := s.mem.worker.m;
      var record := PublishedRecord(w.keyHash, m);
      SetWorker(s.(store := s.store.(published := s.store.published[record.key := record])), Clearing(m))
  }

  function DoClearJob(w: World, s: State, ok: bool): State
    requires s.mem.worker.Clearing?
  {
    if !ok then s
    else SetWorker(s.(store := s.store.(jobs := s.store.jobs - {MetadataKey(w.keyHash, s.mem.worker.m)})), Idle)
  }

  /** At start-up, metadata (0) and chunks (`k + 1`) of the published files are announced again. */
  predicate CanReannounce(s: State, key: Key, next: nat) {
    && s.mem.worker.Booting? && key in s.store.published && Readable(s.disk, s.store.published[key].chunksDir)
    && next <= s.disk.metas[s.store.published[key].chunksDir].metadata.totalChunks
  }

  function DoReannounce(s: State, key: Key, next: nat): State
    requires CanReannounce(s, key, next)
  {
    var d := s.store.published[key].chunksDir;
    Announce(s, if next == 0 then OfMetadata(d) else OfChunk(d, next - 1))
  }

  /** Start-up is over when all published files have been announced, but for those whose metadata files
      were skipped because reading them failed. It is not over, and the node stops, if one that is
      read does not decode. */
  predicate CanStartUp(s: State, skipped: set<Key>) {
    && s.mem.worker.Booting?
    && forall k :: k in s.store.published && k !in skipped ==> Readable(s.disk, s.store.published[k].chunksDir)
  }

  /** What start-up announces of the file of a directory. */
  function Announced(s: State, d: Dir): set<Announcement>
    requires Readable(s.disk, d)
  {
    {OfMetadata(d)} + set i: nat | i < s.disk.metas[d].metadata.totalChunks :: OfChunk(d, i)
  }

  function DoStartUp(s: State, skipped: set<Key>): State
    requires CanStartUp(s, skipped)
  {
    var again := set k, a | k in s.store.published && k !in skipped
                            && a in Announced(s, s.store.published[k].chunksDir) :: a;
    SetWorker(s.(announced := s.announced + again), Idle)
  }

  // ----- scheduling -----

  /** Everything pending, in key order: what the store streams. */
  ghost predicate IsSnapshot(pending: map<Key, PendingDownloadRecord>, snapshot: seq<PendingDownloadRecord>) {
    && (forall i :: 0 <= i < |snapshot| ==> snapshot[i].key in pending && pending[snapshot[i].key] == snapshot[i])
    && (forall k :: k in pending ==> pending[k] in snapshot)
    && (forall i, j :: 0 <= i < j < |snapshot| ==> Before(snapshot[i].key, snapshot[j].key))
  }

  ghost predicate CanTick(s: State, snapshot: seq<PendingDownloadRecord>) {
    !s.mem.worker.Booting? && s.mem.free > 0 && s.mem.stream == [] && IsSnapshot(s.store.pending, snapshot)
  }

  predicate CanNextRecord(s: State, tid: nat) {
    s.mem.stream != [] && tid !in s.mem.tasks
  }

  function DoNextRecord(s: State, tid: nat): State
    requires CanNextRecord(s, tid)
  {
    if s.mem.free == 0 then s.(mem := s.mem.(stream := []))
    else
      var record := s.mem.stream[0];
      var rest := s.(mem := s.mem.(stream := s.mem.stream[1..]));
      if record.key in s.mem.active then rest
      else SetTask(rest.(mem := rest.mem.(active := rest.mem.active + {record.key})), tid, Task(record, Starting))
  }

  // ----- one pass over the chunks -----

  /** The metadata file of a directory can be read and decoded. */
  predicate Readable(disk: Disk, d: Dir) {
    d in disk.metas && disk.metas[d].Saved?
  }

  predicate CanReadMetadata(s: State, tid: nat, ok: bool) {
    tid in s.mem.tasks && s.mem.tasks[tid].phase.Starting?
      && (ok ==> Readable(s.disk, s.mem.tasks[tid].record.chunksDir))
  }

  function Started(tid: nat, ids: set<nat>): map<ChunkTask, ChunkState> {
    map id | id in ids :: ChunkTask(tid, id) := Waiting
  }

  function DoReadMetadata(s: State, tid: nat, ok: bool): State
    requires CanReadMetadata(s, tid, ok)
  {
    if !ok then SetPhase(s, tid, Ended)
    else
      var record := s.mem.tasks[tid].record;
      var total := |s.disk.metas[record.chunksDir].metadata.merkleProofs|;
      var t := SetPhase(s, tid, Collecting(total, None));
      t.(mem := t.mem.(chunks := t.mem.chunks + Started(tid, Ids(total) - record.downloadedChunks)))
  }

  predicate CanAcquire(s: State, c: ChunkTask) {
    c in s.mem.chunks && s.mem.chunks[c].Waiting? && s.mem.free > 0
  }

  function DoAcquire(s: State, c: ChunkTask): State
    requires s.mem.free > 0
  {
    var t := SetChunk(s, c, Requesting);
    t.(mem := t.mem.(free := t.mem.free - 1))
  }

  predicate CanReply(s: State, c: ChunkTask) {
    c in s.mem.chunks && s.mem.chunks[c].Requesting?
  }

  /** `None` is a request that could not be sent or whose reply channel was dropped. */
  function DoReply(s: State, c: ChunkTask, reply: Option<Option<FileResponse>>): State {
    match reply
    case Some(Some(Success(bytes))) => SetChunk(s, c, Received(bytes))
    case Some(_) => FinishChunk(s, c, Nothing)
    case None => FinishChunk(s, c, Failed)
  }

  predicate CanVerifyAndSave(s: State, c: ChunkTask) {
    c.task in s.mem.tasks && c in s.mem.chunks && s.mem.chunks[c].Received?
  }

  function DoVerifyAndSave(w: World, s: State, c: ChunkTask, ok: bool): State
    requires CanVerifyAndSave(s, c)
  {
    var d := s.mem.tasks[c.task].record.chunksDir;
    if !ok || !Readable(s.disk, d) then FinishChunk(s, c, Failed)
    else
      var m := s.disk.metas[d].metadata;
      var bytes := s.mem.chunks[c].bytes;
      if c.id < |m.merkleProofs| && Check(w, m, c.id, bytes) == Accepted
      then SetChunk(SetFiles(s, s.disk.files[ChunkPath(d, c.id, m.chunkFileExtension) := bytes]), c, OnDisk)
      else FinishChunk(s, c, Failed)
  }

  predicate CanAnnounceChunk(s: State, c: ChunkTask) {
    c.task in s.mem.tasks && c in s.mem.chunks && s.mem.chunks[c].OnDisk?
  }

  function DoAnnounceChunk(s: State, c: ChunkTask, ok: bool): State
    requires CanAnnounceChunk(s, c)
  {
    if ok then FinishChunk(Announce(s, OfChunk(s.mem.tasks[c.task].record.chunksDir, c.id)), c, Got)
    else FinishChunk(s, c, Nothing)
  }

  predicate CanJoin(s: State, c: ChunkTask) {
    c.task in s.mem.tasks && s.mem.tasks[c.task].phase.Collecting? && c in s.mem.chunks && s.mem.chunks[c].Done?
  }

  function DoJoin(s: State, c: ChunkTask, putOk: bool): State
    requires CanJoin(s, c)
  {
    var Task(record, Collecting(total, firstError)) := s.mem.tasks[c.task];
    var outcome := s.mem.chunks[c].outcome;
    var p := Absorb(Progress(record.downloadedChunks, firstError), c.id, outcome);
    var after := record.(downloadedChunks := p.downloaded);
    var t := SetTask(s, c.task, Task(after, Collecting(total, p.firstError)));
    var joined := t.(mem := t.mem.(chunks := t.mem.chunks - {c}));
    if putOk && outcome.Got? && c.id !in record.downloadedChunks
    then joined.(store := joined.store.(pending := joined.store.pending[record.key := after]))
    else joined
  }

  predicate CanJoinsDone(s: State, tid: nat) {
    tid in s.mem.tasks && s.mem.tasks[tid].phase.Collecting? && forall c :: c in s.mem.chunks ==> c.task != tid
  }

  function DoJoinsDone(s: State, tid: nat): State
    requires tid in s.mem.tasks && s.mem.tasks[tid].phase.Collecting?
  {
    var Task(record, Collecting(total, firstError)) := s.mem.tasks[tid];
    var complete := PassResult(Progress(record.downloadedChunks, firstError), total) == Ok(true);
    SetPhase(s, tid, if complete then Completing else Ended)
  }

  // ----- completion -----

  predicate CanOpenPart(s: State, tid: nat, ok: bool) {
    tid in s.mem.tasks && s.mem.tasks[tid].phase.Completing?
      && (ok ==> Readable(s.disk, s.mem.tasks[tid].record.chunksDir))
  }

  function DoOpenPart(s: State, tid: nat, ok: bool): State
    requires CanOpenPart(s, tid, ok)
  {
    if !ok then SetPhase(s, tid, Ended)
    else
      var m := s.disk.metas[s.mem.tasks[tid].record.chunksDir].metadata;
      if Destination(m) in s.disk.files then SetPhase(s, tid, Publishing(m))
      else SetPhase(SetFiles(s, s.disk.files[PartFile(m) := []]), tid, Writing(m, []))
  }

  predicate InWriting(s: State, tid: nat, ok: bool) {
    && tid in s.mem.tasks && s.mem.tasks[tid].phase.Writing?
    && (ok ==> PartFile(s.mem.tasks[tid].phase.m) in s.disk.files)
  }

  predicate CanAppendChunk(s: State, tid: nat, ok: bool) {
    && InWriting(s, tid, ok)
    && |s.mem.tasks[tid].phase.pieces| < s.mem.tasks[tid].phase.m.totalChunks
    && (ok ==> ChunkFile(s.mem.tasks[tid].phase.m, |s.mem.tasks[tid].phase.pieces|) in s.disk.files)
  }

  function DoAppendChunk(s: State, tid: nat, ok: bool): State
    requires CanAppendChunk(s, tid, ok)
  {
    if !ok then SetPhase(s, tid, Ended)
    else
      var Writing(m, pieces) := s.mem.tasks[tid].phase;
      var bytes := s.disk.files[ChunkFile(m, |pieces|)];
      SetPhase(SetFiles(s, s.disk.files[PartFile(m) := s.disk.files[PartFile(m)] + bytes]), tid,
        Writing(m, pieces + [bytes]))
  }

  predicate CanRenamePart(s: State, tid: nat, ok: bool) {
    InWriting(s, tid, ok) && |s.mem.tasks[tid].phase.pieces| == s.mem.tasks[tid].phase.m.totalChunks
  }

  function DoRenamePart(s: State, tid: nat, ok: bool): State
    requires CanRenamePart(s, tid, ok)
  {
    if !ok then SetPhase(s, tid, Ended)
    else
      var Writing(m, pieces) := s.mem.tasks[tid].phase;
      var files := (s.disk.files - {PartFile(m)})[Destination(m) := s.disk.files[PartFile(m)]];
      SetPhase(s.(disk := s.disk.(files := files, pieces := s.disk.pieces[m.chunksDir := pieces])), tid, Publishing(m))
  }

  predicate InPublishing(s: State, tid: nat) {
    tid in s.mem.tasks && s.mem.tasks[tid].phase.Publishing?
  }

  function DoPutPublished(s: State, tid: nat, ok: bool): State
    requires InPublishing(s, tid)
  {
    if !ok then SetPhase(s, tid, Ended)
    else
      var Task(record, Publishing(m)) := s.mem.tasks[tid];
      var published := PublishedFileRecord(record.key, record.originalFileName, record.chunksDir, m.public);
      SetPhase(s.(store := s.store.(published := s.store.published[record.key := published])), tid, Deleting(m))
  }

  predicate InDeleting(s: State, tid: nat) {
    tid in s.mem.tasks && s.mem.tasks[tid].phase.Deleting?
  }

  function DoDeletePending(s: State, tid: nat, ok: bool): State
    requires InDeleting(s, tid)
  {
    if !ok then SetPhase(s, tid, Ended)
    else
      var Task(record, Deleting(m)) := s.mem.tasks[tid];
      SetPhase(s.(store := s.store.(pending := s.store.pending - {record.key})), tid, Providing(m))
  }

  predicate InProviding(s: State, tid: nat) {
    tid in s.mem.tasks && s.mem.tasks[tid].phase.Providing?
  }

  function DoProvideRestored(s: State, tid: nat): State
    requires InProviding(s, tid)
  {
    SetPhase(Announce(s, OfMetadata(s.mem.tasks[tid].phase.m.chunksDir)), tid, Ended)
  }

  predicate InEnded(s: State, tid: nat) {
    tid in s.mem.tasks && s.mem.tasks[tid].phase.Ended?
  }

  function DoEndTask(s: State, tid: nat): State
    requires InEnded(s, tid)
  {
    s.(mem := s.mem.(active := s.mem.active - {s.mem.tasks[tid].record.key}, tasks := s.mem.tasks - {tid}))
  }

  // ----- runs -----

  ghost predicate CanRequest(w: World, s: State, e: RequestEvent) {
    match e
    case PublishStart(sid, d) => CanPublishStart(w, s, sid, d)
    case PublishChunk(sid) => CanPublishChunk(w, s, sid)
    case PublishSave(sid) => CanPublishSave(w, s, sid)
    case LookUp(sid, key) => CanLookUp(s, sid, key)
    case RequestMetadata(sid) => CanRequestMetadata(s, sid)
    case MetadataArrives(sid, d) => CanMetadataArrives(w, s, sid, d)
    case SaveDone(sid, _) => CanSaveDone(w, s, sid)
    case ProvideRequested(sid) => CanStoreRecord(w, s, sid) && !s.mem.sessions[sid].publish
    case StoreRecord(sid, _) => CanStoreRecord(w, s, sid) && MetadataSent(s, s.mem.sessions[sid])
    case RequestFails(sid) => sid in s.mem.sessions
  }

  ghost function DoRequest(w: World, s: State, e: RequestEvent): State
    requires CanRequest(w, s, e)
  {
    match e
    case PublishStart(sid, d) => DoPublishStart(w, s, sid, d)
    case PublishChunk(sid) => DoPublishChunk(w, s, sid)
    case PublishSave(sid) => DoPublishSave(s, sid)
    case LookUp(sid, key) => SetSession(s, sid, LookingUp(key, false))
    case RequestMetadata(sid) => SetSession(s, sid, LookingUp(s.mem.sessions[sid].key, true))
    case MetadataArrives(sid, d) => SetSession(SetMeta(s, d, Torn), sid, Saving(d, false))
    case SaveDone(sid, written) => DoSaveDone(w, s, sid, written)
    case ProvideRequested(sid) => Announce(s, OfMetadata(s.mem.sessions[sid].dir))
    case StoreRecord(sid, ok) => DoStoreRecord(w, s, sid, ok)
    case RequestFails(sid) => EndSession(s, sid)
  }

  ghost predicate CanQueue(w: World, s: State, e: QueueEvent) {
    match e
    case TakeJob(key) => CanTakeJob(s, key)
    case AnnounceNext(_) => s.mem.worker.Announcing?
    case RecordPublished(_) => s.mem.worker.Recording?
    case ClearJob(_) => s.mem.worker.Clearing?
    case Reannounce(key, next) => CanReannounce(s, key, next)
    case StartUp(skipped) => CanStartUp(s, skipped)
  }

  ghost function DoQueue(w: World, s: State, e: QueueEvent): State
    requires CanQueue(w, s, e)
  {
    match e
    case TakeJob(key) => SetWorker(s, Announcing(s.store.jobs[key], 0))
    case AnnounceNext(ok) => DoAnnounceNext(s, ok)
    case RecordPublished(ok) => DoRecordPublished(w, s, ok)
    case ClearJob(ok) => DoClearJob(w, s, ok)
    case Reannounce(key, next) => DoReannounce(s, key, next)
    case StartUp(skipped) => DoStartUp(s, skipped)
  }

  ghost predicate CanPass(w: World, s: State, e: PassEvent) {
    match e
    case Tick(snapshot) => CanTick(s, snapshot)
    case NextRecord(tid) => CanNextRecord(s, tid)
    case ReadMetadata(tid, ok) => CanReadMetadata(s, tid, ok)
    case Acquire(c) => CanAcquire(s, c)
    case Reply(c, _) => CanReply(s, c)
    case VerifyAndSave(c, _) => CanVerifyAndSave(s, c)
    case AnnounceChunk(c, _) => CanAnnounceChunk(s, c)
    case Join(c, _) => CanJoin(s, c)
    case JoinsDone(tid) => CanJoinsDone(s, tid)
  }

  ghost function DoPass(w: World, s: State, e: PassEvent): State
    requires CanPass(w, s, e)
  {
    match e
    case Tick(snapshot) => s.(mem := s.mem.(stream := snapshot))
    case NextRecord(tid) => DoNextRecord(s, tid)
    case ReadMetadata(tid, ok) => DoReadMetadata(s, tid, ok)
    case Acquire(c) => DoAcquire(s, c)
    case Reply(c, reply) => DoReply(s, c, reply)
    case VerifyAndSave(c, ok) => DoVerifyAndSave(w, s, c, ok)
    case AnnounceChunk(c, ok) => DoAnnounceChunk(s, c, ok)
    case Join(c, putOk) => DoJoin(s, c, putOk)
    case JoinsDone(tid) => DoJoinsDone(s, tid)
  }

  ghost predicate CanFinish(w: World, s: State, e: FinishEvent) {
    match e
    case OpenPart(tid, ok) => CanOpenPart(s, tid, ok)
    case AppendChunk(tid, ok) => CanAppendChunk(s, tid, ok)
    case RenamePart(tid, ok) => CanRenamePart(s, tid, ok)
    case PutPublished(tid, _) => InPublishing(s, tid)
    case DeletePending(tid, _) => InDeleting(s, tid)
    case ProvideRestored(tid) => InProviding(s, tid)
    case EndTask(tid) => InEnded(s, tid)
  }

  ghost function DoFinish(w: World, s: State, e: FinishEvent): State
    requires CanFinish(w, s, e)
  {
    match e
    case OpenPart(tid, ok) => DoOpenPart(s, tid, ok)
    case AppendChunk(tid, ok) => DoAppendChunk(s, tid, ok)
    case RenamePart(tid, ok) => DoRenamePart(s, tid, ok)
    case PutPublished(tid, ok) => DoPutPublished(s, tid, ok)
    case DeletePending(tid, ok) => DoDeletePending(s, tid, ok)
    case ProvideRestored(tid) => DoProvideRestored(s, tid)
    case EndTask(tid) => DoEndTask(s, tid)
  }

  ghost predicate Enabled(w: World, s: State, e: Event) {
    match e
    case Crash => true
    case OfRequest(r) => CanRequest(w, s, r)
    case OfQueue(q) => CanQueue(w, s, q)
    case OfPass(p) => CanPass(w, s, p)
    case OfFinish(f) => CanFinish(w, s, f)
  }

  ghost function Step(w: World, s: State, e: Event): State
    requires Enabled(w, s, e)
  {
    match e
    case Crash => s.(mem := FreshMemory(w))
    case OfRequest(r) => DoRequest(w, s, r)
    case OfQueue(q) => DoQueue(w, s, q)
    case OfPass(p) => DoPass(w, s, p)
    case OfFinish(f) => DoFinish(w, s, f)
  }

  /** All of a list of events can happen, one after the other. */
  ghost predicate Possible(w: World, s: State, es: seq<Event>)
    decreases |es|
  {
    es == [] || (Enabled(w, s, es[0]) && Possible(w, Step(w, s, es[0]), es[1..]))
  }

  ghost function Run(w: World, s: State, es: seq<Event>): State
    requires Possible(w, s, es)
    decreases |es|
  {
    if es == [] then s else Run(w, Step(w, s, es[0]), es[1..])
  }
}
