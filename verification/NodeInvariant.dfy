/** What every reachable state of a node satisfies: disk, store and memory agree. */
module NodeInvariant {
  import opened Bytes
  import opened Keys
  import opened Merkle
  import opened Domain
  import opened Download
  import opened Node

  // ----- facts about the disk that no event undoes -----

  /** Chunk file `i` of directory `d` is there and passes verification. */
  ghost predicate ChunkOk(w: World, disk: Disk, d: Dir, i: nat) {
    && d in w.meta && i < |w.meta[d].merkleProofs|
    && ChunkFile(w.meta[d], i) in disk.files
    && Check(w, w.meta[d], i, disk.files[ChunkFile(w.meta[d], i)]) == Accepted
  }

  ghost predicate AllChunks(w: World, disk: Disk, d: Dir) {
    d in w.meta && forall i: nat :: i < |w.meta[d].merkleProofs| ==> ChunkOk(w, disk, d, i)
  }

  /** The destination holds the concatenation of one accepted piece for every chunk. */
  ghost predicate Complete(w: World, disk: Disk, d: Dir) {
    && d in w.meta && Destination(w.meta[d]) in disk.files && d in disk.pieces
    && disk.files[Destination(w.meta[d])] == Flat(disk.pieces[d])
    && |disk.pieces[d]| == w.meta[d].totalChunks
    && AllAccepted(w, w.meta[d], disk.pieces[d])
  }

  ghost predicate Grows(w: World, a: Disk, b: Disk) {
    && a.claimed <= b.claimed
    && (forall d :: d in a.claimed && d in a.metas ==> d in b.metas && b.metas[d] == a.metas[d])
    && (forall d, i :: ChunkOk(w, a, d, i) ==> ChunkOk(w, b, d, i))
    && (forall d :: Complete(w, a, d) ==> Complete(w, b, d))
  }

  /** Temporary files, other than that of directory `x`, are as before. */
  ghost predicate KeepsParts(w: World, a: Disk, b: Disk, x: Option<Dir>) {
    forall d :: d in w.meta && x != Some(d) && PartFile(w.meta[d]) in a.files ==>
      PartFile(w.meta[d]) in b.files && b.files[PartFile(w.meta[d])] == a.files[PartFile(w.meta[d])]
  }

  // ----- the invariant -----

  /** A destination that exists is complete: restoring is all or nothing. */
  ghost predicate AllOrNothing(w: World, disk: Disk) {
    forall d :: d in w.meta && Destination(w.meta[d]) in disk.files ==> Complete(w, disk, d)
  }

  ghost predicate DiskInv(w: World, disk: Disk) {
    && AllOrNothing(w, disk)
    && (forall d :: d in disk.metas ==> d in w.meta && (disk.metas[d].Saved? ==> disk.metas[d].metadata == w.meta[d]))
    && disk.claimed <= disk.metas.Keys
  }

  ghost predicate RecordOk(w: World, disk: Disk, r: PendingDownloadRecord) {
    && r.chunksDir in disk.claimed && r.chunksDir in w.meta
    && r.key == KeyAt(w, r.chunksDir)
    && r.originalFileName == w.meta[r.chunksDir].originalFileName
    && forall i :: i in r.downloadedChunks ==> ChunkOk(w, disk, r.chunksDir, i)
  }

  ghost predicate PublishedOk(w: World, disk: Disk, p: PublishedFileRecord) {
    && p.chunksDir in disk.claimed && p.chunksDir in w.meta
    && p == PublishedRecord(w.keyHash, w.meta[p.chunksDir])
    && AllChunks(w, disk, p.chunksDir) && Complete(w, disk, p.chunksDir)
  }

  ghost predicate JobOk(w: World, disk: Disk, m: FileMetadata) {
    && m.chunksDir in disk.claimed && m.chunksDir in w.meta && m == w.meta[m.chunksDir]
    && AllChunks(w, disk, m.chunksDir) && Complete(w, disk, m.chunksDir)
  }

  ghost predicate StoreInv(w: World, disk: Disk, store: Store) {
    && (forall k :: k in store.pending ==> store.pending[k].key == k && RecordOk(w, disk, store.pending[k]))
    && (forall k :: k in store.published ==> store.published[k].key == k && PublishedOk(w, disk, store.published[k]))
    && (forall k :: k in store.jobs ==> MetadataKey(w.keyHash, store.jobs[k]) == k && JobOk(w, disk, store.jobs[k]))
  }

  ghost predicate SessionOk(w: World, disk: Disk, session: Session) {
    match session
    case LookingUp(_, _) => true
    case Splitting(d, next) =>
      && d in w.meta && d in w.contents && d !in disk.claimed && Complete(w, disk, d) && next <= |w.contents[d]|
      && w.meta[d].chunkFileExtension == FILE_CHUNK_EXTENSION
      && forall i: nat :: i < next ==> ChunkOk(w, disk, d, i)
    case Saving(d, publish) =>
      && d in w.meta && d !in disk.claimed
      && (publish ==> AllChunks(w, disk, d) && Complete(w, disk, d))
    case Described(d, publish) =>
      && d in w.meta && d !in disk.claimed && d in disk.metas
      && (publish ==> AllChunks(w, disk, d) && Complete(w, disk, d))
  }

  ghost predicate SessionsInv(w: World, disk: Disk, sessions: map<nat, Session>) {
    && (forall i :: i in sessions ==> SessionOk(w, disk, sessions[i]))
    && (forall i, j :: i in sessions && j in sessions && i != j && !sessions[i].LookingUp? && !sessions[j].LookingUp?
          ==> sessions[i].dir != sessions[j].dir)
  }

  /** Everything up to announcement `next` of a job has been announced. */
  ghost predicate AnnouncedUpTo(m: FileMetadata, next: nat, announced: set<Announcement>) {
    && (next > 0 ==> OfMetadata(m.chunksDir) in announced)
    && (forall i: nat :: i + 1 < next ==> OfChunk(m.chunksDir, i) in announced)
  }

  ghost predicate WorkerOk(w: World, disk: Disk, store: Store, announced: set<Announcement>, worker: Worker) {
    worker.Idle? || worker.Booting?
    || (&& JobOk(w, disk, worker.m)
        && MetadataKey(w.keyHash, worker.m) in store.jobs
        && (if worker.Announcing?
            then worker.next <= worker.m.totalChunks && AnnouncedUpTo(worker.m, worker.next, announced)
            else AnnouncedUpTo(worker.m, worker.m.totalChunks + 1, announced))
        && (worker.Clearing? ==> MetadataKey(w.keyHash, worker.m) in store.published))
  }

  ghost predicate AllDownloaded(w: World, r: PendingDownloadRecord) {
    r.chunksDir in w.meta && forall i: nat :: i < |w.meta[r.chunksDir].merkleProofs| ==> i in r.downloadedChunks
  }

  ghost predicate TaskOk(w: World, disk: Disk, done: set<Key>, chunks: set<ChunkTask>, tid: nat, task: Task) {
    var Task(r, phase) := task;
    RecordOk(w, disk, r)
    && var m := w.meta[r.chunksDir];
    match phase
    case Starting => true
    case Collecting(total, firstError) =>
      && total == |m.merkleProofs|
      && (firstError.Some? ==>
           && firstError.value < total && firstError.value !in r.downloadedChunks
           && ChunkTask(tid, firstError.value) !in chunks)
    case Completing => AllDownloaded(w, r)
    case Writing(m', pieces) =>
      && m' == m && AllDownloaded(w, r)
      && |pieces| <= m.totalChunks && AllAccepted(w, m, pieces)
      && PartFile(m) in disk.files && disk.files[PartFile(m)] == Flat(pieces)
    case Publishing(m') => m' == m && AllDownloaded(w, r) && Complete(w, disk, r.chunksDir)
    case Deleting(m') => m' == m && AllDownloaded(w, r) && Complete(w, disk, r.chunksDir) && r.key in done
    case Providing(m') => m' == m && AllDownloaded(w, r)
    case Ended => true
  }

  ghost predicate ChunkTaskOk(w: World, disk: Disk, tasks: map<nat, Task>, c: ChunkTask, state: ChunkState) {
    && c.task in tasks
    && tasks[c.task].phase.Collecting?
    && c.id < tasks[c.task].phase.total
    && c.id !in tasks[c.task].record.downloadedChunks
    && (state == OnDisk || state == Done(Got) ==> ChunkOk(w, disk, tasks[c.task].record.chunksDir, c.id))
  }

  ghost predicate TasksInv(
    w: World, disk: Disk, done: set<Key>, tasks: map<nat, Task>, chunks: map<ChunkTask, ChunkState>) {
    && (forall t :: t in tasks ==> TaskOk(w, disk, done, chunks.Keys, t, tasks[t]))
    && (forall c :: c in chunks ==> ChunkTaskOk(w, disk, tasks, c, chunks[c]))
  }

  ghost predicate StreamInv(w: World, disk: Disk, stream: seq<PendingDownloadRecord>) {
    forall i :: 0 <= i < |stream| ==> RecordOk(w, disk, stream[i])
  }

  /** Every chunk that was ever announced is on disk and passes verification. */
  ghost predicate AnnouncementsInv(w: World, disk: Disk, announced: set<Announcement>) {
    forall d, i :: OfChunk(d, i) in announced ==> ChunkOk(w, disk, d, i)
  }

  ghost predicate OneTaskPerKey(tasks: map<nat, Task>) {
    forall t, u :: t in tasks && u in tasks && tasks[t].record.key == tasks[u].record.key ==> t == u
  }

  ghost predicate KeysActive(tasks: map<nat, Task>, active: set<Key>) {
    forall t :: t in tasks ==> tasks[t].record.key in active
  }

  ghost predicate Inv(w: World, s: State) {
    && DiskInv(w, s.disk)
    && StoreInv(w, s.disk, s.store)
    && AnnouncementsInv(w, s.disk, s.announced)
    && SessionsInv(w, s.disk, s.mem.sessions)
    && WorkerOk(w, s.disk, s.store, s.announced, s.mem.worker)
    && TasksInv(w, s.disk, s.store.published.Keys, s.mem.tasks, s.mem.chunks)
    && StreamInv(w, s.disk, s.mem.stream)
    && OneTaskPerKey(s.mem.tasks)
    && KeysActive(s.mem.tasks, s.mem.active)
  }
}
