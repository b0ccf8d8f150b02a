/** How changes of one kind (to the disk, a session, a task, the store) keep the parts of the invariant. */
module NodePreservation {
  import opened Bytes
  import opened Keys
  import opened Merkle
  import opened Domain
  import opened Download
  import opened Node
  import opened NodeInvariant

  // ----- what refers to the disk survives its growth -----

  lemma StoreGrows(w: World, a: Disk, b: Disk, store: Store)
    requires StoreInv(w, a, store) && Grows(w, a, b)
    ensures StoreInv(w, b, store)
  {
  }

  lemma AnnouncementsGrow(w: World, a: Disk, b: Disk, announced: set<Announcement>)
    requires AnnouncementsInv(w, a, announced) && Grows(w, a, b)
    ensures AnnouncementsInv(w, b, announced)
  {
  }

  lemma StreamGrows(w: World, a: Disk, b: Disk, stream: seq<PendingDownloadRecord>)
    requires StreamInv(w, a, stream) && Grows(w, a, b)
    ensures StreamInv(w, b, stream)
  {
  }

  lemma WorkerGrows(w: World, a: Disk, b: Disk, store: Store, announced: set<Announcement>, worker: Worker)
    requires WorkerOk(w, a, store, announced, worker) && Grows(w, a, b)
    ensures WorkerOk(w, b, store, announced, worker)
  {
  }

  /** The sessions that do not use directory `x` are not affected by what happens there. */
  ghost predicate SameElsewhere(a: Disk, b: Disk, x: Option<Dir>) {
    && (forall d :: x != Some(d) ==> (d in a.claimed <==> d in b.claimed))
    && (forall d :: x != Some(d) && d in a.metas ==> d in b.metas && b.metas[d] == a.metas[d])
  }

  ghost predicate NoneUses(sessions: map<nat, Session>, x: Option<Dir>) {
    forall i :: i in sessions && !sessions[i].LookingUp? ==> x != Some(sessions[i].dir)
  }

  lemma SessionsGrow(w: World, a: Disk, b: Disk, sessions: map<nat, Session>, x: Option<Dir>)
    requires SessionsInv(w, a, sessions) && Grows(w, a, b) && SameElsewhere(a, b, x) && NoneUses(sessions, x)
    ensures SessionsInv(w, b, sessions)
  {
  }

  lemma SessionLeaves(w: World, disk: Disk, sessions: map<nat, Session>, sid: nat)
    requires SessionsInv(w, disk, sessions)
    ensures SessionsInv(w, disk, sessions - {sid})
    ensures sid in sessions && !sessions[sid].LookingUp? ==> NoneUses(sessions - {sid}, Some(sessions[sid].dir))
  {
  }

  lemma SessionEnters(w: World, disk: Disk, sessions: map<nat, Session>, sid: nat, session: Session)
    requires SessionsInv(w, disk, sessions - {sid}) && SessionOk(w, disk, session)
    requires !session.LookingUp? ==> NoneUses(sessions - {sid}, Some(session.dir))
    ensures SessionsInv(w, disk, sessions[sid := session])
  {
    var rest := sessions - {sid};
    forall i | i in sessions[sid := session]
      ensures SessionOk(w, disk, sessions[sid := session][i])
      ensures i != sid ==> i in rest && rest[i] == sessions[sid := session][i]
    {
      if i != sid {
        assert SessionOk(w, disk, rest[i]);
      }
    }
    var all := sessions[sid := session];
    forall i, j | i in all && j in all && i != j && !all[i].LookingUp? && !all[j].LookingUp?
      ensures all[i].dir != all[j].dir
    {
      assert i != sid ==> all[i] == rest[i];
      assert j != sid ==> all[j] == rest[j];
    }
  }

  /** No task is assembling the file of directory `x`. */
  ghost predicate NoneWrites(tasks: map<nat, Task>, x: Option<Dir>) {
    forall t :: t in tasks && tasks[t].phase.Writing? ==> x != Some(tasks[t].record.chunksDir)
  }

  lemma TasksGrow(
    w: World, a: Disk, b: Disk, done: set<Key>, tasks: map<nat, Task>, chunks: map<ChunkTask, ChunkState>,
    x: Option<Dir>)
    requires TasksInv(w, a, done, tasks, chunks) && Grows(w, a, b) && KeepsParts(w, a, b, x) && NoneWrites(tasks, x)
    ensures TasksInv(w, b, done, tasks, chunks)
  {
  }

  lemma TasksDone(
    w: World, disk: Disk, done: set<Key>, more: set<Key>, tasks: map<nat, Task>, chunks: map<ChunkTask, ChunkState>)
    requires TasksInv(w, disk, done, tasks, chunks) && done <= more
    ensures TasksInv(w, disk, more, tasks, chunks)
  {
  }

  lemma TaskLeaves(
    w: World, disk: Disk, done: set<Key>, tasks: map<nat, Task>, chunks: map<ChunkTask, ChunkState>, tid: nat)
    requires TasksInv(w, disk, done, tasks, chunks) && forall c :: c in chunks ==> c.task != tid
    ensures TasksInv(w, disk, done, tasks - {tid}, chunks)
  {
  }

  lemma TaskEnters(
    w: World, disk: Disk, done: set<Key>, tasks: map<nat, Task>, chunks: map<ChunkTask, ChunkState>, tid: nat,
    task: Task)
    requires TasksInv(w, disk, done, tasks - {tid}, chunks)
    requires TaskOk(w, disk, done, chunks.Keys, tid, task)
    ensures TasksInv(w, disk, done, tasks[tid := task], chunks)
  {
    var rest := tasks - {tid};
    forall t | t in tasks[tid := task] && t != tid
      ensures TaskOk(w, disk, done, chunks.Keys, t, tasks[t])
    {
      assert TaskOk(w, disk, done, chunks.Keys, t, rest[t]);
    }
    forall c | c in chunks
      ensures ChunkTaskOk(w, disk, tasks[tid := task], c, chunks[c])
    {
      assert ChunkTaskOk(w, disk, rest, c, chunks[c]);
    }
  }

  lemma ChunkMoves(
    w: World, disk: Disk, done: set<Key>, tasks: map<nat, Task>, chunks: map<ChunkTask, ChunkState>, c: ChunkTask,
    state: ChunkState)
    requires TasksInv(w, disk, done, tasks, chunks) && c in chunks && ChunkTaskOk(w, disk, tasks, c, state)
    ensures TasksInv(w, disk, done, tasks, chunks[c := state])
  {
    assert chunks[c := state].Keys == chunks.Keys;
  }

  lemma TasksStart(
    w: World, disk: Disk, done: set<Key>, tasks: map<nat, Task>, chunks: map<ChunkTask, ChunkState>, tid: nat,
    total: nat)
    requires TasksInv(w, disk, done, tasks, chunks) && tid in tasks && tasks[tid].phase.Starting?
    requires tasks[tid].record.chunksDir in w.meta && total == |w.meta[tasks[tid].record.chunksDir].merkleProofs|
    ensures TasksInv(w, disk, done, tasks[tid := tasks[tid].(phase := Collecting(total, None))],
                     chunks + Started(tid, Ids(total) - tasks[tid].record.downloadedChunks))
  {
    var record := tasks[tid].record;
    var started := Started(tid, Ids(total) - record.downloadedChunks);
    var tasks' := tasks[tid := tasks[tid].(phase := Collecting(total, None))];
    forall t | t in tasks && t != tid
      ensures TaskOk(w, disk, done, (chunks + started).Keys, t, tasks[t])
    {
      assert TaskOk(w, disk, done, chunks.Keys, t, tasks[t]);
    }
    assert TaskOk(w, disk, done, chunks.Keys, tid, tasks[tid]);
    assert TaskOk(w, disk, done, (chunks + started).Keys, tid, tasks'[tid]);
    forall c | c in chunks + started
      ensures ChunkTaskOk(w, disk, tasks', c, (chunks + started)[c])
    {
      if c !in started {
        assert ChunkTaskOk(w, disk, tasks, c, chunks[c]);
      }
    }
  }

  lemma TasksJoin(
    w: World, disk: Disk, done: set<Key>, tasks: map<nat, Task>, chunks: map<ChunkTask, ChunkState>, c: ChunkTask,
    after: Task)
    requires TasksInv(w, disk, done, tasks, chunks) && c in chunks && chunks[c].Done?
    requires
      var Task(record, phase) := tasks[c.task];
      var p := Absorb(Progress(record.downloadedChunks, phase.firstError), c.id, chunks[c].outcome);
      after == Task(record.(downloadedChunks := p.downloaded), Collecting(phase.total, p.firstError))
    ensures TasksInv(w, disk, done, tasks[c.task := after], chunks - {c})
    ensures RecordOk(w, disk, after.record)
  {
    var tasks', chunks' := tasks[c.task := after], chunks - {c};
    assert TaskOk(w, disk, done, chunks.Keys, c.task, tasks[c.task]);
    assert ChunkTaskOk(w, disk, tasks, c, chunks[c]);
    assert RecordOk(w, disk, after.record);
    forall t | t in tasks'
      ensures TaskOk(w, disk, done, chunks'.Keys, t, tasks'[t])
    {
      assert TaskOk(w, disk, done, chunks.Keys, t, tasks[t]);
    }
    forall x | x in chunks'
      ensures ChunkTaskOk(w, disk, tasks', x, chunks'[x])
    {
      assert ChunkTaskOk(w, disk, tasks, x, chunks[x]);
      assert x != c;
    }
  }

  // ----- growth of the disk, operation by operation -----

  lemma PartNameInjective(a: FileMetadata, b: FileMetadata)
    requires PartFile(a) == PartFile(b)
    ensures Destination(a) == Destination(b)
  {
    var x, y := a.originalFileName, b.originalFileName;
    assert |x + ".part"| == |y + ".part"|;
    assert x == (x + ".part")[..|x|] && y == (y + ".part")[..|y|];
  }

  /** Storing accepted bytes as chunk `i` of directory `d`. */
  lemma ChunkStored(w: World, a: Disk, d: Dir, i: nat, bytes: Bytes)
    requires WellFormed(w) && DiskInv(w, a)
    requires d in w.meta && i < |w.meta[d].merkleProofs| && Check(w, w.meta[d], i, bytes) == Accepted
    ensures
      var b := a.(files := a.files[ChunkPath(d, i, w.meta[d].chunkFileExtension) := bytes]);
      DiskInv(w, b) && Grows(w, a, b) && KeepsParts(w, a, b, None) && ChunkOk(w, b, d, i)
  {
    var b := a.(files := a.files[ChunkPath(d, i, w.meta[d].chunkFileExtension) := bytes]);
    assert Genuine(w, d);
    forall e, j | ChunkOk(w, a, e, j)
      ensures ChunkOk(w, b, e, j)
    {
      assert Genuine(w, e);
    }
    forall e | Complete(w, a, e)
      ensures Complete(w, b, e)
    {
    }
  }

  /** Any change to the temporary file of directory `d`. */
  lemma PartChanged(w: World, a: Disk, d: Dir, files: map<Path, Bytes>)
    requires WellFormed(w) && DiskInv(w, a) && d in w.meta
    requires files - {PartFile(w.meta[d])} == a.files - {PartFile(w.meta[d])}
    ensures
      var b := a.(files := files);
      DiskInv(w, b) && Grows(w, a, b) && KeepsParts(w, a, b, Some(d))
  {
    var b := a.(files := files);
    var part := PartFile(w.meta[d]);
    forall p | p != part
      ensures p in a.files <==> p in files
      ensures p in a.files ==> files[p] == a.files[p]
    {
      assert p in a.files <==> p in a.files - {part};
      assert p in files <==> p in files - {part};
    }
    forall e | e in w.meta
      ensures part != Destination(w.meta[e])
      ensures e != d ==> part != PartFile(w.meta[e])
    {
      assert Apart(w, d, e);
      if part == PartFile(w.meta[e]) { PartNameInjective(w.meta[d], w.meta[e]); }
    }
  }

  lemma DestinationsApart(w: World, d: Dir)
    requires WellFormed(w) && d in w.meta
    ensures forall e :: e in w.meta && e != d ==> Destination(w.meta[e]) != Destination(w.meta[d])
    ensures forall e :: e in w.meta ==> PartFile(w.meta[e]) != Destination(w.meta[d])
  {
    forall e | e in w.meta
      ensures e != d ==> Destination(w.meta[e]) != Destination(w.meta[d])
      ensures PartFile(w.meta[e]) != Destination(w.meta[d])
    {
      assert Apart(w, e, d);
    }
  }

  function Restored(w: World, a: Disk, d: Dir, pieces: seq<Bytes>): Disk
    requires d in w.meta
  {
    a.(files := a.files[Destination(w.meta[d]) := Flat(pieces)], pieces := a.pieces[d := pieces])
  }

  lemma RestoredGrows(w: World, a: Disk, d: Dir, pieces: seq<Bytes>)
    requires WellFormed(w) && d in w.meta
    requires |pieces| == w.meta[d].totalChunks && AllAccepted(w, w.meta[d], pieces)
    ensures Grows(w, a, Restored(w, a, d, pieces)) && Complete(w, Restored(w, a, d, pieces), d)
  {
    DestinationsApart(w, d);
    var b := Restored(w, a, d, pieces);
    forall e, i | ChunkOk(w, a, e, i)
      ensures ChunkOk(w, b, e, i)
    {
    }
    forall e | Complete(w, a, e)
      ensures Complete(w, b, e)
    {
    }
  }

  /** The file of directory `d` is put in place, made of accepted pieces. */
  lemma DestinationWritten(w: World, a: Disk, d: Dir, pieces: seq<Bytes>)
    requires WellFormed(w) && DiskInv(w, a) && d in w.meta
    requires |pieces| == w.meta[d].totalChunks && AllAccepted(w, w.meta[d], pieces)
    ensures
      var b := Restored(w, a, d, pieces);
      DiskInv(w, b) && Grows(w, a, b) && KeepsParts(w, a, b, None) && Complete(w, b, d)
  {
    var b := Restored(w, a, d, pieces);
    RestoredGrows(w, a, d, pieces);
    DestinationsApart(w, d);
    forall e | e in w.meta && Destination(w.meta[e]) in b.files
      ensures Complete(w, b, e)
    {
      if e != d { assert Complete(w, a, e); }
    }
  }

  // ----- the whole invariant under changes of one kind -----

  lemma InvGrows(w: World, s: State, b: Disk, x: Option<Dir>, y: Option<Dir>)
    requires Inv(w, s) && DiskInv(w, b) && Grows(w, s.disk, b)
    requires SameElsewhere(s.disk, b, x) && NoneUses(s.mem.sessions, x)
    requires KeepsParts(w, s.disk, b, y) && NoneWrites(s.mem.tasks, y)
    ensures Inv(w, s.(disk := b))
  {
    StoreGrows(w, s.disk, b, s.store);
    AnnouncementsGrow(w, s.disk, b, s.announced);
    SessionsGrow(w, s.disk, b, s.mem.sessions, x);
    WorkerGrows(w, s.disk, b, s.store, s.announced, s.mem.worker);
    TasksGrow(w, s.disk, b, s.store.published.Keys, s.mem.tasks, s.mem.chunks, y);
    StreamGrows(w, s.disk, b, s.mem.stream);
  }

  lemma InvSessionLeaves(w: World, s: State, sid: nat)
    requires Inv(w, s)
    ensures Inv(w, EndSession(s, sid))
  {
    SessionLeaves(w, s.disk, s.mem.sessions, sid);
  }

  lemma InvSessionEnters(w: World, s: State, sid: nat, session: Session)
    requires Inv(w, EndSession(s, sid)) && SessionOk(w, s.disk, session)
    requires !session.LookingUp? ==> NoneUses(s.mem.sessions - {sid}, Some(session.dir))
    ensures Inv(w, SetSession(s, sid, session))
  {
    SessionEnters(w, s.disk, s.mem.sessions, sid, session);
  }

  function WithoutTask(s: State, tid: nat): State {
    s.(mem := s.mem.(tasks := s.mem.tasks - {tid}))
  }

  lemma InvTaskLeaves(w: World, s: State, tid: nat)
    requires Inv(w, s) && forall c :: c in s.mem.chunks ==> c.task != tid
    ensures Inv(w, WithoutTask(s, tid))
  {
    TaskLeaves(w, s.disk, s.store.published.Keys, s.mem.tasks, s.mem.chunks, tid);
    var rest := s.mem.tasks - {tid};
    assert forall t :: t in rest ==> t in s.mem.tasks && rest[t] == s.mem.tasks[t];
  }

  lemma KeyEnters(tasks: map<nat, Task>, active: set<Key>, tid: nat, task: Task)
    requires OneTaskPerKey(tasks - {tid}) && KeysActive(tasks - {tid}, active) && task.record.key in active
    requires forall t :: t in tasks && t != tid ==> tasks[t].record.key != task.record.key
    ensures OneTaskPerKey(tasks[tid := task]) && KeysActive(tasks[tid := task], active)
  {
    var rest, all := tasks - {tid}, tasks[tid := task];
    assert forall t :: t in all && t != tid ==> t in rest && rest[t] == all[t];
  }

  lemma InvTaskEnters(w: World, s: State, tid: nat, task: Task)
    requires Inv(w, WithoutTask(s, tid))
    requires TaskOk(w, s.disk, s.store.published.Keys, s.mem.chunks.Keys, tid, task)
    requires task.record.key in s.mem.active
    requires forall t :: t in s.mem.tasks && t != tid ==> s.mem.tasks[t].record.key != task.record.key
    ensures Inv(w, SetTask(s, tid, task))
  {
    TaskEnters(w, s.disk, s.store.published.Keys, s.mem.tasks, s.mem.chunks, tid, task);
    KeyEnters(s.mem.tasks, s.mem.active, tid, task);
  }

  lemma NoChunks(w: World, s: State, tid: nat)
    requires Inv(w, s) && tid in s.mem.tasks && !s.mem.tasks[tid].phase.Collecting?
    ensures forall c :: c in s.mem.chunks ==> c.task != tid
  {
    forall c | c in s.mem.chunks
      ensures c.task != tid
    {
      assert ChunkTaskOk(w, s.disk, s.mem.tasks, c, s.mem.chunks[c]);
    }
  }

  /** A task without chunk tasks moves on while the disk changes from `s.disk` to `b`, possibly in
      the temporary file of the task's own directory. */
  lemma InvTaskMoves(w: World, s: State, b: Disk, tid: nat, phase: Phase)
    requires WellFormed(w) && Inv(w, s) && tid in s.mem.tasks
    requires forall c :: c in s.mem.chunks ==> c.task != tid
    requires DiskInv(w, b) && Grows(w, s.disk, b) && SameElsewhere(s.disk, b, None)
    requires KeepsParts(w, s.disk, b, Some(s.mem.tasks[tid].record.chunksDir))
    requires TaskOk(w, b, s.store.published.Keys, s.mem.chunks.Keys, tid, s.mem.tasks[tid].(phase := phase))
    ensures Inv(w, SetPhase(s.(disk := b), tid, phase))
  {
    var d := s.mem.tasks[tid].record.chunksDir;
    var rest := s.mem.tasks - {tid};
    InvTaskLeaves(w, s, tid);
    forall t | t in rest
      ensures rest[t].record.chunksDir != d
    {
      assert TaskOk(w, s.disk, s.store.published.Keys, s.mem.chunks.Keys, t, s.mem.tasks[t]);
      assert TaskOk(w, s.disk, s.store.published.Keys, s.mem.chunks.Keys, tid, s.mem.tasks[tid]);
    }
    InvGrows(w, WithoutTask(s, tid), b, None, Some(d));
    InvTaskEnters(w, s.(disk := b), tid, s.mem.tasks[tid].(phase := phase));
  }

  lemma InvAnnounce(w: World, s: State, a: Announcement)
    requires Inv(w, s) && (a.OfChunk? ==> ChunkOk(w, s.disk, a.dir, a.id))
    ensures Inv(w, Announce(s, a))
  {
  }

  lemma InvWorker(w: World, s: State, worker: Worker)
    requires Inv(w, s) && WorkerOk(w, s.disk, s.store, s.announced, worker)
    ensures Inv(w, SetWorker(s, worker))
  {
  }

  /** The store changes, but keeps all published keys and the job being worked on. */
  lemma InvStore(w: World, s: State, store: Store)
    requires Inv(w, s) && StoreInv(w, s.disk, store)
    requires s.store.published.Keys <= store.published.Keys
    requires WorkerOk(w, s.disk, store, s.announced, s.mem.worker)
    ensures Inv(w, s.(store := store))
  {
    TasksDone(w, s.disk, s.store.published.Keys, store.published.Keys, s.mem.tasks, s.mem.chunks);
  }
}
