/** Downloads converge: a task whose steps succeed and whose peers are honest ends, and ends with
    its file published; and after any crash such a task can be had again. */
module NodeRecovery {
  import opened Bytes
  import opened Keys
  import opened Merkle
  import opened Domain
  import opened Download
  import opened Node
  import opened NodeInvariant
  import opened NodePreservation
  import opened NodeSafety
  import opened NodeTheorems

  // ----- honest events -----

  /** The task an event belongs to. */
  function Owner(e: Event): Option<nat> {
    match e
    case OfPass(Tick(_)) => None
    case OfPass(NextRecord(_)) => None
    case OfPass(ReadMetadata(tid, _)) => Some(tid)
    case OfPass(JoinsDone(tid)) => Some(tid)
    case OfPass(p) => Some(p.c.task)
    case OfFinish(f) => Some(f.tid)
    case _ => None
  }

  ghost predicate HonestPass(w: World, s: State, tid: nat, e: PassEvent) {
    match e
    case ReadMetadata(_, ok) => ok
    case Reply(c, reply) =>
      && tid in s.mem.tasks && s.mem.tasks[tid].record.chunksDir in w.contents
      && c.id < |w.contents[s.mem.tasks[tid].record.chunksDir]|
      && reply == Some(Some(Success(w.contents[s.mem.tasks[tid].record.chunksDir][c.id])))
    case VerifyAndSave(_, ok) => ok
    case AnnounceChunk(_, ok) => ok
    case _ => true
  }

  predicate HonestFinish(e: FinishEvent) {
    match e
    case OpenPart(_, ok) => ok
    case AppendChunk(_, ok) => ok
    case RenamePart(_, ok) => ok
    case PutPublished(_, ok) => ok
    case DeletePending(_, ok) => ok
    case _ => true
  }

  /** An event of the task at which nothing fails and, if it is a reply, the peer sends the
      published chunk. Persisting progress may fail all the same. */
  ghost predicate Honest(w: World, s: State, tid: nat, e: Event) {
    && Owner(e) == Some(tid)
    && (e.OfPass? ==> HonestPass(w, s, tid, e.pass))
    && (e.OfFinish? ==> HonestFinish(e.finish))
  }

  // ----- how much is left to do -----

  function Weight(chunks: map<ChunkTask, ChunkState>, c: ChunkTask): nat {
    if c !in chunks then 0
    else
      match chunks[c]
      case Waiting => 5
      case Requesting => 4
      case Received(_) => 3
      case OnDisk => 2
      case Done(_) => 1
  }

  function Load(chunks: map<ChunkTask, ChunkState>, tid: nat, n: nat): nat {
    if n == 0 then 0 else Load(chunks, tid, n - 1) + Weight(chunks, ChunkTask(tid, n - 1))
  }

  /** An upper bound for the number of honest events until the task is gone. */
  function Remaining(task: Task, chunks: map<ChunkTask, ChunkState>, tid: nat, n: nat): nat {
    match task.phase
    case Starting => 6 * n + 8
    case Collecting(_, _) => Load(chunks, tid, n) + n + 7
    case Completing => n + 6
    case Writing(_, pieces) => if |pieces| <= n then n - |pieces| + 5 else 5
    case Publishing(_) => 4
    case Deleting(_) => 3
    case Providing(_) => 2
    case Ended => 1
  }

  function Total(w: World, task: Task): nat {
    if task.record.chunksDir in w.meta then |w.meta[task.record.chunksDir].merkleProofs| else 0
  }

  function Measure(w: World, s: State, tid: nat): nat {
    if tid !in s.mem.tasks then 0
    else Remaining(s.mem.tasks[tid], s.mem.chunks, tid, Total(w, s.mem.tasks[tid]))
  }

  lemma {:induction false} LoadBound(chunks: map<ChunkTask, ChunkState>, tid: nat, n: nat)
    ensures Load(chunks, tid, n) <= 5 * n
  {
    if n > 0 { LoadBound(chunks, tid, n - 1); }
  }

  /** The load changes by what one chunk task changes. */
  lemma {:induction false} LoadChange(
    a: map<ChunkTask, ChunkState>, b: map<ChunkTask, ChunkState>, tid: nat, id: nat, n: nat)
    requires forall i :: i != id ==> Weight(a, ChunkTask(tid, i)) == Weight(b, ChunkTask(tid, i))
    ensures Load(b, tid, n) - Load(a, tid, n)
            == if id < n then Weight(b, ChunkTask(tid, id)) - Weight(a, ChunkTask(tid, id)) else 0
  {
    if n > 0 { LoadChange(a, b, tid, id, n - 1); }
  }

  lemma {:induction false} LoadSame(a: map<ChunkTask, ChunkState>, b: map<ChunkTask, ChunkState>, tid: nat, n: nat)
    requires forall i :: Weight(a, ChunkTask(tid, i)) == Weight(b, ChunkTask(tid, i))
    ensures Load(b, tid, n) == Load(a, tid, n)
  {
    if n > 0 { LoadSame(a, b, tid, n - 1); }
  }

  // ----- a task that has met no failure -----

  ghost predicate ChunkHealthy(w: World, d: Dir, c: ChunkTask, state: ChunkState) {
    && (state.Received? ==> d in w.contents && c.id < |w.contents[d]| && state.bytes == w.contents[d][c.id])
    && (state.Done? ==> state.outcome.Got?)
  }

  /** The file of a record is restored in the record's own directory, and recorded as published. */
  ghost predicate Delivered(w: World, disk: Disk, store: Store, r: PendingDownloadRecord) {
    r.key in store.published && Complete(w, disk, r.chunksDir)
  }

  ghost predicate Healthy(
    w: World, disk: Disk, store: Store, chunks: map<ChunkTask, ChunkState>, tid: nat, task: Task) {
    match task.phase
    case Collecting(total, firstError) =>
      && firstError.None? && Readable(disk, task.record.chunksDir)
      && (forall id: nat :: id < total ==> id in task.record.downloadedChunks || ChunkTask(tid, id) in chunks)
      && (forall c :: c in chunks && c.task == tid ==> ChunkHealthy(w, task.record.chunksDir, c, chunks[c]))
    case Completing => Readable(disk, task.record.chunksDir)
    case Providing(_) => Delivered(w, disk, store, task.record)
    case Ended => Delivered(w, disk, store, task.record)
    case _ => true
  }

  ghost predicate Working(w: World, s: State, tid: nat) {
    tid in s.mem.tasks && Healthy(w, s.disk, s.store, s.mem.chunks, tid, s.mem.tasks[tid])
  }

  /** What the task has deleted has not become pending again. */
  ghost predicate Unpended(store: Store, task: Task) {
    task.phase.Providing? || task.phase.Ended? ==> task.record.key !in store.pending
  }

  ghost predicate Mine(store: Store, r: PendingDownloadRecord) {
    r.key in store.published && store.published[r.key].chunksDir == r.chunksDir
  }

  /** What the task has published has not been published again from another directory. */
  ghost predicate Recorded(store: Store, task: Task) {
    task.phase.Deleting? || task.phase.Providing? || task.phase.Ended? ==> Mine(store, task.record)
  }

  /** A task of record `r` as it is now; when it is gone, it has ended. */
  function Now(s: State, tid: nat, r: PendingDownloadRecord): Task {
    if tid in s.mem.tasks then s.mem.tasks[tid] else Task(r, Ended)
  }

  /** After an honest event there is less to do, and the task is still healthy; if it is gone, its file
      is delivered. */
  ghost predicate Advances(w: World, s: State, t: State, tid: nat)
    requires tid in s.mem.tasks
  {
    var before := s.mem.tasks[tid];
    var now := Now(t, tid, before.record);
    && Measure(w, t, tid) < Measure(w, s, tid)
    && Healthy(w, t.disk, t.store, t.mem.chunks, tid, now)
    && now.record.key == before.record.key && now.record.chunksDir == before.record.chunksDir
    && (Unpended(s.store, before) ==> Unpended(t.store, now))
    && (Recorded(s.store, before) ==> Recorded(t.store, now))
  }

  // ----- honest events advance the task -----

  lemma ReadAdvances(w: World, s: State, tid: nat)
    requires Working(w, s, tid) && CanReadMetadata(s, tid, true)
    requires forall c :: c in s.mem.chunks ==> c.task != tid
    requires s.mem.tasks[tid].record.chunksDir in w.meta
    requires s.disk.metas[s.mem.tasks[tid].record.chunksDir].metadata == w.meta[s.mem.tasks[tid].record.chunksDir]
    ensures Advances(w, s, DoReadMetadata(s, tid, true), tid)
  {
    var t := DoReadMetadata(s, tid, true);
    LoadBound(t.mem.chunks, tid, Total(w, s.mem.tasks[tid]));
  }

  /** A chunk task of the collecting task takes its next step. */
  lemma ChunkAdvances(w: World, s: State, t: State, c: ChunkTask, state: ChunkState)
    requires Working(w, s, c.task) && s.mem.tasks[c.task].phase.Collecting?
    requires c in s.mem.chunks && c.id < Total(w, s.mem.tasks[c.task])
    requires t.mem.tasks == s.mem.tasks && t.mem.chunks == s.mem.chunks[c := state] && t.disk.metas == s.disk.metas
    requires ChunkHealthy(w, s.mem.tasks[c.task].record.chunksDir, c, state)
    requires Weight(t.mem.chunks, c) < Weight(s.mem.chunks, c)
    ensures Advances(w, s, t, c.task)
  {
    LoadChange(s.mem.chunks, t.mem.chunks, c.task, c.id, Total(w, s.mem.tasks[c.task]));
  }

  lemma JoinAdvances(w: World, s: State, c: ChunkTask, putOk: bool)
    requires Working(w, s, c.task) && CanJoin(s, c) && c.id < Total(w, s.mem.tasks[c.task])
    ensures Advances(w, s, DoJoin(s, c, putOk), c.task)
  {
    var t := DoJoin(s, c, putOk);
    assert ChunkHealthy(w, s.mem.tasks[c.task].record.chunksDir, c, s.mem.chunks[c]);
    LoadChange(s.mem.chunks, t.mem.chunks, c.task, c.id, Total(w, s.mem.tasks[c.task]));
    forall id: nat | id < s.mem.tasks[c.task].phase.total
      ensures id in t.mem.tasks[c.task].record.downloadedChunks || ChunkTask(c.task, id) in t.mem.chunks
    {
      assert ChunkTask(c.task, id) != c ==>
        (ChunkTask(c.task, id) in t.mem.chunks <==> ChunkTask(c.task, id) in s.mem.chunks);
    }
  }

  lemma JoinsDoneAdvances(w: World, s: State, tid: nat)
    requires Inv(w, s) && Working(w, s, tid) && CanJoinsDone(s, tid)
    ensures Advances(w, s, DoJoinsDone(s, tid), tid)
  {
    assert TaskOk(w, s.disk, s.store.published.Keys, s.mem.chunks.Keys, tid, s.mem.tasks[tid]);
    assert AllDownloaded(w, s.mem.tasks[tid].record);
    PassComplete(w, s, tid);
  }

  lemma VerifyAdvances(w: World, s: State, c: ChunkTask)
    requires Working(w, s, c.task) && CanVerifyAndSave(s, c) && s.mem.tasks[c.task].phase.Collecting?
    requires c.id < Total(w, s.mem.tasks[c.task]) && Genuine(w, s.mem.tasks[c.task].record.chunksDir)
    requires Readable(s.disk, s.mem.tasks[c.task].record.chunksDir)
    requires s.disk.metas[s.mem.tasks[c.task].record.chunksDir].metadata == w.meta[s.mem.tasks[c.task].record.chunksDir]
    ensures Advances(w, s, DoVerifyAndSave(w, s, c, true), c.task)
  {
    var d := s.mem.tasks[c.task].record.chunksDir;
    assert ChunkHealthy(w, d, c, s.mem.chunks[c]);
    assert Check(w, w.meta[d], c.id, w.contents[d][c.id]) == Accepted;
    ChunkAdvances(w, s, DoVerifyAndSave(w, s, c, true), c, OnDisk);
  }

  lemma ReplyAdvances(w: World, s: State, c: ChunkTask, reply: Option<Option<FileResponse>>)
    requires Working(w, s, c.task) && CanReply(s, c) && s.mem.tasks[c.task].phase.Collecting?
    requires c.id < Total(w, s.mem.tasks[c.task]) && HonestPass(w, s, c.task, Reply(c, reply))
    ensures Advances(w, s, DoReply(s, c, reply), c.task)
  {
    ChunkAdvances(w, s, DoReply(s, c, reply), c, Received(w.contents[s.mem.tasks[c.task].record.chunksDir][c.id]));
  }

  lemma ChunkEventAdvances(w: World, s: State, e: PassEvent)
    requires e.Acquire? || e.Reply? || e.VerifyAndSave? || e.AnnounceChunk? || e.Join?
    requires Working(w, s, e.c.task) && CanPass(w, s, e) && HonestPass(w, s, e.c.task, e)
    requires s.mem.tasks[e.c.task].phase.Collecting? && e.c.id < Total(w, s.mem.tasks[e.c.task])
    requires Genuine(w, s.mem.tasks[e.c.task].record.chunksDir)
    requires Readable(s.disk, s.mem.tasks[e.c.task].record.chunksDir)
    requires s.disk.metas[s.mem.tasks[e.c.task].record.chunksDir].metadata ==
      w.meta[s.mem.tasks[e.c.task].record.chunksDir]
    ensures Advances(w, s, DoPass(w, s, e), e.c.task)
  {
    match e
    case Join(c, putOk) => JoinAdvances(w, s, c, putOk);
    case Acquire(c) => ChunkAdvances(w, s, DoAcquire(s, c), c, Requesting);
    case Reply(c, reply) => ReplyAdvances(w, s, c, reply);
    case VerifyAndSave(c, _) => VerifyAdvances(w, s, c);
    case AnnounceChunk(c, _) => ChunkAdvances(w, s, DoAnnounceChunk(s, c, true), c, Done(Got));
  }

  lemma PassAdvances(w: World, s: State, tid: nat, e: PassEvent)
    requires WellFormed(w) && Inv(w, s) && Working(w, s, tid) && CanPass(w, s, e) && Honest(w, s, tid, OfPass(e))
    ensures Advances(w, s, DoPass(w, s, e), tid)
  {
    TaskFacts(w, s, tid);
    if e.ReadMetadata? {
      NoChunks(w, s, tid);
      ReadAdvances(w, s, tid);
    } else if e.JoinsDone? {
      JoinsDoneAdvances(w, s, tid);
    } else {
      ChunkFacts(w, s, e.c);
      ChunkEventAdvances(w, s, e);
    }
  }

  lemma ChunkFacts(w: World, s: State, c: ChunkTask)
    requires Inv(w, s) && c in s.mem.chunks
    ensures c.task in s.mem.tasks && s.mem.tasks[c.task].phase.Collecting? && c.id < Total(w, s.mem.tasks[c.task])
  {
    assert ChunkTaskOk(w, s.disk, s.mem.tasks, c, s.mem.chunks[c]);
    assert TaskOk(w, s.disk, s.store.published.Keys, s.mem.chunks.Keys, c.task, s.mem.tasks[c.task]);
  }

  lemma RestoringAdvances(w: World, s: State, tid: nat, e: FinishEvent)
    requires Working(w, s, tid) && CanFinish(w, s, e) && Honest(w, s, tid, OfFinish(e))
    requires e.OpenPart? || e.AppendChunk? || e.RenamePart?
    requires s.mem.tasks[tid].phase.Writing? ==> s.mem.tasks[tid].phase.m.totalChunks == Total(w, s.mem.tasks[tid])
    ensures Advances(w, s, DoFinish(w, s, e), tid)
  {
    assert DoFinish(w, s, e).mem.tasks[tid].record == s.mem.tasks[tid].record;
  }

  lemma RecordingAdvances(w: World, s: State, tid: nat, e: FinishEvent)
    requires Working(w, s, tid) && CanFinish(w, s, e) && Honest(w, s, tid, OfFinish(e))
    requires e.PutPublished? || e.DeletePending? || e.ProvideRestored? || e.EndTask?
    requires s.mem.tasks[tid].phase.Deleting? ==> Delivered(w, s.disk, s.store, s.mem.tasks[tid].record)
    ensures Advances(w, s, DoFinish(w, s, e), tid)
  {
    if !e.EndTask? {
      assert DoFinish(w, s, e).mem.tasks[tid].record == s.mem.tasks[tid].record;
    }
  }

  lemma FinishAdvances(w: World, s: State, tid: nat, e: FinishEvent)
    requires WellFormed(w) && Inv(w, s) && Working(w, s, tid) && CanFinish(w, s, e) && Honest(w, s, tid, OfFinish(e))
    ensures Advances(w, s, DoFinish(w, s, e), tid)
  {
    TaskFacts(w, s, tid);
    if e.OpenPart? || e.AppendChunk? || e.RenamePart? {
      RestoringAdvances(w, s, tid, e);
    } else {
      RecordingAdvances(w, s, tid, e);
    }
  }

  /** Every honest event of a healthy task brings it nearer to its end. */
  lemma HonestAdvances(w: World, s: State, tid: nat, e: Event)
    requires WellFormed(w) && Inv(w, s) && Working(w, s, tid) && Enabled(w, s, e) && Honest(w, s, tid, e)
    ensures Advances(w, s, Step(w, s, e), tid)
  {
    match e
    case OfPass(p) => PassAdvances(w, s, tid, p);
    case OfFinish(f) => FinishAdvances(w, s, tid, f);
  }

  // ----- other events do not disturb the task -----

  /** Anything that belongs to other tasks, to the publish queue or to requests. */
  predicate Harmless(e: Event, tid: nat) {
    !e.Crash? && Owner(e) != Some(tid)
  }

  /** A request for the same file, perhaps in another directory, makes its key pending once more. */
  ghost predicate Renews(w: World, s: State, e: Event, key: Key) {
    && e.OfRequest? && e.request.StoreRecord? && e.request.ok
    && e.request.sid in s.mem.sessions
    && var session := s.mem.sessions[e.request.sid];
       session.Described? && !session.publish && session.dir in w.meta && KeyAt(w, session.dir) == key
  }

  ghost predicate SameTask(a: Memory, b: Memory, tid: nat) {
    && tid in a.tasks && tid in b.tasks && b.tasks[tid] == a.tasks[tid]
    && forall c: ChunkTask :: c.task == tid ==>
         (c in a.chunks <==> c in b.chunks) && (c in a.chunks ==> b.chunks[c] == a.chunks[c])
  }

  lemma PassLeavesTask(w: World, s: State, tid: nat, e: PassEvent)
    requires CanPass(w, s, e) && tid in s.mem.tasks && Owner(OfPass(e)) != Some(tid)
    ensures SameTask(s.mem, DoPass(w, s, e).mem, tid)
  {
  }

  lemma FinishLeavesTask(w: World, s: State, tid: nat, e: FinishEvent)
    requires CanFinish(w, s, e) && tid in s.mem.tasks && Owner(OfFinish(e)) != Some(tid)
    ensures SameTask(s.mem, DoFinish(w, s, e).mem, tid)
  {
  }

  lemma OthersLeaveTask(w: World, s: State, tid: nat, e: Event)
    requires Enabled(w, s, e) && tid in s.mem.tasks && Harmless(e, tid)
    ensures SameTask(s.mem, Step(w, s, e).mem, tid)
  {
    match e
    case OfRequest(r) =>
    case OfQueue(q) =>
    case OfPass(p) => PassLeavesTask(w, s, tid, p);
    case OfFinish(f) => FinishLeavesTask(w, s, tid, f);
  }

  lemma RequestLeavesUnpended(w: World, s: State, e: RequestEvent, key: Key)
    requires CanRequest(w, s, e) && key !in s.store.pending && !Renews(w, s, OfRequest(e), key)
    ensures key !in DoRequest(w, s, e).store.pending
  {
  }

  lemma PassLeavesUnpended(w: World, s: State, tid: nat, e: PassEvent)
    requires CanPass(w, s, e) && tid in s.mem.tasks && Owner(OfPass(e)) != Some(tid) && OneTaskPerKey(s.mem.tasks)
    requires s.mem.tasks[tid].record.key !in s.store.pending
    ensures s.mem.tasks[tid].record.key !in DoPass(w, s, e).store.pending
  {
    if e.Join? { assert s.mem.tasks[e.c.task].record.key != s.mem.tasks[tid].record.key; }
  }

  lemma FinishLeavesUnpended(w: World, s: State, e: FinishEvent, key: Key)
    requires CanFinish(w, s, e) && key !in s.store.pending
    ensures key !in DoFinish(w, s, e).store.pending
  {
  }

  /** Only renewing its key makes a file pending again that no other task is about. */
  lemma OthersLeaveUnpended(w: World, s: State, tid: nat, e: Event)
    requires Enabled(w, s, e) && tid in s.mem.tasks && Harmless(e, tid) && OneTaskPerKey(s.mem.tasks)
    requires s.mem.tasks[tid].record.key !in s.store.pending && !Renews(w, s, e, s.mem.tasks[tid].record.key)
    ensures s.mem.tasks[tid].record.key !in Step(w, s, e).store.pending
  {
    match e
    case OfRequest(r) => RequestLeavesUnpended(w, s, r, s.mem.tasks[tid].record.key);
    case OfQueue(q) =>
    case OfPass(p) => PassLeavesUnpended(w, s, tid, p);
    case OfFinish(f) => FinishLeavesUnpended(w, s, f, s.mem.tasks[tid].record.key);
  }

  lemma OthersKeepWorking(w: World, s: State, tid: nat, e: Event)
    requires WellFormed(w) && Inv(w, s) && Enabled(w, s, e) && Harmless(e, tid) && Working(w, s, tid)
    ensures Working(w, Step(w, s, e), tid) && Measure(w, Step(w, s, e), tid) == Measure(w, s, tid)
    ensures Step(w, s, e).mem.tasks[tid] == s.mem.tasks[tid]
    ensures
      var task := s.mem.tasks[tid];
      Unpended(s.store, task) && !Renews(w, s, e, task.record.key) ==> Unpended(Step(w, s, e).store, task)
  {
    var t := Step(w, s, e);
    OthersLeaveTask(w, s, tid, e);
    SameTaskSameMeasure(w, s, t, tid);
    StepGrows(w, s, e);
    StepLosesNothing(w, s, e);
    var key := s.mem.tasks[tid].record.key;
    if key !in s.store.pending && !Renews(w, s, e, key) { OthersLeaveUnpended(w, s, tid, e); }
  }

  lemma SameTaskSameMeasure(w: World, s: State, t: State, tid: nat)
    requires SameTask(s.mem, t.mem, tid)
    ensures Measure(w, t, tid) == Measure(w, s, tid)
  {
    forall i ensures Weight(s.mem.chunks, ChunkTask(tid, i)) == Weight(t.mem.chunks, ChunkTask(tid, i)) {}
    LoadSame(s.mem.chunks, t.mem.chunks, tid, Total(w, s.mem.tasks[tid]));
  }
}
