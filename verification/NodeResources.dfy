/** Permits and the active set: both are accounted for in every reachable state. */
module NodeResources {
  import opened Bytes
  import opened Keys
  import opened Domain
  import opened Download
  import opened Node
  import opened NodeInvariant
  import opened NodeSafety

  // ----- permits -----

  predicate Holds(state: ChunkState) {
    state.Requesting? || state.Received? || state.OnDisk?
  }

  /** The chunk tasks that have a permit: from its acquisition to their end. */
  function Holding(chunks: map<ChunkTask, ChunkState>): set<ChunkTask> {
    set c | c in chunks && Holds(chunks[c])
  }

  /** Free permits and those held add up to all permits. */
  ghost predicate PermitsInv(w: World, mem: Memory) {
    mem.free + |Holding(mem.chunks)| == w.permits
  }

  lemma HoldingUpdate(chunks: map<ChunkTask, ChunkState>, c: ChunkTask, state: ChunkState)
    ensures Holding(chunks[c := state])
            == if Holds(state) then Holding(chunks) + {c} else Holding(chunks) - {c}
    ensures Holding(chunks - {c}) == Holding(chunks) - {c}
  {
  }

  lemma HoldingStarted(chunks: map<ChunkTask, ChunkState>, tid: nat, ids: set<nat>)
    requires forall c :: c in chunks ==> c.task != tid
    ensures Holding(chunks + Started(tid, ids)) == Holding(chunks)
  {
  }

  lemma Finished(w: World, s: State, c: ChunkTask, outcome: Outcome)
    requires PermitsInv(w, s.mem) && c in s.mem.chunks && Holds(s.mem.chunks[c])
    ensures PermitsInv(w, FinishChunk(s, c, outcome).mem)
  {
    HoldingUpdate(s.mem.chunks, c, Done(outcome));
    assert c in Holding(s.mem.chunks);
  }

  lemma StillHolding(w: World, s: State, c: ChunkTask, state: ChunkState)
    requires PermitsInv(w, s.mem) && c in s.mem.chunks && Holds(s.mem.chunks[c]) && Holds(state)
    ensures PermitsInv(w, SetChunk(s, c, state).mem)
  {
    HoldingUpdate(s.mem.chunks, c, state);
    assert Holding(s.mem.chunks) + {c} == Holding(s.mem.chunks);
  }

  /** Chunk tasks belong to tasks that are collecting. */
  ghost predicate OfCollecting(mem: Memory) {
    forall c :: c in mem.chunks ==> c.task in mem.tasks && mem.tasks[c.task].phase.Collecting?
  }

  lemma InvCollecting(w: World, s: State)
    requires Inv(w, s)
    ensures OfCollecting(s.mem)
  {
    forall c | c in s.mem.chunks
      ensures c.task in s.mem.tasks && s.mem.tasks[c.task].phase.Collecting?
    {
      assert ChunkTaskOk(w, s.disk, s.mem.tasks, c, s.mem.chunks[c]);
    }
  }

  lemma ReadPermits(w: World, s: State, tid: nat, ok: bool)
    requires OfCollecting(s.mem) && PermitsInv(w, s.mem) && CanReadMetadata(s, tid, ok)
    ensures PermitsInv(w, DoReadMetadata(s, tid, ok).mem)
  {
    if ok {
      var record := s.mem.tasks[tid].record;
      HoldingStarted(s.mem.chunks, tid,
        Ids(|s.disk.metas[record.chunksDir].metadata.merkleProofs|) - record.downloadedChunks);
    }
  }

  lemma SavePermits(w: World, s: State, c: ChunkTask, ok: bool)
    requires PermitsInv(w, s.mem) && CanVerifyAndSave(s, c)
    ensures PermitsInv(w, DoVerifyAndSave(w, s, c, ok).mem)
  {
    StillHolding(w, s, c, OnDisk);
    Finished(w, s, c, Failed);
    var t := DoVerifyAndSave(w, s, c, ok);
    assert t.mem == SetChunk(s, c, OnDisk).mem || t.mem == FinishChunk(s, c, Failed).mem;
  }

  lemma ReplyPermits(w: World, s: State, c: ChunkTask, reply: Option<Option<FileResponse>>)
    requires PermitsInv(w, s.mem) && CanReply(s, c)
    ensures PermitsInv(w, DoReply(s, c, reply).mem)
  {
    match reply
    case Some(Some(Success(bytes))) => StillHolding(w, s, c, Received(bytes));
    case Some(_) => Finished(w, s, c, Nothing);
    case None => Finished(w, s, c, Failed);
  }

  lemma JoinPermits(w: World, s: State, c: ChunkTask, putOk: bool)
    requires PermitsInv(w, s.mem) && CanJoin(s, c)
    ensures PermitsInv(w, DoJoin(s, c, putOk).mem)
  {
    HoldingUpdate(s.mem.chunks, c, Waiting);
    assert Holding(s.mem.chunks) - {c} == Holding(s.mem.chunks);
    assert DoJoin(s, c, putOk).mem.chunks == s.mem.chunks - {c};
  }

  lemma PassPermits(w: World, s: State, e: PassEvent)
    requires OfCollecting(s.mem) && PermitsInv(w, s.mem) && CanPass(w, s, e)
    ensures PermitsInv(w, DoPass(w, s, e).mem)
  {
    match e
    case ReadMetadata(tid, ok) => ReadPermits(w, s, tid, ok);
    case Acquire(c) => HoldingUpdate(s.mem.chunks, c, Requesting);
    case Reply(c, reply) => ReplyPermits(w, s, c, reply);
    case VerifyAndSave(c, ok) => SavePermits(w, s, c, ok);
    case AnnounceChunk(c, ok) =>
      Finished(w, s, c, if ok then Got else Nothing);
    case Join(c, putOk) => JoinPermits(w, s, c, putOk);
    case _ =>
  }

  /** Requests, the queue and the end of a download concern no chunk task. */
  lemma OthersKeepChunks(w: World, s: State, e: Event)
    requires Enabled(w, s, e) && (e.OfRequest? || e.OfQueue? || e.OfFinish?)
    ensures Step(w, s, e).mem.chunks == s.mem.chunks && Step(w, s, e).mem.free == s.mem.free
  {
    match e
    case OfRequest(r) => RequestKeepsChunks(w, s, r);
    case OfQueue(q) =>
    case OfFinish(f) => FinishKeepsChunks(w, s, f);
  }

  lemma RequestKeepsChunks(w: World, s: State, e: RequestEvent)
    requires CanRequest(w, s, e)
    ensures DoRequest(w, s, e).mem.chunks == s.mem.chunks && DoRequest(w, s, e).mem.free == s.mem.free
  {
  }

  lemma FinishKeepsChunks(w: World, s: State, e: FinishEvent)
    requires CanFinish(w, s, e)
    ensures DoFinish(w, s, e).mem.chunks == s.mem.chunks && DoFinish(w, s, e).mem.free == s.mem.free
  {
  }

  lemma StepPermits(w: World, s: State, e: Event)
    requires OfCollecting(s.mem) && PermitsInv(w, s.mem) && Enabled(w, s, e)
    ensures PermitsInv(w, Step(w, s, e).mem)
  {
    match e
    case Crash => assert Holding(FreshMemory(w).chunks) == {};
    case OfPass(p) => PassPermits(w, s, p);
    case _ => OthersKeepChunks(w, s, e);
  }

  // ----- the active set -----

  ghost predicate HasTask(tasks: map<nat, Task>, k: Key) {
    exists t :: t in tasks && tasks[t].record.key == k
  }

  /** The active set holds exactly the keys of the live tasks, each of which has its own key. */
  ghost predicate ActiveExact(mem: Memory) {
    && OneTaskPerKey(mem.tasks)
    && forall k :: k in mem.active <==> HasTask(mem.tasks, k)
  }

  lemma HasTaskUpdate(tasks: map<nat, Task>, tid: nat, task: Task, k: Key)
    requires tid in tasks ==> tasks[tid].record.key == task.record.key
    ensures HasTask(tasks[tid := task], k) <==> HasTask(tasks, k) || k == task.record.key
  {
    var all := tasks[tid := task];
    if HasTask(tasks, k) {
      var t :| t in tasks && tasks[t].record.key == k;
      assert t in all && all[t].record.key == k;
    }
    if k == task.record.key {
      assert tid in all && all[tid].record.key == k;
    }
    if HasTask(all, k) && k != task.record.key {
      var t :| t in all && all[t].record.key == k;
      assert t in tasks && tasks[t].record.key == k;
    }
  }

  lemma HasTaskRemove(tasks: map<nat, Task>, tid: nat, k: Key)
    requires OneTaskPerKey(tasks) && tid in tasks
    ensures HasTask(tasks - {tid}, k) <==> HasTask(tasks, k) && k != tasks[tid].record.key
  {
    var rest := tasks - {tid};
    if HasTask(tasks, k) && k != tasks[tid].record.key {
      var t :| t in tasks && tasks[t].record.key == k;
      assert t in rest && rest[t].record.key == k;
    }
    if HasTask(rest, k) {
      var t :| t in rest && rest[t].record.key == k;
      assert t in tasks && tasks[t].record.key == k;
    }
  }

  ghost predicate SameKeys(a: Memory, b: Memory) {
    a.active == b.active && (a.tasks == b.tasks || exists t ::
      t in a.tasks && t in b.tasks && b.tasks == a.tasks[t := b.tasks[t]]
        && b.tasks[t].record.key == a.tasks[t].record.key)
  }

  lemma SameKeysActive(a: Memory, b: Memory)
    requires ActiveExact(a) && SameKeys(a, b) && OneTaskPerKey(b.tasks)
    ensures ActiveExact(b)
  {
    if a.tasks != b.tasks {
      var t :| t in a.tasks && t in b.tasks && b.tasks == a.tasks[t := b.tasks[t]]
        && b.tasks[t].record.key == a.tasks[t].record.key;
      forall k
        ensures k in b.active <==> HasTask(b.tasks, k)
      {
        HasTaskUpdate(a.tasks, t, b.tasks[t], k);
        assert HasTask(a.tasks, a.tasks[t].record.key);
      }
    }
  }

  lemma NextRecordActive(s: State, tid: nat)
    requires ActiveExact(s.mem) && CanNextRecord(s, tid) && OneTaskPerKey(DoNextRecord(s, tid).mem.tasks)
    ensures ActiveExact(DoNextRecord(s, tid).mem)
  {
    var t := DoNextRecord(s, tid);
    if t.mem.tasks != s.mem.tasks {
      forall k
        ensures k in t.mem.active <==> HasTask(t.mem.tasks, k)
      {
        HasTaskUpdate(s.mem.tasks, tid, t.mem.tasks[tid], k);
      }
    }
  }

  lemma EndTaskActive(s: State, tid: nat)
    requires ActiveExact(s.mem) && InEnded(s, tid) && OneTaskPerKey(DoEndTask(s, tid).mem.tasks)
    ensures ActiveExact(DoEndTask(s, tid).mem)
  {
    forall k
      ensures k in DoEndTask(s, tid).mem.active <==> HasTask(s.mem.tasks - {tid}, k)
    {
      HasTaskRemove(s.mem.tasks, tid, k);
    }
  }

  /** No other event starts or ends a task, or changes the key of one. */
  lemma PassKeepsKeys(w: World, s: State, e: PassEvent)
    requires CanPass(w, s, e) && !e.NextRecord?
    ensures SameKeys(s.mem, DoPass(w, s, e).mem)
  {
    var t := DoPass(w, s, e);
    match e
    case ReadMetadata(tid, _) => assert t.mem.tasks == s.mem.tasks[tid := t.mem.tasks[tid]];
    case Join(c, _) => assert t.mem.tasks == s.mem.tasks[c.task := t.mem.tasks[c.task]];
    case JoinsDone(tid) => assert t.mem.tasks == s.mem.tasks[tid := t.mem.tasks[tid]];
    case _ =>
  }

  lemma FinishKeepsKeys(w: World, s: State, e: FinishEvent)
    requires CanFinish(w, s, e) && !e.EndTask?
    ensures SameKeys(s.mem, DoFinish(w, s, e).mem)
  {
    var t := DoFinish(w, s, e);
    assert t.mem.tasks == s.mem.tasks[e.tid := t.mem.tasks[e.tid]];
  }

  lemma RequestKeepsKeys(w: World, s: State, e: RequestEvent)
    requires CanRequest(w, s, e)
    ensures SameKeys(s.mem, DoRequest(w, s, e).mem)
  {
  }

  lemma StepKeepsKeys(w: World, s: State, e: Event)
    requires Enabled(w, s, e) && !e.Crash? && !(e.OfPass? && e.pass.NextRecord?) && !(e.OfFinish? && e.finish.EndTask?)
    ensures SameKeys(s.mem, Step(w, s, e).mem)
  {
    match e
    case OfRequest(r) => RequestKeepsKeys(w, s, r);
    case OfQueue(q) => QueueKeepsKeys(w, s, q);
    case OfPass(p) => PassKeepsKeys(w, s, p);
    case OfFinish(f) => FinishKeepsKeys(w, s, f);
  }

  lemma QueueKeepsKeys(w: World, s: State, e: QueueEvent)
    requires CanQueue(w, s, e)
    ensures SameKeys(s.mem, DoQueue(w, s, e).mem)
  {
  }

  lemma StepActive(w: World, s: State, e: Event)
    requires ActiveExact(s.mem) && Enabled(w, s, e) && OneTaskPerKey(Step(w, s, e).mem.tasks)
    ensures ActiveExact(Step(w, s, e).mem)
  {
    if e.Crash? {
    } else if e.OfPass? && e.pass.NextRecord? {
      NextRecordActive(s, e.pass.tid);
    } else if e.OfFinish? && e.finish.EndTask? {
      EndTaskActive(s, e.finish.tid);
    } else {
      StepKeepsKeys(w, s, e);
      SameKeysActive(s.mem, Step(w, s, e).mem);
    }
  }

  /** In every state of every run: permits are conserved, so that no more chunk tasks than there
      are permits are between acquiring and ending, and the active set is exact. */
  lemma {:induction false} RunResources(w: World, s: State, es: seq<Event>)
    requires WellFormed(w) && Inv(w, s) && PermitsInv(w, s.mem) && ActiveExact(s.mem) && Possible(w, s, es)
    ensures var mem := Run(w, s, es).mem;
            PermitsInv(w, mem) && |Holding(mem.chunks)| <= w.permits && ActiveExact(mem)
    decreases |es|
  {
    if es != [] {
      StepInv(w, s, es[0]);
      InvCollecting(w, s);
      StepPermits(w, s, es[0]);
      StepActive(w, s, es[0]);
      RunResources(w, Step(w, s, es[0]), es[1..]);
    }
  }

  lemma InitResources(w: World)
    ensures PermitsInv(w, Init(w).mem) && ActiveExact(Init(w).mem)
  {
    assert Holding(FreshMemory(w).chunks) == {};
  }
}
