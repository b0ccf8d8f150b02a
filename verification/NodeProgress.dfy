/** Progress over many passes, crashes included: every chunk that is persisted is one that was missing,
    so that a download needs no more productive passes than it has chunks. */
module NodeProgress {
  import opened Keys
  import opened Domain
  import opened Download
  import opened Node
  import opened NodeInvariant
  import opened NodeSafety
  import opened NodeRecovery

  predicate Early(phase: Phase) {
    phase.Starting? || phase.Collecting?
  }

  /** A stored record and the record of a task that began with it or an earlier version of it. */
  predicate Covers(r: PendingDownloadRecord, stored: PendingDownloadRecord) {
    stored.downloadedChunks <= r.downloadedChunks && stored == r.(downloadedChunks := stored.downloadedChunks)
  }

  ghost predicate AheadTask(store: Store, task: Task, key: Key) {
    task.record.key == key && Early(task.phase) ==> key in store.pending && Covers(task.record, store.pending[key])
  }

  /** A task of the key that is not past its pass knows of all the chunks that the store knows of. */
  ghost predicate Ahead(s: State, key: Key) {
    forall tid :: tid in s.mem.tasks ==> AheadTask(s.store, s.mem.tasks[tid], key)
  }

  /** The scheduler comes to a record of the key that is not the stored one any more. A task that is
      started from it would persist less than there was. */
  ghost predicate MeetsStale(s: State, e: Event, key: Key) {
    && e.OfPass? && e.pass.NextRecord? && s.mem.stream != [] && s.mem.stream[0].key == key
    && !(key in s.store.pending && s.store.pending[key] == s.mem.stream[0])
  }

  /** The event persists a chunk of the key. */
  ghost predicate Saves(s: State, e: Event, key: Key) {
    && e.OfPass? && e.pass.Join? && e.pass.putOk
    && CanJoin(s, e.pass.c) && s.mem.chunks[e.pass.c].outcome.Got? && s.mem.tasks[e.pass.c.task].record.key == key
  }

  /** The number of chunks that a pending download has not recorded yet. */
  ghost function Missing(w: World, s: State, key: Key): int {
    if key !in s.store.pending || s.store.pending[key].chunksDir !in w.meta then 0
    else |w.meta[s.store.pending[key].chunksDir].merkleProofs| - |s.store.pending[key].downloadedChunks|
  }

  lemma MissingBound(w: World, s: State, key: Key)
    requires Inv(w, s)
    ensures Missing(w, s, key) >= 0
    ensures key in s.store.pending ==> (Missing(w, s, key) == 0 <==> AllDownloaded(w, s.store.pending[key]))
  {
    if key in s.store.pending {
      var r := s.store.pending[key];
      var n := |w.meta[r.chunksDir].merkleProofs|;
      forall i | i in r.downloadedChunks ensures i in Ids(n) { assert ChunkOk(w, s.disk, r.chunksDir, i); }
      CountIsComplete(r.downloadedChunks, n);
      IdsCount(n);
      SubsetCount(r.downloadedChunks, Ids(n));
    }
  }

  // ----- every event -----

  /** Neither the stored record of the key nor a task of it that is not past its pass has changed; no
      such task is new. */
  ghost predicate Unaffected(s: State, t: State, key: Key) {
    && (key in t.store.pending <==> key in s.store.pending)
    && (key in s.store.pending ==> t.store.pending[key] == s.store.pending[key])
    && forall tid :: tid in t.mem.tasks && t.mem.tasks[tid].record.key == key && Early(t.mem.tasks[tid].phase) ==>
         tid in s.mem.tasks && t.mem.tasks[tid].record == s.mem.tasks[tid].record && Early(s.mem.tasks[tid].phase)
  }

  lemma UnaffectedAhead(w: World, s: State, t: State, key: Key)
    requires Ahead(s, key) && Unaffected(s, t, key)
    ensures Ahead(t, key) && Missing(w, t, key) == Missing(w, s, key)
  {
    forall tid | tid in t.mem.tasks
      ensures AheadTask(t.store, t.mem.tasks[tid], key)
    {
      if tid in s.mem.tasks { assert AheadTask(s.store, s.mem.tasks[tid], key); }
    }
  }

  /** A pass is over the chunks a task does not know of, and no other task has its key. */
  lemma JoinFacts(w: World, s: State, c: ChunkTask)
    requires Inv(w, s) && CanJoin(s, c)
    ensures c.id !in s.mem.tasks[c.task].record.downloadedChunks
    ensures forall tid :: tid in s.mem.tasks && tid != c.task ==>
      s.mem.tasks[tid].record.key != s.mem.tasks[c.task].record.key
  {
    assert ChunkTaskOk(w, s.disk, s.mem.tasks, c, s.mem.chunks[c]);
  }

  lemma JoinAhead(s: State, c: ChunkTask, putOk: bool, key: Key)
    requires Ahead(s, key) && CanJoin(s, c)
    requires forall tid :: tid in s.mem.tasks && tid != c.task ==>
      s.mem.tasks[tid].record.key != s.mem.tasks[c.task].record.key
    ensures Ahead(DoJoin(s, c, putOk), key)
  {
    var t := DoJoin(s, c, putOk);
    assert AheadTask(s.store, s.mem.tasks[c.task], key);
    forall tid | tid in t.mem.tasks
      ensures AheadTask(t.store, t.mem.tasks[tid], key)
    {
      assert AheadTask(s.store, s.mem.tasks[tid], key);
    }
  }

  lemma JoinMissing(w: World, s: State, c: ChunkTask, putOk: bool, key: Key)
    requires CanJoin(s, c) && AheadTask(s.store, s.mem.tasks[c.task], key)
    requires c.id !in s.mem.tasks[c.task].record.downloadedChunks
    requires key in s.store.pending ==> s.store.pending[key].chunksDir in w.meta
    ensures Missing(w, DoJoin(s, c, putOk), key)
      + (if Saves(s, OfPass(Join(c, putOk)), key) then 1 else 0) <= Missing(w, s, key)
  {
    var t := DoJoin(s, c, putOk);
    var before := s.mem.tasks[c.task].record;
    if before.key == key && putOk && s.mem.chunks[c].outcome.Got? {
      var stored := s.store.pending[key];
      assert t.store.pending[key] == before.(downloadedChunks := before.downloadedChunks + {c.id});
      SubsetCount(stored.downloadedChunks, before.downloadedChunks);
    } else {
      assert key in s.store.pending ==> t.store.pending[key] == s.store.pending[key];
    }
  }

  lemma JoinProgress(w: World, s: State, c: ChunkTask, putOk: bool, key: Key)
    requires Inv(w, s) && Ahead(s, key) && CanJoin(s, c)
    ensures
      var t := DoJoin(s, c, putOk);
      Ahead(t, key)
        && Missing(w, t, key) + (if Saves(s, OfPass(Join(c, putOk)), key) then 1 else 0) <= Missing(w, s, key)
  {
    JoinFacts(w, s, c);
    JoinAhead(s, c, putOk, key);
    JoinMissing(w, s, c, putOk, key);
  }

  lemma NextRecordProgress(w: World, s: State, tid: nat, key: Key)
    requires Ahead(s, key) && CanNextRecord(s, tid) && !MeetsStale(s, OfPass(NextRecord(tid)), key)
    ensures Ahead(DoNextRecord(s, tid), key) && Missing(w, DoNextRecord(s, tid), key) == Missing(w, s, key)
  {
    var t := DoNextRecord(s, tid);
    forall i | i in t.mem.tasks
      ensures AheadTask(t.store, t.mem.tasks[i], key)
    {
      if i in s.mem.tasks { assert AheadTask(s.store, s.mem.tasks[i], key); }
    }
  }

  lemma PassUnaffected(w: World, s: State, e: PassEvent, key: Key)
    requires CanPass(w, s, e) && !e.Join? && !e.NextRecord?
    ensures Unaffected(s, DoPass(w, s, e), key)
  {
  }

  lemma PassProgress(w: World, s: State, e: PassEvent, key: Key)
    requires Inv(w, s) && Ahead(s, key) && CanPass(w, s, e) && !MeetsStale(s, OfPass(e), key)
    ensures
      var t := DoPass(w, s, e);
      Ahead(t, key) && Missing(w, t, key) + (if Saves(s, OfPass(e), key) then 1 else 0) <= Missing(w, s, key)
  {
    if e.Join? {
      JoinProgress(w, s, e.c, e.putOk, key);
    } else if e.NextRecord? {
      NextRecordProgress(w, s, e.tid, key);
    } else {
      PassUnaffected(w, s, e, key);
      UnaffectedAhead(w, s, DoPass(w, s, e), key);
    }
  }

  lemma FinishKeepsPending(w: World, s: State, e: FinishEvent, key: Key)
    requires CanFinish(w, s, e) && (e.DeletePending? ==> s.mem.tasks[e.tid].record.key != key)
    ensures
      var t := DoFinish(w, s, e);
      && (key in t.store.pending <==> key in s.store.pending)
      && (key in s.store.pending ==> t.store.pending[key] == s.store.pending[key])
  {
  }

  lemma FinishUnaffected(w: World, s: State, e: FinishEvent, key: Key)
    requires CanFinish(w, s, e) && (e.DeletePending? ==> s.mem.tasks[e.tid].record.key != key)
    ensures Unaffected(s, DoFinish(w, s, e), key)
  {
    FinishKeepsPending(w, s, e, key);
    var t := DoFinish(w, s, e);
    assert e.tid in t.mem.tasks ==> !Early(t.mem.tasks[e.tid].phase);
  }

  lemma DeleteProgress(w: World, s: State, tid: nat, ok: bool, key: Key)
    requires OneTaskPerKey(s.mem.tasks) && Ahead(s, key) && InDeleting(s, tid) && s.mem.tasks[tid].record.key == key
    requires Missing(w, s, key) >= 0
    ensures Ahead(DoDeletePending(s, tid, ok), key)
      && Missing(w, DoDeletePending(s, tid, ok), key) <= Missing(w, s, key)
  {
    var t := DoDeletePending(s, tid, ok);
    forall i | i in t.mem.tasks
      ensures AheadTask(t.store, t.mem.tasks[i], key)
    {
      assert AheadTask(s.store, s.mem.tasks[i], key);
    }
  }

  lemma FinishProgress(w: World, s: State, e: FinishEvent, key: Key)
    requires Inv(w, s) && Ahead(s, key) && CanFinish(w, s, e)
    ensures Ahead(DoFinish(w, s, e), key) && Missing(w, DoFinish(w, s, e), key) <= Missing(w, s, key)
  {
    if e.DeletePending? && s.mem.tasks[e.tid].record.key == key {
      MissingBound(w, s, key);
      DeleteProgress(w, s, e.tid, e.ok, key);
    } else {
      FinishUnaffected(w, s, e, key);
      UnaffectedAhead(w, s, DoFinish(w, s, e), key);
    }
  }

  lemma RequestProgress(w: World, s: State, e: RequestEvent, key: Key)
    requires Ahead(s, key) && CanRequest(w, s, e) && !Renews(w, s, OfRequest(e), key)
    ensures Ahead(DoRequest(w, s, e), key) && Missing(w, DoRequest(w, s, e), key) == Missing(w, s, key)
  {
    UnaffectedAhead(w, s, DoRequest(w, s, e), key);
  }

  lemma QueueProgress(w: World, s: State, e: QueueEvent, key: Key)
    requires Ahead(s, key) && CanQueue(w, s, e)
    ensures Ahead(DoQueue(w, s, e), key) && Missing(w, DoQueue(w, s, e), key) == Missing(w, s, key)
  {
    UnaffectedAhead(w, s, DoQueue(w, s, e), key);
  }

  lemma StepProgress(w: World, s: State, e: Event, key: Key)
    requires Inv(w, s) && Ahead(s, key) && Enabled(w, s, e) && !Renews(w, s, e, key) && !MeetsStale(s, e, key)
    ensures
      var t := Step(w, s, e);
      Ahead(t, key) && Missing(w, t, key) + (if Saves(s, e, key) then 1 else 0) <= Missing(w, s, key)
  {
    match e
    case Crash =>
    case OfRequest(r) => RequestProgress(w, s, r, key);
    case OfQueue(q) => QueueProgress(w, s, q, key);
    case OfPass(p) => PassProgress(w, s, p, key);
    case OfFinish(f) => FinishProgress(w, s, f, key);
  }

  // ----- whole runs -----

  /** No request makes the key pending anew, and no task of it is started from a stale record. */
  ghost predicate Steady(w: World, s: State, es: seq<Event>, key: Key)
    requires Possible(w, s, es)
    decreases |es|
  {
    es == [] || (!Renews(w, s, es[0], key) && !MeetsStale(s, es[0], key) && Steady(w, Step(w, s, es[0]), es[1..], key))
  }

  ghost function SaveCount(w: World, s: State, es: seq<Event>, key: Key): nat
    requires Possible(w, s, es)
    decreases |es|
  {
    if es == [] then 0 else (if Saves(s, es[0], key) then 1 else 0) + SaveCount(w, Step(w, s, es[0]), es[1..], key)
  }

  /** Over a steady run, crashes included, each chunk that is persisted is one chunk fewer missing. */
  lemma {:induction false} RunProgress(w: World, s: State, es: seq<Event>, key: Key)
    requires WellFormed(w) && Inv(w, s) && Ahead(s, key) && Possible(w, s, es) && Steady(w, s, es, key)
    ensures Ahead(Run(w, s, es), key)
    ensures Missing(w, Run(w, s, es), key) + SaveCount(w, s, es, key) <= Missing(w, s, key)
    decreases |es|
  {
    if es != [] {
      StepInv(w, s, es[0]);
      StepProgress(w, s, es[0], key);
      RunProgress(w, Step(w, s, es[0]), es[1..], key);
    }
  }

  /** One run after the other, steady, and each persisting at least one chunk: runs that take in
      a whole pass of the download, say, however the pass ends. */
  ghost predicate Productive(w: World, s: State, passes: seq<seq<Event>>, key: Key)
    decreases |passes|
  {
    passes == [] ||
    (&& Possible(w, s, passes[0]) && Steady(w, s, passes[0], key) && SaveCount(w, s, passes[0], key) > 0
     && Productive(w, Run(w, s, passes[0]), passes[1..], key))
  }

  ghost function AfterPasses(w: World, s: State, passes: seq<seq<Event>>, key: Key): State
    requires Productive(w, s, passes, key)
    decreases |passes|
  {
    if passes == [] then s else AfterPasses(w, Run(w, s, passes[0]), passes[1..], key)
  }

  /** There are no more productive passes than chunks missing, and after as many, none is missing. */
  lemma {:induction false} PassesBound(w: World, s: State, passes: seq<seq<Event>>, key: Key)
    requires WellFormed(w) && Inv(w, s) && Ahead(s, key) && Productive(w, s, passes, key)
    ensures |passes| <= Missing(w, s, key)
    ensures
      var t := AfterPasses(w, s, passes, key);
      && Inv(w, t) && Ahead(t, key)
      && Missing(w, t, key) <= Missing(w, s, key) - |passes|
      && (|passes| == Missing(w, s, key) && key in t.store.pending ==> AllDownloaded(w, t.store.pending[key]))
    decreases |passes|
  {
    if passes == [] {
      MissingBound(w, s, key);
    } else {
      var t := Run(w, s, passes[0]);
      RunInv(w, s, passes[0]);
      RunProgress(w, s, passes[0], key);
      PassesBound(w, t, passes[1..], key);
    }
  }

  /** And when none is missing, a pass has no chunk to fetch and succeeds. */
  lemma CompletePassSucceeds(w: World, s: State, tid: nat)
    requires Inv(w, s) && tid in s.mem.tasks && Ahead(s, s.mem.tasks[tid].record.key) && Early(s.mem.tasks[tid].phase)
    requires Missing(w, s, s.mem.tasks[tid].record.key) == 0
    ensures forall c :: c in s.mem.chunks ==> c.task != tid
    ensures CanReadMetadata(s, tid, true) ==>
              forall c :: c in DoReadMetadata(s, tid, true).mem.chunks ==> c.task != tid
    ensures CanJoinsDone(s, tid) ==> DoJoinsDone(s, tid).mem.tasks[tid].phase.Completing?
  {
    var key := s.mem.tasks[tid].record.key;
    MissingBound(w, s, key);
    assert AheadTask(s.store, s.mem.tasks[tid], key);
    assert TaskOk(w, s.disk, s.store.published.Keys, s.mem.chunks.Keys, tid, s.mem.tasks[tid]);
    assert AllDownloaded(w, s.mem.tasks[tid].record);
    forall c | c in s.mem.chunks
      ensures c.task != tid
    {
      assert ChunkTaskOk(w, s.disk, s.mem.tasks, c, s.mem.chunks[c]);
    }
    if CanReadMetadata(s, tid, true) { NothingStarted(w, s, tid); }
    if CanJoinsDone(s, tid) { PassComplete(w, s, tid); }
  }

  lemma NothingStarted(w: World, s: State, tid: nat)
    requires Inv(w, s) && CanReadMetadata(s, tid, true) && AllDownloaded(w, s.mem.tasks[tid].record)
    requires forall c :: c in s.mem.chunks ==> c.task != tid
    ensures forall c :: c in DoReadMetadata(s, tid, true).mem.chunks ==> c.task != tid
  {
    assert TaskOk(w, s.disk, s.store.published.Keys, s.mem.chunks.Keys, tid, s.mem.tasks[tid]);
  }
}
