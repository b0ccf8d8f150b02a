/** Two downloads side by side, one of whose files has the name of the other's temporary file: a run in
    which that file is recorded as published while it is the empty temporary file. */
module NodeStray {
  import opened Bytes
  import opened Merkle
  import opened Domain
  import opened Chunking
  import opened Download
  import opened Node
  import opened NodeConvergence
  import opened NodeRestart

  // ----- a pass in which nothing fails -----

  /** The task can fetch the chunk: what a peer sends will be accepted. */
  ghost predicate CanFetch(w: World, s: State, c: ChunkTask) {
    && c.task in s.mem.tasks && s.mem.tasks[c.task].phase.Collecting?
    && c in s.mem.chunks && s.mem.chunks[c].Waiting? && s.mem.free > 0
    && var d := s.mem.tasks[c.task].record.chunksDir;
       && d in w.meta && Genuine(w, d) && c.id < |w.contents[d]|
       && Readable(s.disk, d) && s.disk.metas[d].metadata == w.meta[d]
  }

  lemma FetchRuns(w: World, s: State, c: ChunkTask) returns (es: seq<Event>)
    requires CanFetch(w, s, c)
    ensures Possible(w, s, es)
    ensures
      var d, t := s.mem.tasks[c.task].record.chunksDir, Run(w, s, es);
      && t.mem == s.mem.(chunks := s.mem.chunks[c := OnDisk], free := s.mem.free - 1) && t.store == s.store
      && t.disk == s.disk.(files := s.disk.files[ChunkFile(w.meta[d], c.id) := w.contents[d][c.id]])
  {
    var d := s.mem.tasks[c.task].record.chunksDir;
    var bytes := w.contents[d][c.id];
    var acquire, reply, save :=
      OfPass(Acquire(c)), OfPass(Reply(c, Some(Some(Success(bytes))))), OfPass(VerifyAndSave(c, true));
    assert Check(w, w.meta[d], c.id, bytes) == Accepted;
    var a := Step(w, s, acquire);
    RunTwo(w, a, reply, save);
    RunCons(w, s, acquire, [reply, save]);
    es := [acquire] + [reply, save];
    assert s.mem.chunks[c := Requesting][c := Received(bytes)][c := OnDisk] == s.mem.chunks[c := OnDisk];
  }

  lemma FetchedRuns(w: World, s: State, c: ChunkTask) returns (es: seq<Event>)
    requires c in s.mem.chunks && s.mem.chunks[c].OnDisk? && c.task in s.mem.tasks
      && s.mem.tasks[c.task].phase.Collecting?
    ensures Possible(w, s, es)
    ensures
      var t, task := Run(w, s, es), s.mem.tasks[c.task];
      && t.disk == s.disk && t.store == s.store
      && t.mem == s.mem.(tasks :=
           s.mem.tasks[c.task :=
             task.(record := task.record.(downloadedChunks := task.record.downloadedChunks + {c.id}))],
                         chunks := s.mem.chunks - {c}, free := s.mem.free + 1)
  {
    RunTwo(w, s, OfPass(AnnounceChunk(c, true)), OfPass(Join(c, false)));
    es := [OfPass(AnnounceChunk(c, true)), OfPass(Join(c, false))];
    assert s.mem.chunks[c := Done(Got)] - {c} == s.mem.chunks - {c};
  }

  /** From `s` to `t` the chunk has been fetched, and joined. */
  ghost predicate ChunkFetched(w: World, s: State, t: State, c: ChunkTask)
    requires CanFetch(w, s, c)
  {
    var task := s.mem.tasks[c.task];
    var d := task.record.chunksDir;
    && t.store == s.store
    && t.disk == s.disk.(files := s.disk.files[ChunkFile(w.meta[d], c.id) := w.contents[d][c.id]])
    && t.mem == s.mem.(tasks :=
         s.mem.tasks[c.task :=
           task.(record := task.record.(downloadedChunks := task.record.downloadedChunks + {c.id}))],
                       chunks := s.mem.chunks - {c})
  }

  lemma ChunkRuns(w: World, s: State, c: ChunkTask) returns (es: seq<Event>)
    requires CanFetch(w, s, c)
    ensures Possible(w, s, es) && ChunkFetched(w, s, Run(w, s, es), c)
  {
    var a := FetchRuns(w, s, c);
    var b := FetchedRuns(w, Run(w, s, a), c);
    RunAppend(w, s, a, b);
    es := a + b;
    assert s.mem.chunks[c := OnDisk] - {c} == s.mem.chunks - {c};
  }

  /** A task that is to fetch all chunks of directory `d`. */
  ghost predicate CanFetchAll(w: World, s: State, tid: nat, d: Dir) {
    && tid in s.mem.tasks && s.mem.tasks[tid].phase.Starting?
    && s.mem.tasks[tid].record.chunksDir == d && s.mem.tasks[tid].record.downloadedChunks == {}
    && d in w.meta && Genuine(w, d) && w.meta[d].chunkFileExtension == FILE_CHUNK_EXTENSION
    && Readable(s.disk, d) && s.disk.metas[d].metadata == w.meta[d]
    && s.mem.free > 0 && forall c :: c in s.mem.chunks ==> c.task != tid
  }

  /** From `s`, the task has fetched the first `k` chunks, and for the others chunk tasks wait. */
  ghost predicate Fetched(w: World, s: State, t: State, tid: nat, d: Dir, k: nat)
    requires CanFetchAll(w, s, tid, d)
  {
    var n, record := |w.contents[d]|, s.mem.tasks[tid].record;
    && k <= n && t.store == s.store
    && t.disk == s.disk.(files := WithChunks(s.disk.files, d, w.contents[d][..k]))
    && t.mem == s.mem.(tasks := s.mem.tasks[tid := Task(record.(downloadedChunks := Ids(k)), Collecting(n, None))],
                       chunks := s.mem.chunks + Started(tid, Ids(n) - Ids(k)))
  }

  lemma FetchedCanFetch(w: World, s: State, t: State, tid: nat, d: Dir, k: nat)
    requires CanFetchAll(w, s, tid, d) && Fetched(w, s, t, tid, d, k) && k < |w.contents[d]|
    ensures CanFetch(w, t, ChunkTask(tid, k))
  {
    assert ChunkTask(tid, k) in Started(tid, Ids(|w.contents[d]|) - Ids(k));
  }

  lemma FetchedMoreFiles(w: World, s: State, t: State, u: State, tid: nat, d: Dir, k: nat)
    requires CanFetchAll(w, s, tid, d) && Fetched(w, s, t, tid, d, k) && k < |w.contents[d]|
    requires CanFetch(w, t, ChunkTask(tid, k)) && ChunkFetched(w, t, u, ChunkTask(tid, k))
    ensures u.store == s.store && u.disk == s.disk.(files := WithChunks(s.disk.files, d, w.contents[d][..k + 1]))
  {
    WithChunksSnoc(s.disk.files, d, w.contents[d][..k], w.contents[d][k]);
    assert w.contents[d][..k] + [w.contents[d][k]] == w.contents[d][..k + 1];
  }

  lemma FetchedMore(w: World, s: State, t: State, u: State, tid: nat, d: Dir, k: nat)
    requires CanFetchAll(w, s, tid, d) && Fetched(w, s, t, tid, d, k) && k < |w.contents[d]|
    requires CanFetch(w, t, ChunkTask(tid, k)) && ChunkFetched(w, t, u, ChunkTask(tid, k))
    ensures Fetched(w, s, u, tid, d, k + 1)
  {
    FetchedMoreFiles(w, s, t, u, tid, d, k);
    StartedLess(s.mem.chunks, tid, |w.contents[d]|, k);
    var next := Task(s.mem.tasks[tid].record.(downloadedChunks := Ids(k + 1)), Collecting(|w.contents[d]|, None));
    assert u.mem.tasks == s.mem.tasks[tid := next] by {
      assert u.mem.tasks == t.mem.tasks[tid := next];
    }
  }

  lemma StartedLess(chunks: map<ChunkTask, ChunkState>, tid: nat, n: nat, k: nat)
    requires forall c :: c in chunks ==> c.task != tid
    ensures (chunks + Started(tid, Ids(n) - Ids(k))) - {ChunkTask(tid, k)} == chunks + Started(tid, Ids(n) - Ids(k + 1))
  {
    var more, fewer := chunks + Started(tid, Ids(n) - Ids(k)), chunks + Started(tid, Ids(n) - Ids(k + 1));
    forall c
      ensures c in fewer <==> c in more && c != ChunkTask(tid, k)
      ensures c in fewer ==> fewer[c] == more[c]
    {
    }
  }

  lemma FetchNext(w: World, s: State, t: State, tid: nat, d: Dir, k: nat) returns (es: seq<Event>)
    requires CanFetchAll(w, s, tid, d) && Fetched(w, s, t, tid, d, k) && k < |w.contents[d]|
    ensures Possible(w, t, es) && Fetched(w, s, Run(w, t, es), tid, d, k + 1)
  {
    FetchedCanFetch(w, s, t, tid, d, k);
    es := ChunkRuns(w, t, ChunkTask(tid, k));
    FetchedMore(w, s, t, Run(w, t, es), tid, d, k);
  }

  lemma {:induction false} FetchAll(w: World, s: State, t: State, tid: nat, d: Dir, k: nat) returns (es: seq<Event>)
    requires CanFetchAll(w, s, tid, d) && Fetched(w, s, t, tid, d, k)
    ensures Possible(w, t, es) && Fetched(w, s, Run(w, t, es), tid, d, |w.contents[d]|)
    decreases |w.contents[d]| - k
  {
    if k == |w.contents[d]| {
      es := [];
    } else {
      var first := FetchNext(w, s, t, tid, d, k);
      var rest := FetchAll(w, s, Run(w, t, first), tid, d, k + 1);
      RunAppend(w, t, first, rest);
      es := first + rest;
    }
  }

  /** The state after the pass: the chunk files are there, and the task is to complete the download. */
  ghost predicate Passed(w: World, s: State, t: State, tid: nat, d: Dir)
    requires CanFetchAll(w, s, tid, d)
  {
    && t.store == s.store && t.disk == s.disk.(files := WithChunks(s.disk.files, d, w.contents[d]))
    && t.mem == s.mem.(tasks :=
         s.mem.tasks[tid := Task(s.mem.tasks[tid].record.(downloadedChunks := Ids(|w.contents[d]|)), Completing)])
  }

  lemma PassBegins(w: World, s: State, tid: nat, d: Dir)
    requires CanFetchAll(w, s, tid, d)
    ensures Fetched(w, s, DoReadMetadata(s, tid, true), tid, d, 0)
  {
    assert w.contents[d][..0] == [];
    assert Ids(|w.contents[d]|) - Ids(0) == Ids(|w.contents[d]|) - {};
  }

  lemma PassEnds(w: World, s: State, t: State, tid: nat, d: Dir)
    requires CanFetchAll(w, s, tid, d) && Fetched(w, s, t, tid, d, |w.contents[d]|)
    ensures CanJoinsDone(t, tid) && Passed(w, s, DoJoinsDone(t, tid), tid, d)
  {
    var n := |w.contents[d]|;
    IdsCount(n);
    assert w.contents[d][..n] == w.contents[d];
    assert Ids(n) - Ids(n) == {} && s.mem.chunks + Started(tid, {}) == s.mem.chunks;
    var after := Task(s.mem.tasks[tid].record.(downloadedChunks := Ids(n)), Completing);
    assert t.mem.tasks[tid := after] == s.mem.tasks[tid := after];
  }

  lemma PassRuns(w: World, s: State, tid: nat, d: Dir) returns (es: seq<Event>)
    requires CanFetchAll(w, s, tid, d)
    ensures Possible(w, s, es) && Passed(w, s, Run(w, s, es), tid, d)
  {
    var read, done := OfPass(ReadMetadata(tid, true)), OfPass(JoinsDone(tid));
    var begun := DoReadMetadata(s, tid, true);
    PassBegins(w, s, tid, d);
    var fetch := FetchAll(w, s, begun, tid, d, 0);
    PassEnds(w, s, Run(w, begun, fetch), tid, d);
    RunSnoc(w, begun, fetch, done);
    RunCons(w, s, read, fetch + [done]);
    es := [read] + (fetch + [done]);
  }

  // ----- two downloads -----

  /** Two files whose downloads are not told apart well enough: one is put together where the other
      belongs. */
  ghost predicate Clashing(w: World, d: Dir, e: Dir) {
    && d in w.meta && e in w.meta && d != e && PartFile(w.meta[d]) == Destination(w.meta[e])
    && KeyAt(w, d) != KeyAt(w, e)
    && Genuine(w, d) && w.meta[d].chunkFileExtension == FILE_CHUNK_EXTENSION
    && Genuine(w, e) && w.meta[e].chunkFileExtension == FILE_CHUNK_EXTENSION
  }

  /** Both downloads are pending, and nothing has been fetched. */
  function BothAsked(w: World, d: Dir, e: Dir): State
    requires d in w.meta && e in w.meta
  {
    Asked(w, Asked(w, Begun(w), d, true), e, true)
  }

  lemma BothAskedRuns(w: World, d: Dir, e: Dir) returns (es: seq<Event>)
    requires Clashing(w, d, e)
    ensures Possible(w, Begun(w), es) && Run(w, Begun(w), es) == BothAsked(w, d, e)
  {
    var a := AskRuns(w, Begun(w), d, true);
    var b := AskRuns(w, Asked(w, Begun(w), d, true), e, true);
    RunAppend(w, Begun(w), a, b);
    es := a + b;
  }

  lemma BothStart(w: World, d: Dir, e: Dir) returns (es: seq<Event>, i: nat, j: nat)
    requires Clashing(w, d, e) && w.permits > 0
    ensures
      var s := BothAsked(w, d, e);
      && Possible(w, s, es)
      && var t := Run(w, s, es);
         && i != j && CanFetchAll(w, t, i, d) && CanFetchAll(w, t, j, e) && t.mem.tasks[j].record.key == KeyAt(w, e)
         && t.disk.files == map[] && t.disk.pieces == map[]
  {
    var s := BothAsked(w, d, e);
    var snapshot;
    es, snapshot := Schedule(w, s);
    i := StartedFor(s.store.pending, Run(w, s, es).mem.tasks, snapshot, KeyAt(w, d));
    j := StartedFor(s.store.pending, Run(w, s, es).mem.tasks, snapshot, KeyAt(w, e));
  }

  /** Both tasks are about to restore their files, neither of which is there. */
  ghost predicate BothComplete(w: World, t: State, i: nat, j: nat, d: Dir, e: Dir) {
    && i in t.mem.tasks && t.mem.tasks[i].phase.Completing? && t.mem.tasks[i].record.chunksDir == d
    && j in t.mem.tasks && t.mem.tasks[j].phase.Completing? && t.mem.tasks[j].record.chunksDir == e
    && d in w.meta && Readable(t.disk, d) && t.disk.metas[d].metadata == w.meta[d]
    && e in w.meta && Readable(t.disk, e) && t.disk.metas[e].metadata == w.meta[e]
    && Destination(w.meta[d]) !in t.disk.files && t.disk.pieces == map[]
  }

  lemma BothPass(w: World, s: State, i: nat, j: nat, d: Dir, e: Dir) returns (es: seq<Event>)
    requires i != j && CanFetchAll(w, s, i, d) && CanFetchAll(w, s, j, e) && s.disk.files == map[]
      && s.disk.pieces == map[]
    ensures Possible(w, s, es) && BothComplete(w, Run(w, s, es), i, j, d, e)
    ensures Run(w, s, es).mem.tasks[j].record.key == s.mem.tasks[j].record.key
  {
    var a := PassRuns(w, s, i, d);
    var t := Run(w, s, a);
    var b := PassRuns(w, t, j, e);
    RunAppend(w, s, a, b);
    es := a + b;
    WithChunksFiles(s.disk.files, d, w.contents[d], Destination(w.meta[d]));
    WithChunksFiles(t.disk.files, e, w.contents[e], Destination(w.meta[d]));
  }

  /** The first task begins its temporary file, and the second finds its destination there. */
  lemma Overtaken(w: World, s: State, i: nat, j: nat, d: Dir, e: Dir) returns (es: seq<Event>)
    requires BothComplete(w, s, i, j, d, e) && i != j && PartFile(w.meta[d]) == Destination(w.meta[e])
    ensures Possible(w, s, es)
    ensures
      var t, key := Run(w, s, es), s.mem.tasks[j].record.key;
      && key in t.store.published && t.store.published[key].chunksDir == e
      && Destination(w.meta[e]) in t.disk.files && t.disk.files[Destination(w.meta[e])] == [] && t.disk.pieces == map[]
  {
    var a, b, c := OfFinish(OpenPart(i, true)), OfFinish(OpenPart(j, true)), OfFinish(PutPublished(j, true));
    var begun := Step(w, s, a);
    RunTwo(w, begun, b, c);
    RunCons(w, s, a, [b, c]);
    es := [a] + [b, c];
  }

  /** From the beginning, with no failure at all: the second file is recorded as published, and what lies
      at its destination is empty. */
  lemma StrayPartIsPublished(w: World, d: Dir, e: Dir) returns (es: seq<Event>)
    requires Clashing(w, d, e) && w.permits > 0
    ensures Possible(w, Init(w), es)
    ensures
      var t := Run(w, Init(w), es);
      && KeyAt(w, e) in t.store.published && t.store.published[KeyAt(w, e)].chunksDir == e
      && Destination(w.meta[e]) in t.disk.files && t.disk.files[Destination(w.meta[e])] == [] && t.disk.pieces == map[]
  {
    var ask := BothAskedRuns(w, d, e);
    var start, i, j := BothStart(w, d, e);
    var started := Run(w, BothAsked(w, d, e), start);
    var pass := BothPass(w, started, i, j, d, e);
    var passed := Run(w, started, pass);
    var overtake := Overtaken(w, passed, i, j, d, e);
    RunAppend(w, started, pass, overtake);
    RunAppend(w, BothAsked(w, d, e), start, pass + overtake);
    RunAppend(w, Begun(w), ask, start + (pass + overtake));
    FromTheBeginning(w, ask + (start + (pass + overtake)));
    es := [BEGIN] + (ask + (start + (pass + overtake)));
  }

  // ----- a file that is there already -----

  /** The file of `e` is given to be published, the request fails, and then the file of `d` is downloaded:
      its temporary file takes the place of the other file. */
  ghost predicate Overwriting(w: World, d: Dir, e: Dir) {
    && d in w.meta && e in w.meta && PartFile(w.meta[d]) == Destination(w.meta[e])
    && Destination(w.meta[d]) != Destination(w.meta[e])
    && Genuine(w, d) && w.meta[d].chunkFileExtension == FILE_CHUNK_EXTENSION
    && CanPublishStart(w, Begun(w), 0, e)
  }

  /** A node with the user's file of `e`, and nothing else. */
  function WithFile(w: World, e: Dir): State
    requires e in w.meta && e in w.contents
  {
    Begun(w).(disk :=
      Begun(w).disk.(files := map[Destination(w.meta[e]) := Flat(w.contents[e])], pieces := map[e := w.contents[e]]))
  }

  lemma WithFileRuns(w: World, e: Dir) returns (es: seq<Event>)
    requires CanPublishStart(w, Begun(w), 0, e)
    ensures Possible(w, Begun(w), es) && Run(w, Begun(w), es) == WithFile(w, e)
  {
    RunTwo(w, Begun(w), OfRequest(PublishStart(0, e)), OfRequest(RequestFails(0)));
    es := [OfRequest(PublishStart(0, e)), OfRequest(RequestFails(0))];
    assert map[0 := Splitting(e, 0)] - {0} == map[];
  }

  lemma DownloadOpens(w: World, s: State, d: Dir) returns (es: seq<Event>)
    requires s.mem == JustRunning(w) && s.store == Init(w).store && CanAsk(w, s, d) && w.permits > 0
    requires Genuine(w, d) && w.meta[d].chunkFileExtension == FILE_CHUNK_EXTENSION
    ensures Possible(w, s, es)
    ensures
      var t := Run(w, s, es);
      && PartFile(w.meta[d]) in t.disk.files && t.disk.files[PartFile(w.meta[d])] == []
      && t.disk.pieces == s.disk.pieces
  {
    var asked := Asked(w, s, d, true);
    var ask := AskRuns(w, s, d, true);
    var start, snapshot := Schedule(w, asked);
    var started := Run(w, asked, start);
    var tid := StartedFor(asked.store.pending, started.mem.tasks, snapshot, KeyAt(w, d));
    var pass := PassRuns(w, started, tid, d);
    var passed := Run(w, started, pass);
    WithChunksFiles(started.disk.files, d, w.contents[d], Destination(w.meta[d]));
    RunSnoc(w, started, pass, OfFinish(OpenPart(tid, true)));
    RunAppend(w, asked, start, pass + [OfFinish(OpenPart(tid, true))]);
    RunAppend(w, s, ask, start + (pass + [OfFinish(OpenPart(tid, true))]));
    es := ask + (start + (pass + [OfFinish(OpenPart(tid, true))]));
  }

  /** From the beginning: the user's file is empty. */
  lemma PartDestroys(w: World, d: Dir, e: Dir) returns (es: seq<Event>)
    requires Overwriting(w, d, e) && w.permits > 0
    ensures Possible(w, Init(w), es)
    ensures
      var t := Run(w, Init(w), es);
      && Destination(w.meta[e]) in t.disk.files && t.disk.files[Destination(w.meta[e])] == []
      && t.disk.pieces == map[e := w.contents[e]]
  {
    var first := WithFileRuns(w, e);
    var rest := DownloadOpens(w, WithFile(w, e), d);
    RunAppend(w, Begun(w), first, rest);
    FromTheBeginning(w, first + rest);
    es := [BEGIN] + (first + rest);
  }
}
