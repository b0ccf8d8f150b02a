/** The node's small steps against the methods that do the same work in one piece: whatever
    `ProcessFile` and `RestoreOriginalFile` can leave on disk, errors included, a run of the node
    leaves on its disk, and a turn of the publish queue leaves in the node's store and on the network
    what `FilePublish` leaves. */
module NodeRefinement {
  import opened Bytes
  import opened Keys
  import opened Domain
  import opened Chunking
  import opened FileProcessing
  import opened Node
  import opened NodeConvergence
  import Publishing

  function Repeat(e: Event, n: nat): seq<Event> {
    if n == 0 then [] else [e] + Repeat(e, n - 1)
  }

  // ----- restoring -----

  /** The state in which a task has put some pieces together. */
  function Appended(s: State, tid: nat, m: FileMetadata, pieces: seq<Bytes>): State
    requires tid in s.mem.tasks
  {
    SetPhase(SetFiles(s, s.disk.files[PartFile(m) := Flat(pieces)]), tid, Writing(m, pieces))
  }

  lemma AppendOne(w: World, s: State, tid: nat, m: FileMetadata, pieces: seq<Bytes>)
    requires tid in s.mem.tasks && |pieces| < m.totalChunks && ChunkFile(m, |pieces|) in s.disk.files
    ensures
      var t, e := Appended(s, tid, m, pieces), AppendChunk(tid, true);
      CanFinish(w, t, e) && DoFinish(w, t, e) == Appended(s, tid, m, pieces + [s.disk.files[ChunkFile(m, |pieces|)]])
  {
    FlatSnoc(pieces, s.disk.files[ChunkFile(m, |pieces|)]);
  }

  lemma {:induction false} AppendsRun(w: World, s: State, tid: nat, m: FileMetadata, n: nat)
    requires tid in s.mem.tasks && n <= m.totalChunks
    requires forall i :: 0 <= i < n ==> ChunkFile(m, i) in s.disk.files
    ensures
      var begun, es := Appended(s, tid, m, []), Repeat(OfFinish(AppendChunk(tid, true)), n);
      && Possible(w, begun, es)
      && Run(w, begun, es) == Appended(s, tid, m, ChunkContents(s.disk.files, m, n))
    decreases n
  {
    if n > 0 {
      var e := OfFinish(AppendChunk(tid, true));
      var parts := ChunkContents(s.disk.files, m, n - 1);
      AppendsRun(w, s, tid, m, n - 1);
      AppendOne(w, s, tid, m, parts);
      assert parts + [s.disk.files[ChunkFile(m, n - 1)]] == ChunkContents(s.disk.files, m, n);
      RunSnoc(w, Appended(s, tid, m, []), Repeat(e, n - 1), e);
      RepeatSnoc(e, n - 1);
    }
  }

  /** The state in which a task of restoring has come to an end, well or badly. */
  ghost predicate RestoresTo(s: State, t: State, tid: nat, files: map<Path, Bytes>, r: Result<FileMetadata, Failure>)
    requires tid in s.mem.tasks
  {
    && t.disk.files == files && t.disk.metas == s.disk.metas && t.store == s.store
    && t.mem == SetPhase(s, tid, match r case Ok(m) => Publishing(m) case Err(_) => Ended).mem
  }

  lemma RenameLast(w: World, s: State, tid: nat, m: FileMetadata, pieces: seq<Bytes>)
    requires tid in s.mem.tasks && |pieces| == m.totalChunks
    ensures
      var t, e := Appended(s, tid, m, pieces), RenamePart(tid, true);
      && CanFinish(w, t, e)
      && RestoresTo(s, DoFinish(w, t, e), tid, (s.disk.files - {PartFile(m)})[Destination(m) := Flat(pieces)], Ok(m))
  {
    var t := Appended(s, tid, m, pieces);
    assert t.disk.files - {PartFile(m)} == s.disk.files - {PartFile(m)};
    assert t.mem.tasks[tid := Task(s.mem.tasks[tid].record, Publishing(m))] ==
      SetPhase(s, tid, Publishing(m)).mem.tasks;
  }

  lemma FailLast(w: World, s: State, tid: nat, m: FileMetadata, pieces: seq<Bytes>) returns (e: FinishEvent)
    requires tid in s.mem.tasks && |pieces| <= m.totalChunks
    ensures
      var t := Appended(s, tid, m, pieces);
      && CanFinish(w, t, e)
      && RestoresTo(s, DoFinish(w, t, e), tid, s.disk.files[PartFile(m) := Flat(pieces)], Err(Io))
  {
    e := if |pieces| < m.totalChunks then AppendChunk(tid, false) else RenamePart(tid, false);
    var t := Appended(s, tid, m, pieces);
    assert t.mem.tasks[tid := Task(s.mem.tasks[tid].record, Ended)] == SetPhase(s, tid, Ended).mem.tasks;
  }

  /** Opening the temporary file, appending `n` chunks, and one more event. */
  lemma RestoreRun(w: World, s: State, tid: nat, m: FileMetadata, n: nat, last: FinishEvent) returns (es: seq<Event>)
    requires CanOpenPart(s, tid, true) && m == s.disk.metas[s.mem.tasks[tid].record.chunksDir].metadata
    requires Destination(m) !in s.disk.files && n <= m.totalChunks
    requires forall i :: 0 <= i < n ==> ChunkFile(m, i) in s.disk.files
    requires CanFinish(w, Appended(s, tid, m, ChunkContents(s.disk.files, m, n)), last)
    ensures Possible(w, s, es)
    ensures Run(w, s, es) == DoFinish(w, Appended(s, tid, m, ChunkContents(s.disk.files, m, n)), last)
  {
    var first, appends := OfFinish(OpenPart(tid, true)), Repeat(OfFinish(AppendChunk(tid, true)), n);
    assert Step(w, s, first) == Appended(s, tid, m, []);
    AppendsRun(w, s, tid, m, n);
    RunSnoc(w, Appended(s, tid, m, []), appends, OfFinish(last));
    RunCons(w, s, first, appends + [OfFinish(last)]);
    es := [first] + (appends + [OfFinish(last)]);
  }

  lemma RunOne(w: World, s: State, e: Event)
    requires Enabled(w, s, e)
    ensures Possible(w, s, [e]) && Run(w, s, [e]) == Step(w, s, e)
  {
    RunCons(w, s, e, []);
    assert [e] + [] == [e];
  }

  /** Every outcome of restoring is the outcome of a run of the node's steps. */
  lemma RestoringRefines(w: World, s: State, tid: nat, files: map<Path, Bytes>, r: Result<FileMetadata, Failure>)
    returns (es: seq<Event>)
    requires tid in s.mem.tasks && s.mem.tasks[tid].phase.Completing?
    requires RestoreOutcome(s.disk.metas, s.mem.tasks[tid].record.chunksDir, s.disk.files, files, r)
    ensures Possible(w, s, es) && RestoresTo(s, Run(w, s, es), tid, files, r)
  {
    var d := s.mem.tasks[tid].record.chunksDir;
    if r.Err? && files == s.disk.files {
      es := [OfFinish(OpenPart(tid, false))];
      RunOne(w, s, OfFinish(OpenPart(tid, false)));
    } else {
      var m := s.disk.metas[d].metadata;
      if r.Ok? && Destination(m) in s.disk.files {
        es := [OfFinish(OpenPart(tid, true))];
        RunOne(w, s, OfFinish(OpenPart(tid, true)));
      } else if r.Ok? {
        RenameLast(w, s, tid, m, ChunkContents(s.disk.files, m, m.totalChunks));
        es := RestoreRun(w, s, tid, m, m.totalChunks, RenamePart(tid, true));
      } else {
        var n: nat :| PartlyRestored(s.disk.files, files, m, n);
        var last := FailLast(w, s, tid, m, ChunkContents(s.disk.files, m, n));
        es := RestoreRun(w, s, tid, m, n, last);
      }
    }
  }

  // ----- splitting -----

  lemma {:induction false} ChunksRun(w: World, s: State, sid: nat, d: Dir, next: nat)
    requires sid in s.mem.sessions && s.mem.sessions[sid] == Splitting(d, 0) && d in w.contents
      && next <= |w.contents[d]|
    ensures
      var es := Repeat(OfRequest(PublishChunk(sid)), next);
      && Possible(w, s, es)
      && Run(w, s, es) ==
           SetSession(SetFiles(s, WithChunks(s.disk.files, d, w.contents[d][..next])), sid, Splitting(d, next))
    decreases next
  {
    if next == 0 {
      assert s.mem.sessions[sid := s.mem.sessions[sid]] == s.mem.sessions;
    } else {
      var e := OfRequest(PublishChunk(sid));
      ChunksRun(w, s, sid, d, next - 1);
      WithChunksSnoc(s.disk.files, d, w.contents[d][..next - 1], w.contents[d][next - 1]);
      assert w.contents[d][..next - 1] + [w.contents[d][next - 1]] == w.contents[d][..next];
      RunSnoc(w, s, Repeat(e, next - 1), e);
      RepeatSnoc(e, next - 1);
    }
  }

  lemma {:induction false} RepeatSnoc(e: Event, n: nat)
    ensures Repeat(e, n) + [e] == Repeat(e, n + 1)
  {
    if n > 0 { RepeatSnoc(e, n - 1); }
  }

  function SaveEvents(sid: nat, written: bool): seq<Event> {
    [OfRequest(PublishSave(sid))] + [OfRequest(SaveDone(sid, written))]
  }

  lemma SaveRun(w: World, s: State, sid: nat, d: Dir, written: bool)
    requires d in w.contents && d in w.meta && sid in s.mem.sessions
      && s.mem.sessions[sid] == Splitting(d, |w.contents[d]|)
    ensures
      && Possible(w, s, SaveEvents(sid, written))
      && Run(w, s, SaveEvents(sid, written)) ==
           SetSession(SetMeta(s, d, MetaAfter(w, d, written)), sid, Described(d, true))
  {
    var t := Step(w, s, OfRequest(PublishSave(sid)));
    RunSnoc(w, t, [], OfRequest(SaveDone(sid, written)));
    assert [] + [OfRequest(SaveDone(sid, written))] == [OfRequest(SaveDone(sid, written))];
    RunCons(w, s, OfRequest(PublishSave(sid)), [OfRequest(SaveDone(sid, written))]);
  }

  /** The state in which a request to publish has gone as far as `ProcessFile` goes. */
  ghost predicate ProcessesTo(
    s: State, t: State, sid: nat, d: Dir, metas: map<Dir, MetaFile>, files: map<Path, Bytes>,
    r: Result<FileMetadata, Failure>)
  {
    && t.disk == s.disk.(metas := metas, files := files) && t.store == s.store
    && t.mem.sessions == if r.Ok? then s.mem.sessions[sid := Described(d, true)] else s.mem.sessions - {sid}
  }

  lemma ProcessWell(w: World, s: State, sid: nat, d: Dir, written: bool) returns (es: seq<Event>)
    requires sid in s.mem.sessions && s.mem.sessions[sid] == Splitting(d, 0) && d in w.contents && d in w.meta
    ensures Possible(w, s, es)
    ensures ProcessesTo(s, Run(w, s, es), sid, d, s.disk.metas[d := MetaAfter(w, d, written)],
                        WithChunks(s.disk.files, d, w.contents[d]), Ok(w.meta[d]))
  {
    var chunks := Repeat(OfRequest(PublishChunk(sid)), |w.contents[d]|);
    ChunksRun(w, s, sid, d, |w.contents[d]|);
    assert w.contents[d][..|w.contents[d]|] == w.contents[d];
    SaveRun(w, Run(w, s, chunks), sid, d, written);
    RunAppend(w, s, chunks, SaveEvents(sid, written));
    es := chunks + SaveEvents(sid, written);
  }

  lemma ProcessFailsEarly(w: World, s: State, sid: nat, d: Dir, n: nat) returns (es: seq<Event>)
    requires sid in s.mem.sessions && s.mem.sessions[sid] == Splitting(d, 0) && d in w.contents && n <= |w.contents[d]|
    ensures Possible(w, s, es)
    ensures ProcessesTo(s, Run(w, s, es), sid, d, s.disk.metas, WithChunks(s.disk.files, d, w.contents[d][..n]),
      Err(Io))
  {
    var chunks, fail := Repeat(OfRequest(PublishChunk(sid)), n), OfRequest(RequestFails(sid));
    ChunksRun(w, s, sid, d, n);
    RunSnoc(w, s, chunks, fail);
    FailedSession(s, sid, Splitting(d, n));
    es := chunks + [fail];
  }

  lemma ProcessFailsTorn(w: World, s: State, sid: nat, d: Dir) returns (es: seq<Event>)
    requires sid in s.mem.sessions && s.mem.sessions[sid] == Splitting(d, 0) && d in w.contents
    ensures Possible(w, s, es)
    ensures ProcessesTo(s, Run(w, s, es), sid, d, s.disk.metas[d := Torn],
      WithChunks(s.disk.files, d, w.contents[d]), Err(Io))
  {
    var n := |w.contents[d]|;
    var chunks, save, fail := Repeat(OfRequest(PublishChunk(sid)), n), OfRequest(PublishSave(sid)),
      OfRequest(RequestFails(sid));
    ChunksRun(w, s, sid, d, n);
    assert w.contents[d][..n] == w.contents[d];
    RunSnoc(w, s, chunks, save);
    RunSnoc(w, s, chunks + [save], fail);
    FailedSession(s, sid, Splitting(d, n));
    FailedSession(SetSession(s, sid, Splitting(d, n)), sid, Saving(d, true));
    es := chunks + [save] + [fail];
  }

  /** Every outcome of processing a file is the outcome of a run of the node's steps. */
  lemma ProcessingRefines(
    w: World, s: State, sid: nat, d: Dir, h: Hash, size: nat, name: string, file: Bytes, public: bool,
    metas: map<Dir, MetaFile>, files: map<Path, Bytes>, r: Result<FileMetadata, Failure>) returns (es: seq<Event>)
    requires sid in s.mem.sessions && s.mem.sessions[sid] == Splitting(d, 0) && d in w.contents && d in w.meta
    requires size > 0 && w.contents[d] == Chunks(file, size)
      && (file != [] ==> w.meta[d] == Describe(h, size, name, d, file, public))
    requires ProcessOutcome(h, size, name, d, file, public, s.disk.metas, s.disk.files, metas, files, r)
    ensures Possible(w, s, es) && ProcessesTo(s, Run(w, s, es), sid, d, metas, files, r)
  {
    if r.Ok? {
      es := ProcessWell(w, s, sid, d, metas == s.disk.metas[d := Saved(w.meta[d])]);
    } else if metas == s.disk.metas && SomeChunksWritten(s.disk.files, files, d, Chunks(file, size)) {
      var n: nat :| FirstWritten(s.disk.files, files, d, Chunks(file, size), n);
      es := ProcessFailsEarly(w, s, sid, d, n);
    } else {
      es := ProcessFailsTorn(w, s, sid, d);
    }
  }

  lemma FailedSession(s: State, sid: nat, session: Session)
    ensures s.mem.sessions[sid := session] - {sid} == s.mem.sessions - {sid}
  {
  }

  // ----- a turn of the publish queue -----

  /** What has been announced after the first `n` announcements. */
  function AnnouncedFirst(d: Dir, n: nat): set<Announcement> {
    if n == 0 then {}
    else AnnouncedFirst(d, n - 1) + {if n == 1 then OfMetadata(d) else OfChunk(d, n - 2)}
  }

  /** The metadata and the first `n` chunks. */
  function Announcements(d: Dir, n: nat): set<Announcement> {
    {OfMetadata(d)} + set i: nat | i < n :: OfChunk(d, i)
  }

  lemma {:induction false} AnnouncedAll(d: Dir, n: nat)
    ensures AnnouncedFirst(d, n + 1) == Announcements(d, n)
    decreases n
  {
    if n > 0 { AnnouncedAll(d, n - 1); }
  }

  lemma {:induction false} AnnouncementsRun(w: World, s: State, m: FileMetadata, n: nat)
    requires s.mem.worker == Announcing(m, 0) && n <= m.totalChunks + 1
    ensures
      var es := Repeat(OfQueue(AnnounceNext(true)), n);
      && Possible(w, s, es)
      && Run(w, s, es) == SetWorker(s.(announced := s.announced + AnnouncedFirst(m.chunksDir, n)),
                                    if n <= m.totalChunks then Announcing(m, n) else Recording(m))
    decreases n
  {
    if n == 0 {
      assert s.announced + {} == s.announced;
    } else {
      var e := OfQueue(AnnounceNext(true));
      AnnouncementsRun(w, s, m, n - 1);
      RunSnoc(w, s, Repeat(e, n - 1), e);
      RepeatSnoc(e, n - 1);
      var t := Run(w, s, Repeat(e, n - 1));
      assert Step(w, t, e).announced == s.announced + AnnouncedFirst(m.chunksDir, n);
    }
  }

  /** A map of the node's store as the store of `Publishing` holds it. */
  function Stored<V>(records: map<Key, V>): map<Key, Publishing.Value<V>> {
    map k | k in records :: Publishing.Decodable(records[k])
  }

  /** The key under which something is announced to the network. */
  function RecordKeyOf(w: World, a: Announcement): Publishing.RecordKey
    requires a.dir in w.meta
  {
    match a
    case OfMetadata(d) => Publishing.MetadataRecord(KeyAt(w, d))
    case OfChunk(d, i) => Publishing.ChunkRecord(IdOf(KeyAt(w, d)), i)
  }

  function RecordKeys(w: World, announced: set<Announcement>): set<Publishing.RecordKey> {
    set a | a in announced && a.dir in w.meta :: RecordKeyOf(w, a)
  }

  lemma AnnouncementsAreKeys(w: World, announced: set<Announcement>, d: Dir, n: nat)
    requires d in w.meta
    ensures
      RecordKeys(w, announced + Announcements(d, n))
      == RecordKeys(w, announced) + Publishing.KeysUpTo(w.keyHash, w.meta[d], n)
  {
    var m := w.meta[d];
    var all := announced + Announcements(d, n);
    forall r | r in Publishing.KeysUpTo(w.keyHash, m, n)
      ensures r in RecordKeys(w, all)
    {
      var a := if r.MetadataRecord? then OfMetadata(d) else OfChunk(d, r.chunkId);
      assert a in all && RecordKeyOf(w, a) == r;
    }
    forall r | r in RecordKeys(w, announced)
      ensures r in RecordKeys(w, all)
    {
      var a :| a in announced && a.dir in w.meta && RecordKeyOf(w, a) == r;
      assert a in all;
    }
  }

  lemma TurnIsAfterTurn(jobs: map<Key, FileMetadata>, key: Key)
    requires First(key, jobs.Keys)
    ensures Stored(jobs - {key}) == Publishing.AfterTurn(Stored(jobs))
  {
    assert Stored(jobs).Keys == jobs.Keys;
    Publishing.FirstUnique(key, Publishing.FirstOf(jobs.Keys), jobs.Keys);
    assert Stored(jobs - {key}) == Stored(jobs) - {key};
  }

  /** Whenever there is a job and the worker is idle, a turn of the queue can be taken, and then the
      announcements and the store are what `FilePublish` makes of them. */
  lemma QueueTurnRefines(w: World, s: State, key: Key) returns (es: seq<Event>)
    requires CanTakeJob(s, key) && MetadataKey(w.keyHash, s.store.jobs[key]) == key
    requires s.store.jobs[key].chunksDir in w.meta && w.meta[s.store.jobs[key].chunksDir] == s.store.jobs[key]
    ensures Possible(w, s, es)
    ensures
      var m, t := s.store.jobs[key], Run(w, s, es);
      && RecordKeys(w, t.announced) == RecordKeys(w, s.announced) + Publishing.AllKeys(w.keyHash, m)
      && Stored(t.store.published) ==
           Stored(s.store.published)[key := Publishing.Decodable(PublishedRecord(w.keyHash, m))]
      && Stored(t.store.jobs) == Publishing.AfterTurn(Stored(s.store.jobs))
      && t.store.pending == s.store.pending && t.mem.worker.Idle? && t.disk == s.disk
  {
    var m := s.store.jobs[key];
    var t;
    es, t := TurnRun(w, s, key);
    AnnouncementsAreKeys(w, s.announced, m.chunksDir, m.totalChunks);
    TurnIsAfterTurn(s.store.jobs, key);
    assert Stored(t.store.published) ==
      Stored(s.store.published)[key := Publishing.Decodable(PublishedRecord(w.keyHash, m))];
  }

  /** An attempt at announcing a job that fails behind its first `n` chunks begins anew, and leaves on the
      network what `ProvideAll` leaves there then. */
  lemma FailedAttemptRefines(w: World, s: State, m: FileMetadata, n: nat) returns (es: seq<Event>)
    requires s.mem.worker == Announcing(m, 0) && n < m.totalChunks
    requires m.chunksDir in w.meta && w.meta[m.chunksDir] == m
    ensures Possible(w, s, es)
    ensures
      var t := Run(w, s, es);
      && t == s.(announced := t.announced)
      && RecordKeys(w, t.announced) == RecordKeys(w, s.announced) + Publishing.KeysUpTo(w.keyHash, m, n)
  {
    var some, fails := Repeat(OfQueue(AnnounceNext(true)), n + 1), OfQueue(AnnounceNext(false));
    AnnouncementsRun(w, s, m, n + 1);
    AnnouncedAll(m.chunksDir, n);
    RunSnoc(w, s, some, fails);
    AnnouncementsAreKeys(w, s.announced, m.chunksDir, n);
    es := some + [fails];
  }

  lemma {:induction false} AgainRuns(w: World, s: State, key: Key, n: nat) returns (es: seq<Event>)
    requires CanReannounce(s, key, n)
    ensures Possible(w, s, es)
    ensures Run(w, s, es) == s.(announced := s.announced + Announcements(s.store.published[key].chunksDir, n))
    decreases n
  {
    var before, last: seq<Event>, e := s, [], OfQueue(Reannounce(key, n));
    if n > 0 {
      last := AgainRuns(w, s, key, n - 1);
      before := Run(w, s, last);
    }
    RunSnoc(w, s, last, e);
    es := last + [e];
    var d := s.store.published[key].chunksDir;
    assert Step(w, before, e).announced == s.announced + Announcements(d, n);
  }

  /** A start-up that fails at a published file behind its first `n` chunks leaves there what `ProvideAll`
      leaves. */
  lemma FailedStartUpRefines(w: World, s: State, key: Key, n: nat) returns (es: seq<Event>)
    requires CanReannounce(s, key, n)
    requires
      var d := s.store.published[key].chunksDir;
      d in w.meta && s.disk.metas[d].metadata == w.meta[d]
    ensures Possible(w, s, es)
    ensures
      var m, t := w.meta[s.store.published[key].chunksDir], Run(w, s, es);
      && t == s.(announced := t.announced)
      && RecordKeys(w, t.announced) == RecordKeys(w, s.announced) + Publishing.KeysUpTo(w.keyHash, m, n)
  {
    es := AgainRuns(w, s, key, n);
    AnnouncementsAreKeys(w, s.announced, s.store.published[key].chunksDir, n);
  }

  lemma TurnRun(w: World, s: State, key: Key) returns (es: seq<Event>, t: State)
    requires CanTakeJob(s, key) && MetadataKey(w.keyHash, s.store.jobs[key]) == key
    ensures Possible(w, s, es) && t == Run(w, s, es)
    ensures
      var m := s.store.jobs[key];
      && t.announced == s.announced + Announcements(m.chunksDir, m.totalChunks)
      && t.store ==
           s.store.(published := s.store.published[key := PublishedRecord(w.keyHash, m)], jobs := s.store.jobs - {key})
      && t.mem.worker.Idle? && t.disk == s.disk
  {
    var m := s.store.jobs[key];
    var take, all := OfQueue(TakeJob(key)), Repeat(OfQueue(AnnounceNext(true)), m.totalChunks + 1);
    var record, clear := OfQueue(RecordPublished(true)), OfQueue(ClearJob(true));
    var taken := Step(w, s, take);
    AnnouncementsRun(w, taken, m, m.totalChunks + 1);
    AnnouncedAll(m.chunksDir, m.totalChunks);
    RunSnoc(w, taken, all, record);
    RunSnoc(w, taken, all + [record], clear);
    RunCons(w, s, take, all + [record] + [clear]);
    es := [take] + (all + [record] + [clear]);
    t := Run(w, s, es);
  }
}
