/** Two files that get one chunk directory: what the second request does to the records of the first, and
    a run in which one file's chunks are restored under the other's name. */
module NodeShared {
  import opened Bytes
  import opened Keys
  import opened Domain
  import opened Chunking
  import opened FileProcessing
  import opened Node
  import opened NodeInvariant
  import opened NodeSafety
  import opened NodeConvergence
  import opened NodeRestart
  import opened NodeRefinement
  import opened NodeStray
  import opened NodeSaves

  /** The same node, but directory `d` is for another file, with another key. */
  ghost predicate OtherFile(w: World, w': World, d: Dir) {
    && w'.verify == w.verify && w'.keyHash == w.keyHash && w'.permits == w.permits
    && d in w.meta && d in w'.meta && KeyAt(w, d) != KeyAt(w', d)
    && (forall e :: e != d ==> (e in w.meta <==> e in w'.meta) && (e in w.meta ==> w'.meta[e] == w.meta[e]))
  }

  // ----- what the saved metadata is good for -----

  /** The state in which a request has saved metadata of the other file in the directory, and the node
      has restarted; with the history of the directory as if it had not been used. */
  function Overwritten(w': World, s: State, d: Dir): State
    requires d in w'.meta
  {
    var disk := s.disk.(metas := s.disk.metas[d := Saved(w'.meta[d])],
                        claimed := s.disk.claimed - {d}, pieces := s.disk.pieces - {d});
    State(disk, s.store, FreshMemory(w'), set a | a in s.announced && a.dir != d)
  }

  /** The directory's metadata, as far as it can be read, is that of the file with the key. */
  ghost predicate DescribedAs(w: World, disk: Disk, d: Dir, key: Key) {
    Readable(disk, d) ==> MetadataKey(w.keyHash, disk.metas[d].metadata) == key
  }

  /** Every record finds metadata of its own file in its directory. */
  ghost predicate AllDescribed(w: World, s: State) {
    && (forall k :: k in s.store.pending ==> DescribedAs(w, s.disk, s.store.pending[k].chunksDir, k))
    && (forall k :: k in s.store.published ==> DescribedAs(w, s.disk, s.store.published[k].chunksDir, k))
    && (forall k :: k in s.store.jobs ==> DescribedAs(w, s.disk, s.store.jobs[k].chunksDir, k))
  }

  lemma InvDescribed(w: World, s: State)
    requires Inv(w, s)
    ensures AllDescribed(w, s)
  {
    forall k | k in s.store.pending
      ensures DescribedAs(w, s.disk, s.store.pending[k].chunksDir, k)
    {
      assert RecordOk(w, s.disk, s.store.pending[k]);
    }
    forall k | k in s.store.published
      ensures DescribedAs(w, s.disk, s.store.published[k].chunksDir, k)
    {
      assert PublishedOk(w, s.disk, s.store.published[k]);
    }
    forall k | k in s.store.jobs
      ensures DescribedAs(w, s.disk, s.store.jobs[k].chunksDir, k)
    {
      assert JobOk(w, s.disk, s.store.jobs[k]);
    }
  }

  lemma SameElsewhereOk(w: World, w': World, a: Disk, b: Disk, d: Dir, e: Dir)
    requires OtherFile(w, w', d) && e != d && b.files == a.files && b.pieces == a.pieces - {d}
    ensures forall i :: ChunkOk(w, a, e, i) ==> ChunkOk(w', b, e, i)
    ensures Complete(w, a, e) ==> Complete(w', b, e)
  {
  }

  lemma OverwrittenStore(w: World, w': World, s: State, d: Dir)
    requires OtherFile(w, w', d) && Inv(w, s) && !Referred(s.store, d)
    ensures StoreInv(w', Overwritten(w', s, d).disk, s.store)
  {
    var b := Overwritten(w', s, d).disk;
    forall k | k in s.store.pending
      ensures s.store.pending[k].key == k && RecordOk(w', b, s.store.pending[k])
    {
      assert RecordOk(w, s.disk, s.store.pending[k]);
      SameElsewhereOk(w, w', s.disk, b, d, s.store.pending[k].chunksDir);
    }
    forall k | k in s.store.published
      ensures s.store.published[k].key == k && PublishedOk(w', b, s.store.published[k])
    {
      assert PublishedOk(w, s.disk, s.store.published[k]);
      SameElsewhereOk(w, w', s.disk, b, d, s.store.published[k].chunksDir);
    }
    forall k | k in s.store.jobs
      ensures MetadataKey(w'.keyHash, s.store.jobs[k]) == k && JobOk(w', b, s.store.jobs[k])
    {
      assert JobOk(w, s.disk, s.store.jobs[k]);
      SameElsewhereOk(w, w', s.disk, b, d, s.store.jobs[k].chunksDir);
    }
  }

  lemma OverwrittenInv(w: World, w': World, s: State, d: Dir)
    requires OtherFile(w, w', d) && Inv(w, s) && !Referred(s.store, d) && Destination(w'.meta[d]) !in s.disk.files
    ensures Inv(w', Overwritten(w', s, d))
  {
    var t := Overwritten(w', s, d);
    OverwrittenStore(w, w', s, d);
    forall e | e in w'.meta && Destination(w'.meta[e]) in t.disk.files
      ensures Complete(w', t.disk, e)
    {
      assert Complete(w, s.disk, e);
      SameElsewhereOk(w, w', s.disk, t.disk, d, e);
    }
    forall e, i | OfChunk(e, i) in t.announced
      ensures ChunkOk(w', t.disk, e, i)
    {
      assert OfChunk(e, i) in s.announced;
      SameElsewhereOk(w, w', s.disk, t.disk, d, e);
    }
  }

  ghost predicate DescribedAfter(w: World, s: State, es: seq<Event>) {
    Possible(w, s, es) ==> AllDescribed(w, Run(w, s, es))
  }

  /** Saving metadata of another file in a directory leaves every record with metadata of its own file,
      then and in any run, if and only if no record in the store refers to the directory. */
  lemma OverwritingNeedsFreshDirectory(w: World, w': World, s: State, d: Dir)
    requires OtherFile(w, w', d) && WellFormed(w') && Inv(w, s) && Destination(w'.meta[d]) !in s.disk.files
    ensures (forall es :: DescribedAfter(w', Overwritten(w', s, d), es)) <==> !Referred(s.store, d)
  {
    var t := Overwritten(w', s, d);
    if Referred(s.store, d) {
      OverwrittenAtOnce(w, w', s, d);
      assert !DescribedAfter(w', t, []);
    } else {
      OverwrittenInv(w, w', s, d);
      forall es
        ensures DescribedAfter(w', t, es)
      {
        if Possible(w', t, es) {
          RunInv(w', t, es);
          InvDescribed(w', Run(w', t, es));
        }
      }
    }
  }

  lemma OverwrittenAtOnce(w: World, w': World, s: State, d: Dir)
    requires OtherFile(w, w', d) && Inv(w, s) && Referred(s.store, d)
    ensures !AllDescribed(w', Overwritten(w', s, d))
  {
    var t := Overwritten(w', s, d);
    if k :| k in s.store.pending && s.store.pending[k].chunksDir == d {
      assert RecordOk(w, s.disk, s.store.pending[k]);
      assert !DescribedAs(w', t.disk, d, k);
    } else if k :| k in s.store.published && s.store.published[k].chunksDir == d {
      assert PublishedOk(w, s.disk, s.store.published[k]);
      assert !DescribedAs(w', t.disk, d, k);
    } else if k :| k in s.store.jobs && s.store.jobs[k].chunksDir == d {
      assert JobOk(w, s.disk, s.store.jobs[k]);
      assert !DescribedAs(w', t.disk, d, k);
    }
  }

  // ----- one file's chunks under the other's name -----

  /** Two downloads that go wrong together: the second file has no more chunks than the first. */
  ghost predicate Sharing(w: World, w': World, d: Dir) {
    && OtherFile(w, w', d) && Genuine(w, d) && Genuine(w', d)
    && w.meta[d].chunkFileExtension == FILE_CHUNK_EXTENSION && w'.meta[d].chunkFileExtension == FILE_CHUNK_EXTENSION
    && w.meta[d].originalFileName != w'.meta[d].originalFileName
    && |w'.contents[d]| <= |w.contents[d]|
  }

  /** The first download has fetched its chunks and is about to restore its file. */
  ghost predicate FirstFetched(w: World, t: State, tid: nat, d: Dir)
    requires d in w.meta && d in w.contents
  {
    && tid in t.mem.tasks && t.mem.tasks[tid].phase.Completing?
    && t.mem.tasks[tid].record.chunksDir == d && t.mem.tasks[tid].record.key == KeyAt(w, d)
    && !t.mem.worker.Booting? && t.mem.sessions == map[] && t.disk.files == WithChunks(map[], d, w.contents[d])
    && t.store.published == map[] && t.store.pending.Keys == {KeyAt(w, d)}
    && t.store.pending[KeyAt(w, d)].key == KeyAt(w, d)
  }

  lemma FirstRuns(w: World, d: Dir) returns (es: seq<Event>, tid: nat)
    requires d in w.meta && Genuine(w, d) && w.meta[d].chunkFileExtension == FILE_CHUNK_EXTENSION && w.permits > 0
    ensures Possible(w, Init(w), es) && FirstFetched(w, Run(w, Init(w), es), tid, d)
  {
    var ask := AskRuns(w, Begun(w), d, true);
    var asked := Asked(w, Begun(w), d, true);
    var start, snapshot := Schedule(w, asked);
    var started := Run(w, asked, start);
    tid := StartedFor(asked.store.pending, started.mem.tasks, snapshot, KeyAt(w, d));
    var pass := PassRuns(w, started, tid, d);
    RunAppend(w, asked, start, pass);
    RunAppend(w, Begun(w), ask, start + pass);
    FromTheBeginning(w, ask + (start + pass));
    es := [BEGIN] + (ask + (start + pass));
  }

  /** The directory taken by the second request as if it were free, and its metadata saved there. */
  function Taken(w': World, t: State, d: Dir): State
    requires d in w'.meta
  {
    Asked(w', Forget(t, d), d, true)
  }

  /** The first file's key is published, but its chunks lie at the second file's destination, and nothing
      at its own. */
  ghost predicate Mixed(w: World, w': World, t: State, d: Dir)
    requires Sharing(w, w', d)
  {
    var m, m' := w.meta[d], w'.meta[d];
    && KeyAt(w, d) in t.store.published && t.store.published[KeyAt(w, d)].chunksDir == d
    && Destination(m) !in t.disk.files && Destination(m') in t.disk.files
    && t.disk.files[Destination(m')] == Flat(w.contents[d][..|w'.contents[d]|])
  }

  lemma TakenRuns(w: World, w': World, t: State, tid: nat, d: Dir) returns (es: seq<Event>)
    requires Sharing(w, w', d) && FirstFetched(w, t, tid, d)
    ensures Possible(w', Forget(t, d), es) && Run(w', Forget(t, d), es) == Taken(w', t, d)
  {
    WithChunksFiles(map[], d, w.contents[d], Destination(w'.meta[d]));
    es := AskRuns(w', Forget(t, d), d, true);
  }

  /** The first download goes on, with the second file's metadata. */
  lemma MixingRuns(w: World, w': World, t: State, tid: nat, d: Dir) returns (es: seq<Event>)
    requires Sharing(w, w', d) && FirstFetched(w, t, tid, d)
    ensures Possible(w', Taken(w', t, d), es)
    ensures
      var u := Run(w', Taken(w', t, d), es);
      && Mixed(w, w', u, d) && u.store.pending == Taken(w', t, d).store.pending
      && u.disk.metas == Taken(w', t, d).disk.metas && u.store.published.Keys == {KeyAt(w, d)}
  {
    var s, m' := Taken(w', t, d), w'.meta[d];
    var n := m'.totalChunks;
    FirstChunks(w, w', t, tid, d);
    var parts := ChunkContents(s.disk.files, m', n);
    assert parts == w.contents[d][..n];
    RenameLast(w', s, tid, m', parts);
    var restore := RestoreRun(w', s, tid, m', n, RenamePart(tid, true));
    var restored := Run(w', s, restore);
    RunSnoc(w', s, restore, OfFinish(PutPublished(tid, true)));
    es := restore + [OfFinish(PutPublished(tid, true))];
  }

  /** The chunk files of the first file serve for the second, and neither destination is there. */
  lemma FirstChunks(w: World, w': World, t: State, tid: nat, d: Dir)
    requires Sharing(w, w', d) && FirstFetched(w, t, tid, d)
    ensures
      var m' := w'.meta[d];
      && (forall i :: 0 <= i < m'.totalChunks ==>
            ChunkFile(m', i) in t.disk.files && t.disk.files[ChunkFile(m', i)] == w.contents[d][i])
      && Destination(w.meta[d]) !in t.disk.files && Destination(m') !in t.disk.files
  {
    forall i | 0 <= i < w'.meta[d].totalChunks
      ensures ChunkFile(w'.meta[d], i) in t.disk.files && t.disk.files[ChunkFile(w'.meta[d], i)] == w.contents[d][i]
    {
      WithChunksFiles(map[], d, w.contents[d], ChunkFile(w'.meta[d], i));
    }
    WithChunksFiles(map[], d, w.contents[d], Destination(w.meta[d]));
    WithChunksFiles(map[], d, w.contents[d], Destination(w'.meta[d]));
  }

  /** After a restart, the second download fetches its own chunks, but finds its destination there. */
  lemma SecondRuns(w: World, w': World, u: State, d: Dir) returns (es: seq<Event>)
    requires Sharing(w, w', d) && w.permits > 0 && Mixed(w, w', u, d) && u.store.published.Keys == {KeyAt(w, d)}
    requires forall k :: k in u.store.pending ==> u.store.pending[k].key == k
    requires KeyAt(w', d) in u.store.pending
    requires u.store.pending[KeyAt(w', d)] == PendingDownloadRecord(KeyAt(w', d), w'.meta[d].originalFileName, d, {})
    requires d in u.disk.metas && u.disk.metas[d] == Saved(w'.meta[d])
    ensures Possible(w', u, es) && Mixed(w, w', Run(w', u, es), d)
    ensures
      var v := Run(w', u, es);
      KeyAt(w', d) in v.store.published && v.store.published[KeyAt(w', d)].chunksDir == d
  {
    var down := DoStartUp(Step(w', u, Crash), {});
    var start, snapshot := Schedule(w', down);
    var started := Run(w', down, start);
    var tid := StartedFor(down.store.pending, started.mem.tasks, snapshot, KeyAt(w', d));
    var pass := PassRuns(w', started, tid, d);
    var passed := Run(w', started, pass);
    WithChunksFiles(started.disk.files, d, w'.contents[d], Destination(w.meta[d]));
    WithChunksFiles(started.disk.files, d, w'.contents[d], Destination(w'.meta[d]));
    var last := TakenForDone(w', passed, tid, d);
    RunAppend(w', started, pass, last);
    RunAppend(w', down, start, pass + last);
    RestartRuns(w', u, start + (pass + last));
    es := [Crash] + ([BEGIN] + (start + (pass + last)));
  }

  /** A crash, and start-up without skipping a file. */
  lemma RestartRuns(w: World, s: State, rest: seq<Event>)
    requires CanStartUp(Step(w, s, Crash), {}) && Possible(w, DoStartUp(Step(w, s, Crash), {}), rest)
    ensures Possible(w, s, [Crash] + ([BEGIN] + rest))
    ensures Run(w, s, [Crash] + ([BEGIN] + rest)) == Run(w, DoStartUp(Step(w, s, Crash), {}), rest)
  {
    RunCons(w, Step(w, s, Crash), BEGIN, rest);
    RunCons(w, s, Crash, [BEGIN] + rest);
  }

  lemma TakenForDone(w: World, s: State, tid: nat, d: Dir) returns (es: seq<Event>)
    requires tid in s.mem.tasks && s.mem.tasks[tid].phase.Completing? && s.mem.tasks[tid].record.chunksDir == d
    requires d in w.meta && d in s.disk.metas && s.disk.metas[d] == Saved(w.meta[d])
      && Destination(w.meta[d]) in s.disk.files
    ensures Possible(w, s, es)
    ensures
      var t, key := Run(w, s, es), s.mem.tasks[tid].record.key;
      && t.disk == s.disk && key in t.store.published && t.store.published[key].chunksDir == d
      && t.store == s.store.(published := s.store.published[key := t.store.published[key]])
  {
    RunTwo(w, s, OfFinish(OpenPart(tid, true)), OfFinish(PutPublished(tid, true)));
    es := [OfFinish(OpenPart(tid, true)), OfFinish(PutPublished(tid, true))];
  }

  /** From the beginning, with no failure: once the second request takes the directory as if it were free,
      both files get recorded as published, the first has nothing at its destination, and at that of the
      second are the first chunks of the first. */
  lemma SharedDirectoryMixes(w: World, w': World, d: Dir) returns (first: seq<Event>, second: seq<Event>)
    requires Sharing(w, w', d) && w.permits > 0
    ensures Possible(w, Init(w), first) && Possible(w', Forget(Run(w, Init(w), first), d), second)
    ensures
      var v := Run(w', Forget(Run(w, Init(w), first), d), second);
      && Mixed(w, w', v, d)
      && KeyAt(w', d) in v.store.published && v.store.published[KeyAt(w', d)].chunksDir == d
  {
    var tid;
    first, tid := FirstRuns(w, d);
    var t := Run(w, Init(w), first);
    var take := TakenRuns(w, w', t, tid, d);
    var mix := MixingRuns(w, w', t, tid, d);
    var u := Run(w', Taken(w', t, d), mix);
    var end := SecondRuns(w, w', u, d);
    RunAppend(w', Taken(w', t, d), mix, end);
    RunAppend(w', Forget(t, d), take, mix + end);
    second := take + (mix + end);
  }
}
