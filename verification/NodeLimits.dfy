/** Two rules that the program leaves to its users, and what becomes of a node that breaks them: files
    whose temporary files have other files' names, and directories that are used again. */
module NodeLimits {
  import opened Bytes
  import opened Keys
  import opened Domain
  import opened Node
  import opened NodeInvariant
  import opened NodeSafety
  import opened NodeConvergence
  import opened NodeRefinement
  import opened NodeSaves
  import Publishing

  // ----- names of temporary files -----

  lemma PartIsNotOwn(m: FileMetadata)
    ensures PartFile(m) != Destination(m)
  {
    assert |m.originalFileName + ".part"| == |m.originalFileName| + 5;
  }

  /** Beginning to restore a file keeps restoring all-or-nothing exactly if no other file is to be
      restored where this one is put together. */
  lemma PartNeedsItsOwnName(w: World, s: State, tid: nat)
    requires DiskInv(w, s.disk) && CanOpenPart(s, tid, true)
    requires Destination(s.disk.metas[s.mem.tasks[tid].record.chunksDir].metadata) !in s.disk.files
    requires forall e :: e in s.disk.pieces ==> Flat(s.disk.pieces[e]) != []
    ensures
      var m := s.disk.metas[s.mem.tasks[tid].record.chunksDir].metadata;
      AllOrNothing(w, DoOpenPart(s, tid, true).disk) <==> forall e :: e in w.meta ==>
        Destination(w.meta[e]) != PartFile(m)
  {
    var m := s.disk.metas[s.mem.tasks[tid].record.chunksDir].metadata;
    var after := DoOpenPart(s, tid, true).disk;
    PartIsNotOwn(m);
    if e :| e in w.meta && Destination(w.meta[e]) == PartFile(m) {
      assert !Complete(w, after, e);
    } else {
      forall e | e in w.meta && Destination(w.meta[e]) in after.files
        ensures Complete(w, after, e)
      {
        assert Complete(w, s.disk, e);
      }
    }
  }

  // ----- directories used again: interrupted saves -----

  /** What is left when the node crashes while a request is saving metadata in the directory. */
  function Interrupted(w: World, s: State, d: Dir): State {
    SetMeta(s, d, Torn).(mem := FreshMemory(w))
  }

  /** Publishing a file again asks nothing of the directory: from the moment it begins, its own steps
      lead there. */
  lemma RepublishInterrupted(w: World, s: State, sid: nat, d: Dir) returns (es: seq<Event>)
    requires d in w.meta && d in w.contents
    ensures Possible(w, DoPublishStart(w, s, sid, d), es)
    ensures
      var t := Run(w, DoPublishStart(w, s, sid, d), es);
      && t == Interrupted(w, t, d) && t.store == s.store
      && t.disk.metas == s.disk.metas[d := Torn] && t.disk.claimed == s.disk.claimed
  {
    var begun := DoPublishStart(w, s, sid, d);
    var chunks, save := Repeat(OfRequest(PublishChunk(sid)), |w.contents[d]|), OfRequest(PublishSave(sid));
    ChunksRun(w, begun, sid, d, |w.contents[d]|);
    RunSnoc(w, begun, chunks, save);
    RunSnoc(w, begun, chunks + [save], Crash);
    es := chunks + [save] + [Crash];
  }

  lemma UnreferredInv(w: World, s: State, d: Dir)
    requires Inv(w, s) && d in w.meta && !Referred(s.store, d)
    ensures Inv(w, Forget(Interrupted(w, s, d), d))
  {
    var t := Forget(Interrupted(w, s, d), d);
    forall k | k in t.store.pending
      ensures t.store.pending[k].key == k && RecordOk(w, t.disk, t.store.pending[k])
    {
      assert RecordOk(w, s.disk, s.store.pending[k]) && s.store.pending[k].chunksDir != d;
      SameChunks(w, s.disk, t.disk);
    }
    forall k | k in t.store.published
      ensures t.store.published[k].key == k && PublishedOk(w, t.disk, t.store.published[k])
    {
      assert PublishedOk(w, s.disk, s.store.published[k]) && s.store.published[k].chunksDir != d;
      SameChunks(w, s.disk, t.disk);
    }
    forall k | k in t.store.jobs
      ensures MetadataKey(w.keyHash, t.store.jobs[k]) == k && JobOk(w, t.disk, t.store.jobs[k])
    {
      assert JobOk(w, s.disk, s.store.jobs[k]) && s.store.jobs[k].chunksDir != d;
      SameChunks(w, s.disk, t.disk);
    }
    SameChunks(w, s.disk, t.disk);
  }

  lemma SameChunks(w: World, a: Disk, b: Disk)
    requires a.files == b.files && a.pieces == b.pieces
    ensures forall d, i :: ChunkOk(w, a, d, i) <==> ChunkOk(w, b, d, i)
    ensures forall d :: Complete(w, a, d) <==> Complete(w, b, d)
  {
  }

  /** In no state of the run does a record lack its metadata, unless because a failure to save it was not
      noticed. */
  ghost predicate NotStrandedAfter(w: World, s: State, es: seq<Event>, d: Dir) {
    Possible(w, s, es) && AllNoticed(w, s, es, d) ==> !Stranded(Run(w, s, es), d)
  }

  /** A crash while metadata is being saved in a directory never leaves a record without its metadata,
      then or later, if and only if no record in the store referred to the directory. */
  lemma DirectoryNeedsToBeFresh(w: World, s: State, d: Dir)
    requires WellFormed(w) && Inv(w, s) && d in w.meta
    ensures (forall es :: NotStrandedAfter(w, Forget(Interrupted(w, s, d), d), es, d)) <==> !Referred(s.store, d)
  {
    var t := Forget(Interrupted(w, s, d), d);
    if Referred(s.store, d) {
      StrandedAtOnce(w, s, d);
    } else {
      UnreferredInv(w, s, d);
      forall es
        ensures NotStrandedAfter(w, t, es, d)
      {
        NotStrandedRun(w, t, es, d);
      }
    }
  }

  lemma NotStrandedRun(w: World, t: State, es: seq<Event>, d: Dir)
    requires WellFormed(w) && Inv(w, t) && SavedAt(t, d)
    ensures NotStrandedAfter(w, t, es, d)
  {
    if Possible(w, t, es) && AllNoticed(w, t, es, d) {
      RunInv(w, t, es);
      RunSavedAt(w, t, es, d);
      if Referred(Run(w, t, es).store, d) { ReferredClaimed(w, Run(w, t, es), d); }
    }
  }

  lemma StrandedAtOnce(w: World, s: State, d: Dir)
    requires Referred(s.store, d)
    ensures !NotStrandedAfter(w, Forget(Interrupted(w, s, d), d), [], d)
  {
  }

  /** The directory of a stored record is dead after such a crash. */
  lemma InterruptedIsDead(w: World, s: State, d: Dir)
    requires Inv(w, s) && Referred(s.store, d)
    ensures Dead(Interrupted(w, s, d), d)
  {
    ReferredClaimed(w, s, d);
  }

  /** The node does not start any more: if announcing did not fail before, it fails at the restart after
      such a crash if and only if a published record refers to the directory, and then at every
      restart as long as it does. */
  lemma RestartFailsExactly(w: World, s: State, d: Dir, es: seq<Event>)
    requires WellFormed(w) && Inv(w, s) && !AnnouncingFails(s) && d in w.meta && Possible(w, Interrupted(w, s, d), es)
    ensures AnnouncingFails(Interrupted(w, s, d)) <==>
      exists k :: k in s.store.published && s.store.published[k].chunksDir == d
    ensures
      var t := Run(w, Interrupted(w, s, d), es);
      Referred(s.store, d) && (exists k :: k in t.store.published && t.store.published[k].chunksDir == d) ==>
        AnnouncingFails(t)
  {
    var t := Interrupted(w, s, d);
    forall k
      ensures
        Publishing.Broken(Stored(t.store.published), MetasOf(t.disk), k) <==>
        k in s.store.published && s.store.published[k].chunksDir == d
    {
      BrokenAfter(w, s, d, k);
    }
    if Referred(s.store, d) {
      InterruptedIsDead(w, s, d);
      DeadForEver(w, t, es, d);
      forall k { BrokenIsTorn(Run(w, t, es), k); }
    }
  }

  lemma BrokenAfter(w: World, s: State, d: Dir, k: Key)
    requires Inv(w, s) && !AnnouncingFails(s)
    ensures
      Publishing.Broken(Stored(Interrupted(w, s, d).store.published), MetasOf(Interrupted(w, s, d).disk), k) <==>
      k in s.store.published && s.store.published[k].chunksDir == d
  {
    BrokenIsTorn(s, k);
    BrokenIsTorn(Interrupted(w, s, d), k);
    if k in s.store.published { assert PublishedOk(w, s.disk, s.store.published[k]); }
    assert !Publishing.Broken(Stored(s.store.published), MetasOf(s.disk), k);
  }

  /** Publishing a file again while it is published, and a crash at the wrong moment: the directory is
      dead, and announcing fails at the restart. */
  lemma RepublishingKills(w: World, s: State, sid: nat, k: Key) returns (es: seq<Event>)
    requires Inv(w, s) && k in s.store.published
    requires s.store.published[k].chunksDir in w.contents
    ensures
      var d := s.store.published[k].chunksDir;
      d in w.meta && Possible(w, DoPublishStart(w, s, sid, d), es)
    ensures
      var d := s.store.published[k].chunksDir;
      var t := Run(w, DoPublishStart(w, s, sid, d), es);
      Dead(t, d) && AnnouncingFails(t)
  {
    var d := s.store.published[k].chunksDir;
    assert PublishedOk(w, s.disk, s.store.published[k]);
    es := RepublishInterrupted(w, s, sid, d);
    BrokenIsTorn(Run(w, DoPublishStart(w, s, sid, d), es), k);
  }
}
