/** Metadata that is not there: a write that fails when the writer is dropped goes unnoticed, and the
    request goes on to store its record. What is then lost, exactly, and that nothing is lost in runs
    without such a failure. */
module NodeSaves {
  import opened Keys
  import opened Domain
  import opened Node
  import opened NodeInvariant
  import opened NodeSafety
  import opened NodeRecovery
  import opened NodeConvergence
  import opened NodeRestart
  import opened NodeRefinement
  import Publishing

  /** Some record in the store refers to the directory. */
  ghost predicate Referred(store: Store, d: Dir) {
    || (exists k :: k in store.pending && store.pending[k].chunksDir == d)
    || (exists k :: k in store.published && store.published[k].chunksDir == d)
    || (exists k :: k in store.jobs && store.jobs[k].chunksDir == d)
  }

  /** A record refers to the directory, and its metadata cannot be read. */
  ghost predicate Stranded(s: State, d: Dir) {
    Referred(s.store, d) && !Readable(s.disk, d)
  }

  /** The history of the node without the directory, so that requests may use it again. */
  function Forget(s: State, d: Dir): State {
    s.(disk := s.disk.(claimed := s.disk.claimed - {d}))
  }

  // ----- runs without unnoticed failures -----

  /** Metadata of the directory is being saved, the last write fails, and nobody notices. */
  predicate Unnoticed(s: State, e: Event, d: Dir) {
    && e.OfRequest? && e.request.SaveDone? && !e.request.written
    && e.request.sid in s.mem.sessions && s.mem.sessions[e.request.sid].Saving?
    && s.mem.sessions[e.request.sid].dir == d
  }

  /** Where a record refers to the directory or is about to, its metadata can be read. */
  ghost predicate SavedAt(s: State, d: Dir) {
    && (d in s.disk.claimed ==> Readable(s.disk, d))
    && forall i :: i in s.mem.sessions && s.mem.sessions[i].Described? && s.mem.sessions[i].dir == d ==>
         Readable(s.disk, d)
  }

  lemma SaveDoneSavedAt(w: World, s: State, sid: nat, written: bool, d: Dir)
    requires Inv(w, s) && SavedAt(s, d) && CanSaveDone(w, s, sid) && (s.mem.sessions[sid].dir == d ==> written)
    ensures SavedAt(DoSaveDone(w, s, sid, written), d)
  {
    assert SessionOk(w, s.disk, s.mem.sessions[sid]);
  }

  lemma PublishSaveSavedAt(w: World, s: State, sid: nat, d: Dir)
    requires Inv(w, s) && SavedAt(s, d) && CanPublishSave(w, s, sid)
    ensures SavedAt(DoPublishSave(s, sid), d)
  {
    assert SessionOk(w, s.disk, s.mem.sessions[sid]);
  }

  lemma RequestSavedAt(w: World, s: State, e: RequestEvent, d: Dir)
    requires Inv(w, s) && SavedAt(s, d) && CanRequest(w, s, e) && !Unnoticed(s, OfRequest(e), d)
    ensures SavedAt(DoRequest(w, s, e), d)
  {
    match e
    case SaveDone(sid, written) => SaveDoneSavedAt(w, s, sid, written, d);
    case PublishSave(sid) => PublishSaveSavedAt(w, s, sid, d);
    case _ => OtherSavedAt(w, s, e, d);
  }

  lemma OtherSavedAt(w: World, s: State, e: RequestEvent, d: Dir)
    requires SavedAt(s, d) && CanRequest(w, s, e) && !e.SaveDone? && !e.PublishSave?
    ensures SavedAt(DoRequest(w, s, e), d)
  {
  }

  lemma QueueSavedAt(w: World, s: State, e: QueueEvent, d: Dir)
    requires SavedAt(s, d) && CanQueue(w, s, e)
    ensures SavedAt(DoQueue(w, s, e), d)
  {
  }

  lemma PassSavedAt(w: World, s: State, e: PassEvent, d: Dir)
    requires SavedAt(s, d) && CanPass(w, s, e)
    ensures SavedAt(DoPass(w, s, e), d)
  {
  }

  lemma FinishSavedAt(w: World, s: State, e: FinishEvent, d: Dir)
    requires SavedAt(s, d) && CanFinish(w, s, e)
    ensures SavedAt(DoFinish(w, s, e), d)
  {
  }

  lemma StepSavedAt(w: World, s: State, e: Event, d: Dir)
    requires Inv(w, s) && SavedAt(s, d) && Enabled(w, s, e) && !Unnoticed(s, e, d)
    ensures SavedAt(Step(w, s, e), d)
  {
    match e
    case Crash =>
    case OfRequest(r) => RequestSavedAt(w, s, r, d);
    case OfQueue(q) => QueueSavedAt(w, s, q, d);
    case OfPass(p) => PassSavedAt(w, s, p, d);
    case OfFinish(f) => FinishSavedAt(w, s, f, d);
  }

  /** Every failure to save metadata of the directory is noticed. */
  ghost predicate AllNoticed(w: World, s: State, es: seq<Event>, d: Dir)
    requires Possible(w, s, es)
    decreases |es|
  {
    es == [] || (!Unnoticed(s, es[0], d) && AllNoticed(w, Step(w, s, es[0]), es[1..], d))
  }

  lemma {:induction false} RunSavedAt(w: World, s: State, es: seq<Event>, d: Dir)
    requires WellFormed(w) && Inv(w, s) && SavedAt(s, d) && Possible(w, s, es) && AllNoticed(w, s, es, d)
    ensures SavedAt(Run(w, s, es), d)
    decreases |es|
  {
    if es != [] {
      StepInv(w, s, es[0]);
      StepSavedAt(w, s, es[0], d);
      RunSavedAt(w, Step(w, s, es[0]), es[1..], d);
    }
  }

  lemma ReferredClaimed(w: World, s: State, d: Dir)
    requires Inv(w, s) && Referred(s.store, d)
    ensures d in s.disk.claimed && d in s.disk.metas && d in w.meta
  {
    if k :| k in s.store.pending && s.store.pending[k].chunksDir == d {
      assert RecordOk(w, s.disk, s.store.pending[k]);
    } else if k :| k in s.store.published && s.store.published[k].chunksDir == d {
      assert PublishedOk(w, s.disk, s.store.published[k]);
    } else if k :| k in s.store.jobs && s.store.jobs[k].chunksDir == d {
      assert JobOk(w, s.disk, s.store.jobs[k]);
    }
  }

  /** In every state of a run from the beginning in which all failures to save are noticed, every record
      has its metadata: every pending download can be finished, and announcing again works. */
  lemma NoticedLosesNothing(w: World, es: seq<Event>)
    requires WellFormed(w) && Possible(w, Init(w), es) && forall d :: AllNoticed(w, Init(w), es, d)
    ensures
      var t := Run(w, Init(w), es);
      (forall d :: !Stranded(t, d)) && Unreadable(t) == map[] && !AnnouncingFails(t)
  {
    var t := Run(w, Init(w), es);
    InitInv(w);
    RunInv(w, Init(w), es);
    forall d
      ensures !Stranded(t, d)
    {
      RunSavedAt(w, Init(w), es, d);
      if Referred(t.store, d) { ReferredClaimed(w, t, d); }
    }
    forall k | k in t.store.pending
      ensures Readable(t.disk, t.store.pending[k].chunksDir)
    {
      assert !Stranded(t, t.store.pending[k].chunksDir);
    }
    AnnouncingFailsExactly(w, t);
    forall k | k in t.store.published
      ensures Readable(t.disk, t.store.published[k].chunksDir)
    {
      assert !Stranded(t, t.store.published[k].chunksDir);
    }
  }

  // ----- metadata that is being saved -----

  /** The metadata that requests are saving is torn. */
  ghost predicate SavesTorn(s: State) {
    forall i :: i in s.mem.sessions && s.mem.sessions[i].Saving? ==>
      s.mem.sessions[i].dir in s.disk.metas && s.disk.metas[s.mem.sessions[i].dir].Torn?
  }

  lemma RequestSavesTorn(w: World, s: State, e: RequestEvent)
    requires SessionsInv(w, s.disk, s.mem.sessions) && CanRequest(w, s, e) && SavesTorn(s)
    ensures SavesTorn(DoRequest(w, s, e))
  {
  }

  lemma FinishKeepsRequests(w: World, s: State, e: FinishEvent)
    requires CanFinish(w, s, e)
    ensures DoFinish(w, s, e).disk.metas == s.disk.metas && DoFinish(w, s, e).mem.sessions == s.mem.sessions
  {
  }

  lemma QueueKeepsRequests(w: World, s: State, e: QueueEvent)
    requires CanQueue(w, s, e)
    ensures DoQueue(w, s, e).disk == s.disk && DoQueue(w, s, e).mem.sessions == s.mem.sessions
  {
  }

  lemma StepSavesTorn(w: World, s: State, e: Event)
    requires SessionsInv(w, s.disk, s.mem.sessions) && Enabled(w, s, e) && SavesTorn(s)
    ensures SavesTorn(Step(w, s, e))
  {
    match e
    case Crash =>
    case OfRequest(r) => RequestSavesTorn(w, s, r);
    case OfQueue(q) => QueueKeepsRequests(w, s, q);
    case OfPass(p) => PassKeepsRequests(w, s, p);
    case OfFinish(f) => FinishKeepsRequests(w, s, f);
  }

  /** Over every run: wherever a node crashes while a request is saving metadata, be it to publish or to
      download, the metadata it leaves is torn. */
  lemma {:induction false} RunSavesTorn(w: World, s: State, es: seq<Event>)
    requires WellFormed(w) && Inv(w, s) && Possible(w, s, es) && SavesTorn(s)
    ensures SavesTorn(Run(w, s, es))
    decreases |es|
  {
    if es != [] {
      StepInv(w, s, es[0]);
      StepSavesTorn(w, s, es[0]);
      RunSavesTorn(w, Step(w, s, es[0]), es[1..]);
    }
  }

  // ----- a record without its metadata -----

  /** The directory is in use and its metadata torn, and nobody is at work on either. */
  ghost predicate Dead(s: State, d: Dir) {
    && d in s.disk.claimed && d in s.disk.metas && s.disk.metas[d].Torn?
    && (forall i :: i in s.mem.sessions && !s.mem.sessions[i].LookingUp? ==> s.mem.sessions[i].dir != d)
    && (forall i :: i in s.mem.tasks && s.mem.tasks[i].record.chunksDir == d ==>
         s.mem.tasks[i].phase.Starting? || s.mem.tasks[i].phase.Ended?)
  }

  /** A job for the directory is waiting or being worked on. */
  ghost predicate HasJob(s: State, d: Dir) {
    (exists k :: k in s.store.jobs && s.store.jobs[k].chunksDir == d)
      || (!s.mem.worker.Idle? && !s.mem.worker.Booting? && s.mem.worker.m.chunksDir == d)
  }

  /** From `s` to `t` nothing new has been published from the directory, other than by a job. */
  ghost predicate NoneRestored(s: State, t: State, d: Dir) {
    && (HasJob(t, d) ==> HasJob(s, d))
    && (!HasJob(s, d) ==>
          forall k :: k in t.store.published && t.store.published[k].chunksDir == d ==>
            k in s.store.published && s.store.published[k].chunksDir == d)
  }

  lemma RequestDead(w: World, s: State, e: RequestEvent, d: Dir)
    requires Dead(s, d) && CanRequest(w, s, e)
    ensures Dead(DoRequest(w, s, e), d)
  {
  }

  lemma RequestNoneRestored(w: World, s: State, e: RequestEvent, d: Dir)
    requires WellFormed(w) && Dead(s, d) && CanRequest(w, s, e)
    ensures NoneRestored(s, DoRequest(w, s, e), d)
  {
    if e.StoreRecord? { assert Genuine(w, s.mem.sessions[e.sid].dir); }
    SameJobs(s, DoRequest(w, s, e), d);
  }

  lemma SameJobs(s: State, t: State, d: Dir)
    requires t.mem.worker == s.mem.worker && t.store.published == s.store.published
    requires forall k :: k in t.store.jobs ==>
      (k in s.store.jobs && t.store.jobs[k] == s.store.jobs[k]) || t.store.jobs[k].chunksDir != d
    ensures NoneRestored(s, t, d)
  {
  }

  lemma QueueDead(w: World, s: State, e: QueueEvent, d: Dir)
    requires Dead(s, d) && CanQueue(w, s, e)
    ensures Dead(DoQueue(w, s, e), d) && NoneRestored(s, DoQueue(w, s, e), d)
  {
  }

  lemma PassKeepsRequests(w: World, s: State, e: PassEvent)
    requires CanPass(w, s, e)
    ensures
      var t := DoPass(w, s, e);
      t.disk.metas == s.disk.metas && t.disk.claimed == s.disk.claimed && t.mem.sessions == s.mem.sessions
  {
  }

  lemma PassDead(w: World, s: State, e: PassEvent, d: Dir)
    requires Dead(s, d) && CanPass(w, s, e)
    ensures Dead(DoPass(w, s, e), d)
  {
    PassKeepsRequests(w, s, e);
  }

  lemma PassKeepsPublished(w: World, s: State, e: PassEvent)
    requires CanPass(w, s, e)
    ensures
      var t := DoPass(w, s, e);
      t.store.published == s.store.published && t.store.jobs == s.store.jobs && t.mem.worker == s.mem.worker
  {
  }

  lemma FinishDead(w: World, s: State, e: FinishEvent, d: Dir)
    requires Dead(s, d) && CanFinish(w, s, e)
    ensures Dead(DoFinish(w, s, e), d)
  {
  }

  lemma FinishNoneRestored(w: World, s: State, e: FinishEvent, d: Dir)
    requires Dead(s, d) && CanFinish(w, s, e)
    ensures NoneRestored(s, DoFinish(w, s, e), d)
  {
    var t := DoFinish(w, s, e);
    assert t.store.jobs == s.store.jobs && t.mem.worker == s.mem.worker;
  }

  lemma StepDead(w: World, s: State, e: Event, d: Dir)
    requires WellFormed(w) && Dead(s, d) && Enabled(w, s, e)
    ensures Dead(Step(w, s, e), d) && NoneRestored(s, Step(w, s, e), d)
  {
    match e
    case Crash =>
    case OfRequest(r) =>
      RequestDead(w, s, r, d);
      RequestNoneRestored(w, s, r, d);
    case OfQueue(q) => QueueDead(w, s, q, d);
    case OfPass(p) =>
      PassDead(w, s, p, d);
      PassKeepsPublished(w, s, p);
      SameJobs(s, DoPass(w, s, p), d);
    case OfFinish(f) =>
      FinishDead(w, s, f, d);
      FinishNoneRestored(w, s, f, d);
  }

  /** As long as requests keep away from directories in use, this is for ever, over every run and every
      restart: the metadata stays torn, no task gets past reading it, and no download is published
      from the directory. */
  lemma {:induction false} DeadForEver(w: World, s: State, es: seq<Event>, d: Dir)
    requires WellFormed(w) && Dead(s, d) && Possible(w, s, es)
    ensures Dead(Run(w, s, es), d) && NoneRestored(s, Run(w, s, es), d)
    decreases |es|
  {
    if es != [] {
      StepDead(w, s, es[0], d);
      DeadForEver(w, Step(w, s, es[0]), es[1..], d);
    }
  }

  // ----- a published file without its metadata -----

  /** The metadata files as announcing again finds them. */
  function MetasOf(disk: Disk): Publishing.Metas {
    map d | d in disk.metas :: if disk.metas[d].Saved? then Publishing.Decodable(disk.metas[d].metadata)
      else Publishing.Garbled
  }

  /** Announcing the published files again gives up at some record. */
  ghost predicate AnnouncingFails(t: State) {
    exists k :: Publishing.Broken(Stored(t.store.published), MetasOf(t.disk), k)
  }

  lemma BrokenIsTorn(t: State, k: Key)
    ensures
      Publishing.Broken(Stored(t.store.published), MetasOf(t.disk), k) <==>
      k in t.store.published && t.store.published[k].chunksDir in t.disk.metas
        && t.disk.metas[t.store.published[k].chunksDir].Torn?
  {
  }

  /** Announcing again fails if and only if some published record lacks its metadata. */
  lemma AnnouncingFailsExactly(w: World, s: State)
    requires Inv(w, s)
    ensures AnnouncingFails(s) <==>
      exists k :: k in s.store.published && !Readable(s.disk, s.store.published[k].chunksDir)
  {
    forall k
      ensures
        Publishing.Broken(Stored(s.store.published), MetasOf(s.disk), k) <==>
        k in s.store.published && !Readable(s.disk, s.store.published[k].chunksDir)
    {
      BrokenIsTorn(s, k);
      if k in s.store.published { assert PublishedOk(w, s.disk, s.store.published[k]); }
    }
  }

  /** Start-up gets over, skipping some files, if and only if announcing the others does not fail; without
      skipping any, if and only if announcing does not fail. */
  lemma StartsUpExactly(w: World, s: State, skipped: set<Key>)
    requires Inv(w, s) && s.mem.worker.Booting?
    ensures CanStartUp(s, skipped) <==>
      forall k :: k !in skipped ==> !Publishing.Broken(Stored(s.store.published), MetasOf(s.disk), k)
    ensures CanStartUp(s, {}) <==> !AnnouncingFails(s)
  {
    forall k
      ensures
        Publishing.Broken(Stored(s.store.published), MetasOf(s.disk), k) <==>
        k in s.store.published && !Readable(s.disk, s.store.published[k].chunksDir)
    {
      BrokenIsTorn(s, k);
      if k in s.store.published { assert PublishedOk(w, s.disk, s.store.published[k]); }
    }
  }

  /** The record belongs to a published file that was not skipped. */
  ghost predicate AnnouncedAgain(w: World, s: State, skipped: set<Key>, r: Publishing.RecordKey) {
    exists k, m ::
      && k !in skipped && Publishing.HasMetadata(Stored(s.store.published), MetasOf(s.disk), k, m)
      && r in Publishing.AllKeys(w.keyHash, m)
  }

  lemma StartUpOnly(w: World, s: State, skipped: set<Key>, a: Announcement)
    requires WellFormed(w) && Inv(w, s) && CanStartUp(s, skipped) && a.dir in w.meta
    requires a in DoStartUp(s, skipped).announced && a !in s.announced
    ensures AnnouncedAgain(w, s, skipped, RecordKeyOf(w, a))
  {
    var k :| k in s.store.published && k !in skipped && a in Announced(s, s.store.published[k].chunksDir);
    StartUpKey(w, s, k);
    KeyOfAnnouncement(w, s, s.store.published[k].chunksDir, a);
  }

  lemma KeyOfAnnouncement(w: World, s: State, d: Dir, a: Announcement)
    requires d in w.meta && Readable(s.disk, d) && s.disk.metas[d].metadata == w.meta[d] && a in Announced(s, d)
    ensures a.dir == d && RecordKeyOf(w, a) in Publishing.AllKeys(w.keyHash, w.meta[d])
  {
  }

  lemma StartUpAll(w: World, s: State, skipped: set<Key>, r: Publishing.RecordKey)
    requires WellFormed(w) && Inv(w, s) && CanStartUp(s, skipped) && AnnouncedAgain(w, s, skipped, r)
    ensures exists a :: a in DoStartUp(s, skipped).announced && a.dir in w.meta && RecordKeyOf(w, a) == r
  {
    var k, m :| k !in skipped && Publishing.HasMetadata(Stored(s.store.published), MetasOf(s.disk), k, m)
      && r in Publishing.AllKeys(w.keyHash, m);
    StartUpKey(w, s, k);
    var a := AnnouncementOfKey(w, s, s.store.published[k].chunksDir, r);
    assert a in DoStartUp(s, skipped).announced;
  }

  lemma AnnouncementOfKey(w: World, s: State, d: Dir, r: Publishing.RecordKey) returns (a: Announcement)
    requires d in w.meta && Readable(s.disk, d) && s.disk.metas[d].metadata == w.meta[d]
    requires r in Publishing.AllKeys(w.keyHash, w.meta[d])
    ensures a in Announced(s, d) && a.dir == d && RecordKeyOf(w, a) == r
  {
    a := if r.MetadataRecord? then OfMetadata(d) else OfChunk(d, r.chunkId);
  }

  /** And then exactly the keys have been announced that `ProvideAllPublishedFiles` announces. */
  lemma StartUpRefines(w: World, s: State, skipped: set<Key>, r: Publishing.RecordKey)
    requires WellFormed(w) && Inv(w, s) && CanStartUp(s, skipped)
    ensures r in RecordKeys(w, DoStartUp(s, skipped).announced) <==>
      r in RecordKeys(w, s.announced) || AnnouncedAgain(w, s, skipped, r)
  {
    var more := DoStartUp(s, skipped).announced;
    if r in RecordKeys(w, more) {
      var a :| a in more && a.dir in w.meta && RecordKeyOf(w, a) == r;
      if a !in s.announced { StartUpOnly(w, s, skipped, a); }
    } else {
      assert s.announced <= more;
      if AnnouncedAgain(w, s, skipped, r) { StartUpAll(w, s, skipped, r); }
    }
  }

  lemma StartUpKey(w: World, s: State, k: Key)
    requires WellFormed(w) && Inv(w, s) && k in s.store.published && Readable(s.disk, s.store.published[k].chunksDir)
    ensures
      var d := s.store.published[k].chunksDir;
      && d in w.meta && s.disk.metas[d].metadata == w.meta[d] && w.meta[d].chunksDir == d
      && Publishing.HasMetadata(Stored(s.store.published), MetasOf(s.disk), k, w.meta[d])
  {
    assert PublishedOk(w, s.disk, s.store.published[k]);
    assert Genuine(w, s.store.published[k].chunksDir);
  }

  // ----- a node that does not come through start-up -----

  /** The node has not come through start-up, and one of its published files has lost its metadata. */
  ghost predicate Stalled(s: State, k: Key) {
    && k in s.store.published && Dead(s, s.store.published[k].chunksDir)
    && s.mem.worker.Booting? && s.mem.stream == [] && s.mem.tasks == map[] && s.mem.chunks == map[]
  }

  /** Nothing is published, and nothing pending gets done. */
  ghost predicate NothingDone(s: State, t: State) {
    t.store.published == s.store.published && s.store.pending.Keys <= t.store.pending.Keys
  }

  lemma RequestStalled(w: World, s: State, e: RequestEvent, k: Key)
    requires Stalled(s, k) && CanRequest(w, s, e)
    ensures Stalled(DoRequest(w, s, e), k) && NothingDone(s, DoRequest(w, s, e))
  {
    RequestDead(w, s, e, s.store.published[k].chunksDir);
  }

  lemma StepStalled(w: World, s: State, e: Event, k: Key)
    requires Stalled(s, k) && Enabled(w, s, e) && NoSkips([e])
    ensures Stalled(Step(w, s, e), k) && NothingDone(s, Step(w, s, e))
  {
    assert [e][0] == e;
    match e
    case Crash =>
    case OfRequest(r) => RequestStalled(w, s, r, k);
    case OfQueue(q) =>
    case OfPass(p) =>
    case OfFinish(f) =>
  }

  /** Without skipping its metadata file, this is for ever, over every restart. */
  lemma {:induction false} StalledForEver(w: World, s: State, es: seq<Event>, k: Key)
    requires Stalled(s, k) && Possible(w, s, es) && NoSkips(es)
    ensures Stalled(Run(w, s, es), k) && NothingDone(s, Run(w, s, es))
    decreases |es|
  {
    if es != [] {
      assert [es[0]][0] == es[0];
      StepStalled(w, s, es[0], k);
      assert forall i :: 0 <= i < |es[1..]| ==> es[1..][i] == es[i + 1];
      StalledForEver(w, Step(w, s, es[0]), es[1..], k);
    }
  }

  lemma FailingIsStalled(w: World, s: State) returns (k: Key)
    requires Inv(w, s) && s.mem == FreshMemory(w) && AnnouncingFails(s)
    ensures Stalled(s, k)
  {
    AnnouncingFailsExactly(w, s);
    k :| k in s.store.published && !Readable(s.disk, s.store.published[k].chunksDir);
    assert PublishedOk(w, s.disk, s.store.published[k]);
  }

  // ----- what survives a crash, exactly -----

  /** The run finishes all pending downloads whose metadata can be read, and skips no file at start-up. */
  ghost predicate Survives(w: World, s: State, es: seq<Event>) {
    Possible(w, s, es) && NoSkips(es) && AllDelivered(w, s, Run(w, s, es))
  }

  /** After a crash, all pending downloads whose metadata can be read can be finished, without luck in
      reading metadata files, if and only if no published file has lost its metadata; unless there are
      no such downloads. */
  lemma SurvivesExactly(w: World, s: State)
    requires WellFormed(w) && Inv(w, s) && w.permits > 0 && s.mem == FreshMemory(w)
    ensures (exists es :: Survives(w, s, es)) <==> !AnnouncingFails(s) || Unreadable(s) == s.store.pending
  {
    StartsUpExactly(w, s, {});
    if !AnnouncingFails(s) {
      var es := CrashedDownloadsComplete(w, s, {});
      assert Survives(w, s, es);
    } else if Unreadable(s) == s.store.pending {
      NothingToDo(w, s);
    } else {
      forall es
        ensures !Survives(w, s, es)
      {
        NotSurvived(w, s, es);
      }
    }
  }

  lemma NothingToDo(w: World, s: State)
    requires Unreadable(s) == s.store.pending
    ensures Survives(w, s, [])
  {
  }

  lemma NotSurvived(w: World, s: State, es: seq<Event>)
    requires Inv(w, s) && s.mem == FreshMemory(w) && AnnouncingFails(s) && Unreadable(s) != s.store.pending
    ensures !Survives(w, s, es)
  {
    if Possible(w, s, es) && NoSkips(es) {
      var k := FailingIsStalled(w, s);
      StalledForEver(w, s, es, k);
      assert Unreadable(s).Keys == s.store.pending.Keys ==> Unreadable(s) == s.store.pending;
    }
  }

  // ----- a download without its metadata -----

  /** The run brings the download to its end. */
  ghost predicate DeliveredBy(w: World, s: State, es: seq<Event>, r: PendingDownloadRecord) {
    Possible(w, s, es) && Mine(Run(w, s, es).store, r) && Complete(w, Run(w, s, es).disk, r.chunksDir)
  }

  /** The same, without luck in reading metadata files at start-up. */
  ghost predicate DeliveredNoSkips(w: World, s: State, es: seq<Event>, r: PendingDownloadRecord) {
    DeliveredBy(w, s, es, r) && NoSkips(es)
  }

  /** After a crash, some run brings a pending download to its end if and only if its metadata can be read,
      and some run in which no file is skipped at start-up if and only if moreover every published file
      has its metadata. (The download has not been published from its directory yet, and there is no
      publish job for that.) */
  lemma DeliverableExactly(w: World, s: State, key: Key)
    requires WellFormed(w) && Inv(w, s) && w.permits > 0 && s.mem == FreshMemory(w) && key in s.store.pending
    requires !Mine(s.store, s.store.pending[key]) && !HasJob(s, s.store.pending[key].chunksDir)
    ensures
      var r := s.store.pending[key];
      && ((exists es :: DeliveredBy(w, s, es, r)) <==> Readable(s.disk, r.chunksDir))
      && ((exists es :: DeliveredNoSkips(w, s, es, r)) <==> Readable(s.disk, r.chunksDir) && !AnnouncingFails(s))
  {
    var r := s.store.pending[key];
    assert RecordOk(w, s.disk, r);
    StartsUpExactly(w, s, {});
    if !Readable(s.disk, r.chunksDir) {
      forall es
        ensures !DeliveredBy(w, s, es, r)
      {
        NeverDelivered(w, s, es, r);
      }
    } else {
      var lucky := CrashedDownloadsComplete(w, s, s.store.published.Keys);
      assert DeliveredBy(w, s, lucky, r);
      if !AnnouncingFails(s) {
        var es := CrashedDownloadsComplete(w, s, {});
        assert DeliveredNoSkips(w, s, es, r);
      } else {
        forall es
          ensures !DeliveredNoSkips(w, s, es, r)
        {
          NotDelivered(w, s, es, r);
        }
      }
    }
  }

  lemma NeverDelivered(w: World, s: State, es: seq<Event>, r: PendingDownloadRecord)
    requires WellFormed(w) && Dead(s, r.chunksDir) && !HasJob(s, r.chunksDir) && !Mine(s.store, r)
    requires forall k :: k in s.store.published ==> s.store.published[k].key == k
    ensures !DeliveredBy(w, s, es, r)
  {
    if Possible(w, s, es) {
      DeadForEver(w, s, es, r.chunksDir);
    }
  }

  lemma NotDelivered(w: World, s: State, es: seq<Event>, r: PendingDownloadRecord)
    requires Inv(w, s) && s.mem == FreshMemory(w) && AnnouncingFails(s) && !Mine(s.store, r)
    ensures !DeliveredNoSkips(w, s, es, r)
  {
    if Possible(w, s, es) && NoSkips(es) {
      var k := FailingIsStalled(w, s);
      StalledForEver(w, s, es, k);
    }
  }

  // ----- the runs that go wrong -----

  /** From the beginning: a request whose last write of the metadata fails without notice stores its
      record, and the directory is dead. */
  lemma UnnoticedStrandsDownload(w: World, d: Dir) returns (es: seq<Event>)
    requires d in w.meta && w.meta[d].chunksDir == d
    ensures Possible(w, Init(w), es)
    ensures
      var t := Run(w, Init(w), es);
      && KeyAt(w, d) in t.store.pending && t.store.pending[KeyAt(w, d)].chunksDir == d
      && Dead(t, d) && !HasJob(t, d)
  {
    var ask := AskRuns(w, Begun(w), d, false);
    FromTheBeginning(w, ask);
    es := [BEGIN] + ask;
  }

  /** A node without requests and jobs can be given the file to publish. */
  ghost predicate CanPublish(w: World, s: State, d: Dir) {
    && d in w.meta && w.meta[d].chunksDir == d && s.mem.sessions == map[] && s.mem.worker.Idle?
    && s.store.jobs == map[] && CanPublishStart(w, s, 0, d)
  }

  /** Publishing a file, up to its job. */
  lemma QueuedRuns(w: World, s: State, d: Dir, written: bool) returns (es: seq<Event>, t: State)
    requires CanPublish(w, s, d)
    ensures Possible(w, s, es) && t == Run(w, s, es)
    ensures
      && t.store == s.store.(jobs := map[KeyAt(w, d) := w.meta[d]]) && t.mem.worker.Idle?
      && t.disk.metas == s.disk.metas[d := MetaAfter(w, d, written)]
  {
    var start := OfRequest(PublishStart(0, d));
    var begun := Step(w, s, start);
    var n := |w.contents[d]|;
    var chunks, store := Repeat(OfRequest(PublishChunk(0)), n), OfRequest(StoreRecord(0, true));
    ChunksRun(w, begun, 0, d, n);
    var split := Run(w, begun, chunks);
    SaveRun(w, split, 0, d, written);
    var saved := Run(w, split, SaveEvents(0, written));
    RunOne(w, saved, store);
    RunAppend(w, split, SaveEvents(0, written), [store]);
    RunAppend(w, begun, chunks, SaveEvents(0, written) + [store]);
    RunCons(w, s, start, chunks + (SaveEvents(0, written) + [store]));
    es := [start] + (chunks + (SaveEvents(0, written) + [store]));
    t := Step(w, saved, store);
  }

  /** The file gets published, the last write of its metadata having failed without notice, and the node
      cannot announce at its next start. */
  lemma TornPublication(w: World, s: State, d: Dir) returns (es: seq<Event>)
    requires CanPublish(w, s, d)
    ensures Possible(w, s, es)
    ensures
      var t := Run(w, s, es);
      && KeyAt(w, d) in t.store.published && t.store.published[KeyAt(w, d)].chunksDir == d && AnnouncingFails(t)
      && t.store.published.Keys == s.store.published.Keys + {KeyAt(w, d)}
      && t.store.pending == s.store.pending && t.disk.metas == s.disk.metas[d := Torn]
  {
    var queue, queued := QueuedRuns(w, s, d, false);
    var turn, t := TurnRun(w, queued, KeyAt(w, d));
    RunAppend(w, s, queue, turn);
    es := queue + turn;
    BrokenIsTorn(t, KeyAt(w, d));
  }

  /** From the beginning: one file published like that. */
  lemma UnnoticedStopsNode(w: World, d: Dir) returns (es: seq<Event>)
    requires CanPublish(w, Begun(w), d)
    ensures Possible(w, Init(w), es)
    ensures
      var t := Run(w, Init(w), es);
      KeyAt(w, d) in t.store.published && t.store.published[KeyAt(w, d)].chunksDir == d && AnnouncingFails(t)
  {
    var publish := TornPublication(w, Begun(w), d);
    FromTheBeginning(w, publish);
    es := [BEGIN] + publish;
  }

  /** From the beginning: another file is pending, with its metadata, and after a crash it stays so in
      every run in which the torn file is not skipped. */
  lemma UnnoticedBlocksDownloads(w: World, d: Dir, e: Dir) returns (es: seq<Event>)
    requires WellFormed(w) && CanPublish(w, Begun(w), d) && e in w.meta && e != d
    ensures Possible(w, Init(w), es)
    ensures
      var t := Run(w, Init(w), es);
      && KeyAt(w, e) in t.store.pending && t.store.pending[KeyAt(w, e)].chunksDir == e && Readable(t.disk, e)
      && !Mine(t.store, t.store.pending[KeyAt(w, e)]) && AnnouncingFails(t)
      && forall more :: !DeliveredNoSkips(w, Step(w, t, Crash), more, t.store.pending[KeyAt(w, e)])
  {
    assert Genuine(w, e);
    var ask := AskRuns(w, Begun(w), e, true);
    var asked := Asked(w, Begun(w), e, true);
    var publish := TornPublication(w, asked, d);
    RunAppend(w, Begun(w), ask, publish);
    FromTheBeginning(w, ask + publish);
    es := [BEGIN] + (ask + publish);
    var t := Run(w, Init(w), es);
    InitInv(w);
    RunInv(w, Init(w), es);
    StepInv(w, t, Crash);
    forall more
      ensures !DeliveredNoSkips(w, Step(w, t, Crash), more, t.store.pending[KeyAt(w, e)])
    {
      NotDelivered(w, Step(w, t, Crash), more, t.store.pending[KeyAt(w, e)]);
    }
  }
}
