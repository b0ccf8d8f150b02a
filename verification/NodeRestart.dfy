/** After a crash: the scheduler comes back to everything that was pending, and all of it can be
    brought to its end. */
module NodeRestart {
  import opened Keys
  import opened Domain
  import opened Node
  import opened NodeInvariant
  import opened NodeSafety
  import opened NodeResources
  import opened NodeRecovery
  import opened NodeConvergence

  // ----- recovering from a crash -----

  lemma SnapshotCons(pending: map<Key, PendingDownloadRecord>, first: Key, tail: seq<PendingDownloadRecord>)
    requires First(first, pending.Keys) && pending[first].key == first && IsSnapshot(pending - {first}, tail)
    ensures IsSnapshot(pending, [pending[first]] + tail)
  {
    var rest := pending - {first};
    var snapshot := [pending[first]] + tail;
    forall i | 0 <= i < |tail|
      ensures Before(first, tail[i].key)
    {
      assert tail[i].key in rest;
    }
    forall k | k in pending
      ensures pending[k] in snapshot
    {
      if k != first { assert rest[k] in tail; }
    }
  }

  /** The store can be streamed: its records can be listed in key order. */
  lemma {:induction false} SnapshotExists(pending: map<Key, PendingDownloadRecord>)
    returns (snapshot: seq<PendingDownloadRecord>)
    requires forall k :: k in pending ==> pending[k].key == k
    ensures IsSnapshot(pending, snapshot)
    decreases |pending|
  {
    if pending == map[] {
      snapshot := [];
    } else {
      var first := FirstKey(pending.Keys);
      var rest := pending - {first};
      assert |rest| < |pending| by {
        assert rest.Keys == pending.Keys - {first};
      }
      var tail := SnapshotExists(rest);
      snapshot := [pending[first]] + tail;
      SnapshotCons(pending, first, tail);
    }
  }

  /** The memory of a node that has just started tasks for the first records of a snapshot. */
  ghost predicate StartedUpTo(w: World, mem: Memory, snapshot: seq<PendingDownloadRecord>, n: nat)
    requires n <= |snapshot|
  {
    && !mem.worker.Booting? && mem.sessions == map[]
    && mem.free == w.permits && mem.chunks == map[] && mem.stream == snapshot[n..]
    && (forall t: nat :: t in mem.tasks <==> t < n)
    && (forall t: nat :: t < n ==> mem.tasks[t] == Task(snapshot[t], Starting))
    && (forall k :: k in mem.active ==> exists t: nat :: t < n && snapshot[t].key == k)
  }

  lemma {:induction false} StartTasks(w: World, s: State, snapshot: seq<PendingDownloadRecord>, first: nat, last: nat)
    returns (es: seq<Event>)
    requires first <= last <= |snapshot| && w.permits > 0 && StartedUpTo(w, s.mem, snapshot, first)
    requires forall i, j :: 0 <= i < j < |snapshot| ==> snapshot[i].key != snapshot[j].key
    ensures Possible(w, s, es) && NoSkips(es)
    ensures Run(w, s, es) == s.(mem := Run(w, s, es).mem) && StartedUpTo(w, Run(w, s, es).mem, snapshot, last)
    decreases last - first
  {
    if first == last {
      es := [];
    } else {
      var e := OfPass(NextRecord(first));
      var t := Step(w, s, e);
      assert snapshot[first..][0] == snapshot[first] && snapshot[first..][1..] == snapshot[first + 1..];
      assert StartedUpTo(w, t.mem, snapshot, first + 1);
      var rest := StartTasks(w, t, snapshot, first + 1, last);
      RunCons(w, s, e, rest);
      es := [e] + rest;
    }
  }

  lemma SnapshotKeys(pending: map<Key, PendingDownloadRecord>, snapshot: seq<PendingDownloadRecord>)
    requires IsSnapshot(pending, snapshot)
    ensures forall i, j :: 0 <= i < j < |snapshot| ==> snapshot[i].key != snapshot[j].key
  {
    forall i, j | 0 <= i < j < |snapshot|
      ensures snapshot[i].key != snapshot[j].key
    {
      BeforeIsLess(snapshot[i].key, snapshot[j].key);
    }
  }

  /** A node that has just come through start-up. */
  function JustRunning(w: World): Memory {
    FreshMemory(w).(worker := Idle)
  }

  /** When the node is running, all permits being free, the scheduler starts a task for every pending
      download. */
  lemma Schedule(w: World, s: State) returns (es: seq<Event>, snapshot: seq<PendingDownloadRecord>)
    requires w.permits > 0 && s.mem == JustRunning(w)
    requires forall k :: k in s.store.pending ==> s.store.pending[k].key == k
    ensures IsSnapshot(s.store.pending, snapshot)
    ensures Possible(w, s, es) && NoSkips(es)
    ensures Run(w, s, es) == s.(mem := Run(w, s, es).mem) && StartedUpTo(w, Run(w, s, es).mem, snapshot, |snapshot|)
  {
    snapshot := SnapshotExists(s.store.pending);
    SnapshotKeys(s.store.pending, snapshot);
    var tick := OfPass(Tick(snapshot));
    var a := Step(w, s, tick);
    assert snapshot[0..] == snapshot;
    assert StartedUpTo(w, a.mem, snapshot, 0);
    var starts := StartTasks(w, a, snapshot, 0, |snapshot|);
    RunCons(w, s, tick, starts);
    es := [tick] + starts;
  }

  /** Every record that was pending and whose metadata could be read is recorded as published from its
      own directory, where its file is complete; just the others are still pending. */
  ghost predicate AllDelivered(w: World, before: State, t: State) {
    && t.store.pending == Unreadable(before)
    && forall k :: k in before.store.pending && k !in Unreadable(before) ==>
         Mine(t.store, before.store.pending[k]) && Complete(w, t.disk, before.store.pending[k].chunksDir)
  }

  /** The pending records whose metadata cannot be read. */
  function Unreadable(s: State): map<Key, PendingDownloadRecord> {
    map k | k in s.store.pending && !Readable(s.disk, s.store.pending[k].chunksDir) :: s.store.pending[k]
  }

  lemma StartedFor(
    pending: map<Key, PendingDownloadRecord>, tasks: map<nat, Task>, snapshot: seq<PendingDownloadRecord>, k: Key)
    returns (i: nat)
    requires k in pending && pending[k].key == k && IsSnapshot(pending, snapshot)
    requires forall t: nat :: t < |snapshot| ==> t in tasks && tasks[t] == Task(snapshot[t], Starting)
    ensures i in tasks && tasks[i] == Task(pending[k], Starting) && HasTask(tasks, k)
  {
    assert pending[k] in snapshot;
    i :| 0 <= i < |snapshot| && snapshot[i] == pending[k];
    assert i in tasks && tasks[i].record.key == k;
  }

  /** The state in which all pending downloads have been started, and nothing else has happened. */
  ghost predicate AllStarted(w: World, s: State, b: State, snapshot: seq<PendingDownloadRecord>) {
    && (forall k :: k in s.store.pending ==> s.store.pending[k].key == k)
    && IsSnapshot(s.store.pending, snapshot) && StartedUpTo(w, b.mem, snapshot, |snapshot|)
    && b.store == s.store && b.disk == s.disk
  }

  lemma DeliveredKey(w: World, s: State, b: State, u: State, snapshot: seq<PendingDownloadRecord>, k: Key)
    requires AllStarted(w, s, b, snapshot) && AllEnd(w, b, u)
    requires k in s.store.pending && k !in Unreadable(s)
    ensures k !in u.store.pending && Mine(u.store, s.store.pending[k])
      && Complete(w, u.disk, s.store.pending[k].chunksDir)
  {
    var i := StartedFor(s.store.pending, b.mem.tasks, snapshot, k);
    assert Ends(w, b, u, b.mem.tasks[i]);
  }

  lemma KeptKey(w: World, s: State, b: State, u: State, snapshot: seq<PendingDownloadRecord>, k: Key)
    requires AllStarted(w, s, b, snapshot) && AllEnd(w, b, u)
    requires k !in s.store.pending || k in Unreadable(s)
    ensures SameAt(s.store, u.store, k)
  {
    NoneLive(s, b, snapshot, k);
    assert SameAt(b.store, u.store, k);
  }

  lemma StartedEnd(w: World, s: State, b: State, u: State, snapshot: seq<PendingDownloadRecord>)
    requires AllStarted(w, s, b, snapshot) && AllEnd(w, b, u)
    ensures AllDelivered(w, s, u)
  {
    forall k
      ensures k in u.store.pending <==> k in Unreadable(s)
      ensures k in u.store.pending ==> u.store.pending[k] == s.store.pending[k]
      ensures k in s.store.pending && k !in Unreadable(s) ==>
        Mine(u.store, s.store.pending[k]) && Complete(w, u.disk, s.store.pending[k].chunksDir)
    {
      KeyEnds(w, s, b, u, snapshot, k);
    }
  }

  lemma KeyEnds(w: World, s: State, b: State, u: State, snapshot: seq<PendingDownloadRecord>, k: Key)
    requires AllStarted(w, s, b, snapshot) && AllEnd(w, b, u)
    ensures k in u.store.pending <==> k in Unreadable(s)
    ensures k in u.store.pending ==> u.store.pending[k] == s.store.pending[k]
    ensures k in s.store.pending && k !in Unreadable(s) ==>
      Mine(u.store, s.store.pending[k]) && Complete(w, u.disk, s.store.pending[k].chunksDir)
  {
    if k in s.store.pending && k !in Unreadable(s) {
      DeliveredKey(w, s, b, u, snapshot, k);
    } else {
      KeptKey(w, s, b, u, snapshot, k);
    }
  }

  lemma NoneLive(s: State, b: State, snapshot: seq<PendingDownloadRecord>, k: Key)
    requires IsSnapshot(s.store.pending, snapshot) && b.disk == s.disk
    requires forall t: nat :: t in b.mem.tasks ==> t < |snapshot| && b.mem.tasks[t] == Task(snapshot[t], Starting)
    requires k !in s.store.pending || k in Unreadable(s)
    ensures !HasLive(b, k)
  {
    forall i | i in b.mem.tasks
      ensures b.mem.tasks[i].record.key == k ==> Blocked(b, i)
    {
      assert snapshot[i].key in s.store.pending && s.store.pending[snapshot[i].key] == snapshot[i];
    }
  }

  lemma ScheduledComplete(w: World, s: State) returns (es: seq<Event>)
    requires WellFormed(w) && Inv(w, s) && w.permits > 0 && s.mem == JustRunning(w)
    ensures Possible(w, s, es) && NoSkips(es) && AllDelivered(w, s, Run(w, s, es))
  {
    var starts, snapshot := Schedule(w, s);
    RunInv(w, s, starts);
    var b := Run(w, s, starts);
    assert Holding(b.mem.chunks) == {};
    var finish := BringAllToEnd(w, b, |snapshot|);
    StartedEnd(w, s, b, Run(w, b, finish), snapshot);
    RunAppend(w, s, starts, finish);
    es := starts + finish;
  }

  /** Whatever a run has done to the node and wherever it crashed, if start-up gets over, everything that
      was pending and whose metadata can be read can be completed, all tasks sharing the permits. */
  lemma CrashedDownloadsComplete(w: World, s: State, skipped: set<Key>) returns (es: seq<Event>)
    requires WellFormed(w) && Inv(w, s) && w.permits > 0 && s.mem == FreshMemory(w) && CanStartUp(s, skipped)
    ensures Possible(w, s, es) && AllDelivered(w, s, Run(w, s, es)) && (skipped == {} ==> NoSkips(es))
  {
    var up := OfQueue(StartUp(skipped));
    StepInv(w, s, up);
    var t := Step(w, s, up);
    var rest := ScheduledComplete(w, t);
    assert Unreadable(t) == Unreadable(s);
    RunCons(w, s, up, rest);
    es := [up] + rest;
  }

  /** The same of the state in which a run crashes. */
  lemma CrashedRunCompletes(w: World, s: State, es: seq<Event>, skipped: set<Key>) returns (more: seq<Event>)
    requires WellFormed(w) && Inv(w, s) && w.permits > 0 && Possible(w, s, es)
    requires CanStartUp(Step(w, Run(w, s, es), Crash), skipped)
    ensures Possible(w, s, es + [Crash] + more) && (skipped == {} ==> NoSkips(more))
    ensures AllDelivered(w, Run(w, s, es), Run(w, s, es + [Crash] + more))
  {
    RunInv(w, s, es);
    var crashed := Run(w, s, es);
    CrashInv(w, crashed);
    more := CrashedDownloadsComplete(w, Step(w, crashed, Crash), skipped);
    RunCons(w, crashed, Crash, more);
    RunAppend(w, s, es, [Crash] + more);
    assert es + [Crash] + more == es + ([Crash] + more);
  }

  // ----- from the beginning -----

  lemma RunTwo(w: World, s: State, e: Event, f: Event)
    requires Enabled(w, s, e) && Enabled(w, Step(w, s, e), f)
    ensures Possible(w, s, [e, f]) && Run(w, s, [e, f]) == Step(w, Step(w, s, e), f)
  {
    RunCons(w, Step(w, s, e), f, []);
    RunCons(w, s, e, [f]);
    assert [f] + [] == [f] && [e] + [f] == [e, f];
  }

  /** A node without requests can be asked for the file. */
  ghost predicate CanAsk(w: World, s: State, d: Dir) {
    && d in w.meta && w.meta[d].chunksDir == d && d !in s.disk.claimed
    && !s.mem.worker.Booting? && s.mem.sessions == map[]
    && KeyAt(w, d) !in s.store.published && KeyAt(w, d) !in s.store.pending && Destination(w.meta[d]) !in s.disk.files
  }

  /** The file is pending in the directory, with its metadata written, or torn without notice. */
  function Asked(w: World, s: State, d: Dir, written: bool): State
    requires d in w.meta
  {
    var record := PendingDownloadRecord(KeyAt(w, d), w.meta[d].originalFileName, d, {});
    s.(disk := s.disk.(metas := s.disk.metas[d := MetaAfter(w, d, written)], claimed := s.disk.claimed + {d}),
       store := s.store.(pending := s.store.pending[record.key := record]),
       announced := s.announced + {OfMetadata(d)})
  }

  lemma LookUpRuns(w: World, s: State, d: Dir) returns (es: seq<Event>)
    requires CanAsk(w, s, d)
    ensures Possible(w, s, es) && Run(w, s, es) == SetSession(s, 0, LookingUp(KeyAt(w, d), true))
  {
    var key := KeyAt(w, d);
    RunTwo(w, s, OfRequest(LookUp(0, key)), OfRequest(RequestMetadata(0)));
    es := [OfRequest(LookUp(0, key)), OfRequest(RequestMetadata(0))];
    assert map[0 := LookingUp(key, false)][0 := LookingUp(key, true)] == map[0 := LookingUp(key, true)];
  }

  lemma SaveRuns(w: World, s: State, d: Dir, written: bool) returns (es: seq<Event>)
    requires CanAsk(w, s, d)
    ensures
      var t := SetSession(s, 0, LookingUp(KeyAt(w, d), true));
      && Possible(w, t, es)
      && Run(w, t, es) == SetSession(SetMeta(s, d, MetaAfter(w, d, written)), 0, Described(d, false))
  {
    var t := SetSession(s, 0, LookingUp(KeyAt(w, d), true));
    RunTwo(w, t, OfRequest(MetadataArrives(0, d)), OfRequest(SaveDone(0, written)));
    es := [OfRequest(MetadataArrives(0, d)), OfRequest(SaveDone(0, written))];
    assert s.disk.metas[d := Torn][d := MetaAfter(w, d, written)] == s.disk.metas[d := MetaAfter(w, d, written)];
  }

  /** A request for a file, with nothing failing but perhaps, without notice, the end of saving. */
  lemma AskRuns(w: World, s: State, d: Dir, written: bool) returns (es: seq<Event>)
    requires CanAsk(w, s, d)
    ensures Possible(w, s, es) && Run(w, s, es) == Asked(w, s, d, written)
  {
    var a := LookUpRuns(w, s, d);
    var b := SaveRuns(w, s, d, written);
    var described := SetSession(SetMeta(s, d, MetaAfter(w, d, written)), 0, Described(d, false));
    var provide, store := OfRequest(ProvideRequested(0)), OfRequest(StoreRecord(0, true));
    assert map[0 := Described(d, false)] - {0} == map[];
    RunTwo(w, described, provide, store);
    RunAppend(w, s, a, b);
    RunAppend(w, s, a + b, [provide, store]);
    es := a + b + [provide, store];
  }

  /** A new node that has come through start-up. */
  function Begun(w: World): State {
    Init(w).(mem := JustRunning(w))
  }

  const BEGIN := OfQueue(StartUp({}))

  lemma FromTheBeginning(w: World, es: seq<Event>)
    requires Possible(w, Begun(w), es)
    ensures Possible(w, Init(w), [BEGIN] + es) && Run(w, Init(w), [BEGIN] + es) == Run(w, Begun(w), es)
  {
    assert Step(w, Init(w), BEGIN) == Begun(w);
    RunCons(w, Init(w), BEGIN, es);
  }

  /** A new node can download every file there is, into every directory. */
  lemma AnyFileCanBeDownloaded(w: World, d: Dir) returns (es: seq<Event>)
    requires WellFormed(w) && w.permits > 0 && d in w.meta
    ensures Possible(w, Init(w), es)
    ensures
      var t, key := Run(w, Init(w), es), KeyAt(w, d);
      && key in t.store.published && t.store.published[key].chunksDir == d && key !in t.store.pending
      && Complete(w, t.disk, d)
  {
    InitInv(w);
    assert Genuine(w, d);
    var ask := AskRuns(w, Begun(w), d, true);
    FromTheBeginning(w, ask);
    var more := CrashedRunCompletes(w, Init(w), [BEGIN] + ask, {});
    es := [BEGIN] + ask + [Crash] + more;
  }
}
