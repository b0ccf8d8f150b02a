/** From events to runs: honest runs are bounded and end well, and together all tasks of a node can be
    brought to their end, however few permits there are. */
module NodeConvergence {
  import opened Bytes
  import opened Keys
  import opened Domain
  import opened Node
  import opened NodeInvariant
  import opened NodeSafety
  import opened NodeTheorems
  import opened NodeResources
  import opened NodeRecovery

  // ----- runs -----

  lemma RunCons(w: World, s: State, e: Event, es: seq<Event>)
    requires Enabled(w, s, e) && Possible(w, Step(w, s, e), es)
    ensures Possible(w, s, [e] + es) && Run(w, s, [e] + es) == Run(w, Step(w, s, e), es)
  {
    assert ([e] + es)[1..] == es;
  }

  lemma {:induction false} RunAppend(w: World, s: State, a: seq<Event>, b: seq<Event>)
    requires Possible(w, s, a) && Possible(w, Run(w, s, a), b)
    ensures Possible(w, s, a + b) && Run(w, s, a + b) == Run(w, Run(w, s, a), b)
    decreases |a|
  {
    if a == [] {
      assert a + b == b;
    } else {
      RunAppend(w, Step(w, s, a[0]), a[1..], b);
      assert (a + b)[1..] == a[1..] + b && (a + b)[0] == a[0];
    }
  }

  lemma RunSnoc(w: World, s: State, es: seq<Event>, e: Event)
    requires Possible(w, s, es) && Enabled(w, Run(w, s, es), e)
    ensures Possible(w, s, es + [e]) && Run(w, s, es + [e]) == Step(w, Run(w, s, es), e)
  {
    RunCons(w, Run(w, s, es), e, []);
    assert [e] + [] == [e];
    RunAppend(w, s, es, [e]);
  }

  /** No metadata file of a published record is skipped at a start-up because reading it fails. */
  predicate NoSkips(es: seq<Event>) {
    forall i :: 0 <= i < |es| ==> (es[i].OfQueue? && es[i].queue.StartUp? ==> es[i].queue.skipped == {})
  }

  // ----- every honest run -----

  /** A run until the task is gone in which all its events are honest, and which does not crash. */
  ghost predicate HonestRun(w: World, s: State, tid: nat, es: seq<Event>)
    requires Possible(w, s, es)
    decreases |es|
  {
    es == [] ||
    (&& tid in s.mem.tasks
     && (Honest(w, s, tid, es[0]) || Harmless(es[0], tid))
     && HonestRun(w, Step(w, s, es[0]), tid, es[1..]))
  }

  /** In the course of the run the key is made pending by a request. */
  ghost predicate Renewed(w: World, s: State, es: seq<Event>, key: Key)
    requires Possible(w, s, es)
    decreases |es|
  {
    es != [] && (Renews(w, s, es[0], key) || Renewed(w, Step(w, s, es[0]), es[1..], key))
  }

  function OwnEvents(es: seq<Event>, tid: nat): nat {
    if es == [] then 0 else (if Owner(es[0]) == Some(tid) then 1 else 0) + OwnEvents(es[1..], tid)
  }

  /** Whatever the interleaving with everything else on the node, a healthy task takes at most
      `Measure` honest events. If it is gone, its file is complete in its own directory and recorded as
      published; and not pending, unless a request for the same file has come in meanwhile. */
  lemma {:induction false} HonestRunEndsWell(w: World, s: State, tid: nat, es: seq<Event>)
    requires WellFormed(w) && Inv(w, s) && Working(w, s, tid) && Possible(w, s, es) && HonestRun(w, s, tid, es)
    ensures OwnEvents(es, tid) + Measure(w, Run(w, s, es), tid) <= Measure(w, s, tid)
    ensures
      var t, r := Run(w, s, es), s.mem.tasks[tid].record;
      if tid in t.mem.tasks then Working(w, t, tid)
      else
        && Delivered(w, t.disk, t.store, r)
        && (Unpended(s.store, s.mem.tasks[tid]) && !Renewed(w, s, es, r.key) ==> r.key !in t.store.pending)
    decreases |es|
  {
    if es != [] {
      var t := Step(w, s, es[0]);
      StepInv(w, s, es[0]);
      HonestStep(w, s, tid, es[0]);
      if tid in t.mem.tasks {
        HonestRunEndsWell(w, t, tid, es[1..]);
        SameDelivered(w, Run(w, s, es), t.mem.tasks[tid].record, s.mem.tasks[tid].record);
      } else {
        assert es[1..] == [];
      }
    }
  }

  lemma HonestStep(w: World, s: State, tid: nat, e: Event)
    requires WellFormed(w) && Inv(w, s) && Working(w, s, tid) && Enabled(w, s, e)
    requires Honest(w, s, tid, e) || Harmless(e, tid)
    ensures
      var t, before := Step(w, s, e), s.mem.tasks[tid];
      var now := Now(t, tid, before.record);
      && (if Owner(e) == Some(tid) then 1 else 0) + Measure(w, t, tid) <= Measure(w, s, tid)
      && Healthy(w, t.disk, t.store, t.mem.chunks, tid, now)
      && now.record.key == before.record.key && now.record.chunksDir == before.record.chunksDir
      && (Unpended(s.store, before) && !Renews(w, s, e, before.record.key) ==> Unpended(t.store, now))
  {
    if Honest(w, s, tid, e) { HonestAdvances(w, s, tid, e); } else { OthersKeepWorking(w, s, tid, e); }
  }

  lemma SameDelivered(w: World, t: State, a: PendingDownloadRecord, b: PendingDownloadRecord)
    requires a.key == b.key && a.chunksDir == b.chunksDir
    ensures Delivered(w, t.disk, t.store, a) <==> Delivered(w, t.disk, t.store, b)
  {
  }

  // ----- some honest event there always is -----

  /** A chunk task of the task can go on, if any chunk task is left. */
  ghost predicate CanGoOn(s: State, tid: nat) {
    s.mem.free > 0 || (exists c :: c in s.mem.chunks && c.task == tid && !s.mem.chunks[c].Waiting?)
  }

  lemma ChunkGoesOn(w: World, s: State, c: ChunkTask) returns (e: Event)
    requires c in s.mem.chunks && c.task in s.mem.tasks && s.mem.tasks[c.task].phase.Collecting?
    requires s.mem.free > 0 || !s.mem.chunks[c].Waiting?
    requires s.mem.tasks[c.task].record.chunksDir in w.contents
    requires c.id < |w.contents[s.mem.tasks[c.task].record.chunksDir]|
    ensures Enabled(w, s, e) && Honest(w, s, c.task, e)
  {
    var published := w.contents[s.mem.tasks[c.task].record.chunksDir][c.id];
    match s.mem.chunks[c]
    case Waiting => e := OfPass(Acquire(c));
    case Requesting => e := OfPass(Reply(c, Some(Some(Success(published)))));
    case Received(_) => e := OfPass(VerifyAndSave(c, true));
    case OnDisk => e := OfPass(AnnounceChunk(c, true));
    case Done(_) => e := OfPass(Join(c, true));
  }

  lemma WritingFacts(w: World, s: State, tid: nat)
    requires WellFormed(w) && Inv(w, s) && tid in s.mem.tasks && s.mem.tasks[tid].phase.Writing?
    ensures
      var Writing(m, pieces) := s.mem.tasks[tid].phase;
      && |pieces| <= m.totalChunks && PartFile(m) in s.disk.files
      && (|pieces| < m.totalChunks ==> ChunkFile(m, |pieces|) in s.disk.files)
  {
    var task := s.mem.tasks[tid];
    var Writing(m, pieces) := task.phase;
    assert TaskOk(w, s.disk, s.store.published.Keys, s.mem.chunks.Keys, tid, task);
    assert Genuine(w, task.record.chunksDir);
    if |pieces| < m.totalChunks {
      assert ChunkOk(w, s.disk, task.record.chunksDir, |pieces|);
    }
  }

  lemma CollectingGoesOn(w: World, s: State, tid: nat) returns (e: Event)
    requires WellFormed(w) && Inv(w, s) && tid in s.mem.tasks && s.mem.tasks[tid].phase.Collecting? && CanGoOn(s, tid)
    ensures Enabled(w, s, e) && Honest(w, s, tid, e)
  {
    TaskFacts(w, s, tid);
    if c :| c in s.mem.chunks && c.task == tid && (s.mem.free > 0 || !s.mem.chunks[c].Waiting?) {
      ChunkFacts(w, s, c);
      e := ChunkGoesOn(w, s, c);
    } else {
      e := OfPass(JoinsDone(tid));
    }
  }

  lemma FinishingGoesOn(w: World, s: State, tid: nat) returns (e: FinishEvent)
    requires WellFormed(w) && Inv(w, s) && Working(w, s, tid)
    requires !s.mem.tasks[tid].phase.Starting? && !s.mem.tasks[tid].phase.Collecting?
    ensures CanFinish(w, s, e) && HonestFinish(e) && e.tid == tid
  {
    match s.mem.tasks[tid].phase
    case Completing => e := OpenPart(tid, true);
    case Writing(m, pieces) =>
      WritingFacts(w, s, tid);
      e := if |pieces| < m.totalChunks then AppendChunk(tid, true) else RenamePart(tid, true);
    case Publishing(_) => e := PutPublished(tid, true);
    case Deleting(_) => e := DeletePending(tid, true);
    case Providing(_) => e := ProvideRestored(tid);
    case Ended => e := EndTask(tid);
  }

  /** A task that is to begin, but cannot read its metadata. */
  predicate Blocked(s: State, tid: nat)
    requires tid in s.mem.tasks
  {
    s.mem.tasks[tid].phase.Starting? && !Readable(s.disk, s.mem.tasks[tid].record.chunksDir)
  }

  /** A healthy task is never stuck: it has an honest event, unless it cannot read its metadata, or waits
      for a permit and all of them are with others. */
  lemma NotStuck(w: World, s: State, tid: nat) returns (e: Event)
    requires WellFormed(w) && Inv(w, s) && Working(w, s, tid) && !Blocked(s, tid)
    requires s.mem.tasks[tid].phase.Collecting? ==> CanGoOn(s, tid)
    ensures Enabled(w, s, e) && Honest(w, s, tid, e)
  {
    match s.mem.tasks[tid].phase
    case Starting => e := OfPass(ReadMetadata(tid, true));
    case Collecting(_, _) => e := CollectingGoesOn(w, s, tid);
    case _ =>
      var finish := FinishingGoesOn(w, s, tid);
      e := OfFinish(finish);
  }

  ghost predicate AllWorking(w: World, s: State) {
    forall tid :: tid in s.mem.tasks ==> Working(w, s, tid)
  }

  lemma SomeHolder(w: World, s: State) returns (tid: nat)
    requires Inv(w, s) && PermitsInv(w, s.mem) && w.permits > 0 && s.mem.free == 0
    ensures tid in s.mem.tasks && s.mem.tasks[tid].phase.Collecting? && CanGoOn(s, tid)
  {
    assert Holding(s.mem.chunks) != {};
    var c :| c in Holding(s.mem.chunks);
    assert c in s.mem.chunks && !s.mem.chunks[c].Waiting?;
    ChunkFacts(w, s, c);
    tid := c.task;
  }

  /** Under contention: when no permit is free, a holder of one can go on. So of all the tasks of a node,
      if they are healthy and not all of them lack their metadata, one always has an honest event. */
  lemma SomeoneGoesOn(w: World, s: State, some: nat) returns (tid: nat, e: Event)
    requires WellFormed(w) && Inv(w, s) && PermitsInv(w, s.mem) && w.permits > 0 && AllWorking(w, s)
    requires some in s.mem.tasks && !Blocked(s, some)
    ensures tid in s.mem.tasks && !Blocked(s, tid) && Enabled(w, s, e) && Honest(w, s, tid, e)
  {
    tid := some;
    if s.mem.free == 0 {
      tid := SomeHolder(w, s);
    }
    e := NotStuck(w, s, tid);
  }

  // ----- bringing all tasks to their end -----

  /** What all tasks with numbers below `n` have left to do. */
  ghost function Sum(w: World, s: State, n: nat): nat {
    if n == 0 then 0 else Sum(w, s, n - 1) + Measure(w, s, n - 1)
  }

  lemma {:induction false} SumChange(w: World, s: State, t: State, tid: nat, n: nat)
    requires forall i: nat :: i != tid ==> Measure(w, t, i) == Measure(w, s, i)
    requires Measure(w, t, tid) < Measure(w, s, tid)
    ensures if tid < n then Sum(w, t, n) < Sum(w, s, n) else Sum(w, t, n) == Sum(w, s, n)
  {
    if n > 0 { SumChange(w, s, t, tid, n - 1); }
  }

  /** The store has the same to say about a key. */
  ghost predicate SameAt(a: Store, b: Store, key: Key) {
    && (key in a.published <==> key in b.published) && (key in a.published ==> b.published[key] == a.published[key])
    && (key in a.pending <==> key in b.pending) && (key in a.pending ==> b.pending[key] == a.pending[key])
  }

  /** A task's own event concerns no other key, and starts no task. */
  lemma OwnEventStore(w: World, s: State, tid: nat, e: Event, key: Key)
    requires Enabled(w, s, e) && Owner(e) == Some(tid) && tid in s.mem.tasks && s.mem.tasks[tid].record.key != key
    ensures SameAt(s.store, Step(w, s, e).store, key)
  {
    match e
    case OfPass(p) =>
    case OfFinish(f) =>
  }

  lemma OwnEventTasks(w: World, s: State, tid: nat, e: Event)
    requires Enabled(w, s, e) && Owner(e) == Some(tid) && tid in s.mem.tasks
    ensures Step(w, s, e).mem.tasks.Keys <= s.mem.tasks.Keys
  {
    match e
    case OfPass(p) =>
    case OfFinish(f) =>
  }

  lemma OwnEventMetas(w: World, s: State, tid: nat, e: Event)
    requires Enabled(w, s, e) && Owner(e) == Some(tid)
    ensures Step(w, s, e).disk.metas == s.disk.metas
  {
    match e
    case OfPass(p) =>
    case OfFinish(f) =>
  }

  /** One task has advanced, and to the others, to other keys and to metadata nothing has happened. */
  ghost predicate OneAdvances(w: World, s: State, t: State, tid: nat) {
    && tid in s.mem.tasks && !Blocked(s, tid) && Advances(w, s, t, tid) && t.disk.metas == s.disk.metas
    && t.mem.tasks.Keys <= s.mem.tasks.Keys
    && (forall i :: i in s.mem.tasks && i != tid ==> i in t.mem.tasks && t.mem.tasks[i] == s.mem.tasks[i])
    && (forall key :: key != s.mem.tasks[tid].record.key ==> SameAt(s.store, t.store, key))
  }

  lemma OthersStay(w: World, s: State, tid: nat, e: Event, i: nat)
    requires WellFormed(w) && Inv(w, s) && (i in s.mem.tasks ==> Working(w, s, i)) && tid in s.mem.tasks && tid != i
    requires Enabled(w, s, e) && Honest(w, s, tid, e)
    ensures
      var t := Step(w, s, e);
      && Measure(w, t, i) == Measure(w, s, i)
      && (i in s.mem.tasks ==> Working(w, t, i) && t.mem.tasks[i] == s.mem.tasks[i])
  {
    if i in s.mem.tasks { OthersKeepWorking(w, s, i, e); } else { OwnEventTasks(w, s, tid, e); }
  }

  lemma OthersStayAll(w: World, s: State, tid: nat, e: Event)
    requires WellFormed(w) && Inv(w, s) && AllWorking(w, s) && tid in s.mem.tasks
    requires Enabled(w, s, e) && Honest(w, s, tid, e)
    ensures forall i: nat :: i != tid ==> Measure(w, Step(w, s, e), i) == Measure(w, s, i)
    ensures forall i :: i in s.mem.tasks && i != tid ==>
      Working(w, Step(w, s, e), i) && Step(w, s, e).mem.tasks[i] == s.mem.tasks[i]
  {
    forall i: nat | i != tid
      ensures i in s.mem.tasks ==> Working(w, Step(w, s, e), i) && Step(w, s, e).mem.tasks[i] == s.mem.tasks[i]
      ensures Measure(w, Step(w, s, e), i) == Measure(w, s, i)
    {
      OthersStay(w, s, tid, e, i);
    }
  }

  lemma OwnEventStores(w: World, s: State, tid: nat, e: Event)
    requires Enabled(w, s, e) && Owner(e) == Some(tid) && tid in s.mem.tasks
    ensures forall key :: key != s.mem.tasks[tid].record.key ==> SameAt(s.store, Step(w, s, e).store, key)
  {
    forall key | key != s.mem.tasks[tid].record.key
      ensures SameAt(s.store, Step(w, s, e).store, key)
    {
      OwnEventStore(w, s, tid, e, key);
    }
  }

  lemma AllStillWorking(w: World, s: State, t: State, tid: nat, n: nat)
    requires OneAdvances(w, s, t, tid) && tid < n
    requires forall i: nat :: i != tid ==> Measure(w, t, i) == Measure(w, s, i)
    requires forall i :: i in s.mem.tasks && i != tid ==> Working(w, t, i)
    ensures AllWorking(w, t) && Sum(w, t, n) < Sum(w, s, n)
  {
    SumChange(w, s, t, tid, n);
  }

  lemma AllAdvance(w: World, s: State, tid: nat, e: Event, n: nat)
    requires WellFormed(w) && Inv(w, s) && AllWorking(w, s) && tid in s.mem.tasks && tid < n && !Blocked(s, tid)
    requires Enabled(w, s, e) && Honest(w, s, tid, e)
    ensures
      var t := Step(w, s, e);
      AllWorking(w, t) && OneAdvances(w, s, t, tid) && Sum(w, t, n) < Sum(w, s, n)
  {
    HonestAdvances(w, s, tid, e);
    OwnEventTasks(w, s, tid, e);
    OwnEventStores(w, s, tid, e);
    OwnEventMetas(w, s, tid, e);
    OthersStayAll(w, s, tid, e);
    AllStillWorking(w, s, Step(w, s, e), tid, n);
  }

  /** A task has come to its end: the file is delivered, and what the task has written to the store is
      what the store says, if that was so before. */
  ghost predicate Ends(w: World, s: State, t: State, task: Task) {
    && Delivered(w, t.disk, t.store, task.record)
    && (Unpended(s.store, task) ==> task.record.key !in t.store.pending)
    && (Recorded(s.store, task) ==> Mine(t.store, task.record))
  }

  lemma EndsNow(w: World, s: State, t: State, u: State, tid: nat)
    requires tid in s.mem.tasks && tid !in t.mem.tasks && Advances(w, s, t, tid)
    requires Grows(w, t.disk, u.disk) && SameAt(t.store, u.store, s.mem.tasks[tid].record.key)
    ensures Ends(w, s, u, s.mem.tasks[tid])
  {
  }

  lemma EndsLater(w: World, s: State, t: State, u: State, tid: nat)
    requires tid in s.mem.tasks && tid in t.mem.tasks && Ends(w, t, u, t.mem.tasks[tid])
    requires Advances(w, s, t, tid)
    ensures Ends(w, s, u, s.mem.tasks[tid])
  {
    SameDelivered(w, u, s.mem.tasks[tid].record, t.mem.tasks[tid].record);
  }

  lemma EndsOther(w: World, s: State, t: State, u: State, task: Task)
    requires Ends(w, t, u, task) && SameAt(s.store, t.store, task.record.key)
    ensures Ends(w, s, u, task)
  {
  }

  /** Some task of the key can go on. */
  ghost predicate HasLive(s: State, key: Key) {
    exists tid :: tid in s.mem.tasks && !Blocked(s, tid) && s.mem.tasks[tid].record.key == key
  }

  /** All tasks have come to their end, but for those that cannot read their metadata, to which, as to
      all other keys, nothing has happened. */
  ghost predicate AllEnd(w: World, s: State, u: State) {
    && u.disk.metas == s.disk.metas
    && (forall i :: i in u.mem.tasks <==> i in s.mem.tasks && Blocked(s, i))
    && (forall i :: i in u.mem.tasks ==> u.mem.tasks[i] == s.mem.tasks[i])
    && (forall i :: i in s.mem.tasks && !Blocked(s, i) ==> Ends(w, s, u, s.mem.tasks[i]))
    && (forall key :: !HasLive(s, key) ==> SameAt(s.store, u.store, key))
  }

  /** Healthy tasks can all be brought to their end, by honest events of their own alone. */
  lemma {:induction false} BringAllToEnd(w: World, s: State, n: nat) returns (es: seq<Event>)
    requires WellFormed(w) && Inv(w, s) && PermitsInv(w, s.mem) && w.permits > 0
    requires AllWorking(w, s) && forall tid :: tid in s.mem.tasks ==> tid < n
    ensures Possible(w, s, es) && NoSkips(es) && AllEnd(w, s, Run(w, s, es))
    decreases Sum(w, s, n)
  {
    if some :| some in s.mem.tasks && !Blocked(s, some) {
      var tid, e := NextOfAll(w, s, some, n);
      var rest := BringAllToEnd(w, Step(w, s, e), n);
      OneMore(w, s, tid, e, rest);
      es := [e] + rest;
    } else {
      es := [];
      NobodyLeft(w, s);
    }
  }

  lemma NobodyLeft(w: World, s: State)
    requires forall tid :: tid in s.mem.tasks ==> Blocked(s, tid)
    ensures AllEnd(w, s, s)
  {
  }

  lemma OneMore(w: World, s: State, tid: nat, e: Event, rest: seq<Event>)
    requires WellFormed(w) && Inv(w, s) && Enabled(w, s, e) && !e.OfQueue?
    requires Inv(w, Step(w, s, e)) && OneAdvances(w, s, Step(w, s, e), tid)
    requires tid in Step(w, s, e).mem.tasks ==> !Blocked(Step(w, s, e), tid)
    requires Possible(w, Step(w, s, e), rest) && NoSkips(rest)
    requires AllEnd(w, Step(w, s, e), Run(w, Step(w, s, e), rest))
    ensures Possible(w, s, [e] + rest) && NoSkips([e] + rest) && AllEnd(w, s, Run(w, s, [e] + rest))
  {
    var t := Step(w, s, e);
    RunCons(w, s, e, rest);
    RunGrows(w, t, rest);
    AllEndAfter(w, s, t, Run(w, t, rest), tid);
    NoSkipsCons(e, rest);
  }

  lemma NoSkipsCons(e: Event, rest: seq<Event>)
    requires NoSkips(rest) && !e.OfQueue?
    ensures NoSkips([e] + rest)
  {
    forall i | 0 <= i < |[e] + rest|
      ensures ([e] + rest)[i].OfQueue? ==> i > 0 && ([e] + rest)[i] == rest[i - 1]
    {
    }
  }

  lemma NextOfAll(w: World, s: State, some: nat, n: nat) returns (tid: nat, e: Event)
    requires WellFormed(w) && Inv(w, s) && PermitsInv(w, s.mem) && w.permits > 0
    requires AllWorking(w, s) && forall tid :: tid in s.mem.tasks ==> tid < n
    requires some in s.mem.tasks && !Blocked(s, some)
    ensures Enabled(w, s, e) && !e.OfQueue?
    ensures
      var t := Step(w, s, e);
      && Inv(w, t) && PermitsInv(w, t.mem) && AllWorking(w, t) && OneAdvances(w, s, t, tid)
      && Sum(w, t, n) < Sum(w, s, n)
      && (tid in t.mem.tasks ==> !Blocked(t, tid))
  {
    tid, e := SomeoneGoesOn(w, s, some);
    AllAdvance(w, s, tid, e, n);
    StepInv(w, s, e);
    InvCollecting(w, s);
    StepPermits(w, s, e);
    if tid in Step(w, s, e).mem.tasks { StaysUnblocked(w, s, tid, e); }
  }

  lemma StaysUnblocked(w: World, s: State, tid: nat, e: Event)
    requires Enabled(w, s, e) && Honest(w, s, tid, e) && tid in s.mem.tasks && tid in Step(w, s, e).mem.tasks
    requires !Blocked(s, tid)
    ensures !Blocked(Step(w, s, e), tid)
  {
    OwnEventMetas(w, s, tid, e);
    StepLater(w, s, e, tid);
  }

  lemma AllEndAfter(w: World, s: State, t: State, u: State, tid: nat)
    requires OneTaskPerKey(s.mem.tasks) && OneAdvances(w, s, t, tid) && Grows(w, t.disk, u.disk) && AllEnd(w, t, u)
    requires tid in t.mem.tasks ==> !Blocked(t, tid)
    ensures AllEnd(w, s, u)
  {
    forall i | i in s.mem.tasks && !Blocked(s, i)
      ensures Ends(w, s, u, s.mem.tasks[i])
    {
      EndsAfter(w, s, t, u, tid, i);
    }
    forall key | !HasLive(s, key)
      ensures SameAt(s.store, u.store, key)
    {
      SameAfter(w, s, t, u, tid, key);
    }
  }

  lemma EndsAfter(w: World, s: State, t: State, u: State, tid: nat, i: nat)
    requires OneTaskPerKey(s.mem.tasks) && OneAdvances(w, s, t, tid) && Grows(w, t.disk, u.disk) && AllEnd(w, t, u)
    requires tid in t.mem.tasks ==> !Blocked(t, tid)
    requires i in s.mem.tasks && !Blocked(s, i)
    ensures Ends(w, s, u, s.mem.tasks[i])
  {
    if i != tid {
      assert SameAt(s.store, t.store, s.mem.tasks[i].record.key);
      EndsOther(w, s, t, u, s.mem.tasks[i]);
    } else if tid in t.mem.tasks {
      EndsLater(w, s, t, u, tid);
    } else {
      assert !HasLive(t, s.mem.tasks[tid].record.key);
      EndsNow(w, s, t, u, tid);
    }
  }

  lemma SameAfter(w: World, s: State, t: State, u: State, tid: nat, key: Key)
    requires OneAdvances(w, s, t, tid) && !HasLive(s, key) && AllEnd(w, t, u)
    ensures SameAt(s.store, u.store, key)
  {
    assert s.mem.tasks[tid].record.key != key;
    if HasLive(t, key) { LiveBefore(w, s, t, tid, key); }
    assert SameAt(s.store, t.store, key);
    assert SameAt(t.store, u.store, key);
  }

  lemma LiveBefore(w: World, s: State, t: State, tid: nat, key: Key)
    requires OneAdvances(w, s, t, tid) && HasLive(t, key)
    ensures HasLive(s, key)
  {
    var i :| i in t.mem.tasks && !Blocked(t, i) && t.mem.tasks[i].record.key == key;
    assert i in s.mem.tasks && !Blocked(s, i) && s.mem.tasks[i].record.key == key;
  }
}
