/** Every task ends, whatever peers reply and whatever fails: each of its events leaves it less to do, it
    always has one to go on with, and when it is gone its file can be started again. Every request ends
    too, and a turn of the publish queue is stuck to. */
module NodeLiveness {
  import opened Bytes
  import opened Keys
  import opened Node
  import opened NodeInvariant
  import opened NodeSafety
  import opened NodeTheorems
  import opened NodeResources
  import opened NodeRecovery
  import opened NodeConvergence
  import opened NodeRestart

  // ----- every own event lowers the measure -----

  lemma ReadLowers(w: World, s: State, tid: nat, ok: bool)
    requires WellFormed(w) && Inv(w, s) && CanReadMetadata(s, tid, ok)
    ensures Measure(w, DoReadMetadata(s, tid, ok), tid) < Measure(w, s, tid)
  {
    TaskFacts(w, s, tid);
    LoadBound(DoReadMetadata(s, tid, ok).mem.chunks, tid, Total(w, s.mem.tasks[tid]));
  }

  lemma ChunkLowers(w: World, s: State, t: State, c: ChunkTask)
    requires c.task in s.mem.tasks && s.mem.tasks[c.task].phase.Collecting? && c.id < Total(w, s.mem.tasks[c.task])
    requires c in t.mem.chunks && t.mem.tasks == s.mem.tasks && t.mem.chunks == s.mem.chunks[c := t.mem.chunks[c]]
    requires Weight(t.mem.chunks, c) < Weight(s.mem.chunks, c)
    ensures Measure(w, t, c.task) < Measure(w, s, c.task)
  {
    LoadChange(s.mem.chunks, t.mem.chunks, c.task, c.id, Total(w, s.mem.tasks[c.task]));
  }

  lemma JoinLowers(w: World, s: State, c: ChunkTask, putOk: bool)
    requires CanJoin(s, c) && c.id < Total(w, s.mem.tasks[c.task])
    ensures Measure(w, DoJoin(s, c, putOk), c.task) < Measure(w, s, c.task)
  {
    LoadChange(s.mem.chunks, DoJoin(s, c, putOk).mem.chunks, c.task, c.id, Total(w, s.mem.tasks[c.task]));
  }

  lemma JoinsDoneLowers(w: World, s: State, tid: nat)
    requires Inv(w, s) && CanJoinsDone(s, tid)
    ensures Measure(w, DoJoinsDone(s, tid), tid) < Measure(w, s, tid)
  {
    PassComplete(w, s, tid);
  }

  lemma ChunkEventLowers(w: World, s: State, e: PassEvent)
    requires e.Acquire? || e.Reply? || e.VerifyAndSave? || e.AnnounceChunk? || e.Join?
    requires CanPass(w, s, e) && e.c.task in s.mem.tasks && s.mem.tasks[e.c.task].phase.Collecting?
    requires e.c.id < Total(w, s.mem.tasks[e.c.task])
    ensures Measure(w, DoPass(w, s, e), e.c.task) < Measure(w, s, e.c.task)
  {
    match e
    case Join(c, putOk) => JoinLowers(w, s, c, putOk);
    case Acquire(c) => ChunkLowers(w, s, DoAcquire(s, c), c);
    case Reply(c, reply) => ChunkLowers(w, s, DoReply(s, c, reply), c);
    case VerifyAndSave(c, ok) => ChunkLowers(w, s, DoVerifyAndSave(w, s, c, ok), c);
    case AnnounceChunk(c, ok) => ChunkLowers(w, s, DoAnnounceChunk(s, c, ok), c);
  }

  lemma PassLowers(w: World, s: State, tid: nat, e: PassEvent)
    requires WellFormed(w) && Inv(w, s) && CanPass(w, s, e) && Owner(OfPass(e)) == Some(tid)
    ensures tid in s.mem.tasks && Measure(w, DoPass(w, s, e), tid) < Measure(w, s, tid)
  {
    if e.ReadMetadata? {
      ReadLowers(w, s, tid, e.ok);
    } else if e.JoinsDone? {
      JoinsDoneLowers(w, s, tid);
    } else {
      ChunkFacts(w, s, e.c);
      ChunkEventLowers(w, s, e);
    }
  }

  lemma FinishLowers(w: World, s: State, e: FinishEvent)
    requires CanFinish(w, s, e)
    requires s.mem.tasks[e.tid].phase.Writing? ==>
      s.mem.tasks[e.tid].phase.m.totalChunks == Total(w, s.mem.tasks[e.tid])
    ensures Measure(w, DoFinish(w, s, e), e.tid) < Measure(w, s, e.tid)
  {
    if !e.EndTask? {
      assert DoFinish(w, s, e).mem.tasks[e.tid].record == s.mem.tasks[e.tid].record;
    }
  }

  /** Whatever happens to a task, honest or not, it has less to do afterwards. */
  lemma OwnEventLowers(w: World, s: State, tid: nat, e: Event)
    requires WellFormed(w) && Inv(w, s) && Enabled(w, s, e) && Owner(e) == Some(tid)
    ensures tid in s.mem.tasks && Measure(w, Step(w, s, e), tid) < Measure(w, s, tid)
  {
    match e
    case OfPass(p) => PassLowers(w, s, tid, p);
    case OfFinish(f) =>
      TaskFacts(w, s, tid);
      FinishLowers(w, s, f);
  }

  // ----- whole runs -----

  /** A run without a crash, until the task is gone. */
  ghost predicate LifeOf(w: World, s: State, tid: nat, es: seq<Event>)
    requires Possible(w, s, es)
    decreases |es|
  {
    es == [] || (tid in s.mem.tasks && !es[0].Crash? && LifeOf(w, Step(w, s, es[0]), tid, es[1..]))
  }

  lemma EventLowers(w: World, s: State, tid: nat, e: Event)
    requires WellFormed(w) && Inv(w, s) && Enabled(w, s, e) && tid in s.mem.tasks && !e.Crash?
    ensures (if Owner(e) == Some(tid) then 1 else 0) + Measure(w, Step(w, s, e), tid) <= Measure(w, s, tid)
  {
    if Owner(e) == Some(tid) {
      OwnEventLowers(w, s, tid, e);
    } else {
      OthersLeaveTask(w, s, tid, e);
      SameTaskSameMeasure(w, s, Step(w, s, e), tid);
    }
  }

  /** Over every run without a crash, whatever the replies and failures, a task takes part in at most
      `Measure` events. */
  lemma {:induction false} TaskEnds(w: World, s: State, tid: nat, es: seq<Event>)
    requires WellFormed(w) && Inv(w, s) && Possible(w, s, es) && LifeOf(w, s, tid, es)
    ensures OwnEvents(es, tid) + Measure(w, Run(w, s, es), tid) <= Measure(w, s, tid)
    decreases |es|
  {
    if es != [] {
      StepInv(w, s, es[0]);
      EventLowers(w, s, tid, es[0]);
      TaskEnds(w, Step(w, s, es[0]), tid, es[1..]);
    }
  }

  // ----- there is always an event -----

  lemma SomeChunkEvent(s: State, c: ChunkTask) returns (e: PassEvent)
    requires c in s.mem.chunks && c.task in s.mem.tasks && s.mem.tasks[c.task].phase.Collecting?
    requires s.mem.free > 0 || !s.mem.chunks[c].Waiting?
    ensures (e.Acquire? || e.Reply? || e.VerifyAndSave? || e.AnnounceChunk? || e.Join?) && e.c == c
    ensures
      match e
      case Acquire(_) => CanAcquire(s, c)
      case Reply(_, _) => CanReply(s, c)
      case VerifyAndSave(_, _) => CanVerifyAndSave(s, c)
      case AnnounceChunk(_, _) => CanAnnounceChunk(s, c)
      case Join(_, _) => CanJoin(s, c)
      case _ => true
  {
    match s.mem.chunks[c]
    case Waiting => e := Acquire(c);
    case Requesting => e := Reply(c, None);
    case Received(_) => e := VerifyAndSave(c, true);
    case OnDisk => e := AnnounceChunk(c, true);
    case Done(_) => e := Join(c, true);
  }

  lemma SomeFinishEvent(w: World, s: State, tid: nat) returns (e: FinishEvent)
    requires WellFormed(w) && Inv(w, s) && tid in s.mem.tasks
    requires !s.mem.tasks[tid].phase.Starting? && !s.mem.tasks[tid].phase.Collecting?
    ensures CanFinish(w, s, e) && e.tid == tid
  {
    match s.mem.tasks[tid].phase
    case Completing => e := OpenPart(tid, false);
    case Writing(m, pieces) =>
      TaskFacts(w, s, tid);
      e := if |pieces| < m.totalChunks then AppendChunk(tid, false) else RenamePart(tid, false);
    case Publishing(_) => e := PutPublished(tid, true);
    case Deleting(_) => e := DeletePending(tid, true);
    case Providing(_) => e := ProvideRestored(tid);
    case Ended => e := EndTask(tid);
  }

  lemma SomePassEvent(w: World, s: State, tid: nat) returns (e: PassEvent)
    requires Inv(w, s) && tid in s.mem.tasks && s.mem.tasks[tid].phase.Collecting? && CanGoOn(s, tid)
    ensures CanPass(w, s, e) && Owner(OfPass(e)) == Some(tid)
  {
    if c :| c in s.mem.chunks && c.task == tid && (s.mem.free > 0 || !s.mem.chunks[c].Waiting?) {
      ChunkFacts(w, s, c);
      e := SomeChunkEvent(s, c);
    } else {
      e := JoinsDone(tid);
    }
  }

  /** Every live task has an event of its own to go on with, healthy or not, unless it waits for a permit and
      all of them are with others. */
  lemma NeverStuck(w: World, s: State, tid: nat) returns (e: Event)
    requires WellFormed(w) && Inv(w, s) && tid in s.mem.tasks
    requires s.mem.tasks[tid].phase.Collecting? ==> CanGoOn(s, tid)
    ensures Enabled(w, s, e) && Owner(e) == Some(tid)
  {
    match s.mem.tasks[tid].phase
    case Starting => e := OfPass(ReadMetadata(tid, false));
    case Collecting(_, _) =>
      var p := SomePassEvent(w, s, tid);
      e := OfPass(p);
    case _ =>
      var f := SomeFinishEvent(w, s, tid);
      e := OfFinish(f);
  }

  /** And then one of these has an event: the tasks of a node never block each other. */
  lemma NoDeadlock(w: World, s: State) returns (tid: nat, e: Event)
    requires WellFormed(w) && Inv(w, s) && PermitsInv(w, s.mem) && w.permits > 0 && s.mem.tasks != map[]
    ensures tid in s.mem.tasks && Enabled(w, s, e) && Owner(e) == Some(tid)
  {
    tid :| tid in s.mem.tasks;
    if s.mem.free == 0 {
      tid := SomeHolder(w, s);
    }
    e := NeverStuck(w, s, tid);
  }

  // ----- requests and turns of the queue -----

  /** How much is left to do for a request. */
  function Left(w: World, session: Session): nat {
    match session
    case LookingUp(_, requested) => if requested then 3 else 4
    case Splitting(d, next) => if d in w.contents && next <= |w.contents[d]| then |w.contents[d]| - next + 3 else 3
    case Saving(_, _) => 2
    case Described(_, _) => 1
  }

  function LeftOf(w: World, s: State, sid: nat): nat {
    if sid in s.mem.sessions then Left(w, s.mem.sessions[sid]) else 0
  }

  /** A step of the request, be it a failure; announcing alone does not count as one. */
  predicate Takes(e: Event, sid: nat) {
    e.OfRequest? && e.request.sid == sid && !e.request.ProvideRequested?
  }

  function Steps(es: seq<Event>, sid: nat): nat {
    if es == [] then 0 else (if Takes(es[0], sid) then 1 else 0) + Steps(es[1..], sid)
  }

  lemma RequestLowers(w: World, s: State, sid: nat, e: RequestEvent)
    requires CanRequest(w, s, e) && sid in s.mem.sessions
    ensures (if Takes(OfRequest(e), sid) then 1 else 0) + LeftOf(w, DoRequest(w, s, e), sid) <= LeftOf(w, s, sid)
  {
  }

  lemma StepLowersRequest(w: World, s: State, sid: nat, e: Event)
    requires Enabled(w, s, e) && sid in s.mem.sessions
    ensures (if Takes(e, sid) then 1 else 0) + LeftOf(w, Step(w, s, e), sid) <= LeftOf(w, s, sid)
  {
    match e
    case Crash =>
    case OfRequest(r) => RequestLowers(w, s, sid, r);
    case OfQueue(q) => QueueKeepsSessions(w, s, q);
    case OfPass(p) => PassKeepsSessions(w, s, p);
    case OfFinish(f) => FinishKeepsSessions(w, s, f);
  }

  /** The request is being carried out in every state of the run but perhaps the last. */
  ghost predicate Serving(w: World, s: State, sid: nat, es: seq<Event>)
    requires Possible(w, s, es)
    decreases |es|
  {
    es == [] || (sid in s.mem.sessions && Serving(w, Step(w, s, es[0]), sid, es[1..]))
  }

  /** Over every run, whatever fails: a request takes a bounded number of steps, and stores its record, or fails
      to, at most once. */
  lemma {:induction false} RequestEnds(w: World, s: State, sid: nat, es: seq<Event>)
    requires Possible(w, s, es) && Serving(w, s, sid, es)
    ensures Steps(es, sid) + LeftOf(w, Run(w, s, es), sid) <= LeftOf(w, s, sid)
    ensures forall i :: 0 <= i < |es| && es[i].OfRequest? && es[i].request.StoreRecord? && es[i].request.sid == sid ==>
      i == |es| - 1 && sid !in Run(w, s, es).mem.sessions
    decreases |es|
  {
    if es != [] {
      StepLowersRequest(w, s, sid, es[0]);
      var t := Step(w, s, es[0]);
      RequestEnds(w, t, sid, es[1..]);
      forall i | 0 <= i < |es| && es[i].OfRequest? && es[i].request.StoreRecord? && es[i].request.sid == sid
        ensures i == |es| - 1 && sid !in Run(w, s, es).mem.sessions
      {
        if i == 0 {
          assert sid !in t.mem.sessions;
          assert es[1..] == [];
        } else {
          assert es[i] == es[1..][i - 1];
        }
      }
    }
  }

  predicate Busy(worker: Worker) {
    !worker.Booting? && !worker.Idle?
  }

  /** The part of a turn that the worker is in: announcing, recording, clearing. */
  function Part(worker: Worker): nat {
    match worker
    case Announcing(_, _) => 1
    case Recording(_) => 2
    case Clearing(_) => 3
    case _ => 0
  }

  lemma StepKeepsTurn(w: World, s: State, e: Event)
    requires Enabled(w, s, e) && !e.Crash? && e != OfQueue(ClearJob(true)) && Busy(s.mem.worker)
    ensures
      var worker := Step(w, s, e).mem.worker;
      Busy(worker) && worker.m == s.mem.worker.m && Part(s.mem.worker) <= Part(worker)
  {
    match e
    case OfRequest(r) => RequestKeepsWorker(w, s, r);
    case OfQueue(q) =>
    case OfPass(p) => PassKeepsWorker(w, s, p);
    case OfFinish(f) => FinishKeepsWorker(w, s, f);
  }

  lemma RequestKeepsWorker(w: World, s: State, e: RequestEvent)
    requires CanRequest(w, s, e)
    ensures DoRequest(w, s, e).mem.worker == s.mem.worker
  {
  }

  lemma PassKeepsWorker(w: World, s: State, e: PassEvent)
    requires CanPass(w, s, e)
    ensures DoPass(w, s, e).mem.worker == s.mem.worker
  {
  }

  lemma FinishKeepsWorker(w: World, s: State, e: FinishEvent)
    requires CanFinish(w, s, e)
    ensures DoFinish(w, s, e).mem.worker == s.mem.worker
  {
  }

  /** A turn of the queue, once taken, is stuck to: whatever fails, until the job is removed or the node crashes,
      the worker has this job and goes back neither from recording it nor from removing it. */
  lemma {:induction false} TurnGoesOn(w: World, s: State, es: seq<Event>)
    requires Possible(w, s, es) && Busy(s.mem.worker)
    requires forall i :: 0 <= i < |es| ==> !es[i].Crash? && es[i] != OfQueue(ClearJob(true))
    ensures
      var worker := Run(w, s, es).mem.worker;
      Busy(worker) && worker.m == s.mem.worker.m && Part(s.mem.worker) <= Part(worker)
    decreases |es|
  {
    if es != [] {
      StepKeepsTurn(w, s, es[0]);
      forall i | 0 <= i < |es[1..]|
        ensures !es[1..][i].Crash? && es[1..][i] != OfQueue(ClearJob(true))
      {
        assert es[1..][i] == es[i + 1];
      }
      TurnGoesOn(w, Step(w, s, es[0]), es[1..]);
    }
  }

  // ----- and then the file can be started again -----

  /** Only its end makes a task disappear, and then its key is not active. */
  lemma GoneIsInactive(w: World, s: State, tid: nat, e: Event)
    requires Enabled(w, s, e) && !e.Crash? && tid in s.mem.tasks && tid !in Step(w, s, e).mem.tasks
    ensures e == OfFinish(EndTask(tid)) && s.mem.tasks[tid].record.key !in Step(w, s, e).mem.active
  {
    match e
    case OfRequest(r) => RequestKeepsKeys(w, s, r);
    case OfQueue(q) =>
    case OfPass(p) => PassKeepsTask(w, s, p, tid);
    case OfFinish(f) =>
  }

  lemma PassKeepsTask(w: World, s: State, e: PassEvent, tid: nat)
    requires CanPass(w, s, e) && tid in s.mem.tasks
    ensures tid in DoPass(w, s, e).mem.tasks
  {
  }

  lemma {:induction false} Unused(tasks: map<nat, Task>) returns (tid: nat)
    ensures forall t :: t in tasks ==> t < tid
    decreases |tasks|
  {
    if tasks == map[] {
      tid := 0;
    } else {
      var t :| t in tasks;
      var rest := tasks - {t};
      assert rest.Keys == tasks.Keys - {t};
      var below := Unused(rest);
      tid := if t < below then below else t + 1;
      forall u | u in tasks ensures u < tid { assert u == t || u in rest; }
    }
  }

  /** From a record in the stream that is not active, the scheduler gets to a task for it. */
  lemma {:induction false} StreamReaches(w: World, s: State, i: nat) returns (es: seq<Event>, tid: nat)
    requires s.mem.free > 0 && i < |s.mem.stream| && s.mem.stream[i].key !in s.mem.active
    requires forall j :: 0 <= j < i ==> s.mem.stream[j].key != s.mem.stream[i].key
    ensures Possible(w, s, es)
    ensures
      var t := Run(w, s, es);
      tid in t.mem.tasks && t.mem.tasks[tid] == Task(s.mem.stream[i], Starting)
    decreases i
  {
    var fresh' := Unused(s.mem.tasks);
    var e := OfPass(NextRecord(fresh'));
    var t := Step(w, s, e);
    if i == 0 {
      RunCons(w, s, e, []);
      es, tid := [e] + [], fresh';
    } else {
      assert t.mem.stream[i - 1] == s.mem.stream[i];
      assert forall j :: 0 <= j < i - 1 ==> t.mem.stream[j] == s.mem.stream[j + 1];
      var rest;
      rest, tid := StreamReaches(w, t, i - 1);
      RunCons(w, s, e, rest);
      es := [e] + rest;
    }
  }

  /** The scheduler starts a task for the first record exactly if a permit is free and the key is not active;
      if no permit is free it gives up the whole stream. */
  lemma NextRecordExactly(s: State, tid: nat)
    requires CanNextRecord(s, tid)
    ensures
      var t, record := DoNextRecord(s, tid), s.mem.stream[0];
      && (tid in t.mem.tasks <==> s.mem.free > 0 && record.key !in s.mem.active)
      && (s.mem.active != t.mem.active <==> tid in t.mem.tasks)
      && t.mem.tasks.Keys == s.mem.tasks.Keys + (if tid in t.mem.tasks then {tid} else {})
      && (s.mem.free == 0 ==> t == s.(mem := s.mem.(stream := [])))
      && (s.mem.free > 0 ==> [record] + t.mem.stream == s.mem.stream)
  {
    assert s.mem.stream == [s.mem.stream[0]] + s.mem.stream[1..];
  }

  /** A running node that has a free permit and is not going through a stream starts a pending file that is
      not active, from its stored record. */
  lemma TickStarts(w: World, s: State, key: Key) returns (es: seq<Event>, tid: nat)
    requires Inv(w, s) && !s.mem.worker.Booting? && s.mem.free > 0 && s.mem.stream == []
    requires key in s.store.pending && key !in s.mem.active
    ensures Possible(w, s, es)
    ensures
      var t := Run(w, s, es);
      tid in t.mem.tasks && t.mem.tasks[tid] == Task(s.store.pending[key], Starting)
  {
    var snapshot := SnapshotExists(s.store.pending);
    SnapshotKeys(s.store.pending, snapshot);
    assert s.store.pending[key] in snapshot;
    var i :| 0 <= i < |snapshot| && snapshot[i] == s.store.pending[key];
    assert s.store.pending[key].key == key;
    var tick := OfPass(Tick(snapshot));
    var rest;
    rest, tid := StreamReaches(w, Step(w, s, tick), i);
    RunCons(w, s, tick, rest);
    es := [tick] + rest;
  }
}
