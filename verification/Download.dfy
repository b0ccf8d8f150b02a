/** One pass over the missing chunks of a pending download: which chunk tasks are started, and how
    their results, arriving in any order, decide the result of the pass. */
module Download {
  import opened Bytes
  import opened Keys
  import opened Domain

  /** How a chunk task ends: chunk stored and announced, no chunk to be had, or an error. */
  datatype Outcome = Got | Nothing | Failed

  datatype Progress = Progress(downloaded: set<nat>, firstError: Option<nat>)

  /** The effect of one chunk task's end. An error is known by the chunk it happened for. */
  function Absorb(p: Progress, id: nat, outcome: Outcome): Progress {
    match outcome
    case Got => p.(downloaded := p.downloaded + {id})
    case Nothing => p
    case Failed => if p.firstError.None? then p.(firstError := Some(id)) else p
  }

  /** The pass fails with its first error; otherwise it tells whether the chunks are as many as
      the proofs. */
  function PassResult(p: Progress, total: nat): Result<bool, nat> {
    match p.firstError
    case Some(id) => Err(id)
    case None => Ok(|p.downloaded| == total)
  }

  function Ids(n: nat): (ids: set<nat>)
    ensures forall i: nat :: i in ids <==> i < n
  {
    if n == 0 then {} else Ids(n - 1) + {n - 1}
  }

  lemma {:induction false} IdsCount(n: nat)
    ensures |Ids(n)| == n
  {
    if n > 0 {
      IdsCount(n - 1);
      assert n - 1 !in Ids(n - 1);
    }
  }

  lemma SubsetCount<T>(a: set<T>, b: set<T>)
    requires a <= b
    ensures |a| <= |b|
    ensures |a| == |b| <==> a == b
  {
    assert b == a + (b - a);
  }

  /** As many ids below `n` as there are proofs are all of them. */
  lemma CountIsComplete(downloaded: set<nat>, n: nat)
    requires downloaded <= Ids(n)
    ensures |downloaded| == n <==> downloaded == Ids(n)
  {
    IdsCount(n);
    SubsetCount(downloaded, Ids(n));
  }

  /** The store of pending downloads, whose writes may fail; `attempts` lists the records it was
      asked to write. */
  class PendingStore {
    var pending: map<Key, PendingDownloadRecord>
    ghost var attempts: seq<PendingDownloadRecord>

    method Put(record: PendingDownloadRecord) returns (ok: bool)
      modifies this
      ensures pending == if ok then old(pending)[record.key := record] else old(pending)
      ensures attempts == old(attempts) + [record]
    {
      attempts := attempts + [record];
      ok := *;
      if ok {
        pending := pending[record.key := record];
      }
    }
  }

  /** The chunk tasks to start: one for each chunk not downloaded yet, none twice. */
  method Missing(record: PendingDownloadRecord, total: nat) returns (ids: seq<nat>)
    ensures forall i: nat :: i in ids <==> i < total && i !in record.downloadedChunks
    ensures forall j, k :: 0 <= j < k < |ids| ==> ids[j] < ids[k]
  {
    ids := [];
    for id := 0 to total
      invariant forall i: nat :: i in ids <==> i < id && i !in record.downloadedChunks
      invariant forall j :: 0 <= j < |ids| ==> ids[j] < id
      invariant forall j, k :: 0 <= j < k < |ids| ==> ids[j] < ids[k]
    {
      if id in record.downloadedChunks {
        continue;
      }
      ids := ids + [id];
    }
  }

  /** The end of a chunk task, as the join loop sees it. */
  datatype Joined = Joined(id: nat, outcome: Outcome)

  /** The results are those of one task per missing chunk, in whatever order they finished. */
  ghost predicate OnePerMissing(results: seq<Joined>, record: PendingDownloadRecord, total: nat) {
    && (forall k :: 0 <= k < |results| ==> results[k].id < total && results[k].id !in record.downloadedChunks)
    && (forall i: nat {:trigger HasResult(results, i)} :: i < total && i !in record.downloadedChunks ==>
         HasResult(results, i))
    && (forall j, k :: 0 <= j < k < |results| ==> results[j].id != results[k].id)
  }

  ghost predicate HasResult(results: seq<Joined>, id: nat) {
    exists k :: 0 <= k < |results| && results[k].id == id
  }

  /** The chunks whose task succeeded. */
  function Won(results: seq<Joined>): set<nat> {
    set r | r in results && r.outcome.Got? :: r.id
  }

  ghost predicate FirstFailure(results: seq<Joined>, failure: Option<nat>) {
    match failure
    case None => forall r :: r in results ==> !r.outcome.Failed?
    case Some(id) => exists k ::
      && 0 <= k < |results|
      && results[k] == Joined(id, Failed)
      && forall r :: r in results[..k] ==> !r.outcome.Failed?
  }

  lemma AbsorbNext(p: Progress, results: seq<Joined>, next: Joined)
    requires FirstFailure(results, p.firstError)
    ensures FirstFailure(results + [next], Absorb(p, next.id, next.outcome).firstError)
    ensures Won(results + [next]) == if next.outcome.Got? then Won(results) + {next.id} else Won(results)
  {
    var longer := results + [next];
    assert longer[..|results|] == results && longer[|results|] == next;
    forall r | r in results ensures r in longer {
      var k :| 0 <= k < |results| && results[k] == r;
      assert longer[k] == r;
    }
    if p.firstError.Some? {
      var k :| 0 <= k < |results| && results[k] == Joined(p.firstError.value, Failed)
            && forall r :: r in results[..k] ==> !r.outcome.Failed?;
      assert longer[..k] == results[..k] && longer[k] == results[k];
    }
  }

  /** The pass is exact: it returns `true` just when all chunks are there, and otherwise, by an
      error or by `false`, some chunk is missing. */
  lemma PassExact(record: PendingDownloadRecord, total: nat, results: seq<Joined>, p: Progress)
    requires record.downloadedChunks <= Ids(total) && OnePerMissing(results, record, total)
    requires p.downloaded == record.downloadedChunks + Won(results) && FirstFailure(results, p.firstError)
    ensures PassResult(p, total) == Ok(true) <==> p.downloaded == Ids(total)
    ensures PassResult(p, total) != Ok(true) ==> exists i: nat :: i < total && i !in p.downloaded
  {
    CountIsComplete(p.downloaded, total);
    if p.firstError.Some? {
      assert p.firstError.value !in p.downloaded;
    }
  }

  /** Ever larger versions of one record, up to `last`. */
  ghost predicate GrowingTo(versions: seq<PendingDownloadRecord>, record: PendingDownloadRecord, last: set<nat>) {
    && (forall j :: 0 <= j < |versions| ==>
         && versions[j] == record.(downloadedChunks := versions[j].downloadedChunks)
         && record.downloadedChunks < versions[j].downloadedChunks <= last)
    && (forall j, k :: 0 <= j < k < |versions| ==> versions[j].downloadedChunks < versions[k].downloadedChunks)
    && last == if versions == [] then record.downloadedChunks else versions[|versions| - 1].downloadedChunks
  }

  lemma GrowNext(versions: seq<PendingDownloadRecord>, record: PendingDownloadRecord, last: set<nat>, id: nat)
    requires GrowingTo(versions, record, last) && id !in last
    ensures GrowingTo(versions + [record.(downloadedChunks := last + {id})], record, last + {id})
  {
  }

  /** Nothing but the record's entry has changed, and that only to one of the versions. */
  ghost predicate HoldsAVersion(
    before: map<Key, PendingDownloadRecord>, after: map<Key, PendingDownloadRecord>,
    key: Key, versions: seq<PendingDownloadRecord>)
  {
    after == before || exists v :: v in versions && after == before[key := v]
  }

  lemma HeldVersions(
    before: map<Key, PendingDownloadRecord>, stored: map<Key, PendingDownloadRecord>,
    key: Key, versions: seq<PendingDownloadRecord>, version: PendingDownloadRecord, ok: bool)
    requires HoldsAVersion(before, stored, key, versions)
    ensures HoldsAVersion(before, if ok then stored[key := version] else stored, key, versions + [version])
  {
    if ok {
      assert version in versions + [version] && stored[key := version] == before[key := version];
    } else if stored != before {
      var v :| v in versions && stored == before[key := v];
      assert v in versions + [version];
    }
  }

  /** What the join loop has achieved after some of the results. */
  ghost predicate Collected(
    record: PendingDownloadRecord, results: seq<Joined>, p: Progress,
    before: map<Key, PendingDownloadRecord>, stored: map<Key, PendingDownloadRecord>,
    versions: seq<PendingDownloadRecord>)
  {
    && p.downloaded == record.downloadedChunks + Won(results)
    && FirstFailure(results, p.firstError)
    && GrowingTo(versions, record, p.downloaded)
    && HoldsAVersion(before, stored, record.key, versions)
  }

  lemma CollectNext(
    record: PendingDownloadRecord, results: seq<Joined>, p: Progress,
    before: map<Key, PendingDownloadRecord>, stored: map<Key, PendingDownloadRecord>,
    versions: seq<PendingDownloadRecord>,
    next: Joined, ok: bool)
    requires Collected(record, results, p, before, stored, versions)
    ensures
      var q := Absorb(p, next.id, next.outcome);
      var version := record.(downloadedChunks := q.downloaded);
      var now := if ok then stored[record.key := version] else stored;
      if next.outcome.Got? && next.id !in p.downloaded
      then Collected(record, results + [next], q, before, now, versions + [version])
      else Collected(record, results + [next], q, before, stored, versions)
  {
    AbsorbNext(p, results, next);
    if next.outcome.Got? {
      var version := record.(downloadedChunks := p.downloaded + {next.id});
      if next.id in p.downloaded {
        assert p.downloaded + {next.id} == p.downloaded;
      } else {
        GrowNext(versions, record, p.downloaded, next.id);
        HeldVersions(before, stored, record.key, versions, version, ok);
      }
    }
  }

  lemma CollectEnd(
    record: PendingDownloadRecord, total: nat, results: seq<Joined>, p: Progress,
    initial: map<Key, PendingDownloadRecord>, stored: map<Key, PendingDownloadRecord>,
    before: seq<PendingDownloadRecord>, versions: seq<PendingDownloadRecord>)
    requires record.downloadedChunks <= Ids(total) && OnePerMissing(results, record, total)
    requires Collected(record, results, p, initial, stored, versions)
    ensures
      var r := PassResult(p, total);
      && (r == Ok(true) <==> p.downloaded == Ids(total))
      && (r != Ok(true) ==> exists i: nat :: i < total && i !in p.downloaded)
      && FirstFailure(results, if r.Err? then Some(r.error) else None)
    ensures GrowingTo((before + versions)[|before|..], record, p.downloaded)
    ensures HoldsAVersion(initial, stored, record.key, (before + versions)[|before|..])
  {
    assert (before + versions)[|before|..] == versions;
    PassExact(record, total, results, p);
  }

  /** The join loop. The pass succeeds with `true` exactly when every chunk is downloaded, and the
      downloaded chunks are the earlier ones and those whose task succeeded. It tries to
      persist every new chunk, so the versions it writes grow up to the final one. */
  method Collect(record: PendingDownloadRecord, total: nat, results: seq<Joined>, store: PendingStore)
    returns (after: PendingDownloadRecord, r: Result<bool, nat>)
    requires record.downloadedChunks <= Ids(total)
    requires OnePerMissing(results, record, total)
    modifies store
    ensures after == record.(downloadedChunks := record.downloadedChunks + Won(results))
    ensures r == Ok(true) <==> after.downloadedChunks == Ids(total)
    ensures r != Ok(true) ==> exists i: nat :: i < total && i !in after.downloadedChunks
    ensures FirstFailure(results, if r.Err? then Some(r.error) else None)
    ensures old(store.attempts) <= store.attempts
    ensures GrowingTo(store.attempts[|old(store.attempts)|..], record, after.downloadedChunks)
    ensures HoldsAVersion(old(store.pending), store.pending, record.key, store.attempts[|old(store.attempts)|..])
  {
    var p := Progress(record.downloadedChunks, None);
    ghost var before, versions: seq<PendingDownloadRecord> := store.attempts, [];
    for k := 0 to |results|
      invariant Collected(record, results[..k], p, old(store.pending), store.pending, versions)
      invariant store.attempts == before + versions
    {
      var Joined(id, outcome) := results[k];
      var isNew := id !in p.downloaded;
      ghost var q, stored, written, ok := p, store.pending, versions, false;
      p := Absorb(p, id, outcome);
      if outcome.Got? && isNew {
        var version := record.(downloadedChunks := p.downloaded);
        ok := store.Put(version);
        versions := versions + [version];
      }
      assert Collected(record, results[..k + 1], p, old(store.pending), store.pending, versions) by {
        assert results[..k + 1] == results[..k] + [results[k]];
        CollectNext(record, results[..k], q, old(store.pending), stored, written, results[k], ok);
      }
    }
    assert results[..|results|] == results;
    CollectEnd(record, total, results, p, old(store.pending), store.pending, before, versions);
    after := record.(downloadedChunks := p.downloaded);
    r := PassResult(p, total);
  }
}
