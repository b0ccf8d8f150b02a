/** The publish queue and the announcements: what is taken from the store, announced to the network,
    and written back.

    An operation on the network or the store may fail at any time, but not for ever: `faults` is the
    number of failures still to come, which only goes down. */
module Publishing {
  import opened Bytes
  import opened Keys
  import opened Domain

  // ----- the network -----

  datatype RecordKey = MetadataRecord(key: Key) | ChunkRecord(fileId: u64, chunkId: nat)

  datatype RecordValue = PublishedFile(totalChunks: nat, merkleRoot: Digest) | FileChunk(fileId: u64, chunkId: nat)

  class Swarm {
    var records: map<RecordKey, RecordValue>
    var provided: set<RecordKey>
    var faults: nat

    method PutRecord(key: RecordKey, value: RecordValue) returns (ok: bool)
      modifies this`records, this`faults
      ensures records == if ok then old(records)[key := value] else old(records)
      ensures faults == if ok then old(faults) else old(faults) - 1
      ensures !ok ==> old(faults) > 0
    {
      var fails: bool := *;
      if fails && faults > 0 {
        faults := faults - 1;
        return false;
      }
      records := records[key := value];
      return true;
    }

    method StartProviding(key: RecordKey) returns (ok: bool)
      modifies this`provided, this`faults
      ensures provided == if ok then old(provided) + {key} else old(provided)
      ensures faults == if ok then old(faults) else old(faults) - 1
      ensures !ok ==> old(faults) > 0
    {
      var fails: bool := *;
      if fails && faults > 0 {
        faults := faults - 1;
        return false;
      }
      provided := provided + {key};
      return true;
    }
  }

  // ----- the store -----

  /** A stored value, which may not decode. */
  datatype Value<T> = Decodable(value: T) | Garbled

  datatype StoreError = ReadFailed | NotDecodable

  /** The first key of a set in store order. */
  ghost function FirstOf(keys: set<Key>): (first: Key)
    requires keys != {}
    ensures First(first, keys)
  {
    FirstExists(keys);
    var k :| First(k, keys);
    k
  }

  lemma FirstExists(keys: set<Key>)
    requires keys != {}
    ensures exists k :: First(k, keys)
  {
    var k := FirstKey(keys);
  }

  lemma FirstUnique(j: Key, k: Key, keys: set<Key>)
    requires First(j, keys) && First(k, keys)
    ensures j == k
  {
    BeforeIsLess(j, k);
    BeforeIsLess(k, j);
  }

  type Jobs = map<Key, Value<FileMetadata>>

  class Store {
    var published: map<Key, Value<PublishedFileRecord>>
    var jobs: Jobs
    var faults: nat

    method PutPublishedFile(record: PublishedFileRecord) returns (ok: bool)
      modifies this`published, this`faults
      ensures published == if ok then old(published)[record.key := Decodable(record)] else old(published)
      ensures faults == if ok then old(faults) else old(faults) - 1
      ensures !ok ==> old(faults) > 0
    {
      var fails: bool := *;
      if fails && faults > 0 {
        faults := faults - 1;
        return false;
      }
      published := published[record.key := Decodable(record)];
      return true;
    }

    method PutFileMetadata(keyHash: KeyHash, m: FileMetadata) returns (ok: bool)
      modifies this`jobs, this`faults
      ensures jobs == if ok then old(jobs)[MetadataKey(keyHash, m) := Decodable(m)] else old(jobs)
      ensures OwnKeys(keyHash, old(jobs)) ==> OwnKeys(keyHash, jobs)
      ensures faults == if ok then old(faults) else old(faults) - 1
      ensures !ok ==> old(faults) > 0
    {
      var fails: bool := *;
      if fails && faults > 0 {
        faults := faults - 1;
        return false;
      }
      jobs := jobs[MetadataKey(keyHash, m) := Decodable(m)];
      return true;
    }

    method DeleteFileMetadata(key: Key) returns (ok: bool)
      modifies this`jobs, this`faults
      ensures jobs == if ok then old(jobs) - {key} else old(jobs)
      ensures faults == if ok then old(faults) else old(faults) - 1
      ensures !ok ==> old(faults) > 0
    {
      var fails: bool := *;
      if fails && faults > 0 {
        faults := faults - 1;
        return false;
      }
      jobs := jobs - {key};
      return true;
    }

    /** One poll of the queue: the job with the first key. No jobs, no answer yet; a job that does
        not decode is an error, and stays where it is. */
    method NextFileMetadata() returns (next: Option<Result<FileMetadata, StoreError>>)
      modifies this`faults
      ensures faults == old(faults) || (faults == old(faults) - 1 && next == Some(Err(ReadFailed)))
      ensures faults == old(faults) ==>
                next == (if jobs == map[] then None
                         else match jobs[FirstOf(jobs.Keys)]
                              case Decodable(m) => Some(Ok(m))
                              case Garbled => Some(Err(NotDecodable)))
    {
      var fails: bool := *;
      if fails && faults > 0 {
        faults := faults - 1;
        return Some(Err(ReadFailed));
      }
      if jobs == map[] {
        return None;
      }
      FirstExists(jobs.Keys);
      var first: Key :| first in jobs.Keys && First(first, jobs.Keys);
      FirstUnique(first, FirstOf(jobs.Keys), jobs.Keys);
      match jobs[first]
      case Decodable(m) => return Some(Ok(m));
      case Garbled => return Some(Err(NotDecodable));
    }
  }

  // ----- what belongs to a file -----

  /** The metadata key of a file and its first `n` chunk keys. */
  function KeysUpTo(keyHash: KeyHash, m: FileMetadata, n: nat): set<RecordKey> {
    var key := MetadataKey(keyHash, m);
    {MetadataRecord(key)} + set i: nat | i < n :: ChunkRecord(IdOf(key), i)
  }

  /** The metadata record says what the file is, and each of the first `n` chunk records which chunk. */
  ghost predicate RecordsUpTo(keyHash: KeyHash, m: FileMetadata, n: nat, records: map<RecordKey, RecordValue>) {
    var key := MetadataKey(keyHash, m);
    && MetadataRecord(key) in records && records[MetadataRecord(key)] == PublishedFile(m.totalChunks, m.merkleRoot)
    && forall i: nat :: i < n ==>
         ChunkRecord(IdOf(key), i) in records && records[ChunkRecord(IdOf(key), i)] == FileChunk(IdOf(key), i)
  }

  /** All that is announced of a file. */
  function AllKeys(keyHash: KeyHash, m: FileMetadata): set<RecordKey> {
    KeysUpTo(keyHash, m, m.totalChunks)
  }

  /** Metadata files by directory, as far as they are there. */
  type Metas = map<Dir, Value<FileMetadata>>

  /** The metadata files on disk, reading which may fail. */
  class MetaFiles {
    const metas: Metas
    var faults: nat

    constructor (metas: Metas)
      ensures this.metas == metas
    {
      this.metas := metas;
    }

    method Read(dir: Dir) returns (file: Option<Value<FileMetadata>>)
      modifies this`faults
      ensures file.Some? ==> dir in metas && file.value == metas[dir] && faults == old(faults)
      ensures file.None? ==>
        if dir in metas then old(faults) > 0 && faults == old(faults) - 1 else faults == old(faults)
    {
      if dir !in metas {
        return None;
      }
      var fails: bool := *;
      if fails && faults > 0 {
        faults := faults - 1;
        return None;
      }
      return Some(metas[dir]);
    }
  }

  ghost predicate HasMetadata(published: map<Key, Value<PublishedFileRecord>>, metas: Metas, k: Key, m: FileMetadata) {
    && k in published && published[k].Decodable?
    && published[k].value.chunksDir in metas && metas[published[k].value.chunksDir] == Decodable(m)
  }

  /** A record or a metadata file that makes announcing again give up. */
  ghost predicate Broken(published: map<Key, Value<PublishedFileRecord>>, metas: Metas, k: Key) {
    k in published
    && (published[k].Garbled?
         || (published[k].value.chunksDir in metas && metas[published[k].value.chunksDir].Garbled?))
  }

  class EventService {
    const keyHash: KeyHash
    const swarm: Swarm
    const store: Store

    constructor (keyHash: KeyHash, swarm: Swarm, store: Store)
      ensures this.keyHash == keyHash && this.swarm == swarm && this.store == store
    {
      this.keyHash, this.swarm, this.store := keyHash, swarm, store;
    }

    method ProvideMetadata(m: FileMetadata) returns (ok: bool)
      modifies swarm
      ensures
        var key := MetadataRecord(MetadataKey(keyHash, m));
        if ok then
          && swarm.provided == old(swarm.provided) + {key} && swarm.faults == old(swarm.faults)
          && swarm.records == old(swarm.records)[key := PublishedFile(m.totalChunks, m.merkleRoot)]
        else swarm.provided == old(swarm.provided) && swarm.faults < old(swarm.faults)
    {
      var key := MetadataRecord(MetadataKey(keyHash, m));
      ok := swarm.PutRecord(key, PublishedFile(m.totalChunks, m.merkleRoot));
      if ok {
        ok := swarm.StartProviding(key);
      }
    }

    method ProvideFileChunk(fileId: u64, chunkId: nat) returns (ok: bool)
      modifies swarm
      ensures
        var key := ChunkRecord(fileId, chunkId);
        if ok then
          && swarm.provided == old(swarm.provided) + {key} && swarm.faults == old(swarm.faults)
          && swarm.records == old(swarm.records)[key := FileChunk(fileId, chunkId)]
        else swarm.provided == old(swarm.provided) && swarm.faults < old(swarm.faults)
    {
      var key := ChunkRecord(fileId, chunkId);
      ok := swarm.PutRecord(key, FileChunk(fileId, chunkId));
      if ok {
        ok := swarm.StartProviding(key);
      }
    }

    /** Announces the metadata and every chunk, in this order, and stops at the first failure. */
    method ProvideAll(m: FileMetadata) returns (ok: bool)
      modifies swarm
      ensures ok ==> swarm.provided == old(swarm.provided) + AllKeys(keyHash, m) && swarm.faults == old(swarm.faults)
      ensures ok ==> RecordsUpTo(keyHash, m, m.totalChunks, swarm.records)
      ensures !ok ==> swarm.faults < old(swarm.faults)
      ensures !ok && swarm.provided != old(swarm.provided) ==>
                exists n: nat :: n < m.totalChunks && swarm.provided == old(swarm.provided) + KeysUpTo(keyHash, m, n)
    {
      ok := ProvideMetadata(m);
      if !ok {
        return;
      }
      var fileId := IdOf(MetadataKey(keyHash, m));
      assert swarm.provided == old(swarm.provided) + KeysUpTo(keyHash, m, 0);
      for chunkId := 0 to m.totalChunks
        invariant swarm.provided == old(swarm.provided) + KeysUpTo(keyHash, m, chunkId)
        invariant RecordsUpTo(keyHash, m, chunkId, swarm.records)
        invariant swarm.faults == old(swarm.faults)
      {
        ok := ProvideFileChunk(fileId, chunkId);
        if !ok {
          return;
        }
      }
      return true;
    }

    /** Announcing everything published again, at startup, record by record in key order. A metadata file
        that cannot be read is skipped. It succeeds unless something else fails or does not decode, and
        then exactly the keys of the published files whose metadata was read have been announced. */
    method ProvideAllPublishedFiles(files: MetaFiles) returns (ok: bool, ghost skipped: set<Key>)
      modifies swarm, store`faults, files`faults
      ensures |skipped| == old(files.faults) - files.faults
      ensures skipped <= store.published.Keys
      ensures ok ==> forall k :: k !in skipped ==> !Broken(store.published, files.metas, k)
      ensures !ok ==>
        || swarm.faults < old(swarm.faults) || store.faults < old(store.faults)
        || exists k :: Broken(store.published, files.metas, k)
      ensures ok ==> forall r :: r in swarm.provided <==>
                r in old(swarm.provided)
                || exists k, m :: k !in skipped && HasMetadata(store.published, files.metas, k, m)
                                  && r in AllKeys(keyHash, m)
    {
      skipped := {};
      var rest := store.published.Keys;
      while rest != {}
        invariant rest <= store.published.Keys && skipped <= store.published.Keys - rest
        invariant |skipped| == old(files.faults) - files.faults
        invariant swarm.faults == old(swarm.faults) && store.faults == old(store.faults)
        invariant forall k :: k !in rest && k !in skipped ==> !Broken(store.published, files.metas, k)
        invariant forall r :: r in swarm.provided <==>
                    r in old(swarm.provided)
                    || exists k, m :: k !in rest && k !in skipped && HasMetadata(store.published, files.metas, k, m)
                                      && r in AllKeys(keyHash, m)
        decreases |rest|
      {
        FirstExists(rest);
        var k: Key :| k in rest && First(k, rest);
        var fails: bool := *;
        if fails && store.faults > 0 {
          store.faults := store.faults - 1;
          return false, skipped;
        }
        rest := rest - {k};
        match store.published[k]
        case Garbled =>
          assert Broken(store.published, files.metas, k);
          return false, skipped;
        case Decodable(record) =>
          var file := files.Read(record.chunksDir);
          match file
          case None =>
            if record.chunksDir in files.metas { skipped := skipped + {k}; }
          case Some(Garbled) =>
            assert Broken(store.published, files.metas, k);
            return false, skipped;
          case Some(Decodable(m)) =>
            assert HasMetadata(store.published, files.metas, k, m);
            ok := ProvideAll(m);
            if !ok {
              return;
            }
      }
      return true, skipped;
    }

    method AddPublishedFile(m: FileMetadata)
      modifies store`published, store`faults
      ensures store.published == old(store.published)[MetadataKey(keyHash, m) := Decodable(PublishedRecord(keyHash, m))]
      ensures store.faults <= old(store.faults)
    {
      var ok := store.PutPublishedFile(PublishedRecord(keyHash, m));
      while !ok
        invariant store.faults <= old(store.faults)
        invariant store.published ==
                  if ok then old(store.published)[MetadataKey(keyHash, m) := Decodable(PublishedRecord(keyHash, m))]
                  else old(store.published)
        decreases !ok, store.faults
      {
        ok := store.PutPublishedFile(PublishedRecord(keyHash, m));
      }
    }

    method DeleteFileMetadata(key: Key)
      modifies store`jobs, store`faults
      ensures store.jobs == old(store.jobs) - {key} && store.faults <= old(store.faults)
    {
      while true
        invariant store.jobs == old(store.jobs) && store.faults <= old(store.faults)
        decreases store.faults
      {
        var ok := store.DeleteFileMetadata(key);
        if ok {
          break;
        }
      }
    }

    /** One turn of the queue, with the job or the error that was taken. */
    method FilePublish(result: Result<FileMetadata, StoreError>)
      modifies swarm, store
      ensures result.Err? ==> unchanged(swarm) && unchanged(store)
      ensures result.Ok? ==>
                var m, key := result.value, MetadataKey(keyHash, result.value);
                && swarm.provided == old(swarm.provided) + AllKeys(keyHash, m)
                && RecordsUpTo(keyHash, m, m.totalChunks, swarm.records)
                && store.published == old(store.published)[key := Decodable(PublishedRecord(keyHash, m))]
                && store.jobs == old(store.jobs) - {key}
                && swarm.faults <= old(swarm.faults) && store.faults <= old(store.faults)
    {
      match result
      case Err(_) =>
      case Ok(m) =>
        var ok := ProvideAll(m);
        while !ok
          invariant ok ==> swarm.provided == old(swarm.provided) + AllKeys(keyHash, m)
          invariant ok ==> RecordsUpTo(keyHash, m, m.totalChunks, swarm.records)
          invariant old(swarm.provided) <= swarm.provided <= old(swarm.provided) + AllKeys(keyHash, m)
          invariant swarm.faults <= old(swarm.faults) && unchanged(store)
          decreases !ok, swarm.faults
        {
          ok := ProvideAll(m);
        }
        AddPublishedFile(m);
        DeleteFileMetadata(MetadataKey(keyHash, m));
    }

    /** Taking a job and working on it. What the queue is afterwards depends on nothing else than what
        it was, unless reading it failed. */
    method Turn()
      requires OwnKeys(keyHash, store.jobs)
      modifies swarm, store
      ensures OwnKeys(keyHash, store.jobs) && store.faults <= old(store.faults) && old(swarm.provided) <= swarm.provided
      ensures store.jobs == AfterTurn(old(store.jobs))
        || (store.jobs == old(store.jobs) && store.faults < old(store.faults))
      ensures forall k :: k in store.jobs ==> k in old(store.jobs) && store.jobs[k] == old(store.jobs)[k]
      ensures Cleared(keyHash, old(store.jobs), store.jobs, store.published, swarm.provided)
      ensures KeptExcept(old(store.jobs), store.jobs, old(store.published), store.published)
    {
      var next := store.NextFileMetadata();
      match next
      case None =>
      case Some(result) => FilePublish(result);
    }

    /** The queue's share of the event loop: turn after turn. Each either does its job or is lost to a
        failing read, so that as many turns as there are jobs and failures leave just the stuck jobs;
        and each job that is gone has been announced and recorded. */
    method Turns(n: nat) returns (ghost done: nat)
      requires OwnKeys(keyHash, store.jobs)
      modifies swarm, store
      ensures done <= n <= done + old(store.faults) - store.faults
      ensures store.jobs == AfterTurns(old(store.jobs), done)
      ensures n >= |old(store.jobs)| + old(store.faults) ==> store.jobs == StuckJobs(old(store.jobs))
      ensures Cleared(keyHash, old(store.jobs), store.jobs, store.published, swarm.provided)
    {
      done := 0;
      for i := 0 to n
        invariant done <= i <= done + old(store.faults) - store.faults
        invariant OwnKeys(keyHash, store.jobs) && store.jobs == AfterTurns(old(store.jobs), done)
        invariant forall k :: k in store.jobs ==> k in old(store.jobs) && store.jobs[k] == old(store.jobs)[k]
        invariant Cleared(keyHash, old(store.jobs), store.jobs, store.published, swarm.provided)
      {
        ghost var jobs, published, provided := store.jobs, store.published, swarm.provided;
        Turn();
        ClearedMore(keyHash, old(store.jobs), jobs, store.jobs, published, store.published, provided, swarm.provided);
        if store.jobs == AfterTurn(jobs) {
          AfterTurnsSnoc(old(store.jobs), done);
          done := done + 1;
        }
      }
      if n >= |old(store.jobs)| + old(store.faults) {
        QueueSettles(old(store.jobs), done);
      }
    }
  }

  // ----- the queue over many turns -----

  /** Jobs are stored under the key of their metadata. */
  ghost predicate OwnKeys(keyHash: KeyHash, jobs: Jobs) {
    forall k :: k in jobs && jobs[k].Decodable? ==> MetadataKey(keyHash, jobs[k].value) == k
  }

  /** A job that is gone was decodable, and its file has been announced and recorded as published. */
  ghost predicate Cleared(
    keyHash: KeyHash, before: Jobs, jobs: Jobs, published: map<Key, Value<PublishedFileRecord>>,
    provided: set<RecordKey>)
  {
    forall k :: k in before && k !in jobs ==>
      && before[k].Decodable? && k in published && published[k] == Decodable(PublishedRecord(keyHash, before[k].value))
      && AllKeys(keyHash, before[k].value) <= provided
  }

  /** Records other than those of jobs that are gone are as before. */
  ghost predicate KeptExcept(
    before: Jobs, jobs: Jobs, was: map<Key, Value<PublishedFileRecord>>,
    published: map<Key, Value<PublishedFileRecord>>)
  {
    forall k :: k in was && !(k in before && k !in jobs) ==> k in published && published[k] == was[k]
  }

  lemma ClearedMore(
    keyHash: KeyHash, first: Jobs, before: Jobs, jobs: Jobs,
    was: map<Key, Value<PublishedFileRecord>>, published: map<Key, Value<PublishedFileRecord>>,
    earlier: set<RecordKey>, provided: set<RecordKey>)
    requires Cleared(keyHash, first, before, was, earlier) && Cleared(keyHash, before, jobs, published, provided)
    requires KeptExcept(before, jobs, was, published) && earlier <= provided
    requires forall k :: k in before ==> k in first && before[k] == first[k]
    requires forall k :: k in jobs ==> k in before && jobs[k] == before[k]
    ensures Cleared(keyHash, first, jobs, published, provided)
  {
  }

  /** A turn without failures: the first job is done with, if it decodes. */
  ghost function AfterTurn(jobs: Jobs): Jobs {
    if jobs == map[] then jobs
    else
      var first := FirstOf(jobs.Keys);
      if jobs[first].Decodable? then jobs - {first} else jobs
  }

  ghost function AfterTurns(jobs: Jobs, n: nat): Jobs {
    if n == 0 then jobs else AfterTurns(AfterTurn(jobs), n - 1)
  }

  lemma {:induction false} AfterTurnsSnoc(jobs: Jobs, n: nat)
    ensures AfterTurns(jobs, n + 1) == AfterTurn(AfterTurns(jobs, n))
    decreases n
  {
    if n > 0 { AfterTurnsSnoc(AfterTurn(jobs), n - 1); }
  }

  /** A job is stuck if it, or one with a smaller file id, does not decode. */
  ghost predicate Stuck(jobs: Jobs, k: Key) {
    k in jobs && exists j: Key :: j in jobs && jobs[j].Garbled? && IdOf(j) <= IdOf(k)
  }

  lemma AfterTurnKeepsStuck(jobs: Jobs, k: Key)
    ensures Stuck(AfterTurn(jobs), k) <==> Stuck(jobs, k)
  {
    if jobs != map[] {
      var first := FirstOf(jobs.Keys);
      FirstIsLeastId(first, jobs.Keys);
      var after := AfterTurn(jobs);
      if Stuck(jobs, k) {
        var j: Key :| j in jobs && jobs[j].Garbled? && IdOf(j) <= IdOf(k);
        if jobs[first].Decodable? && k == first {
          RoundTrip(0, j);
          RoundTrip(0, k);
        }
        assert j in after && k in after;
      }
    }
  }

  lemma AfterTurnCount(jobs: Jobs)
    ensures |AfterTurn(jobs)| <= |jobs| <= |AfterTurn(jobs)| + 1
    ensures AfterTurn(jobs) != jobs ==> |AfterTurn(jobs)| == |jobs| - 1
    ensures jobs != map[] && jobs[FirstOf(jobs.Keys)].Decodable? ==> AfterTurn(jobs) != jobs
  {
    if jobs != map[] {
      var first := FirstOf(jobs.Keys);
      assert (jobs - {first}).Keys == jobs.Keys - {first};
      assert first !in jobs - {first};
    }
  }

  ghost function StuckJobs(jobs: Jobs): Jobs {
    map k | k in jobs && Stuck(jobs, k) :: jobs[k]
  }

  lemma AfterTurnStuckJobs(jobs: Jobs)
    ensures StuckJobs(AfterTurn(jobs)) == StuckJobs(jobs)
  {
    SameStuckJobs(AfterTurn(jobs), jobs) by {
      forall k: Key
        ensures Stuck(AfterTurn(jobs), k) <==> Stuck(jobs, k)
      {
        AfterTurnKeepsStuck(jobs, k);
      }
    }
  }

  lemma SameStuckJobs(after: Jobs, jobs: Jobs)
    requires forall k: Key :: Stuck(after, k) <==> Stuck(jobs, k)
    requires forall k :: k in after ==> k in jobs && after[k] == jobs[k]
    ensures StuckJobs(after) == StuckJobs(jobs)
  {
  }

  lemma BehindGarbled(jobs: Jobs, first: Key, k: Key)
    requires First(first, jobs.Keys) && jobs[first].Garbled? && k in jobs
    ensures Stuck(jobs, k)
  {
    FirstIsLeastId(first, jobs.Keys);
  }

  lemma AllBehindGarbled(jobs: Jobs, first: Key)
    requires First(first, jobs.Keys) && jobs[first].Garbled?
    ensures StuckJobs(jobs) == jobs
  {
    forall k | k in jobs
      ensures Stuck(jobs, k)
    {
      BehindGarbled(jobs, first, k);
    }
  }

  /** Once there have been as many turns as jobs, just the stuck jobs are left: one job that does not
      decode holds up all jobs behind it for ever, and no other. */
  lemma {:induction false} QueueSettles(jobs: Jobs, n: nat)
    requires n >= |jobs|
    ensures AfterTurns(jobs, n) == StuckJobs(jobs)
    decreases n
  {
    AfterTurnStuckJobs(jobs);
    AfterTurnCount(jobs);
    if AfterTurn(jobs) == jobs {
      if jobs != map[] { AllBehindGarbled(jobs, FirstOf(jobs.Keys)); }
      Stays(jobs, n);
    } else {
      QueueSettles(AfterTurn(jobs), n - 1);
    }
  }

  lemma {:induction false} Stays(jobs: Jobs, n: nat)
    requires AfterTurn(jobs) == jobs
    ensures AfterTurns(jobs, n) == jobs
  {
    if n > 0 { Stays(jobs, n - 1); }
  }

  lemma {:induction false} AfterTurnsCount(jobs: Jobs, n: nat)
    ensures |AfterTurns(jobs, n)| + n >= |jobs|
    decreases n
  {
    if n > 0 {
      AfterTurnCount(jobs);
      AfterTurnsCount(AfterTurn(jobs), n - 1);
    }
  }

  /** The queue is empty after `n` turns exactly if every job decodes and there were turns for all. */
  lemma QueueDrains(jobs: Jobs, n: nat)
    ensures AfterTurns(jobs, n) == map[] <==> n >= |jobs| && forall k :: k in jobs ==> jobs[k].Decodable?
  {
    AfterTurnsCount(jobs, n);
    if n >= |jobs| {
      QueueSettles(jobs, n);
      forall k: Key | k in jobs && jobs[k].Garbled? ensures k in StuckJobs(jobs) { assert Stuck(jobs, k); }
    }
  }
}
