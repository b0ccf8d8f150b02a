/** A file published on one node and restored on another is the same file. */
module EndToEnd {
  import opened Bytes
  import opened Keys
  import opened Merkle
  import opened Domain
  import opened Chunking
  import opened Node
  import opened NodeInvariant
  import opened NodeSafety
  import opened NodeConvergence
  import opened NodeRestart
  import opened NodeStray
  import opened NodeSaves
  import opened NodeShared

  /** A published file: its name and visibility, and its bytes. */
  datatype Origin = Origin(name: string, file: Bytes, public: bool)

  /** A node with real chunk verification, whose chunk directories belong to published files: every
      directory has the metadata its publisher computed, moved to that directory. */
  function WorldOf(h: Hash, keyHash: KeyHash, size: nat, permits: nat, origins: map<Dir, Origin>): World
    requires size > 0 && forall d :: d in origins ==> origins[d].file != []
  {
    World(
      (chunk: Bytes, index: nat, proof: Bytes, root: Digest, total: nat) =>
        VerifyChunk(h, chunk, index, proof, root, total),
      keyHash,
      permits,
      map d | d in origins :: Describe(h, size, origins[d].name, d, origins[d].file, origins[d].public),
      map d | d in origins :: Chunks(origins[d].file, size))
  }

  /** Files of different directories have different destinations, and no destination has the name
      of another file's temporary file. */
  ghost predicate LaidOut(origins: map<Dir, Origin>) {
    NamesApart(origins) && PartsApart(origins)
  }

  ghost predicate NamesApart(origins: map<Dir, Origin>) {
    forall d, e :: d in origins && e in origins && d.parent == e.parent && origins[d].name == origins[e].name ==> d == e
  }

  /** The file of `e` has the name of the temporary file of `d`. */
  predicate PartOf(origins: map<Dir, Origin>, d: Dir, e: Dir) {
    d in origins && e in origins && d.parent == e.parent && origins[d].name + ".part" == origins[e].name
  }

  ghost predicate PartsApart(origins: map<Dir, Origin>) {
    forall d, e :: !PartOf(origins, d, e)
  }

  /** What a publisher computes is what the node's invariant asks for: every published chunk passes
      verification against the metadata computed for it. */
  lemma PublishedIsGenuine(h: Hash, keyHash: KeyHash, size: nat, permits: nat, origins: map<Dir, Origin>)
    requires size > 0 && (forall d :: d in origins ==> origins[d].file != []) && LaidOut(origins)
    ensures WellFormed(WorldOf(h, keyHash, size, permits, origins))
  {
    var w := WorldOf(h, keyHash, size, permits, origins);
    forall d | d in w.meta
      ensures Genuine(w, d)
    {
      OriginGenuine(h, keyHash, size, permits, origins, d);
    }
    forall d, e | d in w.meta && e in w.meta
      ensures Apart(w, d, e)
    {
      assert !PartOf(origins, d, e);
    }
  }

  lemma OriginGenuine(h: Hash, keyHash: KeyHash, size: nat, permits: nat, origins: map<Dir, Origin>, d: Dir)
    requires size > 0 && (forall d :: d in origins ==> origins[d].file != []) && d in origins
    ensures Genuine(WorldOf(h, keyHash, size, permits, origins), d)
  {
    var w := WorldOf(h, keyHash, size, permits, origins);
    var chunks := Chunks(origins[d].file, size);
    forall i | 0 <= i < |chunks|
      ensures Check(w, w.meta[d], i, chunks[i]) == Accepted
    {
      Completeness(h, chunks, i);
    }
  }

  // ----- the collision in a wrong file -----

  /** The first place where two equally long lists differ. */
  function FirstDifference(a: seq<Bytes>, b: seq<Bytes>): (i: nat)
    requires |a| == |b| && a != b
    ensures i < |a| && a[i] != b[i]
  {
    if a[0] != b[0] then 0
    else
      assert a == [a[0]] + a[1..] && b == [b[0]] + b[1..];
      1 + FirstDifference(a[1..], b[1..])
  }

  // ----- what a file id identifies -----

  /** The collision in two files with one root and equally many chunks. */
  ghost function RootClash(h: Hash, size: nat, a: Bytes, b: Bytes): (Bytes, Bytes)
    requires size > 0 && |Chunks(a, size)| == |Chunks(b, size)| > 0 && Chunks(a, size) != Chunks(b, size)
    requires TreeRoot(h, Leaves(h, Chunks(a, size))) == TreeRoot(h, Leaves(h, Chunks(b, size)))
  {
    var i := FirstDifference(Chunks(a, size), Chunks(b, size));
    Completeness(h, Chunks(a, size), i);
    ChunkClash(h, Chunks(b, size), i, Chunks(a, size)[i], EncodeProof(Proof(h, Leaves(h, Chunks(a, size)), i)))
  }

  lemma RootIdentifies(h: Hash, size: nat, a: Bytes, b: Bytes)
    requires size > 0 && |Chunks(a, size)| == |Chunks(b, size)| > 0
    requires TreeRoot(h, Leaves(h, Chunks(a, size))) == TreeRoot(h, Leaves(h, Chunks(b, size)))
    ensures a == b || (Chunks(a, size) != Chunks(b, size) && Collision(h, RootClash(h, size, a, b)))
  {
    ChunksDivide(a, size);
    ChunksDivide(b, size);
    if Chunks(a, size) != Chunks(b, size) {
      var i := FirstDifference(Chunks(a, size), Chunks(b, size));
      Completeness(h, Chunks(a, size), i);
      Soundness(h, Chunks(b, size), i, Chunks(a, size)[i], EncodeProof(Proof(h, Leaves(h, Chunks(a, size)), i)));
    }
  }

  /** What goes into a file's key. */
  function Identity(m: FileMetadata): (string, nat, Digest, bool) {
    (m.originalFileName, m.totalChunks, m.merkleRoot, m.public)
  }

  /** The id of a published file identifies it: files with one id have one name and visibility and the
      same bytes, wherever they are, or there is a collision of the key hash or of the hash; and files
      that have all that in common have one id. */
  lemma IdIdentifies(h: Hash, keyHash: KeyHash, size: nat, a: Origin, d: Dir, b: Origin, e: Dir)
    requires size > 0 && a.file != [] && b.file != []
    ensures
      var m, m' := Describe(h, size, a.name, d, a.file, a.public), Describe(h, size, b.name, e, b.file, b.public);
      && (MetadataKey(keyHash, m) == MetadataKey(keyHash, m') ==>
            || a == b
            || KeyCollision(keyHash, Identity(m), Identity(m'))
            || (&& |Chunks(a.file, size)| == |Chunks(b.file, size)| > 0 && Chunks(a.file, size) != Chunks(b.file, size)
                && TreeRoot(h, Leaves(h, Chunks(a.file, size))) == TreeRoot(h, Leaves(h, Chunks(b.file, size)))
                && Collision(h, RootClash(h, size, a.file, b.file))))
      && (a == b ==> MetadataKey(keyHash, m) == MetadataKey(keyHash, m'))
  {
    var m, m' := Describe(h, size, a.name, d, a.file, a.public), Describe(h, size, b.name, e, b.file, b.public);
    KeyTellsApart(keyHash, m, m');
    if Identity(m) == Identity(m') {
      RootIdentifies(h, size, a.file, b.file);
    }
  }

  ghost predicate PiecesAccepted(h: Hash, size: nat, file: Bytes, m: FileMetadata, pieces: seq<Bytes>)
    requires size > 0 && file != []
  {
    && |pieces| == |Chunks(file, size)| == |m.merkleProofs|
    && m.merkleRoot == TreeRoot(h, Leaves(h, Chunks(file, size)))
    && forall i :: 0 <= i < |pieces| ==>
         VerifyChunk(h, pieces[i], i, m.merkleProofs[i], m.merkleRoot, |pieces|) == Accepted
  }

  /** The collision that pieces of a wrong file contain. */
  ghost function FileClash(h: Hash, size: nat, file: Bytes, m: FileMetadata, pieces: seq<Bytes>): (Bytes, Bytes)
    requires size > 0 && file != [] && PiecesAccepted(h, size, file, m, pieces) && pieces != Chunks(file, size)
  {
    var i := FirstDifference(pieces, Chunks(file, size));
    ChunkClash(h, Chunks(file, size), i, pieces[i], m.merkleProofs[i])
  }

  /** Accepted pieces make up the published file, or `FileClash` is a collision. */
  lemma AcceptedPiecesMakeTheFile(h: Hash, size: nat, file: Bytes, m: FileMetadata, pieces: seq<Bytes>)
    requires size > 0 && file != [] && PiecesAccepted(h, size, file, m, pieces)
    ensures Flat(pieces) == file || (pieces != Chunks(file, size) && Collision(h, FileClash(h, size, file, m, pieces)))
  {
    ChunksDivide(file, size);
    if pieces != Chunks(file, size) {
      var i := FirstDifference(pieces, Chunks(file, size));
      Soundness(h, Chunks(file, size), i, pieces[i], m.merkleProofs[i]);
    }
  }

  /** The destination holds the published file, or the pieces it was assembled from contain a
      collision. */
  ghost predicate Intact(h: Hash, size: nat, file: Bytes, m: FileMetadata, disk: Disk)
    requires size > 0 && file != []
  {
    && Destination(m) in disk.files
    && (|| disk.files[Destination(m)] == file
        || (&& m.chunksDir in disk.pieces
            && PiecesAccepted(h, size, file, m, disk.pieces[m.chunksDir])
            && disk.pieces[m.chunksDir] != Chunks(file, size)
            && Collision(h, FileClash(h, size, file, m, disk.pieces[m.chunksDir]))))
  }

  /** Integrity, end to end. On a node that downloads and publishes files, after any run at all, with
      any replies from peers, any interleaving, any failures and crashes: a file at its destination
      is the published file, byte for byte, or the pieces it was assembled from contain a
      collision; and every file recorded as published is there. */
  lemma RestoredIsPublished(
    h: Hash, keyHash: KeyHash, size: nat, permits: nat, origins: map<Dir, Origin>, es: seq<Event>, d: Dir)
    requires size > 0 && (forall d :: d in origins ==> origins[d].file != []) && LaidOut(origins)
    requires
      var w := WorldOf(h, keyHash, size, permits, origins);
      Possible(w, Init(w), es)
    requires d in origins
    ensures
      var w := WorldOf(h, keyHash, size, permits, origins);
      var disk := Run(w, Init(w), es).disk;
      var file, m := origins[d].file, w.meta[d];
      Destination(m) in disk.files ==> Intact(h, size, file, m, disk)
    ensures
      var w := WorldOf(h, keyHash, size, permits, origins);
      var s := Run(w, Init(w), es);
      forall k :: k in s.store.published ==>
        && s.store.published[k].chunksDir in w.meta
        && Destination(w.meta[s.store.published[k].chunksDir]) in s.disk.files
  {
    var w := WorldOf(h, keyHash, size, permits, origins);
    var s := Run(w, Init(w), es);
    PublishedIsGenuine(h, keyHash, size, permits, origins);
    InitInv(w);
    RunInv(w, Init(w), es);
    if Destination(w.meta[d]) in s.disk.files {
      assert Complete(w, s.disk, d);
      AcceptedIsPieces(h, keyHash, size, permits, origins, s.disk, d);
      AcceptedPiecesMakeTheFile(h, size, origins[d].file, w.meta[d], s.disk.pieces[d]);
    }
    forall k | k in s.store.published
      ensures s.store.published[k].chunksDir in w.meta
      ensures Destination(w.meta[s.store.published[k].chunksDir]) in s.disk.files
    {
      assert PublishedOk(w, s.disk, s.store.published[k]);
    }
  }

  lemma AcceptedIsPieces(
    h: Hash, keyHash: KeyHash, size: nat, permits: nat, origins: map<Dir, Origin>, disk: Disk, d: Dir)
    requires size > 0 && (forall d :: d in origins ==> origins[d].file != [])
    requires d in origins && Complete(WorldOf(h, keyHash, size, permits, origins), disk, d)
    ensures origins[d].file != []
      && PiecesAccepted(h, size, origins[d].file, WorldOf(h, keyHash, size, permits, origins).meta[d], disk.pieces[d])
  {
    var w := WorldOf(h, keyHash, size, permits, origins);
    var pieces := disk.pieces[d];
    forall i | 0 <= i < |pieces|
      ensures VerifyChunk(h, pieces[i], i, w.meta[d].merkleProofs[i], w.meta[d].merkleRoot, |pieces|) == Accepted
    {
      assert Check(w, w.meta[d], i, pieces[i]) == Accepted;
    }
  }

  /** However far a node has got with its downloads, if it crashes now, and start-up gets over, which it
      does unless a metadata file it reads is torn, there is a way on after which just those records
      are still pending whose metadata cannot be read. Every other file that was pending is recorded as
      published from its own directory and lies at its destination as it was published, or else its
      pieces contain a collision. */
  lemma DownloadsSurviveCrash(
    h: Hash, keyHash: KeyHash, size: nat, permits: nat, origins: map<Dir, Origin>, es: seq<Event>, skipped: set<Key>)
    returns (more: seq<Event>)
    requires size > 0 && permits > 0 && (forall d :: d in origins ==> origins[d].file != []) && LaidOut(origins)
    requires
      var w := WorldOf(h, keyHash, size, permits, origins);
      Possible(w, Init(w), es) && CanStartUp(Step(w, Run(w, Init(w), es), Crash), skipped)
    ensures
      var w := WorldOf(h, keyHash, size, permits, origins);
      Possible(w, Init(w), es + [Crash] + more) && (skipped == {} ==> NoSkips(more))
    ensures
      var w := WorldOf(h, keyHash, size, permits, origins);
      var before, t := Run(w, Init(w), es), Run(w, Init(w), es + [Crash] + more);
      && t.store.pending == Unreadable(before)
      && forall key :: key in before.store.pending && key !in Unreadable(before) ==>
           var d := before.store.pending[key].chunksDir;
           && key in t.store.published && t.store.published[key].chunksDir == d
           && d in origins && Intact(h, size, origins[d].file, w.meta[d], t.disk)
  {
    var w := WorldOf(h, keyHash, size, permits, origins);
    PublishedIsGenuine(h, keyHash, size, permits, origins);
    InitInv(w);
    more := CrashedRunCompletes(w, Init(w), es, skipped);
    RunInv(w, Init(w), es);
    var before, t := Run(w, Init(w), es), Run(w, Init(w), es + [Crash] + more);
    forall key | key in before.store.pending && key !in Unreadable(before)
      ensures
        var d := before.store.pending[key].chunksDir;
        && key in t.store.published && t.store.published[key].chunksDir == d
        && d in origins && Intact(h, size, origins[d].file, w.meta[d], t.disk)
    {
      assert before.store.pending[key].key == key;
      var d := before.store.pending[key].chunksDir;
      RestoredIsPublished(h, keyHash, size, permits, origins, es + [Crash] + more, d);
    }
  }

  /** When a crash can be survived like that without skipping a metadata file: if and only if no published
      file has lost its metadata, or no pending download has kept it. And if one has, nothing is
      published any more, over every restart. */
  lemma SurvivalExactly(
    h: Hash, keyHash: KeyHash, size: nat, permits: nat, origins: map<Dir, Origin>, es: seq<Event>)
    requires size > 0 && permits > 0 && (forall d :: d in origins ==> origins[d].file != []) && LaidOut(origins)
    requires
      var w := WorldOf(h, keyHash, size, permits, origins);
      Possible(w, Init(w), es)
    ensures
      var w := WorldOf(h, keyHash, size, permits, origins);
      var down := Step(w, Run(w, Init(w), es), Crash);
      && ((exists more :: Survives(w, down, more)) <==>
            !AnnouncingFails(down) || Unreadable(down) == down.store.pending)
      && (AnnouncingFails(down) ==>
            forall more :: Possible(w, down, more) && NoSkips(more) ==> NothingDone(down, Run(w, down, more)))
  {
    var w := WorldOf(h, keyHash, size, permits, origins);
    PublishedIsGenuine(h, keyHash, size, permits, origins);
    InitInv(w);
    RunInv(w, Init(w), es);
    var down := Step(w, Run(w, Init(w), es), Crash);
    StepInv(w, Run(w, Init(w), es), Crash);
    SurvivesExactly(w, down);
    if AnnouncingFails(down) {
      var k := FailingIsStalled(w, down);
      forall more | Possible(w, down, more) && NoSkips(more)
        ensures NothingDone(down, Run(w, down, more))
      {
        StalledForEver(w, down, more, k);
      }
    }
  }

  // ----- exactly when -----

  /** The result of `RestoredIsPublished`, of one run. */
  ghost predicate IntactAfter(
    h: Hash, keyHash: KeyHash, size: nat, permits: nat, origins: map<Dir, Origin>, es: seq<Event>)
    requires size > 0 && forall d :: d in origins ==> origins[d].file != []
  {
    var w := WorldOf(h, keyHash, size, permits, origins);
    Possible(w, Init(w), es) ==>
      var disk := Run(w, Init(w), es).disk;
      forall d :: d in origins && Destination(w.meta[d]) in disk.files ==>
        Intact(h, size, origins[d].file, w.meta[d], disk)
  }

  /** Integrity over every run holds if and only if no file has the name of another's temporary file. */
  lemma IntegrityExactly(h: Hash, keyHash: KeyHash, size: nat, permits: nat, origins: map<Dir, Origin>)
    requires size > 0 && permits > 0 && (forall d :: d in origins ==> origins[d].file != []) && NamesApart(origins)
    ensures (forall es :: IntactAfter(h, keyHash, size, permits, origins, es)) <==> PartsApart(origins)
  {
    if d, e :| PartOf(origins, d, e) {
      var es := PartDestroysFile(h, keyHash, size, permits, origins, d, e);
      assert !IntactAfter(h, keyHash, size, permits, origins, es);
    } else {
      forall es
        ensures IntactAfter(h, keyHash, size, permits, origins, es)
      {
        RunIntact(h, keyHash, size, permits, origins, es);
      }
    }
  }

  /** Names such as "a" and "a.part" in one directory: the user gives "a.part" to be published, and then
      downloads "a", which truncates the file that is there. */
  lemma PartDestroysFile(h: Hash, keyHash: KeyHash, size: nat, permits: nat, origins: map<Dir, Origin>, d: Dir, e: Dir)
    returns (es: seq<Event>)
    requires size > 0 && permits > 0 && (forall d :: d in origins ==> origins[d].file != []) && PartOf(origins, d, e)
    ensures
      var w := WorldOf(h, keyHash, size, permits, origins);
      && Possible(w, Init(w), es)
      && var t := Run(w, Init(w), es);
         && Destination(w.meta[e]) in t.disk.files && t.disk.files[Destination(w.meta[e])] == []
         && !Intact(h, size, origins[e].file, w.meta[e], t.disk)
    ensures !IntactAfter(h, keyHash, size, permits, origins, es)
  {
    var w := WorldOf(h, keyHash, size, permits, origins);
    OriginGenuine(h, keyHash, size, permits, origins, d);
    assert |origins[d].name + ".part"| != |origins[d].name|;
    es := PartDestroys(w, d, e);
  }

  lemma RunIntact(h: Hash, keyHash: KeyHash, size: nat, permits: nat, origins: map<Dir, Origin>, es: seq<Event>)
    requires size > 0 && (forall d :: d in origins ==> origins[d].file != []) && LaidOut(origins)
    ensures IntactAfter(h, keyHash, size, permits, origins, es)
  {
    var w := WorldOf(h, keyHash, size, permits, origins);
    if Possible(w, Init(w), es) {
      forall d | d in origins && Destination(w.meta[d]) in Run(w, Init(w), es).disk.files
        ensures Intact(h, size, origins[d].file, w.meta[d], Run(w, Init(w), es).disk)
      {
        RestoredIsPublished(h, keyHash, size, permits, origins, es, d);
      }
    }
  }

  /** Names such as "a" and "a.part" in one directory: a run without any failure after which the second
      file is recorded as published, while at its destination is an empty file, and that not for a
      collision. */
  lemma PartBreaksIntegrity(
    h: Hash, keyHash: KeyHash, size: nat, permits: nat, origins: map<Dir, Origin>, d: Dir, e: Dir)
    returns (es: seq<Event>)
    requires size > 0 && permits > 0 && (forall d :: d in origins ==> origins[d].file != []) && PartOf(origins, d, e)
    requires
      var w := WorldOf(h, keyHash, size, permits, origins);
      KeyAt(w, d) != KeyAt(w, e)
    ensures
      var w := WorldOf(h, keyHash, size, permits, origins);
      && Possible(w, Init(w), es)
      && var t := Run(w, Init(w), es);
         && KeyAt(w, e) in t.store.published && t.store.published[KeyAt(w, e)].chunksDir == e
         && Destination(w.meta[e]) in t.disk.files && t.disk.files[Destination(w.meta[e])] == []
         && !Intact(h, size, origins[e].file, w.meta[e], t.disk)
    ensures !IntactAfter(h, keyHash, size, permits, origins, es)
  {
    var w := WorldOf(h, keyHash, size, permits, origins);
    OriginGenuine(h, keyHash, size, permits, origins, d);
    OriginGenuine(h, keyHash, size, permits, origins, e);
    assert |origins[d].name + ".part"| != |origins[d].name|;
    es := StrayPartIsPublished(w, d, e);
  }

  // ----- files in one chunk directory -----

  /** Names such as "a.b" and "a_b" in one directory, though each file alone is laid out as it should be:
      with no failure at all, both get recorded as published, the first has nothing at its
      destination, and at that of the second lie the first chunks of the first. (The second is the one
      with no more chunks than the other.) */
  lemma AlikeNamesMixFiles(h: Hash, keyHash: KeyHash, size: nat, permits: nat, parent: string, a: Origin, b: Origin)
    returns (first: seq<Event>, second: seq<Event>)
    requires size > 0 && permits > 0 && a.file != [] && b.file != []
    requires a.name != b.name && AlikeNames(a.name, b.name) && |Chunks(b.file, size)| <= |Chunks(a.file, size)|
    requires
      var d := ChunksDirOf(parent, a.name);
      var w, w' := WorldOf(h, keyHash, size, permits, map[d := a]), WorldOf(h, keyHash, size, permits, map[d := b]);
      KeyAt(w, d) != KeyAt(w', d)
    ensures
      var d := ChunksDirOf(parent, a.name);
      d == ChunksDirOf(parent, b.name) && LaidOut(map[d := a]) && LaidOut(map[d := b])
    ensures
      var d := ChunksDirOf(parent, a.name);
      var w, w' := WorldOf(h, keyHash, size, permits, map[d := a]), WorldOf(h, keyHash, size, permits, map[d := b]);
      && Possible(w, Init(w), first)
      && var free := Forget(Run(w, Init(w), first), d);
         && Possible(w', free, second)
         && var t := Run(w', free, second);
            && KeyAt(w, d) in t.store.published && t.store.published[KeyAt(w, d)].chunksDir == d
            && KeyAt(w', d) in t.store.published && t.store.published[KeyAt(w', d)].chunksDir == d
            && PlainPath(parent, a.name) !in t.disk.files && PlainPath(parent, b.name) in t.disk.files
            && t.disk.files[PlainPath(parent, b.name)] == Flat(Chunks(a.file, size)[..|Chunks(b.file, size)|])
  {
    var d := ChunksDirOf(parent, a.name);
    var w, w' := WorldOf(h, keyHash, size, permits, map[d := a]), WorldOf(h, keyHash, size, permits, map[d := b]);
    SharedExactly(parent, a.name, b.name);
    OneIsLaidOut(d, a);
    OneIsLaidOut(d, b);
    OriginGenuine(h, keyHash, size, permits, map[d := a], d);
    OriginGenuine(h, keyHash, size, permits, map[d := b], d);
    first, second := SharedDirectoryMixes(w, w', d);
  }

  lemma OneIsLaidOut(d: Dir, origin: Origin)
    ensures LaidOut(map[d := origin])
  {
    assert |origin.name + ".part"| != |origin.name|;
  }
}
