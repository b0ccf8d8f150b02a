/** Records, responses and the names of files on disk. */
module Domain {
  import opened Bytes
  import opened Keys

  const FILE_CHUNK_EXTENSION := "chunk"

  /** A directory of chunks, by its parent directory and its own name. */
  datatype Dir = Dir(parent: string, name: string)

  datatype Path =
    | ChunkPath(dir: Dir, id: nat, extension: string)
    | PlainPath(parent: string, name: string)

  datatype FileMetadata = FileMetadata(
    originalFileName: string,
    totalChunks: nat,
    chunksDir: Dir,
    merkleRoot: Digest,
    merkleProofs: seq<Bytes>,
    chunkFileExtension: string,
    public: bool)

  /** The metadata file of a chunk directory. Creating it truncates it, so until the whole value
      has been written it is torn: present, but not decodable. */
  datatype MetaFile = Torn | Saved(metadata: FileMetadata)

  datatype PublishedFileRecord = PublishedFileRecord(key: Key, originalFileName: string, chunksDir: Dir, public: bool)

  datatype PendingDownloadRecord = PendingDownloadRecord(key: Key, originalFileName: string, chunksDir: Dir,
    downloadedChunks: set<nat>)

  datatype FileResponse = Success(bytes: Bytes) | NotFound | Error

  function ChunkFile(m: FileMetadata, id: nat): Path {
    ChunkPath(m.chunksDir, id, m.chunkFileExtension)
  }

  /** Where a file is restored, and the temporary file it is assembled in. */
  function Destination(m: FileMetadata): Path {
    PlainPath(m.chunksDir.parent, m.originalFileName)
  }

  function PartFile(m: FileMetadata): Path {
    PlainPath(m.chunksDir.parent, m.originalFileName + ".part")
  }

  /** A file name with underscores for dots. */
  function Underscored(name: string): string {
    if name == "" then "" else [if name[0] == '.' then '_' else name[0]] + Underscored(name[1..])
  }

  /** The directory the program derives for the chunks of a file. */
  function ChunksDirOf(parent: string, name: string): Dir {
    Dir(parent, Underscored(name) + "_chunks")
  }

  lemma {:induction false} UnderscoredAt(name: string, i: nat)
    requires i < |name|
    ensures |Underscored(name)| == |name| && Underscored(name)[i] == if name[i] == '.' then '_' else name[i]
  {
    if |name| > 1 { UnderscoredAt(name[1..], if i > 0 then i - 1 else 0); }
  }

  lemma {:induction false} UnderscoredLength(name: string)
    ensures |Underscored(name)| == |name|
  {
    if name != "" { UnderscoredLength(name[1..]); }
  }

  /** Names that differ at most in having a dot where the other has an underscore. */
  predicate AlikeNames(a: string, b: string) {
    |a| == |b| && forall i :: 0 <= i < |a| ==> a[i] == b[i] || (a[i] in "._" && b[i] in "._")
  }

  /** Two files in one parent directory get one chunk directory exactly if their names are alike. */
  lemma SharedExactly(parent: string, a: string, b: string)
    ensures ChunksDirOf(parent, a) == ChunksDirOf(parent, b) <==> AlikeNames(a, b)
  {
    var x, y := Underscored(a), Underscored(b);
    UnderscoredLength(a);
    UnderscoredLength(b);
    forall i | 0 <= i < |a| && |a| == |b|
      ensures x[i] == y[i] <==> a[i] == b[i] || (a[i] in "._" && b[i] in "._")
    {
      UnderscoredAt(a, i);
      UnderscoredAt(b, i);
    }
    assert (x + "_chunks")[..|x|] == x && (y + "_chunks")[..|y|] == y;
    assert |x + "_chunks"| == |x| + 7 && |y + "_chunks"| == |y| + 7;
  }

  /** The hash behind a file's key sees the name, the chunk count, the root and the visibility;
      not the directory, nor the proofs. */
  type KeyHash = (string, nat, Digest, bool) -> Key

  function MetadataKey(keyHash: KeyHash, m: FileMetadata): Key {
    keyHash(m.originalFileName, m.totalChunks, m.merkleRoot, m.public)
  }

  /** Two inputs of the key hash that differ in one of their parts, and have one key. */
  ghost predicate KeyCollision(keyHash: KeyHash, x: (string, nat, Digest, bool), y: (string, nat, Digest, bool)) {
    && (x.0 != y.0 || x.1 != y.1 || x.2 != y.2 || x.3 != y.3)
    && keyHash(x.0, x.1, x.2, x.3) == keyHash(y.0, y.1, y.2, y.3)
  }

  /** Two files have one key exactly if they have name, chunk count, root and visibility in common, or else
      if what they differ in is a collision of the key hash. */
  lemma KeyTellsApart(keyHash: KeyHash, a: FileMetadata, b: FileMetadata)
    ensures
      var x := (a.originalFileName, a.totalChunks, a.merkleRoot, a.public);
      var y := (b.originalFileName, b.totalChunks, b.merkleRoot, b.public);
      MetadataKey(keyHash, a) == MetadataKey(keyHash, b) <==> x == y || KeyCollision(keyHash, x, y)
  {
  }

  function PublishedRecord(keyHash: KeyHash, m: FileMetadata): PublishedFileRecord {
    PublishedFileRecord(MetadataKey(keyHash, m), m.originalFileName, m.chunksDir, m.public)
  }
}
