/** The ideal division of a file into chunks, and the metadata that describes it. */
module Chunking {
  import opened Bytes
  import opened Merkle
  import opened Domain

  /** Full chunks from the front, then what is left. */
  function Chunks(file: Bytes, size: nat): seq<Bytes>
    requires size > 0
  {
    if file == [] then []
    else if |file| <= size then [file]
    else [file[..size]] + Chunks(file[size..], size)
  }

  /** No empty chunk, none but the last short, and nothing lost or added. */
  ghost predicate IsChunking(chunks: seq<Bytes>, file: Bytes, size: nat) {
    && Flat(chunks) == file
    && (forall k :: 0 <= k < |chunks| ==> 0 < |chunks[k]| <= size)
    && (forall k :: 0 <= k < |chunks| - 1 ==> |chunks[k]| == size)
  }

  /** The number of chunks is the file size divided by the chunk size, rounded up. */
  lemma {:induction false} ChunkCount(file: Bytes, size: nat)
    requires size > 0
    ensures |file| <= |Chunks(file, size)| * size < |file| + size
  {
    if |file| > size {
      ChunkCount(file[size..], size);
      assert |Chunks(file, size)| == 1 + |Chunks(file[size..], size)|;
    }
  }

  /** `Chunks` divides the file as promised. */
  lemma {:induction false} ChunksDivide(file: Bytes, size: nat)
    requires size > 0
    ensures IsChunking(Chunks(file, size), file, size)
  {
    if file == [] {
    } else if |file| <= size {
      FlatSnoc([], file);
      assert [] + [file] == [file];
    } else {
      ChunksDivide(file[size..], size);
      FlatCons(file[..size], Chunks(file[size..], size));
      assert file[..size] + file[size..] == file;
    }
  }

  /** There is only one such division. */
  lemma {:induction false} ChunkingUnique(chunks: seq<Bytes>, file: Bytes, size: nat)
    requires size > 0 && IsChunking(chunks, file, size)
    ensures chunks == Chunks(file, size)
  {
    if chunks != [] {
      var first, rest := chunks[0], chunks[1..];
      assert chunks == [first] + rest;
      FlatCons(first, rest);
      if rest == [] {
        assert file == first;
      } else {
        FlatCons(rest[0], rest[1..]);
        assert rest == [rest[0]] + rest[1..];
        assert file[..size] == first && file[size..] == Flat(rest);
        ChunkingUnique(rest, file[size..], size);
      }
    }
  }

  /** The metadata of a non-empty file whose chunks are kept in `dir`. */
  function Describe(h: Hash, size: nat, name: string, dir: Dir, file: Bytes, public: bool): (m: FileMetadata)
    requires size > 0 && file != []
    ensures m.totalChunks == |m.merkleProofs| == |Chunks(file, size)| > 0
    ensures m.chunksDir == dir && m.originalFileName == name && m.public == public
  {
    var leaves := Leaves(h, Chunks(file, size));
    FileMetadata(
      name, |leaves|, dir, TreeRoot(h, leaves),
      seq(|leaves|, i requires 0 <= i < |leaves| => EncodeProof(Proof(h, leaves, i))),
      FILE_CHUNK_EXTENSION, public)
  }

  /** Writing chunk files 0, 1, … of a directory. */
  function WithChunks(files: map<Path, Bytes>, dir: Dir, chunks: seq<Bytes>): map<Path, Bytes> {
    if chunks == [] then files
    else
      var last := |chunks| - 1;
      WithChunks(files, dir, chunks[..last])[ChunkPath(dir, last, FILE_CHUNK_EXTENSION) := chunks[last]]
  }

  /** Afterwards chunk file `k` holds chunk `k`, and no other file has changed. */
  lemma {:induction false} WithChunksFiles(files: map<Path, Bytes>, dir: Dir, chunks: seq<Bytes>, p: Path)
    ensures var after := WithChunks(files, dir, chunks);
            if p.ChunkPath? && p.dir == dir && p.extension == FILE_CHUNK_EXTENSION && p.id < |chunks|
            then p in after && after[p] == chunks[p.id]
            else (p in after <==> p in files) && (p in files ==> after[p] == files[p])
  {
    if chunks != [] {
      WithChunksFiles(files, dir, chunks[..|chunks| - 1], p);
    }
  }

  lemma WithChunksSnoc(files: map<Path, Bytes>, dir: Dir, chunks: seq<Bytes>, next: Bytes)
    ensures WithChunks(files, dir, chunks + [next])
            == WithChunks(files, dir, chunks)[ChunkPath(dir, |chunks|, FILE_CHUNK_EXTENSION) := next]
  {
    assert (chunks + [next])[..|chunks|] == chunks;
  }

  /** The files left behind by a writer that stopped after some of the chunks. */
  ghost predicate SomeChunksWritten(before: map<Path, Bytes>, after: map<Path, Bytes>, dir: Dir, chunks: seq<Bytes>) {
    exists n: nat :: FirstWritten(before, after, dir, chunks, n)
  }

  ghost predicate FirstWritten(
    before: map<Path, Bytes>, after: map<Path, Bytes>, dir: Dir, chunks: seq<Bytes>, n: nat) {
    n <= |chunks| && after == WithChunks(before, dir, chunks[..n])
  }
}
