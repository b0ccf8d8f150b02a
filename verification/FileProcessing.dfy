/** Splitting a file into chunk files, describing it, and putting it together again. */
module FileProcessing {
  import opened Bytes
  import opened Merkle
  import opened Domain
  import opened Chunking

  datatype Failure = Io | NotAFile | NoMerkleRoot | Undecodable

  /** A buffered reader over a file: each read may return fewer bytes than asked for. */
  class Reader {
    const data: Bytes
    var pos: nat
    var failed: bool

    ghost predicate Valid()
      reads this
    {
      pos <= |data|
    }

    constructor (data: Bytes)
      ensures Valid() && this.data == data && pos == 0 && !failed
    {
      this.data, pos, failed := data, 0, false;
    }

    /** Fills some of `buf[from..]`. No bytes come only at the end of the file, or for no room. */
    method Read(buf: array<byte>, from: nat) returns (r: Result<nat, Failure>)
      requires Valid() && from <= buf.Length
      modifies this, buf
      ensures Valid()
      ensures r.Err? ==> failed && pos == old(pos) && buf[..] == old(buf[..])
      ensures r.Ok? ==> failed == old(failed)
      ensures r.Ok? ==> pos == old(pos) + r.value && from + r.value <= buf.Length
      ensures r.Ok? ==> (r.value == 0 <==> old(pos) == |data| || from == buf.Length)
      ensures r.Ok? ==> buf[..] == old(buf[..from]) + data[old(pos)..pos] + old(buf[from + r.value..])
    {
      var works := *;
      if !works {
        failed := true;
        return Err(Io);
      }
      var limit := if |data| - pos < buf.Length - from then |data| - pos else buf.Length - from;
      var n: nat :| n <= limit && (n == 0 <==> limit == 0);
      forall k | 0 <= k < n {
        buf[from + k] := data[pos + k];
      }
      pos := pos + n;
      return Ok(n);
    }
  }

  ghost predicate SameExcept(a: map<Path, Bytes>, b: map<Path, Bytes>, path: Path) {
    a - {path} == b - {path}
  }

  /** The files of a node. Each write, rename and creation is one step; `seen` records the files
      after every step, so that a crash leaves one of its entries behind. */
  class FileSystem {
    var metas: map<Dir, MetaFile>
    var files: map<Path, Bytes>
    var failed: bool
    ghost var seen: seq<map<Path, Bytes>>

    constructor ()
      ensures metas == map[] && files == map[] && !failed && seen == []
    {
      metas, files, failed, seen := map[], map[], false, [];
    }

    method Write(path: Path, bytes: Bytes) returns (ok: bool)
      modifies this
      ensures metas == old(metas)
      ensures ok ==> files == old(files)[path := bytes] && seen == old(seen) + [files] && failed == old(failed)
      ensures !ok ==> files == old(files) && seen == old(seen) && failed
    {
      ok := *;
      if ok {
        files := files[path := bytes];
        seen := seen + [files];
      } else {
        failed := true;
      }
    }

    method Read(path: Path) returns (r: Option<Bytes>)
      modifies this`failed
      ensures r.Some? ==> path in files && r.value == files[path] && failed == old(failed)
      ensures r.None? ==> failed
    {
      var works := *;
      if works && path in files {
        r := Some(files[path]);
      } else {
        failed := true;
        r := None;
      }
    }

    /** Anything else that is asked of the file system and may fail. */
    method Attempt() returns (ok: bool)
      modifies this`failed
      ensures failed == if ok then old(failed) else true
    {
      ok := *;
      if !ok {
        failed := true;
      }
    }

    /** Reads and decodes the metadata file of a directory. */
    method ReadMetadata(dir: Dir) returns (r: Result<FileMetadata, Failure>)
      modifies this`failed
      ensures r.Ok? ==> dir in metas && metas[dir] == Saved(r.value) && failed == old(failed)
      ensures r == Err(Undecodable) ==> dir in metas && metas[dir] == Torn
      ensures r.Err? ==> r.error == Undecodable || (r.error == Io && failed)
    {
      var works := *;
      if !works || dir !in metas {
        failed := true;
        return Err(Io);
      }
      match metas[dir]
      case Torn => return Err(Undecodable);
      case Saved(m) => return Ok(m);
    }

    method Rename(from: Path, to: Path) returns (ok: bool)
      requires from in files && from != to
      modifies this
      ensures metas == old(metas)
      ensures ok ==>
        files == (old(files) - {from})[to := old(files)[from]] && seen == old(seen) + [files] && failed == old(failed)
      ensures !ok ==> files == old(files) && seen == old(seen) && failed
    {
      ok := *;
      if ok {
        files := (files - {from})[to := files[from]];
        seen := seen + [files];
      } else {
        failed := true;
      }
    }

    /** Creates the metadata file, which truncates it, and then fills it through a buffer. What is still
        in the buffer at the end is written when the writer is dropped; if that fails, the file stays
        torn, and the result does not tell. */
    method SaveMetadata(m: FileMetadata) returns (ok: bool)
      modifies this
      ensures files == old(files) && seen == old(seen)
      ensures ok ==>
        || (metas == old(metas)[m.chunksDir := Saved(m)] && failed == old(failed))
        || (metas == old(metas)[m.chunksDir := Torn] && failed)
      ensures !ok ==> failed && (metas == old(metas) || metas == old(metas)[m.chunksDir := Torn])
    {
      ok := *;
      if !ok {
        failed := true;
        return;
      }
      metas := metas[m.chunksDir := Torn];
      ok := *;
      if !ok {
        failed := true;
        return;
      }
      var dropped := *;
      if dropped {
        failed := true;
      } else {
        metas := metas[m.chunksDir := Saved(m)];
      }
    }
  }

  /** Reads until the buffer is full or the file ends; the rest of the buffer may be stale. */
  method Fill(reader: Reader, buffer: array<byte>) returns (r: Result<nat, Failure>)
    requires reader.Valid()
    modifies reader, buffer
    ensures reader.Valid()
    ensures r.Err? ==> r.error == Io && reader.failed
    ensures r.Ok? ==>
      && reader.failed == old(reader.failed)
      && r.value <= buffer.Length && reader.pos == old(reader.pos) + r.value
      && buffer[..r.value] == reader.data[old(reader.pos)..reader.pos]
      && (r.value == buffer.Length || reader.pos == |reader.data|)
  {
    var filled := 0;
    while filled < buffer.Length
      invariant reader.Valid() && filled <= buffer.Length
      invariant reader.pos == old(reader.pos) + filled
      invariant buffer[..filled] == reader.data[old(reader.pos)..reader.pos]
      invariant reader.failed == old(reader.failed)
      decreases buffer.Length - filled, |reader.data| - reader.pos
    {
      var read := reader.Read(buffer, filled);
      if read.Err? {
        return Err(Io);
      }
      if read.value == 0 {
        break;
      }
      filled := filled + read.value;
    }
    return Ok(filled);
  }

  /** What has been written and the chunks of the rest are all the chunks. */
  ghost predicate CutUpTo(written: seq<Bytes>, data: Bytes, pos: nat, size: nat) {
    size > 0 && pos <= |data| && Chunks(data, size) == written + Chunks(data[pos..], size)
  }

  /** A full buffer, or all that is left, is the next chunk. */
  lemma NextChunk(written: seq<Bytes>, data: Bytes, start: nat, bytes: Bytes, size: nat)
    returns (end: nat, more: seq<Bytes>)
    requires CutUpTo(written, data, start, size)
    requires 0 < |bytes| <= size && start + |bytes| <= |data| && bytes == data[start..start + |bytes|]
    requires |bytes| == size || start + |bytes| == |data|
    ensures end == start + |bytes| && more == written + [bytes]
    ensures CutUpTo(more, data, end, size)
  {
    end, more := start + |bytes|, written + [bytes];
    var rest := data[start..];
    assert rest[..|bytes|] == bytes && rest[|bytes|..] == data[end..];
    if end == |data| {
      assert rest == bytes;
    }
    assert Chunks(rest, size) == [bytes] + Chunks(data[end..], size);
  }

  lemma LeavesSnoc(h: Hash, chunks: seq<Bytes>, next: Bytes)
    ensures Leaves(h, chunks + [next]) == Leaves(h, chunks) + [h(next)]
  {
  }

  lemma NothingCut(data: Bytes, size: nat)
    requires size > 0
    ensures CutUpTo([], data, 0, size)
  {
    assert data[0..] == data;
  }

  lemma AllCut(written: seq<Bytes>, data: Bytes, size: nat)
    requires CutUpTo(written, data, |data|, size)
    ensures written == Chunks(data, size)
  {
  }

  lemma PartlyWritten(before: map<Path, Bytes>, dir: Dir, written: seq<Bytes>, data: Bytes, pos: nat, size: nat)
    requires CutUpTo(written, data, pos, size)
    ensures SomeChunksWritten(before, WithChunks(before, dir, written), dir, Chunks(data, size))
  {
    assert Chunks(data, size)[..|written|] == written;
    assert FirstWritten(before, WithChunks(before, dir, written), dir, Chunks(data, size), |written|);
  }

  /** Cuts the file into chunk files and returns their hashes: whatever the sizes of the reads, the
      chunk files are the ideal chunks, and after an error they are a prefix of them. */
  method Split(h: Hash, size: nat, reader: Reader, disk: FileSystem, dir: Dir) returns (r: Result<seq<Digest>, Failure>)
    requires size > 0 && reader.Valid() && reader.pos == 0
    modifies reader, disk
    ensures disk.metas == old(disk.metas)
    ensures r.Ok? ==>
      && r.value == Leaves(h, Chunks(reader.data, size))
      && disk.files == WithChunks(old(disk.files), dir, Chunks(reader.data, size))
      && disk.failed == old(disk.failed) && reader.failed == old(reader.failed)
    ensures r.Err? ==>
      && r.error == Io && (disk.failed || reader.failed)
      && SomeChunksWritten(old(disk.files), disk.files, dir, Chunks(reader.data, size))
  {
    var buffer := new byte[size](_ => 0);
    var leaves: seq<Digest> := [];
    ghost var written: seq<Bytes>, start: nat := [], 0;
    ghost var data, before := reader.data, disk.files;
    NothingCut(data, size);
    while true
      invariant reader.Valid() && fresh(buffer) && start == reader.pos
      invariant reader.failed == old(reader.failed) && disk.failed == old(disk.failed) && disk.metas == old(disk.metas)
      invariant CutUpTo(written, data, start, size)
      invariant leaves == Leaves(h, written)
      invariant disk.files == WithChunks(before, dir, written)
      decreases |data| - start
    {
      PartlyWritten(before, dir, written, data, start, size);
      var fill := Fill(reader, buffer);
      if fill.Err? {
        return Err(Io);
      }
      var filled := fill.value;
      if filled == 0 {
        break;
      }
      var bytes := buffer[..filled];
      var ok := disk.Write(ChunkPath(dir, |leaves|, FILE_CHUNK_EXTENSION), bytes);
      if !ok {
        return Err(Io);
      }
      leaves := leaves + [h(bytes)];
      LeavesSnoc(h, written, bytes);
      WithChunksSnoc(before, dir, written, bytes);
      start, written := NextChunk(written, data, start, bytes, size);
    }
    AllCut(written, data, size);
    return Ok(leaves);
  }

  /** What processing a file leaves behind: its chunk files and metadata, which may be torn after all;
      or, after an error, some of the chunk files, or all of them and torn metadata. */
  ghost predicate ProcessOutcome(
    h: Hash, size: nat, name: string, dir: Dir, file: Bytes, public: bool,
    metas: map<Dir, MetaFile>, files: map<Path, Bytes>, metas': map<Dir, MetaFile>, files': map<Path, Bytes>,
    r: Result<FileMetadata, Failure>)
    requires size > 0
  {
    match r
    case Ok(m) =>
      && file != [] && m == Describe(h, size, name, dir, file, public)
      && files' == WithChunks(files, dir, Chunks(file, size))
      && (metas' == metas[dir := Saved(m)] || metas' == metas[dir := Torn])
    case Err(_) =>
      || (metas' == metas && SomeChunksWritten(files, files', dir, Chunks(file, size)))
      || (metas' == metas[dir := Torn] && files' == WithChunks(files, dir, Chunks(file, size)))
  }

  /** Chunk files, Merkle tree, proofs and the metadata file of the file to publish. It succeeds for a
      regular file that is not empty, unless an operation fails: without chunks there is no root. But
      it may succeed although the last write of the metadata has failed: the metadata is there exactly
      if nothing has. */
  method ProcessFile(
    h: Hash, size: nat, reader: Reader, isFile: bool, disk: FileSystem, name: string, dir: Dir, public: bool)
    returns (r: Result<FileMetadata, Failure>)
    requires size > 0 && reader.Valid() && reader.pos == 0
    modifies reader, disk
    ensures ProcessOutcome(h, size, name, dir, reader.data, public, old(disk.metas), old(disk.files), disk.metas,
      disk.files, r)
    ensures r.Ok? ==> isFile && reader.failed == old(reader.failed)
    ensures r.Ok? ==> if disk.metas[dir].Saved? then disk.failed == old(disk.failed) else disk.failed
    ensures r == Err(NotAFile) ==> !isFile
    ensures r == Err(NoMerkleRoot) ==> reader.data == []
    ensures r == Err(Io) ==> disk.failed || reader.failed
    ensures r.Err? ==> r.error in {NotAFile, NoMerkleRoot, Io}
  {
    assert FirstWritten(disk.files, disk.files, dir, Chunks(reader.data, size), 0);
    var ok := disk.Attempt();
    if !ok {
      return Err(Io);
    }
    if !isFile {
      return Err(NotAFile);
    }
    ok := disk.Attempt();
    if !ok {
      return Err(Io);
    }
    var split := Split(h, size, reader, disk, dir);
    if split.Err? {
      return Err(split.error);
    }
    var leaves := split.value;
    assert FirstWritten(old(disk.files), disk.files, dir, Chunks(reader.data, size), |leaves|) by {
      assert Chunks(reader.data, size)[..|leaves|] == Chunks(reader.data, size);
    }
    var root := Root(h, leaves);
    if root.None? {
      return Err(NoMerkleRoot);
    }
    var proofs := seq(|leaves|, i requires 0 <= i < |leaves| => EncodeProof(Proof(h, leaves, i)));
    var metadata := FileMetadata(name, |leaves|, dir, root.value, proofs, FILE_CHUNK_EXTENSION, public);
    ok := disk.SaveMetadata(metadata);
    if !ok {
      return Err(Io);
    }
    return Ok(metadata);
  }

  /** The chunk files of `m`, in order. */
  function ChunkContents(files: map<Path, Bytes>, m: FileMetadata, count: nat): (parts: seq<Bytes>)
    requires forall i :: 0 <= i < count ==> ChunkFile(m, i) in files
    ensures |parts| == count
    ensures forall i :: 0 <= i < count ==> parts[i] == files[ChunkFile(m, i)]
  {
    seq(count, i requires 0 <= i < count => files[ChunkFile(m, i)])
  }

  /** The temporary file holds the first `n` chunks. */
  ghost predicate PartlyRestored(files: map<Path, Bytes>, files': map<Path, Bytes>, m: FileMetadata, n: nat) {
    && n <= m.totalChunks && (forall i :: 0 <= i < n ==> ChunkFile(m, i) in files)
    && files' == files[PartFile(m) := Flat(ChunkContents(files, m, n))]
  }

  /** What restoring leaves behind: the file in place, if it was not there; or, after an error, nothing
      or a temporary file with some of the chunks. */
  ghost predicate RestoreOutcome(
    metas: map<Dir, MetaFile>, dir: Dir, files: map<Path, Bytes>, files': map<Path, Bytes>,
    r: Result<FileMetadata, Failure>)
  {
    match r
    case Ok(m) =>
      && dir in metas && metas[dir] == Saved(m)
      && (if Destination(m) in files then files' == files
          else
            && (forall i :: 0 <= i < m.totalChunks ==> ChunkFile(m, i) in files)
            && files' == (files - {PartFile(m)})[Destination(m) := Flat(ChunkContents(files, m, m.totalChunks))])
    case Err(_) =>
      || files' == files
      || (&& dir in metas && metas[dir].Saved? && Destination(metas[dir].metadata) !in files
          && exists n: nat :: PartlyRestored(files, files', metas[dir].metadata, n))
  }

  /** Assembles the file from its chunks in a temporary file and renames it into place. An existing
      destination is taken to be complete. Whatever step is the last one, nothing but the temporary
      file differs from before until the whole file is in place. */
  method RestoreOriginalFile(disk: FileSystem, dir: Dir) returns (r: Result<FileMetadata, Failure>)
    modifies disk
    ensures disk.metas == old(disk.metas)
    ensures RestoreOutcome(disk.metas, dir, old(disk.files), disk.files, r)
    ensures r == Err(Undecodable) ==> dir in disk.metas && disk.metas[dir] == Torn
    ensures r.Err? ==> r.error == Undecodable || (r.error == Io && disk.failed)
    ensures old(disk.seen) <= disk.seen
    ensures disk.seen != old(disk.seen) ==>
      && dir in disk.metas && disk.metas[dir].Saved?
      && var steps := disk.seen[|old(disk.seen)|..];
         && OnlyPart(old(disk.files), if r.Ok? then steps[..|steps| - 1] else steps, PartFile(disk.metas[dir].metadata))
         && (r.Ok? ==> steps[|steps| - 1] == disk.files)
  {
    var read := disk.ReadMetadata(dir);
    if read.Err? {
      return Err(read.error);
    }
    var m := read.value;
    var destination, part := Destination(m), PartFile(m);
    var ok := disk.Attempt();
    if !ok {
      return Err(Io);
    }
    if destination in disk.files {
      return Ok(m);
    }
    ok := disk.Write(part, []);
    if !ok {
      return Err(Io);
    }
    ghost var before := old(disk.files);
    assert PartlyRestored(before, disk.files, m, 0);
    for id := 0 to m.totalChunks
      invariant disk.metas == old(disk.metas)
      invariant PartlyRestored(before, disk.files, m, id)
      invariant old(disk.seen) <= disk.seen && OnlyPart(before, disk.seen[|old(disk.seen)|..], part)
    {
      var bytes := disk.Read(ChunkFile(m, id));
      if bytes.None? {
        return Err(Io);
      }
      NextPart(before, disk.files, m, id);
      ghost var seen := disk.seen;
      ok := disk.Write(part, disk.files[part] + bytes.value);
      if !ok {
        return Err(Io);
      }
      assert disk.seen[|old(disk.seen)|..] == seen[|old(disk.seen)|..] + [disk.files];
    }
    assert part != destination by {
      assert |m.originalFileName + ".part"| != |m.originalFileName|;
    }
    assert disk.files - {part} == before - {part};
    ok := disk.Rename(part, destination);
    if !ok {
      return Err(Io);
    }
    return Ok(m);
  }

  /** Every one of the listed states of the files differs from `before` at most in one file. */
  ghost predicate OnlyPart(before: map<Path, Bytes>, seen: seq<map<Path, Bytes>>, part: Path) {
    forall j :: 0 <= j < |seen| ==> SameExcept(before, seen[j], part)
  }

  lemma NextPart(before: map<Path, Bytes>, files: map<Path, Bytes>, m: FileMetadata, n: nat)
    requires n < m.totalChunks && ChunkFile(m, n) in files && PartlyRestored(before, files, m, n)
    ensures PartFile(m) in files
    ensures PartlyRestored(before, files[PartFile(m) := files[PartFile(m)] + files[ChunkFile(m, n)]], m, n + 1)
    ensures SameExcept(before, files[PartFile(m) := files[PartFile(m)] + files[ChunkFile(m, n)]], PartFile(m))
  {
    var parts := ChunkContents(before, m, n);
    FlatSnoc(parts, files[ChunkFile(m, n)]);
    assert ChunkContents(before, m, n + 1) == parts + [files[ChunkFile(m, n)]];
  }

  /** Splitting a file and restoring it from its chunk files gives the file back: the files
      `ProcessFile` leaves are those from which `RestoreOriginalFile` assembles it. */
  lemma RestoreUndoesSplit(
    h: Hash, size: nat, name: string, dir: Dir, file: Bytes, public: bool, files: map<Path, Bytes>)
    requires size > 0 && file != []
    ensures
      var m := Describe(h, size, name, dir, file, public);
      var after := WithChunks(files, dir, Chunks(file, size));
      && (forall i :: 0 <= i < m.totalChunks ==> ChunkFile(m, i) in after)
      && Flat(ChunkContents(after, m, m.totalChunks)) == file
      && (Destination(m) in after <==> Destination(m) in files)
  {
    var m := Describe(h, size, name, dir, file, public);
    var after := WithChunks(files, dir, Chunks(file, size));
    forall i | 0 <= i < m.totalChunks
      ensures ChunkFile(m, i) in after && after[ChunkFile(m, i)] == Chunks(file, size)[i]
    {
      WithChunksFiles(files, dir, Chunks(file, size), ChunkFile(m, i));
    }
    WithChunksFiles(files, dir, Chunks(file, size), Destination(m));
    assert ChunkContents(after, m, m.totalChunks) == Chunks(file, size);
    ChunksDivide(file, size);
  }
}
