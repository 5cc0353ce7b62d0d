/**
 The manifest tables of internal/core/meta/db.go: files, chunks (with a reference count)
 and file_chunks with its two cascading foreign keys. Each SQL statement is a function on
 the tables; each transaction composes its statements in the order the source issues them.
 */
module Manifest {
  import opened Sequences

  type Path = bytes
  type BlobName = bytes

  /** SHA-256 as an injective function: the digest determines the content. */
  datatype Hash = Sha256(preimage: bytes)

  datatype FileRow = FileRow(
    path: Path,
    isDir: bool,
    isSymlink: bool,
    mode: int,
    uid: int,
    gid: int,
    size: int,
    mtimeNs: int,
    linkTarget: bytes)

  datatype ChunkRow = ChunkRow(hash: Hash, size: int, refcount: int, blobName: BlobName)

  /** Primary key of file_chunks. */
  datatype LinkKey = LinkKey(file: int, idx: int)

  datatype ChunkRef = ChunkRef(chunkId: int, idx: int)

  type Chunks = map<int, ChunkRow>
  type Links = map<LinkKey, int>

  datatype Tables = Tables(files: map<int, FileRow>, chunks: Chunks, links: Links)

  const EmptyTables := Tables(map[], map[], map[])

  // ---------------------------------------------------------------- statements

  /** Links of the file rows at `path` (the join of file_chunks with files on path). */
  function LinksAt(t: Tables, path: Path): set<LinkKey> {
    set k | k in t.links && k.file in t.files && t.files[k.file].path == path
  }

  function UsesAt(t: Tables, path: Path, c: int): set<LinkKey> {
    set k | k in LinksAt(t, path) && k in t.links && t.links[k] == c
  }

  /** UPDATE chunks SET refcount = refcount - (links of path to this chunk). */
  function Decrement(t: Tables, path: Path): Chunks {
    map c | c in t.chunks :: t.chunks[c].(refcount := t.chunks[c].refcount - |UsesAt(t, path, c)|)
  }

  /** UPDATE chunks SET refcount = refcount + 1 WHERE id = ?; no row, no effect. */
  function IncrementOne(chunks: Chunks, c: int): Chunks {
    if c in chunks then chunks[c := chunks[c].(refcount := chunks[c].refcount + 1)] else chunks
  }

  function Increment(chunks: Chunks, refs: seq<ChunkRef>): Chunks
    decreases |refs|
  {
    if refs == [] then chunks
    else IncrementOne(Increment(chunks, refs[..|refs| - 1]), refs[|refs| - 1].chunkId)
  }

  /** DELETE FROM chunks: the foreign key cascades to every link that names a dead chunk. */
  function DeleteChunks(t: Tables, dead: set<int>): Tables {
    t.(chunks := t.chunks - dead,
       links := map k | k in t.links && t.links[k] !in dead :: t.links[k])
  }

  /** Chunks that rows at `path` reference and whose count has fallen to zero. */
  function Unused(t: Tables, path: Path): set<int> {
    set k | k in LinksAt(t, path) && k in t.links && t.links[k] in t.chunks
            && t.chunks[t.links[k]].refcount <= 0 :: t.links[k]
  }

  /** DELETE FROM files WHERE path = ?: the foreign key cascades to the rows' links. */
  function DeleteRows(t: Tables, path: Path): Tables {
    t.(files := map f | f in t.files && t.files[f].path != path :: t.files[f],
       links := map k | k in t.links && !(k.file in t.files && t.files[k.file].path == path) :: t.links[k])
  }

  /** INSERT INTO file_chunks: fails on a missing chunk or a repeated (file, idx). */
  function AttachOne(t: Tables, fid: int, r: ChunkRef): Option<Tables> {
    var k := LinkKey(fid, r.idx);
    if r.chunkId in t.chunks && fid in t.files && k !in t.links
    then Some(t.(links := t.links[k := r.chunkId]))
    else None
  }

  function Attach(t: Tables, fid: int, refs: seq<ChunkRef>): Option<Tables>
    decreases |refs|
  {
    if refs == [] then Some(t)
    else
      match Attach(t, fid, refs[..|refs| - 1])
      case None => None
      case Some(u) => AttachOne(u, fid, refs[|refs| - 1])
  }

  // -------------------------------------------------------------- transactions

  /** The tables of UpsertFile just before file_chunks rows are attached. */
  function Replaced(t: Tables, row: FileRow, refs: seq<ChunkRef>): Tables {
    var counted := t.(chunks := Increment(Decrement(t, row.path), refs));
    DeleteRows(DeleteChunks(counted, Unused(counted, row.path)), row.path)
  }

  /** meta.UpsertFile as one transaction; None is a rolled-back constraint violation. */
  function Upsert(t: Tables, row: FileRow, refs: seq<ChunkRef>, fid: int): Option<Tables>
  {
    var u := Replaced(t, row, refs);
    Attach(u.(files := u.files[fid := row]), fid, refs)
  }

  /** meta.DeleteFile as one transaction. */
  function Delete(t: Tables, path: Path): Tables {
    var counted := t.(chunks := Decrement(t, path));
    DeleteRows(DeleteChunks(counted, Unused(counted, path)), path)
  }

  /** meta.InsertChunk: hash is UNIQUE. */
  function Insert(t: Tables, id: int, hash: Hash, size: int, blob: BlobName): Option<Tables> {
    if id in t.chunks || exists c | c in t.chunks :: t.chunks[c].hash == hash then None
    else Some(t.(chunks := t.chunks[id := ChunkRow(hash, size, 0, blob)]))
  }

  /** meta.DeleteChunkIfZero. */
  function DeleteIfZero(t: Tables, id: int): Tables {
    if id in t.chunks && t.chunks[id].refcount <= 0 then DeleteChunks(t, {id}) else t
  }

  // ----------------------------------------------------------------- invariant

  ghost function RefsTo(links: Links, c: int): set<LinkKey> {
    set k | k in links && links[k] == c
  }

  ghost predicate ForeignKeys(t: Tables) {
    forall k | k in t.links :: k.file in t.files && t.links[k] in t.chunks
  }

  /** Every reference count equals the number of file_chunks rows naming the chunk. */
  ghost predicate CountsExact(chunks: Chunks, links: Links) {
    forall c | c in chunks :: chunks[c].refcount == |RefsTo(links, c)|
  }

  ghost predicate UniquePaths(files: map<int, FileRow>) {
    forall f, g | f in files && g in files && files[f].path == files[g].path :: f == g
  }

  ghost predicate UniqueHashes(chunks: Chunks) {
    forall c, d | c in chunks && d in chunks && chunks[c].hash == chunks[d].hash :: c == d
  }

  /** The chunk ids of one file row, by index. */
  ghost function FileRefs(links: Links, fid: int): map<int, int> {
    map i | i in Indices(links, fid) :: links[LinkKey(fid, i)]
  }

  ghost function Indices(links: Links, fid: int): set<int> {
    set k | k in links && k.file == fid :: k.idx
  }

  /** Indices 0..n-1 exactly. */
  ghost predicate Contiguous(refs: map<int, int>) {
    forall i :: i in refs <==> 0 <= i < |refs|
  }

  ghost predicate AllContiguous(t: Tables) {
    forall f | f in t.files :: Contiguous(FileRefs(t.links, f))
  }

  ghost predicate Consistent(t: Tables) {
    && ForeignKeys(t)
    && CountsExact(t.chunks, t.links)
    && UniquePaths(t.files)
    && UniqueHashes(t.chunks)
    && AllContiguous(t)
  }

  /** What a reader sees: the row and the ordered chunk ids at each path. */
  datatype Entry = Entry(row: FileRow, refs: map<int, int>)

  ghost function Paths(files: map<int, FileRow>): set<Path> {
    set f | f in files :: files[f].path
  }

  /** The row at a path and its references. */
  ghost function EntryAt(t: Tables, p: Path): Entry
    requires p in Paths(t.files)
  {
    var f :| f in t.files && t.files[f].path == p;
    Entry(t.files[f], FileRefs(t.links, f))
  }

  ghost function View(t: Tables): map<Path, Entry>
    requires UniquePaths(t.files)
  {
    map p | p in Paths(t.files) :: EntryAt(t, p)
  }

  /** Callers number their references 0, 1, 2, ... */
  ghost predicate Ordered(refs: seq<ChunkRef>) {
    forall i | 0 <= i < |refs| :: refs[i].idx == i
  }

  ghost function RefMap(refs: seq<ChunkRef>): map<int, int> {
    map i | 0 <= i < |refs| :: refs[i].chunkId
  }

  ghost predicate AllPresent(chunks: Chunks, refs: seq<ChunkRef>) {
    forall i | 0 <= i < |refs| :: refs[i].chunkId in chunks
  }
}
