/**
 Snapshot validation (internal/core/meta/validate.go), chunk verification
 (internal/core/repo/meta_backup.go) and reading a file back (StreamFile in internal/core/repo/repo.go).
 */
module Snapshot {
  import opened Sequences
  import opened Manifest
  import opened ManifestInvariants

  /** A backend object: sealed under the name it was stored at, or bytes that authenticate under no name. */
  datatype Blob = Sealed(name: BlobName, plain: bytes) | Junk

  type Backend = map<BlobName, Blob>

  /** Authenticated decryption binds the blob name. */
  function Decrypt(b: Blob, name: BlobName): Option<bytes> {
    if b.Sealed? && b.name == name then Some(b.plain) else None
  }

  function Fetch(blobs: Backend, name: BlobName): Option<bytes> {
    if name in blobs then Decrypt(blobs[name], name) else None
  }

  /** The blob of a chunk row is present and decrypts to content of the row's hash and size. */
  ghost predicate Backed(c: ChunkRow, blobs: Backend) {
    Fetch(blobs, c.blobName) == Some(c.hash.preimage) && c.size == |c.hash.preimage|
  }

  // ------------------------------------------------------------ ValidateSnapshot

  ghost function LinksOf(links: Links, fid: int): set<LinkKey> {
    set k | k in links && k.file == fid
  }

  ghost function SizeOf(t: Tables, k: LinkKey): int {
    if k in t.links && t.links[k] in t.chunks then t.chunks[t.links[k]].size else 0
  }

  /** SUM(c.size) over a group of joined rows; 0 for the empty group, as COALESCE makes it. */
  ghost function SumOver(t: Tables, ks: set<LinkKey>): int
    decreases |ks|
  {
    if ks == {} then 0 else var k :| k in ks; SizeOf(t, k) + SumOver(t, ks - {k})
  }

  /** MIN(idx) = 0 AND MAX(idx) = COUNT(*) - 1 for one group. */
  ghost predicate DenseGroup(idx: set<int>) {
    && 0 in idx && (forall i | i in idx :: i >= 0)
    && |idx| - 1 in idx && (forall i | i in idx :: i <= |idx| - 1)
  }

  ghost predicate IndexCheck(t: Tables) {
    forall f | Indices(t.links, f) != {} :: DenseGroup(Indices(t.links, f))
  }

  ghost predicate SizeCheck(t: Tables) {
    forall f | f in t.files && !t.files[f].isDir && !t.files[f].isSymlink ::
      t.files[f].size == SumOver(t, LinksOf(t.links, f))
  }

  /** foreign_key_check and the four relational checks. */
  ghost predicate ValidSnapshot(t: Tables) {
    && ForeignKeys(t)
    && UniquePaths(t.files)
    && CountsExact(t.chunks, t.links)
    && IndexCheck(t)
    && SizeCheck(t)
  }

  lemma SubsetOfSameSize(a: set<int>, b: set<int>)
    requires a <= b && |a| == |b|
    ensures a == b
  {
    assert b == a + (b - a);
    assert |b| == |a| + |b - a|;
  }

  lemma FileRefsSize(links: Links, fid: int)
    ensures FileRefs(links, fid).Keys == Indices(links, fid)
    ensures |FileRefs(links, fid)| == |Indices(links, fid)|
  {
    assert |FileRefs(links, fid)| == |FileRefs(links, fid).Keys|;
  }

  /** The MIN/MAX/COUNT test says exactly that the indices are 0..n-1. */
  lemma DenseIffContiguous(links: Links, fid: int)
    ensures (Indices(links, fid) == {} || DenseGroup(Indices(links, fid))) <==> Contiguous(FileRefs(links, fid))
  {
    var idx := Indices(links, fid);
    FileRefsSize(links, fid);
    var all := Interval(|idx|);
    if DenseGroup(idx) {
      SubsetOfSameSize(idx, all);
    }
    if Contiguous(FileRefs(links, fid)) {
      assert forall i :: i in idx <==> i in FileRefs(links, fid);
      if idx != {} {
        var i :| i in idx;
        assert |idx| > 0;
      }
    }
  }

  /** ValidateSnapshot accepts exactly the consistent tables whose regular files have the size of their chunks. */
  lemma ValidIffConsistent(t: Tables)
    requires UniqueHashes(t.chunks)
    ensures ValidSnapshot(t) <==> Consistent(t) && SizeCheck(t)
  {
    forall f
      ensures (Indices(t.links, f) == {} || DenseGroup(Indices(t.links, f))) <==> Contiguous(FileRefs(t.links, f))
    {
      DenseIffContiguous(t.links, f);
    }
    if Consistent(t) && SizeCheck(t) {
      forall f | Indices(t.links, f) != {} ensures DenseGroup(Indices(t.links, f)) {
        var i :| i in Indices(t.links, f);
        assert LinkKey(f, i) in t.links;
        assert f in t.files;
        DenseIffContiguous(t.links, f);
      }
    }
  }

  lemma {:induction false} SumOverPick(t: Tables, ks: set<LinkKey>, k: LinkKey)
    requires k in ks
    ensures SumOver(t, ks) == SizeOf(t, k) + SumOver(t, ks - {k})
    decreases |ks|
  {
    var j :| j in ks && SumOver(t, ks) == SizeOf(t, j) + SumOver(t, ks - {j});
    if j != k {
      SumOverPick(t, ks - {j}, k);
      SumOverPick(t, ks - {k}, j);
      assert ks - {j} - {k} == ks - {k} - {j};
    }
  }

  // ----------------------------------------------------------------- StreamFile

  /** Ordered chunk ids of a dense reference map. */
  ghost function Ids(refs: map<int, int>): seq<int>
    requires Contiguous(refs)
  {
    seq(|refs|, i requires 0 <= i < |refs| => refs[i])
  }

  ghost function PlainOf(chunks: Chunks, c: int): bytes {
    if c in chunks then chunks[c].hash.preimage else []
  }

  ghost function Pieces(chunks: Chunks, ids: seq<int>): seq<bytes> {
    seq(|ids|, i requires 0 <= i < |ids| => PlainOf(chunks, ids[i]))
  }

  /** The content a manifest entry stands for. */
  ghost function ContentOf(chunks: Chunks, refs: map<int, int>): bytes
    requires Contiguous(refs)
  {
    Flatten(Pieces(chunks, Ids(refs)))
  }

  ghost function KeysBelow(fid: int, n: nat): (r: set<LinkKey>)
    ensures forall k :: k in r <==> k.file == fid && 0 <= k.idx < n
  {
    if n == 0 then {} else KeysBelow(fid, n - 1) + {LinkKey(fid, n - 1)}
  }

  lemma KeysBelowStep(fid: int, n: nat)
    requires n > 0
    ensures KeysBelow(fid, n) - {LinkKey(fid, n - 1)} == KeysBelow(fid, n - 1)
    ensures LinkKey(fid, n - 1) in KeysBelow(fid, n)
  {
  }

  lemma PiecesStep(chunks: Chunks, ids: seq<int>, i: nat)
    requires i < |ids|
    ensures Flatten(Pieces(chunks, ids[..i + 1])) == Flatten(Pieces(chunks, ids[..i])) + PlainOf(chunks, ids[i])
  {
    assert Pieces(chunks, ids[..i + 1]) == Pieces(chunks, ids[..i]) + [PlainOf(chunks, ids[i])];
    FlattenSnoc(Pieces(chunks, ids[..i]), PlainOf(chunks, ids[i]));
  }

  lemma {:induction false} SumIsLength(t: Tables, fid: int, ids: seq<int>, n: nat)
    requires n <= |ids|
    requires forall i | 0 <= i < |ids| :: SizeOf(t, LinkKey(fid, i)) == |PlainOf(t.chunks, ids[i])|
    ensures SumOver(t, KeysBelow(fid, n)) == |Flatten(Pieces(t.chunks, ids[..n]))|
  {
    if n == 0 {
      assert KeysBelow(fid, 0) == {};
    } else {
      SumIsLength(t, fid, ids, n - 1);
      KeysBelowStep(fid, n);
      SumOverPick(t, KeysBelow(fid, n), LinkKey(fid, n - 1));
      PiecesStep(t.chunks, ids, n - 1);
    }
  }

  // What the backend returns for a chunk row, whether or not it matches the row.
  ghost function Got(chunks: Chunks, blobs: Backend, c: int): Option<bytes> {
    if c in chunks then Fetch(blobs, chunks[c].blobName) else None
  }

  ghost predicate Readable(chunks: Chunks, blobs: Backend, ids: seq<int>) {
    forall i | 0 <= i < |ids| :: Got(chunks, blobs, ids[i]).Some?
  }

  ghost function Read(chunks: Chunks, blobs: Backend, ids: seq<int>): bytes
    requires Readable(chunks, blobs, ids)
  {
    Flatten(GotPieces(chunks, blobs, ids))
  }

  ghost function GotPieces(chunks: Chunks, blobs: Backend, ids: seq<int>): seq<bytes>
    requires Readable(chunks, blobs, ids)
  {
    seq(|ids|, i requires 0 <= i < |ids| => Got(chunks, blobs, ids[i]).value)
  }

  lemma ReadStep(chunks: Chunks, blobs: Backend, ids: seq<int>, i: nat)
    requires i < |ids|
    requires Readable(chunks, blobs, ids[..i]) && Got(chunks, blobs, ids[i]).Some?
    ensures Readable(chunks, blobs, ids[..i + 1])
    ensures Read(chunks, blobs, ids[..i + 1]) == Read(chunks, blobs, ids[..i]) + Got(chunks, blobs, ids[i]).value
  {
    var a := GotPieces(chunks, blobs, ids[..i]);
    assert GotPieces(chunks, blobs, ids[..i + 1]) == a + [Got(chunks, blobs, ids[i]).value];
    FlattenSnoc(a, Got(chunks, blobs, ids[i]).value);
  }

  /** Under backed rows, what is read is the content the manifest stands for. */
  lemma BackedRead(chunks: Chunks, blobs: Backend, ids: seq<int>)
    requires forall i | 0 <= i < |ids| :: ids[i] in chunks && Backed(chunks[ids[i]], blobs)
    ensures Readable(chunks, blobs, ids) && Read(chunks, blobs, ids) == Flatten(Pieces(chunks, ids))
  {
    assert Pieces(chunks, ids) == GotPieces(chunks, blobs, ids);
  }

  ghost predicate StreamResult(t: Tables, blobs: Backend, e: Entry, r: Option<bytes>)
    requires Contiguous(e.refs)
  {
    var ids := Ids(e.refs);
    r == if Readable(t.chunks, blobs, ids) && |Read(t.chunks, blobs, ids)| == e.row.size
         then Some(Read(t.chunks, blobs, ids)) else None
  }

  /** StreamFile: fetch and decrypt the chunks in index order, then compare the total with the row. */
  method StreamFile(t: Tables, blobs: Backend, path: Path) returns (r: Option<bytes>)
    requires UniquePaths(t.files) && ForeignKeys(t) && AllContiguous(t)
    ensures path !in View(t) ==> r == None
    ensures path in View(t) ==> Contiguous(View(t)[path].refs) && StreamResult(t, blobs, View(t)[path], r)
  {
    if fid: int :| fid in t.files && t.files[fid].path == path {
      ghost var e := Entry(t.files[fid], FileRefs(t.links, fid));
      assert View(t)[path] == e;
      r := StreamRow(t, blobs, fid);
    } else {
      r := None;
    }
  }

  method StreamRow(t: Tables, blobs: Backend, fid: int) returns (r: Option<bytes>)
    requires ForeignKeys(t) && fid in t.files && Contiguous(FileRefs(t.links, fid))
    ensures StreamResult(t, blobs, Entry(t.files[fid], FileRefs(t.links, fid)), r)
  {
    ghost var refs := FileRefs(t.links, fid);
    ghost var ids := Ids(refs);
    var out: bytes, i := [], 0;
    while LinkKey(fid, i) in t.links
      invariant 0 <= i <= |refs|
      invariant Readable(t.chunks, blobs, ids[..i])
      invariant out == Read(t.chunks, blobs, ids[..i])
      decreases |refs| - i
    {
      LinkIsRef(t.links, fid, i);
      var row := t.chunks[t.links[LinkKey(fid, i)]];
      var plain := Fetch(blobs, row.blobName);
      assert plain == Got(t.chunks, blobs, ids[i]);
      if plain.None? {
        assert !Readable(t.chunks, blobs, ids);
        return None;
      }
      ReadStep(t.chunks, blobs, ids, i);
      out := out + plain.value;
      i := i + 1;
    }
    RefIsLink(t.links, fid, i);
    assert ids[..i] == ids;
    if |out| != t.files[fid].size {
      return None;
    }
    return Some(out);
  }

  // ----------------------------------------------------- verifyBackupChunks

  datatype BackupChunk = BackupChunk(hash: Hash, blobName: BlobName, size: int)

  /** SELECT DISTINCT of the chunks that files reference. */
  ghost function Referenced(t: Tables): set<BackupChunk> {
    set k | k in t.links && k.file in t.files && t.links[k] in t.chunks ::
      BackupChunk(t.chunks[t.links[k]].hash, t.chunks[t.links[k]].blobName, t.chunks[t.links[k]].size)
  }

  ghost predicate ChunkVerified(blobs: Backend, c: BackupChunk) {
    Fetch(blobs, c.blobName) == Some(c.hash.preimage) && c.size == |c.hash.preimage|
  }

  method VerifyBackupChunks(blobs: Backend, chunks: seq<BackupChunk>) returns (ok: bool)
    ensures ok <==> forall i | 0 <= i < |chunks| :: ChunkVerified(blobs, chunks[i])
  {
    for i := 0 to |chunks|
      invariant forall j | 0 <= j < i :: ChunkVerified(blobs, chunks[j])
    {
      var c := chunks[i];
      if c.blobName !in blobs {
        return false;
      }
      var plain := Decrypt(blobs[c.blobName], c.blobName);
      if plain.None? {
        return false;
      }
      if Sha256(plain.value) != c.hash || |plain.value| != c.size {
        return false;
      }
    }
    return true;
  }

  /** A database that passes both validations holds every regular file in full: streaming it succeeds. */
  lemma RestoredFilesStream(t: Tables, blobs: Backend, fid: int)
    requires ValidSnapshot(t)
    requires forall c | c in Referenced(t) :: ChunkVerified(blobs, c)
    requires fid in t.files && !t.files[fid].isDir && !t.files[fid].isSymlink
    ensures var refs := FileRefs(t.links, fid);
      && Contiguous(refs)
      && |ContentOf(t.chunks, refs)| == t.files[fid].size
      && StreamResult(t, blobs, Entry(t.files[fid], refs), Some(ContentOf(t.chunks, refs)))
  {
    var refs := FileRefs(t.links, fid);
    DenseIffContiguous(t.links, fid);
    var ids := Ids(refs);
    forall i | 0 <= i < |ids|
      ensures ids[i] in t.chunks && Backed(t.chunks[ids[i]], blobs)
      ensures SizeOf(t, LinkKey(fid, i)) == |PlainOf(t.chunks, ids[i])|
    {
      RestoredChunk(t, blobs, fid, i);
    }
    SumIsLength(t, fid, ids, |ids|);
    assert ids[..|ids|] == ids;
    AllKeysBelow(t.links, fid);
    BackedRead(t.chunks, blobs, ids);
  }

  lemma RestoredChunk(t: Tables, blobs: Backend, fid: int, i: int)
    requires ForeignKeys(t)
    requires forall c | c in Referenced(t) :: ChunkVerified(blobs, c)
    requires Contiguous(FileRefs(t.links, fid)) && i in FileRefs(t.links, fid)
    ensures var c := FileRefs(t.links, fid)[i];
      c in t.chunks && Backed(t.chunks[c], blobs) && SizeOf(t, LinkKey(fid, i)) == |PlainOf(t.chunks, c)|
  {
    var k := LinkKey(fid, i);
    assert i in Indices(t.links, fid);
    assert k in t.links;
    var c := t.chunks[t.links[k]];
    assert BackupChunk(c.hash, c.blobName, c.size) in Referenced(t);
  }

  lemma AllKeysBelow(links: Links, fid: int)
    requires Contiguous(FileRefs(links, fid))
    ensures KeysBelow(fid, |FileRefs(links, fid)|) == LinksOf(links, fid)
  {
    var refs := FileRefs(links, fid);
    forall k | k in LinksOf(links, fid) ensures k in KeysBelow(fid, |refs|) {
      assert k.idx in Indices(links, fid);
      assert k.idx in refs;
      assert k == LinkKey(fid, k.idx);
    }
    forall k | k in KeysBelow(fid, |refs|) ensures k in LinksOf(links, fid) {
      assert k.idx in refs;
    }
  }

  // ------------------------------------------ snapshots of reachable manifests

  /** The sizes of the chunks a write references, counted as often as it references them. */
  ghost function RefSizes(chunks: Chunks, refs: seq<ChunkRef>): int
    decreases |refs|
  {
    if refs == [] then 0
    else RefSizes(chunks, refs[..|refs| - 1]) +
         if refs[|refs| - 1].chunkId in chunks then chunks[refs[|refs| - 1].chunkId].size else 0
  }

  /** Chunks of the lengths of the pieces add up to the length of the content. */
  lemma {:induction false} RefSizesAdd(chunks: Chunks, refs: seq<ChunkRef>, pieces: seq<bytes>, n: nat)
    requires n <= |refs| == |pieces| && AllPresent(chunks, refs)
    requires forall i | 0 <= i < |refs| :: chunks[refs[i].chunkId].size == |pieces[i]|
    ensures RefSizes(chunks, refs[..n]) == |Flatten(pieces[..n])|
  {
    if n == 0 {
      assert pieces[..0] == [];
    } else {
      RefSizesAdd(chunks, refs, pieces, n - 1);
      assert refs[..n][..n - 1] == refs[..n - 1] && refs[..n][n - 1] == refs[n - 1];
      assert pieces[..n] == pieces[..n - 1] + [pieces[n - 1]];
      FlattenSnoc(pieces[..n - 1], pieces[n - 1]);
    }
  }

  lemma {:induction false} SumIsRefSizes(t: Tables, chunks: Chunks, fid: int, refs: seq<ChunkRef>, n: nat)
    requires n <= |refs|
    requires forall i | 0 <= i < |refs| ::
      SizeOf(t, LinkKey(fid, i)) == (if refs[i].chunkId in chunks then chunks[refs[i].chunkId].size else 0)
    ensures SumOver(t, KeysBelow(fid, n)) == RefSizes(chunks, refs[..n])
  {
    if n == 0 {
      assert KeysBelow(fid, 0) == {};
    } else {
      SumIsRefSizes(t, chunks, fid, refs, n - 1);
      KeysBelowStep(fid, n);
      SumOverPick(t, KeysBelow(fid, n), LinkKey(fid, n - 1));
      assert refs[..n][..n - 1] == refs[..n - 1];
    }
  }

  /** A dense reference map as a list. */
  ghost function RefSeq(refs: map<int, int>): seq<ChunkRef>
    requires Contiguous(refs)
  {
    seq(|refs|, i requires 0 <= i < |refs| => ChunkRef(refs[i], i))
  }

  ghost predicate NamesOnly(refs: map<int, int>, chunks: Chunks) {
    Contiguous(refs) && forall i | i in refs :: refs[i] in chunks
  }

  /** A regular file has the size of its chunks. */
  ghost predicate Sized(chunks: Chunks, e: Entry) {
    e.row.isDir || e.row.isSymlink || (Contiguous(e.refs) && e.row.size == RefSizes(chunks, RefSeq(e.refs)))
  }

  lemma RowSum(t: Tables, fid: int)
    requires Consistent(t) && fid in t.files
    ensures NamesOnly(FileRefs(t.links, fid), t.chunks)
    ensures SumOver(t, LinksOf(t.links, fid)) == RefSizes(t.chunks, RefSeq(FileRefs(t.links, fid)))
  {
    assert AllContiguous(t) && ForeignKeys(t);
    var m := FileRefs(t.links, fid);
    var refs := RefSeq(m);
    hide Consistent;
    forall i | i in m ensures m[i] in t.chunks && SizeOf(t, LinkKey(fid, i)) == t.chunks[m[i]].size {
      assert i in Indices(t.links, fid);
      assert LinkKey(fid, i) in t.links;
    }
    AllKeysBelow(t.links, fid);
    SumIsRefSizes(t, t.chunks, fid, refs, |refs|);
    assert refs[..|refs|] == refs;
  }

  /** The size check, as a statement about the reader's view. */
  lemma SizeCheckIsView(t: Tables)
    requires Consistent(t)
    ensures SizeCheck(t) <==> forall p | p in View(t) :: Sized(t.chunks, View(t)[p])
    ensures forall p | p in View(t) :: NamesOnly(View(t)[p].refs, t.chunks)
  {
    forall f | f in t.files
      ensures t.files[f].path in View(t) && View(t)[t.files[f].path] == Entry(t.files[f], FileRefs(t.links, f))
      ensures NamesOnly(FileRefs(t.links, f), t.chunks)
      ensures SumOver(t, LinksOf(t.links, f)) == RefSizes(t.chunks, RefSeq(FileRefs(t.links, f)))
    {
      RowSum(t, f);
    }
    hide Consistent, FileRefs, LinksOf, SumOver, RefSizes, NamesOnly, Contiguous;
    forall p | p in View(t) ensures exists f :: Shows(t, f, p, View(t)[p]) {
      var f := ViewShows(t, p);
    }
    hide View;
  }

  /** Rows present on both sides are the same content. */
  ghost predicate RowsAgree(before: Chunks, after: Chunks) {
    forall c | c in before && c in after :: after[c].hash == before[c].hash && after[c].size == before[c].size
  }

  /** The same kind, size and references. */
  ghost predicate SameFile(e: Entry, f: Entry) {
    f.refs == e.refs && f.row.isDir == e.row.isDir && f.row.isSymlink == e.row.isSymlink && f.row.size == e.row.size
  }

  ghost predicate Holds(view: map<Path, Entry>, e: Entry) {
    exists p :: p in view && SameFile(view[p], e)
  }

  /** Every entry was there before, though perhaps at another path. */
  ghost predicate Inherits(before: map<Path, Entry>, after: map<Path, Entry>) {
    forall p | p in after :: Holds(before, after[p])
  }

  lemma {:induction false} RefSizesAgree(a: Chunks, b: Chunks, refs: seq<ChunkRef>)
    requires RowsAgree(a, b) && AllPresent(a, refs) && AllPresent(b, refs)
    ensures RefSizes(a, refs) == RefSizes(b, refs)
    decreases |refs|
  {
    if refs != [] {
      RefSizesAgree(a, b, refs[..|refs| - 1]);
    }
  }

  lemma SizedStays(a: Chunks, b: Chunks, e: Entry, f: Entry)
    requires RowsAgree(a, b) && NamesOnly(e.refs, a) && NamesOnly(e.refs, b)
    requires Sized(a, e) && SameFile(e, f)
    ensures Sized(b, f)
  {
    RefSizesAgree(a, b, RefSeq(e.refs));
  }

  /** A transaction that only drops, renames or re-counts keeps a valid snapshot valid. */
  lemma StillValid(t: Tables, v: Tables)
    requires ValidSnapshot(t) && UniqueHashes(t.chunks)
    requires Consistent(v) && RowsAgree(t.chunks, v.chunks) && Inherits(View(t), View(v))
    ensures ValidSnapshot(v)
  {
    ValidIffConsistent(t);
    ValidIffConsistent(v);
    SizeCheckIsView(t);
    SizeCheckIsView(v);
    hide Consistent, ValidSnapshot, SizeCheck, View, Sized, SameFile, NamesOnly, RowsAgree;
    forall p | p in View(v) ensures Sized(v.chunks, View(v)[p]) {
      assert Holds(View(t), View(v)[p]);
      InheritedSize(t, v, p);
    }
  }

  lemma InheritedSize(t: Tables, v: Tables, p: Path)
    requires UniquePaths(t.files) && UniquePaths(v.files) && p in View(v)
    requires forall q | q in View(t) :: Sized(t.chunks, View(t)[q]) && NamesOnly(View(t)[q].refs, t.chunks)
    requires NamesOnly(View(v)[p].refs, v.chunks) && RowsAgree(t.chunks, v.chunks)
    requires Holds(View(t), View(v)[p])
    ensures Sized(v.chunks, View(v)[p])
  {
    var q :| q in View(t) && SameFile(View(t)[q], View(v)[p]);
    SizedStays(t.chunks, v.chunks, View(t)[q], View(v)[p]);
  }

  lemma RefSeqOf(refs: seq<ChunkRef>)
    requires Ordered(refs)
    ensures Contiguous(RefMap(refs)) && RefSeq(RefMap(refs)) == refs
  {
    RefMapContiguous(refs);
  }

  /**
   A write leaves a valid snapshot valid exactly when its row's size is the sum of its chunks.
   PutFile stores the counted total; the rsync session stores the size the peer announced,
   so there a peer that sends a different number of bytes leaves a manifest no backup accepts
   until that row is overwritten or deleted.
   */
  lemma UpsertValid(t: Tables, row: FileRow, refs: seq<ChunkRef>, fid: int)
    requires ValidSnapshot(t) && UniqueHashes(t.chunks) && Ordered(refs)
    requires fid !in DeleteRows(t, row.path).files
    requires Upsert(t, row, refs, fid).Some?
    ensures ValidSnapshot(Upsert(t, row, refs, fid).value) <==>
            row.isDir || row.isSymlink || row.size == RefSizes(t.chunks, refs)
  {
    var v := Upsert(t, row, refs, fid).value;
    ValidIffConsistent(t);
    UpsertConsistent(t, row, refs, fid);
    ValidIffConsistent(v);
    SizeCheckIsView(t);
    SizeCheckIsView(v);
    UpsertView(t, row, refs, fid);
    UpsertRows(t, row, refs, fid);
    UpsertCommits(t, row, refs, fid);
    hide Consistent, ValidSnapshot, SizeCheck, View, Upsert, DeleteRows;
    WrittenSize(t, v, row, refs);
  }

  lemma WrittenSize(t: Tables, v: Tables, row: FileRow, refs: seq<ChunkRef>)
    requires UniquePaths(t.files) && UniquePaths(v.files)
    requires Ordered(refs) && AllPresent(t.chunks, refs) && RowsShrink(t.chunks, v.chunks)
    requires View(v) == View(t)[row.path := Entry(row, RefMap(refs))]
    requires forall q | q in View(t) :: Sized(t.chunks, View(t)[q]) && NamesOnly(View(t)[q].refs, t.chunks)
    requires forall p | p in View(v) :: NamesOnly(View(v)[p].refs, v.chunks)
    ensures (forall p | p in View(v) :: Sized(v.chunks, View(v)[p])) <==>
            row.isDir || row.isSymlink || row.size == RefSizes(t.chunks, refs)
  {
    var e := Entry(row, RefMap(refs));
    RefSeqOf(refs);
    assert e == View(v)[row.path];
    assert AllPresent(v.chunks, refs) by {
      forall i | 0 <= i < |refs| ensures refs[i].chunkId in v.chunks {
        assert i in RefMap(refs);
      }
    }
    RefSizesAgree(t.chunks, v.chunks, refs);
    assert Sized(v.chunks, e) <==> row.isDir || row.isSymlink || row.size == RefSizes(t.chunks, refs);
    hide RefMap, RefSeq, RefSizes, Contiguous, View, AllPresent, Ordered;
    forall p | p in View(v) && p != row.path ensures Sized(v.chunks, View(v)[p]) {
      SizedStays(t.chunks, v.chunks, View(t)[p], View(v)[p]);
    }
  }

  /** The smallest case: one byte announced, none received. */
  lemma AnnouncedSizeRefused(row: FileRow)
    requires !row.isDir && !row.isSymlink && row.size == 1
    ensures ValidSnapshot(EmptyTables) && Upsert(EmptyTables, row, [], 1).Some?
    ensures !ValidSnapshot(Upsert(EmptyTables, row, [], 1).value)
  {
    UpsertCommits(EmptyTables, row, [], 1);
    UpsertValid(EmptyTables, row, [], 1);
  }

  lemma DeleteValid(t: Tables, path: Path)
    requires ValidSnapshot(t) && UniqueHashes(t.chunks)
    ensures ValidSnapshot(Delete(t, path))
  {
    ValidIffConsistent(t);
    DeleteConsistent(t, path);
    DeletedRows(t, path);
    hide Consistent, ValidSnapshot, Delete;
    forall p | p in View(Delete(t, path)) ensures Holds(View(t), View(Delete(t, path))[p]) {
      assert SameFile(View(t)[p], View(Delete(t, path))[p]);
    }
    StillValid(t, Delete(t, path));
  }
}
