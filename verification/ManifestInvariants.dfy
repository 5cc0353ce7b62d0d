/** What every manifest transaction keeps, and what it means for a reader of the manifest. */
module ManifestInvariants {
  import opened Sequences
  import opened Manifest

  /** How often `refs` names chunk c. */
  ghost function Mult(refs: seq<ChunkRef>, c: int): nat
    decreases |refs|
  {
    if refs == [] then 0
    else Mult(refs[..|refs| - 1], c) + if refs[|refs| - 1].chunkId == c then 1 else 0
  }

  lemma {:induction false} MultZero(refs: seq<ChunkRef>, c: int)
    ensures Mult(refs, c) == 0 <==> forall i | 0 <= i < |refs| :: refs[i].chunkId != c
    decreases |refs|
  {
    if refs != [] {
      var init := refs[..|refs| - 1];
      MultZero(init, c);
      assert forall i | 0 <= i < |init| :: init[i] == refs[i];
    }
  }

  lemma {:induction false} IncrementEffect(chunks: Chunks, refs: seq<ChunkRef>)
    ensures Increment(chunks, refs).Keys == chunks.Keys
    ensures forall c | c in chunks ::
      Increment(chunks, refs)[c] == chunks[c].(refcount := chunks[c].refcount + Mult(refs, c))
    decreases |refs|
  {
    if refs != [] {
      IncrementEffect(chunks, refs[..|refs| - 1]);
    }
  }

  lemma RefsToInsert(links: Links, k: LinkKey, c: int, d: int)
    requires k !in links
    ensures |RefsTo(links[k := c], d)| == |RefsTo(links, d)| + if c == d then 1 else 0
  {
    assert RefsTo(links[k := c], d) == if c == d then RefsTo(links, d) + {k} else RefsTo(links, d);
  }

  ghost predicate NoLinks(links: Links, fid: int) {
    forall k | k in links :: k.file != fid
  }

  ghost predicate AddsLinks(before: Links, after: Links, fid: int, refs: seq<ChunkRef>) {
    && (forall k | k in before :: k in after && after[k] == before[k])
    && (forall k | k in after && k !in before :: k.file == fid && 0 <= k.idx < |refs|)
    && (forall i | 0 <= i < |refs| :: LinkKey(fid, i) in after && after[LinkKey(fid, i)] == refs[i].chunkId)
  }

  /** Attaching succeeds exactly when every chunk still has its row, and only adds the new file's links. */
  lemma {:induction false} AttachEffect(t: Tables, fid: int, refs: seq<ChunkRef>)
    requires Ordered(refs)
    requires fid in t.files
    requires NoLinks(t.links, fid)
    ensures Attach(t, fid, refs).Some? <==> AllPresent(t.chunks, refs)
    ensures Attach(t, fid, refs).Some? ==>
      var u := Attach(t, fid, refs).value;
      && u.files == t.files && u.chunks == t.chunks
      && AddsLinks(t.links, u.links, fid, refs)
      && forall c :: |RefsTo(u.links, c)| == |RefsTo(t.links, c)| + Mult(refs, c)
    decreases |refs|
  {
    if refs != [] {
      var init, last := refs[..|refs| - 1], refs[|refs| - 1];
      assert Ordered(init);
      AttachEffect(t, fid, init);
      assert AllPresent(t.chunks, refs) <==> AllPresent(t.chunks, init) && last.chunkId in t.chunks by {
        assert forall i | 0 <= i < |init| :: init[i] == refs[i];
      }
      var r := Attach(t, fid, init);
      if r.Some? {
        var u := r.value;
        var k := LinkKey(fid, last.idx);
        assert k !in u.links;
        forall c ensures |RefsTo(u.links[k := last.chunkId], c)| == |RefsTo(t.links, c)| + Mult(refs, c) {
          RefsToInsert(u.links, k, last.chunkId, c);
        }
        AddsLinksSnoc(t.links, u.links, fid, refs);
      }
    }
  }

  lemma AddsLinksSnoc(before: Links, mid: Links, fid: int, refs: seq<ChunkRef>)
    requires refs != [] && Ordered(refs)
    requires AddsLinks(before, mid, fid, refs[..|refs| - 1])
    requires NoLinks(before, fid)
    ensures AddsLinks(before, mid[LinkKey(fid, |refs| - 1) := refs[|refs| - 1].chunkId], fid, refs)
  {
    var n := |refs| - 1;
    var after := mid[LinkKey(fid, n) := refs[n].chunkId];
    forall i | 0 <= i < |refs| ensures LinkKey(fid, i) in after && after[LinkKey(fid, i)] == refs[i].chunkId {
      if i < n {
        assert refs[..n][i] == refs[i];
      }
    }
  }

  // ------------------------------------------------- removing the rows of a path

  /** Links left when the rows at `path` go. */
  ghost function LinksElsewhere(t: Tables, path: Path): Links {
    map k | k in t.links && k !in LinksAt(t, path) :: t.links[k]
  }

  lemma CountsSplit(t: Tables, path: Path, c: int)
    ensures |RefsTo(t.links, c)| == |UsesAt(t, path, c)| + |RefsTo(LinksElsewhere(t, path), c)|
  {
    var uses, others := UsesAt(t, path, c), RefsTo(LinksElsewhere(t, path), c);
    assert RefsTo(t.links, c) == uses + others;
    assert uses !! others;
  }

  /** The counts after the decrement and increment steps, before anything is deleted. */
  ghost function Counted(t: Tables, path: Path, refs: seq<ChunkRef>): Tables {
    t.(chunks := Increment(Decrement(t, path), refs))
  }

  lemma CountedEffect(t: Tables, path: Path, refs: seq<ChunkRef>)
    requires CountsExact(t.chunks, t.links)
    ensures var u := Counted(t, path, refs);
      && u.chunks.Keys == t.chunks.Keys
      && forall c | c in t.chunks ::
          u.chunks[c] == t.chunks[c].(refcount := |RefsTo(LinksElsewhere(t, path), c)| + Mult(refs, c))
  {
    IncrementEffect(Decrement(t, path), refs);
    forall c | c in t.chunks
      ensures Counted(t, path, refs).chunks[c] ==
              t.chunks[c].(refcount := |RefsTo(LinksElsewhere(t, path), c)| + Mult(refs, c))
    {
      CountsSplit(t, path, c);
    }
  }

  /** No cascade reaches another file: a dropped chunk is linked from the replaced rows only. */
  lemma UnusedOnlyHere(t: Tables, path: Path, refs: seq<ChunkRef>, k: LinkKey)
    requires CountsExact(t.chunks, t.links)
    requires k in t.links && t.links[k] in Unused(Counted(t, path, refs), path)
    ensures k in LinksAt(t, path)
  {
    CountedEffect(t, path, refs);
    var c := t.links[k];
    assert RefsTo(LinksElsewhere(t, path), c) == {};
    assert k !in RefsTo(LinksElsewhere(t, path), c);
  }

  /** Chunks that survive the replacement of the rows at `path` by ones with `refs`. */
  ghost predicate Survives(t: Tables, path: Path, refs: seq<ChunkRef>, c: int) {
    c in t.chunks &&
    (|RefsTo(LinksElsewhere(t, path), c)| + Mult(refs, c) > 0 || forall k | k in LinksAt(t, path) :: t.links[k] != c)
  }

  /** Only rows at the path lose links, and a chunk goes exactly when it does not survive. */
  lemma ReplacedLinks(t: Tables, row: FileRow, refs: seq<ChunkRef>)
    requires Consistent(t)
    ensures var u := Replaced(t, row, refs);
      && u.files == (map f | f in t.files && t.files[f].path != row.path :: t.files[f])
      && u.links == LinksElsewhere(t, row.path)
      && u.chunks == Counted(t, row.path, refs).chunks - Unused(Counted(t, row.path, refs), row.path)
  {
    var counted := Counted(t, row.path, refs);
    var dead := Unused(counted, row.path);
    assert Replaced(t, row, refs) == DeleteRows(DeleteChunks(counted, dead), row.path);
    assert counted.files == t.files && counted.links == t.links;
    assert CountsExact(t.chunks, t.links);
    hide *;
    forall k | k in t.links && t.links[k] in dead ensures k in LinksAt(t, row.path) {
      UnusedOnlyHere(t, row.path, refs, k);
    }
    RowsAndChunksGone(t, counted, row.path, dead);
  }

  lemma RowsAndChunksGone(t: Tables, counted: Tables, path: Path, dead: set<int>)
    requires counted.files == t.files && counted.links == t.links
    requires forall k | k in t.links && t.links[k] in dead :: k in LinksAt(t, path)
    ensures var u := DeleteRows(DeleteChunks(counted, dead), path);
      && u.files == (map f | f in t.files && t.files[f].path != path :: t.files[f])
      && u.links == LinksElsewhere(t, path)
      && u.chunks == counted.chunks - dead
  {
  }

  lemma ReplacedEffect(t: Tables, row: FileRow, refs: seq<ChunkRef>)
    requires Consistent(t)
    ensures var u := Replaced(t, row, refs);
      && u.files == (map f | f in t.files && t.files[f].path != row.path :: t.files[f])
      && u.links == LinksElsewhere(t, row.path)
      && (forall c :: c in u.chunks <==> Survives(t, row.path, refs, c))
      && (forall c | c in u.chunks ::
            u.chunks[c] == t.chunks[c].(refcount := |RefsTo(u.links, c)| + Mult(refs, c)))
  {
    ReplacedLinks(t, row, refs);
    CountedEffect(t, row.path, refs);
    forall c ensures c in Replaced(t, row, refs).chunks <==> Survives(t, row.path, refs, c) {
      UnusedIff(t, row.path, refs, c);
    }
    hide Consistent, Replaced, Unused, Counted, Survives, LinksElsewhere, RefsTo, Mult;
  }

  lemma UnusedIff(t: Tables, path: Path, refs: seq<ChunkRef>, c: int)
    requires Consistent(t)
    ensures c in t.chunks && c !in Unused(Counted(t, path, refs), path) <==> Survives(t, path, refs, c)
  {
    var counted := Counted(t, path, refs);
    CountedEffect(t, path, refs);
    assert LinksAt(counted, path) == LinksAt(t, path);
    if c in t.chunks && !Survives(t, path, refs, c) {
      var k :| k in LinksAt(t, path) && t.links[k] == c;
      assert k in LinksAt(counted, path) && counted.links[k] == c && counted.chunks[c].refcount <= 0;
      assert c in Unused(counted, path);
    }
  }

  lemma SameRefs(a: Links, b: Links, fid: int)
    requires forall k | k in a && k.file == fid :: k in b && a[k] == b[k]
    requires forall k | k in b && k.file == fid :: k in a
    ensures FileRefs(a, fid) == FileRefs(b, fid)
  {
    assert Indices(a, fid) == Indices(b, fid) by {
      forall i | i in Indices(a, fid) ensures i in Indices(b, fid) { assert LinkKey(fid, i) in b; }
      forall i | i in Indices(b, fid) ensures i in Indices(a, fid) { assert LinkKey(fid, i) in a; }
    }
  }

  lemma LinksElsewhereRefs(t: Tables, path: Path, fid: int)
    requires fid in t.files && t.files[fid].path != path
    ensures FileRefs(LinksElsewhere(t, path), fid) == FileRefs(t.links, fid)
  {
    SameRefs(LinksElsewhere(t, path), t.links, fid);
  }

  lemma FreshRefs(before: Links, after: Links, fid: int, refs: seq<ChunkRef>)
    requires NoLinks(before, fid)
    requires AddsLinks(before, after, fid, refs)
    ensures FileRefs(after, fid) == RefMap(refs)
  {
    forall i ensures i in Indices(after, fid) <==> 0 <= i < |refs| {
      if i in Indices(after, fid) {
        assert LinkKey(fid, i) in after;
      }
      if 0 <= i < |refs| {
        assert LinkKey(fid, i) in after;
      }
    }
  }

  /** The set 0..n-1. */
  ghost function Interval(n: nat): (r: set<int>)
    ensures forall i :: i in r <==> 0 <= i < n
    ensures |r| == n
  {
    if n == 0 then {} else Interval(n - 1) + {n - 1}
  }

  lemma RefMapContiguous(refs: seq<ChunkRef>)
    ensures |RefMap(refs)| == |refs|
    ensures Contiguous(RefMap(refs))
  {
    assert RefMap(refs).Keys == Interval(|refs|);
    assert |RefMap(refs)| == |RefMap(refs).Keys|;
  }

  lemma LinkIsRef(links: Links, fid: int, i: int)
    requires LinkKey(fid, i) in links && Contiguous(FileRefs(links, fid))
    ensures 0 <= i < |FileRefs(links, fid)|
    ensures FileRefs(links, fid)[i] == links[LinkKey(fid, i)]
  {
    assert i in Indices(links, fid);
    assert i in FileRefs(links, fid);
  }

  lemma RefIsLink(links: Links, fid: int, i: int)
    requires Contiguous(FileRefs(links, fid))
    requires LinkKey(fid, i) !in links
    ensures !(0 <= i < |FileRefs(links, fid)|)
  {
    assert i !in Indices(links, fid);
    assert i !in FileRefs(links, fid);
  }

  // ---------------------------------------------------------- the transactions

  /** UpsertFile commits exactly when every referenced chunk still has its row. */
  lemma UpsertCommits(t: Tables, row: FileRow, refs: seq<ChunkRef>, fid: int)
    requires Consistent(t) && Ordered(refs)
    requires fid !in DeleteRows(t, row.path).files
    ensures Upsert(t, row, refs, fid).Some? <==> AllPresent(t.chunks, refs)
  {
    ReplacedEffect(t, row, refs);
    var u := Replaced(t, row, refs);
    var v := u.(files := u.files[fid := row]);
    assert NoLinks(v.links, fid);
    AttachEffect(v, fid, refs);
    forall i | 0 <= i < |refs| ensures refs[i].chunkId in u.chunks <==> refs[i].chunkId in t.chunks {
      MultZero(refs, refs[i].chunkId);
    }
  }

  lemma UpsertTables(t: Tables, row: FileRow, refs: seq<ChunkRef>, fid: int)
    requires Consistent(t) && Ordered(refs)
    requires fid !in DeleteRows(t, row.path).files
    requires Upsert(t, row, refs, fid).Some?
    ensures var v := Upsert(t, row, refs, fid).value;
      && v.files == (map f | f in t.files && t.files[f].path != row.path :: t.files[f])[fid := row]
      && NoLinks(LinksElsewhere(t, row.path), fid)
      && AddsLinks(LinksElsewhere(t, row.path), v.links, fid, refs)
      && (forall c :: c in v.chunks <==> Survives(t, row.path, refs, c))
      && (forall c | c in v.chunks :: v.chunks[c] == t.chunks[c].(refcount := |RefsTo(v.links, c)|))
  {
    ReplacedEffect(t, row, refs);
    var u := Replaced(t, row, refs);
    assert NoLinks(u.links, fid);
    AttachEffect(u.(files := u.files[fid := row]), fid, refs);
  }

  ghost predicate Linked(links: Links, c: int) {
    exists k :: k in links && links[k] == c
  }

  lemma LinkedIffCounted(links: Links, c: int)
    ensures Linked(links, c) <==> |RefsTo(links, c)| > 0
  {
    if Linked(links, c) {
      var k :| k in links && links[k] == c;
      assert k in RefsTo(links, c);
    } else {
      assert RefsTo(links, c) == {};
    }
  }

  /** A write drops exactly the chunk rows that its path linked and nothing links any more. */
  lemma UpsertDrops(t: Tables, row: FileRow, refs: seq<ChunkRef>, fid: int, c: int)
    requires Consistent(t) && Ordered(refs)
    requires fid !in DeleteRows(t, row.path).files
    requires Upsert(t, row, refs, fid).Some? && c in t.chunks
    ensures var v := Upsert(t, row, refs, fid).value;
      c !in v.chunks <==> !Linked(v.links, c) && exists k :: k in LinksAt(t, row.path) && t.links[k] == c
  {
    ReplacedEffect(t, row, refs);
    var u := Replaced(t, row, refs);
    assert NoLinks(u.links, fid);
    AttachEffect(u.(files := u.files[fid := row]), fid, refs);
    LinkedIffCounted(Upsert(t, row, refs, fid).value.links, c);
  }

  /** Deleting a path drops exactly the chunk rows that it linked and nothing else does. */
  lemma DeleteDrops(t: Tables, path: Path, c: int)
    requires Consistent(t) && c in t.chunks
    ensures var u := Delete(t, path);
      c !in u.chunks <==> !Linked(u.links, c) && exists k :: k in LinksAt(t, path) && t.links[k] == c
  {
    DeleteEffect(t, path);
    LinkedIffCounted(Delete(t, path).links, c);
  }

  /** Replacing a path's row keeps every relational invariant. */
  lemma UpsertConsistent(t: Tables, row: FileRow, refs: seq<ChunkRef>, fid: int)
    requires Consistent(t) && Ordered(refs)
    requires fid !in DeleteRows(t, row.path).files
    requires Upsert(t, row, refs, fid).Some?
    ensures Consistent(Upsert(t, row, refs, fid).value)
  {
    UpsertTables(t, row, refs, fid);
    UpsertForeignKeys(t, row, refs, fid);
    UpsertContiguous(t, row, refs, fid);
    hide Upsert, FileRefs, AddsLinks;
  }

  lemma UpsertContiguous(t: Tables, row: FileRow, refs: seq<ChunkRef>, fid: int)
    requires Consistent(t) && Ordered(refs)
    requires fid !in DeleteRows(t, row.path).files
    requires Upsert(t, row, refs, fid).Some?
    ensures AllContiguous(Upsert(t, row, refs, fid).value)
  {
    UpsertReplacesRow(t, row, refs, fid);
    assert AllContiguous(t);
    hide Upsert, FileRefs, Consistent;
    RefMapContiguous(refs);
  }

  lemma UpsertForeignKeys(t: Tables, row: FileRow, refs: seq<ChunkRef>, fid: int)
    requires Consistent(t) && Ordered(refs)
    requires fid !in DeleteRows(t, row.path).files
    requires Upsert(t, row, refs, fid).Some?
    ensures ForeignKeys(Upsert(t, row, refs, fid).value)
  {
    UpsertTables(t, row, refs, fid);
    UpsertCommits(t, row, refs, fid);
    var v := Upsert(t, row, refs, fid).value;
    forall k | k in v.links ensures k.file in v.files && v.links[k] in v.chunks {
      var c := v.links[k];
      if k in LinksElsewhere(t, row.path) {
        assert k in RefsTo(LinksElsewhere(t, row.path), c);
      } else {
        assert k == LinkKey(fid, k.idx) && refs[k.idx].chunkId == c;
        MultZero(refs, c);
      }
    }
  }

  ghost predicate Shows(t: Tables, f: int, p: Path, e: Entry) {
    f in t.files && t.files[f].path == p && e == Entry(t.files[f], FileRefs(t.links, f))
  }

  /** A map that agrees with every row, and names no path without one, is the view. */
  lemma ViewIs(t: Tables, want: map<Path, Entry>)
    requires UniquePaths(t.files)
    requires forall f | f in t.files :: t.files[f].path in want
    requires forall p | p in want :: exists f :: Shows(t, f, p, want[p])
    ensures View(t) == want
  {
  }

  lemma ViewShows(t: Tables, p: Path) returns (f: int)
    requires UniquePaths(t.files)
    requires p in View(t)
    ensures Shows(t, f, p, View(t)[p])
  {
    f :| f in t.files && t.files[f].path == p;
  }

  /** The files table after UpsertFile. */
  ghost predicate FilesReplaced(t: Tables, v: Tables, row: FileRow, fid: int) {
    && fid in v.files && v.files[fid] == row
    && (forall f | f in v.files && f != fid :: f in t.files && t.files[f].path != row.path && v.files[f] == t.files[f])
    && (forall f | f in t.files && t.files[f].path != row.path :: f != fid && f in v.files && v.files[f] == t.files[f])
  }

  /** Every file at another path keeps its references. */
  ghost predicate RefsKept(t: Tables, v: Tables, path: Path) {
    forall f | f in t.files && t.files[f].path != path :: FileRefs(v.links, f) == FileRefs(t.links, f)
  }

  ghost predicate RowReplaced(t: Tables, v: Tables, row: FileRow, fid: int) {
    FilesReplaced(t, v, row, fid) && RefsKept(t, v, row.path)
  }

  lemma RowReplacedShows(t: Tables, v: Tables, row: FileRow, fid: int, p: Path) returns (g: int)
    requires UniquePaths(t.files)
    requires RowReplaced(t, v, row, fid)
    requires p in View(t) && p != row.path
    ensures Shows(v, g, p, View(t)[p])
  {
    g := ViewShows(t, p);
  }

  lemma UpsertViewMap(t: Tables, v: Tables, row: FileRow, fid: int)
    requires UniquePaths(t.files) && UniquePaths(v.files)
    requires RowReplaced(t, v, row, fid)
    ensures View(v) == View(t)[row.path := Entry(row, FileRefs(v.links, fid))]
  {
    var e := Entry(row, FileRefs(v.links, fid));
    var was, want := View(t), View(t)[row.path := e];
    forall p | p in want ensures exists f :: Shows(v, f, p, want[p]) {
      if p == row.path {
        assert Shows(v, fid, p, e);
      } else {
        var g := RowReplacedShows(t, v, row, fid, p);
        assert Shows(v, g, p, want[p]);
      }
    }
    forall f | f in v.files ensures v.files[f].path in want {
      if f != fid {
        assert t.files[f].path in was;
      }
    }
    ViewIs(v, want);
  }

  lemma UpsertReplacesRow(t: Tables, row: FileRow, refs: seq<ChunkRef>, fid: int)
    requires Consistent(t) && Ordered(refs)
    requires fid !in DeleteRows(t, row.path).files
    requires Upsert(t, row, refs, fid).Some?
    ensures var v := Upsert(t, row, refs, fid).value;
      RowReplaced(t, v, row, fid) && FileRefs(v.links, fid) == RefMap(refs)
  {
    UpsertFilesReplaced(t, row, refs, fid);
    UpsertTables(t, row, refs, fid);
    hide Upsert, Consistent, DeleteRows, FileRefs, FilesReplaced;
    UpsertRefsKept(t, Upsert(t, row, refs, fid).value, row, refs, fid);
  }

  lemma UpsertFilesReplaced(t: Tables, row: FileRow, refs: seq<ChunkRef>, fid: int)
    requires Consistent(t) && Ordered(refs)
    requires fid !in DeleteRows(t, row.path).files
    requires Upsert(t, row, refs, fid).Some?
    ensures FilesReplaced(t, Upsert(t, row, refs, fid).value, row, fid)
  {
    UpsertTables(t, row, refs, fid);
    hide Upsert, Consistent, Ordered, AddsLinks, NoLinks, Survives, FilesReplaced, LinksElsewhere, RefsTo;
    RowsElsewhere(t, row.path);
    OneRowReplaced(t, Upsert(t, row, refs, fid).value, row, fid);
  }

  lemma RowsElsewhere(t: Tables, path: Path)
    ensures DeleteRows(t, path).files == map f | f in t.files && t.files[f].path != path :: t.files[f]
  {
  }

  lemma OneRowReplaced(t: Tables, v: Tables, row: FileRow, fid: int)
    requires v.files == (map f | f in t.files && t.files[f].path != row.path :: t.files[f])[fid := row]
    requires fid !in (map f | f in t.files && t.files[f].path != row.path :: t.files[f])
    ensures FilesReplaced(t, v, row, fid)
  {
  }

  lemma UpsertRefsKept(t: Tables, v: Tables, row: FileRow, refs: seq<ChunkRef>, fid: int)
    requires NoLinks(LinksElsewhere(t, row.path), fid)
    requires AddsLinks(LinksElsewhere(t, row.path), v.links, fid, refs)
    requires FilesReplaced(t, v, row, fid)
    ensures RefsKept(t, v, row.path) && FileRefs(v.links, fid) == RefMap(refs)
  {
    FreshRefs(LinksElsewhere(t, row.path), v.links, fid, refs);
    forall f | f in t.files && t.files[f].path != row.path ensures FileRefs(v.links, f) == FileRefs(t.links, f) {
      KeptRefs(t, row.path, v.links, fid, refs, f);
    }
  }

  lemma KeptRefs(t: Tables, path: Path, links: Links, fid: int, refs: seq<ChunkRef>, f: int)
    requires f in t.files && t.files[f].path != path && f != fid
    requires AddsLinks(LinksElsewhere(t, path), links, fid, refs)
    ensures FileRefs(links, f) == FileRefs(t.links, f)
  {
    SameRefs(LinksElsewhere(t, path), links, f);
    LinksElsewhereRefs(t, path, f);
  }

  /** The reader's view of UpsertFile: one path is replaced and every other path is untouched. */
  lemma UpsertView(t: Tables, row: FileRow, refs: seq<ChunkRef>, fid: int)
    requires Consistent(t) && Ordered(refs)
    requires fid !in DeleteRows(t, row.path).files
    requires Upsert(t, row, refs, fid).Some?
    ensures var v := Upsert(t, row, refs, fid).value;
      UniquePaths(v.files) && View(v) == View(t)[row.path := Entry(row, RefMap(refs))]
  {
    UpsertConsistent(t, row, refs, fid);
    UpsertReplacesRow(t, row, refs, fid);
    UpsertViewMap(t, Upsert(t, row, refs, fid).value, row, fid);
  }

  lemma DeleteIsReplaced(t: Tables, path: Path, row: FileRow)
    requires row.path == path
    ensures Delete(t, path) == Replaced(t, row, [])
  {
  }

  lemma DeleteEffect(t: Tables, path: Path)
    requires Consistent(t)
    ensures var u := Delete(t, path);
      && u.files == (map f | f in t.files && t.files[f].path != path :: t.files[f])
      && u.links == LinksElsewhere(t, path)
      && (forall c :: c in u.chunks <==> Survives(t, path, [], c))
      && (forall c | c in u.chunks :: u.chunks[c] == t.chunks[c].(refcount := |RefsTo(u.links, c)|))
  {
    var row := FileRow(path, false, false, 0, 0, 0, 0, 0, []);
    DeleteIsReplaced(t, path, row);
    ReplacedEffect(t, row, []);
  }

  lemma DeleteConsistent(t: Tables, path: Path)
    requires Consistent(t)
    ensures Consistent(Delete(t, path))
    ensures View(Delete(t, path)) == View(t) - {path}
  {
    DeleteEffect(t, path);
    var u := Delete(t, path);
    forall f | f in u.files ensures FileRefs(u.links, f) == FileRefs(t.links, f) {
      LinksElsewhereRefs(t, path, f);
    }
    forall k | k in u.links ensures k.file in u.files && u.links[k] in u.chunks {
      assert k in RefsTo(u.links, u.links[k]);
    }
    DeleteViewMap(t, u, path);
  }

  lemma DeleteViewMap(t: Tables, u: Tables, path: Path)
    requires UniquePaths(t.files) && UniquePaths(u.files)
    requires u.files == (map f | f in t.files && t.files[f].path != path :: t.files[f])
    requires forall f | f in u.files :: FileRefs(u.links, f) == FileRefs(t.links, f)
    ensures View(u) == View(t) - {path}
  {
    var want := View(t) - {path};
    forall p | p in want ensures exists f :: Shows(u, f, p, want[p]) {
      var f := ViewShows(t, p);
      assert Shows(u, f, p, want[p]);
    }
    ViewIs(u, want);
  }

  /** Deleting chunk rows nobody links to keeps the invariant and the reader's view. */
  lemma DeleteChunksConsistent(t: Tables, dead: set<int>)
    requires Consistent(t)
    requires forall c | c in dead :: RefsTo(t.links, c) == {}
    ensures DeleteChunks(t, dead).links == t.links
    ensures Consistent(DeleteChunks(t, dead))
    ensures View(DeleteChunks(t, dead)) == View(t)
  {
    forall k | k in t.links ensures t.links[k] !in dead {
      assert k in RefsTo(t.links, t.links[k]);
    }
    assert DeleteChunks(t, dead).links == t.links;
  }

  /** DeleteChunkIfZero never touches a referenced chunk. */
  lemma DeleteIfZeroConsistent(t: Tables, id: int)
    requires Consistent(t)
    ensures Consistent(DeleteIfZero(t, id)) && View(DeleteIfZero(t, id)) == View(t)
    ensures DeleteIfZero(t, id).links == t.links
    ensures id in DeleteIfZero(t, id).chunks <==> id in t.chunks && exists k :: k in t.links && t.links[k] == id
    ensures DeleteIfZero(t, id).chunks - {id} == t.chunks - {id}
  {
    if exists k :: k in t.links && t.links[k] == id {
      var k :| k in t.links && t.links[k] == id;
      assert k in RefsTo(t.links, id);
    } else {
      assert RefsTo(t.links, id) == {};
    }
    if id in t.chunks && t.chunks[id].refcount <= 0 {
      assert |RefsTo(t.links, id)| == 0;
      DeleteChunksConsistent(t, {id});
    }
  }

  lemma InsertConsistent(t: Tables, id: int, hash: Hash, size: int, blob: BlobName)
    requires Consistent(t)
    requires Insert(t, id, hash, size, blob).Some?
    ensures var u := Insert(t, id, hash, size, blob).value;
      Consistent(u) && View(u) == View(t)
  {
    NoRefsTo(t, id);
    hide FileRefs, Contiguous;
    SameView(t, Insert(t, id, hash, size, blob).value);
  }

  lemma NoRefsTo(t: Tables, id: int)
    requires ForeignKeys(t) && id !in t.chunks
    ensures |RefsTo(t.links, id)| == 0
  {
    assert RefsTo(t.links, id) == {};
  }

  lemma SameView(t: Tables, u: Tables)
    requires UniquePaths(t.files) && u.files == t.files && u.links == t.links
    ensures View(u) == View(t)
  {
    hide FileRefs;
    forall p | p in View(t) ensures View(u)[p] == View(t)[p] {
      var f := ViewShows(t, p);
      var g := ViewShows(u, p);
      assert f == g;
    }
  }

  // -------------------------------------------------------------- the chunk rows

  /** Chunk rows only go; those that stay keep their hash, size and blob. */
  ghost predicate RowsShrink(before: Chunks, after: Chunks) {
    forall c | c in after :: c in before && after[c] == before[c].(refcount := after[c].refcount)
  }

  lemma CleanupRows(t: Tables, id: int)
    ensures RowsShrink(t.chunks, DeleteIfZero(t, id).chunks)
  {
  }

  lemma DeletedRows(t: Tables, path: Path)
    requires Consistent(t)
    ensures RowsShrink(t.chunks, Delete(t, path).chunks)
  {
    DeleteEffect(t, path);
    hide Delete, Consistent;
  }

  lemma UpsertRows(t: Tables, row: FileRow, refs: seq<ChunkRef>, fid: int)
    requires Consistent(t) && Ordered(refs) && fid !in DeleteRows(t, row.path).files
    ensures var u := Upsert(t, row, refs, fid); u.Some? ==> RowsShrink(t.chunks, u.value.chunks)
  {
    if Upsert(t, row, refs, fid).Some? {
      UpsertTables(t, row, refs, fid);
      hide Upsert, Consistent;
    }
  }
}
