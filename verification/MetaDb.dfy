/**
 The manifest database as the object the program updates (internal/core/meta/db.go), and the
 path operations built on it (DeletePath, MovePath in internal/core/repo/repo.go).
 */
module MetaDb {
  import opened Paths
  import opened Sequences
  import opened Manifest
  import opened ManifestInvariants
  import opened Snapshot

  /** FileRows' filter: the path itself or anything below it; the empty prefix selects everything. */
  predicate InSubtree(p: Path, prefix: Path) {
    prefix == [] || p == prefix || prefix + [SLASH] <= p
  }

  predicate Overlap(src: Path, dst: Path) {
    InSubtree(src, dst) || InSubtree(dst, src)
  }

  /** MovePath's destination of one row: the prefix is replaced, the rest is kept. */
  function Renamed(p: Path, src: Path, dst: Path): Path
    requires |src| <= |p|
  {
    dst + p[|src|..]
  }

  function MovedEntry(e: Entry, path: Path): Entry {
    e.(row := e.row.(path := path))
  }

  /** checkParentDir: a top-level path has no parent to check. */
  ghost predicate ParentOk(view: map<Path, Entry>, p: Path) {
    LastSlash(p) <= 0 || (p[..LastSlash(p)] in view && view[p[..LastSlash(p)]].row.isDir)
  }

  predicate NotAfter(p: Path, q: Path) {
    p == q || LexLess(p, q)
  }

  ghost predicate Listed(view: map<Path, Entry>, rows: seq<FileRow>, prefix: Path) {
    && (forall i | 0 <= i < |rows| ::
          InSubtree(rows[i].path, prefix) && rows[i].path in view && view[rows[i].path].row == rows[i])
    && (forall i, j | 0 <= i < j < |rows| :: rows[i].path != rows[j].path)
  }

  ghost predicate Covers(view: map<Path, Entry>, rows: seq<FileRow>, prefix: Path) {
    forall p | p in view && InSubtree(p, prefix) :: p in PathsOf(rows)
  }

  ghost predicate InOrder(rows: seq<FileRow>) {
    forall i, j | 0 <= i < j < |rows| :: LexLess(rows[i].path, rows[j].path)
  }

  /** What FileRows returns: the rows of the subtree, each once, in byte order of their paths. */
  ghost predicate Listing(view: map<Path, Entry>, rows: seq<FileRow>, prefix: Path) {
    Listed(view, rows, prefix) && Covers(view, rows, prefix) && InOrder(rows)
  }

  ghost function PathsOf(rows: seq<FileRow>): set<Path> {
    set r | r in rows :: r.path
  }

  // ----------------------------------------------------- listing rows in order

  /** The rows picked so far come from the table, in order, and before all that remain. */
  ghost predicate Picked(files: map<int, FileRow>, rows: seq<FileRow>, todo: set<int>, prefix: Path) {
    && todo <= files.Keys
    && (forall f | f in todo :: InSubtree(files[f].path, prefix))
    && (forall i | 0 <= i < |rows| :: InSubtree(rows[i].path, prefix) && IsRow(files, rows[i]))
    && (forall f | f in files && InSubtree(files[f].path, prefix) :: f in todo || files[f] in rows)
    && InOrder(rows)
    && (forall i, f | 0 <= i < |rows| && f in todo :: LexLess(rows[i].path, files[f].path))
  }

  ghost predicate IsRow(files: map<int, FileRow>, row: FileRow) {
    exists f :: f in files && files[f] == row
  }

  lemma PickedNext(files: map<int, FileRow>, rows: seq<FileRow>, todo: set<int>, prefix: Path, f: int)
    requires UniquePaths(files) && Picked(files, rows, todo, prefix)
    requires f in todo && forall g | g in todo :: NotAfter(files[f].path, files[g].path)
    ensures Picked(files, rows + [files[f]], todo - {f}, prefix)
  {
    var more := rows + [files[f]];
    assert IsRow(files, files[f]);
    assert forall g | g in todo - {f} :: LexLess(files[f].path, files[g].path);
    hide LexLess, InSubtree, IsRow;
    forall g | g in files && InSubtree(files[g].path, prefix) ensures g in todo - {f} || files[g] in more {
      assert files[f] == more[|rows|];
      if files[g] in rows {
        var k :| 0 <= k < |rows| && rows[k] == files[g];
        assert more[k] == files[g];
      }
    }
  }

  lemma AllPicked(t: Tables, rows: seq<FileRow>, prefix: Path)
    requires UniquePaths(t.files) && Picked(t.files, rows, {}, prefix)
    ensures Listing(View(t), rows, prefix)
  {
    forall i | 0 <= i < |rows| ensures rows[i].path in View(t) && View(t)[rows[i].path].row == rows[i] {
      assert IsRow(t.files, rows[i]);
      var f :| f in t.files && t.files[f] == rows[i];
    }
    forall i, j | 0 <= i < j < |rows| ensures rows[i].path != rows[j].path {
      LexIrreflexive(rows[i].path, rows[j].path);
    }
    hide LexLess, InSubtree;
  }

  lemma LeastOf(files: map<int, FileRow>, todo: set<int>) returns (f: int)
    requires todo != {} && todo <= files.Keys
    ensures f in todo && forall g | g in todo :: NotAfter(files[f].path, files[g].path)
  {
    var paths := set g | g in todo :: files[g].path;
    var g0 := Pick(todo);
    assert files[g0].path in paths;
    var p := LeastName(paths);
    f :| f in todo && files[f].path == p;
    forall g | g in todo ensures NotAfter(p, files[g].path) {
      assert files[g].path in paths;
    }
  }

  class Database {
    var files: map<int, FileRow>
    var chunks: Chunks
    var links: Links

    ghost function T(): Tables
      reads this
    {
      Tables(files, chunks, links)
    }

    ghost predicate Valid()
      reads this
    {
      Consistent(T())
    }

    ghost function Manifest(): map<Path, Entry>
      reads this
      requires Valid()
    {
      View(T())
    }

    constructor ()
      ensures Valid() && T() == EmptyTables
    {
      files, chunks, links := map[], map[], map[];
    }

    /** SQLite's choice for INTEGER PRIMARY KEY: one more than the largest id in use. */
    method NextRowId() returns (id: int)
      ensures id !in files && id >= 1
      ensures forall f | f in files :: f < id
    {
      id := 1;
      var todo := files.Keys;
      while true
        invariant id >= 1 && todo <= files.Keys
        invariant forall f | f in files :: f in todo || f < id
        decreases |todo|
      {
        if f: int :| f in todo {
          id := if f >= id then f + 1 else id;
          todo := todo - {f};
        } else {
          break;
        }
      }
    }

    /** Replace a file row atomically; a constraint violation rolls everything back. */
    method UpsertFile(row: FileRow, refs: seq<ChunkRef>) returns (ok: bool, fid: int)
      modifies this
      ensures fid !in DeleteRows(old(T()), row.path).files
      ensures Upsert(old(T()), row, refs, fid) == if ok then Some(T()) else None
      ensures !ok ==> T() == old(T())
      ensures old(Valid()) && Ordered(refs) ==>
        Valid() && (ok <==> AllPresent(old(chunks), refs)) &&
        Manifest() == (if ok then old(Manifest())[row.path := Entry(row, RefMap(refs))] else old(Manifest())) &&
        RowsShrink(old(chunks), chunks)
    {
      ghost var t := T();
      var files0, chunks0, links0 := files, chunks, links;
      ReplaceRows(row, refs);
      fid := NextRowId();
      files := files[fid := row];
      ok := AttachRefs(fid, refs);
      if !ok {
        files, chunks, links := files0, chunks0, links0;
      }
      hide Consistent, Ordered, View, Upsert, RowsShrink;
      UpsertMeaning(t, row, refs, fid);
    }

    /** The statements of UpsertFile before the new row: re-count, drop what fell to zero, drop the old row. */
    method ReplaceRows(row: FileRow, refs: seq<ChunkRef>)
      modifies this
      ensures T() == Replaced(old(T()), row, refs)
      ensures files == DeleteRows(old(T()), row.path).files
    {
      ghost var t := T();
      chunks := Decrement(Tables(files, chunks, links), row.path);
      CountRefs(refs);
      ghost var counted := T();
      assert counted == t.(chunks := Increment(Decrement(t, row.path), refs));
      var dead := Unused(Tables(files, chunks, links), row.path);
      links := map k | k in links && links[k] !in dead :: links[k];
      chunks := chunks - dead;
      assert T() == DeleteChunks(counted, dead);
      var rest := DeleteRows(Tables(files, chunks, links), row.path);
      files, links := rest.files, rest.links;
    }

    method CountRefs(refs: seq<ChunkRef>)
      modifies this`chunks
      ensures chunks == Increment(old(chunks), refs)
    {
      var i := 0;
      while i < |refs|
        invariant 0 <= i <= |refs|
        invariant chunks == Increment(old(chunks), refs[..i])
      {
        chunks := IncrementOne(chunks, refs[i].chunkId);
        assert refs[..i + 1][..i] == refs[..i];
        i := i + 1;
      }
      assert refs[..i] == refs;
    }

    method AttachRefs(fid: int, refs: seq<ChunkRef>) returns (ok: bool)
      modifies this`links
      ensures Attach(old(T()), fid, refs) == if ok then Some(T()) else None
    {
      ghost var t := T();
      var i := 0;
      while i < |refs|
        invariant 0 <= i <= |refs|
        invariant Attach(t, fid, refs[..i]) == Some(T())
        invariant files == t.files && chunks == t.chunks
      {
        assert refs[..i + 1][..i] == refs[..i];
        var k := LinkKey(fid, refs[i].idx);
        if refs[i].chunkId !in chunks || fid !in files || k in links {
          assert AttachOne(T(), fid, refs[i]) == None;
          AttachStuck(t, fid, refs, i + 1);
          return false;
        }
        links := links[k := refs[i].chunkId];
        i := i + 1;
      }
      assert refs[..i] == refs;
      return true;
    }

    /** Remove the rows at a path; chunk rows nobody else uses go with them. */
    method DeleteFile(path: Path)
      modifies this
      ensures T() == Delete(old(T()), path)
      ensures old(Valid()) ==> Valid() && Manifest() == old(Manifest()) - {path} && RowsShrink(old(chunks), chunks)
    {
      ghost var t := T();
      chunks := Decrement(Tables(files, chunks, links), path);
      ghost var counted := T();
      var dead := Unused(Tables(files, chunks, links), path);
      links := map k | k in links && links[k] !in dead :: links[k];
      chunks := chunks - dead;
      assert T() == DeleteChunks(counted, dead);
      var rest := DeleteRows(Tables(files, chunks, links), path);
      files, links := rest.files, rest.links;
      assert T() == Delete(t, path);
      if Consistent(t) {
        DeleteConsistent(t, path);
        DeletedRows(t, path);
      }
    }

    /** DeleteChunkIfZero, the clean-up of a failed write. */
    method DeleteChunkIfZero(id: int)
      modifies this
      ensures T() == DeleteIfZero(old(T()), id)
      ensures old(Valid()) ==> Valid() && Manifest() == old(Manifest()) && links == old(links)
    {
      ghost var t := T();
      if id in chunks && chunks[id].refcount <= 0 {
        links := map k | k in links && links[k] !in {id} :: links[k];
        chunks := chunks - {id};
      }
      assert T() == DeleteIfZero(t, id);
      if Consistent(t) {
        DeleteIfZeroConsistent(t, id);
      }
    }

    /** GetFileRow. */
    method GetFileRow(path: Path) returns (row: Option<FileRow>)
      requires Valid()
      ensures row == if path in Manifest() then Some(Manifest()[path].row) else None
    {
      if f: int :| f in files && files[f].path == path {
        row := Some(files[f]);
      } else {
        row := None;
      }
    }

    /** FileRows: every row at or below the prefix, once, ordered by path. */
    method FileRows(prefix: Path) returns (rows: seq<FileRow>)
      requires Valid()
      ensures Listing(Manifest(), rows, prefix)
    {
      rows := [];
      var todo := set f | f in files && InSubtree(files[f].path, prefix);
      while todo != {}
        invariant todo <= files.Keys
        invariant Picked(files, rows, todo, prefix)
        decreases |todo|
      {
        var f := LeastFile(todo);
        PickedNext(files, rows, todo, prefix, f);
        rows := rows + [files[f]];
        todo := todo - {f};
      }
      AllPicked(T(), rows, prefix);
    }

    /** ORDER BY path: the first of the rows still to come. */
    method LeastFile(todo: set<int>) returns (f: int)
      requires todo != {} && todo <= files.Keys
      ensures f in todo && forall g | g in todo :: NotAfter(files[f].path, files[g].path)
    {
      var paths := set g | g in todo :: files[g].path;
      ghost var first := LeastOf(files, todo);
      f :| f in todo && forall p | p in paths :: NotAfter(files[f].path, p);
    }

    /** GetFileChunks: the path's references in index order; none when the path has no row. */
    method GetFileChunks(path: Path) returns (refs: seq<ChunkRef>)
      requires Valid()
      ensures Ordered(refs) && AllPresent(chunks, refs)
      ensures RefMap(refs) == if path in Manifest() then Manifest()[path].refs else map[]
    {
      if fid: int :| fid in files && files[fid].path == path {
        refs := RefsOf(fid);
      } else {
        refs := [];
      }
    }

    method RefsOf(fid: int) returns (refs: seq<ChunkRef>)
      requires Valid() && fid in files
      ensures Ordered(refs) && RefMap(refs) == FileRefs(links, fid) && AllPresent(chunks, refs)
    {
      ghost var m := FileRefs(links, fid);
      assert ForeignKeys(T()) && Contiguous(m);
      hide Consistent, FileRefs;
      refs := [];
      while LinkKey(fid, |refs|) in links
        invariant |refs| <= |m| && Ordered(refs)
        invariant forall i | 0 <= i < |refs| :: i in m && refs[i].chunkId == m[i]
        invariant AllPresent(chunks, refs)
        decreases |m| - |refs|
      {
        LinkIsRef(links, fid, |refs|);
        refs := refs + [ChunkRef(links[LinkKey(fid, |refs|)], |refs|)];
      }
      RefIsLink(links, fid, |refs|);
      assert RefMap(refs) == m;
    }

    /** DeletePath: the whole subtree goes, nothing else changes. */
    method DeletePath(path: Path)
      requires Valid()
      modifies this
      ensures Valid()
      ensures Manifest() == if path in old(Manifest()) then WithoutSubtree(old(Manifest()), path) else old(Manifest())
      ensures old(ValidSnapshot(T())) ==> ValidSnapshot(T())
    {
      var row := GetFileRow(path);
      if row.None? {
        return;
      }
      var rows := FileRows(path);
      ghost var was, t := Manifest(), T();
      DeleteAll(rows);
      AllRowsGone(was, rows, path);
      SubsetInherits(was, Manifest());
      KeptValid(t, T());
    }

    method DeleteAll(rows: seq<FileRow>)
      requires Valid()
      modifies this
      ensures Valid() && Manifest() == old(Manifest()) - PathsOf(rows) && RowsShrink(old(chunks), chunks)
    {
      hide Consistent;
      var i := 0;
      while i < |rows|
        invariant 0 <= i <= |rows| && Valid() && RowsShrink(old(chunks), chunks)
        invariant Manifest() == old(Manifest()) - PathsOf(rows[..i])
      {
        DeleteFile(rows[i].path);
        PathsOfStep(rows, i);
        i := i + 1;
      }
      assert rows[..i] == rows;
    }

    /**
     MovePath. Away from overlapping paths the subtree is renamed, with its chunk references,
     over whatever the destination held, and a valid snapshot stays valid. Moving a path onto
     itself destroys its subtree; MoveIffDisjoint says what other overlaps do.
     */
    method MovePath(src: Path, dst: Path) returns (ok: bool)
      requires Valid()
      modifies this
      ensures Valid()
      ensures ok <==> ParentOk(old(Manifest()), dst) && exists p :: p in old(Manifest()) && InSubtree(p, src)
      ensures !ok ==> Manifest() == old(Manifest())
      ensures ok ==> MoveOutcome(old(Manifest()), Manifest(), src, dst)
      ensures ok && !Overlap(src, dst) ==> IsMove(old(Manifest()), Manifest(), src, dst)
      ensures ok && src == dst ==> Manifest() == WithoutSubtree(old(Manifest()), src)
      ensures !Overlap(src, dst) && old(ValidSnapshot(T())) ==> ValidSnapshot(T())
    {
      ghost var was, t := Manifest(), T();
      var parentOk := CheckParentDir(dst);
      if !parentOk {
        return false;
      }
      var rows := FileRows(src);
      if rows == [] {
        assert Covers(was, rows, src);
        return false;
      }
      assert rows[0].path in was && InSubtree(rows[0].path, src);
      var dstRows := FileRows(dst);
      ListingIn(was, rows, src);
      DeleteOutside(dstRows, rows);
      ClearedIs(was, rows, dstRows, src, dst);
      MoveRowsOneByOne(rows, src, dst);
      hide Database.Valid, Database.Manifest;
      assert MoveOutcome(was, Manifest(), src, dst) by {
        assert MovesTo(was, Manifest(), rows, src, dst);
      }
      MoveMeaning(was, Manifest(), rows, src, dst);
      if !Overlap(src, dst) {
        MoveInherits(was, Manifest(), src, dst);
        KeptValid(t, T());
      }
      return true;
    }

    /** checkParentDir. */
    method CheckParentDir(path: Path) returns (ok: bool)
      requires Valid()
      ensures ok <==> ParentOk(Manifest(), path)
    {
      var i := LastSlash(path);
      if i <= 0 {
        return true;
      }
      var row := GetFileRow(path[..i]);
      return row.Some? && row.value.isDir;
    }

    /** Delete the destination's old subtree, sparing rows that are about to move. */
    method DeleteOutside(dstRows: seq<FileRow>, rows: seq<FileRow>)
      requires Valid()
      modifies this
      ensures Valid()
      ensures Manifest() == old(Manifest()) - (PathsOf(dstRows) - PathsOf(rows)) && RowsShrink(old(chunks), chunks)
    {
      hide Consistent;
      var srcSet := set r | r in rows :: r.path;
      var i := 0;
      while i < |dstRows|
        invariant 0 <= i <= |dstRows| && Valid() && RowsShrink(old(chunks), chunks)
        invariant Manifest() == old(Manifest()) - (PathsOf(dstRows[..i]) - srcSet)
      {
        ghost var here := Manifest();
        PathsOfStep(dstRows, i);
        ghost var gone := PathsOf(dstRows[..i]);
        if dstRows[i].path !in srcSet {
          DeleteFile(dstRows[i].path);
          assert (gone + {dstRows[i].path}) - srcSet == (gone - srcSet) + {dstRows[i].path};
        } else {
          assert (gone + {dstRows[i].path}) - srcSet == gone - srcSet;
        }
        i := i + 1;
      }
      assert dstRows[..i] == dstRows;
    }

    method MoveRowsOneByOne(rows: seq<FileRow>, src: Path, dst: Path)
      requires Valid()
      requires forall i | 0 <= i < |rows| :: |src| <= |rows[i].path|
      modifies this
      ensures Valid() && Manifest() == MoveRows(old(Manifest()), rows, src, dst) && RowsShrink(old(chunks), chunks)
    {
      hide Consistent, AllPresent, Ordered;
      var i := 0;
      while i < |rows|
        invariant 0 <= i <= |rows| && Valid() && RowsShrink(old(chunks), chunks)
        invariant Manifest() == MoveRows(old(Manifest()), rows[..i], src, dst)
      {
        ghost var here := Manifest();
        var newPath := Renamed(rows[i].path, src, dst);
        var refs := GetFileChunks(rows[i].path);
        var ok, _ := UpsertFile(rows[i].(path := newPath), refs);
        DeleteFile(rows[i].path);
        assert Manifest() == MoveStep(here, rows[i], src, dst);
        assert rows[..i + 1][..i] == rows[..i];
        i := i + 1;
      }
      assert rows[..i] == rows;
    }
  }

  /** UpsertFile for a reader of the manifest. */
  lemma UpsertMeaning(t: Tables, row: FileRow, refs: seq<ChunkRef>, fid: int)
    requires fid !in DeleteRows(t, row.path).files
    ensures Consistent(t) && Ordered(refs) ==>
      var u := Upsert(t, row, refs, fid);
      && (u.Some? <==> AllPresent(t.chunks, refs))
      && (u.Some? ==> Consistent(u.value) && RowsShrink(t.chunks, u.value.chunks)
                      && View(u.value) == View(t)[row.path := Entry(row, RefMap(refs))])
  {
    if Consistent(t) && Ordered(refs) {
      UpsertCommits(t, row, refs, fid);
      if Upsert(t, row, refs, fid).Some? {
        UpsertConsistent(t, row, refs, fid);
        UpsertView(t, row, refs, fid);
        UpsertRows(t, row, refs, fid);
      }
    }
  }

  /** Rows that only moved or went leave a valid snapshot valid. */
  lemma KeptValid(t: Tables, v: Tables)
    requires Consistent(t) && Consistent(v) && RowsShrink(t.chunks, v.chunks) && Inherits(View(t), View(v))
    ensures ValidSnapshot(t) ==> ValidSnapshot(v)
  {
    assert RowsAgree(t.chunks, v.chunks);
    assert UniqueHashes(t.chunks);
    hide Consistent, View, Inherits, ValidSnapshot, RowsShrink, RowsAgree;
    if ValidSnapshot(t) {
      StillValid(t, v);
    }
  }

  lemma SubsetInherits(before: map<Path, Entry>, after: map<Path, Entry>)
    requires forall p | p in after :: p in before && after[p] == before[p]
    ensures Inherits(before, after)
  {
    forall p | p in after ensures Holds(before, after[p]) {
      assert SameFile(before[p], after[p]);
    }
  }

  lemma MoveInherits(before: map<Path, Entry>, after: map<Path, Entry>, src: Path, dst: Path)
    requires IsMove(before, after, src, dst)
    ensures Inherits(before, after)
  {
    forall q | q in after ensures Holds(before, after[q]) {
      var p := if MovedTo(before, q, src, dst) then Origin(q, src, dst) else q;
      assert p in before && SameFile(before[p], after[q]);
    }
  }

  // ------------------------------------------------------ what a move means

  ghost function MoveStep(view: map<Path, Entry>, row: FileRow, src: Path, dst: Path): map<Path, Entry>
    requires |src| <= |row.path|
  {
    var q := Renamed(row.path, src, dst);
    view[q := Entry(row.(path := q), if row.path in view then view[row.path].refs else map[])] - {row.path}
  }

  ghost function MoveRows(view: map<Path, Entry>, rows: seq<FileRow>, src: Path, dst: Path): map<Path, Entry>
    requires forall i | 0 <= i < |rows| :: |src| <= |rows[i].path|
    decreases |rows|
  {
    if rows == [] then view
    else MoveStep(MoveRows(view, rows[..|rows| - 1], src, dst), rows[|rows| - 1], src, dst)
  }

  /** Where an entry at q of the destination subtree came from. */
  ghost function Origin(q: Path, src: Path, dst: Path): Path
    requires |dst| <= |q|
  {
    src + q[|dst|..]
  }

  ghost predicate MovedTo(view: map<Path, Entry>, q: Path, src: Path, dst: Path) {
    |dst| <= |q| && InSubtree(q, dst) && Origin(q, src, dst) in view && InSubtree(Origin(q, src, dst), src)
  }

  /** Both subtrees are replaced by the renamed source subtree; every other path is untouched. */
  ghost predicate IsMove(before: map<Path, Entry>, after: map<Path, Entry>, src: Path, dst: Path) {
    && (forall q :: q in after <==>
          (q in before && !InSubtree(q, src) && !InSubtree(q, dst)) || MovedTo(before, q, src, dst))
    && (forall q | q in after :: after[q] ==
          if MovedTo(before, q, src, dst) then MovedEntry(before[Origin(q, src, dst)], q) else before[q])
  }

  lemma SubtreesDisjoint(p: Path, src: Path, dst: Path)
    requires !Overlap(src, dst)
    ensures !(InSubtree(p, src) && InSubtree(p, dst))
  {
    if InSubtree(p, src) && InSubtree(p, dst) {
      if |src| <= |dst| {
        PrefixesNest(p, src, dst);
      } else {
        PrefixesNest(p, dst, src);
      }
    }
  }

  lemma PrefixesNest(p: Path, a: Path, b: Path)
    requires |a| <= |b| && InSubtree(p, a) && InSubtree(p, b)
    ensures InSubtree(b, a) || a == b == []
  {
    if a != [] {
      assert a == p[..|a|];
      assert b == p[..|b|];
      assert |a| < |b| ==> b[..|a| + 1] == p[..|a| + 1];
    }
  }

  lemma RenamedOrigin(p: Path, src: Path, dst: Path)
    requires InSubtree(p, src) && src != [] && dst != []
    ensures |src| <= |p| && |dst| <= |Renamed(p, src, dst)|
    ensures InSubtree(Renamed(p, src, dst), dst)
    ensures Origin(Renamed(p, src, dst), src, dst) == p
  {
    assert p == src + p[|src|..];
    assert Renamed(p, src, dst)[|dst|..] == p[|src|..];
    if p != src {
      assert p[|src|] == SLASH;
      assert Renamed(p, src, dst)[..|dst| + 1] == dst + [SLASH];
    }
  }

  lemma OriginRenamed(q: Path, src: Path, dst: Path)
    requires |dst| <= |q| && q[..|dst|] == dst
    ensures |src| <= |Origin(q, src, dst)|
    ensures Renamed(Origin(q, src, dst), src, dst) == q
  {
    assert Origin(q, src, dst)[|src|..] == q[|dst|..];
    assert q == dst + q[|dst|..];
  }

  ghost predicate Arrived(rows: seq<FileRow>, q: Path, src: Path, dst: Path) {
    |dst| <= |q| && InSubtree(q, dst) && Origin(q, src, dst) in PathsOf(rows)
  }

  /** The manifest when `rows` have moved so far. */
  ghost predicate PartlyMoved(before: map<Path, Entry>, after: map<Path, Entry>, rows: seq<FileRow>, src: Path,
      dst: Path) {
    && (forall r | r in rows :: r.path in before)
    && (forall q :: q in after <==> (q in before && q !in PathsOf(rows)) || Arrived(rows, q, src, dst))
    && (forall q | q in after :: after[q] ==
          if Arrived(rows, q, src, dst) then MovedEntry(before[Origin(q, src, dst)], q) else before[q])
  }

  lemma {:induction false} MoveRowsPartly(view: map<Path, Entry>, rows: seq<FileRow>, src: Path, dst: Path)
    requires !Overlap(src, dst)
    requires Listed(view, rows, src)
    requires forall q | q in view :: !InSubtree(q, dst)
    ensures forall i | 0 <= i < |rows| :: |src| <= |rows[i].path|
    ensures PartlyMoved(view, MoveRows(view, rows, src, dst), rows, src, dst)
    decreases |rows|
  {
    if rows != [] {
      var init, last := rows[..|rows| - 1], rows[|rows| - 1];
      MoveRowsPartly(view, init, src, dst);
      var mid := MoveRows(view, init, src, dst);
      SubtreesDisjoint(last.path, src, dst);
      RenamedOrigin(last.path, src, dst);
      PathsOfStep(rows, |rows| - 1);
      assert rows[..|rows|] == rows;
      assert last.path !in PathsOf(init) by {
        forall r | r in init ensures r.path != last.path { }
      }
      MoveStepPartly(view, mid, init, last, rows, src, dst);
    }
  }

  lemma MoveStepPartly(view: map<Path, Entry>, mid: map<Path, Entry>, init: seq<FileRow>, last: FileRow,
                       rows: seq<FileRow>, src: Path, dst: Path)
    requires src != [] && dst != []
    requires rows == init + [last]
    requires PathsOf(rows) == PathsOf(init) + {last.path} && last.path !in PathsOf(init)
    requires PartlyMoved(view, mid, init, src, dst)
    requires last.path in view && view[last.path].row == last && InSubtree(last.path, src) && !InSubtree(last.path, dst)
    requires forall q | q in view :: !InSubtree(q, dst)
    requires |src| <= |last.path|
    ensures PartlyMoved(view, MoveStep(mid, last, src, dst), rows, src, dst)
  {
    var q0 := Renamed(last.path, src, dst);
    var after := MoveStep(mid, last, src, dst);
    RenamedOrigin(last.path, src, dst);
    assert last.path in mid && mid[last.path] == view[last.path];
    forall q ensures Arrived(rows, q, src, dst) <==> Arrived(init, q, src, dst) || q == q0 {
      if |dst| <= |q| && InSubtree(q, dst) && Origin(q, src, dst) == last.path {
        OriginRenamed(q, src, dst);
      }
    }
  }

  lemma {:induction false} SelfMoveRows(view: map<Path, Entry>, rows: seq<FileRow>, src: Path)
    requires forall i | 0 <= i < |rows| :: |src| <= |rows[i].path| && rows[i].path[..|src|] == src
    ensures MoveRows(view, rows, src, src) == view - PathsOf(rows)
    decreases |rows|
  {
    if rows != [] {
      var n := |rows| - 1;
      SelfMoveRows(view, rows[..n], src);
      OriginRenamed(rows[n].path, src, src);
      assert Origin(rows[n].path, src, src) == rows[n].path;
      PathsOfStep(rows, n);
      assert rows[..n + 1] == rows;
    } else {
      assert view - PathsOf(rows) == view;
    }
  }

  /** The manifest after the destination's old subtree is cleared, sparing what is about to move. */
  ghost function Cleared(view: map<Path, Entry>, src: Path, dst: Path): map<Path, Entry> {
    map p | p in view && (InSubtree(p, dst) ==> InSubtree(p, src)) :: view[p]
  }

  ghost predicate MovesTo(before: map<Path, Entry>, after: map<Path, Entry>, rows: seq<FileRow>, src: Path, dst: Path) {
    && Listing(before, rows, src)
    && (forall i | 0 <= i < |rows| :: |src| <= |rows[i].path|)
    && after == MoveRows(Cleared(before, src, dst), rows, src, dst)
  }

  /** Exactly what MovePath does: the source rows one by one, in path order. */
  ghost predicate MoveOutcome(before: map<Path, Entry>, after: map<Path, Entry>, src: Path, dst: Path) {
    exists rows :: MovesTo(before, after, rows, src, dst)
  }

  lemma ListingIn(view: map<Path, Entry>, rows: seq<FileRow>, prefix: Path)
    requires Listing(view, rows, prefix)
    ensures forall i | 0 <= i < |rows| :: |prefix| <= |rows[i].path| && rows[i].path[..|prefix|] == prefix
  {
    forall i | 0 <= i < |rows| ensures |prefix| <= |rows[i].path| && rows[i].path[..|prefix|] == prefix {
      assert InSubtree(rows[i].path, prefix);
    }
  }

  lemma ClearedIs(view: map<Path, Entry>, rows: seq<FileRow>, dstRows: seq<FileRow>, src: Path, dst: Path)
    requires Listing(view, rows, src) && Listing(view, dstRows, dst)
    ensures view - (PathsOf(dstRows) - PathsOf(rows)) == Cleared(view, src, dst)
  {
    hide InSubtree, InOrder;
  }

  lemma MoveMeaning(was: map<Path, Entry>, after: map<Path, Entry>, rows: seq<FileRow>, src: Path, dst: Path)
    requires MovesTo(was, after, rows, src, dst)
    ensures !Overlap(src, dst) ==> IsMove(was, after, src, dst)
    ensures src == dst ==> after == WithoutSubtree(was, src)
  {
    var cleared := Cleared(was, src, dst);
    if !Overlap(src, dst) {
      DisjointMove(was, after, rows, src, dst);
    }
    if src == dst {
      ListingIn(was, rows, src);
      assert cleared == was;
      SelfMoveRows(cleared, rows, src);
      AllRowsGone(was, rows, src);
    }
  }

  lemma DisjointMove(was: map<Path, Entry>, after: map<Path, Entry>, rows: seq<FileRow>, src: Path, dst: Path)
    requires MovesTo(was, after, rows, src, dst) && !Overlap(src, dst)
    ensures IsMove(was, after, src, dst)
  {
    var cleared := Cleared(was, src, dst);
    forall p ensures !(InSubtree(p, src) && InSubtree(p, dst)) {
      SubtreesDisjoint(p, src, dst);
    }
    assert Listed(cleared, rows, src);
    MoveRowsPartly(cleared, rows, src, dst);
    PartlyIsMove(was, cleared, after, rows, src, dst);
  }

  lemma PartlyIsMove(was: map<Path, Entry>, cleared: map<Path, Entry>, after: map<Path, Entry>, rows: seq<FileRow>,
                     src: Path, dst: Path)
    requires Listed(was, rows, src) && Covers(was, rows, src)
    requires forall q :: q in cleared <==> q in was && !InSubtree(q, dst)
    requires forall q | q in cleared :: cleared[q] == was[q]
    requires PartlyMoved(cleared, after, rows, src, dst)
    ensures IsMove(was, after, src, dst)
  {
    forall q ensures Arrived(rows, q, src, dst) <==> MovedTo(was, q, src, dst) {
    }
  }

  ghost function WithoutSubtree(view: map<Path, Entry>, path: Path): map<Path, Entry> {
    map p | p in view && !InSubtree(p, path) :: view[p]
  }

  lemma AllRowsGone(view: map<Path, Entry>, rows: seq<FileRow>, path: Path)
    requires Listing(view, rows, path)
    ensures view - PathsOf(rows) == WithoutSubtree(view, path)
  {
    hide InSubtree, InOrder;
  }

  // ------------------------------------------------------- overlapping moves

  /** The last thing done at a row's path is to delete it, unless a later row is renamed to it. */
  lemma {:induction false} LateDeletion(view: map<Path, Entry>, rows: seq<FileRow>, k: nat, src: Path, dst: Path)
    requires forall i | 0 <= i < |rows| :: |src| <= |rows[i].path|
    requires k < |rows| && forall j | k < j < |rows| :: Renamed(rows[j].path, src, dst) != rows[k].path
    ensures rows[k].path !in MoveRows(view, rows, src, dst)
    decreases |rows|
  {
    var n := |rows| - 1;
    if k < n {
      LateDeletion(view, rows[..n], k, src, dst);
    }
  }

  lemma LexPrefixed(p: Path, a: Path, b: Path)
    ensures LexLess(p + a, p + b) <==> LexLess(a, b)
    decreases |p|
  {
    if p == [] {
      assert p + a == a && p + b == b;
    } else {
      assert (p + a)[1..] == p[1..] + a && (p + b)[1..] == p[1..] + b;
      LexPrefixed(p[1..], a, b);
    }
  }

  lemma PrefixNotAfter(p: Path, q: Path)
    requires p <= q
    ensures !LexLess(q, p)
  {
    assert q == p + q[|p|..] && p == p + [];
    LexPrefixed(p, q[|p|..], []);
  }

  function Filler(n: nat): Path {
    if n == 0 then [] else [255] + Filler(n - 1)
  }

  lemma {:induction false} FillerIsLast(t: Path, x: Path)
    ensures LexLess(t + [SLASH] + x, Filler(|t| + 1))
    decreases |t|
  {
    var s, f := t + [SLASH] + x, Filler(|t| + 1);
    if t != [] {
      assert s[1..] == t[1..] + [SLASH] + x && f[1..] == Filler(|t|);
      FillerIsLast(t[1..], x);
    }
  }

  function DirRow(p: Path): FileRow {
    FileRow(p, true, false, 0, 0, 0, 0, 0, [])
  }

  /** A manifest of empty directories at these paths. */
  ghost function DirTables(paths: seq<Path>): Tables
    decreases |paths|
  {
    if paths == [] then EmptyTables
    else
      var n := |paths| - 1;
      var t := DirTables(paths[..n]);
      if paths[n] in Manifest.Paths(t.files) then t else t.(files := t.files[n := DirRow(paths[n])])
  }

  lemma {:induction false} DirTablesOk(paths: seq<Path>)
    ensures var t := DirTables(paths);
      && t.chunks == map[] && t.links == map[] && UniquePaths(t.files)
      && (forall f | f in t.files :: 0 <= f < |paths| && t.files[f] == DirRow(t.files[f].path))
      && (forall p :: p in Manifest.Paths(t.files) <==> p in paths)
    decreases |paths|
  {
    if paths != [] {
      var n := |paths| - 1;
      DirTablesOk(paths[..n]);
      assert paths == paths[..n] + [paths[n]];
      var t := DirTables(paths[..n]);
      if paths[n] !in Manifest.Paths(t.files) {
        var v := t.files[n := DirRow(paths[n])];
        assert v[n].path == paths[n];
        forall p ensures p in Manifest.Paths(v) <==> p in paths {
          if p in Manifest.Paths(t.files) {
            var f :| f in t.files && t.files[f].path == p;
            assert v[f].path == p;
          }
        }
      }
    }
  }

  lemma DirTablesConsistent(paths: seq<Path>)
    ensures Consistent(DirTables(paths))
    ensures forall p :: p in View(DirTables(paths)) <==> p in paths
    ensures forall p | p in paths :: View(DirTables(paths))[p].row == DirRow(p)
  {
    DirTablesOk(paths);
    var t := DirTables(paths);
    assert forall f :: FileRefs(t.links, f) == map[];
    assert AllContiguous(t);
    forall p | p in paths ensures View(t)[p].row == DirRow(p) {
      assert p in Manifest.Paths(t.files);
    }
    hide DirTables;
  }

  /** The parent directory of `dst`, if it needs one. */
  function Parents(dst: Path): seq<Path> {
    if LastSlash(dst) <= 0 then [] else [dst[..LastSlash(dst)]]
  }

  /** A manifest on which moving goes through but is not a move. */
  ghost predicate Spoils(t: Tables, src: Path, dst: Path) {
    && Consistent(t) && ParentOk(View(t), dst)
    && (exists p :: p in View(t) && InSubtree(p, src))
    && forall after | MoveOutcome(View(t), after, src, dst) :: !IsMove(View(t), after, src, dst)
  }

  lemma RenamedBack(p: Path, x: Path, src: Path, dst: Path)
    requires |src| <= |p| && p[..|src|] == src && |dst| <= |x|
    ensures Renamed(p, src, dst) == x ==> p == Origin(x, src, dst)
  {
    assert p == src + p[|src|..];
    assert Renamed(p, src, dst)[|dst|..] == p[|src|..];
  }

  lemma LostRow(view: map<Path, Entry>, after: map<Path, Entry>, rows: seq<FileRow>, x: Path, src: Path, dst: Path)
    requires MovesTo(view, after, rows, src, dst)
    requires x in view && InSubtree(x, src) && |dst| <= |x|
    requires !LexLess(x, Origin(x, src, dst))
    ensures x !in after
  {
    assert x in PathsOf(rows);
    var k :| 0 <= k < |rows| && rows[k].path == x;
    ListingIn(view, rows, src);
    forall j | k < j < |rows| ensures Renamed(rows[j].path, src, dst) != x {
      assert LexLess(x, rows[j].path);
      RenamedBack(rows[j].path, x, src, dst);
    }
    hide LexLess, InSubtree, Origin;
    LateDeletion(Cleared(view, src, dst), rows, k, src, dst);
  }

  /** A path whose row is moved away last, though the move should have filled it. */
  lemma LostPath(view: map<Path, Entry>, x: Path, src: Path, dst: Path)
    requires x in view && InSubtree(x, src) && MovedTo(view, x, src, dst)
    requires !LexLess(x, Origin(x, src, dst))
    ensures forall after | MoveOutcome(view, after, src, dst) :: !IsMove(view, after, src, dst)
  {
    hide LexLess, InSubtree, Origin;
    forall after | MoveOutcome(view, after, src, dst) ensures !IsMove(view, after, src, dst) {
      var rows: seq<FileRow> :| MovesTo(view, after, rows, src, dst);
      LostRow(view, after, rows, x, src, dst);
    }
  }

  /** Among directories at `paths`, one that the move should fill is moved away last. */
  lemma SpoilsBy(paths: seq<Path>, x: Path, src: Path, dst: Path)
    requires x in paths && InSubtree(x, src)
    requires |dst| <= |x| && InSubtree(x, dst) && Origin(x, src, dst) in paths && InSubtree(Origin(x, src, dst), src)
    requires !LexLess(x, Origin(x, src, dst))
    requires forall p | p in Parents(dst) :: p in paths
    ensures Spoils(DirTables(paths), src, dst)
  {
    DirTablesConsistent(paths);
    var view := View(DirTables(paths));
    hide Consistent, DirTables, View, MoveOutcome, IsMove, LexLess, InSubtree, Origin, LastSlash;
    ParentListed(view, paths, dst);
    LostPath(view, x, src, dst);
  }

  lemma SpoilsDownward(src: Path, dst: Path)
    requires src != [] && dst != [] && InSubtree(dst, src)
    ensures Spoils(DirTables([src, dst] + Parents(dst)), src, dst)
  {
    var paths := [src, dst] + Parents(dst);
    assert paths[0] == src && paths[1] == dst;
    assert Origin(dst, src, dst) == src;
    PrefixNotAfter(src, dst);
    hide Spoils, DirTables, LexLess, LastSlash;
    SpoilsBy(paths, dst, src, dst);
  }

  lemma ParentListed(view: map<Path, Entry>, paths: seq<Path>, dst: Path)
    requires forall p | p in paths :: p in view && view[p].row == DirRow(p)
    requires forall p | p in Parents(dst) :: p in paths
    ensures ParentOk(view, dst)
  {
    if LastSlash(dst) > 0 {
      assert dst[..LastSlash(dst)] in Parents(dst);
    }
  }

  lemma SpoilsUpward(src: Path, dst: Path)
    requires dst != [] && dst + [SLASH] <= src
    ensures exists t :: Spoils(t, src, dst)
  {
    var t := src[|dst| + 1..];
    var w := Filler(|t| + 1);
    var r, x := src + [SLASH] + t + [SLASH] + w, src + [SLASH] + w;
    UpwardOrigin(src, dst, t, w);
    UpwardOrder(src, t, r, x);
    var paths := [r, x] + Parents(dst);
    assert paths[0] == r && paths[1] == x;
    hide Spoils, DirTables, LexLess, LastSlash, InSubtree, Origin;
    SpoilsBy(paths, x, src, dst);
  }

  lemma UpwardOrder(src: Path, t: Path, r: Path, x: Path)
    requires r == src + [SLASH] + t + [SLASH] + Filler(|t| + 1) && x == src + [SLASH] + Filler(|t| + 1)
    ensures !LexLess(x, r)
  {
    var w := Filler(|t| + 1);
    FillerIsLast(t, w);
    assert src + [SLASH] + (t + [SLASH] + w) == r;
    LexPrefixed(src + [SLASH], t + [SLASH] + w, w);
    LexIrreflexive(r, x);
  }

  lemma UpwardOrigin(src: Path, dst: Path, t: Path, w: Path)
    requires dst + [SLASH] <= src && t == src[|dst| + 1..]
    ensures var r, x := src + [SLASH] + t + [SLASH] + w, src + [SLASH] + w;
      && |dst| <= |x| && InSubtree(x, dst) && InSubtree(x, src) && InSubtree(r, src) && Origin(x, src, dst) == r
  {
    var x := src + [SLASH] + w;
    assert src == dst + [SLASH] + t;
    assert x[|dst|..] == [SLASH] + t + [SLASH] + w;
    assert x[..|dst| + 1] == src[..|dst| + 1] == dst + [SLASH];
    assert x[..|src| + 1] == src + [SLASH];
    assert (src + [SLASH] + t + [SLASH] + w)[..|src| + 1] == src + [SLASH];
  }

  /**
   Disjointness is exactly what a caller must check: for any two non-empty paths, MovePath is a
   move on every manifest when neither path lies in the other's subtree, and otherwise there is a
   consistent manifest that it spoils.
   */
  lemma MoveIffDisjoint(src: Path, dst: Path)
    requires src != [] && dst != []
    ensures !Overlap(src, dst) ==>
      forall t, after | Consistent(t) && MoveOutcome(View(t), after, src, dst) :: IsMove(View(t), after, src, dst)
    ensures Overlap(src, dst) ==> exists t :: Spoils(t, src, dst)
  {
    if !Overlap(src, dst) {
      forall t, after | Consistent(t) && MoveOutcome(View(t), after, src, dst)
        ensures IsMove(View(t), after, src, dst)
      {
        var rows: seq<FileRow> :| MovesTo(View(t), after, rows, src, dst);
        MoveMeaning(View(t), after, rows, src, dst);
      }
    } else if InSubtree(dst, src) {
      SpoilsDownward(src, dst);
    } else {
      SpoilsUpward(src, dst);
    }
  }

  lemma PathsOfStep(rows: seq<FileRow>, i: nat)
    requires i < |rows|
    ensures PathsOf(rows[..i + 1]) == PathsOf(rows[..i]) + {rows[i].path}
  {
    assert rows[..i + 1] == rows[..i] + [rows[i]];
  }

  lemma {:induction false} AttachStuck(t: Tables, fid: int, refs: seq<ChunkRef>, i: nat)
    requires 0 < i <= |refs|
    requires Attach(t, fid, refs[..i]) == None
    ensures Attach(t, fid, refs) == None
    decreases |refs| - i
  {
    if i < |refs| {
      assert refs[..i + 1][..i] == refs[..i];
      AttachStuck(t, fid, refs, i + 1);
    } else {
      assert refs[..i] == refs;
    }
  }
}
