/**
 Two properties of every stored file, over whole runs: its row's size is the size of its chunks,
 which is what a Meta backup validates, and its chunks are cut at the same places, which is what
 reading at an offset relies on. Both hold of every reachable manifest whose writers wrote it so,
 whatever other writers, uploads, clean-ups and GC do in between.
 */
module StoreValidity {
  import opened Sequences
  import opened Manifest
  import opened ManifestInvariants
  import opened Snapshot
  import opened StoreModel
  import opened StoreSafety

  ghost predicate Writes(a: Action) {
    a.Commit? || a.EditRow?
  }

  /** The references a committing writer, or a path edit, stores with its row. */
  ghost function WrittenRefs(w: World, lim: Limits, a: Action): seq<ChunkRef>
    requires Writes(a) && WriterEnabled(w, lim, a)
  {
    if a.Commit? then RefsGot(w.ops[a.t]) else a.refs
  }

  // ------------------------------------------------------------- one step at a time

  /** What every step but a write does to the files: none appears, and their content stays. */
  ghost predicate Carries(before: Tables, after: Tables)
    requires UniquePaths(before.files) && UniquePaths(after.files)
  {
    RowsAgree(before.chunks, after.chunks) && Inherits(View(before), View(after))
  }

  lemma SameViewCarries(before: Tables, after: Tables)
    requires UniquePaths(before.files) && UniquePaths(after.files)
    requires RowsAgree(before.chunks, after.chunks)
    requires forall p | p in View(after) :: p in View(before) && View(after)[p] == View(before)[p]
    ensures Carries(before, after)
  {
    hide View;
    forall p | p in View(after) ensures Holds(View(before), View(after)[p]) {
      assert SameFile(View(before)[p], View(after)[p]);
    }
  }

  lemma InsertCarries(t: Tables, id: int, hash: Hash, size: int, blob: BlobName)
    requires Consistent(t) && Insert(t, id, hash, size, blob).Some?
    ensures var v := Insert(t, id, hash, size, blob).value;
      Consistent(v) && Carries(t, v)
  {
    InsertConsistent(t, id, hash, size, blob);
    var v := Insert(t, id, hash, size, blob).value;
    assert RowsAgree(t.chunks, v.chunks);
    hide Consistent, View, Insert;
    SameViewCarries(t, v);
  }

  lemma CleanupCarries(t: Tables, id: int)
    requires Consistent(t)
    ensures var v := DeleteIfZero(t, id); Consistent(v) && Carries(t, v)
  {
    DeleteIfZeroConsistent(t, id);
    CleanupRows(t, id);
    hide Consistent, View, DeleteIfZero;
    SameViewCarries(t, DeleteIfZero(t, id));
  }

  lemma DeleteCarries(t: Tables, path: Path)
    requires Consistent(t)
    ensures var v := Delete(t, path); Consistent(v) && Carries(t, v)
  {
    DeleteConsistent(t, path);
    DeletedRows(t, path);
    hide Consistent, View, Delete;
    SameViewCarries(t, Delete(t, path));
  }

  lemma DropCarries(t: Tables, g: set<BlobName>, dead: set<int>, id: int)
    requires Consistent(t) && Sweep(t, g, dead) && id in dead
    ensures var v := DeleteChunks(t, {id}); Consistent(v) && Carries(t, v)
  {
    assert RefsTo(t.links, id) == {};
    DeleteChunksConsistent(t, {id});
    var v := DeleteChunks(t, {id});
    assert RowsAgree(t.chunks, v.chunks);
    hide Consistent, View, DeleteChunks, Sweep;
    SameViewCarries(t, v);
  }

  /** The actions that change the manifest. */
  ghost predicate ChangesDb(a: Action) {
    a.InsertOk? || a.Cleanup? || a.Commit? || a.EditRow? || a.DeleteRow? || a.GcDropRow?
  }

  lemma LookupKeepsDb(w: World, lim: Limits, a: Action)
    requires LookupEnabled(w, lim, a)
    ensures ApplyLookup(w, lim, a).db == w.db && ApplyLookup(w, lim, a).issued == w.issued
  {
    hide HasHash;
  }

  lemma UploadKeepsDb(w: World, lim: Limits, a: Action)
    requires UploadEnabled(w, lim, a) && !a.InsertOk?
    ensures ApplyUpload(w, lim, a).db == w.db && ApplyUpload(w, lim, a).issued == w.issued
  {
    hide ApplyUpload;
    if a.DrawName? || a.NamingFails? || a.TakeGate? || a.UploadOk? || a.UploadFails? {
      NamingKeepsDb(w, lim, a);
    } else {
      ReportKeepsDb(w, lim, a);
    }
  }

  lemma NamingKeepsDb(w: World, lim: Limits, a: Action)
    requires UploadEnabled(w, lim, a)
    requires a.DrawName? || a.NamingFails? || a.TakeGate? || a.UploadOk? || a.UploadFails?
    ensures ApplyUpload(w, lim, a).db == w.db && ApplyUpload(w, lim, a).issued == w.issued
  {
    hide Insert, HasHash;
  }

  lemma ReportKeepsDb(w: World, lim: Limits, a: Action)
    requires UploadEnabled(w, lim, a) && !a.InsertOk?
    requires !a.DrawName? && !a.NamingFails? && !a.TakeGate? && !a.UploadOk? && !a.UploadFails?
    ensures ApplyUpload(w, lim, a).db == w.db && ApplyUpload(w, lim, a).issued == w.issued
  {
    hide Insert, HasHash;
  }

  lemma WriterKeepsDb(w: World, lim: Limits, a: Action)
    requires WriterEnabled(w, lim, a) && !ChangesDb(a)
    ensures ApplyWriter(w, lim, a).db == w.db
  {
    hide Upsert, Delete, DeleteIfZero;
  }

  lemma GcKeepsDb(w: World, a: Action)
    requires GcEnabled(w, a) && !a.GcDropRow?
    ensures ApplyGc(w, a).db == w.db
  {
    hide Garbage, DeadIds, SnapNames, LinkedIds, DeleteChunks;
  }

  lemma BackupKeepsDb(w: World, lim: Limits, a: Action)
    requires BackupEnabled(w, lim, a)
    ensures ApplyBackup(w, lim, a).db == w.db && ApplyBackup(w, lim, a).issued == w.issued
  {
    hide ValidSnapshot, Oldest;
  }

  lemma KeptDb(w: World, lim: Limits, a: Action)
    requires Enabled(w, lim, a) && !ChangesDb(a)
    ensures Apply(w, lim, a).db == w.db
  {
    hide LookupEnabled, UploadEnabled, WriterEnabled, GcEnabled, BackupEnabled,
      ApplyLookup, ApplyUpload, ApplyWriter, ApplyGc, ApplyBackup;
    if LookupEnabled(w, lim, a) {
      LookupKeepsDb(w, lim, a);
    } else if UploadEnabled(w, lim, a) {
      UploadKeepsDb(w, lim, a);
    } else if WriterEnabled(w, lim, a) {
      WriterKeepsDb(w, lim, a);
    } else if GcEnabled(w, a) {
      GcKeepsDb(w, a);
    } else {
      BackupKeepsDb(w, lim, a);
    }
  }

  /** The manifest after each action that changes it. */
  lemma ChangedDb(w: World, lim: Limits, a: Action)
    requires Enabled(w, lim, a) && ChangesDb(a)
    ensures var db := Apply(w, lim, a).db;
      && (a.InsertOk? ==> exists h, n, blob ::
            Insert(w.db, a.id, h, n, blob).Some? && db == Insert(w.db, a.id, h, n, blob).value)
      && (a.Cleanup? ==> db == DeleteIfZero(w.db, a.id))
      && (a.DeleteRow? ==> db == Delete(w.db, a.path))
      && (a.GcDropRow? ==> GcEnabled(w, a) && db == DeleteChunks(w.db, {a.id}))
  {
    hide Insert, Delete, DeleteIfZero, DeleteChunks, Upsert, RefsGot, AllGot, DeleteRows;
  }

  lemma WrittenDb(w: World, lim: Limits, a: Action)
    requires Enabled(w, lim, a) && Writes(a)
    ensures WriterEnabled(w, lim, a)
    ensures var u := Upsert(w.db, a.row, WrittenRefs(w, lim, a), a.fid);
      Apply(w, lim, a).db == if u.Some? then u.value else w.db
    ensures Ordered(WrittenRefs(w, lim, a)) && a.fid !in DeleteRows(w.db, a.row.path).files
  {
    hide Upsert, AllGot, DeleteRows;
  }

  lemma StepCarries(w: World, lim: Limits, a: Action)
    requires Safe(w) && Enabled(w, lim, a) && !Writes(a)
    ensures Consistent(w.db) && Consistent(Apply(w, lim, a).db) && Carries(w.db, Apply(w, lim, a).db)
  {
    assert Consistent(w.db);
    if a.GcDropRow? {
      ChangedDb(w, lim, a);
      DropStepCarries(w, a);
    } else if ChangesDb(a) {
      ChangedDb(w, lim, a);
      hide Apply, Enabled, Safe, Consistent, Carries, Insert, Delete, DeleteIfZero;
      if a.InsertOk? {
        var h, n, blob :| Insert(w.db, a.id, h, n, blob).Some?
          && Apply(w, lim, a).db == Insert(w.db, a.id, h, n, blob).value;
        InsertCarries(w.db, a.id, h, n, blob);
      } else if a.Cleanup? {
        CleanupCarries(w.db, a.id);
      } else {
        DeleteCarries(w.db, a.path);
      }
    } else {
      KeptDb(w, lim, a);
      hide Apply, Enabled, Safe, Consistent, View;
      SameViewCarries(w.db, w.db);
    }
  }

  lemma DropStepCarries(w: World, a: Action)
    requires Safe(w) && GcEnabled(w, a) && a.GcDropRow?
    ensures var v := DeleteChunks(w.db, {a.id}); Consistent(v) && Carries(w.db, v)
  {
    var gc := w.ops[a.t].gc;
    assert Consistent(w.db);
    assert Sweep(w.db, gc.garbage, gc.dead);
    DropCarries(w.db, gc.garbage, gc.dead, a.id);
  }

  // ----------------------------------------------------------- snapshots stay valid

  /** The action writes a row, and the transaction is not rolled back. */
  ghost predicate Commits(w: World, lim: Limits, a: Action) {
    Writes(a) && WriterEnabled(w, lim, a) && Upsert(w.db, a.row, WrittenRefs(w, lim, a), a.fid).Some?
  }

  /** The row written is a directory, a link, or has the size of the chunks it references. */
  ghost predicate HonestStep(w: World, lim: Limits, a: Action) {
    Commits(w, lim, a) ==>
      a.row.isDir || a.row.isSymlink || a.row.size == RefSizes(w.db.chunks, WrittenRefs(w, lim, a))
  }

  ghost predicate HonestRun(lim: Limits, run: seq<Action>)
    requires Execute(lim, run).Some?
    decreases |run|
  {
    run != [] ==>
      HonestRun(lim, run[..|run| - 1]) && HonestStep(Execute(lim, run[..|run| - 1]).value, lim, run[|run| - 1])
  }

  /** A write keeps the snapshot valid exactly when it is honest. */
  lemma WriteValid(w: World, lim: Limits, a: Action)
    requires Safe(w) && Enabled(w, lim, a) && Writes(a) && ValidSnapshot(w.db)
    ensures ValidSnapshot(Apply(w, lim, a).db) <==> HonestStep(w, lim, a)
  {
    assert Consistent(w.db);
    WrittenDb(w, lim, a);
    hide Safe, Enabled, Apply, ValidSnapshot, Upsert, WrittenRefs, DeleteRows;
    if Upsert(w.db, a.row, WrittenRefs(w, lim, a), a.fid).Some? {
      UpsertValid(w.db, a.row, WrittenRefs(w, lim, a), a.fid);
    }
  }

  lemma StepValid(w: World, lim: Limits, a: Action)
    requires Safe(w) && Enabled(w, lim, a) && HonestStep(w, lim, a) && ValidSnapshot(w.db)
    ensures ValidSnapshot(Apply(w, lim, a).db)
  {
    hide Enabled, Apply, ValidSnapshot, HonestStep;
    if Writes(a) {
      WriteValid(w, lim, a);
    } else {
      StepCarries(w, lim, a);
      hide Safe;
      StillValid(w.db, Apply(w, lim, a).db);
    }
  }

  /**
   In every run whose writers commit rows of the right size, the manifest passes ValidateSnapshot
   after every step: no upload, clean-up, deletion or GC makes the next Meta backup fail.
   */
  lemma {:induction false} EveryHonestRunValid(lim: Limits, run: seq<Action>)
    requires Execute(lim, run).Some? && HonestRun(lim, run)
    ensures ValidSnapshot(Execute(lim, run).value.db)
    decreases |run|
  {
    hide Safe, Apply, Enabled, HonestStep, ValidSnapshot;
    if run == [] {
      EmptyValid();
    } else {
      EveryHonestRunValid(lim, run[..|run| - 1]);
      EveryRunSafe(lim, run[..|run| - 1]);
      StepValid(Execute(lim, run[..|run| - 1]).value, lim, run[|run| - 1]);
    }
  }

  lemma EmptyValid()
    ensures ValidSnapshot(EmptyTables)
  {
  }

  // ------------------------------------------------------------- the chunk layout

  /** A regular file's chunks are all n bytes long, the last one perhaps shorter. */
  ghost predicate LaidOut(n: nat, chunks: Chunks, e: Entry) {
    e.row.isDir || e.row.isSymlink || (Contiguous(e.refs) && Regular(Pieces(chunks, Ids(e.refs)), n))
  }

  ghost predicate AllLaidOut(n: nat, t: Tables) {
    UniquePaths(t.files) && forall p | p in View(t) :: LaidOut(n, t.chunks, View(t)[p])
  }

  lemma PiecesAgree(a: Chunks, b: Chunks, refs: map<int, int>)
    requires RowsAgree(a, b) && NamesOnly(refs, a) && NamesOnly(refs, b)
    ensures Pieces(a, Ids(refs)) == Pieces(b, Ids(refs))
  {
  }

  lemma LaidOutStays(n: nat, a: Chunks, b: Chunks, e: Entry, f: Entry)
    requires RowsAgree(a, b) && NamesOnly(e.refs, a) && NamesOnly(e.refs, b)
    requires LaidOut(n, a, e) && SameFile(e, f)
    ensures LaidOut(n, b, f)
  {
    PiecesAgree(a, b, e.refs);
    hide Regular, Pieces, Ids;
  }

  lemma CarriedLayout(n: nat, t: Tables, v: Tables)
    requires Consistent(t) && Consistent(v) && Carries(t, v) && AllLaidOut(n, t)
    ensures AllLaidOut(n, v)
  {
    SizeCheckIsView(t);
    SizeCheckIsView(v);
    hide Consistent, View, LaidOut, NamesOnly, RowsAgree, SameFile, SizeCheck;
    forall p | p in View(v) ensures LaidOut(n, v.chunks, View(v)[p]) {
      assert Holds(View(t), View(v)[p]);
      var q :| q in View(t) && SameFile(View(t)[q], View(v)[p]);
      SameRefsNamed(View(t)[q], View(v)[p], v.chunks);
      LaidOutStays(n, t.chunks, v.chunks, View(t)[q], View(v)[p]);
    }
  }

  lemma SameRefsNamed(e: Entry, f: Entry, chunks: Chunks)
    requires SameFile(e, f) && NamesOnly(f.refs, chunks)
    ensures NamesOnly(e.refs, chunks)
  {
  }

  /** The row written is a directory, a link, or references chunks in the regular layout. */
  ghost predicate RegularStep(n: nat, w: World, lim: Limits, a: Action) {
    Commits(w, lim, a) ==> LaidOut(n, w.db.chunks, Entry(a.row, RefMap(WrittenRefs(w, lim, a))))
  }

  ghost predicate RegularRun(n: nat, lim: Limits, run: seq<Action>)
    requires Execute(lim, run).Some?
    decreases |run|
  {
    run != [] ==>
      RegularRun(n, lim, run[..|run| - 1]) && RegularStep(n, Execute(lim, run[..|run| - 1]).value, lim, run[|run| - 1])
  }

  lemma WrittenLayout(n: nat, t: Tables, row: FileRow, refs: seq<ChunkRef>, fid: int)
    requires Consistent(t) && AllLaidOut(n, t) && Ordered(refs)
    requires fid !in DeleteRows(t, row.path).files && Upsert(t, row, refs, fid).Some?
    requires LaidOut(n, t.chunks, Entry(row, RefMap(refs)))
    ensures AllLaidOut(n, Upsert(t, row, refs, fid).value)
  {
    var v := Upsert(t, row, refs, fid).value;
    UpsertConsistent(t, row, refs, fid);
    UpsertView(t, row, refs, fid);
    UpsertRows(t, row, refs, fid);
    UpsertCommits(t, row, refs, fid);
    SizeCheckIsView(t);
    SizeCheckIsView(v);
    PresentNamed(t.chunks, refs);
    hide Upsert, Consistent, View, LaidOut, NamesOnly, SizeCheck, DeleteRows, RefMap, Ordered, AllPresent;
    var e := Entry(row, RefMap(refs));
    forall p | p in View(v) ensures LaidOut(n, v.chunks, View(v)[p]) {
      var was := if p == row.path then e else View(t)[p];
      assert was == View(v)[p];
      LaidOutStays(n, t.chunks, v.chunks, was, View(v)[p]);
    }
  }

  lemma PresentNamed(chunks: Chunks, refs: seq<ChunkRef>)
    requires Ordered(refs) && AllPresent(chunks, refs)
    ensures NamesOnly(RefMap(refs), chunks)
  {
    RefMapContiguous(refs);
  }

  lemma WriteLayout(n: nat, w: World, lim: Limits, a: Action)
    requires Safe(w) && Enabled(w, lim, a) && Writes(a) && RegularStep(n, w, lim, a) && AllLaidOut(n, w.db)
    ensures AllLaidOut(n, Apply(w, lim, a).db)
  {
    assert Consistent(w.db);
    WrittenDb(w, lim, a);
    hide Safe, Enabled, Apply, AllLaidOut, Upsert, WrittenRefs, DeleteRows, Consistent, LaidOut;
    if Upsert(w.db, a.row, WrittenRefs(w, lim, a), a.fid).Some? {
      WrittenLayout(n, w.db, a.row, WrittenRefs(w, lim, a), a.fid);
    }
  }

  lemma StepLayout(n: nat, w: World, lim: Limits, a: Action)
    requires Safe(w) && Enabled(w, lim, a) && RegularStep(n, w, lim, a) && AllLaidOut(n, w.db)
    ensures AllLaidOut(n, Apply(w, lim, a).db)
  {
    hide Safe, Apply, Enabled, RegularStep, AllLaidOut;
    if Writes(a) {
      WriteLayout(n, w, lim, a);
    } else {
      StepCarries(w, lim, a);
      CarriedLayout(n, w.db, Apply(w, lim, a).db);
    }
  }

  lemma EmptyLaidOut(n: nat)
    ensures AllLaidOut(n, EmptyTables)
  {
  }

  /**
   In every run whose writers commit regular layouts, every stored file has one: FileReader and
   the rsync basis reader find the chunk of an offset by division.
   */
  lemma {:induction false} EveryRegularRunLaidOut(n: nat, lim: Limits, run: seq<Action>)
    requires Execute(lim, run).Some? && RegularRun(n, lim, run)
    ensures AllLaidOut(n, Execute(lim, run).value.db)
    decreases |run|
  {
    hide Safe, Apply, Enabled, RegularStep, AllLaidOut;
    if run == [] {
      EmptyLaidOut(n);
    } else {
      EveryRegularRunLaidOut(n, lim, run[..|run| - 1]);
      EveryRunSafe(lim, run[..|run| - 1]);
      StepLayout(n, Execute(lim, run[..|run| - 1]).value, lim, run[|run| - 1]);
    }
  }
}
