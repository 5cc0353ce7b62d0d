/**
 What a garbage collection removes: a collection that runs to its end leaves no chunk row without a
 file and no blob without a row, except those that a recovery point needs or the backend would not delete.
 */
module StoreCollect {
  import opened Sequences
  import opened Manifest
  import opened ManifestInvariants
  import opened Snapshot
  import opened StoreModel
  import opened StoreSafety
  import opened StoreView
  import opened StoreProgress

  // ------------------------------------------------------------ what happened

  /** The Meta objects that were stored when GC `t`, holding the Meta lock, last listed them. */
  ghost function ListedBackups(lim: Limits, run: seq<Action>, t: Tid): map<BlobName, MetaObject>
    requires Execute(lim, run).Some?
    decreases |run|
  {
    if run == [] then map[]
    else
      var before := run[..|run| - 1];
      if run[|run| - 1] == GcListBackups(t) then Execute(lim, before).value.backups
      else ListedBackups(lim, before, t)
  }

  /** The blobs that the backend has refused to delete since operation `t` began. */
  ghost function RefusedDrops(run: seq<Action>, t: Tid): set<BlobName>
    decreases |run|
  {
    if run == [] then {}
    else
      var before := run[..|run| - 1];
      match run[|run| - 1]
      case Begin(u, _) => if u == t then {} else RefusedDrops(before, t)
      case GcDropBlob(u, n, ok) =>
        if u == t && !ok then RefusedDrops(before, t) + {n} else RefusedDrops(before, t)
      case _ => RefusedDrops(before, t)
  }

  /** Operation `t` has failed since it began: a listing, a query, a deletion of a row or a recovery point's reading. */
  ghost predicate GaveUp(run: seq<Action>, t: Tid)
    decreases |run|
  {
    run != [] &&
    var before := run[..|run| - 1];
    match run[|run| - 1]
    case Begin(u, _) => u != t && GaveUp(before, t)
    case GcFail(u) => u == t || GaveUp(before, t)
    case _ => GaveUp(before, t)
  }

  // ------------------------------------------------------------ what may stay

  ghost predicate LinkedByFile(db: Tables, c: int) {
    exists k | k in db.links :: db.links[k] == c && k.file in db.files
  }

  ghost predicate NeededBy(backups: map<BlobName, MetaObject>, n: BlobName) {
    exists b | b in backups && backups[b].MetaSnapshot? :: n in SnapNames(backups[b].t)
  }

  ghost predicate LinkedBlob(db: Tables, n: BlobName) {
    exists c | c in db.chunks :: db.chunks[c].blobName == n && LinkedByFile(db, c)
  }

  ghost predicate RowsDue(db: Tables, dead: set<int>) {
    forall c | c in db.chunks :: c in dead || LinkedByFile(db, c)
  }

  ghost predicate BlobsDue(db: Tables, blobs: Backend, garbage: set<BlobName>) {
    forall n | n in blobs :: n in garbage || LinkedBlob(db, n)
  }

  ghost predicate BlobsLeft(db: Tables, blobs: Backend, garbage: set<BlobName>,
      seen: map<BlobName, MetaObject>, refused: set<BlobName>) {
    forall n | n in blobs :: n in garbage || n in refused || NeededBy(seen, n) || LinkedBlob(db, n)
  }

  // ---------------------------------------------------------------- invariant

  /** Whatever has to go is still planned for removal. */
  ghost predicate Thorough(w: World, gc: GcPhase, seen: map<BlobName, MetaObject>, refused: set<BlobName>) {
    match gc
    case GcRefs(listed) => w.blobs.Keys == listed
    case GcScan(listed, referenced) =>
      w.blobs.Keys == listed && forall c :: c in referenced <==> LinkedByFile(w.db, c)
    case GcWantMeta(g, d) => RowsDue(w.db, d) && BlobsDue(w.db, w.blobs, g)
    case GcListMeta(g, d) => RowsDue(w.db, d) && BlobsDue(w.db, w.blobs, g)
    case GcRead(g, d, todo, protected) =>
      && RowsDue(w.db, d) && BlobsDue(w.db, w.blobs, g)
      && seen == w.backups && (forall n | n in protected :: NeededBy(seen, n))
    case GcDropRows(g, d) => RowsDue(w.db, d) && BlobsLeft(w.db, w.blobs, g, seen, refused)
    case GcDropBlobs(g) => RowsDue(w.db, {}) && BlobsLeft(w.db, w.blobs, g, seen, refused)
    case _ => true
  }

  // ------------------------------------------------------------ other threads

  /** While a collection holds the write lock nobody else changes the manifest or the blobs. */
  ghost predicate Untouched(w: World, v: World, t: Tid) {
    && v.db == w.db && v.blobs == w.blobs
    && t in w.ops && t in v.ops && v.ops[t] == w.ops[t]
    && (HoldsMeta(w.ops[t]) ==> v.backups == w.backups)
  }

  ghost predicate Collecting(w: World, t: Tid) {
    IsGc(w, t) && HoldsWrite(w.ops[t])
  }

  lemma NoCallSteps(w: World, lim: Limits, a: Action, t: Tid)
    requires Safe(w) && Collecting(w, t)
    ensures !LookupEnabled(w, lim, a) && !UploadEnabled(w, lim, a)
  {
    GcExcludes(w, t);
    assert forall u | u in w.ops :: !MayStore(w.ops[u]);
    hide Safe, MayStore;
  }

  lemma OnlyBeginnings(w: World, lim: Limits, a: Action, t: Tid)
    requires Safe(w) && Collecting(w, t) && WriterEnabled(w, lim, a)
    ensures a.Begin? && a.t != t
  {
    GcExcludes(w, t);
    assert w.locks.maintWriter == Some(t) && w.locks.write == Some(t) by {
      assert HoldsMaintWrite(w.ops[t]);
    }
    assert forall u | u in w.ops && w.ops[u].Writer? && w.ops[u].kind == Put ::
      w.ops[u].phase == WantMaint by {
      assert forall u | u in w.ops && w.ops[u].Writer? :: !HoldsMaintRead(w.ops[u]);
    }
    hide Safe;
  }

  lemma OneCollector(w: World, a: Action, t: Tid)
    requires Safe(w) && Collecting(w, t) && GcEnabled(w, a)
    ensures a.t == t
  {
    assert w.locks.maintWriter == Some(t) && w.locks.write == Some(t) by {
      assert HoldsMaintWrite(w.ops[t]);
    }
    assert forall u | u in w.ops && HoldsMaintWrite(w.ops[u]) :: u == t;
    hide Safe;
  }

  /** A backup touches neither the manifest nor the blobs, and the recovery points only under the Meta lock. */
  ghost predicate BackupFrame(w: World, v: World, t: Tid) {
    && v.db == w.db && v.blobs == w.blobs && IsBackup(w, t)
    && (forall u | u in w.ops && u != t :: u in v.ops && v.ops[u] == w.ops[u])
    && (HoldsMeta(w.ops[t]) || v.backups == w.backups)
  }

  lemma CreatingFrame(w: World, lim: Limits, a: Action)
    requires BackupEnabled(w, lim, a)
    requires a.BkTakeMeta? || a.BkTakeSnapshot? || a.BkUploadOk? || a.BkUploadFails? || a.BkVerifyOk?
      || a.BkVerifyFails?
    ensures BackupFrame(w, ApplyBackup(w, lim, a), a.t)
  {
    hide ValidSnapshot, Oldest;
  }

  lemma PruningFrame(w: World, lim: Limits, a: Action)
    requires BackupEnabled(w, lim, a)
    requires a.BkDiscarded? || a.BkListOld? || a.BkDeleteOld? || a.BkDone? || a.BkFail? || a.BkRelease?
    ensures BackupFrame(w, ApplyBackup(w, lim, a), a.t)
  {
    hide ValidSnapshot, Oldest;
  }

  lemma FramedApart(w: World, v: World, t: Tid, u: Tid)
    requires LocksOk(w.locks, w.ops) && IsGc(w, t) && BackupFrame(w, v, u)
    ensures Untouched(w, v, t)
  {
    assert HoldsMeta(w.ops[t]) ==> w.locks.meta == Some(t);
    assert HoldsMeta(w.ops[u]) ==> w.locks.meta == Some(u);
    hide HoldsMeta, LocksOk;
  }

  lemma BackupsApart(w: World, lim: Limits, a: Action, t: Tid)
    requires Safe(w) && IsGc(w, t) && BackupEnabled(w, lim, a)
    ensures Untouched(w, ApplyBackup(w, lim, a), t)
  {
    assert LocksOk(w.locks, w.ops);
    if a.BkDiscarded? || a.BkListOld? || a.BkDeleteOld? || a.BkDone? || a.BkFail? || a.BkRelease? {
      PruningFrame(w, lim, a);
    } else {
      assert a.BkTakeMeta? || a.BkTakeSnapshot? || a.BkUploadOk? || a.BkUploadFails? || a.BkVerifyOk?
        || a.BkVerifyFails?;
      CreatingFrame(w, lim, a);
    }
    hide *;
    FramedApart(w, ApplyBackup(w, lim, a), t, a.t);
  }

  lemma OthersApart(w: World, lim: Limits, a: Action, t: Tid)
    requires Safe(w) && Collecting(w, t) && Enabled(w, lim, a) && !(GcEnabled(w, a) && a.t == t)
    ensures Untouched(w, Apply(w, lim, a), t)
  {
    NoCallSteps(w, lim, a, t);
    hide Safe, Untouched, LookupEnabled, UploadEnabled;
    if WriterEnabled(w, lim, a) {
      OnlyBeginnings(w, lim, a, t);
      Beginning(w, lim, a, t);
    } else if GcEnabled(w, a) {
      OneCollector(w, a, t);
    } else {
      BackupsApart(w, lim, a, t);
    }
  }

  lemma Beginning(w: World, lim: Limits, a: Action, t: Tid)
    requires IsGc(w, t) && WriterEnabled(w, lim, a) && a.Begin? && a.t != t
    ensures Untouched(w, ApplyWriter(w, lim, a), t)
  {
  }

  // ------------------------------------------------------------ GC's own steps

  lemma LinkedIffReferenced(db: Tables)
    requires ForeignKeys(db)
    ensures forall c :: c in LinkedIds(db.links) <==> LinkedByFile(db, c)
  {
  }

  /** What the two queries of the scan find: rows no file links to, and blobs no row names. */
  lemma ScanIsThorough(db: Tables, blobs: Backend, referenced: set<int>)
    requires forall c :: c in referenced <==> LinkedByFile(db, c)
    ensures RowsDue(db, DeadIds(db.chunks, referenced))
    ensures BlobsDue(db, blobs, Garbage(db.chunks, referenced, blobs.Keys))
  {
    hide LinkedByFile;
    var garbage := Garbage(db.chunks, referenced, blobs.Keys);
    forall n | n in blobs ensures n in garbage || LinkedBlob(db, n) {
      if n !in garbage {
        assert n in RowNames(db.chunks);
        var c :| c in db.chunks && db.chunks[c].blobName == n;
        assert c in referenced;
      }
    }
  }

  lemma PlanningThorough(w: World, a: Action, seen: map<BlobName, MetaObject>, refused: set<BlobName>)
    requires Safe(w) && GcEnabled(w, a)
    requires a.GcListBlobs? || a.GcReadRefs? || a.GcReadChunks? || a.GcTakeMeta?
    requires Thorough(w, w.ops[a.t].gc, seen, refused)
    ensures Thorough(ApplyGc(w, a), ApplyGc(w, a).ops[a.t].gc, seen, refused)
  {
    assert ForeignKeys(w.db);
    LinkedIffReferenced(w.db);
    if a.GcReadChunks? {
      var gc := w.ops[a.t].gc;
      ScanIsThorough(w.db, w.blobs, gc.referenced);
    }
    hide Safe, Garbage, DeadIds, LinkedIds, LinkedByFile, RowsDue, BlobsDue;
  }

  lemma ReadingThorough(w: World, a: Action, seen: map<BlobName, MetaObject>, refused: set<BlobName>)
    requires GcEnabled(w, a) && (a.GcListBackups? || a.GcReadBackup?)
    requires Thorough(w, w.ops[a.t].gc, seen, refused)
    ensures a.GcListBackups? ==> Thorough(ApplyGc(w, a), ApplyGc(w, a).ops[a.t].gc, w.backups, refused)
    ensures a.GcReadBackup? ==> Thorough(ApplyGc(w, a), ApplyGc(w, a).ops[a.t].gc, seen, refused)
  {
    hide RowsDue, BlobsDue, SnapNames;
  }

  lemma ProtectingThorough(w: World, a: Action, seen: map<BlobName, MetaObject>, refused: set<BlobName>)
    requires GcEnabled(w, a) && (a.GcProtect? || a.GcRowsDone?)
    requires Thorough(w, w.ops[a.t].gc, seen, refused)
    ensures Thorough(ApplyGc(w, a), ApplyGc(w, a).ops[a.t].gc, seen, refused)
  {
    hide LinkedBlob, LinkedByFile, NeededBy;
  }

  lemma LinksSurvive(db: Tables, id: int)
    requires forall k | k in db.links :: db.links[k] != id
    ensures DeleteChunks(db, {id}).links == db.links
    ensures forall c :: LinkedByFile(db, c) ==> LinkedByFile(DeleteChunks(db, {id}), c)
    ensures forall n :: LinkedBlob(db, n) ==> LinkedBlob(DeleteChunks(db, {id}), n)
  {
    var u := DeleteChunks(db, {id});
    assert u.links == db.links;
    forall c | LinkedByFile(db, c) ensures c != id && LinkedByFile(u, c) {
      var k :| k in db.links && db.links[k] == c && k.file in db.files;
      assert k in u.links;
    }
    forall n | LinkedBlob(db, n) ensures LinkedBlob(u, n) {
      var c :| c in db.chunks && db.chunks[c].blobName == n && LinkedByFile(db, c);
      assert c != id && c in u.chunks;
    }
  }

  lemma DropRowDue(db: Tables, blobs: Backend, g: set<BlobName>, d: set<int>, id: int,
      seen: map<BlobName, MetaObject>, refused: set<BlobName>)
    requires RowsDue(db, d) && BlobsLeft(db, blobs, g, seen, refused)
    requires forall k | k in db.links :: db.links[k] != id
    ensures RowsDue(DeleteChunks(db, {id}), d - {id}) && BlobsLeft(DeleteChunks(db, {id}), blobs, g, seen, refused)
  {
    LinksSurvive(db, id);
    hide LinkedByFile, LinkedBlob, NeededBy;
  }

  lemma DropRowThorough(w: World, a: Action, seen: map<BlobName, MetaObject>, refused: set<BlobName>)
    requires Safe(w) && GcEnabled(w, a) && a.GcDropRow?
    requires Thorough(w, w.ops[a.t].gc, seen, refused)
    ensures Thorough(ApplyGc(w, a), ApplyGc(w, a).ops[a.t].gc, seen, refused)
  {
    var gc := w.ops[a.t].gc;
    assert Sweep(w.db, gc.garbage, gc.dead) by {
      assert GcPhaseOk(gc, w.db, w.backups, w.ops);
    }
    hide Safe, RowsDue, BlobsLeft, DeleteChunks;
    DropRowDue(w.db, w.blobs, gc.garbage, gc.dead, a.id, seen, refused);
  }

  lemma DropBlobThorough(w: World, a: Action, seen: map<BlobName, MetaObject>, refused: set<BlobName>)
    requires GcEnabled(w, a) && a.GcDropBlob?
    requires Thorough(w, w.ops[a.t].gc, seen, refused)
    ensures Thorough(ApplyGc(w, a), ApplyGc(w, a).ops[a.t].gc, seen, if a.ok then refused else refused + {a.n})
  {
    hide LinkedByFile, LinkedBlob, NeededBy, RowsDue;
  }

  lemma OwnStepThorough(w: World, a: Action, seen: map<BlobName, MetaObject>, refused: set<BlobName>)
    requires Safe(w) && GcEnabled(w, a) && a.t in ApplyGc(w, a).ops
    requires Thorough(w, w.ops[a.t].gc, seen, refused)
    ensures ApplyGc(w, a).ops[a.t].Gc?
    ensures Thorough(ApplyGc(w, a), ApplyGc(w, a).ops[a.t].gc, if a.GcListBackups? then w.backups else seen,
      if a.GcDropBlob? && !a.ok then refused + {a.n} else refused)
  {
    if a.GcListBlobs? || a.GcReadRefs? || a.GcReadChunks? || a.GcTakeMeta? {
      hide *;
      PlanningThorough(w, a, seen, refused);
    } else if a.GcListBackups? || a.GcReadBackup? {
      hide *;
      ReadingThorough(w, a, seen, refused);
    } else if a.GcProtect? || a.GcRowsDone? {
      hide *;
      ProtectingThorough(w, a, seen, refused);
    } else if a.GcDropRow? {
      hide *;
      DropRowThorough(w, a, seen, refused);
    } else if a.GcDropBlob? {
      hide *;
      DropBlobThorough(w, a, seen, refused);
    } else {
      hide Safe;
    }
  }

  // ---------------------------------------------------------------- every run

  lemma Silent(w: World, gc: GcPhase, seen: map<BlobName, MetaObject>, refused: set<BlobName>)
    requires !HoldsWrite(Gc(gc)) || gc.GcList? || gc.GcUnlockWrite?
    ensures Thorough(w, gc, seen, refused)
  {
  }

  /** A step that is not GC `t`'s own leaves that GC's plan as it is. */
  ghost predicate PlanKept(before: map<Tid, Op>, after: map<Tid, Op>, t: Tid) {
    t in after && after[t].Gc? ==> after[t] == Gc(GcWantMaint) || (t in before && after[t] == before[t])
  }

  lemma CallsKeepPlan(w: World, v: World, t: Tid)
    requires CallStepShapes(w, v)
    ensures PlanKept(w.ops, v.ops, t)
  {
  }

  lemma WritersKeepPlan(w: World, lim: Limits, a: Action, t: Tid)
    requires WriterEnabled(w, lim, a)
    ensures PlanKept(w.ops, ApplyWriter(w, lim, a).ops, t)
  {
    hide Upsert, Delete, DeleteIfZero, Idle, WriterPending, RefsGot;
  }

  lemma CollectorsKeepPlan(w: World, a: Action, t: Tid)
    requires GcEnabled(w, a) && a.t != t
    ensures PlanKept(w.ops, ApplyGc(w, a).ops, t)
  {
    hide Garbage, DeadIds, SnapNames, LinkedIds, DeleteChunks;
  }

  lemma BackupsKeepPlan(w: World, lim: Limits, a: Action, t: Tid)
    requires BackupEnabled(w, lim, a)
    ensures PlanKept(w.ops, ApplyBackup(w, lim, a).ops, t)
  {
    hide ValidSnapshot, Oldest;
  }

  lemma OthersKeepPlan(w: World, lim: Limits, a: Action, t: Tid)
    requires Enabled(w, lim, a) && !(GcEnabled(w, a) && a.t == t)
    ensures PlanKept(w.ops, Apply(w, lim, a).ops, t)
  {
    hide PlanKept, CallStepShapes, LookupEnabled, UploadEnabled, WriterEnabled, GcEnabled, BackupEnabled,
      ApplyLookup, ApplyUpload, ApplyWriter, ApplyGc, ApplyBackup;
    if LookupEnabled(w, lim, a) {
      LookupShapes(w, lim, a);
      CallsKeepPlan(w, ApplyLookup(w, lim, a), t);
    } else if UploadEnabled(w, lim, a) {
      UploadShapes(w, lim, a);
      CallsKeepPlan(w, ApplyUpload(w, lim, a), t);
    } else if WriterEnabled(w, lim, a) {
      WritersKeepPlan(w, lim, a, t);
    } else if GcEnabled(w, a) {
      CollectorsKeepPlan(w, a, t);
    } else {
      BackupsKeepPlan(w, lim, a, t);
    }
  }

  lemma GcStepIs(w: World, lim: Limits, a: Action)
    requires GcEnabled(w, a)
    ensures Enabled(w, lim, a) && Apply(w, lim, a) == ApplyGc(w, a)
  {
    hide ApplyLookup, ApplyUpload, ApplyWriter, ApplyGc, ApplyBackup;
  }

  /** Before the scan and after the sweep nothing is planned. */
  lemma QuietStepThorough(w: World, a: Action, seen: map<BlobName, MetaObject>, refused: set<BlobName>)
    requires GcEnabled(w, a) && !HoldsWrite(w.ops[a.t]) && IsGc(ApplyGc(w, a), a.t)
    ensures Thorough(ApplyGc(w, a), ApplyGc(w, a).ops[a.t].gc, seen, refused)
  {
  }

  lemma UntouchedThorough(w: World, v: World, t: Tid, seen: map<BlobName, MetaObject>, refused: set<BlobName>)
    requires Collecting(w, t) && Untouched(w, v, t) && Thorough(w, w.ops[t].gc, seen, refused)
    ensures Thorough(v, v.ops[t].gc, seen, refused)
  {
    hide RowsDue, BlobsDue, BlobsLeft, NeededBy, LinkedByFile;
  }

  lemma OwnStep(w: World, lim: Limits, a: Action, seen: map<BlobName, MetaObject>, refused: set<BlobName>)
    requires Safe(w) && GcEnabled(w, a) && IsGc(ApplyGc(w, a), a.t)
    requires Thorough(w, w.ops[a.t].gc, seen, refused)
    ensures Enabled(w, lim, a) && Apply(w, lim, a) == ApplyGc(w, a)
    ensures var v := Apply(w, lim, a);
      Thorough(v, v.ops[a.t].gc, if a.GcListBackups? then w.backups else seen,
               if a.GcDropBlob? && !a.ok then refused + {a.n} else refused)
  {
    assert IsGc(w, a.t);
    GcStepIs(w, lim, a);
    hide Safe, Apply, Enabled, GcEnabled, ApplyGc, Thorough;
    if HoldsWrite(w.ops[a.t]) {
      OwnStepThorough(w, a, seen, refused);
    } else {
      QuietStepThorough(w, a, if a.GcListBackups? then w.backups else seen,
                        if a.GcDropBlob? && !a.ok then refused + {a.n} else refused);
    }
  }

  lemma OthersStep(w: World, lim: Limits, a: Action, t: Tid, seen: map<BlobName, MetaObject>, refused: set<BlobName>)
    requires Safe(w) && Enabled(w, lim, a) && IsGc(Apply(w, lim, a), t) && !(GcEnabled(w, a) && a.t == t)
    requires IsGc(w, t) ==> Thorough(w, w.ops[t].gc, seen, refused)
    ensures Thorough(Apply(w, lim, a), Apply(w, lim, a).ops[t].gc, seen, refused)
  {
    var v := Apply(w, lim, a);
    hide Safe, Apply, Enabled, GcEnabled, Thorough, Collecting, PlanKept, Untouched, HoldsWrite;
    OthersKeepPlan(w, lim, a, t);
    if Collecting(w, t) {
      OthersApart(w, lim, a, t);
      UntouchedThorough(w, v, t, seen, refused);
    } else {
      StillQuiet(w, v, t);
      Silent(v, v.ops[t].gc, seen, refused);
    }
  }

  lemma StillQuiet(w: World, v: World, t: Tid)
    requires PlanKept(w.ops, v.ops, t) && !Collecting(w, t) && IsGc(v, t)
    ensures !HoldsWrite(Gc(v.ops[t].gc))
  {
  }

  lemma BeginningStep(w: World, lim: Limits, a: Action, t: Tid, seen: map<BlobName, MetaObject>)
    requires Enabled(w, lim, a) && a.Begin? && a.t == t && IsGc(Apply(w, lim, a), t)
    ensures Thorough(Apply(w, lim, a), Apply(w, lim, a).ops[t].gc, seen, {})
  {
    assert t !in w.ops;
    OthersKeepPlan(w, lim, a, t);
    hide Apply, Enabled;
  }

  lemma NotItsStep(w: World, lim: Limits, a: Action, t: Tid)
    requires Enabled(w, lim, a) && !(GcEnabled(w, a) && a.t == t)
    ensures a != GcListBackups(t) && !(a.GcDropBlob? && a.t == t)
  {
  }

  lemma {:induction false} EveryCollection(lim: Limits, run: seq<Action>, t: Tid)
    requires Execute(lim, run).Some? && IsGc(Execute(lim, run).value, t)
    ensures var w := Execute(lim, run).value;
      Thorough(w, w.ops[t].gc, ListedBackups(lim, run, t), RefusedDrops(run, t))
    decreases |run|
  {
    hide Safe, Apply, Enabled, Thorough, ApplyGc;
    if run != [] {
      var before := run[..|run| - 1];
      var a := run[|run| - 1];
      var w := Execute(lim, before).value;
      EveryRunSafe(lim, before);
      if IsGc(w, t) {
        EveryCollection(lim, before, t);
      }
      var seen := ListedBackups(lim, before, t);
      if GcEnabled(w, a) && a.t == t {
        GcStepIs(w, lim, a);
        OwnStep(w, lim, a, seen, RefusedDrops(before, t));
      } else if a.Begin? && a.t == t {
        BeginningStep(w, lim, a, t, seen);
      } else {
        NotItsStep(w, lim, a, t);
        OthersStep(w, lim, a, t, seen, RefusedDrops(before, t));
      }
    }
  }

  // ----------------------------------------------------------------- theorems

  /** Nothing is left that should have gone. */
  ghost predicate AllCollected(w: World, seen: map<BlobName, MetaObject>, refused: set<BlobName>) {
    RowsDue(w.db, {}) && BlobsLeft(w.db, w.blobs, {}, seen, refused)
  }

  lemma DoneCollects(w: World, t: Tid, seen: map<BlobName, MetaObject>, refused: set<BlobName>)
    requires GcEnabled(w, GcDone(t)) && Thorough(w, w.ops[t].gc, seen, refused)
    ensures AllCollected(ApplyGc(w, GcDone(t)), seen, refused)
  {
    assert w.ops[t].gc == GcDropBlobs({});
    hide RowsDue, BlobsLeft;
  }

  lemma EmptyCollects(w: World, t: Tid, seen: map<BlobName, MetaObject>, refused: set<BlobName>)
    requires Safe(w) && GcEnabled(w, GcListBlobs(t)) && ApplyGc(w, GcListBlobs(t)).ops[t].gc.GcUnlockWrite?
    ensures AllCollected(ApplyGc(w, GcListBlobs(t)), seen, refused)
  {
    EmptyBackend(w);
    hide LinkedByFile, LinkedBlob, NeededBy, Safe;
  }

  /** Without blobs there are no chunk rows. */
  lemma EmptyBackend(w: World)
    requires Safe(w) && w.blobs == map[]
    ensures w.db.chunks == map[]
  {
    RowsStored(w.db.chunks, w.blobs);
    if w.db.chunks.Keys != {} {
      var c := Pick(w.db.chunks.Keys);
      assert false;
    }
  }

  lemma RowsStored(chunks: Chunks, blobs: Backend)
    requires RowsBacked(chunks, blobs)
    ensures forall c | c in chunks :: chunks[c].blobName in blobs
  {
    forall c | c in chunks ensures chunks[c].blobName in blobs {
      assert Backed(chunks[c], blobs);
    }
  }

  /** Only these steps bring a collection to its end. */
  lemma EndsBy(w: World, a: Action, t: Tid)
    requires GcEnabled(w, a) && a.t == t && IsGc(ApplyGc(w, a), t) && ApplyGc(w, a).ops[t].gc.GcUnlockWrite?
    ensures a == GcDone(t) || a == GcListBlobs(t) || a == GcFail(t)
  {
    hide Garbage, DeadIds, SnapNames, LinkedIds, DeleteChunks, HoldsWrite, HoldsMeta;
  }

  lemma EndedStep(w: World, lim: Limits, a: Action, t: Tid, seen: map<BlobName, MetaObject>, refused: set<BlobName>)
    requires Safe(w) && Enabled(w, lim, a) && IsGc(Apply(w, lim, a), t)
    requires Apply(w, lim, a).ops[t].gc.GcUnlockWrite? && a != GcFail(t)
    requires IsGc(w, t) ==> Thorough(w, w.ops[t].gc, seen, refused)
    requires IsGc(w, t) && w.ops[t].gc.GcUnlockWrite? ==> AllCollected(w, seen, refused)
    ensures AllCollected(Apply(w, lim, a), seen, refused)
    ensures !a.Begin? || a.t != t
    ensures a != GcListBackups(t) && !(a.GcDropBlob? && a.t == t)
  {
    var v := Apply(w, lim, a);
    if GcEnabled(w, a) && a.t == t {
      GcStepIs(w, lim, a);
      EndsBy(w, a, t);
      if a == GcDone(t) {
        DoneCollects(w, t, seen, refused);
      } else {
        EmptyCollects(w, t, seen, refused);
      }
    } else {
      hide Safe, Apply, Enabled, GcEnabled, Thorough, AllCollected, Untouched;
      NotItsStep(w, lim, a, t);
      OthersKeepPlan(w, lim, a, t);
      assert IsGc(w, t) && w.ops[t] == v.ops[t] && Collecting(w, t);
      NotBeginning(w, lim, a, t);
      OthersApart(w, lim, a, t);
      CollectedStays(w, v, t, seen, refused);
    }
  }

  lemma NotBeginning(w: World, lim: Limits, a: Action, t: Tid)
    requires Enabled(w, lim, a) && t in w.ops
    ensures !a.Begin? || a.t != t
  {
  }

  lemma CollectedStays(w: World, v: World, t: Tid, seen: map<BlobName, MetaObject>, refused: set<BlobName>)
    requires Untouched(w, v, t) && AllCollected(w, seen, refused)
    ensures AllCollected(v, seen, refused)
  {
    hide RowsDue, BlobsLeft, HoldsMeta;
  }

  lemma {:induction false} EveryEnd(lim: Limits, run: seq<Action>, t: Tid)
    requires Execute(lim, run).Some? && IsGc(Execute(lim, run).value, t)
    requires Execute(lim, run).value.ops[t].gc.GcUnlockWrite? && !GaveUp(run, t)
    ensures AllCollected(Execute(lim, run).value, ListedBackups(lim, run, t), RefusedDrops(run, t))
    decreases |run|
  {
    hide Safe, Apply, Enabled, Thorough, AllCollected;
    if run != [] {
      var before := run[..|run| - 1];
      var w := Execute(lim, before).value;
      var seen, refused := ListedBackups(lim, before, t), RefusedDrops(before, t);
      EveryRunSafe(lim, before);
      if IsGc(w, t) {
        EveryCollection(lim, before, t);
        if w.ops[t].gc.GcUnlockWrite? && !GaveUp(before, t) {
          EveryEnd(lim, before, t);
        }
      }
      if IsGc(w, t) && w.ops[t].gc.GcUnlockWrite? && GaveUp(before, t) {
        StillGivenUp(lim, run, t);
      }
      EndedStep(w, lim, run[|run| - 1], t, seen, refused);
    }
  }

  lemma StillGivenUp(lim: Limits, run: seq<Action>, t: Tid)
    requires run != [] && Execute(lim, run).Some?
    requires t in Execute(lim, run[..|run| - 1]).value.ops && GaveUp(run[..|run| - 1], t)
    ensures GaveUp(run, t)
  {
    NotBeginning(Execute(lim, run[..|run| - 1]).value, lim, run[|run| - 1], t);
  }

  /**
   When a collection that did not fail lets go of its locks, every chunk row is linked by a file and
   every stored blob belongs to a row, is needed by a recovery point the collection saw, or was
   refused deletion.
   */
  lemma GcComplete(lim: Limits, run: seq<Action>, t: Tid)
    requires Execute(lim, run + [GcReleaseWrite(t)]).Some? && !GaveUp(run, t)
    ensures Execute(lim, run).Some?
    ensures var w := Execute(lim, run + [GcReleaseWrite(t)]).value;
      && (forall c | c in w.db.chunks :: LinkedByFile(w.db, c))
      && (forall n | n in w.blobs ::
            || (exists c | c in w.db.chunks :: w.db.chunks[c].blobName == n)
            || NeededBy(ListedBackups(lim, run, t), n)
            || n in RefusedDrops(run, t))
  {
    var w := LastStep(lim, run, t);
    EveryEnd(lim, run, t);
    hide Execute, RefusedDrops, ListedBackups, LinkedByFile, NeededBy;
    forall n | n in w.blobs && n !in RefusedDrops(run, t) && !NeededBy(ListedBackups(lim, run, t), n)
      ensures exists c | c in w.db.chunks :: w.db.chunks[c].blobName == n
    {
      assert LinkedBlob(w.db, n);
    }
  }

  lemma LastStep(lim: Limits, run: seq<Action>, t: Tid) returns (w: World)
    requires Execute(lim, run + [GcReleaseWrite(t)]).Some?
    ensures Execute(lim, run) == Some(w) && IsGc(w, t) && w.ops[t].gc.GcUnlockWrite?
    ensures Execute(lim, run + [GcReleaseWrite(t)]).value.db == w.db
    ensures Execute(lim, run + [GcReleaseWrite(t)]).value.blobs == w.blobs
  {
    w := OneStep(lim, run, GcReleaseWrite(t));
    assert GcEnabled(w, GcReleaseWrite(t));
    GcStepIs(w, lim, GcReleaseWrite(t));
  }

  lemma {:induction false} NothingRefused(run: seq<Action>, t: Tid)
    requires forall a | a in run :: !(a.GcDropBlob? && a.t == t && !a.ok)
    ensures RefusedDrops(run, t) == {}
    decreases |run|
  {
    if run != [] {
      NothingRefused(run[..|run| - 1], t);
    }
  }

  /** Without recovery points and refusals it leaves the blobs of the files' chunks and no others. */
  lemma GcExact(lim: Limits, run: seq<Action>, t: Tid)
    requires Execute(lim, run + [GcReleaseWrite(t)]).Some? && !GaveUp(run, t)
    requires Execute(lim, run).Some? && ListedBackups(lim, run, t) == map[]
    requires forall a | a in run :: !(a.GcDropBlob? && a.t == t && !a.ok)
    ensures var w := Execute(lim, run + [GcReleaseWrite(t)]).value;
      && (forall c | c in w.db.chunks :: LinkedByFile(w.db, c))
      && w.blobs.Keys == RowNames(w.db.chunks)
  {
    GcComplete(lim, run, t);
    NothingRefused(run, t);
    EveryRunSafe(lim, run + [GcReleaseWrite(t)]);
    var w := Execute(lim, run + [GcReleaseWrite(t)]).value;
    hide Execute, RefusedDrops, ListedBackups, LinkedByFile, GaveUp;
    RowsStored(w.db.chunks, w.blobs);
    forall n | n in w.blobs ensures n in RowNames(w.db.chunks) {
    }
  }
}
