/**
 What readers see of the running store: commits, edits and deletions change the file rows exactly as
 written, and no other step of any thread changes them at all.
 */
module StoreView {
  import opened Sequences
  import opened Manifest
  import opened ManifestInvariants
  import opened Paths
  import opened Snapshot
  import opened StoreModel
  import opened StoreSafety

  ghost function Written(view: map<Path, Entry>, chunks: Chunks, row: FileRow, refs: seq<ChunkRef>): map<Path, Entry> {
    if AllPresent(chunks, refs) then view[row.path := Entry(row, RefMap(refs))] else view
  }

  lemma WriteSeen(t: Tables, row: FileRow, refs: seq<ChunkRef>, fid: int)
    requires Consistent(t) && Ordered(refs) && fid !in DeleteRows(t, row.path).files
    ensures var u := Upsert(t, row, refs, fid);
      var after := if u.Some? then u.value else t;
      Consistent(after) && View(after) == Written(View(t), t.chunks, row, refs)
  {
    UpsertCommits(t, row, refs, fid);
    if Upsert(t, row, refs, fid).Some? {
      UpsertConsistent(t, row, refs, fid);
      UpsertView(t, row, refs, fid);
    }
  }

  // ------------------------------------------------------- steps that show nothing

  lemma LookupSeen(w: World, lim: Limits, a: Action)
    requires LookupEnabled(w, lim, a)
    ensures ApplyLookup(w, lim, a).db == w.db
  {
    hide HasHash, HashOf;
  }

  lemma NamingSeen(w: World, lim: Limits, a: Action)
    requires UploadEnabled(w, lim, a) && BeforeInsert(a)
    ensures ApplyNaming(w, lim, a).db == w.db
  {
    hide Insert, HasHash, HashOf;
  }

  lemma ReportSeen(w: World, lim: Limits, a: Action)
    requires UploadEnabled(w, lim, a) && !BeforeInsert(a) && !a.InsertOk?
    ensures ApplyReport(w, lim, a).db == w.db
  {
    hide Insert, HasHash, HashOf;
  }

  lemma UploadSeen(w: World, lim: Limits, a: Action)
    requires UploadEnabled(w, lim, a) && !a.InsertOk?
    ensures ApplyUpload(w, lim, a).db == w.db
  {
    hide UploadEnabled, ApplyNaming, ApplyReport, BeforeInsert;
    if BeforeInsert(a) {
      NamingSeen(w, lim, a);
    } else {
      ReportSeen(w, lim, a);
    }
  }

  lemma InsertSeen(w: World, lim: Limits, a: Action)
    requires UploadEnabled(w, lim, a) && a.InsertOk? && Consistent(w.db)
    ensures var v := ApplyUpload(w, lim, a); Consistent(v.db) && View(v.db) == View(w.db)
  {
    var call := w.pool.calls[a.c];
    InsertConsistent(w.db, a.id, HashOf(call), |call.data|, call.pc.blob);
    hide Consistent, Insert, View;
  }

  lemma PlanningSeen(w: World, a: Action)
    requires GcEnabled(w, a) && !a.GcDropRow?
    ensures ApplyGc(w, a).db == w.db
  {
    hide Garbage, DeadIds, SnapNames, LinkedIds;
  }

  lemma DropRowSeen(w: World, a: Action)
    requires Safe(w) && GcEnabled(w, a) && a.GcDropRow?
    ensures var v := ApplyGc(w, a); Consistent(v.db) && View(v.db) == View(w.db)
  {
    var gc := w.ops[a.t].gc;
    assert Sweep(w.db, gc.garbage, gc.dead) by {
      assert GcPhaseOk(gc, w.db, w.backups, w.ops);
    }
    assert forall k | k in w.db.links :: w.db.links[k] != a.id;
    assert RefsTo(w.db.links, a.id) == {};
    DeleteChunksConsistent(w.db, {a.id});
    assert ApplyGc(w, a).db == DeleteChunks(w.db, {a.id});
    hide *;
  }

  lemma BackupSeen(w: World, lim: Limits, a: Action)
    requires BackupEnabled(w, lim, a)
    ensures ApplyBackup(w, lim, a).db == w.db
  {
    hide ValidSnapshot, Oldest;
  }

  lemma WriterSeen(w: World, lim: Limits, a: Action)
    requires WriterEnabled(w, lim, a) && !a.Cleanup? && !a.Commit? && !a.EditRow? && !a.DeleteRow?
    ensures ApplyWriter(w, lim, a).db == w.db
  {
    hide Idle, WriterPending, RefsGot;
  }

  ghost predicate ShowsNothing(a: Action) {
    !a.Commit? && !a.EditRow? && !a.DeleteRow?
  }

  lemma QuietlySeen(w: World, lim: Limits, a: Action)
    requires Safe(w) && Enabled(w, lim, a) && ShowsNothing(a)
    ensures Consistent(Apply(w, lim, a).db) && View(Apply(w, lim, a).db) == View(w.db)
  {
    assert Consistent(w.db);
    hide Safe, Consistent, View, LookupEnabled, UploadEnabled, WriterEnabled, GcEnabled, BackupEnabled,
      ApplyLookup, ApplyUpload, ApplyWriter, ApplyGc, ApplyBackup;
    if LookupEnabled(w, lim, a) {
      LookupSeen(w, lim, a);
    } else if UploadEnabled(w, lim, a) {
      if a.InsertOk? {
        InsertSeen(w, lim, a);
      } else {
        UploadSeen(w, lim, a);
      }
    } else if WriterEnabled(w, lim, a) {
      if a.Cleanup? {
        CleanupSeen(w, lim, a);
      } else {
        WriterSeen(w, lim, a);
      }
    } else if GcEnabled(w, a) {
      if a.GcDropRow? {
        DropRowSeen(w, a);
      } else {
        PlanningSeen(w, a);
      }
    } else {
      BackupSeen(w, lim, a);
    }
  }

  lemma CleanupSeen(w: World, lim: Limits, a: Action)
    requires WriterEnabled(w, lim, a) && a.Cleanup? && Consistent(w.db)
    ensures var v := ApplyWriter(w, lim, a); Consistent(v.db) && View(v.db) == View(w.db)
  {
    DeleteIfZeroConsistent(w.db, a.id);
    hide Consistent, View, DeleteIfZero;
  }

  // ---------------------------------------------------------- steps that are seen

  lemma CommitSeen(w: World, lim: Limits, a: Action)
    requires Consistent(w.db) && WriterEnabled(w, lim, a) && a.Commit?
    ensures var v := ApplyWriter(w, lim, a);
      Consistent(v.db) && View(v.db) == Written(View(w.db), w.db.chunks, a.row, RefsGot(w.ops[a.t]))
  {
    assert Ordered(RefsGot(w.ops[a.t]));
    WriteSeen(w.db, a.row, RefsGot(w.ops[a.t]), a.fid);
    hide Consistent, View, Upsert, Written, RefsGot, Ordered, Idle;
  }

  lemma EditSeen(w: World, lim: Limits, a: Action)
    requires Consistent(w.db) && WriterEnabled(w, lim, a) && a.EditRow?
    ensures var v := ApplyWriter(w, lim, a);
      Consistent(v.db) && View(v.db) == Written(View(w.db), w.db.chunks, a.row, a.refs)
  {
    WriteSeen(w.db, a.row, a.refs, a.fid);
    hide Consistent, View, Upsert, Written, Ordered, Idle;
  }

  lemma DeleteSeen(w: World, lim: Limits, a: Action)
    requires Consistent(w.db) && WriterEnabled(w, lim, a) && a.DeleteRow?
    ensures var v := ApplyWriter(w, lim, a); Consistent(v.db) && View(v.db) == View(w.db) - {a.path}
  {
    DeleteConsistent(w.db, a.path);
    hide Consistent, View, Delete, Idle;
  }

  lemma WriterStepIs(w: World, lim: Limits, a: Action)
    requires Enabled(w, lim, a) && !ShowsNothing(a)
    ensures WriterEnabled(w, lim, a) && Apply(w, lim, a) == ApplyWriter(w, lim, a)
  {
    hide ApplyLookup, ApplyUpload, ApplyWriter, ApplyGc, ApplyBackup;
  }

  // --------------------------------------------------------------------- theorem

  /**
   In every run, a commit puts its row and the collected chunks at its path, an edit its row and
   references, both only if all those chunks still have rows; a deletion removes its path; and
   whatever else any thread does, uploads, clean-up, GC and backups, readers see what they saw.
   */
  lemma ReadersSee(lim: Limits, run: seq<Action>, a: Action)
    requires Execute(lim, run + [a]).Some?
    ensures Execute(lim, run).Some? && Enabled(Execute(lim, run).value, lim, a)
    ensures var w := Execute(lim, run).value;
      var v := Execute(lim, run + [a]).value;
      && UniquePaths(w.db.files) && UniquePaths(v.db.files)
      && (a.Commit? ==> View(v.db) == Written(View(w.db), w.db.chunks, a.row, RefsGot(w.ops[a.t])))
      && (a.EditRow? ==> View(v.db) == Written(View(w.db), w.db.chunks, a.row, a.refs))
      && (a.DeleteRow? ==> View(v.db) == View(w.db) - {a.path})
      && (!a.Commit? && !a.EditRow? && !a.DeleteRow? ==> View(v.db) == View(w.db))
  {
    var w := OneStep(lim, run, a);
    EveryRunSafe(lim, run);
    assert Consistent(w.db);
    CollectedIs(w, lim, a);
    hide Execute, Safe, View, RefsGot, Written, Enabled, Apply, ApplyWriter, WriterEnabled;
    if ShowsNothing(a) {
      QuietlySeen(w, lim, a);
    } else {
      WriterStepIs(w, lim, a);
      if a.Commit? {
        CommitSeen(w, lim, a);
      } else if a.EditRow? {
        EditSeen(w, lim, a);
      } else {
        DeleteSeen(w, lim, a);
      }
    }
  }

  lemma CollectedIs(w: World, lim: Limits, a: Action)
    requires Enabled(w, lim, a)
    ensures a.Commit? ==> a.t in w.ops && w.ops[a.t].Writer? && AllGot(w.ops[a.t])
  {
  }

  lemma OneStep(lim: Limits, run: seq<Action>, a: Action) returns (w: World)
    requires Execute(lim, run + [a]).Some?
    ensures Execute(lim, run) == Some(w) && Enabled(w, lim, a)
    ensures Execute(lim, run + [a]) == Some(Apply(w, lim, a))
  {
    var all := run + [a];
    assert all[..|all| - 1] == run && all[|all| - 1] == a;
    w := Execute(lim, run).value;
    hide Apply, Enabled;
  }

  /** The clean-up of a failed upload removes a chunk row exactly when no file links it, and touches no other. */
  lemma CleanupRemoves(lim: Limits, run: seq<Action>, t: Tid, id: int)
    requires Execute(lim, run + [Cleanup(t, id)]).Some?
    ensures Execute(lim, run).Some?
    ensures var w := Execute(lim, run).value;
      var v := Execute(lim, run + [Cleanup(t, id)]).value;
      && (id in v.db.chunks <==> id in w.db.chunks && Linked(w.db.links, id))
      && v.db.chunks - {id} == w.db.chunks - {id} && v.db.links == w.db.links
  {
    var w := OneStep(lim, run, Cleanup(t, id));
    EveryRunSafe(lim, run);
    assert Consistent(w.db);
    hide Execute, Safe, Consistent;
    CleanupIs(w, lim, t, id);
    DeleteIfZeroConsistent(w.db, id);
  }

  lemma CleanupIs(w: World, lim: Limits, t: Tid, id: int)
    requires Enabled(w, lim, Cleanup(t, id))
    ensures Apply(w, lim, Cleanup(t, id)).db == DeleteIfZero(w.db, id)
  {
  }
}
