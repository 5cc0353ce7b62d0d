/** What the store invariant means: live files read back, listed recovery points restore in full. */
module StoreRecovery {
  import opened Sequences
  import opened Manifest
  import opened ManifestInvariants
  import opened Snapshot
  import opened StoreModel
  import opened StoreSafety

  /** Only validated snapshots are ever uploaded. */
  ghost predicate SnapshotsValid(backups: map<BlobName, MetaObject>, ops: map<Tid, Op>) {
    && (forall b | b in backups && backups[b].MetaSnapshot? :: ValidSnapshot(backups[b].t))
    && (forall t | Pending(ops, t) :: ValidSnapshot(ops[t].bk.snap))
  }

  lemma LookingBackups(w: World, lim: Limits, a: Action)
    requires LookupEnabled(w, lim, a)
    requires a.StartCall? || a.TakeSlot? || a.LookupHit? || a.LookupMiss?
    ensures var v := ApplyLookup(w, lim, a); v.backups == w.backups && AllSparedKept(w.ops, v.ops)
  {
    hide Upsert, Delete, DeleteIfZero, DeleteChunks, Insert, Garbage, DeadIds, SnapNames, LinkedIds;
  }

  lemma JoiningBackups(w: World, lim: Limits, a: Action)
    requires LookupEnabled(w, lim, a)
    requires a.CancelCall? || a.JoinFlight? || a.OpenFlight? || a.WakeUp?
    ensures var v := ApplyLookup(w, lim, a); v.backups == w.backups && AllSparedKept(w.ops, v.ops)
  {
    hide Upsert, Delete, DeleteIfZero, DeleteChunks, Insert, Garbage, DeadIds, SnapNames, LinkedIds;
  }

  lemma LookupBackups(w: World, lim: Limits, a: Action)
    requires LookupEnabled(w, lim, a)
    ensures var v := ApplyLookup(w, lim, a); v.backups == w.backups && AllSparedKept(w.ops, v.ops)
  {
    hide ApplyLookup, AllSparedKept;
    if a.StartCall? || a.TakeSlot? || a.LookupHit? || a.LookupMiss? {
      LookingBackups(w, lim, a);
    } else {
      JoiningBackups(w, lim, a);
    }
  }

  lemma SendingBackups(w: World, lim: Limits, a: Action)
    requires UploadEnabled(w, lim, a)
    requires a.DrawName? || a.NamingFails? || a.TakeGate? || a.UploadOk?
    ensures var v := ApplyUpload(w, lim, a); v.backups == w.backups && AllSparedKept(w.ops, v.ops)
  {
    hide Upsert, Delete, DeleteIfZero, DeleteChunks, Insert, Garbage, DeadIds, SnapNames, LinkedIds;
  }

  lemma InsertingBackups(w: World, lim: Limits, a: Action)
    requires UploadEnabled(w, lim, a)
    requires a.UploadFails? || a.InsertOk? || a.InsertFails? || a.RecheckHit?
    ensures var v := ApplyUpload(w, lim, a); v.backups == w.backups && AllSparedKept(w.ops, v.ops)
  {
    hide Upsert, Delete, DeleteIfZero, DeleteChunks, Insert, Garbage, DeadIds, SnapNames, LinkedIds;
  }

  lemma SettlingBackups(w: World, lim: Limits, a: Action)
    requires UploadEnabled(w, lim, a)
    requires a.RecheckMiss? || a.Discard? || a.Unregister?
    ensures var v := ApplyUpload(w, lim, a); v.backups == w.backups && AllSparedKept(w.ops, v.ops)
  {
    hide Upsert, Delete, DeleteIfZero, DeleteChunks, Insert, Garbage, DeadIds, SnapNames, LinkedIds;
  }

  lemma ReturningBackups(w: World, lim: Limits, a: Action)
    requires UploadEnabled(w, lim, a)
    requires a.Signal? || a.ReleaseSlot? || a.Collect?
    ensures var v := ApplyUpload(w, lim, a); v.backups == w.backups && AllSparedKept(w.ops, v.ops)
  {
    hide Upsert, Delete, DeleteIfZero, DeleteChunks, Insert, Garbage, DeadIds, SnapNames, LinkedIds;
  }

  lemma UploadBackups(w: World, lim: Limits, a: Action)
    requires UploadEnabled(w, lim, a)
    ensures var v := ApplyUpload(w, lim, a); v.backups == w.backups && AllSparedKept(w.ops, v.ops)
  {
    hide ApplyUpload, AllSparedKept;
    if a.DrawName? || a.NamingFails? || a.TakeGate? || a.UploadOk? {
      SendingBackups(w, lim, a);
    } else if a.UploadFails? || a.InsertOk? || a.InsertFails? || a.RecheckHit? {
      InsertingBackups(w, lim, a);
    } else if a.RecheckMiss? || a.Discard? || a.Unregister? {
      SettlingBackups(w, lim, a);
    } else {
      ReturningBackups(w, lim, a);
    }
  }

  lemma LockingBackups(w: World, lim: Limits, a: Action)
    requires WriterEnabled(w, lim, a)
    requires a.Begin? || a.TakeMaintRead? || a.WantWriteLock? || a.TakeWrite?
    ensures var v := ApplyWriter(w, lim, a); v.backups == w.backups && AllSparedKept(w.ops, v.ops)
  {
    hide Upsert, Delete, DeleteIfZero, DeleteChunks, Insert, Garbage, DeadIds, SnapNames, LinkedIds;
  }

  lemma EditingBackups(w: World, lim: Limits, a: Action)
    requires WriterEnabled(w, lim, a)
    requires a.Cleanup? || a.Commit? || a.EditRow? || a.DeleteRow?
    ensures var v := ApplyWriter(w, lim, a); v.backups == w.backups && AllSparedKept(w.ops, v.ops)
  {
    hide Upsert, Delete, DeleteIfZero, DeleteChunks, Insert, Garbage, DeadIds, SnapNames, LinkedIds;
  }

  lemma LeavingBackups(w: World, lim: Limits, a: Action)
    requires WriterEnabled(w, lim, a)
    requires a.ForgetFile? || a.Unlock? || a.Leave?
    ensures var v := ApplyWriter(w, lim, a); v.backups == w.backups && AllSparedKept(w.ops, v.ops)
  {
    hide Upsert, Delete, DeleteIfZero, DeleteChunks, Insert, Garbage, DeadIds, SnapNames, LinkedIds;
  }

  lemma WriterBackups(w: World, lim: Limits, a: Action)
    requires WriterEnabled(w, lim, a)
    ensures var v := ApplyWriter(w, lim, a); v.backups == w.backups && AllSparedKept(w.ops, v.ops)
  {
    hide ApplyWriter, AllSparedKept;
    if a.Begin? || a.TakeMaintRead? || a.WantWriteLock? || a.TakeWrite? {
      LockingBackups(w, lim, a);
    } else if a.Cleanup? || a.Commit? || a.EditRow? || a.DeleteRow? {
      EditingBackups(w, lim, a);
    } else {
      LeavingBackups(w, lim, a);
    }
  }

  lemma PlanningBackups(w: World, lim: Limits, a: Action)
    requires GcEnabled(w, a)
    requires a.GcTakeMaint? || a.GcTakeWrite? || a.GcListBlobs? || a.GcReadRefs? || a.GcReadChunks?
    ensures var v := ApplyGc(w, a); v.backups == w.backups && AllSparedKept(w.ops, v.ops)
  {
    hide Upsert, Delete, DeleteIfZero, DeleteChunks, Insert, Garbage, DeadIds, SnapNames, LinkedIds;
  }

  lemma ProtectingBackups(w: World, lim: Limits, a: Action)
    requires GcEnabled(w, a)
    requires a.GcTakeMeta? || a.GcListBackups? || a.GcReadBackup? || a.GcProtect?
    ensures var v := ApplyGc(w, a); v.backups == w.backups && AllSparedKept(w.ops, v.ops)
  {
    hide Upsert, Delete, DeleteIfZero, DeleteChunks, Insert, Garbage, DeadIds, SnapNames, LinkedIds;
  }

  lemma SweepingBackups(w: World, lim: Limits, a: Action)
    requires GcEnabled(w, a)
    requires a.GcDropRow? || a.GcRowsDone? || a.GcDropBlob? || a.GcDone? || a.GcFail? || a.GcReleaseWrite?
      || a.GcReleaseMaint?
    ensures var v := ApplyGc(w, a); v.backups == w.backups && AllSparedKept(w.ops, v.ops)
  {
    hide Upsert, Delete, DeleteIfZero, DeleteChunks, Insert, Garbage, DeadIds, SnapNames, LinkedIds;
  }

  lemma GcBackups(w: World, lim: Limits, a: Action)
    requires GcEnabled(w, a)
    ensures var v := ApplyGc(w, a); v.backups == w.backups && AllSparedKept(w.ops, v.ops)
  {
    hide ApplyGc, AllSparedKept;
    if a.GcTakeMaint? || a.GcTakeWrite? || a.GcListBlobs? || a.GcReadRefs? || a.GcReadChunks? {
      PlanningBackups(w, lim, a);
    } else if a.GcTakeMeta? || a.GcListBackups? || a.GcReadBackup? || a.GcProtect? {
      ProtectingBackups(w, lim, a);
    } else {
      SweepingBackups(w, lim, a);
    }
  }

  lemma BackupSteps(w: World, lim: Limits, a: Action)
    requires SnapshotsValid(w.backups, w.ops)
    requires BackupEnabled(w, lim, a)
    ensures var v := ApplyBackup(w, lim, a); SnapshotsValid(v.backups, v.ops)
  {
    hide ValidSnapshot, Oldest;
  }

  lemma StepValid(w: World, lim: Limits, a: Action)
    requires SnapshotsValid(w.backups, w.ops) && Enabled(w, lim, a)
    ensures var v := Apply(w, lim, a); SnapshotsValid(v.backups, v.ops)
  {
    hide ValidSnapshot, Pending, LookupEnabled, UploadEnabled, WriterEnabled, GcEnabled, BackupEnabled,
      ApplyLookup, ApplyUpload, ApplyWriter, ApplyGc, ApplyBackup;
    if LookupEnabled(w, lim, a) {
      LookupBackups(w, lim, a);
    } else if UploadEnabled(w, lim, a) {
      UploadBackups(w, lim, a);
    } else if WriterEnabled(w, lim, a) {
      WriterBackups(w, lim, a);
    } else if GcEnabled(w, a) {
      GcBackups(w, lim, a);
    } else {
      BackupSteps(w, lim, a);
    }
  }

  lemma {:induction false} EveryRunValid(lim: Limits, run: seq<Action>)
    requires Execute(lim, run).Some?
    ensures var w := Execute(lim, run).value; SnapshotsValid(w.backups, w.ops)
    decreases |run|
  {
    hide SnapshotsValid, Apply, Enabled;
    if run == [] {
      StartValid();
    } else {
      EveryRunValid(lim, run[..|run| - 1]);
      StepValid(Execute(lim, run[..|run| - 1]).value, lim, run[|run| - 1]);
    }
  }

  lemma StartValid()
    ensures SnapshotsValid(Start.backups, Start.ops)
  {
  }

  /**
   After any run, every listed readable recovery point passes the full chunk verification that
   restore performs, and restoring it yields every regular file at its recorded size.
   */
  lemma RecoveryPointsIntact(lim: Limits, run: seq<Action>, b: BlobName)
    requires Execute(lim, run).Some?
    requires b in Execute(lim, run).value.backups && Execute(lim, run).value.backups[b].MetaSnapshot?
    ensures var w := Execute(lim, run).value;
      var t := w.backups[b].t;
      && ValidSnapshot(t)
      && (forall c | c in Referenced(t) :: ChunkVerified(w.blobs, c))
      && (forall f | f in t.files && !t.files[f].isDir && !t.files[f].isSymlink ::
            var refs := FileRefs(t.links, f);
            && Contiguous(refs)
            && |ContentOf(t.chunks, refs)| == t.files[f].size
            && StreamResult(t, w.blobs, Entry(t.files[f], refs), Some(ContentOf(t.chunks, refs))))
  {
    EveryRunSafe(lim, run);
    EveryRunValid(lim, run);
    var w := Execute(lim, run).value;
    var t := w.backups[b].t;
    assert SnapOk(t, w.blobs, w.names, w.pool.calls);
    hide Safe, SnapshotsValid, Execute, ContentOf, FileRefs, ValidSnapshot;
    SnapVerified(t, w.blobs, w.names, w.pool.calls);
    forall f | f in t.files && !t.files[f].isDir && !t.files[f].isSymlink
      ensures var refs := FileRefs(t.links, f);
        && Contiguous(refs)
        && |ContentOf(t.chunks, refs)| == t.files[f].size
        && StreamResult(t, w.blobs, Entry(t.files[f], refs), Some(ContentOf(t.chunks, refs)))
    {
      RestoredFilesStream(t, w.blobs, f);
    }
  }

  lemma SnapVerified(t: Tables, blobs: Backend, names: set<BlobName>, calls: map<Cid, Call>)
    requires SnapOk(t, blobs, names, calls)
    ensures forall c | c in Referenced(t) :: ChunkVerified(blobs, c)
  {
  }

  /** After any run, every chunk of every live file is present and decrypts to the content of its row's hash. */
  lemma LiveFilesReadable(lim: Limits, run: seq<Action>, f: int)
    requires Execute(lim, run).Some?
    requires f in Execute(lim, run).value.db.files
    ensures var w := Execute(lim, run).value;
      var refs := FileRefs(w.db.links, f);
      && Contiguous(refs)
      && Readable(w.db.chunks, w.blobs, Ids(refs))
      && Read(w.db.chunks, w.blobs, Ids(refs)) == ContentOf(w.db.chunks, refs)
  {
    EveryRunSafe(lim, run);
    var w := Execute(lim, run).value;
    hide Execute;
    assert ForeignKeys(w.db) && AllContiguous(w.db) && RowsBacked(w.db.chunks, w.blobs);
    hide Safe, AllContiguous;
    FileReadable(w.db, w.blobs, f);
  }

  lemma FileReadable(t: Tables, blobs: Backend, f: int)
    requires ForeignKeys(t) && AllContiguous(t) && RowsBacked(t.chunks, blobs)
    requires f in t.files
    ensures var refs := FileRefs(t.links, f);
      && Contiguous(refs)
      && Readable(t.chunks, blobs, Ids(refs))
      && Read(t.chunks, blobs, Ids(refs)) == ContentOf(t.chunks, refs)
  {
    var refs := FileRefs(t.links, f);
    assert Contiguous(refs);
    hide AllContiguous;
    forall i | 0 <= i < |Ids(refs)| ensures Ids(refs)[i] in t.chunks && Backed(t.chunks[Ids(refs)[i]], blobs) {
      var c := refs[i];
      assert i in refs && Ids(refs)[i] == c;
      assert LinkKey(f, i) in t.links && t.links[LinkKey(f, i)] == c;
      assert Backed(t.chunks[c], blobs);
    }
    hide Backed, FileRefs;
    BackedRead(t.chunks, blobs, Ids(refs));
  }

  /** A dedup hit is sound in every reachable state: the row found by hash has the content stored. */
  lemma DedupHitSound(lim: Limits, run: seq<Action>, id: int, data: bytes)
    requires Execute(lim, run).Some?
    requires id in Execute(lim, run).value.db.chunks && Execute(lim, run).value.db.chunks[id].hash == Sha256(data)
    ensures var w := Execute(lim, run).value;
      Fetch(w.blobs, w.db.chunks[id].blobName) == Some(data) && w.db.chunks[id].size == |data|
  {
    EveryRunSafe(lim, run);
    hide Execute;
    assert Backed(Execute(lim, run).value.db.chunks[id], Execute(lim, run).value.blobs);
  }
}
