/**
 Deduplication at rest. In runs where no upload is left half done and no chunk row is removed,
 every stored blob belongs to a chunk row or to a call that will insert or discard it; once the
 calls have returned there is exactly one blob per distinct content.
 */
module StoreQuiescence {
  import opened Sequences
  import opened Manifest
  import opened ManifestInvariants
  import opened Snapshot
  import opened StoreModel
  import opened StoreSafety
  import opened StoreContent

  /** The call has uploaded `n` and will insert a row for it or delete it again. */
  ghost predicate Stowed(call: Call, n: BlobName) {
    (call.pc.Inserting? || call.pc.Rechecking? || call.pc.Discarding?) && call.pc.blob == n
  }

  ghost predicate InRow(chunks: Chunks, n: BlobName) {
    exists c | c in chunks :: chunks[c].blobName == n
  }

  ghost predicate Kept(chunks: Chunks, calls: map<Cid, Call>, n: BlobName) {
    InRow(chunks, n) || exists c | c in calls :: Stowed(calls[c], n)
  }

  ghost predicate Accounted(w: World) {
    forall n | n in w.blobs :: Kept(w.db.chunks, w.pool.calls, n)
  }

  /** A call whose insert lost the race will find the winner's row. */
  ghost predicate RacesLost(w: World) {
    forall c | c in w.pool.calls && w.pool.calls[c].pc.Rechecking? :: HasHash(w.db.chunks, HashOf(w.pool.calls[c]))
  }

  ghost predicate Tidy(w: World) {
    Accounted(w) && RacesLost(w)
  }

  /** A step that neither fails half way nor removes a chunk row. */
  ghost predicate QuietStep(w: World, v: World, a: Action) {
    && w.db.chunks.Keys <= v.db.chunks.Keys
    && match a
       case UploadFails(_, left) => left.None?
       case InsertFails(c) => c in w.pool.calls && HasHash(w.db.chunks, HashOf(w.pool.calls[c]))
       case RecheckMiss(c) => c in w.pool.calls && !HasHash(w.db.chunks, HashOf(w.pool.calls[c]))
       case Discard(_, ok) => ok
       case _ => true
  }

  ghost predicate QuietRun(lim: Limits, run: seq<Action>)
    requires Execute(lim, run).Some?
    decreases |run|
  {
    run != [] ==>
      && QuietRun(lim, run[..|run| - 1])
      && QuietStep(Execute(lim, run[..|run| - 1]).value, Execute(lim, run).value, run[|run| - 1])
  }

  ghost predicate RowsKept(before: Chunks, after: Chunks) {
    forall c | c in before :: c in after && after[c].hash == before[c].hash && after[c].blobName == before[c].blobName
  }

  /** What a step of call `c` may do to the blobs. */
  ghost predicate CallTidy(w: World, v: World, c: Cid) {
    && RowsKept(w.db.chunks, v.db.chunks)
    && (forall d | d in w.pool.calls && d != c :: d in v.pool.calls && v.pool.calls[d] == w.pool.calls[d])
    && (forall d | d in v.pool.calls && d != c :: d in w.pool.calls)
    && (forall n | n in v.blobs && n !in w.blobs :: c in v.pool.calls && Stowed(v.pool.calls[c], n))
    && (forall n | n in v.blobs && c in w.pool.calls && Stowed(w.pool.calls[c], n) ::
          InRow(v.db.chunks, n) || (c in v.pool.calls && Stowed(v.pool.calls[c], n)))
    && (c in v.pool.calls && v.pool.calls[c].pc.Rechecking? ==> HasHash(v.db.chunks, HashOf(v.pool.calls[c])))
  }

  lemma RowsStay(before: Chunks, after: Chunks, n: BlobName)
    requires RowsKept(before, after) && InRow(before, n)
    ensures InRow(after, n)
  {
    var c :| c in before && before[c].blobName == n;
    assert after[c].blobName == n;
  }

  lemma HashStays(before: Chunks, after: Chunks, h: Hash)
    requires RowsKept(before, after) && HasHash(before, h)
    ensures HasHash(after, h)
  {
    var c :| c in before && before[c].hash == h;
    assert after[c].hash == h;
  }

  lemma CallStaysTidy(w: World, v: World, c: Cid)
    requires Tidy(w) && CallTidy(w, v, c)
    ensures Tidy(v)
  {
    hide InRow, HasHash, RowsKept, Stowed;
    forall n | n in v.blobs ensures Kept(v.db.chunks, v.pool.calls, n) {
      if n in w.blobs {
        assert Kept(w.db.chunks, w.pool.calls, n);
        if InRow(w.db.chunks, n) {
          RowsStay(w.db.chunks, v.db.chunks, n);
        }
      }
    }
    forall d | d in v.pool.calls && v.pool.calls[d].pc.Rechecking?
      ensures HasHash(v.db.chunks, HashOf(v.pool.calls[d]))
    {
      if d != c {
        HashStays(w.db.chunks, v.db.chunks, HashOf(w.pool.calls[d]));
      }
    }
  }

  // ------------------------------------------------------------------------ steps

  lemma LookingTidy(w: World, lim: Limits, a: Action)
    requires LookupEnabled(w, lim, a)
    requires a.StartCall? || a.TakeSlot? || a.LookupHit? || a.LookupMiss?
    ensures CallTidy(w, ApplyLookup(w, lim, a), a.c)
  {
    hide HasHash;
  }

  lemma JoiningTidy(w: World, lim: Limits, a: Action)
    requires LookupEnabled(w, lim, a)
    requires a.CancelCall? || a.JoinFlight? || a.OpenFlight? || a.WakeUp?
    ensures CallTidy(w, ApplyLookup(w, lim, a), a.c)
  {
    hide HasHash;
  }

  lemma NamingTidy(w: World, lim: Limits, a: Action)
    requires UploadEnabled(w, lim, a) && QuietStep(w, ApplyUpload(w, lim, a), a)
    requires a.DrawName? || a.NamingFails? || a.TakeGate? || a.UploadOk? || a.UploadFails?
    ensures CallTidy(w, ApplyUpload(w, lim, a), a.c)
  {
    hide HasHash, Insert;
  }

  lemma InsertTidy(w: World, lim: Limits, a: Action)
    requires UploadEnabled(w, lim, a) && QuietStep(w, ApplyUpload(w, lim, a), a)
    requires a.InsertOk? || a.InsertFails?
    ensures CallTidy(w, ApplyUpload(w, lim, a), a.c)
  {
    var v := ApplyUpload(w, lim, a);
    hide HasHash;
    if a.InsertOk? {
      assert InRow(v.db.chunks, w.pool.calls[a.c].pc.blob) by {
        assert a.id in v.db.chunks;
      }
    } else {
      hide Insert;
    }
  }

  lemma RecheckTidy(w: World, lim: Limits, a: Action)
    requires RacesLost(w)
    requires UploadEnabled(w, lim, a) && QuietStep(w, ApplyUpload(w, lim, a), a)
    requires a.RecheckHit? || a.RecheckMiss? || a.Discard?
    ensures CallTidy(w, ApplyUpload(w, lim, a), a.c)
  {
    hide HasHash, Insert;
  }

  lemma ReportTidy(w: World, lim: Limits, a: Action)
    requires UploadEnabled(w, lim, a)
    requires a.Unregister? || a.Signal? || a.ReleaseSlot? || a.Collect?
    ensures CallTidy(w, ApplyUpload(w, lim, a), a.c)
  {
    hide HasHash, Insert;
  }

  /** Writers, GC and backups neither store blobs nor touch calls. */
  ghost predicate OthersTidy(w: World, v: World) {
    v.pool == w.pool && RowsKept(w.db.chunks, v.db.chunks) && v.blobs.Keys <= w.blobs.Keys
  }

  lemma OthersStayTidy(w: World, v: World)
    requires Tidy(w) && OthersTidy(w, v)
    ensures Tidy(v)
  {
    hide InRow, HasHash, Stowed, RowsKept;
    forall n | n in v.blobs ensures Kept(v.db.chunks, v.pool.calls, n) {
      assert Kept(w.db.chunks, w.pool.calls, n);
      if InRow(w.db.chunks, n) {
        RowsStay(w.db.chunks, v.db.chunks, n);
      }
    }
    forall d | d in v.pool.calls && v.pool.calls[d].pc.Rechecking?
      ensures HasHash(v.db.chunks, HashOf(v.pool.calls[d]))
    {
      HashStays(w.db.chunks, v.db.chunks, HashOf(w.pool.calls[d]));
    }
  }

  lemma ShrunkAndKept(before: Chunks, after: Chunks)
    requires RowsShrink(before, after) && before.Keys <= after.Keys
    ensures RowsKept(before, after)
  {
  }

  lemma WriterBlobs(w: World, lim: Limits, a: Action)
    requires WriterEnabled(w, lim, a)
    ensures ApplyWriter(w, lim, a).blobs == w.blobs && ApplyWriter(w, lim, a).pool == w.pool
  {
    hide Upsert, Delete, DeleteIfZero, DeleteRows, RefsGot;
  }

  lemma WriterTidy(w: World, lim: Limits, a: Action)
    requires Safe(w) && WriterEnabled(w, lim, a) && QuietStep(w, ApplyWriter(w, lim, a), a)
    ensures OthersTidy(w, ApplyWriter(w, lim, a))
  {
    hide Safe, WriterEnabled, ApplyWriter, RowsShrink, RowsKept;
    WriterRows(w, lim, a);
    WriterBlobs(w, lim, a);
    ShrunkAndKept(w.db.chunks, ApplyWriter(w, lim, a).db.chunks);
  }

  lemma GcBlobs(w: World, a: Action)
    requires GcEnabled(w, a)
    ensures ApplyGc(w, a).blobs.Keys <= w.blobs.Keys
  {
    hide Garbage, DeadIds, SnapNames, LinkedIds, DeleteChunks;
    if a.GcDropBlob? {
    } else {
      GcSameBlobs(w, a);
    }
  }

  lemma GcSameBlobs(w: World, a: Action)
    requires GcEnabled(w, a) && !a.GcDropBlob?
    ensures ApplyGc(w, a).blobs == w.blobs
  {
    hide Garbage, DeadIds, SnapNames, LinkedIds, DeleteChunks;
  }

  lemma GcTidy(w: World, a: Action)
    requires GcEnabled(w, a) && QuietStep(w, ApplyGc(w, a), a)
    ensures OthersTidy(w, ApplyGc(w, a))
  {
    hide GcEnabled, ApplyGc;
    GcTouches(w, a);
    GcBlobs(w, a);
  }

  lemma BackupTidy(w: World, lim: Limits, a: Action)
    requires BackupEnabled(w, lim, a)
    ensures OthersTidy(w, ApplyBackup(w, lim, a))
  {
    hide ValidSnapshot, Oldest;
  }

  lemma CallStepTidy(w: World, lim: Limits, a: Action)
    requires Tidy(w) && (LookupEnabled(w, lim, a) || UploadEnabled(w, lim, a))
    requires Enabled(w, lim, a) && QuietStep(w, Apply(w, lim, a), a)
    ensures Tidy(Apply(w, lim, a))
  {
    assert RacesLost(w);
    hide Tidy, RacesLost, CallTidy, ApplyLookup, ApplyUpload, WriterEnabled, GcEnabled, BackupEnabled, QuietStep;
    if LookupEnabled(w, lim, a) {
      if a.StartCall? || a.TakeSlot? || a.LookupHit? || a.LookupMiss? {
        LookingTidy(w, lim, a);
      } else {
        JoiningTidy(w, lim, a);
      }
    } else if a.DrawName? || a.NamingFails? || a.TakeGate? || a.UploadOk? || a.UploadFails? {
      NamingTidy(w, lim, a);
    } else if a.InsertOk? || a.InsertFails? {
      InsertTidy(w, lim, a);
    } else if a.RecheckHit? || a.RecheckMiss? || a.Discard? {
      RecheckTidy(w, lim, a);
    } else {
      ReportTidy(w, lim, a);
    }
    CallStaysTidy(w, Apply(w, lim, a), a.c);
  }

  lemma StepTidy(w: World, lim: Limits, a: Action)
    requires Safe(w) && Tidy(w) && Enabled(w, lim, a) && QuietStep(w, Apply(w, lim, a), a)
    ensures Tidy(Apply(w, lim, a))
  {
    hide Safe, Tidy, LookupEnabled, UploadEnabled, WriterEnabled, GcEnabled, BackupEnabled,
      ApplyLookup, ApplyUpload, ApplyWriter, ApplyGc, ApplyBackup, QuietStep, OthersTidy;
    if LookupEnabled(w, lim, a) || UploadEnabled(w, lim, a) {
      CallStepTidy(w, lim, a);
    } else {
      if WriterEnabled(w, lim, a) {
        WriterTidy(w, lim, a);
      } else if GcEnabled(w, a) {
        GcTidy(w, a);
      } else {
        BackupTidy(w, lim, a);
      }
      OthersStayTidy(w, Apply(w, lim, a));
    }
  }

  lemma {:induction false} EveryQuietRun(lim: Limits, run: seq<Action>)
    requires Execute(lim, run).Some? && QuietRun(lim, run)
    ensures Tidy(Execute(lim, run).value)
    decreases |run|
  {
    hide Safe, Apply, Enabled, QuietStep;
    if run == [] {
    } else {
      hide Tidy;
      EveryQuietRun(lim, run[..|run| - 1]);
      EveryRunSafe(lim, run[..|run| - 1]);
      StepTidy(Execute(lim, run[..|run| - 1]).value, lim, run[|run| - 1]);
    }
  }

  /**
   After a quiet run with every call returned, however many callers raced to store however many
   copies, the backend holds exactly the blobs of the chunk rows, and two blobs with the same
   content are the same blob.
   */
  lemma OneBlobPerContent(lim: Limits, run: seq<Action>)
    requires Execute(lim, run).Some? && QuietRun(lim, run)
    requires Execute(lim, run).value.pool.calls == map[]
    ensures var w := Execute(lim, run).value;
      && w.blobs.Keys == RowNames(w.db.chunks)
      && (forall m, n | m in w.blobs && n in w.blobs && Fetch(w.blobs, m) == Fetch(w.blobs, n) :: m == n)
  {
    EveryQuietRun(lim, run);
    EveryRunSafe(lim, run);
    var w := Execute(lim, run).value;
    assert DbOk(w.db, w.blobs, w.names) && Accounted(w);
    hide Execute, QuietRun, Safe, Tidy;
    forall n | n in w.blobs ensures InRow(w.db.chunks, n) {
      assert Kept(w.db.chunks, w.pool.calls, n);
    }
    AtRest(w.db.chunks, w.blobs);
  }

  lemma AtRest(chunks: Chunks, blobs: Backend)
    requires RowsBacked(chunks, blobs) && UniqueHashes(chunks)
    requires forall n | n in blobs :: InRow(chunks, n)
    ensures blobs.Keys == RowNames(chunks)
    ensures forall m, n | m in blobs && n in blobs && Fetch(blobs, m) == Fetch(blobs, n) :: m == n
  {
    forall m, n | m in blobs && n in blobs && Fetch(blobs, m) == Fetch(blobs, n) ensures m == n {
      assert InRow(chunks, m) && InRow(chunks, n);
      var c :| c in chunks && chunks[c].blobName == m;
      var d :| d in chunks && chunks[d].blobName == n;
      assert Backed(chunks[c], blobs) && Backed(chunks[d], blobs);
      assert chunks[c].hash == Sha256(chunks[c].hash.preimage);
      assert c == d;
    }
    forall n | n in RowNames(chunks) ensures n in blobs {
      var c :| c in chunks && chunks[c].blobName == n;
      assert Backed(chunks[c], blobs);
    }
    forall n | n in blobs ensures n in RowNames(chunks) {
      assert InRow(chunks, n);
    }
  }
}
