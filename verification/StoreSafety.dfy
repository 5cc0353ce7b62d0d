/**
 No interleaving loses a blob that a file or a retained recovery point needs: an invariant of
 every state of every run of StoreModel, and what it means for readers.
 */
module StoreSafety {
  import opened Sequences
  import opened Manifest
  import opened ManifestInvariants
  import opened Snapshot
  import opened StoreModel

  // ------------------------------------------------------------------ invariant

  ghost predicate RowsBacked(chunks: Chunks, blobs: Backend) {
    forall c | c in chunks :: Backed(chunks[c], blobs)
  }

  ghost predicate UniqueBlobs(chunks: Chunks) {
    forall c, d | c in chunks && d in chunks && chunks[c].blobName == chunks[d].blobName :: c == d
  }

  ghost predicate RowsNamed(chunks: Chunks, names: set<BlobName>) {
    forall c | c in chunks :: chunks[c].blobName in names
  }

  /** Every chunk row's blob is stored and decrypts to content of the row's hash and size. */
  ghost predicate DbOk(db: Tables, blobs: Backend, names: set<BlobName>) {
    Consistent(db) && RowsBacked(db.chunks, blobs) && UniqueBlobs(db.chunks) && RowsNamed(db.chunks, names)
  }

  ghost predicate Owns(call: Call, n: BlobName) {
    NameOf(call.pc) == Some(n)
  }

  ghost predicate NoRow(chunks: Chunks, n: BlobName) {
    forall c | c in chunks :: chunks[c].blobName != n
  }

  /** A name drawn by a running call belongs to that call alone. */
  ghost predicate CallsOk(chunks: Chunks, blobs: Backend, names: set<BlobName>, calls: map<Cid, Call>) {
    forall c, n | c in calls && Owns(calls[c], n) ::
      n in names && NoRow(chunks, n) && (calls[c].pc.Inserting? ==> Fetch(blobs, n) == Some(calls[c].data))
  }

  ghost predicate DistinctNames(calls: map<Cid, Call>) {
    forall c, d, n | c in calls && d in calls && Owns(calls[c], n) && Owns(calls[d], n) :: c == d
  }

  ghost predicate NoOwner(calls: map<Cid, Call>, n: BlobName) {
    forall c | c in calls :: !Owns(calls[c], n)
  }

  /** Every blob the snapshot's files reference is present with the right content, and nobody will overwrite it. */
  ghost predicate SnapOk(t: Tables, blobs: Backend, names: set<BlobName>, calls: map<Cid, Call>) {
    forall k | k in t.links && t.links[k] in t.chunks ::
      var row := t.chunks[t.links[k]];
      Backed(row, blobs) && row.blobName in names && NoOwner(calls, row.blobName)
  }

  ghost predicate BackupsOk(backups: map<BlobName, MetaObject>, blobs: Backend, names: set<BlobName>,
      calls: map<Cid, Call>) {
    forall b | b in backups && backups[b].MetaSnapshot? :: SnapOk(backups[b].t, blobs, names, calls)
  }

  ghost predicate Pending(ops: map<Tid, Op>, t: Tid) {
    t in ops && ops[t].Backup? && ops[t].bk.BkUpload?
  }

  ghost predicate PendingOk(ops: map<Tid, Op>, blobs: Backend, names: set<BlobName>, calls: map<Cid, Call>) {
    forall t | Pending(ops, t) :: SnapOk(ops[t].bk.snap, blobs, names, calls)
  }

  ghost predicate LocksOk(locks: Locks, ops: map<Tid, Op>) {
    && (forall t :: t in locks.maintReaders <==> t in ops && HoldsMaintRead(ops[t]))
    && (forall t :: locks.maintWriter == Some(t) <==> t in ops && HoldsMaintWrite(ops[t]))
    && (forall t :: locks.write == Some(t) <==> t in ops && HoldsWrite(ops[t]))
    && (forall t :: locks.meta == Some(t) <==> t in ops && HoldsMeta(ops[t]))
    && (locks.maintWriter.Some? ==> locks.maintReaders == {})
  }

  /** A StoreChunk call runs only while its operation holds the lock that shuts GC out. */
  ghost predicate OwnersOk(ops: map<Tid, Op>, calls: map<Cid, Call>) {
    forall c | c in calls :: calls[c].owner in ops && MayStore(ops[calls[c].owner])
  }

  /** What GC is about to remove: rows nobody links to, and blobs of those rows only. */
  ghost predicate Sweep(db: Tables, garbage: set<BlobName>, dead: set<int>) {
    && (forall k | k in db.links :: db.links[k] !in dead)
    && (forall c | c in db.chunks && db.chunks[c].blobName in garbage :: c in dead)
  }

  ghost predicate Spared(t: Tables, garbage: set<BlobName>) {
    forall k | k in t.links && t.links[k] in t.chunks :: t.chunks[t.links[k]].blobName !in garbage
  }

  ghost predicate AllSpared(backups: map<BlobName, MetaObject>, ops: map<Tid, Op>, garbage: set<BlobName>) {
    && (forall b | b in backups && backups[b].MetaSnapshot? :: Spared(backups[b].t, garbage))
    && (forall t | Pending(ops, t) :: Spared(ops[t].bk.snap, garbage))
  }

  ghost predicate ReadSoFar(backups: map<BlobName, MetaObject>, todo: set<BlobName>, protected: set<BlobName>) {
    forall b | b in backups && b !in todo :: backups[b].MetaSnapshot? && SnapNames(backups[b].t) <= protected
  }

  ghost predicate GcPhaseOk(gc: GcPhase, db: Tables, backups: map<BlobName, MetaObject>, ops: map<Tid, Op>) {
    match gc
    case GcScan(_, referenced) => referenced == LinkedIds(db.links)
    case GcWantMeta(g, d) => Sweep(db, g, d)
    case GcListMeta(g, d) => Sweep(db, g, d)
    case GcRead(g, d, todo, protected) => Sweep(db, g, d) && ReadSoFar(backups, todo, protected)
    case GcDropRows(g, d) => Sweep(db, g, d) && AllSpared(backups, ops, g)
    case GcDropBlobs(g) => Sweep(db, g, {}) && AllSpared(backups, ops, g)
    case _ => true
  }

  ghost predicate GcOk(ops: map<Tid, Op>, db: Tables, backups: map<BlobName, MetaObject>) {
    forall t | t in ops && ops[t].Gc? :: GcPhaseOk(ops[t].gc, db, backups, ops)
  }

  ghost predicate Safe(w: World) {
    && DbOk(w.db, w.blobs, w.names)
    && CallsOk(w.db.chunks, w.blobs, w.names, w.pool.calls)
    && DistinctNames(w.pool.calls)
    && BackupsOk(w.backups, w.blobs, w.names, w.pool.calls)
    && PendingOk(w.ops, w.blobs, w.names, w.pool.calls)
    && LocksOk(w.locks, w.ops)
    && OwnersOk(w.ops, w.pool.calls)
    && GcOk(w.ops, w.db, w.backups)
  }

  // ----------------------------------------------------------- lock exclusion

  /** GC holding both locks runs with no StoreChunk call, no writer and no PutFile. */
  lemma GcExcludes(w: World, g: Tid)
    requires LocksOk(w.locks, w.ops) && OwnersOk(w.ops, w.pool.calls)
    requires g in w.ops && w.ops[g].Gc? && HoldsWrite(w.ops[g])
    ensures w.pool.calls == map[]
    ensures forall t | t in w.ops && w.ops[t].Writer? :: w.ops[t].phase != Locked && !HoldsMaintRead(w.ops[t])
    ensures forall t | t in w.ops && w.ops[t].Gc? && HoldsWrite(w.ops[t]) :: t == g
  {
    assert HoldsMaintWrite(w.ops[g]);
    assert w.locks.maintWriter == Some(g) && w.locks.write == Some(g);
    forall t | t in w.ops && w.ops[t].Writer?
      ensures w.ops[t].phase != Locked && !HoldsMaintRead(w.ops[t])
    {
      if w.ops[t].phase == Locked {
        assert HoldsWrite(w.ops[t]);
      }
    }
    forall t | t in w.ops ensures !MayStore(w.ops[t]) {
    }
  }

  lemma GcMetaExcludes(w: World, g: Tid)
    requires LocksOk(w.locks, w.ops)
    requires g in w.ops && w.ops[g].Gc? && HoldsMeta(w.ops[g])
    ensures forall t | t in w.ops && w.ops[t].Backup? :: !HoldsMeta(w.ops[t])
    ensures forall t :: !Pending(w.ops, t)
  {
    assert w.locks.meta == Some(g);
  }

  // ------------------------------------------------ steps of StoreChunk calls

  /** A call moves on without a new name; calls may also end. */
  ghost predicate CallsShrink(before: map<Cid, Call>, after: map<Cid, Call>) {
    forall c | c in after ::
      && c in before && after[c].owner == before[c].owner && after[c].data == before[c].data
      && (forall n :: Owns(after[c], n) ==> Owns(before[c], n))
      && (NameOf(after[c].pc).Some? && after[c].pc.Inserting? ==> before[c].pc.Inserting?)
  }

  lemma ShrinkKeeps(w: World, v: World)
    requires Safe(w)
    requires v.db == w.db && v.blobs == w.blobs && v.backups == w.backups && v.names == w.names
    requires v.locks == w.locks && v.ops == w.ops
    requires CallsShrink(w.pool.calls, v.pool.calls)
    ensures Safe(v)
  {
    hide Consistent, Backed, MayStore, LocksOk, GcPhaseOk;
    SnapsKeepNames(w, v);
  }

  lemma SnapsKeepNames(w: World, v: World)
    requires BackupsOk(w.backups, w.blobs, w.names, w.pool.calls)
    requires PendingOk(w.ops, w.blobs, w.names, w.pool.calls)
    requires v.blobs == w.blobs && v.backups == w.backups && v.ops == w.ops && w.names <= v.names
    requires forall c, n | c in v.pool.calls && Owns(v.pool.calls[c], n) && n in w.names ::
      c in w.pool.calls && Owns(w.pool.calls[c], n)
    ensures BackupsOk(v.backups, v.blobs, v.names, v.pool.calls)
    ensures PendingOk(v.ops, v.blobs, v.names, v.pool.calls)
  {
    hide Backed, NameOf;
  }

  ghost predicate MovesOn(a: Action) {
    a.TakeSlot? || a.LookupHit? || a.LookupMiss? || a.CancelCall? || a.JoinFlight? || a.OpenFlight? || a.WakeUp?
  }

  lemma LookupStepSafe(w: World, lim: Limits, a: Action)
    requires Safe(w) && LookupEnabled(w, lim, a) && MovesOn(a)
    ensures Safe(ApplyLookup(w, lim, a))
  {
    hide Safe, GcOk, LocksOk, DbOk, BackupsOk, PendingOk, CallsOk;
    ShrinkKeeps(w, ApplyLookup(w, lim, a));
  }

  /** A writer's own bookkeeping concerns nobody else. */
  lemma WriterNotes(w: World, t: Tid, op: Op)
    requires Safe(w)
    requires t in w.ops && w.ops[t].Writer? && op.Writer? && op.kind == w.ops[t].kind && op.phase == w.ops[t].phase
    ensures Safe(SetOp(w, t, op))
  {
    hide DbOk, CallsOk, BackupsOk, SnapOk;
    var v := SetOp(w, t, op);
    GcPhasesKept(w, v, t);
    LocksKept(w, v, t);
  }

  /** Replacing a writer's bookkeeping leaves the locks and GC's plan alone. */
  lemma LocksKept(w: World, v: World, t: Tid)
    requires LocksOk(w.locks, w.ops) && v.locks == w.locks
    requires t in w.ops && t in v.ops && v.ops == w.ops[t := v.ops[t]]
    requires w.ops[t].Writer? && v.ops[t].Writer? && v.ops[t].kind == w.ops[t].kind && v.ops[t].phase == w.ops[t].phase
    ensures LocksOk(v.locks, v.ops)
  {
  }

  lemma GcPhasesKept(w: World, v: World, t: Tid)
    requires GcOk(w.ops, w.db, w.backups) && v.db == w.db && v.backups == w.backups
    requires t in v.ops && v.ops == w.ops[t := v.ops[t]]
    requires t in w.ops ==> !w.ops[t].Gc?
    requires !v.ops[t].Gc?
    requires !Pending(w.ops, t) && !Pending(v.ops, t)
    ensures GcOk(v.ops, v.db, v.backups)
  {
    hide Sweep, ReadSoFar, Spared;
    assert forall u :: Pending(v.ops, u) <==> Pending(w.ops, u);
    forall u | u in v.ops && v.ops[u].Gc? ensures GcPhaseOk(v.ops[u].gc, v.db, v.backups, v.ops) {
      assert u != t && GcPhaseOk(w.ops[u].gc, w.db, w.backups, w.ops);
    }
  }

  lemma NewCallKeeps(w: World, c: Cid, call: Call)
    requires Safe(w)
    requires c !in w.pool.calls && call.pc.WantSlot? && call.owner in w.ops && MayStore(w.ops[call.owner])
    ensures Safe(w.(pool := w.pool.(calls := w.pool.calls[c := call])))
  {
    hide DbOk, LocksOk, GcOk;
    var v := w.(pool := w.pool.(calls := w.pool.calls[c := call]));
    assert forall n :: !Owns(call, n);
    SnapsKeepNames(w, v);
  }

  lemma StartCallSafe(w: World, lim: Limits, a: Action)
    requires Safe(w) && LookupEnabled(w, lim, a) && a.StartCall?
    ensures Safe(ApplyLookup(w, lim, a))
  {
    hide Safe;
    var op := w.ops[a.t];
    var noted := op.(pieces := op.pieces + [a.data]);
    WriterNotes(w, a.t, noted);
    NewCallKeeps(SetOp(w, a.t, noted), a.c, Call(a.t, a.repo, |op.pieces|, a.data, WantSlot));
  }

  ghost predicate Reports(a: Action) {
    a.NamingFails? || a.TakeGate? || a.InsertFails? || a.RecheckHit? || a.RecheckMiss?
  }

  ghost predicate Finishes(a: Action) {
    a.Unregister? || a.Signal? || a.ReleaseSlot?
  }

  ghost predicate FailsQuietly(a: Action) {
    (a.Discard? && !a.ok) || (a.UploadFails? && a.left.None?)
  }

  lemma FailSafe(w: World, lim: Limits, a: Action)
    requires Safe(w) && UploadEnabled(w, lim, a) && FailsQuietly(a)
    ensures Safe(ApplyUpload(w, lim, a))
  {
    hide Safe, GcOk, LocksOk, DbOk, BackupsOk, PendingOk, CallsOk;
    ShrinkKeeps(w, ApplyUpload(w, lim, a));
  }

  lemma ReportSafe(w: World, lim: Limits, a: Action)
    requires Safe(w) && UploadEnabled(w, lim, a) && Reports(a)
    ensures Safe(ApplyUpload(w, lim, a))
  {
    hide Safe, GcOk, LocksOk, DbOk, BackupsOk, PendingOk, CallsOk;
    ShrinkKeeps(w, ApplyUpload(w, lim, a));
  }

  lemma FinishSafe(w: World, lim: Limits, a: Action)
    requires Safe(w) && UploadEnabled(w, lim, a) && Finishes(a)
    ensures Safe(ApplyUpload(w, lim, a))
  {
    hide Safe, GcOk, LocksOk, DbOk, BackupsOk, PendingOk, CallsOk;
    ShrinkKeeps(w, ApplyUpload(w, lim, a));
  }

  lemma DrawNameSafe(w: World, lim: Limits, a: Action)
    requires Safe(w) && UploadEnabled(w, lim, a) && a.DrawName?
    ensures Safe(ApplyUpload(w, lim, a))
  {
    hide Consistent, Backed, LocksOk, GcOk, MayStore;
    var v := ApplyUpload(w, lim, a);
    forall c, n | c in v.pool.calls && Owns(v.pool.calls[c], n) && n in w.names
      ensures c in w.pool.calls && Owns(w.pool.calls[c], n)
    {
    }
    SnapsKeepNames(w, v);
    DrawNameCalls(w, a.c, a.n, v);
  }

  lemma DrawNameCalls(w: World, c: Cid, n: BlobName, v: World)
    requires DbOk(w.db, w.blobs, w.names)
    requires CallsOk(w.db.chunks, w.blobs, w.names, w.pool.calls) && DistinctNames(w.pool.calls)
    requires c in w.pool.calls && w.pool.calls[c].pc.Naming? && n !in w.names
    requires v == SetPc(w.(names := w.names + {n}), c, WantGate(w.pool.calls[c].pc.flight, n))
    ensures CallsOk(v.db.chunks, v.blobs, v.names, v.pool.calls) && DistinctNames(v.pool.calls)
  {
    hide Consistent, RowsBacked;
    forall d, m | d in v.pool.calls && Owns(v.pool.calls[d], m)
      ensures (d == c && m == n) || (d != c && d in w.pool.calls && Owns(w.pool.calls[d], m) && m != n)
    {
    }
  }

  // -------------------------------------------------- steps that change a blob

  ghost predicate SameElsewhere(a: Backend, b: Backend, n: BlobName) {
    forall m | m != n :: (m in a <==> m in b) && (m in a ==> a[m] == b[m])
  }

  /** Writing or deleting the blob of a running call touches nothing a row or a recovery point needs. */
  lemma OwnBlobChanges(w: World, v: World, c: Cid, n: BlobName)
    requires Safe(w)
    requires c in w.pool.calls && Owns(w.pool.calls[c], n)
    requires SameElsewhere(w.blobs, v.blobs, n)
    requires v.db == w.db && v.backups == w.backups && v.names == w.names && v.locks == w.locks && v.ops == w.ops
    requires c in v.pool.calls && v.pool.calls == w.pool.calls[c := w.pool.calls[c].(pc := v.pool.calls[c].pc)]
    requires forall m :: Owns(v.pool.calls[c], m) ==> m == n
    requires v.pool.calls[c].pc.Inserting? ==> Fetch(v.blobs, n) == Some(v.pool.calls[c].data)
    ensures Safe(v)
  {
    hide Consistent, GcOk, LocksOk, MayStore;
    OwnBlobRows(w.db.chunks, w.blobs, v.blobs, n);
    OwnBlobSnaps(w, v, c, n);
    OwnBlobCalls(w, v, c, n);
  }

  lemma OwnBlobRows(chunks: Chunks, before: Backend, after: Backend, n: BlobName)
    requires RowsBacked(chunks, before) && NoRow(chunks, n) && SameElsewhere(before, after, n)
    ensures RowsBacked(chunks, after)
  {
  }

  lemma OwnBlobSnaps(w: World, v: World, c: Cid, n: BlobName)
    requires BackupsOk(w.backups, w.blobs, w.names, w.pool.calls)
    requires PendingOk(w.ops, w.blobs, w.names, w.pool.calls)
    requires c in w.pool.calls && Owns(w.pool.calls[c], n)
    requires SameElsewhere(w.blobs, v.blobs, n)
    requires v.backups == w.backups && v.names == w.names && v.ops == w.ops
    requires forall d, m | d in v.pool.calls && Owns(v.pool.calls[d], m) ::
      d in w.pool.calls && Owns(w.pool.calls[d], m)
    ensures BackupsOk(v.backups, v.blobs, v.names, v.pool.calls)
    ensures PendingOk(v.ops, v.blobs, v.names, v.pool.calls)
  {
    hide NameOf;
    forall t | SnapOk(t, w.blobs, w.names, w.pool.calls) ensures SnapOk(t, v.blobs, v.names, v.pool.calls) {
    }
  }

  lemma OwnBlobCalls(w: World, v: World, c: Cid, n: BlobName)
    requires CallsOk(w.db.chunks, w.blobs, w.names, w.pool.calls) && DistinctNames(w.pool.calls)
    requires c in w.pool.calls && Owns(w.pool.calls[c], n)
    requires SameElsewhere(w.blobs, v.blobs, n)
    requires v.db == w.db && v.names == w.names
    requires c in v.pool.calls && v.pool.calls == w.pool.calls[c := w.pool.calls[c].(pc := v.pool.calls[c].pc)]
    requires forall m :: Owns(v.pool.calls[c], m) ==> m == n
    requires v.pool.calls[c].pc.Inserting? ==> Fetch(v.blobs, n) == Some(v.pool.calls[c].data)
    ensures CallsOk(v.db.chunks, v.blobs, v.names, v.pool.calls) && DistinctNames(v.pool.calls)
  {
    forall d, m | d in v.pool.calls && Owns(v.pool.calls[d], m)
      ensures d in w.pool.calls && Owns(w.pool.calls[d], m) && (m == n <==> d == c)
      ensures m in v.names && NoRow(v.db.chunks, m)
      ensures v.pool.calls[d].pc.Inserting? ==> Fetch(v.blobs, m) == Some(v.pool.calls[d].data)
    {
      if d != c {
        assert v.pool.calls[d] == w.pool.calls[d];
      }
    }
  }

  lemma BlobStepSafe(w: World, lim: Limits, a: Action)
    requires Safe(w) && UploadEnabled(w, lim, a)
    requires a.UploadOk? || (a.UploadFails? && a.left.Some?) || (a.Discard? && a.ok)
    ensures Safe(ApplyUpload(w, lim, a))
  {
    hide Safe, GcOk, LocksOk, DbOk, BackupsOk, PendingOk, CallsOk, DistinctNames;
    var v := ApplyUpload(w, lim, a);
    OwnBlobChanges(w, v, a.c, w.pool.calls[a.c].pc.blob);
  }

  // ------------------------------------------------- steps that change the manifest

  /** Without a GC that holds the write lock there is no deletion plan to respect. */
  lemma NoPlan(ops: map<Tid, Op>, db: Tables, backups: map<BlobName, MetaObject>)
    requires forall g | g in ops && ops[g].Gc? :: !HoldsWrite(ops[g])
    ensures GcOk(ops, db, backups)
  {
  }

  /** A running StoreChunk call, a PutFile and a locked writer each shut GC out. */
  lemma CallShutsGcOut(w: World, c: Cid)
    requires LocksOk(w.locks, w.ops) && OwnersOk(w.ops, w.pool.calls)
    requires c in w.pool.calls
    ensures forall g | g in w.ops && w.ops[g].Gc? :: !HoldsWrite(w.ops[g])
  {
    forall g | g in w.ops && w.ops[g].Gc? ensures !HoldsWrite(w.ops[g]) {
      if HoldsWrite(w.ops[g]) {
        GcExcludes(w, g);
        assert false;
      }
    }
  }

  lemma WriterShutsGcOut(w: World, t: Tid)
    requires LocksOk(w.locks, w.ops) && OwnersOk(w.ops, w.pool.calls)
    requires t in w.ops && w.ops[t].Writer? && (w.ops[t].phase == Locked || HoldsMaintRead(w.ops[t]))
    ensures forall g | g in w.ops && w.ops[g].Gc? :: !HoldsWrite(w.ops[g])
  {
    forall g | g in w.ops && w.ops[g].Gc? ensures !HoldsWrite(w.ops[g]) {
      if HoldsWrite(w.ops[g]) {
        GcExcludes(w, g);
        assert false;
      }
    }
  }

  lemma InsertDb(w: World, id: int, h: Hash, n: BlobName)
    requires DbOk(w.db, w.blobs, w.names)
    requires NoRow(w.db.chunks, n) && n in w.names && Fetch(w.blobs, n) == Some(h.preimage)
    requires Insert(w.db, id, h, |h.preimage|, n).Some?
    ensures DbOk(Insert(w.db, id, h, |h.preimage|, n).value, w.blobs, w.names)
  {
    InsertConsistent(w.db, id, h, |h.preimage|, n);
    hide Consistent;
  }

  lemma InsertCalls(w: World, c: Cid, id: int, pc: Pc)
    requires CallsOk(w.db.chunks, w.blobs, w.names, w.pool.calls) && DistinctNames(w.pool.calls)
    requires c in w.pool.calls && w.pool.calls[c].pc.Inserting? && NameOf(pc) == None
    requires id !in w.db.chunks
    ensures var row := ChunkRow(HashOf(w.pool.calls[c]), |w.pool.calls[c].data|, 0, w.pool.calls[c].pc.blob);
      var calls := w.pool.calls[c := w.pool.calls[c].(pc := pc)];
      && CallsOk(w.db.chunks[id := row], w.blobs, w.names, calls)
      && DistinctNames(calls)
  {
    var n := w.pool.calls[c].pc.blob;
    var calls := w.pool.calls[c := w.pool.calls[c].(pc := pc)];
    assert Owns(w.pool.calls[c], n);
    var row := ChunkRow(HashOf(w.pool.calls[c]), |w.pool.calls[c].data|, 0, n);
    var chunks := w.db.chunks[id := row];
    forall d, m | d in calls && Owns(calls[d], m)
      ensures m in w.names && NoRow(chunks, m)
      ensures calls[d].pc.Inserting? ==> Fetch(w.blobs, m) == Some(calls[d].data)
    {
      assert d != c;
      assert calls[d] == w.pool.calls[d] && Owns(w.pool.calls[d], m);
      assert m != n;
    }
  }

  lemma InsertSafe(w: World, lim: Limits, a: Action)
    requires Safe(w) && UploadEnabled(w, lim, a) && a.InsertOk?
    ensures Safe(ApplyUpload(w, lim, a))
  {
    hide Consistent, RowsBacked, UniqueBlobs, RowsNamed, SnapOk, GcPhaseOk, HoldsWrite, MayStore;
    var v := ApplyUpload(w, lim, a);
    var call := w.pool.calls[a.c];
    assert Owns(call, call.pc.blob);
    InsertDb(w, a.id, HashOf(call), call.pc.blob);
    InsertCalls(w, a.c, a.id, Unregistering(call.pc.flight, Stored(a.id, false)));
    CallShutsGcOut(w, a.c);
    NoPlan(v.ops, v.db, v.backups);
    InsertSnaps(w, v);
  }

  lemma InsertSnaps(w: World, v: World)
    requires BackupsOk(w.backups, w.blobs, w.names, w.pool.calls)
    requires PendingOk(w.ops, w.blobs, w.names, w.pool.calls)
    requires v.backups == w.backups && v.names == w.names && v.blobs == w.blobs && v.ops == w.ops
    requires forall d, m | d in v.pool.calls && Owns(v.pool.calls[d], m) ::
      d in w.pool.calls && Owns(w.pool.calls[d], m)
    ensures BackupsOk(v.backups, v.blobs, v.names, v.pool.calls)
    ensures PendingOk(v.ops, v.blobs, v.names, v.pool.calls)
  {
    hide NameOf, Backed;
    forall t | SnapOk(t, w.blobs, w.names, w.pool.calls) ensures SnapOk(t, v.blobs, v.names, v.pool.calls) {
    }
  }

  lemma ShrunkDb(w: World, db: Tables)
    requires DbOk(w.db, w.blobs, w.names) && CallsOk(w.db.chunks, w.blobs, w.names, w.pool.calls)
    requires Consistent(db) && RowsShrink(w.db.chunks, db.chunks)
    ensures DbOk(db, w.blobs, w.names) && CallsOk(db.chunks, w.blobs, w.names, w.pool.calls)
  {
    hide Consistent, NameOf;
    forall c | c in db.chunks ensures Backed(db.chunks[c], w.blobs) {
      assert Backed(w.db.chunks[c], w.blobs);
    }
  }

  /** A manifest transaction under a lock that shuts GC out. */
  lemma ManifestStep(w: World, db: Tables, t: Tid)
    requires Safe(w)
    requires t in w.ops && w.ops[t].Writer? && (w.ops[t].phase == Locked || HoldsMaintRead(w.ops[t]))
    requires Consistent(db) && RowsShrink(w.db.chunks, db.chunks)
    ensures Safe(w.(db := db))
  {
    hide DbOk, CallsOk, SnapOk, LocksOk, GcPhaseOk, HoldsWrite, HoldsMaintRead;
    ShrunkDb(w, db);
    WriterShutsGcOut(w, t);
    NoPlan(w.ops, db, w.backups);
  }

  lemma UpsertStep(w: World, t: Tid, row: FileRow, refs: seq<ChunkRef>, fid: int)
    requires Safe(w)
    requires t in w.ops && w.ops[t].Writer? && w.ops[t].phase == Locked
    requires Ordered(refs) && fid !in DeleteRows(w.db, row.path).files
    ensures var u := Upsert(w.db, row, refs, fid);
      Safe(w.(db := if u.Some? then u.value else w.db))
  {
    var u := Upsert(w.db, row, refs, fid);
    if u.Some? {
      UpsertConsistent(w.db, row, refs, fid);
      UpsertRows(w.db, row, refs, fid);
      hide Safe, Consistent, Upsert;
      ManifestStep(w, u.value, t);
    }
  }

  lemma DeleteStep(w: World, t: Tid, path: Path)
    requires Safe(w)
    requires t in w.ops && w.ops[t].Writer? && w.ops[t].phase == Locked
    ensures Safe(w.(db := Delete(w.db, path)))
  {
    DeleteConsistent(w.db, path);
    DeletedRows(w.db, path);
    hide Safe, Consistent, Delete;
    ManifestStep(w, Delete(w.db, path), t);
  }

  lemma CleanupStep(w: World, t: Tid, id: int)
    requires Safe(w)
    requires t in w.ops && w.ops[t].Writer? && HoldsMaintRead(w.ops[t])
    ensures Safe(w.(db := DeleteIfZero(w.db, id)))
  {
    DeleteIfZeroConsistent(w.db, id);
    hide Safe, Consistent;
    ManifestStep(w, DeleteIfZero(w.db, id), t);
  }

  lemma ManifestWriterSafe(w: World, lim: Limits, a: Action)
    requires Safe(w) && WriterEnabled(w, lim, a)
    requires a.Cleanup? || a.Commit? || a.EditRow? || a.DeleteRow? || a.ForgetFile?
    ensures Safe(ApplyWriter(w, lim, a))
  {
    hide Safe, Upsert, Delete, DeleteIfZero;
    match a
    case Cleanup(t, id) => CleanupStep(w, t, id);
    case Commit(t, row, fid) =>
      var u := Upsert(w.db, row, RefsGot(w.ops[t]), fid);
      UpsertStep(w, t, row, RefsGot(w.ops[t]), fid);
      WriterNotes(w.(db := if u.Some? then u.value else w.db), t, Reset(w.ops[t]));
    case EditRow(t, row, refs, fid) => UpsertStep(w, t, row, refs, fid);
    case DeleteRow(t, path) => DeleteStep(w, t, path);
    case ForgetFile(t) => WriterNotes(w, t, Reset(w.ops[t]));
  }

  // ------------------------------------------- steps that only move one operation

  /** Everything but the operation's phase and the locks stays; calls belong to others. */
  lemma OpMoves(w: World, v: World, t: Tid)
    requires Safe(w)
    requires v.db == w.db && v.blobs == w.blobs && v.backups == w.backups && v.names == w.names && v.pool == w.pool
    requires t in v.ops ==> v.ops == w.ops[t := v.ops[t]]
    requires t !in v.ops ==> v.ops == w.ops - {t}
    requires LocksOk(v.locks, v.ops)
    requires Idle(w, t) || (t in v.ops && MayStore(v.ops[t]))
    requires !Pending(v.ops, t)
    requires t in v.ops && v.ops[t].Gc? ==> GcPhaseOk(v.ops[t].gc, v.db, v.backups, v.ops)
    ensures Safe(v)
  {
    hide DbOk, CallsOk, SnapOk, LocksOk;
    PlansKept(w, v, t);
  }

  lemma PlansKept(w: World, v: World, t: Tid)
    requires GcOk(w.ops, w.db, w.backups) && v.db == w.db && v.backups == w.backups
    requires t in v.ops ==> v.ops == w.ops[t := v.ops[t]]
    requires t !in v.ops ==> v.ops == w.ops - {t}
    requires !Pending(v.ops, t)
    requires t in v.ops && v.ops[t].Gc? ==> GcPhaseOk(v.ops[t].gc, v.db, v.backups, v.ops)
    ensures GcOk(v.ops, v.db, v.backups)
  {
    hide Sweep, ReadSoFar, Spared;
    assert forall u :: Pending(v.ops, u) ==> Pending(w.ops, u) && u != t && v.ops[u] == w.ops[u];
    forall u | u in v.ops && v.ops[u].Gc? && u != t ensures GcPhaseOk(v.ops[u].gc, v.db, v.backups, v.ops) {
      assert GcPhaseOk(w.ops[u].gc, w.db, w.backups, w.ops);
      assert AllSparedKept(w.ops, v.ops);
    }
  }

  /** Fewer pending snapshots never endanger a deletion plan. */
  ghost predicate AllSparedKept(before: map<Tid, Op>, after: map<Tid, Op>) {
    forall u :: Pending(after, u) ==> Pending(before, u) && after[u] == before[u]
  }

  lemma WriterMovesSafe(w: World, lim: Limits, a: Action)
    requires Safe(w) && WriterEnabled(w, lim, a)
    requires a.Begin? || a.TakeMaintRead? || a.WantWriteLock? || a.TakeWrite? || a.Unlock? || a.Leave?
    ensures Safe(ApplyWriter(w, lim, a))
  {
    var v := ApplyWriter(w, lim, a);
    if a.Unlock? || a.Leave? {
      WriterUnlocks(w, lim, a);
    } else {
      WriterLocks(w, lim, a);
    }
    hide DbOk, CallsOk, SnapOk, BackupsOk, LocksOk, GcOk, PendingOk, DistinctNames;
    WriterIdle(w, lim, a);
    OpMoves(w, v, a.t);
  }

  lemma WriterIdle(w: World, lim: Limits, a: Action)
    requires OwnersOk(w.ops, w.pool.calls) && WriterEnabled(w, lim, a)
    requires a.Begin? || a.TakeMaintRead? || a.WantWriteLock? || a.TakeWrite? || a.Unlock? || a.Leave?
    ensures Idle(w, a.t)
  {
  }

  ghost function NewHolder(lock: Option<Tid>, t: Tid, holds: bool): Option<Tid> {
    if holds then Some(t) else if lock == Some(t) then None else lock
  }

  ghost function NewReaders(readers: set<Tid>, t: Tid, holds: bool): set<Tid> {
    if holds == (t in readers) then readers else if holds then readers + {t} else readers - {t}
  }

  ghost predicate Grantable(lock: Option<Tid>, t: Tid) {
    lock.None? || lock == Some(t)
  }

  /** The locks follow one operation from `op` (None: ended) and stay consistent with all others. */
  ghost predicate LocksFollow(before: Locks, after: Locks, t: Tid, op: Option<Op>) {
    && after.maintReaders == NewReaders(before.maintReaders, t, op.Some? && HoldsMaintRead(op.value))
    && after.maintWriter == NewHolder(before.maintWriter, t, op.Some? && HoldsMaintWrite(op.value))
    && after.write == NewHolder(before.write, t, op.Some? && HoldsWrite(op.value))
    && after.meta == NewHolder(before.meta, t, op.Some? && HoldsMeta(op.value))
    && (op.Some? && HoldsMaintWrite(op.value) ==> Grantable(before.maintWriter, t))
    && (op.Some? && HoldsWrite(op.value) ==> Grantable(before.write, t))
    && (op.Some? && HoldsMeta(op.value) ==> Grantable(before.meta, t))
    && (after.maintWriter.Some? ==> after.maintReaders == {})
  }

  lemma LocksFollowOk(before: Locks, after: Locks, ops: map<Tid, Op>, t: Tid, op: Option<Op>)
    requires LocksOk(before, ops) && LocksFollow(before, after, t, op)
    ensures LocksOk(after, if op.Some? then ops[t := op.value] else ops - {t})
  {
    hide HoldsMaintRead, HoldsMaintWrite, HoldsWrite, HoldsMeta;
  }

  /** What the locks say about one operation before it moves. */
  ghost predicate LocksAt(locks: Locks, ops: map<Tid, Op>, t: Tid) {
    && (t in locks.maintReaders <==> t in ops && HoldsMaintRead(ops[t]))
    && (locks.maintWriter == Some(t) <==> t in ops && HoldsMaintWrite(ops[t]))
    && (locks.write == Some(t) <==> t in ops && HoldsWrite(ops[t]))
    && (locks.meta == Some(t) <==> t in ops && HoldsMeta(ops[t]))
    && (locks.maintWriter.Some? ==> locks.maintReaders == {})
  }

  ghost function OpAt(ops: map<Tid, Op>, t: Tid): Option<Op> {
    if t in ops then Some(ops[t]) else None
  }

  lemma WriterLocks(w: World, lim: Limits, a: Action)
    requires LocksOk(w.locks, w.ops) && WriterEnabled(w, lim, a)
    requires a.Begin? || a.TakeMaintRead? || a.WantWriteLock? || a.TakeWrite?
    ensures LocksOk(ApplyWriter(w, lim, a).locks, ApplyWriter(w, lim, a).ops)
  {
    assert LocksAt(w.locks, w.ops, a.t);
    hide LocksOk;
    var v := ApplyWriter(w, lim, a);
    assert LocksFollow(w.locks, v.locks, a.t, OpAt(v.ops, a.t));
    assert OneOpChanged(w.ops, v.ops, a.t);
    hide *;
    WriterFollows(w.locks, v.locks, w.ops, v.ops, a.t);
  }

  lemma WriterUnlocks(w: World, lim: Limits, a: Action)
    requires LocksOk(w.locks, w.ops) && WriterEnabled(w, lim, a)
    requires a.Unlock? || a.Leave?
    ensures LocksOk(ApplyWriter(w, lim, a).locks, ApplyWriter(w, lim, a).ops)
  {
    assert LocksAt(w.locks, w.ops, a.t);
    hide LocksOk;
    var v := ApplyWriter(w, lim, a);
    assert LocksFollow(w.locks, v.locks, a.t, OpAt(v.ops, a.t));
    assert OneOpChanged(w.ops, v.ops, a.t);
    hide *;
    WriterFollows(w.locks, v.locks, w.ops, v.ops, a.t);
  }

  ghost predicate OneOpChanged(before: map<Tid, Op>, after: map<Tid, Op>, t: Tid) {
    after == if t in after then before[t := after[t]] else before - {t}
  }

  lemma WriterFollows(before: Locks, after: Locks, ops: map<Tid, Op>, ops': map<Tid, Op>, t: Tid)
    requires LocksOk(before, ops) && LocksFollow(before, after, t, OpAt(ops', t))
    requires OneOpChanged(ops, ops', t)
    ensures LocksOk(after, ops')
  {
    hide LocksOk, LocksFollow;
    LocksFollowOk(before, after, ops, t, OpAt(ops', t));
  }

  lemma CollectSafe(w: World, lim: Limits, a: Action)
    requires Safe(w) && UploadEnabled(w, lim, a) && a.Collect?
    ensures Safe(ApplyUpload(w, lim, a))
  {
    hide Safe, GcOk, LocksOk, DbOk, BackupsOk, PendingOk, CallsOk, DistinctNames;
    var call := w.pool.calls[a.c];
    var op := w.ops[call.owner];
    var noted := if call.pc.out.Stored? then op.(got := op.got[call.slot := call.pc.out.id]) else op;
    var mid := w.(pool := w.pool.(calls := w.pool.calls - {a.c}));
    ShrinkKeeps(w, mid);
    WriterNotes(mid, call.owner, noted);
  }

  // ----------------------------------------------------------------------- GC

  lemma TakingLocks(w: World, a: Action)
    requires LocksOk(w.locks, w.ops) && GcEnabled(w, a)
    requires a.GcTakeMaint? || a.GcTakeWrite? || a.GcTakeMeta?
    ensures LocksOk(ApplyGc(w, a).locks, ApplyGc(w, a).ops)
  {
    assert LocksAt(w.locks, w.ops, a.t);
    hide LocksOk, Garbage, DeadIds, DeleteChunks, SnapNames, LinkedIds;
    var v := ApplyGc(w, a);
    assert LocksFollow(w.locks, v.locks, a.t, OpAt(v.ops, a.t));
    assert OneOpChanged(w.ops, v.ops, a.t);
    hide *;
    WriterFollows(w.locks, v.locks, w.ops, v.ops, a.t);
  }

  lemma ProtectingLocks(w: World, a: Action)
    requires LocksOk(w.locks, w.ops) && GcEnabled(w, a)
    requires a.GcProtect? || a.GcFail?
    ensures LocksOk(ApplyGc(w, a).locks, ApplyGc(w, a).ops)
  {
    assert LocksAt(w.locks, w.ops, a.t);
    hide LocksOk, Garbage, DeadIds, DeleteChunks, SnapNames, LinkedIds;
    var v := ApplyGc(w, a);
    assert LocksFollow(w.locks, v.locks, a.t, OpAt(v.ops, a.t));
    assert OneOpChanged(w.ops, v.ops, a.t);
    hide *;
    WriterFollows(w.locks, v.locks, w.ops, v.ops, a.t);
  }

  lemma LeavingLocks(w: World, a: Action)
    requires LocksOk(w.locks, w.ops) && GcEnabled(w, a)
    requires a.GcReleaseWrite? || a.GcReleaseMaint?
    ensures LocksOk(ApplyGc(w, a).locks, ApplyGc(w, a).ops)
  {
    assert LocksAt(w.locks, w.ops, a.t);
    hide LocksOk, Garbage, DeadIds, DeleteChunks, SnapNames, LinkedIds;
    var v := ApplyGc(w, a);
    assert LocksFollow(w.locks, v.locks, a.t, OpAt(v.ops, a.t));
    assert OneOpChanged(w.ops, v.ops, a.t);
    hide *;
    WriterFollows(w.locks, v.locks, w.ops, v.ops, a.t);
  }

  lemma PlanningLocks(w: World, a: Action)
    requires LocksOk(w.locks, w.ops) && GcEnabled(w, a)
    requires a.GcListBlobs? || a.GcReadRefs? || a.GcReadChunks?
    ensures LocksOk(ApplyGc(w, a).locks, ApplyGc(w, a).ops)
  {
    assert LocksAt(w.locks, w.ops, a.t);
    hide LocksOk, Garbage, DeadIds, DeleteChunks, SnapNames, LinkedIds;
    var v := ApplyGc(w, a);
    assert LocksFollow(w.locks, v.locks, a.t, OpAt(v.ops, a.t));
    assert OneOpChanged(w.ops, v.ops, a.t);
    hide *;
    WriterFollows(w.locks, v.locks, w.ops, v.ops, a.t);
  }

  lemma ReadingLocks(w: World, a: Action)
    requires LocksOk(w.locks, w.ops) && GcEnabled(w, a)
    requires a.GcListBackups? || a.GcReadBackup?
    ensures LocksOk(ApplyGc(w, a).locks, ApplyGc(w, a).ops)
  {
    assert LocksAt(w.locks, w.ops, a.t);
    hide LocksOk, Garbage, DeadIds, DeleteChunks, SnapNames, LinkedIds;
    var v := ApplyGc(w, a);
    assert LocksFollow(w.locks, v.locks, a.t, OpAt(v.ops, a.t));
    assert OneOpChanged(w.ops, v.ops, a.t);
    hide *;
    WriterFollows(w.locks, v.locks, w.ops, v.ops, a.t);
  }

  lemma RowSweepLocks(w: World, a: Action)
    requires LocksOk(w.locks, w.ops) && GcEnabled(w, a)
    requires a.GcDropRow? || a.GcRowsDone?
    ensures LocksOk(ApplyGc(w, a).locks, ApplyGc(w, a).ops)
  {
    assert LocksAt(w.locks, w.ops, a.t);
    hide LocksOk, Garbage, DeadIds, DeleteChunks, SnapNames, LinkedIds;
    var v := ApplyGc(w, a);
    assert LocksFollow(w.locks, v.locks, a.t, OpAt(v.ops, a.t));
    assert OneOpChanged(w.ops, v.ops, a.t);
    hide *;
    WriterFollows(w.locks, v.locks, w.ops, v.ops, a.t);
  }

  lemma BlobSweepLocks(w: World, a: Action)
    requires LocksOk(w.locks, w.ops) && GcEnabled(w, a)
    requires a.GcDropBlob? || a.GcDone?
    ensures LocksOk(ApplyGc(w, a).locks, ApplyGc(w, a).ops)
  {
    assert LocksAt(w.locks, w.ops, a.t);
    hide LocksOk, Garbage, DeadIds, DeleteChunks, SnapNames, LinkedIds;
    var v := ApplyGc(w, a);
    assert LocksFollow(w.locks, v.locks, a.t, OpAt(v.ops, a.t));
    assert OneOpChanged(w.ops, v.ops, a.t);
    hide *;
    WriterFollows(w.locks, v.locks, w.ops, v.ops, a.t);
  }

  lemma GcLocks(w: World, a: Action)
    requires LocksOk(w.locks, w.ops) && GcEnabled(w, a)
    ensures LocksOk(ApplyGc(w, a).locks, ApplyGc(w, a).ops)
  {
    hide LocksOk, ApplyGc;
    if a.GcTakeMaint? || a.GcTakeWrite? || a.GcTakeMeta? {
      TakingLocks(w, a);
    } else if a.GcProtect? || a.GcFail? {
      ProtectingLocks(w, a);
    } else if a.GcReleaseWrite? || a.GcReleaseMaint? {
      LeavingLocks(w, a);
    } else if a.GcListBlobs? || a.GcReadRefs? || a.GcReadChunks? {
      PlanningLocks(w, a);
    } else if a.GcListBackups? || a.GcReadBackup? {
      ReadingLocks(w, a);
    } else if a.GcDropRow? || a.GcRowsDone? {
      RowSweepLocks(w, a);
    } else {
      BlobSweepLocks(w, a);
    }
  }

  lemma GcIdle(w: World, a: Action)
    requires OwnersOk(w.ops, w.pool.calls) && GcEnabled(w, a)
    ensures Idle(w, a.t)
  {
    hide ApplyGc;
    assert w.ops[a.t].Gc?;
    hide GcEnabled;
    assert !MayStore(w.ops[a.t]);
  }

  ghost predicate PlansOnly(a: Action) {
    a.GcTakeMaint? || a.GcTakeWrite? || a.GcListBlobs? || a.GcReadRefs? || a.GcReadChunks? || a.GcTakeMeta?
    || a.GcListBackups? || a.GcReadBackup? || a.GcProtect? || a.GcRowsDone? || a.GcDone? || a.GcFail?
    || a.GcReleaseWrite? || a.GcReleaseMaint?
  }

  lemma SweepPlanned(db: Tables, listed: set<BlobName>)
    requires UniqueBlobs(db.chunks)
    ensures Sweep(db, Garbage(db.chunks, LinkedIds(db.links), listed), DeadIds(db.chunks, LinkedIds(db.links)))
  {
    var linked := LinkedIds(db.links);
    var garbage := Garbage(db.chunks, linked, listed);
    forall k | k in db.links ensures db.links[k] !in DeadIds(db.chunks, linked) {
      assert db.links[k] in linked;
    }
    forall c | c in db.chunks && db.chunks[c].blobName in garbage ensures c in DeadIds(db.chunks, linked) {
      assert db.chunks[c].blobName in RowNames(db.chunks);
    }
  }

  lemma ReadAll(w: World, g: Tid)
    requires LocksOk(w.locks, w.ops)
    requires g in w.ops && w.ops[g].Gc? && w.ops[g].gc.GcRead? && w.ops[g].gc.todo == {}
    requires ReadSoFar(w.backups, {}, w.ops[g].gc.protected)
    ensures AllSpared(w.backups, w.ops, w.ops[g].gc.garbage - w.ops[g].gc.protected)
  {
    GcMetaExcludes(w, g);
    var gc := w.ops[g].gc;
    forall b | b in w.backups && w.backups[b].MetaSnapshot? ensures Spared(w.backups[b].t, gc.garbage - gc.protected) {
      var t := w.backups[b].t;
      forall k | k in t.links && t.links[k] in t.chunks ensures t.chunks[t.links[k]].blobName in gc.protected {
        assert t.chunks[t.links[k]].blobName in SnapNames(t);
      }
    }
  }

  lemma SparedOps(backups: map<BlobName, MetaObject>, before: map<Tid, Op>, after: map<Tid, Op>, g: set<BlobName>)
    requires AllSpared(backups, before, g) && AllSparedKept(before, after)
    ensures AllSpared(backups, after, g)
  {
    hide Spared;
  }

  ghost predicate NewPlan(w: World, a: Action)
    requires GcEnabled(w, a)
  {
    var v := ApplyGc(w, a);
    a.t in v.ops && v.ops[a.t].Gc? ==> GcPhaseOk(v.ops[a.t].gc, v.db, v.backups, v.ops)
  }

  lemma EarlyPlanOk(w: World, a: Action)
    requires UniqueBlobs(w.db.chunks) && GcEnabled(w, a) && GcPhaseOk(w.ops[a.t].gc, w.db, w.backups, w.ops)
    requires a.GcTakeMaint? || a.GcTakeWrite? || a.GcListBlobs? || a.GcReadRefs? || a.GcReadChunks? || a.GcTakeMeta?
    ensures NewPlan(w, a)
  {
    hide Sweep, Spared, Garbage, DeadIds, LinkedIds;
    if a.GcReadChunks? {
      SweepPlanned(w.db, w.ops[a.t].gc.listed);
    }
  }

  lemma ReadPlanOk(w: World, a: Action)
    requires GcEnabled(w, a) && GcPhaseOk(w.ops[a.t].gc, w.db, w.backups, w.ops)
    requires a.GcListBackups? || a.GcReadBackup? || a.GcRowsDone?
    ensures NewPlan(w, a)
  {
    hide Sweep, Spared, SnapNames;
    var gc := w.ops[a.t].gc;
    if a.GcRowsDone? {
      SparedOps(w.backups, w.ops, ApplyGc(w, a).ops, gc.garbage);
    } else if a.GcReadBackup? {
      assert ReadSoFar(w.backups, gc.todo - {a.b}, gc.protected + SnapNames(w.backups[a.b].t));
    }
  }

  lemma EndPlanOk(w: World, a: Action)
    requires GcEnabled(w, a)
    requires a.GcDone? || a.GcFail? || a.GcReleaseWrite? || a.GcReleaseMaint?
    ensures NewPlan(w, a)
  {
  }

  lemma NewPlanOk(w: World, a: Action)
    requires Safe(w) && GcEnabled(w, a) && PlansOnly(a)
    ensures NewPlan(w, a)
  {
    assert GcPhaseOk(w.ops[a.t].gc, w.db, w.backups, w.ops) && UniqueBlobs(w.db.chunks);
    if a.GcProtect? {
      ProtectOk(w, a.t);
    } else if a.GcDone? || a.GcFail? || a.GcReleaseWrite? || a.GcReleaseMaint? {
      EndPlanOk(w, a);
    } else if a.GcListBackups? || a.GcReadBackup? || a.GcRowsDone? {
      hide Safe, NewPlan, GcPhaseOk;
      ReadPlanOk(w, a);
    } else {
      hide Safe, NewPlan, GcPhaseOk;
      EarlyPlanOk(w, a);
    }
  }

  lemma ProtectOk(w: World, g: Tid)
    requires Safe(w)
    requires g in w.ops && w.ops[g].Gc? && w.ops[g].gc.GcRead? && w.ops[g].gc.todo == {}
    ensures var gc := w.ops[g].gc;
      var spared := gc.garbage - gc.protected;
      var ops := w.ops[g := Gc(GcDropRows(spared, gc.dead))];
      Sweep(w.db, spared, gc.dead) && AllSpared(w.backups, ops, spared)
  {
    var gc := w.ops[g].gc;
    var ops := w.ops[g := Gc(GcDropRows(gc.garbage - gc.protected, gc.dead))];
    assert GcPhaseOk(gc, w.db, w.backups, w.ops);
    hide Consistent, SnapOk, LocksOk, Spared, CallsOk, DistinctNames, BackupsOk, OwnersOk;
    ReadAll(w, g);
    SparedOps(w.backups, w.ops, ops, gc.garbage - gc.protected);
  }

  /** Planning steps touch only GC's own phase and locks. */
  ghost predicate PlanFrame(w: World, v: World, t: Tid) {
    && v.db == w.db && v.blobs == w.blobs && v.backups == w.backups && v.names == w.names && v.pool == w.pool
    && (t in v.ops ==> v.ops == w.ops[t := v.ops[t]] && v.ops[t].Gc?)
    && (t !in v.ops ==> v.ops == w.ops - {t})
  }

  lemma EarlyFrame(w: World, a: Action)
    requires GcEnabled(w, a)
    requires a.GcTakeMaint? || a.GcTakeWrite? || a.GcListBlobs? || a.GcReadRefs? || a.GcReadChunks? || a.GcTakeMeta?
      || a.GcListBackups?
    ensures PlanFrame(w, ApplyGc(w, a), a.t)
  {
    hide Garbage, DeadIds, LinkedIds;
  }

  lemma LateFrame(w: World, a: Action)
    requires GcEnabled(w, a)
    requires a.GcReadBackup? || a.GcProtect? || a.GcRowsDone? || a.GcDone? || a.GcFail? || a.GcReleaseWrite?
      || a.GcReleaseMaint?
    ensures PlanFrame(w, ApplyGc(w, a), a.t)
  {
    hide SnapNames;
  }

  lemma PlanStepSafe(w: World, a: Action)
    requires Safe(w) && GcEnabled(w, a) && PlansOnly(a)
    ensures Safe(ApplyGc(w, a))
  {
    GcLocks(w, a);
    GcIdle(w, a);
    NewPlanOk(w, a);
    if a.GcReadBackup? || a.GcProtect? || a.GcRowsDone? || a.GcDone? || a.GcFail? || a.GcReleaseWrite?
      || a.GcReleaseMaint? {
      LateFrame(w, a);
    } else {
      EarlyFrame(w, a);
    }
    assert LocksOk(ApplyGc(w, a).locks, ApplyGc(w, a).ops);
    hide ApplyGc, GcEnabled, Safe, LocksOk, GcPhaseOk, Idle;
    OpMoves(w, ApplyGc(w, a), a.t);
  }

  lemma DropRowDb(db: Tables, g: set<BlobName>, dead: set<int>, id: int)
    requires Consistent(db) && Sweep(db, g, dead) && id in dead
    ensures Consistent(DeleteChunks(db, {id})) && RowsShrink(db.chunks, DeleteChunks(db, {id}).chunks)
    ensures Sweep(DeleteChunks(db, {id}), g, dead - {id})
  {
    assert RefsTo(db.links, id) == {};
    DeleteChunksConsistent(db, {id});
  }

  lemma DropRowSafe(w: World, a: Action)
    requires Safe(w) && GcEnabled(w, a) && a.GcDropRow?
    ensures Safe(ApplyGc(w, a))
  {
    var v := ApplyGc(w, a);
    var gc := w.ops[a.t].gc;
    assert GcPhaseOk(gc, w.db, w.backups, w.ops);
    DropRowDb(w.db, gc.garbage, gc.dead, a.id);
    ShrunkDb(w, v.db);
    GcLocks(w, a);
    GcExcludes(w, a.t);
    hide Consistent, DbOk, CallsOk, SnapOk, LocksOk, Sweep, Spared, DeleteChunks;
    SparedOps(w.backups, w.ops, v.ops, gc.garbage);
    OnePlan(w, v, a.t);
  }

  /** The GC holding the locks is the only one with a plan. */
  lemma OnePlan(w: World, v: World, g: Tid)
    requires g in w.ops && g in v.ops && v.ops[g].Gc? && v.ops == w.ops[g := v.ops[g]]
    requires forall t | t in w.ops && w.ops[t].Gc? && HoldsWrite(w.ops[t]) :: t == g
    requires GcPhaseOk(v.ops[g].gc, v.db, v.backups, v.ops)
    ensures GcOk(v.ops, v.db, v.backups)
  {
    hide Sweep, AllSpared, ReadSoFar;
    forall t | t in v.ops && v.ops[t].Gc? && t != g ensures GcPhaseOk(v.ops[t].gc, v.db, v.backups, v.ops) {
      assert !HoldsWrite(w.ops[t]);
    }
  }

  /** Deleting a garbage blob hurts neither a row nor a recovery point. */
  lemma DropBlobKeeps(w: World, v: World, n: BlobName, garbage: set<BlobName>)
    requires RowsBacked(w.db.chunks, w.blobs) && Sweep(w.db, garbage, {}) && n in garbage
    requires AllSpared(w.backups, w.ops, garbage)
    requires BackupsOk(w.backups, w.blobs, w.names, w.pool.calls)
    requires PendingOk(w.ops, w.blobs, w.names, w.pool.calls)
    requires v.backups == w.backups && v.names == w.names && v.pool == w.pool && v.db == w.db
    requires v.blobs == w.blobs - {n} || v.blobs == w.blobs
    requires AllSparedKept(w.ops, v.ops)
    ensures RowsBacked(v.db.chunks, v.blobs)
    ensures BackupsOk(v.backups, v.blobs, v.names, v.pool.calls)
    ensures PendingOk(v.ops, v.blobs, v.names, v.pool.calls)
  {
    assert forall m | m != n :: Fetch(v.blobs, m) == Fetch(w.blobs, m);
    forall t | SnapOk(t, w.blobs, w.names, w.pool.calls) && Spared(t, garbage)
      ensures SnapOk(t, v.blobs, v.names, v.pool.calls)
    {
      SparedSnap(t, w.blobs, v.blobs, w.names, w.pool.calls, n, garbage);
    }
  }

  lemma SparedSnap(t: Tables, before: Backend, after: Backend, names: set<BlobName>, calls: map<Cid, Call>,
                   n: BlobName, garbage: set<BlobName>)
    requires SnapOk(t, before, names, calls) && Spared(t, garbage) && n in garbage
    requires forall m | m != n :: Fetch(after, m) == Fetch(before, m)
    ensures SnapOk(t, after, names, calls)
  {
    hide Fetch;
  }

  lemma DropBlobSafe(w: World, a: Action)
    requires Safe(w) && GcEnabled(w, a) && a.GcDropBlob?
    ensures Safe(ApplyGc(w, a))
  {
    var v := ApplyGc(w, a);
    var gc := w.ops[a.t].gc;
    assert GcPhaseOk(gc, w.db, w.backups, w.ops);
    GcLocks(w, a);
    GcExcludes(w, a.t);
    hide Consistent, SnapOk, LocksOk, Spared, RowsBacked, UniqueBlobs, RowsNamed;
    DropBlobKeeps(w, v, a.n, gc.garbage);
    SparedOps(w.backups, w.ops, v.ops, gc.garbage);
    FewerGarbage(v.backups, v.ops, gc.garbage, a.n);
    OnePlan(w, v, a.t);
  }

  lemma FewerGarbage(backups: map<BlobName, MetaObject>, ops: map<Tid, Op>, garbage: set<BlobName>, n: BlobName)
    requires AllSpared(backups, ops, garbage)
    ensures AllSpared(backups, ops, garbage - {n})
  {
  }

  // ------------------------------------------------------------------- backups

  lemma CreatingLocks(w: World, lim: Limits, a: Action)
    requires LocksOk(w.locks, w.ops) && BackupEnabled(w, lim, a)
    requires a.BkTakeMeta? || a.BkTakeSnapshot? || a.BkUploadOk? || a.BkUploadFails? || a.BkVerifyOk?
      || a.BkVerifyFails?
    ensures LocksOk(ApplyBackup(w, lim, a).locks, ApplyBackup(w, lim, a).ops)
  {
    assert LocksAt(w.locks, w.ops, a.t);
    hide LocksOk, ValidSnapshot, Oldest;
    var v := ApplyBackup(w, lim, a);
    assert LocksFollow(w.locks, v.locks, a.t, OpAt(v.ops, a.t));
    assert OneOpChanged(w.ops, v.ops, a.t);
    hide *;
    WriterFollows(w.locks, v.locks, w.ops, v.ops, a.t);
  }

  lemma PruningLocks(w: World, lim: Limits, a: Action)
    requires LocksOk(w.locks, w.ops) && BackupEnabled(w, lim, a)
    requires a.BkDiscarded? || a.BkListOld? || a.BkDeleteOld?
    ensures LocksOk(ApplyBackup(w, lim, a).locks, ApplyBackup(w, lim, a).ops)
  {
    assert LocksAt(w.locks, w.ops, a.t);
    hide LocksOk, ValidSnapshot, Oldest;
    var v := ApplyBackup(w, lim, a);
    assert LocksFollow(w.locks, v.locks, a.t, OpAt(v.ops, a.t));
    assert OneOpChanged(w.ops, v.ops, a.t);
    hide *;
    WriterFollows(w.locks, v.locks, w.ops, v.ops, a.t);
  }

  lemma EndingLocks(w: World, lim: Limits, a: Action)
    requires LocksOk(w.locks, w.ops) && BackupEnabled(w, lim, a)
    requires a.BkDone? || a.BkFail? || a.BkRelease?
    ensures LocksOk(ApplyBackup(w, lim, a).locks, ApplyBackup(w, lim, a).ops)
  {
    assert LocksAt(w.locks, w.ops, a.t);
    hide LocksOk, ValidSnapshot, Oldest;
    var v := ApplyBackup(w, lim, a);
    assert LocksFollow(w.locks, v.locks, a.t, OpAt(v.ops, a.t));
    assert OneOpChanged(w.ops, v.ops, a.t);
    hide *;
    WriterFollows(w.locks, v.locks, w.ops, v.ops, a.t);
  }

  lemma BackupLocks(w: World, lim: Limits, a: Action)
    requires LocksOk(w.locks, w.ops) && BackupEnabled(w, lim, a)
    ensures LocksOk(ApplyBackup(w, lim, a).locks, ApplyBackup(w, lim, a).ops)
  {
    hide LocksOk, ApplyBackup;
    if a.BkTakeMeta? || a.BkTakeSnapshot? || a.BkUploadOk? || a.BkUploadFails? || a.BkVerifyOk? || a.BkVerifyFails? {
      CreatingLocks(w, lim, a);
    } else if a.BkDiscarded? || a.BkListOld? || a.BkDeleteOld? {
      PruningLocks(w, lim, a);
    } else {
      EndingLocks(w, lim, a);
    }
  }

  lemma BackupIdle(w: World, lim: Limits, a: Action)
    requires OwnersOk(w.ops, w.pool.calls) && BackupEnabled(w, lim, a)
    ensures Idle(w, a.t)
  {
    hide ApplyBackup;
    assert w.ops[a.t].Backup?;
    hide BackupEnabled;
    assert !MayStore(w.ops[a.t]);
  }

  lemma BackupMovesSafe(w: World, lim: Limits, a: Action)
    requires Safe(w) && BackupEnabled(w, lim, a)
    requires a.BkTakeMeta? || a.BkVerifyOk? || a.BkVerifyFails? || a.BkListOld? || a.BkDone? || a.BkFail?
      || a.BkRelease?
    ensures Safe(ApplyBackup(w, lim, a))
  {
    BackupLocks(w, lim, a);
    BackupIdle(w, lim, a);
    hide DbOk, CallsOk, SnapOk, BackupsOk, LocksOk, GcOk, PendingOk, DistinctNames, OwnersOk, Oldest, ValidSnapshot;
    OpMoves(w, ApplyBackup(w, lim, a), a.t);
  }

  lemma HasRow(chunks: Chunks, c: int)
    requires c in chunks
    ensures !NoRow(chunks, chunks[c].blobName)
  {
  }

  /** A snapshot of the live manifest: its files' blobs are rows' blobs. */
  lemma LiveSnapOk(w: World)
    requires DbOk(w.db, w.blobs, w.names) && CallsOk(w.db.chunks, w.blobs, w.names, w.pool.calls)
    ensures SnapOk(w.db, w.blobs, w.names, w.pool.calls)
  {
    hide Consistent, NameOf;
    forall k | k in w.db.links && w.db.links[k] in w.db.chunks
      ensures var row := w.db.chunks[w.db.links[k]];
        Backed(row, w.blobs) && row.blobName in w.names && NoOwner(w.pool.calls, row.blobName)
    {
      HasRow(w.db.chunks, w.db.links[k]);
    }
  }

  /** A plan that spares the live links spares a snapshot taken now. */
  lemma LiveSpared(db: Tables, garbage: set<BlobName>, dead: set<int>)
    requires Sweep(db, garbage, dead)
    ensures Spared(db, garbage)
  {
    forall k | k in db.links && db.links[k] in db.chunks ensures db.chunks[db.links[k]].blobName !in garbage {
      var c := db.links[k];
      assert c !in dead;
    }
  }

  lemma SnapshotPlans(w: World, v: World, t: Tid)
    requires GcOk(w.ops, w.db, w.backups) && LocksOk(w.locks, w.ops)
    requires v.db == w.db && v.backups == w.backups
    requires t in w.ops && HoldsMeta(w.ops[t]) && w.ops[t].Backup? && t in v.ops && v.ops[t].Backup?
    requires v.ops == w.ops[t := v.ops[t]]
    requires Pending(v.ops, t) ==> v.ops[t].bk.snap == w.db
    ensures GcOk(v.ops, v.db, v.backups)
  {
    forall g | g in v.ops && v.ops[g].Gc? ensures GcPhaseOk(v.ops[g].gc, v.db, v.backups, v.ops) {
      assert g != t && v.ops[g] == w.ops[g] && GcPhaseOk(w.ops[g].gc, w.db, w.backups, w.ops);
      SnapshotPlan(w, v, t, w.ops[g].gc);
    }
  }

  lemma SnapshotPlan(w: World, v: World, t: Tid, gc: GcPhase)
    requires GcPhaseOk(gc, w.db, w.backups, w.ops)
    requires v.db == w.db && v.backups == w.backups
    requires t in v.ops && v.ops == w.ops[t := v.ops[t]]
    requires Pending(v.ops, t) ==> v.ops[t].bk.snap == w.db
    ensures GcPhaseOk(gc, v.db, v.backups, v.ops)
  {
    hide Sweep, Spared, ReadSoFar;
    forall u | Pending(v.ops, u) ensures u == t || (Pending(w.ops, u) && v.ops[u] == w.ops[u]) {
    }
    if gc.GcDropRows? {
      LiveSpared(w.db, gc.garbage, gc.dead);
    } else if gc.GcDropBlobs? {
      LiveSpared(w.db, gc.garbage, {});
    }
  }

  lemma TakeSnapshotSafe(w: World, lim: Limits, a: Action)
    requires Safe(w) && BackupEnabled(w, lim, a) && a.BkTakeSnapshot?
    ensures Safe(ApplyBackup(w, lim, a))
  {
    BackupLocks(w, lim, a);
    LiveSnapOk(w);
    hide DbOk, CallsOk, SnapOk, LocksOk, GcOk, ValidSnapshot;
    var v := ApplyBackup(w, lim, a);
    SnapshotPlans(w, v, a.t);
    assert forall u | Pending(v.ops, u) :: u == a.t || (Pending(w.ops, u) && v.ops[u] == w.ops[u]);
  }

  /** While a backup holds the Meta lock no GC is reading the backups. */
  lemma BackupShutsReaderOut(w: World, t: Tid)
    requires LocksOk(w.locks, w.ops)
    requires t in w.ops && w.ops[t].Backup? && HoldsMeta(w.ops[t])
    ensures forall g | g in w.ops && w.ops[g].Gc? :: !w.ops[g].gc.GcRead?
  {
    assert w.locks.meta == Some(t);
    forall g | g in w.ops && w.ops[g].Gc? ensures !w.ops[g].gc.GcRead? {
      assert HoldsMeta(w.ops[g]) ==> g == t;
    }
  }

  /** Backups may vanish, turn out corrupt, or gain the pending snapshot. */
  ghost predicate BackupsFrom(w: World, v: World, t: Tid) {
    forall b | b in v.backups && v.backups[b].MetaSnapshot? ::
      (b in w.backups && v.backups[b] == w.backups[b]) || (Pending(w.ops, t) && v.backups[b].t == w.ops[t].bk.snap)
  }

  lemma BackupsChange(w: World, v: World, t: Tid)
    requires Safe(w)
    requires t in w.ops && w.ops[t].Backup? && HoldsMeta(w.ops[t])
    requires t in v.ops && v.ops[t].Backup? && !Pending(v.ops, t) && v.ops == w.ops[t := v.ops[t]]
    requires v.db == w.db && v.blobs == w.blobs && v.names == w.names && v.pool == w.pool
    requires BackupsFrom(w, v, t)
    requires LocksOk(v.locks, v.ops) && Idle(w, t)
    ensures Safe(v)
  {
    BackupShutsReaderOut(w, t);
    hide DbOk, CallsOk, SnapOk, LocksOk, DistinctNames;
    forall g | g in v.ops && v.ops[g].Gc? ensures GcPhaseOk(v.ops[g].gc, v.db, v.backups, v.ops) {
      assert g != t && GcPhaseOk(w.ops[g].gc, w.db, w.backups, w.ops);
      BackupsPlan(w, v, t, w.ops[g].gc);
    }
    assert AllSparedKept(w.ops, v.ops);
  }

  lemma BackupsPlan(w: World, v: World, t: Tid, gc: GcPhase)
    requires GcPhaseOk(gc, w.db, w.backups, w.ops) && !gc.GcRead?
    requires t in v.ops && !Pending(v.ops, t) && v.ops == w.ops[t := v.ops[t]] && v.db == w.db
    requires BackupsFrom(w, v, t)
    ensures GcPhaseOk(gc, v.db, v.backups, v.ops)
  {
    hide Sweep, Spared;
    assert AllSparedKept(w.ops, v.ops);
  }

  lemma BackupStoreSafe(w: World, lim: Limits, a: Action)
    requires Safe(w) && BackupEnabled(w, lim, a)
    requires a.BkUploadOk? || a.BkUploadFails? || a.BkDiscarded? || a.BkDeleteOld?
    ensures Safe(ApplyBackup(w, lim, a))
  {
    BackupLocks(w, lim, a);
    BackupIdle(w, lim, a);
    hide DbOk, CallsOk, SnapOk, BackupsOk, LocksOk, GcOk, PendingOk, DistinctNames, OwnersOk, ValidSnapshot;
    BackupsChange(w, ApplyBackup(w, lim, a), a.t);
  }

  // ------------------------------------------------------------------- theorems

  lemma StartSafe()
    ensures Safe(Start)
  {
    assert forall c :: RefsTo(EmptyTables.links, c) == {};
  }

  lemma StepSafe(w: World, lim: Limits, a: Action)
    requires Safe(w) && Enabled(w, lim, a)
    ensures Safe(Apply(w, lim, a))
  {
    hide Safe, LookupEnabled, UploadEnabled, WriterEnabled, GcEnabled, BackupEnabled,
      ApplyLookup, ApplyUpload, ApplyWriter, ApplyGc, ApplyBackup;
    if LookupEnabled(w, lim, a) {
      LookupSafe(w, lim, a);
    } else if UploadEnabled(w, lim, a) {
      UploadSafe(w, lim, a);
    } else if WriterEnabled(w, lim, a) {
      WriterSafe(w, lim, a);
    } else if GcEnabled(w, a) {
      GcSafe(w, a);
    } else {
      BackupSafe(w, lim, a);
    }
  }

  lemma LookupSafe(w: World, lim: Limits, a: Action)
    requires Safe(w) && LookupEnabled(w, lim, a)
    ensures Safe(ApplyLookup(w, lim, a))
  {
    hide Safe, ApplyLookup;
    if a.StartCall? {
      StartCallSafe(w, lim, a);
    } else {
      LookupStepSafe(w, lim, a);
    }
  }

  lemma UploadSafe(w: World, lim: Limits, a: Action)
    requires Safe(w) && UploadEnabled(w, lim, a)
    ensures Safe(ApplyUpload(w, lim, a))
  {
    hide Safe, ApplyUpload;
    if a.DrawName? {
      DrawNameSafe(w, lim, a);
    } else if a.InsertOk? {
      InsertSafe(w, lim, a);
    } else if a.Collect? {
      CollectSafe(w, lim, a);
    } else if Reports(a) {
      ReportSafe(w, lim, a);
    } else if Finishes(a) {
      FinishSafe(w, lim, a);
    } else if FailsQuietly(a) {
      FailSafe(w, lim, a);
    } else {
      BlobStepSafe(w, lim, a);
    }
  }

  lemma WriterSafe(w: World, lim: Limits, a: Action)
    requires Safe(w) && WriterEnabled(w, lim, a)
    ensures Safe(ApplyWriter(w, lim, a))
  {
    hide Safe, ApplyWriter;
    if a.Cleanup? || a.Commit? || a.EditRow? || a.DeleteRow? || a.ForgetFile? {
      ManifestWriterSafe(w, lim, a);
    } else {
      WriterMovesSafe(w, lim, a);
    }
  }

  lemma GcSafe(w: World, a: Action)
    requires Safe(w) && GcEnabled(w, a)
    ensures Safe(ApplyGc(w, a))
  {
    hide Safe, ApplyGc;
    if a.GcDropRow? {
      DropRowSafe(w, a);
    } else if a.GcDropBlob? {
      DropBlobSafe(w, a);
    } else {
      PlanStepSafe(w, a);
    }
  }

  lemma BackupSafe(w: World, lim: Limits, a: Action)
    requires Safe(w) && BackupEnabled(w, lim, a)
    ensures Safe(ApplyBackup(w, lim, a))
  {
    hide Safe, ApplyBackup;
    if a.BkTakeSnapshot? {
      TakeSnapshotSafe(w, lim, a);
    } else if a.BkUploadOk? || a.BkUploadFails? || a.BkDiscarded? || a.BkDeleteOld? {
      BackupStoreSafe(w, lim, a);
    } else {
      BackupMovesSafe(w, lim, a);
    }
  }

  /** The invariant holds after every run: any threads, any interleaving, any failures. */
  lemma {:induction false} EveryRunSafe(lim: Limits, run: seq<Action>)
    requires Execute(lim, run).Some?
    ensures Safe(Execute(lim, run).value)
    decreases |run|
  {
    hide Safe, Apply, Enabled;
    if run == [] {
      StartSafe();
    } else {
      EveryRunSafe(lim, run[..|run| - 1]);
      StepSafe(Execute(lim, run[..|run| - 1]).value, lim, run[|run| - 1]);
    }
  }
}
