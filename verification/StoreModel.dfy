/**
 The running store: concurrent StoreChunk calls, file writers (PutFile, rsync sessions, path
 edits), GC and Meta backups over one manifest, one backend and the module's locks
 (internal/core/repo/repo.go, internal/core/repo/meta_backup.go).

 A run is a sequence of actions. Each action is one atomic step of one thread: one SQLite
 transaction, one backend call, one lock or channel operation. Backend calls may fail.
 */
module StoreModel {
  import opened Sequences
  import opened Manifest
  import opened Paths
  import opened Snapshot

  type Tid = nat
  type Cid = nat
  type RepoId = nat
  type FlightId = nat

  // ------------------------------------------------------------ StoreChunk calls

  datatype Outcome = Stored(id: int, reused: bool) | Failed

  /** Where a StoreChunk call stands. */
  datatype Pc =
    | WantSlot
    | Lookup
    | Register
    | Waiting(flight: FlightId)
    | Naming(flight: FlightId)
    | WantGate(flight: FlightId, blob: BlobName)
    | Uploading(flight: FlightId, blob: BlobName)
    | Inserting(flight: FlightId, blob: BlobName)
    | Rechecking(flight: FlightId, blob: BlobName)
    | Discarding(flight: FlightId, blob: BlobName, id: int)
    | Unregistering(flight: FlightId, out: Outcome)
    | Signalling(flight: FlightId, out: Outcome)
    | Releasing(out: Outcome)
    | Returned(out: Outcome)

  datatype Call = Call(owner: Tid, repo: RepoId, slot: nat, data: bytes, pc: Pc)

  datatype Flight = Flight(owner: Cid, repo: RepoId, hash: Hash, out: Option<Outcome>)

  datatype FlightKey = FlightKey(repo: RepoId, hash: Hash)

  /** Limiter slots, upload gate, and the in-flight tables of all Repo instances. */
  datatype Pool = Pool(
    slots: set<Cid>,
    gate: set<Cid>,
    inflight: map<FlightKey, FlightId>,
    flights: map<FlightId, Flight>,
    calls: map<Cid, Call>)

  // ------------------------------------------------------------------ operations

  datatype WriterKind = Put | Session | Edit

  datatype WriterPhase = WantMaint | Streaming | WantWrite | Locked | Draining

  datatype GcPhase =
    | GcWantMaint
    | GcWantWrite
    | GcList
    | GcRefs(listed: set<BlobName>)
    | GcScan(listed: set<BlobName>, referenced: set<int>)
    | GcWantMeta(garbage: set<BlobName>, dead: set<int>)
    | GcListMeta(garbage: set<BlobName>, dead: set<int>)
    | GcRead(garbage: set<BlobName>, dead: set<int>, todo: set<BlobName>, protected: set<BlobName>)
    | GcDropRows(garbage: set<BlobName>, dead: set<int>)
    | GcDropBlobs(garbage: set<BlobName>)
    | GcUnlockWrite
    | GcUnlockMaint

  datatype BackupPhase =
    | BkWantMeta
    | BkSnapshot
    | BkUpload(name: BlobName, snap: Tables)
    | BkVerify(name: BlobName)
    | BkDiscard(name: BlobName)
    | BkPrune
    | BkDelete(todo: set<BlobName>)
    | BkUnlock

  /** `pieces` are the chunks of the file being written, `got` the chunk ids returned so far. */
  datatype Op =
    | Writer(kind: WriterKind, phase: WriterPhase, pieces: seq<bytes>, got: map<nat, int>)
    | Gc(gc: GcPhase)
    | Backup(bk: BackupPhase)

  /** A stored Meta object: a decryptable snapshot, or the remains of a failed upload. */
  datatype MetaObject = MetaSnapshot(t: Tables) | MetaCorrupt

  datatype Locks = Locks(
    maintReaders: set<Tid>,
    maintWriter: Option<Tid>,
    write: Option<Tid>,
    meta: Option<Tid>)

  datatype Limits = Limits(slots: nat, gate: nat, retain: nat)

  datatype World = World(
    db: Tables,
    blobs: Backend,
    backups: map<BlobName, MetaObject>,
    names: set<BlobName>,
    issued: map<int, Hash>,
    locks: Locks,
    pool: Pool,
    ops: map<Tid, Op>)

  const Start := World(EmptyTables, map[], map[], {}, map[],
                       Locks({}, None, None, None), Pool({}, {}, map[], map[], map[]), map[])

  // ---------------------------------------------------------------- lock holding

  ghost predicate HoldsMaintRead(op: Op) {
    op.Writer? && op.kind == Put && op.phase != WantMaint
  }

  ghost predicate HoldsMaintWrite(op: Op) {
    op.Gc? && !op.gc.GcWantMaint?
  }

  ghost predicate HoldsWrite(op: Op) {
    (op.Writer? && op.phase == Locked) ||
    (op.Gc? && !op.gc.GcWantMaint? && !op.gc.GcWantWrite? && !op.gc.GcUnlockMaint?)
  }

  ghost predicate HoldsMeta(op: Op) {
    (op.Backup? && !op.bk.BkWantMeta?) || (op.Gc? && (op.gc.GcListMeta? || op.gc.GcRead?))
  }

  /** StoreChunk runs under the maintenance read lock (PutFile) or the write lock (rsync session). */
  ghost predicate MayStore(op: Op) {
    op.Writer? && ((op.kind == Put && op.phase == Streaming) || (op.kind == Session && op.phase == Locked))
  }

  ghost predicate Idle(w: World, t: Tid) {
    forall c | c in w.pool.calls :: w.pool.calls[c].owner != t
  }

  // ---------------------------------------------------------------- small updates

  ghost function SetPc(w: World, c: Cid, pc: Pc): World
    requires c in w.pool.calls
  {
    w.(pool := w.pool.(calls := w.pool.calls[c := w.pool.calls[c].(pc := pc)]))
  }

  ghost function SetOp(w: World, t: Tid, op: Op): World {
    w.(ops := w.ops[t := op])
  }

  ghost function HashOf(call: Call): Hash {
    Sha256(call.data)
  }

  ghost function KeyOf(call: Call): FlightKey {
    FlightKey(call.repo, HashOf(call))
  }

  /** What a waiter on a flight returns: the uploader's result, marked as reused. */
  ghost function AsReused(out: Outcome): Outcome {
    match out
    case Stored(id, _) => Stored(id, true)
    case Failed => Failed
  }

  ghost function NameOf(pc: Pc): Option<BlobName> {
    match pc
    case WantGate(_, b) => Some(b)
    case Uploading(_, b) => Some(b)
    case Inserting(_, b) => Some(b)
    case Rechecking(_, b) => Some(b)
    case Discarding(_, b, _) => Some(b)
    case _ => None
  }

  ghost function RowNames(chunks: Chunks): set<BlobName> {
    set c | c in chunks :: chunks[c].blobName
  }

  ghost function LinkedIds(links: Links): set<int> {
    set k | k in links :: links[k]
  }

  /** Blobs that the files of a snapshot need. */
  ghost function SnapNames(t: Tables): set<BlobName> {
    set k | k in t.links && t.links[k] in t.chunks :: t.chunks[t.links[k]].blobName
  }

  ghost function DeadIds(chunks: Chunks, referenced: set<int>): set<int> {
    set c | c in chunks && c !in referenced
  }

  ghost function Garbage(chunks: Chunks, referenced: set<int>, listed: set<BlobName>): set<BlobName> {
    (set c | c in chunks && c !in referenced :: chunks[c].blobName) + (listed - RowNames(chunks))
  }

  // -------------------------------------------------------------------- actions

  datatype Action =
    // StoreChunk
    | StartCall(t: Tid, c: Cid, repo: RepoId, data: bytes)
    | TakeSlot(c: Cid)
    | LookupHit(c: Cid, id: int)
    | LookupMiss(c: Cid)
    | CancelCall(c: Cid)
    | JoinFlight(c: Cid)
    | OpenFlight(c: Cid, f: FlightId)
    | WakeUp(c: Cid)
    | DrawName(c: Cid, n: BlobName)
    | NamingFails(c: Cid)
    | TakeGate(c: Cid)
    | UploadOk(c: Cid)
    | UploadFails(c: Cid, left: Option<Blob>)
    | InsertOk(c: Cid, id: int)
    | InsertFails(c: Cid)
    | RecheckHit(c: Cid, id: int)
    | RecheckMiss(c: Cid)
    | Discard(c: Cid, ok: bool)
    | Unregister(c: Cid)
    | Signal(c: Cid)
    | ReleaseSlot(c: Cid)
    | Collect(c: Cid)
    // writers
    | Begin(t: Tid, op: Op)
    | TakeMaintRead(t: Tid)
    | WantWriteLock(t: Tid)
    | TakeWrite(t: Tid)
    | Cleanup(t: Tid, id: int)
    | Commit(t: Tid, row: FileRow, fid: int)
    | EditRow(t: Tid, row: FileRow, refs: seq<ChunkRef>, fid: int)
    | DeleteRow(t: Tid, path: Path)
    | ForgetFile(t: Tid)
    | Unlock(t: Tid)
    | Leave(t: Tid)
    // GC
    | GcTakeMaint(t: Tid)
    | GcTakeWrite(t: Tid)
    | GcListBlobs(t: Tid)
    | GcReadRefs(t: Tid)
    | GcReadChunks(t: Tid)
    | GcTakeMeta(t: Tid)
    | GcListBackups(t: Tid)
    | GcReadBackup(t: Tid, b: BlobName)
    | GcProtect(t: Tid)
    | GcDropRow(t: Tid, id: int)
    | GcRowsDone(t: Tid)
    | GcDropBlob(t: Tid, n: BlobName, ok: bool)
    | GcDone(t: Tid)
    | GcFail(t: Tid)
    | GcReleaseWrite(t: Tid)
    | GcReleaseMaint(t: Tid)
    // backup
    | BkTakeMeta(t: Tid)
    | BkTakeSnapshot(t: Tid, name: BlobName)
    | BkUploadOk(t: Tid)
    | BkUploadFails(t: Tid, remains: Option<MetaObject>)
    | BkVerifyOk(t: Tid)
    | BkVerifyFails(t: Tid)
    | BkDiscarded(t: Tid, ok: bool)
    | BkListOld(t: Tid, todo: set<BlobName>)
    | BkDeleteOld(t: Tid, b: BlobName)
    | BkDone(t: Tid)
    | BkFail(t: Tid)
    | BkRelease(t: Tid)

  ghost predicate IsWriter(w: World, t: Tid) {
    t in w.ops && w.ops[t].Writer?
  }

  ghost predicate IsGc(w: World, t: Tid) {
    t in w.ops && w.ops[t].Gc?
  }

  ghost predicate IsBackup(w: World, t: Tid) {
    t in w.ops && w.ops[t].Backup?
  }

  ghost predicate HasHash(chunks: Chunks, h: Hash) {
    exists c | c in chunks :: chunks[c].hash == h
  }

  /** A pending GC blocks new maintenance readers, as a waiting RWMutex writer does. */
  ghost predicate WriterPending(w: World) {
    exists t | t in w.ops :: w.ops[t].Gc? && w.ops[t].gc.GcWantMaint?
  }

  /** validMetaNames sorts by name; all but the last `retain` are old. */
  ghost predicate Oldest(all: set<BlobName>, todo: set<BlobName>, retain: nat) {
    && todo <= all
    && |all - todo| <= retain
    && (todo != {} ==> |all - todo| == retain)
    && forall a, b | a in todo && b in all - todo :: LexLess(a, b)
  }

  /** An operation at its first step. */
  ghost predicate Initial(op: Op) {
    match op
    case Writer(kind, phase, pieces, got) =>
      pieces == [] && got == map[] && phase == if kind == Put then WantMaint else WantWrite
    case Gc(gc) => gc == GcWantMaint
    case Backup(bk) => bk == BkWantMeta
  }

  /** All chunks of the current file have been stored. */
  ghost predicate AllGot(op: Op)
    requires op.Writer?
  {
    forall i: nat :: i in op.got <==> i < |op.pieces|
  }

  ghost function RefsGot(op: Op): seq<ChunkRef>
    requires op.Writer? && AllGot(op)
  {
    seq(|op.pieces|, i requires 0 <= i < |op.pieces| => ChunkRef(op.got[i], i))
  }

  /** Slot, lookup and the in-flight table. */
  ghost predicate LookupEnabled(w: World, lim: Limits, a: Action) {
    var calls := w.pool.calls;
    match a
    case StartCall(t, c, repo, data) => t in w.ops && MayStore(w.ops[t]) && c !in calls
    case TakeSlot(c) => c in calls && calls[c].pc.WantSlot? && (lim.slots == 0 || |w.pool.slots| < lim.slots)
    case LookupHit(c, id) =>
      c in calls && calls[c].pc.Lookup? && id in w.db.chunks && w.db.chunks[id].hash == HashOf(calls[c])
    case LookupMiss(c) => c in calls && calls[c].pc.Lookup? && !HasHash(w.db.chunks, HashOf(calls[c]))
    case CancelCall(c) =>
      c in calls && (calls[c].pc.WantSlot? || calls[c].pc.Lookup? || calls[c].pc.Waiting? || calls[c].pc.WantGate?)
    case JoinFlight(c) => c in calls && calls[c].pc.Register? && KeyOf(calls[c]) in w.pool.inflight
    case OpenFlight(c, f) =>
      c in calls && calls[c].pc.Register? && KeyOf(calls[c]) !in w.pool.inflight && f !in w.pool.flights
    case WakeUp(c) =>
      c in calls && calls[c].pc.Waiting? && calls[c].pc.flight in w.pool.flights
        && w.pool.flights[calls[c].pc.flight].out.Some?
    case _ => false
  }

  /** The uploader's part: name, upload, insert, clean up, report. */
  ghost predicate UploadEnabled(w: World, lim: Limits, a: Action) {
    var calls := w.pool.calls;
    match a
    case DrawName(c, n) => c in calls && calls[c].pc.Naming? && n !in w.names
    case NamingFails(c) => c in calls && calls[c].pc.Naming?
    case TakeGate(c) => c in calls && calls[c].pc.WantGate? && (lim.gate == 0 || |w.pool.gate| < lim.gate)
    case UploadOk(c) => c in calls && calls[c].pc.Uploading?
    case UploadFails(c, left) => c in calls && calls[c].pc.Uploading?
    case InsertOk(c, id) => c in calls && calls[c].pc.Inserting? &&
      Insert(w.db, id, HashOf(calls[c]), |calls[c].data|, calls[c].pc.blob).Some?
    case InsertFails(c) => c in calls && calls[c].pc.Inserting?
    case RecheckHit(c, id) =>
      c in calls && calls[c].pc.Rechecking? && id in w.db.chunks && w.db.chunks[id].hash == HashOf(calls[c])
    case RecheckMiss(c) => c in calls && calls[c].pc.Rechecking?
    case Discard(c, ok) => c in calls && calls[c].pc.Discarding?
    case Unregister(c) => c in calls && calls[c].pc.Unregistering?
    case Signal(c) => c in calls && calls[c].pc.Signalling? && calls[c].pc.flight in w.pool.flights
    case ReleaseSlot(c) => c in calls && calls[c].pc.Releasing?
    case Collect(c) => c in calls && calls[c].pc.Returned? && IsWriter(w, calls[c].owner)
    case _ => false
  }

  ghost predicate WriterEnabled(w: World, lim: Limits, a: Action) {
    match a
    case Begin(t, op) => t !in w.ops && Initial(op)
    case TakeMaintRead(t) =>
      IsWriter(w, t) && w.ops[t].kind == Put && w.ops[t].phase == WantMaint && w.locks.maintWriter.None?
        && !WriterPending(w)
    case WantWriteLock(t) => IsWriter(w, t) && w.ops[t].kind == Put && w.ops[t].phase == Streaming && Idle(w, t)
    case TakeWrite(t) => IsWriter(w, t) && w.ops[t].phase == WantWrite && w.locks.write.None?
    case Cleanup(t, id) =>
      IsWriter(w, t) && w.ops[t].kind == Put && (w.ops[t].phase == Streaming || w.ops[t].phase == Locked)
    case Commit(t, row, fid) =>
      IsWriter(w, t) && w.ops[t].kind != Edit && w.ops[t].phase == Locked && Idle(w, t) && AllGot(w.ops[t])
      && fid !in DeleteRows(w.db, row.path).files
    case EditRow(t, row, refs, fid) =>
      IsWriter(w, t) && w.ops[t].kind != Put && w.ops[t].phase == Locked && Ordered(refs)
      && fid !in DeleteRows(w.db, row.path).files
    case DeleteRow(t, path) => IsWriter(w, t) && w.ops[t].kind != Put && w.ops[t].phase == Locked
    case ForgetFile(t) => IsWriter(w, t) && w.ops[t].phase == Locked && Idle(w, t)
    case Unlock(t) => IsWriter(w, t) && w.ops[t].phase == Locked && Idle(w, t)
    case Leave(t) =>
      IsWriter(w, t) && w.ops[t].kind == Put && (w.ops[t].phase == Streaming || w.ops[t].phase == Draining)
        && Idle(w, t)
    case _ => false
  }

  ghost predicate GcEnabled(w: World, a: Action) {
    match a
    case GcTakeMaint(t) =>
      IsGc(w, t) && w.ops[t].gc.GcWantMaint? && w.locks.maintWriter.None? && w.locks.maintReaders == {}
    case GcTakeWrite(t) => IsGc(w, t) && w.ops[t].gc.GcWantWrite? && w.locks.write.None?
    case GcListBlobs(t) => IsGc(w, t) && w.ops[t].gc.GcList?
    case GcReadRefs(t) => IsGc(w, t) && w.ops[t].gc.GcRefs?
    case GcReadChunks(t) => IsGc(w, t) && w.ops[t].gc.GcScan?
    case GcTakeMeta(t) => IsGc(w, t) && w.ops[t].gc.GcWantMeta? && w.locks.meta.None?
    case GcListBackups(t) => IsGc(w, t) && w.ops[t].gc.GcListMeta?
    case GcReadBackup(t, b) =>
      IsGc(w, t) && w.ops[t].gc.GcRead? && b in w.ops[t].gc.todo && b in w.backups && w.backups[b].MetaSnapshot?
    case GcProtect(t) => IsGc(w, t) && w.ops[t].gc.GcRead? && w.ops[t].gc.todo == {}
    case GcDropRow(t, id) => IsGc(w, t) && w.ops[t].gc.GcDropRows? && id in w.ops[t].gc.dead
    case GcRowsDone(t) => IsGc(w, t) && w.ops[t].gc.GcDropRows? && w.ops[t].gc.dead == {}
    case GcDropBlob(t, n, ok) => IsGc(w, t) && w.ops[t].gc.GcDropBlobs? && n in w.ops[t].gc.garbage
    case GcDone(t) => IsGc(w, t) && w.ops[t].gc.GcDropBlobs? && w.ops[t].gc.garbage == {}
    case GcFail(t) =>
      IsGc(w, t) && HoldsWrite(w.ops[t]) && !w.ops[t].gc.GcDropBlobs? && !w.ops[t].gc.GcUnlockWrite?
        && !w.ops[t].gc.GcWantMeta?
    case GcReleaseWrite(t) => IsGc(w, t) && w.ops[t].gc.GcUnlockWrite?
    case GcReleaseMaint(t) => IsGc(w, t) && w.ops[t].gc.GcUnlockMaint?
    case _ => false
  }

  ghost predicate BackupEnabled(w: World, lim: Limits, a: Action) {
    match a
    case BkTakeMeta(t) => IsBackup(w, t) && w.ops[t].bk.BkWantMeta? && w.locks.meta.None?
    case BkTakeSnapshot(t, name) =>
      IsBackup(w, t) && w.ops[t].bk.BkSnapshot? && lim.retain >= 1 && name !in w.backups && ValidSnapshot(w.db)
    case BkUploadOk(t) => IsBackup(w, t) && w.ops[t].bk.BkUpload?
    case BkUploadFails(t, remains) => IsBackup(w, t) && w.ops[t].bk.BkUpload? &&
      (remains.Some? ==> remains.value == MetaCorrupt || remains.value == MetaSnapshot(w.ops[t].bk.snap))
    case BkVerifyOk(t) => IsBackup(w, t) && w.ops[t].bk.BkVerify?
    case BkVerifyFails(t) => IsBackup(w, t) && w.ops[t].bk.BkVerify?
    case BkDiscarded(t, ok) => IsBackup(w, t) && w.ops[t].bk.BkDiscard?
    case BkListOld(t, todo) => IsBackup(w, t) && w.ops[t].bk.BkPrune? && Oldest(w.backups.Keys, todo, lim.retain)
    case BkDeleteOld(t, b) => IsBackup(w, t) && w.ops[t].bk.BkDelete? && b in w.ops[t].bk.todo
    case BkDone(t) => IsBackup(w, t) && w.ops[t].bk.BkDelete? && w.ops[t].bk.todo == {}
    case BkFail(t) =>
      IsBackup(w, t)
        && (w.ops[t].bk.BkSnapshot? || w.ops[t].bk.BkUpload? || w.ops[t].bk.BkPrune? || w.ops[t].bk.BkDelete?)
    case BkRelease(t) => IsBackup(w, t) && w.ops[t].bk.BkUnlock?
    case _ => false
  }

  ghost predicate Enabled(w: World, lim: Limits, a: Action) {
    LookupEnabled(w, lim, a) || UploadEnabled(w, lim, a) || WriterEnabled(w, lim, a) || GcEnabled(w, a)
      || BackupEnabled(w, lim, a)
  }

  // -------------------------------------------------------------------- effects

  ghost function ApplyLookup(w: World, lim: Limits, a: Action): World
    requires LookupEnabled(w, lim, a)
  {
    var pool := w.pool;
    match a
    case StartCall(t, c, repo, data) =>
      var op := w.ops[t];
      var call := Call(t, repo, |op.pieces|, data, WantSlot);
      SetOp(w, t, op.(pieces := op.pieces + [data])).(pool := pool.(calls := pool.calls[c := call]))
    case TakeSlot(c) =>
      SetPc(w.(pool := pool.(slots := pool.slots + {c})), c, Lookup)
    case LookupHit(c, id) => SetPc(w, c, Releasing(Stored(id, true)))
    case LookupMiss(c) => SetPc(w, c, Register)
    case CancelCall(c) =>
      SetPc(w, c, match pool.calls[c].pc
                  case WantSlot => Returned(Failed)
                  case WantGate(f, _) => Unregistering(f, Failed)
                  case _ => Releasing(Failed))
    case JoinFlight(c) => SetPc(w, c, Waiting(pool.inflight[KeyOf(pool.calls[c])]))
    case OpenFlight(c, f) =>
      var call := pool.calls[c];
      SetPc(w.(pool := pool.(inflight := pool.inflight[KeyOf(call) := f],
                             flights := pool.flights[f := Flight(c, call.repo, HashOf(call), None)])), c, Naming(f))
    case WakeUp(c) => SetPc(w, c, Releasing(AsReused(pool.flights[pool.calls[c].pc.flight].out.value)))
  }

  ghost predicate BeforeInsert(a: Action) {
    a.DrawName? || a.NamingFails? || a.TakeGate? || a.UploadOk? || a.UploadFails?
  }

  ghost function ApplyNaming(w: World, lim: Limits, a: Action): World
    requires UploadEnabled(w, lim, a) && BeforeInsert(a)
  {
    var pool := w.pool;
    match a
    case DrawName(c, n) => SetPc(w.(names := w.names + {n}), c, WantGate(pool.calls[c].pc.flight, n))
    case NamingFails(c) => SetPc(w, c, Unregistering(pool.calls[c].pc.flight, Failed))
    case TakeGate(c) =>
      SetPc(w.(pool := pool.(gate := pool.gate + {c})), c, Uploading(pool.calls[c].pc.flight, pool.calls[c].pc.blob))
    case UploadOk(c) =>
      var call := pool.calls[c];
      SetPc(w.(blobs := w.blobs[call.pc.blob := Sealed(call.pc.blob, call.data)],
        pool := pool.(gate := pool.gate - {c})),
            c, Inserting(call.pc.flight, call.pc.blob))
    case UploadFails(c, left) =>
      var call := pool.calls[c];
      SetPc(w.(blobs := if left.Some? then w.blobs[call.pc.blob := left.value] else w.blobs,
               pool := pool.(gate := pool.gate - {c})),
            c, Unregistering(call.pc.flight, Failed))
  }

  ghost function ApplyReport(w: World, lim: Limits, a: Action): World
    requires UploadEnabled(w, lim, a) && !BeforeInsert(a)
  {
    var pool := w.pool;
    match a
    case InsertOk(c, id) =>
      var call := pool.calls[c];
      SetPc(w.(db := Insert(w.db, id, HashOf(call), |call.data|, call.pc.blob).value,
               issued := w.issued[id := HashOf(call)]),
            c, Unregistering(call.pc.flight, Stored(id, false)))
    case InsertFails(c) => SetPc(w, c, Rechecking(pool.calls[c].pc.flight, pool.calls[c].pc.blob))
    case RecheckHit(c, id) => SetPc(w, c, Discarding(pool.calls[c].pc.flight, pool.calls[c].pc.blob, id))
    case RecheckMiss(c) => SetPc(w, c, Unregistering(pool.calls[c].pc.flight, Failed))
    case Discard(c, ok) =>
      var pc := pool.calls[c].pc;
      SetPc(w.(blobs := if ok then w.blobs - {pc.blob} else w.blobs), c, Unregistering(pc.flight, Stored(pc.id, true)))
    case Unregister(c) =>
      var call := pool.calls[c];
      SetPc(w.(pool := pool.(inflight := pool.inflight - {KeyOf(call)})), c, Signalling(call.pc.flight, call.pc.out))
    case Signal(c) =>
      var pc := pool.calls[c].pc;
      SetPc(w.(pool := pool.(flights := pool.flights[pc.flight := pool.flights[pc.flight].(out := Some(pc.out))])),
            c, Releasing(pc.out))
    case ReleaseSlot(c) =>
      SetPc(w.(pool := pool.(slots := pool.slots - {c})), c, Returned(pool.calls[c].pc.out))
    case Collect(c) =>
      var call := pool.calls[c];
      var op := w.ops[call.owner];
      SetOp(w, call.owner, if call.pc.out.Stored? then op.(got := op.got[call.slot := call.pc.out.id]) else op)
        .(pool := pool.(calls := pool.calls - {c}))
  }

  ghost function ApplyUpload(w: World, lim: Limits, a: Action): World
    requires UploadEnabled(w, lim, a)
  {
    if BeforeInsert(a) then ApplyNaming(w, lim, a) else ApplyReport(w, lim, a)
  }

  ghost function Reset(op: Op): Op
    requires op.Writer?
  {
    op.(pieces := [], got := map[])
  }

  ghost function ApplyWriter(w: World, lim: Limits, a: Action): World
    requires WriterEnabled(w, lim, a)
  {
    match a
    case Begin(t, op) => SetOp(w, t, op)
    case TakeMaintRead(t) =>
      SetOp(w.(locks := w.locks.(maintReaders := w.locks.maintReaders + {t})), t, w.ops[t].(phase := Streaming))
    case WantWriteLock(t) => SetOp(w, t, w.ops[t].(phase := WantWrite))
    case TakeWrite(t) => SetOp(w.(locks := w.locks.(write := Some(t))), t, w.ops[t].(phase := Locked))
    case Cleanup(t, id) => w.(db := DeleteIfZero(w.db, id))
    case Commit(t, row, fid) =>
      var u := Upsert(w.db, row, RefsGot(w.ops[t]), fid);
      SetOp(w.(db := if u.Some? then u.value else w.db), t, Reset(w.ops[t]))
    case EditRow(t, row, refs, fid) =>
      var u := Upsert(w.db, row, refs, fid);
      w.(db := if u.Some? then u.value else w.db)
    case DeleteRow(t, path) => w.(db := Delete(w.db, path))
    case ForgetFile(t) => SetOp(w, t, Reset(w.ops[t]))
    case Unlock(t) =>
      var free := w.(locks := w.locks.(write := None));
      if w.ops[t].kind == Put then SetOp(free, t, w.ops[t].(phase := Draining)) else free.(ops := w.ops - {t})
    case Leave(t) => w.(locks := w.locks.(maintReaders := w.locks.maintReaders - {t}), ops := w.ops - {t})
  }

  ghost function ApplyGc(w: World, a: Action): World
    requires GcEnabled(w, a)
  {
    match a
    case GcTakeMaint(t) => SetOp(w.(locks := w.locks.(maintWriter := Some(t))), t, Gc(GcWantWrite))
    case GcTakeWrite(t) => SetOp(w.(locks := w.locks.(write := Some(t))), t, Gc(GcList))
    case GcListBlobs(t) => SetOp(w, t, Gc(if w.blobs == map[] then GcUnlockWrite else GcRefs(w.blobs.Keys)))
    case GcReadRefs(t) => SetOp(w, t, Gc(GcScan(w.ops[t].gc.listed, LinkedIds(w.db.links))))
    case GcReadChunks(t) =>
      var gc := w.ops[t].gc;
      SetOp(w, t, Gc(GcWantMeta(Garbage(w.db.chunks, gc.referenced, gc.listed), DeadIds(w.db.chunks, gc.referenced))))
    case GcTakeMeta(t) =>
      SetOp(w.(locks := w.locks.(meta := Some(t))), t, Gc(GcListMeta(w.ops[t].gc.garbage, w.ops[t].gc.dead)))
    case GcListBackups(t) => SetOp(w, t, Gc(GcRead(w.ops[t].gc.garbage, w.ops[t].gc.dead, w.backups.Keys, {})))
    case GcReadBackup(t, b) =>
      var gc := w.ops[t].gc;
      SetOp(w, t, Gc(gc.(todo := gc.todo - {b}, protected := gc.protected + SnapNames(w.backups[b].t))))
    case GcProtect(t) =>
      var gc := w.ops[t].gc;
      SetOp(w.(locks := w.locks.(meta := None)), t, Gc(GcDropRows(gc.garbage - gc.protected, gc.dead)))
    case GcDropRow(t, id) =>
      var gc := w.ops[t].gc;
      SetOp(w.(db := DeleteChunks(w.db, {id})), t, Gc(gc.(dead := gc.dead - {id})))
    case GcRowsDone(t) => SetOp(w, t, Gc(GcDropBlobs(w.ops[t].gc.garbage)))
    case GcDropBlob(t, n, ok) =>
      var gc := w.ops[t].gc;
      SetOp(w.(blobs := if ok then w.blobs - {n} else w.blobs), t, Gc(gc.(garbage := gc.garbage - {n})))
    case GcDone(t) => SetOp(w, t, Gc(GcUnlockWrite))
    case GcFail(t) =>
      SetOp(if HoldsMeta(w.ops[t]) then w.(locks := w.locks.(meta := None)) else w, t, Gc(GcUnlockWrite))
    case GcReleaseWrite(t) => SetOp(w.(locks := w.locks.(write := None)), t, Gc(GcUnlockMaint))
    case GcReleaseMaint(t) => w.(locks := w.locks.(maintWriter := None), ops := w.ops - {t})
  }

  ghost function ApplyBackup(w: World, lim: Limits, a: Action): World
    requires BackupEnabled(w, lim, a)
  {
    match a
    case BkTakeMeta(t) => SetOp(w.(locks := w.locks.(meta := Some(t))), t, Backup(BkSnapshot))
    case BkTakeSnapshot(t, name) => SetOp(w, t, Backup(BkUpload(name, w.db)))
    case BkUploadOk(t) =>
      var bk := w.ops[t].bk;
      SetOp(w.(backups := w.backups[bk.name := MetaSnapshot(bk.snap)]), t, Backup(BkVerify(bk.name)))
    case BkUploadFails(t, remains) =>
      var bk := w.ops[t].bk;
      SetOp(w.(backups := if remains.Some? then w.backups[bk.name := remains.value] else w.backups), t,
        Backup(BkDiscard(bk.name)))
    case BkVerifyOk(t) => SetOp(w, t, Backup(BkPrune))
    case BkVerifyFails(t) => SetOp(w, t, Backup(BkDiscard(w.ops[t].bk.name)))
    case BkDiscarded(t, ok) =>
      SetOp(w.(backups := if ok then w.backups - {w.ops[t].bk.name} else w.backups), t, Backup(BkUnlock))
    case BkListOld(t, todo) => SetOp(w, t, Backup(BkDelete(todo)))
    case BkDeleteOld(t, b) =>
      SetOp(w.(backups := w.backups - {b}), t, Backup(BkDelete(w.ops[t].bk.todo - {b})))
    case BkDone(t) => SetOp(w, t, Backup(BkUnlock))
    case BkFail(t) => SetOp(w, t, Backup(BkUnlock))
    case BkRelease(t) => w.(locks := w.locks.(meta := None), ops := w.ops - {t})
  }

  ghost function Apply(w: World, lim: Limits, a: Action): World
    requires Enabled(w, lim, a)
  {
    if LookupEnabled(w, lim, a) then ApplyLookup(w, lim, a)
    else if UploadEnabled(w, lim, a) then ApplyUpload(w, lim, a)
    else if WriterEnabled(w, lim, a) then ApplyWriter(w, lim, a)
    else if GcEnabled(w, a) then ApplyGc(w, a)
    else ApplyBackup(w, lim, a)
  }

  /** The state a sequence of actions leads to from the empty store; None when some action was not enabled. */
  ghost function Execute(lim: Limits, run: seq<Action>): Option<World>
    decreases |run|
  {
    if run == [] then Some(Start)
    else
      match Execute(lim, run[..|run| - 1])
      case None => None
      case Some(w) =>
        if Enabled(w, lim, run[|run| - 1]) then Some(Apply(w, lim, run[|run| - 1])) else None
  }
}
