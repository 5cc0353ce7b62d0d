/**
 What a committed file contains. PutFile and the rsync session hold chunk ids outside any
 transaction, and SQLite may issue the id of a deleted row again. A commit stores exactly the
 pieces that were handed to StoreChunk unless an id was issued again while it was held.
 */
module StoreContent {
  import opened Sequences
  import opened Manifest
  import opened ManifestInvariants
  import opened Snapshot
  import opened StoreModel
  import opened StoreSafety
  import opened StoreValidity
  import opened StoreProgress

  /** The id was last issued for content with this hash. */
  ghost predicate Knows(issued: map<int, Hash>, id: int, h: Hash) {
    id in issued && issued[id] == h
  }

  ghost predicate OutOk(issued: map<int, Hash>, out: Outcome, h: Hash) {
    out.Stored? ==> Knows(issued, out.id, h)
  }

  ghost predicate OnFlight(flights: map<FlightId, Flight>, f: FlightId, h: Hash) {
    f in flights && flights[f].hash == h
  }

  /** The flight a call waits on or uploads for. */
  ghost predicate Flies(pc: Pc) {
    pc.Waiting? || pc.Naming? || pc.WantGate? || pc.Uploading? || pc.Inserting? || pc.Rechecking? || pc.Discarding?
    || pc.Unregistering? || pc.Signalling?
  }

  ghost predicate HasOut(pc: Pc) {
    pc.Unregistering? || pc.Signalling? || pc.Releasing? || pc.Returned?
  }

  ghost predicate CallKnows(issued: map<int, Hash>, flights: map<FlightId, Flight>, call: Call) {
    var h := HashOf(call);
    && (Flies(call.pc) ==> OnFlight(flights, call.pc.flight, h))
    && (HasOut(call.pc) ==> OutOk(issued, call.pc.out, h))
    && (call.pc.Discarding? ==> Knows(issued, call.pc.id, h))
    && (call.pc.Waiting? && flights[call.pc.flight].out.Some? ==> OutOk(issued, flights[call.pc.flight].out.value, h))
  }

  ghost predicate RowsIssued(chunks: Chunks, issued: map<int, Hash>) {
    forall c | c in chunks :: Knows(issued, c, chunks[c].hash)
  }

  ghost predicate CallsKnow(issued: map<int, Hash>, pool: Pool) {
    && (forall c | c in pool.calls :: CallKnows(issued, pool.flights, pool.calls[c]))
    && (forall key | key in pool.inflight :: OnFlight(pool.flights, pool.inflight[key], key.hash))
  }

  /** A call's slot is the place of its data among its operation's pieces. */
  ghost predicate SlotsMatch(ops: map<Tid, Op>, calls: map<Cid, Call>) {
    forall c | c in calls ::
      && calls[c].owner in ops && ops[calls[c].owner].Writer?
      && calls[c].slot < |ops[calls[c].owner].pieces| && ops[calls[c].owner].pieces[calls[c].slot] == calls[c].data
  }

  ghost predicate GotKnown(issued: map<int, Hash>, op: Op) {
    op.Writer? ==> forall i | i in op.got :: i < |op.pieces| && Knows(issued, op.got[i], Sha256(op.pieces[i]))
  }

  ghost predicate OpsKnow(issued: map<int, Hash>, ops: map<Tid, Op>) {
    forall t | t in ops :: GotKnown(issued, ops[t])
  }

  ghost predicate ContentOk(w: World) {
    && RowsIssued(w.db.chunks, w.issued)
    && CallsKnow(w.issued, w.pool)
    && SlotsMatch(w.ops, w.pool.calls)
    && OpsKnow(w.issued, w.ops)
  }

  ghost predicate Names(out: Outcome, id: int) {
    out.Stored? && out.id == id
  }

  /** The call is about to return this id, or waits for a flight that has. */
  ghost predicate CallHolds(flights: map<FlightId, Flight>, call: Call, id: int) {
    || (HasOut(call.pc) && Names(call.pc.out, id))
    || (call.pc.Discarding? && call.pc.id == id)
    || (call.pc.Waiting? && call.pc.flight in flights && flights[call.pc.flight].out.Some?
        && Names(flights[call.pc.flight].out.value, id))
  }

  /** Some writer has been returned this id for a piece of its file, or some call is about to return it. */
  ghost predicate Held(w: World, id: int) {
    || (exists t :: t in w.ops && w.ops[t].Writer? && id in w.ops[t].got.Values)
    || (exists c :: c in w.pool.calls && CallHolds(w.pool.flights, w.pool.calls[c], id))
  }

  /** No id is issued while it is held. */
  ghost predicate FreshStep(w: World, a: Action) {
    a.InsertOk? ==> !Held(w, a.id)
  }

  ghost predicate FreshRun(lim: Limits, run: seq<Action>)
    requires Execute(lim, run).Some?
    decreases |run|
  {
    run != [] ==>
      FreshRun(lim, run[..|run| - 1]) && FreshStep(Execute(lim, run[..|run| - 1]).value, run[|run| - 1])
  }

  // ------------------------------------------------------------------ preservation

  /** One call moves on; nothing it or the others know is lost. */
  lemma MovesContent(w: World, v: World, c: Cid)
    requires ContentOk(w)
    requires v.db == w.db && v.issued == w.issued && v.ops == w.ops && v.pool.flights == w.pool.flights
    requires forall key | key in v.pool.inflight ::
      key in w.pool.inflight && v.pool.inflight[key] == w.pool.inflight[key]
    requires c in w.pool.calls && c in v.pool.calls
    requires v.pool.calls == w.pool.calls[c := w.pool.calls[c].(pc := v.pool.calls[c].pc)]
    requires CallKnows(v.issued, v.pool.flights, v.pool.calls[c])
    ensures ContentOk(v)
  {
    hide CallKnows, Knows, OutOk, OnFlight;
  }

  /** Nobody joins a flight that has already been settled. */
  ghost predicate Unsettled(pool: Pool) {
    forall key | key in pool.inflight && pool.inflight[key] in pool.flights ::
      pool.flights[pool.inflight[key]].out.None?
  }

  lemma PoolUnsettled(pool: Pool)
    requires PoolOk(pool)
    ensures Unsettled(pool)
  {
  }

  lemma LookupContent(w: World, lim: Limits, a: Action)
    requires ContentOk(w) && Unsettled(w.pool) && LookupEnabled(w, lim, a) && !a.StartCall? && !a.OpenFlight?
    ensures ContentOk(ApplyLookup(w, lim, a))
  {
    LookupKnows(w, lim, a);
    hide ContentOk, CallKnows, HasHash;
    MovesContent(w, ApplyLookup(w, lim, a), a.c);
  }

  lemma HitKnows(w: World, lim: Limits, a: Action)
    requires ContentOk(w) && LookupEnabled(w, lim, a)
    requires a.LookupHit?
    ensures var v := ApplyLookup(w, lim, a);
      a.c in v.pool.calls && CallKnows(v.issued, v.pool.flights, v.pool.calls[a.c])
  {
    assert CallKnows(w.issued, w.pool.flights, w.pool.calls[a.c]);
    hide SlotsMatch, OpsKnow, HasHash;
  }

  lemma LookKnows(w: World, lim: Limits, a: Action)
    requires ContentOk(w) && LookupEnabled(w, lim, a)
    requires a.TakeSlot? || a.LookupMiss?
    ensures var v := ApplyLookup(w, lim, a);
      a.c in v.pool.calls && CallKnows(v.issued, v.pool.flights, v.pool.calls[a.c])
  {
    assert CallKnows(w.issued, w.pool.flights, w.pool.calls[a.c]);
    hide SlotsMatch, OpsKnow, HasHash;
  }

  lemma WaitKnows(w: World, lim: Limits, a: Action)
    requires ContentOk(w) && LookupEnabled(w, lim, a)
    requires Unsettled(w.pool) && (a.JoinFlight? || a.WakeUp?)
    ensures var v := ApplyLookup(w, lim, a);
      a.c in v.pool.calls && CallKnows(v.issued, v.pool.flights, v.pool.calls[a.c])
  {
    assert CallKnows(w.issued, w.pool.flights, w.pool.calls[a.c]);
    hide SlotsMatch, OpsKnow, RowsIssued, HasHash;
  }

  lemma CancelKnows(w: World, lim: Limits, a: Action)
    requires ContentOk(w) && LookupEnabled(w, lim, a) && a.CancelCall?
    ensures var v := ApplyLookup(w, lim, a);
      a.c in v.pool.calls && CallKnows(v.issued, v.pool.flights, v.pool.calls[a.c])
  {
    assert CallKnows(w.issued, w.pool.flights, w.pool.calls[a.c]);
    hide ContentOk, HasHash;
  }

  lemma LookupKnows(w: World, lim: Limits, a: Action)
    requires ContentOk(w) && Unsettled(w.pool) && LookupEnabled(w, lim, a) && !a.StartCall? && !a.OpenFlight?
    ensures var v := ApplyLookup(w, lim, a);
      a.c in v.pool.calls && CallKnows(v.issued, v.pool.flights, v.pool.calls[a.c])
  {
    hide ContentOk, CallKnows, ApplyLookup;
    if a.LookupHit? {
      HitKnows(w, lim, a);
    } else if a.TakeSlot? || a.LookupMiss? {
      LookKnows(w, lim, a);
    } else if a.CancelCall? {
      CancelKnows(w, lim, a);
    } else {
      WaitKnows(w, lim, a);
    }
  }

  /** A new flight, which its opener uploads for. */
  ghost predicate Opens(w: World, v: World, c: Cid, f: FlightId) {
    && v.db == w.db && v.issued == w.issued && v.ops == w.ops
    && c in w.pool.calls && f !in w.pool.flights
    && v.pool.calls == w.pool.calls[c := w.pool.calls[c].(pc := Naming(f))]
    && v.pool.inflight == w.pool.inflight[KeyOf(w.pool.calls[c]) := f]
    && v.pool.flights == w.pool.flights[f := Flight(c, w.pool.calls[c].repo, HashOf(w.pool.calls[c]), None)]
  }

  lemma OpenStep(w: World, lim: Limits, a: Action)
    requires LookupEnabled(w, lim, a) && a.OpenFlight?
    ensures Opens(w, ApplyLookup(w, lim, a), a.c, a.f)
  {
    hide HasHash;
  }

  lemma OpenCalls(w: World, v: World, c: Cid, f: FlightId)
    requires Opens(w, v, c, f) && CallsKnow(w.issued, w.pool)
    ensures CallsKnow(v.issued, v.pool)
  {
    hide Knows;
    forall g, h | OnFlight(w.pool.flights, g, h) ensures OnFlight(v.pool.flights, g, h) {
    }
    forall d | d in v.pool.calls ensures CallKnows(v.issued, v.pool.flights, v.pool.calls[d]) {
      assert CallKnows(w.issued, w.pool.flights, w.pool.calls[d]);
    }
    hide CallKnows;
  }

  lemma OpenSlots(w: World, v: World, c: Cid, f: FlightId)
    requires Opens(w, v, c, f) && SlotsMatch(w.ops, w.pool.calls)
    ensures SlotsMatch(v.ops, v.pool.calls)
  {
  }

  lemma OpenContent(w: World, lim: Limits, a: Action)
    requires ContentOk(w) && LookupEnabled(w, lim, a) && a.OpenFlight?
    ensures ContentOk(ApplyLookup(w, lim, a))
  {
    OpenStep(w, lim, a);
    hide ApplyLookup, LookupEnabled, CallsKnow, SlotsMatch, OpsKnow, RowsIssued;
    OpenCalls(w, ApplyLookup(w, lim, a), a.c, a.f);
    OpenSlots(w, ApplyLookup(w, lim, a), a.c, a.f);
  }

  lemma StartContent(w: World, lim: Limits, a: Action)
    requires ContentOk(w) && LookupEnabled(w, lim, a) && a.StartCall?
    ensures ContentOk(ApplyLookup(w, lim, a))
  {
    hide RowsIssued, Knows;
    var v := ApplyLookup(w, lim, a);
    assert GotKnown(w.issued, w.ops[a.t]);
    assert GotKnown(v.issued, v.ops[a.t]);
  }

  ghost predicate PlainUploadStep(a: Action) {
    !a.InsertOk? && !a.Collect? && !a.Signal?
  }

  lemma NamingKnows(w: World, lim: Limits, a: Action)
    requires ContentOk(w) && UploadEnabled(w, lim, a)
    requires a.DrawName? || a.NamingFails? || a.TakeGate?
    ensures var v := ApplyUpload(w, lim, a);
      a.c in v.pool.calls && CallKnows(v.issued, v.pool.flights, v.pool.calls[a.c])
  {
    assert CallKnows(w.issued, w.pool.flights, w.pool.calls[a.c]);
    hide ContentOk, HasHash;
  }

  lemma SendingKnows(w: World, lim: Limits, a: Action)
    requires ContentOk(w) && UploadEnabled(w, lim, a)
    requires a.UploadOk? || a.UploadFails?
    ensures var v := ApplyUpload(w, lim, a);
      a.c in v.pool.calls && CallKnows(v.issued, v.pool.flights, v.pool.calls[a.c])
  {
    assert CallKnows(w.issued, w.pool.flights, w.pool.calls[a.c]);
    hide ContentOk, HasHash;
  }

  lemma RecheckKnows(w: World, lim: Limits, a: Action)
    requires ContentOk(w) && UploadEnabled(w, lim, a)
    requires a.InsertFails? || a.RecheckHit? || a.RecheckMiss?
    ensures var v := ApplyUpload(w, lim, a);
      a.c in v.pool.calls && CallKnows(v.issued, v.pool.flights, v.pool.calls[a.c])
  {
    assert CallKnows(w.issued, w.pool.flights, w.pool.calls[a.c]);
    hide SlotsMatch, OpsKnow, CallsKnow, HasHash;
  }

  lemma ReportKnows(w: World, lim: Limits, a: Action)
    requires ContentOk(w) && UploadEnabled(w, lim, a)
    requires a.Unregister? || a.ReleaseSlot?
    ensures var v := ApplyUpload(w, lim, a);
      a.c in v.pool.calls && CallKnows(v.issued, v.pool.flights, v.pool.calls[a.c])
  {
    assert CallKnows(w.issued, w.pool.flights, w.pool.calls[a.c]);
    hide ContentOk, HasHash;
  }

  lemma DiscardKnows(w: World, lim: Limits, a: Action)
    requires ContentOk(w) && UploadEnabled(w, lim, a)
    requires a.Discard?
    ensures var v := ApplyUpload(w, lim, a);
      a.c in v.pool.calls && CallKnows(v.issued, v.pool.flights, v.pool.calls[a.c])
  {
    assert CallKnows(w.issued, w.pool.flights, w.pool.calls[a.c]);
    hide ContentOk, HasHash;
  }

  lemma UploadKnows(w: World, lim: Limits, a: Action)
    requires ContentOk(w) && UploadEnabled(w, lim, a) && PlainUploadStep(a)
    ensures var v := ApplyUpload(w, lim, a);
      a.c in v.pool.calls && CallKnows(v.issued, v.pool.flights, v.pool.calls[a.c])
  {
    hide ContentOk, CallKnows, ApplyUpload;
    if a.DrawName? || a.NamingFails? || a.TakeGate? {
      NamingKnows(w, lim, a);
    } else if a.UploadOk? || a.UploadFails? {
      SendingKnows(w, lim, a);
    } else if a.InsertFails? || a.RecheckHit? || a.RecheckMiss? {
      RecheckKnows(w, lim, a);
    } else if a.Discard? {
      DiscardKnows(w, lim, a);
    } else {
      ReportKnows(w, lim, a);
    }
  }

  lemma UploadContent(w: World, lim: Limits, a: Action)
    requires ContentOk(w) && UploadEnabled(w, lim, a) && PlainUploadStep(a)
    ensures ContentOk(ApplyUpload(w, lim, a))
  {
    UploadKnows(w, lim, a);
    hide ContentOk, CallKnows;
    MovesContent(w, ApplyUpload(w, lim, a), a.c);
  }

  lemma SignalContent(w: World, lim: Limits, a: Action)
    requires ContentOk(w) && UploadEnabled(w, lim, a) && a.Signal?
    ensures ContentOk(ApplyUpload(w, lim, a))
  {
    var v := ApplyUpload(w, lim, a);
    assert CallKnows(w.issued, w.pool.flights, w.pool.calls[a.c]);
    forall f, h | OnFlight(w.pool.flights, f, h) ensures OnFlight(v.pool.flights, f, h) {
    }
    hide Knows;
    forall c | c in v.pool.calls ensures CallKnows(v.issued, v.pool.flights, v.pool.calls[c]) {
      assert CallKnows(w.issued, w.pool.flights, w.pool.calls[c]);
    }
  }

  lemma CollectContent(w: World, lim: Limits, a: Action)
    requires ContentOk(w) && UploadEnabled(w, lim, a) && a.Collect?
    ensures ContentOk(ApplyUpload(w, lim, a))
  {
    hide RowsIssued;
    var v := ApplyUpload(w, lim, a);
    var call := w.pool.calls[a.c];
    assert CallKnows(w.issued, w.pool.flights, call);
    assert GotKnown(w.issued, w.ops[call.owner]);
    assert GotKnown(v.issued, v.ops[call.owner]);
  }

  lemma StillKnown(issued: map<int, Hash>, id: int, h: Hash, flights: map<FlightId, Flight>, call: Call)
    requires CallKnows(issued, flights, call) && !CallHolds(flights, call, id)
    ensures CallKnows(issued[id := h], flights, call)
  {
  }

  /** A row goes in under an id, and the call that put it there reports it. */
  ghost predicate InsertsRow(w: World, v: World, c: Cid, id: int) {
    && c in w.pool.calls && w.pool.calls[c].pc.Inserting? && id !in w.db.chunks
    && v.ops == w.ops && v.pool.flights == w.pool.flights && v.pool.inflight == w.pool.inflight
    && v.pool.calls ==
       w.pool.calls[c := w.pool.calls[c].(pc := Unregistering(w.pool.calls[c].pc.flight, Stored(id, false)))]
    && v.issued == w.issued[id := HashOf(w.pool.calls[c])]
    && id in v.db.chunks && v.db.chunks == w.db.chunks[id := v.db.chunks[id]]
    && v.db.chunks[id].hash == HashOf(w.pool.calls[c])
  }

  lemma InsertStep(w: World, lim: Limits, a: Action)
    requires UploadEnabled(w, lim, a) && a.InsertOk?
    ensures InsertsRow(w, ApplyUpload(w, lim, a), a.c, a.id)
  {
  }

  lemma InsertCalls(w: World, v: World, c: Cid, id: int)
    requires InsertsRow(w, v, c, id) && !Held(w, id) && CallsKnow(w.issued, w.pool)
    ensures CallsKnow(v.issued, v.pool)
  {
    forall d | d in v.pool.calls ensures CallKnows(v.issued, v.pool.flights, v.pool.calls[d]) {
      assert CallKnows(w.issued, w.pool.flights, w.pool.calls[d]);
      StillKnown(w.issued, id, HashOf(w.pool.calls[c]), w.pool.flights, w.pool.calls[d]);
    }
    hide CallKnows;
  }

  lemma InsertContent(w: World, lim: Limits, a: Action)
    requires ContentOk(w) && UploadEnabled(w, lim, a) && a.InsertOk? && FreshStep(w, a)
    ensures ContentOk(ApplyUpload(w, lim, a))
  {
    InsertStep(w, lim, a);
    var v := ApplyUpload(w, lim, a);
    hide UploadEnabled, ApplyUpload, CallsKnow;
    InsertCalls(w, v, a.c, a.id);
    assert !Held(w, a.id);
    forall t | t in v.ops ensures GotKnown(v.issued, v.ops[t]) {
      assert GotKnown(w.issued, w.ops[t]);
      assert w.ops[t].Writer? ==> a.id !in w.ops[t].got.Values;
    }
    hide Held, CallHolds;
  }

  lemma ShrunkRows(chunks: Chunks, chunks': Chunks, issued: map<int, Hash>)
    requires RowsIssued(chunks, issued) && RowsShrink(chunks, chunks')
    ensures RowsIssued(chunks', issued)
  {
  }

  /** The rows after any manifest step of a writer or GC are some of the rows before. */
  lemma WriterRows(w: World, lim: Limits, a: Action)
    requires Safe(w) && WriterEnabled(w, lim, a)
    ensures RowsShrink(w.db.chunks, ApplyWriter(w, lim, a).db.chunks)
  {
    assert Consistent(w.db);
    hide Safe, Consistent, Upsert, Delete, DeleteIfZero, RefsGot, DeleteRows;
    if a.Cleanup? {
      CleanupRows(w.db, a.id);
    } else if a.DeleteRow? {
      DeletedRows(w.db, a.path);
    } else if a.Commit? || a.EditRow? {
      UpsertedRows(w, lim, a);
    } else {
      OtherRows(w, lim, a);
    }
  }

  lemma OtherRows(w: World, lim: Limits, a: Action)
    requires WriterEnabled(w, lim, a)
    requires !a.Cleanup? && !a.DeleteRow? && !a.Commit? && !a.EditRow?
    ensures RowsShrink(w.db.chunks, ApplyWriter(w, lim, a).db.chunks)
  {
    assert ApplyWriter(w, lim, a).db == w.db;
  }

  lemma UpsertedRows(w: World, lim: Limits, a: Action)
    requires Consistent(w.db) && WriterEnabled(w, lim, a) && (a.Commit? || a.EditRow?)
    ensures RowsShrink(w.db.chunks, ApplyWriter(w, lim, a).db.chunks)
  {
    hide Consistent, Upsert, DeleteRows;
    UpsertRows(w.db, a.row, if a.Commit? then RefsGot(w.ops[a.t]) else a.refs, a.fid);
  }

  /** Writers keep what they hold, or drop the whole file. */
  lemma WriterNotesKept(w: World, lim: Limits, a: Action)
    requires WriterEnabled(w, lim, a)
    requires OwnersOk(w.ops, w.pool.calls)
    requires SlotsMatch(w.ops, w.pool.calls) && OpsKnow(w.issued, w.ops)
    ensures var v := ApplyWriter(w, lim, a);
      && v.pool == w.pool && v.issued == w.issued
      && SlotsMatch(v.ops, v.pool.calls) && OpsKnow(v.issued, v.ops)
  {
    assert a.t in w.ops ==> GotKnown(w.issued, w.ops[a.t]);
    WriterOp(w, lim, a);
    hide ApplyWriter, WriterEnabled;
    NotesKept(w, ApplyWriter(w, lim, a), a.t);
  }

  lemma NotesKept(w: World, v: World, t: Tid)
    requires v.pool == w.pool && v.issued == w.issued
    requires v.ops == if t in v.ops then w.ops[t := v.ops[t]] else w.ops - {t}
    requires SlotsMatch(w.ops, w.pool.calls) && OpsKnow(w.issued, w.ops)
    requires t in v.ops ==> GotKnown(v.issued, v.ops[t])
    requires Idle(w, t) || KeepsPieces(w.ops, v.ops, t)
    ensures SlotsMatch(v.ops, v.pool.calls) && OpsKnow(v.issued, v.ops)
  {
    hide GotKnown;
    if t in v.ops {
      OneOpKnows(w, v, t);
    }
  }

  ghost predicate KeepsPieces(before: map<Tid, Op>, after: map<Tid, Op>, t: Tid) {
    t in before && t in after && before[t].Writer? && after[t].Writer? && after[t].pieces == before[t].pieces
  }

  lemma OneOpKnows(w: World, v: World, t: Tid)
    requires v.pool == w.pool && v.issued == w.issued
    requires t in v.ops && v.ops == w.ops[t := v.ops[t]]
    requires SlotsMatch(w.ops, w.pool.calls) && OpsKnow(w.issued, w.ops)
    requires GotKnown(v.issued, v.ops[t])
    requires Idle(w, t) || KeepsPieces(w.ops, v.ops, t)
    ensures SlotsMatch(v.ops, v.pool.calls) && OpsKnow(v.issued, v.ops)
  {
    hide GotKnown;
  }

  /** A step of t that changes its own notes only, keeping what is known. */
  ghost predicate OwnNotes(w: World, v: World, t: Tid) {
    && v.pool == w.pool && v.issued == w.issued
    && v.ops == (if t in v.ops then w.ops[t := v.ops[t]] else w.ops - {t})
    && (t in v.ops ==> GotKnown(v.issued, v.ops[t]))
    && (Idle(w, t) || KeepsPieces(w.ops, v.ops, t))
  }

  lemma EditorNotes(w: World, lim: Limits, a: Action)
    requires WriterEnabled(w, lim, a) && (a.Cleanup? || a.EditRow? || a.DeleteRow?)
    requires a.t in w.ops ==> GotKnown(w.issued, w.ops[a.t])
    ensures OwnNotes(w, ApplyWriter(w, lim, a), a.t)
  {
    hide Upsert, Delete, DeleteIfZero, DeleteRows, Knows;
    var v := ApplyWriter(w, lim, a);
    assert v.ops == w.ops[a.t := w.ops[a.t]];
  }

  lemma ClosedNotes(w: World, lim: Limits, a: Action)
    requires WriterEnabled(w, lim, a) && (a.Commit? || a.ForgetFile?)
    ensures OwnNotes(w, ApplyWriter(w, lim, a), a.t)
  {
    hide Upsert, DeleteRows, Knows, RefsGot, AllGot;
  }

  lemma PhaseNotes(w: World, lim: Limits, a: Action)
    requires WriterEnabled(w, lim, a)
    requires !a.Cleanup? && !a.Commit? && !a.EditRow? && !a.DeleteRow? && !a.ForgetFile?
    requires OwnersOk(w.ops, w.pool.calls)
    requires a.t in w.ops ==> GotKnown(w.issued, w.ops[a.t])
    ensures OwnNotes(w, ApplyWriter(w, lim, a), a.t)
  {
    hide Knows;
  }

  /** What a writer's step does to its own notes. */
  lemma WriterOp(w: World, lim: Limits, a: Action)
    requires WriterEnabled(w, lim, a)
    requires OwnersOk(w.ops, w.pool.calls)
    requires a.t in w.ops ==> GotKnown(w.issued, w.ops[a.t])
    ensures OwnNotes(w, ApplyWriter(w, lim, a), a.t)
  {
    hide *;
    if a.Cleanup? || a.EditRow? || a.DeleteRow? {
      EditorNotes(w, lim, a);
    } else if a.Commit? || a.ForgetFile? {
      ClosedNotes(w, lim, a);
    } else {
      PhaseNotes(w, lim, a);
    }
  }

  lemma WriterContent(w: World, lim: Limits, a: Action)
    requires Safe(w) && ContentOk(w) && WriterEnabled(w, lim, a)
    ensures ContentOk(ApplyWriter(w, lim, a))
  {
    assert OwnersOk(w.ops, w.pool.calls);
    hide Safe, ApplyWriter, WriterEnabled, OwnersOk;
    WriterRows(w, lim, a);
    WriterNotesKept(w, lim, a);
    ShrunkRows(w.db.chunks, ApplyWriter(w, lim, a).db.chunks, w.issued);
  }

  lemma GcContent(w: World, a: Action)
    requires ContentOk(w) && GcEnabled(w, a)
    ensures ContentOk(ApplyGc(w, a))
  {
    GcTouches(w, a);
    var v := ApplyGc(w, a);
    hide ApplyGc, GcEnabled, Knows, CallKnows;
    assert RowsIssued(v.db.chunks, v.issued);
    assert forall c | c in w.pool.calls :: w.pool.calls[c].owner != a.t;
    assert SlotsMatch(v.ops, v.pool.calls);
    assert OpsKnow(v.issued, v.ops);
  }

  ghost predicate GcOnly(w: World, v: World, t: Tid) {
    && v.pool == w.pool && v.issued == w.issued
    && (forall c | c in v.db.chunks :: c in w.db.chunks && v.db.chunks[c] == w.db.chunks[c])
    && t in w.ops && !w.ops[t].Writer?
    && (forall u | u in v.ops && v.ops[u].Writer? :: u in w.ops && v.ops[u] == w.ops[u])
    && (forall u | u in w.ops && w.ops[u].Writer? :: u in v.ops && v.ops[u] == w.ops[u])
  }

  lemma GcTouches(w: World, a: Action)
    requires GcEnabled(w, a)
    ensures GcOnly(w, ApplyGc(w, a), a.t)
  {
    hide ApplyGc;
    if a.GcTakeMaint? || a.GcTakeWrite? || a.GcListBlobs? || a.GcReadRefs? || a.GcReadChunks? {
      PlanningTouches(w, a);
    } else if a.GcTakeMeta? || a.GcListBackups? || a.GcReadBackup? || a.GcProtect? {
      ProtectingTouches(w, a);
    } else {
      SweepingTouches(w, a);
    }
  }

  lemma PlanningTouches(w: World, a: Action)
    requires GcEnabled(w, a)
    requires a.GcTakeMaint? || a.GcTakeWrite? || a.GcListBlobs? || a.GcReadRefs? || a.GcReadChunks?
    ensures GcOnly(w, ApplyGc(w, a), a.t)
  {
    hide Garbage, DeadIds, SnapNames, LinkedIds;
  }

  lemma ProtectingTouches(w: World, a: Action)
    requires GcEnabled(w, a)
    requires a.GcTakeMeta? || a.GcListBackups? || a.GcReadBackup? || a.GcProtect?
    ensures GcOnly(w, ApplyGc(w, a), a.t)
  {
    hide Garbage, DeadIds, SnapNames, LinkedIds;
  }

  lemma SweepingTouches(w: World, a: Action)
    requires GcEnabled(w, a)
    requires a.GcDropRow? || a.GcRowsDone? || a.GcDropBlob? || a.GcDone? || a.GcFail? || a.GcReleaseWrite?
      || a.GcReleaseMaint?
    ensures GcOnly(w, ApplyGc(w, a), a.t)
  {
    hide Garbage, DeadIds, SnapNames, LinkedIds;
  }

  lemma BackupContent(w: World, lim: Limits, a: Action)
    requires ContentOk(w) && BackupEnabled(w, lim, a)
    ensures ContentOk(ApplyBackup(w, lim, a))
  {
    hide ValidSnapshot, Oldest, Knows, CallKnows;
  }

  lemma StepContent(w: World, lim: Limits, a: Action)
    requires Safe(w) && ContentOk(w) && Unsettled(w.pool) && Enabled(w, lim, a) && FreshStep(w, a)
    ensures ContentOk(Apply(w, lim, a))
  {
    hide Safe, ContentOk, Unsettled, LookupEnabled, UploadEnabled, WriterEnabled, GcEnabled, BackupEnabled,
      ApplyLookup, ApplyUpload, ApplyWriter, ApplyGc, ApplyBackup, FreshStep;
    if LookupEnabled(w, lim, a) {
      if a.StartCall? {
        StartContent(w, lim, a);
      } else if a.OpenFlight? {
        OpenContent(w, lim, a);
      } else {
        LookupContent(w, lim, a);
      }
    } else if UploadEnabled(w, lim, a) {
      if a.InsertOk? {
        InsertContent(w, lim, a);
      } else if a.Collect? {
        CollectContent(w, lim, a);
      } else if a.Signal? {
        SignalContent(w, lim, a);
      } else {
        UploadContent(w, lim, a);
      }
    } else if WriterEnabled(w, lim, a) {
      WriterContent(w, lim, a);
    } else if GcEnabled(w, a) {
      GcContent(w, a);
    } else {
      BackupContent(w, lim, a);
    }
  }

  lemma {:induction false} EveryFreshRun(lim: Limits, run: seq<Action>)
    requires Execute(lim, run).Some? && FreshRun(lim, run)
    ensures ContentOk(Execute(lim, run).value)
    decreases |run|
  {
    hide Safe, ContentOk, Unsettled, Apply, Enabled, FreshStep, PoolOk, ShapesOk;
    if run == [] {
      StartContentOk();
    } else {
      EveryFreshRun(lim, run[..|run| - 1]);
      EveryRunPool(lim, run[..|run| - 1]);
      PoolUnsettled(Execute(lim, run[..|run| - 1]).value.pool);
      EveryRunSafe(lim, run[..|run| - 1]);
      StepContent(Execute(lim, run[..|run| - 1]).value, lim, run[|run| - 1]);
    }
  }

  lemma StartContentOk()
    ensures ContentOk(Start)
  {
  }

  // ------------------------------------------------- what the rows were issued for

  /** Every id is issued for some content when its row is inserted, and the row says which. */
  lemma InsertIssued(w: World, lim: Limits, a: Action)
    requires RowsIssued(w.db.chunks, w.issued) && UploadEnabled(w, lim, a) && a.InsertOk?
    ensures RowsIssued(ApplyUpload(w, lim, a).db.chunks, ApplyUpload(w, lim, a).issued)
  {
  }

  lemma WriterIssued(w: World, lim: Limits, a: Action)
    requires Safe(w) && RowsIssued(w.db.chunks, w.issued) && WriterEnabled(w, lim, a)
    ensures RowsIssued(ApplyWriter(w, lim, a).db.chunks, ApplyWriter(w, lim, a).issued)
  {
    WriterRows(w, lim, a);
    KeepsIssued(w, lim, a);
    hide *;
    ShrunkRows(w.db.chunks, ApplyWriter(w, lim, a).db.chunks, w.issued);
  }

  lemma KeepsIssued(w: World, lim: Limits, a: Action)
    requires WriterEnabled(w, lim, a)
    ensures ApplyWriter(w, lim, a).issued == w.issued
  {
    hide Upsert, Delete, DeleteIfZero, RefsGot;
  }

  lemma StepIssued(w: World, lim: Limits, a: Action)
    requires Safe(w) && RowsIssued(w.db.chunks, w.issued) && Enabled(w, lim, a)
    ensures RowsIssued(Apply(w, lim, a).db.chunks, Apply(w, lim, a).issued)
  {
    hide Safe, LookupEnabled, UploadEnabled, WriterEnabled, GcEnabled, BackupEnabled,
      ApplyLookup, ApplyUpload, ApplyWriter, ApplyGc, ApplyBackup, Knows;
    if LookupEnabled(w, lim, a) {
      LookupKeepsDb(w, lim, a);
    } else if UploadEnabled(w, lim, a) {
      if a.InsertOk? {
        InsertIssued(w, lim, a);
      } else {
        UploadKeepsDb(w, lim, a);
      }
    } else if WriterEnabled(w, lim, a) {
      WriterIssued(w, lim, a);
    } else if GcEnabled(w, a) {
      GcTouches(w, a);
    } else {
      BackupKeepsDb(w, lim, a);
    }
  }

  lemma {:induction false} EveryRunIssued(lim: Limits, run: seq<Action>)
    requires Execute(lim, run).Some?
    ensures RowsIssued(Execute(lim, run).value.db.chunks, Execute(lim, run).value.issued)
    decreases |run|
  {
    hide Safe, Apply, Enabled, RowsIssued;
    if run == [] {
      assert RowsIssued(Start.db.chunks, Start.issued) by {
        NoneIssued();
      }
    } else {
      EveryRunIssued(lim, run[..|run| - 1]);
      EveryRunSafe(lim, run[..|run| - 1]);
      StepIssued(Execute(lim, run[..|run| - 1]).value, lim, run[|run| - 1]);
    }
  }

  lemma NoneIssued()
    ensures RowsIssued(map[], map[])
  {
  }

  // ----------------------------------------------------------------- the commit

  /** No id the writer holds was issued again, for other content, after it was returned for its piece. */
  ghost predicate HoldsItsOwn(issued: map<int, Hash>, op: Op)
    requires op.Writer? && AllGot(op)
  {
    forall i: nat | i < |op.pieces| :: Knows(issued, op.got[i], Sha256(op.pieces[i]))
  }

  /** The rows of the ids the writer holds have the hashes of its pieces: what a look before the commit can tell. */
  ghost predicate RowsAreItsOwn(chunks: Chunks, op: Op)
    requires op.Writer? && AllGot(op)
  {
    forall i: nat | i < |op.pieces| :: op.got[i] in chunks && chunks[op.got[i]].hash == Sha256(op.pieces[i])
  }

  /**
   In every run, a file that a commit stores consists of the pieces handed to StoreChunk, in order,
   if and only if no id the writer holds was last issued for other content; and the rows at the
   time of the commit tell.
   */
  lemma CommitIff(lim: Limits, run: seq<Action>, t: Tid, row: FileRow, fid: int)
    requires Execute(lim, run).Some?
    requires WriterEnabled(Execute(lim, run).value, lim, Commit(t, row, fid))
    requires var w := Execute(lim, run).value; Upsert(w.db, row, RefsGot(w.ops[t]), fid).Some?
    ensures var w := Execute(lim, run).value;
      var u := Upsert(w.db, row, RefsGot(w.ops[t]), fid).value;
      && UniquePaths(u.files) && row.path in View(u) && View(u)[row.path].row == row
      && Contiguous(View(u)[row.path].refs)
      && (Pieces(u.chunks, Ids(View(u)[row.path].refs)) == w.ops[t].pieces <==> HoldsItsOwn(w.issued, w.ops[t]))
      && (HoldsItsOwn(w.issued, w.ops[t]) <==> RowsAreItsOwn(w.db.chunks, w.ops[t]))
  {
    EveryRunSafe(lim, run);
    EveryRunIssued(lim, run);
    hide Execute, Safe, RowsIssued, WriterEnabled;
    CommitFrom(Execute(lim, run).value, lim, t, row, fid);
  }

  lemma CommitFrom(w: World, lim: Limits, t: Tid, row: FileRow, fid: int)
    requires Safe(w) && RowsIssued(w.db.chunks, w.issued)
    requires WriterEnabled(w, lim, Commit(t, row, fid)) && Upsert(w.db, row, RefsGot(w.ops[t]), fid).Some?
    ensures var u := Upsert(w.db, row, RefsGot(w.ops[t]), fid).value;
      && UniquePaths(u.files) && row.path in View(u) && View(u)[row.path].row == row
      && Contiguous(View(u)[row.path].refs)
      && (Pieces(u.chunks, Ids(View(u)[row.path].refs)) == w.ops[t].pieces <==> HoldsItsOwn(w.issued, w.ops[t]))
      && (HoldsItsOwn(w.issued, w.ops[t]) <==> RowsAreItsOwn(w.db.chunks, w.ops[t]))
  {
    var refs := RefsGot(w.ops[t]);
    var u := Upsert(w.db, row, refs, fid).value;
    assert Consistent(w.db);
    hide Safe, Upsert, RowsIssued, WriterEnabled;
    CommitAllowed(w, lim, t, row, fid);
    UpsertCommits(w.db, row, refs, fid);
    UpsertView(w.db, row, refs, fid);
    UpsertTables(w.db, row, refs, fid);
    UpsertForeignKeys(w.db, row, refs, fid);
    hide Consistent, View, HoldsItsOwn, RowsAreItsOwn, Pieces, Ids, AllGot, RefsGot;
    HeldRows(w, w.ops[t]);
    StoredPieces(w.db.chunks, u, refs, fid, LinksElsewhere(w.db, row.path));
    PiecesAreOwn(w.db.chunks, w.ops[t], Pieces(u.chunks, Ids(RefMap(refs))));
  }

  lemma CommitAllowed(w: World, lim: Limits, t: Tid, row: FileRow, fid: int)
    requires WriterEnabled(w, lim, Commit(t, row, fid))
    ensures t in w.ops && w.ops[t].Writer? && AllGot(w.ops[t]) && Ordered(RefsGot(w.ops[t]))
    ensures fid !in DeleteRows(w.db, row.path).files
  {
  }

  lemma HeldRows(w: World, op: Op)
    requires op.Writer? && AllGot(op) && RowsIssued(w.db.chunks, w.issued) && AllPresent(w.db.chunks, RefsGot(op))
    ensures HoldsItsOwn(w.issued, op) <==> RowsAreItsOwn(w.db.chunks, op)
  {
    forall i: nat | i < |op.pieces|
      ensures op.got[i] in w.db.chunks && Knows(w.issued, op.got[i], w.db.chunks[op.got[i]].hash)
    {
      assert RefsGot(op)[i].chunkId == op.got[i];
    }
    hide AllGot, RowsIssued, AllPresent, RefsGot;
  }

  lemma PiecesAreOwn(chunks: Chunks, op: Op, stored: seq<bytes>)
    requires op.Writer? && AllGot(op) && AllPresent(chunks, RefsGot(op))
    requires |stored| == |RefsGot(op)|
    requires forall i | 0 <= i < |stored| :: stored[i] == chunks[RefsGot(op)[i].chunkId].hash.preimage
    ensures stored == op.pieces <==> RowsAreItsOwn(chunks, op)
  {
    forall i: nat | i < |op.pieces|
      ensures op.got[i] in chunks && stored[i] == chunks[op.got[i]].hash.preimage
    {
      assert RefsGot(op)[i].chunkId == op.got[i];
    }
  }

  /** What the chunks of a committed row hold. */
  lemma StoredPieces(before: Chunks, u: Tables, refs: seq<ChunkRef>, fid: int, rest: Links)
    requires AllPresent(before, refs)
    requires AddsLinks(rest, u.links, fid, refs) && ForeignKeys(u)
    requires forall c | c in u.chunks && c in before :: u.chunks[c].hash == before[c].hash
    ensures Contiguous(RefMap(refs)) && |Pieces(u.chunks, Ids(RefMap(refs)))| == |refs|
    ensures forall i | 0 <= i < |refs| ::
      Pieces(u.chunks, Ids(RefMap(refs)))[i] == before[refs[i].chunkId].hash.preimage
  {
    RefMapContiguous(refs);
    forall i | 0 <= i < |refs| ensures refs[i].chunkId in u.chunks {
      assert LinkKey(fid, i) in u.links;
    }
  }

  /**
   In every run that issues no id while it is held, committing a file either rolls back or leaves at its
   path a file whose content is the concatenation of the pieces handed to StoreChunk, in order.
   */
  lemma CommitContent(lim: Limits, run: seq<Action>, t: Tid, row: FileRow, fid: int)
    requires Execute(lim, run).Some? && FreshRun(lim, run)
    requires WriterEnabled(Execute(lim, run).value, lim, Commit(t, row, fid))
    ensures var w := Execute(lim, run).value;
      var u := Upsert(w.db, row, RefsGot(w.ops[t]), fid);
      u.Some? ==>
        && UniquePaths(u.value.files) && row.path in View(u.value)
        && View(u.value)[row.path].row == row
        && Contiguous(View(u.value)[row.path].refs)
        && ContentOf(u.value.chunks, View(u.value)[row.path].refs) == Flatten(w.ops[t].pieces)
  {
    EveryFreshRun(lim, run);
    var w := Execute(lim, run).value;
    CommitAllowed(w, lim, t, row, fid);
    assert HoldsItsOwn(w.issued, w.ops[t]) by {
      assert GotKnown(w.issued, w.ops[t]);
    }
    hide *;
    if Upsert(w.db, row, RefsGot(w.ops[t]), fid).Some? {
      CommitIff(lim, run, t, row, fid);
      FlatContent(Upsert(w.db, row, RefsGot(w.ops[t]), fid).value, row.path);
    }
  }

  lemma FlatContent(u: Tables, p: Path)
    requires UniquePaths(u.files) && p in View(u) && Contiguous(View(u)[p].refs)
    ensures ContentOf(u.chunks, View(u)[p].refs) == Flatten(Pieces(u.chunks, Ids(View(u)[p].refs)))
  {
    hide View;
  }

  lemma CommittedPieces(before: Chunks, u: Tables, refs: seq<ChunkRef>, pieces: seq<bytes>, fid: int, rest: Links)
    requires AllPresent(before, refs) && |refs| == |pieces|
    requires forall i | 0 <= i < |refs| :: before[refs[i].chunkId].hash == Sha256(pieces[i])
    requires AddsLinks(rest, u.links, fid, refs) && ForeignKeys(u)
    requires forall c | c in u.chunks && c in before :: u.chunks[c].hash == before[c].hash
    ensures Contiguous(RefMap(refs))
    ensures ContentOf(u.chunks, RefMap(refs)) == Flatten(pieces)
  {
    StoredPieces(before, u, refs, fid, rest);
    hide AddsLinks, ForeignKeys, AllPresent, Pieces, Ids, RefMap, Contiguous;
    assert Pieces(u.chunks, Ids(RefMap(refs))) == pieces;
  }
}
