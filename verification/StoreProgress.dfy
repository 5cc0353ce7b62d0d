/**
 Single-flight upload and freedom from deadlock. In every reachable state each Repo has at most
 one uploader per content and the database at most one row per content, and whenever anything is
 running some thread can take a step that is not a failure.
 */
module StoreProgress {
  import opened Sequences
  import opened Manifest
  import opened ManifestInvariants
  import opened Paths
  import opened Snapshot
  import opened StoreModel
  import opened StoreSafety

  ghost predicate HoldsSlot(pc: Pc) {
    !pc.WantSlot? && !pc.Returned?
  }

  /** The call is the uploader of its flight and has not reported yet. */
  ghost predicate Uploads(pc: Pc) {
    pc.Naming? || pc.WantGate? || pc.Uploading? || pc.Inserting? || pc.Rechecking? || pc.Discarding?
    || pc.Unregistering? || pc.Signalling?
  }

  ghost predicate Registered(pc: Pc) {
    Uploads(pc) && !pc.Signalling?
  }

  ghost predicate OwnFlight(pool: Pool, c: Cid) {
    && c in pool.calls && Uploads(pool.calls[c].pc)
    && pool.calls[c].pc.flight in pool.flights
    && pool.flights[pool.calls[c].pc.flight] == Flight(c, pool.calls[c].repo, HashOf(pool.calls[c]), None)
  }

  ghost predicate UploadersOk(pool: Pool) {
    forall c | c in pool.calls && Uploads(pool.calls[c].pc) ::
      && OwnFlight(pool, c)
      && (Registered(pool.calls[c].pc) ==>
            KeyOf(pool.calls[c]) in pool.inflight && pool.inflight[KeyOf(pool.calls[c])] == pool.calls[c].pc.flight)
  }

  /** A flight is either settled or still has its uploader at work. */
  ghost predicate Alive(pool: Pool, f: FlightId) {
    && f in pool.flights
    && (pool.flights[f].out.Some? ||
        (OwnFlight(pool, pool.flights[f].owner) && pool.calls[pool.flights[f].owner].pc.flight == f))
  }

  ghost predicate WaitersOk(pool: Pool) {
    forall c | c in pool.calls && pool.calls[c].pc.Waiting? :: Alive(pool, pool.calls[c].pc.flight)
  }

  ghost predicate InflightOk(pool: Pool) {
    forall key | key in pool.inflight ::
      var f := pool.inflight[key];
      && f in pool.flights && OwnFlight(pool, pool.flights[f].owner)
      && pool.calls[pool.flights[f].owner].pc.flight == f
      && Registered(pool.calls[pool.flights[f].owner].pc)
      && KeyOf(pool.calls[pool.flights[f].owner]) == key
  }

  ghost predicate SlotsOk(pool: Pool) {
    forall c :: c in pool.slots <==> c in pool.calls && HoldsSlot(pool.calls[c].pc)
  }

  ghost predicate GateOk(pool: Pool) {
    forall c :: c in pool.gate <==> c in pool.calls && pool.calls[c].pc.Uploading?
  }

  ghost predicate PoolOk(pool: Pool) {
    UploadersOk(pool) && WaitersOk(pool) && InflightOk(pool) && SlotsOk(pool) && GateOk(pool)
  }

  /** Only PutFile passes through the maintenance-lock phases. */
  ghost predicate ShapesOk(ops: map<Tid, Op>) {
    forall t | t in ops && ops[t].Writer? && ops[t].phase != Locked && ops[t].phase != WantWrite :: ops[t].kind == Put
  }

  // ------------------------------------------------------------------ preservation

  /** The step moves one call and leaves the in-flight tables alone. */
  ghost predicate MovesOne(p: Pool, q: Pool, c: Cid) {
    && c in p.calls && c in q.calls
    && q.flights == p.flights && q.inflight == p.inflight
    && q.calls == p.calls[c := p.calls[c].(pc := q.calls[c].pc)]
    && Uploads(q.calls[c].pc) == Uploads(p.calls[c].pc) && Registered(q.calls[c].pc) == Registered(p.calls[c].pc)
    && (Uploads(q.calls[c].pc) ==> q.calls[c].pc.flight == p.calls[c].pc.flight)
  }

  /** One call moves without touching the in-flight tables. */
  lemma CallOnly(p: Pool, q: Pool, c: Cid)
    requires UploadersOk(p) && WaitersOk(p) && InflightOk(p)
    requires MovesOne(p, q, c)
    requires q.calls[c].pc.Waiting? ==> Alive(p, q.calls[c].pc.flight)
    ensures UploadersOk(q) && WaitersOk(q) && InflightOk(q)
  {
    forall d | OwnFlight(p, d) ensures OwnFlight(q, d) && q.calls[d].pc.flight == p.calls[d].pc.flight {
    }
    forall f | Alive(p, f) ensures Alive(q, f) {
    }
    forall d | d in q.calls && Uploads(q.calls[d].pc) ensures OwnFlight(q, d) {
      assert Uploads(p.calls[d].pc);
    }
  }

  ghost predicate StaysOnFlight(a: Action) {
    a.TakeSlot? || a.LookupHit? || a.LookupMiss? || a.CancelCall? || a.JoinFlight? || a.WakeUp?
  }

  lemma LookupSlots(w: World, lim: Limits, a: Action)
    requires SlotsOk(w.pool) && GateOk(w.pool) && LookupEnabled(w, lim, a)
    requires a.TakeSlot? || a.LookupHit? || a.LookupMiss?
    ensures SlotsOk(ApplyLookup(w, lim, a).pool) && GateOk(ApplyLookup(w, lim, a).pool)
  {
    hide HasHash;
  }

  lemma WaitSlots(w: World, lim: Limits, a: Action)
    requires SlotsOk(w.pool) && GateOk(w.pool) && LookupEnabled(w, lim, a)
    requires a.CancelCall? || a.JoinFlight? || a.WakeUp?
    ensures SlotsOk(ApplyLookup(w, lim, a).pool) && GateOk(ApplyLookup(w, lim, a).pool)
  {
    hide HasHash;
  }

  lemma LookupMoves(w: World, lim: Limits, a: Action)
    requires LookupEnabled(w, lim, a)
    requires a.TakeSlot? || a.LookupHit? || a.LookupMiss?
    ensures var q := ApplyLookup(w, lim, a).pool; MovesOne(w.pool, q, a.c) && !q.calls[a.c].pc.Waiting?
  {
    hide HasHash;
  }

  lemma WaitMoves(w: World, lim: Limits, a: Action)
    requires LookupEnabled(w, lim, a)
    requires a.CancelCall? || a.JoinFlight? || a.WakeUp?
    ensures var q := ApplyLookup(w, lim, a).pool; MovesOne(w.pool, q, a.c)
    ensures var q := ApplyLookup(w, lim, a).pool;
      q.calls[a.c].pc.Waiting? ==>
        KeyOf(w.pool.calls[a.c]) in w.pool.inflight
          && q.calls[a.c].pc.flight == w.pool.inflight[KeyOf(w.pool.calls[a.c])]
  {
    hide HasHash;
  }

  lemma LookupPool(w: World, lim: Limits, a: Action)
    requires PoolOk(w.pool) && LookupEnabled(w, lim, a) && StaysOnFlight(a)
    ensures PoolOk(ApplyLookup(w, lim, a).pool)
  {
    var q := ApplyLookup(w, lim, a).pool;
    if a.TakeSlot? || a.LookupHit? || a.LookupMiss? {
      LookupSlots(w, lim, a);
      LookupMoves(w, lim, a);
    } else {
      WaitSlots(w, lim, a);
      WaitMoves(w, lim, a);
      hide ApplyLookup, LookupEnabled;
      assert q.calls[a.c].pc.Waiting? ==> Alive(w.pool, q.calls[a.c].pc.flight);
    }
    hide ApplyLookup, LookupEnabled, SlotsOk, GateOk, UploadersOk, WaitersOk, InflightOk;
    CallOnly(w.pool, q, a.c);
  }

  lemma UploadSlots(w: World, lim: Limits, a: Action)
    requires SlotsOk(w.pool) && GateOk(w.pool) && UploadEnabled(w, lim, a)
    requires a.DrawName? || a.NamingFails? || a.TakeGate? || a.UploadOk? || a.UploadFails? || a.InsertOk?
    ensures SlotsOk(ApplyUpload(w, lim, a).pool) && GateOk(ApplyUpload(w, lim, a).pool)
  {
    hide HasHash, Insert;
  }

  lemma UploadMoves(w: World, lim: Limits, a: Action)
    requires UploadEnabled(w, lim, a)
    requires a.DrawName? || a.NamingFails? || a.TakeGate? || a.UploadOk? || a.UploadFails? || a.InsertOk?
    ensures var q := ApplyUpload(w, lim, a).pool; MovesOne(w.pool, q, a.c) && !q.calls[a.c].pc.Waiting?
  {
    hide HasHash, Insert;
  }

  lemma UploadPool(w: World, lim: Limits, a: Action)
    requires PoolOk(w.pool) && UploadEnabled(w, lim, a)
    requires a.DrawName? || a.NamingFails? || a.TakeGate? || a.UploadOk? || a.UploadFails? || a.InsertOk?
    ensures PoolOk(ApplyUpload(w, lim, a).pool)
  {
    UploadSlots(w, lim, a);
    UploadMoves(w, lim, a);
    hide ApplyUpload, UploadEnabled, SlotsOk, GateOk, UploadersOk, WaitersOk, InflightOk;
    CallOnly(w.pool, ApplyUpload(w, lim, a).pool, a.c);
  }

  lemma RecheckSlots(w: World, lim: Limits, a: Action)
    requires SlotsOk(w.pool) && GateOk(w.pool) && UploadEnabled(w, lim, a)
    requires a.InsertFails? || a.RecheckHit? || a.RecheckMiss? || a.Discard? || a.ReleaseSlot?
    ensures SlotsOk(ApplyUpload(w, lim, a).pool) && GateOk(ApplyUpload(w, lim, a).pool)
  {
    hide HasHash, Insert;
  }

  lemma RecheckMoves(w: World, lim: Limits, a: Action)
    requires UploadEnabled(w, lim, a)
    requires a.InsertFails? || a.RecheckHit? || a.RecheckMiss? || a.Discard? || a.ReleaseSlot?
    ensures var q := ApplyUpload(w, lim, a).pool; MovesOne(w.pool, q, a.c) && !q.calls[a.c].pc.Waiting?
  {
    hide HasHash, Insert;
  }

  lemma RecheckPool(w: World, lim: Limits, a: Action)
    requires PoolOk(w.pool) && UploadEnabled(w, lim, a)
    requires a.InsertFails? || a.RecheckHit? || a.RecheckMiss? || a.Discard? || a.ReleaseSlot?
    ensures PoolOk(ApplyUpload(w, lim, a).pool)
  {
    RecheckSlots(w, lim, a);
    RecheckMoves(w, lim, a);
    hide ApplyUpload, UploadEnabled, SlotsOk, GateOk, UploadersOk, WaitersOk, InflightOk;
    CallOnly(w.pool, ApplyUpload(w, lim, a).pool, a.c);
  }

  lemma StartPool(w: World, lim: Limits, a: Action)
    requires PoolOk(w.pool) && LookupEnabled(w, lim, a) && a.StartCall?
    ensures PoolOk(ApplyLookup(w, lim, a).pool)
  {
    var p, q := w.pool, ApplyLookup(w, lim, a).pool;
    forall d | OwnFlight(p, d) ensures OwnFlight(q, d) && q.calls[d] == p.calls[d] {
    }
    forall f | Alive(p, f) ensures Alive(q, f) {
    }
  }

  lemma OpenShape(w: World, lim: Limits, a: Action)
    requires LookupEnabled(w, lim, a) && a.OpenFlight?
    ensures var q := ApplyLookup(w, lim, a).pool; Opens(w.pool, q, a.c, a.f)
  {
    hide HasHash;
  }

  /** Call `c` starts flight `f`. */
  ghost predicate Opens(p: Pool, q: Pool, c: Cid, f: FlightId) {
    && c in p.calls && p.calls[c].pc.Register? && KeyOf(p.calls[c]) !in p.inflight && f !in p.flights
    && q == p.(inflight := p.inflight[KeyOf(p.calls[c]) := f],
               flights := p.flights[f := Flight(c, p.calls[c].repo, HashOf(p.calls[c]), None)],
               calls := p.calls[c := p.calls[c].(pc := Naming(f))])
  }

  lemma OpenPool(w: World, lim: Limits, a: Action)
    requires PoolOk(w.pool) && LookupEnabled(w, lim, a) && a.OpenFlight?
    ensures PoolOk(ApplyLookup(w, lim, a).pool)
  {
    OpenShape(w, lim, a);
    hide ApplyLookup, LookupEnabled;
    OpensKeeps(w.pool, ApplyLookup(w, lim, a).pool, a.c, a.f);
  }

  lemma OpensKeeps(p: Pool, q: Pool, c: Cid, f: FlightId)
    requires PoolOk(p) && Opens(p, q, c, f)
    ensures PoolOk(q)
  {
    assert OwnFlight(q, c);
    forall d | OwnFlight(p, d) ensures OwnFlight(q, d) && q.calls[d] == p.calls[d] {
    }
    forall g | Alive(p, g) ensures Alive(q, g) {
    }
    assert UploadersOk(q);
    assert InflightOk(q);
  }

  lemma UnregisterPool(w: World, lim: Limits, a: Action)
    requires PoolOk(w.pool) && UploadEnabled(w, lim, a) && a.Unregister?
    ensures PoolOk(ApplyUpload(w, lim, a).pool)
  {
    var p, q := w.pool, ApplyUpload(w, lim, a).pool;
    forall d | OwnFlight(p, d) ensures OwnFlight(q, d) && q.calls[d].pc.flight == p.calls[d].pc.flight {
    }
    forall f | Alive(p, f) ensures Alive(q, f) {
    }
    forall d | d in q.calls && Uploads(q.calls[d].pc) ensures OwnFlight(q, d) {
      assert Uploads(p.calls[d].pc);
    }
    UnregisterKeys(p, q, a.c);
  }

  lemma UnregisterKeys(p: Pool, q: Pool, c: Cid)
    requires UploadersOk(p) && InflightOk(p)
    requires c in p.calls && Registered(p.calls[c].pc)
    requires q.inflight == p.inflight - {KeyOf(p.calls[c])} && q.flights == p.flights
    requires c in q.calls && q.calls == p.calls[c := p.calls[c].(pc := q.calls[c].pc)] && q.calls[c].pc.Signalling?
    requires forall d | OwnFlight(p, d) :: OwnFlight(q, d) && q.calls[d].pc.flight == p.calls[d].pc.flight
    ensures InflightOk(q)
    ensures forall d | d in q.calls && Registered(q.calls[d].pc) ::
      KeyOf(q.calls[d]) in q.inflight && q.inflight[KeyOf(q.calls[d])] == q.calls[d].pc.flight
  {
    forall d | d in q.calls && Registered(q.calls[d].pc)
      ensures KeyOf(q.calls[d]) in q.inflight && q.inflight[KeyOf(q.calls[d])] == q.calls[d].pc.flight
    {
      assert d != c && q.calls[d] == p.calls[d] && OwnFlight(p, d) && OwnFlight(p, c);
    }
  }

  lemma SignalPool(w: World, lim: Limits, a: Action)
    requires PoolOk(w.pool) && UploadEnabled(w, lim, a) && a.Signal?
    ensures PoolOk(ApplyUpload(w, lim, a).pool)
  {
    var p, q := w.pool, ApplyUpload(w, lim, a).pool;
    assert OwnFlight(p, a.c);
    forall d | OwnFlight(p, d) && d != a.c ensures OwnFlight(q, d) && q.calls[d] == p.calls[d] {
    }
    forall f | Alive(p, f) ensures Alive(q, f) {
    }
  }

  lemma CollectPool(w: World, lim: Limits, a: Action)
    requires PoolOk(w.pool) && UploadEnabled(w, lim, a) && a.Collect?
    ensures PoolOk(ApplyUpload(w, lim, a).pool)
  {
    var p, q := w.pool, ApplyUpload(w, lim, a).pool;
    forall d | OwnFlight(p, d) ensures OwnFlight(q, d) && q.calls[d] == p.calls[d] {
    }
    forall f | Alive(p, f) ensures Alive(q, f) {
    }
  }

  lemma PoolStep(w: World, lim: Limits, a: Action)
    requires PoolOk(w.pool) && Enabled(w, lim, a)
    ensures PoolOk(Apply(w, lim, a).pool)
  {
    hide PoolOk, LookupEnabled, UploadEnabled, WriterEnabled, GcEnabled, BackupEnabled,
      ApplyLookup, ApplyUpload, ApplyWriter, ApplyGc, ApplyBackup;
    if LookupEnabled(w, lim, a) {
      LookupPoolStep(w, lim, a);
    } else if UploadEnabled(w, lim, a) {
      UploadPoolStep(w, lim, a);
    } else if WriterEnabled(w, lim, a) {
      WriterPool(w, lim, a);
    } else if GcEnabled(w, a) {
      GcPool(w, a);
    } else {
      BackupPool(w, lim, a);
    }
  }

  lemma LookupPoolStep(w: World, lim: Limits, a: Action)
    requires PoolOk(w.pool) && LookupEnabled(w, lim, a)
    ensures PoolOk(ApplyLookup(w, lim, a).pool)
  {
    hide PoolOk, ApplyLookup;
    if a.StartCall? {
      StartPool(w, lim, a);
    } else if a.OpenFlight? {
      OpenPool(w, lim, a);
    } else {
      LookupPool(w, lim, a);
    }
  }

  lemma UploadPoolStep(w: World, lim: Limits, a: Action)
    requires PoolOk(w.pool) && UploadEnabled(w, lim, a)
    ensures PoolOk(ApplyUpload(w, lim, a).pool)
  {
    hide PoolOk, ApplyUpload;
    if a.Unregister? {
      UnregisterPool(w, lim, a);
    } else if a.Signal? {
      SignalPool(w, lim, a);
    } else if a.Collect? {
      CollectPool(w, lim, a);
    } else if a.InsertFails? || a.RecheckHit? || a.RecheckMiss? || a.Discard? || a.ReleaseSlot? {
      RecheckPool(w, lim, a);
    } else {
      UploadPool(w, lim, a);
    }
  }

  lemma WriterPool(w: World, lim: Limits, a: Action)
    requires WriterEnabled(w, lim, a)
    ensures ApplyWriter(w, lim, a).pool == w.pool
  {
    hide Upsert, Delete, DeleteIfZero, DeleteRows, RefsGot;
    if a.Cleanup? || a.Commit? || a.EditRow? || a.DeleteRow? || a.ForgetFile? {
    } else {
    }
  }

  lemma GcPool(w: World, a: Action)
    requires GcEnabled(w, a)
    ensures ApplyGc(w, a).pool == w.pool
  {
    hide Garbage, DeadIds, SnapNames, LinkedIds, DeleteChunks;
  }

  lemma BackupPool(w: World, lim: Limits, a: Action)
    requires BackupEnabled(w, lim, a)
    ensures ApplyBackup(w, lim, a).pool == w.pool
  {
    hide ValidSnapshot, Oldest;
  }

  ghost predicate CallStepShapes(w: World, v: World) {
    forall t | t in v.ops :: t in w.ops && (v.ops[t] == w.ops[t] ||
      (w.ops[t].Writer? && v.ops[t].Writer? && v.ops[t].kind == w.ops[t].kind && v.ops[t].phase == w.ops[t].phase))
  }

  lemma LookupShapes(w: World, lim: Limits, a: Action)
    requires LookupEnabled(w, lim, a)
    ensures CallStepShapes(w, ApplyLookup(w, lim, a))
  {
    hide HasHash;
  }

  lemma UploadShapes(w: World, lim: Limits, a: Action)
    requires UploadEnabled(w, lim, a)
    ensures CallStepShapes(w, ApplyUpload(w, lim, a))
  {
    hide Insert;
    if a.Collect? {
    } else {
      UploadOps(w, lim, a);
      hide ApplyUpload, UploadEnabled;
    }
  }

  lemma UploadOps(w: World, lim: Limits, a: Action)
    requires UploadEnabled(w, lim, a) && !a.Collect?
    ensures ApplyUpload(w, lim, a).ops == w.ops
  {
    hide ApplyUpload;
    if a.DrawName? || a.NamingFails? || a.TakeGate? || a.UploadOk? || a.UploadFails? {
      SendingOps(w, lim, a);
    } else if a.InsertOk? || a.InsertFails? || a.RecheckHit? || a.RecheckMiss? {
      InsertingOps(w, lim, a);
    } else {
      ReportingOps(w, lim, a);
    }
  }

  lemma SendingOps(w: World, lim: Limits, a: Action)
    requires UploadEnabled(w, lim, a)
    requires a.DrawName? || a.NamingFails? || a.TakeGate? || a.UploadOk? || a.UploadFails?
    ensures ApplyUpload(w, lim, a).ops == w.ops
  {
  }

  lemma InsertingOps(w: World, lim: Limits, a: Action)
    requires UploadEnabled(w, lim, a)
    requires a.InsertOk? || a.InsertFails? || a.RecheckHit? || a.RecheckMiss?
    ensures ApplyUpload(w, lim, a).ops == w.ops
  {
    hide Insert;
  }

  lemma ReportingOps(w: World, lim: Limits, a: Action)
    requires UploadEnabled(w, lim, a)
    requires a.Discard? || a.Unregister? || a.Signal? || a.ReleaseSlot?
    ensures ApplyUpload(w, lim, a).ops == w.ops
  {
  }

  lemma WriterShapes(w: World, lim: Limits, a: Action)
    requires ShapesOk(w.ops) && WriterEnabled(w, lim, a)
    ensures ShapesOk(ApplyWriter(w, lim, a).ops)
  {
    hide Upsert, Delete, DeleteIfZero;
  }

  lemma GcShapes(w: World, a: Action)
    requires ShapesOk(w.ops) && GcEnabled(w, a)
    ensures ShapesOk(ApplyGc(w, a).ops)
  {
    hide Garbage, DeadIds, SnapNames, LinkedIds, DeleteChunks;
  }

  lemma BackupShapes(w: World, lim: Limits, a: Action)
    requires ShapesOk(w.ops) && BackupEnabled(w, lim, a)
    ensures ShapesOk(ApplyBackup(w, lim, a).ops)
  {
    hide ValidSnapshot, Oldest;
  }

  lemma ShapeStep(w: World, lim: Limits, a: Action)
    requires ShapesOk(w.ops) && Enabled(w, lim, a)
    ensures ShapesOk(Apply(w, lim, a).ops)
  {
    hide LookupEnabled, UploadEnabled, WriterEnabled, GcEnabled, BackupEnabled,
      ApplyLookup, ApplyUpload, ApplyWriter, ApplyGc, ApplyBackup;
    if LookupEnabled(w, lim, a) {
      LookupShapes(w, lim, a);
    } else if UploadEnabled(w, lim, a) {
      UploadShapes(w, lim, a);
    } else if WriterEnabled(w, lim, a) {
      WriterShapes(w, lim, a);
    } else if GcEnabled(w, a) {
      GcShapes(w, a);
    } else {
      BackupShapes(w, lim, a);
    }
  }

  lemma {:induction false} EveryRunPool(lim: Limits, run: seq<Action>)
    requires Execute(lim, run).Some?
    ensures PoolOk(Execute(lim, run).value.pool) && ShapesOk(Execute(lim, run).value.ops)
    decreases |run|
  {
    hide PoolOk, ShapesOk, Apply, Enabled;
    if run == [] {
      StartPoolOk();
    } else {
      EveryRunPool(lim, run[..|run| - 1]);
      PoolStep(Execute(lim, run[..|run| - 1]).value, lim, run[|run| - 1]);
      ShapeStep(Execute(lim, run[..|run| - 1]).value, lim, run[|run| - 1]);
    }
  }

  lemma StartPoolOk()
    ensures PoolOk(Start.pool) && ShapesOk(Start.ops)
  {
  }

  /** In every reachable state each Repo has at most one registered uploader per content, and the database one row. */
  lemma SingleFlight(lim: Limits, run: seq<Action>)
    requires Execute(lim, run).Some?
    ensures var w := Execute(lim, run).value;
      && (forall c, d | c in w.pool.calls && d in w.pool.calls
            && Registered(w.pool.calls[c].pc) && Registered(w.pool.calls[d].pc)
            && KeyOf(w.pool.calls[c]) == KeyOf(w.pool.calls[d]) :: c == d)
      && UniqueHashes(w.db.chunks)
  {
    EveryRunPool(lim, run);
    EveryRunSafe(lim, run);
    var w := Execute(lim, run).value;
    hide Execute;
    assert Consistent(w.db);
    assert UniqueHashes(w.db.chunks);
    hide Safe, Consistent, UniqueHashes;
    forall c, d | c in w.pool.calls && d in w.pool.calls
      && Registered(w.pool.calls[c].pc) && Registered(w.pool.calls[d].pc)
      && KeyOf(w.pool.calls[c]) == KeyOf(w.pool.calls[d])
      ensures c == d
    {
      assert OwnFlight(w.pool, c) && OwnFlight(w.pool, d);
    }
  }

  // ------------------------------------------------------------------ progress

  /**
   A step by which a call or an operation gets on: no arrival, failure or cancellation, and none of
   the writer steps that leave the writer where it was.
   */
  ghost predicate Useful(w: World, lim: Limits, a: Action) {
    match a
    case StartCall(_, _, _, _) => false
    case Begin(_, _) => false
    case Cleanup(_, _) => false
    case Commit(_, _, _) => false
    case EditRow(_, _, _, _) => false
    case DeleteRow(_, _) => false
    case ForgetFile(_) => false
    case CancelCall(_) => false
    case NamingFails(_) => false
    case UploadFails(_, _) => false
    case InsertFails(c) => c in w.pool.calls && HasHash(w.db.chunks, HashOf(w.pool.calls[c]))
    case RecheckMiss(c) => c in w.pool.calls && !HasHash(w.db.chunks, HashOf(w.pool.calls[c]))
    case Discard(_, ok) => ok
    case GcDropBlob(_, _, ok) => ok
    case GcFail(t) =>
      IsGc(w, t) && w.ops[t].gc.GcRead? &&
      exists b :: b in w.ops[t].gc.todo && !(b in w.backups && w.backups[b].MetaSnapshot?)
    case BkUploadFails(_, _) => false
    case BkVerifyFails(_) => false
    case BkDiscarded(_, ok) => ok
    case BkFail(t) => IsBackup(w, t) && w.ops[t].bk.BkSnapshot? && !(lim.retain >= 1 && ValidSnapshot(w.db))
    case _ => true
  }

  ghost predicate Progress(w: World, lim: Limits, a: Action) {
    Enabled(w, lim, a) && Useful(w, lim, a)
  }

  lemma {:induction false} FreshName(names: set<BlobName>) returns (n: BlobName)
    ensures n !in names
    ensures forall m | m in names :: |m| < |n|
    decreases |names|
  {
    if names == {} {
      n := [0];
    } else {
      var m :| m in names;
      var k := FreshName(names - {m});
      n := if |m| < |k| then k else m + [0];
      forall x | x in names ensures |x| < |n| {
        assert x == m || x in names - {m};
      }
    }
  }

  lemma {:induction false} FreshInt(ids: set<int>) returns (n: int)
    ensures n !in ids && n >= 0
    ensures forall m | m in ids :: m < n
    decreases |ids|
  {
    if ids != {} {
      var m := Pick(ids);
      var k := FreshInt(ids - {m});
      n := if m < k then k else m + 1;
      forall x | x in ids ensures x < n {
        assert x == m || x in ids - {m};
      }
    } else {
      n := 0;
    }
  }

  lemma LookupMove(w: World, lim: Limits, a: Action)
    requires LookupEnabled(w, lim, a) && Useful(w, lim, a)
    ensures Progress(w, lim, a)
  {
    hide LookupEnabled, UploadEnabled, WriterEnabled, GcEnabled, BackupEnabled, Useful;
  }

  lemma UploadMove(w: World, lim: Limits, a: Action)
    requires UploadEnabled(w, lim, a) && Useful(w, lim, a)
    ensures Progress(w, lim, a)
  {
    hide LookupEnabled, UploadEnabled, WriterEnabled, GcEnabled, BackupEnabled, Useful;
  }

  /** A call that waits for nothing can take its next step. */
  lemma CallActs(w: World, lim: Limits, c: Cid) returns (a: Action)
    requires OwnersOk(w.ops, w.pool.calls) && UploadersOk(w.pool)
    requires c in w.pool.calls && !Blocked(w.pool.calls[c].pc)
    ensures Progress(w, lim, a)
  {
    hide Progress, UploadersOk, OwnersOk;
    var pc := w.pool.calls[c].pc;
    if pc.Lookup? || pc.Register? {
      a := LookupActs(w, lim, c);
    } else if pc.Naming? || pc.Uploading? {
      a := StoringActs(w, lim, c);
    } else if pc.Inserting? || pc.Rechecking? {
      a := InsertingActs(w, lim, c);
    } else {
      a := ReporterActs(w, lim, c);
    }
  }

  lemma LookupActs(w: World, lim: Limits, c: Cid) returns (a: Action)
    requires c in w.pool.calls && (w.pool.calls[c].pc.Lookup? || w.pool.calls[c].pc.Register?)
    ensures Progress(w, lim, a)
  {
    var call := w.pool.calls[c];
    hide Progress;
    if call.pc.Lookup? {
      if HasHash(w.db.chunks, HashOf(call)) {
        var id :| id in w.db.chunks && w.db.chunks[id].hash == HashOf(call);
        a := LookupHit(c, id);
      } else {
        a := LookupMiss(c);
      }
    } else if KeyOf(call) in w.pool.inflight {
      a := JoinFlight(c);
    } else {
      var f := FreshInt(set f | f in w.pool.flights :: f as int);
      assert f !in w.pool.flights;
      a := OpenFlight(c, f);
    }
    LookupMove(w, lim, a);
  }

  lemma StoringActs(w: World, lim: Limits, c: Cid) returns (a: Action)
    requires c in w.pool.calls
    requires var pc := w.pool.calls[c].pc; pc.Naming? || pc.Uploading?
    ensures Progress(w, lim, a)
  {
    hide Progress;
    if w.pool.calls[c].pc.Naming? {
      var n := FreshName(w.names);
      a := DrawName(c, n);
    } else {
      a := UploadOk(c);
    }
    UploadMove(w, lim, a);
  }

  lemma InsertingActs(w: World, lim: Limits, c: Cid) returns (a: Action)
    requires c in w.pool.calls
    requires var pc := w.pool.calls[c].pc; pc.Inserting? || pc.Rechecking?
    ensures Progress(w, lim, a)
  {
    hide Progress;
    var call := w.pool.calls[c];
    var h := HashOf(call);
    if HasHash(w.db.chunks, h) {
      var id :| id in w.db.chunks && w.db.chunks[id].hash == h;
      a := if call.pc.Inserting? then InsertFails(c) else RecheckHit(c, id);
    } else if call.pc.Inserting? {
      var id := FreshInt(w.db.chunks.Keys);
      a := InsertOk(c, id);
    } else {
      a := RecheckMiss(c);
    }
    UploadMove(w, lim, a);
  }

  lemma ReporterActs(w: World, lim: Limits, c: Cid) returns (a: Action)
    requires OwnersOk(w.ops, w.pool.calls) && UploadersOk(w.pool)
    requires c in w.pool.calls
    requires var pc := w.pool.calls[c].pc;
      pc.Discarding? || pc.Unregistering? || pc.Signalling? || pc.Releasing? || pc.Returned?
    ensures Progress(w, lim, a)
  {
    hide Progress;
    var pc := w.pool.calls[c].pc;
    a := if pc.Discarding? then Discard(c, true) else if pc.Unregistering? then Unregister(c)
         else if pc.Signalling? then Signal(c) else if pc.Releasing? then ReleaseSlot(c) else Collect(c);
    UploadMove(w, lim, a);
  }

  ghost predicate Blocked(pc: Pc) {
    pc.WantSlot? || pc.Waiting? || pc.WantGate?
  }

  lemma GateActs(w: World, lim: Limits, c: Cid) returns (a: Action)
    requires GateOk(w.pool) && c in w.pool.calls && w.pool.calls[c].pc.WantGate?
    requires forall d | d in w.pool.calls :: Blocked(w.pool.calls[d].pc)
    ensures Progress(w, lim, a)
  {
    assert w.pool.gate == {} by {
      assert forall d :: d !in w.pool.gate;
    }
    hide Progress, GateOk;
    a := TakeGate(c);
    UploadMove(w, lim, a);
  }

  lemma WaiterActs(w: World, lim: Limits, c: Cid) returns (a: Action)
    requires WaitersOk(w.pool) && c in w.pool.calls && w.pool.calls[c].pc.Waiting?
    requires forall d | d in w.pool.calls :: Blocked(w.pool.calls[d].pc) && !w.pool.calls[d].pc.WantGate?
    ensures Progress(w, lim, a)
  {
    assert Alive(w.pool, w.pool.calls[c].pc.flight);
    hide Progress, WaitersOk;
    a := WakeUp(c);
    LookupMove(w, lim, a);
  }

  lemma SlotActs(w: World, lim: Limits, c: Cid) returns (a: Action)
    requires SlotsOk(w.pool) && c in w.pool.calls
    requires forall d | d in w.pool.calls :: w.pool.calls[d].pc.WantSlot?
    ensures Progress(w, lim, a)
  {
    assert w.pool.slots == {} by {
      assert forall d :: d !in w.pool.slots;
    }
    hide Progress, SlotsOk;
    a := TakeSlot(c);
    LookupMove(w, lim, a);
  }

  /** Some StoreChunk call can always move: an uploader took its slot before it registered. */
  lemma CallsProgress(w: World, lim: Limits) returns (a: Action)
    requires OwnersOk(w.ops, w.pool.calls) && PoolOk(w.pool)
    requires w.pool.calls != map[]
    ensures Progress(w, lim, a)
  {
    hide Progress, UploadersOk, WaitersOk, InflightOk, SlotsOk, GateOk, OwnersOk;
    if c :| c in w.pool.calls && !Blocked(w.pool.calls[c].pc) {
      a := CallActs(w, lim, c);
    } else if c :| c in w.pool.calls && w.pool.calls[c].pc.WantGate? {
      a := GateActs(w, lim, c);
    } else if c :| c in w.pool.calls && w.pool.calls[c].pc.Waiting? {
      a := WaiterActs(w, lim, c);
    } else {
      var c :| c in w.pool.calls;
      a := SlotActs(w, lim, c);
    }
  }

  // ------------------------------------------------------------ locks and phases

  lemma {:induction false} OldestExists(all: set<BlobName>, retain: nat) returns (todo: set<BlobName>)
    ensures Oldest(all, todo, retain)
    decreases |all|
  {
    if |all| <= retain {
      todo := {};
      assert all - todo == all;
    } else {
      var m := LeastName(all);
      var rest := OldestExists(all - {m}, retain);
      todo := rest + {m};
      assert all - todo == (all - {m}) - rest;
      if rest == {} {
        assert all - todo == all - {m};
      }
    }
  }

  lemma BackupMove(w: World, lim: Limits, a: Action)
    requires BackupEnabled(w, lim, a) && Useful(w, lim, a)
    ensures Progress(w, lim, a)
  {
    hide LookupEnabled, UploadEnabled, WriterEnabled, GcEnabled, BackupEnabled, Useful;
  }

  lemma PruneActs(w: World, lim: Limits, t: Tid) returns (a: Action)
    requires IsBackup(w, t) && w.ops[t].bk.BkPrune?
    ensures Progress(w, lim, a)
  {
    hide Progress, Oldest;
    var todo := OldestExists(w.backups.Keys, lim.retain);
    a := BkListOld(t, todo);
    BackupMove(w, lim, BkListOld(t, todo));
  }

  lemma DropOldActs(w: World, lim: Limits, t: Tid) returns (a: Action)
    requires IsBackup(w, t) && w.ops[t].bk.BkDelete?
    ensures Progress(w, lim, a)
  {
    hide Progress, Oldest;
    if b :| b in w.ops[t].bk.todo {
      a := BkDeleteOld(t, b);
      BackupMove(w, lim, BkDeleteOld(t, b));
    } else {
      a := BkDone(t);
      BackupMove(w, lim, BkDone(t));
    }
  }

  lemma SnapshotActs(w: World, lim: Limits, t: Tid) returns (a: Action)
    requires IsBackup(w, t) && w.ops[t].bk.BkSnapshot?
    ensures Progress(w, lim, a)
  {
    hide LookupEnabled, UploadEnabled, WriterEnabled, GcEnabled, ValidSnapshot;
    if lim.retain >= 1 && ValidSnapshot(w.db) {
      var n := FreshName(w.backups.Keys);
      a := BkTakeSnapshot(t, n);
    } else {
      a := BkFail(t);
    }
  }

  lemma BackupActs(w: World, lim: Limits, t: Tid) returns (a: Action)
    requires IsBackup(w, t) && HoldsMeta(w.ops[t])
    ensures Progress(w, lim, a)
  {
    var bk := w.ops[t].bk;
    if bk.BkPrune? {
      hide Progress;
      a := PruneActs(w, lim, t);
    } else if bk.BkDelete? {
      hide Progress;
      a := DropOldActs(w, lim, t);
    } else if bk.BkSnapshot? {
      hide Progress;
      a := SnapshotActs(w, lim, t);
    } else {
      hide Progress, ValidSnapshot, Oldest;
      a := if bk.BkUpload? then BkUploadOk(t) else if bk.BkVerify? then BkVerifyOk(t)
           else if bk.BkDiscard? then BkDiscarded(t, true) else BkRelease(t);
      BackupMove(w, lim, a);
    }
  }

  ghost predicate GcWaits(gc: GcPhase) {
    gc.GcWantMaint? || gc.GcWantWrite? || gc.GcWantMeta?
  }

  lemma GcMove(w: World, lim: Limits, a: Action)
    requires GcEnabled(w, a) && Useful(w, lim, a)
    ensures Progress(w, lim, a)
  {
    hide LookupEnabled, UploadEnabled, WriterEnabled, GcEnabled, BackupEnabled, Useful;
  }

  lemma GcReadActs(w: World, lim: Limits, t: Tid) returns (a: Action)
    requires IsGc(w, t) && w.ops[t].gc.GcRead?
    ensures Progress(w, lim, a)
  {
    hide Progress;
    if b :| b in w.ops[t].gc.todo {
      a := if b in w.backups && w.backups[b].MetaSnapshot? then GcReadBackup(t, b) else GcFail(t);
    } else {
      assert w.ops[t].gc.todo == {};
      a := GcProtect(t);
    }
    GcMove(w, lim, a);
  }

  lemma GcDropActs(w: World, lim: Limits, t: Tid) returns (a: Action)
    requires IsGc(w, t) && (w.ops[t].gc.GcDropRows? || w.ops[t].gc.GcDropBlobs?)
    ensures Progress(w, lim, a)
  {
    hide Progress;
    if w.ops[t].gc.GcDropRows? {
      if w.ops[t].gc.dead == {} {
        a := GcRowsDone(t);
      } else {
        var id := Pick(w.ops[t].gc.dead);
        a := GcDropRow(t, id);
      }
    } else if n :| n in w.ops[t].gc.garbage {
      a := GcDropBlob(t, n, true);
    } else {
      assert w.ops[t].gc.garbage == {};
      a := GcDone(t);
    }
    GcMove(w, lim, a);
  }

  lemma GcActs(w: World, lim: Limits, t: Tid) returns (a: Action)
    requires IsGc(w, t) && !GcWaits(w.ops[t].gc)
    ensures Progress(w, lim, a)
  {
    hide Progress;
    var gc := w.ops[t].gc;
    if gc.GcRead? {
      a := GcReadActs(w, lim, t);
    } else if gc.GcDropRows? || gc.GcDropBlobs? {
      a := GcDropActs(w, lim, t);
    } else {
      a := if gc.GcList? then GcListBlobs(t)
           else if gc.GcRefs? then GcReadRefs(t)
           else if gc.GcScan? then GcReadChunks(t)
           else if gc.GcListMeta? then GcListBackups(t)
           else if gc.GcUnlockWrite? then GcReleaseWrite(t)
           else GcReleaseMaint(t);
      GcMove(w, lim, a);
    }
  }

  lemma WriterActs(w: World, lim: Limits, t: Tid) returns (a: Action)
    requires IsWriter(w, t) && w.pool.calls == map[] && ShapesOk(w.ops)
    requires w.ops[t].phase != WantMaint && w.ops[t].phase != WantWrite
    ensures Progress(w, lim, a)
  {
    hide Progress;
    match w.ops[t].phase {
      case Streaming => a := WantWriteLock(t);
      case Locked => a := Unlock(t);
      case Draining => a := Leave(t);
    }
    WriterMove(w, lim, a);
  }

  lemma WriterMove(w: World, lim: Limits, a: Action)
    requires WriterEnabled(w, lim, a) && Useful(w, lim, a)
    ensures Progress(w, lim, a)
  {
    hide LookupEnabled, UploadEnabled, WriterEnabled, GcEnabled, BackupEnabled, Useful;
  }

  /** Whoever waits for the Meta lock: its holder, or the waiter itself, can move. */
  lemma MetaProgress(w: World, lim: Limits, t: Tid) returns (a: Action)
    requires LocksOk(w.locks, w.ops)
    requires (IsGc(w, t) && w.ops[t].gc.GcWantMeta?) || (IsBackup(w, t) && w.ops[t].bk.BkWantMeta?)
    ensures Progress(w, lim, a)
  {
    hide Progress;
    if w.locks.meta.None? {
      if w.ops[t].Gc? {
        a := GcTakeMeta(t);
        GcMove(w, lim, a);
      } else {
        a := BkTakeMeta(t);
        BackupMove(w, lim, a);
      }
    } else {
      var h := w.locks.meta.value;
      assert h in w.ops && HoldsMeta(w.ops[h]);
      if w.ops[h].Backup? {
        a := BackupActs(w, lim, h);
      } else {
        a := GcActs(w, lim, h);
      }
    }
  }

  /** GC past its write lock can move, or waits for the Meta lock, whose holder can. */
  lemma GcProgress(w: World, lim: Limits, t: Tid) returns (a: Action)
    requires LocksOk(w.locks, w.ops)
    requires IsGc(w, t) && !w.ops[t].gc.GcWantMaint? && !w.ops[t].gc.GcWantWrite?
    ensures Progress(w, lim, a)
  {
    if w.ops[t].gc.GcWantMeta? {
      a := MetaProgress(w, lim, t);
    } else {
      a := GcActs(w, lim, t);
    }
  }

  lemma WriteProgress(w: World, lim: Limits, t: Tid) returns (a: Action)
    requires LocksOk(w.locks, w.ops) && ShapesOk(w.ops) && w.pool.calls == map[]
    requires (IsGc(w, t) && w.ops[t].gc.GcWantWrite?) || (IsWriter(w, t) && w.ops[t].phase == WantWrite)
    ensures Progress(w, lim, a)
  {
    hide Progress;
    if w.locks.write.None? {
      if w.ops[t].Gc? {
        a := GcTakeWrite(t);
        GcMove(w, lim, a);
      } else {
        a := TakeWrite(t);
        WriterMove(w, lim, a);
      }
    } else {
      var h := w.locks.write.value;
      assert h in w.ops && HoldsWrite(w.ops[h]);
      if w.ops[h].Writer? {
        a := WriterActs(w, lim, h);
      } else {
        a := GcProgress(w, lim, h);
      }
    }
  }

  lemma MaintWriterProgress(w: World, lim: Limits, h: Tid) returns (a: Action)
    requires LocksOk(w.locks, w.ops) && ShapesOk(w.ops) && w.pool.calls == map[]
    requires IsGc(w, h) && HoldsMaintWrite(w.ops[h])
    ensures Progress(w, lim, a)
  {
    if w.ops[h].gc.GcWantWrite? {
      a := WriteProgress(w, lim, h);
    } else {
      a := GcProgress(w, lim, h);
    }
  }

  lemma GcMaintProgress(w: World, lim: Limits, t: Tid) returns (a: Action)
    requires LocksOk(w.locks, w.ops) && ShapesOk(w.ops) && w.pool.calls == map[]
    requires IsGc(w, t) && w.ops[t].gc.GcWantMaint?
    ensures Progress(w, lim, a)
  {
    if w.locks.maintWriter.Some? {
      a := MaintWriterProgress(w, lim, w.locks.maintWriter.value);
    } else if r: nat :| r in w.locks.maintReaders {
      assert IsWriter(w, r) && HoldsMaintRead(w.ops[r]);
      if w.ops[r].phase == WantWrite {
        a := WriteProgress(w, lim, r);
      } else {
        a := WriterActs(w, lim, r);
      }
    } else {
      assert w.locks.maintReaders == {};
      a := GcTakeMaint(t);
    }
  }

  lemma ReaderProgress(w: World, lim: Limits, t: Tid) returns (a: Action)
    requires LocksOk(w.locks, w.ops) && ShapesOk(w.ops) && w.pool.calls == map[]
    requires IsWriter(w, t) && w.ops[t].phase == WantMaint
    ensures Progress(w, lim, a)
  {
    if w.locks.maintWriter.Some? {
      a := MaintWriterProgress(w, lim, w.locks.maintWriter.value);
    } else if g :| g in w.ops && w.ops[g].Gc? && w.ops[g].gc.GcWantMaint? {
      a := GcMaintProgress(w, lim, g);
    } else {
      assert !WriterPending(w);
      a := TakeMaintRead(t);
    }
  }

  lemma OpsProgress(w: World, lim: Limits, t: Tid) returns (a: Action)
    requires LocksOk(w.locks, w.ops) && ShapesOk(w.ops) && w.pool.calls == map[]
    requires t in w.ops
    ensures Progress(w, lim, a)
  {
    hide LocksOk, ShapesOk, Progress;
    match w.ops[t]
    case Writer(kind, phase, _, _) =>
      if phase == WantMaint {
        a := ReaderProgress(w, lim, t);
      } else if phase == WantWrite {
        a := WriteProgress(w, lim, t);
      } else {
        a := WriterActs(w, lim, t);
      }
    case Gc(gc) =>
      if gc.GcWantMaint? {
        a := GcMaintProgress(w, lim, t);
      } else if gc.GcWantWrite? {
        a := WriteProgress(w, lim, t);
      } else {
        a := GcProgress(w, lim, t);
      }
    case Backup(bk) =>
      if bk.BkWantMeta? {
        a := MetaProgress(w, lim, t);
      } else {
        a := BackupActs(w, lim, t);
      }
  }

  /**
   No reachable state is deadlocked: for any limiter and gate capacity, while any call or
   operation is unfinished some thread can take a step that is not a failure.
   */
  lemma NoDeadlock(lim: Limits, run: seq<Action>)
    requires Execute(lim, run).Some?
    requires Execute(lim, run).value.pool.calls != map[] || Execute(lim, run).value.ops != map[]
    ensures exists a :: Progress(Execute(lim, run).value, lim, a)
  {
    EveryRunPool(lim, run);
    EveryRunSafe(lim, run);
    var w := Execute(lim, run).value;
    assert OwnersOk(w.ops, w.pool.calls) && LocksOk(w.locks, w.ops);
    hide Execute, Safe, PoolOk, ShapesOk, Progress, LocksOk, OwnersOk;
    if w.pool.calls != map[] {
      var a := CallsProgress(w, lim);
    } else {
      var t :| t in w.ops;
      var a := OpsProgress(w, lim, t);
    }
  }
}
