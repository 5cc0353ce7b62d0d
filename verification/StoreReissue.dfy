/**
 How a commit comes to store other content. SQLite gives a deleted row's id to the next insert, and
 writers hold ids outside any transaction: a run of three PutFile calls in which one commits the
 content of another.
 */
module StoreReissue {
  import opened Sequences
  import opened Manifest
  import opened ManifestInvariants
  import opened Snapshot
  import opened StoreModel
  import opened StoreContent

  /** The parts of a world that decide what the calls below do. */
  datatype Scene = Scene(
    db: Tables,
    ops: map<Tid, Op>,
    locks: Locks,
    names: set<BlobName>,
    issued: map<int, Hash>,
    flights: set<FlightId>,
    inflight: map<FlightKey, FlightId>,
    calls: map<Cid, Call>)

  ghost function SceneOf(w: World): Scene {
    Scene(w.db, w.ops, w.locks, w.names, w.issued, w.pool.flights.Keys, w.pool.inflight, w.pool.calls)
  }

  /** No upload slots and no gate: neither ever blocks. */
  const Unlimited := Limits(0, 0, 0)

  ghost predicate At(run: seq<Action>, s: Scene, once: bool) {
    && Execute(Unlimited, run).Some? && SceneOf(Execute(Unlimited, run).value) == s
    && (FreshRun(Unlimited, run) ==> once)
  }

  /** From any world of scene s, action a leads to scene s2. */
  ghost predicate Leads(s: Scene, a: Action, s2: Scene) {
    forall w | SceneOf(w) == s :: Enabled(w, Unlimited, a) && SceneOf(Apply(w, Unlimited, a)) == s2
  }

  /** No writer holds the id. */
  ghost predicate FreeOf(ops: map<Tid, Op>, id: int) {
    forall t | t in ops && ops[t].Writer? :: id !in ops[t].got.Values
  }

  ghost predicate NewId(s: Scene, a: Action) {
    a.InsertOk? ==> FreeOf(s.ops, a.id)
  }

  lemma Then(run: seq<Action>, s: Scene, once: bool, a: Action, s2: Scene) returns (longer: seq<Action>)
    requires At(run, s, once) && Leads(s, a, s2)
    ensures At(longer, s2, once && NewId(s, a))
  {
    longer := run + [a];
    assert longer[..|run|] == run;
    hide Enabled, Apply;
  }

  lemma LookupLeads(s: Scene, a: Action, s2: Scene)
    requires forall w | SceneOf(w) == s :: LookupEnabled(w, Unlimited, a) && SceneOf(ApplyLookup(w, Unlimited, a)) == s2
    ensures Leads(s, a, s2)
  {
    hide LookupEnabled, ApplyLookup, SceneOf;
  }

  ghost predicate UploadAct(a: Action) {
    a.DrawName? || a.TakeGate? || a.UploadOk? || a.InsertOk? || a.Unregister? || a.Signal? || a.ReleaseSlot?
      || a.Collect?
  }

  ghost predicate WriterAct(a: Action) {
    a.Begin? || a.TakeMaintRead? || a.WantWriteLock? || a.TakeWrite? || a.Cleanup?
  }

  lemma NoLookup(w: World, a: Action)
    requires UploadAct(a) || WriterAct(a)
    ensures !LookupEnabled(w, Unlimited, a)
  {
  }

  lemma NoUpload(w: World, a: Action)
    requires WriterAct(a)
    ensures !UploadEnabled(w, Unlimited, a)
  {
  }

  lemma UploadLeads(s: Scene, a: Action, s2: Scene)
    requires UploadAct(a)
    requires forall w | SceneOf(w) == s :: UploadEnabled(w, Unlimited, a) && SceneOf(ApplyUpload(w, Unlimited, a)) == s2
    ensures Leads(s, a, s2)
  {
    hide UploadEnabled, ApplyUpload, SceneOf, LookupEnabled;
    forall w | SceneOf(w) == s ensures !LookupEnabled(w, Unlimited, a) {
      NoLookup(w, a);
    }
  }

  lemma WriterLeads(s: Scene, a: Action, s2: Scene)
    requires WriterAct(a)
    requires forall w | SceneOf(w) == s :: WriterEnabled(w, Unlimited, a) && SceneOf(ApplyWriter(w, Unlimited, a)) == s2
    ensures Leads(s, a, s2)
  {
    hide WriterEnabled, ApplyWriter, SceneOf, LookupEnabled, UploadEnabled;
    forall w | SceneOf(w) == s ensures !LookupEnabled(w, Unlimited, a) && !UploadEnabled(w, Unlimited, a) {
      NoLookup(w, a);
      NoUpload(w, a);
    }
  }

  // ------------------------------------------------------------------- the steps

  ghost function OnlyCall(s: Scene, c: Cid, call: Call, pc: Pc): Scene {
    s.(calls := map[c := call.(pc := pc)])
  }

  ghost function Handed(s: Scene, t: Tid, data: bytes): Scene
    requires t in s.ops && s.ops[t].Writer?
  {
    s.(ops := s.ops[t := s.ops[t].(pieces := s.ops[t].pieces + [data])])
  }

  ghost predicate CanStore(s: Scene, t: Tid) {
    t in s.ops && MayStore(s.ops[t]) && s.calls == map[] && s.inflight == map[]
  }

  ghost function NewCall(s: Scene, t: Tid, data: bytes): Call
    requires CanStore(s, t)
  {
    Call(t, 0, |s.ops[t].pieces|, data, WantSlot)
  }

  lemma Starts(s: Scene, t: Tid, c: Cid, data: bytes)
    requires CanStore(s, t)
    ensures Leads(s, StartCall(t, c, 0, data), OnlyCall(Handed(s, t, data), c, NewCall(s, t, data), WantSlot))
  {
    hide Leads, HasHash, Insert;
    LookupLeads(s, StartCall(t, c, 0, data),
      OnlyCall(Handed(s, t, data), c, NewCall(s, t, data), WantSlot));
  }

  lemma TakesSlot(s: Scene, c: Cid, call: Call)
    ensures Leads(OnlyCall(s, c, call, WantSlot), TakeSlot(c), OnlyCall(s, c, call, Lookup))
  {
    hide Leads, HasHash, Insert;
    LookupLeads(OnlyCall(s, c, call, WantSlot), TakeSlot(c),
      OnlyCall(s, c, call, Lookup));
  }

  lemma Hits(s: Scene, c: Cid, call: Call, id: int)
    requires id in s.db.chunks && s.db.chunks[id].hash == HashOf(call)
    ensures Leads(OnlyCall(s, c, call, Lookup), LookupHit(c, id), OnlyCall(s, c, call, Releasing(Stored(id, true))))
  {
    hide Leads, HasHash, Insert;
    LookupLeads(OnlyCall(s, c, call, Lookup), LookupHit(c, id),
      OnlyCall(s, c, call, Releasing(Stored(id, true))));
  }

  lemma Misses(s: Scene, c: Cid, call: Call)
    requires !HasHash(s.db.chunks, HashOf(call))
    ensures Leads(OnlyCall(s, c, call, Lookup), LookupMiss(c), OnlyCall(s, c, call, Register))
  {
    hide Leads, HasHash, Insert;
    LookupLeads(OnlyCall(s, c, call, Lookup), LookupMiss(c),
      OnlyCall(s, c, call, Register));
  }

  ghost function Flying(s: Scene, call: Call, f: FlightId): Scene {
    s.(inflight := map[KeyOf(call) := f], flights := s.flights + {f})
  }

  lemma OpensFlight(s: Scene, c: Cid, call: Call, f: FlightId)
    requires s.inflight == map[] && f !in s.flights
    ensures Leads(OnlyCall(s, c, call, Register), OpenFlight(c, f), OnlyCall(Flying(s, call, f), c, call, Naming(f)))
  {
    hide Leads, HasHash, Insert;
    LookupLeads(OnlyCall(s, c, call, Register), OpenFlight(c, f),
      OnlyCall(Flying(s, call, f), c, call, Naming(f)));
  }

  lemma DrawsName(s: Scene, c: Cid, call: Call, f: FlightId, n: BlobName)
    requires n !in s.names
    ensures Leads(OnlyCall(s, c, call, Naming(f)), DrawName(c, n),
                  OnlyCall(s.(names := s.names + {n}), c, call, WantGate(f, n)))
  {
    hide Leads, HasHash, Insert;
    UploadLeads(OnlyCall(s, c, call, Naming(f)), DrawName(c, n),
      OnlyCall(s.(names := s.names + {n}), c, call, WantGate(f, n)));
  }

  lemma TakesGate(s: Scene, c: Cid, call: Call, f: FlightId, n: BlobName)
    ensures Leads(OnlyCall(s, c, call, WantGate(f, n)), TakeGate(c), OnlyCall(s, c, call, Uploading(f, n)))
  {
    hide Leads, HasHash, Insert;
    UploadLeads(OnlyCall(s, c, call, WantGate(f, n)), TakeGate(c),
      OnlyCall(s, c, call, Uploading(f, n)));
  }

  lemma Uploads(s: Scene, c: Cid, call: Call, f: FlightId, n: BlobName)
    ensures Leads(OnlyCall(s, c, call, Uploading(f, n)), UploadOk(c), OnlyCall(s, c, call, Inserting(f, n)))
  {
    hide Leads, HasHash, Insert;
    UploadLeads(OnlyCall(s, c, call, Uploading(f, n)), UploadOk(c),
      OnlyCall(s, c, call, Inserting(f, n)));
  }

  ghost function Inserted(s: Scene, call: Call, n: BlobName, id: int): Scene
    requires Insert(s.db, id, HashOf(call), |call.data|, n).Some?
  {
    s.(db := Insert(s.db, id, HashOf(call), |call.data|, n).value, issued := s.issued[id := HashOf(call)])
  }

  lemma Inserts(s: Scene, c: Cid, call: Call, f: FlightId, n: BlobName, id: int)
    requires Insert(s.db, id, HashOf(call), |call.data|, n).Some?
    ensures Leads(OnlyCall(s, c, call, Inserting(f, n)), InsertOk(c, id),
                  OnlyCall(Inserted(s, call, n, id), c, call, Unregistering(f, Stored(id, false))))
  {
    hide Leads, HasHash, Insert;
    UploadLeads(OnlyCall(s, c, call, Inserting(f, n)), InsertOk(c, id),
      OnlyCall(Inserted(s, call, n, id), c, call, Unregistering(f, Stored(id, false))));
  }

  lemma Unregisters(s: Scene, c: Cid, call: Call, f: FlightId, out: Outcome)
    requires s.inflight == map[KeyOf(call) := f]
    ensures Leads(OnlyCall(s, c, call, Unregistering(f, out)), Unregister(c),
                  OnlyCall(s.(inflight := map[]), c, call, Signalling(f, out)))
  {
    hide Leads, HasHash, Insert;
    assert s.inflight - {KeyOf(call)} == map[];
    UploadLeads(OnlyCall(s, c, call, Unregistering(f, out)), Unregister(c),
      OnlyCall(s.(inflight := map[]), c, call, Signalling(f, out)));
  }

  lemma Signals(s: Scene, c: Cid, call: Call, f: FlightId, out: Outcome)
    requires f in s.flights
    ensures Leads(OnlyCall(s, c, call, Signalling(f, out)), Signal(c), OnlyCall(s, c, call, Releasing(out)))
  {
    hide Leads, HasHash, Insert;
    UploadLeads(OnlyCall(s, c, call, Signalling(f, out)), Signal(c),
      OnlyCall(s, c, call, Releasing(out)));
  }

  lemma ReleasesSlot(s: Scene, c: Cid, call: Call, out: Outcome)
    ensures Leads(OnlyCall(s, c, call, Releasing(out)), ReleaseSlot(c), OnlyCall(s, c, call, Returned(out)))
  {
    hide Leads, HasHash, Insert;
    UploadLeads(OnlyCall(s, c, call, Releasing(out)), ReleaseSlot(c),
      OnlyCall(s, c, call, Returned(out)));
  }

  ghost function Collected(s: Scene, call: Call, id: int): Scene
    requires call.owner in s.ops && s.ops[call.owner].Writer?
  {
    var op := s.ops[call.owner];
    s.(calls := map[], ops := s.ops[call.owner := op.(got := op.got[call.slot := id])])
  }

  lemma Collects(s: Scene, c: Cid, call: Call, id: int, reused: bool)
    requires call.owner in s.ops && s.ops[call.owner].Writer?
    ensures Leads(OnlyCall(s, c, call, Returned(Stored(id, reused))), Collect(c), Collected(s, call, id))
  {
    hide Leads, HasHash, Insert;
    UploadLeads(OnlyCall(s, c, call, Returned(Stored(id, reused))), Collect(c),
      Collected(s, call, id));
  }

  // ------------------------------------------------------------- a whole StoreChunk

  ghost function Opened(s: Scene, call: Call, f: FlightId, n: BlobName): Scene {
    Flying(s, call, f).(names := s.names + {n})
  }

  /** From the call's start to the upload: a miss, a new flight and a new name. */
  lemma Ascend(run: seq<Action>, s: Scene, once: bool, t: Tid, c: Cid, data: bytes, f: FlightId, n: BlobName)
      returns (r: seq<Action>)
    requires At(run, s, once) && CanStore(s, t)
    requires f !in s.flights && n !in s.names && !HasHash(s.db.chunks, Sha256(data))
    ensures var call := NewCall(s, t, data);
      At(r, OnlyCall(Opened(Handed(s, t, data), call, f, n), c, call, Uploading(f, n)), once)
  {
    var call := NewCall(s, t, data);
    var s1 := Handed(s, t, data);
    var s2, s3 := Flying(s1, call, f), Opened(s1, call, f, n);
    hide At, Leads, HasHash, Handed, Flying, OnlyCall;
    assert s1.flights == s.flights && s1.inflight == map[] && s1.db == s.db && s2.names == s.names by { }
    Starts(s, t, c, data);
    r := Then(run, s, once, StartCall(t, c, 0, data), OnlyCall(s1, c, call, WantSlot));
    TakesSlot(s1, c, call);
    r := Then(r, OnlyCall(s1, c, call, WantSlot), once, TakeSlot(c), OnlyCall(s1, c, call, Lookup));
    Misses(s1, c, call);
    r := Then(r, OnlyCall(s1, c, call, Lookup), once, LookupMiss(c), OnlyCall(s1, c, call, Register));
    OpensFlight(s1, c, call, f);
    r := Then(r, OnlyCall(s1, c, call, Register), once, OpenFlight(c, f), OnlyCall(s2, c, call, Naming(f)));
    DrawsName(s2, c, call, f, n);
    r := Then(r, OnlyCall(s2, c, call, Naming(f)), once, DrawName(c, n), OnlyCall(s3, c, call, WantGate(f, n)));
    TakesGate(s3, c, call, f, n);
    r := Then(r, OnlyCall(s3, c, call, WantGate(f, n)), once, TakeGate(c), OnlyCall(s3, c, call, Uploading(f, n)));
  }

  ghost function Landed(s: Scene, call: Call, n: BlobName, id: int): Scene
    requires Insert(s.db, id, HashOf(call), |call.data|, n).Some?
    requires call.owner in s.ops && s.ops[call.owner].Writer?
  {
    Collected(Inserted(s, call, n, id).(inflight := map[]), call, id)
  }

  /** From the upload to the return: the row is inserted and the flight settled. */
  lemma Descend(run: seq<Action>, s: Scene, once: bool, c: Cid, call: Call, f: FlightId, n: BlobName, id: int)
      returns (r: seq<Action>)
    requires At(run, OnlyCall(s, c, call, Uploading(f, n)), once)
    requires s.inflight == map[KeyOf(call) := f] && f in s.flights
    requires call.owner in s.ops && s.ops[call.owner].Writer?
    requires Insert(s.db, id, HashOf(call), |call.data|, n).Some?
    ensures At(r, Landed(s, call, n, id), once && FreeOf(s.ops, id))
  {
    var s1 := Inserted(s, call, n, id);
    var s2 := s1.(inflight := map[]);
    var once1 := once && FreeOf(s.ops, id);
    var out := Stored(id, false);
    Uploads(s, c, call, f, n);
    r := Then(run, OnlyCall(s, c, call, Uploading(f, n)), once, UploadOk(c), OnlyCall(s, c, call, Inserting(f, n)));
    Inserts(s, c, call, f, n, id);
    r := Then(r, OnlyCall(s, c, call, Inserting(f, n)), once, InsertOk(c, id),
      OnlyCall(s1, c, call, Unregistering(f, out)));
    hide At, Leads, OnlyCall, Insert;
    Unregisters(s1, c, call, f, out);
    r := Then(r, OnlyCall(s1, c, call, Unregistering(f, out)), once1, Unregister(c),
      OnlyCall(s2, c, call, Signalling(f, out)));
    Signals(s2, c, call, f, out);
    r := Then(r, OnlyCall(s2, c, call, Signalling(f, out)), once1, Signal(c), OnlyCall(s2, c, call, Releasing(out)));
    r := Return(r, s2, once1, c, call, id, false);
  }

  lemma Return(run: seq<Action>, s: Scene, once: bool, c: Cid, call: Call, id: int, reused: bool)
      returns (r: seq<Action>)
    requires At(run, OnlyCall(s, c, call, Releasing(Stored(id, reused))), once)
    requires call.owner in s.ops && s.ops[call.owner].Writer?
    ensures At(r, Collected(s, call, id), once)
  {
    var out := Stored(id, reused);
    hide At, Leads, OnlyCall, Collected;
    ReleasesSlot(s, c, call, out);
    r := Then(run, OnlyCall(s, c, call, Releasing(out)), once, ReleaseSlot(c), OnlyCall(s, c, call, Returned(out)));
    Collects(s, c, call, id, reused);
    r := Then(r, OnlyCall(s, c, call, Returned(out)), once, Collect(c), Collected(s, call, id));
  }

  ghost function Holding(op: Op, data: bytes, id: int): Op
    requires op.Writer?
  {
    op.(pieces := op.pieces + [data], got := op.got[|op.pieces| := id])
  }

  lemma SameHolders(ops: map<Tid, Op>, t: Tid, data: bytes, id: int)
    requires t in ops && ops[t].Writer?
    ensures FreeOf(ops[t := ops[t].(pieces := ops[t].pieces + [data])], id) == FreeOf(ops, id)
  {
    var more := ops[t := ops[t].(pieces := ops[t].pieces + [data])];
    assert forall u :: u in more <==> u in ops;
    assert forall u | u in ops && ops[u].Writer? :: more[u].Writer? && more[u].got == ops[u].got;
  }

  /** A StoreChunk call alone in the store uploads its new chunk and returns the inserted row's id. */
  lemma StoreFresh(run: seq<Action>, s: Scene, once: bool, t: Tid, c: Cid, data: bytes, f: FlightId, n: BlobName,
      id: int)
      returns (r: seq<Action>)
    requires At(run, s, once) && CanStore(s, t)
    requires f !in s.flights && n !in s.names && Insert(s.db, id, Sha256(data), |data|, n).Some?
    ensures At(r, s.(db := Insert(s.db, id, Sha256(data), |data|, n).value,
                     ops := s.ops[t := Holding(s.ops[t], data, id)],
                     issued := s.issued[id := Sha256(data)],
                     names := s.names + {n},
                     flights := s.flights + {f}), once && FreeOf(s.ops, id))
  {
    var call := NewCall(s, t, data);
    r := Ascend(run, s, once, t, c, data, f, n);
    hide At, Insert;
    SameHolders(s.ops, t, data, id);
    r := Descend(r, Opened(Handed(s, t, data), call, f, n), once, c, call, f, n, id);
  }

  /** A StoreChunk call alone in the store finds the row of its content. */
  lemma StoreHit(run: seq<Action>, s: Scene, once: bool, t: Tid, c: Cid, data: bytes, id: int) returns (r: seq<Action>)
    requires At(run, s, once) && CanStore(s, t)
    requires id in s.db.chunks && s.db.chunks[id].hash == Sha256(data)
    ensures At(r, s.(ops := s.ops[t := Holding(s.ops[t], data, id)]), once)
  {
    var call := NewCall(s, t, data);
    var s1 := Handed(s, t, data);
    hide At, Leads;
    Starts(s, t, c, data);
    r := Then(run, s, once, StartCall(t, c, 0, data), OnlyCall(s1, c, call, WantSlot));
    TakesSlot(s1, c, call);
    r := Then(r, OnlyCall(s1, c, call, WantSlot), once, TakeSlot(c), OnlyCall(s1, c, call, Lookup));
    Hits(s1, c, call, id);
    r := Then(r, OnlyCall(s1, c, call, Lookup), once, LookupHit(c, id),
      OnlyCall(s1, c, call, Releasing(Stored(id, true))));
    r := Return(r, s1, once, c, call, id, true);
  }

  // ------------------------------------------------------------------ the writers

  ghost predicate OnlyPuts(s: Scene) {
    s.locks.maintWriter == None && forall t | t in s.ops :: s.ops[t].Writer?
  }

  ghost function Entering(s: Scene, t: Tid, phase: WriterPhase): Scene {
    s.(ops := s.ops[t := Writer(Put, phase, [], map[])])
  }

  /** PutFile begins and takes the maintenance read lock. */
  lemma Enter(run: seq<Action>, s: Scene, once: bool, t: Tid) returns (r: seq<Action>)
    requires At(run, s, once) && OnlyPuts(s) && t !in s.ops
    ensures At(r, Entering(s, t, Streaming).(locks := s.locks.(maintReaders := s.locks.maintReaders + {t})), once)
    ensures OnlyPuts(Entering(s, t, Streaming).(locks := s.locks.(maintReaders := s.locks.maintReaders + {t})))
  {
    var s1 := Entering(s, t, WantMaint);
    var s2 := Entering(s, t, Streaming).(locks := s.locks.(maintReaders := s.locks.maintReaders + {t}));
    hide At, Leads;
    Begins(s, t);
    r := Then(run, s, once, Begin(t, Writer(Put, WantMaint, [], map[])), s1);
    assert s2 == s1.(ops := s1.ops[t := s1.ops[t].(phase := Streaming)], locks := s2.locks);
    TakesMaintRead(s1, t);
    r := Then(r, s1, once, TakeMaintRead(t), s2);
  }

  lemma Begins(s: Scene, t: Tid)
    requires t !in s.ops
    ensures Leads(s, Begin(t, Writer(Put, WantMaint, [], map[])), Entering(s, t, WantMaint))
  {
    hide Leads;
    WriterLeads(s, Begin(t, Writer(Put, WantMaint, [], map[])), Entering(s, t, WantMaint));
  }

  lemma TakesMaintRead(s: Scene, t: Tid)
    requires OnlyPuts(s) && t in s.ops && s.ops[t].kind == Put && s.ops[t].phase == WantMaint
    ensures Leads(s, TakeMaintRead(t), s.(ops := s.ops[t := s.ops[t].(phase := Streaming)],
                                          locks := s.locks.(maintReaders := s.locks.maintReaders + {t})))
  {
    hide Leads;
    WriterLeads(s, TakeMaintRead(t), s.(ops := s.ops[t := s.ops[t].(phase := Streaming)],
                                        locks := s.locks.(maintReaders := s.locks.maintReaders + {t})));
  }

  ghost predicate Streams(s: Scene, t: Tid) {
    t in s.ops && s.ops[t].Writer? && s.ops[t].kind == Put && s.ops[t].phase == Streaming
  }

  lemma CleansUp(s: Scene, t: Tid, id: int)
    requires Streams(s, t)
    ensures Leads(s, Cleanup(t, id), s.(db := DeleteIfZero(s.db, id)))
  {
    hide Leads, DeleteIfZero;
    WriterLeads(s, Cleanup(t, id), s.(db := DeleteIfZero(s.db, id)));
  }

  ghost function InPhase(s: Scene, t: Tid, phase: WriterPhase): Scene
    requires t in s.ops && s.ops[t].Writer?
  {
    s.(ops := s.ops[t := s.ops[t].(phase := phase)])
  }

  /** PutFile takes the write lock for its commit. */
  lemma LockFor(run: seq<Action>, s: Scene, once: bool, t: Tid) returns (r: seq<Action>)
    requires At(run, s, once) && Streams(s, t) && s.calls == map[] && s.locks.write == None
    ensures At(r, InPhase(s, t, Locked).(locks := s.locks.(write := Some(t))), once)
  {
    var s1 := InPhase(s, t, WantWrite);
    var s2 := InPhase(s, t, Locked).(locks := s.locks.(write := Some(t)));
    hide At, Leads;
    WantsLock(s, t);
    r := Then(run, s, once, WantWriteLock(t), s1);
    assert s2 == InPhase(s1, t, Locked).(locks := s.locks.(write := Some(t)));
    TakesLock(s1, t);
    r := Then(r, s1, once, TakeWrite(t), s2);
  }

  lemma WantsLock(s: Scene, t: Tid)
    requires Streams(s, t) && s.calls == map[]
    ensures Leads(s, WantWriteLock(t), InPhase(s, t, WantWrite))
  {
    hide Leads;
    WriterLeads(s, WantWriteLock(t), InPhase(s, t, WantWrite));
  }

  lemma TakesLock(s: Scene, t: Tid)
    requires t in s.ops && s.ops[t].Writer? && s.ops[t].phase == WantWrite && s.locks.write == None
    ensures Leads(s, TakeWrite(t), InPhase(s, t, Locked).(locks := s.locks.(write := Some(t))))
  {
    hide Leads;
    WriterLeads(s, TakeWrite(t), InPhase(s, t, Locked).(locks := s.locks.(write := Some(t))));
  }

  // ------------------------------------------------------------------- the run

  const Streaming0 := Writer(Put, Streaming, [], map[])

  /** Three PutFile calls have begun. */
  const Crowd := Scene(EmptyTables, map[0 := Streaming0, 1 := Streaming0, 2 := Streaming0],
                       Locks({0, 1, 2}, None, None, None), {}, map[], {}, map[], map[])

  lemma Gathers() returns (r: seq<Action>)
    ensures At(r, Crowd, true)
  {
    var s := SceneOf(Start);
    assert At([], s, true);
    r := Enter([], s, true, 0);
    s := Entering(s, 0, Streaming).(locks := s.locks.(maintReaders := s.locks.maintReaders + {0}));
    r := Enter(r, s, true, 1);
    s := Entering(s, 1, Streaming).(locks := s.locks.(maintReaders := s.locks.maintReaders + {1}));
    r := Enter(r, s, true, 2);
    s := Entering(s, 2, Streaming).(locks := s.locks.(maintReaders := s.locks.maintReaders + {2}));
    assert s.locks.maintReaders == {0, 1, 2};
    assert s == Crowd;
  }

  function OneRow(data: bytes, n: BlobName): Tables {
    EmptyTables.(chunks := map[1 := ChunkRow(Sha256(data), |data|, 0, n)])
  }

  lemma InsertsFirst(data: bytes, n: BlobName)
    ensures Insert(EmptyTables, 1, Sha256(data), |data|, n) == Some(OneRow(data, n))
    ensures DeleteIfZero(OneRow(data, n), 1) == EmptyTables
    ensures Consistent(OneRow(data, n))
  {
    assert DeleteIfZero(OneRow(data, n), 1).chunks == map[];
    assert Consistent(EmptyTables);
    InsertConsistent(EmptyTables, 1, Sha256(data), |data|, n);
  }

  const Holder := Writer(Put, Streaming, [[1]], map[0 := 1])
  const Committer := Writer(Put, Locked, [[1]], map[0 := 1])

  /** Writers 0 and 1 hold the id of the same chunk. */
  const Shared := Crowd.(db := OneRow([1], [10]), ops := map[0 := Holder, 1 := Holder, 2 := Streaming0],
                         names := {[10]}, issued := map[1 := Sha256([1])], flights := {0})

  lemma HoldsOne(data: bytes)
    ensures Holding(Streaming0, data, 1) == Writer(Put, Streaming, [data], map[0 := 1])
  {
  }

  /** Writer 0 alone holds it. */
  const First := Shared.(ops := map[0 := Holder, 1 := Streaming0, 2 := Streaming0])

  lemma Holders()
    ensures FreeOf(Crowd.ops, 1) && !FreeOf(Shared.ops, 1)
  {
    assert Shared.ops[1].got[0] == 1;
  }

  lemma FirstStores() returns (r: seq<Action>)
    ensures At(r, First, true)
  {
    r := Gathers();
    InsertsFirst([1], [10]);
    HoldsOne([1]);
    Holders();
    hide At, Insert, DeleteIfZero, Holding, FreeOf;
    r := StoreFresh(r, Crowd, true, 0, 0, [1], 0, [10], 1);
    assert Crowd.names + {[10]} == First.names && Crowd.flights + {0} == First.flights;
    assert Crowd.ops[0 := Holder] == First.ops;
  }

  lemma Shares() returns (r: seq<Action>)
    ensures At(r, Shared, true)
  {
    r := FirstStores();
    HoldsOne([1]);
    hide At, Holding;
    r := StoreHit(r, First, true, 1, 1, [1], 1);
    assert First.ops[1 := Holder] == Shared.ops;
  }

  /** Writer 0 gives its chunk up, and the row goes. */
  lemma GivesUp() returns (r: seq<Action>)
    ensures At(r, Shared.(db := EmptyTables), true)
  {
    r := Shares();
    InsertsFirst([1], [10]);
    CleansUp(Shared, 0, 1);
    hide At, Leads, DeleteIfZero;
    r := Then(r, Shared, true, Cleanup(0, 1), Shared.(db := EmptyTables));
  }

  ghost predicate Swapping(s: Scene) {
    && s.db == OneRow([2], [11]) && s.calls == map[]
    && 1 in s.ops && s.ops[1] == Committer
  }

  /** Writer 2 is given the id again, and writer 1 is about to commit it. */
  lemma Reissues() returns (r: seq<Action>, s: Scene)
    ensures At(r, s, false) && Swapping(s)
  {
    r := GivesUp();
    InsertsFirst([2], [11]);
    HoldsOne([2]);
    Holders();
    hide At, Insert, Leads, Holding, FreeOf;
    s := Shared.(db := EmptyTables);
    assert [11] != [10] by { assert [11][0] != [10][0]; }
    r := StoreFresh(r, s, true, 2, 2, [2], 1, [11], 1);
    s := s.(db := OneRow([2], [11]), ops := s.ops[2 := Holding(Streaming0, [2], 1)],
            issued := s.issued[1 := Sha256([2])], names := s.names + {[11]}, flights := s.flights + {1});
    r := LockFor(r, s, false, 1);
    s := InPhase(s, 1, Locked).(locks := s.locks.(write := Some(1)));
  }

  /** A commit that stores content other than the pieces the writer handed to StoreChunk. */
  ghost predicate CommitSwaps(w: World, t: Tid, row: FileRow, fid: int) {
    WriterEnabled(w, Unlimited, Commit(t, row, fid)) && StoresOther(w.db, row, RefsGot(w.ops[t]), fid, w.ops[t].pieces)
  }

  ghost predicate StoresOther(t: Tables, row: FileRow, refs: seq<ChunkRef>, fid: int, pieces: seq<bytes>) {
    var u := Upsert(t, row, refs, fid);
    && u.Some?
    && UniquePaths(u.value.files) && row.path in View(u.value)
    && Contiguous(View(u.value)[row.path].refs)
    && ContentOf(u.value.chunks, View(u.value)[row.path].refs) != Flatten(pieces)
  }

  ghost predicate Swaps(run: seq<Action>, t: Tid, row: FileRow, fid: int) {
    && Execute(Unlimited, run).Some? && !FreshRun(Unlimited, run)
    && CommitSwaps(Execute(Unlimited, run).value, t, row, fid)
  }

  /** Some run that reissues a held id commits another file's content: CommitIff's condition can fail. */
  lemma ReissuedIdSwapsContent()
    ensures exists run, t, row, fid :: Swaps(run, t, row, fid)
  {
    var run, s := Reissues();
    var row := FileRow([7], false, false, 0, 0, 0, 1, 0, []);
    hide Execute, FreshRun, CommitSwaps, Swapping;
    SwappingCommits(Execute(Unlimited, run).value, row);
    assert Swaps(run, 1, row, 1);
  }

  lemma SwappingCommits(w: World, row: FileRow)
    requires Swapping(SceneOf(w))
    ensures CommitSwaps(w, 1, row, 1)
  {
    CommitReady(w, row);
    hide WriterEnabled, RefsGot, StoresOther;
    SwappedCommit(row);
  }

  lemma CommitReady(w: World, row: FileRow)
    requires Swapping(SceneOf(w))
    ensures WriterEnabled(w, Unlimited, Commit(1, row, 1))
    ensures w.db == OneRow([2], [11]) && w.ops[1].pieces == [[1]] && RefsGot(w.ops[1]) == [ChunkRef(1, 0)]
  {
    assert AllGot(Committer);
    assert RefsGot(Committer) == [ChunkRef(1, 0)];
    hide AllGot, RefsGot;
  }

  lemma SwappedCommit(row: FileRow)
    ensures StoresOther(OneRow([2], [11]), row, [ChunkRef(1, 0)], 1, [[1]])
  {
    var t, refs := OneRow([2], [11]), [ChunkRef(1, 0)];
    InsertsFirst([2], [11]);
    UpsertCommits(t, row, refs, 1);
    var u := Upsert(t, row, refs, 1).value;
    UpsertView(t, row, refs, 1);
    UpsertTables(t, row, refs, 1);
    UpsertForeignKeys(t, row, refs, 1);
    hide Upsert, Consistent;
    CommittedPieces(t.chunks, u, refs, [[2]], 1, LinksElsewhere(t, row.path));
    assert Flatten([[1]])[0] != Flatten([[2]])[0];
  }
}
