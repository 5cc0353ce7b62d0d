/**
 What StoreChunk calls may hold and report: no more calls are past the limiter and no more uploads
 run than the limits say, and a chunk is reported as new by the call that inserted its row alone.
 */
module StoreLimits {
  import opened Sequences
  import opened Manifest
  import opened StoreModel
  import opened StoreProgress

  // ------------------------------------------------------------------- limits

  ghost predicate WithinLimits(pool: Pool, lim: Limits) {
    && (lim.slots > 0 ==> |pool.slots| <= lim.slots)
    && (lim.gate > 0 ==> |pool.gate| <= lim.gate)
  }

  /** Only taking a slot or passing the gate adds a holder. */
  ghost predicate NoNewHolder(before: Pool, after: Pool) {
    after.slots <= before.slots && after.gate <= before.gate
  }

  lemma LookupHolders(w: World, lim: Limits, a: Action)
    requires LookupEnabled(w, lim, a) && !a.TakeSlot?
    ensures NoNewHolder(w.pool, ApplyLookup(w, lim, a).pool)
  {
    hide HasHash, HashOf;
  }

  lemma UploadHolders(w: World, lim: Limits, a: Action)
    requires UploadEnabled(w, lim, a) && !a.TakeGate?
    ensures NoNewHolder(w.pool, ApplyUpload(w, lim, a).pool)
  {
    hide Insert, HasHash, HashOf;
  }

  lemma OpHolders(w: World, lim: Limits, a: Action)
    requires Enabled(w, lim, a) && !LookupEnabled(w, lim, a) && !UploadEnabled(w, lim, a)
    ensures Apply(w, lim, a).pool == w.pool
  {
    hide LookupEnabled, UploadEnabled, WriterEnabled, GcEnabled, BackupEnabled,
      ApplyLookup, ApplyUpload, ApplyWriter, ApplyGc, ApplyBackup;
    if WriterEnabled(w, lim, a) {
      WriterPool(w, lim, a);
    } else if GcEnabled(w, a) {
      GcPool(w, a);
    } else {
      BackupPool(w, lim, a);
    }
  }

  lemma StepLimits(w: World, lim: Limits, a: Action)
    requires WithinLimits(w.pool, lim) && Enabled(w, lim, a)
    ensures WithinLimits(Apply(w, lim, a).pool, lim)
  {
    if LookupEnabled(w, lim, a) {
      var v := ApplyLookup(w, lim, a);
      if a.TakeSlot? {
        assert v.pool.slots == w.pool.slots + {a.c} && v.pool.gate == w.pool.gate;
      } else {
        LookupHolders(w, lim, a);
        SubsetSize(v.pool.slots, w.pool.slots);
        SubsetSize(v.pool.gate, w.pool.gate);
      }
    } else if UploadEnabled(w, lim, a) {
      var v := ApplyUpload(w, lim, a);
      if a.TakeGate? {
        assert v.pool.gate == w.pool.gate + {a.c} && v.pool.slots == w.pool.slots;
      } else {
        UploadHolders(w, lim, a);
        SubsetSize(v.pool.slots, w.pool.slots);
        SubsetSize(v.pool.gate, w.pool.gate);
      }
    } else {
      OpHolders(w, lim, a);
    }
  }

  lemma {:induction false} EveryRunWithin(lim: Limits, run: seq<Action>)
    requires Execute(lim, run).Some?
    ensures WithinLimits(Execute(lim, run).value.pool, lim)
    decreases |run|
  {
    hide Apply, Enabled;
    if run != [] {
      EveryRunWithin(lim, run[..|run| - 1]);
      StepLimits(Execute(lim, run[..|run| - 1]).value, lim, run[|run| - 1]);
    }
  }

  /** In every reachable state at most `slots` calls are past the limiter and at most `gate` of them upload. */
  lemma LimitsKept(lim: Limits, run: seq<Action>)
    requires Execute(lim, run).Some?
    ensures var calls := Execute(lim, run).value.pool.calls;
      && (lim.slots > 0 ==>
            |set c | c in calls && !calls[c].pc.WantSlot? && !calls[c].pc.Returned?| <= lim.slots)
      && (lim.gate > 0 ==> |set c | c in calls && calls[c].pc.Uploading?| <= lim.gate)
  {
    EveryRunPool(lim, run);
    EveryRunWithin(lim, run);
    var pool := Execute(lim, run).value.pool;
    hide Execute;
    assert SlotsOk(pool) && GateOk(pool);
    assert pool.slots == set c | c in pool.calls && !pool.calls[c].pc.WantSlot? && !pool.calls[c].pc.Returned?;
    assert pool.gate == set c | c in pool.calls && pool.calls[c].pc.Uploading?;
  }

  // ------------------------------------------------------------------- reports

  ghost function Report(pc: Pc): Option<Outcome> {
    match pc
    case Unregistering(_, out) => Some(out)
    case Signalling(_, out) => Some(out)
    case Releasing(out) => Some(out)
    case Returned(out) => Some(out)
    case _ => None
  }

  ghost predicate ReportsNew(calls: map<Cid, Call>, c: Cid, id: int) {
    c in calls && Report(calls[c].pc) == Some(Stored(id, false))
  }

  ghost predicate NewOnce(before: map<Cid, Call>, after: map<Cid, Call>, a: Action) {
    forall c, id | ReportsNew(after, c, id) :: ReportsNew(before, c, id) || a == InsertOk(c, id)
  }

  lemma LookingReports(w: World, lim: Limits, a: Action)
    requires LookupEnabled(w, lim, a)
    requires a.StartCall? || a.TakeSlot? || a.LookupHit? || a.LookupMiss?
    ensures NewOnce(w.pool.calls, ApplyLookup(w, lim, a).pool.calls, a)
  {
    hide HasHash, HashOf;
  }

  lemma WaitingReports(w: World, lim: Limits, a: Action)
    requires LookupEnabled(w, lim, a)
    requires a.CancelCall? || a.JoinFlight? || a.OpenFlight? || a.WakeUp?
    ensures NewOnce(w.pool.calls, ApplyLookup(w, lim, a).pool.calls, a)
  {
    hide HasHash, HashOf;
  }

  lemma LookupReports(w: World, lim: Limits, a: Action)
    requires LookupEnabled(w, lim, a)
    ensures NewOnce(w.pool.calls, ApplyLookup(w, lim, a).pool.calls, a)
  {
    hide ApplyLookup, NewOnce;
    if a.StartCall? || a.TakeSlot? || a.LookupHit? || a.LookupMiss? {
      LookingReports(w, lim, a);
    } else {
      WaitingReports(w, lim, a);
    }
  }

  lemma NamingReports(w: World, lim: Limits, a: Action)
    requires UploadEnabled(w, lim, a) && BeforeInsert(a)
    ensures NewOnce(w.pool.calls, ApplyNaming(w, lim, a).pool.calls, a)
  {
    hide Insert, HasHash, HashOf;
  }

  lemma InsertingReports(w: World, lim: Limits, a: Action)
    requires UploadEnabled(w, lim, a) && !BeforeInsert(a)
    requires a.InsertOk? || a.InsertFails? || a.RecheckHit? || a.RecheckMiss? || a.Discard?
    ensures NewOnce(w.pool.calls, ApplyReport(w, lim, a).pool.calls, a)
  {
    hide Insert, HasHash, HashOf;
  }

  lemma EndingReports(w: World, lim: Limits, a: Action)
    requires UploadEnabled(w, lim, a) && !BeforeInsert(a)
    requires a.Unregister? || a.Signal? || a.ReleaseSlot? || a.Collect?
    ensures NewOnce(w.pool.calls, ApplyReport(w, lim, a).pool.calls, a)
  {
    hide Insert, HasHash, HashOf;
  }

  lemma SettlingReports(w: World, lim: Limits, a: Action)
    requires UploadEnabled(w, lim, a) && !BeforeInsert(a)
    ensures NewOnce(w.pool.calls, ApplyReport(w, lim, a).pool.calls, a)
  {
    hide ApplyReport, NewOnce;
    if a.Unregister? || a.Signal? || a.ReleaseSlot? || a.Collect? {
      EndingReports(w, lim, a);
    } else {
      InsertingReports(w, lim, a);
    }
  }

  lemma StepReports(w: World, lim: Limits, a: Action)
    requires Enabled(w, lim, a)
    ensures NewOnce(w.pool.calls, Apply(w, lim, a).pool.calls, a)
  {
    hide LookupEnabled, UploadEnabled, ApplyLookup, ApplyNaming, ApplyReport, BeforeInsert, NewOnce;
    if LookupEnabled(w, lim, a) {
      LookupReports(w, lim, a);
    } else if UploadEnabled(w, lim, a) {
      if BeforeInsert(a) {
        NamingReports(w, lim, a);
      } else {
        SettlingReports(w, lim, a);
      }
    } else {
      OpHolders(w, lim, a);
      SameReports(w.pool.calls, a);
    }
  }

  lemma SameReports(calls: map<Cid, Call>, a: Action)
    ensures NewOnce(calls, calls, a)
  {
  }

  /** A call reports a chunk as new, so that a failed upload cleans it up, only if it inserted the row itself. */
  lemma {:induction false} NewMeansInserted(lim: Limits, run: seq<Action>, c: Cid, id: int)
    requires Execute(lim, run).Some?
    requires ReportsNew(Execute(lim, run).value.pool.calls, c, id)
    ensures InsertOk(c, id) in run
    decreases |run|
  {
    hide Apply, Enabled;
    if run != [] {
      var before := run[..|run| - 1];
      StepReports(Execute(lim, before).value, lim, run[|run| - 1]);
      if run[|run| - 1] != InsertOk(c, id) {
        NewMeansInserted(lim, before, c, id);
      }
    }
  }

  // ------------------------------------------------------------------- failures

  /** A step at which a call fails: cancellation, no name, no upload, or neither its own row nor another. */
  ghost predicate Fails(a: Action) {
    a.CancelCall? || a.NamingFails? || a.UploadFails? || a.RecheckMiss?
  }

  ghost predicate NoneFailed(pool: Pool) {
    && (forall c | c in pool.calls :: Report(pool.calls[c].pc) != Some(Failed))
    && (forall f | f in pool.flights :: pool.flights[f].out != Some(Failed))
  }

  lemma LookupFails(w: World, lim: Limits, a: Action)
    requires NoneFailed(w.pool) && LookupEnabled(w, lim, a) && !Fails(a)
    ensures NoneFailed(ApplyLookup(w, lim, a).pool)
  {
    hide HasHash, HashOf;
  }

  lemma NamingFailsNot(w: World, lim: Limits, a: Action)
    requires NoneFailed(w.pool) && UploadEnabled(w, lim, a) && BeforeInsert(a) && !Fails(a)
    ensures NoneFailed(ApplyNaming(w, lim, a).pool)
  {
    hide Insert, HasHash, HashOf;
  }

  lemma SettlingFailsNot(w: World, lim: Limits, a: Action)
    requires NoneFailed(w.pool) && UploadEnabled(w, lim, a) && !BeforeInsert(a) && !Fails(a)
    ensures NoneFailed(ApplyReport(w, lim, a).pool)
  {
    hide Insert, HasHash, HashOf;
  }

  lemma StepFailsNot(w: World, lim: Limits, a: Action)
    requires NoneFailed(w.pool) && Enabled(w, lim, a) && !Fails(a)
    ensures NoneFailed(Apply(w, lim, a).pool)
  {
    hide LookupEnabled, UploadEnabled, ApplyLookup, ApplyNaming, ApplyReport, BeforeInsert, NoneFailed, Fails;
    if LookupEnabled(w, lim, a) {
      LookupFails(w, lim, a);
    } else if UploadEnabled(w, lim, a) {
      if BeforeInsert(a) {
        NamingFailsNot(w, lim, a);
      } else {
        SettlingFailsNot(w, lim, a);
      }
    } else {
      OpHolders(w, lim, a);
    }
  }

  /** No call fails in a run none of whose steps is such a failure: losing a race to insert, say, is none. */
  lemma {:induction false} CallsFailForCause(lim: Limits, run: seq<Action>)
    requires Execute(lim, run).Some? && forall a | a in run :: !Fails(a)
    ensures var calls := Execute(lim, run).value.pool.calls;
      forall c | c in calls :: calls[c].pc != Returned(Failed)
    ensures NoneFailed(Execute(lim, run).value.pool)
    decreases |run|
  {
    hide Apply, Enabled, Fails;
    if run != [] {
      var before := run[..|run| - 1];
      CallsFailForCause(lim, before);
      assert !Fails(run[|run| - 1]);
      StepFailsNot(Execute(lim, before).value, lim, run[|run| - 1]);
    }
  }
}
