/**
 What a Meta backup leaves on the backend: the snapshot of the manifest it took, and of all recovery
 points the newest `retain`; a backup that fails before pruning leaves the others as it found them.
 */
module StorePrune {
  import opened Sequences
  import opened Manifest
  import opened Paths
  import opened Snapshot
  import opened StoreModel
  import opened StoreSafety
  import opened StoreView
  import opened StoreProgress
  import opened StoreRecovery

  // ------------------------------------------------------------ what happened

  /**
   What backup `t` found when it took the Meta lock, the name it drew, the manifest it saved, and
   whether a step of it has failed since.
   */
  datatype Course = Course(found: map<BlobName, MetaObject>, name: BlobName, db: Tables, failed: bool)

  ghost function CourseOf(lim: Limits, run: seq<Action>, t: Tid): Course
    requires Execute(lim, run).Some?
    decreases |run|
  {
    if run == [] then Course(map[], [], EmptyTables, false)
    else
      var before := run[..|run| - 1];
      var earlier := CourseOf(lim, before, t);
      Noted(earlier, Execute(lim, before).value, run[|run| - 1], t)
  }

  ghost function Noted(c: Course, w: World, a: Action, t: Tid): Course {
    match a
    case BkTakeMeta(u) => if u == t then c.(found := w.backups, failed := false) else c
    case BkTakeSnapshot(u, name) => if u == t then c.(name := name, db := w.db) else c
    case BkUploadFails(u, _) => if u == t then c.(failed := true) else c
    case BkVerifyFails(u) => if u == t then c.(failed := true) else c
    case BkFail(u) => if u == t then c.(failed := true) else c
    case _ => c
  }

  /** The recovery points there are once the new one is uploaded. */
  ghost function WithNew(c: Course): map<BlobName, MetaObject> {
    c.found[c.name := MetaSnapshot(c.db)]
  }

  ghost function Later(all: set<BlobName>, b: BlobName): set<BlobName> {
    set n | n in all && LexLess(b, n)
  }

  /** `kept` are the last `retain` of the names, or all if there are fewer. */
  ghost predicate Newest(all: set<BlobName>, kept: set<BlobName>, retain: nat) {
    forall b :: b in kept <==> b in all && |Later(all, b)| < retain
  }

  // -------------------------------------------------------------- the names

  /** All names but the old ones are exactly those with fewer than `retain` names after them. */
  lemma OldestLeavesNewest(all: set<BlobName>, todo: set<BlobName>, retain: nat)
    requires Oldest(all, todo, retain)
    ensures Newest(all, all - todo, retain)
  {
    var kept := all - todo;
    forall b | b in all ensures b in kept <==> |Later(all, b)| < retain {
      if b in kept {
        forall n | n in Later(all, b) ensures n in kept - {b} {
          LexIrreflexive(b, n);
          if n in todo {
            LexIrreflexive(n, b);
          }
        }
        SubsetSize(Later(all, b), kept - {b});
      } else {
        assert kept <= Later(all, b);
        SubsetSize(kept, Later(all, b));
      }
    }
  }

  // ---------------------------------------------------------------- invariant

  ghost predicate Among(part: map<BlobName, MetaObject>, all: map<BlobName, MetaObject>) {
    forall b | b in part :: b in all && part[b] == all[b]
  }

  /** Where backup `t` stands: nothing but its own object is added, nothing but old ones removed. */
  ghost predicate OnCourse(backups: map<BlobName, MetaObject>, bk: BackupPhase, c: Course, retain: nat) {
    match bk
    case BkSnapshot => backups == c.found
    case BkUpload(name, snap) =>
      name == c.name && snap == c.db && backups == c.found && name !in c.found && retain >= 1
    case BkVerify(name) => name == c.name && backups == WithNew(c) && name !in c.found && retain >= 1
    case BkDiscard(name) => name == c.name && backups - {name} == c.found && name !in c.found && c.failed
    case BkPrune => backups == WithNew(c) && c.name !in c.found && retain >= 1
    case BkDelete(todo) =>
      && c.name !in c.found && retain >= 1 && todo <= backups.Keys
      && Among(backups, WithNew(c)) && Newest(WithNew(c).Keys, backups.Keys - todo, retain)
    case BkUnlock => !c.failed ==> Pruned(backups, c, retain)
    case BkWantMeta => true
  }

  /** What is left are the newest recovery points, as they were. */
  ghost predicate Pruned(backups: map<BlobName, MetaObject>, c: Course, retain: nat) {
    c.name !in c.found && retain >= 1 && Among(backups, WithNew(c)) && Newest(WithNew(c).Keys, backups.Keys, retain)
  }

  // -------------------------------------------------------------- own steps

  lemma CreatingCourse(w: World, lim: Limits, a: Action, c: Course)
    requires BackupEnabled(w, lim, a) && OnCourse(w.backups, w.ops[a.t].bk, c, lim.retain)
    requires a.BkTakeMeta? || a.BkTakeSnapshot? || a.BkUploadOk? || a.BkUploadFails?
    ensures var v := ApplyBackup(w, lim, a);
      OnCourse(v.backups, v.ops[a.t].bk, Noted(c, w, a, a.t), lim.retain)
  {
    hide ValidSnapshot, Oldest, Newest;
  }

  lemma SettlingCourse(w: World, lim: Limits, a: Action, c: Course)
    requires BackupEnabled(w, lim, a) && OnCourse(w.backups, w.ops[a.t].bk, c, lim.retain)
    requires a.BkVerifyOk? || a.BkVerifyFails? || a.BkDiscarded? || a.BkFail?
    ensures var v := ApplyBackup(w, lim, a);
      OnCourse(v.backups, v.ops[a.t].bk, Noted(c, w, a, a.t), lim.retain)
  {
    hide ValidSnapshot, Oldest, Newest, Pruned;
  }

  lemma EndingCourse(w: World, lim: Limits, a: Action, c: Course)
    requires BackupEnabled(w, lim, a) && OnCourse(w.backups, w.ops[a.t].bk, c, lim.retain)
    requires a.BkDone?
    ensures var v := ApplyBackup(w, lim, a);
      OnCourse(v.backups, v.ops[a.t].bk, Noted(c, w, a, a.t), lim.retain)
  {
    assert w.backups.Keys - {} == w.backups.Keys;
    hide ValidSnapshot, Oldest, Newest, Among;
  }

  lemma ListingCourse(w: World, lim: Limits, a: Action, c: Course)
    requires BackupEnabled(w, lim, a) && OnCourse(w.backups, w.ops[a.t].bk, c, lim.retain)
    requires a.BkListOld?
    ensures var v := ApplyBackup(w, lim, a);
      OnCourse(v.backups, v.ops[a.t].bk, Noted(c, w, a, a.t), lim.retain)
  {
    assert Oldest(w.backups.Keys, a.todo, lim.retain) && a.todo <= w.backups.Keys;
    hide ValidSnapshot, Oldest, Newest;
    OldestLeavesNewest(w.backups.Keys, a.todo, lim.retain);
  }

  lemma DeletingCourse(w: World, lim: Limits, a: Action, c: Course)
    requires BackupEnabled(w, lim, a) && OnCourse(w.backups, w.ops[a.t].bk, c, lim.retain)
    requires a.BkDeleteOld?
    ensures var v := ApplyBackup(w, lim, a);
      OnCourse(v.backups, v.ops[a.t].bk, Noted(c, w, a, a.t), lim.retain)
  {
    assert (w.backups - {a.b}).Keys - (w.ops[a.t].bk.todo - {a.b}) == w.backups.Keys - w.ops[a.t].bk.todo;
    hide ValidSnapshot, Oldest, Newest;
  }

  lemma ReleaseEnds(w: World, lim: Limits, a: Action)
    requires BackupEnabled(w, lim, a) && IsBackup(ApplyBackup(w, lim, a), a.t)
    ensures !a.BkRelease?
  {
  }

  lemma OwnCourse(w: World, lim: Limits, a: Action, c: Course)
    requires BackupEnabled(w, lim, a) && IsBackup(ApplyBackup(w, lim, a), a.t)
    requires OnCourse(w.backups, w.ops[a.t].bk, c, lim.retain)
    ensures var v := ApplyBackup(w, lim, a);
      OnCourse(v.backups, v.ops[a.t].bk, Noted(c, w, a, a.t), lim.retain)
  {
    if a.BkTakeMeta? || a.BkTakeSnapshot? || a.BkUploadOk? || a.BkUploadFails? {
      hide *;
      CreatingCourse(w, lim, a, c);
    } else if a.BkListOld? {
      hide *;
      ListingCourse(w, lim, a, c);
    } else if a.BkDeleteOld? {
      hide *;
      DeletingCourse(w, lim, a, c);
    } else if a.BkDone? {
      hide *;
      EndingCourse(w, lim, a, c);
    } else {
      ReleaseEnds(w, lim, a);
      assert a.BkVerifyOk? || a.BkVerifyFails? || a.BkDiscarded? || a.BkFail?;
      hide *;
      SettlingCourse(w, lim, a, c);
    }
  }

  // ------------------------------------------------------------ other threads

  ghost predicate CourseKept(w: World, v: World, t: Tid) {
    IsBackup(v, t) ==>
      || v.ops[t] == Backup(BkWantMeta)
      || (IsBackup(w, t) && v.ops[t] == w.ops[t] && (HoldsMeta(w.ops[t]) ==> v.backups == w.backups))
  }

  lemma CallsKeepCourse(w: World, v: World, t: Tid)
    requires CallStepShapes(w, v) && v.backups == w.backups
    ensures CourseKept(w, v, t)
  {
  }

  lemma WritersKeepCourse(w: World, lim: Limits, a: Action, t: Tid)
    requires WriterEnabled(w, lim, a)
    ensures CourseKept(w, ApplyWriter(w, lim, a), t)
  {
    hide Upsert, Delete, DeleteIfZero, Idle, WriterPending, RefsGot;
  }

  lemma CollectorsKeepCourse(w: World, a: Action, t: Tid)
    requires GcEnabled(w, a)
    ensures CourseKept(w, ApplyGc(w, a), t)
  {
    hide Garbage, DeadIds, SnapNames, LinkedIds, DeleteChunks;
  }

  lemma BackupsKeepCourse(w: World, lim: Limits, a: Action, t: Tid)
    requires LocksOk(w.locks, w.ops) && BackupEnabled(w, lim, a) && a.t != t
    ensures CourseKept(w, ApplyBackup(w, lim, a), t)
  {
    assert IsBackup(w, t) && HoldsMeta(w.ops[t]) ==> w.locks.meta == Some(t);
    assert HoldsMeta(w.ops[a.t]) ==> w.locks.meta == Some(a.t);
    hide ValidSnapshot, Oldest, LocksOk;
  }

  lemma OthersKeepCourse(w: World, lim: Limits, a: Action, t: Tid)
    requires LocksOk(w.locks, w.ops) && Enabled(w, lim, a) && !(BackupEnabled(w, lim, a) && a.t == t)
    ensures CourseKept(w, Apply(w, lim, a), t)
  {
    hide CourseKept, CallStepShapes, AllSparedKept, LookupEnabled, UploadEnabled, WriterEnabled, GcEnabled,
      BackupEnabled, LocksOk,
      ApplyLookup, ApplyUpload, ApplyWriter, ApplyGc, ApplyBackup;
    if LookupEnabled(w, lim, a) {
      LookupShapes(w, lim, a);
      LookupBackups(w, lim, a);
      CallsKeepCourse(w, ApplyLookup(w, lim, a), t);
    } else if UploadEnabled(w, lim, a) {
      UploadShapes(w, lim, a);
      UploadBackups(w, lim, a);
      CallsKeepCourse(w, ApplyUpload(w, lim, a), t);
    } else if WriterEnabled(w, lim, a) {
      WritersKeepCourse(w, lim, a, t);
    } else if GcEnabled(w, a) {
      CollectorsKeepCourse(w, a, t);
    } else {
      BackupsKeepCourse(w, lim, a, t);
    }
  }

  lemma BackupStepIs(w: World, lim: Limits, a: Action)
    requires BackupEnabled(w, lim, a)
    ensures Enabled(w, lim, a) && Apply(w, lim, a) == ApplyBackup(w, lim, a)
  {
    hide ApplyLookup, ApplyUpload, ApplyWriter, ApplyGc, ApplyBackup;
  }

  lemma NotNoted(c: Course, w: World, lim: Limits, a: Action, t: Tid)
    requires Enabled(w, lim, a) && !(BackupEnabled(w, lim, a) && a.t == t)
    ensures Noted(c, w, a, t) == c
  {
  }

  // ---------------------------------------------------------------- every run

  lemma CourseStays(w: World, v: World, t: Tid, c: Course, retain: nat)
    requires CourseKept(w, v, t) && IsBackup(v, t)
    requires IsBackup(w, t) ==> OnCourse(w.backups, w.ops[t].bk, c, retain)
    ensures OnCourse(v.backups, v.ops[t].bk, c, retain)
  {
    hide Newest, Among;
  }

  lemma StepOnCourse(w: World, lim: Limits, a: Action, t: Tid, c: Course)
    requires LocksOk(w.locks, w.ops) && Enabled(w, lim, a) && IsBackup(Apply(w, lim, a), t)
    requires IsBackup(w, t) ==> OnCourse(w.backups, w.ops[t].bk, c, lim.retain)
    ensures var v := Apply(w, lim, a); OnCourse(v.backups, v.ops[t].bk, Noted(c, w, a, t), lim.retain)
  {
    if BackupEnabled(w, lim, a) && a.t == t {
      BackupStepIs(w, lim, a);
      assert IsBackup(w, t);
      hide *;
      OwnCourse(w, lim, a, c);
    } else {
      OthersKeepCourse(w, lim, a, t);
      NotNoted(c, w, lim, a, t);
      hide *;
      CourseStays(w, Apply(w, lim, a), t, c, lim.retain);
    }
  }

  lemma {:induction false} EveryBackup(lim: Limits, run: seq<Action>, t: Tid)
    requires Execute(lim, run).Some? && IsBackup(Execute(lim, run).value, t)
    ensures var w := Execute(lim, run).value;
      OnCourse(w.backups, w.ops[t].bk, CourseOf(lim, run, t), lim.retain)
    decreases |run|
  {
    hide Safe, LocksOk, Apply, Enabled, OnCourse, Noted;
    if run != [] {
      var before := run[..|run| - 1];
      var w := Execute(lim, before).value;
      EveryRunSafe(lim, before);
      assert LocksOk(w.locks, w.ops) by {
        SafeLocks(w);
      }
      if IsBackup(w, t) {
        EveryBackup(lim, before, t);
      }
      StepOnCourse(w, lim, run[|run| - 1], t, CourseOf(lim, before, t));
    }
  }

  lemma SafeLocks(w: World)
    requires Safe(w)
    ensures LocksOk(w.locks, w.ops)
  {
  }

  // ----------------------------------------------------------------- theorems

  /**
   When a backup none of whose steps failed lets go of its lock, the recovery points that are left are,
   of those it found and its own, exactly the ones with fewer than `retain` names after them, each as
   it was. Its own holds the manifest of the moment it was taken.
   */
  lemma BackupComplete(lim: Limits, run: seq<Action>, t: Tid)
    requires Execute(lim, run + [BkRelease(t)]).Some?
    ensures Execute(lim, run).Some?
    ensures var c := CourseOf(lim, run, t);
      var w := Execute(lim, run + [BkRelease(t)]).value;
      !c.failed ==>
        && c.name !in c.found
        && (forall b :: b in w.backups <==> b in WithNew(c) && |Later(WithNew(c).Keys, b)| < lim.retain)
        && (forall b | b in w.backups :: w.backups[b] == WithNew(c)[b])
  {
    var w := LastOfBackup(lim, run, t);
    EveryBackup(lim, run, t);
    hide *;
    PrunedMeans(w.backups, w.ops[t].bk, CourseOf(lim, run, t), lim.retain);
  }

  lemma PrunedMeans(backups: map<BlobName, MetaObject>, bk: BackupPhase, c: Course, retain: nat)
    requires bk.BkUnlock? && OnCourse(backups, bk, c, retain)
    ensures !c.failed ==>
      && c.name !in c.found
      && (forall b :: b in backups <==> b in WithNew(c) && |Later(WithNew(c).Keys, b)| < retain)
      && (forall b | b in backups :: backups[b] == WithNew(c)[b])
  {
    hide Later;
  }

  lemma LastOfBackup(lim: Limits, run: seq<Action>, t: Tid) returns (w: World)
    requires Execute(lim, run + [BkRelease(t)]).Some?
    ensures Execute(lim, run) == Some(w) && IsBackup(w, t) && w.ops[t].bk.BkUnlock?
    ensures Execute(lim, run + [BkRelease(t)]).value.backups == w.backups
  {
    w := OneStep(lim, run, BkRelease(t));
    assert BackupEnabled(w, lim, BkRelease(t));
    BackupStepIs(w, lim, BkRelease(t));
  }

  /** A snapshot whose name comes after all others is there when its backup, unless a step failed, is over. */
  lemma NewestSurvives(lim: Limits, run: seq<Action>, t: Tid)
    requires Execute(lim, run + [BkRelease(t)]).Some?
    requires Execute(lim, run).Some? && !CourseOf(lim, run, t).failed
    requires forall b | b in CourseOf(lim, run, t).found :: LexLess(b, CourseOf(lim, run, t).name)
    ensures var c := CourseOf(lim, run, t);
      var w := Execute(lim, run + [BkRelease(t)]).value;
      c.name in w.backups && w.backups[c.name] == MetaSnapshot(c.db)
  {
    BackupComplete(lim, run, t);
    var w := LastOfBackup(lim, run, t);
    EveryBackup(lim, run, t);
    var c := CourseOf(lim, run, t);
    assert lim.retain >= 1;
    hide Execute, CourseOf;
    forall n | n in WithNew(c) ensures !LexLess(c.name, n) {
      if LexLess(c.name, n) {
        LexIrreflexive(c.name, n);
      }
    }
    assert Later(WithNew(c).Keys, c.name) == {};
  }

  /** Whatever happens while old recovery points are deleted, the newest `retain` stay as they were. */
  lemma NewestWhilePruning(lim: Limits, run: seq<Action>, t: Tid, b: BlobName)
    requires Execute(lim, run).Some? && IsBackup(Execute(lim, run).value, t)
    requires Execute(lim, run).value.ops[t].bk.BkDelete?
    requires b in WithNew(CourseOf(lim, run, t))
    requires |Later(WithNew(CourseOf(lim, run, t)).Keys, b)| < lim.retain
    ensures var w := Execute(lim, run).value;
      b in w.backups && w.backups[b] == WithNew(CourseOf(lim, run, t))[b]
  {
    EveryBackup(lim, run, t);
    var w := Execute(lim, run).value;
    var c := CourseOf(lim, run, t);
    hide *;
    StaysListed(w.backups, w.ops[t].bk, c, lim.retain, b);
  }

  lemma StaysListed(backups: map<BlobName, MetaObject>, bk: BackupPhase, c: Course, retain: nat, b: BlobName)
    requires bk.BkDelete? && OnCourse(backups, bk, c, retain)
    requires b in WithNew(c) && |Later(WithNew(c).Keys, b)| < retain
    ensures b in backups && backups[b] == WithNew(c)[b]
  {
    hide Later;
  }

  /** A failed backup that could remove its object leaves the backend as it found it, and else adds that object only. */
  lemma FailedBackupUndone(lim: Limits, run: seq<Action>, t: Tid, ok: bool)
    requires Execute(lim, run + [BkDiscarded(t, ok)]).Some?
    ensures Execute(lim, run).Some?
    ensures var c := CourseOf(lim, run, t);
      var w := Execute(lim, run + [BkDiscarded(t, ok)]).value;
      && c.name !in c.found && w.backups - {c.name} == c.found
      && (ok ==> w.backups == c.found)
  {
    var w := OneStep(lim, run, BkDiscarded(t, ok));
    assert BackupEnabled(w, lim, BkDiscarded(t, ok));
    BackupStepIs(w, lim, BkDiscarded(t, ok));
    EveryBackup(lim, run, t);
    hide Execute, CourseOf;
  }
}
