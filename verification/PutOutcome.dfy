/** The results about PutFile: what it commits, what it gives back, and that it always returns. */
module PutOutcome {
  import opened Sequences
  import M = Manifest
  import opened ManifestInvariants
  import opened Snapshot
  import opened StoreContent
  import opened PutPipeline
  import opened PutPipelineProofs

  // ---------------------------------------------------------- putting it in order

  lemma {:induction false} CountPositive<T>(s: seq<T>, key: T -> int, k: nat)
    ensures Count(s, key, k) > 0 <==> exists i :: 0 <= i < |s| && key(s[i]) == k
    decreases |s|
  {
    if s != [] {
      CountPositive(s[1..], key, k);
      if i :| 0 <= i < |s| && key(s[i]) == k {
        assert i > 0 ==> s[1..][i - 1] == s[i];
      }
      if i :| 0 <= i < |s[1..]| && key(s[1..][i]) == k {
        assert s[i + 1] == s[1..][i];
      }
    }
  }

  ghost predicate AllKept(log: seq<Res>) {
    forall i | 0 <= i < |log| :: log[i].reply.Kept?
  }

  lemma {:induction false} RefsAre(in_: Input, pieces: seq<bytes>, log: seq<Res>)
    requires AllKept(log) && ResultsOk(in_, pieces, log)
    ensures forall k :: k in RefsOf(log) <==> exists i :: 0 <= i < |log| && log[i].idx == k
    ensures forall k | k in RefsOf(log) ::
      k < |pieces| && RefsOf(log)[k] in in_.content && in_.content[RefsOf(log)[k]] == pieces[k]
    decreases |log|
  {
    if log != [] {
      var last := |log| - 1;
      RefsAre(in_, pieces, log[..last]);
      assert ResOk(in_, pieces, log[last]);
      forall k ensures k in RefsOf(log) <==> exists i :: 0 <= i < |log| && log[i].idx == k {
        if i :| 0 <= i < |log| && log[i].idx == k {
          assert i < last ==> log[..last][i] == log[i];
        }
      }
    }
  }

  /** Sizes of the pieces below `n`, each as often as the log reports it. */
  ghost function Reported(pieces: seq<bytes>, log: seq<Res>, n: nat): nat
    requires n <= |pieces|
  {
    if n == 0 then 0 else Reported(pieces, log, n - 1) + Count(log, ResIdx, n - 1) * |pieces[n - 1]|
  }

  lemma {:induction false} ReportedSnoc(pieces: seq<bytes>, log: seq<Res>, r: Res, n: nat)
    requires n <= |pieces|
    ensures r.idx < |pieces| ==>
      Reported(pieces, log + [r], n) == Reported(pieces, log, n) + if r.idx < n then |pieces[r.idx]| else 0
  {
    if n > 0 {
      ReportedSnoc(pieces, log, r, n - 1);
      CountAppend(log, r, ResIdx, n - 1);
      var c, len := Count(log, ResIdx, n - 1), |pieces[n - 1]|;
      assert (c + 1) * len == c * len + len;
    }
  }

  lemma {:induction false} NothingReported(pieces: seq<bytes>, n: nat)
    requires n <= |pieces|
    ensures Reported(pieces, [], n) == 0
  {
    if n > 0 {
      NothingReported(pieces, n - 1);
    }
  }

  lemma {:induction false} TotalIsReported(in_: Input, pieces: seq<bytes>, log: seq<Res>)
    requires AllKept(log) && ResultsOk(in_, pieces, log)
    ensures TotalOf(log) == Reported(pieces, log, |pieces|)
    decreases |log|
  {
    if log == [] {
      NothingReported(pieces, |pieces|);
    } else {
      var last := |log| - 1;
      assert log == log[..last] + [log[last]];
      assert ResOk(in_, pieces, log[last]);
      TotalIsReported(in_, pieces, log[..last]);
      ReportedSnoc(pieces, log[..last], log[last], |pieces|);
    }
  }

  lemma {:induction false} EachReported(pieces: seq<bytes>, log: seq<Res>, n: nat)
    requires n <= |pieces|
    requires forall k: nat | k < n :: Count(log, ResIdx, k) == 1
    ensures Reported(pieces, log, n) == |Flatten(pieces[..n])|
  {
    if n == 0 {
      assert pieces[..0] == [];
    } else {
      EachReported(pieces, log, n - 1);
      assert pieces[..n] == pieces[..n - 1] + [pieces[n - 1]];
      FlattenSnoc(pieces[..n - 1], pieces[n - 1]);
      assert Count(log, ResIdx, n - 1) * |pieces[n - 1]| == |pieces[n - 1]|;
    }
  }

  ghost predicate Below(keys: set<nat>, n: nat) {
    forall k: nat :: k in keys <==> k < n
  }

  lemma {:induction false} BelowSize(keys: set<nat>, n: nat)
    requires Below(keys, n)
    ensures |keys| == n
  {
    if n > 0 {
      assert keys == (keys - {n - 1}) + {n - 1};
      BelowSize(keys - {n - 1}, n - 1);
    } else {
      assert keys == {};
    }
  }

  /** Results in any order of arrival, each chunk once and none failed: the references come out in file order. */
  lemma Assembled(in_: Input, pieces: seq<bytes>, log: seq<Res>)
    requires AllKept(log) && ResultsOk(in_, pieces, log)
    requires forall k: nat :: Count(log, ResIdx, k) == if k < |pieces| then 1 else 0
    ensures Placed(RefsOf(log)) && |RefsOf(log)| == |pieces|
    ensures forall i: nat | i < |pieces| ::
      RefsOf(log)[i] in in_.content && in_.content[RefsOf(log)[i]] == pieces[i]
    ensures TotalOf(log) == |Flatten(pieces)|
  {
    RefsAre(in_, pieces, log);
    TotalIsReported(in_, pieces, log);
    EachReported(pieces, log, |pieces|);
    assert pieces[..|pieces|] == pieces;
    var refs := RefsOf(log);
    forall k: nat ensures k in refs.Keys <==> k < |pieces| {
      CountPositive(log, ResIdx, k);
    }
    BelowSize(refs.Keys, |pieces|);
  }

  lemma {:induction false} NoneLeft(workers: seq<Worker>, k: nat)
    requires AllExited(workers)
    ensures Count(workers, WorkerIdx, k) == 0 && Count(workers, WorkerToken, k) == 0
    decreases |workers|
  {
    if workers != [] {
      NoneLeft(workers[1..], k);
    }
  }

  /** Once the result channel is closed and drained, every chunk has been reported to the collector exactly once. */
  lemma AllReported(p: Pipe)
    requires EachOnce(p) && ClosedOk(p) && |p.crew.workers| == WORKERS && !p.sink.collector.Collecting?
    ensures forall k: nat :: Count(p.sink.log, ResIdx, k) == if k < |p.feed.pieces| then 1 else 0
  {
    assert p.crew.workers[0].Exited?;
    forall k: nat ensures Count(p.sink.log, ResIdx, k) == if k < |p.feed.pieces| then 1 else 0 {
      assert Places(p, k) == if k < |p.feed.pieces| then 1 else 0;
      NoneLeft(p.crew.workers, k);
    }
  }

  lemma KeptUnlessBroke(log: seq<Res>)
    requires !AnyBroke(log)
    ensures AllKept(log)
  {
    forall i | 0 <= i < |log| ensures log[i].reply.Kept? {
      assert !log[i].reply.Broke?;
    }
  }

  /** The input whose source ends after n bytes. */
  ghost function UpTo(in_: Input, n: nat): Input
    requires n <= |in_.source|
  {
    in_.(source := in_.source[..n])
  }

  /** When the collector approves the upload, its references are what was read, in order. */
  lemma ApprovedIsTaken(in_: Input, p: Pipe)
    requires in_.chunk > 0 && Inv(in_, p) && Approved(p.sink.collector)
    ensures p.feed.pos <= |in_.source| && TotalOf(p.sink.log) == p.feed.pos && Ended(in_, p.feed)
    ensures p.feed.pieces == Split(in_.source[..p.feed.pos], in_.chunk)
    ensures var want := p.feed.pieces; var refs := RefsOf(p.sink.log);
      && Placed(refs) && |refs| == |want|
      && (forall i: nat | i < |want| :: refs[i] in in_.content && in_.content[refs[i]] == want[i])
  {
    assert |p.crew.workers| == WORKERS;
    assert Regular(p.feed.pieces, in_.chunk) && ResultsOk(in_, p.feed.pieces, p.sink.log);
    AllReported(p);
    KeptUnlessBroke(p.sink.log);
    hide EachOnce, SlotsOnce, ChunksOk, TroubleOk, ClosedOk, OutcomeOk, Regular, ResultsOk;
    Assembled(in_, p.feed.pieces, p.sink.log);
    RegularIsSplit(p.feed.pieces, in_.chunk);
  }

  // ---------------------------------------------------------------- main results

  /** The chunks named by `refs` are, in index order, the pieces of the source. */
  ghost predicate StoresAll(in_: Input, refs: seq<M.ChunkRef>)
    requires in_.chunk > 0
  {
    var want := Split(in_.source, in_.chunk);
    && |refs| == |want|
    && forall i: nat | i < |want| ::
         refs[i].idx == i && refs[i].chunkId in in_.content && in_.content[refs[i].chunkId] == want[i]
  }

  /** The same chunks cannot be two different sources. */
  lemma StoresOne(in_: Input, refs: seq<M.ChunkRef>, n: nat)
    requires in_.chunk > 0 && n <= |in_.source| && StoresAll(UpTo(in_, n), refs)
    ensures StoresAll(in_, refs) <==> n == |in_.source|
  {
    var part, all := Split(in_.source[..n], in_.chunk), Split(in_.source, in_.chunk);
    SplitIsRegular(in_.source[..n], in_.chunk);
    SplitIsRegular(in_.source, in_.chunk);
    assert n == |in_.source| ==> in_.source[..n] == in_.source;
    hide Split, Regular;
    if StoresAll(in_, refs) {
      assert part == all;
    }
  }

  /** What a committed upload has stored. */
  ghost predicate Outcome(in_: Input, p: Pipe, put: FilePut)
    requires in_.chunk > 0
  {
    && put.size == p.feed.pos <= |in_.source|
    && p.feed.pieces == Split(in_.source[..put.size], in_.chunk)
    && StoresAll(UpTo(in_, put.size), put.refs)
    && (StoresAll(in_, put.refs) <==> put.size == |in_.source|)
    && (!p.feed.cut ==> put.size == |in_.source|)
  }

  /**
   In every interleaving, PutFile writes a file row exactly when it succeeds. Then the row's chunks,
   in index order, are the first `size` bytes of the source cut at the chunk size; they are the whole
   source if and only if the size it returns is the source's length, which can only fail when the
   source itself broke off with io.ErrUnexpectedEOF.
   */
  lemma PutStoresIff(in_: Input, steps: seq<Step>)
    requires in_.chunk > 0 && Run(in_, steps).Some?
    ensures var p := Run(in_, steps).value;
      && (p.sink.put.Some? <==> p.sink.collector == Returned(true))
      && (p.sink.put.Some? ==> Outcome(in_, p, p.sink.put.value))
  {
    EveryRunInv(in_, steps);
    var p := Run(in_, steps).value;
    assert OutcomeOk(p.sink);
    hide Run;
    if p.sink.put.Some? {
      ApprovedIsTaken(in_, p);
      hide Inv, Split, RefsOf;
      StoresOne(in_, p.sink.put.value.refs, p.feed.pos);
    }
  }

  /**
   When no read was cut off, PutFile writes a file row exactly when it succeeds, and then the row's
   size is the length of the source and its chunks are the source cut at the chunk size.
   */
  lemma PutStoresSource(in_: Input, steps: seq<Step>)
    requires in_.chunk > 0 && Run(in_, steps).Some? && !Run(in_, steps).value.feed.cut
    ensures var k := Run(in_, steps).value.sink;
      && (k.put.Some? <==> k.collector == Returned(true))
      && (k.put.Some? ==> StoresAll(in_, k.put.value.refs) && k.put.value.size == |in_.source|)
  {
    PutStoresIff(in_, steps);
    hide Run, StoresAll;
  }

  // ------------------------------------------------------------ a cut-off upload

  lemma OneStep(in_: Input, steps: seq<Step>, s: Step, p: Pipe, q: Pipe)
    requires Run(in_, steps) == Some(p) && Can(in_, p, s) && Does(in_, p, s) == q
    ensures Run(in_, steps + [s]) == Some(q)
  {
    assert (steps + [s])[..|steps|] == steps;
    hide Can, Does;
  }

  /** A read is cut off before the first byte, and the producer ends. */
  lemma CutsShort(in_: Input) returns (r: seq<Step>, p: Pipe)
    requires in_.chunk > 0
    ensures Run(in_, r) == Some(p)
    ensures p == Begin.(feed := Feed(0, [], Finished, 1, [0], false, true, true), queue := Queue([], true))
  {
    p := Begin;
    r := [];
    assert in_.source[0..0] == [];
    var q := p.(feed := p.feed.(producer := Reading(0), acquired := 1));
    r := Next(in_, r, Acquire, p, q);
    p := q;
    q := p.(feed := p.feed.(producer := ClosingErrs, released := [0], cut := true));
    assert p.feed.released + [0] == [0];
    r := Next(in_, r, ReadChunk(Cut([])), p, q);
    p := q;
    q := p.(feed := p.feed.(producer := ClosingJobs, errsClosed := true));
    r := Next(in_, r, CloseErrs, p, q);
    p := q;
    q := p.(feed := p.feed.(producer := Finished), queue := Queue([], true));
    r := Next(in_, r, CloseJobs, p, q);
    p := q;
  }

  lemma Next(in_: Input, steps: seq<Step>, s: Step, p: Pipe, q: Pipe) returns (longer: seq<Step>)
    requires Run(in_, steps) == Some(p) && Can(in_, p, s) && Does(in_, p, s) == q
    ensures Run(in_, longer) == Some(q)
  {
    longer := steps + [s];
    assert longer[..|steps|] == steps;
    hide Can, Does;
  }

  ghost predicate LeftTo(p: Pipe, n: nat) {
    && |p.crew.workers| == WORKERS && n <= WORKERS
    && p.crew.results == [] && !p.crew.resultsClosed && p.queue == Queue([], true)
    && (forall w | 0 <= w < n :: p.crew.workers[w].Exited?)
    && (forall w | n <= w < WORKERS :: p.crew.workers[w].Idle?)
  }

  /** With nothing to do, the workers leave one after the other. */
  lemma {:induction false} AllLeave(in_: Input, steps: seq<Step>, p: Pipe, n: nat) returns (r: seq<Step>, q: Pipe)
    requires Run(in_, steps) == Some(p) && LeftTo(p, n)
    ensures Run(in_, r) == Some(q) && LeftTo(q, WORKERS) && q.feed == p.feed && q.sig == p.sig && q.sink == p.sink
    decreases WORKERS - n
  {
    r, q := steps, p;
    if n < WORKERS {
      q := p.(crew := p.crew.(workers := p.crew.workers[n := Exited]));
      r := Next(in_, steps, Exit(n), p, q);
      r, q := AllLeave(in_, r, q, n + 1);
    }
  }

  ghost function At(p: Pipe, c: Collector): Pipe {
    p.(sink := p.sink.(collector := c))
  }

  lemma CollectorNext(in_: Input, steps: seq<Step>, s: Step, p: Pipe, q: Pipe) returns (longer: seq<Step>)
    requires Run(in_, steps) == Some(p) && !ProducerStep(s) && !WorkerStep(s)
    requires CollectorCan(p, s) && CollectorDoes(p, s) == q
    ensures Run(in_, longer) == Some(q)
  {
    hide Run, CollectorCan, CollectorDoes, ProducerStep, WorkerStep;
    longer := Next(in_, steps, s, p, q);
  }

  /** Nothing arrived: the collector turns to its verdict. */
  lemma DrainsNothing(in_: Input, steps: seq<Step>, p: Pipe) returns (r: seq<Step>, q: Pipe)
    requires Run(in_, steps) == Some(p) && LeftTo(p, WORKERS) && p.sink == Begin.sink
    ensures Run(in_, r) == Some(q) && q.feed == p.feed && q.sig == p.sig && q.sink == Begin.sink.(collector := AwaitErr)
  {
    hide Run, RefsOf, NewChunks, TotalOf, AnyBroke, Slots;
    q := p.(crew := p.crew.(resultsClosed := true));
    r := CollectorNext(in_, steps, CloseResults, p, q);
    r := CollectorNext(in_, r, Drained, q, At(q, AwaitErr));
    q := At(q, AwaitErr);
  }

  /** Nothing failed: it approves. */
  lemma ApprovesNothing(in_: Input, steps: seq<Step>, p: Pipe) returns (r: seq<Step>)
    requires Run(in_, steps) == Some(p) && p.sink == Begin.sink.(collector := AwaitErr)
    requires p.feed.errsClosed && !p.feed.err && !p.sig.cancelled
    ensures Run(in_, r) == Some(At(p, WantWrite))
  {
    assert !AnyBroke(p.sink.log);
    hide Run, RefsOf, NewChunks, TotalOf, AnyBroke, Slots;
    r := CollectorNext(in_, steps, TakeErr, p, At(p, Deciding(false)));
    r := CollectorNext(in_, r, Decide, At(p, Deciding(false)), At(p, WantWrite));
  }

  /** The two looks before the commit find nothing in its way. */
  lemma ChecksPass(in_: Input, steps: seq<Step>, p: Pipe) returns (r: seq<Step>)
    requires Run(in_, steps) == Some(p) && !p.sig.cancelled && p.sink.collector == WantWrite
    ensures Run(in_, r) == Some(At(p, Upserting))
  {
    hide Run, RefsOf, NewChunks, TotalOf, AnyBroke, Slots;
    r := CollectorNext(in_, steps, Recheck, p, At(p, Rechecking));
    r := CollectorNext(in_, r, CheckParent(true), At(p, Rechecking), At(p, Upserting));
  }

  lemma CommitsNothing(in_: Input, steps: seq<Step>, p: Pipe) returns (r: seq<Step>)
    requires Run(in_, steps) == Some(p) && !p.sig.cancelled && p.sink == Begin.sink.(collector := WantWrite)
    ensures Run(in_, r).Some? && Run(in_, r).value.sink.put == Some(FilePut([], 0))
  {
    r := ChecksPass(in_, steps, p);
    var q := At(p, Upserting);
    var done := UpsertsNothing(q);
    hide Run, CollectorCan, CollectorDoes;
    r := CollectorNext(in_, r, Upsert(true), q, done);
  }

  lemma UpsertsNothing(p: Pipe) returns (q: Pipe)
    requires p.sink == Begin.sink.(collector := Upserting)
    ensures CollectorCan(p, Upsert(true)) && CollectorDoes(p, Upsert(true)) == q
    ensures q.sink.put == Some(FilePut([], 0))
  {
    assert RefsOf([]) == map[] && Slots(map[]) == [] && TotalOf([]) == 0;
    hide NewChunks, AnyBroke;
    q := p.(sink := p.sink.(collector := Returned(true), put := Some(FilePut([], 0))));
  }

  ghost predicate Truncates(in_: Input, steps: seq<Step>) {
    Run(in_, steps).Some? && Run(in_, steps).value.sink.put == Some(FilePut([], 0))
  }

  /** Whatever the source, when it breaks off at once PutFile can commit an empty file and report success. */
  lemma CutUploadCommits(in_: Input)
    requires in_.chunk > 0
    ensures exists steps :: Truncates(in_, steps)
  {
    var r, p := CutsShort(in_);
    hide Run, Truncates;
    r, p := AllLeave(in_, r, p, 0);
    r, p := DrainsNothing(in_, r, p);
    r := ApprovesNothing(in_, r, p);
    r := CommitsNothing(in_, r, At(p, WantWrite));
    assert Truncates(in_, r) by {
      Commits(in_, r);
    }
  }

  lemma Commits(in_: Input, steps: seq<Step>)
    requires Run(in_, steps).Some? && Run(in_, steps).value.sink.put == Some(FilePut([], 0))
    ensures Truncates(in_, steps)
  {
  }

  /** A failed PutFile wrote no row and offered every chunk row it had newly inserted for removal, once each. */
  lemma FailureCleansUp(in_: Input, steps: seq<Step>)
    requires Run(in_, steps).Some? && Run(in_, steps).value.sink.collector == Returned(false)
    ensures var p := Run(in_, steps).value;
      && p.sink.put.None?
      && p.sink.cleaned == NewChunks(p.sink.log)
      && forall k: nat :: Count(p.sink.log, ResIdx, k) == if k < |p.feed.pieces| then 1 else 0
  {
    EveryRunInv(in_, steps);
    var p := Run(in_, steps).value;
    hide Run;
    assert OutcomeOk(p.sink) && |p.crew.workers| == WORKERS;
    AllReported(p);
  }

  /** When PutFile returns, every limiter slot it took has been released exactly once, and it holds none. */
  lemma SlotsReleasedOnce(in_: Input, steps: seq<Step>)
    requires Run(in_, steps).Some? && Run(in_, steps).value.sink.collector.Returned?
    ensures var p := Run(in_, steps).value;
      forall k: nat :: Holding(p, k) == 0 && Count(p.feed.released, Self, k) == if k < p.feed.acquired then 1 else 0
  {
    EveryRunInv(in_, steps);
    var p := Run(in_, steps).value;
    hide Run;
    assert |p.crew.workers| == WORKERS;
    DrainedMeansEnded(in_, p);
    forall k: nat
      ensures Holding(p, k) == 0 && Count(p.feed.released, Self, k) == if k < p.feed.acquired then 1 else 0
    {
      assert Holding(p, k) + Count(p.feed.released, Self, k) == if k < p.feed.acquired then 1 else 0;
      NoneLeft(p.crew.workers, k);
    }
  }

  // --------------------------------------------------------------- the file row

  /** The chunk rows behind the ids hold the content the pipeline stored. */
  ghost predicate RowsHold(in_: Input, chunks: M.Chunks) {
    forall id | id in in_.content && id in chunks ::
      chunks[id].hash == M.Sha256(in_.content[id]) && chunks[id].size == |in_.content[id]|
  }

  /** The file at `path` is the first `size` bytes of the source, and so the source if that is its length. */
  ghost predicate ReadsAs(t: M.Tables, path: bytes, source: bytes, size: int)
    requires M.UniquePaths(t.files) && path in M.View(t)
  {
    && 0 <= size <= |source| && M.Contiguous(M.View(t)[path].refs)
    && ContentOf(t.chunks, M.View(t)[path].refs) == source[..size]
    && (ContentOf(t.chunks, M.View(t)[path].refs) == source <==> size == |source|)
  }

  /**
   The committed row reads back as the first `size` bytes of the source, in the regular layout, and so
   as the source if and only if `size` is its length; and it keeps a valid manifest valid, since
   PutFile counts the bytes it stored.
   */
  lemma PutFileReadsBack(in_: Input, steps: seq<Step>, t: M.Tables, row: M.FileRow, fid: int)
    requires in_.chunk > 0 && Run(in_, steps).Some? && Run(in_, steps).value.sink.put.Some?
    requires var put := Run(in_, steps).value.sink.put.value;
      && M.Consistent(t) && RowsHold(in_, t.chunks) && fid !in M.DeleteRows(t, row.path).files
      && row.size == put.size && M.Upsert(t, row, put.refs, fid).Some?
    ensures var put := Run(in_, steps).value.sink.put.value;
      var u := M.Upsert(t, row, put.refs, fid).value;
      && M.UniquePaths(u.files) && row.path in M.View(u) && M.View(u)[row.path].row == row
      && ReadsAs(u, row.path, in_.source, put.size)
      && (ValidSnapshot(t) ==> ValidSnapshot(u))
  {
    PutStoresIff(in_, steps);
    var put := Run(in_, steps).value.sink.put.value;
    assert |UpTo(in_, put.size).source| == put.size && UpTo(in_, put.size).chunk == in_.chunk;
    assert RowsHold(UpTo(in_, put.size), t.chunks);
    assert put.size == |in_.source| ==> in_.source[..put.size] == in_.source;
    hide Run, StoresAll, RowsHold;
    Committed(UpTo(in_, put.size), put, t, row, fid);
  }

  lemma Committed(in_: Input, put: FilePut, t: M.Tables, row: M.FileRow, fid: int)
    requires in_.chunk > 0 && StoresAll(in_, put.refs) && put.size == |in_.source|
    requires M.Consistent(t) && RowsHold(in_, t.chunks) && fid !in M.DeleteRows(t, row.path).files
    requires row.size == put.size && M.Upsert(t, row, put.refs, fid).Some?
    ensures var u := M.Upsert(t, row, put.refs, fid).value;
      && M.UniquePaths(u.files) && row.path in M.View(u) && M.View(u)[row.path].row == row
      && M.Contiguous(M.View(u)[row.path].refs)
      && ContentOf(u.chunks, M.View(u)[row.path].refs) == in_.source
      && (ValidSnapshot(t) ==> ValidSnapshot(u))
  {
    hide M.Upsert, M.Consistent, Split, StoresAll, RowsHold, ValidSnapshot;
    PutContent(in_, put, t, row, fid);
    PutValid(in_, put, t, row, fid);
  }

  lemma PutContent(in_: Input, put: FilePut, t: M.Tables, row: M.FileRow, fid: int)
    requires in_.chunk > 0 && StoresAll(in_, put.refs)
    requires M.Consistent(t) && RowsHold(in_, t.chunks) && fid !in M.DeleteRows(t, row.path).files
    requires M.Upsert(t, row, put.refs, fid).Some?
    ensures var u := M.Upsert(t, row, put.refs, fid).value;
      && M.UniquePaths(u.files) && row.path in M.View(u) && M.View(u)[row.path].row == row
      && M.Contiguous(M.View(u)[row.path].refs)
      && ContentOf(u.chunks, M.View(u)[row.path].refs) == in_.source
  {
    var refs, pieces := put.refs, Split(in_.source, in_.chunk);
    SplitIsRegular(in_.source, in_.chunk);
    hide M.Upsert, M.Consistent, Split;
    UpsertCommits(t, row, refs, fid);
    UpsertView(t, row, refs, fid);
    UpsertTables(t, row, refs, fid);
    UpsertForeignKeys(t, row, refs, fid);
    CommittedPieces(t.chunks, M.Upsert(t, row, refs, fid).value, refs, pieces, fid, LinksElsewhere(t, row.path));
  }

  lemma PutValid(in_: Input, put: FilePut, t: M.Tables, row: M.FileRow, fid: int)
    requires in_.chunk > 0 && StoresAll(in_, put.refs) && put.size == |in_.source|
    requires M.Consistent(t) && RowsHold(in_, t.chunks) && fid !in M.DeleteRows(t, row.path).files
    requires row.size == put.size && M.Upsert(t, row, put.refs, fid).Some?
    ensures ValidSnapshot(t) ==> ValidSnapshot(M.Upsert(t, row, put.refs, fid).value)
  {
    var refs, pieces := put.refs, Split(in_.source, in_.chunk);
    SplitIsRegular(in_.source, in_.chunk);
    assert M.UniqueHashes(t.chunks);
    hide M.Upsert, Split, ValidSnapshot;
    UpsertCommits(t, row, refs, fid);
    hide M.Consistent;
    RefSizesAdd(t.chunks, refs, pieces, |pieces|);
    assert refs[..|pieces|] == refs && pieces[..|pieces|] == pieces;
    if ValidSnapshot(t) {
      UpsertValid(t, row, refs, fid);
    }
  }

  // -------------------------------------------------------------------- progress

  /** The upload waits for a limiter slot and holds none: whoever blocks it is another upload. */
  ghost predicate WaitsForOthers(p: Pipe) {
    p.feed.producer.Acquiring? && !Stopped(p.sig) && forall k: nat :: Holding(p, k) == 0
  }

  /** A step that neither takes a slot, nor cancels the upload, nor fails. */
  ghost predicate GetsOn(s: Step) {
    && !s.Acquire? && !s.Cancel?
    && (s.ReadChunk? ==> !s.read.Torn? && !s.read.Cut?) && (s.Store? ==> s.reply.Kept?)
    && (s.CheckParent? ==> s.ok) && (s.Upsert? ==> s.ok)
  }

  ghost predicate Moves(in_: Input, p: Pipe) {
    exists s :: GetsOn(s) && Can(in_, p, s)
  }

  ghost predicate HasId(in_: Input, piece: bytes) {
    exists id :: id in in_.content && in_.content[id] == piece
  }

  /** The store would return some id for each piece handed over. */
  ghost predicate Storable(in_: Input, pieces: seq<bytes>) {
    forall i | 0 <= i < |pieces| :: HasId(in_, pieces[i])
  }

  lemma BusyWorkerMoves(in_: Input, p: Pipe, w: nat)
    requires ClosedOk(p) && WorkersOk(in_, p.feed.pieces, p.crew.workers) && Storable(in_, p.feed.pieces)
    requires w < |p.crew.workers| && !p.crew.workers[w].Idle? && !p.crew.workers[w].Exited?
    ensures Moves(in_, p)
  {
    var me := p.crew.workers[w];
    if me.Storing? {
      StorerMoves(in_, p, w);
    } else if me.Reporting? && |p.crew.results| >= QUEUE {
      assert Can(in_, p, Receive) && GetsOn(Receive);
    } else {
      var s := if me.Reporting? then Report(w) else if me.ClosingSource? then CloseSource(w) else CancelWork(w);
      assert Can(in_, p, s) && GetsOn(s);
    }
  }

  lemma StorerMoves(in_: Input, p: Pipe, w: nat)
    requires WorkersOk(in_, p.feed.pieces, p.crew.workers) && Storable(in_, p.feed.pieces)
    requires w < |p.crew.workers| && p.crew.workers[w].Storing?
    ensures Moves(in_, p)
  {
    var job := p.crew.workers[w].job;
    assert HasId(in_, p.feed.pieces[job.idx]);
    var id :| id in in_.content && in_.content[id] == job.data;
    var s := Store(w, Kept(id, false));
    assert Can(in_, p, s) && GetsOn(s);
  }

  /** The next chunk of the source, or what is left of it. */
  ghost function NextRead(in_: Input, pos: nat): Read
    requires pos <= |in_.source|
  {
    if |in_.source| - pos >= in_.chunk then Whole(in_.source[pos..pos + in_.chunk]) else Short(in_.source[pos..])
  }

  lemma ProducerMoves(in_: Input, p: Pipe)
    requires CutOk(in_, p.feed) && in_.chunk > 0 && p.queue.jobs == []
    requires (p.feed.producer.Acquiring? ==> Stopped(p.sig)) && !p.feed.producer.Finished?
    ensures Moves(in_, p)
  {
    hide Flatten, Regular, Full;
    var pr := p.feed.producer;
    var s := if pr.Acquiring? then AcquireFails else if pr.Reading? then ReadChunk(NextRead(in_, p.feed.pos))
             else if pr.Sending? then Send else if pr.ClosingErrs? then CloseErrs else CloseJobs;
    assert in_.source[p.feed.pos..] == in_.source[p.feed.pos..|in_.source|];
    assert Can(in_, p, s) && GetsOn(s);
  }

  lemma CollectorStep(in_: Input, p: Pipe, s: Step)
    requires GetsOn(s) && !ProducerStep(s) && !WorkerStep(s) && CollectorCan(p, s)
    ensures Moves(in_, p)
  {
    assert Can(in_, p, s);
  }

  lemma ReceiverMoves(in_: Input, p: Pipe)
    requires ClosedOk(p) && AllExited(p.crew.workers) && p.feed.errsClosed
    requires p.sink.collector.Collecting? || p.sink.collector.AwaitErr?
    ensures Moves(in_, p)
  {
    hide Moves;
    if !p.crew.resultsClosed {
      CollectorStep(in_, p, CloseResults);
    } else if p.sink.collector.AwaitErr? {
      CollectorStep(in_, p, TakeErr);
    } else if p.crew.results != [] {
      CollectorStep(in_, p, Receive);
    } else {
      CollectorStep(in_, p, Drained);
    }
  }

  lemma FinisherMoves(in_: Input, p: Pipe)
    requires Placed(RefsOf(p.sink.log)) || !p.sink.collector.Upserting?
    requires !p.sink.collector.Collecting? && !p.sink.collector.AwaitErr? && !p.sink.collector.Returned?
    ensures Moves(in_, p)
  {
    hide Moves, RefsOf, NewChunks, Placed;
    match p.sink.collector
    case Deciding(_) => CollectorStep(in_, p, Decide);
    case WantWrite => CollectorStep(in_, p, Recheck);
    case Rechecking => CollectorStep(in_, p, CheckParent(true));
    case Upserting => CollectorStep(in_, p, Upsert(true));
    case Cleaning =>
      if |p.sink.cleaned| < |NewChunks(p.sink.log)| {
        CollectorStep(in_, p, Clean);
      } else {
        CollectorStep(in_, p, Return);
      }
  }

  lemma CollectorMoves(in_: Input, p: Pipe)
    requires Inv(in_, p) && in_.chunk > 0 && AllExited(p.crew.workers) && !p.sink.collector.Returned?
    ensures Moves(in_, p)
  {
    assert p.crew.workers[0].Exited?;
    assert p.queue.jobsClosed && p.feed.errsClosed;
    if Approved(p.sink.collector) {
      ApprovedIsTaken(in_, p);
    }
    hide Inv, Moves, RefsOf, Split;
    if p.sink.collector.Collecting? || p.sink.collector.AwaitErr? {
      ReceiverMoves(in_, p);
    } else {
      FinisherMoves(in_, p);
    }
  }

  lemma {:induction false} AllResting(workers: seq<Worker>, k: nat)
    requires forall w | 0 <= w < |workers| :: workers[w].Idle? || workers[w].Exited?
    ensures Count(workers, WorkerToken, k) == 0
    decreases |workers|
  {
    if workers != [] {
      AllResting(workers[1..], k);
    }
  }

  /**
   Until PutFile returns, some goroutine can take a step that is no failure, unless the producer waits
   for slots that only others hold.
   */
  lemma NeverStuck(in_: Input, steps: seq<Step>)
    requires in_.chunk > 0 && Run(in_, steps).Some? && !Run(in_, steps).value.sink.collector.Returned?
    requires Storable(in_, Run(in_, steps).value.feed.pieces)
    ensures var p := Run(in_, steps).value; Moves(in_, p) || WaitsForOthers(p)
  {
    EveryRunInv(in_, steps);
    var p := Run(in_, steps).value;
    hide Run;
    StuckNowhere(in_, p);
  }

  lemma StuckNowhere(in_: Input, p: Pipe)
    requires in_.chunk > 0 && Inv(in_, p) && !p.sink.collector.Returned? && Storable(in_, p.feed.pieces)
    ensures Moves(in_, p) || WaitsForOthers(p)
  {
    assert ClosedOk(p) && CutOk(in_, p.feed) && |p.crew.workers| == WORKERS;
    assert WorkersOk(in_, p.feed.pieces, p.crew.workers);
    hide Inv, CutOk, Can, Moves, WorkersOk, Storable;
    if w :| 0 <= w < |p.crew.workers| && !p.crew.workers[w].Idle? && !p.crew.workers[w].Exited? {
      BusyWorkerMoves(in_, p, w);
    } else if AllExited(p.crew.workers) {
      CollectorMoves(in_, p);
    } else {
      var w :| 0 <= w < |p.crew.workers| && !p.crew.workers[w].Exited?;
      IdleMoves(in_, p, w);
    }
  }

  lemma IdleMoves(in_: Input, p: Pipe, w: nat)
    requires in_.chunk > 0 && ClosedOk(p) && CutOk(in_, p.feed) && w < |p.crew.workers| && p.crew.workers[w].Idle?
    requires forall w | 0 <= w < |p.crew.workers| :: p.crew.workers[w].Idle? || p.crew.workers[w].Exited?
    ensures Moves(in_, p) || WaitsForOthers(p)
  {
    if p.queue.jobs != [] {
      assert Can(in_, p, Take(w)) && GetsOn(Take(w));
    } else if p.feed.producer.Finished? {
      assert Can(in_, p, Exit(w)) && GetsOn(Exit(w));
    } else if p.feed.producer.Acquiring? && !Stopped(p.sig) {
      forall k: nat ensures Holding(p, k) == 0 {
        AllResting(p.crew.workers, k);
      }
    } else {
      ProducerMoves(in_, p);
    }
  }

  // ----------------------------------------------------------------- termination

  ghost function WorkerRank(w: Worker): nat {
    match w
    case Idle => 1
    case Storing(_) => 7
    case Reporting(_) => 6
    case ClosingSource => 3
    case Cancelling => 2
    case Exited => 0
  }

  ghost function CrewRank(workers: seq<Worker>): nat {
    if workers == [] then 0 else WorkerRank(workers[0]) + CrewRank(workers[1..])
  }

  lemma {:induction false} CrewUpdate(workers: seq<Worker>, i: nat, w: Worker)
    requires i < |workers|
    ensures CrewRank(workers[i := w]) == CrewRank(workers) - WorkerRank(workers[i]) + WorkerRank(w)
    decreases i
  {
    if i == 0 {
      assert workers[i := w][1..] == workers[1..];
    } else {
      CrewUpdate(workers[1..], i - 1, w);
      assert workers[i := w][1..] == workers[1..][i - 1 := w];
    }
  }

  ghost function FeedRank(in_: Input, f: Feed): int {
    var rest := 20 * (|in_.source| - f.pos);
    match f.producer
    case Acquiring => rest + 12
    case Reading(_) => rest + 11
    case Sending(_, _) => rest + 25
    case ClosingErrs => 2
    case ClosingJobs => 1
    case Finished => 0
  }

  ghost function CollectorRank(k: Sink): int {
    match k.collector
    case Collecting => 7
    case AwaitErr => 6
    case Deciding(_) => 5
    case WantWrite => 4
    case Rechecking => 3
    case Upserting => 2
    case Cleaning => 1
    case Returned(_) => 0
  }

  ghost function Flag(b: bool): nat {
    if b then 0 else 1
  }

  /** An upper bound on the steps still to come. */
  ghost function Rank(in_: Input, p: Pipe): int {
    FeedRank(in_, p.feed) + 8 * |p.queue.jobs| + CrewRank(p.crew.workers) + 2 * |p.crew.results|
    + |p.sink.log| - |p.sink.cleaned|
    + Flag(p.crew.resultsClosed) + Flag(p.sig.cancelled) + Flag(p.sig.sourceClosed) + CollectorRank(p.sink)
  }

  lemma ProducerRank(in_: Input, p: Pipe, s: Step)
    requires in_.chunk > 0 && CutOk(in_, p.feed) && ProducerStep(s) && ProducerCan(in_, p, s)
    ensures Rank(in_, ProducerDoes(in_, p, s)) < Rank(in_, p)
  {
    hide Flatten, Regular, Full;
  }

  lemma WorkerRankFalls(in_: Input, p: Pipe, s: Step)
    requires WorkerStep(s) && WorkerCan(in_, p, s)
    ensures Rank(in_, WorkerDoes(in_, p, s)) < Rank(in_, p)
  {
    CrewUpdate(p.crew.workers, s.w, WorkerAfter(p, s));
  }

  lemma CollectorRankFalls(in_: Input, p: Pipe, s: Step)
    requires !ProducerStep(s) && !WorkerStep(s) && CollectorCan(p, s)
    ensures Rank(in_, CollectorDoes(p, s)) < Rank(in_, p)
  {
    hide RefsOf, TotalOf, NewChunks, AnyBroke;
  }

  lemma {:induction false} FewNewChunks(log: seq<Res>)
    ensures |NewChunks(log)| <= |log|
    decreases |log|
  {
    if log != [] {
      FewNewChunks(log[..|log| - 1]);
    }
  }

  lemma RankIsNatural(in_: Input, p: Pipe)
    requires CutOk(in_, p.feed) && OutcomeOk(p.sink)
    ensures Rank(in_, p) >= 0
  {
    FewNewChunks(p.sink.log);
    hide Flatten, Regular, Full, NewChunks;
  }

  lemma {:induction false} RankFalls(in_: Input, steps: seq<Step>)
    requires in_.chunk > 0 && Run(in_, steps).Some?
    ensures |steps| + Rank(in_, Run(in_, steps).value) <= Rank(in_, Begin)
    decreases |steps|
  {
    hide Rank, Inv, ProducerCan, ProducerDoes, WorkerCan, WorkerDoes, CollectorCan, CollectorDoes;
    if steps != [] {
      var p := Run(in_, steps[..|steps| - 1]).value;
      var s := steps[|steps| - 1];
      RankFalls(in_, steps[..|steps| - 1]);
      EveryRunInv(in_, steps[..|steps| - 1]);
      assert CutOk(in_, p.feed) by {
        InvCut(in_, p);
      }
      if ProducerStep(s) {
        ProducerRank(in_, p, s);
      } else if WorkerStep(s) {
        WorkerRankFalls(in_, p, s);
      } else {
        CollectorRankFalls(in_, p, s);
      }
    }
  }

  lemma InvCut(in_: Input, p: Pipe)
    requires Inv(in_, p)
    ensures CutOk(in_, p.feed) && OutcomeOk(p.sink)
  {
  }

  /** No interleaving is longer than this: with NeverStuck, every upload returns. */
  lemma AlwaysReturns(in_: Input, steps: seq<Step>)
    requires in_.chunk > 0 && Run(in_, steps).Some?
    ensures |steps| <= 20 * |in_.source| + 26
  {
    RankFalls(in_, steps);
    EveryRunInv(in_, steps);
    InvCut(in_, Run(in_, steps).value);
    RankIsNatural(in_, Run(in_, steps).value);
    hide Inv, Run;
    assert Begin.crew.workers == [Idle, Idle, Idle, Idle];
    assert CrewRank(Begin.crew.workers) == 4;
  }
}
