/**
 What every interleaving of the upload pipeline guarantees: a successful PutFile stored what it read
 of the source in order, a failed one changed no file, every limiter slot comes back exactly once, and
 the pipeline always returns.
 */
module PutPipelineProofs {
  import opened Sequences
  import opened Manifest
  import opened PutPipeline

  // ----------------------------------------------------------------- invariant

  ghost predicate AtEnd(pr: Producer) {
    pr.ClosingErrs? || pr.ClosingJobs? || pr.Finished?
  }

  ghost function Unsent(pr: Producer): bytes {
    if pr.Sending? then pr.job.data else []
  }

  /** What has been read of the source. */
  ghost function Taken(in_: Input, f: Feed): bytes {
    if f.pos <= |in_.source| then in_.source[..f.pos] else in_.source
  }

  /** Chunks sent so far, and the one about to be sent, are the source up to the read position. */
  ghost predicate CutOk(in_: Input, f: Feed) {
    && f.pos <= |in_.source|
    && Regular(f.pieces, in_.chunk)
    && (!AtEnd(f.producer) ==>
          Flatten(f.pieces) + Unsent(f.producer) == in_.source[..f.pos] && Full(f.pieces, in_.chunk))
    && (f.producer.Sending? ==>
          var job := f.producer.job;
          && job.idx == |f.pieces| && 0 < |job.data| <= in_.chunk
          && (f.producer.after.More? ==> |job.data| == in_.chunk))
  }

  ghost predicate JobOk(pieces: seq<bytes>, j: Job) {
    j.idx < |pieces| && j.data == pieces[j.idx]
  }

  ghost predicate ResOk(in_: Input, pieces: seq<bytes>, r: Res) {
    && r.idx < |pieces| && r.size == |pieces[r.idx]|
    && (r.reply.Kept? ==> r.reply.id in in_.content && in_.content[r.reply.id] == pieces[r.idx])
  }

  ghost predicate JobsOk(pieces: seq<bytes>, jobs: seq<Job>) {
    forall i | 0 <= i < |jobs| :: JobOk(pieces, jobs[i])
  }

  ghost predicate WorkerOk(in_: Input, pieces: seq<bytes>, w: Worker) {
    && (w.Storing? ==> JobOk(pieces, w.job))
    && (w.Reporting? ==> ResOk(in_, pieces, w.res))
  }

  ghost predicate WorkersOk(in_: Input, pieces: seq<bytes>, workers: seq<Worker>) {
    |workers| == WORKERS && forall w | 0 <= w < |workers| :: WorkerOk(in_, pieces, workers[w])
  }

  ghost predicate ResultsOk(in_: Input, pieces: seq<bytes>, results: seq<Res>) {
    forall i | 0 <= i < |results| :: ResOk(in_, pieces, results[i])
  }

  ghost predicate ChunksOk(in_: Input, p: Pipe) {
    && JobsOk(p.feed.pieces, p.queue.jobs)
    && WorkersOk(in_, p.feed.pieces, p.crew.workers)
    && ResultsOk(in_, p.feed.pieces, p.crew.results)
    && ResultsOk(in_, p.feed.pieces, p.sink.log)
  }

  /** Something happened that keeps the upload from succeeding. */
  ghost predicate Trouble(p: Pipe) {
    p.sig.cancelled || AnyBroke(p.crew.results) || AnyBroke(p.sink.log)
  }

  ghost predicate Failing(w: Worker) {
    w.ClosingSource? || w.Cancelling?
  }

  ghost predicate AnyFailing(workers: seq<Worker>) {
    exists w | 0 <= w < |workers| :: Failing(workers[w])
  }

  /** The producer has read to the end of the source, or a read was cut off. */
  ghost predicate Ended(in_: Input, f: Feed) {
    f.cut || f.pos == |in_.source|
  }

  /**
   Only trouble closes the source or stops the workers; without trouble or an error everything read
   is handed over, and only a cut read ends before the source does.
   */
  ghost predicate TroubleOk(in_: Input, p: Pipe) {
    && (p.sig.sourceClosed || p.sig.halted || AnyFailing(p.crew.workers) ==> Trouble(p))
    && (AtEnd(p.feed.producer) ==>
          p.feed.err || Trouble(p) || (Flatten(p.feed.pieces) == Taken(in_, p.feed) && Ended(in_, p.feed)))
    && (p.feed.producer.Sending? && p.feed.producer.after.Eof? ==> Trouble(p) || Ended(in_, p.feed))
  }

  ghost predicate ClosedOk(p: Pipe) {
    && (p.feed.errsClosed <==> p.feed.producer.ClosingJobs? || p.feed.producer.Finished?)
    && (p.queue.jobsClosed <==> p.feed.producer.Finished?)
    && (forall w | 0 <= w < |p.crew.workers| && p.crew.workers[w].Exited? :: p.queue.jobsClosed && p.queue.jobs == [])
    && (p.crew.resultsClosed ==> AllExited(p.crew.workers))
    && (!p.sink.collector.Collecting? ==> p.crew.resultsClosed && p.crew.results == [])
    && |p.queue.jobs| <= QUEUE && |p.crew.results| <= QUEUE
  }

  ghost predicate Approved(c: Collector) {
    c.WantWrite? || c.Rechecking? || c.Upserting? || c == Returned(true)
  }

  ghost predicate VerdictOk(in_: Input, p: Pipe) {
    && (p.sink.collector.Deciding? ==> p.sink.collector.failed == (AnyBroke(p.sink.log) || p.feed.err))
    && (Approved(p.sink.collector) ==>
          !AnyBroke(p.sink.log) && Flatten(p.feed.pieces) == Taken(in_, p.feed) && Ended(in_, p.feed))
  }

  ghost predicate OutcomeOk(k: Sink) {
    && (k.put.Some? <==> k.collector == Returned(true))
    && (k.put.Some? ==> Placed(RefsOf(k.log)) && k.put.value == FilePut(Slots(RefsOf(k.log)), TotalOf(k.log)))
    && |k.cleaned| <= |NewChunks(k.log)| && k.cleaned == NewChunks(k.log)[..|k.cleaned|]
    && (!k.collector.Cleaning? && k.collector != Returned(false) ==> k.cleaned == [])
    && (k.collector == Returned(false) ==> k.cleaned == NewChunks(k.log))
  }

  ghost predicate Inv(in_: Input, p: Pipe) {
    && EachOnce(p) && SlotsOnce(p)
    && CutOk(in_, p.feed) && ChunksOk(in_, p) && TroubleOk(in_, p)
    && ClosedOk(p) && VerdictOk(in_, p) && OutcomeOk(p.sink)
  }

  // ------------------------------------------------------------- producer steps

  lemma SendCounts(in_: Input, p: Pipe)
    requires EachOnce(p) && SlotsOnce(p) && ProducerCan(in_, p, Send)
    requires p.feed.producer.job.idx == |p.feed.pieces|
    ensures EachOnce(ProducerDoes(in_, p, Send)) && SlotsOnce(ProducerDoes(in_, p, Send))
  {
    var q := ProducerDoes(in_, p, Send);
    hide Count;
    forall k: nat ensures Places(q, k) == if k < |q.feed.pieces| then 1 else 0 {
      assert Places(p, k) == if k < |p.feed.pieces| then 1 else 0;
      CountAppend(p.queue.jobs, p.feed.producer.job, JobIdx, k);
    }
    forall k: nat ensures Holding(q, k) + Count(q.feed.released, Self, k) == if k < q.feed.acquired then 1 else 0 {
      assert Holding(p, k) + Count(p.feed.released, Self, k) == if k < p.feed.acquired then 1 else 0;
      CountAppend(p.queue.jobs, p.feed.producer.job, JobToken, k);
    }
  }

  lemma HoldCounts(in_: Input, p: Pipe, s: Step)
    requires EachOnce(p) && SlotsOnce(p) && ProducerStep(s) && ProducerCan(in_, p, s) && !s.Send?
    ensures EachOnce(ProducerDoes(in_, p, s)) && SlotsOnce(ProducerDoes(in_, p, s))
  {
    var q := ProducerDoes(in_, p, s);
    hide Count, Reads;
    forall k: nat ensures Places(q, k) == if k < |q.feed.pieces| then 1 else 0 {
      assert Places(p, k) == if k < |p.feed.pieces| then 1 else 0;
    }
    forall k: nat ensures Holding(q, k) + Count(q.feed.released, Self, k) == if k < q.feed.acquired then 1 else 0 {
      assert Holding(p, k) + Count(p.feed.released, Self, k) == if k < p.feed.acquired then 1 else 0;
      if |q.feed.released| > |p.feed.released| {
        CountAppend(p.feed.released, q.feed.released[|p.feed.released|], Self, k);
        assert q.feed.released == p.feed.released + [q.feed.released[|p.feed.released|]];
      }
    }
  }

  lemma CutRead(in_: Input, p: Pipe, s: Step)
    requires CutOk(in_, p.feed) && ProducerStep(s) && ProducerCan(in_, p, s) && s.ReadChunk?
    ensures CutOk(in_, ProducerDoes(in_, p, s).feed)
  {
    var d := s.read.data;
    assert in_.source[..p.feed.pos] + d == in_.source[..p.feed.pos + |d|];
    assert d == [] ==> in_.source[..p.feed.pos] == in_.source[..p.feed.pos + |d|];
    hide Flatten, Regular, Full;
  }

  lemma SentPiece(pieces: seq<bytes>, d: bytes, n: nat)
    requires Full(pieces, n) && Regular(pieces, n) && 0 < |d| <= n
    ensures Flatten(pieces + [d]) == Flatten(pieces) + d
    ensures Regular(pieces + [d], n)
    ensures |d| == n ==> Full(pieces + [d], n)
  {
    FlattenSnoc(pieces, d);
  }

  lemma CutSend(in_: Input, p: Pipe, s: Step)
    requires CutOk(in_, p.feed) && ProducerStep(s) && ProducerCan(in_, p, s) && s.Send?
    ensures CutOk(in_, ProducerDoes(in_, p, s).feed)
    ensures Flatten(p.feed.pieces + [p.feed.producer.job.data]) == in_.source[..p.feed.pos]
  {
    SentPiece(p.feed.pieces, p.feed.producer.job.data, in_.chunk);
    hide Flatten, Regular, Full;
  }

  lemma CutOther(in_: Input, p: Pipe, s: Step)
    requires CutOk(in_, p.feed) && ProducerStep(s) && ProducerCan(in_, p, s) && !s.ReadChunk? && !s.Send?
    ensures CutOk(in_, ProducerDoes(in_, p, s).feed)
  {
    hide Flatten, Regular, Full;
  }

  /** More chunks: what was said about the earlier ones still holds. */
  lemma MorePieces(in_: Input, before: Pipe, pieces: seq<bytes>, d: bytes)
    requires ChunksOk(in_, before) && before.feed.pieces == pieces
    ensures JobsOk(pieces + [d], before.queue.jobs)
    ensures WorkersOk(in_, pieces + [d], before.crew.workers)
    ensures ResultsOk(in_, pieces + [d], before.crew.results) && ResultsOk(in_, pieces + [d], before.sink.log)
  {
    forall r | ResOk(in_, pieces, r) ensures ResOk(in_, pieces + [d], r) {
    }
    forall j | JobOk(pieces, j) ensures JobOk(pieces + [d], j) {
    }
  }

  lemma ProducerChunks(in_: Input, p: Pipe, s: Step)
    requires ChunksOk(in_, p) && CutOk(in_, p.feed) && ProducerStep(s) && ProducerCan(in_, p, s)
    ensures ChunksOk(in_, ProducerDoes(in_, p, s))
  {
    if s.Send? {
      MorePieces(in_, p, p.feed.pieces, p.feed.producer.job.data);
      hide WorkersOk, ResultsOk, Flatten, Regular, Full;
    } else {
      hide JobsOk, WorkersOk, ResultsOk, Reads;
    }
  }

  lemma ProducerTrouble(in_: Input, p: Pipe, s: Step)
    requires CutOk(in_, p.feed) && TroubleOk(in_, p) && ProducerStep(s) && ProducerCan(in_, p, s)
    ensures TroubleOk(in_, ProducerDoes(in_, p, s))
  {
    hide Regular, Full, AnyBroke, AnyFailing;
    if s.Send? {
      CutSend(in_, p, s);
      hide Flatten;
      assert in_.source[..|in_.source|] == in_.source;
    } else if s.ReadChunk? {
      ReadTrouble(in_, p, s);
    } else {
      hide Flatten;
    }
  }

  lemma ReadTrouble(in_: Input, p: Pipe, s: Step)
    requires CutOk(in_, p.feed) && TroubleOk(in_, p) && ProducerStep(s) && ProducerCan(in_, p, s) && s.ReadChunk?
    ensures TroubleOk(in_, ProducerDoes(in_, p, s))
  {
    assert in_.source[..|in_.source|] == in_.source;
    hide Regular, Full, AnyBroke, AnyFailing, Flatten;
  }

  lemma ProducerRest(in_: Input, p: Pipe, s: Step)
    requires ClosedOk(p) && VerdictOk(in_, p) && OutcomeOk(p.sink) && ProducerStep(s) && ProducerCan(in_, p, s)
    requires !AtEnd(p.feed.producer) ==> p.sink.collector.Collecting?
    ensures var q := ProducerDoes(in_, p, s); ClosedOk(q) && VerdictOk(in_, q) && OutcomeOk(q.sink)
  {
    hide Reads, AnyBroke, Flatten, OutcomeOk;
  }

  /** Results are only closed once every worker has left, and the workers only leave after the producer. */
  lemma CollectorWaits(in_: Input, p: Pipe)
    requires ClosedOk(p) && |p.crew.workers| == WORKERS && !p.queue.jobsClosed
    ensures p.sink.collector.Collecting? && !p.crew.resultsClosed
  {
    assert !p.crew.workers[0].Exited?;
  }

  lemma ProducerKeeps(in_: Input, p: Pipe, s: Step)
    requires Inv(in_, p) && ProducerStep(s) && ProducerCan(in_, p, s)
    ensures Inv(in_, ProducerDoes(in_, p, s))
  {
    assert |p.crew.workers| == WORKERS;
    assert s.Send? ==> p.feed.producer.job.idx == |p.feed.pieces|;
    if !p.queue.jobsClosed {
      CollectorWaits(in_, p);
    }
    assert !AtEnd(p.feed.producer) ==> p.sink.collector.Collecting?;
    hide EachOnce, SlotsOnce, CutOk, ChunksOk, TroubleOk, ClosedOk, VerdictOk, OutcomeOk, ProducerDoes, ProducerCan;
    if s.Send? {
      SendCounts(in_, p);
      CutSend(in_, p, s);
    } else {
      HoldCounts(in_, p, s);
      if s.ReadChunk? {
        CutRead(in_, p, s);
      } else {
        CutOther(in_, p, s);
      }
    }
    ProducerChunks(in_, p, s);
    ProducerTrouble(in_, p, s);
    ProducerRest(in_, p, s);
  }

  // --------------------------------------------------------------- worker steps

  lemma {:induction false} CountRest<T>(s: seq<T>, key: T -> int, k: nat)
    requires s != []
    ensures Count(s, key, k) == Hit(key(s[0]), k) + Count(s[1..], key, k)
  {
  }

  lemma WorkerCounts(in_: Input, p: Pipe, s: Step)
    requires EachOnce(p) && SlotsOnce(p) && WorkerStep(s) && WorkerCan(in_, p, s)
    ensures EachOnce(WorkerDoes(in_, p, s)) && SlotsOnce(WorkerDoes(in_, p, s))
  {
    var q := WorkerDoes(in_, p, s);
    var me := p.crew.workers[s.w];
    hide Count;
    forall k: nat ensures Places(q, k) == if k < |q.feed.pieces| then 1 else 0 {
      assert Places(p, k) == if k < |p.feed.pieces| then 1 else 0;
      CountUpdate(p.crew.workers, s.w, WorkerAfter(p, s), WorkerIdx, k);
      if s.Take? {
        CountRest(p.queue.jobs, JobIdx, k);
      } else if s.Report? {
        CountAppend(p.crew.results, me.res, ResIdx, k);
      }
    }
    forall k: nat ensures Holding(q, k) + Count(q.feed.released, Self, k) == if k < q.feed.acquired then 1 else 0 {
      assert Holding(p, k) + Count(p.feed.released, Self, k) == if k < p.feed.acquired then 1 else 0;
      CountUpdate(p.crew.workers, s.w, WorkerAfter(p, s), WorkerToken, k);
      if s.Take? {
        CountRest(p.queue.jobs, JobToken, k);
      } else if s.Store? {
        CountAppend(p.feed.released, me.job.token, Self, k);
      }
    }
  }

  lemma WorkerChunks(in_: Input, p: Pipe, s: Step)
    requires ChunksOk(in_, p) && WorkerStep(s) && WorkerCan(in_, p, s)
    ensures ChunksOk(in_, WorkerDoes(in_, p, s))
  {
    assert WorkerOk(in_, p.feed.pieces, p.crew.workers[s.w]);
    assert s.Take? ==> JobOk(p.feed.pieces, p.queue.jobs[0]);
    assert WorkerOk(in_, p.feed.pieces, WorkerAfter(p, s));
    assert s.Report? ==> ResOk(in_, p.feed.pieces, p.crew.workers[s.w].res);
    hide ResOk, JobOk, WorkerOk, WorkerAfter;
  }

  lemma BrokeStays(log: seq<Res>, r: Res)
    ensures AnyBroke(log + [r]) <==> AnyBroke(log) || r.reply.Broke?
  {
    if AnyBroke(log) {
      var i :| 0 <= i < |log| && log[i].reply.Broke?;
      assert (log + [r])[i].reply.Broke?;
    }
    if r.reply.Broke? {
      assert (log + [r])[|log|].reply.Broke?;
    }
  }

  lemma FailingAfter(workers: seq<Worker>, i: nat, w: Worker)
    requires i < |workers|
    ensures AnyFailing(workers[i := w]) ==> AnyFailing(workers) || Failing(w)
  {
    if AnyFailing(workers[i := w]) && !Failing(w) {
      var k :| 0 <= k < |workers| && Failing(workers[i := w][k]);
      assert k != i && Failing(workers[k]);
    }
  }

  lemma WorkerTrouble(in_: Input, p: Pipe, s: Step)
    requires TroubleOk(in_, p) && WorkerStep(s) && WorkerCan(in_, p, s)
    ensures TroubleOk(in_, WorkerDoes(in_, p, s))
  {
    var me := p.crew.workers[s.w];
    FailingAfter(p.crew.workers, s.w, WorkerAfter(p, s));
    assert Failing(me) ==> AnyFailing(p.crew.workers);
    if s.Report? {
      BrokeStays(p.crew.results, me.res);
    }
    hide AnyBroke, AnyFailing, Flatten;
  }

  lemma WorkerRest(in_: Input, p: Pipe, s: Step)
    requires ClosedOk(p) && VerdictOk(in_, p) && OutcomeOk(p.sink) && WorkerStep(s) && WorkerCan(in_, p, s)
    ensures var q := WorkerDoes(in_, p, s); ClosedOk(q) && VerdictOk(in_, q) && OutcomeOk(q.sink)
  {
    hide AnyBroke, Flatten, OutcomeOk;
    assert !p.crew.workers[s.w].Exited?;
  }

  lemma WorkerKeeps(in_: Input, p: Pipe, s: Step)
    requires Inv(in_, p) && WorkerStep(s) && WorkerCan(in_, p, s)
    ensures Inv(in_, WorkerDoes(in_, p, s))
  {
    assert WorkerDoes(in_, p, s).feed == p.feed.(released := WorkerDoes(in_, p, s).feed.released);
    assert CutOk(in_, WorkerDoes(in_, p, s).feed);
    hide EachOnce, SlotsOnce, CutOk, ChunksOk, TroubleOk, ClosedOk, VerdictOk, OutcomeOk, WorkerDoes, WorkerCan;
    WorkerCounts(in_, p, s);
    WorkerChunks(in_, p, s);
    WorkerTrouble(in_, p, s);
    WorkerRest(in_, p, s);
  }

  // ------------------------------------------------------------ collector steps

  lemma ReceiveCounts(p: Pipe)
    requires EachOnce(p) && SlotsOnce(p) && CollectorCan(p, Receive)
    ensures EachOnce(CollectorDoes(p, Receive)) && SlotsOnce(CollectorDoes(p, Receive))
  {
    var q := CollectorDoes(p, Receive);
    hide Count;
    forall k: nat ensures Places(q, k) == if k < |q.feed.pieces| then 1 else 0 {
      assert Places(p, k) == if k < |p.feed.pieces| then 1 else 0;
      CountRest(p.crew.results, ResIdx, k);
      CountAppend(p.sink.log, p.crew.results[0], ResIdx, k);
    }
    forall k: nat ensures Holding(q, k) + Count(q.feed.released, Self, k) == if k < q.feed.acquired then 1 else 0 {
      assert Holding(p, k) + Count(p.feed.released, Self, k) == if k < p.feed.acquired then 1 else 0;
    }
  }

  lemma OtherCounts(p: Pipe, s: Step)
    requires EachOnce(p) && SlotsOnce(p) && !ProducerStep(s) && !WorkerStep(s) && CollectorCan(p, s) && !s.Receive?
    ensures EachOnce(CollectorDoes(p, s)) && SlotsOnce(CollectorDoes(p, s))
  {
    var q := CollectorDoes(p, s);
    hide Count, RefsOf, NewChunks, TotalOf, AnyBroke;
    forall k: nat ensures Places(q, k) == if k < |q.feed.pieces| then 1 else 0 {
      assert Places(p, k) == if k < |p.feed.pieces| then 1 else 0;
    }
    forall k: nat ensures Holding(q, k) + Count(q.feed.released, Self, k) == if k < q.feed.acquired then 1 else 0 {
      assert Holding(p, k) + Count(p.feed.released, Self, k) == if k < p.feed.acquired then 1 else 0;
    }
  }

  lemma CollectorChunks(in_: Input, p: Pipe, s: Step)
    requires ChunksOk(in_, p) && !ProducerStep(s) && !WorkerStep(s) && CollectorCan(p, s)
    ensures ChunksOk(in_, CollectorDoes(p, s))
  {
    hide ResOk, JobOk, WorkerOk, RefsOf, NewChunks, TotalOf, AnyBroke;
  }

  lemma BrokeHead(results: seq<Res>)
    requires results != [] && AnyBroke(results)
    ensures AnyBroke(results[1..]) || results[0].reply.Broke?
  {
    var i :| 0 <= i < |results| && results[i].reply.Broke?;
    assert i > 0 ==> results[1..][i - 1].reply.Broke?;
  }

  lemma CollectorTrouble(in_: Input, p: Pipe, s: Step)
    requires TroubleOk(in_, p) && !ProducerStep(s) && !WorkerStep(s) && CollectorCan(p, s)
    ensures TroubleOk(in_, CollectorDoes(p, s))
  {
    if s.Receive? {
      BrokeStays(p.sink.log, p.crew.results[0]);
      if AnyBroke(p.crew.results) {
        BrokeHead(p.crew.results);
      }
    }
    hide AnyBroke, AnyFailing, Flatten, RefsOf, NewChunks, TotalOf;
  }

  lemma CollectorClosed(in_: Input, p: Pipe, s: Step)
    requires ClosedOk(p) && !ProducerStep(s) && !WorkerStep(s) && CollectorCan(p, s)
    ensures ClosedOk(CollectorDoes(p, s))
  {
    hide AnyBroke, RefsOf, NewChunks, TotalOf;
  }

  /**
   Once the results are drained the producer is done, and its chunks are all it has read, to the end
   of the source or a cut, or the upload is failing.
   */
  lemma DrainedMeansEnded(in_: Input, p: Pipe)
    requires ClosedOk(p) && TroubleOk(in_, p) && |p.crew.workers| == WORKERS && !p.sink.collector.Collecting?
    ensures p.feed.producer.Finished? && p.feed.errsClosed && p.queue.jobs == []
    ensures p.feed.err || p.sig.cancelled || AnyBroke(p.sink.log)
            || (Flatten(p.feed.pieces) == Taken(in_, p.feed) && Ended(in_, p.feed))
  {
    assert p.crew.workers[0].Exited?;
    assert !AnyBroke(p.crew.results);
    hide Flatten;
  }

  lemma CollectorVerdict(in_: Input, p: Pipe, s: Step)
    requires VerdictOk(in_, p) && ClosedOk(p) && TroubleOk(in_, p) && |p.crew.workers| == WORKERS
    requires !ProducerStep(s) && !WorkerStep(s) && CollectorCan(p, s)
    ensures VerdictOk(in_, CollectorDoes(p, s))
  {
    if !p.sink.collector.Collecting? {
      DrainedMeansEnded(in_, p);
    }
    hide AnyBroke, RefsOf, NewChunks, TotalOf, Flatten, TroubleOk, ClosedOk;
  }

  lemma CleanNext(todo: seq<int>, done: seq<int>)
    requires |done| < |todo| && done == todo[..|done|]
    ensures done + [todo[|done|]] == todo[..|done| + 1]
  {
  }

  lemma CollectorOutcome(p: Pipe, s: Step)
    requires OutcomeOk(p.sink) && !ProducerStep(s) && !WorkerStep(s) && CollectorCan(p, s)
    ensures OutcomeOk(CollectorDoes(p, s).sink)
  {
    if s.Clean? {
      CleanNext(NewChunks(p.sink.log), p.sink.cleaned);
    }
    hide AnyBroke, RefsOf, NewChunks, TotalOf;
  }

  lemma CollectorKeeps(in_: Input, p: Pipe, s: Step)
    requires Inv(in_, p) && !ProducerStep(s) && !WorkerStep(s) && CollectorCan(p, s)
    ensures Inv(in_, CollectorDoes(p, s))
  {
    assert |p.crew.workers| == WORKERS;
    assert CollectorDoes(p, s).feed == p.feed;
    hide EachOnce, SlotsOnce, CutOk, ChunksOk, TroubleOk, ClosedOk, VerdictOk, OutcomeOk, CollectorDoes, CollectorCan;
    if s.Receive? {
      ReceiveCounts(p);
    } else {
      OtherCounts(p, s);
    }
    CollectorChunks(in_, p, s);
    CollectorTrouble(in_, p, s);
    CollectorClosed(in_, p, s);
    CollectorVerdict(in_, p, s);
    CollectorOutcome(p, s);
  }

  lemma StartCounts()
    ensures EachOnce(Begin) && SlotsOnce(Begin)
  {
    assert Begin.crew.workers == [Idle, Idle, Idle, Idle];
    forall k: nat ensures Places(Begin, k) == 0 && Holding(Begin, k) + Count(Begin.feed.released, Self, k) == 0 {
      NoneWorking(Begin.crew.workers, k);
    }
  }

  lemma StartInv(in_: Input)
    ensures Inv(in_, Begin)
  {
    StartCounts();
    hide EachOnce, SlotsOnce;
    assert !AnyFailing(Begin.crew.workers);
    hide AnyFailing;
    assert ClosedOk(Begin);
  }

  lemma {:induction false} NoneWorking(workers: seq<Worker>, k: nat)
    requires forall w | 0 <= w < |workers| :: !workers[w].Storing? && !workers[w].Reporting?
    ensures Count(workers, WorkerIdx, k) == 0 && Count(workers, WorkerToken, k) == 0
    decreases |workers|
  {
    if workers != [] {
      NoneWorking(workers[1..], k);
    }
  }

  lemma {:induction false} EveryRunInv(in_: Input, steps: seq<Step>)
    requires Run(in_, steps).Some?
    ensures Inv(in_, Run(in_, steps).value)
    decreases |steps|
  {
    hide Inv, ProducerCan, ProducerDoes, WorkerCan, WorkerDoes, CollectorCan, CollectorDoes;
    if steps == [] {
      StartInv(in_);
    } else {
      var p := Run(in_, steps[..|steps| - 1]).value;
      var s := steps[|steps| - 1];
      EveryRunInv(in_, steps[..|steps| - 1]);
      if ProducerStep(s) {
        ProducerKeeps(in_, p, s);
      } else if WorkerStep(s) {
        WorkerKeeps(in_, p, s);
      } else {
        CollectorKeeps(in_, p, s);
      }
    }
  }
}
