/**
 Which steps of an upload decide its outcome: what must have happened before the file row is
 written, and which chunk rows a failed upload removes.
 */
module PutLedger {
  import opened Sequences
  import opened Manifest
  import opened PutPipeline
  import opened PutPipelineProofs

  // ------------------------------------------------------------ writing the row

  /** A second look at the caller's context, before which it was not cancelled. */
  ghost predicate LookedAgain(steps: seq<Step>) {
    exists i :: 0 <= i < |steps| && steps[i] == Recheck && Cancel !in steps[..i]
  }

  ghost predicate CancelNoted(p: Pipe, steps: seq<Step>) {
    p.sig.cancelled <==> Cancel in steps
  }

  /** How far the collector has come, in terms of the steps taken. */
  ghost predicate Permitted(p: Pipe, steps: seq<Step>) {
    var c := p.sink.collector;
    && (p.sink.put.Some? <==> c == Returned(true))
    && (c.Rechecking? || c.Upserting? || c == Returned(true) ==> LookedAgain(steps))
    && (c.Upserting? || c == Returned(true) ==> CheckParent(true) in steps)
    && (c == Returned(true) ==> Upsert(true) in steps)
    && (CheckParent(false) in steps || Upsert(false) in steps ==> c.Cleaning? || c == Returned(false))
  }

  lemma LookedBefore(steps: seq<Step>, s: Step)
    requires LookedAgain(steps)
    ensures LookedAgain(steps + [s])
  {
    var i :| 0 <= i < |steps| && steps[i] == Recheck && Cancel !in steps[..i];
    assert (steps + [s])[i] == Recheck && (steps + [s])[..i] == steps[..i];
  }

  lemma LooksNow(steps: seq<Step>)
    requires Cancel !in steps
    ensures LookedAgain(steps + [Recheck])
  {
    var all := steps + [Recheck];
    assert all[|steps|] == Recheck && all[..|steps|] == steps;
  }

  lemma OtherSteps(in_: Input, p: Pipe, s: Step)
    requires Can(in_, p, s) && (ProducerStep(s) || WorkerStep(s))
    ensures Does(in_, p, s).sink == p.sink && Does(in_, p, s).sig.cancelled == p.sig.cancelled
  {
  }

  /** Nothing that counts has been done, and the collector has not moved. */
  lemma StillPermitted(p: Pipe, v: Pipe, steps: seq<Step>, s: Step)
    requires CancelNoted(p, steps) && Permitted(p, steps)
    requires v.sink == p.sink && v.sig.cancelled == p.sig.cancelled
    requires !s.Cancel? && !s.CheckParent? && !s.Upsert?
    ensures CancelNoted(v, steps + [s]) && Permitted(v, steps + [s])
  {
    assert forall x :: x in steps + [s] <==> x in steps || x == s;
    if LookedAgain(steps) {
      LookedBefore(steps, s);
    }
    hide LookedAgain;
  }

  lemma CollectorPermitted(p: Pipe, steps: seq<Step>, s: Step)
    requires CancelNoted(p, steps) && Permitted(p, steps)
    requires !ProducerStep(s) && !WorkerStep(s) && CollectorCan(p, s)
    ensures CancelNoted(CollectorDoes(p, s), steps + [s]) && Permitted(CollectorDoes(p, s), steps + [s])
  {
    if LookedAgain(steps) {
      LookedBefore(steps, s);
    }
    if s == Recheck && !p.sig.cancelled {
      LooksNow(steps);
    }
    assert forall x :: x in steps + [s] <==> x in steps || x == s;
    hide LookedAgain, RefsOf, TotalOf, NewChunks, AnyBroke, Placed, ProducerStep, WorkerStep;
  }

  lemma StepPermitted(in_: Input, p: Pipe, steps: seq<Step>, s: Step)
    requires CancelNoted(p, steps) && Permitted(p, steps) && Can(in_, p, s)
    ensures CancelNoted(Does(in_, p, s), steps + [s]) && Permitted(Does(in_, p, s), steps + [s])
  {
    if ProducerStep(s) || WorkerStep(s) {
      OtherSteps(in_, p, s);
      assert !s.Cancel? && !s.CheckParent? && !s.Upsert?;
      hide *;
      StillPermitted(p, Does(in_, p, s), steps, s);
    } else {
      hide CancelNoted, Permitted, CollectorCan, CollectorDoes, ProducerStep, WorkerStep;
      CollectorPermitted(p, steps, s);
    }
  }

  lemma {:induction false} EveryRunPermitted(in_: Input, steps: seq<Step>)
    requires Run(in_, steps).Some?
    ensures CancelNoted(Run(in_, steps).value, steps) && Permitted(Run(in_, steps).value, steps)
    decreases |steps|
  {
    if steps != [] {
      var before, s := steps[..|steps| - 1], steps[|steps| - 1];
      assert steps == before + [s];
      EveryRunPermitted(in_, before);
      StepPermitted(in_, Run(in_, before).value, before, s);
      hide Can, Does, CancelNoted, Permitted;
    }
  }

  /**
   The row is written only after the context was found alive once more under the write lock, the parent
   check passed and the write succeeded. A refused parent or a failed write leaves the file as it was.
   */
  lemma WrittenOnlyIf(in_: Input, steps: seq<Step>)
    requires Run(in_, steps).Some? && Run(in_, steps).value.sink.put.Some?
    ensures LookedAgain(steps) && CheckParent(true) in steps && Upsert(true) in steps
    ensures CheckParent(false) !in steps && Upsert(false) !in steps
  {
    EveryRunPermitted(in_, steps);
    hide Run, LookedAgain;
  }

  lemma RefusedParent(in_: Input, steps: seq<Step>)
    requires Run(in_, steps).Some? && CheckParent(false) in steps
    ensures Run(in_, steps).value.sink.put.None?
    ensures Run(in_, steps).value.sink.collector.Returned? ==> !Run(in_, steps).value.sink.collector.ok
  {
    EveryRunPermitted(in_, steps);
    hide Run, LookedAgain;
  }

  // ------------------------------------------------------------------ cleaning up

  ghost predicate WithWorker(workers: seq<Worker>, r: Reply) {
    exists w :: 0 <= w < |workers| && workers[w].Reporting? && workers[w].res.reply == r
  }

  ghost predicate ReplyIn(results: seq<Res>, r: Reply) {
    exists i :: 0 <= i < |results| && results[i].reply == r
  }

  /** A reply of the store is with the worker that got it, in the result channel, or received. */
  ghost predicate Somewhere(p: Pipe, r: Reply) {
    WithWorker(p.crew.workers, r) || ReplyIn(p.crew.results, r) || ReplyIn(p.sink.log, r)
  }

  ghost predicate Replied(steps: seq<Step>, r: Reply) {
    exists w :: Store(w, r) in steps
  }

  ghost predicate RepliesKept(p: Pipe, steps: seq<Step>) {
    forall r :: Somewhere(p, r) <==> Replied(steps, r)
  }

  lemma ReplySnoc(results: seq<Res>, x: Res, r: Reply)
    ensures ReplyIn(results + [x], r) <==> ReplyIn(results, r) || x.reply == r
  {
    if ReplyIn(results, r) {
      var i :| 0 <= i < |results| && results[i].reply == r;
      assert (results + [x])[i] == results[i];
    }
    if x.reply == r {
      assert (results + [x])[|results|] == x;
    }
  }

  lemma ReplyFirst(results: seq<Res>, r: Reply)
    requires results != []
    ensures ReplyIn(results, r) <==> results[0].reply == r || ReplyIn(results[1..], r)
  {
    if ReplyIn(results[1..], r) {
      var i :| 0 <= i < |results[1..]| && results[1..][i].reply == r;
      assert results[i + 1] == results[1..][i];
    }
    if ReplyIn(results, r) {
      var i :| 0 <= i < |results| && results[i].reply == r;
      assert i > 0 ==> results[1..][i - 1] == results[i];
    }
  }

  lemma WorkerSwap(workers: seq<Worker>, w: nat, x: Worker, r: Reply)
    requires w < |workers|
    ensures WithWorker(workers[w := x], r) || (workers[w].Reporting? && workers[w].res.reply == r) <==>
            WithWorker(workers, r) || (x.Reporting? && x.res.reply == r)
  {
    var after := workers[w := x];
    if WithWorker(after, r) {
      var v :| 0 <= v < |after| && after[v].Reporting? && after[v].res.reply == r;
      assert v == w || workers[v] == after[v];
    }
    if WithWorker(workers, r) {
      var v :| 0 <= v < |workers| && workers[v].Reporting? && workers[v].res.reply == r;
      assert v == w || workers[v] == after[v];
    }
    if x.Reporting? && x.res.reply == r {
      assert after[w] == x;
    }
  }

  lemma RepliedSnoc(steps: seq<Step>, s: Step, r: Reply)
    ensures Replied(steps + [s], r) <==> Replied(steps, r) || (s.Store? && s.reply == r)
  {
    assert forall x :: x in steps + [s] <==> x in steps || x == s;
    if s.Store? && s.reply == r {
      assert Store(s.w, r) in steps + [s];
    }
    if Replied(steps, r) {
      var w :| Store(w, r) in steps;
      assert Store(w, r) in steps + [s];
    }
  }

  /** One step moves a reply on, and only Store brings a new one. */
  lemma WorkerMoves(in_: Input, p: Pipe, s: Step, r: Reply)
    requires WorkerStep(s) && WorkerCan(in_, p, s)
    ensures Somewhere(WorkerDoes(in_, p, s), r) <==> Somewhere(p, r) || (s.Store? && s.reply == r)
  {
    WorkerSwap(p.crew.workers, s.w, WorkerAfter(p, s), r);
    if s.Report? {
      ReplySnoc(p.crew.results, p.crew.workers[s.w].res, r);
    }
    hide WithWorker, ReplyIn;
  }

  lemma CollectorMoves(p: Pipe, s: Step, r: Reply)
    requires !ProducerStep(s) && !WorkerStep(s) && CollectorCan(p, s)
    ensures Somewhere(CollectorDoes(p, s), r) <==> Somewhere(p, r)
  {
    if s.Receive? {
      ReplyFirst(p.crew.results, r);
      ReplySnoc(p.sink.log, p.crew.results[0], r);
    }
    hide WithWorker, ReplyIn, RefsOf, TotalOf, NewChunks, AnyBroke, Placed;
  }

  lemma StepReplies(in_: Input, p: Pipe, steps: seq<Step>, s: Step)
    requires RepliesKept(p, steps) && Can(in_, p, s)
    ensures RepliesKept(Does(in_, p, s), steps + [s])
  {
    hide Somewhere, Replied, WorkerCan, WorkerDoes, CollectorCan, CollectorDoes, ProducerCan;
    forall r ensures Somewhere(Does(in_, p, s), r) <==> Replied(steps + [s], r) {
      assert Somewhere(p, r) <==> Replied(steps, r);
      RepliedSnoc(steps, s, r);
      if ProducerStep(s) {
        ProducerMoves(in_, p, s, r);
      } else if WorkerStep(s) {
        WorkerMoves(in_, p, s, r);
      } else {
        CollectorMoves(p, s, r);
      }
    }
  }

  lemma ProducerMoves(in_: Input, p: Pipe, s: Step, r: Reply)
    requires ProducerStep(s) && ProducerCan(in_, p, s)
    ensures Somewhere(ProducerDoes(in_, p, s), r) <==> Somewhere(p, r)
  {
  }

  lemma NoReplies()
    ensures RepliesKept(Begin, [])
  {
    forall r ensures !Somewhere(Begin, r) && !Replied([], r) {
      assert !WithWorker(Begin.crew.workers, r);
    }
  }

  lemma {:induction false} EveryRunReplies(in_: Input, steps: seq<Step>)
    requires Run(in_, steps).Some?
    ensures RepliesKept(Run(in_, steps).value, steps)
    decreases |steps|
  {
    hide Can, Does, RepliesKept;
    if steps == [] {
      NoReplies();
    } else {
      var before, s := steps[..|steps| - 1], steps[|steps| - 1];
      assert steps == before + [s];
      EveryRunReplies(in_, before);
      StepReplies(in_, Run(in_, before).value, before, s);
    }
  }

  /** The list of new chunks is that of the replies which say the row was inserted by this upload. */
  lemma {:induction false} NewChunksAre(log: seq<Res>, id: int)
    ensures id in NewChunks(log) <==> ReplyIn(log, Kept(id, false))
    decreases |log|
  {
    if log != [] {
      var before, last := log[..|log| - 1], log[|log| - 1];
      assert log == before + [last];
      NewChunksAre(before, id);
      ReplySnoc(before, last, Kept(id, false));
    }
  }

  /** A failed upload removes exactly the chunk rows that the store has said it inserted for it. */
  lemma FailureRemoves(in_: Input, steps: seq<Step>, id: int)
    requires Run(in_, steps).Some? && Run(in_, steps).value.sink.collector == Returned(false)
    ensures id in Run(in_, steps).value.sink.cleaned <==> exists w :: Store(w, Kept(id, false)) in steps
  {
    EveryRunInv(in_, steps);
    EveryRunReplies(in_, steps);
    var p := Run(in_, steps).value;
    var r := Kept(id, false);
    hide Run;
    assert OutcomeOk(p.sink) && ClosedOk(p);
    NewChunksAre(p.sink.log, id);
    NobodyReports(p, r);
    assert Somewhere(p, r) <==> Replied(steps, r);
    hide *;
    ReportedIff(steps, r);
  }

  lemma NobodyReports(p: Pipe, r: Reply)
    requires ClosedOk(p) && !p.sink.collector.Collecting?
    ensures Somewhere(p, r) <==> ReplyIn(p.sink.log, r)
  {
  }

  lemma ReportedIff(steps: seq<Step>, r: Reply)
    ensures Replied(steps, r) <==> exists w :: Store(w, r) in steps
  {
  }

  // --------------------------------------------------------------------- failing

  /** The caller gave up, the source or the store failed, or the row was refused. */
  ghost predicate Cause(steps: seq<Step>) {
    || Cancel in steps || CheckParent(false) in steps || Upsert(false) in steps
    || (exists w :: Store(w, Broke) in steps)
    || (exists d :: ReadChunk(Torn(d)) in steps)
  }

  ghost predicate InTrouble(p: Pipe) {
    || p.feed.err || p.sig.halted || p.sig.cancelled
    || (p.feed.producer.Sending? && p.feed.producer.after.Fault?)
    || (exists w :: 0 <= w < |p.crew.workers| && (p.crew.workers[w].ClosingSource? || p.crew.workers[w].Cancelling?))
    || p.sink.collector == Deciding(true) || p.sink.collector.Cleaning? || p.sink.collector == Returned(false)
  }

  lemma CauseStays(steps: seq<Step>, s: Step)
    requires Cause(steps)
    ensures Cause(steps + [s])
  {
    assert forall x | x in steps :: x in steps + [s];
    if w :| Store(w, Broke) in steps {
      assert Store(w, Broke) in steps + [s];
    }
    if d :| ReadChunk(Torn(d)) in steps {
      assert ReadChunk(Torn(d)) in steps + [s];
    }
  }

  lemma NewCause(steps: seq<Step>, s: Step)
    requires s.Cancel? || s == CheckParent(false) || s == Upsert(false) || (s.Store? && s.reply.Broke?)
      || (s.ReadChunk? && s.read.Torn?)
    ensures Cause(steps + [s])
  {
    assert s in steps + [s];
    if s.Store? {
      assert Store(s.w, Broke) in steps + [s];
    }
    if s.ReadChunk? {
      assert ReadChunk(Torn(s.read.data)) in steps + [s];
    }
  }

  lemma BrokeIsCause(p: Pipe, steps: seq<Step>)
    requires RepliesKept(p, steps) && Somewhere(p, Broke)
    ensures Cause(steps)
  {
    assert Replied(steps, Broke);
    var w :| Store(w, Broke) in steps;
  }

  /** Trouble comes from earlier trouble, from a failed reply, or from a step that is itself a cause. */
  lemma ProducerTrouble(in_: Input, p: Pipe, s: Step)
    requires ProducerStep(s) && ProducerCan(in_, p, s) && InTrouble(ProducerDoes(in_, p, s))
    ensures InTrouble(p) || (s.ReadChunk? && s.read.Torn?)
  {
  }

  lemma WorkerTrouble(in_: Input, p: Pipe, s: Step)
    requires WorkerStep(s) && WorkerCan(in_, p, s) && InTrouble(WorkerDoes(in_, p, s))
    ensures InTrouble(p) || Somewhere(p, Broke)
  {
    var v := WorkerDoes(in_, p, s);
    var x := WorkerAfter(p, s);
    if w :| 0 <= w < |v.crew.workers| && (v.crew.workers[w].ClosingSource? || v.crew.workers[w].Cancelling?) {
      assert w == s.w || v.crew.workers[w] == p.crew.workers[w];
    }
    if x.ClosingSource? {
      assert p.crew.workers[s.w].res.reply == Broke;
      assert WithWorker(p.crew.workers, Broke);
    }
  }

  lemma CollectorTrouble(p: Pipe, s: Step)
    requires !ProducerStep(s) && !WorkerStep(s) && CollectorCan(p, s) && InTrouble(CollectorDoes(p, s))
    ensures InTrouble(p) || Somewhere(p, Broke) || s.Cancel? || s == CheckParent(false) || s == Upsert(false)
  {
    hide RefsOf, TotalOf, NewChunks, Placed;
  }

  lemma StepCause(in_: Input, p: Pipe, steps: seq<Step>, s: Step)
    requires RepliesKept(p, steps) && Can(in_, p, s) && (InTrouble(p) ==> Cause(steps))
    ensures InTrouble(Does(in_, p, s)) ==> Cause(steps + [s])
  {
    if InTrouble(Does(in_, p, s)) {
      if ProducerStep(s) {
        ProducerTrouble(in_, p, s);
      } else if WorkerStep(s) {
        WorkerTrouble(in_, p, s);
      } else {
        CollectorTrouble(p, s);
      }
      hide *;
      if InTrouble(p) {
        CauseStays(steps, s);
      } else if Somewhere(p, Broke) {
        BrokeIsCause(p, steps);
        CauseStays(steps, s);
      } else {
        NewCause(steps, s);
      }
    }
  }

  lemma {:induction false} EveryRunCause(in_: Input, steps: seq<Step>)
    requires Run(in_, steps).Some? && InTrouble(Run(in_, steps).value)
    ensures Cause(steps)
    decreases |steps|
  {
    hide Can, Does, InTrouble, RepliesKept, Cause;
    if steps == [] {
      NoTrouble();
    } else {
      var before, s := steps[..|steps| - 1], steps[|steps| - 1];
      assert steps == before + [s];
      var p := Run(in_, before).value;
      if InTrouble(p) {
        EveryRunCause(in_, before);
      }
      EveryRunReplies(in_, before);
      StepCause(in_, p, before, s);
    }
  }

  lemma NoTrouble()
    ensures !InTrouble(Begin)
  {
  }

  /** An upload fails only for a cause: cancellation, a torn source, a failed store, a refused parent or row. */
  lemma FailureHasCause(in_: Input, steps: seq<Step>)
    requires Run(in_, steps).Some? && Run(in_, steps).value.sink.collector == Returned(false)
    ensures Cause(steps)
  {
    assert InTrouble(Run(in_, steps).value);
    EveryRunCause(in_, steps);
  }
}
