/**
 The streaming upload of PutFileContext (internal/core/repo/repo.go): one producer cutting the
 source into chunks, four workers storing them, a collector putting the results back in order,
 two bounded channels, an error channel, a cancellation context and the process-wide limiter
 (internal/core/repo/inflight.go). A run is any interleaving of their steps.
 */
module PutPipeline {
  import opened Sequences
  import opened Manifest

  const WORKERS: nat := 4
  const QUEUE: nat := 4

  datatype Job = Job(idx: nat, data: bytes, token: nat)

  datatype Reply = Kept(id: int, reused: bool) | Broke

  datatype Res = Res(idx: nat, size: nat, reply: Reply)

  /** What the producer does after handing over a chunk. */
  datatype After = More | Eof | Fault

  /**
   io.ReadFull: a full chunk, a short one at the end of the source or after it was closed, a short one
   because the source itself failed with io.ErrUnexpectedEOF, or a short one and another error. The
   producer cannot tell the second from the first and ends as at the end of the source.
   */
  datatype Read = Whole(data: bytes) | Short(data: bytes) | Cut(data: bytes) | Torn(data: bytes)

  datatype Producer =
    | Acquiring
    | Reading(token: nat)
    | Sending(job: Job, after: After)
    | ClosingErrs
    | ClosingJobs
    | Finished

  datatype Worker =
    | Idle
    | Storing(job: Job)
    | Reporting(res: Res)
    | ClosingSource
    | Cancelling
    | Exited

  datatype Collector =
    | Collecting
    | AwaitErr
    | Deciding(failed: bool)
    | WantWrite
    | Rechecking
    | Upserting
    | Cleaning
    | Returned(ok: bool)

  datatype FilePut = FilePut(refs: seq<ChunkRef>, size: int)

  /** Source, chunk size, and the content behind every chunk id the store hands out. */
  datatype Input = Input(source: bytes, chunk: nat, content: map<int, bytes>)

  /**
   The producer's side: read position, chunks handed over, limiter slots taken and given back, errCh,
   and whether a read was cut off.
   */
  datatype Feed = Feed(
    pos: nat,
    pieces: seq<bytes>,
    producer: Producer,
    acquired: nat,
    released: seq<nat>,
    err: bool,
    errsClosed: bool,
    cut: bool)

  /** jobCh. */
  datatype Queue = Queue(jobs: seq<Job>, jobsClosed: bool)

  /** The workers and resCh. */
  datatype Crew = Crew(workers: seq<Worker>, results: seq<Res>, resultsClosed: bool)

  /** ctx and workCtx cancelled; source closed. */
  datatype Signals = Signals(cancelled: bool, halted: bool, sourceClosed: bool)

  /** The collecting goroutine: results received, chunk rows cleaned up, the file row written. */
  datatype Sink = Sink(collector: Collector, log: seq<Res>, cleaned: seq<int>, put: Option<FilePut>)

  datatype Pipe = Pipe(feed: Feed, queue: Queue, crew: Crew, sig: Signals, sink: Sink)

  const Begin := Pipe(Feed(0, [], Acquiring, 0, [], false, false, false),
                      Queue([], false),
                      Crew([Idle, Idle, Idle, Idle], [], false),
                      Signals(false, false, false),
                      Sink(Collecting, [], [], None))

  datatype Step =
    | Acquire
    | AcquireFails
    | ReadChunk(read: Read)
    | Send
    | GiveUp
    | CloseErrs
    | CloseJobs
    | Take(w: nat)
    | Store(w: nat, reply: Reply)
    | Report(w: nat)
    | CloseSource(w: nat)
    | CancelWork(w: nat)
    | Exit(w: nat)
    | CloseResults
    | Cancel
    | WatchClose
    | Receive
    | Drained
    | TakeErr
    | Decide
    | Recheck
    | CheckParent(ok: bool)
    | Upsert(ok: bool)
    | Clean
    | Return

  // ------------------------------------------------------------------- helpers

  /** workCtx is done: the caller cancelled, or a worker did. */
  ghost predicate Stopped(sig: Signals) {
    sig.cancelled || sig.halted
  }

  ghost predicate Reads(in_: Input, pos: nat, sourceClosed: bool, r: Read) {
    && pos + |r.data| <= |in_.source|
    && r.data == in_.source[pos..pos + |r.data|]
    && match r
       case Whole(d) => |d| == in_.chunk
       case Short(d) => |d| < in_.chunk && (sourceClosed || pos + |d| == |in_.source|)
       case Cut(d) => |d| < in_.chunk
       case Torn(d) => |d| < in_.chunk
  }

  ghost function AfterOf(r: Read): After {
    match r
    case Whole(_) => More
    case Short(_) => Eof
    case Cut(_) => Eof
    case Torn(_) => Fault
  }

  /** The collector's three accumulators, as functions of the results received. */
  ghost function RefsOf(log: seq<Res>): map<nat, int> {
    if log == [] then map[]
    else
      var last := log[|log| - 1];
      var before := RefsOf(log[..|log| - 1]);
      if last.reply.Kept? then before[last.idx := last.reply.id] else before
  }

  ghost function TotalOf(log: seq<Res>): nat {
    if log == [] then 0
    else
      var last := log[|log| - 1];
      TotalOf(log[..|log| - 1]) + if last.reply.Kept? then last.size else 0
  }

  ghost function NewChunks(log: seq<Res>): seq<int> {
    if log == [] then []
    else
      var last := log[|log| - 1];
      NewChunks(log[..|log| - 1]) + if last.reply.Kept? && !last.reply.reused then [last.reply.id] else []
  }

  ghost predicate AnyBroke(log: seq<Res>) {
    exists i | 0 <= i < |log| :: log[i].reply.Broke?
  }

  /** The slots of refsByIdx as a slice: index order, one entry per map entry. */
  ghost predicate Placed(refs: map<nat, int>) {
    forall i: nat :: i in refs <==> i < |refs|
  }

  ghost function Slots(refs: map<nat, int>): seq<ChunkRef>
    requires Placed(refs)
  {
    seq(|refs|, i requires 0 <= i < |refs| => ChunkRef(refs[i], i))
  }

  // --------------------------------------------------------------------- steps

  ghost predicate ProducerStep(s: Step) {
    s.Acquire? || s.AcquireFails? || s.ReadChunk? || s.Send? || s.GiveUp? || s.CloseErrs? || s.CloseJobs?
  }

  ghost predicate WorkerStep(s: Step) {
    s.Take? || s.Store? || s.Report? || s.CloseSource? || s.CancelWork? || s.Exit?
  }

  ghost predicate ProducerCan(in_: Input, p: Pipe, s: Step)
    requires ProducerStep(s)
  {
    match s
    case Acquire => p.feed.producer.Acquiring?
    case AcquireFails => p.feed.producer.Acquiring? && Stopped(p.sig)
    case ReadChunk(r) => p.feed.producer.Reading? && Reads(in_, p.feed.pos, p.sig.sourceClosed, r)
    case Send => p.feed.producer.Sending? && |p.queue.jobs| < QUEUE
    case GiveUp => p.feed.producer.Sending? && Stopped(p.sig)
    case CloseErrs => p.feed.producer.ClosingErrs?
    case CloseJobs => p.feed.producer.ClosingJobs?
  }

  /** Where the producer goes when it has handed over a chunk or found none. */
  ghost function Onward(f: Feed, after: After): Feed {
    f.(producer := if after.More? then Acquiring else ClosingErrs, err := f.err || after.Fault?)
  }

  ghost function FeedDoes(f: Feed, s: Step): Feed
    requires ProducerStep(s)
    requires s.ReadChunk? ==> f.producer.Reading?
    requires s.Send? || s.GiveUp? ==> f.producer.Sending?
  {
    match s
    case Acquire => f.(producer := Reading(f.acquired), acquired := f.acquired + 1)
    case AcquireFails => f.(producer := ClosingErrs, err := true)
    case ReadChunk(r) =>
      var g := f.(cut := f.cut || r.Cut?);
      if |r.data| > 0
      then g.(pos := f.pos + |r.data|, producer := Sending(Job(|f.pieces|, r.data, f.producer.token), AfterOf(r)))
      else Onward(g.(released := f.released + [f.producer.token]), AfterOf(r))
    case Send => Onward(f.(pieces := f.pieces + [f.producer.job.data]), f.producer.after)
    case GiveUp => f.(producer := ClosingErrs, released := f.released + [f.producer.job.token])
    case CloseErrs => f.(producer := ClosingJobs, errsClosed := true)
    case CloseJobs => f.(producer := Finished)
  }

  ghost function ProducerDoes(in_: Input, p: Pipe, s: Step): Pipe
    requires ProducerStep(s) && ProducerCan(in_, p, s)
  {
    var q := p.queue;
    p.(feed := FeedDoes(p.feed, s),
       queue := if s.Send? then q.(jobs := q.jobs + [p.feed.producer.job])
                else if s.CloseJobs? then q.(jobsClosed := true)
                else q)
  }

  ghost predicate WorkerCan(in_: Input, p: Pipe, s: Step)
    requires WorkerStep(s)
  {
    s.w < |p.crew.workers| &&
    var me := p.crew.workers[s.w];
    match s
    case Take(_) => me.Idle? && p.queue.jobs != []
    case Store(_, reply) =>
      me.Storing? && (reply.Kept? ==> reply.id in in_.content && in_.content[reply.id] == me.job.data)
    case Report(_) => me.Reporting? && |p.crew.results| < QUEUE
    case CloseSource(_) => me.ClosingSource?
    case CancelWork(_) => me.Cancelling?
    case Exit(_) => me.Idle? && p.queue.jobs == [] && p.queue.jobsClosed
  }

  /** What the worker becomes. */
  ghost function WorkerAfter(p: Pipe, s: Step): Worker
    requires WorkerStep(s) && s.w < |p.crew.workers|
    requires s.Take? ==> p.queue.jobs != []
    requires s.Store? ==> p.crew.workers[s.w].Storing?
    requires s.Report? ==> p.crew.workers[s.w].Reporting?
  {
    var me := p.crew.workers[s.w];
    match s
    case Take(_) => Storing(p.queue.jobs[0])
    case Store(_, reply) => Reporting(Res(me.job.idx, |me.job.data|, reply))
    case Report(_) => if me.res.reply.Broke? then ClosingSource else Idle
    case CloseSource(_) => Cancelling
    case CancelWork(_) => Idle
    case Exit(_) => Exited
  }

  ghost function WorkerDoes(in_: Input, p: Pipe, s: Step): Pipe
    requires WorkerStep(s) && WorkerCan(in_, p, s)
  {
    var me := p.crew.workers[s.w];
    var crew := p.crew.(workers := p.crew.workers[s.w := WorkerAfter(p, s)]);
    match s
    case Take(_) => p.(crew := crew, queue := p.queue.(jobs := p.queue.jobs[1..]))
    case Store(_, _) => p.(crew := crew, feed := p.feed.(released := p.feed.released + [me.job.token]))
    case Report(_) => p.(crew := crew.(results := p.crew.results + [me.res]))
    case CloseSource(_) => p.(crew := crew, sig := p.sig.(sourceClosed := true))
    case CancelWork(_) => p.(crew := crew, sig := p.sig.(halted := true))
    case Exit(_) => p.(crew := crew)
  }

  ghost predicate AllExited(workers: seq<Worker>) {
    forall w | 0 <= w < |workers| :: workers[w].Exited?
  }

  ghost predicate CollectorCan(p: Pipe, s: Step)
    requires !ProducerStep(s) && !WorkerStep(s)
  {
    var c := p.sink.collector;
    match s
    case CloseResults => AllExited(p.crew.workers) && !p.crew.resultsClosed
    case Cancel => !p.sig.cancelled
    case WatchClose => p.sig.cancelled && !p.sig.sourceClosed
    case Receive => c.Collecting? && p.crew.results != []
    case Drained => c.Collecting? && p.crew.results == [] && p.crew.resultsClosed
    case TakeErr => c.AwaitErr? && (p.feed.err || p.feed.errsClosed)
    case Decide => c.Deciding?
    case Recheck => c.WantWrite?
    case CheckParent(_) => c.Rechecking?
    case Upsert(ok) => c.Upserting? && (ok ==> Placed(RefsOf(p.sink.log)))
    case Clean => c.Cleaning? && |p.sink.cleaned| < |NewChunks(p.sink.log)|
    case Return => c.Cleaning? && |p.sink.cleaned| >= |NewChunks(p.sink.log)|
  }

  ghost function CollectorDoes(p: Pipe, s: Step): Pipe
    requires !ProducerStep(s) && !WorkerStep(s) && CollectorCan(p, s)
  {
    var k := p.sink;
    match s
    case CloseResults => p.(crew := p.crew.(resultsClosed := true))
    case Cancel => p.(sig := p.sig.(cancelled := true))
    case WatchClose => p.(sig := p.sig.(sourceClosed := true))
    case Receive =>
      p.(sink := k.(log := k.log + [p.crew.results[0]]), crew := p.crew.(results := p.crew.results[1..]))
    case Drained => p.(sink := k.(collector := AwaitErr))
    case TakeErr => p.(sink := k.(collector := Deciding(AnyBroke(k.log) || p.feed.err)))
    case Decide => p.(sink := k.(collector := if k.collector.failed || p.sig.cancelled then Cleaning else WantWrite))
    case Recheck => p.(sink := k.(collector := if p.sig.cancelled then Cleaning else Rechecking))
    case CheckParent(ok) => p.(sink := k.(collector := if ok then Upserting else Cleaning))
    case Upsert(ok) =>
      p.(sink := if ok then k.(collector := Returned(true), put := Some(FilePut(Slots(RefsOf(k.log)), TotalOf(k.log))))
                 else k.(collector := Cleaning))
    case Clean => p.(sink := k.(cleaned := k.cleaned + [NewChunks(k.log)[|k.cleaned|]]))
    case Return => p.(sink := k.(collector := Returned(false)))
  }

  ghost predicate Can(in_: Input, p: Pipe, s: Step) {
    if ProducerStep(s) then ProducerCan(in_, p, s)
    else if WorkerStep(s) then WorkerCan(in_, p, s)
    else CollectorCan(p, s)
  }

  ghost function Does(in_: Input, p: Pipe, s: Step): Pipe
    requires Can(in_, p, s)
  {
    if ProducerStep(s) then ProducerDoes(in_, p, s)
    else if WorkerStep(s) then WorkerDoes(in_, p, s)
    else CollectorDoes(p, s)
  }

  ghost function Run(in_: Input, steps: seq<Step>): Option<Pipe>
    decreases |steps|
  {
    if steps == [] then Some(Begin)
    else
      match Run(in_, steps[..|steps| - 1])
      case None => None
      case Some(p) => if Can(in_, p, steps[|steps| - 1]) then Some(Does(in_, p, steps[|steps| - 1])) else None
  }

  // -------------------------------------------------------------------- counting

  /** How many elements of `s` have key `k`. */
  ghost function Count<T>(s: seq<T>, key: T -> int, k: nat): nat {
    if s == [] then 0 else Hit(key(s[0]), k) + Count(s[1..], key, k)
  }

  ghost function Hit(a: int, k: nat): nat {
    if a == k then 1 else 0
  }

  lemma {:induction false} CountAppend<T>(a: seq<T>, x: T, key: T -> int, k: nat)
    ensures Count(a + [x], key, k) == Count(a, key, k) + Hit(key(x), k)
    decreases |a|
  {
    if a == [] {
      assert (a + [x])[1..] == [];
    } else {
      CountAppend(a[1..], x, key, k);
      assert (a + [x])[1..] == a[1..] + [x];
    }
  }

  lemma {:induction false} CountUpdate<T>(s: seq<T>, i: nat, x: T, key: T -> int, k: nat)
    requires i < |s|
    ensures Count(s[i := x], key, k) + Hit(key(s[i]), k) == Count(s, key, k) + Hit(key(x), k)
    decreases i
  {
    var t := s[i := x];
    if i == 0 {
      assert t[1..] == s[1..];
    } else {
      CountUpdate(s[1..], i - 1, x, key, k);
      assert t[1..] == s[1..][i - 1 := x];
    }
  }

  ghost function JobIdx(j: Job): int { j.idx }

  ghost function JobToken(j: Job): int { j.token }

  ghost function ResIdx(r: Res): int { r.idx }

  ghost function WorkerIdx(w: Worker): int {
    if w.Storing? then w.job.idx else if w.Reporting? then w.res.idx else -1
  }

  ghost function WorkerToken(w: Worker): int {
    if w.Storing? then w.job.token else -1
  }

  ghost function ProducerToken(pr: Producer): int {
    if pr.Reading? then pr.token else if pr.Sending? then pr.job.token else -1
  }

  ghost function Self(k: nat): int { k }

  /** In how many places chunk `k` of the file is: queue, worker, result channel, collector. */
  ghost function Places(p: Pipe, k: nat): nat {
    Count(p.queue.jobs, JobIdx, k) + Count(p.crew.workers, WorkerIdx, k)
    + Count(p.crew.results, ResIdx, k) + Count(p.sink.log, ResIdx, k)
  }

  /** How many times this upload holds limiter slot `k`. */
  ghost function Holding(p: Pipe, k: nat): nat {
    Hit(ProducerToken(p.feed.producer), k) + Count(p.queue.jobs, JobToken, k) + Count(p.crew.workers, WorkerToken, k)
  }

  /** Every chunk handed over is in exactly one place. */
  ghost predicate EachOnce(p: Pipe) {
    forall k: nat :: Places(p, k) == if k < |p.feed.pieces| then 1 else 0
  }

  /** Every slot acquired is held in exactly one place or has been released exactly once. */
  ghost predicate SlotsOnce(p: Pipe) {
    forall k: nat :: Holding(p, k) + Count(p.feed.released, Self, k) == if k < p.feed.acquired then 1 else 0
  }
}
