/**
 Uploads and path edits inside runs of the store: the hypotheses of StoreValidity about sizes and
 layout, and of PutOutcome about ids and their content, follow from what PutFile and MovePath do.
 */
module StorePut {
  import opened Sequences
  import opened Manifest
  import opened ManifestInvariants
  import opened Snapshot
  import opened StoreModel
  import opened StoreSafety
  import opened StoreValidity
  import opened StoreContent
  import PutPipeline
  import PutOutcome
  import Receiver
  import Tokens

  // --------------------------------------------------------------- a file commit

  /** The rows a writer references, when they are its own, have the hashes and sizes of its pieces. */
  lemma OwnRows(w: World, op: Op)
    requires Safe(w) && op.Writer? && AllGot(op) && RowsAreItsOwn(w.db.chunks, op)
    ensures var refs := RefsGot(op);
      && |refs| == |op.pieces| && Ordered(refs) && AllPresent(w.db.chunks, refs)
      && forall i | 0 <= i < |refs| ::
           var c := w.db.chunks[refs[i].chunkId]; c.hash == Sha256(op.pieces[i]) && c.size == |op.pieces[i]|
  {
    assert RowsBacked(w.db.chunks, w.blobs);
    hide Safe, Consistent;
    forall i: nat | i < |op.pieces| ensures w.db.chunks[op.got[i]].size == |op.pieces[i]| {
      var id := op.got[i];
      BackedRow(w, id);
    }
  }

  lemma BackedRow(w: World, id: int)
    requires RowsBacked(w.db.chunks, w.blobs) && id in w.db.chunks
    ensures w.db.chunks[id].size == |w.db.chunks[id].hash.preimage|
  {
    assert Backed(w.db.chunks[id], w.blobs);
  }

  /** A row of the total size over such references, in the regular layout if the pieces are. */
  lemma OwnCommit(chunks: Chunks, refs: seq<ChunkRef>, pieces: seq<bytes>, n: nat)
    requires |refs| == |pieces| && Ordered(refs) && AllPresent(chunks, refs)
    requires forall i | 0 <= i < |refs| ::
      var c := chunks[refs[i].chunkId]; c.hash == Sha256(pieces[i]) && c.size == |pieces[i]|
    ensures RefSizes(chunks, refs) == |Flatten(pieces)|
    ensures Contiguous(RefMap(refs)) && Pieces(chunks, Ids(RefMap(refs))) == pieces
  {
    RefSizesAdd(chunks, refs, pieces, |refs|);
    assert refs[..|refs|] == refs && pieces[..|refs|] == pieces;
    RefMapContiguous(refs);
    assert Pieces(chunks, Ids(RefMap(refs))) == pieces;
  }

  /** The row of a file whose writer counted the bytes it stored and cut them at n. */
  ghost predicate CountedRow(row: FileRow, op: Op, n: nat)
    requires op.Writer?
  {
    row.isDir || row.isSymlink || (row.size == |Flatten(op.pieces)| && Regular(op.pieces, n))
  }

  lemma CountedCommit(w: World, lim: Limits, t: Tid, row: FileRow, fid: int, n: nat)
    requires Safe(w) && WriterEnabled(w, lim, Commit(t, row, fid))
    requires RowsAreItsOwn(w.db.chunks, w.ops[t]) && CountedRow(row, w.ops[t], n)
    ensures HonestStep(w, lim, Commit(t, row, fid)) && RegularStep(n, w, lim, Commit(t, row, fid))
  {
    CommitAllowed(w, lim, t, row, fid);
    OwnRows(w, w.ops[t]);
    OwnCommit(w.db.chunks, RefsGot(w.ops[t]), w.ops[t].pieces, n);
    hide Safe, WriterEnabled, AllGot, RefsGot, Upsert, RowsAreItsOwn, RefSizes, Pieces, Ids, Regular, RefMap, Flatten;
  }

  // ------------------------------------------------------------------ a path edit

  /** The row is written with the kind, size and references of a row that is there: a move. */
  ghost predicate CarriesOver(t: Tables, row: FileRow, refs: seq<ChunkRef>) {
    UniquePaths(t.files) && Holds(View(t), Entry(row, RefMap(refs)))
  }

  lemma CarriedEdit(w: World, lim: Limits, t: Tid, row: FileRow, refs: seq<ChunkRef>, fid: int, n: nat)
    requires Safe(w) && WriterEnabled(w, lim, EditRow(t, row, refs, fid))
    requires CarriesOver(w.db, row, refs) && ValidSnapshot(w.db) && AllLaidOut(n, w.db)
    ensures HonestStep(w, lim, EditRow(t, row, refs, fid)) && RegularStep(n, w, lim, EditRow(t, row, refs, fid))
  {
    EditAllowed(w, lim, t, row, refs, fid);
    hide Safe, WriterEnabled, ValidSnapshot, AllLaidOut, CarriesOver, Upsert, RefSizes, LaidOut, RefMap, Ordered,
      UniqueHashes;
    CarriedRow(w.db, row, refs, n);
  }

  lemma EditAllowed(w: World, lim: Limits, t: Tid, row: FileRow, refs: seq<ChunkRef>, fid: int)
    requires Safe(w) && WriterEnabled(w, lim, EditRow(t, row, refs, fid))
    ensures UniqueHashes(w.db.chunks) && Ordered(refs)
  {
  }

  lemma CarriedRow(t: Tables, row: FileRow, refs: seq<ChunkRef>, n: nat)
    requires CarriesOver(t, row, refs) && ValidSnapshot(t) && UniqueHashes(t.chunks) && AllLaidOut(n, t)
      && Ordered(refs)
    ensures row.isDir || row.isSymlink || row.size == RefSizes(t.chunks, refs)
    ensures LaidOut(n, t.chunks, Entry(row, RefMap(refs)))
  {
    ValidIffConsistent(t);
    SizeCheckIsView(t);
    var e := Entry(row, RefMap(refs));
    hide Consistent, ValidSnapshot, View, SizeCheck, LaidOut, RefMap, RefSeq, RefSizes, NamesOnly, Sized, SameFile;
    var p :| p in View(t) && SameFile(View(t)[p], e);
    CarriedEntry(t.chunks, View(t)[p], e, n);
    SizedRow(t.chunks, row, refs);
  }

  lemma SizedRow(chunks: Chunks, row: FileRow, refs: seq<ChunkRef>)
    requires Ordered(refs) && Sized(chunks, Entry(row, RefMap(refs)))
    ensures row.isDir || row.isSymlink || row.size == RefSizes(chunks, refs)
  {
    RefSeqOf(refs);
  }

  lemma CarriedEntry(chunks: Chunks, e: Entry, f: Entry, n: nat)
    requires NamesOnly(e.refs, chunks) && SameFile(e, f) && Sized(chunks, e) && LaidOut(n, chunks, e)
    ensures Sized(chunks, f) && LaidOut(n, chunks, f)
  {
  }

  // -------------------------------------------------------------------- whole runs

  /**
   Every row written is a directory or a link, is a file whose writer counted and cut what it stored
   and still holds its own ids, or carries an existing row over.
   */
  ghost predicate FaithfulStep(n: nat, w: World, lim: Limits, a: Action) {
    Commits(w, lim, a) && !a.row.isDir && !a.row.isSymlink ==>
      if a.Commit? then CountedRow(a.row, w.ops[a.t], n) && HoldsItsOwn(w.issued, w.ops[a.t])
      else CarriesOver(w.db, a.row, a.refs)
  }

  ghost predicate FaithfulRun(n: nat, lim: Limits, run: seq<Action>)
    requires Execute(lim, run).Some?
    decreases |run|
  {
    run != [] ==>
      FaithfulRun(n, lim, run[..|run| - 1])
        && FaithfulStep(n, Execute(lim, run[..|run| - 1]).value, lim, run[|run| - 1])
  }

  lemma FaithfulCommit(n: nat, w: World, lim: Limits, a: Action)
    requires Safe(w) && RowsIssued(w.db.chunks, w.issued)
    requires Commits(w, lim, a) && a.Commit? && FaithfulStep(n, w, lim, a) && !a.row.isDir && !a.row.isSymlink
    ensures HonestStep(w, lim, a) && RegularStep(n, w, lim, a)
  {
    assert Consistent(w.db);
    CommitAllowed(w, lim, a.t, a.row, a.fid);
    hide Safe, RowsIssued, WriterEnabled, HonestStep, RegularStep, AllGot, RefsGot, Upsert, DeleteRows, HoldsItsOwn,
      RowsAreItsOwn, CountedRow, Consistent;
    UpsertCommits(w.db, a.row, RefsGot(w.ops[a.t]), a.fid);
    HeldRows(w, w.ops[a.t]);
    CountedCommit(w, lim, a.t, a.row, a.fid, n);
  }

  lemma FaithfulIsHonest(n: nat, w: World, lim: Limits, a: Action)
    requires Safe(w) && RowsIssued(w.db.chunks, w.issued) && FaithfulStep(n, w, lim, a)
    requires ValidSnapshot(w.db) && AllLaidOut(n, w.db)
    ensures HonestStep(w, lim, a) && RegularStep(n, w, lim, a)
  {
    hide Safe, RowsIssued, ValidSnapshot, AllLaidOut, WriterEnabled, Upsert, WrittenRefs, CarriesOver, RefSizes,
      CountedRow, HoldsItsOwn;
    if Commits(w, lim, a) && !a.row.isDir && !a.row.isSymlink {
      if a.Commit? {
        FaithfulCommit(n, w, lim, a);
      } else {
        CarriedEdit(w, lim, a.t, a.row, a.refs, a.fid, n);
      }
    }
  }

  /**
   In every run of uploads that count what they store, and of moves, deletions, clean-ups, GC and
   backups around them, the manifest passes ValidateSnapshot and every file is cut at n.
   */
  lemma {:induction false} FaithfulRunSound(n: nat, lim: Limits, run: seq<Action>)
    requires Execute(lim, run).Some? && FaithfulRun(n, lim, run)
    ensures ValidSnapshot(Execute(lim, run).value.db) && AllLaidOut(n, Execute(lim, run).value.db)
    decreases |run|
  {
    hide Safe, Apply, Enabled, FaithfulStep, HonestStep, RegularStep, ValidSnapshot, AllLaidOut, RowsIssued;
    if run == [] {
      EmptyValid();
      EmptyLaidOut(n);
    } else {
      FaithfulRunSound(n, lim, run[..|run| - 1]);
      EveryRunSafe(lim, run[..|run| - 1]);
      EveryRunIssued(lim, run[..|run| - 1]);
      var w := Execute(lim, run[..|run| - 1]).value;
      FaithfulIsHonest(n, w, lim, run[|run| - 1]);
      StepValid(w, lim, run[|run| - 1]);
      StepLayout(n, w, lim, run[|run| - 1]);
    }
  }

  // --------------------------------------------------------- the pipeline in a run

  /** Every id the pipeline was given was last issued for the content it was given for. */
  ghost predicate IdsKnown(issued: map<int, Hash>, content: map<int, bytes>) {
    forall id | id in content :: Knows(issued, id, Sha256(content[id]))
  }

  lemma KnownRowsHold(w: World, in_: PutPipeline.Input)
    requires Safe(w) && RowsIssued(w.db.chunks, w.issued) && IdsKnown(w.issued, in_.content)
    ensures PutOutcome.RowsHold(in_, w.db.chunks)
  {
    assert RowsBacked(w.db.chunks, w.blobs);
    forall id | id in in_.content && id in w.db.chunks
      ensures w.db.chunks[id].hash == Sha256(in_.content[id]) && w.db.chunks[id].size == |in_.content[id]|
    {
      assert Knows(w.issued, id, w.db.chunks[id].hash);
      BackedRow(w, id);
    }
    hide Safe;
  }

  /**
   In every run of the store, an upload whose ids were not issued again for other content commits a
   row that reads back as the first `size` bytes of the source, all of it if and only if `size` is its
   length, and keeps a valid snapshot valid.
   */
  lemma PutFileInRun(lim: Limits, run: seq<Action>, in_: PutPipeline.Input, steps: seq<PutPipeline.Step>,
                     row: FileRow, fid: int)
    requires Execute(lim, run).Some? && IdsKnown(Execute(lim, run).value.issued, in_.content)
    requires in_.chunk > 0 && PutPipeline.Run(in_, steps).Some? && PutPipeline.Run(in_, steps).value.sink.put.Some?
    requires var put, db := PutPipeline.Run(in_, steps).value.sink.put.value, Execute(lim, run).value.db;
      fid !in DeleteRows(db, row.path).files && row.size == put.size && Upsert(db, row, put.refs, fid).Some?
    ensures var put, db := PutPipeline.Run(in_, steps).value.sink.put.value, Execute(lim, run).value.db;
      var u := Upsert(db, row, put.refs, fid).value;
      && UniquePaths(u.files) && row.path in View(u) && View(u)[row.path].row == row
      && PutOutcome.ReadsAs(u, row.path, in_.source, put.size)
      && (ValidSnapshot(db) ==> ValidSnapshot(u))
  {
    var w := Execute(lim, run).value;
    EveryRunSafe(lim, run);
    EveryRunIssued(lim, run);
    assert Consistent(w.db);
    hide *;
    KnownRowsHold(w, in_);
    PutOutcome.PutFileReadsBack(in_, steps, w.db, row, fid);
  }

  // ----------------------------------------------------- the same content, told once

  /** The file at `path` is the content, in pieces of n bytes. */
  ghost predicate FileIs(t: Tables, path: Path, content: bytes, n: nat)
    requires n > 0
  {
    && UniquePaths(t.files) && path in View(t) && Contiguous(View(t)[path].refs)
    && Pieces(t.chunks, Ids(View(t)[path].refs)) == Split(content, n)
  }

  lemma FileContent(t: Tables, path: Path, content: bytes, n: nat)
    requires n > 0 && FileIs(t, path, content, n)
    ensures ContentOf(t.chunks, View(t)[path].refs) == content
  {
    FlatContent(t, path);
    SplitIsRegular(content, n);
  }

  /**
   In every run, the commit of a writer that handed over some content, cut at n, stores that content
   if and only if the ids it holds are its own; and then a valid snapshot stays valid if and only if
   the row has the content's length.
   */
  lemma ContentCommit(lim: Limits, run: seq<Action>, t: Tid, row: FileRow, fid: int, content: bytes, n: nat)
    requires n > 0 && Execute(lim, run).Some?
    requires WriterEnabled(Execute(lim, run).value, lim, Commit(t, row, fid))
    requires Execute(lim, run).value.ops[t].pieces == Split(content, n)
    requires var w := Execute(lim, run).value; Upsert(w.db, row, RefsGot(w.ops[t]), fid).Some?
    ensures var w := Execute(lim, run).value;
      var u := Upsert(w.db, row, RefsGot(w.ops[t]), fid).value;
      && (FileIs(u, row.path, content, n) <==> HoldsItsOwn(w.issued, w.ops[t]))
      && (HoldsItsOwn(w.issued, w.ops[t]) && ValidSnapshot(w.db) && !row.isDir && !row.isSymlink ==>
            (ValidSnapshot(u) <==> row.size == |content|))
  {
    var w := Execute(lim, run).value;
    EveryRunSafe(lim, run);
    CommitIff(lim, run, t, row, fid);
    CommitAllowed(w, lim, t, row, fid);
    SplitIsRegular(content, n);
    assert UniqueHashes(w.db.chunks) && Consistent(w.db);
    hide *;
    FileIsPieces(Upsert(w.db, row, RefsGot(w.ops[t]), fid).value, row.path, content, n);
    if HoldsItsOwn(w.issued, w.ops[t]) && ValidSnapshot(w.db) {
      OwnRows(w, w.ops[t]);
      OwnCommit(w.db.chunks, RefsGot(w.ops[t]), w.ops[t].pieces, n);
      UpsertValid(w.db, row, RefsGot(w.ops[t]), fid);
    }
  }

  lemma FileIsPieces(t: Tables, path: Path, content: bytes, n: nat)
    requires n > 0 && UniquePaths(t.files) && path in View(t) && Contiguous(View(t)[path].refs)
    ensures FileIs(t, path, content, n) <==> Pieces(t.chunks, Ids(View(t)[path].refs)) == Split(content, n)
  {
    hide View, Pieces, Ids, Split;
  }

  /** The writer's notes are those of this run of the upload pipeline. */
  ghost predicate IsUpload(op: Op, p: PutPipeline.Pipe) {
    op.Writer? && AllGot(op) && p.sink.put.Some? && op.pieces == p.feed.pieces && RefsGot(op) == p.sink.put.value.refs
  }

  /**
   PutFile in a run of the store: what the pipeline handed to StoreChunk and was returned for it, the
   writer commits. The file is what was read of the source if and only if no id was issued again for
   other content while it was held; and it is all of the source if that is as long as the size returned.
   */
  lemma UploadCommit(lim: Limits, run: seq<Action>, t: Tid, row: FileRow, fid: int,
                     in_: PutPipeline.Input, steps: seq<PutPipeline.Step>)
    requires Execute(lim, run).Some? && WriterEnabled(Execute(lim, run).value, lim, Commit(t, row, fid))
    requires in_.chunk > 0 && PutPipeline.Run(in_, steps).Some?
    requires IsUpload(Execute(lim, run).value.ops[t], PutPipeline.Run(in_, steps).value)
    requires var db, put := Execute(lim, run).value.db, PutPipeline.Run(in_, steps).value.sink.put.value;
      row.size == put.size && Upsert(db, row, put.refs, fid).Some?
    ensures var w, put := Execute(lim, run).value, PutPipeline.Run(in_, steps).value.sink.put.value;
      var u := Upsert(w.db, row, put.refs, fid).value;
      && 0 <= put.size <= |in_.source|
      && (FileIs(u, row.path, in_.source[..put.size], in_.chunk) <==> HoldsItsOwn(w.issued, w.ops[t]))
      && (HoldsItsOwn(w.issued, w.ops[t]) ==>
            PutOutcome.ReadsAs(u, row.path, in_.source, put.size)
            && (ValidSnapshot(w.db) && !row.isDir && !row.isSymlink ==> ValidSnapshot(u)))
  {
    var w, put := Execute(lim, run).value, PutPipeline.Run(in_, steps).value.sink.put.value;
    UploadNotes(w.ops[t], in_, steps);
    hide *;
    ContentCommit(lim, run, t, row, fid, in_.source[..put.size], in_.chunk);
    var u := Upsert(w.db, row, put.refs, fid).value;
    if HoldsItsOwn(w.issued, w.ops[t]) {
      FileReadsAs(u, row.path, in_.source, put.size, in_.chunk);
    }
  }

  lemma UploadNotes(op: Op, in_: PutPipeline.Input, steps: seq<PutPipeline.Step>)
    requires in_.chunk > 0 && PutPipeline.Run(in_, steps).Some? && IsUpload(op, PutPipeline.Run(in_, steps).value)
    ensures var put := PutPipeline.Run(in_, steps).value.sink.put.value;
      && 0 <= put.size <= |in_.source|
      && op.pieces == Split(in_.source[..put.size], in_.chunk)
      && RefsGot(op) == put.refs
  {
    PutOutcome.PutStoresIff(in_, steps);
    hide PutPipeline.Run, Split, RefsGot, AllGot, PutOutcome.StoresAll;
  }

  lemma FileReadsAs(u: Tables, path: Path, source: bytes, size: int, n: nat)
    requires n > 0 && 0 <= size <= |source| && FileIs(u, path, source[..size], n)
    ensures UniquePaths(u.files) && path in View(u) && PutOutcome.ReadsAs(u, path, source, size)
  {
    FileContent(u, path, source[..size], n);
    assert size == |source| ==> source[..size] == source;
    hide View, Pieces, Ids, Split, ContentOf;
  }

  /**
   A backup session in a run of the store: the references a receiver reports are committed with the
   size the peer announced. The file is what the tokens mean if and only if the ids are still its own,
   and a valid snapshot then stays valid if and only if the peer sent as many bytes as it announced.
   */
  lemma SessionCommit(lim: Limits, run: seq<Action>, t: Tid, row: FileRow, fid: int, r: Receiver.Received,
                      meaning: Tokens.Outcome, md5: bytes -> bytes, content: map<int, bytes>, n: nat, reliable: bool)
    requires Execute(lim, run).Some? && WriterEnabled(Execute(lim, run).value, lim, Commit(t, row, fid))
    requires n > 0 && Receiver.Reports(r, meaning, md5, content, n, reliable) && r.Stored?
    requires Execute(lim, run).value.ops[t].pieces == Split(meaning.content, n)
    requires RefsGot(Execute(lim, run).value.ops[t]) == r.refs
    requires Upsert(Execute(lim, run).value.db, row, r.refs, fid).Some? && !row.isDir && !row.isSymlink
    ensures var w := Execute(lim, run).value;
      var u := Upsert(w.db, row, r.refs, fid).value;
      && meaning.Done?
      && (FileIs(u, row.path, meaning.content, n) <==> HoldsItsOwn(w.issued, w.ops[t]))
      && (HoldsItsOwn(w.issued, w.ops[t]) && ValidSnapshot(w.db) ==>
            (ValidSnapshot(u) <==> row.size == |meaning.content|))
  {
    assert meaning.Done?;
    var w := Execute(lim, run).value;
    assert RefsGot(w.ops[t]) == r.refs;
    hide *;
    ContentCommit(lim, run, t, row, fid, meaning.content, n);
  }
}
