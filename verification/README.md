# Verified model of the backup store

This project models a deduplicating, encrypted backup store with an rsync daemon in front of it,
and proves what it keeps under every interleaving of its threads and every input from its peers.

- **The manifest** (`Manifest`, `ManifestInvariants`, `MetaDb`, `Snapshot`): the SQLite tables of
  files, chunks and file-to-chunk links, each statement with its cascades, each transaction in the
  order the program issues it; the database object; snapshot validation; reading files back.
- **The running store** (`StoreModel` and the `Store*` modules): any number of concurrent
  `StoreChunk` calls, PutFile uploads, rsync sessions, path edits, GC runs and Meta backups over one
  manifest, one backend and the program's locks. A run is any sequence of atomic steps; backend and
  database calls may fail at every step, and calls may be cancelled. Proved are what no run loses
  (`StoreSafety`, `StoreRecovery`) and what each operation achieves (`StoreCollect`, `StorePrune`,
  `StoreView`, `StorePut`).
- **One upload** (`PutPipeline`, `PutPipelineProofs`, `PutOutcome`, `PutLedger`, `PutCollector`): PutFile's
  producer, four workers, collector, bounded channels, cancellation and the process-wide limiter,
  again as all interleavings.
- **Reading** (`FileReader`): the seekable reader that WebDAV serves files from.
- **rsync** (`Varint`, `NdxCodec`, `Mux`, `Tokens`, `Delta`, `Receiver`, `Sums`, `NameOrder`,
  `NameSiblings`, `Flist`, `FlistLimits`, `FlistClient`, `FlistCodec`, `Session`): integer codings, frame
  multiplexing, literal and match tokens, both receivers, block sums, the order of the file list, its writer
  and parser, lists as other clients compress them, and a whole session.
- **Meta backups on disk** (`MetaContainer`): the framed, authenticated container, over an abstract
  AEAD in the sense of section 2 of RFC 5116.

`WireFormats` spells the codes, frames, headers and digest inputs out byte by byte. `Sequences`, `Streams` and
`Paths` hold what these share. Code that updates objects and buffers in
place is modelled by classes, arrays and loops; SHA-256 is an injective function and MD5 any function.

## Findings

Places where the program does less than a reader would expect. Each is proved, with the exact
condition under which the expectation holds.

1. A session stores the size the peer announced, not the size it received. A manifest that passed
   validation still passes after a write if and only if the row's size is that of its chunks
   (`Snapshot.UpsertValid`; in runs of the store `StoreValidity.WriteValid`). One byte announced and
   none sent is enough (`Snapshot.AnnouncedSizeRefused`). Until such a row is replaced or deleted,
   Meta backups refuse the snapshot. Uploads that count what they store, and moves of rows with their
   references, write the right size (`StorePut.FaithfulRunSound`).
2. `MovePath` onto an overlapping path does not move. For every pair of non-empty paths where one
   lies in the other's subtree there is a consistent manifest on which files are lost, and for all
   other pairs none (`MetaDb.MoveIffDisjoint`). Moving a path onto itself deletes its subtree.
3. Chunk ids are held outside transactions and SQLite reuses the id of a deleted last row. In every
   run, a committed file consists of the pieces handed to `StoreChunk` if and only if no id its
   writer holds was last issued for other content, which the hashes of the rows tell at the time of
   the commit (`StoreContent.CommitIff`). So it does whenever no id is issued while somebody holds
   it (`StoreContent.CommitContent`); reissues after a file is done do no harm.
   `StoreReissue.ReissuedIdSwapsContent` is a run in which one upload commits another's content.
4. Not every file list entry the writer accepts comes back. It does if and only if its name has at
   most 255 bytes, its size is from 0 and below 2^51, its time is later than one second before 1970,
   and its mode is of a known type that agrees with its flags (`FlistLimits.EntryBackIff`, the first
   misfits in `FlistLimits.FirstMisfits`): the writer puts the length of a name into one byte and
   never sets the long-name flag, and the reader cuts long integer codes short (finding 5). A list
   with sizes in range reads back if and only if every entry meets the rest
   (`FlistLimits.ListBackIff`). For devices, whose size is dropped, no bound on the size is exact: one
   of 2^51 is lost (`FlistLimits.SmallerDeviceLost`) and one of 2^55 can pass
   (`FlistLimits.DeviceSizeSlips`), so there a size in range is assumed.
5. varlong values do not come back when negative or too large for their minimum length: for the two
   the file list uses, 3 and 4, `Varint.VarlongRoundTripIff` has them back if and only if they are
   from 0 and below 2^51 and 2^59.
6. The reader of file indices keeps a negative index's successor differently from the writer. A
   stream of indices reads back if and only if every negative index after the first is far enough
   from its predecessor to be sent absolutely (`NdxCodec.StreamRoundTripIff`);
   `NdxCodec.SecondNegativeMisread` is the shortest stream that does not.
7. PutFile takes io.ErrUnexpectedEOF for the end of its source. That is how io.ReadFull reports a last
   short chunk, but also what a source returns that breaks off, as a request body does that ends
   before its announced length. The upload then commits what it has read, over the old file, and
   reports success. In every run the committed file is the first `size` bytes of the source, and the
   whole source if and only if the size returned is the source's length
   (`PutOutcome.PutStoresIff`), which a caller that knows the length can compare; it always is when
   no read was cut off (`PutOutcome.PutStoresSource`). Whatever the source, some run commits an empty
   file (`PutOutcome.CutUploadCommits`).

## Model

| member | source | states |
|---|---|---|
| ManifestInvariants.UpsertCommits | internal/core/meta/db.go:226-276 | UpsertFile commits exactly when every referenced chunk still has its row; otherwise the transaction rolls back |
| ManifestInvariants.UpsertConsistent | internal/core/meta/db.go:226-276 | replacing a row keeps foreign keys, exact reference counts, unique paths and hashes, and indices 0..n-1 |
| ManifestInvariants.UpsertView | internal/core/meta/db.go:226-276 | for a reader, one path gets the new row and references and every other path is untouched |
| ManifestInvariants.UpsertDrops | internal/core/meta/db.go:226-276 | a write drops exactly the chunk rows that its path linked and that nothing links afterwards |
| ManifestInvariants.UnusedOnlyHere | internal/core/meta/db.go:245-251 | the cascade of a dropped chunk reaches no other file's links |
| ManifestInvariants.DeleteConsistent | internal/core/meta/db.go:279-301 | deleting a path keeps every relational invariant and removes exactly that path from the view |
| ManifestInvariants.DeleteDrops | internal/core/meta/db.go:279-301 | a deletion drops exactly the chunk rows that the path linked and nothing else does |
| ManifestInvariants.InsertConsistent | internal/core/meta/db.go:416-422 | inserting a chunk row keeps the invariants and the view |
| ManifestInvariants.DeleteIfZeroConsistent | internal/core/meta/db.go:439-442 | clean-up of a failed write removes the one row exactly when no file links it, and nothing else |
| ManifestInvariants.DeleteChunksConsistent | internal/core/meta/db.go:431-434 | deleting unreferenced chunk rows keeps the invariants and the view |
| MetaDb.Database.UpsertFile | internal/core/meta/db.go:226-276 | in place: all or nothing, success exactly when all chunks are present, the new view, and surviving chunk rows unchanged but for their counts |
| MetaDb.Database.NextRowId | internal/core/meta/db.go:41-42 | the id SQLite gives a new row is larger than every id in use, and may have been used before |
| MetaDb.Database.AttachRefs | internal/core/meta/db.go:444-456 | inserting link rows stops at the first constraint violation |
| MetaDb.Database.DeleteFile | internal/core/meta/db.go:279-301 | in place: the path leaves the view, nothing else does |
| MetaDb.Database.DeleteChunkIfZero | internal/core/meta/db.go:439-442 | in place: view and links stay as they were |
| MetaDb.Database.GetFileRow | internal/core/meta/db.go:333-354 | the row the view has at the path, if any |
| MetaDb.Database.GetFileChunks | internal/core/meta/db.go:357-374 | the view's references in index order, all present |
| MetaDb.Database.FileRows | internal/core/repo/repo.go:288-303 | the rows of the subtree, all of them, each once, in byte order of their paths |
| MetaDb.Database.CheckParentDir | internal/core/repo/repo.go:672-685 | accepts a path exactly when it is top-level or its parent is a directory row |
| MetaDb.Database.DeletePath | internal/core/repo/repo.go:914-935 | removes exactly the subtree and keeps a valid snapshot valid; a missing path changes nothing |
| MetaDb.Database.MovePath | internal/core/repo/repo.go:941-993 | succeeds exactly when the parent exists and something is moved; disjoint paths: the subtree is renamed with its chunks over the destination, a valid snapshot stays valid; a path onto itself: the subtree is gone |
| MetaDb.MoveIffDisjoint | internal/core/repo/repo.go:941-993 | for any non-empty paths, MovePath is a move on every manifest if neither lies in the other's subtree, and otherwise some consistent manifest is spoilt |
| Snapshot.ValidIffConsistent | internal/core/meta/validate.go:14-111 | the foreign key check and the four relational queries accept exactly the consistent tables whose regular files have the size of their chunks |
| Snapshot.UpsertValid | internal/core/meta/validate.go:73-90 | after a write the snapshot is valid if and only if the row is a directory, a link, or has the size of its chunks |
| Snapshot.AnnouncedSizeRefused | internal/front/rsync/protocol/receiver.go:333-336 | a row of announced size 1 over no chunks makes an empty, valid snapshot invalid |
| Snapshot.DeleteValid | internal/core/meta/validate.go:73-90 | deleting a path keeps a valid snapshot valid |
| Snapshot.StreamFile | internal/core/repo/repo.go:362-414 | fetches, authenticates and joins the chunks in index order, and delivers them only when the total is the row's size |
| Snapshot.VerifyBackupChunks | internal/core/repo/meta_backup.go:283-302 | accepts exactly when every listed blob is present, authentic, and has the recorded hash and size |
| Snapshot.RestoredFilesStream | internal/core/repo/meta_backup.go:212-302 | a database that passes both validations streams every regular file in full |
| StoreSafety.EveryRunSafe | internal/core/repo/repo.go:90-270 | in every state of every run: rows consistent and backed by blobs, names unique, locks held as taken, and nothing GC is about to remove is needed by a row, a file or a recovery point |
| StoreSafety.UploadSafe | internal/core/repo/repo.go:200-270 | every step of an uploader keeps that invariant, failures and cancellation included |
| StoreSafety.WriterSafe | internal/core/repo/repo.go:698-892 | every step of a file writer keeps it |
| StoreSafety.BackupSafe | internal/core/repo/meta_backup.go:40-187 | every step of a Meta backup keeps it |
| StoreSafety.GcSafe | internal/core/repo/repo.go:569-667 | every GC step keeps that invariant, whatever uploads, sessions and backups are under way |
| StoreCollect.GcComplete | internal/core/repo/repo.go:569-667 | in every run, when a collection that did not fail lets go of its locks, by the early exit or the late one, every chunk row is linked by a file, and every blob belongs to a row, is needed by a recovery point listed under the Meta lock, or was refused deletion |
| StoreCollect.GcExact | internal/core/repo/repo.go:569-667 | without recovery points and refusals the blobs left are exactly those of the linked rows |
| StorePrune.BackupComplete | internal/core/repo/meta_backup.go:40-97 | in every run, when a backup none of whose steps failed lets go of its lock, the recovery points left are, of those it found and its own, exactly the ones with fewer than `retain` names after them, each as it was; its own holds the manifest of the moment it was taken |
| StorePrune.NewestSurvives | internal/core/repo/meta_backup.go:161-187 | a snapshot whose name comes after all others is still there when its backup, unless a step failed, is over |
| StorePrune.NewestWhilePruning | internal/core/repo/meta_backup.go:161-187 | at every point of the pruning, and so if it breaks off, the newest `retain` recovery points are there unchanged |
| StorePrune.FailedBackupUndone | internal/core/repo/meta_backup.go:88-92 | a backup that fails before pruning changes nothing but its own object, and nothing at all if that could be removed |
| StoreView.ReadersSee | internal/core/repo/repo.go:569-993 | in every run, commits, edits and deletions change the file rows exactly as written, and no other step, of uploads, clean-up, GC or backups, changes what readers see |
| StoreView.CleanupRemoves | internal/core/repo/repo.go:698-702 | in every run, clean-up removes a chunk row exactly when no file links it |
| StoreRecovery.LiveFilesReadable | internal/core/repo/repo.go:362-414 | in every reachable state every file reads back as the content its rows stand for |
| StoreRecovery.RecoveryPointsIntact | internal/core/repo/meta_backup.go:40-97 | in every reachable state every listed backup snapshot is valid and all its files restore in full from the present blobs |
| StoreRecovery.DedupHitSound | internal/core/repo/repo.go:174-200 | a row found by hash is backed by exactly the caller's bytes |
| StoreContent.CommitIff | internal/core/repo/repo.go:872-892 | in every run, what a commit stores are the pieces handed to StoreChunk, in order, if and only if no held id was last issued for other content, which is the case exactly when the held rows have the pieces' hashes |
| StoreContent.CommitContent | internal/core/repo/repo.go:872-892 | in runs that issue no id while it is held, a commit rolls back or stores the concatenation of the pieces |
| StoreContent.EveryRunIssued | internal/core/meta/db.go:416-422 | in every reachable state each chunk row holds the content its id was last issued for |
| StoreReissue.ReissuedIdSwapsContent | internal/core/repo/repo.go:698-702 | some run in which a held id is issued again ends with a commit of other content |
| StoreProgress.SingleFlight | internal/core/repo/repo.go:174-238 | in every reachable state at most one call per repository and content is registered as uploader, and at most one row exists per content |
| StoreLimits.LimitsKept | internal/core/repo/repo.go:155-270 | in every reachable state no more calls are past the limiter, and no more uploads run, than the limits allow |
| StoreLimits.NewMeansInserted | internal/core/repo/repo.go:200-270 | a call reports a chunk as new only if it inserted the row itself |
| StoreLimits.CallsFailForCause | internal/core/repo/repo.go:155-270 | no call fails in a run without cancelled calls, failed names and uploads, and lost rows |
| StoreProgress.NoDeadlock | internal/core/repo/repo.go:90-145 | whenever a call or an operation is under way some thread can take a step that is neither a failure nor one that leaves its thread where it was |
| StoreQuiescence.OneBlobPerContent | internal/core/repo/repo.go:155-270 | in runs without half-done uploads and removed rows, once the calls have returned the blobs are exactly those of the rows, one per content |
| StoreValidity.EveryHonestRunValid | internal/core/meta/validate.go:14-111 | if every row committed has the size of its chunks, the manifest passes validation after every step of the run |
| StoreValidity.WriteValid | internal/core/meta/validate.go:73-90 | from any safe and valid state, a write keeps the snapshot valid exactly when it is rolled back or its size is right |
| StoreValidity.EveryRegularRunLaidOut | internal/core/repo/repo.go:718-892 | if every row committed is cut at the chunk size, every stored file is in every reachable state |
| StorePut.CountedCommit | internal/core/repo/repo.go:872-892 | a commit of the counted size over chunks that are the writer's own is honest, and regular if the pieces are |
| StorePut.CarriedEdit | internal/core/repo/repo.go:941-993 | writing an existing row again under another path, with its references, is honest and regular |
| StorePut.FaithfulRunSound | internal/core/repo/repo.go:711-993 | in every run of counting uploads and of moves, deletions, clean-ups, GC and backups, the manifest passes validation and every file is cut at the chunk size |
| StorePut.PutFileInRun | internal/core/repo/repo.go:718-892 | in every run of the store, an upload whose ids were not issued again for other content commits a row that reads back as the first `size` bytes of its source, and as the source if and only if that is its length |
| StorePut.ContentCommit | internal/core/repo/repo.go:872-892 | in every run, a commit of some content cut at n stores that content if and only if the ids held are the writer's own, and then keeps a valid snapshot valid if and only if the row has its length |
| StorePut.UploadCommit | internal/core/repo/repo.go:718-892 | a commit whose pieces and ids are those of a run of the upload pipeline stores what was read of the source if and only if the ids are still its own |
| StorePut.SessionCommit | internal/front/rsync/protocol/receiver.go:333-336 | a commit of the references a receiver reports stores what the tokens mean if and only if the ids are still its own, and then a valid snapshot stays valid if and only if the peer sent as many bytes as it announced |
| PutOutcome.PutStoresIff | internal/core/repo/repo.go:781-811 | in every interleaving, success means the references hold the first `size` bytes of the source cut at the chunk size, and the whole source if and only if `size` is its length |
| PutOutcome.PutStoresSource | internal/core/repo/repo.go:718-892 | when no read was cut off, success means the references hold the whole source, in order, and the size is its length |
| PutOutcome.CutUploadCommits | internal/core/repo/repo.go:800-802 | for every source some run whose first read is cut off commits an empty file and reports success |
| PutOutcome.PutFileReadsBack | internal/core/repo/repo.go:718-892 | over rows that hold what their ids were returned for, the committed row reads back as the first `size` bytes of the source, as the source if and only if that is its length, and keeps a valid snapshot valid |
| PutOutcome.FailureCleansUp | internal/core/repo/repo.go:718-892 | on failure no row is written, exactly the new chunks are cleaned up, and every chunk handed out was reported once |
| PutLedger.FailureRemoves | internal/core/repo/repo.go:698-702 | a failed upload removes exactly the chunk rows that the store said it inserted for it |
| PutLedger.WrittenOnlyIf | internal/core/repo/repo.go:872-892 | the row is written only after the context was found alive under the write lock, the parent check passed and the write succeeded |
| PutLedger.RefusedParent | internal/core/repo/repo.go:882-885 | a refused parent check leaves no row and no success |
| PutLedger.FailureHasCause | internal/core/repo/repo.go:718-892 | an upload fails only after a cancellation, a read error, a failed store, a refused parent or a failed write |
| PutOutcome.SlotsReleasedOnce | internal/core/repo/repo.go:718-892 | when PutFile has returned, every limiter slot taken was released exactly once |
| PutOutcome.NeverStuck | internal/core/repo/repo.go:718-892 | while the store has an id for each piece, until PutFile returns some thread can take a step that neither fails nor cancels, or it waits, not cancelled, for another upload's slot and holds none |
| PutOutcome.AlwaysReturns | internal/core/repo/repo.go:718-892 | no interleaving is longer than a bound linear in the source |
| PutCollector.Collect | internal/core/repo/repo.go:838-855 | the collector's loop gathers references, total and new chunks of all results, and notices every failure |
| PutCollector.Place | internal/core/repo/repo.go:866-871 | references are put in index order |
| PutCollector.InflightLimiter.TryAcquire | internal/core/repo/inflight.go:22-40 | a slot is handed out only below the maximum, with a ticket of its own |
| PutCollector.InflightLimiter.Release | internal/core/repo/inflight.go:22-40 | the first release of a ticket gives its slot back and later ones do nothing |
| FileReader.Reader.Read | internal/core/repo/repo.go:494-514 | returns the next bytes of the flat content, at least one unless at the end or a chunk fails to load |
| FileReader.Reader.Seek | internal/core/repo/repo.go:516-555 | refuses exactly closed readers, unknown origins and negative targets; otherwise lands on the target cut to the size, and a failure leaves the cursor |
| FileReader.Reader.Locate | internal/core/repo/repo.go:516-555 | adding up chunk sizes finds the chunk that holds the target, or the end of the content |
| FileReader.ReadToEnd | internal/core/repo/repo.go:494-514 | reading to the end from any position yields exactly the rest of the content, and on a reliable backend the end is reported after at most one read more than bytes are left |
| Varint.WriteVarint | internal/front/rsync/protocol/wire.go:97-117 | writes the canonical code of the value's 32-bit pattern |
| Varint.ReadVarint | internal/front/rsync/protocol/wire.go:77-95 | reads one code and fails exactly when it is incomplete or malformed |
| Varint.VarintRoundTrip | internal/front/rsync/protocol/wire.go:65-117 | every 32-bit value reads back with exactly its bytes consumed |
| WireFormats.VarintBytesAre | internal/front/rsync/protocol/wire.go:97-117 | the one to five bytes of every 32-bit pattern |
| Varint.WriteVarlong | internal/front/rsync/protocol/wire.go:140-159 | writes the code of the value's 64-bit pattern with the given minimum length |
| WireFormats.SizeBytesAre | internal/front/rsync/protocol/wire.go:140-159 | the three or four bytes of sizes below 2^30 |
| WireFormats.TimeBytesAre | internal/front/rsync/protocol/wire.go:140-159 | the four or five bytes of times below 2^38 |
| Varint.ReadVarlong | internal/front/rsync/protocol/wire.go:119-138 | reads one code and fails exactly when it is incomplete or malformed |
| Varint.VarlongRoundTripIff | internal/front/rsync/protocol/wire.go:119-159 | with minimum length 3 or 4, a 64-bit value reads back if and only if it is not negative and below 2^51 or 2^59 |
| NdxCodec.Codec.Write | internal/front/rsync/protocol/wire.go:322-361 | writes the code of the index relative to the codec's state and advances it |
| WireFormats.IndexBytesAre | internal/front/rsync/protocol/wire.go:322-361 | the bytes of every index for every pair of predecessors |
| NdxCodec.Codec.Read | internal/front/rsync/protocol/wire.go:363-404 | reads one code relative to the state and advances it, or fails and keeps it |
| NdxCodec.StreamRoundTripIff | internal/front/rsync/protocol/wire.go:322-404 | a list of indices reads back if and only if every negative one after the first is sent absolutely |
| NdxCodec.SecondNegativeMisread | internal/front/rsync/protocol/wire.go:322-404 | the list -3, -3 reads back as -3, 3 |
| NdxCodec.OneNegativeReadable | internal/front/rsync/protocol/wire.go:322-404 | lists with at most one negative index always meet the condition |
| Mux.MuxWriter.WriteFrame | internal/front/rsync/protocol/wire.go:229-247 | a frame too long for its header is refused, every other one goes out with its header |
| WireFormats.FrameBytesAre | internal/front/rsync/protocol/wire.go:229-247 | three bytes of length, 7 plus the tag, the payload; the tags of data and of a file not sent |
| Mux.MuxReader.ReadFrame | internal/front/rsync/protocol/wire.go:197-214 | takes the next frame off the wire, or reports its end or a broken frame |
| Mux.MuxStream.Read | internal/front/rsync/protocol/wire.go:275-306 | hands out the data of data frames in order, skips messages, and reports a file the peer will not send |
| WireFormats.NotSentIs | internal/front/rsync/protocol/wire.go:275-306 | a frame of tag 102 and four bytes ends the data and names the file that is not sent |
| Mux.MuxStream.ReadFull | internal/front/rsync/protocol/wire.go:275-306 | however the frames cut the data, exactly the next n bytes, or an error exactly when fewer remain |
| Mux.FramesDeliver | internal/front/rsync/protocol/wire.go:187-306 | the data of any frames, with messages in between, arrives in order ahead of what follows |
| Tokens.WriteLiterals | internal/front/rsync/protocol/sender.go:619-645 | content goes out as literal tokens of at most 32 KiB, one data frame each |
| Tokens.FileArrives | internal/front/rsync/protocol/sender.go:401-418 | what the sender writes for a file means exactly that content followed by its digest, for any frames in between |
| Delta.DeltaMeans | internal/front/rsync/protocol/receiver.go:802-845 | any list of literals and of block numbers coded as -1 - b means, for any table of the old file, the literals and the blocks' stretches of the old file joined, exactly when the blocks exist and ascend, and is refused otherwise |
| Receiver.BasisReader.Read | internal/front/rsync/protocol/receiver.go:885-909 | finding chunks by division yields the next bytes of the old file, an end exactly at its size |
| Receiver.BasisReader.Block | internal/front/rsync/protocol/receiver.go:812-828 | skips forward and copies exactly the block's bytes; reports a block beyond the old file; fails otherwise only when the session does |
| Receiver.Assembler.TakeLiteral | internal/front/rsync/protocol/receiver.go:838-860 | a literal token enters the buffer in full, storing every chunk it completes; short exactly when the stream is |
| Receiver.Assembler.FlushFull | internal/front/rsync/protocol/receiver.go:764-790 | after a copied block every full chunk is stored and the buffer again has room for a chunk |
| Receiver.Assembler.Finish | internal/front/rsync/protocol/receiver.go:861-863 | after the last flush the stored chunks are the assembled bytes cut at the chunk size |
| Receiver.ReceiveFull | internal/front/rsync/protocol/receiver.go:524-631 | stores what the tokens mean, cut at the chunk size, exactly when the digest matches; refuses only bad or short streams; otherwise only a failed or cancelled session ends it |
| Receiver.ReceiveDelta | internal/front/rsync/protocol/receiver.go:653-880 | the same with match tokens, for any block table and any old file in the regular layout |
| Receiver.TransferDelivers | internal/front/rsync/protocol/receiver.go:524-631 | a file sent in any pieces with messages interleaved is never refused, and a reliable session stores it |
| Delta.DeltaDelivers | internal/front/rsync/protocol/receiver.go:653-880 | such a delta, framed in any way and with messages interleaved, is never refused, and a reliable session stores the file it spells |
| Receiver.StoredIsRegular | internal/front/rsync/protocol/receiver.go:653-880 | whatever a receiver stored can serve as the old file of the next delta |
| Sums.CalcSizes | internal/front/rsync/protocol/sum.go:40-81 | succeeds exactly for sizes up to 2^41, with count, block length and remainder that describe the file |
| WireFormats.BlockLengthIs | internal/front/rsync/protocol/sum.go:40-81 | 700 bytes up to 490000, 2^17 from 2^34, and between them the root of the size rounded down to a multiple of 8 but at least 700 |
| Sums.BlocksTile | internal/front/rsync/protocol/sum.go:40-81 | the blocks of a described file tile it without gap or overlap |
| Sums.RollingSum1 | internal/front/rsync/protocol/sum.go:86-102 | the loop computes the weighted sum of signed bytes, truncated to 16 bits each half |
| Sums.Rolls | internal/front/rsync/protocol/sum.go:86-102 | the sum of a window moved by one byte follows from the old sum and the two bytes |
| Sums.CalcBlockSums | internal/front/rsync/protocol/sum.go:121-154 | for a stream of the announced length, the table of both sums of every block; a shorter or longer stream is an error |
| WireFormats.StrongInputIs | internal/front/rsync/protocol/sum.go:103-115 | what is digested for a block: its bytes, then a seed other than zero in four bytes |
| Sums.SumStream | internal/front/rsync/protocol/sum.go:121-154 | block by block the stream is summed to its end and counted |
| Sums.SumTableWriter.Write | internal/front/rsync/protocol/receiver.go:932-950 | however the content arrives, full blocks are summed in order and the rest is kept |
| Sums.SumTableWriter.Finish | internal/front/rsync/protocol/receiver.go:952-963 | the finished table is that of the whole content |
| NameOrder.FNameCmp | internal/front/rsync/protocol/flist.go:72-213 | on all inputs the two-cursor comparison ends; on canonical entries its sign is that of one lexicographic key order |
| NameOrder.KeyInjective | internal/front/rsync/protocol/flist.go:72-213 | different entries have different keys, so the order is total |
| NameOrder.CmpTransitive | internal/front/rsync/protocol/flist.go:72-213 | the order is transitive |
| NameOrder.DirectoryFirst | internal/front/rsync/protocol/flist.go:72-213 | a directory comes before everything in it |
| NameSiblings.SiblingOrder | internal/front/rsync/protocol/flist.go:72-213 | within a directory files come first, in byte order of their names, then the subdirectories in byte order of their names with a slash |
| NameOrder.SubtreeContiguous | internal/front/rsync/protocol/flist.go:72-213 | whatever sorts between two entries of a directory's subtree belongs to it |
| NameOrder.SortUnique | internal/front/rsync/protocol/flist.go:232-244 | two sorted lists with the same entries are equal, so both sides number the files alike |
| FlistCodec.WriteEntry | internal/front/rsync/protocol/flist_write.go:24-121 | refuses exactly missing and overlong names; otherwise writes the entry's bytes under any options |
| FlistCodec.SendList | internal/front/rsync/protocol/sender.go:234-277 | entries with the checksums regular files need, the end mark, and the id lists unless ids go as numbers; stops exactly when an entry cannot be written or read |
| FlistCodec.SentListArrives | internal/front/rsync/protocol/sender.go:234-277 | what it sends for entries the format carries reads back entry for entry |
| FlistCodec.FlistParser.Parse | internal/front/rsync/protocol/flist.go:285-497 | reads one entry, an end mark or fails, exactly as the format's grammar says, and remembers what later entries refer to |
| FlistClient.ClientListRead | internal/front/rsync/protocol/flist.go:285-545 | a list compressed in any legal way, with shared name prefixes, long names, omitted modes, times and owners, owner names, device numbers, access times, either end mark and named id lists, reads back with every entry's own name and fields |
| FlistClient.NamesKept | internal/front/rsync/protocol/flist.go:564-574 | a name is kept unless it is the root, absolute, or has a component "..", and is emptied then |
| FlistClient.BadHeadsRefused | internal/front/rsync/protocol/flist.go:318-340 | hard links and prefixes longer than the previous name are refused |
| FlistClient.UnknownTypeRefused | internal/front/rsync/protocol/flist.go:449-458 | a mode of unknown type is refused |
| FlistCodec.FlistParser.ReadHead | internal/front/rsync/protocol/flist.go:285-316 | tells flags from both end marks and keeps an error code behind the mark |
| FlistCodec.ReadIdList | internal/front/rsync/protocol/flist.go:513-545 | skips the id lists of the owners that are kept |
| FlistCodec.ReadList | internal/front/rsync/protocol/receiver.go:130-178 | the receiver's loop reads a whole list, or fails exactly when the grammar does |
| Flist.EntryBack | internal/front/rsync/protocol/flist_write.go:24-121 | every entry the format carries parses back with exactly its bytes consumed |
| FlistLimits.EntryBackIff | internal/front/rsync/protocol/flist_write.go:24-121 | an entry the writer accepts parses back if and only if its name has at most 255 bytes, its size and seconds fit, and its mode says what it is (a device's size is assumed to fit) |
| FlistLimits.FirstMisfits | internal/front/rsync/protocol/flist_write.go:70-89 | a name of 256 bytes, a size of 2^51 and a time of -1 s do not come back; 255 bytes and a nanosecond later do |
| FlistLimits.DeviceSizeSlips | internal/front/rsync/protocol/wire.go:119-138 | a device of size 2^55 and time 0 comes back although its size is cut short |
| FlistLimits.SmallerDeviceLost | internal/front/rsync/protocol/wire.go:119-138 | a device of the smaller size 2^51 does not come back, whatever its time |
| FlistLimits.SomeDeviceSlips | internal/front/rsync/protocol/wire.go:119-138 | there is such a device |
| Flist.ListRoundTrip | internal/front/rsync/protocol/flist.go:285-545 | a list of such entries reads back entry for entry, end mark and id lists included |
| FlistLimits.ListBackIff | internal/front/rsync/protocol/flist.go:285-545 | a list of clean names and sizes in range reads back if and only if every name has at most 255 bytes, every time its seconds and every mode its kind |
| Session.ApplyStaticEntry | internal/front/rsync/protocol/receiver.go:504-519 | a directory or link entry replaces exactly its own path |
| Session.ReceiveFile | internal/front/rsync/protocol/receiver.go:653-693 | the content is asked for exactly when this is no dry run and no ordinary file of the announced time and size is there |
| Session.ReceivedInOrder | internal/front/rsync/protocol/receiver.go:764-780 | the references a receiver reports are numbered in order |
| Session.ApplyEntry | internal/front/rsync/protocol/receiver.go:210-340 | one pass stops or skips exactly for its stated causes; an entry it keeps and writes has a row with every announced field, mode and owners included, over the chunks its transfer stored; nothing else changes |
| Session.ApplyEntries | internal/front/rsync/protocol/receiver.go:210-340 | the transfer loop goes up to the first entry that stops it; each entry before that has come to its announced row or is as it was, and no other path differs |
| Session.DeleteExtraneous | internal/front/rsync/protocol/receiver.go:349-371 | removes below the prefix exactly the paths the list does not cover, in byte order up to an interruption |
| Session.ProcessSession | internal/front/rsync/protocol/receiver.go:108-374 | wherever a session ends, every entry done with has its announced row, mode, owners and transferred chunks, or is as it was because it is up to date or left out; other paths are gone exactly when extraneous and reached by the deletion; a clean --delete session leaves exactly the announced paths |
| MetaContainer.EncryptMeta | internal/core/crypto/meta.go:48-83 | writes header, one frame per 1 MiB piece and an empty last frame, each sealed under its own position |
| MetaContainer.WriteMetaFrame | internal/core/crypto/meta.go:85-102 | one frame: its length, a nonce and the sealed bytes, bound to its position |
| WireFormats.HeaderIs | internal/core/crypto/meta.go:16-21 | magic, version, repository id and frame size, byte by byte |
| WireFormats.AadIs | internal/core/crypto/meta.go:33-46 | label, repository, name, number and end flag, byte by byte |
| MetaContainer.DecryptMeta | internal/core/crypto/meta.go:104-156 | accepts exactly the containers that open frame by frame to the end, and delivers their content |
| MetaContainer.RoundTrip | internal/core/crypto/meta.go:48-156 | every content comes back with its repository id |
| MetaContainer.PrefixFree | internal/core/crypto/meta.go:104-156 | bytes after the last frame make a container unacceptable |
| MetaContainer.NoPrefixAccepted | internal/core/crypto/meta.go:104-156 | no truncation of an accepted container is accepted |
| MetaContainer.AadInjective | internal/core/crypto/meta.go:33-46 | repository, name, position and end mark are all bound: no two frames share their associated data |
| MetaContainer.AcceptedIsTheRun | internal/core/crypto/meta.go:85-156 | if the frames that open in a presented container are unforged, an accepted container holds exactly what one encryption sealed: nothing reordered, dropped, repeated or renamed |
| MetaContainer.EmittedIsUnforged | internal/core/crypto/meta.go:48-102 | what encryption emits satisfies that hypothesis |

## Left out

- SQLite I/O errors and busy timeouts: a statement of a transaction succeeds or violates a constraint; a failed transaction of the running store is a step that changes nothing.
- RestoreMeta's choice among backups and its swap of database files: `Snapshot.RestoredFilesStream` starts from a candidate that passed both validations.
- Meta backup names: any name not in use, ordered bytewise; the time and the random part they are made of are not modelled.
- AEAD, SHA-256 and MD5 internals: an abstract AEAD, an injective function and an arbitrary function. Random nonces, blob names and keys are any values; blob names are assumed fresh.
- WebDAV and HTTP handlers, listing of one directory, configuration, the module table and the handshake.
- The filter list, statistics, keep-alives, logging and the goodbye exchange of a session.
- Access times, device numbers, checksums and owner names of a file list: the parser reads and drops them, and `FlistClient.ClientListRead` shows only that they disturb nothing.
- FlistCodec.FlistParser.Parse: a negative length of a long name or of a link target, on which the program's allocation panics (flist.go:354 and 481), is a refusal here.
- Overflow of 64-bit sizes and offsets inside the store: sizes and positions are unbounded there, while the codecs model their widths and wrap-around.
- How much an io.Reader returns per call: PutFile's producer takes whole chunks, and short reads are modelled for the multiplexed stream, the sum writer and the file reader only.
- Fairness: progress is stated as the existence of a useful step and, for one upload, as a bound on every run.
- PutOutcome.PutStoresSource: covers uploads none of whose reads was cut off; `PutOutcome.PutStoresIff` covers all.
- PutOutcome.PutFileReadsBack: takes what the ids hold as given; `StorePut.UploadCommit` states it for the runs of the store, with the exact condition.
- StorePut.PutFileInRun: assumes that no id was issued again for other content; `StorePut.UploadCommit` gives the equivalence.
- NameOrder.FNameCmp: the sign is stated for canonical paths; the parser also lets doubled and trailing slashes through, on which the comparison is only shown to end.
- FlistLimits.EntryBackIff: leaves out devices of sizes outside the varlong range, for the reason finding 4 gives.
- FlistLimits.ListBackIff: assumes sizes in range; a shifted stream of several entries is not followed further.
- Session.ReceiveFile: what the peer does is an input, one outcome of either receiver per entry; `Receiver` and `Delta` state what those outcomes are.
- Session.ProcessSession: says which chunks a row references, not what they hold; `StorePut.SessionCommit` says that, file by file, in the runs of the store. The order in which it takes the entries is that of `NameOrder`, and sorting them is not part of it.
- The block table and its echo on the wire: `Delta` starts from the table, which both ends then hold.
- StoreContent.CommitContent: covers runs in which no id is issued while it is held; for all other runs `StoreContent.CommitIff` gives the exact condition per commit.
- Receiver.TransferDelivers: a session that fails or is cancelled may be interrupted; the theorem then promises only that nothing wrong is stored.
