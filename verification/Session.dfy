/**
 What a backup session does to the manifest (processSession, applyStaticEntry and the start of
 receiveFileDelta in internal/front/rsync/protocol/receiver.go). What the peer does for each entry
 is an input; see Receiver for the transfer of a file's content.
 */
module Session {
  import opened Sequences
  import opened Manifest
  import opened ManifestInvariants
  import opened MetaDb
  import opened Paths
  import Flist
  import Receiver

  type FileEntry = Flist.FileEntry

  datatype Settings = Settings(prefix: Path, dryRun: bool, delete: bool, ioError: int)

  // ----------------------------------------------------------------------- paths

  /** Database path of a list path: below the module's prefix. */
  function Full(p: Path, prefix: Path): Path {
    if prefix == [] then p else if p == [] then prefix else prefix + [SLASH] + p
  }

  /** Where an entry is stored: directories without their trailing slash. */
  function Target(e: FileEntry, prefix: Path): Path {
    if e.isDir && !e.isSymlink then TrimSlash(Full(e.path, prefix)) else Full(e.path, prefix)
  }

  /** Parsed paths are empty or relative, and the prefix carries no slash at its end. */
  ghost predicate Relative(entries: seq<FileEntry>, prefix: Path) {
    && (prefix != [] ==> prefix[|prefix| - 1] != SLASH)
    && forall i | 0 <= i < |entries| :: RelativeEntry(entries[i], prefix)
  }

  ghost predicate RelativeEntry(e: FileEntry, prefix: Path) {
    (prefix != [] ==> prefix[|prefix| - 1] != SLASH) && (e.path == [] || e.path[0] != SLASH)
  }

  lemma TargetInside(e: FileEntry, prefix: Path)
    requires RelativeEntry(e, prefix)
    ensures InSubtree(Target(e, prefix), prefix)
  {
    if prefix != [] && e.path != [] {
      var full := prefix + [SLASH] + e.path;
      assert full[..|prefix| + 1] == prefix + [SLASH];
      assert TrimSlash(full)[..|prefix| + 1] == prefix + [SLASH];
    }
  }

  // --------------------------------------------------------------------- entries

  predicate Special(e: FileEntry) {
    var t := Flist.TypeOf(e.mode);
    t == Flist.TYPE_CHR || t == Flist.TYPE_BLK || t == Flist.TYPE_FIFO || t == Flist.TYPE_SOCK
  }

  /** The root of an unprefixed transfer has no row. */
  predicate HasRow(e: FileEntry, prefix: Path) {
    e.path != [] || prefix != []
  }

  /** An ordinary entry: nothing the session would skip. */
  ghost predicate Ordinary(e: FileEntry) {
    && !(e.isDir && e.isSymlink)
    && (e.path == [] ==> e.isDir)
    && (e.path != [] ==> !Special(e))
    && (e.isSymlink ==> e.linkTarget != [])
    && (!e.isDir && e.path != [] ==> e.path[|e.path| - 1] != SLASH)
  }

  ghost predicate DistinctTargets(entries: seq<FileEntry>, prefix: Path) {
    forall i, j | 0 <= i < j < |entries| :: Target(entries[i], prefix) != Target(entries[j], prefix)
  }

  /** Type, size and time of the row are those announced. */
  ghost predicate Matches(row: FileRow, e: FileEntry) {
    && row.isDir == (e.isDir && !e.isSymlink) && row.isSymlink == e.isSymlink && row.mtimeNs == e.mtimeNs
    && (e.isSymlink ==> row.linkTarget == e.linkTarget)
    && (!e.isDir && !e.isSymlink ==> row.size == e.size)
  }

  ghost predicate Stored(view: map<Path, Entry>, e: FileEntry, prefix: Path) {
    Target(e, prefix) in view && Matches(view[Target(e, prefix)].row, e)
  }

  /** Below the prefix the manifest holds exactly the entries' paths, each as announced. */
  ghost predicate Mirrors(view: map<Path, Entry>, entries: seq<FileEntry>, prefix: Path) {
    && (forall i | 0 <= i < |entries| && HasRow(entries[i], prefix) :: Stored(view, entries[i], prefix))
    && (forall p | p in view && InSubtree(p, prefix) ::
          exists i :: 0 <= i < |entries| && HasRow(entries[i], prefix) && Target(entries[i], prefix) == p)
  }

  /** Nothing outside the prefix's subtree differs. */
  ghost predicate SameOutside(before: map<Path, Entry>, after: map<Path, Entry>, prefix: Path) {
    forall p | !InSubtree(p, prefix) :: (p in before <==> p in after) && (p in before ==> before[p] == after[p])
  }

  ghost predicate SameBut(before: map<Path, Entry>, after: map<Path, Entry>, path: Path) {
    forall p | p != path :: (p in before <==> p in after) && (p in before ==> before[p] == after[p])
  }

  // ----------------------------------------------------------------- one entry

  function StaticRow(e: FileEntry, path: Path): FileRow {
    if e.isSymlink then FileRow(path, false, true, e.mode, e.uid, e.gid, 0, e.mtimeNs, e.linkTarget)
    else FileRow(TrimSlash(path), true, false, e.mode, e.uid, e.gid, 0, e.mtimeNs, [])
  }

  /** applyStaticEntry: a directory or a symbolic link. */
  method ApplyStaticEntry(db: Database, e: FileEntry, path: Path)
    requires db.Valid() && (e.isDir || e.isSymlink)
    modifies db
    ensures db.Valid()
    ensures var row := StaticRow(e, path);
      db.Manifest() == old(db.Manifest())[row.path := Entry(row, map[])]
  {
    var ok, _ := db.UpsertFile(StaticRow(e, path), []);
    assert AllPresent(old(db.chunks), []);
    assert RefMap([]) == map[];
  }

  /** How the transfer of a file's content ends: refused by the peer, spoilt, broken off, or stored as these chunks. */
  datatype Transfer = Updated(refs: seq<ChunkRef>) | NotSent | BadSum | Broken

  /** The peer at one entry: it goes away or the context ends, or the exchange takes place. */
  datatype Peer = Peer(gone: bool, transfer: Transfer)

  ghost predicate InOrderTransfer(peer: Peer) {
    peer.transfer.Updated? ==> Ordered(peer.transfer.refs)
  }

  /** What a receiver reports, as the session sees it. */
  function FromReceiver(r: Receiver.Received): Transfer {
    match r
    case Stored(refs) => Updated(refs)
    case BadSum => BadSum
    case Refused => Broken
    case Interrupted => Broken
  }

  /** The receivers number their references in order. */
  lemma ReceivedInOrder(content: map<int, bytes>, refs: seq<ChunkRef>, pieces: seq<bytes>)
    requires Receiver.Stores(content, refs, pieces)
    ensures InOrderTransfer(Peer(false, FromReceiver(Receiver.Stored(refs))))
  {
    forall i | 0 <= i < |refs| ensures refs[i].idx == i {
      assert Receiver.Holds(content, refs[i], i, pieces[i]);
    }
  }

  /** An ordinary file, by its mode and flags. */
  predicate Plain(e: FileEntry) {
    e.path != [] && !Special(e) && !e.isDir && !e.isSymlink
  }

  /** The quick check: an ordinary file's row with the announced time and size. */
  ghost predicate UpToDate(view: map<Path, Entry>, e: FileEntry, prefix: Path) {
    var path := Full(e.path, prefix);
    path in view && !view[path].row.isDir && !view[path].row.isSymlink
      && view[path].row.mtimeNs == e.mtimeNs && view[path].row.size == e.size
  }

  /** The session asks the peer for this entry's content. */
  ghost predicate Awaited(view: map<Path, Entry>, e: FileEntry, s: Settings) {
    Plain(e) && !s.dryRun && !UpToDate(view, e, s.prefix)
  }

  /** The start of receiveFileDelta: the quick check, and no transfer in a dry run. */
  method ReceiveFile(db: Database, e: FileEntry, s: Settings, sent: Transfer) returns (t: Option<Transfer>)
    requires db.Valid()
    ensures t == if s.dryRun || UpToDate(db.Manifest(), e, s.prefix) then None else Some(sent)
  {
    var row := db.GetFileRow(Full(e.path, s.prefix));
    if row.Some? && !row.value.isDir && !row.value.isSymlink && row.value.mtimeNs == e.mtimeNs
      && row.value.size == e.size {
      return None;
    }
    if s.dryRun {
      return None;
    }
    t := Some(sent);
  }

  datatype Step = Kept | Skipped | Aborted

  /** The session cannot go on: the peer is gone, the entry has no name, or its content cannot be stored. */
  ghost predicate Stops(view: map<Path, Entry>, chunks: Chunks, e: FileEntry, s: Settings, peer: Peer) {
    || peer.gone
    || (e.path == [] && !e.isDir)
    || (Awaited(view, e, s) && match peer.transfer
          case Broken => true
          case Updated(refs) => !AllPresent(chunks, refs)
          case _ => false)
  }

  /** Devices, links without a target, and files the peer cannot read are left out. */
  ghost predicate PassedOver(view: map<Path, Entry>, e: FileEntry, s: Settings, peer: Peer) {
    || (e.path != [] && (Special(e) || (e.isSymlink && e.linkTarget == [])))
    || (Awaited(view, e, s) && (peer.transfer.NotSent? || peer.transfer.BadSum?))
  }

  /** An entry that is kept is written, unless nothing is, it has no row, or its row is up to date. */
  ghost predicate Writes(view: map<Path, Entry>, e: FileEntry, s: Settings) {
    !s.dryRun && HasRow(e, s.prefix) && !(Plain(e) && UpToDate(view, e, s.prefix))
  }

  /** The row at the entry's path has every announced field; only files have a size, only links a target. */
  ghost predicate Announced(row: FileRow, e: FileEntry, prefix: Path) {
    && row.path == Target(e, prefix)
    && row.isDir == (e.isDir && !e.isSymlink) && row.isSymlink == e.isSymlink
    && row.mode == e.mode && row.uid == e.uid && row.gid == e.gid && row.mtimeNs == e.mtimeNs
    && row.size == (if e.isDir || e.isSymlink then 0 else e.size)
    && row.linkTarget == (if e.isSymlink then e.linkTarget else [])
  }

  /** The entry's row is the announced one, over the chunks the transfer stored, or none. */
  ghost predicate Recorded(view: map<Path, Entry>, e: FileEntry, s: Settings, peer: Peer) {
    && Target(e, s.prefix) in view && Announced(view[Target(e, s.prefix)].row, e, s.prefix)
    && view[Target(e, s.prefix)].refs ==
       if Plain(e) && peer.transfer.Updated? then RefMap(peer.transfer.refs) else map[]
  }

  /** The cases a pass distinguishes. */
  lemma PassCases(view: map<Path, Entry>, chunks: Chunks, e: FileEntry, s: Settings, peer: Peer)
    ensures peer.gone || (e.path == [] && !e.isDir) ==> Stops(view, chunks, e, s, peer)
    ensures !peer.gone && e.path == [] && e.isDir ==>
      && !Stops(view, chunks, e, s, peer) && !PassedOver(view, e, s, peer)
      && (Writes(view, e, s) <==> s.prefix != [] && !s.dryRun)
    ensures !peer.gone && e.path != [] && Special(e) ==>
      !Stops(view, chunks, e, s, peer) && PassedOver(view, e, s, peer)
    ensures !peer.gone && e.path != [] && !Special(e) && (e.isDir || e.isSymlink) ==>
      && !Stops(view, chunks, e, s, peer) && (PassedOver(view, e, s, peer) <==> e.isSymlink && e.linkTarget == [])
      && (Writes(view, e, s) <==> !s.dryRun)
  {
    hide Special, UpToDate, AllPresent;
  }

  lemma PlainCases(view: map<Path, Entry>, chunks: Chunks, e: FileEntry, s: Settings, peer: Peer)
    requires Plain(e) && !peer.gone
    ensures s.dryRun || UpToDate(view, e, s.prefix) ==>
      !Stops(view, chunks, e, s, peer) && !PassedOver(view, e, s, peer) && !Writes(view, e, s)
    ensures !s.dryRun && !UpToDate(view, e, s.prefix) ==>
      && (Stops(view, chunks, e, s, peer) <==>
            peer.transfer.Broken? || (peer.transfer.Updated? && !AllPresent(chunks, peer.transfer.refs)))
      && (PassedOver(view, e, s, peer) <==> peer.transfer.NotSent? || peer.transfer.BadSum?)
      && Writes(view, e, s)
  {
    hide Special, UpToDate, AllPresent;
  }

  lemma StaticRecorded(was: map<Path, Entry>, e: FileEntry, s: Settings, peer: Peer, path: Path)
    requires path == Full(e.path, s.prefix) && (e.isDir || e.isSymlink)
    ensures var row := StaticRow(e, path);
      var now := was[row.path := Entry(row, map[])];
      SameBut(was, now, Target(e, s.prefix)) && Recorded(now, e, s, peer)
  {
    hide Full;
  }

  lemma FileRecorded(was: map<Path, Entry>, e: FileEntry, s: Settings, peer: Peer)
    requires Plain(e) && peer.transfer.Updated?
    ensures var path := Full(e.path, s.prefix);
      var row := FileRow(path, false, false, e.mode, e.uid, e.gid, e.size, e.mtimeNs, []);
      var now := was[path := Entry(row, RefMap(peer.transfer.refs))];
      SameBut(was, now, Target(e, s.prefix)) && Recorded(now, e, s, peer)
  {
    hide Full, Special;
  }

  lemma NothingChanged(view: map<Path, Entry>, path: Path)
    ensures SameBut(view, view, path)
  {
  }

  /** One pass of the transfer loop. */
  method ApplyEntry(db: Database, e: FileEntry, s: Settings, peer: Peer) returns (step: Step)
    requires db.Valid()
    requires RelativeEntry(e, s.prefix) && InOrderTransfer(peer)
    modifies db
    ensures db.Valid()
    ensures step == Aborted <==> Stops(old(db.Manifest()), old(db.chunks), e, s, peer)
    ensures step != Aborted ==> (step == Skipped <==> PassedOver(old(db.Manifest()), e, s, peer))
    ensures SameBut(old(db.Manifest()), db.Manifest(), Target(e, s.prefix))
    ensures step == Kept && Writes(old(db.Manifest()), e, s) ==> Recorded(db.Manifest(), e, s, peer)
    ensures step != Kept || !Writes(old(db.Manifest()), e, s) ==> db.T() == old(db.T())
  {
    ghost var was := db.Manifest();
    PassCases(was, db.chunks, e, s, peer);
    NothingChanged(was, Target(e, s.prefix));
    hide Consistent, Database.Manifest, Stops, PassedOver, Writes, Recorded, SameBut, UpToDate, Special, AllPresent,
      RefMap, Target, StaticRow;
    if peer.gone {
      return Aborted;
    }
    if e.path == [] {
      if !e.isDir {
        return Aborted;
      }
      if s.prefix != [] && !s.dryRun {
        ApplyStaticEntry(db, e, s.prefix);
        StaticRecorded(was, e, s, peer, s.prefix);
      }
      return Kept;
    }
    if Special(e) {
      return Skipped;
    }
    if e.isDir || e.isSymlink {
      if e.isSymlink && e.linkTarget == [] {
        return Skipped;
      }
      if !s.dryRun {
        ApplyStaticEntry(db, e, Full(e.path, s.prefix));
        StaticRecorded(was, e, s, peer, Full(e.path, s.prefix));
      }
      return Kept;
    }
    PlainCases(was, db.chunks, e, s, peer);
    var t := ReceiveFile(db, e, s, peer.transfer);
    match t {
      case None => return Kept;
      case Some(Broken) => return Aborted;
      case Some(NotSent) => return Skipped;
      case Some(BadSum) => return Skipped;
      case Some(Updated(refs)) =>
        var row := FileRow(Full(e.path, s.prefix), false, false, e.mode, e.uid, e.gid, e.size, e.mtimeNs, []);
        FileRecorded(was, e, s, peer);
        var ok, _ := db.UpsertFile(row, refs);
        return if ok then Kept else Aborted;
    }
  }

  // ------------------------------------------------------------------- a session

  /** How the session ended: completed or not, entries passed over, and entries done with. */
  datatype Summary = Summary(ok: bool, skipped: nat, done: nat)

  ghost predicate AllOrdinary(entries: seq<FileEntry>, prefix: Path) {
    (forall i | 0 <= i < |entries| :: Ordinary(entries[i])) && DistinctTargets(entries, prefix)
  }

  ghost predicate AllInOrder(peers: seq<Peer>) {
    forall i | 0 <= i < |peers| :: InOrderTransfer(peers[i])
  }

  /** No row has the empty path. */
  ghost predicate NamedRows(view: map<Path, Entry>) {
    [] !in view
  }

  ghost predicate SameAt(before: map<Path, Entry>, after: map<Path, Entry>, path: Path) {
    (path in before <==> path in after) && (path in before ==> before[path] == after[path])
  }

  /** What one entry comes to: the announced row over the transferred chunks, or what was there before. */
  ghost predicate Settled(was: map<Path, Entry>, now: map<Path, Entry>, e: FileEntry, s: Settings, peer: Peer) {
    if Writes(was, e, s) && !PassedOver(was, e, s, peer) then Recorded(now, e, s, peer)
    else SameAt(was, now, Target(e, s.prefix))
  }

  ghost predicate SettledUpTo(was: map<Path, Entry>, now: map<Path, Entry>, entries: seq<FileEntry>, s: Settings,
      peers: seq<Peer>, n: nat)
    requires |peers| == |entries|
  {
    forall i | 0 <= i < n && i < |entries| :: Settled(was, now, entries[i], s, peers[i])
  }

  /** Only the paths of the first n entries differ. */
  ghost predicate OthersSame(was: map<Path, Entry>, now: map<Path, Entry>, entries: seq<FileEntry>, prefix: Path,
      n: nat)
  {
    forall p | !TargetOfFirst(entries, prefix, n, p) :: SameAt(was, now, p)
  }

  ghost predicate TargetOfFirst(entries: seq<FileEntry>, prefix: Path, n: nat, p: Path) {
    exists i :: 0 <= i < n && i < |entries| && HasRow(entries[i], prefix) && Target(entries[i], prefix) == p
  }

  /** None of the first n entries has been left out. */
  ghost predicate NonePassedOver(was: map<Path, Entry>, entries: seq<FileEntry>, s: Settings, peers: seq<Peer>, n: nat)
    requires |peers| == |entries|
  {
    forall i | 0 <= i < n && i < |entries| :: !PassedOver(was, entries[i], s, peers[i])
  }

  /** What the passes over the first n entries have done. */
  ghost predicate SoFar(was: map<Path, Entry>, now: map<Path, Entry>, entries: seq<FileEntry>, s: Settings,
      peers: seq<Peer>, n: nat, skipped: nat)
    requires |peers| == |entries|
  {
    && OthersSame(was, now, entries, s.prefix, n)
    && (DistinctTargets(entries, s.prefix) ==>
          && SettledUpTo(was, now, entries, s, peers, n)
          && (skipped == 0 <==> NonePassedOver(was, entries, s, peers, n)))
  }

  lemma NothingYet(was: map<Path, Entry>, entries: seq<FileEntry>, s: Settings, peers: seq<Peer>)
    requires |peers| == |entries|
    ensures SoFar(was, was, entries, s, peers, 0, 0)
  {
  }

  lemma TargetNamed(e: FileEntry, prefix: Path)
    requires RelativeEntry(e, prefix)
    ensures HasRow(e, prefix) ==> Target(e, prefix) != []
  {
  }

  /** Paths outside the prefix, and the empty path, are no entry's. */
  lemma OutsideSame(was: map<Path, Entry>, now: map<Path, Entry>, entries: seq<FileEntry>, prefix: Path, n: nat)
    requires Relative(entries, prefix) && OthersSame(was, now, entries, prefix, n)
    ensures SameOutside(was, now, prefix) && (NamedRows(was) ==> NamedRows(now))
  {
    hide Target, InSubtree, RelativeEntry;
    forall p | !InSubtree(p, prefix) || p == [] ensures SameAt(was, now, p) {
      if TargetOfFirst(entries, prefix, n, p) {
        var i :| 0 <= i < n && i < |entries| && HasRow(entries[i], prefix) && Target(entries[i], prefix) == p;
        assert RelativeEntry(entries[i], prefix);
        TargetInside(entries[i], prefix);
        TargetNamed(entries[i], prefix);
      }
    }
  }

  /** What a pass that does not stop does to the view. */
  ghost predicate Passes(before: map<Path, Entry>, after: map<Path, Entry>, e: FileEntry, s: Settings, peer: Peer,
      step: Step)
  {
    && step != Aborted && (step == Skipped <==> PassedOver(before, e, s, peer))
    && SameBut(before, after, Target(e, s.prefix))
    && (step == Kept && Writes(before, e, s) ==> Recorded(after, e, s, peer))
    && (step != Kept || !Writes(before, e, s) ==> after == before)
  }

  /** A pass depends on the view at the entry's own path only. */
  lemma OwnPathDecides(was: map<Path, Entry>, before: map<Path, Entry>, e: FileEntry, s: Settings, peer: Peer)
    requires SameAt(was, before, Target(e, s.prefix))
    ensures Writes(was, e, s) <==> Writes(before, e, s)
    ensures PassedOver(was, e, s, peer) <==> PassedOver(before, e, s, peer)
  {
    if Plain(e) {
      assert Target(e, s.prefix) == Full(e.path, s.prefix);
    }
    hide Special, Full;
  }

  lemma PassSettles(was: map<Path, Entry>, before: map<Path, Entry>, after: map<Path, Entry>, e: FileEntry,
      s: Settings, peer: Peer, step: Step)
    requires SameAt(was, before, Target(e, s.prefix)) && Passes(before, after, e, s, peer, step)
    ensures Settled(was, after, e, s, peer)
  {
    OwnPathDecides(was, before, e, s, peer);
    hide Target, Writes, PassedOver, Recorded;
  }

  lemma OthersAfter(was: map<Path, Entry>, before: map<Path, Entry>, after: map<Path, Entry>,
      entries: seq<FileEntry>, s: Settings, peer: Peer, n: nat, step: Step)
    requires n < |entries| && OthersSame(was, before, entries, s.prefix, n)
    requires Passes(before, after, entries[n], s, peer, step)
    ensures OthersSame(was, after, entries, s.prefix, n + 1)
  {
    assert !HasRow(entries[n], s.prefix) ==> after == before;
    hide Target, Writes, PassedOver, Recorded, HasRow;
    forall p | !TargetOfFirst(entries, s.prefix, n + 1, p) ensures SameAt(was, after, p) {
      assert !TargetOfFirst(entries, s.prefix, n, p);
    }
  }

  lemma SettledStays(was: map<Path, Entry>, before: map<Path, Entry>, after: map<Path, Entry>, e: FileEntry,
      s: Settings, peer: Peer)
    requires Settled(was, before, e, s, peer) && SameAt(before, after, Target(e, s.prefix))
    ensures Settled(was, after, e, s, peer)
  {
    hide Target, Writes, PassedOver, Announced;
  }

  /** The path of entry n is untouched before its pass, the paths of the others after theirs. */
  lemma AllSettled(was: map<Path, Entry>, before: map<Path, Entry>, after: map<Path, Entry>,
      entries: seq<FileEntry>, s: Settings, peers: seq<Peer>, n: nat, step: Step)
    requires |peers| == |entries| && n < |entries| && DistinctTargets(entries, s.prefix)
    requires OthersSame(was, before, entries, s.prefix, n) && SettledUpTo(was, before, entries, s, peers, n)
    requires Passes(before, after, entries[n], s, peers[n], step)
    ensures SettledUpTo(was, after, entries, s, peers, n + 1)
    ensures NonePassedOver(was, entries, s, peers, n + 1) <==>
      NonePassedOver(was, entries, s, peers, n) && step == Kept
  {
    var own := Target(entries[n], s.prefix);
    assert !TargetOfFirst(entries, s.prefix, n, own);
    assert SameAt(was, before, own);
    OwnPathDecides(was, before, entries[n], s, peers[n]);
    PassSettles(was, before, after, entries[n], s, peers[n], step);
    hide Writes, PassedOver, Recorded, Settled, HasRow, OthersSame, Target;
    forall i | 0 <= i < n + 1 ensures Settled(was, after, entries[i], s, peers[i]) {
      if i < n {
        assert SameAt(before, after, Target(entries[i], s.prefix));
        SettledStays(was, before, after, entries[i], s, peers[i]);
      }
    }
  }

  lemma OneMore(was: map<Path, Entry>, before: map<Path, Entry>, after: map<Path, Entry>, entries: seq<FileEntry>,
      s: Settings, peers: seq<Peer>, n: nat, skipped: nat, step: Step)
    requires |peers| == |entries| && n < |entries|
    requires SoFar(was, before, entries, s, peers, n, skipped)
    requires Passes(before, after, entries[n], s, peers[n], step)
    ensures SoFar(was, after, entries, s, peers, n + 1, if step == Kept then skipped else skipped + 1)
  {
    assert step != Aborted;
    OthersAfter(was, before, after, entries, s, peers[n], n, step);
    if DistinctTargets(entries, s.prefix) {
      AllSettled(was, before, after, entries, s, peers, n, step);
    }
    hide OthersSame, DistinctTargets, SettledUpTo, NonePassedOver, Passes;
  }

  lemma EntryAtIs(entries: seq<FileEntry>, peers: seq<Peer>, prefix: Path, i: nat)
    requires Relative(entries, prefix) && AllInOrder(peers) && i < |entries| == |peers|
    ensures RelativeEntry(entries[i], prefix) && InOrderTransfer(peers[i])
  {
  }

  method PassOver(db: Database, e: FileEntry, s: Settings, peer: Peer) returns (step: Step)
    requires db.Valid() && RelativeEntry(e, s.prefix) && InOrderTransfer(peer)
    modifies db
    ensures db.Valid()
    ensures step == Aborted ==> db.Manifest() == old(db.Manifest()) && Stops(db.Manifest(), db.chunks, e, s, peer)
    ensures s.dryRun ==> db.T() == old(db.T())
    ensures step != Aborted ==> Passes(old(db.Manifest()), db.Manifest(), e, s, peer, step)
  {
    assert s.dryRun ==> !Writes(db.Manifest(), e, s);
    hide SameBut, Recorded, Writes, Stops, PassedOver, Target, Consistent;
    step := ApplyEntry(db, e, s, peer);
  }

  /** The pass over entry i, in terms of all that has happened. */
  method PassNext(db: Database, entries: seq<FileEntry>, s: Settings, peers: seq<Peer>, i: nat,
      ghost was: map<Path, Entry>, skipped: nat)
    returns (stopped: bool, skipped': nat)
    requires db.Valid() && |peers| == |entries| && i < |entries|
    requires Relative(entries, s.prefix) && AllInOrder(peers)
    requires SoFar(was, db.Manifest(), entries, s, peers, i, skipped)
    modifies db
    ensures db.Valid()
    ensures stopped ==> Stops(db.Manifest(), db.chunks, entries[i], s, peers[i])
    ensures SoFar(was, db.Manifest(), entries, s, peers, if stopped then i else i + 1, skipped')
    ensures s.dryRun ==> db.T() == old(db.T())
  {
    hide *;
    ghost var before := db.Manifest();
    EntryAtIs(entries, peers, s.prefix, i);
    var step := PassOver(db, entries[i], s, peers[i]);
    skipped' := skipped;
    if step == Aborted {
      return true, skipped;
    }
    OneMore(was, before, db.Manifest(), entries, s, peers, i, skipped, step);
    if step == Skipped {
      skipped' := skipped + 1;
    }
    stopped := false;
  }

  /**
   The transfer loop: every entry once, in list order, up to the first at which the session stops;
   there the manifest is that of the entries before.
   */
  method ApplyEntries(db: Database, entries: seq<FileEntry>, s: Settings, peers: seq<Peer>) returns (r: Summary)
    requires db.Valid() && |peers| == |entries|
    requires Relative(entries, s.prefix) && AllInOrder(peers)
    modifies db
    ensures db.Valid() && r.done <= |entries| && (r.ok <==> r.done == |entries|)
    ensures !r.ok ==> Stops(db.Manifest(), db.chunks, entries[r.done], s, peers[r.done])
    ensures SoFar(old(db.Manifest()), db.Manifest(), entries, s, peers, r.done, r.skipped)
    ensures s.dryRun ==> db.T() == old(db.T())
  {
    ghost var was := db.Manifest();
    var skipped := 0;
    hide *;
    NothingYet(was, entries, s, peers);
    for i := 0 to |entries|
      invariant db.Valid() && skipped >= 0
      invariant SoFar(was, db.Manifest(), entries, s, peers, i, skipped)
      invariant s.dryRun ==> db.T() == old(db.T())
    {
      var stopped;
      stopped, skipped := PassNext(db, entries, s, peers, i, was, skipped);
      if stopped {
        return Summary(false, skipped, i);
      }
    }
    r := Summary(true, skipped, |entries|);
  }

  // -------------------------------------------------------------------- deletion

  /** Paths the list covers, trailing slashes dropped. */
  function Covered(entries: seq<FileEntry>, prefix: Path): set<Path> {
    set i | 0 <= i < |entries| :: Full(TrimSlash(entries[i].path), prefix)
  }

  /** A row below the prefix that the list does not cover. */
  ghost predicate Extraneous(view: map<Path, Entry>, covered: set<Path>, prefix: Path, p: Path) {
    p in view && InSubtree(p, prefix) && p !in covered
  }

  /** The context ends just before this row's deletion. */
  ghost predicate Interrupts(view: map<Path, Entry>, covered: set<Path>, prefix: Path, ends: Option<Path>) {
    ends.Some? && Extraneous(view, covered, prefix, ends.value)
  }

  /** All extraneous rows are gone, or those before the interruption, and no other. */
  ghost predicate Cleared(was: map<Path, Entry>, now: map<Path, Entry>, covered: set<Path>, prefix: Path,
      before: Option<Path>)
  {
    && (forall p :: p in now <==>
          p in was && !(Extraneous(was, covered, prefix, p) && (before.Some? ==> LexLess(p, before.value))))
    && (forall p | p in now :: now[p] == was[p])
  }

  ghost function WithoutUncovered(view: map<Path, Entry>, rows: seq<FileRow>, covered: set<Path>): map<Path, Entry> {
    view - (PathsOf(rows) - covered)
  }

  ghost predicate NotAmong(rows: seq<FileRow>, covered: set<Path>, ends: Option<Path>) {
    ends.Some? && ends.value in PathsOf(rows) ==> ends.value in covered
  }

  /** The --delete pass: rows below the prefix that the list does not cover, in byte order. */
  method DeleteExtraneous(db: Database, entries: seq<FileEntry>, prefix: Path, ends: Option<Path>) returns (ok: bool)
    requires db.Valid()
    modifies db
    ensures db.Valid()
    ensures ok <==> !Interrupts(old(db.Manifest()), Covered(entries, prefix), prefix, ends)
    ensures Cleared(old(db.Manifest()), db.Manifest(), Covered(entries, prefix), prefix, if ok then None else ends)
  {
    ghost var was := db.Manifest();
    var covered := Covered(entries, prefix);
    var rows := db.FileRows(prefix);
    NoneDeleted(was, rows, covered, ends);
    hide *;
    for i := 0 to |rows|
      invariant db.Valid() && db.Manifest() == WithoutUncovered(was, rows[..i], covered)
      invariant NotAmong(rows[..i], covered, ends)
    {
      OneRowOn(was, rows, i, covered, ends);
      if rows[i].path in covered {
        continue;
      }
      if ends == Some(rows[i].path) {
        DeletedBefore(was, rows, i, covered, prefix);
        return false;
      }
      db.DeleteFile(rows[i].path);
    }
    assert rows[..|rows|] == rows;
    AllDeleted(was, rows, covered, prefix, ends);
    ok := true;
  }

  lemma NoneDeleted(was: map<Path, Entry>, rows: seq<FileRow>, covered: set<Path>, ends: Option<Path>)
    ensures was == WithoutUncovered(was, rows[..0], covered) && NotAmong(rows[..0], covered, ends)
  {
  }

  lemma OneRowOn(was: map<Path, Entry>, rows: seq<FileRow>, i: nat, covered: set<Path>, ends: Option<Path>)
    requires i < |rows|
    ensures WithoutUncovered(was, rows[..i + 1], covered) ==
      if rows[i].path in covered then WithoutUncovered(was, rows[..i], covered)
      else WithoutUncovered(was, rows[..i], covered) - {rows[i].path}
    ensures NotAmong(rows[..i], covered, ends) && (rows[i].path in covered || ends != Some(rows[i].path)) ==>
      NotAmong(rows[..i + 1], covered, ends)
  {
    PathsOfStep(rows, i);
  }

  lemma AllDeleted(was: map<Path, Entry>, rows: seq<FileRow>, covered: set<Path>, prefix: Path, ends: Option<Path>)
    requires Listing(was, rows, prefix) && NotAmong(rows, covered, ends)
    ensures Cleared(was, WithoutUncovered(was, rows, covered), covered, prefix, None)
    ensures !Interrupts(was, covered, prefix, ends)
  {
    hide InOrder, InSubtree;
  }

  /** The rows listed before row i are those with smaller paths. */
  lemma ListedBefore(rows: seq<FileRow>, i: nat, p: Path)
    requires InOrder(rows) && i < |rows|
    ensures p in PathsOf(rows[..i]) <==> p in PathsOf(rows) && LexLess(p, rows[i].path)
  {
    if p in PathsOf(rows[..i]) {
      var r :| r in rows[..i] && r.path == p;
      var j :| 0 <= j < i && rows[j] == r;
    }
    if p in PathsOf(rows) && LexLess(p, rows[i].path) {
      LexIrreflexive(p, rows[i].path);
      var r :| r in rows && r.path == p;
      var j :| 0 <= j < |rows| && rows[j] == r;
      assert j < i;
      assert rows[..i][j] == r;
    }
  }

  lemma DeletedBefore(was: map<Path, Entry>, rows: seq<FileRow>, i: nat, covered: set<Path>, prefix: Path)
    requires Listing(was, rows, prefix) && i < |rows| && rows[i].path !in covered
    ensures Interrupts(was, covered, prefix, Some(rows[i].path))
    ensures Cleared(was, WithoutUncovered(was, rows[..i], covered), covered, prefix, Some(rows[i].path))
  {
    assert rows[i] in rows;
    forall p ensures p in PathsOf(rows[..i]) <==> p in PathsOf(rows) && LexLess(p, rows[i].path) {
      ListedBefore(rows, i, p);
    }
    hide InOrder, InSubtree, LexLess;
  }

  lemma ClearedOutside(was: map<Path, Entry>, now: map<Path, Entry>, covered: set<Path>, prefix: Path,
      before: Option<Path>)
    requires Cleared(was, now, covered, prefix, before)
    ensures SameOutside(was, now, prefix)
    ensures forall p | p in covered :: SameAt(was, now, p)
  {
    hide InSubtree, LexLess;
  }

  // ------------------------------------------------------------ a whole session

  /** Only directories' names end in a slash. */
  ghost predicate NoStraySlash(e: FileEntry) {
    e.path != [] && e.path[|e.path| - 1] == SLASH ==> e.isDir && !e.isSymlink
  }

  lemma TrimmedFull(e: FileEntry, prefix: Path)
    requires NoStraySlash(e) && RelativeEntry(e, prefix) && (e.path == [] ==> e.isDir && !e.isSymlink)
    ensures Full(TrimSlash(e.path), prefix) == Target(e, prefix)
  {
    if e.path != [] && prefix != [] && e.path[|e.path| - 1] == SLASH {
      assert TrimSlash(prefix + [SLASH] + e.path) == prefix + [SLASH] + e.path[..|e.path| - 1];
    }
  }

  lemma CoveredTargets(entries: seq<FileEntry>, prefix: Path)
    requires Relative(entries, prefix) && forall i | 0 <= i < |entries| :: Ordinary(entries[i])
    ensures forall p :: p in Covered(entries, prefix) <==>
      exists i :: 0 <= i < |entries| && Target(entries[i], prefix) == p
  {
    forall i | 0 <= i < |entries| ensures Full(TrimSlash(entries[i].path), prefix) == Target(entries[i], prefix) {
      assert RelativeEntry(entries[i], prefix) && NoStraySlash(entries[i]);
      TrimmedFull(entries[i], prefix);
    }
  }

  /** Entries that were not left out are stored as announced. */
  lemma SettledStored(was: map<Path, Entry>, now: map<Path, Entry>, e: FileEntry, s: Settings, peer: Peer)
    requires Settled(was, now, e, s, peer) && !PassedOver(was, e, s, peer)
    requires Ordinary(e) && HasRow(e, s.prefix) && !s.dryRun
    ensures Stored(now, e, s.prefix)
  {
    if !Writes(was, e, s) {
      assert Plain(e) && Target(e, s.prefix) == Full(e.path, s.prefix);
    }
    hide Special, Full;
  }

  lemma MirrorsAfterDelete(was: map<Path, Entry>, mid: map<Path, Entry>, after: map<Path, Entry>,
      entries: seq<FileEntry>, s: Settings, peers: seq<Peer>)
    requires |peers| == |entries| && Relative(entries, s.prefix) && AllOrdinary(entries, s.prefix) && !s.dryRun
    requires SoFar(was, mid, entries, s, peers, |entries|, 0)
    requires Cleared(mid, after, Covered(entries, s.prefix), s.prefix, None)
    requires NamedRows(mid)
    ensures Mirrors(after, entries, s.prefix)
  {
    CoveredTargets(entries, s.prefix);
    hide Covered, SameAt, Target, Ordinary, Settled, PassedOver, Stored, InSubtree, Relative, DistinctTargets;
    forall i | 0 <= i < |entries| && HasRow(entries[i], s.prefix) ensures Stored(after, entries[i], s.prefix) {
      assert Ordinary(entries[i]) && Settled(was, mid, entries[i], s, peers[i]);
      SettledStored(was, mid, entries[i], s, peers[i]);
      assert Target(entries[i], s.prefix) in Covered(entries, s.prefix);
      StillStored(mid, after, entries[i], s.prefix);
    }
    forall p | p in after && InSubtree(p, s.prefix)
      ensures exists i :: 0 <= i < |entries| && HasRow(entries[i], s.prefix) && Target(entries[i], s.prefix) == p
    {
      assert p in Covered(entries, s.prefix);
      var i :| 0 <= i < |entries| && Target(entries[i], s.prefix) == p;
      RootHasNoRow(entries[i], s.prefix);
    }
  }

  lemma StillStored(mid: map<Path, Entry>, after: map<Path, Entry>, e: FileEntry, prefix: Path)
    requires Stored(mid, e, prefix) && Target(e, prefix) in after
    requires after[Target(e, prefix)] == mid[Target(e, prefix)]
    ensures Stored(after, e, prefix)
  {
    hide Target;
  }

  lemma RootHasNoRow(e: FileEntry, prefix: Path)
    ensures !HasRow(e, prefix) ==> Target(e, prefix) == []
  {
  }

  ghost predicate NamedOrDir(e: FileEntry) {
    e.path == [] ==> e.isDir && !e.isSymlink
  }

  /** Each entry has a path of its own, and its row's path is the one the deletion compares with. */
  ghost predicate Tidy(entries: seq<FileEntry>, prefix: Path) {
    && DistinctTargets(entries, prefix)
    && forall i | 0 <= i < |entries| :: NoStraySlash(entries[i]) && NamedOrDir(entries[i])
  }

  ghost predicate Deletes(s: Settings) {
    s.delete && !s.dryRun && s.ioError == 0
  }

  /** Paths that no entry done with has: as they were, but for extraneous ones that a deletion reached. */
  ghost predicate Remains(was: map<Path, Entry>, now: map<Path, Entry>, entries: seq<FileEntry>, s: Settings,
      r: Summary, ends: Option<Path>)
  {
    forall p | !TargetOfFirst(entries, s.prefix, r.done, p) ::
      if Deletes(s) && r.done == |entries| && Extraneous(was, Covered(entries, s.prefix), s.prefix, p)
         && (!r.ok && ends.Some? ==> LexLess(p, ends.value))
      then p !in now
      else SameAt(was, now, p)
  }

  lemma TargetsCovered(entries: seq<FileEntry>, prefix: Path, i: nat)
    requires Relative(entries, prefix) && Tidy(entries, prefix) && i < |entries|
    ensures Target(entries[i], prefix) in Covered(entries, prefix)
  {
    assert RelativeEntry(entries[i], prefix) && NoStraySlash(entries[i]) && NamedOrDir(entries[i]);
    hide Relative, Tidy, Target, Full, NoStraySlash, RelativeEntry;
    assert NamedOrDir(entries[i]);
    TrimmedFull(entries[i], prefix);
  }

  lemma ExtraneousUntargeted(entries: seq<FileEntry>, prefix: Path, n: nat, p: Path)
    requires Relative(entries, prefix) && Tidy(entries, prefix) && TargetOfFirst(entries, prefix, n, p)
    ensures p in Covered(entries, prefix)
  {
    var i :| 0 <= i < n && i < |entries| && HasRow(entries[i], prefix) && Target(entries[i], prefix) == p;
    hide *;
    TargetsCovered(entries, prefix, i);
  }

  /** The transfers change no path that deletion would remove. */
  lemma SameExtraneous(was: map<Path, Entry>, mid: map<Path, Entry>, entries: seq<FileEntry>, prefix: Path, p: Path)
    requires Relative(entries, prefix) && Tidy(entries, prefix) && OthersSame(was, mid, entries, prefix, |entries|)
    ensures Extraneous(was, Covered(entries, prefix), prefix, p) <==>
      Extraneous(mid, Covered(entries, prefix), prefix, p)
  {
    if p !in Covered(entries, prefix) {
      if TargetOfFirst(entries, prefix, |entries|, p) {
        ExtraneousUntargeted(entries, prefix, |entries|, p);
      }
      assert SameAt(was, mid, p);
    }
    hide InSubtree, Covered, TargetOfFirst;
  }

  lemma SettledAfterDelete(was: map<Path, Entry>, mid: map<Path, Entry>, now: map<Path, Entry>,
      entries: seq<FileEntry>, s: Settings, peers: seq<Peer>, before: Option<Path>)
    requires |peers| == |entries| && SettledUpTo(was, mid, entries, s, peers, |entries|)
    requires Relative(entries, s.prefix) && Tidy(entries, s.prefix)
    requires Cleared(mid, now, Covered(entries, s.prefix), s.prefix, before)
    ensures SettledUpTo(was, now, entries, s, peers, |entries|)
  {
    ClearedOutside(mid, now, Covered(entries, s.prefix), s.prefix, before);
    hide Target, Covered, Settled, SameAt, Cleared, Tidy, Relative;
    forall i | 0 <= i < |entries| ensures Settled(was, now, entries[i], s, peers[i]) {
      TargetsCovered(entries, s.prefix, i);
      SettledStays(was, mid, now, entries[i], s, peers[i]);
    }
  }

  lemma RemainsAfterDelete(was: map<Path, Entry>, mid: map<Path, Entry>, now: map<Path, Entry>,
      entries: seq<FileEntry>, s: Settings, r: Summary, ends: Option<Path>)
    requires Relative(entries, s.prefix) && Tidy(entries, s.prefix) && Deletes(s) && r.done == |entries|
    requires OthersSame(was, mid, entries, s.prefix, |entries|) && (!r.ok ==> ends.Some?)
    requires Cleared(mid, now, Covered(entries, s.prefix), s.prefix, if r.ok then None else ends)
    ensures Remains(was, now, entries, s, r, ends)
  {
    hide Covered, Extraneous, TargetOfFirst, LexLess, Tidy, Relative;
    forall p | !TargetOfFirst(entries, s.prefix, r.done, p)
      ensures if Extraneous(was, Covered(entries, s.prefix), s.prefix, p) && (!r.ok ==> LexLess(p, ends.value))
        then p !in now else SameAt(was, now, p)
    {
      SameExtraneous(was, mid, entries, s.prefix, p);
      assert SameAt(was, mid, p);
    }
  }

  lemma RemainsWithoutDelete(was: map<Path, Entry>, now: map<Path, Entry>, entries: seq<FileEntry>, s: Settings,
      r: Summary, ends: Option<Path>)
    requires OthersSame(was, now, entries, s.prefix, r.done) && !(Deletes(s) && r.done == |entries|)
    ensures Remains(was, now, entries, s, r, ends)
  {
    hide TargetOfFirst, SameAt;
  }

  /** What a session comes to. */
  ghost predicate Outcome(was: map<Path, Entry>, now: map<Path, Entry>, entries: seq<FileEntry>, s: Settings,
      peers: seq<Peer>, ends: Option<Path>, r: Summary)
    requires |peers| == |entries|
  {
    && SettledUpTo(was, now, entries, s, peers, r.done)
    && Remains(was, now, entries, s, r, ends)
    && (r.skipped == 0 <==> NonePassedOver(was, entries, s, peers, r.done))
    && (r.ok <==>
          (r.done == |entries| && !(Deletes(s) && Interrupts(was, Covered(entries, s.prefix), s.prefix, ends))))
  }

  lemma WithoutDelete(was: map<Path, Entry>, now: map<Path, Entry>, entries: seq<FileEntry>, s: Settings,
      peers: seq<Peer>, ends: Option<Path>, r: Summary)
    requires |peers| == |entries| && Relative(entries, s.prefix)
    requires SoFar(was, now, entries, s, peers, r.done, r.skipped)
    requires !(Deletes(s) && r.done == |entries|) && (r.ok <==> r.done == |entries|)
    ensures SameOutside(was, now, s.prefix)
    ensures Tidy(entries, s.prefix) ==> Outcome(was, now, entries, s, peers, ends, r)
  {
    OutsideSame(was, now, entries, s.prefix, r.done);
    RemainsWithoutDelete(was, now, entries, s, r, ends);
    hide OthersSame, DistinctTargets, SettledUpTo, NonePassedOver, Remains, Interrupts, Relative, SameOutside;
  }

  lemma WithDelete(was: map<Path, Entry>, mid: map<Path, Entry>, now: map<Path, Entry>, entries: seq<FileEntry>,
      s: Settings, peers: seq<Peer>, ends: Option<Path>, r: Summary)
    requires |peers| == |entries| && Relative(entries, s.prefix) && Deletes(s) && r.done == |entries|
    requires SoFar(was, mid, entries, s, peers, r.done, r.skipped)
    requires r.ok <==> !Interrupts(mid, Covered(entries, s.prefix), s.prefix, ends)
    requires Cleared(mid, now, Covered(entries, s.prefix), s.prefix, if r.ok then None else ends)
    ensures SameOutside(was, now, s.prefix)
    ensures Tidy(entries, s.prefix) ==> Outcome(was, now, entries, s, peers, ends, r)
  {
    OutsideSame(was, mid, entries, s.prefix, r.done);
    ClearedOutside(mid, now, Covered(entries, s.prefix), s.prefix, if r.ok then None else ends);
    OutsideTwice(was, mid, now, s.prefix);
    if Tidy(entries, s.prefix) {
      assert SettledUpTo(was, mid, entries, s, peers, |entries|);
      SettledAfterDelete(was, mid, now, entries, s, peers, if r.ok then None else ends);
      if ends.Some? {
        SameExtraneous(was, mid, entries, s.prefix, ends.value);
      }
      RemainsAfterDelete(was, mid, now, entries, s, r, ends);
    }
    hide OthersSame, DistinctTargets, SettledUpTo, NonePassedOver, Remains, Relative, SameOutside, Extraneous, Covered,
      Cleared;
  }

  lemma OutsideTwice(was: map<Path, Entry>, mid: map<Path, Entry>, now: map<Path, Entry>, prefix: Path)
    requires SameOutside(was, mid, prefix) && SameOutside(mid, now, prefix)
    ensures SameOutside(was, now, prefix)
  {
    hide InSubtree;
  }

  /**
   A whole session. It stops exactly where an entry stops it or the context ends during the deletion.
   Wherever that is, each entry done with has come to the announced row over the chunks its transfer
   stored, or is as it was when it is up to date or left out; no other path differs, but for extraneous
   ones the deletion reached, and none outside the prefix. A dry run changes nothing. A completed
   --delete session over an error-free list of ordinary entries, none of them left out, leaves exactly
   the listed paths below the prefix.
   */
  method ProcessSession(db: Database, entries: seq<FileEntry>, s: Settings, peers: seq<Peer>, ends: Option<Path>)
    returns (r: Summary)
    requires db.Valid() && |peers| == |entries|
    requires Relative(entries, s.prefix) && AllInOrder(peers) && NamedRows(db.Manifest())
    modifies db
    ensures db.Valid() && r.done <= |entries|
    ensures r.done < |entries| ==> !r.ok && Stops(db.Manifest(), db.chunks, entries[r.done], s, peers[r.done])
    ensures Tidy(entries, s.prefix) ==> Outcome(old(db.Manifest()), db.Manifest(), entries, s, peers, ends, r)
    ensures SameOutside(old(db.Manifest()), db.Manifest(), s.prefix)
    ensures s.dryRun ==> db.T() == old(db.T())
    ensures r.ok && r.skipped == 0 && Deletes(s) && AllOrdinary(entries, s.prefix) ==>
      Mirrors(db.Manifest(), entries, s.prefix)
  {
    ghost var was := db.Manifest();
    r := ApplyEntries(db, entries, s, peers);
    ghost var mid := db.Manifest();
    assert Deletes(s) <==> s.delete && !s.dryRun && s.ioError == 0;
    OutsideKept(was, mid, entries, s, peers, r);
    hide *;
    if !r.ok || !(s.delete && !s.dryRun && s.ioError == 0) {
      WithoutDelete(was, mid, entries, s, peers, ends, r);
      return;
    }
    var ok := DeleteExtraneous(db, entries, s.prefix, ends);
    r := Summary(ok, r.skipped, r.done);
    WithDelete(was, mid, db.Manifest(), entries, s, peers, ends, r);
    if ok && r.skipped == 0 && AllOrdinary(entries, s.prefix) {
      MirrorsAfterDelete(was, mid, db.Manifest(), entries, s, peers);
    }
  }

  lemma OutsideKept(was: map<Path, Entry>, mid: map<Path, Entry>, entries: seq<FileEntry>, s: Settings,
      peers: seq<Peer>, r: Summary)
    requires |peers| == |entries| && Relative(entries, s.prefix) && NamedRows(was)
    requires SoFar(was, mid, entries, s, peers, r.done, r.skipped)
    ensures NamedRows(mid)
  {
    OutsideSame(was, mid, entries, s.prefix, r.done);
  }
}
