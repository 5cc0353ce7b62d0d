/** The writer and the parser of file list entries, step by step (flist_write.go, flist.go). */
module FlistCodec {
  import opened Sequences
  import opened Streams
  import opened Flist
  import opened Paths
  import Varint

  // --------------------------------------------------------------------- writing

  method WriteVarint(sink: ByteSink, v: int)
    requires Int32(v)
    modifies sink
    ensures sink.out == old(sink.out) + VarintBytes(v)
  {
    Varint.WriteVarint(sink, v);
  }

  method WriteVarlong(sink: ByteSink, v: int, m: nat)
    requires Int64(v) && 2 <= m <= 8
    modifies sink
    ensures sink.out == old(sink.out) + VarlongBytes(v, m)
  {
    Varint.WriteVarlong(sink, v, m);
  }

  /** Builds the flag word bit by bit and writes it in one byte or two. */
  method WriteFlags(sink: ByteSink, e: FileEntry, o: Opts)
    modifies sink
    ensures sink.out == old(sink.out) + FlagBytes(FlagsOf(e, o))
  {
    var xflags := 0;
    if !o.uid {
      xflags := xflags + SAME_UID;
    }
    if !o.gid {
      xflags := xflags + SAME_GID;
    }
    if e.mtimeNs != 0 {
      if Nanos(e) != 0 {
        xflags := xflags + MOD_NSEC;
      }
    }
    if xflags == 0 && !e.isDir {
      xflags := xflags + TOP_DIR;
    }
    assert xflags == FlagsOf(e, o);
    if xflags >= 256 || xflags == 0 {
      xflags := xflags + EXTENDED;
      ExtendedHigh(xflags);
      sink.Write([xflags % 256, xflags / 256]);
    } else {
      sink.Write([xflags]);
    }
  }

  lemma ExtendedHigh(x: nat)
    requires EXTENDED <= x < 0x4000 && (x - EXTENDED) % 256 < 252
    ensures x / 256 == ((x - EXTENDED) / 256) % 256 < 256
  {
  }

  method TrimmedName(e: FileEntry) returns (name: bytes)
    ensures name == SentName(e)
  {
    name := e.path;
    if e.isDir {
      while |name| > 0 && name[|name| - 1] == SLASH
        invariant TrimSlashes(name) == TrimSlashes(e.path)
      {
        name := name[..|name| - 1];
      }
    }
  }

  method WriteOwners(sink: ByteSink, e: FileEntry, o: Opts)
    requires InRange(e)
    modifies sink
    ensures sink.out == old(sink.out) + OwnerBytes(e, o)
  {
    ghost var start := sink.out;
    if o.uid {
      WriteVarint(sink, e.uid);
    }
    if o.gid {
      WriteVarint(sink, e.gid);
    }
    hide VarintBytes;
    Assoc(start, if o.uid then VarintBytes(e.uid) else [], if o.gid then VarintBytes(e.gid) else []);
    assert start + [] == start;
    assert sink.out + [] == sink.out;
  }

  method WriteTarget(sink: ByteSink, e: FileEntry, o: Opts)
    requires InRange(e)
    modifies sink
    ensures sink.out == old(sink.out) + TargetBytes(e, o)
  {
    ghost var start := sink.out;
    hide VarintBytes;
    if o.links && e.isSymlink {
      WriteVarint(sink, |e.linkTarget|);
      sink.Write(e.linkTarget);
      Assoc(start, VarintBytes(|e.linkTarget|), e.linkTarget);
    } else {
      assert start + [] == start;
    }
  }

  method WriteTimes(sink: ByteSink, e: FileEntry)
    requires InRange(e)
    modifies sink
    ensures sink.out == old(sink.out) + TimeBytes(e)
  {
    InRangeFields(e);
    ghost var start := sink.out;
    hide VarlongBytes, VarintBytes;
    WriteVarlong(sink, TruncDiv(e.mtimeNs, SECOND), 4);
    var nsec := Nanos(e);
    if nsec != 0 {
      WriteVarint(sink, nsec);
    }
    assert sink.out == (start + VarlongBytes(TruncDiv(e.mtimeNs, SECOND), 4)) + NanoBytes(e);
    hide NanoBytes;
    Assoc(start, VarlongBytes(TruncDiv(e.mtimeNs, SECOND), 4), NanoBytes(e));
  }

  /** FlistWriter.WriteEntry: refuses a missing or overlong name and writes nothing then. */
  method WriteEntry(sink: ByteSink, e: FileEntry, o: Opts) returns (ok: bool)
    requires InRange(e)
    modifies sink
    ensures ok <==> 0 < |SentName(e)| <= MAX_NAME
    ensures sink.out == if ok then old(sink.out) + EntryBytes(e, o) else old(sink.out)
  {
    var name := TrimmedName(e);
    if name == [] || |name| > MAX_NAME {
      return false;
    }
    InRangeFields(e);
    ghost var start := sink.out;
    hide FlagBytes, FlagsOf, SentName, SentSize, VarlongBytes, TimeBytes, OwnerBytes, TargetBytes, LE;
    WriteFlags(sink, e, o);
    sink.Write([|name| % 256]);
    sink.Write(name);
    var size := if e.isSymlink then |e.linkTarget| else e.size;
    SizeSent(e);
    WriteVarlong(sink, size, 3);
    WriteTimes(sink, e);
    sink.Write(LE(e.mode, 4));
    WriteOwners(sink, e, o);
    WriteTarget(sink, e, o);
    InOrder(start, FlagBytes(FlagsOf(e, o)), [|name| % 256], name, VarlongBytes(size, 3), TimeBytes(e), LE(e.mode, 4),
            OwnerBytes(e, o), TargetBytes(e, o));
    ok := true;
  }

  lemma SizeSent(e: FileEntry)
    ensures SentSize(e) == if e.isSymlink then |e.linkTarget| else e.size
  {
  }

  lemma InOrder(s: bytes, f: bytes, n: bytes, name: bytes, z: bytes, t: bytes, m: bytes, own: bytes, target: bytes)
    ensures (((((((s + f) + n) + name) + z) + t) + m) + own) + target
      == s + (f + (n + (name + (z + (t + (m + (own + target)))))))
  {
    Assoc(((((((s + f) + n) + name) + z) + t) + m), own, target);
    Assoc((((((s + f) + n) + name) + z) + t), m, own + target);
    Assoc(((((s + f) + n) + name) + z), t, m + (own + target));
    Assoc((((s + f) + n) + name), z, t + (m + (own + target)));
    Assoc(((s + f) + n), name, z + (t + (m + (own + target))));
    Assoc((s + f), n, name + (z + (t + (m + (own + target)))));
    Assoc(s, f, n + (name + (z + (t + (m + (own + target))))));
  }

  // ------------------------------------------------------------- sending the list

  /** An entry to send, with the digest of its content unless reading it fails. */
  datatype Source = Source(e: FileEntry, digest: Option<bytes>)

  predicate WantsSum(e: FileEntry, o: Opts) {
    o.checksum && !e.isDir && !e.isSymlink && RegularMode(e.mode)
  }

  ghost predicate CanSend(src: Source, o: Opts) {
    0 < |SentName(src.e)| <= MAX_NAME && (WantsSum(src.e, o) ==> src.digest.Some?)
  }

  /** The first n entries can be sent. */
  ghost predicate CanSendAll(srcs: seq<Source>, o: Opts, n: nat) {
    forall i | 0 <= i < n && i < |srcs| :: CanSend(srcs[i], o)
  }

  lemma CanSendNone(srcs: seq<Source>, o: Opts)
    ensures CanSendAll(srcs, o, 0)
  {
  }

  lemma CanSendNext(srcs: seq<Source>, o: Opts, n: nat)
    requires n < |srcs|
    ensures CanSendAll(srcs, o, n + 1) <==> CanSendAll(srcs, o, n) && CanSend(srcs[n], o)
    ensures CanSendAll(srcs, o, |srcs|) ==> CanSend(srcs[n], o)
  {
    hide CanSend;
  }

  ghost function ItemOf(src: Source, o: Opts): Item {
    Item(src.e, if WantsSum(src.e, o) && src.digest.Some? then src.digest.value else [])
  }

  ghost function Items(srcs: seq<Source>, o: Opts): (r: seq<Item>)
    ensures |r| == |srcs| && forall i | 0 <= i < |srcs| :: r[i] == ItemOf(srcs[i], o)
    decreases |srcs|
  {
    if srcs == [] then [] else Items(srcs[..|srcs| - 1], o) + [ItemOf(srcs[|srcs| - 1], o)]
  }

  lemma {:induction false} EntriesSnoc(items: seq<Item>, item: Item, o: Opts)
    requires AllInRange(items) && InRange(item.e)
    ensures AllInRange(items + [item])
    ensures EntriesBytes(items + [item], o) == EntriesBytes(items, o) + (EntryBytes(item.e, o) + item.sum)
    decreases |items|
  {
    var x := EntryBytes(item.e, o) + item.sum;
    var all := items + [item];
    assert AllInRange(all);
    if items == [] {
      assert all[1..] == [] && [] + x == x && x + [] == x;
    } else {
      assert all[1..] == items[1..] + [item] && all[0] == items[0];
      EntriesSnoc(items[1..], item, o);
      Assoc(EntryBytes(items[0].e, o) + items[0].sum, EntriesBytes(items[1..], o), x);
    }
  }

  ghost function SourceBytes(src: Source, o: Opts): bytes
    requires InRange(src.e)
  {
    EntryBytes(src.e, o) + ItemOf(src, o).sum
  }

  /** One entry with its checksum, or nothing when either cannot be produced. */
  method SendEntry(sink: ByteSink, src: Source, o: Opts) returns (ok: bool)
    requires InRange(src.e)
    modifies sink
    ensures ok <==> CanSend(src, o)
    ensures ok ==> sink.out == old(sink.out) + SourceBytes(src, o)
    ensures !ok ==> sink.out == old(sink.out)
  {
    var buf := new ByteSink();
    ok := WriteEntry(buf, src.e, o);
    hide EntryBytes;
    assert [] + EntryBytes(src.e, o) == EntryBytes(src.e, o);
    assert EntryBytes(src.e, o) + [] == EntryBytes(src.e, o);
    if !ok {
      return;
    }
    if WantsSum(src.e, o) {
      if src.digest.None? {
        return false;
      }
      buf.Write(src.digest.value);
    }
    sink.Write(buf.out);
  }

  ghost predicate RangesOk(srcs: seq<Source>) {
    forall i | 0 <= i < |srcs| :: InRange(srcs[i].e)
  }

  /** The first n entries are out. */
  ghost predicate Sent(start: bytes, srcs: seq<Source>, o: Opts, n: nat, out: bytes) {
    n <= |srcs| && AllInRange(Items(srcs[..n], o)) && out == start + EntriesBytes(Items(srcs[..n], o), o)
  }

  lemma SentNone(start: bytes, srcs: seq<Source>, o: Opts)
    ensures Sent(start, srcs, o, 0, start)
  {
    assert start + [] == start;
  }

  lemma SentNext(start: bytes, srcs: seq<Source>, o: Opts, n: nat, out: bytes)
    requires RangesOk(srcs) && n < |srcs| && Sent(start, srcs, o, n, out)
    ensures InRange(srcs[n].e)
    ensures Sent(start, srcs, o, n + 1, out + SourceBytes(srcs[n], o))
  {
    var done := Items(srcs[..n], o);
    assert srcs[..n + 1][..n] == srcs[..n];
    assert Items(srcs[..n + 1], o) == done + [ItemOf(srcs[n], o)];
    assert InRange(ItemOf(srcs[n], o).e);
    hide EntriesBytes, EntryBytes, InRange, Items;
    EntriesSnoc(done, ItemOf(srcs[n], o), o);
    Assoc(start, EntriesBytes(done, o), SourceBytes(srcs[n], o));
  }

  lemma SentAll(start: bytes, srcs: seq<Source>, o: Opts, out: bytes)
    requires Sent(start, srcs, o, |srcs|, out)
    ensures AllInRange(Items(srcs, o)) && out == start + EntriesBytes(Items(srcs, o), o)
  {
    assert srcs[..|srcs|] == srcs;
  }

  lemma ItemsInRange(srcs: seq<Source>, o: Opts)
    requires RangesOk(srcs)
    ensures AllInRange(Items(srcs, o))
  {
    hide InRange;
  }

  /** The entries, up to the first that cannot be sent. */
  method SendEntries(sink: ByteSink, srcs: seq<Source>, o: Opts) returns (ok: bool)
    requires RangesOk(srcs)
    modifies sink
    ensures ok <==> CanSendAll(srcs, o, |srcs|)
    ensures ok ==> Sent(old(sink.out), srcs, o, |srcs|, sink.out)
  {
    ghost var start := sink.out;
    hide *;
    SentNone(start, srcs, o);
    CanSendNone(srcs, o);
    for i := 0 to |srcs|
      invariant CanSendAll(srcs, o, i)
      invariant Sent(start, srcs, o, i, sink.out)
    {
      SentNext(start, srcs, o, i, sink.out);
      CanSendNext(srcs, o, i);
      ok := SendEntry(sink, srcs[i], o);
      if !ok {
        return;
      }
    }
    ok := true;
  }

  /**
   The sender's loop: entries in list order, each with the checksum a regular file needs, then the
   end mark and, unless ids go as numbers, one empty id list for each owner kept.
   */
  method SendList(sink: ByteSink, srcs: seq<Source>, o: Opts, numericIds: bool) returns (ok: bool)
    requires RangesOk(srcs)
    modifies sink
    ensures ok <==> CanSendAll(srcs, o, |srcs|)
    ensures AllInRange(Items(srcs, o))
    ensures ok && !numericIds ==> sink.out == old(sink.out) + ListBytes(Items(srcs, o), o)
    ensures ok && numericIds ==> sink.out == old(sink.out) + (EntriesBytes(Items(srcs, o), o) + [0])
  {
    ghost var start := sink.out;
    ItemsInRange(srcs, o);
    ok := SendEntries(sink, srcs, o);
    if ok {
      SentAll(start, srcs, o, sink.out);
      SendTail(sink, o, numericIds);
      hide EntriesBytes, IdListBytes, Items, InRange;
      Assoc(start, EntriesBytes(Items(srcs, o), o), [0] + if numericIds then [] else IdListBytes(o));
      assert [0] + [] == [0];
    }
  }

  /** The end mark and the id lists. */
  method SendTail(sink: ByteSink, o: Opts, numericIds: bool)
    modifies sink
    ensures sink.out == old(sink.out) + ([0] + if numericIds then [] else IdListBytes(o))
  {
    ghost var start := sink.out;
    sink.Write([0]);
    hide VarintBytes;
    if !numericIds {
      SendSegment(sink, o.uid);
      SendSegment(sink, o.gid);
      Assoc(start + [0], SegmentBytes(o.uid), SegmentBytes(o.gid));
      Assoc(start, [0], IdListBytes(o));
    } else {
      assert [0] + [] == [0];
    }
  }

  /** WriteIdList when the owner is kept: a segment with nothing but its end. */
  method SendSegment(sink: ByteSink, kept: bool)
    modifies sink
    ensures sink.out == old(sink.out) + SegmentBytes(kept)
  {
    if kept {
      WriteVarint(sink, 0);
    } else {
      assert sink.out + [] == sink.out;
    }
  }

  /**
   What SendList wrote, for entries the format carries, the receiver reads back entry for entry:
   checksums are where it expects them and the id lists end where it stops.
   */
  lemma SentListArrives(srcs: seq<Source>, o: Opts, tail: bytes)
    requires CanSendAll(srcs, o, |srcs|) && forall i | 0 <= i < |srcs| :: Sendable(srcs[i].e, o)
    requires forall i | 0 <= i < |srcs| && srcs[i].digest.Some? :: |srcs[i].digest.value| == CSUM_LENGTH
    ensures AllInRange(Items(srcs, o))
    ensures ParseList(o, ListBytes(Items(srcs, o), o) + tail) == Ok(Flist.Arrived(Items(srcs, o), o), tail)
  {
    ItemsSendable(srcs, o);
    hide *;
    ListRoundTrip(Items(srcs, o), o, tail);
  }

  lemma ItemsSendable(srcs: seq<Source>, o: Opts)
    requires CanSendAll(srcs, o, |srcs|) && forall i | 0 <= i < |srcs| :: Sendable(srcs[i].e, o)
    requires forall i | 0 <= i < |srcs| && srcs[i].digest.Some? :: |srcs[i].digest.value| == CSUM_LENGTH
    ensures AllInRange(Items(srcs, o)) && AllSendable(Items(srcs, o), o)
  {
    hide Sendable, CanSend, SumFits, ItemOf, InRange;
    forall i | 0 <= i < |srcs|
      ensures ItemOf(srcs[i], o).e == srcs[i].e && SumFits(srcs[i].e, o, ItemOf(srcs[i], o).sum) && InRange(srcs[i].e)
    {
      SumOfType(srcs[i], o);
    }
  }

  lemma SumOfType(src: Source, o: Opts)
    requires Sendable(src.e, o) && CanSend(src, o)
    requires src.digest.Some? ==> |src.digest.value| == CSUM_LENGTH
    ensures ItemOf(src, o).e == src.e && SumFits(src.e, o, ItemOf(src, o).sum) && InRange(src.e)
  {
  }

  // --------------------------------------------------------------------- reading

  method ReadByte(src: ByteSource) returns (r: Option<byte>)
    modifies src
    ensures r.Some? <==> RByte(old(src.rest)).Ok?
    ensures r.Some? ==> RByte(old(src.rest)) == Ok(r.value, src.rest)
  {
    var b := src.ReadFull(1);
    r := if b.Some? then Some(b.value[0]) else None;
  }

  method Take(src: ByteSource, n: int) returns (r: Option<bytes>)
    modifies src
    ensures r.Some? <==> RTake(old(src.rest), n).Ok?
    ensures r.Some? ==> RTake(old(src.rest), n) == Ok(r.value, src.rest)
  {
    if n < 0 {
      return None;
    }
    r := src.ReadFull(n);
  }

  method ReadVarint(src: ByteSource) returns (r: Option<int>)
    modifies src
    ensures r.Some? <==> RVarint(old(src.rest)).Ok?
    ensures r.Some? ==> RVarint(old(src.rest)) == Ok(r.value, src.rest)
  {
    r := Varint.ReadVarint(src);
  }

  method ReadVarlong(src: ByteSource, m: nat) returns (r: Option<int>)
    requires m >= 1
    modifies src
    ensures r.Some? <==> RVarlong(old(src.rest), m).Ok?
    ensures r.Some? ==> RVarlong(old(src.rest), m) == Ok(r.value, src.rest)
  {
    r := Varint.ReadVarlong(src, m);
  }

  method SkipName(src: ByteSource) returns (r: Option<byte>)
    modifies src
    ensures r.Some? <==> RSkipName(old(src.rest)).Ok?
    ensures r.Some? ==> RSkipName(old(src.rest)) == Ok(r.value, src.rest)
  {
    var ln := ReadByte(src);
    if ln.None? {
      return None;
    }
    var name := Take(src, ln.value);
    r := if name.Some? then ln else None;
  }

  datatype Outcome = Got(e: FileEntry) | ListEnd | Failed

  /** FlistParser: fields are updated as the entry is read. */
  class FlistParser {
    var lastName: bytes
    var lastMode: nat
    var lastMTime: int
    var lastUID: int
    var lastGID: int
    var ioError: int

    ghost function Now(): Parser
      reads this
    {
      Parser(lastName, lastMode, lastMTime, lastUID, lastGID, ioError)
    }

    constructor ()
      ensures Now() == Fresh
    {
      lastName, lastMode, lastMTime, lastUID, lastGID, ioError := [], 0, 0, 0, 0, 0;
    }

    /** The flags, or an end mark; an error code behind the mark is kept. */
    method ReadHead(src: ByteSource) returns (h: Head)
      modifies this`ioError, src
      ensures h == RHead(old(src.rest))
      ensures !h.BadHead? ==> src.rest == h.after
      ensures ioError == if h.EndOfList? && h.ioError.Some? then h.ioError.value else old(ioError)
    {
      ghost var s := src.rest;
      var b := ReadByte(src);
      if b.None? {
        return BadHead;
      }
      if b.value == 0 {
        return EndOfList(None, src.rest);
      }
      var xflags: nat := b.value;
      if !Has(xflags, EXTENDED) {
        return Flags(xflags, src.rest);
      }
      var b2 := ReadByte(src);
      if b2.None? {
        return BadHead;
      }
      assert s[1..][1..] == s[2..];
      xflags := xflags + 256 * b2.value as nat;
      if xflags == EXTENDED + IO_ERROR_ENDLIST {
        var io := ReadVarint(src);
        if io.None? {
          return BadHead;
        }
        ioError := io.value;
        return EndOfList(Some(io.value), src.rest);
      }
      h := Flags(xflags - EXTENDED, src.rest);
    }

    method ReadName(src: ByteSource, x: nat) returns (name: Option<bytes>)
      modifies this`lastName, src
      ensures name.Some? <==> RName(old(lastName), x, old(src.rest)).Ok?
      ensures name.Some? ==>
        RName(old(lastName), x, old(src.rest)) == Ok(name.value, src.rest) && lastName == name.value
    {
      var l1 := 0;
      if Has(x, SAME_NAME) {
        var b := ReadByte(src);
        if b.None? {
          return None;
        }
        l1 := b.value as int;
        if l1 > |lastName| {
          return None;
        }
        lastName := lastName[..l1];
      }
      var more := ReadSuffix(src, x);
      if more.None? {
        return None;
      }
      lastName := if Has(x, SAME_NAME) then lastName + more.value else more.value;
      name := Some(lastName);
    }

    method ReadSuffix(src: ByteSource, x: nat) returns (r: Option<bytes>)
      modifies src
      ensures r.Some? <==> RSuffix(x, old(src.rest)).Ok?
      ensures r.Some? ==> RSuffix(x, old(src.rest)) == Ok(r.value, src.rest)
    {
      var l2;
      if Has(x, LONG_NAME) {
        var v := ReadVarint(src);
        if v.None? {
          return None;
        }
        l2 := v.value;
      } else {
        var b := ReadByte(src);
        if b.None? {
          return None;
        }
        l2 := b.value;
      }
      if l2 > MAX_NAME {
        return None;
      }
      r := Take(src, l2);
    }

    method ReadTimes(src: ByteSource, x: nat) returns (ns: Option<int>)
      modifies this`lastMTime, src
      ensures ns.Some? <==> RTimes(old(lastMTime), x, old(src.rest)).Ok?
      ensures ns.Some? ==> RTimes(old(lastMTime), x, old(src.rest)) == Ok(Times(lastMTime, ns.value), src.rest)
    {
      hide RVarlong, RVarint, Has, Wrap64;
      if !Has(x, SAME_TIME) {
        var t := ReadVarlong(src, 4);
        if t.None? {
          return None;
        }
        lastMTime := Wrap64(t.value * SECOND);
      }
      if Has(x, MOD_NSEC) {
        var n := ReadVarint(src);
        if n.None? {
          return None;
        }
        return Some(Wrap64(lastMTime + n.value));
      }
      ns := Some(lastMTime);
    }

    method ReadMode(src: ByteSource, x: nat) returns (mode: Option<nat>)
      modifies this`lastMode, src
      ensures mode.Some? <==> RMode(old(lastMode), x, old(src.rest)).Ok?
      ensures mode.Some? ==>
        RMode(old(lastMode), x, old(src.rest)) == Ok(mode.value, src.rest) && lastMode == mode.value
    {
      if Has(x, SAME_MODE) {
        return Some(lastMode);
      }
      var m := src.ReadFull(4);
      if m.None? {
        return None;
      }
      lastMode := Value(m.value);
      mode := Some(lastMode);
    }

    method ReadOwner(src: ByteSource, kept: bool, last: int, sameBit: nat, nameBit: nat, x: nat)
        returns (id: Option<int>)
      requires sameBit > 0 && nameBit > 0
      modifies src
      ensures id.Some? <==> ROwner(kept, last, sameBit, nameBit, x, old(src.rest)).Ok?
      ensures id.Some? ==> ROwner(kept, last, sameBit, nameBit, x, old(src.rest)) == Ok(id.value, src.rest)
    {
      hide RVarint, RSkipName, Has;
      if kept && !Has(x, sameBit) {
        id := ReadVarint(src);
        if id.None? {
          return None;
        }
        if Has(x, nameBit) {
          var name := SkipName(src);
          if name.None? {
            return None;
          }
        }
      } else {
        id := Some(last);
      }
    }

    /** Device numbers, link target and checksum of an entry whose mode is known. */
    method ReadTrailer(src: ByteSource, mode: nat, x: nat, o: Opts, size: int, ns: int) returns (r: Option<FileEntry>)
      requires mode == lastMode
      modifies src
      ensures var want := RLast(Now(), x, o, size, ns, old(src.rest));
        && (r.Some? <==> want.Entry?) && (r.Some? ==> want == Entry(r.value, Now(), src.rest))
    {
      hide RVarint, CleanPath, Has;
      var t := TypeOf(mode);
      if !KnownType(t) {
        return None;
      }
      if IsDevice(t) && o.devices {
        if !Has(x, SAME_RDEV_MAJOR) {
          var major := ReadVarint(src);
          if major.None? {
            return None;
          }
        }
        var minor := ReadVarint(src);
        if minor.None? {
          return None;
        }
      }
      var target := [];
      if o.links && t == TYPE_LNK {
        var l := ReadVarint(src);
        if l.None? {
          return None;
        }
        var tg := Take(src, l.value);
        if tg.None? {
          return None;
        }
        target := tg.value;
      }
      if o.checksum && RegularMode(mode) {
        var sum := Take(src, CSUM_LENGTH);
        if sum.None? {
          return None;
        }
      }
      r := Some(FileEntry(CleanPath(lastName), t == TYPE_DIR, t == TYPE_LNK, mode, lastUID, lastGID,
                          if IsDevice(t) then 0 else size, ns, target));
    }

    method ReadFields(src: ByteSource, x: nat, o: Opts, size: int, ns: int) returns (r: Option<FileEntry>)
      modifies this, src
      ensures var want := RBody(old(Now()), x, o, old(lastName), size, Times(old(lastMTime), ns), old(src.rest));
        && (r.Some? <==> want.Entry?) && (r.Some? ==> want == Entry(r.value, Now(), src.rest))
    {
      hide RMode, RVarlong, ROwner, RLast, Has, TypeOf;
      var mode := ReadMode(src, x);
      if mode.None? {
        return None;
      }
      if o.atimes && TypeOf(mode.value) != TYPE_DIR && !Has(x, SAME_ATIME) {
        var atime := ReadVarlong(src, 4);
        if atime.None? {
          return None;
        }
      }
      var uid := ReadOwner(src, o.uid, lastUID, SAME_UID, USER_NAME_FOLLOWS, x);
      if uid.None? {
        return None;
      }
      lastUID := uid.value;
      var gid := ReadOwner(src, o.gid, lastGID, SAME_GID, GROUP_NAME_FOLLOWS, x);
      if gid.None? {
        return None;
      }
      lastGID := gid.value;
      r := ReadTrailer(src, mode.value, x, o, size, ns);
    }

    /** Parse: one entry, or the end of the list. */
    method Parse(src: ByteSource, o: Opts) returns (r: Outcome)
      modifies this, src
      ensures var want := ParseEntry(old(Now()), o, old(src.rest));
        && (r.Got? <==> want.Entry?) && (r.ListEnd? <==> want.End?)
        && (r.Got? ==> want == Entry(r.e, Now(), src.rest))
        && (r.ListEnd? ==> want == End(Now(), src.rest))
    {
      hide RHead, RName, RVarlong, RTimes, RBody, Has;
      var head := ReadHead(src);
      if head.BadHead? {
        return Failed;
      }
      if head.EndOfList? {
        return ListEnd;
      }
      var xflags := head.x;
      if Has(xflags, HLINKED) {
        return Failed;
      }
      var name := ReadName(src, xflags);
      if name.None? {
        return Failed;
      }
      var size := ReadVarlong(src, 3);
      if size.None? {
        return Failed;
      }
      var ns := ReadTimes(src, xflags);
      if ns.None? {
        return Failed;
      }
      SameBody(old(Now()), Now(), xflags, o, lastName, size.value, Times(lastMTime, ns.value), src.rest);
      var e := ReadFields(src, xflags, o, size.value, ns.value);
      r := if e.Some? then Got(e.value) else Failed;
    }
  }

  /** The remaining fields do not depend on the previous name and time. */
  lemma SameBody(p: Parser, q: Parser, x: nat, o: Opts, name: bytes, size: int, times: Times, s: bytes)
    requires p.lastMode == q.lastMode && p.lastUID == q.lastUID && p.lastGID == q.lastGID && p.ioError == q.ioError
    ensures RBody(p, x, o, name, size, times, s) == RBody(q, x, o, name, size, times, s)
  {
    hide RMode, RAtime, ROwner, RLast;
  }

  method ReadSegment(src: ByteSource) returns (ok: bool)
    modifies src
    ensures ok <==> RSegment(old(src.rest)).Ok?
    ensures ok ==> RSegment(old(src.rest)) == Ok(0, src.rest)
  {
    hide RVarint, RSkipName;
    while true
      invariant RSegment(src.rest) == RSegment(old(src.rest))
      decreases |src.rest|
    {
      var id := ReadVarint(src);
      if id.None? {
        return false;
      }
      if id.value == 0 {
        return true;
      }
      var name := SkipName(src);
      if name.None? {
        return false;
      }
    }
  }

  method ReadIdList(src: ByteSource, o: Opts) returns (ok: bool)
    modifies src
    ensures ok <==> RIdList(o, old(src.rest)).Ok?
    ensures ok ==> RIdList(o, old(src.rest)) == Ok(0, src.rest)
  {
    ok := true;
    if o.uid {
      ok := ReadSegment(src);
    }
    if ok && o.gid {
      ok := ReadSegment(src);
    }
  }

  /** The receiver's loop: entries to the end mark, then the id list. */
  method ReadList(src: ByteSource, o: Opts) returns (r: Option<seq<FileEntry>>)
    modifies src
    ensures r.Some? <==> ParseList(o, old(src.rest)).Ok?
    ensures r.Some? ==> ParseList(o, old(src.rest)) == Ok(r.value, src.rest)
  {
    var parser := new FlistParser();
    var entries: seq<FileEntry> := [];
    ghost var whole := ParseEntries(Fresh, o, src.rest);
    hide ParseEntry;
    assert whole.Ok? ==> entries + whole.value.0 == whole.value.0;
    while true
      invariant var more := ParseEntries(parser.Now(), o, src.rest);
        && (whole.Ok? <==> more.Ok?)
        && (whole.Ok? ==> whole == Ok((entries + more.value.0, more.value.1), more.rest))
      decreases |src.rest|
    {
      ghost var more := ParseEntries(parser.Now(), o, src.rest);
      var out := parser.Parse(src, o);
      match out {
        case Failed => return None;
        case ListEnd =>
          assert entries + [] == entries;
          break;
        case Got(e) =>
          Regroup(entries, e, ParseEntries(parser.Now(), o, src.rest));
          entries := entries + [e];
      }
    }
    var ok := ReadIdList(src, o);
    r := if ok then Some(entries) else None;
  }

  lemma Regroup(entries: seq<FileEntry>, e: FileEntry, more: Step<(seq<FileEntry>, Parser)>)
    ensures more.Ok? ==> entries + ([e] + more.value.0) == (entries + [e]) + more.value.0
  {
  }
}
