/**
 File lists as rsync clients compress them: each entry may leave out what it shares with the one
 before, in any combination the client chooses. The parser restores every name and field
 (internal/front/rsync/protocol/flist.go). The flag word is spelled out bit by bit.
 */
module FlistClient {
  import opened Sequences
  import opened Paths
  import opened Streams
  import opened Flist

  // ------------------------------------------------------------------- the choices

  /** How a name is sent: with a number of leading bytes taken from the previous one, with a long length. */
  datatype NameHow = NameHow(prefix: Option<nat>, long: bool)

  /** How an owner is sent: not at all if the same, else with or without its name. */
  datatype OwnerHow = OwnerHow(same: bool, name: Option<bytes>)

  /** Fields the receiver reads and drops. */
  datatype Dropped = Dropped(sameAtime: bool, atime: int, sameMajor: bool, major: int, minor: int, sum: bytes)

  datatype How = How(
    name: NameHow,
    top: bool,
    sameTime: bool,
    nanos: bool,
    sameMode: bool,
    user: OwnerHow,
    group: OwnerHow,
    dropped: Dropped)

  /** What both ends remember of the previous entry. */
  datatype Memory = Memory(name: bytes, seconds: nat, mode: nat, uid: int, gid: int)

  const Nothing := Memory([], 0, 0, 0, 0)

  function Kind(mode: nat): nat {
    (mode / 0x1000) % 16
  }

  predicate Device(mode: nat) {
    Kind(mode) == 0x2 || Kind(mode) == 0x6
  }

  function Seconds(e: FileEntry): int {
    e.mtimeNs / 1_000_000_000
  }

  function Rest(e: FileEntry): int {
    e.mtimeNs % 1_000_000_000
  }

  /** Fields within what the format carries, and kinds that agree with the mode. */
  ghost predicate Sound(e: FileEntry) {
    && 0 <= e.size < 0x8_0000_0000_0000 && 0 <= e.mtimeNs < 0x8000_0000_0000_0000
    && e.mode < 0x1_0000_0000 && Int32(e.uid) && Int32(e.gid) && |e.linkTarget| < 0x8000_0000
    && Kind(e.mode) in {0x0, 0x1, 0x2, 0x4, 0x6, 0x8, 0xA, 0xC}
    && (e.isDir <==> Kind(e.mode) == 0x4) && (e.isSymlink <==> Kind(e.mode) == 0xA)
  }

  // ------------------------------------------------------------ legal compression

  /** What is left of the name when the prefix is not sent. */
  ghost function Suffix(name: bytes, h: NameHow): bytes {
    if h.prefix.Some? && h.prefix.value <= |name| then name[h.prefix.value..] else name
  }

  /** Lengths go into one byte, except the suffix's in the long form. */
  ghost predicate NameFits(name: bytes, h: NameHow) {
    && (h.prefix.Some? ==> h.prefix.value <= 255)
    && |Suffix(name, h)| <= if h.long then 0x10_0000 else 255
  }

  /** The bytes not sent are those at the front of the previous name. */
  ghost predicate NameLegal(last: bytes, name: bytes, h: NameHow) {
    && NameFits(name, h)
    && (h.prefix.Some? ==>
          h.prefix.value <= |last| && h.prefix.value <= |name| && last[..h.prefix.value] == name[..h.prefix.value])
  }

  ghost predicate OwnerFits(id: int, h: OwnerHow) {
    Int32(id) && (h.name.Some? ==> |h.name.value| <= 255)
  }

  ghost predicate OwnerLegal(kept: bool, last: int, id: int, h: OwnerHow) {
    OwnerFits(id, h) && (kept && h.same ==> id == last)
  }

  ghost predicate DroppedFits(e: FileEntry, o: Opts, d: Dropped) {
    && 0 <= d.atime < 0x800_0000_0000_0000 && Int32(d.major) && Int32(d.minor)
    && |d.sum| == if o.checksum && (Kind(e.mode) == 0x0 || Kind(e.mode) == 0x8) then 16 else 0
  }

  /** Nothing is left out that differs from the previous entry. */
  ghost predicate Legal(m: Memory, e: FileEntry, h: How, o: Opts) {
    && NameLegal(m.name, e.path, h.name)
    && (h.sameTime ==> Seconds(e) == m.seconds) && (!h.nanos ==> Rest(e) == 0)
    && (h.sameMode ==> e.mode == m.mode)
    && OwnerLegal(o.uid, m.uid, e.uid, h.user) && OwnerLegal(o.gid, m.gid, e.gid, h.group)
    && DroppedFits(e, o, h.dropped)
  }

  ghost function Next(e: FileEntry): Memory
    requires Sound(e)
  {
    Memory(e.path, Seconds(e), e.mode, e.uid, e.gid)
  }

  // -------------------------------------------------------------------- the bytes

  /** Binary digits, the lowest first. */
  function Word(bits: seq<bool>): nat {
    if bits == [] then 0 else (if bits[0] then 1 else 0) + 2 * Word(bits[1..])
  }

  function LowBits(h: How): seq<bool> {
    [h.top, h.sameMode, false, h.user.same, h.group.same, h.name.prefix.Some?, h.name.long, h.sameTime]
  }

  function HighBits(h: How): seq<bool> {
    [h.dropped.sameMajor, false, h.user.name.Some?, h.group.name.Some?, false, h.nanos, h.dropped.sameAtime, false]
  }

  /** The flags: one byte, or two, marked in bit 2 of the first, when one would be zero or not enough. */
  function HeadThen(h: How, tail: bytes): bytes {
    var low, high := Word(LowBits(h)), Word(HighBits(h));
    if high == 0 && low != 0 then [low % 256] + tail else [(low + 4) % 256, high % 256] + tail
  }

  ghost function NameThen(name: bytes, h: NameHow, tail: bytes): bytes
    requires NameFits(name, h)
  {
    var s := Suffix(name, h);
    var sent := if h.long then VarintBytes(|s|) + (s + tail) else [|s|] + (s + tail);
    if h.prefix.Some? then [h.prefix.value] + sent else sent
  }

  ghost function SizeThen(e: FileEntry, tail: bytes): bytes
    requires Sound(e)
  {
    VarlongBytes(e.size, 3) + tail
  }

  ghost function TimeThen(e: FileEntry, h: How, tail: bytes): bytes
    requires Sound(e)
  {
    var more := if h.nanos then VarintBytes(Rest(e)) + tail else tail;
    if h.sameTime then more else VarlongBytes(Seconds(e), 4) + more
  }

  ghost function ModeThen(e: FileEntry, h: How, tail: bytes): bytes
    requires Sound(e)
  {
    if h.sameMode then tail else LE(e.mode, 4) + tail
  }

  ghost function AtimeThen(e: FileEntry, d: Dropped, o: Opts, tail: bytes): bytes
    requires DroppedFits(e, o, d)
  {
    if o.atimes && Kind(e.mode) != 0x4 && !d.sameAtime then VarlongBytes(d.atime, 4) + tail else tail
  }

  ghost function OwnerThen(kept: bool, id: int, h: OwnerHow, tail: bytes): bytes
    requires OwnerFits(id, h)
  {
    if !kept || h.same then tail
    else VarintBytes(id) + if h.name.Some? then [|h.name.value|] + (h.name.value + tail) else tail
  }

  ghost function DeviceThen(e: FileEntry, d: Dropped, o: Opts, tail: bytes): bytes
    requires DroppedFits(e, o, d)
  {
    if !(o.devices && Device(e.mode)) then tail
    else
      var more := VarintBytes(d.minor) + tail;
      if d.sameMajor then more else VarintBytes(d.major) + more
  }

  ghost function TargetThen(e: FileEntry, o: Opts, tail: bytes): bytes
    requires Sound(e)
  {
    if o.links && Kind(e.mode) == 0xA then VarintBytes(|e.linkTarget|) + (e.linkTarget + tail) else tail
  }

  /** One entry in front of what follows it. */
  ghost function EntryThen(m: Memory, e: FileEntry, h: How, o: Opts, tail: bytes): bytes
    requires Sound(e) && Legal(m, e, h, o)
  {
    HeadThen(h, NameThen(e.path, h.name, SizeThen(e, TimeThen(e, h, FromModeThen(e, h, o, tail)))))
  }

  ghost function FromModeThen(e: FileEntry, h: How, o: Opts, tail: bytes): bytes
    requires Sound(e) && OwnerFits(e.uid, h.user) && OwnerFits(e.gid, h.group) && DroppedFits(e, o, h.dropped)
  {
    var last := DeviceThen(e, h.dropped, o, TargetThen(e, o, h.dropped.sum + tail));
    ModeThen(e, h, AtimeThen(e, h.dropped, o, OwnerThen(o.uid, e.uid, h.user, OwnerThen(o.gid, e.gid, h.group, last))))
  }

  // -------------------------------------------------------------------- the flags

  function Two(n: nat): (r: nat)
    ensures r > 0
  {
    if n == 0 then 1 else 2 * Two(n - 1)
  }

  lemma {:induction false} WordBit(bits: seq<bool>, i: nat)
    requires i < |bits|
    ensures Has(Word(bits), Two(i)) <==> bits[i]
    decreases i
  {
    if i > 0 {
      WordBit(bits[1..], i - 1);
      Halve(Word(bits), Word(bits[1..]), Two(i - 1));
    }
  }

  lemma Halve(x: nat, half: nat, p: nat)
    requires x / 2 == half && p > 0
    ensures x / (2 * p) == half / p
  {
    var q, r := half / p, half % p;
    assert half == p * q + r;
    assert x == 2 * half + x % 2;
    assert (2 * p) * q == 2 * (p * q);
    DivUnique(x, 2 * p, q, 2 * r + x % 2);
  }

  lemma {:induction false} WordAppend(a: seq<bool>, b: seq<bool>)
    ensures Word(a + b) == Word(a) + Two(|a|) * Word(b)
    decreases |a|
  {
    if a == [] {
      assert a + b == b;
    } else {
      WordAppend(a[1..], b);
      assert (a + b)[1..] == a[1..] + b && (a + b)[0] == a[0];
      DoubleProduct(Two(|a| - 1), Word(b));
      assert Two(|a|) == 2 * Two(|a| - 1);
      assert Word(a + b) == (if a[0] then 1 else 0) + 2 * Word(a[1..] + b);
      assert Word(a) == (if a[0] then 1 else 0) + 2 * Word(a[1..]);
      hide *;
    }
  }

  lemma DoubleProduct(t: nat, w: nat)
    ensures (2 * t) * w == 2 * (t * w)
  {
  }

  lemma {:induction false} WordBound(bits: seq<bool>)
    ensures Word(bits) < Two(|bits|)
    decreases |bits|
  {
    if bits != [] {
      WordBound(bits[1..]);
    }
  }

  lemma Twos()
    ensures Two(0) == 0x1 && Two(1) == 0x2 && Two(2) == 0x4 && Two(3) == 0x8 && Two(4) == 0x10 && Two(5) == 0x20
    ensures Two(6) == 0x40 && Two(7) == 0x80 && Two(8) == 0x100 && Two(9) == 0x200 && Two(10) == 0x400
    ensures Two(11) == 0x800 && Two(12) == 0x1000 && Two(13) == 0x2000 && Two(14) == 0x4000
  {
    assert Two(3) == 2 * Two(2);
    assert Two(6) == 8 * Two(3);
    assert Two(9) == 8 * Two(6);
    assert Two(12) == 8 * Two(9);
    assert Two(14) == 4 * Two(12);
  }

  function WordOf(h: How): nat {
    Word(LowBits(h) + HighBits(h))
  }

  /** Every flag reads as chosen, and those an entry never carries are clear. */
  ghost predicate Flagged(x: nat, h: How) {
    && (Has(x, SAME_MODE) <==> h.sameMode) && (Has(x, SAME_TIME) <==> h.sameTime) && (Has(x, MOD_NSEC) <==> h.nanos)
    && (Has(x, SAME_NAME) <==> h.name.prefix.Some?) && (Has(x, LONG_NAME) <==> h.name.long)
    && (Has(x, SAME_UID) <==> h.user.same) && (Has(x, USER_NAME_FOLLOWS) <==> h.user.name.Some?)
    && (Has(x, SAME_GID) <==> h.group.same) && (Has(x, GROUP_NAME_FOLLOWS) <==> h.group.name.Some?)
    && (Has(x, SAME_RDEV_MAJOR) <==> h.dropped.sameMajor) && (Has(x, SAME_ATIME) <==> h.dropped.sameAtime)
    && !Has(x, EXTENDED) && !Has(x, HLINKED) && !Has(x, IO_ERROR_ENDLIST)
  }

  lemma FlagsRead(h: How)
    ensures Flagged(WordOf(h), h)
  {
    LowFlagsRead(h);
    HighFlagsRead(h);
    hide WordOf, Has;
  }

  lemma LowFlagsRead(h: How)
    ensures var x := WordOf(h);
      && (Has(x, SAME_MODE) <==> h.sameMode) && (Has(x, SAME_TIME) <==> h.sameTime)
      && (Has(x, SAME_NAME) <==> h.name.prefix.Some?) && (Has(x, LONG_NAME) <==> h.name.long)
      && (Has(x, SAME_UID) <==> h.user.same) && (Has(x, SAME_GID) <==> h.group.same) && !Has(x, EXTENDED)
  {
    var bits := LowBits(h) + HighBits(h);
    hide Word, Has, Two;
    Twos();
    WordBit(bits, 1);
    WordBit(bits, 2);
    WordBit(bits, 3);
    WordBit(bits, 4);
    WordBit(bits, 5);
    WordBit(bits, 6);
    WordBit(bits, 7);
  }

  lemma HighFlagsRead(h: How)
    ensures var x := WordOf(h);
      && (Has(x, SAME_RDEV_MAJOR) <==> h.dropped.sameMajor) && (Has(x, SAME_ATIME) <==> h.dropped.sameAtime)
      && (Has(x, USER_NAME_FOLLOWS) <==> h.user.name.Some?) && (Has(x, GROUP_NAME_FOLLOWS) <==> h.group.name.Some?)
      && (Has(x, MOD_NSEC) <==> h.nanos) && !Has(x, HLINKED) && !Has(x, IO_ERROR_ENDLIST)
  {
    var bits := LowBits(h) + HighBits(h);
    hide Word, Has, Two;
    Twos();
    WordBit(bits, 8);
    WordBit(bits, 9);
    WordBit(bits, 10);
    WordBit(bits, 11);
    WordBit(bits, 12);
    WordBit(bits, 13);
    WordBit(bits, 14);
  }

  lemma TwoBytes(h: How)
    ensures var low, high := Word(LowBits(h)), Word(HighBits(h));
      && WordOf(h) == low + 256 * high && low < 256 && high < 256 && !Has(low, EXTENDED)
  {
    hide Word, Has, Two;
    Twos();
    WordAppend(LowBits(h), HighBits(h));
    WordBound(LowBits(h));
    WordBound(HighBits(h));
    WordBit(LowBits(h), 2);
    assert Two(8) == 256;
  }

  lemma MarkedLow(low: nat, high: nat)
    requires low < 256 && high < 256 && !Has(low, EXTENDED)
    ensures low + 4 < 256 && Has(low + 4, EXTENDED)
  {
  }

  lemma OneByteHead(low: nat, tail: bytes)
    requires 0 < low < 256 && !Has(low, EXTENDED)
    ensures RHead([low] + tail) == Flags(low, tail)
  {
    var s := [low] + tail;
    assert s[0] == low && s[1..] == tail;
    hide Has;
  }

  lemma TwoByteHead(low: nat, high: nat, x: nat, tail: bytes)
    requires low < 256 && high < 256 && x == low + 256 * high
    requires !Has(low, EXTENDED) && !Has(x, IO_ERROR_ENDLIST)
    ensures RHead([(low + 4) % 256, high % 256] + tail) == Flags(x, tail)
  {
    MarkedLow(low, high);
    var s := [low + 4, high] + tail;
    assert s[0] == low + 4 && s[1] == high && s[2..] == tail;
    assert x != IO_ERROR_ENDLIST by {
      assert Has(IO_ERROR_ENDLIST, IO_ERROR_ENDLIST);
    }
    hide Has, RVarint;
  }

  lemma HeadIs(h: How, tail: bytes)
    requires Word(LowBits(h)) < 256
    ensures var low, high := Word(LowBits(h)), Word(HighBits(h));
      && (high == 0 && low != 0 ==> HeadThen(h, tail) == [low] + tail)
      && (high != 0 || low == 0 ==> HeadThen(h, tail) == [(low + 4) % 256, high % 256] + tail)
  {
    hide Word, LowBits, HighBits;
  }

  /** The parser finds the flag word, and takes no entry for an end mark. */
  lemma HeadRead(h: How, tail: bytes)
    ensures RHead(HeadThen(h, tail)) == Flags(WordOf(h), tail)
  {
    var low, high := Word(LowBits(h)), Word(HighBits(h));
    TwoBytes(h);
    FlagsRead(h);
    HeadIs(h, tail);
    assert !Has(WordOf(h), IO_ERROR_ENDLIST);
    hide *;
    if high == 0 && low != 0 {
      OneByteHead(low, tail);
    } else {
      TwoByteHead(low, high, WordOf(h), tail);
    }
  }

  // ------------------------------------------------------------------- the fields

  lemma SuffixRead(name: bytes, h: NameHow, x: nat, tail: bytes)
    requires NameFits(name, h) && (Has(x, LONG_NAME) <==> h.long)
    ensures var s := Suffix(name, h);
      RSuffix(x, if h.long then VarintBytes(|s|) + (s + tail) else [|s|] + (s + tail)) == Ok(s, tail)
  {
    var s := Suffix(name, h);
    TakeBack(s, tail);
    if h.long {
      VarintBack(|s|, s + tail);
    } else {
      ByteBack(|s|, s + tail);
    }
    hide VarintBytes, RVarint, Has, Suffix, RByte;
  }

  lemma NameRead(last: bytes, name: bytes, h: NameHow, x: nat, tail: bytes)
    requires NameLegal(last, name, h)
    requires (Has(x, SAME_NAME) <==> h.prefix.Some?) && (Has(x, LONG_NAME) <==> h.long)
    ensures RName(last, x, NameThen(name, h, tail)) == Ok(name, tail)
  {
    SuffixRead(name, h, x, tail);
    var s := Suffix(name, h);
    var sent := if h.long then VarintBytes(|s|) + (s + tail) else [|s|] + (s + tail);
    if h.prefix.Some? {
      ByteBack(h.prefix.value, sent);
      assert last[..h.prefix.value] + s == name;
    }
    hide VarintBytes, RSuffix, Has, RByte;
  }

  lemma SizeRead(e: FileEntry, tail: bytes)
    requires Sound(e)
    ensures RVarlong(SizeThen(e, tail), 3) == Ok(e.size, tail)
  {
    VarlongBack(e.size, 3, tail);
  }

  lemma NanosOf(base: int, rest: int, total: int, flagged: bool, x: nat, tail: bytes)
    requires base + rest == total && Int64(total) && Int32(rest)
    requires (Has(x, MOD_NSEC) <==> flagged) && (!flagged ==> rest == 0)
    ensures RNanos(base, x, if flagged then VarintBytes(rest) + tail else tail) == Ok(Times(base, total), tail)
  {
    VarintBack(rest, tail);
    WrapIdentity(total);
    hide VarintBytes, RVarint, Has, Wrap64;
  }

  lemma TimeSplits(e: FileEntry)
    requires Sound(e)
    ensures Seconds(e) * 1_000_000_000 + Rest(e) == e.mtimeNs && Int64(e.mtimeNs) && Int32(Rest(e))
  {
  }

  lemma NanosRead(e: FileEntry, h: How, x: nat, tail: bytes)
    requires Sound(e) && (Has(x, MOD_NSEC) <==> h.nanos) && (!h.nanos ==> Rest(e) == 0)
    ensures RNanos(Seconds(e) * 1_000_000_000, x, if h.nanos then VarintBytes(Rest(e)) + tail else tail)
      == Ok(Times(Seconds(e) * 1_000_000_000, e.mtimeNs), tail)
  {
    TimeSplits(e);
    hide *;
    NanosOf(Seconds(e) * 1_000_000_000, Rest(e), e.mtimeNs, h.nanos, x, tail);
  }

  lemma TimeRead(last: int, e: FileEntry, h: How, x: nat, tail: bytes)
    requires Sound(e) && (Has(x, MOD_NSEC) <==> h.nanos) && (Has(x, SAME_TIME) <==> h.sameTime)
    requires (!h.nanos ==> Rest(e) == 0) && (h.sameTime ==> last == Seconds(e) * 1_000_000_000)
    ensures RTimes(last, x, TimeThen(e, h, tail)) == Ok(Times(Seconds(e) * 1_000_000_000, e.mtimeNs), tail)
  {
    var more := if h.nanos then VarintBytes(Rest(e)) + tail else tail;
    NanosRead(e, h, x, tail);
    VarlongBack(Seconds(e), 4, more);
    WrapIdentity(Seconds(e) * 1_000_000_000);
    hide VarlongBytes, VarintBytes, RVarlong, RNanos, Has, Wrap64;
  }

  lemma ModeRead(last: nat, e: FileEntry, h: How, x: nat, tail: bytes)
    requires Sound(e) && (Has(x, SAME_MODE) <==> h.sameMode) && (h.sameMode ==> last == e.mode)
    ensures RMode(last, x, ModeThen(e, h, tail)) == Ok(e.mode, tail)
  {
    Uint32Back(e.mode, tail);
    hide LE, RUint32, Has;
  }

  lemma AtimeRead(e: FileEntry, d: Dropped, o: Opts, x: nat, tail: bytes)
    requires DroppedFits(e, o, d) && (Has(x, SAME_ATIME) <==> d.sameAtime)
    ensures RAtime(e.mode, x, o, AtimeThen(e, d, o, tail)).Ok?
    ensures RAtime(e.mode, x, o, AtimeThen(e, d, o, tail)).rest == tail
  {
    VarlongBack(d.atime, 4, tail);
    hide VarlongBytes, RVarlong, Has;
  }

  lemma OwnerRead(kept: bool, last: int, sameBit: nat, nameBit: nat, x: nat, id: int, h: OwnerHow, tail: bytes)
    requires sameBit > 0 && nameBit > 0 && OwnerLegal(kept, last, id, h)
    requires (Has(x, sameBit) <==> h.same) && (Has(x, nameBit) <==> h.name.Some?)
    ensures ROwner(kept, last, sameBit, nameBit, x, OwnerThen(kept, id, h, tail)) == Ok(if kept then id else last, tail)
  {
    if kept && !h.same {
      var more := if h.name.Some? then [|h.name.value|] + (h.name.value + tail) else tail;
      VarintBack(id, more);
      if h.name.Some? {
        ByteBack(|h.name.value|, h.name.value + tail);
        TakeBack(h.name.value, tail);
      }
    }
    hide VarintBytes, RVarint, Has, RByte, RTake;
  }

  lemma DeviceRead(e: FileEntry, d: Dropped, o: Opts, x: nat, tail: bytes)
    requires DroppedFits(e, o, d) && (Has(x, SAME_RDEV_MAJOR) <==> d.sameMajor)
    ensures RDevice(e.mode, x, o, DeviceThen(e, d, o, tail)).Ok?
    ensures RDevice(e.mode, x, o, DeviceThen(e, d, o, tail)).rest == tail
  {
    VarintBack(d.minor, tail);
    VarintBack(d.major, VarintBytes(d.minor) + tail);
    hide VarintBytes, RVarint, Has;
  }

  lemma TargetRead(e: FileEntry, o: Opts, tail: bytes)
    requires Sound(e)
    ensures RTarget(e.mode, o, TargetThen(e, o, tail)) == Ok(if o.links && e.isSymlink then e.linkTarget else [], tail)
  {
    VarintBack(|e.linkTarget|, e.linkTarget + tail);
    TakeBack(e.linkTarget, tail);
    hide VarintBytes, RVarint, RTake;
  }

  lemma SumRead(e: FileEntry, d: Dropped, o: Opts, tail: bytes)
    requires DroppedFits(e, o, d)
    ensures RChecksum(e.mode, o, d.sum + tail) == Ok(d.sum, tail)
  {
    TakeBack(d.sum, tail);
    assert d.sum == [] ==> d.sum + tail == tail;
  }

  // -------------------------------------------------------------------- one entry

  /** The entry the receiver sees: the name cleaned, owners and target if kept, no size for devices. */
  function Announced(e: FileEntry, o: Opts): FileEntry {
    FileEntry(CleanPath(e.path), e.isDir, e.isSymlink, e.mode, if o.uid then e.uid else 0, if o.gid then e.gid else 0,
              if Device(e.mode) then 0 else e.size, e.mtimeNs, if o.links && e.isSymlink then e.linkTarget else [])
  }

  /** The parser remembers what the client does; owners that are not kept stay zero. */
  ghost predicate InStep(p: Parser, m: Memory, o: Opts) {
    && p.lastName == m.name && p.lastMode == m.mode && p.lastMTime == m.seconds * 1_000_000_000
    && p.lastUID == (if o.uid then m.uid else 0) && p.lastGID == (if o.gid then m.gid else 0)
  }

  lemma LastRead(p: Parser, e: FileEntry, h: How, o: Opts, x: nat, tail: bytes)
    requires Sound(e) && DroppedFits(e, o, h.dropped) && (Has(x, SAME_RDEV_MAJOR) <==> h.dropped.sameMajor)
    requires InStep(p, Next(e), o)
    ensures RLast(p, x, o, e.size, e.mtimeNs,
                  DeviceThen(e, h.dropped, o, TargetThen(e, o, h.dropped.sum + tail)))
      == Entry(Announced(e, o), p, tail)
  {
    DeviceRead(e, h.dropped, o, x, TargetThen(e, o, h.dropped.sum + tail));
    TargetRead(e, o, h.dropped.sum + tail);
    SumRead(e, h.dropped, o, tail);
    hide DeviceThen, TargetThen, RDevice, RTarget, RChecksum, Has, CleanPath;
  }

  lemma BodyRead(p: Parser, m: Memory, e: FileEntry, h: How, o: Opts, x: nat, tail: bytes) returns (q: Parser)
    requires Sound(e) && Legal(m, e, h, o) && Flagged(x, h) && InStep(p, m, o)
    ensures InStep(q, Next(e), o) && q.ioError == p.ioError
    ensures RBody(p, x, o, e.path, e.size, Times(Seconds(e) * 1_000_000_000, e.mtimeNs), FromModeThen(e, h, o, tail))
      == Entry(Announced(e, o), q, tail)
  {
    var last := DeviceThen(e, h.dropped, o, TargetThen(e, o, h.dropped.sum + tail));
    var group := OwnerThen(o.gid, e.gid, h.group, last);
    var user := OwnerThen(o.uid, e.uid, h.user, group);
    ModeRead(p.lastMode, e, h, x, AtimeThen(e, h.dropped, o, user));
    AtimeRead(e, h.dropped, o, x, user);
    OwnerRead(o.uid, p.lastUID, SAME_UID, USER_NAME_FOLLOWS, x, e.uid, h.user, group);
    OwnerRead(o.gid, p.lastGID, SAME_GID, GROUP_NAME_FOLLOWS, x, e.gid, h.group, last);
    q := Parser(e.path, e.mode, Seconds(e) * 1_000_000_000, if o.uid then e.uid else 0, if o.gid then e.gid else 0,
      p.ioError);
    LastRead(q, e, h, o, x, tail);
    hide DeviceThen, TargetThen, OwnerThen, AtimeThen, ModeThen, RMode, RAtime, ROwner, RLast, Has, Announced, Sound,
      DroppedFits, NameLegal;
  }

  /** An entry, compressed in any legal way, parses back with its own name and fields and exactly its bytes consumed. */
  lemma EntryRead(p: Parser, m: Memory, e: FileEntry, h: How, o: Opts, tail: bytes) returns (q: Parser)
    requires Sound(e) && Legal(m, e, h, o) && InStep(p, m, o)
    ensures ParseEntry(p, o, EntryThen(m, e, h, o, tail)) == Entry(Announced(e, o), q, tail)
    ensures InStep(q, Next(e), o) && q.ioError == p.ioError
  {
    var x := WordOf(h);
    var s3 := FromModeThen(e, h, o, tail);
    var s2 := TimeThen(e, h, s3);
    var s1 := SizeThen(e, s2);
    var s0 := NameThen(e.path, h.name, s1);
    FlagsRead(h);
    HeadRead(h, s0);
    NameRead(p.lastName, e.path, h.name, x, s1);
    SizeRead(e, s2);
    TimeRead(p.lastMTime, e, h, x, s3);
    q := BodyRead(p, m, e, h, o, x, tail);
    FieldByField(p, o, HeadThen(h, s0), x, s0, e.path, s1, e.size, s2,
      Times(Seconds(e) * 1_000_000_000, e.mtimeNs), s3);
  }

  // ------------------------------------------------------------- whole file lists

  datatype Line = Line(e: FileEntry, how: How)

  /** Each entry is compressed legally against the one before. */
  ghost predicate ClientList(m: Memory, lines: seq<Line>, o: Opts)
    decreases |lines|
  {
    lines == [] ||
    (Sound(lines[0].e) && Legal(m, lines[0].e, lines[0].how, o) && ClientList(Next(lines[0].e), lines[1..], o))
  }

  ghost function LinesThen(m: Memory, lines: seq<Line>, o: Opts, tail: bytes): bytes
    requires ClientList(m, lines, o)
    decreases |lines|
  {
    if lines == [] then tail
    else EntryThen(m, lines[0].e, lines[0].how, o, LinesThen(Next(lines[0].e), lines[1..], o, tail))
  }

  /** The end mark, with the client's I/O error code if it had one. */
  function EndThen(ioError: Option<int>, tail: bytes): bytes
    requires ioError.Some? ==> Int32(ioError.value)
  {
    match ioError
    case None => [0x00] + tail
    case Some(v) => [0x04, 0x10] + (VarintBytes(v) + tail)
  }

  datatype Named = Named(id: int, name: bytes)

  ghost predicate NamesFit(ids: seq<Named>) {
    forall i | 0 <= i < |ids| :: Int32(ids[i].id) && ids[i].id != 0 && |ids[i].name| <= 255
  }

  /** Ids with their names, ended by a zero. */
  ghost function SegmentThen(ids: seq<Named>, tail: bytes): bytes
    requires NamesFit(ids)
    decreases |ids|
  {
    if ids == [] then VarintBytes(0) + tail
    else VarintBytes(ids[0].id) + ([|ids[0].name|] + (ids[0].name + SegmentThen(ids[1..], tail)))
  }

  ghost function IdListThen(o: Opts, users: seq<Named>, groups: seq<Named>, tail: bytes): bytes
    requires NamesFit(users) && NamesFit(groups)
  {
    var more := if o.gid then SegmentThen(groups, tail) else tail;
    if o.uid then SegmentThen(users, more) else more
  }

  function AllAnnounced(lines: seq<Line>, o: Opts): (r: seq<FileEntry>)
    ensures |r| == |lines| && forall i | 0 <= i < |lines| :: r[i] == Announced(lines[i].e, o)
  {
    if lines == [] then [] else [Announced(lines[0].e, o)] + AllAnnounced(lines[1..], o)
  }

  lemma EndRead(p: Parser, o: Opts, ioError: Option<int>, tail: bytes)
    requires ioError.Some? ==> Int32(ioError.value)
    ensures ParseEntry(p, o, EndThen(ioError, tail)) ==
      End(if ioError.Some? then p.(ioError := ioError.value) else p, tail)
  {
    var s := EndThen(ioError, tail);
    if ioError.Some? {
      VarintBack(ioError.value, tail);
      assert s[0] == 0x04 && s[1] == 0x10 && s[2..] == VarintBytes(ioError.value) + tail;
      assert Has(0x04, EXTENDED);
    } else {
      assert s[0] == 0 && s[1..] == tail;
    }
    hide VarintBytes, RVarint, Has;
  }

  lemma EndsAt(p: Parser, o: Opts, s: bytes, q: Parser, rest: bytes)
    requires ParseEntry(p, o, s) == End(q, rest)
    ensures ParseEntries(p, o, s) == Ok(([], q), rest)
  {
    hide ParseEntry;
  }

  lemma GoesOn(p: Parser, o: Opts, s: bytes, e: FileEntry, q: Parser, rest: bytes, last: Parser, more: seq<FileEntry>,
               tail: bytes)
    requires ParseEntry(p, o, s) == Entry(e, q, rest) && ParseEntries(q, o, rest) == Ok((more, last), tail)
    ensures ParseEntries(p, o, s) == Ok(([e] + more, last), tail)
  {
    hide ParseEntry;
  }

  lemma {:induction false} LinesRead(p: Parser, m: Memory, lines: seq<Line>, o: Opts, ioError: Option<int>, tail: bytes)
    returns (q: Parser)
    requires ClientList(m, lines, o) && InStep(p, m, o)
    requires ioError.Some? ==> Int32(ioError.value)
    ensures ParseEntries(p, o, LinesThen(m, lines, o, EndThen(ioError, tail))) == Ok((AllAnnounced(lines, o), q), tail)
    ensures q.ioError == if ioError.Some? then ioError.value else p.ioError
    decreases |lines|
  {
    var end := EndThen(ioError, tail);
    hide ParseEntry, ParseEntries, EntryThen, InStep, Sound, Legal, Announced, EndThen;
    if lines == [] {
      EndRead(p, o, ioError, tail);
      q := if ioError.Some? then p.(ioError := ioError.value) else p;
      EndsAt(p, o, end, q, tail);
    } else {
      var e, how := lines[0].e, lines[0].how;
      var rest := LinesThen(Next(e), lines[1..], o, end);
      var p' := EntryRead(p, m, e, how, o, rest);
      q := LinesRead(p', Next(e), lines[1..], o, ioError, tail);
      GoesOn(p, o, EntryThen(m, e, how, o, rest), Announced(e, o), p', rest, q, AllAnnounced(lines[1..], o), tail);
    }
  }

  lemma FirstNamed(id: int, name: bytes, rest: bytes)
    requires Int32(id) && id != 0 && |name| <= 255
    ensures RSegment(VarintBytes(id) + ([|name|] + (name + rest))) == RSegment(rest)
  {
    VarintBack(id, [|name|] + (name + rest));
    ByteBack(|name|, name + rest);
    TakeBack(name, rest);
    hide VarintBytes, RVarint, RByte, RTake;
  }

  lemma {:induction false} SegmentRead(ids: seq<Named>, tail: bytes)
    requires NamesFit(ids)
    ensures RSegment(SegmentThen(ids, tail)) == Ok(0, tail)
    decreases |ids|
  {
    if ids == [] {
      VarintBack(0, tail);
      hide VarintBytes, RVarint;
    } else {
      assert NamesFit(ids[1..]);
      SegmentRead(ids[1..], tail);
      FirstNamed(ids[0].id, ids[0].name, SegmentThen(ids[1..], tail));
      hide RSegment, VarintBytes;
    }
  }

  lemma IdListRead(o: Opts, users: seq<Named>, groups: seq<Named>, tail: bytes)
    requires NamesFit(users) && NamesFit(groups)
    ensures RIdList(o, IdListThen(o, users, groups, tail)) == Ok(0, tail)
  {
    var more := if o.gid then SegmentThen(groups, tail) else tail;
    SegmentRead(users, more);
    SegmentRead(groups, tail);
    hide RSegment, SegmentThen;
  }

  /**
   Any list an rsync client may send: whatever it leaves out, takes from the previous entry or adds, the
   parser gives back every entry with its own name and fields, the client's I/O error, and stops
   exactly at the end.
   */
  lemma ClientListRead(lines: seq<Line>, o: Opts, ioError: Option<int>, users: seq<Named>, groups: seq<Named>,
                       tail: bytes)
    requires ClientList(Nothing, lines, o) && NamesFit(users) && NamesFit(groups)
    requires ioError.Some? ==> Int32(ioError.value)
    ensures var rest := IdListThen(o, users, groups, tail);
      var s := LinesThen(Nothing, lines, o, EndThen(ioError, rest));
      && ParseList(o, s) == Ok(AllAnnounced(lines, o), tail)
      && ParseEntries(Fresh, o, s).Ok? && ParseEntries(Fresh, o, s).rest == rest
      && ParseEntries(Fresh, o, s).value.1.ioError == if ioError.Some? then ioError.value else 0
  {
    var rest := IdListThen(o, users, groups, tail);
    assert InStep(Fresh, Nothing, o);
    IdListRead(o, users, groups, tail);
    hide ParseEntries, RIdList, LinesThen, ClientList, EndThen, IdListThen, AllAnnounced, InStep;
    var q := LinesRead(Fresh, Nothing, lines, o, ioError, rest);
    ListOf(o, LinesThen(Nothing, lines, o, EndThen(ioError, rest)), AllAnnounced(lines, o), q, rest, tail);
  }

  lemma ListOf(o: Opts, s: bytes, entries: seq<FileEntry>, q: Parser, rest: bytes, tail: bytes)
    requires ParseEntries(Fresh, o, s) == Ok((entries, q), rest) && RIdList(o, rest) == Ok(0, tail)
    ensures ParseList(o, s) == Ok(entries, tail)
  {
    hide ParseEntries, RIdList;
  }

  // ------------------------------------------------------------------ refused entries

  /** Hard links and prefixes longer than the previous name are refused. */
  lemma BadHeadsRefused(p: Parser, o: Opts, s: bytes, x: nat, rest: bytes)
    requires RHead(s) == Flags(x, rest)
    ensures (x / 0x200) % 2 == 1 ==> ParseEntry(p, o, s) == Bad
    ensures (x / 0x20) % 2 == 1 && rest != [] && rest[0] > |p.lastName| ==> ParseEntry(p, o, s) == Bad
  {
    hide RHead, RVarlong, RTimes, RBody, RSuffix;
  }

  /** So is a mode whose type is none of the seven known ones or zero. */
  lemma UnknownTypeRefused(p: Parser, x: nat, o: Opts, size: int, ns: int, s: bytes)
    requires Kind(p.lastMode) !in {0x0, 0x1, 0x2, 0x4, 0x6, 0x8, 0xA, 0xC}
    ensures RLast(p, x, o, size, ns, s) == Bad
  {
  }

  // --------------------------------------------------------------------- the names

  /** Where the first slash is, or the end. */
  function FirstSlash(p: bytes): (i: nat)
    ensures i <= |p| && (i < |p| ==> p[i] == 47) && forall k | 0 <= k < i :: p[k] != 47
  {
    if p == [] || p[0] == 47 then 0 else 1 + FirstSlash(p[1..])
  }

  /** strings.Split at slashes. */
  function Components(p: bytes): seq<bytes>
    decreases |p|
  {
    var i := FirstSlash(p);
    if i == |p| then [p] else [p[..i]] + Components(p[i + 1..])
  }

  lemma DotDotFirst(p: bytes)
    ensures var i := FirstSlash(p);
      DotDotAt(p, 0) <==> p[..i] == [46, 46]
  {
    var i := FirstSlash(p);
    if p[..i] == [46, 46] {
      assert p[0] == p[..i][0] && p[1] == p[..i][1];
    }
    if DotDotAt(p, 0) {
      assert p[0] != 47 && p[1] != 47 && i == 2;
    }
  }

  lemma {:induction false} DotDotIsComponent(p: bytes)
    ensures HasDotDot(p) <==> [46, 46] in Components(p)
    decreases |p|
  {
    var i := FirstSlash(p);
    DotDotFirst(p);
    if i < |p| {
      var rest := p[i + 1..];
      DotDotIsComponent(rest);
      forall k | 0 <= k < |rest| ensures DotDotAt(p, i + 1 + k) <==> DotDotAt(rest, k) {
      }
      forall k | 0 < k < |p| && DotDotAt(p, k) ensures HasDotDot(rest) {
        assert k >= i + 1 && DotDotAt(rest, k - i - 1);
      }
      if HasDotDot(rest) {
        var k :| 0 <= k < |rest| && DotDotAt(rest, k);
        assert DotDotAt(p, i + 1 + k);
      }
    } else {
      forall k | 0 < k < |p| ensures !DotDotAt(p, k) {
        assert p[k - 1] != 47;
      }
      assert p[..i] == p;
    }
  }

  /** A name is kept as it is unless it is the root, absolute, or climbs with a ".." component; then it is emptied. */
  lemma NamesKept(p: bytes)
    ensures CleanPath(p) ==
      if p == [] || p == [46] || p[0] == 47 || [46, 46] in Components(p) then [] else p
  {
    DotDotIsComponent(p);
    hide HasDotDot, Components;
  }
}
