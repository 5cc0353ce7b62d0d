/**
 The file list on the wire: what FlistWriter writes (internal/front/rsync/protocol/flist_write.go,
 sender.go) and what FlistParser and ReadIdList read (flist.go).
 */
module Flist {
  import opened Sequences
  import opened Paths
  import opened Streams
  import Varint

  const TOP_DIR: nat := 0x1
  const SAME_MODE: nat := 0x2
  const EXTENDED: nat := 0x4
  const SAME_UID: nat := 0x8
  const SAME_GID: nat := 0x10
  const SAME_NAME: nat := 0x20
  const LONG_NAME: nat := 0x40
  const SAME_TIME: nat := 0x80
  const SAME_RDEV_MAJOR: nat := 0x100
  const HLINKED: nat := 0x200
  const USER_NAME_FOLLOWS: nat := 0x400
  const GROUP_NAME_FOLLOWS: nat := 0x800
  const IO_ERROR_ENDLIST: nat := 0x1000
  const MOD_NSEC: nat := 0x2000
  const SAME_ATIME: nat := 0x4000

  const MAX_NAME: nat := 0x10_0000
  const SECOND: int := 1_000_000_000
  const CSUM_LENGTH: nat := 16

  const IFMT_UNIT: nat := 0x1000
  const TYPE_FIFO: nat := 0x1
  const TYPE_CHR: nat := 0x2
  const TYPE_DIR: nat := 0x4
  const TYPE_BLK: nat := 0x6
  const TYPE_REG: nat := 0x8
  const TYPE_LNK: nat := 0xA
  const TYPE_SOCK: nat := 0xC

  datatype FileEntry = FileEntry(
    path: bytes,
    isDir: bool,
    isSymlink: bool,
    mode: nat,
    uid: int,
    gid: int,
    size: int,
    mtimeNs: int,
    linkTarget: bytes)

  datatype Opts = Opts(uid: bool, gid: bool, links: bool, devices: bool, atimes: bool, checksum: bool)

  predicate Has(x: nat, bit: nat)
    requires bit > 0
  {
    (x / bit) % 2 == 1
  }

  /** mode & S_IFMT, as the four type bits. */
  function TypeOf(mode: nat): nat {
    (mode / IFMT_UNIT) % 16
  }

  predicate RegularMode(mode: nat) {
    TypeOf(mode) == 0 || TypeOf(mode) == TYPE_REG
  }

  /** Go's division and remainder, which truncate toward zero. */
  function TruncDiv(a: int, b: int): int
    requires b > 0
  {
    if a >= 0 then a / b else -((-a) / b)
  }

  function TruncMod(a: int, b: int): int
    requires b > 0
  {
    a - TruncDiv(a, b) * b
  }

  // --------------------------------------------------------------------- writing

  function VarintBytes(v: int): bytes
    requires Int32(v)
  {
    Varint.VarintRoundTrip(v, []);
    Varint.Encode(U32(v), 1)
  }

  function VarlongBytes(v: int, m: nat): bytes
    requires Int64(v) && 2 <= m <= 8
  {
    Varint.VarlongFits(v, m);
    Varint.Encode(U64(v), m)
  }

  function TrimSlashes(name: bytes): bytes {
    if name != [] && name[|name| - 1] == SLASH then TrimSlashes(name[..|name| - 1]) else name
  }

  function SentName(e: FileEntry): bytes {
    if e.isDir then TrimSlashes(e.path) else e.path
  }

  function SentSize(e: FileEntry): int {
    if e.isSymlink then |e.linkTarget| else e.size
  }

  function Nanos(e: FileEntry): int {
    TruncMod(e.mtimeNs, SECOND)
  }

  function FlagsOf(e: FileEntry, o: Opts): nat {
    var x := (if o.uid then 0 else SAME_UID) + (if o.gid then 0 else SAME_GID) +
      (if Nanos(e) != 0 then MOD_NSEC else 0);
    if x == 0 && !e.isDir then TOP_DIR else x
  }

  /** One byte, or two when a high bit is set or nothing is: never a lone zero. */
  function FlagBytes(x: nat): bytes {
    if x >= 256 || x == 0 then [(x + EXTENDED) % 256, (x / 256) % 256] else [x]
  }

  /** What the writer can represent in its fixed-width fields. */
  predicate InRange(e: FileEntry) {
    && Int64(e.size) && Int64(e.mtimeNs) && e.mode < TWO_32 && Int32(e.uid) && Int32(e.gid)
    && |e.linkTarget| < TWO_31
  }

  lemma InRangeFields(e: FileEntry)
    requires InRange(e)
    ensures Int64(SentSize(e)) && Int64(TruncDiv(e.mtimeNs, SECOND)) && Int32(Nanos(e))
  {
  }

  function OwnerBytes(e: FileEntry, o: Opts): bytes
    requires InRange(e)
  {
    (if o.uid then VarintBytes(e.uid) else []) + (if o.gid then VarintBytes(e.gid) else [])
  }

  function TargetBytes(e: FileEntry, o: Opts): bytes
    requires InRange(e)
  {
    if o.links && e.isSymlink then VarintBytes(|e.linkTarget|) + e.linkTarget else []
  }

  function NanoBytes(e: FileEntry): bytes
    requires InRange(e)
  {
    InRangeFields(e);
    if Nanos(e) != 0 then VarintBytes(Nanos(e)) else []
  }

  function TimeBytes(e: FileEntry): bytes
    requires InRange(e)
  {
    InRangeFields(e);
    VarlongBytes(TruncDiv(e.mtimeNs, SECOND), 4) + NanoBytes(e)
  }

  function FromMode(e: FileEntry, o: Opts): bytes
    requires InRange(e)
  {
    LE(e.mode, 4) + (OwnerBytes(e, o) + TargetBytes(e, o))
  }

  function FromSize(e: FileEntry, o: Opts): bytes
    requires InRange(e)
  {
    InRangeFields(e);
    VarlongBytes(SentSize(e), 3) + (TimeBytes(e) + FromMode(e, o))
  }

  /** The bytes of one entry, in the writer's order; the name's length goes into one byte. */
  function EntryBytes(e: FileEntry, o: Opts): bytes
    requires InRange(e)
  {
    FlagBytes(FlagsOf(e, o)) + ([|SentName(e)| % 256] + (SentName(e) + FromSize(e, o)))
  }

  // --------------------------------------------------------------------- reading

  /** A field read off the front of the stream. */
  datatype Step<+T> = Ok(value: T, rest: bytes) | Fail {
    predicate IsFailure() {
      Fail?
    }

    function PropagateFailure<U>(): Step<U>
      requires Fail?
    {
      Fail
    }

    function Extract(): Parsed<T>
      requires Ok?
    {
      Parsed(value, rest)
    }
  }

  /** The next n bytes. A negative n, on which the program's allocation panics, is refused like a short stream. */
  function RTake(s: bytes, n: int): (r: Step<bytes>)
    ensures r.Ok? ==> |r.rest| <= |s|
  {
    if n < 0 || n > |s| then Fail else Ok(s[..n], s[n..])
  }

  function RByte(s: bytes): (r: Step<byte>)
    ensures r.Ok? ==> |r.rest| < |s|
  {
    if s == [] then Fail else Ok(s[0], s[1..])
  }

  function RVarint(s: bytes): (r: Step<int>)
    ensures r.Ok? ==> |r.rest| < |s|
  {
    match Varint.Parse(s, 1)
    case None => Fail
    case Some(p) => Ok(Wrap32(p.value), p.rest)
  }

  function RVarlong(s: bytes, m: nat): (r: Step<int>)
    requires m >= 1
    ensures r.Ok? ==> |r.rest| < |s|
  {
    match Varint.Parse(s, m)
    case None => Fail
    case Some(p) => Ok(Wrap64(p.value), p.rest)
  }

  function RUint32(s: bytes): (r: Step<nat>)
    ensures r.Ok? ==> |r.rest| < |s|
  {
    if |s| < 4 then Fail else Ok(Value(s[..4]), s[4..])
  }

  /** A name that is read and dropped: one length byte and the name. */
  function RSkipName(s: bytes): (r: Step<byte>)
    ensures r.Ok? ==> |r.rest| < |s|
  {
    var n :- RByte(s);
    var name :- RTake(n.rest, n.value);
    Ok(n.value, name.rest)
  }

  datatype Head = EndOfList(ioError: Option<int>, after: bytes) | Flags(x: nat, after: bytes) | BadHead

  /** The flags, or one of the two end marks. */
  function RHead(s: bytes): (r: Head)
    ensures !r.BadHead? ==> |r.after| < |s|
  {
    if s == [] then BadHead
    else if s[0] == 0 then EndOfList(None, s[1..])
    else if !Has(s[0], EXTENDED) then Flags(s[0], s[1..])
    else if |s| < 2 then BadHead
    else
      var x := s[0] as nat + 256 * s[1] as nat;
      if x == EXTENDED + IO_ERROR_ENDLIST then
        match RVarint(s[2..])
        case Fail => BadHead
        case Ok(v, rest) => EndOfList(Some(v), rest)
      else Flags(x - EXTENDED, s[2..])
  }

  /** What the parser remembers from entry to entry. */
  datatype Parser = Parser(lastName: bytes, lastMode: nat, lastMTime: int, lastUID: int, lastGID: int, ioError: int)

  const Fresh := Parser([], 0, 0, 0, 0, 0)

  function RNameLength(x: nat, s: bytes): (r: Step<int>)
    ensures r.Ok? ==> |r.rest| < |s|
  {
    if Has(x, LONG_NAME) then RVarint(s)
    else
      var b :- RByte(s);
      Ok(b.value, b.rest)
  }

  /** The full name: a prefix of the previous one if flagged, then the bytes sent. */
  function RName(last: bytes, x: nat, s: bytes): (r: Step<bytes>)
    ensures r.Ok? ==> |r.rest| < |s|
  {
    if Has(x, SAME_NAME) then
      var l1 :- RByte(s);
      if l1.value > |last| then Fail
      else
        var more :- RSuffix(x, l1.rest);
        Ok(last[..l1.value] + more.value, more.rest)
    else RSuffix(x, s)
  }

  function RSuffix(x: nat, s: bytes): (r: Step<bytes>)
    ensures r.Ok? ==> |r.rest| < |s|
  {
    var l2 :- RNameLength(x, s);
    if l2.value > MAX_NAME then Fail else RTake(l2.rest, l2.value)
  }

  datatype Times = Times(base: int, ns: int)

  function RTimes(last: int, x: nat, s: bytes): (r: Step<Times>)
    ensures r.Ok? ==> |r.rest| <= |s|
  {
    if Has(x, SAME_TIME) then RNanos(last, x, s)
    else
      var t :- RVarlong(s, 4);
      RNanos(Wrap64(t.value * SECOND), x, t.rest)
  }

  function RNanos(base: int, x: nat, s: bytes): (r: Step<Times>)
    ensures r.Ok? ==> |r.rest| <= |s|
  {
    if Has(x, MOD_NSEC) then
      var n :- RVarint(s);
      Ok(Times(base, Wrap64(base + n.value)), n.rest)
    else Ok(Times(base, base), s)
  }

  function RMode(last: nat, x: nat, s: bytes): (r: Step<nat>)
    ensures r.Ok? ==> |r.rest| <= |s|
  {
    if Has(x, SAME_MODE) then Ok(last, s) else RUint32(s)
  }

  function RAtime(mode: nat, x: nat, o: Opts, s: bytes): (r: Step<int>)
    ensures r.Ok? ==> |r.rest| <= |s|
  {
    if o.atimes && TypeOf(mode) != TYPE_DIR && !Has(x, SAME_ATIME) then RVarlong(s, 4) else Ok(0, s)
  }

  /** One owner field, with the name that may follow it. */
  function ROwner(kept: bool, last: int, sameBit: nat, nameBit: nat, x: nat, s: bytes): (r: Step<int>)
    requires sameBit > 0 && nameBit > 0
    ensures r.Ok? ==> |r.rest| <= |s|
  {
    if kept && !Has(x, sameBit) then
      var v :- RVarint(s);
      if Has(x, nameBit) then
        var name :- RSkipName(v.rest);
        Ok(v.value, name.rest)
      else Ok(v.value, v.rest)
    else Ok(last, s)
  }

  predicate KnownType(t: nat) {
    t == 0 || t == TYPE_REG || t == TYPE_DIR || t == TYPE_LNK || t == TYPE_CHR || t == TYPE_BLK || t == TYPE_FIFO
      || t == TYPE_SOCK
  }

  predicate IsDevice(t: nat) {
    t == TYPE_CHR || t == TYPE_BLK
  }

  /** Device numbers are read and dropped. */
  function RDevice(mode: nat, x: nat, o: Opts, s: bytes): (r: Step<int>)
    ensures r.Ok? ==> |r.rest| <= |s|
  {
    if IsDevice(TypeOf(mode)) && o.devices then
      if !Has(x, SAME_RDEV_MAJOR) then
        var major :- RVarint(s);
        RVarint(major.rest)
      else RVarint(s)
    else Ok(0, s)
  }

  function RTarget(mode: nat, o: Opts, s: bytes): (r: Step<bytes>)
    ensures r.Ok? ==> |r.rest| <= |s|
  {
    if o.links && TypeOf(mode) == TYPE_LNK then
      var n :- RVarint(s);
      RTake(n.rest, n.value)
    else Ok([], s)
  }

  function RChecksum(mode: nat, o: Opts, s: bytes): (r: Step<bytes>)
    ensures r.Ok? ==> |r.rest| <= |s|
  {
    if o.checksum && RegularMode(mode) then RTake(s, CSUM_LENGTH) else Ok([], s)
  }

  predicate HasDotDot(p: bytes) {
    exists i :: 0 <= i < |p| && DotDotAt(p, i)
  }

  /** A component ".." starts at `i`. */
  predicate DotDotAt(p: bytes, i: nat) {
    && i + 2 <= |p| && p[i] == DOT && p[i + 1] == DOT
    && (i == 0 || p[i - 1] == SLASH)
    && (i + 2 == |p| || p[i + 2] == SLASH)
  }

  /** cleanPath: unsafe paths, and the transfer root, become empty. */
  function CleanPath(p: bytes): bytes {
    if p == [] || p == [DOT] || p[0] == SLASH || HasDotDot(p) then [] else p
  }

  datatype Parsing = Entry(e: FileEntry, p: Parser, rest: bytes) | End(p: Parser, rest: bytes) | Bad

  /** The fields after the times. */
  function RBody(p: Parser, x: nat, o: Opts, name: bytes, size: int, times: Times, s: bytes): (r: Parsing)
    ensures !r.End? && (r.Entry? ==> |r.rest| <= |s|)
  {
    match RMode(p.lastMode, x, s)
    case Fail => Bad
    case Ok(mode, s1) =>
      match RAtime(mode, x, o, s1)
      case Fail => Bad
      case Ok(_, s2) =>
        match ROwner(o.uid, p.lastUID, SAME_UID, USER_NAME_FOLLOWS, x, s2)
        case Fail => Bad
        case Ok(uid, s3) =>
          match ROwner(o.gid, p.lastGID, SAME_GID, GROUP_NAME_FOLLOWS, x, s3)
          case Fail => Bad
          case Ok(gid, s4) => RLast(Parser(name, mode, times.base, uid, gid, p.ioError), x, o, size, times.ns, s4)
  }

  /** Type check, device numbers, link target and checksum; `p` already holds the new values. */
  function RLast(p: Parser, x: nat, o: Opts, size: int, ns: int, s: bytes): (r: Parsing)
    ensures !r.End? && (r.Entry? ==> |r.rest| <= |s|)
  {
    var t := TypeOf(p.lastMode);
    if !KnownType(t) then Bad
    else
      match RDevice(p.lastMode, x, o, s)
      case Fail => Bad
      case Ok(_, s1) =>
        match RTarget(p.lastMode, o, s1)
        case Fail => Bad
        case Ok(target, s2) =>
          match RChecksum(p.lastMode, o, s2)
          case Fail => Bad
          case Ok(_, s3) =>
            var e := FileEntry(CleanPath(p.lastName), t == TYPE_DIR, t == TYPE_LNK, p.lastMode, p.lastUID, p.lastGID,
                               if IsDevice(t) then 0 else size, ns, target);
            Entry(e, p, s3)
  }

  /** FlistParser.Parse. */
  function ParseEntry(p: Parser, o: Opts, s: bytes): (r: Parsing)
    ensures r.Entry? || r.End? ==> |r.rest| < |s|
  {
    match RHead(s)
    case BadHead => Bad
    case EndOfList(io, rest) => End(if io.Some? then p.(ioError := io.value) else p, rest)
    case Flags(x, s0) =>
      if Has(x, HLINKED) then Bad
      else
        match RName(p.lastName, x, s0)
        case Fail => Bad
        case Ok(name, s1) =>
          match RVarlong(s1, 3)
          case Fail => Bad
          case Ok(size, s2) =>
            match RTimes(p.lastMTime, x, s2)
            case Fail => Bad
            case Ok(times, s3) => RBody(p, x, o, name, size, times, s3)
  }

  // ------------------------------------------------------------- fields round trip

  lemma ByteBack(b: byte, tail: bytes)
    ensures RByte([b] + tail) == Ok(b, tail)
  {
  }

  lemma TakeBack(d: bytes, tail: bytes)
    ensures RTake(d + tail, |d|) == Ok(d, tail)
  {
  }

  lemma VarintBack(v: int, tail: bytes)
    requires Int32(v)
    ensures RVarint(VarintBytes(v) + tail) == Ok(v, tail)
  {
    Varint.VarintRoundTrip(v, tail);
  }

  lemma VarlongBack(v: int, m: nat, tail: bytes)
    requires 3 <= m <= 4 && 0 <= v < (if m == 3 then 0x8_0000_0000_0000 else 0x800_0000_0000_0000)
    ensures RVarlong(VarlongBytes(v, m) + tail, m) == Ok(v, tail)
  {
    Varint.VarlongRoundTripIff(v, m, tail);
  }

  lemma Uint32Back(v: nat, tail: bytes)
    requires v < TWO_32
    ensures RUint32(LE(v, 4) + tail) == Ok(v, tail)
  {
    Powers();
    FixedRoundTrip(v, 4, tail);
  }

  /** The flags the writer can produce, and how each bit reads. */
  lemma FlagBits(e: FileEntry, o: Opts)
    ensures var x := FlagsOf(e, o);
      && x < 0x4000
      && (Has(x, SAME_UID) <==> !o.uid) && (Has(x, SAME_GID) <==> !o.gid) && (Has(x, MOD_NSEC) <==> Nanos(e) != 0)
      && !Has(x, SAME_MODE) && !Has(x, EXTENDED) && !Has(x, SAME_NAME) && !Has(x, LONG_NAME) && !Has(x, SAME_TIME)
      && !Has(x, HLINKED) && !Has(x, USER_NAME_FOLLOWS) && !Has(x, GROUP_NAME_FOLLOWS) && !Has(x, IO_ERROR_ENDLIST)
  {
  }

  /** An entry is never mistaken for either end mark, and its flags come back. */
  lemma FlagsBack(x: nat, tail: bytes)
    requires x < 0x4000 && !Has(x, EXTENDED) && !Has(x, IO_ERROR_ENDLIST)
    ensures RHead(FlagBytes(x) + tail) == Flags(x, tail)
  {
    var s := FlagBytes(x) + tail;
    if x >= 256 || x == 0 {
      assert s[0] == (x + EXTENDED) % 256 && s[1] == (x / 256) % 256 && s[2..] == tail;
      ExtendedFlag(x);
    } else {
      assert s[0] == x && s[1..] == tail;
    }
  }

  lemma ExtendedFlag(x: nat)
    requires x < 0x4000 && !Has(x, EXTENDED) && !Has(x, IO_ERROR_ENDLIST)
    ensures (x + EXTENDED) % 256 == x % 256 + EXTENDED && Has((x + EXTENDED) % 256, EXTENDED)
    ensures (x + EXTENDED) % 256 + 256 * ((x / 256) % 256) == x + EXTENDED
    ensures x != IO_ERROR_ENDLIST
  {
    var low := x % 256;
    assert x / 4 == 64 * (x / 256) + low / 4;
  }

  // ------------------------------------------------------------- entry round trip

  /**
   Entries the writer accepts, under options that promise no access times or device numbers. A
   device's size is sent but not kept, so there it must not shift the stream.
   */
  ghost predicate Writable(e: FileEntry, o: Opts) {
    && InRange(e) && 0 < |SentName(e)| <= MAX_NAME
    && !o.atimes && (IsDevice(TypeOf(e.mode)) ==> !o.devices && SizeFits(e))
  }

  predicate SizeFits(e: FileEntry) {
    0 <= SentSize(e) < 0x8_0000_0000_0000
  }

  /** A known file type, which the flags agree with. */
  predicate KindFits(e: FileEntry) {
    && KnownType(TypeOf(e.mode))
    && (e.isDir <==> TypeOf(e.mode) == TYPE_DIR) && (e.isSymlink <==> TypeOf(e.mode) == TYPE_LNK)
  }

  /**
   Entries the format carries: the length of the name is sent in one byte, sizes are below 2^51, and
   the seconds, which are rounded toward zero, are not negative.
   */
  ghost predicate Fits(e: FileEntry) {
    |SentName(e)| <= 255 && SizeFits(e) && e.mtimeNs > -SECOND && KindFits(e)
  }

  ghost predicate Sendable(e: FileEntry, o: Opts) {
    Writable(e, o) && Fits(e)
  }

  /** What arrives: owners and link target only when kept, a cleaned path, no size for devices. */
  function Received(p: Parser, e: FileEntry, o: Opts): FileEntry {
    FileEntry(CleanPath(SentName(e)), e.isDir, e.isSymlink, e.mode,
              if o.uid then e.uid else p.lastUID, if o.gid then e.gid else p.lastGID,
              if IsDevice(TypeOf(e.mode)) then 0 else SentSize(e), e.mtimeNs,
              if o.links && e.isSymlink then e.linkTarget else [])
  }

  function Remembered(p: Parser, e: FileEntry, o: Opts): Parser {
    Parser(SentName(e), e.mode, e.mtimeNs - Nanos(e),
           if o.uid then e.uid else p.lastUID, if o.gid then e.gid else p.lastGID, p.ioError)
  }

  /** The checksum behind a regular file's entry. */
  ghost predicate SumFits(e: FileEntry, o: Opts, sum: bytes) {
    |sum| == if o.checksum && RegularMode(e.mode) then CSUM_LENGTH else 0
  }

  /** One owner field whose presence matches its flag. */
  lemma OwnerBack(kept: bool, last: int, sameBit: nat, nameBit: nat, x: nat, v: int, tail: bytes)
    requires sameBit > 0 && nameBit > 0 && Int32(v)
    requires (Has(x, sameBit) <==> !kept) && !Has(x, nameBit)
    ensures ROwner(kept, last, sameBit, nameBit, x, (if kept then VarintBytes(v) else []) + tail)
      == Ok(if kept then v else last, tail)
  {
    VarintBack(v, tail);
    Assoc([], [], tail);
    hide VarintBytes, RVarint, Has;
  }

  lemma OwnersBack(p: Parser, e: FileEntry, o: Opts, x: nat, tail: bytes)
    requires InRange(e) && x == FlagsOf(e, o)
    ensures var uid := ROwner(o.uid, p.lastUID, SAME_UID, USER_NAME_FOLLOWS, x, OwnerBytes(e, o) + tail);
      && uid.Ok? && uid.value == (if o.uid then e.uid else p.lastUID)
      && ROwner(o.gid, p.lastGID, SAME_GID, GROUP_NAME_FOLLOWS, x, uid.rest)
        == Ok(if o.gid then e.gid else p.lastGID, tail)
  {
    FlagBits(e, o);
    var u := if o.uid then VarintBytes(e.uid) else [];
    var g := if o.gid then VarintBytes(e.gid) else [];
    assert OwnerBytes(e, o) == u + g;
    Assoc(u, g, tail);
    OwnerBack(o.uid, p.lastUID, SAME_UID, USER_NAME_FOLLOWS, x, e.uid, g + tail);
    OwnerBack(o.gid, p.lastGID, SAME_GID, GROUP_NAME_FOLLOWS, x, e.gid, tail);
    hide VarintBytes, ROwner, FlagsOf, Has, OwnerBytes;
  }

  lemma LastBack(p: Parser, e: FileEntry, o: Opts, x: nat, sum: bytes, tail: bytes)
    requires Sendable(e, o) && SumFits(e, o, sum) && x == FlagsOf(e, o) && p == Remembered(p, e, o)
    ensures RLast(p, x, o, SentSize(e), e.mtimeNs, TargetBytes(e, o) + (sum + tail))
      == Entry(Received(p, e, o), p, tail)
  {
    Assoc(if o.links && e.isSymlink then VarintBytes(|e.linkTarget|) else [], e.linkTarget, sum + tail);
    Assoc([], [], sum + tail);
    Assoc([], [], tail);
    VarintBack(|e.linkTarget|, e.linkTarget + (sum + tail));
    TakeBack(e.linkTarget, sum + tail);
    TakeBack(sum, tail);
    hide VarintBytes, RVarint, FlagsOf, Has, CleanPath;
  }

  lemma ModeBack(last: nat, e: FileEntry, o: Opts, x: nat, rest: bytes)
    requires e.mode < TWO_32 && x == FlagsOf(e, o) && !o.atimes
    ensures RMode(last, x, LE(e.mode, 4) + rest) == Ok(e.mode, rest)
    ensures RAtime(e.mode, x, o, rest) == Ok(0, rest)
  {
    FlagBits(e, o);
    Uint32Back(e.mode, rest);
    hide RUint32, FlagsOf, Has, LE;
  }

  lemma BodyBack(p: Parser, e: FileEntry, o: Opts, x: nat, sum: bytes, tail: bytes)
    requires Sendable(e, o) && SumFits(e, o, sum) && x == FlagsOf(e, o)
    ensures RBody(p, x, o, SentName(e), SentSize(e), Times(e.mtimeNs - Nanos(e), e.mtimeNs),
                  FromMode(e, o) + (sum + tail))
      == Entry(Received(p, e, o), Remembered(p, e, o), tail)
  {
    var more := sum + tail;
    var owners, target := OwnerBytes(e, o), TargetBytes(e, o);
    assert FromMode(e, o) == LE(e.mode, 4) + (owners + target);
    Assoc(LE(e.mode, 4), owners + target, more);
    Assoc(owners, target, more);
    ModeBack(p.lastMode, e, o, x, owners + (target + more));
    OwnersBack(p, e, o, x, target + more);
    var q := Remembered(p, e, o);
    LastBack(q, e, o, x, sum, tail);
    assert Received(q, e, o) == Received(p, e, o);
    hide OwnerBytes, TargetBytes, RMode, RAtime, ROwner, RLast, FlagsOf, Has, Received, Sendable, SumFits, TypeOf, LE,
      FromMode;
  }

  lemma SecondsAndNanos(e: FileEntry)
    requires InRange(e) && e.mtimeNs > -SECOND
    ensures var t := TruncDiv(e.mtimeNs, SECOND);
      && 0 <= t < 0x800_0000_0000_0000 && Wrap64(t * SECOND) == e.mtimeNs - Nanos(e)
      && Wrap64(Wrap64(t * SECOND) + Nanos(e)) == e.mtimeNs
  {
    var t := TruncDiv(e.mtimeNs, SECOND);
    assert t * SECOND + Nanos(e) == e.mtimeNs;
    WrapIdentity(t * SECOND);
    WrapIdentity(e.mtimeNs);
  }

  lemma NanosBack(e: FileEntry, o: Opts, tail: bytes)
    requires InRange(e)
    ensures RNanos(e.mtimeNs - Nanos(e), FlagsOf(e, o), NanoBytes(e) + tail)
      == Ok(Times(e.mtimeNs - Nanos(e), e.mtimeNs), tail)
  {
    InRangeFields(e);
    FlagBits(e, o);
    VarintBack(Nanos(e), tail);
    Assoc([], [], tail);
    WrapIdentity(e.mtimeNs);
    hide VarintBytes, RVarint, FlagsOf, Has, Wrap64, Nanos;
  }

  lemma SecondsThenNanos(last: int, x: nat, t: int, s: bytes, rest: bytes)
    requires !Has(x, SAME_TIME) && RVarlong(s, 4) == Ok(t, rest)
    ensures RTimes(last, x, s) == RNanos(Wrap64(t * SECOND), x, rest)
  {
    hide Has, RVarlong, RNanos, Wrap64;
  }

  lemma SecondsBack(e: FileEntry, rest: bytes)
    requires InRange(e) && e.mtimeNs > -SECOND
    ensures RVarlong(VarlongBytes(TruncDiv(e.mtimeNs, SECOND), 4) + rest, 4) == Ok(TruncDiv(e.mtimeNs, SECOND), rest)
  {
    SecondsAndNanos(e);
    hide TruncDiv, Wrap64, Nanos;
    VarlongBack(TruncDiv(e.mtimeNs, SECOND), 4, rest);
  }

  lemma SecondsFirst(last: int, e: FileEntry, o: Opts, rest: bytes)
    requires InRange(e) && e.mtimeNs > -SECOND
    ensures RTimes(last, FlagsOf(e, o), VarlongBytes(TruncDiv(e.mtimeNs, SECOND), 4) + rest)
      == RNanos(e.mtimeNs - Nanos(e), FlagsOf(e, o), rest)
  {
    FlagBits(e, o);
    SecondsAndNanos(e);
    SecondsBack(e, rest);
    hide *;
    var t := TruncDiv(e.mtimeNs, SECOND);
    SecondsThenNanos(last, FlagsOf(e, o), t, VarlongBytes(t, 4) + rest, rest);
  }

  lemma TimesBack(last: int, e: FileEntry, o: Opts, tail: bytes)
    requires InRange(e) && e.mtimeNs > -SECOND
    ensures RTimes(last, FlagsOf(e, o), TimeBytes(e) + tail) == Ok(Times(e.mtimeNs - Nanos(e), e.mtimeNs), tail)
  {
    InRangeFields(e);
    hide VarlongBytes, NanoBytes, TruncDiv, Nanos, FlagsOf, RTimes, RNanos;
    Assoc(VarlongBytes(TruncDiv(e.mtimeNs, SECOND), 4), NanoBytes(e), tail);
    SecondsFirst(last, e, o, NanoBytes(e) + tail);
    NanosBack(e, o, tail);
  }

  /** The parser's fields in order. */
  lemma FieldByField(p: Parser, o: Opts, s: bytes, x: nat, s0: bytes, name: bytes, s1: bytes, size: int, s2: bytes,
      times: Times, s3: bytes)
    requires RHead(s) == Flags(x, s0) && !Has(x, HLINKED)
    requires RName(p.lastName, x, s0) == Ok(name, s1) && RVarlong(s1, 3) == Ok(size, s2)
      && RTimes(p.lastMTime, x, s2) == Ok(times, s3)
    ensures ParseEntry(p, o, s) == RBody(p, x, o, name, size, times, s3)
  {
    hide RHead, Has, RName, RVarlong, RTimes, RBody;
  }

  lemma EntryFrom(p: Parser, e: FileEntry, o: Opts, sum: bytes, tail: bytes, s: bytes, s0: bytes, s1: bytes,
      s2: bytes, s3: bytes)
    requires Sendable(e, o) && SumFits(e, o, sum) && Int64(SentSize(e))
    requires s == FlagBytes(FlagsOf(e, o)) + s0 && s0 == [|SentName(e)|] + (SentName(e) + s1)
    requires s1 == VarlongBytes(SentSize(e), 3) + s2 && s2 == TimeBytes(e) + s3 && s3 == FromMode(e, o) + (sum + tail)
    ensures ParseEntry(p, o, s) == Entry(Received(p, e, o), Remembered(p, e, o), tail)
  {
    assert InRange(e) && e.mtimeNs > -SECOND && 0 <= SentSize(e) < 0x8_0000_0000_0000 && |SentName(e)| <= 255;
    hide *;
    FlagBits(e, o);
    FlagsBack(FlagsOf(e, o), s0);
    NameBack(p.lastName, FlagsOf(e, o), SentName(e), s1);
    VarlongBack(SentSize(e), 3, s2);
    TimesBack(p.lastMTime, e, o, s3);
    FieldByField(p, o, s, FlagsOf(e, o), s0, SentName(e), s1, SentSize(e), s2, Times(e.mtimeNs - Nanos(e), e.mtimeNs),
      s3);
    BodyBack(p, e, o, FlagsOf(e, o), sum, tail);
  }

  /** Every sendable entry, under every combination of options, parses back with exactly its bytes consumed. */
  lemma EntryBack(p: Parser, e: FileEntry, o: Opts, sum: bytes, tail: bytes)
    requires Sendable(e, o) && SumFits(e, o, sum)
    ensures ParseEntry(p, o, EntryBytes(e, o) + (sum + tail)) == Entry(Received(p, e, o), Remembered(p, e, o), tail)
  {
    InRangeFields(e);
    assert InRange(e) && |SentName(e)| <= 255;
    hide *;
    var s3 := FromMode(e, o) + (sum + tail);
    var s2 := TimeBytes(e) + s3;
    var s1 := VarlongBytes(SentSize(e), 3) + s2;
    var s0 := [|SentName(e)|] + (SentName(e) + s1);
    EntryPushes(e, o, sum + tail);
    EntryFrom(p, e, o, sum, tail, FlagBytes(FlagsOf(e, o)) + s0, s0, s1, s2, s3);
  }

  lemma EntryPushes(e: FileEntry, o: Opts, more: bytes)
    requires InRange(e) && |SentName(e)| <= 255 && Int64(SentSize(e))
    ensures EntryBytes(e, o) + more ==
      FlagBytes(FlagsOf(e, o)) + ([|SentName(e)|] + (SentName(e) +
        (VarlongBytes(SentSize(e), 3) + (TimeBytes(e) + (FromMode(e, o) + more)))))
  {
    hide FlagBytes, FlagsOf, SentName, VarlongBytes, TimeBytes, FromMode, SentSize;
    Push(FlagBytes(FlagsOf(e, o)), [|SentName(e)|], SentName(e), VarlongBytes(SentSize(e), 3), TimeBytes(e),
      FromMode(e, o), more);
  }

  lemma Push(f: bytes, n: bytes, name: bytes, z: bytes, t: bytes, m: bytes, more: bytes)
    ensures (f + (n + (name + (z + (t + m))))) + more == f + (n + (name + (z + (t + (m + more)))))
  {
    Assoc(t, m, more);
    Assoc(z, t + m, more);
    Assoc(name, z + (t + m), more);
    Assoc(n, name + (z + (t + m)), more);
    Assoc(f, n + (name + (z + (t + m))), more);
  }

  lemma NameBack(last: bytes, x: nat, name: bytes, tail: bytes)
    requires |name| <= 255 && !Has(x, SAME_NAME) && !Has(x, LONG_NAME)
    ensures RName(last, x, [|name|] + (name + tail)) == Ok(name, tail)
  {
    ByteBack(|name|, name + tail);
    TakeBack(name, tail);
  }

  // -------------------------------------------------------------- whole file list

  datatype Item = Item(e: FileEntry, sum: bytes)

  ghost predicate AllSendable(items: seq<Item>, o: Opts) {
    forall i | 0 <= i < |items| :: Sendable(items[i].e, o) && SumFits(items[i].e, o, items[i].sum)
  }

  ghost predicate AllInRange(items: seq<Item>) {
    forall i | 0 <= i < |items| :: InRange(items[i].e)
  }

  /** Entries, each with its checksum, one after the other. */
  ghost function EntriesBytes(items: seq<Item>, o: Opts): bytes
    requires AllInRange(items)
  {
    if items == [] then [] else (EntryBytes(items[0].e, o) + items[0].sum) + EntriesBytes(items[1..], o)
  }

  function SegmentBytes(kept: bool): bytes {
    if kept then VarintBytes(0) else []
  }

  /** Two id lists with nothing in them, as far as owners are kept. */
  function IdListBytes(o: Opts): bytes {
    SegmentBytes(o.uid) + SegmentBytes(o.gid)
  }

  ghost function ListBytes(items: seq<Item>, o: Opts): bytes
    requires AllInRange(items)
  {
    EntriesBytes(items, o) + ([0] + IdListBytes(o))
  }

  /** Entries up to the end mark. */
  function ParseEntries(p: Parser, o: Opts, s: bytes): Step<(seq<FileEntry>, Parser)>
    decreases |s|
  {
    match ParseEntry(p, o, s)
    case Bad => Fail
    case End(q, rest) => Ok(([], q), rest)
    case Entry(e, q, rest) =>
      match ParseEntries(q, o, rest)
      case Fail => Fail
      case Ok(v, last) => Ok(([e] + v.0, v.1), last)
  }

  /** One segment of the id list: ids with names, up to an id of zero. */
  function RSegment(s: bytes): Step<int>
    decreases |s|
  {
    match RVarint(s)
    case Fail => Fail
    case Ok(id, s1) =>
      if id == 0 then Ok(0, s1)
      else
        match RSkipName(s1)
        case Fail => Fail
        case Ok(_, s2) => RSegment(s2)
  }

  /** A segment is there only when that owner is kept. */
  function RKept(kept: bool, s: bytes): Step<int> {
    if kept then RSegment(s) else Ok(0, s)
  }

  function RIdList(o: Opts, s: bytes): Step<int> {
    match RKept(o.uid, s)
    case Fail => Fail
    case Ok(_, s1) => RKept(o.gid, s1)
  }

  /** The receiver's reading of a whole list. */
  function ParseList(o: Opts, s: bytes): Step<seq<FileEntry>> {
    match ParseEntries(Fresh, o, s)
    case Fail => Fail
    case Ok(v, rest) =>
      match RIdList(o, rest)
      case Fail => Fail
      case Ok(_, last) => Ok(v.0, last)
  }

  /** What arrives when owners that are not kept read as zero. */
  function Arrived(items: seq<Item>, o: Opts): seq<FileEntry> {
    if items == [] then [] else [Received(Fresh, items[0].e, o)] + Arrived(items[1..], o)
  }

  ghost predicate NoOwners(p: Parser, o: Opts) {
    (!o.uid ==> p.lastUID == 0) && (!o.gid ==> p.lastGID == 0)
  }

  lemma OwnersStayZero(p: Parser, e: FileEntry, o: Opts)
    requires NoOwners(p, o)
    ensures Received(p, e, o) == Received(Fresh, e, o) && NoOwners(Remembered(p, e, o), o)
  {
    hide TypeOf, CleanPath, SentName, SentSize;
  }

  lemma AllSendableInRange(items: seq<Item>, o: Opts)
    requires AllSendable(items, o)
    ensures AllInRange(items)
  {
  }

  lemma FirstEntry(items: seq<Item>, o: Opts, tail: bytes) returns (more: bytes)
    requires AllInRange(items) && items != []
    ensures AllInRange(items[1..]) && more == EntriesBytes(items[1..], o) + tail
    ensures EntriesBytes(items, o) + tail == EntryBytes(items[0].e, o) + (items[0].sum + more)
  {
    more := EntriesBytes(items[1..], o) + tail;
    Assoc(EntryBytes(items[0].e, o) + items[0].sum, EntriesBytes(items[1..], o), tail);
    Assoc(EntryBytes(items[0].e, o), items[0].sum, more);
  }

  lemma FirstSendable(items: seq<Item>, o: Opts)
    requires AllSendable(items, o) && items != []
    ensures Sendable(items[0].e, o) && SumFits(items[0].e, o, items[0].sum) && AllSendable(items[1..], o)
    ensures Arrived(items, o) == [Received(Fresh, items[0].e, o)] + Arrived(items[1..], o)
  {
    hide Sendable, SumFits, Received;
  }

  lemma ParsedOn(p: Parser, o: Opts, s: bytes, e: FileEntry, q: Parser, rest: bytes)
    requires ParseEntry(p, o, s) == Entry(e, q, rest) && ParseEntries(q, o, rest).Ok?
    ensures var r := ParseEntries(p, o, s); var more := ParseEntries(q, o, rest);
      r.Ok? && r.value.0 == [e] + more.value.0 && r.rest == more.rest
  {
    hide ParseEntry;
  }

  lemma {:induction false} EntriesBack(p: Parser, items: seq<Item>, o: Opts, tail: bytes)
    requires AllSendable(items, o) && NoOwners(p, o)
    ensures AllInRange(items)
    ensures var r := ParseEntries(p, o, EntriesBytes(items, o) + ([0] + tail));
      r.Ok? && r.value.0 == Arrived(items, o) && r.rest == tail
    decreases |items|
  {
    AllSendableInRange(items, o);
    if items == [] {
      hide ParseEntry;
      Assoc([], [], [0] + tail);
      EndBack(p, o, tail);
    } else {
      FirstSendable(items, o);
      hide *;
      var e, sum := items[0].e, items[0].sum;
      var more := FirstEntry(items, o, [0] + tail);
      EntryBack(p, e, o, sum, more);
      OwnersStayZero(p, e, o);
      EntriesBack(Remembered(p, e, o), items[1..], o, tail);
      ParsedOn(p, o, EntryBytes(e, o) + (sum + more), Received(p, e, o), Remembered(p, e, o), more);
    }
  }

  lemma EndBack(p: Parser, o: Opts, tail: bytes)
    ensures ParseEntry(p, o, [0] + tail) == End(p, tail)
  {
    var s := [0] + tail;
    assert s[0] == 0 && s[1..] == tail;
  }

  lemma SegmentBack(kept: bool, tail: bytes)
    ensures RKept(kept, SegmentBytes(kept) + tail) == Ok(0, tail)
  {
    if kept {
      VarintBack(0, tail);
      hide VarintBytes, RVarint;
    } else {
      Assoc([], [], tail);
    }
  }

  lemma IdListBack(o: Opts, tail: bytes)
    ensures RIdList(o, IdListBytes(o) + tail) == Ok(0, tail)
  {
    Assoc(SegmentBytes(o.uid), SegmentBytes(o.gid), tail);
    SegmentBack(o.uid, SegmentBytes(o.gid) + tail);
    SegmentBack(o.gid, tail);
    hide SegmentBytes, RKept;
  }

  /**
   Any list of sendable entries, under any options, is read back entry for entry with exactly the
   stream consumed: no entry is taken for the end mark, and the id list ends where it should.
   */
  lemma ListRoundTrip(items: seq<Item>, o: Opts, tail: bytes)
    requires AllSendable(items, o)
    ensures ParseList(o, ListBytes(items, o) + tail) == Ok(Arrived(items, o), tail)
  {
    Assoc(EntriesBytes(items, o), [0] + IdListBytes(o), tail);
    Assoc([0], IdListBytes(o), tail);
    EntriesBack(Fresh, items, o, IdListBytes(o) + tail);
    IdListBack(o, tail);
    hide ParseEntries, RIdList, EntriesBytes, IdListBytes, Arrived;
  }
}
