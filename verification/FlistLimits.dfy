/**
 Which entries survive the trip: for each thing WriteEntry (internal/front/rsync/protocol/flist_write.go)
 accepts and Parse (flist.go) does not give back, the exact condition.
 */
module FlistLimits {
  import opened Sequences
  import opened Streams
  import opened Flist
  import Varint

  // ------------------------------------------------------------------ the stages

  /** A parsed entry went through size, times and the remaining fields in turn. */
  lemma Stages(p: Parser, o: Opts, s: bytes, x: nat, s0: bytes, name: bytes, s1: bytes)
    requires RHead(s) == Flags(x, s0) && RName(p.lastName, x, s0) == Ok(name, s1)
    requires ParseEntry(p, o, s).Entry?
    ensures RVarlong(s1, 3).Ok?
    ensures RTimes(p.lastMTime, x, RVarlong(s1, 3).rest).Ok?
    ensures var size := RVarlong(s1, 3); var times := RTimes(p.lastMTime, x, size.rest);
      ParseEntry(p, o, s) == RBody(p, x, o, name, size.value, times.value, times.rest)
  {
    hide RHead, Has, RName, RVarlong, RTimes, RBody;
  }

  /** What the last stage makes of the values read before it. */
  lemma LastSays(p: Parser, x: nat, o: Opts, size: int, ns: int, s: bytes)
    ensures var r := RLast(p, x, o, size, ns, s);
      r.Entry? ==>
        && r.p == p && r.e.mode == p.lastMode && r.e.mtimeNs == ns
        && r.e.uid == p.lastUID && r.e.gid == p.lastGID
        && r.e.size == (if IsDevice(TypeOf(p.lastMode)) then 0 else size)
        && KnownType(TypeOf(p.lastMode))
        && (r.e.isDir <==> TypeOf(p.lastMode) == TYPE_DIR) && (r.e.isSymlink <==> TypeOf(p.lastMode) == TYPE_LNK)
  {
    hide RDevice, RTarget, RChecksum, TypeOf, KnownType, HasDotDot, CleanPath;
  }

  /** What the fields after the times make of the values read before them. */
  lemma BodySays(p: Parser, x: nat, o: Opts, name: bytes, size: int, times: Times, s: bytes)
    ensures var r := RBody(p, x, o, name, size, times, s);
      r.Entry? ==>
        && r.p.lastName == name && r.p.lastMTime == times.base && r.e.mtimeNs == times.ns
        && RMode(p.lastMode, x, s).Ok? && r.e.mode == RMode(p.lastMode, x, s).value == r.p.lastMode
        && r.e.size == (if IsDevice(TypeOf(r.e.mode)) then 0 else size)
        && KnownType(TypeOf(r.e.mode))
        && (r.e.isDir <==> TypeOf(r.e.mode) == TYPE_DIR) && (r.e.isSymlink <==> TypeOf(r.e.mode) == TYPE_LNK)
  {
    hide RMode, RAtime, ROwner, RLast, TypeOf, KnownType;
    var mode := RMode(p.lastMode, x, s);
    if mode.Ok? && RAtime(mode.value, x, o, mode.rest).Ok? {
      var s2 := RAtime(mode.value, x, o, mode.rest).rest;
      var uid := ROwner(o.uid, p.lastUID, SAME_UID, USER_NAME_FOLLOWS, x, s2);
      if uid.Ok? {
        var gid := ROwner(o.gid, p.lastGID, SAME_GID, GROUP_NAME_FOLLOWS, x, uid.rest);
        if gid.Ok? {
          LastSays(Parser(name, mode.value, times.base, uid.value, gid.value, p.ioError), x, o, size, times.ns,
            gid.rest);
        }
      }
    }
  }

  // -------------------------------------------------------------- names too long

  lemma OneByteName(last: bytes, x: nat, s: bytes)
    requires !Has(x, SAME_NAME) && !Has(x, LONG_NAME)
    ensures RName(last, x, s).Ok? ==> |RName(last, x, s).value| <= 255
  {
  }

  lemma BodyKeepsName(p: Parser, x: nat, o: Opts, name: bytes, size: int, times: Times, s: bytes)
    ensures var r := RBody(p, x, o, name, size, times, s); r.Entry? ==> r.p.lastName == name && |r.e.path| <= |name|
  {
    hide RMode, RAtime, ROwner, RDevice, RTarget, RChecksum, TypeOf, HasDotDot;
  }

  lemma ParsedName(p: Parser, o: Opts, s: bytes, x: nat, s0: bytes)
    requires RHead(s) == Flags(x, s0)
    ensures var r := ParseEntry(p, o, s);
      !r.End? && (r.Entry? ==>
        RName(p.lastName, x, s0).Ok? && r.p.lastName == RName(p.lastName, x, s0).value && |r.e.path| <= |r.p.lastName|)
  {
    hide RHead, Has, RName, RVarlong, RTimes, RBody;
    var r := ParseEntry(p, o, s);
    if r.Entry? {
      var name := RName(p.lastName, x, s0);
      var size := RVarlong(name.rest, 3);
      var times := RTimes(p.lastMTime, x, size.rest);
      BodyKeepsName(p, x, o, name.value, size.value, times.value, times.rest);
    }
  }

  /** The length goes into one byte, and the flag for longer names is never set: such a name is cut. */
  lemma LongNameCut(p: Parser, e: FileEntry, o: Opts, more: bytes)
    requires InRange(e)
    ensures var r := ParseEntry(p, o, EntryBytes(e, o) + more);
      !r.End? && (r.Entry? ==> |r.p.lastName| <= 255 && |r.e.path| <= 255)
  {
    var x := FlagsOf(e, o);
    FlagBits(e, o);
    hide *;
    var s0 := AfterFlags(e, o, more);
    FlagsBack(x, s0);
    OneByteName(p.lastName, x, s0);
    ParsedName(p, o, EntryBytes(e, o) + more, x, s0);
  }

  lemma AfterFlags(e: FileEntry, o: Opts, more: bytes) returns (s0: bytes)
    requires InRange(e)
    ensures EntryBytes(e, o) + more == FlagBytes(FlagsOf(e, o)) + s0
  {
    var rest := [|SentName(e)| % 256] + (SentName(e) + FromSize(e, o));
    s0 := rest + more;
    Assoc(FlagBytes(FlagsOf(e, o)), rest, more);
  }

  // ---------------------------------------------------------------------- kinds

  /** Only a known type comes back, with the flags that belong to it. */
  lemma KindKept(p: Parser, e: FileEntry, o: Opts, more: bytes)
    requires InRange(e)
    ensures var r := ParseEntry(p, o, EntryBytes(e, o) + more);
      r.Entry? && r.e.mode == e.mode && r.e.isDir == e.isDir && r.e.isSymlink == e.isSymlink ==> KindFits(e)
  {
    var x := FlagsOf(e, o);
    FlagBits(e, o);
    var s := EntryBytes(e, o) + more;
    var s0 := AfterFlags(e, o, more);
    FlagsBack(x, s0);
    hide RHead, RName, RVarlong, RTimes, RBody, EntryBytes, FlagBytes, FlagsOf, TypeOf, KnownType, Has;
    ParsedName(p, o, s, x, s0);
    if ParseEntry(p, o, s).Entry? {
      var name := RName(p.lastName, x, s0);
      Stages(p, o, s, x, s0, name.value, name.rest);
      var size := RVarlong(name.rest, 3);
      var times := RTimes(p.lastMTime, x, size.rest);
      BodySays(p, x, o, name.value, size.value, times.value, times.rest);
    }
  }

  // ----------------------------------------------------------- times before 1970

  /** What is left behind of negative seconds, and then of negative nanoseconds. */
  ghost predicate Marker(y: byte) {
    y == 255 || y == 240
  }

  lemma NegativeFields(e: FileEntry)
    requires InRange(e) && e.mtimeNs <= -SECOND
    ensures var t := TruncDiv(e.mtimeNs, SECOND);
      -0x10_0000_0000 < t < 0 && -SECOND < Nanos(e) <= 0 && t * SECOND + Nanos(e) == e.mtimeNs
  {
  }

  /** Off by a multiple of 2^56 seconds is off by a multiple of 2^64 nanoseconds. */
  lemma SecondsWrap(t: int)
    requires -0x10_0000_0000 < t < 0 && Int64(t * SECOND)
    ensures Wrap64(Wrap64(9 * 0x100_0000_0000_0000 + t) * SECOND) == t * SECOND
  {
    var v := 9 * 0x100_0000_0000_0000 + t;
    assert Wrap64(v) == v;
    assert v * SECOND == t * SECOND + 35156250 * TWO_64;
    WrapShift(t * SECOND, 35156250);
    WrapIdentity(t * SECOND);
  }

  lemma WrapShift(v: int, k: nat)
    ensures Wrap64(v + k * TWO_64) == Wrap64(v)
    decreases k
  {
    if k > 0 {
      WrapShift(v, k - 1);
      assert v + k * TWO_64 == v + (k - 1) * TWO_64 + TWO_64;
    }
  }

  /** A little-endian number that reads the same shifted up by one byte is that byte throughout. */
  lemma ShiftedWord(v: nat, y: byte)
    requires v < TWO_32 && Value([y] + LE(v, 4)[..3]) == v
    ensures LE(v, 4) == [y, y, y, y] && v == y * 0x101_0101
  {
    WordDigits(v);
    var b := LE(v, 4);
    assert [y] + b[..3] == [y, b[0], b[1], b[2]];
    FourBytes(y, b[0], b[1], b[2]);
    FourBytes(b[0], b[1], b[2], b[3]);
    assert b == [b[0], b[1], b[2], b[3]];
    SameDigits(y, b[0], b[1], b[2], b[3]);
  }

  lemma WordDigits(v: nat)
    requires v < TWO_32
    ensures Value(LE(v, 4)) == v
  {
    Powers();
    ValueOfLE(v, 4);
  }

  lemma FourBytes(a: byte, b: byte, c: byte, d: byte)
    ensures Value([a, b, c, d]) == a + 256 * b + 0x1_0000 * c + 0x100_0000 * d
  {
    assert [d][1..] == [] && Value([d]) == d;
    assert [c, d][1..] == [d] && Value([c, d]) == c + 256 * d;
    assert [b, c, d][1..] == [c, d] && Value([b, c, d]) == b + 256 * (c + 256 * d);
    assert [a, b, c, d][1..] == [b, c, d];
  }

  lemma SameDigits(y: byte, a: byte, b: byte, c: byte, d: byte)
    requires y + 256 * a + 0x1_0000 * b + 0x100_0000 * c == a + 256 * b + 0x1_0000 * c + 0x100_0000 * d
    ensures a == b == c == d == y
  {
    SameLow(y, a, a + 256 * b + 0x1_0000 * c, b + 256 * c + 0x1_0000 * d);
    SameLow(a, b, b + 256 * c, c + 256 * d);
  }

  lemma SameLow(y: byte, a: byte, u: int, v: int)
    requires y + 256 * u == a + 256 * v
    ensures y == a && u == v
  {
  }

  /** The nanoseconds, read one byte early. */
  lemma EarlyNanos(base: int, e: FileEntry, o: Opts, rest: bytes) returns (y: byte)
    requires InRange(e) && e.mtimeNs <= -SECOND && base == e.mtimeNs - Nanos(e)
    ensures Marker(y)
    ensures var r := RNanos(base, FlagsOf(e, o), [255] + (NanoBytes(e) + rest));
      r.Ok? && r.value.ns == e.mtimeNs ==> r.rest == [y] + rest
  {
    NegativeFields(e);
    FlagBits(e, o);
    var n := Nanos(e);
    hide TruncDiv, FlagsOf, Has, Nanos;
    if n == 0 {
      assert NanoBytes(e) + rest == rest;
      return 255;
    }
    y := 240;
    Varint.NegativeNanos(n);
    var b := LE(n + TWO_32, 4);
    assert NanoBytes(e) == [240] + b;
    var s := [255] + (NanoBytes(e) + rest);
    assert s == [255, 240, b[0], b[1], b[2], b[3]] + rest;
    EarlyVarint(b, rest);
    if Wrap64(base + Wrap32(Value([240] + b[..3]))) == e.mtimeNs {
      SameWrap(base, Wrap32(Value([240] + b[..3])), n);
      WordValue(240, b[0], b[1], b[2]);
      assert [240] + b[..3] == [240, b[0], b[1], b[2]];
      ShiftedWord(n + TWO_32, 240);
    }
  }

  lemma WordValue(a: byte, b: byte, c: byte, d: byte)
    ensures var v := Value([a, b, c, d]); v < TWO_32 && (Wrap32(v) < 0 ==> v == Wrap32(v) + TWO_32)
  {
    FourBytes(a, b, c, d);
  }

  lemma SameWrap(base: int, w: int, n: int)
    requires Int32(w) && Int32(n) && Int64(base + n) && Wrap64(base + w) == base + n
    ensures w == n
  {
  }

  lemma EarlyVarint(b: bytes, rest: bytes)
    requires |b| == 4
    ensures RVarint([255, 240, b[0], b[1], b[2], b[3]] + rest) == Ok(Wrap32(Value([240] + b[..3])), [b[3]] + rest)
  {
    var s := [255, 240, b[0], b[1], b[2], b[3]] + rest;
    Powers();
    assert s[1..5] == [240] + b[..3] && s[5..] == [b[3]] + rest;
    var v := Value(s[1..5]);
    assert Wrap32(15 * TWO_32 + v) == Wrap32(v);
  }

  lemma EarlyTimes(last: int, e: FileEntry, o: Opts, rest: bytes) returns (y: byte)
    requires InRange(e) && e.mtimeNs <= -SECOND
    ensures Marker(y)
    ensures var r := RTimes(last, FlagsOf(e, o), TimeBytes(e) + rest);
      r.Ok? && r.value.ns == e.mtimeNs ==> r.rest == [y] + rest
  {
    InRangeFields(e);
    NegativeFields(e);
    FlagBits(e, o);
    var t := TruncDiv(e.mtimeNs, SECOND);
    var more := NanoBytes(e) + rest;
    Assoc(VarlongBytes(t, 4), NanoBytes(e), rest);
    Varint.NegativeSeconds(t, more);
    SecondsWrap(t);
    hide TruncDiv, FlagsOf, Has, NanoBytes, RNanos;
    assert RVarlong(VarlongBytes(t, 4) + more, 4) == Ok(Wrap64(9 * 0x100_0000_0000_0000 + t), [255] + more);
    y := EarlyNanos(t * SECOND, e, o, rest);
  }

  /** A mode read one byte early is another mode, or of no known type. */
  lemma EarlyMode(last: nat, e: FileEntry, o: Opts, y: byte, rest: bytes)
    requires InRange(e) && Marker(y)
    ensures var r := RMode(last, FlagsOf(e, o), [y] + (FromMode(e, o) + rest));
      r.Ok? && r.value == e.mode ==> !KnownType(TypeOf(e.mode))
  {
    FlagBits(e, o);
    var more := OwnerBytes(e, o) + TargetBytes(e, o);
    assert FromMode(e, o) == LE(e.mode, 4) + more;
    assert 0 <= e.mode < TWO_32;
    hide OwnerBytes, TargetBytes, FromMode, RMode, RUint32, FlagsOf, Has, LE, TypeOf;
    EarlyWord(y, e.mode, more, rest);
    ModeRead(last, FlagsOf(e, o), [y] + (FromMode(e, o) + rest));
    if Value([y] + LE(e.mode, 4)[..3]) == e.mode {
      ShiftedWord(e.mode, y);
      TypeOfByte(e.mode, y);
    }
  }

  /** A time more than a second before 1970 does not come back, though the seconds themselves would. */
  lemma EarlyTimeLost(p: Parser, e: FileEntry, o: Opts, name: bytes, size: int, more: bytes)
    requires InRange(e) && e.mtimeNs <= -SECOND
    ensures var x := FlagsOf(e, o); var times := RTimes(p.lastMTime, x, TimeBytes(e) + (FromMode(e, o) + more));
      times.Ok? ==>
        var r := RBody(p, x, o, name, size, times.value, times.rest);
        !(r.Entry? && r.e.mtimeNs == e.mtimeNs && r.e.mode == e.mode)
  {
    hide *;
    var x := FlagsOf(e, o);
    var y := EarlyTimes(p.lastMTime, e, o, FromMode(e, o) + more);
    var times := RTimes(p.lastMTime, x, TimeBytes(e) + (FromMode(e, o) + more));
    if times.Ok? {
      BodySays(p, x, o, name, size, times.value, times.rest);
      EarlyMode(p.lastMode, e, o, y, more);
    }
  }

  // ---------------------------------------------------------------- sizes too large

  /** Of three digits, as for four in ShiftedWord. */
  lemma ShiftedSeconds(t: nat)
    requires t < TWO_31 && 8 * 0x100_0000 + Value([t / 0x100_0000] + LE(t, 3)[..2]) == t
    ensures LE(t, 3) == [8, 8, 8]
  {
    Powers();
    ValueOfLE(t, 3);
    var b, h := LE(t, 3), t / 0x100_0000;
    assert b == [b[0], b[1], b[2]] && [h] + b[..2] == [h, b[0], b[1]];
    ThreeBytes(h, b[0], b[1]);
    ThreeBytes(b[0], b[1], b[2]);
    hide *;
    EqualDigits(h, b[0], b[1], b[2]);
  }

  lemma EqualDigits(h: byte, a: byte, b: byte, c: byte)
    requires 8 * 0x100_0000 + h + 256 * a + 0x1_0000 * b == h * 0x100_0000 + a + 256 * b + 0x1_0000 * c
    ensures h == a == b == c == 8
  {
    SameLow(h, a, 8 * 0x1_0000 + a + 256 * b, h * 0x1_0000 + b + 256 * c);
    SameLow(a, b, 8 * 256 + b, h * 256 + c);
    SameLow(b, c, 8, h);
  }

  lemma ThreeBytes(a: byte, b: byte, c: byte)
    ensures Value([a, b, c]) == a + 256 * b + 0x1_0000 * c < 0x100_0000
  {
    assert [c][1..] == [] && Value([c]) == c;
    assert [b, c][1..] == [c] && Value([b, c]) == b + 256 * c;
    assert [a, b, c][1..] == [b, c];
  }

  /** A code of seconds that follows a stray 8. */
  lemma StraySeconds(t: int, more: bytes)
    requires -0x10_0000_0000 < t < 0x10_0000_0000
    ensures Int64(t)
    ensures var r := RVarlong([8] + (VarlongBytes(t, 4) + more), 4);
      r.Ok? && 0 <= r.value < TWO_31 && (r.value == t ==> r.rest == [8] + more)
  {
    var c := VarlongBytes(t, 4);
    LongEnough(t);
    StrayCode(c, more);
    ThreeBytes(c[0], c[1], c[2]);
    assert c[..3] == [c[0], c[1], c[2]];
    hide VarlongBytes, RVarlong, LE;
    if 8 * 0x100_0000 + Value(c[..3]) == t {
      StrayTop(t, c);
    }
  }

  lemma StrayCode(c: bytes, more: bytes)
    requires |c| >= 4
    ensures var v := 8 * 0x100_0000 + Value(c[..3]);
      v < TWO_31 && RVarlong([8] + (c + more), 4) == Ok(v, c[3..] + more)
  {
    var s := [8] + (c + more);
    Powers();
    assert s[1..4] == c[..3] && s[4..] == c[3..] + more;
    ThreeBytes(c[0], c[1], c[2]);
    assert c[..3] == [c[0], c[1], c[2]];
    NoWrap(8 * 0x100_0000 + Value(c[..3]));
  }

  lemma StrayTop(t: nat, c: bytes)
    requires t < TWO_31 && |c| >= 4 && c == VarlongBytes(t, 4) && 8 * 0x100_0000 + Value(c[..3]) == t
    ensures c[3..] == [8]
  {
    Varint.SmallSeconds(t);
    assert U64(t) == t;
    assert c == [t / 0x100_0000] + LE(t, 3);
    hide VarlongBytes;
    assert c[..3] == [t / 0x100_0000] + LE(t, 3)[..2];
    ShiftedSeconds(t);
    assert c[3..] == LE(t, 3)[2..];
  }

  lemma LongEnough(t: int)
    requires Int64(t)
    ensures |VarlongBytes(t, 4)| >= 4
  {
  }

  lemma SecondsOf(e: FileEntry)
    requires InRange(e)
    ensures var t := TruncDiv(e.mtimeNs, SECOND);
      -0x10_0000_0000 < t < 0x10_0000_0000 && t * SECOND == e.mtimeNs - Nanos(e) && Int32(Nanos(e))
  {
  }

  /** Nanoseconds that follow a stray 8. */
  lemma StrayNanos(base: int, e: FileEntry, o: Opts, rest: bytes)
    requires InRange(e) && base == e.mtimeNs - Nanos(e)
    ensures var r := RNanos(base, FlagsOf(e, o), [8] + (NanoBytes(e) + rest));
      r.Ok? && r.value.ns == e.mtimeNs ==> r.rest == [8] + rest
  {
    SecondsOf(e);
    FlagBits(e, o);
    var n, x := Nanos(e), FlagsOf(e, o);
    NanosOf(e);
    hide *;
    if n == 0 {
      NoNanos(base, x, [8] + rest);
      assert [] + rest == rest;
    } else {
      StrayVarint(NanoBytes(e) + rest);
      SomeNanos(base, x, [8] + (NanoBytes(e) + rest));
      if Wrap64(base + 8) == e.mtimeNs {
        SameWrap(base, 8, n);
        EightByte();
      }
    }
  }

  lemma NanosOf(e: FileEntry)
    requires InRange(e)
    ensures Int64(e.mtimeNs) && Int32(Nanos(e))
    ensures Nanos(e) != 0 ==> NanoBytes(e) == VarintBytes(Nanos(e))
    ensures Nanos(e) == 0 ==> NanoBytes(e) == []
  {
    InRangeFields(e);
  }

  lemma NoNanos(base: int, x: nat, s: bytes)
    requires !Has(x, MOD_NSEC)
    ensures RNanos(base, x, s) == Ok(Times(base, base), s)
  {
    hide Has;
  }

  lemma SomeNanos(base: int, x: nat, s: bytes)
    requires Has(x, MOD_NSEC) && RVarint(s).Ok?
    ensures RNanos(base, x, s) == Ok(Times(base, Wrap64(base + RVarint(s).value)), RVarint(s).rest)
  {
    hide Has, RVarint;
  }

  lemma EightByte()
    ensures VarintBytes(8) == [8]
  {
    Varint.SmallCode(8);
  }

  lemma StrayVarint(more: bytes)
    ensures RVarint([8] + more) == Ok(8, more)
  {
    assert ([8] + more)[1..1] == [] && ([8] + more)[1..] == more;
  }

  lemma StrayTimes(last: int, e: FileEntry, o: Opts, rest: bytes)
    requires InRange(e)
    ensures var r := RTimes(last, FlagsOf(e, o), [8] + (TimeBytes(e) + rest));
      r.Ok? && r.value.base == e.mtimeNs - Nanos(e) && r.value.ns == e.mtimeNs ==> r.rest == [8] + rest
  {
    InRangeFields(e);
    SecondsOf(e);
    FlagBits(e, o);
    var t := TruncDiv(e.mtimeNs, SECOND);
    var more := NanoBytes(e) + rest;
    Assoc(VarlongBytes(t, 4), NanoBytes(e), rest);
    StraySeconds(t, more);
    StrayNanos(t * SECOND, e, o, rest);
    hide TruncDiv, FlagsOf, Has, NanoBytes, VarlongBytes, RVarlong, Nanos;
    var v := RVarlong([8] + (VarlongBytes(t, 4) + more), 4).value;
    NoWrap(v * SECOND);
    BaseKept(v * SECOND, FlagsOf(e, o), RVarlong([8] + (VarlongBytes(t, 4) + more), 4).rest);
  }

  lemma NoWrap(v: int)
    requires 0 <= v < TWO_31 * SECOND
    ensures Wrap64(v) == v
  {
  }

  lemma BaseKept(base: int, x: nat, s: bytes)
    ensures var r := RNanos(base, x, s); r.Ok? ==> r.value.base == base
  {
    hide Has;
  }

  /** A mode that follows a stray 8 is of type 0. */
  lemma StrayMode(last: nat, e: FileEntry, o: Opts, rest: bytes)
    requires InRange(e)
    ensures var r := RMode(last, FlagsOf(e, o), [8] + (FromMode(e, o) + rest));
      r.Ok? && r.value == e.mode ==>
        TypeOf(e.mode) == 0 && r.rest == [8] + (OwnerBytes(e, o) + (TargetBytes(e, o) + rest))
  {
    FlagBits(e, o);
    var owners, target := OwnerBytes(e, o), TargetBytes(e, o);
    assert FromMode(e, o) == LE(e.mode, 4) + (owners + target);
    assert 0 <= e.mode < TWO_32;
    hide *;
    Assoc(owners, target, rest);
    EarlyWord(8, e.mode, owners + target, rest);
    ModeRead(last, FlagsOf(e, o), [8] + (FromMode(e, o) + rest));
    if Value([8] + LE(e.mode, 4)[..3]) == e.mode {
      ShiftedWord(e.mode, 8);
      TypeOfByte(e.mode, 8);
      assert [8, 8, 8, 8][3..] == [8];
    }
  }

  /** A little-endian word after a stray byte. */
  lemma EarlyWord(y: byte, v: nat, more: bytes, rest: bytes)
    ensures var s := [y] + ((LE(v, 4) + more) + rest);
      RUint32(s) == Ok(Value([y] + LE(v, 4)[..3]), LE(v, 4)[3..] + (more + rest))
  {
    var s := [y] + ((LE(v, 4) + more) + rest);
    var w := LE(v, 4);
    assert |s| >= 4 && s[..4] == [y] + w[..3] && s[4..] == w[3..] + (more + rest);
  }

  lemma ModeRead(last: nat, x: nat, s: bytes)
    requires !Has(x, SAME_MODE)
    ensures RMode(last, x, s) == RUint32(s)
  {
    hide Has;
  }

  lemma TypeOfByte(mode: nat, y: byte)
    requires mode == y * 0x101_0101 && (Marker(y) || y == 8)
    ensures TypeOf(mode) == y / 16
  {
    if y == 255 {
      assert mode == 0xFFFF_FFFF;
    } else if y == 240 {
      assert mode == 0xF0F0_F0F0;
    } else {
      assert mode == 0x808_0808;
    }
  }

  /** An owner that follows a stray 8. */
  lemma StrayOwner(kept: bool, last: int, sameBit: nat, nameBit: nat, x: nat, v: int, more: bytes)
    requires sameBit > 0 && nameBit > 0 && Int32(v)
    requires (Has(x, sameBit) <==> !kept) && !Has(x, nameBit)
    ensures var r := ROwner(kept, last, sameBit, nameBit, x, [8] + ((if kept then VarintBytes(v) else []) + more));
      r.Ok? && r.value == (if kept then v else last) ==> r.rest == [8] + more
  {
    hide Has;
    if kept {
      StrayVarint(VarintBytes(v) + more);
      if v == 8 {
        Varint.SmallCode(8);
        assert VarintBytes(v) == [8];
      }
    } else {
      assert [] + more == more;
    }
  }

  /** The rest of an entry of type 0 that follows a stray 8: one byte too many is left. */
  lemma StrayLast(p: Parser, e: FileEntry, o: Opts, x: nat, size: int, ns: int, sum: bytes, tail: bytes)
    requires InRange(e) && TypeOf(p.lastMode) == 0 && p.lastMode == e.mode && SumFits(e, o, sum) && !e.isSymlink
    ensures var r := RLast(p, x, o, size, ns, [8] + (TargetBytes(e, o) + (sum + tail)));
      r.Entry? ==> |r.rest| > |tail|
  {
    hide Has, CleanPath, HasDotDot, InRange;
  }

  lemma StrayBody(p: Parser, e: FileEntry, o: Opts, size: int, times: Times, sum: bytes, tail: bytes)
    requires InRange(e) && !o.atimes && SumFits(e, o, sum)
    ensures var r := RBody(p, FlagsOf(e, o), o, SentName(e), size, times, [8] + (FromMode(e, o) + (sum + tail)));
      r.Entry? && r.e == Received(p, e, o) ==> |r.rest| > |tail|
  {
    var x, more := FlagsOf(e, o), sum + tail;
    StrayMode(p.lastMode, e, o, more);
    FlagBits(e, o);
    hide FlagsOf, Has, OwnerBytes, TargetBytes, RMode, ROwner, RLast, TypeOf, CleanPath, SumFits, InRange, FromMode;
    var s := [8] + (FromMode(e, o) + more);
    BodySays(p, x, o, SentName(e), size, times, s);
    var mode := RMode(p.lastMode, x, s);
    if mode.Ok? && mode.value == e.mode {
      StrayOwners(p, e, o, x, size, times, sum, tail);
    }
  }

  lemma StrayOwners(p: Parser, e: FileEntry, o: Opts, x: nat, size: int, times: Times, sum: bytes, tail: bytes)
    requires InRange(e) && !o.atimes && SumFits(e, o, sum) && x == FlagsOf(e, o) && TypeOf(e.mode) == 0
    ensures var more := TargetBytes(e, o) + (sum + tail);
      var uid := ROwner(o.uid, p.lastUID, SAME_UID, USER_NAME_FOLLOWS, x, [8] + (OwnerBytes(e, o) + more));
      uid.Ok? && uid.value == (if o.uid then e.uid else p.lastUID) ==>
        var gid := ROwner(o.gid, p.lastGID, SAME_GID, GROUP_NAME_FOLLOWS, x, uid.rest);
        gid.Ok? && gid.value == (if o.gid then e.gid else p.lastGID) && !e.isSymlink ==>
          var r := RLast(Parser(SentName(e), e.mode, times.base, uid.value, gid.value, p.ioError), x, o, size,
            times.ns, gid.rest);
          r.Entry? ==> |r.rest| > |tail|
  {
    var more := TargetBytes(e, o) + (sum + tail);
    var u := if o.uid then VarintBytes(e.uid) else [];
    var g := if o.gid then VarintBytes(e.gid) else [];
    assert OwnerBytes(e, o) == u + g;
    FlagBits(e, o);
    Assoc(u, g, more);
    StrayOwner(o.uid, p.lastUID, SAME_UID, USER_NAME_FOLLOWS, x, e.uid, g + more);
    StrayOwner(o.gid, p.lastGID, SAME_GID, GROUP_NAME_FOLLOWS, x, e.gid, more);
    var q := Parser(SentName(e), e.mode, times.base, if o.uid then e.uid else p.lastUID,
                    if o.gid then e.gid else p.lastGID, p.ioError);
    if !e.isSymlink {
      StrayLast(q, e, o, x, size, times.ns, sum, tail);
    }
    hide FlagsOf, Has, OwnerBytes, TargetBytes, ROwner, RLast, TypeOf, SentName, VarintBytes, SumFits;
  }

  // --------------------------------------------------------------- a whole entry

  /** What comes after the flags and a name of at most 255 bytes. */
  ghost function FromSizeOn(e: FileEntry, o: Opts, more: bytes): bytes
    requires InRange(e) && Int64(SentSize(e))
  {
    VarlongBytes(SentSize(e), 3) + (TimeBytes(e) + (FromMode(e, o) + more))
  }

  lemma ShortStages(p: Parser, e: FileEntry, o: Opts, more: bytes)
    requires InRange(e) && 0 < |SentName(e)| <= 255 && ParseEntry(p, o, EntryBytes(e, o) + more).Entry?
    ensures Int64(SentSize(e))
    ensures var x, size := FlagsOf(e, o), RVarlong(FromSizeOn(e, o, more), 3);
      size.Ok? && RTimes(p.lastMTime, x, size.rest).Ok? &&
      var times := RTimes(p.lastMTime, x, size.rest);
      ParseEntry(p, o, EntryBytes(e, o) + more) == RBody(p, x, o, SentName(e), size.value, times.value, times.rest)
  {
    InRangeFields(e);
    FlagBits(e, o);
    assert FromSizeOn(e, o, more) == VarlongBytes(SentSize(e), 3) + (TimeBytes(e) + (FromMode(e, o) + more));
    hide *;
    var x := FlagsOf(e, o);
    var s0 := FromName(p.lastName, e, o, more);
    FlagsBack(x, s0);
    Stages(p, o, EntryBytes(e, o) + more, x, s0, SentName(e), FromSizeOn(e, o, more));
  }

  lemma FromName(last: bytes, e: FileEntry, o: Opts, more: bytes) returns (s0: bytes)
    requires InRange(e) && |SentName(e)| <= 255
    ensures Int64(SentSize(e))
    ensures EntryBytes(e, o) + more == FlagBytes(FlagsOf(e, o)) + s0
    ensures RName(last, FlagsOf(e, o), s0) == Ok(SentName(e), FromSizeOn(e, o, more))
  {
    InRangeFields(e);
    FlagBits(e, o);
    assert FromSizeOn(e, o, more) == VarlongBytes(SentSize(e), 3) + (TimeBytes(e) + (FromMode(e, o) + more));
    hide *;
    var s1 := FromSizeOn(e, o, more);
    s0 := [|SentName(e)|] + (SentName(e) + s1);
    EntryPushes(e, o, more);
    NameBack(last, FlagsOf(e, o), SentName(e), s1);
  }

  lemma SizeMisread(size: int, tail: bytes)
    requires Int64(size) && !(0 <= size < 0x8_0000_0000_0000)
    ensures var r := RVarlong(VarlongBytes(size, 3) + tail, 3);
      r.Ok? && (r.value != size || r.rest == [8] + tail)
  {
    var x := U64(size);
    Varint.LargeSize(x, tail);
    WrapIdentity(size);
    assert VarlongBytes(size, 3) == Varint.Encode(x, 3);
    assert x == if size < 0 then size + TWO_64 else size;
    hide *;
    VarlongIs(Varint.Encode(x, 3) + tail, 3);
  }

  lemma VarlongIs(s: bytes, m: nat)
    requires m >= 1
    ensures var r := Varint.Parse(s, m);
      r.Some? && r.value.value < TWO_63 ==> RVarlong(s, m) == Ok(r.value.value, r.value.rest)
  {
    hide Varint.Parse;
  }

  lemma LargeSizeLost(p: Parser, e: FileEntry, o: Opts, sum: bytes, tail: bytes)
    requires Writable(e, o) && |SentName(e)| <= 255 && SumFits(e, o, sum) && !SizeFits(e)
    ensures ParseEntry(p, o, EntryBytes(e, o) + (sum + tail)) != Entry(Received(p, e, o), Remembered(p, e, o), tail)
  {
    assert InRange(e) && 0 < |SentName(e)| && !o.atimes && !IsDevice(TypeOf(e.mode));
    assert !(0 <= SentSize(e) < 0x8_0000_0000_0000);
    InRangeFields(e);
    var more := sum + tail;
    var want, kept := Received(p, e, o), Remembered(p, e, o);
    assert want.size == SentSize(e) && want.mtimeNs == e.mtimeNs && want.mode == e.mode;
    assert kept.lastMTime == e.mtimeNs - Nanos(e);
    var rest := TimeBytes(e) + (FromMode(e, o) + more);
    assert FromSizeOn(e, o, more) == VarlongBytes(SentSize(e), 3) + rest;
    hide *;
    if ParseEntry(p, o, EntryBytes(e, o) + more) == Entry(want, kept, tail) {
      ShortStages(p, e, o, more);
      var x, size := FlagsOf(e, o), RVarlong(FromSizeOn(e, o, more), 3);
      var times := RTimes(p.lastMTime, x, size.rest);
      BodySays(p, x, o, SentName(e), size.value, times.value, times.rest);
      SizeMisread(SentSize(e), rest);
      StrayTimes(p.lastMTime, e, o, FromMode(e, o) + more);
      StrayBody(p, e, o, size.value, times.value, sum, tail);
    }
  }

  lemma EarlyLost(p: Parser, e: FileEntry, o: Opts, more: bytes)
    requires InRange(e) && 0 < |SentName(e)| <= 255 && SizeFits(e) && e.mtimeNs <= -SECOND
    ensures var r := ParseEntry(p, o, EntryBytes(e, o) + more);
      !(r.Entry? && r.e.mtimeNs == e.mtimeNs && r.e.mode == e.mode)
  {
    InRangeFields(e);
    assert 0 <= SentSize(e) < 0x8_0000_0000_0000;
    var rest := TimeBytes(e) + (FromMode(e, o) + more);
    assert FromSizeOn(e, o, more) == VarlongBytes(SentSize(e), 3) + rest;
    hide *;
    if ParseEntry(p, o, EntryBytes(e, o) + more).Entry? {
      ShortStages(p, e, o, more);
      VarlongBack(SentSize(e), 3, rest);
      EarlyTimeLost(p, e, o, SentName(e), SentSize(e), more);
    }
  }

  /**
   An entry the writer accepts parses back exactly when its name has at most 255 bytes, its size is
   below 2^51, its time is less than a second before 1970 or later, and its mode says what it is.
   */
  lemma EntryBackIff(p: Parser, e: FileEntry, o: Opts, sum: bytes, tail: bytes)
    requires Writable(e, o) && SumFits(e, o, sum)
    ensures ParseEntry(p, o, EntryBytes(e, o) + (sum + tail)) == Entry(Received(p, e, o), Remembered(p, e, o), tail)
            <==> Fits(e)
  {
    assert InRange(e) && 0 < |SentName(e)|;
    assert Remembered(p, e, o).lastName == SentName(e);
    var want := Received(p, e, o);
    assert want.mtimeNs == e.mtimeNs && want.mode == e.mode && want.isDir == e.isDir && want.isSymlink == e.isSymlink;
    assert Fits(e) <==> |SentName(e)| <= 255 && SizeFits(e) && e.mtimeNs > -SECOND && KindFits(e);
    assert Sendable(e, o) <==> Fits(e);
    hide *;
    LongNameCut(p, e, o, sum + tail);
    KindKept(p, e, o, sum + tail);
    if Fits(e) {
      EntryBack(p, e, o, sum, tail);
    } else if |SentName(e)| <= 255 {
      if !SizeFits(e) {
        LargeSizeLost(p, e, o, sum, tail);
      } else if e.mtimeNs <= -SECOND {
        EarlyLost(p, e, o, sum + tail);
      }
    }
  }

  // ---------------------------------------------------------------- a whole list

  /** Entries the writer accepts with sizes in range and names the parser does not rewrite. */
  ghost predicate AllWritable(items: seq<Item>, o: Opts) {
    forall i | 0 <= i < |items| :: ItemWritable(items[i], o)
  }

  ghost predicate ItemWritable(item: Item, o: Opts) {
    && Writable(item.e, o) && SizeFits(item.e) && SumFits(item.e, o, item.sum)
    && CleanPath(SentName(item.e)) == SentName(item.e)
  }

  ghost predicate AllFit(items: seq<Item>) {
    forall i | 0 <= i < |items| :: Fits(items[i].e)
  }

  lemma FittingAreSendable(items: seq<Item>, o: Opts)
    requires AllWritable(items, o) && AllFit(items)
    ensures AllSendable(items, o)
  {
    hide Writable, Fits, SumFits, SizeFits, CleanPath, SentName;
  }

  lemma AllWritableInRange(items: seq<Item>, o: Opts)
    requires AllWritable(items, o)
    ensures AllInRange(items)
  {
    hide InRange, SentName, CleanPath, SizeFits, SumFits;
  }

  /** A first entry that comes back as announced fits the format. */
  lemma FirstFits(p: Parser, item: Item, o: Opts, more: bytes)
    requires ItemWritable(item, o) && NoOwners(p, o)
    ensures InRange(item.e)
    ensures var r := ParseEntry(p, o, EntryBytes(item.e, o) + (item.sum + more));
      r.Entry? && r.e == Received(Fresh, item.e, o) ==>
        Fits(item.e) && r.rest == more && r.p == Remembered(p, item.e, o)
    ensures NoOwners(Remembered(p, item.e, o), o)
  {
    var e := item.e;
    assert Writable(e, o) && InRange(e) && 0 < |SentName(e)| && SizeFits(e) && SumFits(e, o, item.sum);
    var want := Received(Fresh, e, o);
    assert want.path == SentName(e);
    assert want.mtimeNs == e.mtimeNs && want.mode == e.mode && want.isDir == e.isDir && want.isSymlink == e.isSymlink;
    assert Fits(e) <==> |SentName(e)| <= 255 && SizeFits(e) && e.mtimeNs > -SECOND && KindFits(e);
    OwnersStayZero(p, e, o);
    hide *;
    LongNameCut(p, e, o, item.sum + more);
    KindKept(p, e, o, item.sum + more);
    if |SentName(e)| <= 255 && e.mtimeNs <= -SECOND {
      EarlyLost(p, e, o, item.sum + more);
    }
    EntryBackIff(p, e, o, item.sum, more);
  }

  lemma {:induction false} MisfitSpoils(p: Parser, items: seq<Item>, o: Opts, tail: bytes)
    requires AllWritable(items, o) && NoOwners(p, o)
    ensures AllInRange(items)
    ensures var r := ParseEntries(p, o, EntriesBytes(items, o) + ([0] + tail));
      r.Ok? && r.value.0 == Arrived(items, o) ==> AllFit(items)
    decreases |items|
  {
    AllWritableInRange(items, o);
    if items != [] {
      FirstWritable(items, o);
      hide *;
      var more := FirstEntry(items, o, [0] + tail);
      var s := EntryBytes(items[0].e, o) + (items[0].sum + more);
      FirstFits(p, items[0], o, more);
      MisfitSpoils(Remembered(p, items[0].e, o), items[1..], o, tail);
      if ParseEntries(p, o, s).Ok? && ParseEntries(p, o, s).value.0 == Arrived(items, o) {
        Heads(p, o, s, Received(Fresh, items[0].e, o), Arrived(items[1..], o));
        FitFrom(items);
      }
    }
  }

  lemma FitFrom(items: seq<Item>)
    requires items != [] && Fits(items[0].e) && AllFit(items[1..])
    ensures AllFit(items)
  {
    hide Fits;
    forall i | 0 <= i < |items| ensures Fits(items[i].e) {
      if i > 0 {
        assert items[i] == items[1..][i - 1];
      }
    }
  }

  /** The first of the parsed entries. */
  lemma Heads(p: Parser, o: Opts, s: bytes, e: FileEntry, more: seq<FileEntry>)
    requires ParseEntries(p, o, s).Ok? && ParseEntries(p, o, s).value.0 == [e] + more
    ensures var r := ParseEntry(p, o, s);
      r.Entry? && r.e == e && ParseEntries(r.p, o, r.rest).Ok? && ParseEntries(r.p, o, r.rest).value.0 == more
  {
    hide ParseEntry;
    var r := ParseEntry(p, o, s);
    assert r.Entry?;
    var rest := ParseEntries(r.p, o, r.rest);
    assert ([r.e] + rest.value.0)[1..] == rest.value.0 && ([e] + more)[1..] == more;
    assert ([r.e] + rest.value.0)[0] == r.e && ([e] + more)[0] == e;
  }

  lemma FirstWritable(items: seq<Item>, o: Opts)
    requires AllWritable(items, o) && items != []
    ensures ItemWritable(items[0], o) && AllWritable(items[1..], o)
    ensures Arrived(items, o) == [Received(Fresh, items[0].e, o)] + Arrived(items[1..], o)
  {
    hide ItemWritable, Received;
  }

  /**
   A list the writer accepts, with sizes in range, reads back exactly when every name fits one length
   byte, every time its seconds, and every mode its kind: one misfit spoils the list.
   */
  lemma ListBackIff(items: seq<Item>, o: Opts, tail: bytes)
    requires AllWritable(items, o)
    ensures AllInRange(items)
    ensures ParseList(o, ListBytes(items, o) + tail) == Ok(Arrived(items, o), tail) <==> AllFit(items)
  {
    AllWritableInRange(items, o);
    Assoc(EntriesBytes(items, o), [0] + IdListBytes(o), tail);
    Assoc([0], IdListBytes(o), tail);
    hide ParseEntries, RIdList, EntriesBytes, IdListBytes, Arrived, AllFit, AllWritable, AllSendable, AllInRange;
    MisfitSpoils(Fresh, items, o, IdListBytes(o) + tail);
    if AllFit(items) {
      FittingAreSendable(items, o);
      ListRoundTrip(items, o, tail);
    }
  }

  // -------------------------------------------------------------------- instances

  function PlainFile(name: bytes, size: int, mtimeNs: int): FileEntry {
    FileEntry(name, false, false, TYPE_REG * IFMT_UNIT, 0, 0, size, mtimeNs, [])
  }

  const Plain := Opts(false, false, false, false, false, false)

  ghost predicate Survives(e: FileEntry, o: Opts) {
    InRange(e) && ParseEntry(Fresh, o, EntryBytes(e, o)) == Entry(Received(Fresh, e, o), Remembered(Fresh, e, o), [])
  }

  lemma PlainSurvives(name: bytes, size: int, mtimeNs: int)
    requires 0 < |name| <= MAX_NAME && Int64(size) && Int64(mtimeNs)
    ensures Survives(PlainFile(name, size, mtimeNs), Plain) <==>
            |name| <= 255 && 0 <= size < 0x8_0000_0000_0000 && mtimeNs > -SECOND
  {
    var e := PlainFile(name, size, mtimeNs);
    assert SentName(e) == name && SumFits(e, Plain, []) && Writable(e, Plain) && KindFits(e);
    hide ParseEntry, EntryBytes, Received, Remembered;
    assert EntryBytes(e, Plain) + ([] + []) == EntryBytes(e, Plain);
    EntryBackIff(Fresh, e, Plain, [], []);
  }

  /** A name of 256 bytes, a size of 2 PiB and a second before 1970 are each too much; a little less is not. */
  lemma FirstMisfits()
    ensures !Survives(PlainFile(seq(256, _ => 97), 0, 0), Plain) && Survives(PlainFile(seq(255, _ => 97), 0, 0), Plain)
    ensures !Survives(PlainFile([97], 0x8_0000_0000_0000, 0), Plain)
    ensures !Survives(PlainFile([97], 0, -SECOND), Plain) && Survives(PlainFile([97], 0, -SECOND + 1), Plain)
  {
    hide Survives;
    PlainSurvives(seq(256, _ => 97), 0, 0);
    PlainSurvives(seq(255, _ => 97), 0, 0);
    PlainSurvives([97], 0x8_0000_0000_0000, 0);
    PlainSurvives([97], 0, -SECOND);
    PlainSurvives([97], 0, -SECOND + 1);
  }

  // ------------------------------------------------------------- device sizes

  const SLIP: int := 0x80_0000_0000_0000

  /** A device whose size is sent as 0xF8 and seven bytes, and whose time as zeros. */
  ghost predicate Slippery(e: FileEntry, o: Opts) {
    && InRange(e) && 0 < |SentName(e)| <= 255 && KindFits(e) && IsDevice(TypeOf(e.mode))
    && !o.atimes && !o.devices && !o.checksum && e.mtimeNs == 0 && e.size == SLIP
  }

  function Sizeless(e: FileEntry): FileEntry {
    e.(size := 0)
  }

  /** The reader leaves the last of the seven bytes, 0x80. */
  lemma SlippedSize(size: int, tail: bytes)
    requires size == SLIP
    ensures var r := RVarlong(VarlongBytes(size, 3) + tail, 3); r.Ok? && r.rest == [128] + tail
  {
    Varint.BigPowers();
    Varint.ExtrasAre(size, 3, 5);
    Varint.CutCode(size, 3, 5, tail);
    Varint.LastOfLE(size, 6);
    assert U64(size) == size;
    hide Varint.Code, LE;
  }

  /** The stray byte makes a longer code of the same seconds. */
  lemma AbsorbedSeconds(t: int, tail: bytes)
    requires t == 0
    ensures RVarlong([128] + (VarlongBytes(t, 4) + tail), 4) == Ok(t, tail)
  {
    Varint.SmallSeconds(t);
    ThreeZeros();
    assert VarlongBytes(t, 4) == [0, 0, 0, 0];
    hide VarlongBytes;
    var s := [128, 0, 0, 0, 0] + tail;
    assert [128] + ([0, 0, 0, 0] + tail) == s;
    assert s[1..5] == [0, 0, 0, 0] && s[5..] == tail;
    FourBytes(0, 0, 0, 0);
    Powers();
  }

  lemma ThreeZeros()
    ensures LE(0, 3) == [0, 0, 0]
  {
    assert LE(0, 1) == [0] && LE(0, 2) == [0, 0];
  }

  lemma SlippedTimes(last: int, e: FileEntry, o: Opts, rest: bytes)
    requires Slippery(e, o)
    ensures RTimes(last, FlagsOf(e, o), [128] + (TimeBytes(e) + rest)) == Ok(Times(0, 0), rest)
  {
    InRangeFields(e);
    FlagBits(e, o);
    NanosOf(e);
    var t := TruncDiv(e.mtimeNs, SECOND);
    assert t == 0 && Nanos(e) == 0;
    assert TimeBytes(e) == VarlongBytes(t, 4) + NanoBytes(e);
    NoWrap(0);
    hide *;
    var x := FlagsOf(e, o);
    assert NanoBytes(e) == [] && VarlongBytes(t, 4) + [] == VarlongBytes(t, 4);
    AbsorbedSeconds(t, rest);
    SecondsThenNanos(last, x, t, [128] + (VarlongBytes(t, 4) + rest), rest);
    NoNanos(0, x, rest);
  }

  /** What does not depend on a device's size. */
  lemma SizelessTwin(p: Parser, e: FileEntry, o: Opts)
    requires Slippery(e, o)
    ensures var d := Sizeless(e);
      && Sendable(d, o) && SumFits(d, o, []) && SentName(d) == SentName(e) && d.mtimeNs == 0 && Nanos(d) == 0
      && FlagsOf(d, o) == FlagsOf(e, o) && FromMode(d, o) == FromMode(e, o)
      && Received(p, d, o) == Received(p, e, o) && Remembered(p, d, o) == Remembered(p, e, o)
  {
    hide CleanPath, LE, VarintBytes;
  }

  lemma DeviceBody(p: Parser, e: FileEntry, o: Opts, size: int, tail: bytes)
    requires Slippery(e, o)
    ensures RBody(p, FlagsOf(e, o), o, SentName(e), size, Times(0, 0), FromMode(e, o) + tail)
      == Entry(Received(p, e, o), Remembered(p, e, o), tail)
  {
    SizelessTwin(p, e, o);
    var d := Sizeless(e);
    assert d.mode == e.mode && IsDevice(TypeOf(e.mode)) && InRange(d) && !o.atimes;
    hide *;
    assert [] + tail == tail;
    BodyBack(p, d, o, FlagsOf(d, o), [], tail);
    DeviceSizeDropped(p, d, o, SentSize(d), size, tail);
  }

  lemma DeviceSizeDropped(p: Parser, d: FileEntry, o: Opts, size: int, other: int, tail: bytes)
    requires InRange(d) && IsDevice(TypeOf(d.mode)) && !o.atimes
    ensures var x, s := FlagsOf(d, o), FromMode(d, o) + tail;
      RBody(p, x, o, SentName(d), size, Times(0, 0), s) == RBody(p, x, o, SentName(d), other, Times(0, 0), s)
  {
    var x, owners, target := FlagsOf(d, o), OwnerBytes(d, o), TargetBytes(d, o);
    assert FromMode(d, o) == LE(d.mode, 4) + (owners + target);
    Assoc(LE(d.mode, 4), owners + target, tail);
    ModeBack(p.lastMode, d, o, x, (owners + target) + tail);
    hide RMode, RAtime, ROwner, FlagsOf, Has, OwnerBytes, TargetBytes, LE, FromMode, TypeOf, InRange;
  }

  lemma SlippedEntry(p: Parser, e: FileEntry, o: Opts)
    requires Slippery(e, o)
    ensures ParseEntry(p, o, EntryBytes(e, o) + []) == Entry(Received(p, e, o), Remembered(p, e, o), [])
  {
    InRangeFields(e);
    FlagBits(e, o);
    assert SentSize(e) == SLIP && Int64(SLIP) && InRange(e) && |SentName(e)| <= 255;
    assert FromSizeOn(e, o, []) == VarlongBytes(SentSize(e), 3) + (TimeBytes(e) + (FromMode(e, o) + []));
    hide *;
    var x, s1, rest := FlagsOf(e, o), FromSizeOn(e, o, []), FromMode(e, o) + [];
    SlippedSize(SentSize(e), TimeBytes(e) + rest);
    SlippedTimes(p.lastMTime, e, o, rest);
    var s0 := FromName(p.lastName, e, o, []);
    FlagsBack(x, s0);
    var size := RVarlong(s1, 3);
    FieldByField(p, o, EntryBytes(e, o) + [], x, s0, SentName(e), s1, size.value, size.rest, Times(0, 0), rest);
    DeviceBody(p, e, o, size.value, []);
  }

  /** A device's size is not kept, so what it leaves behind can pass unnoticed: no bound on it is exact. */
  lemma DeviceSizeSlips(e: FileEntry, o: Opts)
    requires Slippery(e, o)
    ensures !SizeFits(e) && Survives(e, o)
  {
    assert InRange(e) && !SizeFits(e);
    hide *;
    SlippedEntry(Fresh, e, o);
    AloneIs(e, o);
  }

  lemma SomeDeviceSlips()
    ensures exists e, o :: Slippery(e, o)
  {
    var e := FileEntry([97], false, false, TYPE_CHR * IFMT_UNIT, 0, 0, SLIP, 0, []);
    assert SentName(e) == [97];
    assert Slippery(e, Plain);
  }

  /** The smallest size out of range leaves an 8 behind. */
  lemma FirstSlip(size: int, tail: bytes)
    requires size == 0x8_0000_0000_0000
    ensures var r := RVarlong(VarlongBytes(size, 3) + tail, 3); r.Ok? && r.rest == [8] + tail
  {
    Varint.BigPowers();
    Varint.ExtrasAre(size, 3, 5);
    Varint.CutCode(size, 3, 5, tail);
    Varint.LastOfLE(size, 6);
    assert U64(size) == size;
    hide Varint.Code, LE;
  }

  /** A device of a smaller size out of range is lost: what it leaves behind is no part of a device's mode. */
  lemma SmallerDeviceLost(e: FileEntry, o: Opts)
    requires InRange(e) && 0 < |SentName(e)| <= 255 && KindFits(e) && IsDevice(TypeOf(e.mode))
    requires e.size == 0x8_0000_0000_0000
    ensures !SizeFits(e) && e.size < SLIP && !Survives(e, o)
  {
    var p, want, kept := Fresh, Received(Fresh, e, o), Remembered(Fresh, e, o);
    var rest := TimeBytes(e) + (FromMode(e, o) + []);
    InRangeFields(e);
    assert SentSize(e) == 0x8_0000_0000_0000 && TypeOf(e.mode) != 0;
    assert want.mtimeNs == e.mtimeNs && want.mode == e.mode && kept.lastMTime == e.mtimeNs - Nanos(e);
    assert FromSizeOn(e, o, []) == VarlongBytes(SentSize(e), 3) + rest;
    AloneIs(e, o);
    hide *;
    if ParseEntry(p, o, EntryBytes(e, o) + []) == Entry(want, kept, []) {
      ShortStages(p, e, o, []);
      var x, size := FlagsOf(e, o), RVarlong(FromSizeOn(e, o, []), 3);
      var times := RTimes(p.lastMTime, x, size.rest);
      BodySays(p, x, o, SentName(e), size.value, times.value, times.rest);
      FirstSlip(SentSize(e), rest);
      StrayTimes(p.lastMTime, e, o, FromMode(e, o) + []);
      StrayMode(p.lastMode, e, o, []);
    }
  }

  lemma AloneIs(e: FileEntry, o: Opts)
    requires InRange(e)
    ensures Survives(e, o) <==>
      ParseEntry(Fresh, o, EntryBytes(e, o) + []) == Entry(Received(Fresh, e, o), Remembered(Fresh, e, o), [])
  {
    hide ParseEntry, EntryBytes, Received, Remembered, InRange;
    assert EntryBytes(e, o) + [] == EntryBytes(e, o);
  }
}
