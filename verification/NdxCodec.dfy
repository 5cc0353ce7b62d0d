/** File indices as differences (ndxCodec in internal/front/rsync/protocol/wire.go). */
module NdxCodec {
  import opened Sequences
  import opened Streams

  const NDX_DONE: int := -1

  /** The two predecessors a codec keeps. */
  datatype State = State(positive: int, negative: int)

  const Initial := State(-1, 1)

  ghost predicate IsState(c: State) {
    Int32(c.positive) && Int32(c.negative)
  }

  // -------------------------------------------------------------------- encoding

  /** The magnitude that is coded and its int32 difference from the predecessor. */
  function Magnitude(ndx: int): int {
    if ndx >= 0 then ndx else Wrap32(-ndx)
  }

  function Difference(c: State, ndx: int): int {
    Wrap32(Magnitude(ndx) - if ndx >= 0 then c.positive else c.negative)
  }

  /** The difference is out of range and the number itself is sent. */
  predicate Absolute(diff: int) {
    diff < 0 || diff > 0x7FFF
  }

  function Body(diff: int, num: int): bytes
    requires Int32(diff)
  {
    if 0 < diff < 0xFE then [diff]
    else if Absolute(diff) then
      var u := U32(num);
      [0xFE, 128 + (u / 0x100_0000) % 128, u % 256, (u / 256) % 256, (u / 65536) % 256]
    else [0xFE, diff / 256, diff % 256]
  }

  function Encode(c: State, ndx: int): bytes {
    if ndx == NDX_DONE then [0]
    else (if ndx >= 0 then [] else [0xFF]) + Body(Difference(c, ndx), Magnitude(ndx))
  }

  function AfterWrite(c: State, ndx: int): State {
    if ndx == NDX_DONE then c
    else if ndx >= 0 then c.(positive := ndx)
    else c.(negative := Magnitude(ndx))
  }

  // -------------------------------------------------------------------- decoding

  /** Four bytes of an absolute number, its flag bit cleared. */
  function Join(top: byte, high: byte, mid: byte, low: byte): (r: int)
    requires top >= 128
    ensures 0 <= r < TWO_31
  {
    (top as int - 128) * 0x100_0000 + high as int * 65536 + mid as int * 256 + low as int
  }

  /** The number a body stands for, given the predecessor. */
  function DecodeBody(prev: int, s: bytes): Option<Parsed<int>> {
    if s == [] then None
    else if s[0] != 0xFE then Some(Parsed(Wrap32(s[0] + prev), s[1..]))
    else if |s| < 3 then None
    else if s[1] < 128 then Some(Parsed(Wrap32(s[1] as int * 256 + s[2] as int + prev), s[3..]))
    else if |s| < 5 then None
    else Some(Parsed(Join(s[1], s[4], s[3], s[2]), s[5..]))
  }

  function Decode(c: State, s: bytes): Option<Parsed<int>> {
    if s == [] then None
    else if s[0] == 0 then Some(Parsed(NDX_DONE, s[1..]))
    else if s[0] == 0xFF then
      match DecodeBody(c.negative, s[1..])
      case None => None
      case Some(p) => Some(Parsed(Wrap32(-p.value), p.rest))
    else DecodeBody(c.positive, s)
  }

  /** The reader stores what it returned, so a negative index is kept with its sign. */
  function AfterRead(c: State, s: bytes): State
    requires Decode(c, s).Some?
  {
    var v := Decode(c, s).value.value;
    if s[0] == 0 then c else if s[0] == 0xFF then c.(negative := v) else c.(positive := v)
  }

  // ------------------------------------------------------------------- the codec

  class Codec {
    var prevPositive: int
    var prevNegative: int

    ghost function Now(): State
      reads this
    {
      State(prevPositive, prevNegative)
    }

    constructor ()
      ensures Now() == Initial
    {
      prevPositive, prevNegative := -1, 1;
    }

    method Write(sink: ByteSink, ndx: int)
      requires Int32(ndx) && IsState(Now())
      modifies this, sink
      ensures IsState(Now()) && Now() == AfterWrite(old(Now()), ndx)
      ensures sink.out == old(sink.out) + Encode(old(Now()), ndx)
    {
      if ndx == NDX_DONE {
        sink.Write([0]);
        return;
      }
      var b := new byte[6](_ => 0);
      var cnt, diff, num := 0, 0, ndx;
      if ndx >= 0 {
        diff := Wrap32(ndx - prevPositive);
        prevPositive := ndx;
      } else {
        b[0] := 0xFF;
        cnt := 1;
        num := Wrap32(-ndx);
        diff := Wrap32(num - prevNegative);
        prevNegative := num;
      }
      assert b[..cnt] == if ndx >= 0 then [] else [0xFF];
      assert diff == Difference(old(Now()), ndx) && num == Magnitude(ndx);
      hide Wrap32, U32, Difference, Magnitude, Body;
      cnt := PutBody(b, cnt, diff, num);
      sink.Write(b[..cnt]);
    }

    method Read(src: ByteSource) returns (r: Option<int>)
      requires IsState(Now())
      modifies this, src
      ensures r.Some? <==> Decode(old(Now()), old(src.rest)).Some?
      ensures r.Some? ==> Decode(old(Now()), old(src.rest)) == Some(Parsed(r.value, src.rest))
      ensures r.Some? ==> IsState(Now()) && Now() == AfterRead(old(Now()), old(src.rest))
      ensures r.None? ==> Now() == old(Now())
    {
      ghost var s := src.rest;
      var b := src.ReadFull(1);
      if b.None? {
        return None;
      }
      var first := b.value[0];
      if first == 0 {
        return Some(NDX_DONE);
      }
      if first == 0xFF {
        var again := src.ReadFull(1);
        if again.None? {
          return None;
        }
        assert again.value[0] == s[1..][0] && src.rest == s[1..][1..];
        assert [again.value[0]] + src.rest == s[1..];
        var num := ReadBody(src, again.value[0], prevNegative);
        if num.None? {
          return None;
        }
        prevNegative := Wrap32(-num.value);
        r := Some(prevNegative);
      } else {
        assert [first] + src.rest == s;
        r := ReadBody(src, first, prevPositive);
        if r.Some? {
          prevPositive := r.value;
        }
      }
    }
  }

  /** Writes the difference, or the number, at `at` and on. */
  method PutBody(b: array<byte>, at: nat, diff: int, num: int) returns (cnt: nat)
    requires at + 5 <= b.Length && Int32(diff)
    modifies b
    ensures cnt <= b.Length && b[..cnt] == old(b[..at]) + Body(diff, num)
  {
    ghost var mark := b[..at];
    cnt := at;
    if diff < 0xFE && diff > 0 {
      b[cnt] := diff;
      cnt := cnt + 1;
    } else if diff < 0 || diff > 0x7FFF {
      var u := U32(num);
      b[cnt] := 0xFE;
      b[cnt + 1] := 128 + (u / 0x100_0000) % 128;
      b[cnt + 2] := u % 256;
      b[cnt + 3] := (u / 256) % 256;
      b[cnt + 4] := (u / 65536) % 256;
      cnt := cnt + 5;
    } else {
      b[cnt] := 0xFE;
      b[cnt + 1] := diff / 256;
      b[cnt + 2] := diff % 256;
      cnt := cnt + 3;
    }
    ghost var all := b[..];
    assert all[at..cnt] == Body(diff, num);
    assert all[..at] == mark;
    hide Body, U32;
    CutAt(all, at, cnt);
    assert b[..cnt] == all[..cnt];
  }

  lemma CutAt(s: bytes, at: nat, cnt: nat)
    requires at <= cnt <= |s|
    ensures s[..cnt] == s[..at] + s[at..cnt]
  {
  }

  /** The rest of a body whose first byte has been read. */
  method ReadBody(src: ByteSource, first: byte, prev: int) returns (num: Option<int>)
    requires Int32(prev)
    modifies src
    ensures var s := [first] + old(src.rest);
      && (num.Some? <==> DecodeBody(prev, s).Some?)
      && (num.Some? ==> DecodeBody(prev, s) == Some(Parsed(num.value, src.rest)) && Int32(num.value))
  {
    ghost var s := [first] + src.rest;
    if first != 0xFE {
      return Some(Wrap32(first + prev));
    }
    var bb := src.ReadFull(2);
    if bb.None? {
      return None;
    }
    assert bb.value == s[1..3] && src.rest == s[3..];
    if bb.value[0] < 128 {
      return Some(Wrap32(bb.value[0] as int * 256 + bb.value[1] as int + prev));
    }
    var cc := src.ReadFull(2);
    if cc.None? {
      return None;
    }
    assert cc.value == s[3..5] && src.rest == s[5..];
    num := Some(Join(bb.value[0], cc.value[1], cc.value[0], bb.value[1]));
  }

  // ------------------------------------------------------------------- one step

  lemma Shifts(u: nat)
    ensures u / 65536 == u / 256 / 256 && u / 0x100_0000 == u / 256 / 256 / 256
  {
  }

  lemma Digits(u: nat)
    requires u < TWO_32
    ensures Join(128 + (u / 0x100_0000) % 128, (u / 65536) % 256, (u / 256) % 256, u % 256) == u % TWO_31
  {
    Shifts(u);
    var q1 := u / 256;
    var q2 := q1 / 256;
    var q3 := q2 / 256;
    var flag, top := q3 / 128, q3 % 128;
    assert u == flag * TWO_31 + (top * 0x100_0000 + (q2 % 256) * 65536 + (q1 % 256) * 256 + u % 256);
    assert 0 <= flag <= 1;
  }

  lemma WrapCases(v: int)
    requires -3 * TWO_31 <= v < 3 * TWO_31
    ensures Wrap32(v) == if v >= TWO_31 then v - TWO_32 else if v < -TWO_31 then v + TWO_32 else v
  {
  }

  lemma SmallU32(v: int)
    requires 0 <= v < TWO_31
    ensures U32(v) % TWO_31 == v
  {
  }

  /**
   A body always consumes exactly its own bytes; a relative one adds the reader's predecessor to the
   writer's difference.
   */
  lemma BodyDecodes(diff: int, num: int, prev: int, tail: bytes)
    requires Int32(diff) && Int32(num) && Int32(prev)
    ensures DecodeBody(prev, Body(diff, num) + tail).Some?
    ensures var p := DecodeBody(prev, Body(diff, num) + tail).value;
      && p.rest == tail
      && (!Absolute(diff) ==> p.value == Wrap32(diff + prev))
      && (Absolute(diff) ==> p.value == U32(num) % TWO_31)
  {
    var s := Body(diff, num) + tail;
    Digits(U32(num));
    hide Wrap32, U32, Join;
    if 0 < diff < 0xFE {
      assert s[1..] == tail;
    } else if Absolute(diff) {
      assert s[5..] == tail;
    } else {
      assert s[3..] == tail;
      assert diff / 256 * 256 + diff % 256 == diff;
    }
  }

  /** The reader's predecessors agree with the writer's where it matters. */
  ghost predicate StepFits(w: State, r: State, ndx: int) {
    if ndx == NDX_DONE then true
    else if ndx >= 0 then Absolute(Difference(w, ndx)) || r.positive == w.positive
    else if Absolute(Difference(w, ndx)) then ndx != -TWO_31 else r.negative == w.negative
  }

  /**
   One index decodes to itself exactly when it is sent in absolute form (and is not the least
   int32) or reader and writer have the same predecessor. Either way exactly its bytes are consumed.
   */
  lemma StepIff(w: State, r: State, ndx: int, tail: bytes)
    requires IsState(w) && IsState(r) && Int32(ndx)
    ensures Decode(r, Encode(w, ndx) + tail).Some?
    ensures Decode(r, Encode(w, ndx) + tail).value.rest == tail
    ensures Decode(r, Encode(w, ndx) + tail).value.value == ndx <==> StepFits(w, r, ndx)
    ensures ndx >= 0 || ndx == NDX_DONE ==> AfterRead(r, Encode(w, ndx) + tail).negative == r.negative
    ensures ndx >= 0 ==> AfterRead(r, Encode(w, ndx) + tail).positive == Decode(r, Encode(w, ndx) + tail).value.value
    ensures ndx < 0 ==> AfterRead(r, Encode(w, ndx) + tail).positive == r.positive
    ensures IsState(AfterRead(r, Encode(w, ndx) + tail)) && IsState(AfterWrite(w, ndx))
  {
    var s := Encode(w, ndx) + tail;
    if ndx == NDX_DONE {
      assert s[1..] == tail;
    } else {
      var diff, num := Difference(w, ndx), Magnitude(ndx);
      if ndx >= 0 {
        assert s == Body(diff, num) + tail;
        BodyDecodes(diff, num, r.positive, tail);
        assert s[0] != 0 && s[0] != 0xFF;
        PositiveFits(w, r, ndx);
      } else {
        assert s[0] == 0xFF && s[1..] == Body(diff, num) + tail;
        BodyDecodes(diff, num, r.negative, tail);
        NegativeFits(w, r, ndx);
      }
    }
  }

  lemma PositiveFits(w: State, r: State, ndx: int)
    requires IsState(w) && IsState(r) && Int32(ndx) && ndx >= 0
    ensures var d := Difference(w, ndx);
      (if Absolute(d) then U32(ndx) % TWO_31 else Wrap32(d + r.positive)) == ndx <==> StepFits(w, r, ndx)
  {
    var d := Difference(w, ndx);
    SmallU32(ndx);
    WrapCases(ndx - w.positive);
    WrapCases(d + r.positive);
    hide Wrap32, U32;
  }

  lemma NegativeFits(w: State, r: State, ndx: int)
    requires IsState(w) && IsState(r) && Int32(ndx) && ndx < -1
    ensures var d, num := Difference(w, ndx), Magnitude(ndx);
      Wrap32(-(if Absolute(d) then U32(num) % TWO_31 else Wrap32(d + r.negative))) == ndx <==> StepFits(w, r, ndx)
  {
    var d, num := Difference(w, ndx), Magnitude(ndx);
    WrapCases(-ndx);
    WrapCases(num - w.negative);
    var back := if Absolute(d) then U32(num) % TWO_31 else Wrap32(d + r.negative);
    WrapCases(-back);
    if Absolute(d) {
      if ndx != -TWO_31 {
        SmallU32(num);
      } else {
        assert U32(num) % TWO_31 == 0;
      }
    } else {
      WrapCases(d + r.negative);
    }
    hide Wrap32, U32;
  }

  // ---------------------------------------------------------------- whole streams

  function EncodeAll(c: State, list: seq<int>): bytes
    decreases |list|
  {
    if list == [] then [] else Encode(c, list[0]) + EncodeAll(AfterWrite(c, list[0]), list[1..])
  }

  /** The first `n` indices of a stream. */
  function DecodeAll(c: State, s: bytes, n: nat): Option<Parsed<seq<int>>>
    decreases n
  {
    if n == 0 then Some(Parsed([], s))
    else if Decode(c, s).None? then None
    else
      var first := Decode(c, s).value;
      match DecodeAll(AfterRead(c, s), first.rest, n - 1)
      case None => None
      case Some(p) => Some(Parsed([first.value] + p.value, p.rest))
  }

  /**
   What the sending side can check from its own state: every negative index (NDX_DONE aside) after
   the first goes out in absolute form, and the least int32 is not sent. `first` says that no
   negative index has been sent yet.
   */
  predicate Readable(w: State, list: seq<int>, first: bool)
    decreases |list|
  {
    list == [] ||
    (&& (list[0] < -1 ==> if Absolute(Difference(w, list[0])) then list[0] != -TWO_31 else first)
     && Readable(AfterWrite(w, list[0]), list[1..], first && list[0] >= -1))
  }

  /**
   Before the first negative index the two sides agree; afterwards their negative predecessors have
   opposite signs.
   */
  ghost predicate Agree(w: State, r: State, first: bool) {
    && IsState(w) && IsState(r) && w.positive == r.positive
    && (if first then w.negative == r.negative == 1 else r.negative < 0 < w.negative)
  }

  lemma FitsIff(w: State, r: State, first: bool, ndx: int)
    requires Agree(w, r, first)
    ensures StepFits(w, r, ndx) <==> (ndx < -1 ==> if Absolute(Difference(w, ndx)) then ndx != -TWO_31 else first)
  {
    hide Absolute, Difference, IsState;
  }

  lemma FitsNotLeast(w: State, r: State, first: bool, ndx: int)
    requires Agree(w, r, first) && Int32(ndx) && ndx < -1 && StepFits(w, r, ndx)
    ensures ndx != -TWO_31 && Magnitude(ndx) == -ndx
  {
    FitsIff(w, r, first, ndx);
    if ndx == -TWO_31 {
      LeastIsAbsolute(w, first);
    }
  }

  lemma LeastIsAbsolute(w: State, first: bool)
    requires first ==> w.negative == 1
    ensures first ==> Absolute(Difference(w, -TWO_31))
  {
  }

  /** The reader keeps a negative index as it returned it. */
  lemma NegativeKept(w: State, r: State, ndx: int, rest: bytes)
    requires IsState(w) && IsState(r) && Int32(ndx) && ndx < -1 && Decode(r, Encode(w, ndx) + rest).Some?
    ensures AfterRead(r, Encode(w, ndx) + rest).negative == Decode(r, Encode(w, ndx) + rest).value.value
  {
    hide Body, DecodeBody, Wrap32;
    assert (Encode(w, ndx) + rest)[0] == 0xFF;
  }

  lemma AgreeStep(w: State, r: State, first: bool, ndx: int, rest: bytes)
    requires Agree(w, r, first) && Int32(ndx) && StepFits(w, r, ndx)
    ensures Agree(AfterWrite(w, ndx), AfterRead(r, Encode(w, ndx) + rest), first && ndx >= -1)
  {
    StepIff(w, r, ndx, rest);
    if ndx < -1 {
      FitsNotLeast(w, r, first, ndx);
      NegativeKept(w, r, ndx, rest);
    }
    hide Decode, Encode, AfterRead, StepFits, IsState, Magnitude;
  }

  /** The stream from any two agreeing states is read back exactly when it is readable. */
  lemma {:induction false} StreamFrom(w: State, r: State, list: seq<int>, tail: bytes, first: bool)
    requires Agree(w, r, first) && forall i | 0 <= i < |list| :: Int32(list[i])
    ensures DecodeAll(r, EncodeAll(w, list) + tail, |list|) == Some(Parsed(list, tail)) <==> Readable(w, list, first)
    decreases |list|
  {
    if list == [] {
      assert EncodeAll(w, list) + tail == tail;
    } else {
      var rest := EncodeAll(AfterWrite(w, list[0]), list[1..]) + tail;
      var s := Encode(w, list[0]) + rest;
      Assoc(Encode(w, list[0]), EncodeAll(AfterWrite(w, list[0]), list[1..]), tail);
      FitsIff(w, r, first, list[0]);
      assert IsState(w) && IsState(r);
      StepIff(w, r, list[0], rest);
      hide Decode, Encode, AfterRead, AfterWrite, StepFits, Absolute, Difference, Agree, IsState;
      assert list == [list[0]] + list[1..];
      if StepFits(w, r, list[0]) {
        AgreeStep(w, r, first, list[0], rest);
        StreamFrom(AfterWrite(w, list[0]), AfterRead(r, s), list[1..], tail, first && list[0] >= -1);
        HeadSame(r, s, list, tail);
      } else {
        HeadDiffers(r, s, list, tail);
      }
    }
  }

  lemma HeadSame(r: State, s: bytes, list: seq<int>, tail: bytes)
    requires list != [] && Decode(r, s).Some? && Decode(r, s).value.value == list[0]
    ensures DecodeAll(r, s, |list|) == Some(Parsed(list, tail)) <==>
      DecodeAll(AfterRead(r, s), Decode(r, s).value.rest, |list| - 1) == Some(Parsed(list[1..], tail))
  {
    hide Decode, AfterRead;
    assert list == [list[0]] + list[1..];
  }

  lemma HeadDiffers(r: State, s: bytes, list: seq<int>, tail: bytes)
    requires list != [] && Decode(r, s).Some? && Decode(r, s).value.value != list[0]
    ensures DecodeAll(r, s, |list|) != Some(Parsed(list, tail))
  {
    hide Decode, AfterRead;
  }

  /**
   A fresh reader gets back exactly the indices a fresh writer sent, whatever follows them, if and
   only if every negative index after the first was sent in absolute form and none was the least int32.
   */
  lemma StreamRoundTripIff(list: seq<int>, tail: bytes)
    requires forall i | 0 <= i < |list| :: Int32(list[i])
    ensures DecodeAll(Initial, EncodeAll(Initial, list) + tail, |list|) == Some(Parsed(list, tail))
      <==> Readable(Initial, list, true)
  {
    StreamFrom(Initial, Initial, list, tail, true);
  }

  /** How many indices are negative and not NDX_DONE. */
  ghost function Negatives(list: seq<int>): nat {
    if list == [] then 0 else (if list[0] < -1 then 1 else 0) + Negatives(list[1..])
  }

  /** At most one negative index, however large the others: always readable. */
  lemma {:induction false} OneNegativeReadable(w: State, list: seq<int>, first: bool)
    requires forall i | 0 <= i < |list| :: -TWO_31 < list[i] < TWO_31
    requires Negatives(list) <= if first then 1 else 0
    ensures Readable(w, list, first)
    decreases |list|
  {
    if list != [] {
      OneNegativeReadable(AfterWrite(w, list[0]), list[1..], first && list[0] >= -1);
    }
  }

  lemma TwiceMinusThree()
    ensures EncodeAll(Initial, [-3, -3]) == [0xFF, 2] + ([0xFF, 0xFE, 0, 0] + [])
  {
    var after := State(-1, 3);
    assert Encode(Initial, -3) == [0xFF, 2] && AfterWrite(Initial, -3) == after;
    assert Encode(after, -3) == [0xFF, 0xFE, 0, 0] && AfterWrite(after, -3) == after;
    hide Encode, AfterWrite;
    assert [-3][1..] == [] && [-3, -3][1..] == [-3];
    assert EncodeAll(after, []) == [];
    assert EncodeAll(after, [-3]) == [0xFF, 0xFE, 0, 0] + [];
  }

  lemma MisreadSteps(s: bytes, t: bytes)
    requires s == [0xFF, 2] + t && t == [0xFF, 0xFE, 0, 0]
    ensures Decode(Initial, s) == Some(Parsed(-3, t)) && AfterRead(Initial, s) == State(-1, -3)
    ensures Decode(State(-1, -3), t) == Some(Parsed(3, [])) && AfterRead(State(-1, -3), t) == State(-1, 3)
  {
    assert s[1..][1..] == t;
    assert t[1..][3..] == [];
  }

  /** The sign slip: after one negative index the predecessors differ, and the same index again is misread. */
  lemma SecondNegativeMisread()
    ensures DecodeAll(Initial, EncodeAll(Initial, [-3, -3]), 2) == Some(Parsed([-3, 3], []))
  {
    TwiceMinusThree();
    var t: bytes := [0xFF, 0xFE, 0, 0];
    var s := [0xFF, 2] + t;
    assert t + [] == t;
    MisreadSteps(s, t);
    hide Decode, AfterRead, EncodeAll;
    ghost var none: seq<int> := [];
    assert DecodeAll(State(-1, 3), [], 0) == Some(Parsed(none, []));
    assert [3] + none == [3];
    assert DecodeAll(State(-1, -3), t, 1) == Some(Parsed([3], []));
    assert [-3] + [3] == [-3, 3];
    assert DecodeAll(Initial, s, 2) == Some(Parsed([-3] + [3], []));
  }
}
