/**
 varint and varlong (WriteVarint, ReadVarint, WriteVarlong, ReadVarlong in
 internal/front/rsync/protocol/wire.go): a first byte whose leading ones count the extra bytes
 and whose low bits are the top of the value, then the rest of the value little-endian.
 */
module Varint {
  import opened Sequences
  import opened Streams

  /** 1 << k. */
  function Bit(k: nat): (r: nat)
    requires k <= 8
    ensures 1 <= r <= 256
    ensures k > 0 ==> r == 2 * Bit(k - 1)
  {
    match k
    case 0 => 1
    case 1 => 2
    case 2 => 4
    case 3 => 8
    case 4 => 16
    case 5 => 32
    case 6 => 64
    case 7 => 128
    case 8 => 256
  }

  // ------------------------------------------------------------------ the format

  /**
   Values that fit a code of `e` extra bytes over the minimum `m`: 7 - e bits of the first byte,
   then m + e - 1 bytes.
   */
  function Capacity(m: nat, e: nat): (r: nat)
    requires 1 <= m && e <= 7
    ensures r > 0
  {
    Bit(7 - e) * P(m + e - 1)
  }

  /** e ones, a zero, and the top of the value. */
  function First(x: nat, m: nat, e: nat): (r: byte)
    requires 1 <= m && e <= 7 && x < Capacity(m, e)
  {
    TopFits(x, m, e);
    256 - Bit(8 - e) + x / P(m + e - 1)
  }

  lemma TopFits(x: nat, m: nat, e: nat)
    requires 1 <= m && e <= 7 && x < Capacity(m, e)
    ensures x / P(m + e - 1) < Bit(7 - e) && Bit(8 - e) == 2 * Bit(7 - e)
  {
    QuotientLess(x, Bit(7 - e), P(m + e - 1));
  }

  lemma QuotientLess(x: nat, a: nat, b: nat)
    requires b > 0
    ensures x < a * b <==> x / b < a
  {
    var q := x / b;
    assert q * b <= x < (q + 1) * b;
    if q >= a {
      assert q * b >= a * b;
    } else {
      assert (q + 1) * b <= a * b;
    }
  }

  function Code(x: nat, m: nat, e: nat): bytes
    requires 1 <= m && e <= 7 && x < Capacity(m, e)
  {
    [First(x, m, e)] + LE(x, m + e - 1)
  }

  lemma {:induction false} CapacityGrows(m: nat, d: nat, e: nat)
    requires 1 <= m && d <= e <= 7
    ensures Capacity(m, d) <= Capacity(m, e)
    decreases e
  {
    if d < e {
      CapacityGrows(m, d, e - 1);
      assert P(m + e - 1) == 256 * P(m + e - 2);
      assert Bit(8 - e) == 2 * Bit(7 - e);
      Scales(Bit(7 - e), P(m + e - 2));
    }
  }

  lemma Scales(a: nat, p: nat)
    ensures (2 * a) * p <= a * (256 * p)
  {
    assert (2 * a) * p == 2 * (a * p);
    assert a * (256 * p) == 256 * (a * p);
  }

  /** The fewest extra bytes that hold `x`. */
  function Extras(x: nat, m: nat): (e: nat)
    requires 1 <= m && x < Capacity(m, 7)
    ensures e <= 7 && x < Capacity(m, e)
    ensures forall d: nat | d < e :: Capacity(m, d) <= x
  {
    ExtrasFrom(x, m, 0)
  }

  function ExtrasFrom(x: nat, m: nat, from: nat): (e: nat)
    requires 1 <= m && from <= 7 && x < Capacity(m, 7)
    requires forall d: nat | d < from :: Capacity(m, d) <= x
    ensures e <= 7 && x < Capacity(m, e)
    ensures forall d: nat | d < e :: Capacity(m, d) <= x
    decreases 7 - from
  {
    if x < Capacity(m, from) then from else ExtrasFrom(x, m, from + 1)
  }

  lemma ExtrasAre(x: nat, m: nat, e: nat)
    requires 1 <= m && e <= 7 && x < Capacity(m, 7)
    requires x < Capacity(m, e) && (e > 0 ==> Capacity(m, e - 1) <= x)
    ensures Extras(x, m) == e
  {
    var d := Extras(x, m);
    if d < e {
      CapacityGrows(m, d, e - 1);
    }
  }

  function Encode(x: nat, m: nat): bytes
    requires 1 <= m && x < Capacity(m, 7)
  {
    Code(x, m, Extras(x, m))
  }

  // --------------------------------------------------------------------- writing

  /** How far the writer's scan for the top byte decides the code. */
  lemma WriterPicks(x: nat, m: nat, cnt: nat)
    requires 1 <= m <= cnt <= m + 6 && x < P(cnt) && (cnt > m ==> P(cnt - 1) <= x)
    ensures x < Capacity(m, 7)
    ensures var e, top := cnt - m, x / P(cnt - 1);
      && top < 256
      && (top >= Bit(7 - e) ==> Extras(x, m) == e + 1 && First(x, m, e + 1) == 256 - Bit(7 - e))
      && (top < Bit(7 - e) ==> Extras(x, m) == e && First(x, m, e) == 256 - 2 * Bit(7 - e) + top)
  {
    var e := cnt - m;
    assert P(cnt) == 256 * P(cnt - 1);
    QuotientLess(x, 256, P(cnt - 1));
    QuotientLess(x, Bit(7 - e), P(cnt - 1));
    OneMore(x, m, e);
    CapacityGrows(m, e + 1, 7);
    if x < Capacity(m, e) {
      if e > 0 {
        Below(m, e);
      }
      ExtrasAre(x, m, e);
    } else {
      ExtrasAre(x, m, e + 1);
      SmallMod(x, P(cnt));
    }
  }

  lemma OneMore(x: nat, m: nat, e: nat)
    requires 1 <= m && e <= 6 && x < P(m + e)
    ensures x < Capacity(m, e + 1)
  {
    AtLeast(Bit(6 - e), P(m + e));
  }

  lemma AtLeast(a: nat, p: nat)
    requires a >= 1
    ensures p <= a * p
  {
    assert a * p == p + (a - 1) * p;
    assert (a - 1) * p >= 0;
  }

  lemma Below(m: nat, e: nat)
    requires 1 <= m && 1 <= e <= 7
    ensures Capacity(m, e - 1) <= P(m + e - 1)
  {
    assert P(m + e - 1) == 256 * P(m + e - 2);
    Smaller(Bit(8 - e), P(m + e - 2));
  }

  lemma Smaller(a: nat, p: nat)
    requires a <= 256
    ensures a * p <= 256 * p
  {
  }

  lemma ZeroTop(x: nat, n: nat)
    requires x < P(n + 1) && (x / P(n)) % 256 == 0
    ensures x < P(n)
  {
    QuotientLess(x, 256, P(n));
    QuotientLess(x, 1, P(n));
  }

  /**
   The writers' common body: `width` is 4 for varint and 8 for varlong. The bytes of the value are
   laid out after a free first byte, leading zero bytes are dropped down to `m`, and the first
   byte takes the top byte if it has room for it.
   */
  method WritePrefixed(sink: ByteSink, x: nat, width: nat, m: nat)
    requires 1 <= m <= width <= m + 6 && x < P(width)
    modifies sink
    ensures x < Capacity(m, 7)
    ensures sink.out == old(sink.out) + Encode(x, m)
  {
    var b := LayOut(x, width);
    var cnt := TopIndex(b, x, width, m);
    ghost var body := b[1..];
    cnt := SetHead(b, x, m, cnt);
    hide *;
    PrefixOfLE(x, width, cnt - 1);
    HeadAndBody(b[..], cnt);
    assert b[..][1..] == body && b[..][..cnt] == b[..cnt];
    IsEncoding(x, m, cnt, b[..cnt]);
    sink.Write(b[..cnt]);
  }

  /** The first byte takes the top byte if there is room for it, and says how many bytes follow. */
  method SetHead(b: array<byte>, x: nat, m: nat, top: nat) returns (cnt: nat)
    requires 1 <= m <= top <= m + 6 && top < b.Length && x < P(top) && (top > m ==> P(top - 1) <= x)
    requires b[top] == x / P(top - 1)
    modifies b
    ensures b[1..] == old(b[1..])
    ensures x < Capacity(m, 7) && cnt == Extras(x, m) + m <= top + 1
    ensures b[0] == First(x, m, Extras(x, m))
  {
    WriterPicks(x, m, top);
    hide P, Capacity, Extras, First;
    var bit := Bit(7 - top + m);
    ghost var body := b[1..];
    if b[top] >= bit {
      cnt := top + 1;
      b[0] := 256 - bit;
    } else {
      cnt := top;
      b[0] := if top > m then b[top] + (256 - 2 * bit) else b[top];
    }
    assert b[1..] == body;
  }

  lemma HeadAndBody(s: bytes, cnt: nat)
    requires 1 <= cnt <= |s|
    ensures s[..cnt] == [s[0]] + s[1..][..cnt - 1]
  {
  }

  lemma IsEncoding(x: nat, m: nat, cnt: nat, written: bytes)
    requires 1 <= m <= cnt && x < Capacity(m, 7) && cnt == Extras(x, m) + m
    requires written == [First(x, m, Extras(x, m))] + LE(x, cnt - 1)
    ensures written == Encode(x, m)
  {
  }

  /** binary.LittleEndian.PutUint into the bytes after the first. */
  method LayOut(x: nat, width: nat) returns (b: array<byte>)
    ensures fresh(b) && b.Length == width + 1 && b[1..] == LE(x, width)
  {
    b := new byte[width + 1](_ => 0);
    for i := 0 to width
      invariant forall k | 1 <= k <= i :: b[k] == LE(x, width)[k - 1]
      modifies b
    {
      LEAt(x, width, i);
      b[i + 1] := (x / P(i)) % 256;
    }
  }

  /** Drops leading zero bytes, but none of the first `m`. */
  method TopIndex(b: array<byte>, x: nat, width: nat, m: nat) returns (cnt: nat)
    requires 1 <= m <= width && b.Length == width + 1 && b[1..] == LE(x, width) && x < P(width)
    ensures m <= cnt <= width && x < P(cnt) && (cnt > m ==> P(cnt - 1) <= x) && b[cnt] == x / P(cnt - 1)
  {
    cnt := width;
    while cnt > m && b[cnt] == 0
      invariant m <= cnt <= width && x < P(cnt)
    {
      LEAt(x, width, cnt - 1);
      assert b[1..][cnt - 1] == b[cnt];
      ZeroTop(x, cnt - 1);
      cnt := cnt - 1;
    }
    assert b[1..][cnt - 1] == b[cnt];
    TopByte(x, width, cnt, m, b[cnt]);
  }

  lemma TopByte(x: nat, width: nat, cnt: nat, m: nat, top: byte)
    requires 1 <= m <= cnt <= width && x < P(cnt) && top == LE(x, width)[cnt - 1]
    ensures top == x / P(cnt - 1)
    ensures top != 0 ==> P(cnt - 1) <= x
  {
    LEAt(x, width, cnt - 1);
    DigitIsQuotient(x, P(cnt - 1));
  }

  lemma DigitIsQuotient(x: nat, p: nat)
    requires p > 0 && x < 256 * p
    ensures (x / p) % 256 == x / p
    ensures x / p != 0 ==> p <= x
  {
    QuotientLess(x, 256, p);
    QuotientLess(x, 1, p);
  }

  lemma {:induction false} PrefixOfLE(x: nat, n: nat, k: nat)
    requires k <= n
    ensures LE(x, n)[..k] == LE(x, k)
  {
    if k > 0 {
      PrefixOfLE(x / 256, n - 1, k - 1);
      assert LE(x, n)[..k] == [x % 256] + LE(x / 256, n - 1)[..k - 1];
    }
  }

  lemma Widths()
    ensures P(4) == TWO_32 && P(8) == TWO_64
  {
    Powers();
  }

  method WriteVarint(sink: ByteSink, v: int)
    requires Int32(v)
    modifies sink
    ensures U32(v) < Capacity(1, 7) && sink.out == old(sink.out) + Encode(U32(v), 1)
  {
    Widths();
    WritePrefixed(sink, U32(v), 4, 1);
  }

  method WriteVarlong(sink: ByteSink, v: int, minBytes: nat)
    requires Int64(v) && 2 <= minBytes <= 8
    modifies sink
    ensures U64(v) < Capacity(minBytes, 7) && sink.out == old(sink.out) + Encode(U64(v), minBytes)
  {
    Widths();
    WritePrefixed(sink, U64(v), 8, minBytes);
  }

  // --------------------------------------------------------------------- reading

  /** Leading ones of the first byte; the reader stops counting at four. */
  function Extra(first: byte): (e: nat)
    ensures e <= 4
  {
    if first < 128 then 0 else if first < 192 then 1 else if first < 224 then 2 else if first < 240 then 3 else 4
  }

  /** What the readers take from the front of `s`, before truncation to the integer width. */
  function Parse(s: bytes, m: nat): Option<Parsed<nat>>
    requires 1 <= m
  {
    if s == [] then None
    else
      var n := Extra(s[0]) + m - 1;
      if |s| - 1 < n then None
      else Some(Parsed((s[0] % Bit(8 - Extra(s[0]))) * P(n) + Value(s[1..1 + n]), s[1 + n..]))
  }

  /** readVarintLen. */
  method ReadFirst(src: ByteSource) returns (r: Option<byte>, extra: nat)
    modifies src
    ensures r.Some? <==> old(src.rest) != []
    ensures r.Some? ==> r.value == old(src.rest)[0] && extra == Extra(r.value) && src.rest == old(src.rest)[1..]
    ensures r.None? ==> src.rest == []
  {
    var b := src.ReadFull(1);
    extra := 0;
    if b.None? {
      return None, 0;
    }
    var first := b.value[0];
    while extra < 4 && (first / Bit(7 - extra)) % 2 == 1
      invariant extra <= 4
      invariant first >= 256 - Bit(8 - extra)
      modifies {}
    {
      extra := extra + 1;
    }
    r := Some(first);
  }

  /** The readers' common body. */
  method ReadPrefixed(src: ByteSource, minBytes: nat) returns (r: Option<nat>)
    requires 1 <= minBytes
    modifies src
    ensures r.Some? <==> Parse(old(src.rest), minBytes).Some?
    ensures r.Some? ==> Parse(old(src.rest), minBytes) == Some(Parsed(r.value, src.rest))
    ensures r.None? ==> src.rest == []
  {
    ghost var s := src.rest;
    var first, extra := ReadFirst(src);
    if first.None? {
      return None;
    }
    var dataBytes := extra + minBytes - 1;
    var rest := src.ReadFull(dataBytes);
    if rest.None? {
      return None;
    }
    assert s[1..][..dataBytes] == s[1..1 + dataBytes];
    assert s[1..][dataBytes..] == s[1 + dataBytes..];
    var val := (first.value % Bit(8 - extra)) * P(dataBytes);
    ghost var top := val;
    for i := 0 to dataBytes
      invariant val == top + Value(rest.value[..i])
      modifies {}
    {
      ValueSnoc(rest.value[..i], rest.value[i]);
      assert rest.value[..i + 1] == rest.value[..i] + [rest.value[i]];
      val := val + rest.value[i] * P(i);
    }
    assert rest.value[..dataBytes] == rest.value;
    r := Some(val);
  }

  method ReadVarint(src: ByteSource) returns (r: Option<int>)
    modifies src
    ensures r.Some? <==> Parse(old(src.rest), 1).Some?
    ensures r.Some? ==>
      r.value == Wrap32(Parse(old(src.rest), 1).value.value) && src.rest == Parse(old(src.rest), 1).value.rest
  {
    var x := ReadPrefixed(src, 1);
    r := if x.Some? then Some(Wrap32(x.value)) else None;
  }

  method ReadVarlong(src: ByteSource, minBytes: nat) returns (r: Option<int>)
    requires 1 <= minBytes
    modifies src
    ensures r.Some? <==> Parse(old(src.rest), minBytes).Some?
    ensures r.Some? ==> r.value == Wrap64(Parse(old(src.rest), minBytes).value.value)
    ensures r.Some? ==> src.rest == Parse(old(src.rest), minBytes).value.rest
  {
    var x := ReadPrefixed(src, minBytes);
    r := if x.Some? then Some(Wrap64(x.value)) else None;
  }

  // ------------------------------------------------------------------ round trips

  lemma FirstSaysAt(e: nat, top: nat, first: byte)
    requires e <= 7 && top < Bit(7 - e) && first == 256 - Bit(8 - e) + top
    ensures Extra(first) == if e <= 4 then e else 4
    ensures e <= 4 ==> first % Bit(8 - e) == top
  {
  }

  lemma FirstSays(x: nat, m: nat, e: nat)
    requires 1 <= m && e <= 7 && x < Capacity(m, e)
    ensures Extra(First(x, m, e)) == if e <= 4 then e else 4
    ensures e <= 4 ==> First(x, m, e) % Bit(8 - e) == x / P(m + e - 1)
  {
    TopFits(x, m, e);
    FirstSaysAt(e, x / P(m + e - 1), First(x, m, e));
  }

  lemma Rejoin(x: nat, p: nat)
    requires p > 0
    ensures (x / p) * p + x % p == x
  {
  }

  /** A code of at most four extra bytes parses back to its value, leaving exactly what follows it. */
  lemma ParseCode(x: nat, m: nat, e: nat, tail: bytes)
    requires 1 <= m && e <= 4 && x < Capacity(m, e)
    ensures Parse(Code(x, m, e) + tail, m) == Some(Parsed(x, tail))
  {
    var n, s := m + e - 1, Code(x, m, e) + tail;
    FirstSays(x, m, e);
    assert s[0] == First(x, m, e);
    assert s[1..1 + n] == LE(x, n) && s[1 + n..] == tail;
    ValueOfLE(x, n);
    Rejoin(x, P(n));
  }

  /** A longer code is cut short: bytes of it stay unread. */
  lemma ParseLongCode(x: nat, m: nat, e: nat, tail: bytes)
    requires 1 <= m && 4 < e <= 7 && x < Capacity(m, e)
    ensures Parse(Code(x, m, e) + tail, m).Some?
    ensures |Parse(Code(x, m, e) + tail, m).value.rest| > |tail|
  {
    FirstSays(x, m, e);
    assert (Code(x, m, e) + tail)[0] == First(x, m, e);
  }

  /** What is read of a longer code: the marker bits count as value, and the last bytes stay behind. */
  lemma CutCode(x: nat, m: nat, e: nat, tail: bytes)
    requires 1 <= m && 4 < e <= 7 && x < Capacity(m, e)
    ensures Parse(Code(x, m, e) + tail, m)
      == Some(Parsed((First(x, m, e) % 16) * P(m + 3) + x % P(m + 3), LE(x, m + e - 1)[m + 3..] + tail))
  {
    var code, n := Code(x, m, e), m + 3;
    var s := code + tail;
    FirstSays(x, m, e);
    assert s[0] == First(x, m, e);
    assert code[1..] == LE(x, m + e - 1);
    assert s[1..1 + n] == LE(x, m + e - 1)[..n] && s[1 + n..] == LE(x, m + e - 1)[n..] + tail;
    PrefixOfLE(x, m + e - 1, n);
    ValueOfLE(x, n);
  }

  lemma LastOfLE(x: nat, n: nat)
    ensures LE(x, n + 1)[n..] == [(x / P(n)) % 256]
  {
    LEAt(x, n + 1, n);
  }

  lemma BigPowers()
    ensures P(6) == 0x1_0000_0000_0000 && P(7) == 0x100_0000_0000_0000 && P(8) == TWO_64
    ensures Capacity(1, 3) == 0x1000_0000 && Capacity(1, 4) == 8 * TWO_32
    ensures Capacity(3, 4) == 0x8_0000_0000_0000 && Capacity(3, 5) == 0x400_0000_0000_0000
      && Capacity(3, 6) == 2 * TWO_64
    ensures Capacity(4, 0) == TWO_31 && Capacity(4, 4) == 0x800_0000_0000_0000 && Capacity(4, 5) == 4 * TWO_64
  {
    Powers();
    Limits();
    assert P(6) == 0x1_0000_0000_0000 && P(7) == 0x100_0000_0000_0000;
  }

  /**
   A negative number of seconds comes back off by a multiple of 2^56, and leaves its last byte, of
   all ones, behind.
   */
  lemma NegativeSeconds(t: int, tail: bytes)
    requires -0x10_0000_0000 < t < 0
    ensures U64(t) < Capacity(4, 7)
    ensures Parse(Encode(U64(t), 4) + tail, 4) == Some(Parsed(9 * 0x100_0000_0000_0000 + t, [255] + tail))
  {
    var x := U64(t);
    VarlongFits(t, 4);
    BigPowers();
    assert x == t + TWO_64;
    ExtrasAre(x, 4, 5);
    CutCode(x, 4, 5, tail);
    LastOfLE(x, 7);
    assert x / P(8) == 0 && First(x, 4, 5) == 248;
    DivUnique(x, P(7), 255, 0x100_0000_0000_0000 + t);
  }

  /** A size from 2^51 comes back as another, or leaves a byte behind that is 8. */
  lemma LargeSize(x: nat, tail: bytes)
    requires 0x8_0000_0000_0000 <= x < TWO_64
    ensures x < Capacity(3, 7)
    ensures var r := Parse(Encode(x, 3) + tail, 3);
      r.Some? && r.value.value < TWO_63 && (r.value.value != x || r.value.rest == [8] + tail)
  {
    BigPowers();
    assert x < Capacity(3, 7) by {
      PGrows(8, 9);
    }
    if x < Capacity(3, 5) {
      ExtrasAre(x, 3, 5);
      CutCode(x, 3, 5, tail);
      LastOfLE(x, 6);
      var top := x / P(7);
      assert top < 4;
      assert First(x, 3, 5) == 248 + top && (248 + top) % 16 == 8 + top;
      TopDigits(x, top);
    } else {
      ExtrasAre(x, 3, 6);
      CutCode(x, 3, 6, tail);
      assert x / P(8) == 0 && First(x, 3, 6) == 252;
    }
  }

  lemma TopDigits(x: nat, top: nat)
    requires top == x / 0x100_0000_0000_0000 && top < 4
    ensures (8 + top) * 0x1_0000_0000_0000 + x % 0x1_0000_0000_0000 == x ==> (x / 0x1_0000_0000_0000) % 256 == 8
  {
    var q := x / 0x1_0000_0000_0000;
    assert q / 256 == top;
  }

  /** The code of a negative int32 that is not too small: the full five bytes. */
  lemma NegativeNanos(n: int)
    requires -1_000_000_000 < n < 0
    ensures U32(n) == n + TWO_32 && U32(n) < Capacity(1, 7)
    ensures Encode(U32(n), 1) == [240] + LE(n + TWO_32, 4)
  {
    var x := n + TWO_32;
    BigPowers();
    Powers();
    Limits();
    ExtrasAre(x, 1, 4);
    assert x / P(4) == 0;
  }

  /** A value of at most seven bits is its own code. */
  lemma SmallCode(x: nat)
    requires x < 128
    ensures x < Capacity(1, 7) && Encode(x, 1) == [x]
  {
    Powers();
    Limits();
    assert Capacity(1, 0) == 128;
    ExtrasAre(x, 1, 0);
  }

  /** Seconds below 2^31 take four bytes, the top one first. */
  lemma SmallSeconds(t: nat)
    requires t < TWO_31
    ensures t < Capacity(4, 7) && Encode(t, 4) == [t / 0x100_0000] + LE(t, 3)
  {
    Powers();
    BigPowers();
    VarlongFits(t, 4);
    ExtrasAre(t, 4, 0);
  }

  /** Encoding and parsing agree exactly on the values that need at most four extra bytes. */
  lemma RoundTripIff(x: nat, m: nat, tail: bytes)
    requires 1 <= m && x < Capacity(m, 7)
    ensures Parse(Encode(x, m) + tail, m) == Some(Parsed(x, tail)) <==> x < Capacity(m, 4)
  {
    var e := Extras(x, m);
    if e <= 4 {
      ParseCode(x, m, e, tail);
      CapacityGrows(m, e, 4);
    } else {
      ParseLongCode(x, m, e, tail);
    }
  }

  lemma Limits()
    ensures Capacity(1, 4) == 8 * TWO_32
    ensures Capacity(3, 4) == 0x8_0000_0000_0000
    ensures Capacity(4, 4) == 0x800_0000_0000_0000
    ensures forall m | 1 <= m <= 8 :: TWO_32 <= Capacity(m, 7)
  {
    Powers();
    assert P(6) == 0x1_0000_0000_0000 && P(7) == 0x100_0000_0000_0000;
    forall m | 1 <= m <= 8 ensures TWO_32 <= Capacity(m, 7) {
      PGrows(4, m + 6);
    }
  }

  lemma {:induction false} PGrows(a: nat, b: nat)
    requires a <= b
    ensures P(a) <= P(b)
    decreases b
  {
    if a < b {
      PGrows(a, b - 1);
    }
  }

  /** Every int32 written by WriteVarint is read back by ReadVarint, consuming exactly its own bytes. */
  lemma VarintRoundTrip(v: int, tail: bytes)
    requires Int32(v)
    ensures U32(v) < Capacity(1, 7)
    ensures var r := Parse(Encode(U32(v), 1) + tail, 1);
      r.Some? && Wrap32(r.value.value) == v && r.value.rest == tail
  {
    Limits();
    RoundTripIff(U32(v), 1, tail);
    WrapIdentity(v);
  }

  lemma VarlongFits(v: int, m: nat)
    requires Int64(v) && 2 <= m <= 8
    ensures U64(v) < Capacity(m, 7)
  {
    Powers();
    PGrows(8, m + 6);
  }

  /**
   An int64 survives WriteVarlong and ReadVarlong exactly when it is non-negative and below 2^51
   (minimum 3, used for sizes) or 2^59 (minimum 4, used for times). Negative times do not.
   */
  lemma VarlongRoundTripIff(v: int, m: nat, tail: bytes)
    requires Int64(v) && 3 <= m <= 4
    ensures U64(v) < Capacity(m, 7)
    ensures var r := Parse(Encode(U64(v), m) + tail, m);
      (r.Some? && Wrap64(r.value.value) == v && r.value.rest == tail)
      <==> 0 <= v < (if m == 3 then 0x8_0000_0000_0000 else 0x800_0000_0000_0000)
  {
    VarlongFits(v, m);
    Limits();
    WrapIdentity(v);
    var e := Extras(U64(v), m);
    RoundTripIff(U64(v), m, tail);
    if e > 4 {
      ParseLongCode(U64(v), m, e, tail);
    }
  }
}
