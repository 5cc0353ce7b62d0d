/** The byte streams the protocol reads from and writes to, and fixed-width little-endian integers. */
module Streams {
  import opened Sequences

  /** An io.Reader with io.ReadFull: exactly `n` bytes, or an error with the rest consumed. */
  class ByteSource {
    var rest: bytes

    constructor (data: bytes)
      ensures rest == data
    {
      rest := data;
    }

    method ReadFull(n: nat) returns (r: Option<bytes>)
      modifies this
      ensures r.Some? <==> n <= |old(rest)|
      ensures r.Some? ==> r.value == old(rest)[..n] && rest == old(rest)[n..]
      ensures r.None? ==> rest == []
    {
      if n <= |rest| {
        r := Some(rest[..n]);
        rest := rest[n..];
      } else {
        r := None;
        rest := [];
      }
    }

    /** What io.ReadFull leaves in the buffer when the stream may end early. */
    method ReadUpTo(n: nat) returns (r: bytes)
      modifies this
      ensures r == old(rest)[..Min(n, |old(rest)|)] && rest == old(rest)[|r|..]
    {
      var k := Min(n, |rest|);
      r := rest[..k];
      rest := rest[k..];
    }
  }

  class ByteSink {
    var out: bytes

    constructor ()
      ensures out == []
    {
      out := [];
    }

    method Write(b: bytes)
      modifies this
      ensures out == old(out) + b
    {
      out := out + b;
    }
  }

  /** A value parsed off the front of a stream, and what is left. */
  datatype Parsed<+T> = Parsed(value: T, rest: bytes)

  // -------------------------------------------------------- little-endian numbers

  function P(n: nat): (r: nat)
    ensures r > 0
  {
    if n == 0 then 1 else 256 * P(n - 1)
  }

  /** The low `n` bytes of `x`, least significant first. */
  function LE(x: nat, n: nat): (r: bytes)
    ensures |r| == n
  {
    if n == 0 then [] else [x % 256] + LE(x / 256, n - 1)
  }

  function Value(s: bytes): nat {
    if s == [] then 0 else s[0] + 256 * Value(s[1..])
  }

  lemma MulLess(b: nat, q: nat, r: nat)
    requires q < r
    ensures b * q + b <= b * r
  {
    assert b * q + b == b * (q + 1);
  }

  lemma DivUnique(a: nat, b: nat, q: nat, r: nat)
    requires b > 0 && a == b * q + r && r < b
    ensures a / b == q && a % b == r
  {
    var q', r' := a / b, a % b;
    if q' > q {
      MulLess(b, q, q');
      assert false;
    } else if q' < q {
      MulLess(b, q', q);
      assert false;
    }
  }

  lemma ModStep(x: nat, p: nat)
    requires p > 0
    ensures x % (256 * p) == x % 256 + 256 * ((x / 256) % p)
    ensures x / (256 * p) == (x / 256) / p
  {
    var q, r := x / 256, x % 256;
    var q2, r2 := q / p, q % p;
    assert q == p * q2 + r2;
    assert x == 256 * (p * q2 + r2) + r;
    assert 256 * (p * q2) == (256 * p) * q2;
    DivUnique(x, 256 * p, q2, 256 * r2 + r);
  }

  lemma Carry(top: nat, p: nat)
    ensures 256 * (top * p) == top * (256 * p)
  {
  }

  lemma {:induction false} ValueSnoc(s: bytes, b: byte)
    ensures Value(s + [b]) == Value(s) + b * P(|s|)
    decreases |s|
  {
    if s == [] {
      assert Value([b]) == b + 256 * Value([b][1..]);
    } else {
      ValueSnoc(s[1..], b);
      assert (s + [b])[1..] == s[1..] + [b];
      Carry(b, P(|s| - 1));
    }
  }

  lemma {:induction false} ValueOfLE(x: nat, n: nat)
    ensures Value(LE(x, n)) == x % P(n)
  {
    if n > 0 {
      ValueOfLE(x / 256, n - 1);
      ModStep(x, P(n - 1));
      assert LE(x, n)[1..] == LE(x / 256, n - 1);
    }
  }

  lemma {:induction false} LEOfValue(s: bytes)
    ensures LE(Value(s), |s|) == s && Value(s) < P(|s|)
  {
    if s != [] {
      LEOfValue(s[1..]);
      assert Value(s) / 256 == Value(s[1..]) && Value(s) % 256 == s[0];
      assert s == [s[0]] + s[1..];
    }
  }

  lemma {:induction false} LEAt(x: nat, n: nat, i: nat)
    requires i < n
    ensures LE(x, n)[i] == (x / P(i)) % 256
  {
    if i > 0 {
      LEAt(x / 256, n - 1, i - 1);
      ModStep(x, P(i - 1));
    }
  }

  /** `n` copies of one little-endian integer parse back. */
  lemma FixedRoundTrip(x: nat, n: nat, tail: bytes)
    requires x < P(n)
    ensures Value((LE(x, n) + tail)[..n]) == x && (LE(x, n) + tail)[n..] == tail
  {
    assert (LE(x, n) + tail)[..n] == LE(x, n);
    ValueOfLE(x, n);
    SmallMod(x, P(n));
  }

  lemma SmallMod(x: nat, p: nat)
    requires x < p
    ensures x % p == x && x / p == 0
  {
  }

  // ----------------------------------------------------------- machine integers

  const TWO_31: int := 0x8000_0000
  const TWO_32: int := 0x1_0000_0000
  const TWO_63: int := 0x8000_0000_0000_0000
  const TWO_64: int := 0x1_0000_0000_0000_0000

  predicate Int32(v: int) { -TWO_31 <= v < TWO_31 }

  predicate Int64(v: int) { -TWO_63 <= v < TWO_63 }

  /** uint32(v), and int32 of any integer: the low 32 bits, as two's complement. */
  function U32(v: int): (r: nat)
    ensures r < TWO_32
  {
    v % TWO_32
  }

  function Wrap32(v: int): (r: int)
    ensures Int32(r)
  {
    if v % TWO_32 < TWO_31 then v % TWO_32 else v % TWO_32 - TWO_32
  }

  function U64(v: int): (r: nat)
    ensures r < TWO_64
  {
    v % TWO_64
  }

  function Wrap64(v: int): (r: int)
    ensures Int64(r)
  {
    if v % TWO_64 < TWO_63 then v % TWO_64 else v % TWO_64 - TWO_64
  }

  lemma WrapIdentity(v: int)
    ensures Int32(v) ==> Wrap32(U32(v)) == v && Wrap32(v) == v
    ensures Int64(v) ==> Wrap64(U64(v)) == v && Wrap64(v) == v
  {
  }

  lemma Powers()
    ensures P(0) == 1 && P(1) == 256 && P(2) == 65536 && P(3) == 0x100_0000 && P(4) == TWO_32 && P(8) == TWO_64
  {
    assert P(4) == TWO_32;
    assert P(5) == 256 * P(4);
    assert P(6) == 256 * P(5);
    assert P(7) == 256 * P(6);
    assert P(8) == 256 * P(7);
  }
}
