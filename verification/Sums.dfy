/** Block sizes and block sums of an old file (internal/front/rsync/protocol/sum.go, sumTableWriter in receiver.go). */
module Sums {
  import opened Sequences
  import opened Streams
  import opened Tokens

  const BLOCK_SIZE: nat := 700
  const MAX_BLOCK_SIZE: nat := 131072
  const MAX_BLOCKS: nat := 0x100_0000

  // ----------------------------------------------------------------- square root

  /** The integer square root, by definition. */
  ghost predicate IsRoot(r: nat, n: nat) {
    r * r <= n < (r + 1) * (r + 1)
  }

  ghost function Root(n: nat): (r: nat)
    ensures IsRoot(r, n)
  {
    if n == 0 then 0
    else
      var r := Root(n - 1);
      if (r + 1) * (r + 1) <= n then (NextSquare(r); r + 1) else r
  }

  lemma NextSquare(r: nat)
    ensures (r + 2) * (r + 2) == (r + 1) * (r + 1) + 2 * r + 3
  {
  }

  lemma SquareMonotone(a: nat, b: nat)
    requires a <= b
    ensures a * a <= b * b
  {
    assert b * b == a * a + (b - a) * (b + a);
    assert (b - a) * (b + a) >= 0;
  }

  lemma RootBetween(n: nat, b: nat, w: nat)
    requires b * b <= n < (b + w) * (b + w)
    ensures b <= Root(n) < b + w
  {
    var r := Root(n);
    if r < b {
      SquareMonotone(r + 1, b);
      assert false;
    }
    if r >= b + w {
      SquareMonotone(b + w, r);
      assert false;
    }
  }

  /** The block length for a file of `len` bytes. */
  ghost function BlockLengthFor(len: nat): nat {
    if len <= BLOCK_SIZE * BLOCK_SIZE then BLOCK_SIZE
    else if len >= 0x4_0000_0000 then MAX_BLOCK_SIZE
    else
      var r := Root(len) - Root(len) % 8;
      if r < BLOCK_SIZE then BLOCK_SIZE else r
  }

  lemma Squares(c: nat)
    ensures (2 * c) * (2 * c) == 4 * (c * c)
  {
  }

  /** The top bit of the root: doubling c once for every two bits of `len`. */
  method TopBit(len: nat) returns (c: nat, ghost k: nat)
    requires len >= 1
    ensures c == Pow2(k) && c * c <= len < 4 * (c * c)
  {
    c, k := 1, 0;
    var l := len;
    while true
      invariant c == Pow2(k) && c >= 1
      invariant l >= 1 && l * (c * c) <= len < (l + 1) * (c * c)
      decreases l
    {
      ghost var l0, cc := l, c * c;
      l := l / 4;
      if l == 0 {
        QuarterEnds(l0, cc, len);
        break;
      }
      QuarterStep(l0, l, cc, len);
      Squares(c);
      c := 2 * c;
      k := k + 1;
    }
  }

  ghost function Pow2(k: nat): (r: nat)
    ensures r >= 1
  {
    if k == 0 then 1 else 2 * Pow2(k - 1)
  }

  lemma QuarterEnds(l0: nat, cc: nat, len: nat)
    requires 1 <= l0 < 4 && l0 * cc <= len < (l0 + 1) * cc
    ensures cc <= len < 4 * cc
  {
    assert (l0 + 1) * cc <= 4 * cc;
    assert cc <= l0 * cc;
  }

  lemma QuarterStep(l0: nat, l: nat, cc: nat, len: nat)
    requires l == l0 / 4 && l0 * cc <= len < (l0 + 1) * cc
    ensures l * (4 * cc) <= len < (l + 1) * (4 * cc)
  {
    Regroup(l, cc);
    Regroup(l + 1, cc);
    MulMonotone(4 * l, l0, cc);
    MulMonotone(l0 + 1, 4 * (l + 1), cc);
  }

  lemma Regroup(a: nat, cc: nat)
    ensures a * (4 * cc) == (4 * a) * cc
  {
  }

  ghost predicate Brackets(len: nat, b: nat, w: nat) {
    b * b <= len < (b + w) * (b + w)
  }

  ghost predicate Multiple(b: nat, w: nat) {
    w > 0 && b % w == 0
  }

  lemma BracketStep(len: nat, b: nat, c: nat)
    requires Brackets(len, b, 2 * c)
    ensures if len < (b + c) * (b + c) then Brackets(len, b, c) else Brackets(len, b + c, c)
  {
    assert (b + c) + c == b + 2 * c;
  }

  lemma FirstBracket(len: nat, top: nat)
    requires top > 0 && len < 4 * (top * top)
    ensures Brackets(len, 0, 2 * top) && Multiple(0, 2 * top)
  {
    Squares(top);
    assert 0 + 2 * top == 2 * top;
  }

  lemma HalfMultiple(b: nat, c: nat)
    requires c > 0 && Multiple(b, 2 * c)
    ensures Multiple(b, c) && Multiple(b + c, c)
  {
    var q := b / (2 * c);
    assert b == (2 * c) * q;
    assert (2 * c) * q == c * (2 * q);
    assert c * (2 * q) + c == c * (2 * q + 1);
    DivUnique(b, c, 2 * q, 0);
    DivUnique(b + c, c, 2 * q + 1, 0);
  }

  /** The greedy loop: bit by bit from c down to 8, keeping what does not overshoot. */
  method GreedyRoot(len: nat, top: nat, ghost k: nat) returns (b: nat)
    requires top == Pow2(k) && k >= 3 && top * top <= len < 4 * (top * top)
    ensures b == Root(len) - Root(len) % 8
  {
    b := 0;
    var c := top;
    ghost var j := k;
    FirstBracket(len, top);
    hide Brackets, Multiple, Root;
    while c >= 8
      invariant 2 <= j <= k && c == Pow2(j)
      invariant Multiple(b, 2 * c) && Brackets(len, b, 2 * c)
      decreases c
    {
      EvenPower(j);
      BracketStep(len, b, c);
      HalfMultiple(b, c);
      b := b + c;
      if len < b * b {
        b := b - c;
      }
      c := c / 2;
      j := j - 1;
    }
    FourIsTwo(c, j);
    RoundedRoot(len, b);
  }

  lemma EvenPower(j: nat)
    requires j >= 1
    ensures Pow2(j) == 2 * Pow2(j - 1) && Pow2(j) / 2 == Pow2(j - 1)
    ensures Pow2(j) >= 8 ==> j >= 3
  {
    assert Pow2(0) == 1 && Pow2(1) == 2 && Pow2(2) == 4;
  }

  lemma RoundedRoot(len: nat, b: nat)
    requires Brackets(len, b, 8) && Multiple(b, 8)
    ensures b == Root(len) - Root(len) % 8
  {
    RootBetween(len, b, 8);
    Rounds(Root(len), b);
  }

  lemma Rounds(r: nat, b: nat)
    requires b <= r < b + 8 && b % 8 == 0
    ensures b == r - r % 8
  {
  }

  lemma FourIsTwo(c: nat, j: nat)
    requires c == Pow2(j) && j >= 2 && c < 8
    ensures c == 4
  {
    if j > 2 {
      Pow2Grows(3, j);
    }
    assert Pow2(1) == 2 && Pow2(2) == 4 && Pow2(3) == 8;
  }

  lemma {:induction false} Pow2Grows(a: nat, b: nat)
    requires a <= b
    ensures Pow2(a) <= Pow2(b)
    decreases b
  {
    if a < b {
      Pow2Grows(a, b - 1);
    }
  }

  // ------------------------------------------------------------------ block table

  /** The table head: blocks of the chosen length, the last one shorter when it does not divide. */
  ghost predicate Describes(tbl: Table, len: nat) {
    && tbl.blength == BlockLengthFor(len) && tbl.remainder == len % BlockLengthFor(len)
    && tbl.count == len / BlockLengthFor(len) + if tbl.remainder != 0 then 1 else 0
  }

  /** A file is too large when even the largest blocks are more than 2^24. */
  method CalcSizes(len: int) returns (tbl: Option<Table>)
    ensures tbl.Some? <==> 0 <= len <= 0x200_0000_0000
    ensures tbl.Some? ==> Describes(tbl.value, len) && TableOk(tbl.value)
  {
    if len < 0 {
      return None;
    }
    var b := BLOCK_SIZE;
    if len > BLOCK_SIZE * BLOCK_SIZE {
      var c;
      ghost var k;
      c, k := TopBit(len);
      TopIsCap(len, c, k);
      if c >= MAX_BLOCK_SIZE {
        b := MAX_BLOCK_SIZE;
      } else {
        b := GreedyRoot(len, c, k);
        if b < BLOCK_SIZE {
          b := BLOCK_SIZE;
        }
      }
    }
    assert b == BlockLengthFor(len);
    var rem := len % b;
    var cnt := len / b;
    if rem != 0 {
      cnt := cnt + 1;
    }
    BlockCount(len, b);
    if cnt > MAX_BLOCKS {
      return None;
    }
    tbl := Some(Table(cnt, b, rem));
  }

  lemma TopIsCap(len: nat, c: nat, k: nat)
    requires len > BLOCK_SIZE * BLOCK_SIZE && c == Pow2(k) && c * c <= len < 4 * (c * c)
    ensures c >= MAX_BLOCK_SIZE <==> len >= 0x4_0000_0000
    ensures k >= 3
  {
    assert Pow2(3) == 8;
    if k < 3 {
      Pow2Grows(k, 3);
      SquareMonotone(c, 8);
      assert false;
    }
    if c >= MAX_BLOCK_SIZE {
      SquareMonotone(MAX_BLOCK_SIZE, c);
    } else {
      SeventeenBits(c, k);
      SquareMonotone(c, 65536);
    }
  }

  lemma SeventeenBits(c: nat, k: nat)
    requires c == Pow2(k) && c < MAX_BLOCK_SIZE
    ensures c <= 65536
  {
    assert Pow2(8) == 256 * Pow2(0) by {
      assert Pow2(4) == 16 * Pow2(0);
      assert Pow2(8) == 16 * Pow2(4);
    }
    assert Pow2(16) == 256 * Pow2(8) by {
      assert Pow2(12) == 16 * Pow2(8);
      assert Pow2(16) == 16 * Pow2(12);
    }
    assert Pow2(17) == 2 * Pow2(16);
    if k >= 17 {
      Pow2Grows(17, k);
    } else {
      Pow2Grows(k, 16);
    }
  }

  lemma BlockCount(len: nat, b: nat)
    requires b == BlockLengthFor(len)
    ensures b >= BLOCK_SIZE
    ensures len / b + (if len % b != 0 then 1 else 0) <= MAX_BLOCKS <==> len <= 0x200_0000_0000
  {
    if len < 0x4_0000_0000 {
      FewBlocks(len, b);
    }
  }

  lemma FewBlocks(len: nat, b: nat)
    requires b == BlockLengthFor(len) && len < 0x4_0000_0000
    ensures b >= BLOCK_SIZE && len / b < MAX_BLOCKS
  {
    if len < BLOCK_SIZE * MAX_BLOCKS {
      QuotientShrinks(len, BLOCK_SIZE, b);
    } else {
      var r := Root(len);
      if r < 65544 {
        SquareMonotone(r + 1, 65544);
        assert false;
      }
      assert b >= 65536;
      hide Root, BlockLengthFor;
      QuotientShrinks(len, 65536, b);
    }
  }

  lemma QuotientShrinks(n: nat, a: nat, b: nat)
    requires 0 < a <= b
    ensures n / b <= n / a
  {
    var p := n / a;
    assert n < (p + 1) * a;
    MulMonotone(a, b, p + 1);
    DivLess(n, b, p + 1);
  }

  // ----------------------------------------------------------- the blocks tile the file

  /** Where block `i` starts and ends. */
  ghost function Offset(tbl: Table, i: int): int {
    i * tbl.blength
  }

  /** The blocks lie end to end and cover the file exactly: block i is piece i of the file cut at the block length. */
  lemma BlocksTile(tbl: Table, content: bytes)
    requires Describes(tbl, |content|) && TableOk(tbl)
    ensures tbl.count == |Split(content, tbl.blength)|
    ensures forall i: nat | i < tbl.count ::
      && 0 <= Offset(tbl, i) < Offset(tbl, i) + BlockLength(tbl, i) <= |content|
      && content[Offset(tbl, i)..Offset(tbl, i) + BlockLength(tbl, i)] == Split(content, tbl.blength)[i]
    ensures tbl.count > 0 ==> Offset(tbl, tbl.count - 1) + BlockLength(tbl, tbl.count - 1) == |content|
  {
    var n: nat := tbl.blength;
    var pieces := Split(content, n);
    SplitIsRegular(content, n);
    PieceCount(pieces, n, |content|);
    forall i: nat | i < tbl.count
      ensures 0 <= Offset(tbl, i) < Offset(tbl, i) + BlockLength(tbl, i) <= |content|
      ensures content[Offset(tbl, i)..Offset(tbl, i) + BlockLength(tbl, i)] == pieces[i]
      ensures i == tbl.count - 1 ==> Offset(tbl, i) + BlockLength(tbl, i) == |content|
    {
      RegularPieceAt(pieces, n, i);
      BlockEnd(|content|, n, i, tbl, |pieces[i]|);
    }
  }

  lemma PieceCount(pieces: seq<bytes>, n: nat, len: nat)
    requires n > 0 && Regular(pieces, n) && len == |Flatten(pieces)|
    ensures |pieces| == len / n + if len % n != 0 then 1 else 0
  {
    if pieces == [] {
      assert len == 0;
    } else {
      var last := |pieces| - 1;
      RegularPieceAt(pieces, n, last);
      assert pieces[last + 1..] == [];
      FlattenAround(pieces, last);
      FullLength(pieces[..last], n);
      LastPiece(len, n, last, |pieces[last]|);
    }
  }

  lemma LastPiece(len: nat, n: nat, last: nat, size: nat)
    requires n > 0 && 0 < size <= n && len == last * n + size
    ensures last + 1 == len / n + if len % n != 0 then 1 else 0
    ensures size == if len % n != 0 then len % n else n
  {
    if size == n {
      DivUnique(len, n, last + 1, 0);
    } else {
      DivUnique(len, n, last, size);
    }
  }

  lemma BlockEnd(len: nat, n: nat, i: nat, tbl: Table, size: nat)
    requires n > 0 && tbl.blength == n && tbl.remainder == len % n
    requires tbl.count == len / n + (if len % n != 0 then 1 else 0) && i < tbl.count
    requires 0 < size <= n && i * n + size == Min((i + 1) * n, len)
    ensures size == BlockLength(tbl, i)
    ensures i == tbl.count - 1 ==> i * n + size == len
  {
    var q, r := len / n, len % n;
    assert len == n * q + r;
    assert (i + 1) * n == i * n + n;
    if i < q {
      MulMonotone(i + 1, q, n);
      assert q * n == n * q;
      if i == tbl.count - 1 {
        assert r == 0 && i + 1 == q;
      }
    } else {
      assert i == q && r != 0;
      assert i * n == n * q;
    }
  }

  // ----------------------------------------------------------------- rolling sum

  /** int8(b): a byte taken as signed. */
  function Signed(b: byte): int {
    if b < 128 then b else b - 256
  }

  /** Sum of the bytes, and sum of all prefix sums. */
  ghost function S1(d: bytes): int {
    if d == [] then 0 else S1(d[..|d| - 1]) + Signed(d[|d| - 1])
  }

  ghost function S2(d: bytes): int {
    if d == [] then 0 else S2(d[..|d| - 1]) + S1(d)
  }

  /** (s1 & 0xffff) + (s2 << 16) in 32 bits. */
  function Pack(s1: nat, s2: nat): nat {
    s1 % 65536 + (s2 % 65536) * 65536
  }

  ghost function Sum1(d: bytes): nat {
    Pack(U32(S1(d)), U32(S2(d)))
  }

  lemma SumsSnoc(d: bytes, b: byte)
    ensures S1(d + [b]) == S1(d) + Signed(b) && S2(d + [b]) == S2(d) + (S1(d) + Signed(b))
  {
    assert (d + [b])[..|d|] == d;
  }

  /** Sliding a window one byte: both sums follow from the old ones, which is what makes the sum rolling. */
  lemma {:induction false} Rolls(first: byte, middle: bytes, last: byte)
    ensures S1(middle + [last]) == S1([first] + middle) - Signed(first) + Signed(last)
    ensures S2(middle + [last]) == S2([first] + middle) - (|middle| + 1) * Signed(first) + S1(middle + [last])
  {
    SumsSnoc(middle, last);
    SumsCons(first, middle);
  }

  lemma {:induction false} SumsCons(first: byte, d: bytes)
    ensures S1([first] + d) == Signed(first) + S1(d)
    ensures S2([first] + d) == (|d| + 1) * Signed(first) + S2(d)
    decreases |d|
  {
    if d == [] {
      assert [first] + d == [] + [first];
      SumsSnoc([], first);
    } else {
      var n := |d| - 1;
      assert d == d[..n] + [d[n]];
      assert [first] + d == ([first] + d[..n]) + [d[n]];
      SumsCons(first, d[..n]);
      SumsSnoc([first] + d[..n], d[n]);
      SumsSnoc(d[..n], d[n]);
      assert (|d| + 1) * Signed(first) == (n + 1) * Signed(first) + Signed(first);
    }
  }

  lemma OneMoreByte(data: bytes, i: nat)
    requires i < |data|
    ensures S1(data[..i + 1]) == S1(data[..i]) + Signed(data[i])
    ensures S2(data[..i + 1]) == S2(data[..i]) + (S1(data[..i]) + Signed(data[i]))
  {
    SumsSnoc(data[..i], data[i]);
    assert data[..i + 1] == data[..i] + [data[i]];
  }

  lemma FourMore(data: bytes, i: nat)
    requires i + 4 <= |data|
    ensures var a, b, c, d := Signed(data[i]), Signed(data[i + 1]), Signed(data[i + 2]), Signed(data[i + 3]);
      && S1(data[..i + 4]) == S1(data[..i]) + (a + b + c + d)
      && S2(data[..i + 4]) == S2(data[..i]) + (4 * (S1(data[..i]) + a) + 3 * b + 2 * c + d)
  {
    OneMoreByte(data, i);
    OneMoreByte(data, i + 1);
    OneMoreByte(data, i + 2);
    OneMoreByte(data, i + 3);
  }

  lemma Congruent(x: int, m: int)
    ensures U32(x + TWO_32 * m) == U32(x)
  {
  }

  /** Reducing the accumulators early changes nothing modulo 2^32. */
  lemma EarlyReduction(a: int, b: int, k: nat, c: int)
    ensures U32(U32(a) + k * U32(b) + c) == U32(a + k * b + c)
  {
    var qa, qb := a / TWO_32, b / TWO_32;
    assert a == TWO_32 * qa + U32(a) && b == TWO_32 * qb + U32(b);
    assert k * b == k * U32(b) + TWO_32 * (k * qb) by {
      assert k * (TWO_32 * qb) == TWO_32 * (k * qb);
      assert k * b == k * (TWO_32 * qb) + k * U32(b);
    }
    Congruent(U32(a) + k * U32(b) + c, qa + k * qb);
  }

  /** The accumulators after i bytes. */
  ghost predicate SummedTo(data: bytes, i: nat, s1: nat, s2: nat) {
    i <= |data| && s1 == U32(S1(data[..i])) && s2 == U32(S2(data[..i]))
  }

  lemma SummedNone(data: bytes)
    ensures SummedTo(data, 0, 0, 0)
  {
    assert data[..0] == [];
  }

  lemma SummedFour(data: bytes, i: nat, s1: nat, s2: nat)
    requires i + 4 <= |data| && SummedTo(data, i, s1, s2)
    ensures var a, b, c, d := Signed(data[i]), Signed(data[i + 1]), Signed(data[i + 2]), Signed(data[i + 3]);
      SummedTo(data, i + 4, U32(s1 + a + b + c + d), U32(s2 + 4 * (s1 + a) + 3 * b + 2 * c + d))
  {
    FourMore(data, i);
    var a, b, c, d := Signed(data[i]), Signed(data[i + 1]), Signed(data[i + 2]), Signed(data[i + 3]);
    EarlyReduction(S2(data[..i]), S1(data[..i]), 4, 4 * a + 3 * b + 2 * c + d);
    EarlyReduction(S1(data[..i]), 0, 0, a + b + c + d);
    hide U32, S1, S2;
  }

  lemma SummedOne(data: bytes, i: nat, s1: nat, s2: nat)
    requires i < |data| && SummedTo(data, i, s1, s2)
    ensures var t := U32(s1 + Signed(data[i])); SummedTo(data, i + 1, t, U32(s2 + t))
  {
    OneMoreByte(data, i);
    EarlyReduction(S1(data[..i]), 0, 0, Signed(data[i]));
    EarlyReduction(S2(data[..i]), S1(data[..i + 1]), 1, 0);
    hide U32, S1, S2;
  }

  lemma SummedAll(data: bytes, s1: nat, s2: nat)
    requires SummedTo(data, |data|, s1, s2)
    ensures Pack(s1, s2) == Sum1(data)
  {
    assert data[..|data|] == data;
    hide U32, S1, S2;
  }

  /** The four-at-a-time loop in 32-bit arithmetic computes the same sum as adding byte by byte. */
  method RollingSum1(data: bytes) returns (sum: nat)
    ensures sum == Sum1(data)
  {
    var s1: nat, s2: nat, i := 0, 0, 0;
    SummedNone(data);
    hide *;
    while i < |data| - 4
      invariant 0 <= i <= |data| && SummedTo(data, i, s1, s2)
    {
      SummedFour(data, i, s1, s2);
      var a, b, c, d := Signed(data[i]), Signed(data[i + 1]), Signed(data[i + 2]), Signed(data[i + 3]);
      s2 := U32(s2 + 4 * (s1 + a) + 3 * b + 2 * c + d);
      s1 := U32(s1 + a + b + c + d);
      i := i + 4;
    }
    while i < |data|
      invariant 0 <= i <= |data| && SummedTo(data, i, s1, s2)
    {
      SummedOne(data, i, s1, s2);
      s1 := U32(s1 + Signed(data[i]));
      s2 := U32(s2 + s1);
      i := i + 1;
    }
    SummedAll(data, s1, s2);
    sum := Pack(s1, s2);
  }

  // ----------------------------------------------------------------- sum tables

  datatype BlockSum = BlockSum(sum1: nat, sum2: bytes)

  /** The strong digest of a block, the seed mixed in behind the data unless it is zero. */
  function StrongInput(block: bytes, seed: int): bytes {
    if seed != 0 then block + LE(U32(seed), 4) else block
  }

  ghost function SumOf(block: bytes, seed: int, md5: bytes -> bytes): BlockSum {
    BlockSum(Sum1(block), md5(StrongInput(block, seed)))
  }

  ghost function SumsOf(blocks: seq<bytes>, seed: int, md5: bytes -> bytes): seq<BlockSum> {
    seq(|blocks|, i requires 0 <= i < |blocks| => SumOf(blocks[i], seed, md5))
  }

  /** What both routes compute: the sums of the file's blocks. */
  ghost predicate IsTable(tbl: Table, sums: seq<BlockSum>, content: bytes, seed: int, md5: bytes -> bytes) {
    && Describes(tbl, |content|) && TableOk(tbl)
    && sums == SumsOf(Split(content, tbl.blength), seed, md5) && |sums| == tbl.count
  }

  lemma SumsSnocBlock(blocks: seq<bytes>, b: bytes, seed: int, md5: bytes -> bytes)
    ensures SumsOf(blocks + [b], seed, md5) == SumsOf(blocks, seed, md5) + [SumOf(b, seed, md5)]
  {
  }

  /** The reading loop: whole blocks, then a short one at the end of the stream. */
  method SumStream(src: ByteSource, blength: nat, seed: int, md5: bytes -> bytes)
      returns (sums: seq<BlockSum>, total: nat)
    requires blength > 0
    modifies src
    ensures sums == SumsOf(Split(old(src.rest), blength), seed, md5) && total == |old(src.rest)|
  {
    sums, total := [], 0;
    ghost var all, done := src.rest, [];
    assert Flatten<byte>(done) + src.rest == all;
    var more := true;
    hide Split, Flatten, SumOf;
    while more
      invariant Flatten(done) + src.rest == all && total == |Flatten(done)|
      invariant sums == SumsOf(done, seed, md5)
      invariant more ==> Full(done, blength)
      invariant !more ==> done == Split(all, blength) && src.rest == []
      decreases more, |src.rest|
    {
      ghost var rest := src.rest;
      var buf := src.ReadUpTo(blength);
      if |buf| < blength {
        SplitAfterFull(done, buf, blength);
        assert buf == rest && done + [] == done;
      }
      if |buf| > 0 {
        var s1 := RollingSum1(buf);
        sums := sums + [BlockSum(s1, md5(StrongInput(buf, seed)))];
        total := total + |buf|;
        SumsSnocBlock(done, buf, seed, md5);
        FlattenSnoc(done, buf);
        TakeDrop(Flatten(done), rest, |buf|);
        NewSum(buf, seed, md5);
        done := done + [buf];
      }
      more := |buf| == blength;
    }
  }

  lemma NewSum(buf: bytes, seed: int, md5: bytes -> bytes)
    ensures SumOf(buf, seed, md5) == BlockSum(Sum1(buf), md5(StrongInput(buf, seed)))
  {
  }

  /** CalcBlockSums: the table of a stream that must hold exactly `len` bytes. */
  method CalcBlockSums(len: int, src: ByteSource, seed: int, md5: bytes -> bytes)
      returns (r: Option<(Table, seq<BlockSum>)>)
    modifies src
    ensures len < 0 || len > 0x200_0000_0000 ==> r.None?
    ensures 0 < len <= 0x200_0000_0000 ==> (r.Some? <==> |old(src.rest)| == len)
    ensures len == 0 ==> r.Some?
    ensures r.Some? && len == |old(src.rest)| ==> IsTable(r.value.0, r.value.1, old(src.rest), seed, md5)
  {
    var sizes := CalcSizes(len);
    if sizes.None? {
      return None;
    }
    var tbl := sizes.value;
    if len == 0 {
      return Some((tbl, []));
    }
    ghost var all := src.rest;
    var sums, total := SumStream(src, tbl.blength, seed, md5);
    if total != len {
      return None;
    }
    hide Describes, Split;
    BlocksTile(tbl, all);
    if |sums| != tbl.count {
      return None;
    }
    r := Some((tbl, sums));
  }

  /** sumTableWriter: the same table from a file streamed in arbitrary pieces. */
  class SumTableWriter {
    const tbl: Table
    const seed: int
    const fileLen: int
    const md5: bytes -> bytes
    var sums: seq<BlockSum>
    var buf: bytes
    var total: nat
    ghost var done: seq<bytes>
    ghost var written: bytes

    ghost predicate Valid()
      reads this
    {
      && TableOk(tbl) && Full(done, tbl.blength) && |buf| < tbl.blength
      && sums == SumsOf(done, seed, md5) && written == Flatten(done) + buf && total == |written|
    }

    constructor (tbl: Table, seed: int, fileLen: int, md5: bytes -> bytes)
      requires TableOk(tbl)
      ensures Valid() && written == []
      ensures this.tbl == tbl && this.seed == seed && this.fileLen == fileLen && this.md5 == md5
    {
      this.tbl, this.seed, this.fileLen, this.md5 := tbl, seed, fileLen, md5;
      sums, buf, total, done, written := [], [], 0, [], [];
    }

    method Write(p: bytes)
      requires Valid()
      modifies this
      ensures Valid() && written == old(written) + p
    {
      total := total + |p|;
      Assoc(Flatten(done), buf, p);
      buf := buf + p;
      written := written + p;
      var bl: nat := tbl.blength;
      while |buf| >= bl
        invariant Full(done, bl) && sums == SumsOf(done, seed, md5) && written == Flatten(done) + buf
        invariant written == old(written) + p && total == |written|
        decreases |buf|
      {
        var s1 := RollingSum1(buf[..bl]);
        SumsSnocBlock(done, buf[..bl], seed, md5);
        FlattenSnoc(done, buf[..bl]);
        TakeDrop(Flatten(done), buf, bl);
        sums := sums + [BlockSum(s1, md5(StrongInput(buf[..bl], seed)))];
        done := done + [buf[..bl]];
        buf := buf[bl..];
      }
    }

    /** Succeeds exactly when the streamed length is the expected one. */
    method Finish() returns (r: Option<(Table, seq<BlockSum>)>)
      requires Valid() && (fileLen >= 0 ==> Describes(tbl, fileLen))
      ensures r.Some? <==> |written| == fileLen
      ensures r.Some? ==> IsTable(r.value.0, r.value.1, written, seed, md5)
    {
      if total != fileLen {
        return None;
      }
      SplitAfterFull(done, buf, tbl.blength);
      BlocksTile(tbl, written);
      var all := sums;
      if |buf| > 0 {
        var s1 := RollingSum1(buf);
        SumsSnocBlock(done, buf, seed, md5);
        all := sums + [BlockSum(s1, md5(StrongInput(buf, seed)))];
      }
      if |all| != tbl.count {
        return None;
      }
      r := Some((tbl, all));
    }
  }
}
