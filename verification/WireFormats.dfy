/**
 The formats byte by byte, for every value: what other implementations of the protocol and of the
 container rely on, spelled out without the constants and helpers the codecs are built from.
 */
module WireFormats {
  import opened Sequences
  import opened Streams
  import Varint
  import NdxCodec
  import Mux
  import MetaContainer
  import Sums

  // ---------------------------------------------------------------------- varints

  lemma LEOne(x: nat)
    ensures LE(x, 1) == [x % 256]
  {
    assert LE(x / 256, 0) == [];
  }

  lemma LETwo(x: nat)
    ensures LE(x, 2) == [x % 256, (x / 256) % 256]
  {
    LEOne(x / 256);
  }

  lemma LEThree(x: nat)
    ensures LE(x, 3) == [x % 256, (x / 256) % 256, (x / 0x1_0000) % 256]
  {
    LETwo(x / 256);
    assert (x / 256) / 256 == x / 0x1_0000;
  }

  lemma LEFour(x: nat)
    ensures LE(x, 4) == [x % 256, (x / 256) % 256, (x / 0x1_0000) % 256, (x / 0x100_0000) % 256]
  {
    LEThree(x / 256);
    assert (x / 256) / 0x1_0000 == x / 0x100_0000;
  }

  lemma Capacities()
    ensures Varint.Capacity(1, 0) == 0x80 && Varint.Capacity(1, 1) == 0x4000 && Varint.Capacity(1, 2) == 0x20_0000
    ensures Varint.Capacity(1, 3) == 0x1000_0000 && Varint.Capacity(1, 4) == 0x8_0000_0000
  {
    Powers();
  }

  lemma OneByteMore(x: nat, e: nat)
    requires e <= 4 && x < Varint.Capacity(1, e) && (e > 0 ==> Varint.Capacity(1, e - 1) <= x)
    ensures x < Varint.Capacity(1, 7) && Varint.Encode(x, 1) == Varint.Code(x, 1, e)
  {
    Varint.CapacityGrows(1, e, 7);
    Varint.ExtrasAre(x, 1, e);
  }

  /** Leading ones count the bytes to follow, the low bits carry the top of the value. */
  lemma VarintBytesAre(x: nat)
    requires x < 0x1_0000_0000
    ensures x < Varint.Capacity(1, 7)
    ensures x < 0x80 ==> Varint.Encode(x, 1) == [x]
    ensures 0x80 <= x < 0x4000 ==> Varint.Encode(x, 1) == [0x80 + x / 256, x % 256]
    ensures 0x4000 <= x < 0x20_0000 ==>
      Varint.Encode(x, 1) == [0xC0 + x / 0x1_0000, x % 256, (x / 256) % 256]
    ensures 0x20_0000 <= x < 0x1000_0000 ==>
      Varint.Encode(x, 1) == [0xE0 + x / 0x100_0000, x % 256, (x / 256) % 256, (x / 0x1_0000) % 256]
    ensures 0x1000_0000 <= x ==>
      Varint.Encode(x, 1) == [0xF0, x % 256, (x / 256) % 256, (x / 0x1_0000) % 256, (x / 0x100_0000) % 256]
  {
    Capacities();
    Powers();
    var e := if x < 0x80 then 0 else if x < 0x4000 then 1 else if x < 0x20_0000 then 2
             else if x < 0x1000_0000 then 3 else 4;
    OneByteMore(x, e);
    LEOne(x);
    LETwo(x);
    LEThree(x);
    LEFour(x);
    hide Varint.Encode, Varint.Capacity, LE, P;
  }

  lemma LongCapacities()
    ensures Varint.Capacity(3, 0) == 0x80_0000 && Varint.Capacity(3, 1) == 0x4000_0000
    ensures Varint.Capacity(4, 0) == 0x8000_0000 && Varint.Capacity(4, 1) == 0x40_0000_0000
  {
    Powers();
  }

  lemma LongExtras(x: nat, m: nat, e: nat)
    requires 3 <= m <= 4 && e <= 1 && x < Varint.Capacity(m, e) && (e > 0 ==> Varint.Capacity(m, e - 1) <= x)
    ensures x < Varint.Capacity(m, 7) && Varint.Encode(x, m) == Varint.Code(x, m, e)
  {
    Varint.CapacityGrows(m, e, 7);
    Varint.ExtrasAre(x, m, e);
  }

  /** Sizes, of at least three bytes. */
  lemma SizeBytesAre(x: nat)
    requires x < 0x4000_0000
    ensures x < Varint.Capacity(3, 7)
    ensures x < 0x80_0000 ==> Varint.Encode(x, 3) == [x / 0x1_0000, x % 256, (x / 256) % 256]
    ensures 0x80_0000 <= x ==>
      Varint.Encode(x, 3) == [0x80 + x / 0x100_0000, x % 256, (x / 256) % 256, (x / 0x1_0000) % 256]
  {
    LongCapacities();
    Powers();
    LongExtras(x, 3, if x < 0x80_0000 then 0 else 1);
    LETwo(x);
    LEThree(x);
    hide Varint.Encode, Varint.Capacity, LE, P;
  }

  /** Times, of at least four bytes. */
  lemma TimeBytesAre(x: nat)
    requires x < 0x40_0000_0000
    ensures x < Varint.Capacity(4, 7)
    ensures x < 0x8000_0000 ==>
      Varint.Encode(x, 4) == [x / 0x100_0000, x % 256, (x / 256) % 256, (x / 0x1_0000) % 256]
    ensures 0x8000_0000 <= x ==>
      Varint.Encode(x, 4) ==
        [0x80 + x / 0x1_0000_0000, x % 256, (x / 256) % 256, (x / 0x1_0000) % 256, (x / 0x100_0000) % 256]
  {
    LongCapacities();
    Powers();
    LongExtras(x, 4, if x < 0x8000_0000 then 0 else 1);
    LEThree(x);
    LEFour(x);
    hide Varint.Encode, Varint.Capacity, LE, P;
  }

  // ----------------------------------------------------------------- file indices

  /** An index as the step from its predecessor, in one byte or two, or in full when the step is too long or back. */
  function IndexBytes(prev: int, ndx: nat): bytes
    requires ndx < 0x8000_0000
  {
    var d := ndx - prev;
    if 1 <= d <= 253 then [d]
    else if 0 <= d <= 0x7FFF then [0xFE, d / 256, d % 256]
    else [0xFE, 0x80 + ndx / 0x100_0000, ndx % 256, (ndx / 256) % 256, (ndx / 0x1_0000) % 256]
  }

  /** Indices from 0 on, those below -1 behind a mark and with a predecessor of their own, and the end of a phase. */
  lemma IndexBytesAre(c: NdxCodec.State, ndx: int)
    requires -1 <= c.positive < 0x8000_0000 && 0 <= c.negative < 0x8000_0000
    requires -0x8000_0000 < ndx < 0x8000_0000
    ensures ndx == -1 ==> NdxCodec.Encode(c, ndx) == [0x00]
    ensures ndx >= 0 ==> NdxCodec.Encode(c, ndx) == IndexBytes(c.positive, ndx)
    ensures ndx < -1 ==> NdxCodec.Encode(c, ndx) == [0xFF] + IndexBytes(c.negative, -ndx)
    ensures NdxCodec.Initial == NdxCodec.State(-1, 1)
  {
    if ndx >= 0 {
      StepBytes(c.positive, ndx);
    } else if ndx < -1 {
      WrapIdentity(-ndx);
      StepBytes(c.negative, -ndx);
    }
  }

  lemma StepBytes(prev: int, ndx: nat)
    requires -1 <= prev < 0x8000_0000 && ndx < 0x8000_0000
    ensures NdxCodec.Body(Wrap32(ndx - prev), ndx) == IndexBytes(prev, ndx)
  {
    if ndx - prev == 0x8000_0000 {
      assert Wrap32(ndx - prev) == -0x8000_0000;
    } else {
      WrapIdentity(ndx - prev);
    }
    WrapIdentity(ndx);
    assert U32(ndx) == ndx && (ndx / 0x100_0000) % 128 == ndx / 0x100_0000;
    hide Wrap32, U32;
  }

  // ----------------------------------------------------------------------- frames

  /** The length in three bytes, then 7 plus the tag; data has tag 0. */
  lemma FrameBytesAre(f: Mux.Frame)
    requires |f.payload| <= 0xFF_FFFF && f.tag < 249
    ensures var n := |f.payload|;
      Mux.FrameBytes(f) == [n % 256, (n / 256) % 256, n / 0x1_0000, 7 + f.tag] + f.payload
    ensures Mux.MSG_DATA == 0 && Mux.MSG_NO_SEND == 102
  {
    LEThree(|f.payload|);
    hide LE;
  }

  /** A peer that cannot read a file says so with tag 102 and the file's index; the data ends there. */
  lemma NotSentIs(ndx: int, tail: bytes)
    requires Int32(ndx)
    ensures Mux.Demux(Mux.FrameBytes(Mux.Frame(102, LE(U32(ndx), 4))) + tail) ==
      Mux.Demuxed([], Mux.NoSend(ndx, tail))
  {
    var f := Mux.Frame(102, LE(U32(ndx), 4));
    Mux.FrameParses(f, tail);
    Powers();
    ValueOfLE(U32(ndx), 4);
    SmallMod(U32(ndx), P(4));
    WrapIdentity(ndx);
    hide Mux.FrameBytes, LE, Value, Wrap32, U32, Mux.NextOf;
  }

  // -------------------------------------------------------------------- block sums

  /** The seed goes behind the block, as four bytes of its two's complement, and not at all when zero. */
  lemma StrongInputIs(block: bytes, seed: int)
    requires Int32(seed)
    ensures Sums.StrongInput(block, 0) == block
    ensures seed > 0 ==>
      Sums.StrongInput(block, seed) ==
        block + [seed % 256, (seed / 256) % 256, (seed / 0x1_0000) % 256, (seed / 0x100_0000) % 256]
    ensures Sums.StrongInput(block, -1) == block + [255, 255, 255, 255]
  {
    if seed > 0 {
      WrapIdentity(seed);
      assert U32(seed) == seed;
    }
    LEFour(U32(seed));
    assert U32(-1) == 0xFFFF_FFFF;
    LEFour(0xFFFF_FFFF);
    hide LE, U32;
  }

  /** Blocks of 700 bytes up to 700 blocks, of 2^17 bytes from 2^34 bytes on, and else about the root of the size. */
  lemma BlockLengthIs(len: nat)
    ensures var b := Sums.BlockLengthFor(len);
      && (len <= 490_000 ==> b == 700)
      && (len >= 0x4_0000_0000 ==> b == 0x2_0000)
      && (490_000 < len < 0x4_0000_0000 ==>
            (b == 700 || (b > 700 && b % 8 == 0 && b * b <= len)) && len < (b + 8) * (b + 8))
  {
    var b := Sums.BlockLengthFor(len);
    if 490_000 < len < 0x4_0000_0000 {
      var r := Sums.Root(len);
      assert Sums.IsRoot(r, len);
      if b > 700 {
        Sums.SquareMonotone(b, r);
      }
      Sums.SquareMonotone(r + 1, b + 8);
    }
  }

  // --------------------------------------------------------------------- container

  lemma BEOne(x: nat)
    ensures MetaContainer.BE(x, 1) == [x % 256]
  {
    assert MetaContainer.BE(x / 256, 0) == [];
  }

  lemma BETwo(x: nat)
    ensures MetaContainer.BE(x, 2) == [(x / 256) % 256, x % 256]
  {
    BEOne(x / 256);
  }

  lemma BEThree(x: nat)
    ensures MetaContainer.BE(x, 3) == [(x / 0x1_0000) % 256, (x / 256) % 256, x % 256]
  {
    BETwo(x / 256);
    assert (x / 256) / 256 == x / 0x1_0000;
  }

  lemma BEFour(x: nat)
    ensures MetaContainer.BE(x, 4) == [(x / 0x100_0000) % 256, (x / 0x1_0000) % 256, (x / 256) % 256, x % 256]
  {
    BEThree(x / 256);
    assert (x / 256) / 0x1_0000 == x / 0x100_0000;
  }

  /** "CRYM", version 1, the repository id, and the frame size 2^20, big-endian. */
  lemma HeaderIs(repo: bytes)
    ensures MetaContainer.Header(repo) == [67, 82, 89, 77, 1] + repo + [0, 16, 0, 0]
  {
    BEFour(0x10_0000);
    assert MetaContainer.BE(MetaContainer.FRAME_SIZE, 4) == [0, 16, 0, 0];
    hide MetaContainer.BE;
  }

  lemma {:induction false} SmallBE(x: byte, n: nat)
    requires n > 0
    ensures MetaContainer.BE(x, n) == seq(n - 1, _ => 0) + [x]
  {
    hide MetaContainer.BE;
    ZeroBE(n - 1);
    BESnoc(x, n);
  }

  lemma BESnoc(x: byte, n: nat)
    requires n > 0
    ensures MetaContainer.BE(x, n) == MetaContainer.BE(0, n - 1) + [x]
  {
    var y: nat := x;
    assert y / 256 == 0 && y % 256 == y;
  }

  lemma {:induction false} ZeroBE(n: nat)
    ensures MetaContainer.BE(0, n) == seq(n, _ => 0)
  {
    if n > 0 {
      ZeroBE(n - 1);
      assert MetaContainer.BE(0, n) == MetaContainer.BE(0, n - 1) + [0];
    }
  }

  /** What a frame is bound to: label, repository, name, its number in eight bytes, and whether it is the last. */
  lemma AadIs(repo: bytes, name: bytes, index: byte, last: bool)
    ensures MetaContainer.Aad(repo, name, index, last) ==
      [99, 114, 121, 115, 121, 110, 99, 47, 109, 101, 116, 97, 47, 118, 49, 0] + repo + [0] + name
      + [0, 0, 0, 0, 0, 0, 0, index] + [if last then 1 else 0]
  {
    var i: nat := index;
    SmallMod(i, TWO_64);
    SmallBE(index, 8);
    assert seq(7, _ => 0) + [index] == [0, 0, 0, 0, 0, 0, 0, index];
    hide MetaContainer.BE;
  }
}
