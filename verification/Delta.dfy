/**
 What a delta means, from the side of the peer that sends it: literal data, and copies of blocks of
 the old file named by number, lead the receiver to the file they spell (match tokens in
 internal/front/rsync/protocol/receiver.go).
 */
module Delta {
  import opened Sequences
  import opened Manifest
  import opened Streams
  import opened Mux
  import opened Tokens
  import opened Receiver
  import opened Sums

  datatype Piece = Lit(data: bytes) | Copy(block: nat)

  // ------------------------------------------------------------------- the sender

  /** Literals go out behind their length, block b as the 32-bit number -1 - b. */
  function PieceBytes(p: Piece): bytes
    requires p.Copy? ==> p.block < 0x1_0000_0000
  {
    match p
    case Lit(data) => LE(|data|, 4) + data
    case Copy(b) => LE(0x1_0000_0000 - 1 - b, 4)
  }

  /** Pieces whose lengths and numbers fit the tokens' sign and width; an empty literal would be the end mark. */
  ghost predicate Encodable(pieces: seq<Piece>) {
    forall i | 0 <= i < |pieces| ::
      match pieces[i]
      case Lit(data) => 0 < |data| < 0x8000_0000
      case Copy(b) => b < 0x7FFF_FFFF
  }

  function DeltaBytes(pieces: seq<Piece>): bytes
    requires Encodable(pieces)
  {
    if pieces == [] then [] else PieceBytes(pieces[0]) + DeltaBytes(pieces[1..])
  }

  /** The bytes a piece stands for; block b is the b-th stretch of `n` bytes, the last one cut at the end. */
  ghost function Spells(p: Piece, basis: bytes, n: nat): bytes {
    match p
    case Lit(data) => data
    case Copy(b) => if b * n < |basis| then basis[b * n..Min((b + 1) * n, |basis|)] else []
  }

  ghost function NewFile(pieces: seq<Piece>, basis: bytes, n: nat): bytes {
    if pieces == [] then [] else Spells(pieces[0], basis, n) + NewFile(pieces[1..], basis, n)
  }

  /** No literal is over the limit, and the blocks copied exist and are named in ascending order from `first` on. */
  ghost predicate Playable(pieces: seq<Piece>, size: nat, n: nat, first: nat)
    decreases |pieces|
  {
    pieces == [] ||
    match pieces[0]
    case Lit(data) => |data| <= 0x200_0000 && Playable(pieces[1..], size, n, first)
    case Copy(b) => first <= b && b * n < size && Playable(pieces[1..], size, n, b + 1)
  }

  /** A table head for a file of this size with blocks of some length; the count travels as an int32. */
  ghost predicate TableFor(tbl: Table, size: nat) {
    && tbl.blength > 0 && tbl.remainder == size % tbl.blength
    && tbl.count == size / tbl.blength + (if size % tbl.blength != 0 then 1 else 0) <= 0x7FFF_FFFF
  }

  // --------------------------------------------------------------------- one copy

  lemma CopyToken(b: nat, rest: bytes)
    requires b < 0x7FFF_FFFF
    ensures var s := LE(0x1_0000_0000 - 1 - b, 4) + rest;
      |s| >= 4 && TokenOf(s) < 0 && BlockOf(TokenOf(s)) == b && s[4..] == rest
  {
    var x := 0x1_0000_0000 - 1 - b;
    var s := LE(x, 4) + rest;
    Powers();
    ValueOfLE(x, 4);
    SmallMod(x, P(4));
    assert s[..4] == LE(x, 4) && s[4..] == rest;
    assert TokenOf(s) == -1 - b;
  }

  /** Block b exists exactly when it starts inside the file, and ends where the next begins or the file does. */
  lemma BlockBounds(tbl: Table, size: nat, b: nat)
    requires TableFor(tbl, size)
    ensures b < tbl.count <==> b * tbl.blength < size
    ensures b < tbl.count ==>
      b * tbl.blength + BlockLength(tbl, b) == Min((b + 1) * tbl.blength, size) && BlockLength(tbl, b) > 0
  {
    var n, q, r := tbl.blength, size / tbl.blength, size % tbl.blength;
    assert size == n * q + r;
    assert (b + 1) * n == b * n + n && n * q == q * n;
    if b < q {
      MulMonotone(b + 1, q, n);
      if b == tbl.count - 1 {
        assert r == 0 && b + 1 == q;
      }
    } else if b > q {
      MulMonotone(q + 1, b, n);
      assert (q + 1) * n == q * n + n;
    }
  }

  /** Where the reader of the old file stands once it has copied block `first` - 1. */
  ghost predicate Reached(consumed: nat, first: nat, n: nat) {
    if first == 0 then consumed == 0 else (first - 1) * n < consumed <= first * n
  }

  lemma Ascends(consumed: nat, first: nat, n: nat, b: nat)
    requires n > 0 && Reached(consumed, first, n)
    ensures consumed <= b * n <==> first <= b
  {
    if first <= b {
      MulMonotone(first, b, n);
    } else {
      MulMonotone(b, first - 1, n);
    }
  }

  /** A copy is carried out when its block exists and is not behind the reader, and else the stream is refused. */
  lemma CopyMeans(b: nat, rest: bytes, tbl: Table, basis: bytes, consumed: nat, first: nat)
    requires b < 0x7FFF_FFFF && TableOk(tbl) && TableFor(tbl, |basis|) && Reached(consumed, first, tbl.blength)
    ensures var n := tbl.blength;
      var hi := Min((b + 1) * n, |basis|);
      if first <= b && b * n < |basis| then
        && 0 <= b * n < hi && Reached(hi, b + 1, n)
        && Meaning(LE(0x1_0000_0000 - 1 - b, 4) + rest, tbl, basis, consumed) ==
           Prepend(basis[b * n..hi], Meaning(rest, tbl, basis, hi))
      else
        Meaning(LE(0x1_0000_0000 - 1 - b, 4) + rest, tbl, basis, consumed).Bad?
  {
    CopyToken(b, rest);
    BlockBounds(tbl, |basis|, b);
    Ascends(consumed, first, tbl.blength, b);
    hide TokenOf, BlockOf, BlockLength, LE, TableFor;
  }

  // ---------------------------------------------------------------- whole streams

  lemma LiteralPlays(data: bytes, rest: bytes, tbl: Table, basis: bytes, consumed: nat)
    requires TableOk(tbl) && 0 < |data| < 0x8000_0000
    ensures Meaning(LE(|data|, 4) + data + rest, tbl, basis, consumed) ==
      if |data| <= 0x200_0000 then Prepend(data, Meaning(rest, tbl, basis, consumed)) else Bad
  {
    Assoc(LE(|data|, 4), data, rest);
    if |data| <= 0x200_0000 {
      LiteralMeans(data, rest, tbl, basis, consumed);
    } else {
      var s := LE(|data|, 4) + (data + rest);
      Powers();
      ValueOfLE(|data|, 4);
      SmallMod(|data|, P(4));
      assert s[..4] == LE(|data|, 4);
      assert TokenOf(s) == |data|;
    }
  }

  lemma FirstOf(pieces: seq<Piece>, end: bytes)
    requires Encodable(pieces) && pieces != []
    ensures Encodable(pieces[1..])
    ensures DeltaBytes(pieces) + end == PieceBytes(pieces[0]) + (DeltaBytes(pieces[1..]) + end)
  {
    hide PieceBytes;
    assert forall i | 0 <= i < |pieces[1..]| :: pieces[1..][i] == pieces[i + 1];
    Assoc(PieceBytes(pieces[0]), DeltaBytes(pieces[1..]), end);
  }

  lemma {:induction false} PiecesMean(pieces: seq<Piece>, tail: bytes, tbl: Table, basis: bytes, consumed: nat,
                                      first: nat)
    requires Encodable(pieces) && TableOk(tbl) && TableFor(tbl, |basis|) && Reached(consumed, first, tbl.blength)
    ensures Meaning(DeltaBytes(pieces) + ([0, 0, 0, 0] + tail), tbl, basis, consumed) ==
      if Playable(pieces, |basis|, tbl.blength, first) then Done(NewFile(pieces, basis, tbl.blength), tail) else Bad
    decreases |pieces|
  {
    var end := [0, 0, 0, 0] + tail;
    hide Meaning, TableFor, Reached, LE;
    if pieces == [] {
      EndMeans(tail, tbl, basis, consumed);
      assert DeltaBytes(pieces) + end == end;
    } else {
      FirstOf(pieces, end);
      var more := DeltaBytes(pieces[1..]) + end;
      match pieces[0]
      case Lit(data) =>
        assert pieces[0] == Lit(data);
        LiteralPlays(data, more, tbl, basis, consumed);
        PiecesMean(pieces[1..], tail, tbl, basis, consumed, first);
      case Copy(b) =>
        assert pieces[0] == Copy(b);
        CopyMeans(b, more, tbl, basis, consumed, first);
        if first <= b && b * tbl.blength < |basis| {
          PiecesMean(pieces[1..], tail, tbl, basis, Min((b + 1) * tbl.blength, |basis|), b + 1);
        }
    }
  }

  /**
   Any list of literals and block copies: with ascending existing blocks it means the concatenation of
   the literals and of the blocks' bytes in the old file, and otherwise it is refused.
   */
  lemma DeltaMeans(pieces: seq<Piece>, tail: bytes, tbl: Table, basis: bytes)
    requires Encodable(pieces) && TableOk(tbl) && TableFor(tbl, |basis|)
    ensures Meaning(DeltaBytes(pieces) + ([0, 0, 0, 0] + tail), tbl, basis, 0) ==
      if Playable(pieces, |basis|, tbl.blength, 0) then Done(NewFile(pieces, basis, tbl.blength), tail) else Bad
  {
    PiecesMean(pieces, tail, tbl, basis, 0, 0);
  }

  /** The table the receiver computes for an old file it does not find too large is one of these. */
  lemma CalculatedTable(tbl: Table, size: nat)
    requires Describes(tbl, size) && TableOk(tbl) && size <= 0x200_0000_0000
    ensures TableFor(tbl, size)
  {
    BlockCount(size, tbl.blength);
  }

  // ------------------------------------------------------------------- end to end

  /**
   A file sent as a delta against the old one, in any framing and with any messages interleaved, is
   never refused and never fails its digest, and a reliable session stores it.
   */
  lemma DeltaDelivers(pieces: seq<Piece>, frames: seq<Frame>, tail: bytes, tbl: Table, basis: bytes,
                      md5: bytes -> bytes, r: Received, content: map<int, bytes>, chunkSize: nat, reliable: bool)
    requires Encodable(pieces) && TableOk(tbl) && TableFor(tbl, |basis|)
    requires Playable(pieces, |basis|, tbl.blength, 0)
    requires chunkSize > 0 && |md5(NewFile(pieces, basis, tbl.blength))| == 16
    requires forall i | 0 <= i < |frames| :: Carried(frames[i])
    requires DataOf(frames) == DeltaBytes(pieces) + [0, 0, 0, 0] + md5(NewFile(pieces, basis, tbl.blength))
    requires Reports(r, Meaning(Demux(Wire(frames) + tail).data, tbl, basis, 0), md5, content, chunkSize, reliable)
    ensures r.Stored? || r.Interrupted?
    ensures reliable ==> r.Stored?
    ensures r.Stored? ==> Stores(content, r.refs, Split(NewFile(pieces, basis, tbl.blength), chunkSize))
  {
    var file := NewFile(pieces, basis, tbl.blength);
    var sum, more := md5(file), Demux(tail).data;
    FramesDeliver(frames, tail);
    var head := DeltaBytes(pieces);
    hide Meaning, Demux, Wire, DataOf, DeltaBytes, NewFile, Playable, Stores, Split, TableFor;
    Assoc(head + [0, 0, 0, 0], sum, more);
    Assoc(head, [0, 0, 0, 0], sum + more);
    DeltaMeans(pieces, sum + more, tbl, basis);
    assert (sum + more)[..SUM_LENGTH] == sum;
  }
}
