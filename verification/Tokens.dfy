/**
 File content on the wire: literal and match tokens (literalWriter in
 internal/front/rsync/protocol/sender.go, the token loops in receiver.go).
 */
module Tokens {
  import opened Sequences
  import opened Streams
  import opened Mux

  const LITERAL_CHUNK: nat := 32768
  const MAX_LITERAL: nat := 0x200_0000
  const SUM_LENGTH: nat := 16

  // --------------------------------------------------------------------- meaning

  /** The block table of an old file, as far as match tokens refer to it. */
  datatype Table = Table(count: int, blength: int, remainder: int)

  function BlockLength(tbl: Table, b: int): int {
    if b == tbl.count - 1 && tbl.remainder != 0 then tbl.remainder else tbl.blength
  }

  ghost predicate TableOk(tbl: Table) {
    tbl.blength > 0 && tbl.remainder >= 0
  }

  const NoTable := Table(0, 1, 0)

  /** What a token stream says the new file is, and what follows it; Bad when a receiver must refuse it. */
  datatype Outcome = Done(content: bytes, rest: bytes) | Bad

  function Prepend(head: bytes, o: Outcome): Outcome {
    match o
    case Done(content, rest) => Done(head + content, rest)
    case Bad => Bad
  }

  function TokenOf(s: bytes): int
    requires |s| >= 4
  {
    Wrap32(Value(s[..4]))
  }

  /** Block index of a match token, with int32 negation. */
  function BlockOf(token: int): int {
    Wrap32(-token) - 1
  }

  predicate MatchOk(tbl: Table, size: nat, consumed: nat, b: int) {
    && b < tbl.count
    && consumed <= b * tbl.blength
    && b * tbl.blength + BlockLength(tbl, b) <= size
  }

  /** Literals are the bytes sent; match b is block b of the basis; blocks never go backwards. */
  function Meaning(s: bytes, tbl: Table, basis: bytes, consumed: nat): Outcome
    requires TableOk(tbl)
    decreases |s|
  {
    if |s| < 4 then Bad
    else
      var token, rest := TokenOf(s), s[4..];
      if token == 0 then Done([], rest)
      else if token < 0 then
        var b := BlockOf(token);
        if !MatchOk(tbl, |basis|, consumed, b) then Bad
        else
          var lo := b * tbl.blength;
          var hi := lo + BlockLength(tbl, b);
          Prepend(basis[lo..hi], Meaning(rest, tbl, basis, hi))
      else if token > MAX_LITERAL || |rest| < token then Bad
      else Prepend(rest[..token], Meaning(rest[token..], tbl, basis, consumed))
  }

  // --------------------------------------------------------------------- sending

  function Literal(data: bytes): bytes {
    LE(|data|, 4) + data
  }

  function Literals(pieces: seq<bytes>): seq<Frame> {
    if pieces == [] then [] else [Frame(MSG_DATA, Literal(pieces[0]))] + Literals(pieces[1..])
  }

  lemma {:induction false} LiteralsAppend(a: seq<bytes>, b: seq<bytes>)
    ensures Literals(a + b) == Literals(a) + Literals(b)
    decreases |a|
  {
    hide *;
    if a == [] {
      NoLiteralsBefore(b);
    } else {
      LiteralsAppend(a[1..], b);
      FirstLiteral(a);
      FirstLiteral(a + b);
      assert (a + b)[0] == a[0] && (a + b)[1..] == a[1..] + b;
      Assoc([Frame(MSG_DATA, Literal(a[0]))], Literals(a[1..]), Literals(b));
    }
  }

  lemma NoLiteralsBefore(b: seq<bytes>)
    ensures Literals([] + b) == Literals([]) + Literals(b)
  {
    assert [] + b == b;
  }

  lemma FirstLiteral(a: seq<bytes>)
    requires a != []
    ensures Literals(a) == [Frame(MSG_DATA, Literal(a[0]))] + Literals(a[1..])
  {
    hide Literal;
  }

  /** literalWriter.Write: blocks of at most 32 KiB, each one data frame. */
  method WriteLiterals(out: MuxWriter, content: bytes)
    requires out.Valid()
    modifies out, out.sink
    ensures out.Valid() && out.sent == old(out.sent) + Literals(Split(content, LITERAL_CHUNK))
  {
    hide Split, Literals, MuxWriter.Valid;
    var p := content;
    assert [] + Split(p, LITERAL_CHUNK) == Split(content, LITERAL_CHUNK);
    NoLiterals(content);
    ghost var done: seq<bytes> := [];
    while p != []
      invariant out.Valid() && out.sent == old(out.sent) + Literals(done)
      invariant done + Split(p, LITERAL_CHUNK) == Split(content, LITERAL_CHUNK)
      decreases |p|
    {
      var n := Min(|p|, LITERAL_CHUNK);
      ghost var sent := out.sent;
      var ok := out.WriteFrame(MSG_DATA, LE(n, 4) + p[..n]);
      assert ok;
      TakeOne(p, LITERAL_CHUNK);
      LiteralsAppend(done, [p[..n]]);
      OneLiteral(p[..n]);
      Regroup(done, p[..n], Split(p[n..], LITERAL_CHUNK));
      done := done + [p[..n]];
      p := p[n..];
    }
    assert p == content[..0];
    assert done + Split(p, LITERAL_CHUNK) == done;
  }

  lemma Regroup(done: seq<bytes>, x: bytes, rest: seq<bytes>)
    ensures (done + [x]) + rest == done + ([x] + rest)
  {
  }

  lemma NoLiterals(content: bytes)
    ensures Literals([]) == [] && Split(content[..0], LITERAL_CHUNK) == []
  {
  }

  lemma OneLiteral(x: bytes)
    ensures Literals([x]) == [Frame(MSG_DATA, Literal(x))]
  {
    assert [x][1..] == [];
  }

  lemma TakeOne(p: bytes, n: nat)
    requires p != [] && n > 0
    ensures var k := Min(|p|, n); Split(p, n) == [p[..k]] + Split(p[k..], n)
  {
    if |p| <= n {
      assert p[..|p|] == p && p[|p|..] == [];
    }
  }

  // ------------------------------------------------------------------ round trips

  lemma LiteralMeans(data: bytes, tail: bytes, tbl: Table, basis: bytes, consumed: nat)
    requires TableOk(tbl) && 0 < |data| <= MAX_LITERAL
    ensures Meaning(Literal(data) + tail, tbl, basis, consumed) == Prepend(data, Meaning(tail, tbl, basis, consumed))
  {
    var s := Literal(data) + tail;
    Powers();
    assert s[..4] == LE(|data|, 4) && s[4..] == data + tail;
    ValueOfLE(|data|, 4);
    SmallMod(|data|, P(4));
    assert TokenOf(s) == |data|;
    assert (data + tail)[..|data|] == data && (data + tail)[|data|..] == tail;
  }

  lemma EndMeans(tail: bytes, tbl: Table, basis: bytes, consumed: nat)
    requires TableOk(tbl)
    ensures Meaning([0, 0, 0, 0] + tail, tbl, basis, consumed) == Done([], tail)
  {
    var s := [0, 0, 0, 0] + tail;
    assert s[..4] == [0, 0, 0, 0] && s[4..] == tail;
    assert LE(0, 4) == [0, 0, 0, 0];
    ValueOfLE(0, 4);
  }

  ghost predicate Sendable(pieces: seq<bytes>) {
    forall i | 0 <= i < |pieces| :: 0 < |pieces[i]| <= MAX_LITERAL
  }

  /** Literal tokens, the end mark and anything after: the concatenation of the literals. */
  lemma {:induction false} LiteralsMean(pieces: seq<bytes>, tail: bytes, tbl: Table, basis: bytes, consumed: nat)
    requires TableOk(tbl) && Sendable(pieces)
    ensures Meaning(DataOf(Literals(pieces)) + ([0, 0, 0, 0] + tail), tbl, basis, consumed)
      == Done(Flatten(pieces), tail)
    decreases |pieces|
  {
    var end := [0, 0, 0, 0] + tail;
    EndMeans(tail, tbl, basis, consumed);
    if pieces == [] {
      hide Meaning;
      assert DataOf(Literals(pieces)) + end == end;
    } else {
      var f, rest := Literals(pieces)[0], Literals(pieces[1..]);
      assert Literals(pieces)[1..] == rest;
      LiteralMeans(pieces[0], DataOf(rest) + end, tbl, basis, consumed);
      LiteralsMean(pieces[1..], tail, tbl, basis, consumed);
      assert DataOf(Literals(pieces)) == Literal(pieces[0]) + DataOf(rest);
      hide Meaning, DataOf, Literals, Literal;
      Assoc(Literal(pieces[0]), DataOf(rest), end);
    }
  }

  /** The data frames among interleaved frames. */
  function DataFrames(frames: seq<Frame>): seq<Frame> {
    if frames == [] then []
    else (if frames[0].tag == MSG_DATA then [frames[0]] else []) + DataFrames(frames[1..])
  }

  lemma {:induction false} OnlyDataCounts(frames: seq<Frame>)
    ensures DataOf(DataFrames(frames)) == DataOf(frames)
    decreases |frames|
  {
    if frames != [] {
      OnlyDataCounts(frames[1..]);
      if frames[0].tag == MSG_DATA {
        assert DataFrames(frames)[1..] == DataFrames(frames[1..]);
      } else {
        assert DataFrames(frames) == DataFrames(frames[1..]);
        assert DataOf(frames) == DataOf(frames[1..]);
      }
    }
  }

  /** The frames of one file: its content as StreamFile writes it, the end mark and the whole-file sum. */
  function FileFrames(writes: seq<bytes>, sum: bytes): seq<Frame> {
    Literals(Cut(writes)) + [Frame(MSG_DATA, [0, 0, 0, 0]), Frame(MSG_DATA, sum)]
  }

  /** Each write cut into literal blocks. */
  function Cut(writes: seq<bytes>): seq<bytes> {
    if writes == [] then [] else Split(writes[0], LITERAL_CHUNK) + Cut(writes[1..])
  }

  lemma {:induction false} CutIsSendable(writes: seq<bytes>)
    ensures Sendable(Cut(writes)) && Flatten(Cut(writes)) == Flatten(writes)
    decreases |writes|
  {
    if writes != [] {
      CutIsSendable(writes[1..]);
      SplitIsRegular(writes[0], LITERAL_CHUNK);
      FlattenAppend(Split(writes[0], LITERAL_CHUNK), Cut(writes[1..]));
      hide Split;
    }
  }

  /**
   A file sent through the literal writer, with any messages interleaved between its frames, is
   read by a token loop over the demultiplexed stream as exactly its content, followed by its sum.
   */
  lemma FileArrives(writes: seq<bytes>, sum: bytes, frames: seq<Frame>, tail: bytes, tbl: Table, basis: bytes)
    requires TableOk(tbl)
    requires forall i | 0 <= i < |frames| :: Carried(frames[i])
    requires DataFrames(frames) == FileFrames(writes, sum)
    ensures Meaning(Demux(Wire(frames) + tail).data, tbl, basis, 0) == Done(Flatten(writes), sum + Demux(tail).data)
  {
    FramesDeliver(frames, tail);
    OnlyDataCounts(frames);
    CutIsSendable(writes);
    var end, last := Frame(MSG_DATA, [0, 0, 0, 0]), Frame(MSG_DATA, sum);
    var more := Demux(tail).data;
    hide Demux, Wire, DataFrames, Cut, Meaning;
    DataOfAppend(Literals(Cut(writes)), [end, last]);
    assert [end, last][1..] == [last] && [last][1..] == [];
    assert DataOf([last]) == sum + DataOf([]);
    assert DataOf([end, last]) == [0, 0, 0, 0] + sum;
    var head := DataOf(Literals(Cut(writes)));
    hide DataOf, Literals;
    Assoc(head, [0, 0, 0, 0] + sum, more);
    Assoc([0, 0, 0, 0], sum, more);
    LiteralsMean(Cut(writes), sum + more, tbl, basis, 0);
  }
}
