/**
 Reassembling a received file (receiveFileLegacy, receiveFileDelta and basisReader in
 internal/front/rsync/protocol/receiver.go): a token loop over the demultiplexed stream fills a
 reused chunk buffer, match tokens copy from the old file, and full chunks are stored.
 */
module Receiver {
  import opened Sequences
  import opened Manifest
  import opened Streams
  import opened Mux
  import opened Tokens

  /**
   The session's chunk store. Ids are never reused, so what an id stands for never changes. A
   reliable session is one whose calls succeed and that nobody cancels.
   */
  class ChunkStore {
    const reliable: bool
    var content: map<int, bytes>
    var next: int

    ghost predicate Valid()
      reads this
    {
      forall id | id in content :: id < next
    }

    constructor (reliable: bool)
      ensures Valid() && content == map[] && this.reliable == reliable
    {
      this.reliable := reliable;
      content, next := map[], 0;
    }

    /** Whether the session's context has ended. */
    method Cancelled() returns (c: bool)
      ensures reliable ==> !c
    {
      var ended: bool := *;
      c := ended && !reliable;
    }

    /** Session.ReadChunkAt: the old file's chunk with this index, unless the read fails. */
    method ReadChunkAt(pieces: seq<bytes>, idx: nat) returns (blob: Option<bytes>)
      ensures blob.Some? ==> idx < |pieces| && blob.value == pieces[idx]
      ensures reliable && idx < |pieces| ==> blob.Some?
    {
      var failed: bool := *;
      blob := if (failed && !reliable) || idx >= |pieces| then None else Some(pieces[idx]);
    }

    /** Returns the id of a chunk with this content, an old one or a new one; or fails and stores nothing. */
    method StoreChunk(data: bytes) returns (id: Option<int>)
      requires Valid()
      modifies this
      ensures Valid()
      ensures id.None? ==> content == old(content) && !reliable
      ensures id.Some? ==> content == old(content)[id.value := data]
      ensures id.Some? && id.value in old(content) ==> old(content)[id.value] == data
    {
      var failed: bool := *;
      if failed && !reliable {
        return None;
      }
      if known :| known in content && content[known] == data {
        return Some(known);
      }
      content := content[next := data];
      id := Some(next);
      next := next + 1;
    }
  }

  ghost predicate Holds(content: map<int, bytes>, r: ChunkRef, i: nat, piece: bytes) {
    r.idx == i && r.chunkId in content && content[r.chunkId] == piece
  }

  /** The references are, in order, chunks with exactly these contents. */
  ghost predicate Stores(content: map<int, bytes>, refs: seq<ChunkRef>, pieces: seq<bytes>) {
    |refs| == |pieces| && forall i | 0 <= i < |pieces| :: Holds(content, refs[i], i, pieces[i])
  }

  lemma StoresOne(content: map<int, bytes>, after: map<int, bytes>, refs: seq<ChunkRef>, pieces: seq<bytes>, id: int,
      data: bytes)
    requires Stores(content, refs, pieces)
    requires id in content ==> content[id] == data
    requires after == content[id := data]
    ensures Stores(after, refs + [ChunkRef(id, |refs|)], pieces + [data])
  {
  }

  // ------------------------------------------------------------------ chunk buffer

  /** A Go byte slice: the part mem[lo..hi] of an allocation, free to grow up to the end of it. */
  class Slice {
    var mem: array<byte>
    var lo: nat
    var hi: nat

    ghost predicate Valid()
      reads this
    {
      lo <= hi <= mem.Length
    }

    ghost function Bytes(): bytes
      reads this, mem
      requires Valid()
    {
      mem[lo..hi]
    }

    ghost function Cap(): nat
      reads this
      requires Valid()
    {
      mem.Length - lo
    }

    constructor (cap: nat)
      ensures Valid() && Bytes() == [] && Cap() == cap && fresh(mem)
    {
      mem := new byte[cap](_ => 0);
      lo, hi := 0, 0;
    }

    /** data[len:len+take] filled by a read: legal only within the capacity. */
    method Fill(b: bytes)
      requires Valid() && |b| <= Cap() - (hi - lo)
      modifies this, mem
      ensures Valid() && mem == old(mem) && Bytes() == old(Bytes()) + b && Cap() == old(Cap())
    {
      for i := 0 to |b|
        invariant mem == old(mem) && lo == old(lo) && hi == old(hi)
        invariant mem[lo..hi] == old(mem[lo..hi])
        invariant forall k | 0 <= k < i :: mem[hi + k] == b[k]
        modifies mem
      {
        mem[hi + i] := b[i];
      }
      assert mem[hi..hi + |b|] == b;
      assert mem[lo..hi + |b|] == mem[lo..hi] + mem[hi..hi + |b|];
      hi := hi + |b|;
    }

    /** append: in place when it fits, otherwise into a larger allocation. */
    method Append(b: bytes)
      requires Valid()
      modifies this, mem
      ensures Valid() && (mem == old(mem) || fresh(mem)) && Bytes() == old(Bytes()) + b
    {
      if |b| > mem.Length - hi {
        Grow(2 * (hi - lo + |b|));
      }
      Fill(b);
    }

    method Grow(cap: nat)
      requires Valid() && hi - lo <= cap
      modifies this
      ensures Valid() && fresh(mem) && Bytes() == old(Bytes()) && Cap() == cap
    {
      var nd := new byte[cap](_ => 0);
      var n := hi - lo;
      for i := 0 to n
        invariant forall k | 0 <= k < i :: nd[k] == mem[lo + k]
        modifies nd
      {
        nd[i] := mem[lo + i];
      }
      assert nd[..n] == mem[lo..hi];
      mem, lo, hi := nd, 0, n;
    }

    method Clear()
      requires Valid()
      modifies this`hi
      ensures Valid() && Bytes() == [] && Cap() == old(Cap())
    {
      hi := lo;
    }

    method DropFront(k: nat)
      requires Valid() && k <= hi - lo
      modifies this`lo
      ensures Valid() && Bytes() == old(Bytes())[k..] && Cap() == old(Cap()) - k
    {
      lo := lo + k;
    }
  }

  // --------------------------------------------------------------------- assembly

  datatype Took = Fine | Short | Faulted

  /** The state the receive loops share: the buffer, the references so far and the running digest input. */
  class Assembler {
    const chunkSize: nat
    const store: ChunkStore
    const data: Slice
    var refs: seq<ChunkRef>
    var hashed: bytes
    ghost var kept: seq<bytes>

    /** Everything received is in full chunks stored in order, then the buffer. */
    ghost predicate Valid()
      reads this, store, data, data.mem
    {
      && chunkSize > 0 && store.Valid() && data.Valid()
      && Stores(store.content, refs, kept) && Full(kept, chunkSize)
      && hashed == Flatten(kept) + data.Bytes()
    }

    /** Between tokens there is room for a whole chunk, and less than a chunk is buffered. */
    ghost predicate Ready()
      reads this, store, data, data.mem
    {
      Valid() && |data.Bytes()| < chunkSize <= data.Cap()
    }

    constructor (chunkSize: nat, store: ChunkStore)
      requires chunkSize > 0 && store.Valid()
      ensures Ready() && hashed == [] && this.chunkSize == chunkSize && this.store == store
      ensures fresh(data) && fresh(data.mem)
    {
      this.chunkSize, this.store := chunkSize, store;
      data := new Slice(chunkSize);
      refs, hashed, kept := [], [], [];
      new;
      assert Flatten<byte>([]) + data.Bytes() == [];
    }

    /** Stores the whole buffer as one chunk, unless it is empty. */
    method Flush() returns (ok: bool)
      requires Valid() && |data.Bytes()| <= chunkSize
      modifies this, store, data`hi
      ensures data.mem == old(data.mem) && data.Valid() && store.Valid()
      ensures ok ==> hashed == old(hashed) && data.Bytes() == [] && data.Cap() == old(data.Cap())
      ensures ok ==> Stores(store.content, refs, kept) && Flatten(kept) == hashed
      ensures ok ==> kept == old(kept) + if old(data.Bytes()) == [] then [] else [old(data.Bytes())]
      ensures store.reliable ==> ok
      ensures ok && (|old(data.Bytes())| == chunkSize || old(data.Bytes()) == []) ==> Valid()
    {
      ghost var was, before := data.Bytes(), kept;
      if data.hi == data.lo {
        assert Flatten(kept) + [] == Flatten(kept);
        return true;
      }
      var id := store.StoreChunk(data.mem[data.lo..data.hi]);
      if id.None? {
        return false;
      }
      StoresOne(old(store.content), store.content, refs, kept, id.value, was);
      FlattenSnoc(kept, was);
      refs := refs + [ChunkRef(id.value, |refs|)];
      kept := kept + [was];
      data.Clear();
      assert Flatten(kept) + [] == Flatten(kept);
      ok := true;
    }

    /** Stores every full chunk at the front of the buffer, then makes sure a whole chunk fits again. */
    method FlushFull() returns (ok: bool)
      requires Valid()
      modifies this, store, data
      ensures data.mem == old(data.mem) || fresh(data.mem)
      ensures data.Valid() && store.Valid()
      ensures ok ==> Ready() && hashed == old(hashed)
      ensures store.reliable ==> ok
    {
      while data.hi - data.lo >= chunkSize
        invariant Valid() && hashed == old(hashed) && data.mem == old(data.mem)
        decreases data.hi - data.lo
      {
        ok := StoreFront();
        if !ok {
          return false;
        }
      }
      if data.mem.Length - data.lo < chunkSize {
        data.Grow(chunkSize);
      }
      ok := true;
    }

    method StoreFront() returns (ok: bool)
      requires Valid() && |data.Bytes()| >= chunkSize
      modifies this, store, data`lo
      ensures data.mem == old(data.mem) && data.hi == old(data.hi)
      ensures data.Valid() && store.Valid()
      ensures ok ==> Valid() && hashed == old(hashed) && data.lo == old(data.lo) + chunkSize
      ensures store.reliable ==> ok
    {
      ghost var full, tail := data.Bytes()[..chunkSize], data.Bytes()[chunkSize..];
      assert data.mem[data.lo..data.lo + chunkSize] == full;
      var id := store.StoreChunk(data.mem[data.lo..data.lo + chunkSize]);
      if id.None? {
        return false;
      }
      StoresOne(old(store.content), store.content, refs, kept, id.value, full);
      FlattenSnoc(kept, full);
      TakeDrop(Flatten(kept), data.Bytes(), chunkSize);
      refs := refs + [ChunkRef(id.value, |refs|)];
      kept := kept + [full];
      data.DropFront(chunkSize);
      ok := true;
    }

    /** One pass of the literal loop: as much of the token as fits the current chunk. */
    method TakePart(stream: MuxStream, remaining: nat) returns (took: Took, take: nat)
      requires Ready() && stream.Valid() && remaining > 0
      modifies this, store, data, data.mem, stream, stream.mr
      ensures data.mem == old(data.mem) && data.Valid() && store.Valid() && stream.Valid()
      ensures 0 < take <= remaining
      ensures took == Short ==> take > |old(stream.Remaining())|
      ensures took == Faulted ==> !store.reliable
      ensures took == Fine ==> Ready() && take <= |old(stream.Remaining())|
      ensures took == Fine ==> hashed == old(hashed) + old(stream.Remaining())[..take]
      ensures took == Fine ==> stream.Remaining() == old(stream.Remaining())[take..]
    {
      take := Min(remaining, chunkSize - (data.hi - data.lo));
      var tmp := stream.ReadFull(take);
      if tmp.None? {
        return Short, take;
      }
      ghost var before := data.Bytes();
      assert old(data.Bytes()) == before;
      data.Fill(tmp.value);
      Assoc(Flatten(kept), before, tmp.value);
      hashed := hashed + tmp.value;
      if data.hi - data.lo == chunkSize {
        var ok := Flush();
        if !ok {
          return Faulted, take;
        }
      }
      took := Fine;
    }

    /** Reads the next `n` bytes of the stream straight into the buffer, a chunk's worth at a time. */
    method TakeLiteral(stream: MuxStream, n: nat) returns (took: Took)
      requires Ready() && stream.Valid()
      modifies this, store, data, data.mem, stream, stream.mr
      ensures data.mem == old(data.mem) && data.Valid() && store.Valid() && stream.Valid()
      ensures took == Short ==> n > |old(stream.Remaining())|
      ensures took == Faulted ==> !store.reliable
      ensures took == Fine ==> Ready() && n <= |old(stream.Remaining())|
      ensures took == Fine ==> hashed == old(hashed) + old(stream.Remaining())[..n]
      ensures took == Fine ==> stream.Remaining() == old(stream.Remaining())[n..]
    {
      var remaining := n;
      ghost var start, got := hashed, [];
      ghost var all := stream.Remaining();
      assert [] + all == all && start + [] == start;
      hide Assembler.Ready, Assembler.Valid, Slice.Valid, ChunkStore.Valid, MuxStream.Valid, MuxStream.Remaining;
      while remaining > 0
        invariant 0 <= remaining == n - |got|
        invariant Ready() && stream.Valid() && data.mem == old(data.mem) && data.Valid() && store.Valid()
        invariant hashed == start + got && all == got + stream.Remaining()
        decreases remaining
      {
        ghost var rest := stream.Remaining();
        var take;
        took, take := TakePart(stream, remaining);
        if took != Fine {
          return;
        }
        NextPart(start, got, rest, take);
        got := got + rest[..take];
        remaining := remaining - take;
      }
      Parted(got, stream.Remaining());
      took := Fine;
    }

    /** A copied block may span several chunks. */
    method TakeMatch(block: bytes) returns (ok: bool)
      requires Ready()
      modifies this, store, data, data.mem
      ensures data.mem == old(data.mem) || fresh(data.mem)
      ensures data.Valid() && store.Valid()
      ensures ok ==> Ready() && hashed == old(hashed) + block
      ensures store.reliable ==> ok
    {
      Assoc(Flatten(kept), data.Bytes(), block);
      hashed := hashed + block;
      data.Append(block);
      ok := FlushFull();
    }

    /** The final flush: what is stored is the content cut at the chunk size. */
    method Finish() returns (ok: bool)
      requires Ready()
      modifies this, store, data`hi
      ensures store.Valid()
      ensures ok ==> hashed == old(hashed) && Stores(store.content, refs, Split(hashed, chunkSize))
      ensures store.reliable ==> ok
    {
      SplitAfterFull(kept, data.Bytes(), chunkSize);
      ghost var tail, before := data.Bytes(), kept;
      ok := Flush();
      assert before + [] == before;
    }
  }

  lemma NextPart(start: bytes, got: bytes, rest: bytes, take: nat)
    requires take <= |rest|
    ensures (start + got) + rest[..take] == start + (got + rest[..take])
    ensures got + rest == (got + rest[..take]) + rest[take..]
  {
  }

  lemma Parted(got: bytes, rest: bytes)
    ensures (got + rest)[..|got|] == got && (got + rest)[|got|..] == rest
  {
  }

  // ------------------------------------------------------------------- the old file

  /** Reads the old file chunk by chunk, finding each chunk by dividing the position. */
  class BasisReader {
    const store: ChunkStore
    const pieces: seq<bytes>
    const chunkSize: nat
    const fileSize: nat
    var cur: bytes
    var pos: nat

    ghost function Content(): bytes {
      Flatten(pieces)
    }

    /** The unread part of a chunk lies ahead of the position and ends where the next chunk starts. */
    ghost predicate Valid()
      reads this
    {
      && chunkSize > 0 && Regular(pieces, chunkSize) && fileSize == |Content()|
      && pos + |cur| <= fileSize && cur == Content()[pos..pos + |cur|]
      && ((pos + |cur|) % chunkSize == 0 || pos + |cur| == fileSize)
    }

    constructor (store: ChunkStore, pieces: seq<bytes>, chunkSize: nat, fileSize: nat)
      requires chunkSize > 0 && Regular(pieces, chunkSize) && fileSize == |Flatten(pieces)|
      ensures Valid() && pos == 0 && this.store == store && this.pieces == pieces
      ensures this.chunkSize == chunkSize && this.fileSize == fileSize
    {
      this.store, this.pieces, this.chunkSize, this.fileSize := store, pieces, chunkSize, fileSize;
      cur, pos := [], 0;
    }

    /** The chunk at the position, which starts there. */
    method Load() returns (ok: bool)
      requires Valid() && cur == [] && pos < fileSize
      modifies this`cur
      ensures Valid() && (ok ==> cur != []) && (!ok ==> cur == [] && !store.reliable)
    {
      RegularCovers(pieces, chunkSize, pos);
      var idx := pos / chunkSize;
      var blob := store.ReadChunkAt(pieces, idx);
      if blob.None? {
        return false;
      }
      RegularPieceAt(pieces, chunkSize, idx);
      ghost var start := idx * chunkSize;
      assert Content()[start..start + |blob.value|] == blob.value;
      hide Regular, Flatten;
      ChunkStart(pos, chunkSize, |blob.value|, fileSize);
      assert start == pos;
      cur := blob.value;
      ok := true;
    }

    method Read(max: nat) returns (got: bytes, status: Status)
      requires Valid()
      modifies this
      ensures Valid() && |got| <= max && pos == old(pos) + |got| <= |Content()|
      ensures got == Content()[old(pos)..pos]
      ensures status == Ok && max > 0 ==> got != []
      ensures status == Eof <==> old(pos) == fileSize && old(cur) == []
      ensures status == Ok || status == Eof || status == ReadError
      ensures status != Ok ==> got == []
      ensures status == ReadError ==> !store.reliable
    {
      if cur == [] {
        if pos >= fileSize {
          return [], Eof;
        }
        var ok := Load();
        if !ok {
          return [], ReadError;
        }
      }
      hide BasisReader.Valid, BasisReader.Content;
      got := TakeLoaded(max);
      status := Ok;
    }

    /** As much of the loaded part as was asked for. */
    method TakeLoaded(max: nat) returns (got: bytes)
      requires Valid()
      modifies this
      ensures Valid() && |got| <= max && pos == old(pos) + |got| <= |Content()|
      ensures got == Content()[old(pos)..pos]
      ensures max > 0 && old(cur) != [] ==> got != []
    {
      hide Regular, Flatten;
      var n := Min(max, |cur|);
      CutSlice(Content(), pos, pos + |cur|, n);
      got := cur[..n];
      cur := cur[n..];
      pos := pos + n;
    }

    /** Skips to `offset` and copies `len` bytes, unless they reach past the old file's size. */
    method Block(offset: nat, len: nat) returns (oversize: bool, block: Option<bytes>)
      requires Valid() && pos <= offset
      modifies this
      ensures Valid()
      ensures oversize ==> offset + len > |Content()|
      ensures !oversize && block.Some? ==>
        pos == offset + len <= |Content()| && block.value == Content()[offset..offset + len]
      ensures !oversize && block.None? ==> !store.reliable
    {
      if offset > pos {
        var skipped := ReadFull(offset - pos);
        if skipped.None? {
          return offset > fileSize, None;
        }
      }
      if offset + len > fileSize {
        return true, None;
      }
      block := ReadFull(len);
      oversize := false;
    }

    /** io.ReadFull, and io.CopyN into nothing: exactly the next `n` bytes of the old file. */
    method ReadFull(n: nat) returns (r: Option<bytes>)
      requires Valid()
      modifies this
      ensures Valid()
      ensures r.Some? ==> pos == old(pos) + n <= |Content()| && r.value == Content()[old(pos)..pos]
      ensures r.None? && store.reliable ==> old(pos) + n > |Content()|
    {
      var got := [];
      assert pos <= |Content()| && Content()[pos..pos] == [];
      hide Regular, Flatten, BasisReader.Valid, BasisReader.Content;
      while |got| < n
        invariant |got| <= n && Valid() && pos == old(pos) + |got| <= |Content()|
        invariant got == Content()[old(pos)..pos]
        decreases n - |got|
      {
        ghost var before := pos;
        var more, status := Read(n - |got|);
        if status != Ok {
          return None;
        }
        SliceJoin(Content(), old(pos), before, pos);
        got := got + more;
      }
      r := Some(got);
    }
  }

  lemma CutSlice(s: bytes, lo: nat, hi: nat, n: nat)
    requires lo + n <= hi <= |s|
    ensures s[lo..hi][..n] == s[lo..lo + n] && s[lo..hi][n..] == s[lo + n..hi]
  {
  }

  lemma ChunkStart(pos: nat, n: nat, len: nat, size: nat)
    requires n > 0 && pos % n == 0 && pos < size
    requires (pos / n) * n + len == Min((pos / n + 1) * n, size)
    ensures (pos / n) * n == pos && len > 0
    ensures (pos + len) % n == 0 || pos + len == size
  {
    assert (pos / n) * n == pos;
    assert (pos / n + 1) * n == pos + n;
    if pos + len != size {
      MultipleMod(pos / n + 1, n);
    }
  }

  lemma MultipleMod(k: nat, n: nat)
    requires n > 0
    ensures (k * n) % n == 0
  {
    DivUnique(n * k, n, k, 0);
    assert k * n == n * k;
  }

  // -------------------------------------------------------------- receiving a file

  datatype Received = Stored(refs: seq<ChunkRef>) | BadSum | Refused | Interrupted

  /** What a receiver may report for a token stream: it stores the meaning, or says why not. */
  ghost predicate Reports(r: Received, meaning: Outcome, md5: bytes -> bytes, content: map<int, bytes>, chunkSize: nat,
                          reliable: bool)
    requires chunkSize > 0
  {
    match r
    case Stored(refs) =>
      && meaning.Done? && |meaning.rest| >= SUM_LENGTH && meaning.rest[..SUM_LENGTH] == md5(meaning.content)
      && Stores(content, refs, Split(meaning.content, chunkSize))
    case BadSum => meaning.Done? && |meaning.rest| >= SUM_LENGTH && meaning.rest[..SUM_LENGTH] != md5(meaning.content)
    case Refused => meaning.Bad? || |meaning.rest| < SUM_LENGTH
    case Interrupted => !reliable
  }

  lemma PrependTwice(a: bytes, b: bytes, o: Outcome)
    ensures Prepend(a, Prepend(b, o)) == Prepend(a + b, o)
  {
    if o.Done? {
      Assoc(a, b, o.content);
    }
  }

  lemma PrependNothing(o: Outcome)
    ensures Prepend([], o) == o
  {
    if o.Done? {
      assert [] + o.content == o.content;
    }
  }

  /** The whole-file digest read after the end token, compared with what was assembled. */
  method CheckSum(stream: MuxStream, hashed: bytes, md5: bytes -> bytes) returns (ok: bool, read: bool)
    requires stream.Valid()
    modifies stream, stream.mr
    ensures stream.Valid()
    ensures read <==> SUM_LENGTH <= |old(stream.Remaining())|
    ensures read ==> ok == (old(stream.Remaining())[..SUM_LENGTH] == md5(hashed))
    ensures read ==> stream.Remaining() == old(stream.Remaining())[SUM_LENGTH..]
  {
    var want := stream.ReadFull(SUM_LENGTH);
    if want.None? {
      return false, false;
    }
    ok, read := want.value == md5(hashed), true;
  }

  /** One pass of a token loop: a token applied, the end token, a stream to refuse, or a failure of our own. */
  datatype Pass = Applied | AtEnd | Refuse | Stop

  /** What is assembled so far, in front of what the rest of the stream means. */
  ghost function Whole(asm: Assembler, stream: MuxStream, tbl: Table, basis: bytes, consumed: nat): Outcome
    requires TableOk(tbl)
    reads asm, stream, stream.mr
  {
    Prepend(asm.hashed, Meaning(stream.Remaining(), tbl, basis, consumed))
  }

  /** A literal token of `n` bytes; the same in both receivers. */
  method ApplyLiteral(stream: MuxStream, asm: Assembler, token: int, ghost s: bytes, ghost tbl: Table,
      ghost basis: bytes, ghost consumed: nat)
    returns (pass: Pass)
    requires asm.Ready() && stream.Valid() && TableOk(tbl) && token > 0
    requires |s| >= 4 && token == TokenOf(s) && stream.Remaining() == s[4..]
    modifies stream, stream.mr, asm, asm.store, asm.data, asm.data.mem
    ensures asm.data.mem == old(asm.data.mem) && asm.data.Valid() && stream.Valid() && asm.store.Valid()
    ensures pass == Applied ==> asm.Ready() && |stream.Remaining()| < |s|
    ensures pass == Applied ==>
      Prepend(old(asm.hashed), Meaning(s, tbl, basis, consumed)) == Whole(asm, stream, tbl, basis, consumed)
    ensures pass == Refuse ==> Meaning(s, tbl, basis, consumed).Bad?
    ensures pass == Stop ==> !asm.store.reliable
    ensures pass != AtEnd
  {
    if token > MAX_LITERAL {
      return Refuse;
    }
    ghost var before := asm.hashed;
    var took := asm.TakeLiteral(stream, token);
    hide Assembler.Ready, MuxStream.Valid, MuxStream.Remaining;
    if took == Short {
      return Refuse;
    } else if took == Faulted {
      return Stop;
    }
    PrependTwice(before, s[4..][..token], Meaning(s[4..][token..], tbl, basis, consumed));
    pass := Applied;
  }

  method FullToken(stream: MuxStream, asm: Assembler) returns (pass: Pass)
    requires asm.Ready() && stream.Valid()
    modifies stream, stream.mr, asm, asm.store, asm.data, asm.data.mem
    ensures asm.data.mem == old(asm.data.mem) && asm.data.Valid() && stream.Valid() && asm.store.Valid()
    ensures pass == Applied ==> asm.Ready() && |stream.Remaining()| < |old(stream.Remaining())|
    ensures pass == Applied ==> Whole(asm, stream, NoTable, [], 0) == old(Whole(asm, stream, NoTable, [], 0))
    ensures pass == AtEnd ==> asm.Ready() && asm.hashed == old(asm.hashed)
    ensures pass == AtEnd ==> Meaning(old(stream.Remaining()), NoTable, [], 0) == Done([], stream.Remaining())
    ensures pass == Refuse ==> Meaning(old(stream.Remaining()), NoTable, [], 0).Bad?
    ensures pass == Stop ==> !asm.store.reliable
  {
    ghost var s := stream.Remaining();
    var cancelled := asm.store.Cancelled();
    if cancelled {
      return Stop;
    }
    var word := stream.ReadFull(4);
    if word.None? {
      return Refuse;
    }
    var token := Wrap32(Value(word.value));
    if token == 0 {
      return AtEnd;
    }
    if token < 0 {
      NoMatch(s);
      return Refuse;
    }
    pass := ApplyLiteral(stream, asm, token, s, NoTable, [], 0);
  }

  /** Without a block table every match token is out of range. */
  lemma NoMatch(s: bytes)
    requires |s| >= 4 && TokenOf(s) < 0
    ensures Meaning(s, NoTable, [], 0).Bad?
  {
  }

  /**
   receiveFileLegacy after the echo: the token loop of a full transfer. A match token is refused,
   since no block sums were sent.
   */
  method ReceiveFull(stream: MuxStream, store: ChunkStore, chunkSize: nat, md5: bytes -> bytes) returns (r: Received)
    requires chunkSize > 0 && stream.Valid() && store.Valid()
    modifies stream, stream.mr, store
    ensures stream.Valid() && store.Valid()
    ensures Reports(r, Meaning(old(stream.Remaining()), NoTable, [], 0), md5, store.content, chunkSize, store.reliable)
    ensures r.Stored? || r.BadSum? ==>
      stream.Remaining() == Meaning(old(stream.Remaining()), NoTable, [], 0).rest[SUM_LENGTH..]
  {
    var asm := new Assembler(chunkSize, store);
    ghost var whole := Meaning(stream.Remaining(), NoTable, [], 0);
    PrependNothing(whole);
    var pass := Applied;
    hide Assembler.Ready, MuxStream.Valid, MuxStream.Remaining, Meaning;
    while pass == Applied
      invariant pass == Applied ==> asm.Ready() && whole == Whole(asm, stream, NoTable, [], 0)
      invariant pass == AtEnd ==> asm.Ready() && whole == Done(asm.hashed, stream.Remaining())
      invariant pass == Refuse ==> whole.Bad?
      invariant pass == Stop ==> !store.reliable
      invariant asm.data.Valid() && stream.Valid() && store.Valid()
      invariant fresh(asm) && fresh(asm.data) && fresh(asm.data.mem)
      decreases pass == Applied, |stream.Remaining()|
    {
      ghost var before := asm.hashed;
      pass := FullToken(stream, asm);
      assert before + [] == before;
    }
    if pass == Refuse {
      return Refused;
    } else if pass == Stop {
      return Interrupted;
    }
    r := Conclude(stream, asm, md5);
  }

  /** The end of a transfer: last flush, then the digest decides. */
  method Conclude(stream: MuxStream, asm: Assembler, md5: bytes -> bytes) returns (r: Received)
    requires asm.Ready() && stream.Valid()
    modifies stream, stream.mr, asm, asm.store, asm.data`hi
    ensures stream.Valid() && asm.store.Valid()
    ensures Reports(r, Done(old(asm.hashed), old(stream.Remaining())), md5, asm.store.content, asm.chunkSize,
      asm.store.reliable)
    ensures r.Stored? || r.BadSum? ==> stream.Remaining() == old(stream.Remaining())[SUM_LENGTH..]
  {
    var ok := asm.Finish();
    if !ok {
      return Interrupted;
    }
    var good, read := CheckSum(stream, asm.hashed, md5);
    if !read {
      return Refused;
    }
    r := if good then Stored(asm.refs) else BadSum;
  }

  /** A match token: the block is copied from the old file, skipping what lies before it. */
  method ApplyMatch(asm: Assembler, br: BasisReader, token: int, tbl: Table, consumed: nat, ghost s: bytes,
      ghost after: bytes)
    returns (pass: Pass, at: nat)
    requires asm.Ready() && br.Valid() && br.store == asm.store && br.pos == consumed && TableOk(tbl) && token < 0
    requires |s| >= 4 && token == TokenOf(s) && after == s[4..]
    modifies asm, asm.store, asm.data, asm.data.mem, br
    ensures asm.data.mem == old(asm.data.mem) || fresh(asm.data.mem)
    ensures asm.data.Valid() && asm.store.Valid() && br.Valid()
    ensures pass == Applied ==> asm.Ready() && br.pos == at
    ensures pass == Applied ==>
      Prepend(old(asm.hashed), Meaning(s, tbl, br.Content(), consumed))
        == Prepend(asm.hashed, Meaning(after, tbl, br.Content(), at))
    ensures pass == Refuse ==> Meaning(s, tbl, br.Content(), consumed).Bad?
    ensures pass == Stop ==> !asm.store.reliable
    ensures pass != AtEnd
  {
    ghost var basis := br.Content();
    hide Assembler.Ready, Assembler.Valid, BasisReader.Valid, BasisReader.Content, Flatten, Meaning, TokenOf, MatchOk;
    var b := BlockOf(token);
    BadMatch(s, tbl, basis, consumed, b);
    var block;
    pass, block, at := CopyBlock(br, tbl, consumed, b);
    if pass == Applied {
      PrependTwice(asm.hashed, block, Meaning(after, tbl, basis, at));
      MatchMeans(s, tbl, basis, consumed, b);
      var ok := asm.TakeMatch(block);
      pass := if ok then Applied else Stop;
    }
  }

  /** The bytes of block b, when it lies ahead and inside the old file. */
  method CopyBlock(br: BasisReader, tbl: Table, consumed: nat, b: int) returns (pass: Pass, block: bytes, at: nat)
    requires br.Valid() && br.pos == consumed && TableOk(tbl)
    modifies br
    ensures br.Valid() && pass != AtEnd
    ensures pass == Refuse ==> !MatchOk(tbl, |br.Content()|, consumed, b)
    ensures pass == Stop ==> !br.store.reliable
    ensures pass == Applied ==>
      && MatchOk(tbl, |br.Content()|, consumed, b)
      && at == b * tbl.blength + BlockLength(tbl, b) == br.pos
      && block == br.Content()[b * tbl.blength..b * tbl.blength + BlockLength(tbl, b)]
  {
    assert br.fileSize == |br.Content()|;
    hide BasisReader.Valid, BasisReader.Content, Flatten;
    if b >= tbl.count {
      return Refuse, [], consumed;
    }
    var offset2 := b * tbl.blength;
    if offset2 < consumed {
      return Refuse, [], consumed;
    }
    var blen := BlockLength(tbl, b);
    var oversize, copied := br.Block(offset2, blen);
    if oversize {
      return Refuse, [], consumed;
    }
    if copied.None? {
      return Stop, [], consumed;
    }
    return Applied, copied.value, offset2 + blen;
  }

  lemma BadMatch(s: bytes, tbl: Table, basis: bytes, consumed: nat, b: int)
    requires TableOk(tbl) && |s| >= 4 && TokenOf(s) < 0 && b == BlockOf(TokenOf(s))
    ensures !MatchOk(tbl, |basis|, consumed, b) ==> Meaning(s, tbl, basis, consumed).Bad?
  {
  }

  lemma MatchMeans(s: bytes, tbl: Table, basis: bytes, consumed: nat, b: int)
    requires TableOk(tbl) && |s| >= 4 && TokenOf(s) < 0 && b == BlockOf(TokenOf(s))
      && MatchOk(tbl, |basis|, consumed, b)
    ensures var lo := b * tbl.blength; var hi := lo + BlockLength(tbl, b);
      Meaning(s, tbl, basis, consumed) == Prepend(basis[lo..hi], Meaning(s[4..], tbl, basis, hi))
  {
  }

  method DeltaToken(stream: MuxStream, asm: Assembler, br: BasisReader, tbl: Table, consumed: nat)
      returns (pass: Pass, at: nat)
    requires asm.Ready() && stream.Valid() && br.Valid() && br.store == asm.store && br.pos == consumed && TableOk(tbl)
    modifies stream, stream.mr, asm, asm.store, asm.data, asm.data.mem, br
    ensures asm.data.mem == old(asm.data.mem) || fresh(asm.data.mem)
    ensures asm.data.Valid() && stream.Valid() && asm.store.Valid() && br.Valid()
    ensures pass == Applied ==> asm.Ready() && br.pos == at && |stream.Remaining()| < |old(stream.Remaining())|
    ensures pass == Applied ==>
      Whole(asm, stream, tbl, br.Content(), at) == old(Whole(asm, stream, tbl, br.Content(), consumed))
    ensures pass == AtEnd ==> asm.Ready() && asm.hashed == old(asm.hashed)
    ensures pass == AtEnd ==>
      Meaning(old(stream.Remaining()), tbl, br.Content(), consumed) == Done([], stream.Remaining())
    ensures pass == Refuse ==> Meaning(old(stream.Remaining()), tbl, br.Content(), consumed).Bad?
    ensures pass == Stop ==> !asm.store.reliable
  {
    at := consumed;
    ghost var s := stream.Remaining();
    var cancelled := asm.store.Cancelled();
    if cancelled {
      return Stop, at;
    }
    var word := stream.ReadFull(4);
    if word.None? {
      return Refuse, at;
    }
    var token := Wrap32(Value(word.value));
    if token == 0 {
      return AtEnd, at;
    }
    hide Assembler.Ready, MuxStream.Valid, MuxStream.Remaining, BasisReader.Valid;
    if token < 0 {
      pass, at := ApplyMatch(asm, br, token, tbl, consumed, s, s[4..]);
    } else {
      pass := ApplyLiteral(stream, asm, token, s, tbl, br.Content(), consumed);
    }
  }

  /** The delta receiver's token loop. */
  method DeltaTokens(stream: MuxStream, asm: Assembler, br: BasisReader, tbl: Table) returns (pass: Pass)
    requires asm.Ready() && stream.Valid() && br.Valid() && br.store == asm.store && br.pos == 0 && TableOk(tbl)
    modifies stream, stream.mr, asm, asm.store, asm.data, asm.data.mem, br
    ensures pass != Applied && asm.data.Valid() && stream.Valid() && asm.store.Valid()
    ensures pass == AtEnd ==>
      asm.Ready() && old(Whole(asm, stream, tbl, br.Content(), 0)) == Done(asm.hashed, stream.Remaining())
    ensures pass == Refuse ==> old(Whole(asm, stream, tbl, br.Content(), 0)).Bad?
    ensures pass == Stop ==> !asm.store.reliable
  {
    ghost var whole := Whole(asm, stream, tbl, br.Content(), 0);
    var consumed := 0;
    pass := Applied;
    hide Assembler.Ready, Slice.Valid, MuxStream.Valid, MuxStream.Remaining, Meaning, BasisReader.Valid, TableOk;
    while pass == Applied
      invariant pass == Applied ==>
        asm.Ready() && br.pos == consumed && whole == Whole(asm, stream, tbl, br.Content(), consumed)
      invariant pass == AtEnd ==> asm.Ready() && whole == Done(asm.hashed, stream.Remaining())
      invariant pass == Refuse ==> whole.Bad?
      invariant pass == Stop ==> !asm.store.reliable
      invariant asm.data.Valid() && stream.Valid() && asm.store.Valid() && br.Valid() && consumed >= 0
      invariant asm.data.mem == old(asm.data.mem) || fresh(asm.data.mem)
      decreases pass == Applied, |stream.Remaining()|
    {
      ghost var before := asm.hashed;
      pass, consumed := DeltaToken(stream, asm, br, tbl, consumed);
      assert before + [] == before;
    }
  }

  /**
   receiveFileDelta after the echo: for any block table and any old file in the regular layout,
   what is stored is exactly what the tokens mean, cut at the chunk size.
   */
  method ReceiveDelta(stream: MuxStream, store: ChunkStore, chunkSize: nat, md5: bytes -> bytes, tbl: Table,
      pieces: seq<bytes>, size: nat)
    returns (r: Received)
    requires chunkSize > 0 && stream.Valid() && store.Valid() && TableOk(tbl)
    requires Regular(pieces, chunkSize) && size == |Flatten(pieces)|
    modifies stream, stream.mr, store
    ensures stream.Valid() && store.Valid()
    ensures Reports(r, Meaning(old(stream.Remaining()), tbl, Flatten(pieces), 0), md5, store.content, chunkSize,
      store.reliable)
    ensures r.Stored? || r.BadSum? ==>
      stream.Remaining() == Meaning(old(stream.Remaining()), tbl, Flatten(pieces), 0).rest[SUM_LENGTH..]
  {
    var asm := new Assembler(chunkSize, store);
    var br := new BasisReader(store, pieces, chunkSize, size);
    PrependNothing(Meaning(stream.Remaining(), tbl, br.Content(), 0));
    hide Assembler.Ready, MuxStream.Valid, MuxStream.Remaining, Meaning, BasisReader.Valid, Regular;
    var pass := DeltaTokens(stream, asm, br, tbl);
    if pass == Refuse {
      return Refused;
    } else if pass == Stop {
      return Interrupted;
    }
    r := Conclude(stream, asm, md5);
  }

  // ------------------------------------------------------------------- end to end

  /**
   A file written by the sender in any pieces, with any messages interleaved, is never refused and
   never fails its digest, and a reliable session stores it: the chunks are its content cut at the
   chunk size.
   */
  lemma TransferDelivers(writes: seq<bytes>, frames: seq<Frame>, tail: bytes, md5: bytes -> bytes, r: Received,
                         content: map<int, bytes>, chunkSize: nat, reliable: bool)
    requires chunkSize > 0 && |md5(Flatten(writes))| == SUM_LENGTH
    requires forall i | 0 <= i < |frames| :: Carried(frames[i])
    requires DataFrames(frames) == FileFrames(writes, md5(Flatten(writes)))
    requires Reports(r, Meaning(Demux(Wire(frames) + tail).data, NoTable, [], 0), md5, content, chunkSize, reliable)
    ensures r.Stored? || r.Interrupted?
    ensures reliable ==> r.Stored?
    ensures r.Stored? ==> Stores(content, r.refs, Split(Flatten(writes), chunkSize))
  {
    var sum, more := md5(Flatten(writes)), Demux(tail).data;
    FileArrives(writes, sum, frames, tail, NoTable, []);
    hide Meaning, Demux, Wire, FileFrames, DataFrames, Stores, Split;
    assert (sum + more)[..SUM_LENGTH] == sum;
  }

  ghost function PiecesOf(content: map<int, bytes>, refs: seq<ChunkRef>): seq<bytes>
    requires forall i | 0 <= i < |refs| :: refs[i].chunkId in content
  {
    seq(|refs|, i requires 0 <= i < |refs| => content[refs[i].chunkId])
  }

  /** Whatever a receiver stored can serve as the old file of the next delta: its layout is regular. */
  lemma StoredIsRegular(content: map<int, bytes>, refs: seq<ChunkRef>, file: bytes, n: nat)
    requires n > 0 && Stores(content, refs, Split(file, n))
    ensures forall i | 0 <= i < |refs| :: refs[i].chunkId in content
    ensures Regular(PiecesOf(content, refs), n) && Flatten(PiecesOf(content, refs)) == file
  {
    SplitIsRegular(file, n);
    forall i | 0 <= i < |refs| ensures Holds(content, refs[i], i, Split(file, n)[i]) {
    }
    assert PiecesOf(content, refs) == Split(file, n);
  }
}
