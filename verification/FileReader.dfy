/** The seekable reader over a stored file (FileReader in internal/core/repo/repo.go). */
module FileReader {
  import opened Sequences
  import opened Manifest
  import opened Snapshot

  datatype Status = Ok | EndOfFile | LoadFailed | BadSeek | ReaderClosed

  datatype Whence = SeekStart | SeekCurrent | SeekEnd | Unknown

  /** Plain content of each chunk of the file, in order. */
  ghost function Plains(chunks: seq<ChunkRow>): seq<bytes> {
    seq(|chunks|, i requires 0 <= i < |chunks| => chunks[i].hash.preimage)
  }

  /** Content bytes before chunk `ci`. */
  ghost function Before(chunks: seq<ChunkRow>, ci: nat): nat
    requires ci <= |chunks|
  {
    |Flatten(Plains(chunks)[..ci])|
  }

  /** What the store guarantees of a file's chunks: sizes are true, and a readable blob has the row's content. */
  ghost predicate Sound(chunks: seq<ChunkRow>, blobs: Backend) {
    forall i | 0 <= i < |chunks| ::
      && chunks[i].size == |chunks[i].hash.preimage|
      && (Fetch(blobs, chunks[i].blobName).Some? ==> Fetch(blobs, chunks[i].blobName).value == chunks[i].hash.preimage)
  }

  /** Every chunk's blob can be fetched and opened. */
  ghost predicate AllStored(chunks: seq<ChunkRow>, blobs: Backend) {
    forall i | 0 <= i < |chunks| :: Fetch(blobs, chunks[i].blobName).Some?
  }

  lemma BeforeNext(chunks: seq<ChunkRow>, ci: nat)
    requires ci < |chunks|
    ensures Before(chunks, ci + 1) == Before(chunks, ci) + |chunks[ci].hash.preimage|
  {
    var plain := Plains(chunks);
    assert plain[..ci + 1] == plain[..ci] + [plain[ci]];
    FlattenSnoc(plain[..ci], plain[ci]);
  }

  lemma BeforeNone(chunks: seq<ChunkRow>)
    ensures Before(chunks, 0) == 0
  {
  }

  lemma ChunkInContent(chunks: seq<ChunkRow>, ci: nat, lo: nat, hi: nat)
    requires ci < |chunks| && lo <= hi <= |chunks[ci].hash.preimage|
    ensures Before(chunks, ci) + hi <= |Flatten(Plains(chunks))|
    ensures Flatten(Plains(chunks))[Before(chunks, ci) + lo..Before(chunks, ci) + hi]
      == chunks[ci].hash.preimage[lo..hi]
  {
    var plain := Plains(chunks);
    FlattenAround(plain, ci);
    SliceOfMiddle(Flatten(plain[..ci]), plain[ci], Flatten(plain[ci + 1..]), lo, hi);
  }

  lemma SliceOfMiddle(a: bytes, b: bytes, c: bytes, lo: nat, hi: nat)
    requires lo <= hi <= |b|
    ensures |a| + hi <= |a + b + c| && (a + b + c)[|a| + lo..|a| + hi] == b[lo..hi]
  {
  }

  lemma BeforeAll(chunks: seq<ChunkRow>)
    ensures Before(chunks, |chunks|) == |Flatten(Plains(chunks))|
  {
    assert Plains(chunks)[..|chunks|] == Plains(chunks);
  }

  class Reader {
    const size: int
    const chunks: seq<ChunkRow>
    const blobs: Backend
    /** A reader whose backend calls all succeed, over chunks that are all stored. */
    const reliable: bool
    var pos: int
    var buf: bytes
    var bufChunk: int
    var bufOff: nat
    var closed: bool

    /** The file as one flat byte sequence. */
    ghost function Content(): bytes {
      Flatten(Plains(chunks))
    }

    /** The cursor: inside a loaded chunk, before the first one, or parked at the end by a seek. */
    ghost predicate Valid()
      reads this
    {
      && Sound(chunks, blobs) && (reliable ==> AllStored(chunks, blobs))
      && size >= 0
      && -1 <= bufChunk <= |chunks|
      && bufOff <= |buf|
      && (bufChunk == -1 ==> buf == [] && pos == 0)
      && (0 <= bufChunk < |chunks| ==>
            buf == chunks[bufChunk].hash.preimage && pos == Before(chunks, bufChunk) + bufOff)
      && (bufChunk == |chunks| ==> buf == [] && |Content()| <= pos)
    }

    constructor (size: int, chunks: seq<ChunkRow>, blobs: Backend, reliable: bool)
      requires Sound(chunks, blobs) && size >= 0 && (reliable ==> AllStored(chunks, blobs))
      ensures Valid() && pos == 0 && !closed
      ensures this.size == size && this.chunks == chunks && this.blobs == blobs && this.reliable == reliable
    {
      this.size, this.chunks, this.blobs, this.reliable := size, chunks, blobs, reliable;
      pos, buf, bufChunk, bufOff, closed := 0, [], -1, 0, false;
    }

    /** Backend Get and Decrypt; unless reliable, either may fail at any time, and then nothing changes. */
    method LoadChunk(ci: nat) returns (ok: bool)
      requires Valid() && ci < |chunks|
      modifies this`buf, this`bufChunk, this`bufOff
      ensures ok ==> buf == chunks[ci].hash.preimage && bufChunk == ci && bufOff == 0
      ensures !ok ==> buf == old(buf) && bufChunk == old(bufChunk) && bufOff == old(bufOff) && !reliable
    {
      var failed: bool := *;
      var plain := Fetch(blobs, chunks[ci].blobName);
      ok := (reliable || !failed) && plain.Some?;
      if ok {
        buf, bufChunk, bufOff := plain.value, ci, 0;
      }
    }

    /** Moves on to the first chunk with unread bytes. */
    method FindData() returns (status: Status)
      requires Valid() && !closed
      modifies this`buf, this`bufChunk, this`bufOff
      ensures Valid()
      ensures status == Ok || status == EndOfFile || status == LoadFailed
      ensures status == Ok ==> bufOff < |buf|
      ensures status == EndOfFile ==> pos >= |Content()|
      ensures reliable ==> status != LoadFailed
    {
      hide Flatten, Plains, Before, Sound, AllStored;
      while bufOff >= |buf|
        invariant Valid()
        modifies this`buf, this`bufChunk, this`bufOff
        decreases |chunks| - bufChunk
      {
        var next := bufChunk + 1;
        if bufChunk < |chunks| {
          AtBoundary();
        }
        if next >= |chunks| {
          return EndOfFile;
        }
        var ok := LoadChunk(next);
        if !ok {
          return LoadFailed;
        }
      }
      status := Ok;
    }

    /** The next bytes of the flat file, at least one unless the file or the chunk source is exhausted. */
    method Read(p: array<byte>) returns (n: nat, status: Status)
      requires Valid()
      modifies this`pos, this`buf, this`bufChunk, this`bufOff, p
      ensures Valid() && n <= p.Length
      ensures pos == old(pos) + n
      ensures old(pos) + n <= |Content()| || n == 0
      ensures n > 0 ==> old(pos) >= 0 && p[..n] == Content()[old(pos)..old(pos) + n]
      ensures p[n..] == old(p[n..])
      ensures status == ReaderClosed <==> closed
      ensures status == Ok && p.Length > 0 ==> n > 0
      ensures status != Ok ==> n == 0 && status != BadSeek
      ensures status == EndOfFile ==> old(pos) >= |Content()|
      ensures old(pos) >= |Content()| && p.Length > 0 && !closed ==> status == EndOfFile || status == LoadFailed
      ensures reliable ==> status != LoadFailed
    {
      hide Flatten, Plains, Before, Sound, AllStored;
      if closed {
        return 0, ReaderClosed;
      }
      if p.Length == 0 {
        return 0, Ok;
      }
      status := FindData();
      if status != Ok {
        return 0, status;
      }
      n := Min(p.Length, |buf| - bufOff);
      ChunkInContent(chunks, bufChunk, bufOff, bufOff + n);
      forall i | 0 <= i < n {
        p[i] := buf[bufOff + i];
      }
      assert p[..n] == buf[bufOff..bufOff + n];
      bufOff := bufOff + n;
      pos := pos + n;
      status := Ok;
    }

    /** A used-up chunk puts the cursor exactly at the start of the next. */
    lemma AtBoundary()
      requires Valid() && bufOff >= |buf| && bufChunk < |chunks|
      ensures pos == Before(chunks, bufChunk + 1)
      ensures bufChunk + 1 == |chunks| ==> pos == |Content()|
    {
      if bufChunk >= 0 {
        BeforeNext(chunks, bufChunk);
      }
      BeforeAll(chunks);
      BeforeNone(chunks);
    }

    /** Where a seek asks to go. */
    ghost function Target(offset: int, whence: Whence): int
      reads this
    {
      match whence
      case SeekStart => offset
      case SeekCurrent => pos + offset
      case SeekEnd => size + offset
      case Unknown => -1
    }

    /** Adds up chunk sizes to the first chunk that contains `target`. */
    method Locate(target: nat) returns (acc: nat, ci: nat)
      requires Sound(chunks, blobs)
      ensures ci <= |chunks| && acc == Before(chunks, ci) <= target
      ensures ci < |chunks| ==> target < acc + |chunks[ci].hash.preimage|
      ensures ci == |chunks| ==> acc == |Content()|
    {
      acc, ci := 0, 0;
      BeforeAll(chunks);
      BeforeNone(chunks);
      hide Flatten, Plains, Before;
      while ci < |chunks| && acc + chunks[ci].size <= target
        invariant 0 <= ci <= |chunks|
        invariant acc == Before(chunks, ci) <= target
      {
        BeforeNext(chunks, ci);
        acc := acc + chunks[ci].size;
        ci := ci + 1;
      }
    }

    /**
     Moves the cursor to the target, cut back to the recorded size; a refused or failed seek leaves
     it where it was.
     */
    method Seek(offset: int, whence: Whence) returns (at: int, status: Status)
      requires Valid()
      modifies this`pos, this`buf, this`bufChunk, this`bufOff
      ensures Valid()
      ensures status == ReaderClosed <==> closed
      ensures status == BadSeek <==> !closed && old(Target(offset, whence)) < 0
      ensures status == Ok ==> pos == Min(old(Target(offset, whence)), size) && at == pos
      ensures status != Ok ==> pos == old(pos) && buf == old(buf) && bufChunk == old(bufChunk) && bufOff == old(bufOff)
      ensures status != EndOfFile && (reliable ==> status != LoadFailed)
    {
      hide Flatten, Plains, Before, Sound, AllStored;
      if closed {
        return 0, ReaderClosed;
      }
      var target;
      match whence {
        case SeekStart => target := offset;
        case SeekCurrent => target := pos + offset;
        case SeekEnd => target := size + offset;
        case Unknown => return pos, BadSeek;
      }
      if target < 0 {
        return pos, BadSeek;
      }
      if target > size {
        target := size;
      }
      var acc, ci := Locate(target);
      if ci >= |chunks| {
        buf, bufChunk, bufOff := [], |chunks|, 0;
        pos := target;
        return pos, Ok;
      }
      var ok := LoadChunk(ci);
      if !ok {
        return pos, LoadFailed;
      }
      bufOff := target - acc;
      pos := target;
      return pos, Ok;
    }

    method Close()
      modifies this`closed
      ensures closed
    {
      closed := true;
    }
  }

  ghost predicate AllPositive(sizes: seq<nat>) {
    forall i | 0 <= i < |sizes| :: sizes[i] > 0
  }

  /**
   Reading with any buffer sizes until end of file yields the rest of the flat file. On a reliable
   reader end of file is reached after at most one read more than there are bytes left.
   */
  method ReadToEnd(f: Reader, sizes: seq<nat>) returns (out: bytes, status: Status)
    requires f.Valid() && 0 <= f.pos
    modifies f
    ensures f.Valid()
    ensures status == EndOfFile && old(f.pos) <= |f.Content()| ==> out == f.Content()[old(f.pos)..]
    ensures old(f.pos) + |out| <= |f.Content()| ==> out == f.Content()[old(f.pos)..old(f.pos) + |out|]
    ensures f.reliable && !f.closed && AllPositive(sizes) && old(f.pos) + |sizes| > |f.Content()| && |sizes| > 0 ==>
      status == EndOfFile
  {
    hide Flatten, Plains, Before, Sound, AllStored, Reader.Valid, Reader.Content;
    out, status := [], Ok;
    ghost var start := f.pos;
    for i := 0 to |sizes|
      invariant f.Valid() && f.pos == start + |out| && status == Ok && f.closed == old(f.closed)
      invariant out != [] ==> start + |out| <= |f.Content()| && out == f.Content()[start..start + |out|]
      invariant AllPositive(sizes) ==> |out| >= i
    {
      var p := new byte[sizes[i]](_ => 0);
      var n, s := f.Read(p);
      ghost var content := f.Content();
      if n > 0 {
        SliceJoin(content, start, start + |out|, start + |out| + n);
      }
      if s != Ok {
        assert start + |out| == |content| ==> content[start..start + |out|] == content[start..];
        return out, s;
      }
      out := out + p[..n];
    }
  }
}
