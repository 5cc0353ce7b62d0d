/**
 The CRYM container (internal/core/crypto/meta.go): a header and a run of authenticated frames,
 ended by an empty final frame. The cipher is an AEAD as in section 2 of RFC 5116, kept abstract.
 */
module MetaContainer {
  import opened Sequences
  import opened Streams

  const FRAME_SIZE: nat := 0x10_0000
  const HEADER_LEN: nat := 25
  const NONCE_LEN: nat := 12
  const OVERHEAD: nat := 16
  const VERSION: byte := 1

  function Magic(): (r: bytes)
    ensures |r| == 4
  {
    [67, 82, 89, 77]
  }

  /** "crysync/meta/v1" and a NUL. */
  function Label(): (r: bytes)
    ensures |r| == 16
  {
    [99, 114, 121, 115, 121, 110, 99, 47, 109, 101, 116, 97, 47, 118, 49, 0]
  }

  // --------------------------------------------------------------- big-endian

  function BE(x: nat, n: nat): (r: bytes)
    ensures |r| == n
  {
    if n == 0 then [] else BE(x / 256, n - 1) + [x % 256]
  }

  function BEValue(s: bytes): nat {
    if s == [] then 0 else 256 * BEValue(s[..|s| - 1]) + s[|s| - 1]
  }

  lemma {:induction false} BERoundTrip(x: nat, n: nat)
    requires x < P(n)
    ensures BEValue(BE(x, n)) == x
  {
    if n > 0 {
      BERoundTrip(x / 256, n - 1);
      assert BE(x, n)[..n - 1] == BE(x / 256, n - 1);
    }
  }

  // --------------------------------------------------------------------- the AEAD

  /** seal(nonce, plaintext, associated data) and open(nonce, sealed, associated data). */
  datatype Aead = Aead(seal: (bytes, bytes, bytes) -> bytes, open: (bytes, bytes, bytes) -> Option<bytes>)

  /** Opening inverts sealing, and a sealed text is longer by the tag. */
  ghost predicate Correct(c: Aead) {
    && (forall n: bytes, p: bytes, a: bytes ::
          c.open(n, c.seal(n, p, a), a) == Some(p) && |c.seal(n, p, a)| == |p| + OVERHEAD)
    && (forall n: bytes, s: bytes, a: bytes :: c.open(n, s, a).Some? ==> |s| == |c.open(n, s, a).value| + OVERHEAD)
  }

  // -------------------------------------------------------------- associated data

  function Aad(repo: bytes, name: bytes, index: nat, last: bool): bytes {
    Label() + repo + [0] + name + BE(index % TWO_64, 8) + [if last then 1 else 0]
  }

  lemma AadParts(repo: bytes, name: bytes, index: nat, last: bool)
    requires |repo| == 16
    ensures var a := Aad(repo, name, index, last); var n := |a|;
      && n == 42 + |name|
      && a[16..32] == repo && a[33..n - 9] == name
      && a[n - 9..n - 1] == BE(index % TWO_64, 8) && a[n - 1] == if last then 1 else 0
  {
  }

  /** The associated data says exactly which frame of which container it belongs to. */
  lemma AadInjective(repo: bytes, name: bytes, index: nat, last: bool, repo': bytes, name': bytes, index': nat,
      last': bool)
    requires |repo| == 16 && |repo'| == 16 && index < TWO_64 && index' < TWO_64
    requires Aad(repo, name, index, last) == Aad(repo', name', index', last')
    ensures repo == repo' && name == name' && index == index' && last == last'
  {
    AadParts(repo, name, index, last);
    AadParts(repo', name', index', last');
    Powers();
    BERoundTrip(index, 8);
    BERoundTrip(index', 8);
    SmallMod(index, TWO_64);
    SmallMod(index', TWO_64);
    hide Aad, BE, BEValue, P;
  }

  // ------------------------------------------------------------------- encryption

  function Header(repo: bytes): bytes {
    Magic() + [VERSION] + repo + BE(FRAME_SIZE, 4)
  }

  function Frame(c: Aead, repo: bytes, name: bytes, index: nat, last: bool, nonce: bytes, plain: bytes): bytes {
    BE(|plain|, 4) + nonce + c.seal(nonce, plain, Aad(repo, name, index, last))
  }

  /** Data frames numbered from `index`, then the final one; one nonce each. */
  function Frames(c: Aead, repo: bytes, name: bytes, index: nat, pieces: seq<bytes>, nonces: seq<bytes>): bytes
    requires |nonces| == |pieces| + 1
    decreases |pieces|
  {
    if pieces == [] then Frame(c, repo, name, index, true, nonces[0], [])
    else
      Frame(c, repo, name, index, false, nonces[0], pieces[0])
      + Frames(c, repo, name, index + 1, pieces[1..], nonces[1..])
  }

  function Container(c: Aead, repo: bytes, name: bytes, data: bytes, nonces: seq<bytes>): bytes
    requires |nonces| == |Split(data, FRAME_SIZE)| + 1
  {
    Header(repo) + Frames(c, repo, name, 0, Split(data, FRAME_SIZE), nonces)
  }

  // ------------------------------------------------------------------- decryption

  /** The frames of a container from `index` on, when all are authentic and the final one ends the stream. */
  function OpenFrames(c: Aead, repo: bytes, name: bytes, index: nat, s: bytes): Option<bytes>
    decreases |s|
  {
    if |s| < 4 then None
    else
      var n := BEValue(s[..4]);
      if n > FRAME_SIZE || |s| < 4 + NONCE_LEN + n + OVERHEAD then None
      else
        var nonce := s[4..4 + NONCE_LEN];
        var sealed := s[4 + NONCE_LEN..4 + NONCE_LEN + n + OVERHEAD];
        var rest := s[4 + NONCE_LEN + n + OVERHEAD..];
        match c.open(nonce, sealed, Aad(repo, name, index, n == 0))
        case None => None
        case Some(plain) =>
          if n == 0 then (if rest == [] then Some([]) else None)
          else
            match OpenFrames(c, repo, name, index + 1, rest)
            case None => None
            case Some(more) => Some(plain + more)
  }

  datatype Opened = Opened(repo: bytes, data: bytes)

  /** DecryptMeta: repository id from the header, data from the frames. */
  function Decrypt(c: Aead, name: bytes, s: bytes): Option<Opened> {
    if |s| < HEADER_LEN then None
    else if s[..4] != Magic() || s[4] != VERSION || BEValue(s[21..25]) != FRAME_SIZE then None
    else
      match OpenFrames(c, s[5..21], name, 0, s[25..])
      case None => None
      case Some(data) => Some(Opened(s[5..21], data))
  }

  // ------------------------------------------------------------------- round trip

  lemma FrameParts(c: Aead, repo: bytes, name: bytes, index: nat, last: bool, nonce: bytes, plain: bytes, tail: bytes)
    requires Correct(c) && |nonce| == NONCE_LEN && |plain| <= FRAME_SIZE
    ensures var s := Frame(c, repo, name, index, last, nonce, plain) + tail; var n := |plain|;
      && |s| >= 4 && BEValue(s[..4]) == n && |s| >= 4 + NONCE_LEN + n + OVERHEAD
      && s[4..4 + NONCE_LEN] == nonce
      && c.open(nonce, s[4 + NONCE_LEN..4 + NONCE_LEN + n + OVERHEAD], Aad(repo, name, index, last)) == Some(plain)
      && s[4 + NONCE_LEN + n + OVERHEAD..] == tail
  {
    var s := Frame(c, repo, name, index, last, nonce, plain) + tail;
    var sealed := c.seal(nonce, plain, Aad(repo, name, index, last));
    Powers();
    assert |plain| < P(4);
    BERoundTrip(|plain|, 4);
    hide Aad, BE, BEValue, P;
    Cut(BE(|plain|, 4), nonce, sealed, tail);
  }

  lemma Cut(a: bytes, b: bytes, d: bytes, tail: bytes)
    ensures var s := (a + b + d) + tail;
      s[..|a|] == a && s[|a|..|a| + |b|] == b && s[|a| + |b|..|a| + |b| + |d|] == d && s[|a| + |b| + |d|..] == tail
  {
  }

  lemma {:induction false} FramesOpen(c: Aead, repo: bytes, name: bytes, index: nat, pieces: seq<bytes>,
      nonces: seq<bytes>)
    requires Correct(c) && |nonces| == |pieces| + 1
    requires forall i | 0 <= i < |nonces| :: |nonces[i]| == NONCE_LEN
    requires forall i | 0 <= i < |pieces| :: 0 < |pieces[i]| <= FRAME_SIZE
    ensures OpenFrames(c, repo, name, index, Frames(c, repo, name, index, pieces, nonces)) == Some(Flatten(pieces))
    decreases |pieces|
  {
    if pieces == [] {
      var f := Frame(c, repo, name, index, true, nonces[0], []);
      FrameParts(c, repo, name, index, true, nonces[0], [], []);
      assert f + [] == f;
      hide Frame, Aad, Correct;
    } else {
      FrameParts(c, repo, name, index, false, nonces[0], pieces[0],
        Frames(c, repo, name, index + 1, pieces[1..], nonces[1..]));
      hide Frame, Aad;
      FramesOpen(c, repo, name, index + 1, pieces[1..], nonces[1..]);
    }
  }

  lemma HeaderParts(repo: bytes, tail: bytes)
    requires |repo| == 16
    ensures var s := Header(repo) + tail;
      |s| >= HEADER_LEN && s[..4] == Magic() && s[4] == VERSION && s[5..21] == repo
      && BEValue(s[21..25]) == FRAME_SIZE && s[25..] == tail
  {
    Powers();
    BERoundTrip(FRAME_SIZE, 4);
    var size := BE(FRAME_SIZE, 4);
    hide BE, BEValue, P, Magic;
    var s := Header(repo) + tail;
    assert s[21..25] == size;
  }

  /** What was encrypted for a name decrypts under that name, whatever its length and the nonces drawn. */
  lemma RoundTrip(c: Aead, repo: bytes, name: bytes, data: bytes, nonces: seq<bytes>)
    requires Correct(c) && |repo| == 16
    requires |nonces| == |Split(data, FRAME_SIZE)| + 1 && forall i | 0 <= i < |nonces| :: |nonces[i]| == NONCE_LEN
    ensures Decrypt(c, name, Container(c, repo, name, data, nonces)) == Some(Opened(repo, data))
  {
    var pieces := Split(data, FRAME_SIZE);
    SplitIsRegular(data, FRAME_SIZE);
    assert forall i | 0 <= i < |pieces| :: 0 < |pieces[i]| <= FRAME_SIZE;
    hide Split, Correct, Header, Frames, OpenFrames, BEValue, Regular;
    FramesOpen(c, repo, name, 0, pieces, nonces);
    HeaderParts(repo, Frames(c, repo, name, 0, pieces, nonces));
  }

  // ------------------------------------------------------------- no cut, no addition

  lemma {:induction false} FramesPrefixFree(c: Aead, repo: bytes, name: bytes, index: nat, s: bytes, more: bytes)
    requires OpenFrames(c, repo, name, index, s).Some? && OpenFrames(c, repo, name, index, s + more).Some?
    ensures more == []
    decreases |s|
  {
    var n := BEValue(s[..4]);
    var end := 4 + NONCE_LEN + n + OVERHEAD;
    var t := s + more;
    assert t[..4] == s[..4] && t[4..4 + NONCE_LEN] == s[4..4 + NONCE_LEN];
    assert t[4 + NONCE_LEN..end] == s[4 + NONCE_LEN..end];
    assert t[end..] == s[end..] + more;
    if n > 0 {
      FramesPrefixFree(c, repo, name, index + 1, s[end..], more);
    }
  }

  /** Of two accepted byte strings neither is a strict prefix of the other: nothing can be cut off or added. */
  lemma PrefixFree(c: Aead, name: bytes, s: bytes, more: bytes)
    requires Decrypt(c, name, s).Some? && more != []
    ensures Decrypt(c, name, s + more).None?
  {
    var t := s + more;
    assert t[..4] == s[..4] && t[4] == s[4] && t[5..21] == s[5..21] && t[21..25] == s[21..25]
      && t[25..] == s[25..] + more;
    if Decrypt(c, name, t).Some? {
      FramesPrefixFree(c, s[5..21], name, 0, s[25..], more);
    }
  }

  lemma NoPrefixAccepted(c: Aead, name: bytes, s: bytes, k: nat)
    requires Decrypt(c, name, s).Some? && k < |s|
    ensures Decrypt(c, name, s[..k]).None?
  {
    assert s[..k] + s[k..] == s;
    if Decrypt(c, name, s[..k]).Some? {
      PrefixFree(c, name, s[..k], s[k..]);
    }
  }

  // ------------------------------------------------------------------ authenticity

  /** One use of the sealing key. */
  datatype Sealing = Sealing(aad: bytes, plain: bytes)

  /** The frames a reader of `s` opens: what each was opened as, and with which associated data. */
  function OpenedFrames(c: Aead, repo: bytes, name: bytes, index: nat, s: bytes): seq<Sealing>
    decreases |s|
  {
    if |s| < 4 then []
    else
      var n := BEValue(s[..4]);
      if n > FRAME_SIZE || |s| < 4 + NONCE_LEN + n + OVERHEAD then []
      else
        var a := Aad(repo, name, index, n == 0);
        match c.open(s[4..4 + NONCE_LEN], s[4 + NONCE_LEN..4 + NONCE_LEN + n + OVERHEAD], a)
        case None => []
        case Some(plain) =>
          [Sealing(a, plain)] + if n == 0 then []
            else OpenedFrames(c, repo, name, index + 1, s[4 + NONCE_LEN + n + OVERHEAD..])
  }

  /**
   Nothing in `s` is a forgery: every frame its reader opens was sealed, with that content, by a
   holder of the key.
   */
  ghost predicate Unforged(c: Aead, sealings: set<Sealing>, name: bytes, s: bytes) {
    |s| >= HEADER_LEN ==> AllSealed(sealings, OpenedFrames(c, s[5..21], name, 0, s[25..]))
  }

  ghost predicate AllSealed(sealings: set<Sealing>, frames: seq<Sealing>) {
    forall i | 0 <= i < |frames| :: frames[i] in sealings
  }

  /** The frames one run of EncryptMeta seals. */
  ghost predicate FromRun(x: Sealing, repo: bytes, name: bytes, pieces: seq<bytes>) {
    || x == Sealing(Aad(repo, name, |pieces|, true), [])
    || exists i: nat :: i < |pieces| && x == Sealing(Aad(repo, name, i, false), pieces[i])
  }

  /** Among all sealings for containers of this name, only those of one run. */
  ghost predicate OnlyRun(sealings: set<Sealing>, repo: bytes, name: bytes, pieces: seq<bytes>) {
    forall x, repo', i: nat, last |
        x in sealings && x.aad == Aad(repo', name, i, last) && |repo'| == 16 && i < TWO_64 ::
      FromRun(x, repo, name, pieces)
  }

  /** A sealed frame at position `index` is that frame of the run. */
  lemma FrameIsOurs(sealings: set<Sealing>, repo: bytes, repo': bytes, name: bytes, pieces: seq<bytes>,
                    index: nat, last: bool, plain: bytes)
    requires OnlyRun(sealings, repo, name, pieces)
    requires |repo| == 16 && |repo'| == 16 && index < TWO_64 && |pieces| < TWO_64
    requires Sealing(Aad(repo', name, index, last), plain) in sealings
    ensures repo' == repo
    ensures last ==> index == |pieces|
    ensures !last ==> index < |pieces| && plain == pieces[index]
  {
    var x := Sealing(Aad(repo', name, index, last), plain);
    assert FromRun(x, repo, name, pieces);
    if x == Sealing(Aad(repo, name, |pieces|, true), []) {
      AadInjective(repo', name, index, last, repo, name, |pieces|, true);
    } else {
      var i: nat :| i < |pieces| && x == Sealing(Aad(repo, name, i, false), pieces[i]);
      AadInjective(repo', name, index, last, repo, name, i, false);
    }
  }

  lemma AllSealedParts(sealings: set<Sealing>, x: Sealing, rest: seq<Sealing>)
    ensures AllSealed(sealings, [x] + rest) <==> x in sealings && AllSealed(sealings, rest)
  {
    var all := [x] + rest;
    if AllSealed(sealings, all) {
      assert all[0] == x;
      forall i | 0 <= i < |rest| ensures rest[i] in sealings {
        assert all[i + 1] == rest[i];
      }
    }
  }

  /** One frame of an accepted stream. */
  lemma OpenStep(c: Aead, repo: bytes, name: bytes, index: nat, s: bytes)
      returns (last: bool, plain: bytes, rest: bytes)
    requires OpenFrames(c, repo, name, index, s).Some?
    ensures last ==> OpenedFrames(c, repo, name, index, s) == [Sealing(Aad(repo, name, index, last), plain)] + []
    ensures !last ==>
      OpenedFrames(c, repo, name, index, s)
        == [Sealing(Aad(repo, name, index, last), plain)] + OpenedFrames(c, repo, name, index + 1, rest)
    ensures last ==> OpenFrames(c, repo, name, index, s).value == []
    ensures !last ==> |rest| < |s| && OpenFrames(c, repo, name, index + 1, rest).Some?
    ensures !last ==>
      OpenFrames(c, repo, name, index, s).value == plain + OpenFrames(c, repo, name, index + 1, rest).value
  {
    var n := BEValue(s[..4]);
    var end := 4 + NONCE_LEN + n + OVERHEAD;
    hide Aad, BEValue;
    last, rest := n == 0, s[end..];
    plain := c.open(s[4..4 + NONCE_LEN], s[4 + NONCE_LEN..end], Aad(repo, name, index, last)).value;
  }

  lemma {:induction false} FramesAreOurs(c: Aead, sealings: set<Sealing>, repo: bytes, repo': bytes, name: bytes,
      pieces: seq<bytes>, index: nat, s: bytes)
    requires AllSealed(sealings, OpenedFrames(c, repo', name, index, s)) && OnlyRun(sealings, repo, name, pieces)
    requires |repo| == 16 && |repo'| == 16 && index + |s| < TWO_64 && |pieces| < TWO_64
    requires OpenFrames(c, repo', name, index, s).Some?
    ensures repo' == repo && index <= |pieces|
    ensures OpenFrames(c, repo', name, index, s).value == Flatten(pieces[index..])
    decreases |s|
  {
    var last, plain, rest := OpenStep(c, repo', name, index, s);
    var x := Sealing(Aad(repo', name, index, last), plain);
    hide OnlyRun, Aad, OpenFrames, OpenedFrames, AllSealed;
    if last {
      AllSealedParts(sealings, x, []);
      FrameIsOurs(sealings, repo, repo', name, pieces, index, last, plain);
      assert pieces[index..] == [];
    } else {
      AllSealedParts(sealings, x, OpenedFrames(c, repo', name, index + 1, rest));
      FrameIsOurs(sealings, repo, repo', name, pieces, index, last, plain);
      FramesAreOurs(c, sealings, repo, repo', name, pieces, index + 1, rest);
      assert pieces[index..][1..] == pieces[index + 1..];
    }
  }

  /**
   Unless some frame is a forgery, whatever container is accepted under a name is the complete run
   written for that name, frames in order: not another repository's, nor reordered, nor cut.
   */
  lemma AcceptedIsTheRun(c: Aead, sealings: set<Sealing>, repo: bytes, name: bytes, data: bytes, s: bytes)
    requires Correct(c) && |repo| == 16 && |s| < TWO_64 && |data| < TWO_64
    requires OnlyRun(sealings, repo, name, Split(data, FRAME_SIZE)) && Unforged(c, sealings, name, s)
    requires Decrypt(c, name, s).Some?
    ensures Decrypt(c, name, s).value == Opened(repo, data)
  {
    var pieces := Split(data, FRAME_SIZE);
    RunPieces(data);
    var id, body := DecryptShape(c, sealings, name, s);
    hide *;
    WholeRun(c, sealings, repo, id, name, pieces, body);
  }

  lemma WholeRun(c: Aead, sealings: set<Sealing>, repo: bytes, repo': bytes, name: bytes, pieces: seq<bytes>,
      body: bytes)
    requires AllSealed(sealings, OpenedFrames(c, repo', name, 0, body)) && OnlyRun(sealings, repo, name, pieces)
    requires |repo| == 16 && |repo'| == 16 && |body| < TWO_64 && |pieces| < TWO_64
    requires OpenFrames(c, repo', name, 0, body).Some?
    ensures repo' == repo && OpenFrames(c, repo', name, 0, body).value == Flatten(pieces)
  {
    hide *;
    FramesAreOurs(c, sealings, repo, repo', name, pieces, 0, body);
    assert pieces[0..] == pieces;
  }

  /** The sealings of one run. */
  ghost function RunSealings(repo: bytes, name: bytes, pieces: seq<bytes>): set<Sealing> {
    (set i: nat | i < |pieces| :: Sealing(Aad(repo, name, i, false), pieces[i])) +
      {Sealing(Aad(repo, name, |pieces|, true), [])}
  }

  lemma {:induction false} EmittedFrames(c: Aead, repo: bytes, name: bytes, all: seq<bytes>, index: nat,
      nonces: seq<bytes>)
    requires Correct(c) && index <= |all| && |nonces| == |all| - index + 1
    requires forall i | 0 <= i < |nonces| :: |nonces[i]| == NONCE_LEN
    requires forall i | 0 <= i < |all| :: 0 < |all[i]| <= FRAME_SIZE
    ensures AllSealed(RunSealings(repo, name, all),
      OpenedFrames(c, repo, name, index, Frames(c, repo, name, index, all[index..], nonces)))
    decreases |all| - index
  {
    var run := RunSealings(repo, name, all);
    if index == |all| {
      assert all[index..] == [];
      var f := Frame(c, repo, name, index, true, nonces[0], []);
      FrameParts(c, repo, name, index, true, nonces[0], [], []);
      assert f + [] == f;
      hide Frame, Aad, Correct;
    } else {
      var rest := Frames(c, repo, name, index + 1, all[index + 1..], nonces[1..]);
      assert all[index..][1..] == all[index + 1..] && all[index..][0] == all[index];
      var x := Sealing(Aad(repo, name, index, false), all[index]);
      EmittedFrames(c, repo, name, all, index + 1, nonces[1..]);
      assert x in run;
      DataFrameOpens(c, repo, name, index, nonces[0], all[index], rest);
      hide Frame, Aad, Correct, RunSealings, OpenedFrames, AllSealed;
      AllSealedParts(run, x, OpenedFrames(c, repo, name, index + 1, rest));
    }
  }

  lemma DataFrameOpens(c: Aead, repo: bytes, name: bytes, index: nat, nonce: bytes, plain: bytes, rest: bytes)
    requires Correct(c) && |nonce| == NONCE_LEN && 0 < |plain| <= FRAME_SIZE
    ensures OpenedFrames(c, repo, name, index, Frame(c, repo, name, index, false, nonce, plain) + rest) ==
      [Sealing(Aad(repo, name, index, false), plain)] + OpenedFrames(c, repo, name, index + 1, rest)
  {
    FrameParts(c, repo, name, index, false, nonce, plain, rest);
    hide Frame, Aad, Correct, BEValue;
  }

  /** The hypotheses of AcceptedIsTheRun are met by what EncryptMeta itself writes, with a cipher that is correct. */
  lemma EmittedIsUnforged(c: Aead, repo: bytes, name: bytes, data: bytes, nonces: seq<bytes>)
    requires Correct(c) && |repo| == 16
    requires |nonces| == |Split(data, FRAME_SIZE)| + 1 && forall i | 0 <= i < |nonces| :: |nonces[i]| == NONCE_LEN
    ensures var run := RunSealings(repo, name, Split(data, FRAME_SIZE));
      && OnlyRun(run, repo, name, Split(data, FRAME_SIZE))
      && Unforged(c, run, name, Container(c, repo, name, data, nonces))
  {
    var pieces := Split(data, FRAME_SIZE);
    SplitIsRegular(data, FRAME_SIZE);
    assert forall i | 0 <= i < |pieces| :: 0 < |pieces[i]| <= FRAME_SIZE;
    RunIsOnly(repo, name, pieces);
    assert pieces[0..] == pieces;
    hide Split, Correct, Header, Frames, OpenedFrames, BEValue, Regular, RunSealings, OnlyRun, Aad;
    EmittedFrames(c, repo, name, pieces, 0, nonces);
    HeaderParts(repo, Frames(c, repo, name, 0, pieces, nonces));
  }

  lemma RunIsOnly(repo: bytes, name: bytes, pieces: seq<bytes>)
    ensures OnlyRun(RunSealings(repo, name, pieces), repo, name, pieces)
  {
    hide Aad;
  }

  lemma RunPieces(data: bytes)
    ensures Flatten(Split(data, FRAME_SIZE)) == data && |Split(data, FRAME_SIZE)| <= |data|
  {
    SplitIsRegular(data, FRAME_SIZE);
    FewPieces(Split(data, FRAME_SIZE));
  }

  lemma DecryptShape(c: Aead, sealings: set<Sealing>, name: bytes, s: bytes) returns (id: bytes, body: bytes)
    requires Decrypt(c, name, s).Some? && Unforged(c, sealings, name, s)
    ensures |id| == 16 && |body| <= |s| && OpenFrames(c, id, name, 0, body).Some?
    ensures AllSealed(sealings, OpenedFrames(c, id, name, 0, body))
    ensures Decrypt(c, name, s).value == Opened(id, OpenFrames(c, id, name, 0, body).value)
  {
    id, body := s[5..21], s[25..];
    hide OpenFrames, OpenedFrames, AllSealed;
  }

  lemma {:induction false} FewPieces(pieces: seq<bytes>)
    requires forall i | 0 <= i < |pieces| :: |pieces[i]| > 0
    ensures |pieces| <= |Flatten(pieces)|
    decreases |pieces|
  {
    if pieces != [] {
      FewPieces(pieces[1..]);
    }
  }

  // -------------------------------------------------------------------- the loops

  /** The reading loop: whole frames, then a short one, each sealed under its number. */
  method WriteDataFrames(c: Aead, sink: ByteSink, src: ByteSource, name: bytes, repo: bytes)
      returns (index: nat, ghost nonces: seq<bytes>)
    modifies sink, src
    ensures |nonces| == index == |Split(old(src.rest), FRAME_SIZE)|
    ensures forall i | 0 <= i < |nonces| :: |nonces[i]| == NONCE_LEN
    ensures sink.out == old(sink.out) + DataFrames(c, repo, name, Split(old(src.rest), FRAME_SIZE), nonces)
  {
    index, nonces := 0, [];
    ghost var start, all := sink.out, src.rest;
    ghost var done: seq<bytes>, body: bytes := [], [];
    var more := true;
    assert Flatten(done) + src.rest == all && start + body == start;
    assert body == DataFrames(c, repo, name, done, nonces);
    hide Split, Frame, Flatten, DataFrames;
    while more
      invariant |nonces| == |done| == index && (forall i | 0 <= i < |nonces| :: |nonces[i]| == NONCE_LEN)
      invariant sink.out == start + body && body == DataFrames(c, repo, name, done, nonces)
      invariant Flatten(done) + src.rest == all
      invariant more ==> Full(done, FRAME_SIZE)
      invariant !more ==> done == Split(all, FRAME_SIZE)
      decreases more, |src.rest|
    {
      ghost var rest := src.rest;
      var buf := src.ReadUpTo(FRAME_SIZE);
      if |buf| < FRAME_SIZE {
        SplitAfterFull(done, buf, FRAME_SIZE);
        assert buf == rest && done + [] == done;
      }
      if |buf| > 0 {
        var nonce := WriteMetaFrame(c, sink, repo, name, index, false, buf);
        DataFramesSnoc(c, repo, name, done, nonces, buf, nonce);
        ghost var f := Frame(c, repo, name, index, false, nonce, buf);
        Assoc(start, body, f);
        body := body + f;
        FlattenSnoc(done, buf);
        TakeDrop(Flatten(done), rest, |buf|);
        done, nonces := done + [buf], nonces + [nonce];
        index := index + 1;
      }
      more := |buf| == FRAME_SIZE;
    }
  }

  /** Writing a container; the nonces are what the random source yields. Only a bad repository id is refused. */
  method EncryptMeta(c: Aead, sink: ByteSink, src: ByteSource, name: bytes, repo: bytes)
      returns (ok: bool, ghost nonces: seq<bytes>)
    modifies sink, src
    ensures ok <==> |repo| == 16
    ensures !ok ==> sink.out == old(sink.out)
    ensures ok ==>
      |nonces| == |Split(old(src.rest), FRAME_SIZE)| + 1 && (forall i | 0 <= i < |nonces| :: |nonces[i]| == NONCE_LEN)
    ensures ok ==> sink.out == old(sink.out) + Container(c, repo, name, old(src.rest), nonces)
  {
    nonces := [];
    if |repo| != 16 {
      return false, [];
    }
    ghost var start, pieces := sink.out, Split(src.rest, FRAME_SIZE);
    sink.Write(Header(repo));
    var index;
    index, nonces := WriteDataFrames(c, sink, src, name, repo);
    var nonce := WriteMetaFrame(c, sink, repo, name, index, true, []);
    FramesAreData(c, repo, name, 0, pieces, nonces, nonce);
    assert pieces[..0] == [] && nonces[..0] == [] && pieces[0..] == pieces
      && (nonces + [nonce])[0..] == nonces + [nonce];
    hide Header, Split, Frame, Frames;
    ghost var body, f := DataFrames(c, repo, name, pieces, nonces), Frame(c, repo, name, index, true, nonce, []);
    assert [] + Frames(c, repo, name, 0, pieces, nonces + [nonce])
      == Frames(c, repo, name, 0, pieces, nonces + [nonce]);
    Assoc(start + Header(repo), body, f);
    Assoc(start, Header(repo), body + f);
    nonces := nonces + [nonce];
    ok := true;
  }

  /** The data frames written so far. */
  ghost function DataFrames(c: Aead, repo: bytes, name: bytes, pieces: seq<bytes>, nonces: seq<bytes>): bytes
    requires |nonces| == |pieces|
  {
    if pieces == [] then []
    else
      var n := |pieces| - 1;
      DataFrames(c, repo, name, pieces[..n], nonces[..n]) + Frame(c, repo, name, n, false, nonces[n], pieces[n])
  }

  lemma DataFramesSnoc(c: Aead, repo: bytes, name: bytes, pieces: seq<bytes>, nonces: seq<bytes>, piece: bytes,
      nonce: bytes)
    requires |nonces| == |pieces|
    ensures DataFrames(c, repo, name, pieces + [piece], nonces + [nonce]) ==
      DataFrames(c, repo, name, pieces, nonces) + Frame(c, repo, name, |pieces|, false, nonce, piece)
  {
    assert (pieces + [piece])[..|pieces|] == pieces && (nonces + [nonce])[..|nonces|] == nonces;
  }

  /** Written front to back or defined back to front: the same frames. */
  lemma {:induction false} FramesAreData(c: Aead, repo: bytes, name: bytes, from: nat, pieces: seq<bytes>,
      nonces: seq<bytes>, nonce: bytes)
    requires |nonces| == |pieces| && from <= |pieces|
    ensures DataFrames(c, repo, name, pieces, nonces) + Frame(c, repo, name, |pieces|, true, nonce, []) ==
      DataFrames(c, repo, name, pieces[..from], nonces[..from]) +
        Frames(c, repo, name, from, pieces[from..], (nonces + [nonce])[from..])
    decreases |pieces| - from
  {
    hide Frame;
    if from == |pieces| {
      assert pieces[..from] == pieces && nonces[..from] == nonces && pieces[from..] == [];
      assert (nonces + [nonce])[from..] == [nonce];
    } else {
      FramesAreData(c, repo, name, from + 1, pieces, nonces, nonce);
      var f := Frame(c, repo, name, from, false, nonces[from], pieces[from]);
      OneFrameOn(c, repo, name, from, pieces, nonces, nonce);
      Assoc(DataFrames(c, repo, name, pieces[..from], nonces[..from]), f,
           Frames(c, repo, name, from + 1, pieces[from + 1..], (nonces + [nonce])[from + 1..]));
    }
  }

  lemma OneFrameOn(c: Aead, repo: bytes, name: bytes, from: nat, pieces: seq<bytes>, nonces: seq<bytes>, nonce: bytes)
    requires |nonces| == |pieces| && from < |pieces|
    ensures var f := Frame(c, repo, name, from, false, nonces[from], pieces[from]);
      && DataFrames(c, repo, name, pieces[..from + 1], nonces[..from + 1])
        == DataFrames(c, repo, name, pieces[..from], nonces[..from]) + f
      && Frames(c, repo, name, from, pieces[from..], (nonces + [nonce])[from..]) ==
           f + Frames(c, repo, name, from + 1, pieces[from + 1..], (nonces + [nonce])[from + 1..])
  {
    hide Frame;
    assert pieces[..from + 1] == pieces[..from] + [pieces[from]]
      && nonces[..from + 1] == nonces[..from] + [nonces[from]];
    DataFramesSnoc(c, repo, name, pieces[..from], nonces[..from], pieces[from], nonces[from]);
    assert pieces[from..][1..] == pieces[from + 1..]
      && (nonces + [nonce])[from..][1..] == (nonces + [nonce])[from + 1..];
  }

  method WriteMetaFrame(c: Aead, sink: ByteSink, repo: bytes, name: bytes, index: nat, last: bool, plain: bytes)
      returns (nonce: bytes)
    modifies sink
    ensures |nonce| == NONCE_LEN
    ensures sink.out == old(sink.out) + Frame(c, repo, name, index, last, nonce, plain)
  {
    nonce := RandomNonce();
    ghost var start := sink.out;
    sink.Write(BE(|plain|, 4));
    sink.Write(nonce);
    var sealed := c.seal(nonce, plain, Aad(repo, name, index, last));
    sink.Write(sealed);
    hide Aad, BE;
    Assoc(start, BE(|plain|, 4), nonce);
    Assoc(start, BE(|plain|, 4) + nonce, sealed);
  }

  /** crypto/rand: any value. */
  method RandomNonce() returns (nonce: bytes)
    ensures |nonce| == NONCE_LEN
  {
    nonce := [];
    while |nonce| < NONCE_LEN
      invariant |nonce| <= NONCE_LEN
    {
      var b: byte := *;
      nonce := nonce + [b];
    }
  }

  /** Reading a container frame by frame; the plaintext goes out as it is authenticated. */
  method DecryptMeta(c: Aead, sink: ByteSink, src: ByteSource, name: bytes) returns (repo: Option<bytes>)
    requires sink.out == []
    modifies sink, src
    ensures repo.Some? <==> Decrypt(c, name, old(src.rest)).Some?
    ensures repo.Some? ==> Decrypt(c, name, old(src.rest)) == Some(Opened(repo.value, sink.out))
  {
    ghost var s := src.rest;
    var header := src.ReadFull(HEADER_LEN);
    if header.None? {
      return None;
    }
    assert s[..25][..4] == s[..4] && s[..25][5..21] == s[5..21] && s[..25][21..25] == s[21..25];
    if header.value[..4] != Magic() || header.value[4] != VERSION {
      return None;
    }
    var id := header.value[5..21];
    if BEValue(header.value[21..25]) != FRAME_SIZE {
      return None;
    }
    var index := 0;
    ghost var whole := OpenFrames(c, id, name, 0, src.rest);
    assert whole.Some? ==> [] + whole.value == whole.value;
    DecryptIs(c, name, s, id);
    hide Decrypt, Aad, BEValue, Magic, OpenFrames;
    var read := Data([]);
    while read.Data?
      invariant index >= 0
      invariant read.Data? ==>
        var more := OpenFrames(c, id, name, index, src.rest);
        (whole.Some? <==> more.Some?) && (whole.Some? ==> whole.value == sink.out + more.value)
      invariant read == Done ==> whole == Some(sink.out)
      invariant read == Refused ==> whole.None?
      decreases read.Data?, |src.rest|
    {
      ghost var out := sink.out;
      read := OpenOne(c, src, id, name, index);
      if read.Data? {
        sink.Write(read.plain);
        index := index + 1;
        ghost var more := OpenFrames(c, id, name, index, src.rest);
        if more.Some? {
          Assoc(out, read.plain, more.value);
        }
      } else {
        assert out + [] == out;
      }
    }
    repo := if read == Done then Some(id) else None;
  }

  datatype FrameRead = Data(plain: bytes) | Done | Refused

  /** One frame off the stream; the final frame also requires that nothing follows. */
  method OpenOne(c: Aead, src: ByteSource, id: bytes, name: bytes, index: nat) returns (r: FrameRead)
    modifies src
    ensures |src.rest| <= |old(src.rest)|
    ensures var whole := OpenFrames(c, id, name, index, old(src.rest));
      match r
      case Refused => whole.None?
      case Done => whole == Some([])
      case Data(plain) =>
        && |src.rest| < |old(src.rest)|
        && var more := OpenFrames(c, id, name, index + 1, src.rest);
           (whole.Some? <==> more.Some?) && (whole.Some? ==> whole.value == plain + more.value)
  {
    ghost var t := src.rest;
    hide Aad, BEValue;
    var length := src.ReadFull(4);
    if length.None? {
      return Refused;
    }
    var n := BEValue(length.value);
    if n > FRAME_SIZE {
      return Refused;
    }
    var nonce := src.ReadFull(NONCE_LEN);
    if nonce.None? {
      return Refused;
    }
    var sealed := src.ReadFull(n + OVERHEAD);
    if sealed.None? {
      return Refused;
    }
    ThreeReads(t, 4, NONCE_LEN, n + OVERHEAD);
    var plain := c.open(nonce.value, sealed.value, Aad(id, name, index, n == 0));
    if plain.None? {
      return Refused;
    }
    if n == 0 {
      var extra := src.ReadUpTo(1);
      return if extra == [] then Done else Refused;
    }
    r := Data(plain.value);
  }

  lemma ThreeReads(t: bytes, a: nat, b: nat, d: nat)
    requires a + b + d <= |t|
    ensures t[a..][..b] == t[a..a + b]
    ensures t[a..][b..][..d] == t[a + b..a + b + d]
    ensures t[a..][b..][d..] == t[a + b + d..]
  {
  }

  lemma DecryptIs(c: Aead, name: bytes, s: bytes, id: bytes)
    requires |s| >= HEADER_LEN && s[..4] == Magic() && s[4] == VERSION && BEValue(s[21..25]) == FRAME_SIZE
      && id == s[5..21]
    ensures Decrypt(c, name, s).Some? <==> OpenFrames(c, id, name, 0, s[25..]).Some?
    ensures Decrypt(c, name, s).Some? ==>
      Decrypt(c, name, s).value == Opened(id, OpenFrames(c, id, name, 0, s[25..]).value)
  {
  }
}
