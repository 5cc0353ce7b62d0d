/** Byte sequences and the fixed-size piece layout that every writer of file content produces. */
module Sequences {

  type byte = b: int | 0 <= b < 256
  type bytes = seq<byte>

  datatype Option<+T> = None | Some(value: T)

  function Min(a: int, b: int): int {
    if a <= b then a else b
  }

  /** Concatenation of all pieces, in order. */
  function Flatten<T>(pieces: seq<seq<T>>): seq<T> {
    if pieces == [] then [] else pieces[0] + Flatten(pieces[1..])
  }

  lemma {:induction false} FlattenAppend<T>(a: seq<seq<T>>, b: seq<seq<T>>)
    ensures Flatten(a + b) == Flatten(a) + Flatten(b)
  {
    if a == [] {
      assert a + b == b;
    } else {
      FlattenAppend(a[1..], b);
      assert (a + b)[1..] == a[1..] + b;
      assert Flatten(a + b) == a[0] + (Flatten(a[1..]) + Flatten(b));
    }
  }

  lemma FlattenSnoc<T>(a: seq<seq<T>>, x: seq<T>)
    ensures Flatten(a + [x]) == Flatten(a) + x
  {
    FlattenAppend(a, [x]);
    assert Flatten([x]) == x + Flatten<T>([]);
    assert Flatten([x]) == x;
  }

  lemma Assoc<T>(a: seq<T>, b: seq<T>, c: seq<T>)
    ensures (a + b) + c == a + (b + c)
    ensures [] + c == c
  {
  }

  /** Moving the first `n` elements of what follows. */
  lemma TakeDrop<T>(head: seq<T>, rest: seq<T>, n: nat)
    requires n <= |rest|
    ensures head + rest == (head + rest[..n]) + rest[n..]
  {
  }

  lemma SliceJoin<T>(s: seq<T>, a: nat, b: nat, c: nat)
    requires a <= b <= c <= |s|
    ensures s[a..b] + s[b..c] == s[a..c]
  {
  }

  /** Cut `s` into pieces of `n`; only the last may be shorter, none is empty. */
  function Split<T>(s: seq<T>, n: nat): seq<seq<T>>
    requires n > 0
    decreases |s|
  {
    if s == [] then []
    else if |s| <= n then [s]
    else [s[..n]] + Split(s[n..], n)
  }

  /** The chunk layout: every piece but the last is exactly `n` long, and none is empty. */
  ghost predicate Regular<T>(pieces: seq<seq<T>>, n: nat) {
    forall i | 0 <= i < |pieces| ::
      && 0 < |pieces[i]| <= n
      && (i + 1 < |pieces| ==> |pieces[i]| == n)
  }

  /** All pieces exactly `n` long. */
  ghost predicate Full<T>(pieces: seq<seq<T>>, n: nat) {
    forall i | 0 <= i < |pieces| :: |pieces[i]| == n
  }

  lemma {:induction false} SplitIsRegular<T>(s: seq<T>, n: nat)
    requires n > 0
    ensures Flatten(Split(s, n)) == s
    ensures Regular(Split(s, n), n)
    decreases |s|
  {
    if s == [] {
    } else if |s| <= n {
      assert Split(s, n)[1..] == [];
    } else {
      var rest := Split(s[n..], n);
      SplitIsRegular(s[n..], n);
      assert Split(s, n)[1..] == rest;
      assert s == s[..n] + s[n..];
      assert Regular(Split(s, n), n) by {
        forall i | 0 <= i < |Split(s, n)|
          ensures 0 < |Split(s, n)[i]| <= n && (i + 1 < |Split(s, n)| ==> |Split(s, n)[i]| == n)
        {
          if i > 0 {
            assert Split(s, n)[i] == rest[i - 1];
          }
        }
      }
    }
  }

  lemma RegularTail<T>(pieces: seq<seq<T>>, n: nat)
    requires Regular(pieces, n) && pieces != []
    ensures Regular(pieces[1..], n)
  {
    forall i | 0 <= i < |pieces[1..]|
      ensures 0 < |pieces[1..][i]| <= n && (i + 1 < |pieces[1..]| ==> |pieces[1..][i]| == n)
    {
      assert pieces[1..][i] == pieces[i + 1];
    }
  }

  lemma SplitCons<T>(first: seq<T>, rest: seq<T>, n: nat)
    requires n > 0 && |first| == n && rest != []
    ensures Split(first + rest, n) == [first] + Split(rest, n)
  {
    assert (first + rest)[..n] == first;
    assert (first + rest)[n..] == rest;
  }

  lemma NonEmptyFlatten<T>(pieces: seq<seq<T>>)
    requires pieces != [] && pieces[0] != []
    ensures Flatten(pieces) != []
  {
  }

  /** A regular layout is determined by its content: it is exactly Split of that content. */
  lemma {:induction false} RegularIsSplit<T>(pieces: seq<seq<T>>, n: nat)
    requires n > 0
    requires Regular(pieces, n)
    ensures pieces == Split(Flatten(pieces), n)
    decreases |pieces|
  {
    if pieces == [] {
    } else if |pieces| == 1 {
      assert Flatten(pieces[1..]) == [];
      assert Flatten(pieces) == pieces[0];
      assert pieces == [pieces[0]];
    } else {
      RegularTail(pieces, n);
      RegularIsSplit(pieces[1..], n);
      NonEmptyFlatten(pieces[1..]);
      SplitCons(pieces[0], Flatten(pieces[1..]), n);
      assert pieces == [pieces[0]] + pieces[1..];
    }
  }

  /** Appending after a whole number of full pieces appends the pieces. */
  lemma SplitAfterFull<T>(pieces: seq<seq<T>>, tail: seq<T>, n: nat)
    requires n > 0
    requires Full(pieces, n)
    requires |tail| <= n
    ensures Split(Flatten(pieces) + tail, n) == if tail == [] then pieces else pieces + [tail]
  {
    var whole := if tail == [] then pieces else pieces + [tail];
    assert Regular(whole, n);
    FlattenSnoc(pieces, tail);
    assert Flatten(whole) == Flatten(pieces) + tail;
    RegularIsSplit(whole, n);
  }

  lemma {:induction false} FullLength<T>(pieces: seq<seq<T>>, n: nat)
    requires Full(pieces, n)
    ensures |Flatten(pieces)| == |pieces| * n
    decreases |pieces|
  {
    if pieces == [] {
    } else {
      assert Full(pieces[1..], n) by {
        forall i | 0 <= i < |pieces[1..]| ensures |pieces[1..][i]| == n { assert pieces[1..][i] == pieces[i + 1]; }
      }
      FullLength(pieces[1..], n);
      assert |pieces| * n == n + |pieces[1..]| * n;
    }
  }

  /** Where the i-th piece of a regular layout lies in the content. */
  lemma RegularPieceAt<T>(pieces: seq<seq<T>>, n: nat, i: nat)
    requires n > 0
    requires Regular(pieces, n)
    requires i < |pieces|
    ensures i * n + |pieces[i]| <= |Flatten(pieces)|
    ensures Flatten(pieces)[i * n..i * n + |pieces[i]|] == pieces[i]
    ensures i * n + |pieces[i]| == Min((i + 1) * n, |Flatten(pieces)|)
  {
    var before, after := Flatten(pieces[..i]), Flatten(pieces[i + 1..]);
    FlattenAround(pieces, i);
    FullLength(pieces[..i], n);
    assert |before| == i * n;
    SliceMiddle(before, pieces[i], after);
    assert i + 1 == |pieces| ==> pieces[i + 1..] == [];
    PieceEnd(i, n, |pieces[i]|, |after|);
  }

  lemma PieceEnd(i: nat, n: nat, len: nat, after: nat)
    requires len <= n
    requires len == n || after == 0
    ensures i * n + len == Min((i + 1) * n, i * n + len + after)
  {
    assert (i + 1) * n == i * n + n;
  }

  lemma FlattenAround<T>(pieces: seq<seq<T>>, i: nat)
    requires i < |pieces|
    ensures Flatten(pieces) == Flatten(pieces[..i]) + pieces[i] + Flatten(pieces[i + 1..])
  {
    SplitAround(pieces, i);
    FlattenAppend(pieces[..i] + [pieces[i]], pieces[i + 1..]);
    FlattenSnoc(pieces[..i], pieces[i]);
  }

  lemma SplitAround<T>(s: seq<T>, i: nat)
    requires i < |s|
    ensures s == s[..i] + [s[i]] + s[i + 1..]
  {
  }

  lemma SliceMiddle<T>(a: seq<T>, b: seq<T>, c: seq<T>)
    ensures |a| + |b| <= |a + b + c|
    ensures (a + b + c)[|a|..|a| + |b|] == b
  {
  }

  lemma DivLess(pos: nat, n: nat, k: nat)
    requires n > 0
    requires pos < k * n
    ensures pos / n < k
  {
    var q := pos / n;
    assert q * n <= pos;
    if q >= k {
      MulMonotone(k, q, n);
      assert false;
    }
  }

  lemma MulMonotone(a: nat, b: nat, n: nat)
    requires a <= b
    ensures a * n <= b * n
  {
  }

  lemma RegularLength<T>(pieces: seq<seq<T>>, n: nat)
    requires Regular(pieces, n)
    ensures |Flatten(pieces)| <= |pieces| * n
  {
    if pieces != [] {
      var last := |pieces| - 1;
      assert pieces == pieces[..last] + [pieces[last]];
      FlattenSnoc(pieces[..last], pieces[last]);
      assert Full(pieces[..last], n) && |pieces[last]| <= n;
      FullLength(pieces[..last], n);
      OneMoreTimes(last, n);
      hide *;
    }
  }

  lemma OneMoreTimes(k: nat, n: nat)
    ensures (k + 1) * n == k * n + n
  {
  }

  /** Every position of the content lies in the piece numbered by integer division. */
  lemma RegularCovers<T>(pieces: seq<seq<T>>, n: nat, pos: nat)
    requires n > 0
    requires Regular(pieces, n)
    requires pos < |Flatten(pieces)|
    ensures pos / n < |pieces|
  {
    RegularLength(pieces, n);
    DivLess(pos, n, |pieces|);
  }

  function SumSizes<T>(pieces: seq<seq<T>>): nat {
    if pieces == [] then 0 else |pieces[0]| + SumSizes(pieces[1..])
  }

  lemma {:induction false} SumSizesIsLength<T>(pieces: seq<seq<T>>)
    ensures SumSizes(pieces) == |Flatten(pieces)|
  {
    if pieces == [] {
    } else {
      SumSizesIsLength(pieces[1..]);
    }
  }

  lemma Pick<T>(s: set<T>) returns (x: T)
    requires s != {}
    ensures x in s
  {
    x :| x in s;
  }

  lemma {:induction false} SubsetSize<T>(a: set<T>, b: set<T>)
    requires a <= b
    ensures |a| <= |b|
  {
    if a != {} {
      var x := Pick(a);
      SubsetSize(a - {x}, b - {x});
    }
  }
}
