/** The order of file list entries (fNameCmp and SortFlistEntries in internal/front/rsync/protocol/flist.go). */
module NameOrder {
  import opened Paths
  import opened Sequences

  datatype Entry = Entry(path: bytes, isDir: bool)

  // ------------------------------------------------------------------ path parts

  function DirOf(path: bytes): bytes {
    var p := TrimSlash(path);
    if LastSlash(p) > 0 then p[..LastSlash(p)] else []
  }

  function BaseOf(path: bytes): bytes {
    var p := TrimSlash(path);
    if LastSlash(p) > 0 then p[LastSlash(p) + 1..] else p
  }

  // -------------------------------------------------------------- reference order

  /**
   The key of an entry: the directory part with its slash, then a directory's name with a slash, or
   for any other entry a mark below every byte and the name. The root of the transfer has the empty key.
   */
  function Tail(e: Entry): seq<int> {
    var base: seq<int> := BaseOf(e.path);
    if e.isDir then base + [SLASH as int] else [-1] + base
  }

  function Key(e: Entry): seq<int> {
    var dir: seq<int> := DirOf(e.path);
    if IsRoot(e) then []
    else if dir == [] then Tail(e)
    else dir + [SLASH as int] + Tail(e)
  }

  predicate IsRoot(e: Entry) {
    e.isDir && DirOf(e.path) == [] && (BaseOf(e.path) == [] || BaseOf(e.path) == [DOT])
  }

  /** Lexicographic comparison. */
  function Cmp(k: seq<int>, l: seq<int>): (d: int)
    ensures d == -1 || d == 0 || d == 1
    decreases |k|
  {
    if k == [] && l == [] then 0
    else if k == [] then -1
    else if l == [] then 1
    else if k[0] < l[0] then -1
    else if k[0] > l[0] then 1
    else Cmp(k[1..], l[1..])
  }

  /** Two slashes in a row at `i`. */
  predicate EmptyPart(p: bytes, i: nat) {
    i + 1 < |p| && p[i] == SLASH && p[i + 1] == SLASH
  }

  /** The root, or a path of non-empty NUL-free components; no directory is named ".". */
  predicate Canonical(e: Entry) {
    || (e.path == [] && e.isDir)
    || (&& e.path != [] && e.path[0] != SLASH && e.path[|e.path| - 1] != SLASH
        && (forall i | 0 <= i < |e.path| :: e.path[i] != 0)
        && (forall i | 0 <= i < |e.path| :: !EmptyPart(e.path, i))
        && (e.isDir ==> BaseOf(e.path) != [DOT]))
  }

  // ------------------------------------------------------------------ the cursor

  datatype Phase = InDir | InSlash | InBase | InTrailing

  datatype Kind = PathKind | ItemKind

  /** Where the comparison stands in one entry: the bytes left of the current part, which part, and the type. */
  datatype Cursor = Cursor(c: bytes, phase: Phase, kind: Kind)

  function KindOf(e: Entry): Kind {
    if e.isDir then PathKind else ItemKind
  }

  function Start(e: Entry): Cursor {
    if DirOf(e.path) != [] then Cursor(DirOf(e.path), InDir, PathKind)
    else if IsRoot(e) then Cursor([], InTrailing, ItemKind)
    else Cursor(BaseOf(e.path), InBase, KindOf(e))
  }

  /** The state change when a part is used up. */
  function Refill(x: Cursor, e: Entry): Cursor {
    match x.phase
    case InDir => Cursor([SLASH], InSlash, x.kind)
    case InSlash =>
      if e.isDir && BaseOf(e.path) == [DOT] then Cursor([], InTrailing, ItemKind)
      else Cursor(BaseOf(e.path), InBase, KindOf(e))
    case InBase =>
      if x.kind == PathKind then Cursor([SLASH], InTrailing, PathKind) else Cursor([], InTrailing, ItemKind)
    case InTrailing => Cursor([], InTrailing, ItemKind)
  }

  function Weight(x: Cursor, e: Entry): nat {
    |x.c| + match x.phase
            case InDir => |BaseOf(e.path)| + 6
            case InSlash => |BaseOf(e.path)| + 4
            case InBase => 2
            case InTrailing => 0
  }

  ghost predicate NulFree(s: bytes) {
    forall i | 0 <= i < |s| :: s[i] != 0
  }

  /** A cursor that the comparison can reach in a canonical entry. */
  ghost predicate Fits(x: Cursor, e: Entry) {
    || (IsRoot(e) && x == Cursor([], InTrailing, ItemKind))
    || Inside(x, e)
  }

  ghost predicate Inside(x: Cursor, e: Entry) {
    && NulFree(x.c) && BaseOf(e.path) != [] && NulFree(BaseOf(e.path))
    && !(e.isDir && BaseOf(e.path) == [DOT])
    && match x.phase
       case InDir => x.kind == PathKind
       case InSlash => x.kind == PathKind
       case InBase => x.kind == KindOf(e)
       case InTrailing => x.c != [] ==> x.kind == PathKind
  }

  /** The part of the key still to be compared. */
  ghost function Rest(x: Cursor, e: Entry): seq<int> {
    var c: seq<int> := x.c;
    match x.phase
    case InDir => c + [SLASH as int] + Tail(e)
    case InSlash => c + Tail(e)
    case InBase => if x.kind == PathKind then c + [SLASH as int] else c
    case InTrailing => c
  }

  lemma HeadOfRest(x: Cursor, e: Entry)
    requires x.c != []
    ensures Rest(x, e) != [] && Rest(x, e)[0] == x.c[0]
    ensures Rest(x.(c := x.c[1..]), e) == Rest(x, e)[1..]
  {
    var c: seq<int> := x.c;
    var c': seq<int> := x.c[1..];
    assert c == [c[0]] + c';
    match x.phase
    case InDir => assert c + [SLASH as int] + Tail(e) == [c[0]] + (c' + [SLASH as int] + Tail(e));
    case InSlash => assert c + Tail(e) == [c[0]] + (c' + Tail(e));
    case InBase => assert c + [SLASH as int] == [c[0]] + (c' + [SLASH as int]);
    case InTrailing =>
  }

  lemma RefillFits(x: Cursor, e: Entry)
    requires x.c == [] && Fits(x, e)
    ensures Fits(Refill(x, e), e)
    ensures Refill(x, e).c == [] <==> x.phase == InTrailing || (x.phase == InBase && x.kind == ItemKind)
    ensures Refill(x, e).c == [] ==> Refill(x, e).kind == ItemKind
    ensures Refill(x, e).c != [] && x.kind == ItemKind ==> false
    ensures x.phase == InSlash && !e.isDir ==> Refill(x, e).kind == ItemKind
  {
    hide DirOf, BaseOf;
  }

  lemma NothingLeft(k: seq<int>)
    ensures var none: seq<int> := []; none + k == k
  {
  }

  lemma RefillInDir(x: Cursor, e: Entry)
    requires x.c == [] && x.phase == InDir
    ensures Rest(x, e) == Rest(Refill(x, e), e)
  {
    NothingLeft([SLASH as int]);
    hide Tail;
  }

  lemma RefillInSlash(x: Cursor, e: Entry)
    requires x.c == [] && x.phase == InSlash && !(e.isDir && BaseOf(e.path) == [DOT])
    ensures Rest(x, e) == if e.isDir then Rest(Refill(x, e), e) else [-1] + Rest(Refill(x, e), e)
  {
    NothingLeft(Tail(e));
    hide BaseOf;
  }

  lemma RefillInBase(x: Cursor, e: Entry)
    requires x.c == [] && (x.phase == InBase || x.phase == InTrailing)
    ensures Rest(x, e) == Rest(Refill(x, e), e)
    ensures Refill(x, e).c == [] ==> Rest(x, e) == []
  {
    NothingLeft([SLASH as int]);
    hide BaseOf, Tail;
  }

  lemma RefillKeepsRest(x: Cursor, e: Entry)
    requires x.c == [] && Fits(x, e)
    ensures x.phase == InSlash && !e.isDir ==> Rest(x, e) == [-1] + Rest(Refill(x, e), e)
    ensures !(x.phase == InSlash && !e.isDir) ==> Rest(x, e) == Rest(Refill(x, e), e)
    ensures Refill(x, e).c == [] ==> Rest(x, e) == []
  {
    assert x.phase == InSlash ==> !(e.isDir && BaseOf(e.path) == [DOT]) && BaseOf(e.path) != [];
    assert x.phase == InSlash ==> Refill(x, e).c == BaseOf(e.path);
    assert x.phase == InDir ==> Refill(x, e).c == [SLASH];
    hide *;
    match x.phase
    case InDir => RefillInDir(x, e);
    case InSlash => RefillInSlash(x, e);
    case InBase => RefillInBase(x, e);
    case InTrailing => RefillInBase(x, e);
  }

  lemma FittingHead(x: Cursor, e: Entry)
    requires x.c != []
    ensures Rest(x, e) != [] && Rest(x, e)[0] >= 0
  {
    HeadOfRest(x, e);
  }

  /**
   Using up a part keeps the rest of the key, except that a mark is passed when a name starts that
   is no directory.
   */
  lemma RefillRest(x: Cursor, e: Entry)
    requires x.c == [] && Fits(x, e)
    ensures Fits(Refill(x, e), e)
    ensures x.phase == InSlash && !e.isDir ==>
      Rest(x, e) == [-1] + Rest(Refill(x, e), e) && Refill(x, e).kind == ItemKind
    ensures !(x.phase == InSlash && !e.isDir) ==> Rest(x, e) == Rest(Refill(x, e), e)
    ensures Refill(x, e).c == [] <==> x.phase == InTrailing || (x.phase == InBase && x.kind == ItemKind)
    ensures Refill(x, e).c == [] ==> Rest(x, e) == [] && Refill(x, e).kind == ItemKind
    ensures Refill(x, e).c != [] ==> Rest(Refill(x, e), e) != [] && Rest(Refill(x, e), e)[0] >= 0
    ensures Refill(x, e).c != [] && x.kind == ItemKind ==> false
  {
    hide *;
    RefillFits(x, e);
    RefillKeepsRest(x, e);
    if Refill(x, e).c != [] {
      FittingHead(Refill(x, e), e);
    }
  }

  lemma MarkFirst(k: seq<int>, l: seq<int>)
    ensures l != [] && l[0] >= 0 ==> Cmp([-1] + k, l) == -1 && Cmp(l, [-1] + k) == 1
    ensures Cmp([-1] + k, [-1] + l) == Cmp(k, l)
    ensures Cmp([-1] + k, []) == 1 && Cmp([], [-1] + k) == -1
  {
    assert ([-1] + k)[1..] == k && ([-1] + l)[1..] == l;
  }

  function Verdict(x: Kind): int {
    if x == PathKind then 1 else -1
  }

  lemma FirstEmpty(x: Cursor, y: Cursor, a: Entry, b: Entry)
    requires x.c == [] && y.c != [] && Fits(x, a) && Fits(y, b) && x.kind == y.kind
    ensures var x' := Refill(x, a);
      && Fits(x', a)
      && (x'.kind != y.kind ==> Cmp(Rest(x, a), Rest(y, b)) == Verdict(x'.kind))
      && (x'.kind == y.kind ==> Cmp(Rest(x', a), Rest(y, b)) == Cmp(Rest(x, a), Rest(y, b)))
  {
    RefillRest(x, a);
    HeadOfRest(y, b);
    MarkFirst(Rest(Refill(x, a), a), Rest(y, b));
    hide Rest, Tail, Fits;
  }

  lemma SecondEmpty(x: Cursor, y: Cursor, a: Entry, b: Entry)
    requires x.c != [] && y.c == [] && Fits(x, a) && Fits(y, b) && x.kind == y.kind
    ensures var y' := Refill(y, b);
      && Fits(y', b)
      && (x.kind != y'.kind ==> Cmp(Rest(x, a), Rest(y, b)) == Verdict(x.kind))
      && (x.kind == y'.kind ==> Cmp(Rest(x, a), Rest(y', b)) == Cmp(Rest(x, a), Rest(y, b)))
  {
    RefillRest(y, b);
    HeadOfRest(x, a);
    MarkFirst(Rest(Refill(y, b), b), Rest(x, a));
    hide Rest, Tail, Fits;
  }

  lemma BothEmpty(x: Cursor, y: Cursor, a: Entry, b: Entry)
    requires x.c == [] && y.c == [] && Fits(x, a) && Fits(y, b) && x.kind == y.kind
    ensures var x', y' := Refill(x, a), Refill(y, b);
      && Fits(x', a) && Fits(y', b)
      && (x'.c == [] && y'.c == [] ==> Cmp(Rest(x, a), Rest(y, b)) == 0)
      && (x'.kind != y'.kind ==> Cmp(Rest(x, a), Rest(y, b)) == Verdict(x'.kind))
      && (x'.kind == y'.kind ==> Cmp(Rest(x', a), Rest(y', b)) == Cmp(Rest(x, a), Rest(y, b)))
  {
    var x', y' := Refill(x, a), Refill(y, b);
    RefillRest(x, a);
    RefillRest(y, b);
    MarkFirst(Rest(x', a), Rest(y', b));
    MarkFirst(Rest(y', b), Rest(x', a));
    hide Rest, Tail, Fits;
  }

  ghost predicate Signs(d: int, cmp: int) {
    (d < 0 <==> cmp < 0) && (d > 0 <==> cmp > 0)
  }

  lemma PartsOf(e: Entry)
    requires Canonical(e) && e.path != []
    ensures TrimSlash(e.path) == e.path
    ensures BaseOf(e.path) != [] && NulFree(BaseOf(e.path)) && NulFree(DirOf(e.path))
    ensures e.isDir ==> BaseOf(e.path) != [DOT]
  {
    hide LastSlash;
  }

  lemma RootParts(e: Entry)
    requires e.path == []
    ensures DirOf(e.path) == [] && BaseOf(e.path) == []
  {
  }

  lemma Starts(e: Entry)
    requires Canonical(e)
    ensures Fits(Start(e), e)
    ensures Key(e) == if Start(e).phase == InBase && !e.isDir then [-1] + Rest(Start(e), e) else Rest(Start(e), e)
    ensures Start(e).kind == PathKind ==> Key(e) != [] && Key(e)[0] >= 0
    ensures Start(e).kind == ItemKind ==> IsRoot(e) || (!e.isDir && Start(e).phase == InBase)
  {
    if e.path == [] {
      RootParts(e);
      hide BaseOf, DirOf;
    } else {
      PartsOf(e);
      hide BaseOf, DirOf, Canonical;
    }
  }

  /** Cursors that stand for the rest of the comparison of two canonical entries. */
  ghost predicate Stands(x: Cursor, y: Cursor, a: Entry, b: Entry) {
    && x.kind == y.kind
    && (Canonical(a) && Canonical(b) ==>
          Fits(x, a) && Fits(y, b) && Cmp(Rest(x, a), Rest(y, b)) == Cmp(Key(a), Key(b)))
  }

  ghost predicate Decides(d: int, a: Entry, b: Entry) {
    Canonical(a) && Canonical(b) ==> Signs(d, Cmp(Key(a), Key(b)))
  }

  lemma StartStands(a: Entry, b: Entry)
    ensures var x, y := Start(a), Start(b);
      if x.kind != y.kind then Decides(Verdict(x.kind), a, b) else Stands(x, y, a, b)
  {
    if Canonical(a) && Canonical(b) {
      Starts(a);
      Starts(b);
      MarkFirst(Rest(Start(a), a), Key(b));
      MarkFirst(Rest(Start(b), b), Key(a));
      MarkFirst(Rest(Start(a), a), Rest(Start(b), b));
      hide Rest, Fits, Start, Key, Canonical;
    }
  }

  lemma RefillStands(x: Cursor, y: Cursor, a: Entry, b: Entry)
    requires Stands(x, y, a, b)
    ensures var x', y' := if x.c == [] then Refill(x, a) else x, if y.c == [] then Refill(y, b) else y;
      && (x'.kind == y'.kind ==> Stands(x', y', a, b))
      && (x'.kind != y'.kind ==> Decides(Verdict(x'.kind), a, b))
      && (x.c == [] && y.c == [] && x'.c == [] && y'.c == [] ==> Decides(0, a, b))
      && (Canonical(a) && Canonical(b) ==>
            (x'.c == [] ==> x'.phase == InTrailing) && (y'.c == [] ==> y'.phase == InTrailing))
  {
    if Canonical(a) && Canonical(b) {
      if x.c == [] && y.c != [] {
        FirstEmpty(x, y, a, b);
      } else if x.c != [] && y.c == [] {
        SecondEmpty(x, y, a, b);
      } else if x.c == [] {
        BothEmpty(x, y, a, b);
      }
      if x.c == [] {
        RefillRest(x, a);
      }
      if y.c == [] {
        RefillRest(y, b);
      }
    }
    hide Rest, Fits, Key, Canonical;
  }

  lemma FitsTail(x: Cursor, e: Entry)
    requires Fits(x, e) && x.c != []
    ensures Fits(x.(c := x.c[1..]), e)
  {
    assert NulFree(x.c[1..]);
    hide BaseOf, DirOf;
  }

  lemma ByteStands(x: Cursor, y: Cursor, a: Entry, b: Entry)
    requires Stands(x, y, a, b) && x.c != [] && y.c != []
    ensures var d := x.c[0] as int - y.c[0] as int;
      if d != 0 then Decides(d, a, b) else Stands(x.(c := x.c[1..]), y.(c := y.c[1..]), a, b)
  {
    HeadOfRest(x, a);
    HeadOfRest(y, b);
    if Canonical(a) && Canonical(b) {
      FitsTail(x, a);
      FitsTail(y, b);
    }
    hide Rest, Fits, Key, Canonical;
  }

  lemma LastStands(x: Cursor, y: Cursor, a: Entry, b: Entry)
    requires Stands(x, y, a, b)
    requires Canonical(a) && Canonical(b) ==>
      (x.c == [] ==> x.phase == InTrailing) && (y.c == [] ==> y.phase == InTrailing)
    ensures x.c != [] && y.c == [] ==> Decides(x.c[0], a, b)
    ensures x.c == [] && y.c != [] ==> Decides(-(y.c[0] as int), a, b)
  {
    if x.c != [] {
      HeadOfRest(x, a);
    }
    if y.c != [] {
      HeadOfRest(y, b);
    }
    hide Key, Canonical, Tail;
  }

  lemma RefillShrinks(x: Cursor, e: Entry)
    requires x.c == []
    ensures Weight(Refill(x, e), e) <= Weight(x, e)
    ensures Weight(Refill(x, e), e) == Weight(x, e) ==> x.phase == InTrailing && Refill(x, e).c == []
  {
  }

  lemma RefillLast(x: Cursor, e: Entry)
    requires x.c == []
    ensures x.phase == InTrailing || (x.phase == InBase && x.kind == ItemKind) ==> Refill(x, e).c == []
  {
  }

  /** Both exhaustion steps at the head of the loop; Some is a decision. */
  method Refills(x0: Cursor, y0: Cursor, a: Entry, b: Entry) returns (d: Option<int>, x: Cursor, y: Cursor)
    requires Stands(x0, y0, a, b)
    ensures d.Some? ==> Decides(d.value, a, b)
    ensures d.None? ==> Stands(x, y, a, b)
    ensures d.None? && Canonical(a) && Canonical(b) ==>
      (x.c == [] ==> x.phase == InTrailing) && (y.c == [] ==> y.phase == InTrailing)
    ensures d.None? ==> Weight(x, a) <= Weight(x0, a) && Weight(y, b) <= Weight(y0, b)
    ensures d.None? && x.c == [] && y.c == [] ==> Weight(x, a) + Weight(y, b) < Weight(x0, a) + Weight(y0, b)
  {
    x, y := x0, y0;
    assert x.kind == y.kind;
    hide *;
    RefillStands(x, y, a, b);
    if x.c == [] {
      RefillShrinks(x, a);
    }
    if y.c == [] {
      RefillShrinks(y, b);
      RefillLast(y, b);
    }
    if x.c == [] {
      x := Refill(x, a);
      if y.c != [] && x.kind != y.kind {
        return Some(Verdict(x.kind)), x, y;
      }
    }
    if y.c == [] {
      var last := y.phase == InTrailing || (y.phase == InBase && y.kind == ItemKind);
      y := Refill(y, b);
      if last && x.c == [] {
        return Some(0), x, y;
      }
      if x.kind != y.kind {
        return Some(Verdict(x.kind)), x, y;
      }
    }
    d := None;
  }

  /** fNameCmp: the two cursors advance part by part and byte by byte. It ends on all inputs. */
  method FNameCmp(a: Entry, b: Entry) returns (d: int)
    ensures Decides(d, a, b)
  {
    var x, y := Start(a), Start(b);
    StartStands(a, b);
    hide Start, Stands, Decides, Canonical;
    if x.kind != y.kind {
      return Verdict(x.kind);
    }
    while true
      invariant Stands(x, y, a, b)
      decreases Weight(x, a) + Weight(y, b)
    {
      var decided;
      decided, x, y := Refills(x, y, a, b);
      if decided.Some? {
        return decided.value;
      }
      if x.c != [] && y.c != [] {
        ByteStands(x, y, a, b);
        d := x.c[0] as int - y.c[0] as int;
        if d != 0 {
          return;
        }
        x, y := x.(c := x.c[1..]), y.(c := y.c[1..]);
      } else if x.c != [] {
        LastStands(x, y, a, b);
        return x.c[0];
      } else if y.c != [] {
        LastStands(x, y, a, b);
        return -(y.c[0] as int);
      }
    }
  }

  // ------------------------------------------------------------------ total order

  lemma {:induction false} CmpZero(k: seq<int>, l: seq<int>)
    ensures Cmp(k, l) == 0 <==> k == l
    ensures Cmp(l, k) == -Cmp(k, l)
    decreases |k|
  {
    if k != [] && l != [] {
      CmpZero(k[1..], l[1..]);
      assert k == [k[0]] + k[1..] && l == [l[0]] + l[1..];
    }
  }

  lemma {:induction false} CmpTransitive(k: seq<int>, l: seq<int>, m: seq<int>)
    requires Cmp(k, l) <= 0 && Cmp(l, m) <= 0
    ensures Cmp(k, m) <= 0
    ensures Cmp(k, l) < 0 || Cmp(l, m) < 0 ==> Cmp(k, m) < 0
    decreases |k|
  {
    if k != [] && l != [] && m != [] && k[0] == l[0] == m[0] {
      CmpTransitive(k[1..], l[1..], m[1..]);
    }
  }

  ghost function Shape(path: seq<int>, cut: nat, isDir: bool): seq<int>
    requires cut <= |path|
  {
    if isDir then path + [SLASH as int] else path[..cut] + [-1] + path[cut..]
  }

  /** The key of a canonical entry is its path with a slash behind it, or with the mark before the last component. */
  lemma KeyShape(e: Entry)
    requires Canonical(e) && e.path != []
    ensures Key(e) == Shape(e.path, LastSlash(e.path) + 1, e.isDir)
  {
    PartsOf(e);
    var p := e.path;
    var l := LastSlash(p);
    assert IsRoot(e) ==> false;
    if l > 0 {
      assert DirOf(p) == p[..l] && BaseOf(p) == p[l + 1..];
      hide DirOf, BaseOf, Canonical, IsRoot, LastSlash, TrimSlash, NulFree;
      ShapeBelow(e, l);
    } else {
      assert l == -1 && DirOf(p) == [] && BaseOf(p) == p;
      hide DirOf, BaseOf, Canonical, IsRoot, LastSlash, TrimSlash, NulFree;
      var path: seq<int> := p;
      assert path[..0] + [-1] + path[0..] == [-1] + path;
    }
  }

  lemma ShapeBelow(e: Entry, l: nat)
    requires 0 < l < |e.path| && e.path[l] == SLASH && !IsRoot(e)
    requires DirOf(e.path) == e.path[..l] && BaseOf(e.path) == e.path[l + 1..]
    ensures Key(e) == Shape(e.path, l + 1, e.isDir)
  {
    var path: seq<int>, dir: seq<int>, base: seq<int> := e.path, e.path[..l], e.path[l + 1..];
    assert path[..l + 1] == dir + [SLASH as int] && path[l + 1..] == base;
    assert path == dir + [SLASH as int] + base;
    assert Key(e) == dir + [SLASH as int] + Tail(e);
    hide DirOf, BaseOf, IsRoot, Key;
    var front := dir + [SLASH as int];
    assert (front + base) + [SLASH as int] == front + (base + [SLASH as int]);
    assert (front + [-1]) + base == front + ([-1] + base);
  }

  ghost predicate NoMark(k: seq<int>) {
    forall i | 0 <= i < |k| :: k[i] != -1
  }

  lemma MarkPlace(h: seq<int>, t: seq<int>, h': seq<int>, t': seq<int>)
    requires NoMark(h) && NoMark(h') && h + [-1] + t == h' + [-1] + t'
    ensures h == h' && t == t'
  {
    var k := h + [-1] + t;
    assert k[|h|] == -1 && k[|h'|] == -1;
    assert forall i | 0 <= i < |h| :: k[i] == h[i] != -1;
    assert forall i | 0 <= i < |h'| :: k[i] == h'[i] != -1;
    assert |h| == |h'|;
    assert k[..|h|] == h && k[..|h'|] == h';
    assert k[|h| + 1..] == t && k[|h'| + 1..] == t';
  }

  /** Different canonical entries have different keys: the order is total on them. */
  lemma KeyInjective(a: Entry, b: Entry)
    requires Canonical(a) && Canonical(b) && Key(a) == Key(b)
    ensures a == b
  {
    EmptyKey(a);
    EmptyKey(b);
    if a.path != [] {
      var cutA := ShapeOf(a);
      var cutB := ShapeOf(b);
      hide *;
      SameShape(a.path, cutA, a.isDir, b.path, cutB, b.isDir);
    }
  }

  /** The parts of a non-empty canonical path that its key shows. */
  lemma ShapeOf(e: Entry) returns (cut: nat)
    requires Canonical(e) && e.path != []
    ensures cut <= |e.path| && (forall i | cut <= i < |e.path| :: e.path[i] != SLASH)
    ensures e.path[|e.path| - 1] != SLASH && NoMark(e.path)
    ensures Key(e) == Shape(e.path, cut, e.isDir)
  {
    cut := LastSlash(e.path) + 1;
    KeyShape(e);
    hide Key;
  }

  lemma EmptyKey(e: Entry)
    requires Canonical(e)
    ensures Key(e) == [] <==> e.path == []
    ensures e.path == [] ==> e.isDir
  {
    if e.path == [] {
      RootParts(e);
    } else {
      KeyShape(e);
    }
  }

  lemma SameShape(p: seq<int>, c: nat, pDir: bool, q: seq<int>, d: nat, qDir: bool)
    requires NoMark(p) && NoMark(q) && c <= |p| && d <= |q| && Shape(p, c, pDir) == Shape(q, d, qDir)
    ensures p == q && pDir == qDir
  {
    MarkIff(p, c, pDir);
    MarkIff(q, d, qDir);
    if pDir && qDir {
      assert (p + [SLASH as int])[..|p|] == p && (q + [SLASH as int])[..|q|] == q;
    } else if !pDir && !qDir {
      MarkPlace(p[..c], p[c..], q[..d], q[d..]);
      assert p == p[..c] + p[c..] && q == q[..d] + q[d..];
    }
  }

  lemma MarkIff(p: seq<int>, cut: nat, isDir: bool)
    requires NoMark(p) && cut <= |p|
    ensures NoMark(Shape(p, cut, isDir)) <==> isDir
  {
    assert !isDir ==> Shape(p, cut, isDir)[cut] == -1;
  }

  // --------------------------------------------------------------------- subtrees

  ghost predicate Prefix(k: seq<int>, l: seq<int>) {
    |k| <= |l| && l[..|k|] == k
  }

  /** The directory itself, or an entry whose path continues it. */
  ghost predicate Under(e: Entry, dir: Entry) {
    e == dir || (|dir.path| < |e.path| && e.path[..|dir.path|] == dir.path && e.path[|dir.path|] == SLASH)
  }

  /** A directory's key is a prefix of exactly the keys of its subtree. */
  lemma SubtreeIsPrefix(e: Entry, dir: Entry)
    requires Canonical(e) && Canonical(dir) && dir.isDir && dir.path != []
    ensures Prefix(Key(dir), Key(e)) <==> Under(e, dir)
  {
    if e.path == [] {
      RootHasNoPrefix(e, dir);
    } else {
      var cut := ShapeOf(e);
      DirectoryShape(dir);
      hide *;
      ShapesNest(e, dir, cut);
    }
  }

  lemma RootHasNoPrefix(e: Entry, dir: Entry)
    requires Canonical(e) && Canonical(dir) && e.path == [] && dir.path != []
    ensures !Prefix(Key(dir), Key(e)) && !Under(e, dir)
  {
    EmptyKey(e);
    EmptyKey(dir);
    hide Key, Canonical;
  }

  lemma ShapesNest(e: Entry, dir: Entry, cut: nat)
    requires cut <= |e.path| && (forall i | cut <= i < |e.path| :: e.path[i] != SLASH)
    requires e.path != [] && e.path[|e.path| - 1] != SLASH && dir.path != [] && dir.isDir
    requires Key(e) == Shape(e.path, cut, e.isDir) && Key(dir) == Shape(dir.path, 0, true)
    ensures Prefix(Key(dir), Key(e)) <==> Under(e, dir)
  {
    hide Key, Shape, Prefix;
    ShapePrefix(dir.path, e.path, cut, e.isDir);
  }

  lemma DirectoryShape(dir: Entry)
    requires Canonical(dir) && dir.isDir && dir.path != []
    ensures Key(dir) == Shape(dir.path, 0, true)
  {
    var cut := ShapeOf(dir);
  }

  lemma ShapePrefix(p: bytes, q: bytes, cut: nat, isDir: bool)
    requires cut <= |q| && (forall i | cut <= i < |q| :: q[i] != SLASH)
    requires |p| > 0 && |q| > 0 && q[|q| - 1] != SLASH
    ensures Prefix(Shape(p, 0, true), Shape(q, cut, isDir)) <==>
      (isDir && q == p) || (|p| < |q| && q[..|p|] == p && q[|p|] == SLASH)
  {
    var k, l := Shape(p, 0, true), Shape(q, cut, isDir);
    if Prefix(k, l) {
      assert forall i | 0 <= i < |p| :: l[i] == p[i];
      assert l[|p|] == SLASH as int;
      if !isDir {
        assert l[cut] == -1;
        assert |p| < cut;
        assert forall i | 0 <= i <= |p| :: l[i] == q[i];
        assert q[..|p|] == p;
      } else {
        assert forall i | 0 <= i < |q| :: l[i] == q[i];
        if |p| == |q| {
          assert q == p;
        } else {
          assert q[..|p|] == p;
        }
      }
    }
    if |p| < |q| && q[..|p|] == p && q[|p|] == SLASH {
      assert cut > |p|;
      assert l[..|p| + 1] == k;
    }
  }

  lemma {:induction false} PrefixFirst(k: seq<int>, l: seq<int>)
    requires Prefix(k, l) && k != l
    ensures Cmp(k, l) < 0
    decreases |k|
  {
    if k != [] {
      assert k == [k[0]] + k[1..] && l == [l[0]] + l[1..];
      assert l[1..][..|k| - 1] == k[1..];
      PrefixFirst(k[1..], l[1..]);
    }
  }

  /** A directory comes before everything in it. */
  lemma DirectoryFirst(e: Entry, dir: Entry)
    requires Canonical(e) && Canonical(dir) && dir.isDir && dir.path != [] && Under(e, dir) && e != dir
    ensures Cmp(Key(dir), Key(e)) < 0
  {
    SubtreeIsPrefix(e, dir);
    if Key(e) == Key(dir) {
      KeyInjective(e, dir);
    }
    hide Key, Under;
    PrefixFirst(Key(dir), Key(e));
  }

  lemma {:induction false} PrefixBlock(p: seq<int>, k: seq<int>, l: seq<int>, m: seq<int>)
    requires Prefix(p, k) && Prefix(p, m) && Cmp(k, l) <= 0 && Cmp(l, m) <= 0
    ensures Prefix(p, l)
    decreases |p|
  {
    if p != [] {
      assert k[0] == p[0] && m[0] == p[0];
      assert k[1..][..|p| - 1] == p[1..] && m[1..][..|p| - 1] == p[1..];
      PrefixBlock(p[1..], k[1..], l[1..], m[1..]);
      assert l[..|p|] == [l[0]] + l[1..][..|p| - 1] && p == [p[0]] + p[1..];
    }
  }

  /** Whatever sorts between two entries of a directory's subtree belongs to the subtree. */
  lemma SubtreeContiguous(a: Entry, e: Entry, b: Entry, dir: Entry)
    requires Canonical(a) && Canonical(e) && Canonical(b) && Canonical(dir) && dir.isDir && dir.path != []
    requires Under(a, dir) && Under(b, dir)
    requires Cmp(Key(a), Key(e)) <= 0 && Cmp(Key(e), Key(b)) <= 0
    ensures Under(e, dir)
  {
    SubtreeIsPrefix(a, dir);
    SubtreeIsPrefix(b, dir);
    SubtreeIsPrefix(e, dir);
    hide Key, Under;
    PrefixBlock(Key(dir), Key(a), Key(e), Key(b));
  }

  // ---------------------------------------------------------------------- sorting

  ghost predicate Sorted(s: seq<Entry>) {
    forall i, j | 0 <= i < j < |s| :: Cmp(Key(s[i]), Key(s[j])) <= 0
  }

  ghost predicate SameEntries(s: seq<Entry>, t: seq<Entry>) {
    multiset(s) == multiset(t)
  }

  ghost predicate AllCanonical(s: seq<Entry>) {
    forall i | 0 <= i < |s| :: Canonical(s[i])
  }

  lemma SameMember(s: seq<Entry>, t: seq<Entry>) returns (i: nat)
    requires SameEntries(s, t) && t != []
    ensures i < |s| && s[i] == t[0]
  {
    assert t[0] in multiset(s);
    i :| 0 <= i < |s| && s[i] == t[0];
  }

  lemma SameLength(s: seq<Entry>, t: seq<Entry>)
    requires SameEntries(s, t)
    ensures |s| == |t| && SameEntries(t, s)
  {
    assert |s| == |multiset(s)| && |t| == |multiset(t)|;
  }

  lemma FirstLeast(s: seq<Entry>, i: nat)
    requires Sorted(s) && i < |s|
    ensures Cmp(Key(s[0]), Key(s[i])) <= 0
  {
    CmpZero(Key(s[0]), Key(s[i]));
    hide Cmp, Key;
  }

  lemma CanonicalAt(s: seq<Entry>, i: nat)
    requires AllCanonical(s) && i < |s|
    ensures Canonical(s[i]) && AllCanonical(s[1..])
  {
    hide Canonical;
  }

  /** The first of one sorted list is the first of any other with the same entries. */
  lemma SameFirst(s: seq<Entry>, t: seq<Entry>)
    requires Sorted(s) && Sorted(t) && SameEntries(s, t) && s != [] && t != [] && AllCanonical(s)
    ensures s[0] == t[0]
  {
    hide *;
    SameLength(s, t);
    var i := SameMember(s, t);
    var j := SameMember(t, s);
    FirstLeast(s, i);
    FirstLeast(t, j);
    CmpZero(Key(s[0]), Key(s[i]));
    CanonicalAt(s, 0);
    CanonicalAt(s, i);
    KeyInjective(s[0], s[i]);
  }

  lemma SameTails(s: seq<Entry>, t: seq<Entry>)
    requires SameEntries(s, t) && s != [] && t != [] && s[0] == t[0]
    ensures SameEntries(s[1..], t[1..])
  {
    assert s == [s[0]] + s[1..] && t == [t[0]] + t[1..];
    assert multiset(s[1..]) == multiset(s) - multiset{s[0]};
    assert multiset(t[1..]) == multiset(t) - multiset{t[0]};
  }

  lemma SortedTail(s: seq<Entry>)
    requires Sorted(s) && s != []
    ensures Sorted(s[1..])
  {
    hide Key, Cmp;
  }

  /** However the entries were given, sorting them by fNameCmp yields the same list. */
  lemma {:induction false} SortUnique(s: seq<Entry>, t: seq<Entry>)
    requires Sorted(s) && Sorted(t) && SameEntries(s, t) && AllCanonical(s)
    ensures s == t
    decreases |s|
  {
    hide *;
    SameLength(s, t);
    if s != [] {
      SameFirst(s, t);
      SameTails(s, t);
      SortedTail(s);
      SortedTail(t);
      CanonicalAt(s, 0);
      SortUnique(s[1..], t[1..]);
      assert s == [s[0]] + s[1..] && t == [t[0]] + t[1..];
    }
  }
}
