/** What the order of the file list means inside one directory. */
module NameSiblings {
  import opened Paths
  import opened Sequences
  import opened NameOrder

  /** The path of `name` in the directory `dir`; the empty directory is the root. */
  function Below(dir: bytes, name: bytes): bytes {
    if dir == [] then name else dir + [47] + name
  }

  ghost predicate IsName(n: bytes) {
    n != [] && n != [46] && forall i | 0 <= i < |n| :: n[i] != 47
  }

  lemma PartsInside(dir: bytes, name: bytes)
    requires IsName(name)
    ensures DirOf(Below(dir, name)) == dir && BaseOf(Below(dir, name)) == name
  {
    var p := Below(dir, name);
    assert p[|p| - 1] == name[|name| - 1];
    if dir != [] {
      assert forall k | |dir| < k < |p| :: p[k] == name[k - |dir| - 1];
      assert p[|dir|] == 47;
      assert LastSlash(p) == |dir|;
    } else {
      assert LastSlash(p) == -1;
    }
  }

  lemma {:induction false} CmpAfter(p: seq<int>, k: seq<int>, l: seq<int>)
    ensures Cmp(p + k, p + l) == Cmp(k, l)
    decreases |p|
  {
    if p == [] {
      assert p + k == k && p + l == l;
    } else {
      CmpAfter(p[1..], k, l);
      assert (p + k)[1..] == p[1..] + k && (p + l)[1..] == p[1..] + l;
    }
  }

  lemma {:induction false} CmpBytes(n: bytes, m: bytes)
    ensures Cmp(n, m) == if LexLess(n, m) then -1 else if n == m then 0 else 1
    decreases |n|
  {
    if n != [] && m != [] && n[0] == m[0] {
      CmpBytes(n[1..], m[1..]);
      assert n == [n[0]] + n[1..] && m == [m[0]] + m[1..];
      var k: seq<int>, l: seq<int> := n, m;
      assert k[1..] == n[1..] && l[1..] == m[1..];
    }
  }

  lemma KeyInside(dir: bytes, name: bytes, isDir: bool)
    requires IsName(name)
    ensures var k: seq<int> := name;
      Key(Entry(Below(dir, name), isDir)) == Front(dir) + if isDir then k + [47] else [-1] + k
  {
    var e := Entry(Below(dir, name), isDir);
    PartsInside(dir, name);
    assert e.path == Below(dir, name) && e.isDir == isDir;
    hide DirOf, BaseOf, Below;
    var none: seq<int> := [];
    assert none + Tail(e) == Tail(e);
  }

  function Front(dir: bytes): seq<int> {
    var d: seq<int> := dir;
    if d == [] then [] else d + [47]
  }

  lemma FilesInOrder(dir: bytes, n: bytes, m: bytes)
    requires IsName(n) && IsName(m)
    ensures Cmp(Key(Entry(Below(dir, n), false)), Key(Entry(Below(dir, m), false))) ==
      if LexLess(n, m) then -1 else if n == m then 0 else 1
  {
    var k: seq<int>, l: seq<int> := n, m;
    KeyInside(dir, n, false);
    KeyInside(dir, m, false);
    hide Key, LexLess, Below, IsName;
    CmpAfter(Front(dir), [-1] + k, [-1] + l);
    CmpAfter([-1], k, l);
    CmpBytes(n, m);
  }

  lemma FileFirst(dir: bytes, n: bytes, m: bytes)
    requires IsName(n) && IsName(m)
    ensures Cmp(Key(Entry(Below(dir, n), false)), Key(Entry(Below(dir, m), true))) == -1
  {
    var k: seq<int>, l: seq<int> := n, m;
    KeyInside(dir, n, false);
    KeyInside(dir, m, true);
    hide Key, Below;
    CmpAfter(Front(dir), [-1] + k, l + [47]);
  }

  lemma DirectoriesInOrder(dir: bytes, n: bytes, m: bytes)
    requires IsName(n) && IsName(m)
    ensures Cmp(Key(Entry(Below(dir, n), true)), Key(Entry(Below(dir, m), true))) ==
      if LexLess(n + [47], m + [47]) then -1 else if n == m then 0 else 1
  {
    KeyInside(dir, n, true);
    KeyInside(dir, m, true);
    hide Key, LexLess, Below, IsName;
    var k: seq<int>, l: seq<int> := n + [47], m + [47];
    CmpAfter(Front(dir), k, l);
    CmpBytes(n + [47], m + [47]);
    assert n + [47] == m + [47] ==> n == m by {
      assert (n + [47])[..|n + [47]| - 1] == n && (m + [47])[..|m + [47]| - 1] == m;
    }
  }

  /**
   In one directory: files in byte order of their names, then the subdirectories, in byte order of
   their names with a slash.
   */
  lemma SiblingOrder(dir: bytes, n: bytes, m: bytes)
    requires IsName(n) && IsName(m)
    ensures Cmp(Key(Entry(Below(dir, n), false)), Key(Entry(Below(dir, m), false))) ==
      if LexLess(n, m) then -1 else if n == m then 0 else 1
    ensures Cmp(Key(Entry(Below(dir, n), false)), Key(Entry(Below(dir, m), true))) == -1
    ensures Cmp(Key(Entry(Below(dir, n), true)), Key(Entry(Below(dir, m), true))) ==
      if LexLess(n + [47], m + [47]) then -1 else if n == m then 0 else 1
  {
    hide *;
    FilesInOrder(dir, n, m);
    FileFirst(dir, n, m);
    DirectoriesInOrder(dir, n, m);
  }
}
