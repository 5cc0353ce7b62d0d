/** Slash-separated paths. */
module Paths {
  import opened Sequences

  const SLASH: byte := 47
  const DOT: byte := 46

  /** Index of the last '/', or -1. */
  function LastSlash(p: bytes): (i: int)
    ensures -1 <= i < |p|
    ensures i >= 0 ==> p[i] == SLASH
    ensures forall k | i < k < |p| :: p[k] != SLASH
    decreases |p|
  {
    if p == [] then -1
    else if p[|p| - 1] == SLASH then |p| - 1
    else LastSlash(p[..|p| - 1])
  }

  /** One trailing slash dropped. */
  function TrimSlash(p: bytes): bytes {
    if p != [] && p[|p| - 1] == SLASH then p[..|p| - 1] else p
  }

  // ------------------------------------------------------------------ byte order

  /** Bytewise lexicographic order: SQLite's order of text, and Go's of strings. */
  predicate LexLess(a: bytes, b: bytes)
    decreases |a|
  {
    if b == [] then false
    else if a == [] then true
    else if a[0] != b[0] then a[0] < b[0]
    else LexLess(a[1..], b[1..])
  }

  lemma {:induction false} LexTotal(a: bytes, b: bytes)
    ensures LexLess(a, b) || a == b || LexLess(b, a)
    decreases |a|
  {
    if a != [] && b != [] && a[0] == b[0] {
      LexTotal(a[1..], b[1..]);
      assert a == [a[0]] + a[1..] && b == [b[0]] + b[1..];
    }
  }

  lemma {:induction false} LexTransitive(a: bytes, b: bytes, c: bytes)
    requires LexLess(a, b) && LexLess(b, c)
    ensures LexLess(a, c)
    decreases |a|
  {
    if a != [] && a[0] == b[0] && b[0] == c[0] {
      LexTransitive(a[1..], b[1..], c[1..]);
    }
  }

  lemma {:induction false} LeastName(all: set<bytes>) returns (m: bytes)
    requires all != {}
    ensures m in all && forall n | n in all && n != m :: LexLess(m, n)
    decreases |all|
  {
    m :| m in all;
    if all != {m} {
      var k := LeastName(all - {m});
      LexTotal(m, k);
      if LexLess(k, m) {
        m := k;
      } else {
        forall n | n in all && n != m ensures LexLess(m, n) {
          if n != k {
            LexTransitive(m, k, n);
          }
        }
      }
    }
  }

  lemma {:induction false} LexIrreflexive(a: bytes, b: bytes)
    requires LexLess(a, b)
    ensures a != b && !LexLess(b, a)
    decreases |a|
  {
    if a != [] && a[0] == b[0] {
      LexIrreflexive(a[1..], b[1..]);
    }
  }
}
