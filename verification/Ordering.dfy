/** Lexicographic keys, the comparison chains of sort.Slice, and sorting by key. */
module Ordering {
  import opened Refs

  datatype Elem = N(n: int) | R(r: real) | S(s: string)
  type Key = seq<Elem>

  predicate ElemLess(a: Elem, b: Elem) {
    match (a, b)
    case (N(x), N(y)) => x < y
    case (R(x), R(y)) => x < y
    case (S(x), S(y)) => Less(x, y)
    case _ => false
  }

  predicate SameKind(a: Elem, b: Elem) {
    a.N? == b.N? && a.R? == b.R?
  }

  predicate SameShape(a: Key, b: Key) {
    |a| == |b| && forall i :: 0 <= i < |a| ==> SameKind(a[i], b[i])
  }

  predicate LexLess(a: Key, b: Key) {
    a != [] && b != [] && (ElemLess(a[0], b[0]) || (a[0] == b[0] && LexLess(a[1..], b[1..])))
  }

  lemma ElemOrder(a: Elem, b: Elem)
    requires SameKind(a, b)
    ensures a == b || ElemLess(a, b) || ElemLess(b, a)
    ensures !(ElemLess(a, b) && ElemLess(b, a)) && !ElemLess(a, a)
  {
    if a.S? {
      LessTotal(a.s, b.s);
      LessAsymmetric(a.s, b.s);
      LessIrreflexive(a.s);
    }
  }

  lemma ElemTransitive(a: Elem, b: Elem, c: Elem)
    requires ElemLess(a, b) && ElemLess(b, c)
    ensures ElemLess(a, c)
  {
    if a.S? {
      LessTransitive(a.s, b.s, c.s);
    }
  }

  lemma {:induction false} LexOrder(a: Key, b: Key)
    requires SameShape(a, b)
    ensures a == b || LexLess(a, b) || LexLess(b, a)
    ensures !(LexLess(a, b) && LexLess(b, a)) && !LexLess(a, a)
  {
    if a != [] {
      ElemOrder(a[0], b[0]);
      LexOrder(a[1..], b[1..]);
      assert a == [a[0]] + a[1..] && b == [b[0]] + b[1..];
    }
  }

  lemma {:induction false} LexTransitive(a: Key, b: Key, c: Key)
    requires LexLess(a, b) && LexLess(b, c) && SameShape(a, b) && SameShape(b, c)
    ensures LexLess(a, c)
  {
    if ElemLess(a[0], b[0]) && ElemLess(b[0], c[0]) {
      ElemTransitive(a[0], b[0], c[0]);
    } else if a[0] == b[0] == c[0] {
      LexTransitive(a[1..], b[1..], c[1..]);
    }
  }

  /* ---- sorting ---- */

  /** All keys have one shape, so they are totally ordered. */
  predicate Shaped<T(!new)>(s: seq<T>, key: T -> Key) {
    forall i, j :: 0 <= i < |s| && 0 <= j < |s| ==> SameShape(key(s[i]), key(s[j]))
  }

  predicate Sorted<T(!new)>(s: seq<T>, key: T -> Key) {
    forall i, j :: 0 <= i < j < |s| ==> !LexLess(key(s[j]), key(s[i]))
  }

  predicate Strict<T(!new)>(s: seq<T>, key: T -> Key) {
    forall i, j :: 0 <= i < j < |s| ==> LexLess(key(s[i]), key(s[j]))
  }

  predicate DistinctKeys<T(!new)>(s: seq<T>, key: T -> Key) {
    forall i, j :: 0 <= i < j < |s| ==> key(s[i]) != key(s[j])
  }

  method Insert<T(!new)>(s: seq<T>, x: T, key: T -> Key) returns (r: seq<T>)
    requires Sorted(s, key) && Shaped(s + [x], key)
    ensures Sorted(r, key) && multiset(r) == multiset(s) + multiset{x}
  {
    var i := 0;
    while i < |s| && !LexLess(key(x), key(s[i]))
      invariant 0 <= i <= |s|
      invariant forall k :: 0 <= k < i ==> !LexLess(key(x), key(s[k]))
    {
      i := i + 1;
    }
    InsertSorted(s, x, i, key);
    r := s[..i] + [x] + s[i..];
    assert s == s[..i] + s[i..];
  }

  /** No element after the insertion point is less than the new one. */
  lemma NotLessAfter<T(!new)>(s: seq<T>, x: T, i: nat, k: nat, key: T -> Key)
    requires Sorted(s, key) && Shaped(s + [x], key) && i <= k < |s| && LexLess(key(x), key(s[i]))
    ensures !LexLess(key(s[k]), key(x))
  {
    assert (s + [x])[|s|] == x && (s + [x])[k] == s[k] && (s + [x])[i] == s[i];
    LexOrder(key(x), key(s[k]));
    if LexLess(key(s[k]), key(x)) {
      LexTransitive(key(s[k]), key(x), key(s[i]));
    }
  }

  lemma InsertSorted<T(!new)>(s: seq<T>, x: T, i: nat, key: T -> Key)
    requires Sorted(s, key) && Shaped(s + [x], key) && i <= |s|
    requires forall k :: 0 <= k < i ==> !LexLess(key(x), key(s[k]))
    requires i < |s| ==> LexLess(key(x), key(s[i]))
    ensures Sorted(s[..i] + [x] + s[i..], key)
  {
    var r := s[..i] + [x] + s[i..];
    forall k | i <= k < |s| ensures !LexLess(key(s[k]), key(x)) {
      NotLessAfter(s, x, i, k, key);
    }
    SortedAround(s, x, i, r, key);
  }

  lemma SortedAround<T(!new)>(s: seq<T>, x: T, i: nat, r: seq<T>, key: T -> Key)
    requires Sorted(s, key) && i <= |s| && r == s[..i] + [x] + s[i..]
    requires forall k :: 0 <= k < i ==> !LexLess(key(x), key(s[k]))
    requires forall k :: i <= k < |s| ==> !LexLess(key(s[k]), key(x))
    ensures Sorted(r, key)
  {
    forall a, b | 0 <= a < b < |r| ensures !LexLess(key(r[b]), key(r[a])) {
      assert r[a] == if a < i then s[a] else if a == i then x else s[a - 1];
      assert r[b] == if b < i then s[b] else if b == i then x else s[b - 1];
    }
  }

  lemma ShapedPart<T(!new)>(s: seq<T>, part: seq<T>, key: T -> Key)
    requires Shaped(s, key) && forall x :: x in part ==> x in s
    ensures Shaped(part, key)
  {
    forall i, j | 0 <= i < |part| && 0 <= j < |part| ensures SameShape(key(part[i]), key(part[j])) {
      assert part[i] in s && part[j] in s;
    }
  }

  lemma SameElements<T>(a: seq<T>, b: seq<T>)
    requires multiset(a) == multiset(b)
    ensures |a| == |b| && forall x :: x in a <==> x in b
  {
    assert forall x :: x in a <==> x in multiset(a);
    assert forall x :: x in b <==> x in multiset(b);
    assert |multiset(a)| == |a| && |multiset(b)| == |b|;
  }

  /** sort.Slice by a comparison chain: a sorted permutation. */
  method SortBy<T(!new)>(s: seq<T>, key: T -> Key) returns (r: seq<T>)
    requires Shaped(s, key)
    ensures Sorted(r, key) && multiset(r) == multiset(s)
    ensures |r| == |s| && forall x :: x in r <==> x in s
  {
    r := [];
    for i := 0 to |s|
      invariant Sorted(r, key) && multiset(r) == multiset(s[..i])
    {
      SameElements(r, s[..i]);
      ShapedPart(s, r + [s[i]], key);
      r := Insert(r, s[i], key);
      assert s[..i + 1] == s[..i] + [s[i]];
    }
    assert s[..|s|] == s;
    SameElements(r, s);
  }

  lemma StrictFromDistinct<T(!new)>(s: seq<T>, key: T -> Key)
    requires Sorted(s, key) && Shaped(s, key) && DistinctKeys(s, key)
    ensures Strict(s, key)
  {
    forall i, j | 0 <= i < j < |s| ensures LexLess(key(s[i]), key(s[j])) {
      LexOrder(key(s[i]), key(s[j]));
    }
  }

  lemma StrictTail<T(!new)>(s: seq<T>, x: T, key: T -> Key)
    requires Strict(s, key) && Shaped(s, key) && s != []
    ensures x in s[1..] <==> x in s && x != s[0]
  {
    if x in s[1..] {
      var i :| 0 <= i < |s[1..]| && s[1..][i] == x;
      assert s[i + 1] == x && LexLess(key(s[0]), key(s[i + 1]));
      LexOrder(key(s[0]), key(s[0]));
    }
    if x in s && x != s[0] {
      var i :| 0 <= i < |s| && s[i] == x;
      assert s[1..][i - 1] == x;
    }
  }

  /** A strictly sorted list is determined by its elements. */
  lemma {:induction false} StrictIsUnique<T(!new)>(a: seq<T>, b: seq<T>, key: T -> Key)
    requires Strict(a, key) && Strict(b, key) && Shaped(a + b, key) && forall x :: x in a <==> x in b
    ensures a == b
  {
    forall i | 0 <= i < |b| ensures b[i] in a {
      assert b[i] in b;
    }
    assert |b| == 0 || b[0] in a;
    if a != [] {
      assert a[0] in a && a[0] in b && b != [];
      var k :| 0 <= k < |b| && b[k] == a[0];
      var m :| 0 <= m < |a| && a[m] == b[0];
      ShapedPart(a + b, a, key);
      ShapedPart(a + b, b, key);
      LexOrder(key(a[0]), key(b[0]));
      FirstsAgree(a, b, k, m, key);
      forall x ensures x in a[1..] <==> x in b[1..] {
        StrictTail(a, x, key);
        StrictTail(b, x, key);
      }
      ShapedPart(a + b, a[1..] + b[1..], key);
      StrictIsUnique(a[1..], b[1..], key);
      assert a == [a[0]] + a[1..] && b == [b[0]] + b[1..];
    }
  }

  lemma FirstsAgree<T(!new)>(a: seq<T>, b: seq<T>, k: nat, m: nat, key: T -> Key)
    requires Strict(a, key) && Strict(b, key) && k < |b| && m < |a| && b[k] == a[0] && a[m] == b[0]
    requires SameShape(key(a[0]), key(b[0]))
    ensures a[0] == b[0]
  {
    LexOrder(key(a[0]), key(b[0]));
  }

  lemma {:induction false} OnceEach<T>(s: seq<T>, x: T)
    requires forall i, j :: 0 <= i < j < |s| ==> s[i] != s[j]
    ensures multiset(s)[x] <= 1
  {
    if s != [] {
      var n := |s| - 1;
      assert s == s[..n] + [s[n]];
      OnceEach(s[..n], x);
      if s[n] == x {
        assert x !in s[..n];
      }
    }
  }

  lemma Twice<T>(s: seq<T>, i: nat, j: nat)
    requires i < j < |s| && s[i] == s[j]
    ensures multiset(s)[s[i]] >= 2
  {
    assert s == s[..j] + s[j..];
    assert s[..j][i] in s[..j] && s[j..][0] in s[j..];
    assert multiset(s[..j])[s[i]] >= 1 && multiset(s[j..])[s[i]] >= 1;
  }

  /** A permutation of a list without repetition has none. */
  lemma StaysDistinct<T>(a: seq<T>, b: seq<T>)
    requires multiset(a) == multiset(b) && forall i, j :: 0 <= i < j < |a| ==> a[i] != a[j]
    ensures forall i, j :: 0 <= i < j < |b| ==> b[i] != b[j]
  {
    forall i, j | 0 <= i < j < |b| ensures b[i] != b[j] {
      OnceEach(a, b[i]);
      if b[i] == b[j] {
        Twice(b, i, j);
      }
    }
  }
}
