/**
 Sorted enumerations of finite sets, the byte order on names, and a sort of a
 sequence by a comparison: what ORDER BY, sort.Strings and slices.SortFunc
 give their callers.
 */
module Sorting {

  /** On the elements of s, less is a strict total order. */
  ghost predicate StrictOrderOn<T(!new)>(s: set<T>, less: (T, T) -> bool) {
    && (forall a | a in s :: !less(a, a))
    && (forall a, b, c | a in s && b in s && c in s :: less(a, b) && less(b, c) ==> less(a, c))
    && (forall a, b | a in s && b in s :: a == b || less(a, b) || less(b, a))
  }

  /** Every earlier element is strictly below every later one. */
  ghost predicate Increasing<T(!new)>(r: seq<T>, less: (T, T) -> bool) {
    forall i, j | 0 <= i < j < |r| :: less(r[i], r[j])
  }

  ghost predicate Distinct<T>(r: seq<T>) {
    forall i, j | 0 <= i < j < |r| :: r[i] != r[j]
  }

  /** No element of s lies below m. */
  predicate IsLeast<T(==,!new)>(s: set<T>, less: (T, T) -> bool, m: T) {
    m in s && forall a | a in s :: a == m || less(m, a)
  }

  lemma LeastExists<T(!new)>(s: set<T>, less: (T, T) -> bool)
    requires s != {} && StrictOrderOn(s, less)
    ensures exists m :: IsLeast(s, less, m)
  {
    var x :| x in s;
    if s == {x} {
      assert IsLeast(s, less, x);
    } else {
      var rest := s - {x};
      LeastExists(rest, less);
      var m :| IsLeast(rest, less, m);
      if less(m, x) {
        assert IsLeast(s, less, m);
      } else {
        assert IsLeast(s, less, x);
      }
    }
  }

  lemma LeastFirst<T(!new)>(s: set<T>, less: (T, T) -> bool, m: T, rest: seq<T>)
    requires StrictOrderOn(s, less) && IsLeast(s, less, m)
    requires forall x :: x in rest <==> x in s - {m}
    requires Increasing(rest, less) && Distinct(rest)
    ensures forall x :: x in [m] + rest <==> x in s
    ensures Increasing([m] + rest, less) && Distinct([m] + rest)
  {
    forall j | 0 <= j < |rest| ensures less(m, rest[j]) && m != rest[j] {
      assert rest[j] in rest;
    }
  }

  /** The elements of s in increasing order. */
  function Sorted<T(==,!new)>(s: set<T>, less: (T, T) -> bool): (r: seq<T>)
    requires StrictOrderOn(s, less)
    ensures |r| == |s|
    ensures forall x :: x in r <==> x in s
    ensures Increasing(r, less)
    ensures Distinct(r)
    decreases |s|
  {
    if s == {} then []
    else
      LeastExists(s, less);
      var m :| IsLeast(s, less, m);
      var rest := Sorted(s - {m}, less);
      LeastFirst(s, less, m, rest);
      [m] + rest
  }

  /** Two increasing sequences with the same elements are the same sequence. */
  lemma {:induction false} IncreasingUnique<T(!new)>(p: seq<T>, q: seq<T>, less: (T, T) -> bool)
    requires Increasing(p, less) && Increasing(q, less)
    requires forall x :: x in p <==> x in q
    requires forall x | x in p :: !less(x, x)
    requires forall x, y | x in p && y in p :: !(less(x, y) && less(y, x))
    ensures p == q
    decreases |p|
  {
    if p != [] { assert p[0] in q; }
    if q != [] { assert q[0] in p; }
    if p != [] {
      HeadFirst(p, q[0], less);
      HeadFirst(q, p[0], less);
      forall x ensures x in p[1..] <==> x in q[1..] {
        TailWithoutHead(p, x, less);
        TailWithoutHead(q, x, less);
      }
      IncreasingUnique(p[1..], q[1..], less);
      assert p == [p[0]] + p[1..] && q == [q[0]] + q[1..];
    }
  }

  lemma HeadFirst<T(!new)>(p: seq<T>, x: T, less: (T, T) -> bool)
    requires Increasing(p, less) && x in p
    ensures x == p[0] || less(p[0], x)
  {
  }

  lemma TailWithoutHead<T(!new)>(p: seq<T>, x: T, less: (T, T) -> bool)
    requires p != [] && Increasing(p, less) && !less(p[0], p[0])
    ensures x in p[1..] <==> x in p && x != p[0]
  {
  }

  /** The order of strings by their first difference, a prefix first. */
  predicate Less(a: string, b: string) {
    if a == [] then b != []
    else b != [] && (a[0] < b[0] || (a[0] == b[0] && Less(a[1..], b[1..])))
  }

  lemma {:induction false} LessTransitive(a: string, b: string, c: string)
    requires Less(a, b) && Less(b, c)
    ensures Less(a, c)
  {
    if a != [] && a[0] == b[0] && b[0] == c[0] {
      LessTransitive(a[1..], b[1..], c[1..]);
    }
  }

  lemma {:induction false} LessTotal(a: string, b: string)
    ensures !(Less(a, b) && Less(b, a))
    ensures a == b <==> !Less(a, b) && !Less(b, a)
  {
    if a != [] && b != [] {
      LessTotal(a[1..], b[1..]);
      if a[0] == b[0] && a[1..] == b[1..] {
        assert a == [a[0]] + a[1..] == b;
      }
    }
  }

  lemma LessIsStrictOrder(s: set<string>)
    ensures StrictOrderOn(s, Less)
  {
    forall a | a in s ensures !Less(a, a) { LessTotal(a, a); }
    forall a, b, c | a in s && b in s && c in s && Less(a, b) && Less(b, c) ensures Less(a, c) {
      LessTransitive(a, b, c);
    }
    forall a, b | a in s && b in s ensures a == b || Less(a, b) || Less(b, a) { LessTotal(a, b); }
  }

  /** The names of a set A to Z. */
  function SortedNames(names: set<string>): (r: seq<string>)
    ensures |r| == |names|
    ensures forall x :: x in r <==> x in names
    ensures Increasing(r, Less)
    ensures Distinct(r)
  {
    LessIsStrictOrder(names);
    Sorted(names, Less)
  }

  /** The order of names: at the first place where two names differ the lower character comes first, or one name ends there. */
  lemma {:induction false} LessIsLexicographic(a: string, b: string)
    ensures Less(a, b) <==>
            exists i :: 0 <= i <= |a| && i < |b| && a[..i] == b[..i] && (i == |a| || a[i] < b[i])
  {
    if a != [] && b != [] && a[0] == b[0] {
      LessIsLexicographic(a[1..], b[1..]);
      if i :| 0 <= i <= |a| && i < |b| && a[..i] == b[..i] && (i == |a| || a[i] < b[i]) {
        assert i > 0;
        assert a[1..][..i - 1] == a[..i][1..] && b[1..][..i - 1] == b[..i][1..];
      }
      if j :| 0 <= j <= |a[1..]| && j < |b[1..]| && a[1..][..j] == b[1..][..j] && (j == |a[1..]| || a[1..][j] < b[1..][j]) {
        assert a[..j + 1] == [a[0]] + a[1..][..j] && b[..j + 1] == [b[0]] + b[1..][..j];
      }
    } else if a == [] && b != [] {
      assert a[..0] == b[..0];
    } else if a != [] && b != [] {
      assert a[..0] == b[..0];
      forall i | 0 < i <= |a| && i < |b| ensures a[..i] != b[..i] {
        assert a[..i][0] != b[..i][0];
      }
    }
  }
}
