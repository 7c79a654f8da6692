/** Option and Result, and the few facts about sequences several modules share. */
module Prelude {

  datatype Option<+T> = None | Some(value: T)

  datatype Result<+T, +E> = Ok(value: T) | Err(error: E)

  /** No element occurs twice. */
  ghost predicate Distinct<T>(s: seq<T>) {
    forall i, j :: 0 <= i < j < |s| ==> s[i] != s[j]
  }

  function Elements<T>(s: seq<T>): set<T> {
    set x | x in s
  }

  lemma {:induction false} DistinctCardinality<T>(s: seq<T>)
    requires Distinct(s)
    ensures |Elements(s)| == |s|
  {
    if s != [] {
      var init, last := s[..|s| - 1], s[|s| - 1];
      DistinctCardinality(init);
      assert Elements(s) == Elements(init) + {last};
      assert last !in Elements(init);
    }
  }

  lemma SubsetCardinality<T>(a: set<T>, b: set<T>)
    requires a <= b
    ensures |a| <= |b|
    ensures |a| == |b| ==> a == b
  {
    assert b == a + (b - a);
    assert |b| == |a| + |b - a|;
  }

  /** Pigeonhole: more positions than values means a repeated value. */
  lemma {:induction false} Pigeonhole<T>(s: seq<T>, values: set<T>) returns (i: nat, j: nat)
    requires forall x :: x in s ==> x in values
    requires |s| > |values|
    ensures i < j < |s| && s[i] == s[j]
  {
    assert s[0] in values;
    if s[0] in s[1..] {
      i := 0;
      j :| 1 <= j < |s| && s[j] == s[0];
    } else {
      var a, b := Pigeonhole(s[1..], values - {s[0]});
      i, j := a + 1, b + 1;
    }
  }

  lemma Associative<T>(a: seq<T>, b: seq<T>, c: seq<T>)
    ensures a + (b + c) == a + b + c
  {
  }

  lemma SplitAppend<T>(p: seq<T>, q: seq<T>, n: nat)
    requires n <= |p|
    ensures (p + q)[..n] == p[..n] && (p + q)[n..] == p[n..] + q
  {
  }

  /** The first position of sep, the length when there is none. */
  function IndexOf<T(==)>(s: seq<T>, sep: T): (i: nat)
    ensures i <= |s|
  {
    if s == [] || s[0] == sep then 0 else 1 + IndexOf(s[1..], sep)
  }

  lemma {:induction false} IndexOfSpec<T>(s: seq<T>, sep: T)
    ensures var i := IndexOf(s, sep);
            sep !in s[..i] && (sep in s <==> i < |s|) && (i < |s| ==> s[i] == sep)
  {
    if s != [] && s[0] != sep {
      IndexOfSpec(s[1..], sep);
      var i := IndexOf(s[1..], sep);
      assert s[..i + 1] == [s[0]] + s[1..][..i];
    }
  }

  lemma {:induction false} IndexOfFirst<T>(m: seq<T>, x: seq<T>, sep: T)
    requires sep !in m && x != [] && x[0] == sep
    ensures IndexOf(m + x, sep) == |m|
  {
    if m != [] {
      assert (m + x)[0] == m[0] && (m + x)[1..] == m[1..] + x;
      IndexOfFirst(m[1..], x, sep);
    } else {
      assert m + x == x;
    }
  }

  /** Sequences free of a separator, followed by it, are told apart. */
  lemma SameHead<T>(m: seq<T>, n: seq<T>, x: seq<T>, y: seq<T>, sep: T)
    requires sep !in m && sep !in n
    requires x != [] && x[0] == sep && y != [] && y[0] == sep
    requires m + x == n + y
    ensures m == n && x == y
  {
    IndexOfFirst(m, x, sep);
    IndexOfFirst(n, y, sep);
    assert (m + x)[..|m|] == m && (n + y)[..|n|] == n;
    assert (m + x)[|m|..] == x && (n + y)[|n|..] == y;
  }
}
