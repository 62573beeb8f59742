/**
 * Order-preserving de-duplication, the observable contract of
 * `pytube.helpers.uniqueify`: every element is kept once, at its first
 * occurrence, in the order of first occurrences.
 */
module Helpers {

  /** No element occurs twice. */
  predicate Distinct<T(==)>(s: seq<T>) {
    forall i, j :: 0 <= i < j < |s| ==> s[i] != s[j]
  }

  /** The position of the first occurrence of `x` in `s`. */
  function FirstIndex<T(==)>(s: seq<T>, x: T): (i: nat)
    requires x in s
    ensures i < |s| && s[i] == x && x !in s[..i]
  {
    if s[0] == x then 0
    else
      assert x in s[1..] by { var k :| 0 <= k < |s| && s[k] == x; assert s[1..][k - 1] == x; }
      var i := 1 + FirstIndex(s[1..], x);
      assert s[..i] == [s[0]] + s[1..][..i - 1];
      i
  }

  /** Only one position is a first occurrence. */
  lemma FirstIndexUnique<T>(s: seq<T>, x: T, i: nat)
    requires i < |s| && s[i] == x && x !in s[..i]
    ensures FirstIndex(s, x) == i
  {
    var f := FirstIndex(s, x);
  }

  /** Occurrences in a prefix are first occurrences in the whole sequence too. */
  lemma FirstIndexOfPrefix<T>(s: seq<T>, n: nat, x: T)
    requires n <= |s| && x in s[..n]
    ensures x in s && FirstIndex(s, x) == FirstIndex(s[..n], x)
  {
    var f := FirstIndex(s[..n], x);
    assert s[..n][..f] == s[..f];
    FirstIndexUnique(s, x, f);
  }

  /** Each element of `s` once, in the order of first occurrence. */
  function Uniqueify<T(==,!new)>(s: seq<T>): (r: seq<T>)
    ensures Distinct(r)
    ensures forall x :: x in r <==> x in s
    ensures forall i, j :: 0 <= i < j < |r| ==> FirstIndex(s, r[i]) < FirstIndex(s, r[j])
    decreases |s|
  {
    if s == [] then []
    else
      var init := s[..|s| - 1];
      var last := s[|s| - 1];
      var r := Uniqueify(init);
      assert s == init + [last];
      assert forall y :: y in r ==> FirstIndex(s, y) == FirstIndex(init, y) by {
        forall y | y in r { FirstIndexOfPrefix(s, |s| - 1, y); }
      }
      if last in r then r
      else
        FirstIndexUnique(s, last, |s| - 1);
        r + [last]
  }

  /** A sequence without repetitions is left as it is. */
  lemma {:induction false} UniqueifyOfDistinct<T(!new)>(s: seq<T>)
    requires Distinct(s)
    ensures Uniqueify(s) == s
    decreases |s|
  {
    if s != [] {
      var init := s[..|s| - 1];
      UniqueifyOfDistinct(init);
      assert s[|s| - 1] !in init;
      assert init + [s[|s| - 1]] == s;
    }
  }

  /** De-duplicating twice is de-duplicating once. */
  lemma UniqueifyIdempotent<T(!new)>(s: seq<T>)
    ensures Uniqueify(Uniqueify(s)) == Uniqueify(s)
  {
    UniqueifyOfDistinct(Uniqueify(s));
  }

  /**
   * The contract of `Uniqueify` determines its result: any sequence without
   * repetitions, holding exactly the elements of `s`, in the order of their
   * first occurrences, is `Uniqueify(s)`.
   */
  lemma UniqueifyIsTheOnlyOne<T(!new)>(s: seq<T>, r: seq<T>)
    requires Distinct(r)
    requires forall x :: x in r <==> x in s
    requires forall i, j :: 0 <= i < j < |r| ==> FirstIndex(s, r[i]) < FirstIndex(s, r[j])
    ensures r == Uniqueify(s)
  {
    SameOrderSameSequence(s, r, Uniqueify(s));
  }

  /** Strictly ordered by first occurrence in `s`. */
  ghost predicate OrderedByFirstIndex<T>(s: seq<T>, a: seq<T>)
    requires forall x :: x in a ==> x in s
  {
    forall i, j :: 0 <= i < j < |a| ==> FirstIndex(s, a[i]) < FirstIndex(s, a[j])
  }

  /** Two sequences over the same elements, both strictly ordered by first occurrence in `s`, start alike. */
  lemma SameOrderSameHead<T>(s: seq<T>, a: seq<T>, b: seq<T>)
    requires a != [] && forall x :: x in a ==> x in s
    requires forall x :: x in a <==> x in b
    requires OrderedByFirstIndex(s, a) && OrderedByFirstIndex(s, b)
    ensures b != [] && a[0] == b[0]
  {
    assert a[0] in b;
    var k :| 0 <= k < |b| && b[k] == a[0];
    if k > 0 {
      assert b[0] in a;
    }
  }

  /** Dropping the common first element leaves the same elements behind. */
  lemma SameOrderSameTail<T>(s: seq<T>, a: seq<T>, b: seq<T>)
    requires a != [] && b != [] && a[0] == b[0] && forall x :: x in a ==> x in s
    requires forall x :: x in a <==> x in b
    requires OrderedByFirstIndex(s, a) && OrderedByFirstIndex(s, b)
    ensures forall x :: x in a[1..] <==> x in b[1..]
  {
    forall x | x in a[1..] ensures x in b[1..] {
      var i :| 1 <= i < |a| && a[i] == x;
      assert FirstIndex(s, a[0]) < FirstIndex(s, a[i]);
      assert x in b;
      var j :| 0 <= j < |b| && b[j] == x;
      assert b[1..][j - 1] == x;
    }
    forall x | x in b[1..] ensures x in a[1..] {
      var j :| 1 <= j < |b| && b[j] == x;
      assert FirstIndex(s, b[0]) < FirstIndex(s, b[j]);
      assert x in a;
      var i :| 0 <= i < |a| && a[i] == x;
      assert a[1..][i - 1] == x;
    }
  }

  /** Dropping the first element keeps a sequence ordered by first occurrence. */
  lemma OrderedTail<T>(s: seq<T>, a: seq<T>)
    requires a != [] && forall x :: x in a ==> x in s
    requires OrderedByFirstIndex(s, a)
    ensures forall x :: x in a[1..] ==> x in s
    ensures OrderedByFirstIndex(s, a[1..])
  {
    forall i, j | 0 <= i < j < |a[1..]| ensures FirstIndex(s, a[1..][i]) < FirstIndex(s, a[1..][j]) {
      assert a[1..][i] == a[i + 1] && a[1..][j] == a[j + 1];
    }
  }

  /**
   * Two non-empty sequences over the same elements, both ordered by first
   * occurrence in `s`, share their first element, and their tails again
   * meet the same conditions.
   */
  lemma SameOrderTails<T>(s: seq<T>, a: seq<T>, b: seq<T>)
    requires a != [] && forall x :: x in a ==> x in s
    requires forall i :: 0 <= i < |a| ==> a[i] in b
    requires forall j :: 0 <= j < |b| ==> b[j] in a
    requires OrderedByFirstIndex(s, a) && OrderedByFirstIndex(s, b)
    ensures b != [] && a[0] == b[0]
    ensures forall x :: x in a[1..] ==> x in s
    ensures forall i :: 0 <= i < |a[1..]| ==> a[1..][i] in b[1..]
    ensures forall j :: 0 <= j < |b[1..]| ==> b[1..][j] in a[1..]
    ensures OrderedByFirstIndex(s, a[1..]) && OrderedByFirstIndex(s, b[1..])
  {
    assert forall x :: x in a <==> x in b by {
      forall x | x in a ensures x in b { var i :| 0 <= i < |a| && a[i] == x; }
      forall x | x in b ensures x in a { var j :| 0 <= j < |b| && b[j] == x; }
    }
    SameOrderSameHead(s, a, b);
    SameOrderSameTail(s, a, b);
    OrderedTail(s, a);
    OrderedTail(s, b);
    forall i | 0 <= i < |a[1..]| ensures a[1..][i] in b[1..] { assert a[1..][i] in a[1..]; }
    forall j | 0 <= j < |b[1..]| ensures b[1..][j] in a[1..] { assert b[1..][j] in b[1..]; }
  }

  /** Two sequences over the same elements, both strictly ordered by first occurrence in `s`, are equal. */
  lemma {:induction false} SameOrderSameSequence<T>(s: seq<T>, a: seq<T>, b: seq<T>)
    requires forall x :: x in a ==> x in s
    requires forall i :: 0 <= i < |a| ==> a[i] in b
    requires forall j :: 0 <= j < |b| ==> b[j] in a
    requires OrderedByFirstIndex(s, a) && OrderedByFirstIndex(s, b)
    ensures a == b
    decreases |a|
  {
    if a == [] {
      if b != [] { assert false; }
    } else {
      SameOrderTails(s, a, b);
      SameOrderSameSequence(s, a[1..], b[1..]);
      assert a == [a[0]] + a[1..];
      assert b == [b[0]] + b[1..];
    }
  }
}
