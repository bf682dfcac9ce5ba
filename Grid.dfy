/**
 * The 80-number Keno grid and the sequences built from it: the player's
 * selection (an insertion-ordered set), a drawing of 20 numbers, and the
 * shuffled pool both are taken from.
 */
module Grid {

  /** Numbers on the grid run from 1 to GridSize. */
  const GridSize := 80

  /** Every drawing takes this many numbers from the shuffled pool. */
  const DrawSize := 20

  predicate InGrid(n: int) {
    1 <= n <= GridSize
  }

  /** No number occurs twice: how an insertion-ordered set is held as a sequence. */
  predicate Distinct(s: seq<int>) {
    forall i, j :: 0 <= i < j < |s| ==> s[i] != s[j]
  }

  predicate OnGrid(s: seq<int>) {
    forall x :: x in s ==> InGrid(x)
  }

  /** A selection the player may hold when `spots` numbers are to be played. */
  predicate ValidSelection(s: seq<int>, spots: int) {
    |s| <= spots && Distinct(s) && OnGrid(s)
  }

  /** One drawing: 20 distinct numbers from the grid. */
  predicate IsDrawing(d: seq<int>) {
    |d| == DrawSize && Distinct(d) && OnGrid(d)
  }

  function Elements(s: seq<int>): set<int> {
    set x | x in s
  }

  /** The pool 1, 2, ..., 80 as it is filled before it is shuffled. */
  function OrderedPool(): (p: seq<int>)
    ensures |p| == GridSize && Distinct(p)
    ensures forall x :: x in p <==> InGrid(x)
  {
    var p := seq(GridSize, i => i + 1);
    assert forall x :: InGrid(x) ==> p[x - 1] == x;
    p
  }

  /** A shuffle of the ordered pool: the same numbers, each as often, in some order. */
  predicate IsShuffle(pool: seq<int>)
    ensures IsShuffle(pool) ==> |pool| == GridSize
  {
    assert |multiset(pool)| == |pool|;
    multiset(pool) == multiset(OrderedPool())
  }

  /**
   * Removal from the insertion-ordered set: every occurrence of `x` goes,
   * the other numbers keep their order.
   */
  function Remove(s: seq<int>, x: int): (r: seq<int>)
    ensures forall y :: y in r <==> y in s && y != x
    ensures |r| <= |s|
    ensures x !in s ==> r == s
    ensures Distinct(s) ==> Distinct(r) && (x in s ==> |r| == |s| - 1)
    ensures Distinct(s) && x in s ==>
      exists i :: 0 <= i < |s| && s[i] == x && r == s[..i] + s[i + 1..]
  {
    if s == [] then []
    else if s[0] == x then
      DistinctTail(s);
      assert s[..0] + s[1..] == s[1..];
      Remove(s[1..], x)
    else
      DistinctTail(s);
      DistinctCons(s[0], Remove(s[1..], x));
      SplitAfterHead(s[0], s[1..], x, Remove(s[1..], x));
      assert [s[0]] + s[1..] == s;
      [s[0]] + Remove(s[1..], x)
  }

  /** A removal point in the tail is one position further right once the head is put back. */
  lemma SplitAfterHead(a: int, s: seq<int>, x: int, t: seq<int>)
    ensures (exists i :: 0 <= i < |s| && s[i] == x && t == s[..i] + s[i + 1..]) ==>
      exists i :: 0 <= i < |[a] + s| && ([a] + s)[i] == x && [a] + t == ([a] + s)[..i] + ([a] + s)[i + 1..]
  {
    if exists i :: 0 <= i < |s| && s[i] == x && t == s[..i] + s[i + 1..] {
      var j :| 0 <= j < |s| && s[j] == x && t == s[..j] + s[j + 1..];
      var u := [a] + s;
      assert u[j + 1] == x;
      assert u[..j + 1] == [a] + s[..j];
      assert u[j + 2..] == s[j + 1..];
      assert [a] + t == u[..j + 1] + u[j + 2..];
    }
  }

  lemma DistinctTail(s: seq<int>)
    requires s != []
    ensures Distinct(s) ==> Distinct(s[1..]) && s[0] !in s[1..]
  {
  }

  lemma DistinctCons(a: int, t: seq<int>)
    ensures a !in t && Distinct(t) ==> Distinct([a] + t)
  {
  }

  /** Insertion into the insertion-ordered set: appended unless already present. */
  function Insert(s: seq<int>, x: int): (r: seq<int>)
    ensures forall y :: y in r <==> y in s || y == x
    ensures x in s ==> r == s
    ensures Distinct(s) ==> Distinct(r)
  {
    if x in s then s else s + [x]
  }

  /** Adding a number that was absent and then removing it gives back the very same sequence. */
  lemma {:induction false} RemoveUndoesAppend(s: seq<int>, x: int)
    requires x !in s
    ensures Remove(s + [x], x) == s
  {
    if s == [] {
      assert Remove([x], x) == Remove([], x);
    } else {
      assert (s + [x])[0] == s[0];
      assert (s + [x])[1..] == s[1..] + [x];
      RemoveUndoesAppend(s[1..], x);
      assert [s[0]] + s[1..] == s;
    }
  }

  /** In a sequence without duplicates every number occurs at most once. */
  lemma {:induction false} DistinctOccursOnce(s: seq<int>)
    requires Distinct(s)
    ensures forall x :: multiset(s)[x] <= 1
  {
    if s != [] {
      DistinctTail(s);
      DistinctOccursOnce(s[1..]);
      assert s == [s[0]] + s[1..];
      assert multiset(s) == multiset{s[0]} + multiset(s[1..]);
    }
  }

  /** Two equal entries at different positions make that number occur twice. */
  lemma TwoPositionsTwoOccurrences(s: seq<int>, i: int, j: int)
    requires 0 <= i < j < |s|
    ensures s[i] == s[j] ==> multiset(s)[s[i]] >= 2
  {
    assert s == s[..j] + s[j..];
    assert multiset(s) == multiset(s[..j]) + multiset(s[j..]);
    assert s[..j][i] == s[i];
    assert s[i] in multiset(s[..j]);
    assert s[j..][0] == s[j];
    assert s[j] in multiset(s[j..]);
  }

  /** A sequence in which every number occurs at most once has no duplicates. */
  lemma OccursOnceIsDistinct(s: seq<int>)
    requires forall x :: multiset(s)[x] <= 1
    ensures Distinct(s)
  {
    forall i, j | 0 <= i < j < |s| ensures s[i] != s[j] {
      TwoPositionsTwoOccurrences(s, i, j);
    }
  }

  /** A shuffled pool holds every grid number exactly once. */
  lemma ShuffleIsPermutationOfGrid(pool: seq<int>)
    requires IsShuffle(pool)
    ensures |pool| == GridSize && Distinct(pool)
    ensures forall x :: x in pool <==> InGrid(x)
  {
    var ordered := OrderedPool();
    assert |pool| == |multiset(pool)| == |multiset(ordered)| == |ordered|;
    forall x ensures x in pool <==> InGrid(x) {
      assert x in pool <==> x in multiset(pool);
      assert x in ordered <==> x in multiset(ordered);
    }
    DistinctOccursOnce(ordered);
    OccursOnceIsDistinct(pool);
  }

  /** A set has no more elements than the sequence that lists them. */
  lemma {:induction false} ElementsBound(s: seq<int>)
    ensures |Elements(s)| <= |s|
  {
    if s != [] {
      ElementsBound(s[1..]);
      assert Elements(s) == {s[0]} + Elements(s[1..]) by {
        assert s == [s[0]] + s[1..];
      }
    }
  }

  /** A subset is no larger than its superset. */
  lemma SubsetBound(a: set<int>, b: set<int>)
    requires a <= b
    ensures |a| <= |b|
  {
    assert b == a + (b - a);
    assert a * (b - a) == {};
  }
}
