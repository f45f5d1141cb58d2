/** Append-only tables read back as filtered, sorted streams. */
module Streams {
  import opened Options

  function Filter<T>(xs: seq<T>, keep: T -> bool): seq<T> {
    if xs == [] then []
    else Filter(xs[..|xs| - 1], keep) + (if keep(xs[|xs| - 1]) then [xs[|xs| - 1]] else [])
  }

  lemma FilterAppend<T>(xs: seq<T>, x: T, keep: T -> bool)
    ensures Filter(xs + [x], keep) == if keep(x) then Filter(xs, keep) + [x] else Filter(xs, keep)
  {
    assert (xs + [x])[..|xs|] == xs;
  }

  /** A filtered row is a row of the table, and every kept row is filtered. */
  lemma {:induction false} FilterMember<T>(xs: seq<T>, keep: T -> bool)
    ensures forall x :: x in Filter(xs, keep) <==> x in xs && keep(x)
  {
    if xs != [] {
      FilterMember(xs[..|xs| - 1], keep);
      assert xs == xs[..|xs| - 1] + [xs[|xs| - 1]];
    }
  }

  /** Rows appended to a table are appended to its streams. */
  lemma {:induction false} FilterPrefix<T>(xs: seq<T>, ys: seq<T>, keep: T -> bool)
    requires xs <= ys
    ensures Filter(xs, keep) <= Filter(ys, keep)
    decreases |ys|
  {
    if xs == ys {
    } else {
      FilterPrefix(xs, ys[..|ys| - 1], keep);
    }
  }

  /** Replacing the rows of a table one for one, without moving a row in or out of the stream. */
  lemma {:induction false} FilterReplace<T>(xs: seq<T>, ys: seq<T>, keep: T -> bool)
    requires |xs| == |ys| && forall i :: 0 <= i < |xs| ==> keep(xs[i]) == keep(ys[i]) && (keep(xs[i]) ==> xs[i] == ys[i])
    ensures Filter(xs, keep) == Filter(ys, keep)
  {
    if xs != [] {
      FilterReplace(xs[..|xs| - 1], ys[..|ys| - 1], keep);
    }
  }

  predicate Ascending<T>(xs: seq<T>, key: T -> nat) {
    forall i, j :: 0 <= i < j < |xs| ==> key(xs[i]) <= key(xs[j])
  }

  /** Place `x` after every row that does not sort behind it. */
  function Insert<T>(xs: seq<T>, x: T, key: T -> nat): seq<T> {
    if xs == [] || key(xs[|xs| - 1]) <= key(x) then xs + [x]
    else Insert(xs[..|xs| - 1], x, key) + [xs[|xs| - 1]]
  }

  /** The stable sort of a stream by its revision or attempt number. */
  function SortBy<T>(xs: seq<T>, key: T -> nat): seq<T> {
    if xs == [] then [] else Insert(SortBy(xs[..|xs| - 1], key), xs[|xs| - 1], key)
  }

  lemma {:induction false} InsertMembers<T>(xs: seq<T>, x: T, key: T -> nat)
    ensures multiset(Insert(xs, x, key)) == multiset(xs) + multiset{x}
  {
    if xs != [] && key(xs[|xs| - 1]) > key(x) {
      InsertMembers(xs[..|xs| - 1], x, key);
      assert xs == xs[..|xs| - 1] + [xs[|xs| - 1]];
    }
  }

  lemma AscendingSnoc<T>(xs: seq<T>, last: T, key: T -> nat)
    requires Ascending(xs, key) && forall y :: y in multiset(xs) ==> key(y) <= key(last)
    ensures Ascending(xs + [last], key)
  {
    assert forall i :: 0 <= i < |xs| ==> xs[i] in multiset(xs);
  }

  lemma {:induction false} InsertKeeps<T>(xs: seq<T>, x: T, key: T -> nat)
    requires Ascending(xs, key)
    ensures Ascending(Insert(xs, x, key), key) && multiset(Insert(xs, x, key)) == multiset(xs) + multiset{x}
  {
    InsertMembers(xs, x, key);
    if xs != [] && key(xs[|xs| - 1]) > key(x) {
      var init, last := xs[..|xs| - 1], xs[|xs| - 1];
      InsertKeeps(init, x, key);
      var placed := Insert(init, x, key);
      forall y | y in multiset(placed)
        ensures key(y) <= key(last)
      {
        assert y == x || y in init;
      }
      hide Ascending;
      AscendingSnoc(placed, last, key);
    }
  }

  /** Sorting reorders a stream and nothing else. */
  lemma {:induction false} SortIsPermutation<T>(xs: seq<T>, key: T -> nat)
    ensures Ascending(SortBy(xs, key), key) && multiset(SortBy(xs, key)) == multiset(xs)
  {
    if xs != [] {
      var init, last := xs[..|xs| - 1], xs[|xs| - 1];
      SortIsPermutation(init, key);
      InsertKeeps(SortBy(init, key), last, key);
      assert xs == init + [last];
    }
  }

  lemma LastIsMember<T>(xs: seq<T>, key: T -> nat)
    ensures SortBy(xs, key) == [] <==> xs == []
    ensures xs != [] ==> var sorted := SortBy(xs, key); sorted[|sorted| - 1] in xs
  {
    SortIsPermutation(xs, key);
    var sorted := SortBy(xs, key);
    assert |multiset(xs)| == |xs| && |multiset(sorted)| == |sorted|;
    if xs != [] {
      assert sorted[|sorted| - 1] in multiset(sorted);
    }
  }

  /** Rows 1, 2, ..., n, in that order. */
  ghost predicate Numbered<T>(xs: seq<T>, key: T -> nat) {
    forall i :: 0 <= i < |xs| ==> key(xs[i]) == i + 1
  }

  lemma NumberedAppend<T>(xs: seq<T>, x: T, key: T -> nat)
    requires Numbered(xs, key) && key(x) == |xs| + 1
    ensures Numbered(xs + [x], key)
  {
  }

  /** A numbered stream is read back as it was appended. */
  lemma {:induction false} NumberedIsSorted<T>(xs: seq<T>, key: T -> nat)
    requires Numbered(xs, key)
    ensures SortBy(xs, key) == xs
  {
    if xs != [] {
      var init, last := xs[..|xs| - 1], xs[|xs| - 1];
      assert key(last) == |xs| && (init != [] ==> key(xs[|xs| - 2]) == |xs| - 1);
      NumberedIsSorted(init, key);
      assert Insert(init, last, key) == init + [last];
    }
  }

  /** Number of the last row, or 0. */
  function LastKey<T>(xs: seq<T>, key: T -> nat): nat {
    if xs == [] then 0 else key(xs[|xs| - 1])
  }

  function Last<T>(xs: seq<T>): Option<T> {
    if xs == [] then None else Some(xs[|xs| - 1])
  }

  function Find<T>(xs: seq<T>, wanted: T -> bool): (r: Option<T>)
    ensures r.Some? ==> r.value in xs && wanted(r.value)
    ensures r.None? ==> forall x :: x in xs ==> !wanted(x)
  {
    if xs == [] then None else if wanted(xs[0]) then Some(xs[0]) else Find(xs[1..], wanted)
  }
}
