/**
 * The insertion-ordered, duplicate-free collections (NSMutableOrderedSet) in which a
 * fetch task keeps its completion, fail and retry blocks, modelled as sequences.
 */
module OrderedSet {

  /** Every element occurs at most once: the invariant of an ordered set. */
  predicate NoDup<T(==)>(s: seq<T>) {
    forall i, j :: 0 <= i < j < |s| ==> s[i] != s[j]
  }

  /** `addObject:` — appends `x` unless it is already present. */
  function Add<T(==)>(s: seq<T>, x: T): (r: seq<T>)
    ensures x in r
    ensures |s| <= |r| <= |s| + 1 && r[..|s|] == s
    ensures forall y :: y in s ==> y in r
    ensures forall y :: y in r ==> y in s || y == x
    ensures NoDup(s) ==> NoDup(r)
  {
    if x in s then s else s + [x]
  }

  /** Adding every element of `xs`, one after the other, in the order given. */
  function AddAll<T(==)>(s: seq<T>, xs: seq<T>): (r: seq<T>)
    ensures |s| <= |r| && r[..|s|] == s
    ensures forall y :: y in s ==> y in r
    ensures forall y :: y in xs ==> y in r
    ensures forall y :: y in r ==> y in s || y in xs
    ensures NoDup(s) ==> NoDup(r)
    decreases |xs|
  {
    if xs == [] then s else Add(AddAll(s, xs[..|xs| - 1]), xs[|xs| - 1])
  }

  /** The elements of `xs` that are not in `s`, in their order in `xs`. */
  function Fresh<T(==)>(s: seq<T>, xs: seq<T>): (r: seq<T>)
    ensures forall y :: y in xs && y !in s ==> y in r
    ensures forall y :: y in r ==> y in xs && y !in s
  {
    if xs == [] then [] else (if xs[0] in s then [] else [xs[0]]) + Fresh(s, xs[1..])
  }

  lemma {:induction false} FreshSnoc<T>(s: seq<T>, xs: seq<T>, x: T)
    ensures Fresh(s, xs + [x]) == Fresh(s, xs) + (if x in s then [] else [x])
    decreases |xs|
  {
    if xs == [] {
      assert xs + [x] == [x];
    } else {
      assert (xs + [x])[1..] == xs[1..] + [x];
      FreshSnoc(s, xs[1..], x);
    }
  }

  /**
   * Adding a duplicate-free sequence to an ordered set gives the original set followed
   * by the new elements that were not already present, in their given order.
   */
  lemma {:induction false} AddAllIsAppendOfFresh<T>(s: seq<T>, xs: seq<T>)
    requires NoDup(xs)
    ensures AddAll(s, xs) == s + Fresh(s, xs)
    decreases |xs|
  {
    if xs != [] {
      var init, x := xs[..|xs| - 1], xs[|xs| - 1];
      NoDupSplitLast(xs);
      var f := Fresh(s, init);
      calc {
        AddAll(s, xs);
        { AddAllSnoc(s, xs); }
        Add(AddAll(s, init), x);
        { AddAllIsAppendOfFresh(s, init); }
        Add(s + f, x);
        { AddAfterFresh(s, f, x); }
        s + (f + if x in s then [] else [x]);
        { FreshSplitLast(s, xs); }
        s + Fresh(s, xs);
      }
    }
  }

  lemma FreshSplitLast<T>(s: seq<T>, xs: seq<T>)
    requires xs != []
    ensures Fresh(s, xs) == Fresh(s, xs[..|xs| - 1]) + (if xs[|xs| - 1] in s then [] else [xs[|xs| - 1]])
  {
    assert xs[..|xs| - 1] + [xs[|xs| - 1]] == xs;
    FreshSnoc(s, xs[..|xs| - 1], xs[|xs| - 1]);
  }

  lemma AddAllSnoc<T>(s: seq<T>, xs: seq<T>)
    requires xs != []
    ensures AddAll(s, xs) == Add(AddAll(s, xs[..|xs| - 1]), xs[|xs| - 1])
  {
  }

  lemma NoDupSplitLast<T>(xs: seq<T>)
    requires xs != [] && NoDup(xs)
    ensures NoDup(xs[..|xs| - 1]) && xs[|xs| - 1] !in xs[..|xs| - 1]
  {
  }

  lemma AddAfterFresh<T>(s: seq<T>, f: seq<T>, x: T)
    requires x !in f
    ensures Add(s + f, x) == s + (f + if x in s then [] else [x])
  {
    assert s + f + (if x in s then [] else [x]) == s + (f + if x in s then [] else [x]);
  }

  /** Adding elements that are all present already changes nothing. */
  lemma {:induction false} AddAllPresent<T>(s: seq<T>, xs: seq<T>)
    requires forall x :: x in xs ==> x in s
    ensures AddAll(s, xs) == s
    decreases |xs|
  {
    if xs != [] {
      assert forall x :: x in xs[..|xs| - 1] ==> x in xs;
      AddAllPresent(s, xs[..|xs| - 1]);
      assert xs[|xs| - 1] in xs;
    }
  }

  /** Re-adding the same blocks to a task changes nothing, because the collection is a set. */
  lemma AddAllIdempotent<T>(s: seq<T>, xs: seq<T>)
    ensures AddAll(AddAll(s, xs), xs) == AddAll(s, xs)
  {
    AddAllPresent(AddAll(s, xs), xs);
  }

  /** Adding the elements of a duplicate-free sequence to an empty set copies it. */
  lemma AddAllToEmpty<T>(xs: seq<T>)
    requires NoDup(xs)
    ensures AddAll([], xs) == xs
  {
    AddAllIsAppendOfFresh([], xs);
    FreshOfEmpty(xs);
  }

  lemma {:induction false} FreshOfEmpty<T>(xs: seq<T>)
    ensures Fresh([], xs) == xs
    decreases |xs|
  {
    if xs != [] {
      FreshOfEmpty(xs[1..]);
      assert xs == [xs[0]] + xs[1..];
    }
  }
}
