/**
 * `Array.prototype.sort` with a comparator, which JavaScript requires to be
 * stable. `before(a, b)` holds when the comparator puts `a` strictly ahead of
 * `b` (the comparator called as `cmp(a, b)` is negative). The specification
 * is a stable insertion sort; for a strict weak order its result is the one
 * stable sorted permutation of the input.
 */
module StableSort {

  /** `before` is irreflexive, transitive, and incomparability is transitive. */
  ghost predicate StrictWeakOrder<T(!new)>(before: (T, T) -> bool) {
    && (forall a :: !before(a, a))
    && (forall a, b, c :: before(a, b) && before(b, c) ==> before(a, c))
    && (forall a, b, c :: !before(a, b) && !before(b, c) ==> !before(a, c))
  }

  /** Neither element goes ahead of the other. */
  predicate Tied<T>(before: (T, T) -> bool, a: T, b: T) {
    !before(a, b) && !before(b, a)
  }

  /** No element goes strictly ahead of an earlier one. */
  ghost predicate Sorted<T>(s: seq<T>, before: (T, T) -> bool) {
    forall i, j :: 0 <= i < j < |s| ==> !before(s[j], s[i])
  }

  /** The elements of `s` tied with `e`, in their order in `s`. */
  function Peers<T>(s: seq<T>, e: T, before: (T, T) -> bool): seq<T> {
    if s == [] then []
    else Peers(s[..|s| - 1], e, before) + (if Tied(before, s[|s| - 1], e) then [s[|s| - 1]] else [])
  }

  /** Places `x` after every element it does not go ahead of, scanning from the end. */
  function Insert<T>(s: seq<T>, x: T, before: (T, T) -> bool): seq<T> {
    if s == [] || !before(x, s[|s| - 1]) then s + [x]
    else Insert(s[..|s| - 1], x, before) + [s[|s| - 1]]
  }

  /** The stable sort of `s`. */
  function Sort<T>(s: seq<T>, before: (T, T) -> bool): seq<T> {
    if s == [] then []
    else Insert(Sort(s[..|s| - 1], before), s[|s| - 1], before)
  }

  lemma {:induction false} InsertPermutes<T>(s: seq<T>, x: T, before: (T, T) -> bool)
    ensures multiset(Insert(s, x, before)) == multiset(s) + multiset{x}
  {
    if s != [] && before(x, s[|s| - 1]) {
      InsertPermutes(s[..|s| - 1], x, before);
      assert s == s[..|s| - 1] + [s[|s| - 1]];
    }
  }

  /** The stable sort is a permutation of its input. */
  lemma {:induction false} SortPermutes<T>(s: seq<T>, before: (T, T) -> bool)
    ensures multiset(Sort(s, before)) == multiset(s)
  {
    if s != [] {
      SortPermutes(s[..|s| - 1], before);
      InsertPermutes(Sort(s[..|s| - 1], before), s[|s| - 1], before);
      assert s == s[..|s| - 1] + [s[|s| - 1]];
    }
  }

  lemma {:induction false} InsertSorted<T(!new)>(s: seq<T>, x: T, before: (T, T) -> bool)
    requires StrictWeakOrder(before)
    requires Sorted(s, before)
    ensures Sorted(Insert(s, x, before), before)
  {
    var r := Insert(s, x, before);
    if s == [] || !before(x, s[|s| - 1]) {
      if s != [] {
        forall i | 0 <= i < |s| ensures !before(x, s[i]) {
          if i < |s| - 1 {
            assert !before(s[|s| - 1], s[i]);
          }
        }
      }
    } else {
      var init, last := s[..|s| - 1], s[|s| - 1];
      var r' := Insert(init, x, before);
      InsertSorted(init, x, before);
      InsertPermutes(init, x, before);
      assert r == r' + [last];
      forall i | 0 <= i < |r'| ensures !before(last, r'[i]) {
        assert r'[i] in multiset(r');
        assert r'[i] in multiset(init) + multiset{x};
        if r'[i] != x {
          assert r'[i] in init;
        }
      }
    }
  }

  /** The stable sort orders its result. */
  lemma {:induction false} SortSorted<T(!new)>(s: seq<T>, before: (T, T) -> bool)
    requires StrictWeakOrder(before)
    ensures Sorted(Sort(s, before), before)
  {
    if s != [] {
      SortSorted(s[..|s| - 1], before);
      InsertSorted(Sort(s[..|s| - 1], before), s[|s| - 1], before);
    }
  }

  lemma {:induction false} InsertPeers<T(!new)>(s: seq<T>, x: T, e: T, before: (T, T) -> bool)
    requires StrictWeakOrder(before)
    ensures Peers(Insert(s, x, before), e, before) == Peers(s, e, before) + (if Tied(before, x, e) then [x] else [])
  {
    if s == [] || !before(x, s[|s| - 1]) {
      assert (s + [x])[..|s|] == s;
    } else {
      var init, last := s[..|s| - 1], s[|s| - 1];
      var r' := Insert(init, x, before);
      InsertPeers(init, x, e, before);
      assert (r' + [last])[..|r'|] == r';
      assert Tied(before, x, e) ==> !Tied(before, last, e);
    }
  }

  /** Stability: elements that tie keep their relative order. */
  lemma {:induction false} SortStable<T(!new)>(s: seq<T>, e: T, before: (T, T) -> bool)
    requires StrictWeakOrder(before)
    ensures Peers(Sort(s, before), e, before) == Peers(s, e, before)
  {
    if s != [] {
      SortStable(s[..|s| - 1], e, before);
      InsertPeers(Sort(s[..|s| - 1], before), s[|s| - 1], e, before);
    }
  }

  /** Step of the insertion: one more element of the sorted prefix moves past `x`. */
  lemma {:induction false} InsertUnfold<T>(s: seq<T>, x: T, j: nat, before: (T, T) -> bool)
    requires 0 < j <= |s|
    requires before(x, s[j - 1])
    ensures Insert(s[..j], x, before) == Insert(s[..j - 1], x, before) + [s[j - 1]]
  {
    assert s[..j][..j - 1] == s[..j - 1];
  }

  lemma {:induction false} InsertStep<T>(s: seq<T>, x: T, j: nat, before: (T, T) -> bool)
    requires 0 < j <= |s|
    requires before(x, s[j - 1])
    ensures Insert(s[..j], x, before) + s[j..] == Insert(s[..j - 1], x, before) + s[j - 1..]
  {
    InsertUnfold(s, x, j, before);
    var head := Insert(s[..j - 1], x, before);
    assert s[j - 1..] == [s[j - 1]] + s[j..];
    assert (head + [s[j - 1]]) + s[j..] == head + ([s[j - 1]] + s[j..]);
  }

  /** End of the insertion: `x` stops behind the element it does not go ahead of. */
  lemma {:induction false} InsertStop<T>(s: seq<T>, x: T, j: nat, before: (T, T) -> bool)
    requires j <= |s|
    requires j == 0 || !before(x, s[j - 1])
    requires Insert(s, x, before) == Insert(s[..j], x, before) + s[j..]
    ensures Insert(s, x, before) == s[..j] + [x] + s[j..]
  {
  }

  /** Shifts `a[i]` left past the elements it goes ahead of, as insertion sort does. */
  method InsertInPlace<T>(a: array<T>, i: nat, before: (T, T) -> bool)
    requires i < a.Length
    modifies a
    ensures a[..i + 1] == Insert(old(a[..i]), old(a[i]), before)
    ensures a[i + 1..] == old(a[i + 1..])
  {
    ghost var s := a[..i];
    ghost var rest := a[i + 1..];
    var x := a[i];
    var j := i;
    assert s[..j] == s && s[j..] == [];
    while j > 0 && before(x, a[j - 1])
      invariant 0 <= j <= i
      invariant forall k :: 0 <= k < j ==> a[k] == s[k]
      invariant forall k :: j < k <= i ==> a[k] == s[k - 1]
      invariant a[i + 1..] == rest
      invariant Insert(s, x, before) == Insert(s[..j], x, before) + s[j..]
    {
      InsertStep(s, x, j, before);
      a[j] := a[j - 1];
      j := j - 1;
    }
    InsertStop(s, x, j, before);
    a[j] := x;
    assert a[..i + 1] == s[..j] + [x] + s[j..];
  }

  /** `a.sort(cmp)` in place: the array ends up holding the stable sort of what it held. */
  method SortInPlace<T>(a: array<T>, before: (T, T) -> bool)
    modifies a
    ensures a[..] == Sort(old(a[..]), before)
  {
    ghost var input := a[..];
    var i := 0;
    while i < a.Length
      invariant 0 <= i <= a.Length
      invariant a[..i] == Sort(input[..i], before)
      invariant a[i..] == input[i..]
    {
      ghost var sorted := a[..i];
      ghost var next := input[i];
      assert a[i] == next;
      assert a[i + 1..] == input[i + 1..];
      InsertInPlace(a, i, before);
      assert a[..i + 1] == Insert(sorted, next, before);
      assert input[..i + 1][..i] == input[..i];
      assert Sort(input[..i + 1], before) == Insert(Sort(input[..i], before), next, before);
      i := i + 1;
    }
    assert input[..a.Length] == input;
  }
}
