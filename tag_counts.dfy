/**
 * Tag usage counting (hooks/use-tag-counts.ts, and the same loop in
 * app/api/tags/route.ts) and the count-then-name ranking built on it
 * (app/api/tags/route.ts, components/tags-panel.tsx).
 */
module TagCounts {
  import opened Types
  import Text
  import StableSort

  /**
   * Every tag name of every record, record by record, in order. The records
   * are front-end or upstream bookmarks; `tagsOf` reads their tag list.
   */
  function AllTagNames<T>(bookmarks: seq<T>, tagsOf: T -> seq<string>): seq<string> {
    if bookmarks == [] then []
    else AllTagNames(bookmarks[..|bookmarks| - 1], tagsOf) + tagsOf(bookmarks[|bookmarks| - 1])
  }

  function BookmarkTags(b: Bookmark): seq<string> {
    b.tagNames
  }

  /**
   * The counts after `counts[t] = (counts[t] || 0) + 1` for each name in turn,
   * starting from an empty map: each name that occurs is a key, mapped to its
   * number of occurrences.
   */
  function Tally(names: seq<string>): map<string, nat> {
    if names == [] then map[]
    else
      var counts := Tally(names[..|names| - 1]);
      var last := names[|names| - 1];
      counts[last := CountOf(counts, last) + 1]
  }

  lemma {:induction false} TallyStep(names: seq<string>, t: string)
    ensures Tally(names + [t]) == Tally(names)[t := CountOf(Tally(names), t) + 1]
  {
    assert (names + [t])[..|names|] == names;
  }

  /** Each name that occurs is a key, mapped to its number of occurrences, and nothing else is a key. */
  lemma {:induction false} TallyMeaning(names: seq<string>)
    ensures forall t :: t in Tally(names) <==> t in names
    ensures forall t :: t in Tally(names) ==> Tally(names)[t] == multiset(names)[t] >= 1
  {
    if names != [] {
      var init, last := names[..|names| - 1], names[|names| - 1];
      TallyMeaning(init);
      assert names == init + [last];
    }
  }

  /** `counts[t] || 0`: a name that does not occur counts 0. */
  function CountOf(counts: map<string, nat>, t: string): nat {
    if t in counts then counts[t] else 0
  }

  lemma {:induction false} TallyCountOf(names: seq<string>, t: string)
    ensures CountOf(Tally(names), t) == multiset(names)[t]
  {
    TallyMeaning(names);
  }

  /** The nested `forEach` loops: one increment per tag occurrence. */
  method CountOccurrences<T>(bookmarks: seq<T>, tagsOf: T -> seq<string>) returns (counts: map<string, nat>)
    ensures counts == Tally(AllTagNames(bookmarks, tagsOf))
  {
    counts := map[];
    for i := 0 to |bookmarks|
      invariant counts == Tally(AllTagNames(bookmarks[..i], tagsOf))
    {
      AllTagNamesStep(bookmarks, i, tagsOf);
      counts := CountNames(counts, AllTagNames(bookmarks[..i], tagsOf), tagsOf(bookmarks[i]));
    }
    assert bookmarks[..|bookmarks|] == bookmarks;
  }

  lemma {:induction false} AllTagNamesStep<T>(bookmarks: seq<T>, i: nat, tagsOf: T -> seq<string>)
    requires i < |bookmarks|
    ensures AllTagNames(bookmarks[..i + 1], tagsOf) == AllTagNames(bookmarks[..i], tagsOf) + tagsOf(bookmarks[i])
  {
    assert bookmarks[..i + 1][..i] == bookmarks[..i];
  }

  /** The inner `forEach`: the counts of `done`, incremented once per name of one bookmark. */
  method CountNames(counts0: map<string, nat>, ghost done: seq<string>, names: seq<string>) returns (counts: map<string, nat>)
    requires counts0 == Tally(done)
    ensures counts == Tally(done + names)
  {
    counts := counts0;
    assert done + names[..0] == done;
    for j := 0 to |names|
      invariant counts == Tally(done + names[..j])
    {
      var t := names[j];
      TallyStep(done + names[..j], t);
      assert done + names[..j + 1] == (done + names[..j]) + [t];
      counts := counts[t := (if t in counts then counts[t] else 0) + 1];
    }
    assert names[..|names|] == names;
  }

  /** The hook's state: the counts for the bookmarks it last saw. */
  class TagCountsHook {
    var tagCounts: map<string, nat>

    /** The initial value is an empty map. */
    constructor()
      ensures tagCounts == map[]
    {
      tagCounts := map[];
    }

    /** The effect run when the bookmark list changes: counts recomputed from scratch. */
    method Recompute(bookmarks: seq<Bookmark>)
      modifies this
      ensures tagCounts == Tally(AllTagNames(bookmarks, BookmarkTags))
    {
      var counts := CountOccurrences(bookmarks, BookmarkTags);
      tagCounts := counts;
    }
  }

  // ---------------------------------------------------------------------------
  // Properties of the counts

  lemma {:induction false} AllTagNamesAppend<T>(a: seq<T>, b: seq<T>, tagsOf: T -> seq<string>)
    ensures AllTagNames(a + b, tagsOf) == AllTagNames(a, tagsOf) + AllTagNames(b, tagsOf)
  {
    if b != [] {
      assert (a + b)[..|a + b| - 1] == a + b[..|b| - 1];
      AllTagNamesAppend(a, b[..|b| - 1], tagsOf);
    } else {
      assert a + b == a;
    }
  }

  /** A tag repeated inside one bookmark counts once per repetition. */
  lemma {:induction false} CountsEveryOccurrence<T>(bookmarks: seq<T>, tagsOf: T -> seq<string>, t: string)
    ensures CountOf(Tally(AllTagNames(bookmarks, tagsOf)), t) == multiset(AllTagNames(bookmarks, tagsOf))[t]
    ensures t in Tally(AllTagNames(bookmarks, tagsOf)) <==> exists b :: b in bookmarks && t in tagsOf(b)
  {
    TallyCountOf(AllTagNames(bookmarks, tagsOf), t);
    TallyMeaning(AllTagNames(bookmarks, tagsOf));
    InAllTagNames(bookmarks, tagsOf, t);
  }

  lemma {:induction false} InAllTagNames<T>(bookmarks: seq<T>, tagsOf: T -> seq<string>, t: string)
    ensures t in AllTagNames(bookmarks, tagsOf) <==> exists b :: b in bookmarks && t in tagsOf(b)
  {
    if bookmarks != [] {
      var init, last := bookmarks[..|bookmarks| - 1], bookmarks[|bookmarks| - 1];
      InAllTagNames(init, tagsOf, t);
      assert bookmarks == init + [last];
      if t in AllTagNames(bookmarks, tagsOf) && !(t in AllTagNames(init, tagsOf)) {
        assert t in tagsOf(last);
      }
      if exists b :: b in bookmarks && t in tagsOf(b) {
        var b :| b in bookmarks && t in tagsOf(b);
        if b != last {
          assert b in init;
        }
      }
    }
  }

  /** The names in order of first appearance, each once. */
  function FirstAppearances(names: seq<string>): (r: seq<string>)
    ensures forall t :: t in r <==> t in names
    ensures forall i, j :: 0 <= i < j < |r| ==> r[i] != r[j]
  {
    if names == [] then []
    else
      var init := FirstAppearances(names[..|names| - 1]);
      var last := names[|names| - 1];
      assert names == names[..|names| - 1] + [last];
      if last in init then init else init + [last]
  }

  /** The sum of the counts of the listed names. */
  function SumOver(keys: seq<string>, counts: map<string, nat>): nat {
    if keys == [] then 0 else SumOver(keys[..|keys| - 1], counts) + CountOf(counts, keys[|keys| - 1])
  }

  /** Raising one listed name's count by one raises the sum by one. */
  lemma {:induction false} SumOverBump(keys: seq<string>, counts: map<string, nat>, t: string)
    requires forall i, j :: 0 <= i < j < |keys| ==> keys[i] != keys[j]
    ensures SumOver(keys, counts[t := CountOf(counts, t) + 1]) == SumOver(keys, counts) + (if t in keys then 1 else 0)
  {
    if keys != [] {
      var init := keys[..|keys| - 1];
      SumOverBump(init, counts, t);
      if t == keys[|keys| - 1] {
        assert t !in init;
      }
    }
  }

  /** The counts add up to the total number of tag occurrences. */
  lemma {:induction false} TallySum(names: seq<string>)
    ensures SumOver(FirstAppearances(names), Tally(names)) == |names|
  {
    if names != [] {
      var init, last := names[..|names| - 1], names[|names| - 1];
      TallySum(init);
      var keys := FirstAppearances(init);
      var counts := Tally(init);
      var bumped := counts[last := CountOf(counts, last) + 1];
      assert Tally(names) == bumped;
      SumOverBump(keys, counts, last);
      if last !in keys {
        TallyMeaning(init);
        assert CountOf(counts, last) == 0;
        assert FirstAppearances(names) == keys + [last];
        assert (keys + [last])[..|keys|] == keys;
        assert SumOver(keys + [last], bumped) == SumOver(keys, bumped) + CountOf(bumped, last);
      }
    }
  }

  /** The sum of all counts equals the total length of all the bookmarks' tag lists. */
  lemma {:induction false} CountsSumToOccurrences<T>(bookmarks: seq<T>, tagsOf: T -> seq<string>)
    ensures SumOver(FirstAppearances(AllTagNames(bookmarks, tagsOf)), Tally(AllTagNames(bookmarks, tagsOf))) == |AllTagNames(bookmarks, tagsOf)|
  {
    TallySum(AllTagNames(bookmarks, tagsOf));
  }

  lemma {:induction false} MultisetRemoveAt<T>(b: seq<T>, k: nat)
    requires k < |b|
    ensures multiset(b[..k] + b[k + 1..]) + multiset{b[k]} == multiset(b)
  {
    assert b == b[..k] + [b[k]] + b[k + 1..];
  }

  /** Taking one bookmark out of a list takes its tags out of the list's tags. */
  lemma {:induction false} TagsRemoveAt<T>(b: seq<T>, tagsOf: T -> seq<string>, k: nat)
    requires k < |b|
    ensures multiset(AllTagNames(b, tagsOf)) == multiset(AllTagNames(b[..k] + b[k + 1..], tagsOf)) + multiset(tagsOf(b[k]))
  {
    assert b == (b[..k] + [b[k]]) + b[k + 1..];
    TagsRemoveMiddle(b[..k], b[k], b[k + 1..], tagsOf);
  }

  lemma {:induction false} TagsRemoveMiddle<T>(front: seq<T>, x: T, back: seq<T>, tagsOf: T -> seq<string>)
    ensures multiset(AllTagNames((front + [x]) + back, tagsOf)) ==
            multiset(AllTagNames(front + back, tagsOf)) + multiset(tagsOf(x))
  {
    var f, t, r := AllTagNames(front, tagsOf), tagsOf(x), AllTagNames(back, tagsOf);
    AllTagNamesSnoc(front, x, tagsOf);
    AllTagNamesAppend(front + [x], back, tagsOf);
    AllTagNamesAppend(front, back, tagsOf);
    calc {
      multiset(AllTagNames((front + [x]) + back, tagsOf));
      multiset((f + t) + r);
      multiset(f) + multiset(t) + multiset(r);
      multiset(f + r) + multiset(t);
    }
  }

  lemma {:induction false} AllTagNamesSnoc<T>(front: seq<T>, x: T, tagsOf: T -> seq<string>)
    ensures AllTagNames(front + [x], tagsOf) == AllTagNames(front, tagsOf) + tagsOf(x)
  {
    assert (front + [x])[..|front|] == front;
  }

  lemma {:induction false} AllTagNamesPermutation<T>(a: seq<T>, b: seq<T>, tagsOf: T -> seq<string>)
    requires multiset(a) == multiset(b)
    ensures multiset(AllTagNames(a, tagsOf)) == multiset(AllTagNames(b, tagsOf))
  {
    if a == [] {
      assert |multiset(b)| == 0;
      assert b == [];
    } else {
      var init, last := a[..|a| - 1], a[|a| - 1];
      assert a == init + [last];
      assert multiset(a) == multiset(init) + multiset{last};
      assert last in multiset(b);
      var k :| 0 <= k < |b| && b[k] == last;
      var rest := b[..k] + b[k + 1..];
      MultisetRemoveAt(b, k);
      forall x ensures multiset(init)[x] == multiset(rest)[x] {
        assert multiset(a)[x] == multiset(b)[x];
        assert multiset(a)[x] == multiset(init)[x] + multiset{last}[x];
        assert multiset(b)[x] == multiset(rest)[x] + multiset{last}[x];
      }
      assert multiset(init) == multiset(rest);
      AllTagNamesPermutation(init, rest, tagsOf);
      TagsRemoveAt(b, tagsOf, k);
    }
  }

  /** Reordering the bookmarks gives the same counts. */
  lemma {:induction false} TallyPermutation<T>(a: seq<T>, b: seq<T>, tagsOf: T -> seq<string>)
    requires multiset(a) == multiset(b)
    ensures Tally(AllTagNames(a, tagsOf)) == Tally(AllTagNames(b, tagsOf))
  {
    AllTagNamesPermutation(a, b, tagsOf);
    var x, y := AllTagNames(a, tagsOf), AllTagNames(b, tagsOf);
    TallyMeaning(x);
    TallyMeaning(y);
    forall t ensures t in x <==> t in y {
      assert t in x <==> t in multiset(x);
      assert t in y <==> t in multiset(y);
    }
  }

  // ---------------------------------------------------------------------------
  // Ranking

  /**
   * The comparator of both tag sorts is negative exactly when `a` has the
   * higher count, or the same count and the lower name.
   */
  predicate RanksBefore(counts: map<string, nat>, a: string, b: string) {
    CountOf(counts, a) > CountOf(counts, b) ||
    (CountOf(counts, a) == CountOf(counts, b) && Text.NameLess(a, b))
  }

  /** The ranking is a strict total order on names: irreflexive, transitive, and any two different names compare. */
  lemma {:induction false} RanksBeforeOrder(counts: map<string, nat>)
    ensures forall a :: !RanksBefore(counts, a, a)
    ensures forall a, b, c :: RanksBefore(counts, a, b) && RanksBefore(counts, b, c) ==> RanksBefore(counts, a, c)
    ensures forall a, b :: a != b ==> RanksBefore(counts, a, b) || RanksBefore(counts, b, a)
  {
    forall a ensures !RanksBefore(counts, a, a) {
      Text.NameLessIrreflexive(a);
    }
    forall a, b, c | RanksBefore(counts, a, b) && RanksBefore(counts, b, c)
      ensures RanksBefore(counts, a, c)
    {
      if CountOf(counts, a) == CountOf(counts, b) == CountOf(counts, c) {
        Text.NameLessTransitive(a, b, c);
      }
    }
    forall a, b | a != b ensures RanksBefore(counts, a, b) || RanksBefore(counts, b, a) {
      Text.NameLessTotal(a, b);
    }
  }

  /** The sort comparator over records named by `nameOf`: negative exactly when `RanksBefore` holds. */
  function RankBy<T>(counts: map<string, nat>, nameOf: T -> string): (T, T) -> bool {
    (a: T, b: T) => RanksBefore(counts, nameOf(a), nameOf(b))
  }

  function TagName(t: Tag): string {
    t.name
  }

  /** Records with the same name tie; otherwise the ranking of names decides, so the sort is well defined. */
  lemma {:induction false} RankByIsStrictWeakOrder<T(!new)>(counts: map<string, nat>, nameOf: T -> string)
    ensures StableSort.StrictWeakOrder(RankBy(counts, nameOf))
  {
    var before := RankBy(counts, nameOf);
    RanksBeforeOrder(counts);
    forall a: T, b: T, c: T | !before(a, b) && !before(b, c) ensures !before(a, c) {
      var x, y, z := nameOf(a), nameOf(b), nameOf(c);
      assert !RanksBefore(counts, x, y) && !RanksBefore(counts, y, z);
      if x != y && y != z {
        assert RanksBefore(counts, z, x);
      }
    }
  }
}
