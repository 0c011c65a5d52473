/**
 * The home page's logic (app/page.tsx): the fan-out of bookmarks into tag
 * groups, the tag and filter handlers (each a partial update for the URL
 * synchronisation hook), the active-filter count, and the choice of what the
 * content area shows.
 */
module Page {
  import opened Wrappers
  import opened Types
  import opened TagCounts
  import opened UrlSync
  import opened SearchParams
  import opened QueryState
  import FiltersMenu

  // ---------------------------------------------------------------------------
  // Tag groups

  const Untagged: string := "Untagged"

  /** The groups a bookmark lands in: once per tag occurrence, or once in "Untagged" when it has no tags. */
  function Slots(b: Bookmark): (r: seq<string>)
    ensures |r| >= 1
  {
    if |b.tagNames| == 0 then [Untagged] else b.tagNames
  }

  /** Every group slot of every bookmark, in order. */
  function AllSlots(bookmarks: seq<Bookmark>): seq<string> {
    AllTagNames(bookmarks, Slots)
  }

  function Entry(groups: map<string, seq<Bookmark>>, k: string): seq<Bookmark> {
    if k in groups then groups[k] else []
  }

  /** Adds the bookmark at the end of the group under `k`, creating an empty group first when there is none. */
  function Push(groups: map<string, seq<Bookmark>>, k: string, b: Bookmark): map<string, seq<Bookmark>> {
    groups[k := Entry(groups, k) + [b]]
  }

  /** Pushing one bookmark under each of the keys in turn. */
  function PushAll(groups: map<string, seq<Bookmark>>, keys: seq<string>, b: Bookmark): map<string, seq<Bookmark>>
    decreases |keys|
  {
    if keys == [] then groups
    else Push(PushAll(groups, keys[..|keys| - 1], b), keys[|keys| - 1], b)
  }

  /** The groups after the `forEach` over the bookmarks. */
  function Grouped(bookmarks: seq<Bookmark>): map<string, seq<Bookmark>> {
    if bookmarks == [] then map[]
    else
      var last := bookmarks[|bookmarks| - 1];
      PushAll(Grouped(bookmarks[..|bookmarks| - 1]), Slots(last), last)
  }

  /** The groups in the order their keys were first created. */
  function GroupOrder(bookmarks: seq<Bookmark>): seq<string> {
    FirstAppearances(AllSlots(bookmarks))
  }

  function Repeat(b: Bookmark, n: nat): (r: seq<Bookmark>)
    ensures |r| == n
    ensures forall i :: 0 <= i < n ==> r[i] == b
  {
    seq(n, _ => b)
  }

  /**
   * The reference meaning of a group: the bookmarks in input order, each
   * repeated as often as the key is one of its slots.
   */
  function Members(bookmarks: seq<Bookmark>, k: string): seq<Bookmark> {
    if bookmarks == [] then []
    else
      var last := bookmarks[|bookmarks| - 1];
      Members(bookmarks[..|bookmarks| - 1], k) + Repeat(last, multiset(Slots(last))[k])
  }

  /** The number of group entries the source promises: one per tag occurrence, or one for an untagged bookmark. */
  function Entries(bookmarks: seq<Bookmark>): nat {
    if bookmarks == [] then 0
    else
      var last := bookmarks[|bookmarks| - 1];
      Entries(bookmarks[..|bookmarks| - 1]) + (if |last.tagNames| == 0 then 1 else |last.tagNames|)
  }

  /** The sum of the sizes of the listed groups. */
  function TotalSize(order: seq<string>, groups: map<string, seq<Bookmark>>): nat {
    if order == [] then 0 else TotalSize(order[..|order| - 1], groups) + |Entry(groups, order[|order| - 1])|
  }

  /** `groupedBookmarks`: the `forEach` loops filling the `groups` record. */
  method GroupBookmarks(bookmarks: seq<Bookmark>) returns (order: seq<string>, groups: map<string, seq<Bookmark>>)
    ensures order == GroupOrder(bookmarks)
    ensures groups == Grouped(bookmarks)
  {
    order, groups := [], map[];
    if |bookmarks| == 0 {
      return;
    }
    for i := 0 to |bookmarks|
      invariant order == FirstAppearances(AllSlots(bookmarks[..i]))
      invariant groups == Grouped(bookmarks[..i])
    {
      var b := bookmarks[i];
      if |b.tagNames| == 0 {
        UntaggedStep(bookmarks, i);
        order, groups := AddToGroup(order, groups, Untagged, b);
      } else {
        TaggedStep(bookmarks, i);
        order, groups := AddToGroups(order, groups, AllSlots(bookmarks[..i]), b.tagNames, b);
      }
    }
    assert bookmarks[..|bookmarks|] == bookmarks;
  }

  /** One push: the key's group is created (and the key listed) when missing, then the bookmark appended. */
  method AddToGroup(order0: seq<string>, groups0: map<string, seq<Bookmark>>, key: string, b: Bookmark)
    returns (order: seq<string>, groups: map<string, seq<Bookmark>>)
    requires key in groups0 <==> key in order0
    ensures order == if key in order0 then order0 else order0 + [key]
    ensures groups == Push(groups0, key, b)
  {
    order, groups := order0, groups0;
    if key !in groups {
      groups := groups[key := []];
      order := order + [key];
    }
    groups := groups[key := groups[key] + [b]];
  }

  /** One pass of the inner loop, on the specification functions. */
  lemma {:induction false} AddToGroupsStep(names: seq<string>, tags: seq<string>, j: nat, groups0: map<string, seq<Bookmark>>, b: Bookmark)
    requires j < |tags|
    requires forall k :: k in groups0 <==> k in names
    ensures tags[j] in PushAll(groups0, tags[..j], b) <==> tags[j] in FirstAppearances(names + tags[..j])
    ensures var order := FirstAppearances(names + tags[..j]);
      FirstAppearances(names + tags[..j + 1]) == if tags[j] in order then order else order + [tags[j]]
    ensures PushAll(groups0, tags[..j + 1], b) == Push(PushAll(groups0, tags[..j], b), tags[j], b)
  {
    PushAllMeaning(groups0, tags[..j], b);
    assert tags[..j + 1] == tags[..j] + [tags[j]];
    assert names + tags[..j + 1] == (names + tags[..j]) + [tags[j]];
    PushAllSnoc(groups0, tags[..j], tags[j], b);
    FirstAppearancesSnoc(names + tags[..j], tags[j]);
  }

  /** `tag_names.forEach(...)`: one push per tag, in order. */
  method AddToGroups(order0: seq<string>, groups0: map<string, seq<Bookmark>>, ghost names: seq<string>,
                     tags: seq<string>, b: Bookmark)
    returns (order: seq<string>, groups: map<string, seq<Bookmark>>)
    requires order0 == FirstAppearances(names)
    requires forall k :: k in groups0 <==> k in names
    ensures order == FirstAppearances(names + tags)
    ensures groups == PushAll(groups0, tags, b)
  {
    order, groups := order0, groups0;
    assert names + tags[..0] == names;
    for j := 0 to |tags|
      invariant order == FirstAppearances(names + tags[..j])
      invariant groups == PushAll(groups0, tags[..j], b)
    {
      AddToGroupsStep(names, tags, j, groups0, b);
      order, groups := AddToGroup(order, groups, tags[j], b);
    }
    assert tags[..|tags|] == tags;
  }

  /** One pass of the outer loop for an untagged bookmark, on the specification functions. */
  lemma {:induction false} UntaggedStep(bookmarks: seq<Bookmark>, i: nat)
    requires i < |bookmarks| && |bookmarks[i].tagNames| == 0
    ensures Untagged in Grouped(bookmarks[..i]) <==> Untagged in FirstAppearances(AllSlots(bookmarks[..i]))
    ensures var order := FirstAppearances(AllSlots(bookmarks[..i]));
      FirstAppearances(AllSlots(bookmarks[..i + 1])) == if Untagged in order then order else order + [Untagged]
    ensures Grouped(bookmarks[..i + 1]) == Push(Grouped(bookmarks[..i]), Untagged, bookmarks[i])
  {
    GroupStep(bookmarks, i);
    GroupedMeaning(bookmarks[..i]);
    FirstAppearancesSnoc(AllSlots(bookmarks[..i]), Untagged);
    PushAllSnoc(Grouped(bookmarks[..i]), [], Untagged, bookmarks[i]);
  }

  /** One pass of the outer loop for a tagged bookmark, on the specification functions. */
  lemma {:induction false} TaggedStep(bookmarks: seq<Bookmark>, i: nat)
    requires i < |bookmarks| && |bookmarks[i].tagNames| > 0
    ensures forall k :: k in Grouped(bookmarks[..i]) <==> k in AllSlots(bookmarks[..i])
    ensures AllSlots(bookmarks[..i + 1]) == AllSlots(bookmarks[..i]) + bookmarks[i].tagNames
    ensures Grouped(bookmarks[..i + 1]) == PushAll(Grouped(bookmarks[..i]), bookmarks[i].tagNames, bookmarks[i])
  {
    GroupStep(bookmarks, i);
    GroupedMeaning(bookmarks[..i]);
  }

  lemma {:induction false} GroupStep(bookmarks: seq<Bookmark>, i: nat)
    requires i < |bookmarks|
    ensures AllSlots(bookmarks[..i + 1]) == AllSlots(bookmarks[..i]) + Slots(bookmarks[i])
    ensures Grouped(bookmarks[..i + 1]) == PushAll(Grouped(bookmarks[..i]), Slots(bookmarks[i]), bookmarks[i])
  {
    assert bookmarks[..i + 1][..i] == bookmarks[..i];
  }

  lemma {:induction false} FirstAppearancesSnoc(names: seq<string>, x: string)
    ensures FirstAppearances(names + [x]) == if x in FirstAppearances(names) then FirstAppearances(names) else FirstAppearances(names) + [x]
  {
    assert (names + [x])[..|names|] == names;
  }

  lemma {:induction false} PushAllSnoc(groups: map<string, seq<Bookmark>>, keys: seq<string>, x: string, b: Bookmark)
    ensures PushAll(groups, keys + [x], b) == Push(PushAll(groups, keys, b), x, b)
  {
    assert (keys + [x])[..|keys|] == keys;
  }

  lemma {:induction false} RepeatSnoc(b: Bookmark, n: nat)
    ensures Repeat(b, n) + [b] == Repeat(b, n + 1)
  {
  }

  lemma {:induction false} PushAllMeaning(groups: map<string, seq<Bookmark>>, keys: seq<string>, b: Bookmark)
    ensures forall k :: k in PushAll(groups, keys, b) <==> k in groups || k in keys
    ensures forall k :: Entry(PushAll(groups, keys, b), k) == Entry(groups, k) + Repeat(b, multiset(keys)[k])
    decreases |keys|
  {
    if keys == [] {
      forall k ensures Entry(PushAll(groups, keys, b), k) == Entry(groups, k) + Repeat(b, multiset(keys)[k]) {
        assert Repeat(b, 0) == [];
      }
    } else {
      var init, last := keys[..|keys| - 1], keys[|keys| - 1];
      PushAllMeaning(groups, init, b);
      forall k ensures Entry(PushAll(groups, keys, b), k) == Entry(groups, k) + Repeat(b, multiset(keys)[k]) {
        PushAllEntryStep(groups, keys, b, k);
      }
    }
  }

  /** One more key pushed: the entry under `k` grows by one bookmark exactly when `k` is that key. */
  lemma {:induction false} PushAllEntryStep(groups: map<string, seq<Bookmark>>, keys: seq<string>, b: Bookmark, k: string)
    requires keys != []
    requires Entry(PushAll(groups, keys[..|keys| - 1], b), k) == Entry(groups, k) + Repeat(b, multiset(keys[..|keys| - 1])[k])
    ensures Entry(PushAll(groups, keys, b), k) == Entry(groups, k) + Repeat(b, multiset(keys)[k])
  {
    var init, last := keys[..|keys| - 1], keys[|keys| - 1];
    assert keys == init + [last];
    assert multiset(keys)[k] == multiset(init)[k] + (if k == last then 1 else 0);
    if k == last {
      RepeatSnoc(b, multiset(init)[k]);
    }
  }

  /** The groups the loops build are exactly the reference groups, keyed by the slots that occur. */
  lemma {:induction false} GroupedMeaning(bookmarks: seq<Bookmark>)
    ensures forall k :: k in Grouped(bookmarks) <==> k in AllSlots(bookmarks)
    ensures forall k :: Entry(Grouped(bookmarks), k) == Members(bookmarks, k)
  {
    if bookmarks != [] {
      var init, last := bookmarks[..|bookmarks| - 1], bookmarks[|bookmarks| - 1];
      GroupedMeaning(init);
      PushAllMeaning(Grouped(init), Slots(last), last);
      assert AllSlots(bookmarks) == AllSlots(init) + Slots(last);
    }
  }

  /** Grouping a concatenation groups each part and concatenates the groups: input order is kept. */
  lemma {:induction false} MembersAppend(a: seq<Bookmark>, b: seq<Bookmark>, k: string)
    ensures Members(a + b, k) == Members(a, k) + Members(b, k)
  {
    if b == [] {
      assert a + b == a;
    } else {
      var init := b[..|b| - 1];
      assert (a + b)[..|a + b| - 1] == a + init;
      MembersAppend(a, init, k);
    }
  }

  /** Every member of a group is an input bookmark whose slots include the key, and a group has one entry per occurrence of its key among the slots. */
  lemma {:induction false} MembersCarryKey(bookmarks: seq<Bookmark>, k: string)
    ensures forall x :: x in Members(bookmarks, k) ==> x in bookmarks && k in Slots(x)
    ensures |Members(bookmarks, k)| == multiset(AllSlots(bookmarks))[k]
  {
    if bookmarks != [] {
      var init, last := bookmarks[..|bookmarks| - 1], bookmarks[|bookmarks| - 1];
      MembersCarryKey(init, k);
      assert AllSlots(bookmarks) == AllSlots(init) + Slots(last);
      assert bookmarks == init + [last];
      forall x | x in Members(bookmarks, k) ensures x in bookmarks && k in Slots(x) {
        if x !in Members(init, k) {
          assert x in Repeat(last, multiset(Slots(last))[k]);
          assert multiset(Slots(last))[k] > 0;
        }
      }
    }
  }

  /**
   * The fan-out as the page promises it: no groups for no bookmarks; an
   * untagged bookmark alone is one entry in "Untagged"; a tagged one is one
   * entry per occurrence of each of its tags.
   */
  lemma {:induction false} FanOutUntagged(b: Bookmark)
    requires |b.tagNames| == 0
    ensures Grouped([]) == map[]
    ensures forall k :: k in Grouped([b]) <==> k == Untagged
    ensures Entry(Grouped([b]), Untagged) == [b]
  {
    GroupedMeaning([b]);
    assert [b][..0] == [] && [b][|[b]| - 1] == b;
    assert AllTagNames([b], Slots) == AllTagNames([b][..0], Slots) + Slots(b);
    assert AllTagNames([b][..0], Slots) == [];
    assert AllSlots([b]) == [Untagged];
    assert Members([b], Untagged) == Members([], Untagged) + Repeat(b, multiset(Slots(b))[Untagged]);
    assert multiset(Slots(b))[Untagged] == 1;
    assert Repeat(b, 1) == [b];
  }

  lemma {:induction false} FanOutTagged(b: Bookmark, k: string)
    requires |b.tagNames| > 0
    ensures Entry(Grouped([b]), k) == Repeat(b, multiset(b.tagNames)[k])
  {
    GroupedMeaning([b]);
    assert [b][..0] == [] && [b][|[b]| - 1] == b;
    assert Members([b], k) == Members([], k) + Repeat(b, multiset(Slots(b))[k]);
    assert Slots(b) == b.tagNames;
  }

  lemma {:induction false} SlotsCountEntries(bookmarks: seq<Bookmark>)
    ensures |AllSlots(bookmarks)| == Entries(bookmarks)
  {
    if bookmarks != [] {
      SlotsCountEntries(bookmarks[..|bookmarks| - 1]);
    }
  }

  lemma {:induction false} TotalSizeCounts(order: seq<string>, groups: map<string, seq<Bookmark>>, counts: map<string, nat>)
    requires forall k :: k in order ==> |Entry(groups, k)| == CountOf(counts, k)
    ensures TotalSize(order, groups) == SumOver(order, counts)
  {
    if order != [] {
      TotalSizeCounts(order[..|order| - 1], groups, counts);
    }
  }

  /** Over all groups, in their order, there are exactly Σ max(1, |tag_names|) entries. */
  lemma {:induction false} GroupsTotal(bookmarks: seq<Bookmark>)
    ensures TotalSize(GroupOrder(bookmarks), Grouped(bookmarks)) == Entries(bookmarks)
  {
    var names := AllSlots(bookmarks);
    GroupedMeaning(bookmarks);
    forall k | k in GroupOrder(bookmarks)
      ensures |Entry(Grouped(bookmarks), k)| == CountOf(Tally(names), k)
    {
      MembersCarryKey(bookmarks, k);
      TallyCountOf(names, k);
    }
    TotalSizeCounts(GroupOrder(bookmarks), Grouped(bookmarks), Tally(names));
    CountsSumToOccurrences(bookmarks, Slots);
    SlotsCountEntries(bookmarks);
  }

  // ---------------------------------------------------------------------------
  // Tag handlers

  /** The tags other than `tag`, in their order (`filter(t => t !== tag)`). */
  function RemoveAll(tags: seq<string>, tag: string): (r: seq<string>)
    ensures tag !in r
    ensures forall u :: u != tag ==> multiset(r)[u] == multiset(tags)[u]
  {
    if tags == [] then []
    else
      var init, last := tags[..|tags| - 1], tags[|tags| - 1];
      assert tags == init + [last];
      RemoveAll(init, tag) + (if last == tag then [] else [last])
  }

  /** The filter keeps the order of the other tags: it distributes over concatenation. */
  lemma {:induction false} RemoveAllAppend(a: seq<string>, b: seq<string>, tag: string)
    ensures RemoveAll(a + b, tag) == RemoveAll(a, tag) + RemoveAll(b, tag)
  {
    if b == [] {
      assert a + b == a;
    } else {
      var init := b[..|b| - 1];
      assert (a + b)[..|a + b| - 1] == a + init;
      RemoveAllAppend(a, init, tag);
    }
  }

  lemma {:induction false} RemoveAllAbsent(tags: seq<string>, tag: string)
    requires tag !in tags
    ensures RemoveAll(tags, tag) == tags
  {
    if tags != [] {
      RemoveAllAbsent(tags[..|tags| - 1], tag);
      assert tags == tags[..|tags| - 1] + [tags[|tags| - 1]];
    }
  }

  /** `handleTagClick`'s new list: a selected tag is removed everywhere, another one appended. */
  function ToggledTags(current: Option<seq<string>>, tag: string): seq<string> {
    var tags := current.GetOr([]);
    if tag in tags then RemoveAll(tags, tag) else tags + [tag]
  }

  /** `handleTagClick`: the patch names only `tags`, always with a list (possibly empty). */
  function TagClickPatch(current: Option<seq<string>>, tag: string): FiltersPatch {
    NoChange.(tags := Put(Some(ToggledTags(current, tag))))
  }

  /** `handleTagRemove`: the tag dropped, and an emptied list written as `undefined`. */
  function TagRemovePatch(current: Option<seq<string>>, tag: string): (p: FiltersPatch)
    ensures p.tags.Put? && p.(tags := Keep) == NoChange
    ensures p.tags.value.Some? ==> |p.tags.value.value| > 0 && tag !in p.tags.value.value
    ensures p.tags.value.Some? ==> p.tags.value.value == RemoveAll(current.GetOr([]), tag)
  {
    var rest := RemoveAll(current.GetOr([]), tag);
    NoChange.(tags := Put(if |rest| > 0 then Some(rest) else None))
  }

  /** The list becomes absent only when every selected tag was the removed one. */
  lemma {:induction false} TagRemoveEmptied(current: Option<seq<string>>, tag: string)
    ensures TagRemovePatch(current, tag).tags.value.None? <==> forall t :: t in current.GetOr([]) ==> t == tag
  {
    var tags := current.GetOr([]);
    var rest := RemoveAll(tags, tag);
    if rest == [] {
      forall t | t in tags ensures t == tag {
        assert multiset(rest)[t] == 0;
      }
    } else {
      var t := rest[0];
      assert t in rest && t != tag;
      assert multiset(tags)[t] == multiset(rest)[t] > 0;
      assert t in tags;
    }
  }

  /** `handleClearAllTags`: a patch that names only the tags, setting them to `undefined`. */
  const ClearTagsPatch: FiltersPatch := NoChange.(tags := Put(None))

  /**
   * Clicking a selected tag removes every occurrence of it and keeps the
   * other tags, with their counts; clicking another tag appends it at the end.
   */
  lemma {:induction false} TagClickToggles(current: Option<seq<string>>, tag: string)
    ensures var tags := current.GetOr([]);
      tag in tags ==>
        && tag !in ToggledTags(current, tag)
        && forall u :: u != tag ==> multiset(ToggledTags(current, tag))[u] == multiset(tags)[u]
    ensures tag !in current.GetOr([]) ==> ToggledTags(current, tag) == current.GetOr([]) + [tag]
  {
  }

  /** Clicking an unselected tag twice restores the selection. */
  lemma {:induction false} TagClickTwice(current: Option<seq<string>>, tag: string)
    requires tag !in current.GetOr([])
    ensures ToggledTags(Some(ToggledTags(current, tag)), tag) == current.GetOr([])
  {
    var tags := current.GetOr([]);
    RemoveAllAppend(tags, [tag], tag);
    assert RemoveAll([tag], tag) == [] by {
      assert [tag][..0] == [];
    }
    RemoveAllAbsent(tags, tag);
  }

  /** The order of the remaining tags is the order they had: removing from `a + b` is removing from each. */
  lemma {:induction false} TagRemoveKeepsOrder(a: seq<string>, b: seq<string>, tag: string)
    ensures TagRemovePatch(Some(a + b), tag).tags.value.GetOr([]) == RemoveAll(a, tag) + RemoveAll(b, tag)
  {
    RemoveAllAppend(a, b, tag);
  }

  // ---------------------------------------------------------------------------
  // Clearing, loading more, counting

  /** The filters part of `handleClearFilters`: tags and the flags cleared, sort "new". */
  const ClearFiltersPatch: FiltersPatch := FiltersPatch(Keep, Put(None), Put(None), Put(None), Put(None), Put(Some("new")), Keep)

  /**
   * `handleClearFilters` as written: `updateSearchQuery("")` and then
   * `updateFilters(...)` in the same handler, the second reading the query
   * ref that no effect has updated yet.
   */
  function ClearFiltersAsWritten(s: SyncState): SyncState {
    FiltersUpdated(QueryUpdated(s, ""), ClearFiltersPatch)
  }

  /** `handleClearFilters` with the cleared query reaching the second URL write. */
  function ClearFilters(s: SyncState): SyncState {
    var cleared := QueryUpdated(s, "");
    FiltersUpdated(cleared.(searchQueryRef := cleared.searchQuery), ClearFiltersPatch)
  }

  /** `(filters.page || 1) + 1`: an absent or zero page counts as page 1. */
  function NextPage(page: Option<int>): int {
    (if page.Some? && page.value != 0 then page.value else 1) + 1
  }

  /** `handleLoadMore`'s patch: only `page`, so the hook does not reset it. */
  function LoadMorePatch(page: Option<int>): FiltersPatch {
    NoChange.(page := Put(Some(NextPage(page))))
  }

  function Indicator(b: bool): nat {
    if b then 1 else 0
  }

  /** The number of active filters: one per flag that is exactly `true`, plus one per selected tag. */
  function ActiveCount(f: SearchFilters): nat {
    Indicator(f.archived == Some(true)) + Indicator(f.unread == Some(true)) + Indicator(f.shared == Some(true)) +
    (if f.tags.Some? then |f.tags.value| else 0)
  }

  /** `activeFiltersCount`: a counter raised step by step. */
  method ActiveFiltersCount(f: SearchFilters) returns (count: nat)
    ensures count == ActiveCount(f)
  {
    count := 0;
    if f.archived == Some(true) {
      count := count + 1;
    }
    if f.unread == Some(true) {
      count := count + 1;
    }
    if f.shared == Some(true) {
      count := count + 1;
    }
    if f.tags.Some? && |f.tags.value| > 0 {
      count := count + |f.tags.value|;
    }
  }

  predicate HasActiveFilters(f: SearchFilters, searchQuery: string) {
    ActiveCount(f) > 0 || |searchQuery| > 0
  }

  /** There is nothing to clear exactly when no flag is `true`, no tag is selected and the search is empty. */
  lemma {:induction false} NoActiveFilters(f: SearchFilters, searchQuery: string)
    ensures !HasActiveFilters(f, searchQuery) <==>
      && f.archived != Some(true) && f.unread != Some(true) && f.shared != Some(true)
      && (f.tags.None? || f.tags.value == [])
      && searchQuery == ""
  {
  }

  /** Ticking a box in the menu adds one active filter unless it was already ticked; unticking removes it. */
  lemma {:induction false} ToggleCounts(f: SearchFilters, k: FiltersMenu.Flag, value: bool)
    ensures ActiveCount(Merge(f, FiltersMenu.TogglePatch(k, value))) + Indicator(FiltersMenu.IsChecked(f, k)) ==
            ActiveCount(f) + Indicator(value)
  {
    FiltersMenu.ToggleReadsBack(f, k, value);
  }

  /** Clicking an unselected tag adds one active filter. */
  lemma {:induction false} TagClickCounts(f: SearchFilters, tag: string)
    requires tag !in f.tags.GetOr([])
    ensures ActiveCount(Merge(f, TagClickPatch(f.tags, tag))) == ActiveCount(f) + 1
  {
  }

  /**
   * Load more asks for the page after the current one (page 2 from the
   * initial or a reloaded state) and the hook keeps it instead of resetting
   * it to 1; nothing else of the filters changes.
   */
  lemma {:induction false} LoadMoreKeepsPage(s: SyncState)
    ensures FiltersUpdated(s, LoadMorePatch(s.filters.page)).filters == s.filtersRef.(page := Some(NextPage(s.filters.page)))
    ensures s.filters.page.None? || s.filters.page == Some(1) ==> NextPage(s.filters.page) == 2
    ensures s.filters.page.Some? && s.filters.page.value > 0 ==> NextPage(s.filters.page) == s.filters.page.value + 1
  {
  }

  /**
   * The handler as written: with a query in the query ref, the state's query
   * is cleared but the last URL written (the address afterwards) still
   * carries the old query, so a reload brings the search back.
   */
  lemma {:induction false} ClearFiltersKeepsQueryInUrl(s: SyncState)
    requires s.searchQueryRef != ""
    ensures ClearFiltersAsWritten(s).searchQuery == ""
    ensures Get(ClearFiltersAsWritten(s).location, "q") == Some(s.searchQueryRef)
    ensures Initialise(Initial(ClearFiltersAsWritten(s).location)).searchQuery == s.searchQueryRef
  {
    var q := s.searchQueryRef;
    var s1 := QueryUpdated(s, "");
    var f := ResetPage(Merge(s1.filtersRef, ClearFiltersPatch), ClearFiltersPatch);
    UrlCarriesQuery(f, q);
    GetBuildAll(Combined(f, q));
  }

  /**
   * With the cleared query reaching the write, the address afterwards holds
   * no search, no tags, no flags and no sort, the page shows no active
   * filter, and a reload finds the same cleared state.
   */
  lemma {:induction false} ClearFiltersClearsAll(s: SyncState)
    ensures ClearFilters(s).location == []
    ensures ClearFilters(s).written == s.written + [UrlFor(s.filtersRef.(page := Some(1)), ""), Root]
    ensures !HasActiveFilters(ClearFilters(s).filters, ClearFilters(s).searchQuery)
    ensures ClearFilters(s).filters.q == s.filtersRef.q
    ensures ClearFilters(s).filters.sort == Some("new") && ClearFilters(s).filters.page == Some(1)
  {
    var f := ClearFilters(s).filters;
    BuildShape(Combined(f, ""));
  }

  // ---------------------------------------------------------------------------
  // What the content area shows

  datatype EmptyKind = NoBookmarks | NoResults

  datatype Content = PageSkeleton | ErrorView | GridSkeleton | EmptyState(kind: EmptyKind) | Groups

  /**
   * The skeleton before the address is read, the error view, the grid
   * skeleton while the first results load, the empty state, or the groups.
   */
  function ContentFor(isReady: bool, error: Option<string>, loading: bool, count: nat,
                      totalCount: int, hasActiveFilters: bool): Content
  {
    if !isReady then PageSkeleton
    else if error.Some? && error.value != "" then ErrorView
    else if loading && count == 0 then GridSkeleton
    else if count == 0 then EmptyState(if totalCount == 0 && !hasActiveFilters then NoBookmarks else NoResults)
    else Groups
  }

  /**
   * Once ready and without an error, the empty state appears exactly when
   * nothing is loading and there are no bookmarks, and it says "no bookmarks"
   * exactly when the total is 0 and no filter is active.
   */
  lemma {:induction false} EmptyStateChoice(error: Option<string>, loading: bool, count: nat, totalCount: int, hasActiveFilters: bool)
    requires error.None? || error.value == ""
    ensures ContentFor(true, error, loading, count, totalCount, hasActiveFilters).EmptyState? <==> !loading && count == 0
    ensures ContentFor(true, error, loading, count, totalCount, hasActiveFilters) == EmptyState(NoBookmarks) <==>
      !loading && count == 0 && totalCount == 0 && !hasActiveFilters
  {
  }
}
