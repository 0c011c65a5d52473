/**
 * The tags panel (components/tags-panel.tsx): the loaded tags narrowed by
 * the panel's search box, then ranked by how often the page's bookmarks use
 * them and by name; and "clear all", which removes the selected tags one by
 * one through the page's handler.
 */
module TagsPanel {
  import opened Wrappers
  import opened Types
  import opened TagCounts
  import opened StableSort
  import opened UrlSync
  import Text
  import TagsHook
  import QueryState
  import SearchParams
  import Page

  /** `sortedTags`: the filtered tags ranked by count (a missing count is 0), then by name, ties in their loaded order. */
  function SortedTags(filtered: seq<Tag>, counts: map<string, nat>): seq<Tag> {
    Sort(filtered, RankBy(counts, TagName))
  }

  /** What the panel lists: the loaded tags matching the search, ranked. */
  function PanelTags(tags: seq<Tag>, searchQuery: string, counts: map<string, nat>): seq<Tag> {
    SortedTags(TagsHook.SearchTags(tags, searchQuery), counts)
  }

  /** `[...filteredTags].sort(...)`: the sort runs on a fresh copy. */
  method SortCopy(filtered: seq<Tag>, counts: map<string, nat>) returns (sorted: seq<Tag>)
    ensures sorted == SortedTags(filtered, counts)
  {
    var copy := new Tag[|filtered|](i requires 0 <= i < |filtered| => filtered[i]);
    assert copy[..] == filtered;
    SortInPlace(copy, RankBy(counts, TagName));
    sorted := copy[..];
  }

  /** The ranking lists the same tags, as often, as the filtered list. */
  lemma {:induction false} SortedTagsPermutes(filtered: seq<Tag>, counts: map<string, nat>)
    ensures multiset(SortedTags(filtered, counts)) == multiset(filtered)
  {
    SortPermutes(filtered, RankBy(counts, TagName));
  }

  /** Higher counts come first, and among equal counts no name comes after a greater one. */
  lemma {:induction false} SortedTagsOrder(filtered: seq<Tag>, counts: map<string, nat>)
    ensures var r := SortedTags(filtered, counts);
      forall i, j :: 0 <= i < j < |r| ==>
        CountOf(counts, r[i].name) > CountOf(counts, r[j].name) ||
        (CountOf(counts, r[i].name) == CountOf(counts, r[j].name) && !Text.NameLess(r[j].name, r[i].name))
  {
    var before := RankBy(counts, TagName);
    RankByIsStrictWeakOrder(counts, TagName);
    SortSorted(filtered, before);
    var r := Sort(filtered, before);
    RanksBeforeOrder(counts);
    forall i, j | 0 <= i < j < |r|
      ensures CountOf(counts, r[i].name) > CountOf(counts, r[j].name) ||
              (CountOf(counts, r[i].name) == CountOf(counts, r[j].name) && !Text.NameLess(r[j].name, r[i].name))
    {
      assert !before(r[j], r[i]);
      assert before(r[j], r[i]) == RanksBefore(counts, TagName(r[j]), TagName(r[i]));
    }
  }

  /** Tags that tie on count and name keep their loaded order. */
  lemma {:induction false} SortedTagsStable(filtered: seq<Tag>, counts: map<string, nat>, e: Tag)
    ensures Peers(SortedTags(filtered, counts), e, RankBy(counts, TagName)) == Peers(filtered, e, RankBy(counts, TagName))
  {
    RankByIsStrictWeakOrder(counts, TagName);
    SortStable(filtered, e, RankBy(counts, TagName));
  }

  /** The counts come from the page's bookmarks: the panel ranks by the same counts whatever their order. */
  lemma {:induction false} PanelIgnoresBookmarkOrder(tags: seq<Tag>, searchQuery: string, a: seq<Bookmark>, b: seq<Bookmark>)
    requires multiset(a) == multiset(b)
    ensures PanelTags(tags, searchQuery, Tally(AllTagNames(a, BookmarkTags))) ==
            PanelTags(tags, searchQuery, Tally(AllTagNames(b, BookmarkTags)))
  {
    TallyPermutation(a, b, BookmarkTags);
  }

  // ---------------------------------------------------------------------------
  // Clearing the selection

  /**
   * `clearAllTags` as the page wires it: one `handleTagRemove(tag)` per
   * selected tag, in order, each computed from the tags of the render
   * (`renderTags`) and each merged by `updateFilters` over a filters ref that
   * no effect updates in between.
   */
  function RemoveEach(s: SyncState, renderTags: Option<seq<string>>, tags: seq<string>): SyncState {
    if tags == [] then s
    else
      FiltersUpdated(RemoveEach(s, renderTags, tags[..|tags| - 1]), Page.TagRemovePatch(renderTags, tags[|tags| - 1]))
  }

  /** The `forEach` over the selected tags, calling the page's removal handler on the hook. */
  method ClearAllTags(hook: UrlSyncHook, renderTags: Option<seq<string>>)
    modifies hook
    ensures hook.State() == RemoveEach(old(hook.State()), renderTags, renderTags.GetOr([]))
  {
    var selectedTags := renderTags.GetOr([]);
    for i := 0 to |selectedTags|
      invariant hook.State() == RemoveEach(old(hook.State()), renderTags, selectedTags[..i])
    {
      assert selectedTags[..i + 1][..i] == selectedTags[..i];
      hook.UpdateFilters(Page.TagRemovePatch(renderTags, selectedTags[i]));
    }
    assert selectedTags[..|selectedTags|] == selectedTags;
  }

  /** The removals leave the filters ref alone, so each one merges over the same filters. */
  lemma {:induction false} RemoveEachKeepsRef(s: SyncState, renderTags: Option<seq<string>>, tags: seq<string>)
    ensures RemoveEach(s, renderTags, tags).filtersRef == s.filtersRef
  {
    if tags != [] {
      RemoveEachKeepsRef(s, renderTags, tags[..|tags| - 1]);
    }
  }

  /**
   * As written, clearing all leaves the selection of the render without its
   * last tag (or absent when only that tag was selected): every removal is
   * computed from the render's list and merged over the same filters ref,
   * so the last removal wins. With "a" and "b" selected, "a" stays.
   */
  lemma {:induction false} ClearAllTagsKeepsAllButLast(s: SyncState, tags: seq<string>)
    requires tags != []
    ensures var rest := Page.RemoveAll(tags, tags[|tags| - 1]);
      RemoveEach(s, Some(tags), tags).filters.tags == if |rest| > 0 then Some(rest) else None
  {
    var r, t := Some(tags), tags[|tags| - 1];
    var mid := RemoveEach(s, r, tags[..|tags| - 1]);
    RemoveEachKeepsRef(s, r, tags[..|tags| - 1]);
    assert RemoveEach(s, r, tags) == FiltersUpdated(mid, Page.TagRemovePatch(r, t));
  }

  /** The two-tag instance: with "a" and "b" selected, clearing all leaves "a" selected. */
  lemma {:induction false} ClearAllTagsKeepsA(s: SyncState)
    ensures RemoveEach(s, Some(["a", "b"]), ["a", "b"]).filters.tags == Some(["a"])
  {
    ClearAllTagsKeepsAllButLast(s, ["a", "b"]);
    assert Page.RemoveAll(["a", "b"], "b") == ["a"] by {
      assert ["a", "b"][..1] == ["a"];
      assert ["a"][..0] == [];
      assert Page.RemoveAll(["a"], "b") == Page.RemoveAll([], "b") + ["a"];
    }
  }

  /** Clearing the selection in one update, as the page's own "clear all" does. */
  function ClearAllTagsCorrected(s: SyncState): SyncState {
    FiltersUpdated(s, Page.ClearTagsPatch)
  }

  /**
   * The corrected clear leaves no tag selected and no tag in the address,
   * whatever was selected, and keeps every other filter.
   */
  lemma {:induction false} ClearAllTagsClears(s: SyncState)
    ensures ClearAllTagsCorrected(s).filters.tags.None?
    ensures ClearAllTagsCorrected(s).filters == s.filtersRef.(tags := None, page := Some(1))
    ensures SearchParams.Get(ClearAllTagsCorrected(s).location, "tags") == None
  {
    var f := ClearAllTagsCorrected(s).filters;
    QueryState.GetBuildAll(Combined(f, s.searchQueryRef));
  }
}
