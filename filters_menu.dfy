/**
 * The filters menu (components/filters-menu.tsx): three check boxes for the
 * status flags, the four sort modes, and "Clear all filters". Every action is
 * a partial update handed to the page's `updateFilters`; the menu keeps no
 * state of its own.
 */
module FiltersMenu {
  import opened Wrappers
  import opened Types

  /** The three boolean filters the menu toggles. */
  datatype Flag = Archived | Unread | Shared

  /** The value of a flag in a set of filters. */
  function FlagOf(f: SearchFilters, k: Flag): Option<bool> {
    match k
    case Archived => f.archived
    case Unread => f.unread
    case Shared => f.shared
  }

  /** The key of a patch that sets a flag. */
  function FlagField(p: FiltersPatch, k: Flag): Field<bool> {
    match k
    case Archived => p.archived
    case Unread => p.unread
    case Shared => p.shared
  }

  /** A check box is ticked only when its flag is exactly `true`. */
  predicate IsChecked(f: SearchFilters, k: Flag) {
    FlagOf(f, k) == Some(true)
  }

  /**
   * `handleToggleFilter`: the patch names only the toggled key; ticking
   * writes `true`, unticking writes `undefined` (never `false`).
   */
  function TogglePatch(k: Flag, value: bool): (p: FiltersPatch)
    ensures FlagField(p, k) == Put(if value then Some(true) else None)
    ensures forall other :: other != k ==> FlagField(p, other) == Keep
    ensures p.q.Keep? && p.tags.Keep? && p.sort.Keep? && p.page.Keep?
  {
    var v: Field<bool> := Put(if value then Some(true) else None);
    match k
    case Archived => NoChange.(archived := v)
    case Unread => NoChange.(unread := v)
    case Shared => NoChange.(shared := v)
  }

  /** `handleSortChange`: the patch names only `sort`. */
  function SortPatch(sort: string): (p: FiltersPatch)
    ensures p.sort == Put(Some(sort))
    ensures p.(sort := Keep) == NoChange
  {
    NoChange.(sort := Put(Some(sort)))
  }

  /** `clearAllFilters`: the three flags cleared and the sort back to "new"; the tags and the query are not named. */
  function ClearAllPatch(): (p: FiltersPatch)
    ensures forall k :: FlagField(p, k) == Put(None)
    ensures p.sort == Put(Some("new"))
    ensures p.q.Keep? && p.tags.Keep? && p.page.Keep?
  {
    FiltersPatch(Keep, Keep, Put(None), Put(None), Put(None), Put(Some("new")), Keep)
  }

  /** The sort entries in menu order, value and label. */
  const SortOptions: seq<(string, string)> := [
    ("new", "Newest first"),
    ("old", "Oldest first"),
    ("title-asc", "Title A-Z"),
    ("title-desc", "Title Z-A")]

  /** An entry shows the check mark when it is the current sort. */
  predicate IsMarked(f: SearchFilters, i: int)
    requires 0 <= i < |SortOptions|
  {
    f.sort == Some(SortOptions[i].0)
  }

  /** The indices of the marked entries. */
  function MarkedEntries(f: SearchFilters): (r: seq<nat>)
    ensures forall i :: i in r <==> 0 <= i < |SortOptions| && IsMarked(f, i)
  {
    Marked(f, 0)
  }

  /** The marked indices from `from` on, in menu order. */
  function Marked(f: SearchFilters, from: nat): (r: seq<nat>)
    requires from <= |SortOptions|
    ensures forall i :: i in r <==> from <= i < |SortOptions| && IsMarked(f, i)
    decreases |SortOptions| - from
  {
    if from == |SortOptions| then []
    else (if IsMarked(f, from) then [from] else []) + Marked(f, from + 1)
  }

  // ---------------------------------------------------------------------------
  // Properties

  /** The menu offers exactly the sort modes the rest of the program knows, in the same order. */
  lemma {:induction false} SortOptionsAreSortModes()
    ensures |SortOptions| == |SortModes|
    ensures forall i :: 0 <= i < |SortOptions| ==> SortOptions[i].0 == SortModes[i]
  {
  }

  /**
   * After a toggle is merged, the box reads back the value it was set to,
   * the flag is never stored as `false`, and every other filter is unchanged.
   */
  lemma {:induction false} ToggleReadsBack(f: SearchFilters, k: Flag, value: bool)
    ensures IsChecked(Merge(f, TogglePatch(k, value)), k) == value
    ensures FlagOf(Merge(f, TogglePatch(k, value)), k) != Some(false)
    ensures forall other :: other != k ==> FlagOf(Merge(f, TogglePatch(k, value)), other) == FlagOf(f, other)
    ensures var m := Merge(f, TogglePatch(k, value));
      m.q == f.q && m.tags == f.tags && m.sort == f.sort && m.page == f.page
  {
    var p := TogglePatch(k, value);
    var m := Merge(f, p);
    forall other ensures FlagOf(m, other) == Override(FlagOf(f, other), FlagField(p, other)) {
      match other
      case Archived =>
      case Unread =>
      case Shared =>
    }
  }

  /** Choosing an entry marks exactly that entry. */
  lemma {:induction false} SortChoiceMarksOne(f: SearchFilters, i: int)
    requires 0 <= i < |SortOptions|
    ensures MarkedEntries(Merge(f, SortPatch(SortOptions[i].0))) == [i]
  {
    var m := Merge(f, SortPatch(SortOptions[i].0));
    assert m.sort == Some(SortOptions[i].0);
  }

  /**
   * A known sort mode marks exactly one entry; any other value (the address
   * is not validated) marks none.
   */
  lemma {:induction false} MarkedIffValid(f: SearchFilters)
    ensures |MarkedEntries(f)| == (if f.sort.Some? && ValidSort(f.sort.value) then 1 else 0)
  {
  }

  /**
   * Clearing leaves every box unticked and the sort on "new", and keeps the
   * query and the selected tags.
   */
  lemma {:induction false} ClearAllResets(f: SearchFilters)
    ensures forall k :: !IsChecked(Merge(f, ClearAllPatch()), k)
    ensures MarkedEntries(Merge(f, ClearAllPatch())) == [0]
    ensures Merge(f, ClearAllPatch()).q == f.q && Merge(f, ClearAllPatch()).tags == f.tags
  {
    var m := Merge(f, ClearAllPatch());
    forall k ensures !IsChecked(m, k) {
      match k
      case Archived =>
      case Unread =>
      case Shared =>
    }
    SortChoiceMarksOne(f, 0);
  }
}
