/**
 * The record types shared by the bookmark front-end (lib/types.ts) and the
 * partial-object updates (`Partial<SearchFilters>`) its handlers build.
 * Timestamps are modelled as integer instants.
 */
module Types {
  import opened Wrappers

  /** A bookmark as the front-end holds it. */
  datatype Bookmark = Bookmark(
    id: int,
    url: string,
    title: string,
    description: string,
    notes: string,
    webArchiveSnapshotUrl: Option<string>,
    faviconUrl: Option<string>,
    previewImageUrl: Option<string>,
    isArchived: bool,
    unread: bool,
    shared: bool,
    tagNames: seq<string>,
    dateAdded: int,
    dateModified: int,
    websiteTitle: Option<string>,
    websiteDescription: Option<string>)

  datatype Tag = Tag(id: int, name: string, dateAdded: int)

  /** `count`, `next` and `previous` are optional in this shape. */
  datatype BookmarksResponse = BookmarksResponse(
    results: seq<Bookmark>,
    count: Option<int>,
    next: Option<string>,
    previous: Option<string>)

  datatype TagsResponse = TagsResponse(
    count: int,
    next: Option<string>,
    previous: Option<string>,
    results: seq<Tag>)

  /**
   * Filter criteria. `sort` is a plain string because parsing passes the raw
   * URL value through without checking it against the four sort modes.
   */
  datatype SearchFilters = SearchFilters(
    q: Option<string>,
    tags: Option<seq<string>>,
    archived: Option<bool>,
    unread: Option<bool>,
    shared: Option<bool>,
    sort: Option<string>,
    page: Option<int>)

  /** The four sort modes of the `sort` union type, in declaration order. */
  const SortModes: seq<string> := ["new", "old", "title-asc", "title-desc"]

  predicate ValidSort(s: string) {
    s in SortModes
  }

  /**
   * One key of a `Partial<SearchFilters>`: `Keep` when the key is not in the
   * object, `Put(v)` when it is, with `Put(None)` for a key whose value is
   * `undefined` (which the spread `{...a, ...b}` copies over, clearing it).
   */
  datatype Field<T> = Keep | Put(value: Option<T>)

  datatype FiltersPatch = FiltersPatch(
    q: Field<string>,
    tags: Field<seq<string>>,
    archived: Field<bool>,
    unread: Field<bool>,
    shared: Field<bool>,
    sort: Field<string>,
    page: Field<int>)

  /** The empty object `{}`. */
  const NoChange := FiltersPatch(Keep, Keep, Keep, Keep, Keep, Keep, Keep)

  function Override<T>(current: Option<T>, f: Field<T>): Option<T> {
    match f
    case Keep => current
    case Put(v) => v
  }

  /** The current filters with every field the patch names replaced by the patch value, `undefined` included. */
  function Merge(current: SearchFilters, patch: FiltersPatch): (r: SearchFilters)
    ensures patch.q.Put? ==> r.q == patch.q.value
    ensures patch.q.Keep? ==> r.q == current.q
    ensures patch.tags.Put? ==> r.tags == patch.tags.value
    ensures patch.tags.Keep? ==> r.tags == current.tags
    ensures patch.archived.Put? ==> r.archived == patch.archived.value
    ensures patch.archived.Keep? ==> r.archived == current.archived
    ensures patch.unread.Put? ==> r.unread == patch.unread.value
    ensures patch.unread.Keep? ==> r.unread == current.unread
    ensures patch.shared.Put? ==> r.shared == patch.shared.value
    ensures patch.shared.Keep? ==> r.shared == current.shared
    ensures patch.sort.Put? ==> r.sort == patch.sort.value
    ensures patch.sort.Keep? ==> r.sort == current.sort
    ensures patch.page.Put? ==> r.page == patch.page.value
    ensures patch.page.Keep? ==> r.page == current.page
    ensures patch == NoChange ==> r == current
  {
    SearchFilters(
      Override(current.q, patch.q),
      Override(current.tags, patch.tags),
      Override(current.archived, patch.archived),
      Override(current.unread, patch.unread),
      Override(current.shared, patch.shared),
      Override(current.sort, patch.sort),
      Override(current.page, patch.page))
  }

  /** JavaScript truthiness of an optional string (`!!next`): present and non-empty. */
  predicate Truthy(s: Option<string>) {
    s.Some? && s.value != ""
  }

  /**
   * What a client hook's `fetch` and `response.json()` come to: a body, a
   * response that is not ok, or a rejection (with the message of the `Error`
   * thrown, or `None` when the thrown value is not an `Error`).
   */
  datatype Outcome<T> = Ok(body: T) | NotOk | Threw(message: Option<string>)

  /** The `catch` clause: the error's message, the hook's own message for a non-ok response, or "An error occurred". */
  function FailureMessage<T>(o: Outcome<T>, notOk: string): string
    requires !o.Ok?
  {
    match o
    case NotOk => notOk
    case Threw(m) => m.GetOr("An error occurred")
  }
}

/**
 * `URLSearchParams` as an ordered list of key/value pairs. Percent-encoding
 * of the serialised form is not modelled.
 */
module SearchParams {
  import opened Wrappers

  type Params = seq<(string, string)>

  /** `params.get(key)`: the value of the first pair with that key. */
  function Get(p: Params, key: string): (r: Option<string>)
    ensures r.Some? ==> (key, r.value) in p
  {
    if p == [] then None
    else if p[0].0 == key then Some(p[0].1)
    else Get(p[1..], key)
  }

  /**
   * `get` finds nothing exactly when no pair has the key, and otherwise the
   * value of the first such pair: `?sort=a&sort=b` reads "a".
   */
  lemma {:induction false} GetFirst(p: Params, key: string)
    ensures Get(p, key).None? <==> forall i :: 0 <= i < |p| ==> p[i].0 != key
    ensures Get(p, key).Some? ==>
      exists i :: 0 <= i < |p| && p[i] == (key, Get(p, key).value) && forall j :: 0 <= j < i ==> p[j].0 != key
  {
    if p != [] && p[0].0 != key {
      var r := Get(p[1..], key);
      GetFirst(p[1..], key);
      assert forall i :: 1 <= i < |p| ==> p[i] == p[1..][i - 1];
      if r.Some? {
        var i :| 0 <= i < |p[1..]| && p[1..][i] == (key, r.value) && forall j :: 0 <= j < i ==> p[1..][j].0 != key;
        assert p[i + 1] == (key, r.value);
      }
    } else if p != [] {
      assert p[0] == (key, p[0].1);
    }
  }
}
