/**
 * The URL query-state codec (lib/query-state.ts): filter criteria to and from
 * an ordered list of query parameters.
 */
module QueryState {
  import opened Wrappers
  import opened Types
  import opened SearchParams
  import Text

  /** The keys the codec writes, in the order it writes them. */
  const Keys: seq<string> := ["q", "tags", "archived", "unread", "shared", "sort"]

  /** Tag lists that survive `join(",")` followed by `split(",").filter(Boolean)`. */
  predicate EncodableTags(tags: Option<seq<string>>) {
    tags.Some? ==> forall i :: 0 <= i < |tags.value| ==> tags.value[i] != [] && ',' !in tags.value[i]
  }

  /** The shape every parsed value has. */
  predicate Parsed(f: SearchFilters) {
    && (f.q.Some? ==> f.q.value != "")
    && EncodableTags(f.tags)
    && f.unread != Some(false)
    && f.shared != Some(false)
    && f.sort.Some? && f.sort.value != ""
    && f.page.None?
  }

  function ParseTags(v: Option<string>): (r: Option<seq<string>>)
    ensures r.Some? <==> v.Some?
    ensures EncodableTags(r)
    ensures v.Some? ==> forall x :: x in r.value <==> x in Text.Split(v.value, ',') && x != []
    ensures v == Some("") ==> r == Some([])
  {
    match v
    case None => None
    case Some(s) =>
      var pieces := Text.NonEmpty(Text.Split(s, ','));
      assert forall i :: 0 <= i < |pieces| ==> pieces[i] in Text.Split(s, ',');
      Some(pieces)
  }

  /** Empty pieces are skipped and the rest kept in order: `?tags=a,,b` selects "a" then "b". */
  lemma {:induction false} ParseTagsSkipsEmpty()
    ensures ParseTags(Some("a,,b")) == Some(["a", "b"])
  {
    SplitDoubleComma();
    DropsMiddle();
  }

  lemma {:induction false} SplitDoubleComma()
    ensures Text.Split("a,,b", ',') == ["a", "", "b"]
  {
    Text.SplitNoSep("b", ',');
    Text.SplitPrefix("", ',', "b");
    assert "" + [','] + "b" == ",b";
    Text.SplitPrefix("a", ',', ",b");
    assert "a" + [','] + ",b" == "a,,b";
  }

  lemma {:induction false} DropsMiddle()
    ensures Text.NonEmpty(["a", "", "b"]) == ["a", "b"]
  {
    Text.NonEmptyAppend(["a"], ["", "b"]);
    Text.NonEmptyAppend([""], ["b"]);
    Text.NonEmptyOne("a");
    Text.NonEmptyOne("");
    Text.NonEmptyOne("b");
    assert ["a", "", "b"] == ["a"] + ([""] + ["b"]);
  }

  /**
   * How each raw parameter value (or its absence) becomes a field: an empty q
   * is absent; tags are split on "," with empty pieces dropped; archived knows
   * "1" and "0"; unread and shared know only "1"; an empty or missing sort is
   * "new"; page is never read.
   */
  function Decode(q: Option<string>, tags: Option<string>, archived: Option<string>,
                  unread: Option<string>, shared: Option<string>, sort: Option<string>): (f: SearchFilters)
    ensures Parsed(f)
    ensures f.q.Some? <==> q.Some? && q.value != ""
    ensures f.q.Some? ==> f.q == q
    ensures f.tags.Some? <==> tags.Some?
    ensures f.archived == Some(true) <==> archived == Some("1")
    ensures f.archived == Some(false) <==> archived == Some("0")
    ensures f.unread == Some(true) <==> unread == Some("1")
    ensures f.shared == Some(true) <==> shared == Some("1")
    ensures sort.Some? && sort.value != "" ==> f.sort == sort
    ensures !(sort.Some? && sort.value != "") ==> f.sort == Some("new")
  {
    SearchFilters(
      if q.Some? && q.value != "" then q else None,
      ParseTags(tags),
      if archived == Some("1") then Some(true) else if archived == Some("0") then Some(false) else None,
      if unread == Some("1") then Some(true) else None,
      if shared == Some("1") then Some(true) else None,
      if sort.Some? && sort.value != "" then sort else Some("new"),
      None)
  }

  /** `parseSearchParams`: each key read with `get`, which sees the first value only. */
  function Parse(p: Params): (f: SearchFilters)
    ensures Parsed(f)
  {
    Decode(Get(p, "q"), Get(p, "tags"), Get(p, "archived"), Get(p, "unread"), Get(p, "shared"), Get(p, "sort"))
  }

  /** A key given twice is read from its first occurrence: `?sort=a&sort=b` sorts by "a". */
  lemma {:induction false} ParseReadsFirst(rest: Params)
    ensures Parse([("sort", "a"), ("sort", "b")] + rest).sort == Some("a")
  {
    var p := [("sort", "a"), ("sort", "b")] + rest;
    assert p[0] == ("sort", "a");
    GetFirst(p, "sort");
  }

  /** One `params.set(key, value)` on a fresh object, or nothing. */
  function Emit(key: string, value: Option<string>): Params {
    if value.Some? then [(key, value.value)] else []
  }

  function QValue(f: SearchFilters): Option<string> {
    if f.q.Some? && f.q.value != "" then f.q else None
  }

  function TagsValue(f: SearchFilters): Option<string> {
    if f.tags.Some? && |f.tags.value| > 0 then Some(Text.Join(f.tags.value, ',')) else None
  }

  function ArchivedValue(f: SearchFilters): Option<string> {
    match f.archived
    case Some(b) => if b then Some("1") else Some("0")
    case None => None
  }

  function FlagValue(flag: Option<bool>): Option<string> {
    if flag == Some(true) then Some("1") else None
  }

  function SortValue(f: SearchFilters): Option<string> {
    if f.sort.Some? && f.sort.value != "" && f.sort.value != "new" then f.sort else None
  }

  /** True when every field is at its default, so nothing is written. */
  predicate AllDefault(f: SearchFilters) {
    && QValue(f).None?
    && TagsValue(f).None?
    && f.archived.None?
    && f.unread != Some(true)
    && f.shared != Some(true)
    && SortValue(f).None?
  }

  /** Position of a key in `Keys`. */
  function KeyRank(k: string): nat {
    if k == "q" then 0 else if k == "tags" then 1 else if k == "archived" then 2
    else if k == "unread" then 3 else if k == "shared" then 4 else 5
  }

  /** `buildSearchParams`: the non-default criteria written as parameters, in the fixed key order. */
  function Build(f: SearchFilters): (r: Params)
  {
    Emit("q", QValue(f)) + (Emit("tags", TagsValue(f)) + (Emit("archived", ArchivedValue(f)) +
    (Emit("unread", FlagValue(f.unread)) + (Emit("shared", FlagValue(f.shared)) + Emit("sort", SortValue(f))))))
  }

  /** The page is never written. */
  lemma {:induction false} BuildIgnoresPage(f: SearchFilters, page: Option<int>)
    ensures Build(f.(page := page)) == Build(f)
  {
    var g := f.(page := page);
    assert QValue(g) == QValue(f) && TagsValue(g) == TagsValue(f) && ArchivedValue(g) == ArchivedValue(f);
    assert SortValue(g) == SortValue(f);
  }

  /** Keys come out in the fixed order, each at most once; nothing is written exactly when every field is at its default. */
  lemma {:induction false} BuildShape(f: SearchFilters)
    ensures KeysFrom(Build(f), 0) && RankOrdered(Build(f))
    ensures Build(f) == [] <==> AllDefault(f)
  {
    BuildOrdered(f);
    BuildEmpty(f);
  }

  lemma {:induction false} BuildOrdered(f: SearchFilters)
    ensures KeysFrom(Build(f), 0) && RankOrdered(Build(f))
  {
    var p6 := Emit("sort", SortValue(f));
    var p5 := Emit("shared", FlagValue(f.shared)) + p6;
    var p4 := Emit("unread", FlagValue(f.unread)) + p5;
    var p3 := Emit("archived", ArchivedValue(f)) + p4;
    var p2 := Emit("tags", TagsValue(f)) + p3;
    assert p6 + [] == p6;
    assert Keys[5] == "sort" && Keys[4] == "shared" && Keys[3] == "unread";
    assert Keys[2] == "archived" && Keys[1] == "tags" && Keys[0] == "q";
    EmitFront("sort", SortValue(f), []);
    EmitFront("shared", FlagValue(f.shared), p6);
    EmitFront("unread", FlagValue(f.unread), p5);
    EmitFront("archived", ArchivedValue(f), p4);
    EmitFront("tags", TagsValue(f), p3);
    EmitFront("q", QValue(f), p2);
  }

  lemma {:induction false} BuildEmpty(f: SearchFilters)
    ensures Build(f) == [] <==> AllDefault(f)
  {
    var p6 := Emit("sort", SortValue(f));
    var p5 := Emit("shared", FlagValue(f.shared)) + p6;
    var p4 := Emit("unread", FlagValue(f.unread)) + p5;
    var p3 := Emit("archived", ArchivedValue(f)) + p4;
    var p2 := Emit("tags", TagsValue(f)) + p3;
    assert |Build(f)| == |Emit("q", QValue(f))| + |p2|;
    assert |p2| == |Emit("tags", TagsValue(f))| + |p3|;
    assert |p3| == |Emit("archived", ArchivedValue(f))| + |p4|;
    assert |p4| == |Emit("unread", FlagValue(f.unread))| + |p5|;
    assert |p5| == |Emit("shared", FlagValue(f.shared))| + |p6|;
  }

  /** Every key is one the codec writes, of rank `lo` or later. */
  predicate KeysFrom(p: Params, lo: nat) {
    forall i :: 0 <= i < |p| ==> p[i].0 in Keys && KeyRank(p[i].0) >= lo
  }

  /** Keys in strictly increasing rank. */
  predicate RankOrdered(p: Params) {
    forall i, j :: 0 <= i < j < |p| ==> KeyRank(p[i].0) < KeyRank(p[j].0)
  }

  /** Emitting a key in front of later keys keeps the order. */
  lemma {:induction false} EmitFront(k: string, v: Option<string>, rest: Params)
    requires k in Keys
    requires KeysFrom(rest, KeyRank(k) + 1) && RankOrdered(rest)
    ensures KeysFrom(Emit(k, v) + rest, KeyRank(k)) && RankOrdered(Emit(k, v) + rest)
  {
    if v.None? {
      assert Emit(k, v) + rest == rest;
    } else {
      assert Emit(k, v) + rest == [(k, v.value)] + rest;
      ConsOrdered((k, v.value), rest, KeyRank(k));
    }
  }

  lemma {:induction false} ConsOrdered(x: (string, string), rest: Params, lo: nat)
    requires x.0 in Keys && KeyRank(x.0) == lo
    requires KeysFrom(rest, lo + 1) && RankOrdered(rest)
    ensures KeysFrom([x] + rest, lo) && RankOrdered([x] + rest)
  {
    var w := [x] + rest;
    forall i | 1 <= i < |w|
      ensures w[i] == rest[i - 1]
    {
    }
    forall i, j | 0 <= i < j < |w|
      ensures KeyRank(w[i].0) < KeyRank(w[j].0)
    {
      if i > 0 {
        assert KeyRank(rest[i - 1].0) < KeyRank(rest[j - 1].0);
      }
    }
  }

  lemma {:induction false} GetEmit(k: string, v: Option<string>, rest: Params, key: string)
    ensures Get(Emit(k, v) + rest, key) == if v.Some? && k == key then v else Get(rest, key)
  {
    if v.Some? {
      assert (Emit(k, v) + rest)[1..] == rest;
    } else {
      assert Emit(k, v) + rest == rest;
    }
  }

  /** The value written under `key`, if any. */
  function Written(f: SearchFilters, key: string): Option<string> {
    if key == "q" then QValue(f)
    else if key == "tags" then TagsValue(f)
    else if key == "archived" then ArchivedValue(f)
    else if key == "unread" then FlagValue(f.unread)
    else if key == "shared" then FlagValue(f.shared)
    else if key == "sort" then SortValue(f)
    else None
  }

  /** What a reader of the built parameters sees under each key. */
  lemma {:induction false} GetBuild(f: SearchFilters, key: string)
    ensures Get(Build(f), key) == Written(f, key)
  {
    var p6 := Emit("sort", SortValue(f));
    var p5 := Emit("shared", FlagValue(f.shared)) + p6;
    var p4 := Emit("unread", FlagValue(f.unread)) + p5;
    var p3 := Emit("archived", ArchivedValue(f)) + p4;
    var p2 := Emit("tags", TagsValue(f)) + p3;
    GetEmit("sort", SortValue(f), [], key);
    assert p6 == p6 + [];
    GetEmit("shared", FlagValue(f.shared), p6, key);
    GetEmit("unread", FlagValue(f.unread), p5, key);
    GetEmit("archived", ArchivedValue(f), p4, key);
    GetEmit("tags", TagsValue(f), p3, key);
    GetEmit("q", QValue(f), p2, key);
  }

  lemma {:induction false} GetBuildAll(f: SearchFilters)
    ensures Get(Build(f), "q") == QValue(f)
    ensures Get(Build(f), "tags") == TagsValue(f)
    ensures Get(Build(f), "archived") == ArchivedValue(f)
    ensures Get(Build(f), "unread") == FlagValue(f.unread)
    ensures Get(Build(f), "shared") == FlagValue(f.shared)
    ensures Get(Build(f), "sort") == SortValue(f)
    ensures Get(Build(f), "page") == None
  {
    GetBuild(f, "q");
    GetBuild(f, "tags");
    GetBuild(f, "archived");
    GetBuild(f, "unread");
    GetBuild(f, "shared");
    GetBuild(f, "sort");
    GetBuild(f, "page");
  }

  /**
   * The value that survives a build-then-parse: page dropped, empty or absent
   * q and tags absent, a false unread/shared absent, a missing or empty sort
   * made "new".
   */
  function Normalise(f: SearchFilters): SearchFilters {
    SearchFilters(
      QValue(f),
      if f.tags.Some? && |f.tags.value| > 0 then f.tags else None,
      f.archived,
      if f.unread == Some(true) then Some(true) else None,
      if f.shared == Some(true) then Some(true) else None,
      if f.sort.Some? && f.sort.value != "" then f.sort else Some("new"),
      None)
  }

  /** Decoding the values `Build` writes gives the criteria back, normalised. */
  lemma {:induction false} DecodeWritten(f: SearchFilters)
    requires EncodableTags(f.tags)
    ensures Decode(QValue(f), TagsValue(f), ArchivedValue(f), FlagValue(f.unread), FlagValue(f.shared), SortValue(f))
         == Normalise(f)
  {
    RoundTripTags(f.tags);
    assert "0" != "1" by { assert "0"[0] != "1"[0]; }
  }

  /** Parsing what was built gives the criteria back, normalised. */
  lemma {:induction false} RoundTrip(f: SearchFilters)
    requires EncodableTags(f.tags)
    ensures Parse(Build(f)) == Normalise(f)
  {
    GetBuildAll(f);
    DecodeWritten(f);
  }

  lemma {:induction false} RoundTripTags(tags: Option<seq<string>>)
    requires EncodableTags(tags)
    ensures ParseTags(if tags.Some? && |tags.value| > 0 then Some(Text.Join(tags.value, ',')) else None)
         == if tags.Some? && |tags.value| > 0 then tags else None
  {
    if tags.Some? && |tags.value| > 0 {
      Text.SplitJoin(tags.value, ',');
      Text.NonEmptyKeepsAll(tags.value);
    }
  }

  /** Normalising first changes nothing that is written. */
  lemma {:induction false} BuildNormalise(f: SearchFilters)
    ensures Build(Normalise(f)) == Build(f)
  {
  }

  /** Rewriting a query string through the codec once already reaches its fixed point. */
  lemma {:induction false} CanonicalIdempotent(p: Params)
    ensures Build(Parse(Build(Parse(p)))) == Build(Parse(p))
  {
    var f := Parse(p);
    RoundTrip(f);
    BuildNormalise(f);
  }

  /**
   * `updateSearchParams`: the parsed criteria overridden by the patch, written
   * back. A key the patch sets to `undefined` disappears; a key the patch does
   * not mention keeps its normalised value.
   */
  function UpdateSearchParams(current: Params, updates: FiltersPatch): (r: Params)
    ensures Get(r, "page") == None
  {
    var merged := Merge(Parse(current), updates);
    GetBuild(merged, "page");
    Build(merged)
  }

  /** A key the patch sets to `undefined` is absent from the updated query string. */
  lemma {:induction false} UpdateClears(current: Params, updates: FiltersPatch)
    ensures var r := UpdateSearchParams(current, updates);
      && (updates.q == Put(None) ==> Get(r, "q") == None)
      && (updates.tags == Put(None) ==> Get(r, "tags") == None)
      && (updates.archived == Put(None) ==> Get(r, "archived") == None)
      && (updates.unread == Put(None) ==> Get(r, "unread") == None)
      && (updates.shared == Put(None) ==> Get(r, "shared") == None)
      && (updates.sort == Put(None) ==> Get(r, "sort") == None)
  {
    GetBuildAll(Merge(Parse(current), updates));
  }

  /** A key the patch does not name reads as it did after a plain rewrite of the current query string. */
  lemma {:induction false} UpdateKeeps(current: Params, updates: FiltersPatch)
    ensures var r := UpdateSearchParams(current, updates);
      var before := Build(Parse(current));
      && (updates.q.Keep? ==> Get(r, "q") == Get(before, "q"))
      && (updates.tags.Keep? ==> Get(r, "tags") == Get(before, "tags"))
      && (updates.archived.Keep? ==> Get(r, "archived") == Get(before, "archived"))
      && (updates.unread.Keep? ==> Get(r, "unread") == Get(before, "unread"))
      && (updates.shared.Keep? ==> Get(r, "shared") == Get(before, "shared"))
      && (updates.sort.Keep? ==> Get(r, "sort") == Get(before, "sort"))
  {
    GetBuildAll(Parse(current));
    GetBuildAll(Merge(Parse(current), updates));
  }

  /** After an update, reading the URL back yields the patched criteria, normalised. */
  lemma {:induction false} UpdateReadsBack(current: Params, updates: FiltersPatch)
    requires EncodableTags(Override(Parse(current).tags, updates.tags))
    ensures Parse(UpdateSearchParams(current, updates)) == Normalise(Merge(Parse(current), updates))
  {
    RoundTrip(Merge(Parse(current), updates));
  }
}
