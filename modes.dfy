/** lotus_lamp/modes.py: queries over the catalog of the lamp's 213
    animation modes, numbered 0 to 212. The catalog (the mode names and
    the mode categories, read from data files at import time) is a
    parameter here, constrained by `ValidCatalog`. */
module Modes {
  import opened Wrappers
  import opened Text

  /** `_MODE_NAMES` as its (number, name) entries, and `CATEGORIES` as its
      (category, mode list) entries, both in dictionary order. */
  datatype Catalog = Catalog(names: seq<(int, string)>, categories: seq<(string, seq<int>)>)

  const LastMode: int := 212
  const MaxCategorySize: int := 49

  /** No two entries share a key, as in a dictionary. */
  ghost predicate DistinctKeys<K, V>(entries: seq<(K, V)>) {
    forall i, j :: 0 <= i < j < |entries| ==> entries[i].0 != entries[j].0
  }

  /** Some category lists the mode. */
  ghost predicate Listed(cats: seq<(string, seq<int>)>, n: int) {
    exists i :: 0 <= i < |cats| && n in cats[i].1
  }

  /** No mode is listed twice, within a category or across two. */
  ghost predicate NoRepeats(cats: seq<(string, seq<int>)>) {
    (forall i, k, l :: 0 <= i < |cats| && 0 <= k < l < |cats[i].1| ==> cats[i].1[k] != cats[i].1[l]) &&
    (forall i, j, n :: 0 <= i < j < |cats| && n in cats[i].1 ==> n !in cats[j].1)
  }

  /** What the catalog data guarantees: the categories have distinct
      names other than "unknown", each holds 1 to 49 modes, and together
      they hold every mode 0..212 exactly once and nothing else. */
  ghost predicate ValidCatalog(c: Catalog) {
    var cats := c.categories;
    DistinctKeys(c.names) && DistinctKeys(cats) &&
    (forall i :: 0 <= i < |cats| ==> cats[i].0 != "unknown" && 1 <= |cats[i].1| <= MaxCategorySize) &&
    (forall i, n :: 0 <= i < |cats| && n in cats[i].1 ==> 0 <= n <= LastMode) &&
    (forall n :: 0 <= n <= LastMode ==> Listed(cats, n)) &&
    NoRepeats(cats)
  }

  /** `dict.get` over dictionary entries: the value of the first entry
      with this key. Both `_MODE_NAMES` and `CATEGORIES` are read with it. */
  function Find<K(==), V>(entries: seq<(K, V)>, key: K): (r: Option<V>)
    ensures r.None? <==> forall i :: 0 <= i < |entries| ==> entries[i].0 != key
    ensures r.Some? ==> exists i :: 0 <= i < |entries| && entries[i] == (key, r.value)
  {
    if entries == [] then None
    else if entries[0].0 == key then Some(entries[0].1)
    else
      var r := Find(entries[1..], key);
      assert r.Some? ==> exists i :: 0 <= i < |entries[1..]| && entries[1..][i] == (key, r.value);
      r
  }

  /** `get_mode_name`: the catalog name, or "Unknown Mode n"; it never fails. */
  function ModeName(c: Catalog, n: int): (name: string)
    ensures Find(c.names, n).Some? ==> name == Find(c.names, n).value
    ensures Find(c.names, n).None? ==> name == "Unknown Mode " + IntToDecimal(n)
  {
    match Find(c.names, n)
    case Some(name) => name
    case None => "Unknown Mode " + IntToDecimal(n)
  }

  /** In a catalog with distinct numbers, every entry's name is found. */
  lemma {:induction false} ModeNameOfEntry(c: Catalog, i: int)
    requires DistinctKeys(c.names) && 0 <= i < |c.names|
    ensures ModeName(c, c.names[i].0) == c.names[i].1
  {
    FindEntry(c.names, i);
  }

  /** With distinct keys, every entry is found under its own key. */
  lemma {:induction false} FindEntry<K, V>(entries: seq<(K, V)>, i: int)
    requires DistinctKeys(entries) && 0 <= i < |entries|
    ensures Find(entries, entries[i].0) == Some(entries[i].1)
  {
    if i > 0 {
      assert entries[0].0 != entries[i].0;
      assert entries[1..][i - 1] == entries[i];
      FindEntry(entries[1..], i - 1);
    }
  }

  // ---------------------------------------------------------------------
  // Categories.

  /** The first category, in dictionary order, whose list holds `n`, or
      "unknown". */
  function CategoryOf(cats: seq<(string, seq<int>)>, n: int): (r: string)
    ensures r == "unknown" || exists i :: 0 <= i < |cats| && cats[i].0 == r && n in cats[i].1
    ensures (forall i :: 0 <= i < |cats| ==> n !in cats[i].1) ==> r == "unknown"
    ensures forall i :: 0 <= i < |cats| && n in cats[i].1 && (forall j :: 0 <= j < i ==> n !in cats[j].1) ==>
      r == cats[i].0
  {
    if cats == [] then "unknown"
    else if n in cats[0].1 then cats[0].0
    else
      var r := CategoryOf(cats[1..], n);
      assert r == "unknown" || exists i :: 0 <= i < |cats[1..]| && cats[1..][i].0 == r && n in cats[1..][i].1;
      r
  }

  /** `get_mode_category`: the loop returns at the first category that
      holds the mode. */
  method GetModeCategory(c: Catalog, n: int) returns (category: string)
    ensures category == CategoryOf(c.categories, n)
  {
    var cats := c.categories;
    var i := 0;
    while i < |cats|
      invariant 0 <= i <= |cats|
      invariant CategoryOf(cats[i..], n) == CategoryOf(cats, n)
    {
      assert cats[i..][1..] == cats[i + 1..];
      if n in cats[i].1 {
        return cats[i].0;
      }
      i := i + 1;
    }
    return "unknown";
  }

  /** When exactly one category holds `n`, that is the one reported. */
  lemma {:induction false} CategoryOfOnlyHolder(cats: seq<(string, seq<int>)>, n: int, i: int)
    requires 0 <= i < |cats| && n in cats[i].1
    requires forall j :: 0 <= j < |cats| && j != i ==> n !in cats[j].1
    ensures CategoryOf(cats, n) == cats[i].0
  {
    if i > 0 {
      assert n !in cats[0].1;
      forall j | 0 <= j < |cats[1..]| && j != i - 1
        ensures n !in cats[1..][j].1
      {
        assert cats[1..][j] == cats[j + 1];
      }
      CategoryOfOnlyHolder(cats[1..], n, i - 1);
    }
  }

  /** In a valid catalog, exactly one category holds a listed mode. */
  lemma OnlyHolder(c: Catalog, n: int, i: int)
    requires ValidCatalog(c) && 0 <= i < |c.categories| && n in c.categories[i].1
    ensures forall j :: 0 <= j < |c.categories| && j != i ==> n !in c.categories[j].1
  {
  }

  /** Every mode 0..212 has a category, and it is never "unknown". */
  lemma EveryModeHasCategory(c: Catalog, n: int)
    requires ValidCatalog(c) && 0 <= n <= LastMode
    ensures CategoryOf(c.categories, n) != "unknown"
    ensures exists i :: 0 <= i < |c.categories| && c.categories[i].0 == CategoryOf(c.categories, n) && n in c.categories[i].1
  {
    assert Listed(c.categories, n);
    var i :| 0 <= i < |c.categories| && n in c.categories[i].1;
    OnlyHolder(c, n, i);
    CategoryOfOnlyHolder(c.categories, n, i);
  }

  /** Modes outside 0..212 are in no category. */
  lemma OutsideModesUnknown(c: Catalog, n: int)
    requires ValidCatalog(c) && !(0 <= n <= LastMode)
    ensures CategoryOf(c.categories, n) == "unknown"
  {
    assert forall i :: 0 <= i < |c.categories| ==> n !in c.categories[i].1;
  }

  // ---------------------------------------------------------------------
  // Mode by category and 1-based index.

  datatype ModeError =
    | UnknownCategory(category: string)
    | IndexOutOfRange(index: int, category: string, size: nat)

  /** `get_mode_by_category_index`: the category is checked first, then
      the index against 1..len, and the mode at `index - 1` is returned. */
  function ModeByCategoryIndex(c: Catalog, category: string, index: int): (r: Result<int, ModeError>)
    ensures Find(c.categories, category).None? ==> r == Err(UnknownCategory(category))
    ensures Find(c.categories, category).Some? ==>
      var modes := Find(c.categories, category).value;
      if 1 <= index <= |modes| then r == Ok(modes[index - 1])
      else r == Err(IndexOutOfRange(index, category, |modes|))
  {
    match Find(c.categories, category)
    case None => Err(UnknownCategory(category))
    case Some(modes) =>
      if index < 1 || index > |modes| then Err(IndexOutOfRange(index, category, |modes|))
      else Ok(modes[index - 1])
  }

  /** The mode found by category and index belongs to that category. */
  lemma IndexThenCategory(c: Catalog, category: string, index: int)
    requires ValidCatalog(c) && ModeByCategoryIndex(c, category, index).Ok?
    ensures var n := ModeByCategoryIndex(c, category, index).value;
      0 <= n <= LastMode && CategoryOf(c.categories, n) == category
  {
    var n := ModeByCategoryIndex(c, category, index).value;
    var modes := Find(c.categories, category).value;
    var i :| 0 <= i < |c.categories| && c.categories[i] == (category, modes);
    assert modes[index - 1] == n;
    assert n in c.categories[i].1;
    OnlyHolder(c, n, i);
    CategoryOfOnlyHolder(c.categories, n, i);
  }

  /** Every mode 0..212 is reached from its category at some 1-based index. */
  lemma CategoryThenIndex(c: Catalog, n: int)
    requires ValidCatalog(c) && 0 <= n <= LastMode
    ensures exists index :: (1 <= index <= MaxCategorySize &&
      ModeByCategoryIndex(c, CategoryOf(c.categories, n), index) == Ok(n))
  {
    assert Listed(c.categories, n);
    var i :| 0 <= i < |c.categories| && n in c.categories[i].1;
    OnlyHolder(c, n, i);
    CategoryOfOnlyHolder(c.categories, n, i);
    var k :| 0 <= k < |c.categories[i].1| && c.categories[i].1[k] == n;
    EntryAtIndex(c, i, k);
    assert 1 <= k + 1 <= MaxCategorySize;
  }

  /** The `k`-th mode of a category is found at 1-based index `k + 1`. */
  lemma EntryAtIndex(c: Catalog, i: int, k: int)
    requires DistinctKeys(c.categories) && 0 <= i < |c.categories| && 0 <= k < |c.categories[i].1|
    ensures ModeByCategoryIndex(c, c.categories[i].0, k + 1) == Ok(c.categories[i].1[k])
  {
    FindEntry(c.categories, i);
  }

  // ---------------------------------------------------------------------
  // Searching by name.

  /** One result: the mode number, its name and its category. */
  datatype Hit = Hit(mode: int, name: string, category: string)

  /** The unsorted results: the entries whose lower-cased name contains
      `q`, in dictionary order. */
  function Matches(c: Catalog, q: string): (hits: seq<Hit>)
    ensures |hits| <= |c.names|
  {
    MatchesIn(c.names, c.categories, q)
  }

  function MatchesIn(names: seq<(int, string)>, cats: seq<(string, seq<int>)>, q: string): (hits: seq<Hit>)
    ensures |hits| <= |names|
  {
    if names == [] then []
    else
      var e := names[|names| - 1];
      MatchesIn(names[..|names| - 1], cats, q) +
        (if Contains(Lower(e.1), q) then [Hit(e.0, e.1, CategoryOf(cats, e.0))] else [])
  }

  /** Hits in ascending mode order (non-decreasing, as `sorted` keeps
      equal keys in place). */
  predicate SortedByMode(hits: seq<Hit>) {
    forall i, j :: 0 <= i < j < |hits| ==> hits[i].mode <= hits[j].mode
  }

  /** Inserting one hit after every hit whose mode is not greater. */
  function Insert(h: Hit, hits: seq<Hit>): (r: seq<Hit>)
    ensures |r| == |hits| + 1
  {
    if hits == [] then [h]
    else if h.mode < hits[0].mode then [h] + hits
    else [hits[0]] + Insert(h, hits[1..])
  }

  lemma {:induction false} InsertCounts(h: Hit, hits: seq<Hit>)
    ensures multiset(Insert(h, hits)) == multiset(hits) + multiset{h}
  {
    if hits != [] && h.mode >= hits[0].mode {
      InsertCounts(h, hits[1..]);
      assert hits == [hits[0]] + hits[1..];
    }
  }

  lemma {:induction false} InsertBound(h: Hit, hits: seq<Hit>, low: int)
    requires low <= h.mode && forall j :: 0 <= j < |hits| ==> low <= hits[j].mode
    ensures forall j :: 0 <= j < |Insert(h, hits)| ==> low <= Insert(h, hits)[j].mode
  {
    if hits != [] && h.mode >= hits[0].mode {
      InsertBound(h, hits[1..], low);
    }
  }

  lemma {:induction false} InsertSorted(h: Hit, hits: seq<Hit>)
    requires SortedByMode(hits)
    ensures SortedByMode(Insert(h, hits))
  {
    if hits != [] && h.mode >= hits[0].mode {
      InsertSorted(h, hits[1..]);
      InsertBound(h, hits[1..], hits[0].mode);
      var r := Insert(h, hits);
      assert r == [hits[0]] + Insert(h, hits[1..]);
      assert forall j :: 1 <= j < |r| ==> r[j] == Insert(h, hits[1..])[j - 1];
    }
  }

  /** `sorted(results, key=lambda x: x[0])`. */
  function SortByMode(hits: seq<Hit>): (r: seq<Hit>)
    ensures |r| == |hits|
  {
    if hits == [] then [] else Insert(hits[|hits| - 1], SortByMode(hits[..|hits| - 1]))
  }

  /** The sort leaves its hits in mode order. */
  lemma {:induction false} SortByModeSorts(hits: seq<Hit>)
    ensures SortedByMode(SortByMode(hits))
  {
    if hits != [] {
      SortByModeSorts(hits[..|hits| - 1]);
      InsertSorted(hits[|hits| - 1], SortByMode(hits[..|hits| - 1]));
    }
  }

  /** The sort keeps every hit exactly as often as it came: a permutation. */
  lemma {:induction false} SortByModePermutes(hits: seq<Hit>)
    ensures multiset(SortByMode(hits)) == multiset(hits)
  {
    if hits != [] {
      var front := hits[..|hits| - 1];
      SortByModePermutes(front);
      InsertCounts(hits[|hits| - 1], SortByMode(front));
      assert hits == front + [hits[|hits| - 1]];
    }
  }

  /** What `search_modes(query)` returns. */
  function Search(c: Catalog, query: string): seq<Hit> {
    SortByMode(Matches(c, Lower(query)))
  }

  /** One more entry adds its hit exactly when its name matches. */
  lemma MatchesInSnoc(names: seq<(int, string)>, cats: seq<(string, seq<int>)>, q: string, i: nat)
    requires i < |names|
    ensures Contains(Lower(names[i].1), q) ==>
      MatchesIn(names[..i + 1], cats, q) ==
        MatchesIn(names[..i], cats, q) + [Hit(names[i].0, names[i].1, CategoryOf(cats, names[i].0))]
    ensures !Contains(Lower(names[i].1), q) ==> MatchesIn(names[..i + 1], cats, q) == MatchesIn(names[..i], cats, q)
  {
    assert names[..i + 1][..i] == names[..i];
  }

  /** `search_modes`: lower-case the query, collect the matching entries
      in dictionary order, then sort them by mode number. */
  method SearchModes(c: Catalog, query: string) returns (results: seq<Hit>)
    ensures results == Search(c, query)
  {
    var q := Lower(query);
    var hits: seq<Hit> := [];
    var names := c.names;
    var i := 0;
    while i < |names|
      invariant 0 <= i <= |names|
      invariant hits == MatchesIn(names[..i], c.categories, q)
    {
      MatchesInSnoc(names, c.categories, q, i);
      var (n, name) := names[i];
      if Contains(Lower(name), q) {
        var category := GetModeCategory(c, n);
        hits := hits + [Hit(n, name, category)];
      }
      i := i + 1;
    }
    assert names[..i] == names;
    results := SortByMode(hits);
  }

  /** A hit is one of the matching entries, with its category. */
  lemma {:induction false} MatchesInMembers(names: seq<(int, string)>, cats: seq<(string, seq<int>)>, q: string, h: Hit)
    ensures h in MatchesIn(names, cats, q) <==>
      (h.mode, h.name) in names && Contains(Lower(h.name), q) && h.category == CategoryOf(cats, h.mode)
  {
    if names != [] {
      var front := names[..|names| - 1];
      MatchesInMembers(front, cats, q, h);
      assert names == front + [names[|names| - 1]];
    }
  }

  /** The results are exactly the catalogued modes whose lower-cased name
      contains the lower-cased query, each with its category, in
      ascending mode order. */
  lemma SearchResults(c: Catalog, query: string, h: Hit)
    ensures SortedByMode(Search(c, query))
    ensures h in Search(c, query) <==>
      (h.mode, h.name) in c.names && Contains(Lower(h.name), Lower(query)) &&
      h.category == CategoryOf(c.categories, h.mode)
  {
    SortByModeSorts(Matches(c, Lower(query)));
    SortByModePermutes(Matches(c, Lower(query)));
    MatchesInMembers(c.names, c.categories, Lower(query), h);
    assert h in Search(c, query) <==> h in multiset(Search(c, query));
  }

  /** Only the lower-cased query counts: upper-casing it changes nothing. */
  lemma SearchIgnoresCase(c: Catalog, query: string)
    ensures Search(c, Upper(query)) == Search(c, query)
  {
    LowerOfUpper(query);
  }

  lemma {:induction false} MatchesAll(names: seq<(int, string)>, cats: seq<(string, seq<int>)>)
    ensures |MatchesIn(names, cats, "")| == |names|
  {
    if names != [] {
      MatchesAll(names[..|names| - 1], cats);
      assert StartsWith(Lower(names[|names| - 1].1), "");
    }
  }

  /** The empty query matches every catalogued mode. */
  lemma EmptyQueryMatchesAll(c: Catalog, n: int, name: string)
    ensures |Search(c, "")| == |c.names|
    ensures (n, name) in c.names ==> Hit(n, name, CategoryOf(c.categories, n)) in Search(c, "")
  {
    MatchesAll(c.names, c.categories);
    assert Lower("") == "";
    SearchResults(c, "", Hit(n, name, CategoryOf(c.categories, n)));
    assert StartsWith(Lower(name), "");
  }
}
