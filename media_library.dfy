/**
 * The catalog store: the derived views the page reads from the list of
 * categories, the search text and the type filter.
 */
module MediaLibrary {
  import opened Wrappers
  import opened Media
  import opened Seqs
  import opened TextSearch
  import opened Decimal
  import opened DateSort

  // ---------------------------------------------------------------------------
  // allItems

  /** Every category's items, concatenated in category order (`flatMap`). */
  function AllItems(cats: seq<Category>): seq<MediaItem>
  {
    if cats == [] then [] else cats[0].items + AllItems(cats[1..])
  }

  /** An item is in the flattened catalog exactly when it is in some category. */
  lemma {:induction false} AllItemsMembership(cats: seq<Category>, x: MediaItem)
    ensures x in AllItems(cats) <==> exists i :: 0 <= i < |cats| && x in cats[i].items
    decreases |cats|
  {
    if cats != [] {
      AllItemsMembership(cats[1..], x);
      assert forall i :: 1 <= i < |cats| ==> cats[i] == cats[1..][i - 1];
      if x in AllItems(cats[1..]) {
        var i :| 0 <= i < |cats[1..]| && x in cats[1..][i].items;
        assert x in cats[i + 1].items;
      }
    }
  }

  /** Each category's items appear in the flattened catalog as a contiguous block. */
  lemma {:induction false} AllItemsContains(cats: seq<Category>, i: nat)
    requires i < |cats|
    ensures forall j :: 0 <= j < |cats[i].items| ==> cats[i].items[j] in AllItems(cats)
    decreases i
  {
    if i > 0 {
      AllItemsContains(cats[1..], i - 1);
    }
  }

  /** Flattening commutes with concatenating category lists. */
  lemma {:induction false} AllItemsAppend(a: seq<Category>, b: seq<Category>)
    ensures AllItems(a + b) == AllItems(a) + AllItems(b)
    decreases |a|
  {
    if a == [] {
      assert a + b == b;
    } else {
      assert (a + b)[1..] == a[1..] + b;
      AllItemsAppend(a[1..], b);
    }
  }

  /** The number of items in the catalog is the sum of the category sizes. */
  function ItemCount(cats: seq<Category>): nat
  {
    if cats == [] then 0 else |cats[0].items| + ItemCount(cats[1..])
  }

  lemma {:induction false} AllItemsLength(cats: seq<Category>)
    ensures |AllItems(cats)| == ItemCount(cats)
  {
    if cats != [] {
      AllItemsLength(cats[1..]);
    }
  }

  /** No two items share an id. */
  predicate UniqueIds(s: seq<MediaItem>)
  {
    forall i, j :: 0 <= i < j < |s| ==> s[i].id != s[j].id
  }

  /** Every item's `category` is the id of the category that lists it. */
  predicate ItemsInOwnCategory(cats: seq<Category>)
  {
    forall c, k :: 0 <= c < |cats| && 0 <= k < |cats[c].items| ==> cats[c].items[k].category == cats[c].id
  }

  // ---------------------------------------------------------------------------
  // filteredItems

  /** The text test: the lower-cased query is in the lower-cased title, name, or a description that is present. */
  predicate SearchHit(item: MediaItem, searchQuery: string)
  {
    || FoldedIncludes(item.title, searchQuery)
    || FoldedIncludes(item.name, searchQuery)
    || (item.description.Some? && FoldedIncludes(item.description.value, searchQuery))
  }

  function SearchHitBy(query: string): MediaItem -> bool
  {
    (x: MediaItem) => SearchHit(x, query)
  }

  function KindIs(k: MediaType): MediaItem -> bool
  {
    (x: MediaItem) => x.kind == k
  }

  /** Whether the query state keeps an item: the search test (unless the text is empty) and the type test (unless the filter is `'all'`). */
  predicate Selected(item: MediaItem, searchQuery: string, filterType: TypeFilter)
  {
    && (searchQuery == [] || SearchHit(item, searchQuery))
    && (filterType == All || item.kind == filterType.kind)
  }

  function SelectedBy(searchQuery: string, filterType: TypeFilter): MediaItem -> bool
  {
    (x: MediaItem) => Selected(x, searchQuery, filterType)
  }

  /** `filteredItems`: the text filter when the search text is non-empty, then the type filter when one is chosen. */
  function FilteredItems(cats: seq<Category>, searchQuery: string, filterType: TypeFilter): (r: seq<MediaItem>)
    ensures IsSubsequence(r, AllItems(cats))
    ensures forall k :: 0 <= k < |r| ==> Selected(r[k], searchQuery, filterType)
    ensures forall k :: 0 <= k < |AllItems(cats)| && Selected(AllItems(cats)[k], searchQuery, filterType)
              ==> AllItems(cats)[k] in r
  {
    var all := AllItems(cats);
    var searched := if searchQuery != [] then Filter(SearchHitBy(searchQuery), all) else all;
    var r := if filterType != All then Filter(KindIs(filterType.kind), searched) else searched;
    FilteredItemsIsOneFilter(cats, searchQuery, filterType);
    FilterIsSubsequence(SelectedBy(searchQuery, filterType), all);
    FilterMembers(SelectedBy(searchQuery, filterType), all);
    r
  }

  /** The two successive filters are one filter by the conjunction of the two tests. */
  lemma FilteredItemsIsOneFilter(cats: seq<Category>, searchQuery: string, filterType: TypeFilter)
    ensures
      var all := AllItems(cats);
      var searched := if searchQuery != [] then Filter(SearchHitBy(searchQuery), all) else all;
      (if filterType != All then Filter(KindIs(filterType.kind), searched) else searched)
        == Filter(SelectedBy(searchQuery, filterType), all)
  {
    var all := AllItems(cats);
    var sel := SelectedBy(searchQuery, filterType);
    if searchQuery != [] {
      var hit := SearchHitBy(searchQuery);
      if filterType != All {
        FilterFilter(hit, KindIs(filterType.kind), sel, all);
      } else {
        FilterCongruent(hit, sel, all);
      }
    } else {
      if filterType != All {
        FilterCongruent(KindIs(filterType.kind), sel, all);
      } else {
        FilterAll(sel, all);
      }
    }
  }

  /** An item whose searched fields lack, in both cases, a letter of the folded query is not a hit. */
  lemma SearchMisses(item: MediaItem, query: string, c: char)
    requires 'a' <= c <= 'z' && c in Lower(query)
    requires c !in item.title && (c as int - 32) as char !in item.title
    requires c !in item.name && (c as int - 32) as char !in item.name
    requires item.description.Some? ==>
               c !in item.description.value && (c as int - 32) as char !in item.description.value
    ensures !SearchHit(item, query)
  {
    FoldedMisses(item.title, Lower(query), c);
    FoldedMisses(item.name, Lower(query), c);
    if item.description.Some? {
      FoldedMisses(item.description.value, Lower(query), c);
    }
  }

  /** The search ignores case: two queries with the same fold select the same items. */
  lemma FilteredItemsIgnoresCase(cats: seq<Category>, searchQuery: string, searchQuery': string, filterType: TypeFilter)
    requires Lower(searchQuery) == Lower(searchQuery')
    ensures FilteredItems(cats, searchQuery, filterType) == FilteredItems(cats, searchQuery', filterType)
  {
    assert |searchQuery| == |Lower(searchQuery)|;
    FilterCongruent(SearchHitBy(searchQuery), SearchHitBy(searchQuery'), AllItems(cats));
  }

  /** With no text and no type filter every item is kept, in order. */
  lemma FilteredItemsUnfiltered(cats: seq<Category>)
    ensures FilteredItems(cats, [], All) == AllItems(cats)
  {
  }

  // ---------------------------------------------------------------------------
  // filteredCategories

  predicate HasItems(c: Category)
  {
    |c.items| > 0
  }

  function KeptIn(kept: seq<MediaItem>): MediaItem -> bool
  {
    (x: MediaItem) => x in kept
  }

  /** `{ ...cat, items: cat.items.filter(item => kept.includes(item)) }` */
  function NarrowTo(kept: seq<MediaItem>): Category -> Category
  {
    (c: Category) => c.(items := Filter(KeptIn(kept), c.items))
  }

  /** `filteredCategories`: the catalog itself when no query is active, otherwise every category narrowed to the filtered items, empty ones dropped. */
  function FilteredCategories(cats: seq<Category>, searchQuery: string, filterType: TypeFilter): (r: seq<Category>)
    ensures searchQuery == [] && filterType == All ==> r == cats
    ensures !(searchQuery == [] && filterType == All) ==>
      && (forall i :: 0 <= i < |r| ==> |r[i].items| > 0)
      && IsSubsequence(r, Map(NarrowTo(FilteredItems(cats, searchQuery, filterType)), cats))
  {
    if searchQuery == [] && filterType == All then cats
    else
      var narrowed := Map(NarrowTo(FilteredItems(cats, searchQuery, filterType)), cats);
      FilterIsSubsequence(HasItems, narrowed);
      FilterMembers(HasItems, narrowed);
      Filter(HasItems, narrowed)
  }

  /** Narrowing and dropping, one category at a time. */
  lemma NarrowedCons(cats: seq<Category>, kept: seq<MediaItem>)
    requires cats != []
    ensures
      var n := NarrowTo(kept)(cats[0]);
      Filter(HasItems, Map(NarrowTo(kept), cats))
        == (if HasItems(n) then [n] else []) + Filter(HasItems, Map(NarrowTo(kept), cats[1..]))
  {
    var m := Map(NarrowTo(kept), cats);
    assert m[1..] == Map(NarrowTo(kept), cats[1..]);
  }

  /**
   * Narrowing every category to the items a test keeps and dropping empty
   * categories, then flattening, is filtering the flattened catalog.
   */
  lemma {:induction false} FlattenNarrowed(cats: seq<Category>, kept: seq<MediaItem>, p: MediaItem -> bool)
    requires forall k :: 0 <= k < |AllItems(cats)| ==> (AllItems(cats)[k] in kept) == p(AllItems(cats)[k])
    ensures AllItems(Filter(HasItems, Map(NarrowTo(kept), cats))) == Filter(p, AllItems(cats))
    decreases |cats|
  {
    if cats != [] {
      var c := cats[0];
      var tail := AllItems(cats[1..]);
      var n := NarrowTo(kept)(c);
      var rest := Filter(HasItems, Map(NarrowTo(kept), cats[1..]));
      assert AllItems(cats) == c.items + tail;
      AgreeOnParts(c.items, tail, kept, p);
      FlattenNarrowed(cats[1..], kept, p);
      assert AllItems(rest) == Filter(p, tail);
      NarrowedCons(cats, kept);
      FilterCongruent(KeptIn(kept), p, c.items);
      assert n.items == Filter(p, c.items);
      FilterAppend(p, c.items, tail);
      if HasItems(n) {
        AllItemsAppend([n], rest);
        assert AllItems([n]) == n.items + AllItems([]);
        assert AllItems(Filter(HasItems, Map(NarrowTo(kept), cats))) == n.items + AllItems(rest);
      } else {
        assert [] + rest == rest;
        assert Filter(HasItems, Map(NarrowTo(kept), cats)) == rest;
        assert Filter(p, c.items) == [];
        assert [] + Filter(p, tail) == Filter(p, tail);
        assert Filter(p, AllItems(cats)) == Filter(p, tail);
      }
    }
  }

  /** Agreement of membership and a test on a concatenation is agreement on each part. */
  lemma AgreeOnParts(a: seq<MediaItem>, b: seq<MediaItem>, kept: seq<MediaItem>, p: MediaItem -> bool)
    requires forall k :: 0 <= k < |a + b| ==> ((a + b)[k] in kept) == p((a + b)[k])
    ensures forall k :: 0 <= k < |a| ==> KeptIn(kept)(a[k]) == p(a[k])
    ensures forall k :: 0 <= k < |b| ==> (b[k] in kept) == p(b[k])
  {
    assert forall k :: 0 <= k < |a| ==> a[k] == (a + b)[k];
    assert forall k :: 0 <= k < |b| ==> b[k] == (a + b)[|a| + k];
  }

  /** Flattening the filtered categories gives exactly the filtered items. */
  lemma FilteredCategoriesFlatten(cats: seq<Category>, searchQuery: string, filterType: TypeFilter)
    ensures AllItems(FilteredCategories(cats, searchQuery, filterType)) == FilteredItems(cats, searchQuery, filterType)
  {
    var all := AllItems(cats);
    var sel := SelectedBy(searchQuery, filterType);
    FilteredItemsIsOneFilter(cats, searchQuery, filterType);
    var kept := FilteredItems(cats, searchQuery, filterType);
    assert kept == Filter(sel, all);
    if searchQuery == [] && filterType == All {
      FilterAll(sel, all);
    } else {
      FlattenNarrowed(cats, kept, sel);
    }
  }

  /**
   * With a query active, each surviving category is one of the input
   * categories with the same id, name and path, and exactly its items that
   * the query keeps, in their original order.
   */
  lemma FilteredCategoryShape(cats: seq<Category>, searchQuery: string, filterType: TypeFilter, i: nat)
    requires !(searchQuery == [] && filterType == All)
    requires i < |FilteredCategories(cats, searchQuery, filterType)|
    ensures
      var c' := FilteredCategories(cats, searchQuery, filterType)[i];
      exists j ::
        && 0 <= j < |cats|
        && c'.id == cats[j].id && c'.name == cats[j].name && c'.path == cats[j].path
        && c'.items == Filter(SelectedBy(searchQuery, filterType), cats[j].items)
  {
    var kept := FilteredItems(cats, searchQuery, filterType);
    var narrowed := Map(NarrowTo(kept), cats);
    var r := FilteredCategories(cats, searchQuery, filterType);
    assert r == Filter(HasItems, narrowed);
    FilterMembers(HasItems, narrowed);
    var c' := r[i];
    assert c' in narrowed;
    var j :| 0 <= j < |narrowed| && narrowed[j] == c';
    NarrowedIsSelected(cats, searchQuery, filterType, j);
  }

  /** Narrowing a category to the filtered items keeps exactly its selected items. */
  lemma NarrowedIsSelected(cats: seq<Category>, searchQuery: string, filterType: TypeFilter, j: nat)
    requires j < |cats|
    ensures NarrowTo(FilteredItems(cats, searchQuery, filterType))(cats[j]).items
              == Filter(SelectedBy(searchQuery, filterType), cats[j].items)
  {
    var kept := FilteredItems(cats, searchQuery, filterType);
    var sel := SelectedBy(searchQuery, filterType);
    var all := AllItems(cats);
    FilteredItemsIsOneFilter(cats, searchQuery, filterType);
    assert kept == Filter(sel, all);
    AllItemsContains(cats, j);
    FilterCongruent(KeptIn(kept), sel, cats[j].items);
  }

  /** With a query active, a category is kept exactly when some of its items survive the query. */
  lemma FilteredCategoryKept(cats: seq<Category>, searchQuery: string, filterType: TypeFilter, j: nat)
    requires !(searchQuery == [] && filterType == All)
    requires j < |cats|
    requires exists k :: 0 <= k < |cats[j].items| && Selected(cats[j].items[k], searchQuery, filterType)
    ensures cats[j].(items := Filter(SelectedBy(searchQuery, filterType), cats[j].items))
              in FilteredCategories(cats, searchQuery, filterType)
  {
    var kept := FilteredItems(cats, searchQuery, filterType);
    var narrowed := Map(NarrowTo(kept), cats);
    var sel := SelectedBy(searchQuery, filterType);
    NarrowedIsSelected(cats, searchQuery, filterType, j);
    var k :| 0 <= k < |cats[j].items| && Selected(cats[j].items[k], searchQuery, filterType);
    FilterMembers(sel, cats[j].items);
    assert cats[j].items[k] in Filter(sel, cats[j].items);
    FilterMembers(HasItems, narrowed);
    assert HasItems(narrowed[j]);
    assert FilteredCategories(cats, searchQuery, filterType) == Filter(HasItems, narrowed);
  }

  // ---------------------------------------------------------------------------
  // recentItems

  /** How many items the recent list holds at most (`slice(0, 10)`). */
  const RecentLimit: nat := 10

  /** `recentItems`: a copy of all items sorted newest first, cut to the first ten. */
  function RecentItems(cats: seq<Category>): (r: seq<MediaItem>)
    requires AllDated(AllItems(cats))
    ensures |r| == if |AllItems(cats)| < RecentLimit then |AllItems(cats)| else RecentLimit
    ensures NewestFirst(Stamp, r)
    ensures multiset(r) <= multiset(AllItems(cats))
  {
    var sorted := SortBy(Stamp, AllItems(cats));
    SortByPermutes(Stamp, AllItems(cats));
    SortBySorted(Stamp, AllItems(cats));
    var r := sorted[..if |sorted| < RecentLimit then |sorted| else RecentLimit];
    assert sorted == r + sorted[|r|..];
    r
  }

  /** No item left out of the recent list is newer than any item in it. */
  lemma RecentItemsAreNewest(cats: seq<Category>, x: MediaItem, y: MediaItem)
    requires AllDated(AllItems(cats))
    requires x in RecentItems(cats)
    requires y in multiset(AllItems(cats)) - multiset(RecentItems(cats))
    ensures Stamp(y) <= Stamp(x)
  {
    var sorted := SortBy(Stamp, AllItems(cats));
    SortByPermutes(Stamp, AllItems(cats));
    SortBySorted(Stamp, AllItems(cats));
    PrefixIsNewest(Stamp, sorted, |RecentItems(cats)|, x, y);
  }

  /** Items with the same date keep their catalog order in the recent list (the sort is stable). */
  lemma RecentItemsStable(cats: seq<Category>, k: int)
    requires AllDated(AllItems(cats))
    ensures Filter(KeyIs(Stamp, k), RecentItems(cats)) <= Filter(KeyIs(Stamp, k), AllItems(cats))
  {
    var sorted := SortBy(Stamp, AllItems(cats));
    var r := RecentItems(cats);
    assert sorted == r + sorted[|r|..];
    FilterAppend(KeyIs(Stamp, k), r, sorted[|r|..]);
    SortByStable(Stamp, AllItems(cats), k);
  }

}
