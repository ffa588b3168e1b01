/**
 * The `Index` page: the search and type filter, the selected item and the
 * playlist it was opened with, and which sections are on screen. Each
 * handler is a function on the page state; the `Page` class holds the state
 * fields and its methods follow those functions.
 */
module IndexPage {
  import opened Wrappers
  import opened Media
  import opened Seqs
  import opened DateSort
  import opened MediaLibrary
  import opened MediaModal
  import opened MediaPlayer
  import PlayerControls

  /** How many recent items the hero shows (`recentItems.slice(0, 5)`). */
  const HeroSize: nat := 5

  /** The page's own state plus the hook's two query fields. */
  datatype PageState = PageState(
    searchQuery: string,
    filterType: TypeFilter,
    selected: Option<MediaItem>,
    playlist: seq<MediaItem>)

  /** Empty search, filter `'all'`, no selection, empty playlist. */
  const Initial: PageState := PageState([], All, None, [])

  /** `isSearching`: some search text, or a type filter other than `'all'`. */
  predicate IsSearching(searchQuery: string, filterType: TypeFilter)
  {
    searchQuery != [] || filterType != All
  }

  /** `setSearchQuery`. */
  function SetSearchQuery(st: PageState, q: string): PageState
  {
    st.(searchQuery := q)
  }

  /** `setFilterType`. */
  function SetFilterType(st: PageState, f: TypeFilter): PageState
  {
    st.(filterType := f)
  }

  /**
   * `handleItemClick(item, playlist)`: select the item and take the supplied
   * playlist, or `filteredItems` when none is supplied. An empty supplied
   * array is still an array, so `playlist || filteredItems` keeps it.
   */
  function ItemClick(cats: seq<Category>, st: PageState, item: MediaItem, supplied: Option<seq<MediaItem>>): PageState
  {
    st.(selected := Some(item),
        playlist := if supplied.Some? then supplied.value else FilteredItems(cats, st.searchQuery, st.filterType))
  }

  /** A hero card: `handleItemClick(item, recentItems)`. */
  function HeroClick(cats: seq<Category>, st: PageState, item: MediaItem): PageState
    requires AllDated(AllItems(cats))
  {
    ItemClick(cats, st, item, Some(RecentItems(cats)))
  }

  /** A card in a category row: `handleItemClick(item, category.items)`. */
  function RowClick(cats: seq<Category>, st: PageState, category: Category, item: MediaItem): PageState
  {
    ItemClick(cats, st, item, Some(category.items))
  }

  /** A search result card: `handleItemClick(item)`. */
  function ResultClick(cats: seq<Category>, st: PageState, item: MediaItem): PageState
  {
    ItemClick(cats, st, item, None)
  }

  /** `handleCloseModal`. */
  function CloseModal(st: PageState): PageState
  {
    st.(selected := None)
  }

  /** The modal's `onItemChange`, which is `setSelectedItem`. */
  function ItemChange(st: PageState, item: MediaItem): PageState
  {
    st.(selected := Some(item))
  }

  /** The modal's next control: `handleNext` feeding `onItemChange`. Without a selection the modal is not shown. */
  function ModalNext(st: PageState): PageState
  {
    if st.selected.None? then st
    else match NextTarget(st.playlist, st.selected.value)
      case Some(n) => ItemChange(st, n)
      case None => st
  }

  /** The modal's previous control: `handlePrevious` feeding `onItemChange`. */
  function ModalPrevious(st: PageState): PageState
  {
    if st.selected.None? then st
    else match PreviousTarget(st.playlist, st.selected.value)
      case Some(p) => ItemChange(st, p)
      case None => st
  }

  /** The sections the page shows. */
  datatype Layout = Layout(
    hero: seq<MediaItem>,
    results: Option<seq<MediaItem>>,
    noResults: bool,
    rows: seq<Category>,
    noContent: bool)

  /** The JSX conditions; `categories` here is the hook's `filteredCategories`. */
  function View(cats: seq<Category>, st: PageState): Layout
    requires AllDated(AllItems(cats))
  {
    var searching := IsSearching(st.searchQuery, st.filterType);
    var recent := RecentItems(cats);
    var filtered := FilteredItems(cats, st.searchQuery, st.filterType);
    var shown := FilteredCategories(cats, st.searchQuery, st.filterType);
    Layout(
      if !searching && |recent| > 0 then recent[..if |recent| < HeroSize then |recent| else HeroSize] else [],
      if searching then Some(filtered) else None,
      searching && |filtered| == 0,
      if searching then [] else shown,
      !searching && |shown| == 0)
  }

  /** The media item the modal shows, selection coming from the playlist. */
  predicate SelectionInPlaylist(st: PageState)
  {
    st.selected.Some? ==> st.selected.value in st.playlist
  }

  // ---------------------------------------------------------------------------
  // Properties of the handlers

  /** A click selects the item and installs the supplied playlist, even an empty one, or else the search results. */
  lemma ItemClickPlaylist(cats: seq<Category>, st: PageState, item: MediaItem, supplied: Option<seq<MediaItem>>)
    ensures ItemClick(cats, st, item, supplied).selected == Some(item)
    ensures supplied.Some? ==> ItemClick(cats, st, item, supplied).playlist == supplied.value
    ensures supplied.None? ==> ItemClick(cats, st, item, supplied).playlist == FilteredItems(cats, st.searchQuery, st.filterType)
    ensures ItemClick(cats, st, item, Some([])).playlist == []
  {
  }

  /** A hero click plays through the whole recent list, up to ten items, not just the five shown. */
  lemma HeroClickPlaylist(cats: seq<Category>, st: PageState, item: MediaItem)
    requires AllDated(AllItems(cats))
    ensures HeroClick(cats, st, item).playlist == RecentItems(cats)
    ensures |View(cats, st).hero| <= HeroSize
    ensures View(cats, st).hero <= HeroClick(cats, st, item).playlist
  {
  }

  /** A row click plays through exactly that category; a result click through exactly the results. */
  lemma RowAndResultPlaylists(cats: seq<Category>, st: PageState, category: Category, item: MediaItem)
    ensures RowClick(cats, st, category, item).playlist == category.items
    ensures ResultClick(cats, st, item).playlist == FilteredItems(cats, st.searchQuery, st.filterType)
  {
  }

  /** Closing clears the selection and keeps the playlist; the queries are untouched. */
  lemma CloseKeepsPlaylist(st: PageState)
    ensures CloseModal(st).selected == None
    ensures CloseModal(st).playlist == st.playlist
    ensures CloseModal(st).searchQuery == st.searchQuery && CloseModal(st).filterType == st.filterType
  {
  }

  /** Changing the query leaves the open item and its playlist as they were. */
  lemma QueryChangeKeepsModal(st: PageState, q: string, f: TypeFilter)
    ensures SetSearchQuery(st, q).selected == st.selected && SetSearchQuery(st, q).playlist == st.playlist
    ensures SetFilterType(st, f).selected == st.selected && SetFilterType(st, f).playlist == st.playlist
  {
  }

  /** The modal's steps change only the selection, and the new selection comes from the playlist. */
  lemma ModalStepsKeepPlaylist(st: PageState)
    ensures ModalNext(st).(selected := st.selected) == st
    ensures ModalPrevious(st).(selected := st.selected) == st
    ensures ModalNext(st) != st ==> ModalNext(st).selected.value in st.playlist
    ensures ModalPrevious(st) != st ==> ModalPrevious(st).selected.value in st.playlist
  {
  }

  /** Opening an item from a list that holds it makes the selection part of the playlist. */
  lemma ClicksEstablishSelection(cats: seq<Category>, st: PageState, category: Category, item: MediaItem)
    requires AllDated(AllItems(cats))
    ensures item in category.items ==> SelectionInPlaylist(RowClick(cats, st, category, item))
    ensures item in FilteredItems(cats, st.searchQuery, st.filterType) ==> SelectionInPlaylist(ResultClick(cats, st, item))
    ensures item in View(cats, st).hero ==> SelectionInPlaylist(HeroClick(cats, st, item))
  {
    if item in View(cats, st).hero {
      HeroClickPlaylist(cats, st, item);
      var h := View(cats, st).hero;
      var i :| 0 <= i < |h| && h[i] == item;
      assert RecentItems(cats)[i] == item;
    }
  }

  /** The modal's steps, closing, a pick in the sidebar and query changes keep the selection in the playlist. */
  lemma HandlersKeepSelection(st: PageState, q: string, f: TypeFilter, item: MediaItem)
    requires SelectionInPlaylist(st)
    ensures SelectionInPlaylist(ModalNext(st)) && SelectionInPlaylist(ModalPrevious(st))
    ensures SelectionInPlaylist(CloseModal(st))
    ensures item in st.playlist ==> SelectionInPlaylist(ItemChange(st, item))
    ensures SelectionInPlaylist(SetSearchQuery(st, q)) && SelectionInPlaylist(SetFilterType(st, f))
  {
    ModalStepsKeepPlaylist(st);
  }

  /**
   * Auto-advance: when the open video or audio item ends, the player calls
   * `onNext` exactly when the modal reports a next item, and the call moves
   * the selection to that item.
   */
  lemma EndedAdvancesSelection(st: PageState)
    requires st.selected.Some? && st.selected.value.kind in {Video, Audio}
    ensures var item := st.selected.value;
      var nav := NavOf(Dispatch(item, None, ModalNav(st.playlist, item))).value;
      && (PlayerControls.EndedAdvances(nav.hasNext, nav.onNext.Some?) <==> HasNext(st.playlist, item))
      && (PlayerControls.EndedAdvances(nav.hasNext, nav.onNext.Some?) ==> ModalNext(st).selected == NextTarget(st.playlist, item))
      && (!PlayerControls.EndedAdvances(nav.hasNext, nav.onNext.Some?) ==> ModalNext(st) == st)
  {
    DispatchForwardsNav(st.selected.value, None, ModalNav(st.playlist, st.selected.value));
  }

  // ---------------------------------------------------------------------------
  // Properties of the layout

  /** Browsing shows the catalog's categories untouched; searching hides them. */
  lemma BrowsingShowsCatalog(cats: seq<Category>, st: PageState)
    requires AllDated(AllItems(cats))
    ensures !IsSearching(st.searchQuery, st.filterType) ==> View(cats, st).rows == cats
    ensures IsSearching(st.searchQuery, st.filterType) ==> View(cats, st).rows == []
  {
  }

  /** The hero appears only while browsing, holds the newest recent items, and is there iff the catalog has items. */
  lemma HeroShape(cats: seq<Category>, st: PageState)
    requires AllDated(AllItems(cats))
    ensures var hero := View(cats, st).hero;
      && hero <= RecentItems(cats)
      && |hero| <= HeroSize
      && (|hero| > 0 <==> !IsSearching(st.searchQuery, st.filterType) && |AllItems(cats)| > 0)
  {
  }

  /** "No results" shows exactly when searching finds nothing; the results section exactly when searching. */
  lemma NoResultsIff(cats: seq<Category>, st: PageState)
    requires AllDated(AllItems(cats))
    ensures View(cats, st).noResults <==> IsSearching(st.searchQuery, st.filterType) && FilteredItems(cats, st.searchQuery, st.filterType) == []
    ensures View(cats, st).results.Some? <==> IsSearching(st.searchQuery, st.filterType)
  {
  }

  /** "No content" shows exactly when browsing an empty catalog. */
  lemma NoContentIff(cats: seq<Category>, st: PageState)
    requires AllDated(AllItems(cats))
    ensures View(cats, st).noContent <==> !IsSearching(st.searchQuery, st.filterType) && |cats| == 0
  {
  }

  /** Searching by type alone, a result click plays every catalog item of that kind, in catalog order. */
  lemma TypeOnlyResultsPlayThatKind(cats: seq<Category>, st: PageState, item: MediaItem)
    requires st.searchQuery == [] && st.filterType != All
    ensures IsSearching(st.searchQuery, st.filterType)
    ensures ResultClick(cats, st, item).playlist == Filter(KindIs(st.filterType.kind), AllItems(cats))
  {
  }

  // ---------------------------------------------------------------------------
  // The page state as an object

  class Page {
    const catalog: seq<Category>
    var searchQuery: string
    var filterType: TypeFilter
    var selected: Option<MediaItem>
    var playlist: seq<MediaItem>

    function State(): PageState
      reads this
    {
      PageState(searchQuery, filterType, selected, playlist)
    }

    constructor(catalog: seq<Category>)
      ensures this.catalog == catalog
      ensures State() == Initial
    {
      this.catalog := catalog;
      searchQuery := [];
      filterType := All;
      selected := None;
      playlist := [];
    }

    method HandleSearchChange(q: string)
      modifies this
      ensures State() == SetSearchQuery(old(State()), q)
    {
      searchQuery := q;
    }

    method HandleFilterChange(f: TypeFilter)
      modifies this
      ensures State() == SetFilterType(old(State()), f)
    {
      filterType := f;
    }

    method HandleItemClick(item: MediaItem, supplied: Option<seq<MediaItem>>)
      modifies this
      ensures State() == ItemClick(catalog, old(State()), item, supplied)
    {
      selected := Some(item);
      if supplied.Some? {
        playlist := supplied.value;
      } else {
        playlist := FilteredItems(catalog, searchQuery, filterType);
      }
    }

    method HandleCloseModal()
      modifies this
      ensures State() == CloseModal(old(State()))
      ensures SelectionInPlaylist(State())
    {
      selected := None;
    }

    method HandleItemChange(item: MediaItem)
      modifies this
      ensures State() == ItemChange(old(State()), item)
    {
      selected := Some(item);
    }

    method HandleModalNext()
      modifies this
      ensures State() == ModalNext(old(State()))
      ensures SelectionInPlaylist(old(State())) ==> SelectionInPlaylist(State())
    {
      if selected.Some? {
        var next := NextTarget(playlist, selected.value);
        if next.Some? {
          selected := next;
        }
      }
      ModalStepsKeepPlaylist(old(State()));
    }

    method HandleModalPrevious()
      modifies this
      ensures State() == ModalPrevious(old(State()))
      ensures SelectionInPlaylist(old(State())) ==> SelectionInPlaylist(State())
    {
      if selected.Some? {
        var previous := PreviousTarget(playlist, selected.value);
        if previous.Some? {
          selected := previous;
        }
      }
      ModalStepsKeepPlaylist(old(State()));
    }
  }

}
