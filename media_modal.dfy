/**
 * `MediaModal`: the dialog that plays the selected item and steps through
 * the playlist it was opened with. The position in the playlist is found by
 * id; the next/previous steps are guarded by `hasNext`/`hasPrevious`.
 */
module MediaModal {
  import opened Wrappers
  import opened Media
  import opened MediaLibrary
  import opened MediaPlayer

  /** `playlist.findIndex(i => i.id === id)`: the first position holding `id`, or -1. */
  function CurrentIndex(playlist: seq<MediaItem>, id: string): (r: int)
    ensures -1 <= r < |playlist|
    ensures 0 <= r ==> playlist[r].id == id
    ensures forall k :: 0 <= k < r ==> playlist[k].id != id
    ensures r == -1 <==> forall k :: 0 <= k < |playlist| ==> playlist[k].id != id
    decreases |playlist|
  {
    if playlist == [] then -1
    else if playlist[0].id == id then 0
    else
      var r := CurrentIndex(playlist[1..], id);
      assert forall k :: 1 <= k < |playlist| ==> playlist[k] == playlist[1..][k - 1];
      if r == -1 then -1 else r + 1
  }

  /** `currentIndex < playlist.length - 1`. */
  predicate HasNext(playlist: seq<MediaItem>, item: MediaItem)
  {
    CurrentIndex(playlist, item.id) < |playlist| - 1
  }

  /** `currentIndex > 0`. */
  predicate HasPrevious(playlist: seq<MediaItem>, item: MediaItem)
  {
    CurrentIndex(playlist, item.id) > 0
  }

  /** `handleNext`: the item handed to `onItemChange`, or `None` when the guard fails and nothing happens. */
  function NextTarget(playlist: seq<MediaItem>, item: MediaItem): (r: Option<MediaItem>)
    ensures r.Some? <==> HasNext(playlist, item)
    ensures r.Some? ==> r.value in playlist
  {
    if HasNext(playlist, item) then Some(playlist[CurrentIndex(playlist, item.id) + 1]) else None
  }

  /** `handlePrevious`: the item handed to `onItemChange`, or `None` when the guard fails. */
  function PreviousTarget(playlist: seq<MediaItem>, item: MediaItem): (r: Option<MediaItem>)
    ensures r.Some? <==> HasPrevious(playlist, item)
    ensures r.Some? ==> r.value in playlist
  {
    if HasPrevious(playlist, item) then Some(playlist[CurrentIndex(playlist, item.id) - 1]) else None
  }

  /** With distinct ids, the item at position `p` is found at `p`. */
  lemma IndexOfPosition(playlist: seq<MediaItem>, p: nat)
    requires UniqueIds(playlist) && p < |playlist|
    ensures CurrentIndex(playlist, playlist[p].id) == p
  {
  }

  /** From the item at position `p`, the next step goes to `p + 1` and exists iff `p` is not last. */
  lemma NextOfPosition(playlist: seq<MediaItem>, item: MediaItem, p: nat)
    requires UniqueIds(playlist) && p < |playlist| && playlist[p].id == item.id
    ensures NextTarget(playlist, item) == if p + 1 < |playlist| then Some(playlist[p + 1]) else None
  {
    IndexOfPosition(playlist, p);
  }

  /** From the item at position `p`, the previous step goes to `p - 1` and exists iff `p` is not first. */
  lemma PreviousOfPosition(playlist: seq<MediaItem>, item: MediaItem, p: nat)
    requires UniqueIds(playlist) && p < |playlist| && playlist[p].id == item.id
    ensures PreviousTarget(playlist, item) == if p > 0 then Some(playlist[p - 1]) else None
  {
    IndexOfPosition(playlist, p);
  }

  /**
   * An item missing from a non-empty playlist sits at -1: there is a next
   * step, to the first entry, and no previous step.
   */
  lemma AbsentItemSteps(playlist: seq<MediaItem>, item: MediaItem)
    requires |playlist| > 0
    requires forall k :: 0 <= k < |playlist| ==> playlist[k].id != item.id
    ensures NextTarget(playlist, item) == Some(playlist[0])
    ensures PreviousTarget(playlist, item) == None
  {
  }

  /** With distinct ids, a step forward then a step back returns to the item in the playlist. */
  lemma NextThenPrevious(playlist: seq<MediaItem>, item: MediaItem)
    requires UniqueIds(playlist) && item in playlist
    requires NextTarget(playlist, item).Some?
    ensures PreviousTarget(playlist, NextTarget(playlist, item).value) == Some(item)
  {
    var p :| 0 <= p < |playlist| && playlist[p] == item;
    NextOfPosition(playlist, item, p);
    PreviousOfPosition(playlist, playlist[p + 1], p + 1);
  }

  /** With distinct ids, a step back then a step forward returns to the item in the playlist. */
  lemma PreviousThenNext(playlist: seq<MediaItem>, item: MediaItem)
    requires UniqueIds(playlist) && item in playlist
    requires PreviousTarget(playlist, item).Some?
    ensures NextTarget(playlist, PreviousTarget(playlist, item).value) == Some(item)
  {
    var p :| 0 <= p < |playlist| && playlist[p] == item;
    PreviousOfPosition(playlist, item, p);
    NextOfPosition(playlist, playlist[p - 1], p - 1);
  }

  /** The header's `{currentIndex + 1} / {playlist.length}`. */
  datatype Indicator = Indicator(position: int, total: nat)

  function PositionIndicator(playlist: seq<MediaItem>, item: MediaItem): (r: Indicator)
    ensures r.total == |playlist|
    ensures 0 <= r.position <= r.total
    ensures r.position == 0 <==> forall k :: 0 <= k < |playlist| ==> playlist[k].id != item.id
    ensures r.position > 0 ==> playlist[r.position - 1].id == item.id
  {
    Indicator(CurrentIndex(playlist, item.id) + 1, |playlist|)
  }

  /** The navigation props the modal hands the player: each callback is the step it would take. */
  function ModalNav(playlist: seq<MediaItem>, item: MediaItem): Nav<Option<MediaItem>>
  {
    Nav(Some(NextTarget(playlist, item)), Some(PreviousTarget(playlist, item)),
        HasNext(playlist, item), HasPrevious(playlist, item))
  }

  /** What the modal shows: the player, the position, and the sidebar with its overlay. */
  datatype ModalView = ModalView(
    item: MediaItem,
    indicator: Indicator,
    player: PlayerView<Option<MediaItem>>,
    sidebarOpen: bool,
    overlay: bool)

  /** The component body: nothing at all for a null item (`return null`). */
  function Render(item: Option<MediaItem>, playlist: seq<MediaItem>, showPlaylist: bool): (r: Option<ModalView>)
    ensures r.None? <==> item.None?
    ensures r.Some? ==> r.value.item == item.value
    ensures r.Some? ==> r.value.sidebarOpen == showPlaylist && r.value.overlay == showPlaylist
  {
    match item
    case None => None
    case Some(it) =>
      Some(ModalView(it, PositionIndicator(playlist, it), Dispatch(it, None, ModalNav(playlist, it)),
                     showPlaylist, showPlaylist))
  }

  /**
   * The navigation a rendered video or audio item receives is consistent:
   * its next callback moves exactly when `hasNext` is set, and to an entry
   * of the playlist (likewise for previous).
   */
  lemma RenderedNavConsistent(item: MediaItem, playlist: seq<MediaItem>, showPlaylist: bool)
    requires item.kind == Video || item.kind == Audio
    ensures var v := Render(Some(item), playlist, showPlaylist).value;
      && NavOf(v.player) == Some(ModalNav(playlist, item))
      && (v.player.nav.onNext.value.Some? <==> v.player.nav.hasNext)
      && (v.player.nav.onPrevious.value.Some? <==> v.player.nav.hasPrevious)
      && (v.player.nav.onNext.value.Some? ==> v.player.nav.onNext.value.value in playlist)
      && (v.player.nav.onPrevious.value.Some? ==> v.player.nav.onPrevious.value.value in playlist)
  {
    DispatchForwardsNav(item, None, ModalNav(playlist, item));
  }

  /** The sidebar flag the modal keeps across item changes. */
  class PlaylistPanel {
    var showPlaylist: bool

    /** `useState(false)`. */
    constructor()
      ensures !showPlaylist
    {
      showPlaylist := false;
    }

    /** The list button: `setShowPlaylist(!showPlaylist)`. */
    method ToggleList()
      modifies this
      ensures showPlaylist == !old(showPlaylist)
    {
      showPlaylist := !showPlaylist;
    }

    /** The sidebar's close control. */
    method CloseSidebar()
      modifies this
      ensures !showPlaylist
    {
      showPlaylist := false;
    }

    /** A click on the overlay, which is only there while the sidebar is open. */
    method BackdropClick()
      requires showPlaylist
      modifies this
      ensures !showPlaylist
    {
      showPlaylist := false;
    }
  }

}
