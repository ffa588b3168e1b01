/**
 * `MediaPlayer`: picks the player for an item by its kind. Video and audio
 * get the navigation props unchanged, a PDF gets the viewer without them,
 * and anything else (in practice an image) gets the "unsupported" notice.
 */
module MediaPlayer {
  import opened Wrappers
  import opened Media

  /**
   * The navigation props. A callback is modelled by what invoking it does
   * (type parameter `A`); `None` is an omitted prop.
   */
  datatype Nav<A> = Nav(onNext: Option<A>, onPrevious: Option<A>, hasNext: bool, hasPrevious: bool)

  /** What `MediaPlayer` renders. */
  datatype PlayerView<A> =
    | VideoPlayerView(item: MediaItem, nav: Nav<A>)
    | AudioPlayerView(item: MediaItem, nav: Nav<A>)
    | PdfViewerView(item: MediaItem)
    | Unsupported

  /** The `switch (item.type)`; the `playlist` prop is accepted and not read. */
  function Dispatch<A>(item: MediaItem, playlist: Option<seq<MediaItem>>, nav: Nav<A>): (r: PlayerView<A>)
    ensures r.VideoPlayerView? <==> item.kind == Video
    ensures r.AudioPlayerView? <==> item.kind == Audio
    ensures r.PdfViewerView? <==> item.kind == Pdf
    ensures r.Unsupported? <==> item.kind == Image
    ensures !r.Unsupported? ==> r.item == item
    ensures r.VideoPlayerView? || r.AudioPlayerView? ==> r.nav == nav
  {
    match item.kind
    case Video => VideoPlayerView(item, nav)
    case Audio => AudioPlayerView(item, nav)
    case Pdf => PdfViewerView(item)
    case Image => Unsupported
  }

  /** The navigation props a view passes on, if it takes any. */
  function NavOf<A>(v: PlayerView<A>): Option<Nav<A>>
  {
    match v
    case VideoPlayerView(_, nav) => Some(nav)
    case AudioPlayerView(_, nav) => Some(nav)
    case _ => None
  }

  /** Exactly the two time-based players receive navigation, and they receive it unchanged. */
  lemma DispatchForwardsNav<A>(item: MediaItem, playlist: Option<seq<MediaItem>>, nav: Nav<A>)
    ensures NavOf(Dispatch(item, playlist, nav)) == if item.kind in {Video, Audio} then Some(nav) else None
  {
  }

  /** The playlist prop does not affect what is rendered. */
  lemma DispatchIgnoresPlaylist<A>(item: MediaItem, p: Option<seq<MediaItem>>, q: Option<seq<MediaItem>>, nav: Nav<A>)
    ensures Dispatch(item, p, nav) == Dispatch(item, q, nav)
  {
  }

}
