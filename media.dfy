/**
 * The gallery's records: a media item, a category of items, the optional
 * remote manifest, and the closed set of media kinds with the type filter
 * the header offers on top of it.
 */
module Media {
  import opened Wrappers

  /** The four kinds a media item can have; the TypeScript union of string literals. */
  datatype MediaType = Video | Audio | Pdf | Image

  /**
   * One asset. `description`, `thumbnail`, `duration` and `size` are optional;
   * every other field is always present. `addedAt` is the date string that
   * the recent-items ordering parses.
   */
  datatype MediaItem = MediaItem(
    id: string,
    name: string,
    title: string,
    description: Option<string>,
    kind: MediaType,
    path: string,
    thumbnail: Option<string>,
    category: string,
    duration: Option<string>,
    size: Option<int>,
    addedAt: string)

  /** A named grouping; the order of `items` is the display order. */
  datatype Category = Category(id: string, name: string, path: string, items: seq<MediaItem>)

  /** Per-category and per-item annotations of a remote manifest; every field optional. */
  datatype ManifestCategory = ManifestCategory(title: Option<string>, description: Option<string>)
  datatype ManifestItem = ManifestItem(title: Option<string>, description: Option<string>, thumbnail: Option<string>)
  datatype Manifest = Manifest(
    title: Option<string>,
    description: Option<string>,
    categories: Option<map<string, ManifestCategory>>,
    items: Option<map<string, ManifestItem>>)

  /** The type filter: `'all'` or one media kind. */
  datatype TypeFilter = All | Only(kind: MediaType)

  /** The string literal the source uses for each kind. */
  function KindName(k: MediaType): string
  {
    match k
    case Video => "video"
    case Audio => "audio"
    case Pdf => "pdf"
    case Image => "image"
  }

  /** Reads a kind literal; anything outside the four literals is not a kind. */
  function ParseKind(s: string): (r: Option<MediaType>)
    ensures r.Some? <==> s in {"video", "audio", "pdf", "image"}
    ensures r.Some? ==> KindName(r.value) == s
  {
    if s == "video" then Some(Video)
    else if s == "audio" then Some(Audio)
    else if s == "pdf" then Some(Pdf)
    else if s == "image" then Some(Image)
    else None
  }

  /** The kind literals and the datatype are in one-to-one correspondence. */
  lemma KindNameRoundTrip(k: MediaType)
    ensures ParseKind(KindName(k)) == Some(k)
  {
    match k
    case Video =>
    case Audio =>
    case Pdf =>
    case Image =>
  }

  /** Every kind is one of exactly four, and the four are distinct. */
  lemma KindsAreFour(k: MediaType)
    ensures k == Video || k == Audio || k == Pdf || k == Image
    ensures |{Video, Audio, Pdf, Image}| == 4
  {
  }

  /** The string literal of a type filter. */
  function FilterName(f: TypeFilter): string
  {
    match f
    case All => "all"
    case Only(k) => KindName(k)
  }

  /** Reads a filter literal: `'all'` or a kind literal. */
  function ParseFilter(s: string): (r: Option<TypeFilter>)
    ensures r.Some? ==> FilterName(r.value) == s
    ensures r == Some(All) <==> s == "all"
  {
    if s == "all" then Some(All)
    else
      match ParseKind(s)
      case Some(k) => Some(Only(k))
      case None => None
  }

  lemma FilterNameRoundTrip(f: TypeFilter)
    ensures ParseFilter(FilterName(f)) == Some(f)
  {
    match f
    case All =>
    case Only(k) => KindNameRoundTrip(k);
  }

}
