# Media hub showcase, modelled in Dafny

A model of the logic inside a small React media gallery: a catalog of
categories holding video, audio, PDF and image items, a search box and type
filter over it, a "recently added" hero, and a modal that plays an item and
steps through the playlist it was opened with. The model covers:

- the record types: `Media`;
- the catalog store's derived views: `MediaLibrary`, with the sort in `DateSort` and the search in `TextSearch`;
- the embedded demo catalog: `DemoCatalog`;
- the modal's playlist navigation and sidebar flag: `MediaModal`;
- the page's selection, playlist and sections: `IndexPage`;
- the PDF viewer's page and zoom: `PdfViewer`;
- the control state that the video and audio players share, with `formatTime` in `TimeFormat`: `PlayerControls`;
- the component that picks a player by kind: `MediaPlayer`.

Derivations written as expressions in the source are Dafny functions, and
lemmas state what they keep. Handlers that overwrite component state are done
two ways: as a function from state to state, plus a class whose methods update
fields and are proved to follow that function (`PdfViewer.Viewer`,
`PlayerControls.Player`, `IndexPage.Page`, `MediaModal.PlaylistPanel`). The two
players have the same state and handlers, line for line except for the video
player's fullscreen button. One module models both, and the rows below cite the
video file, or the audio file where only it holds a line.

Calls into the platform, and values from it, become parameters:

- The media element's events (`timeupdate`, `loadedmetadata`, `ended`) become method inputs.
- Whether the element is mounted (`ref.current`) becomes the `hasElement` field of `Player`.
- A callback prop becomes the value its call would hand on (`Nav<A>`).

## Model

| member | source | states |
|---|---|---|
| `Media.ParseKind` | src/types/media.ts:1 | a string is a media kind exactly when it is one of the four literals, and the kind read back names that literal |
| `Media.KindNameRoundTrip` | src/types/media.ts:1 | every kind's literal reads back as that kind |
| `Media.KindsAreFour` | src/types/media.ts:1 | the kinds are exactly video, audio, pdf and image, four distinct values |
| `Media.ParseFilter` | src/hooks/useMediaLibrary.ts:137 | a filter literal is `'all'` or a kind literal; `'all'` reads as the unfiltered choice and nothing else does |
| `Media.FilterNameRoundTrip` | src/hooks/useMediaLibrary.ts:137 | every type filter's literal reads back as that filter |
| `MediaLibrary.AllItems` | src/hooks/useMediaLibrary.ts:139-141 | definition; stated by the `AllItemsMembership`, `AllItemsContains`, `AllItemsAppend` and `AllItemsLength` rows |
| `MediaLibrary.AllItemsMembership` | src/hooks/useMediaLibrary.ts:139-141 | an item is in `allItems` exactly when some category holds it |
| `MediaLibrary.AllItemsContains` | src/hooks/useMediaLibrary.ts:139-141 | every item of every category is in `allItems` |
| `MediaLibrary.AllItemsAppend` | src/hooks/useMediaLibrary.ts:139-141 | flattening two category lists one after the other gives the two flattenings one after the other (category order is kept) |
| `MediaLibrary.AllItemsLength` | src/hooks/useMediaLibrary.ts:139-141 | `allItems` is as long as the category sizes added up |
| `TextSearch.Includes` | src/hooks/useMediaLibrary.ts:149-151 | `includes` holds exactly when the query occurs at some position in the text; the empty query occurs in every text |
| `TextSearch.LowerChar` | src/hooks/useMediaLibrary.ts:147 | the fold maps A-Z to a-z, keeps every other character, and never yields an upper-case letter |
| `TextSearch.Lower` | src/hooks/useMediaLibrary.ts:147 | a folded string keeps its length and folds every character in place |
| `TextSearch.LowerIdempotent` | src/hooks/useMediaLibrary.ts:147 | folding a folded string changes nothing |
| `TextSearch.MissingCharExcludes` | src/hooks/useMediaLibrary.ts:149-151 | a query holding a character that the text lacks does not occur in it |
| `TextSearch.FoldedMisses` | src/hooks/useMediaLibrary.ts:147-151 | a query letter that the text holds in neither case rules the text out of the folded search |
| `TextSearch.LowerOfUpper` | src/hooks/useMediaLibrary.ts:147 | upper-casing a string and then lower-casing it gives the same fold as lower-casing it directly |
| `TextSearch.FoldedIncludesIgnoresCase` | src/hooks/useMediaLibrary.ts:147-151 | upper-casing the text or the query does not change whether the lower-cased query is in the lower-cased text |
| `MediaLibrary.SearchHit` | src/hooks/useMediaLibrary.ts:147-152 | definition; stated by the `SearchMisses`, `FilteredItemsIgnoresCase` and `TextSearch.FoldedIncludesIgnoresCase` rows |
| `MediaLibrary.Selected` | src/hooks/useMediaLibrary.ts:146-157 | definition; stated by the `FilteredItems`, `FilteredItemsIsOneFilter` and `NarrowedIsSelected` rows |
| `MediaLibrary.FilteredItems` | src/hooks/useMediaLibrary.ts:143-160 | `filteredItems` is an order-preserving subsequence of `allItems`; every item it holds passes the search and the type test; every item of `allItems` that passes both is in it |
| `MediaLibrary.FilteredItemsIsOneFilter` | src/hooks/useMediaLibrary.ts:146-157 | the search filter followed by the type filter is one filter by the AND of the two tests; the empty query and `'all'` each let every item through |
| `MediaLibrary.SearchMisses` | src/hooks/useMediaLibrary.ts:148-152 | an item is not a hit when a letter of the query appears in neither case in its title, its name or its description (when it has one) |
| `MediaLibrary.FilteredItemsIgnoresCase` | src/hooks/useMediaLibrary.ts:147 | two search strings with the same fold give the same results |
| `MediaLibrary.FilteredItemsUnfiltered` | src/hooks/useMediaLibrary.ts:143-160 | an empty query with filter `'all'` keeps every item, in order |
| `MediaLibrary.FilteredCategories` | src/hooks/useMediaLibrary.ts:162-171 | with no query and no filter the catalog comes back unchanged; if either is set, no category in the result is empty, and the result is an order-preserving subsequence of the catalog with each category narrowed to the filtered items |
| `MediaLibrary.FilteredCategoriesFlatten` | src/hooks/useMediaLibrary.ts:162-171 | the items of the filtered categories, flattened, are exactly `filteredItems` |
| `MediaLibrary.FilteredCategoryShape` | src/hooks/useMediaLibrary.ts:167-170 | with a query or filter set, each category that survives has the id, name and path of one input category, and exactly that category's selected items, in order |
| `MediaLibrary.FilteredCategoryKept` | src/hooks/useMediaLibrary.ts:167-170 | a category with at least one selected item survives, narrowed to its selected items |
| `MediaLibrary.NarrowedIsSelected` | src/hooks/useMediaLibrary.ts:169 | keeping a category's items that are in `filteredItems` keeps exactly its selected items |
| `MediaLibrary.RecentItems` | src/hooks/useMediaLibrary.ts:173-177 | `recentItems` has length min(10, \|allItems\|), is newest first, and takes each item no more often than `allItems` holds it |
| `MediaLibrary.RecentItemsAreNewest` | src/hooks/useMediaLibrary.ts:173-177 | no item left out of the recent list is newer than an item in it |
| `MediaLibrary.RecentItemsStable` | src/hooks/useMediaLibrary.ts:175 | items with the same date keep their catalog order in the recent list |
| `DateSort.ParseDate` | src/hooks/useMediaLibrary.ts:175 | a date is read only from a ten-character `yyyy-mm-dd` string, and only when the month exists and has the day, counting leap years |
| `DateSort.DateKey` | src/hooks/useMediaLibrary.ts:175 | a date key exists only for a `yyyy-mm-dd` string, and exactly when `ParseDate` reads a calendar day from it |
| `DateSort.BeforeIsEarlierDay` | src/hooks/useMediaLibrary.ts:175 | of two calendar days, the earlier by year, month and day has the smaller day count since year 0 |
| `DateSort.KeyOrdersDays` | src/hooks/useMediaLibrary.ts:175 | for calendar days, the `yyyymmdd` key is smaller exactly when the day count is, and equal exactly for the same day |
| `DateSort.DateKeyOrdersDays` | src/hooks/useMediaLibrary.ts:175 | two date strings' keys compare as the days they name, so the sort comparator has the sign of the difference of the parsed instants |
| `DateSort.MissingDaysRejected` | src/hooks/useMediaLibrary.ts:175 | the 30th of February, and the 29th outside leap years, get no key |
| `DateSort.DateKeyChronological` | src/hooks/useMediaLibrary.ts:175 | the key orders dates by year, then month, then day, as the calendar does |
| `DateSort.DateKeyOfDigits` | src/hooks/useMediaLibrary.ts:175 | a well-formed string naming a day of its month has as key its year, month and day read digit by digit |
| `DateSort.Stamp` | src/hooks/useMediaLibrary.ts:175 | definition; stated by the `DateKey`, `DateKeyOrdersDays` and `DemoStamps` rows |
| `DateSort.InsertBy` | src/hooks/useMediaLibrary.ts:175 | one insertion step of the sort lengthens the list by one; stated further by the `InsertByPermutes`, `InsertBySorted` and `InsertByAt` rows |
| `DateSort.SortBy` | src/hooks/useMediaLibrary.ts:174-175 | the sort keeps the length of its input; stated further by the `SortByPermutes`, `SortBySorted` and `SortByStable` rows |
| `DateSort.InsertByPermutes` | src/hooks/useMediaLibrary.ts:175 | one insertion step of the sort adds the item and keeps every other item |
| `DateSort.InsertBySorted` | src/hooks/useMediaLibrary.ts:175 | inserting into a newest-first list keeps it newest first |
| `DateSort.InsertByAt` | src/hooks/useMediaLibrary.ts:175 | the item goes after the strictly newer prefix, and before the first item that is no newer |
| `DateSort.SortByPermutes` | src/hooks/useMediaLibrary.ts:174-175 | the sort is a permutation of its input |
| `DateSort.SortBySorted` | src/hooks/useMediaLibrary.ts:175 | the sort's output is newest first |
| `DateSort.SortByStable` | src/hooks/useMediaLibrary.ts:175 | the sort is stable: items with equal keys keep their input order |
| `DateSort.PrefixIsNewest` | src/hooks/useMediaLibrary.ts:176 | after a prefix of a newest-first list is taken, nothing left over is newer than anything taken |
| `DemoCatalog.DemoAllItems` | src/hooks/useMediaLibrary.ts:5-131 | the demo catalog flattens to its nine items in category order |
| `DemoCatalog.DemoSizes` | src/hooks/useMediaLibrary.ts:5-131 | the demo catalog has four categories and nine items |
| `DemoCatalog.DemoIdsUnique` | src/hooks/useMediaLibrary.ts:5-131 | no two demo items share an id |
| `DemoCatalog.DemoItemsInOwnCategory` | src/hooks/useMediaLibrary.ts:5-131 | every demo item's `category` is the id of the category that holds it |
| `DemoCatalog.January2024` | src/hooks/useMediaLibrary.ts:20 | a `2024-01-dd` date parses, with key `202401dd` |
| `DemoCatalog.DemoStamps` | src/hooks/useMediaLibrary.ts:5-131 | every demo date parses, with the key its digits give |
| `DemoCatalog.DemoDated` | src/hooks/useMediaLibrary.ts:5-131 | every date in the demo catalog parses |
| `DemoCatalog.NineSorted` | src/hooks/useMediaLibrary.ts:175 | nine items with the demo dates sort into date order, newest first |
| `DemoCatalog.DemoRecent` | src/hooks/useMediaLibrary.ts:173-177 | the demo recent list is all nine items, from 15 January down to 5 January |
| `DemoCatalog.DemoSecurityHit` | src/hooks/useMediaLibrary.ts:150 | any query that lower-cases to `securit` matches the name `web-security.mp4` |
| `DemoCatalog.SecuritySelects` | src/hooks/useMediaLibrary.ts:143-160 | the query `securit`, in any case, selects the web-security lecture and none of the other eight demo items |
| `DemoCatalog.DemoSearchSecurity` | src/hooks/useMediaLibrary.ts:143-160 | searching the demo catalog for `securit`, in any case, gives exactly the web-security lecture |
| `DemoCatalog.DemoSearchSecurityCategories` | src/hooks/useMediaLibrary.ts:163-170 | the same search narrows the categories to the lectures alone, holding only the web-security lecture |
| `MediaModal.Render` | src/components/layout/MediaModal.tsx:19 | nothing is rendered exactly when there is no item; otherwise the view shows the item, and the sidebar and overlay each follow `showPlaylist` |
| `MediaModal.HasNext` | src/components/layout/MediaModal.tsx:22 | definition; stated by the `NextTarget`, `NextOfPosition` and `AbsentItemSteps` rows |
| `MediaModal.HasPrevious` | src/components/layout/MediaModal.tsx:23 | definition; stated by the `PreviousTarget`, `PreviousOfPosition` and `AbsentItemSteps` rows |
| `MediaModal.CurrentIndex` | src/components/layout/MediaModal.tsx:21 | the index is -1 or a valid position; a valid index holds the id and no earlier position does; -1 exactly when the id is absent |
| `MediaModal.NextTarget` | src/components/layout/MediaModal.tsx:25-29 | `handleNext` hands on an item exactly when `hasNext` holds, and that item is in the playlist |
| `MediaModal.PreviousTarget` | src/components/layout/MediaModal.tsx:31-35 | `handlePrevious` hands on an item exactly when `hasPrevious` holds, and that item is in the playlist |
| `MediaModal.IndexOfPosition` | src/components/layout/MediaModal.tsx:21 | with distinct ids, the item at position p is found at p |
| `MediaModal.NextOfPosition` | src/components/layout/MediaModal.tsx:22-27 | with distinct ids, from position p, `hasNext` holds exactly when p is not last, and the step goes to p + 1 |
| `MediaModal.PreviousOfPosition` | src/components/layout/MediaModal.tsx:23-33 | with distinct ids, from position p, `hasPrevious` holds exactly when p is not first, and the step goes to p - 1 |
| `MediaModal.AbsentItemSteps` | src/components/layout/MediaModal.tsx:21-27 | an item missing from a non-empty playlist has a next step, to the first entry, and no previous step |
| `MediaModal.NextThenPrevious` | src/components/layout/MediaModal.tsx:25-35 | with distinct ids, a step forward and then back returns to the item |
| `MediaModal.PreviousThenNext` | src/components/layout/MediaModal.tsx:25-35 | with distinct ids, a step back and then forward returns to the item |
| `MediaModal.PositionIndicator` | src/components/layout/MediaModal.tsx:52 | the indicator shows a position from 0 to the playlist length, over that length; 0 exactly when the item is absent; otherwise the position, counted from 1, holds the item |
| `MediaModal.RenderedNavConsistent` | src/components/layout/MediaModal.tsx:62-68 | a video or audio item's player gets the modal's navigation; each callback moves exactly when its flag is set, and to a playlist entry |
| `MediaModal.PlaylistPanel.constructor` | src/components/layout/MediaModal.tsx:17 | the sidebar starts closed |
| `MediaModal.PlaylistPanel.ToggleList` | src/components/layout/MediaModal.tsx:47 | the list button flips `showPlaylist` |
| `MediaModal.PlaylistPanel.CloseSidebar` | src/components/layout/MediaModal.tsx:79 | the sidebar's close control closes it |
| `MediaModal.PlaylistPanel.BackdropClick` | src/components/layout/MediaModal.tsx:83-86 | a click on the overlay, which is only there while the sidebar is open, closes it |
| `MediaPlayer.Dispatch` | src/components/media/MediaPlayer.tsx:15-46 | video, audio, pdf and image give the video player, audio player, PDF viewer and unsupported notice, each exactly for its kind; a player keeps the item; video and audio receive the navigation props unchanged |
| `MediaPlayer.DispatchForwardsNav` | src/components/media/MediaPlayer.tsx:17-38 | exactly video and audio take navigation props, and get them unchanged; a PDF gets none |
| `MediaPlayer.DispatchIgnoresPlaylist` | src/components/media/MediaPlayer.tsx:8 | the `playlist` prop does not affect what is rendered |
| `IndexPage.IsSearching` | src/pages/Index.tsx:33 | definition; stated by the `BrowsingShowsCatalog`, `HeroShape`, `NoResultsIff` and `NoContentIff` rows |
| `IndexPage.View` | src/pages/Index.tsx:46-104 | definition; stated by the `BrowsingShowsCatalog`, `HeroShape`, `NoResultsIff` and `NoContentIff` rows |
| `IndexPage.ItemClickPlaylist` | src/pages/Index.tsx:24-27 | a click selects the item; it installs the supplied playlist, even an empty one, or `filteredItems` when none is supplied |
| `IndexPage.HeroClickPlaylist` | src/pages/Index.tsx:53-57 | a hero click plays the whole recent list; the hero shows at most five items, a prefix of it |
| `IndexPage.RowAndResultPlaylists` | src/pages/Index.tsx:98 | a row click plays exactly that category's items; a result click plays exactly `filteredItems` |
| `IndexPage.CloseKeepsPlaylist` | src/pages/Index.tsx:29-31 | closing clears the selection and keeps the playlist and the queries |
| `IndexPage.QueryChangeKeepsModal` | src/pages/Index.tsx:37-41 | changing the search or the filter leaves the open item and its playlist alone |
| `IndexPage.ModalStepsKeepPlaylist` | src/pages/Index.tsx:119 | the modal's steps change only the selection, and the new selection comes from the playlist |
| `IndexPage.ClicksEstablishSelection` | src/pages/Index.tsx:57 | clicking an item in the hero, a row or the results puts the selection in the installed playlist |
| `IndexPage.HandlersKeepSelection` | src/pages/Index.tsx:115-120 | the modal steps, closing, a pick from the playlist and query changes all keep the selection in the playlist |
| `IndexPage.EndedAdvancesSelection` | src/pages/Index.tsx:119 | when the open video or audio item ends, the player calls `onNext` exactly when the modal has a next item, and the call selects that item |
| `IndexPage.BrowsingShowsCatalog` | src/pages/Index.tsx:94-101 | browsing shows the category rows, which are the catalog untouched; searching shows none |
| `IndexPage.HeroShape` | src/pages/Index.tsx:46-53 | the hero is a prefix of the recent list, at most five items long, and non-empty exactly when browsing a catalog that has items |
| `IndexPage.NoResultsIff` | src/pages/Index.tsx:71-89 | "no results" shows exactly when a search finds nothing; the results section shows exactly while searching |
| `IndexPage.NoContentIff` | src/pages/Index.tsx:104 | "no content" shows exactly when browsing with zero categories |
| `IndexPage.TypeOnlyResultsPlayThatKind` | src/pages/Index.tsx:26 | with an empty search and a type filter, the page is searching, and a result click plays every catalog item of that kind in catalog order |
| `IndexPage.Page.constructor` | src/pages/Index.tsx:21-22 | nothing is selected and the playlist is empty |
| `IndexPage.Page.HandleSearchChange` | src/pages/Index.tsx:39 | only the search text changes |
| `IndexPage.Page.HandleFilterChange` | src/pages/Index.tsx:41 | only the type filter changes |
| `IndexPage.Page.HandleItemClick` | src/pages/Index.tsx:24-27 | the fields become the item click's new state |
| `IndexPage.Page.HandleCloseModal` | src/pages/Index.tsx:29-31 | only the selection is cleared |
| `IndexPage.Page.HandleItemChange` | src/pages/Index.tsx:119 | only the selection changes |
| `IndexPage.Page.HandleModalNext` | src/components/layout/MediaModal.tsx:25-29 | the page follows the modal's next step; a selection inside the playlist stays inside it |
| `IndexPage.Page.HandleModalPrevious` | src/components/layout/MediaModal.tsx:31-35 | the page follows the modal's previous step; a selection inside the playlist stays inside it |
| `PdfViewer.InitialValid` | src/components/media/PDFViewer.tsx:11-13 | page 1 of 10 at 100% is a valid state |
| `PdfViewer.HandlersPreserveValid` | src/components/media/PDFViewer.tsx:11-29 | every handler keeps 1 <= page <= 10, 50 <= zoom <= 200 and zoom a multiple of 25 |
| `PdfViewer.StepsAreIndependent` | src/components/media/PDFViewer.tsx:15-29 | page steps never change the zoom; zoom steps never change the page |
| `PdfViewer.DisabledIffNoOp` | src/components/media/PDFViewer.tsx:48-54 | on a valid state, each page button is disabled exactly when pressing it would change nothing |
| `PdfViewer.PageStepsInverse` | src/components/media/PDFViewer.tsx:15-21 | a page step that moved is undone by the opposite step |
| `PdfViewer.ZoomStepsInverse` | src/components/media/PDFViewer.tsx:23-29 | a zoom step that moved is undone by the opposite step |
| `PdfViewer.NextPagesReach` | src/components/media/PDFViewer.tsx:19-21 | from page 1, n presses of next reach page n + 1 and stop at page 10 |
| `PdfViewer.ZoomInsReach` | src/components/media/PDFViewer.tsx:23-25 | from 50%, n presses of zoom-in reach 50 + 25n and stop at 200 |
| `PdfViewer.ZoomOutsFloor` | src/components/media/PDFViewer.tsx:27-29 | from 100%, zoom-out reaches 75%, then 50%, stays there, and keeps the page |
| `PdfViewer.ValidReachable` | src/components/media/PDFViewer.tsx:11-29 | the handlers reach every valid state from the initial one |
| `PdfViewer.Viewer.constructor` | src/components/media/PDFViewer.tsx:11-13 | the viewer opens at page 1 and 100% |
| `PdfViewer.Viewer.HandlePrevPage` | src/components/media/PDFViewer.tsx:15-17 | the page goes down by one when above 1 and is otherwise unchanged; validity is kept |
| `PdfViewer.Viewer.HandleNextPage` | src/components/media/PDFViewer.tsx:19-21 | the page goes up by one when below 10 and is otherwise unchanged; validity is kept |
| `PdfViewer.Viewer.HandleZoomIn` | src/components/media/PDFViewer.tsx:23-25 | the zoom goes up by 25 when below 200 and is otherwise unchanged; validity is kept |
| `PdfViewer.Viewer.HandleZoomOut` | src/components/media/PDFViewer.tsx:27-29 | the zoom goes down by 25 when above 50 and is otherwise unchanged; validity is kept |
| `Decimal.DigitChar` | src/components/media/VideoPlayer.tsx:93 | a digit value below ten gives a decimal digit character |
| `Decimal.DigitValue` | src/components/media/VideoPlayer.tsx:93 | a digit character's value is below ten and gives the character back |
| `Decimal.NatToString` | src/components/media/VideoPlayer.tsx:93 | `toString` of a whole number is a non-empty run of digits with no leading zero |
| `Decimal.NatToStringRoundTrip` | src/components/media/VideoPlayer.tsx:93 | reading a numeral back gives the number it was written from |
| `Decimal.NatToStringLength` | src/components/media/VideoPlayer.tsx:93 | numbers below ten take one digit, numbers below a hundred at most two |
| `TimeFormat.PadStart` | src/components/media/VideoPlayer.tsx:93 | `padStart` gives the wider of the string's length and the width, the filler in front of the unchanged string |
| `TimeFormat.PadZerosValue` | src/components/media/VideoPlayer.tsx:93 | padding with zeros keeps the numeral's value |
| `TimeFormat.FormatTime` | src/components/media/VideoPlayer.tsx:90-94 | `formatTime(t)` is t / 60 in digits with no leading zero, a colon, and t % 60 as exactly two digits |
| `TimeFormat.FormatTimeRoundTrip` | src/components/media/AudioPlayer.tsx:80-84 | an `m:ss` label reads back as the seconds it was formatted from |
| `TimeFormat.FormatTimeInjective` | src/components/media/AudioPlayer.tsx:80-84 | two different times never get the same label |
| `PlayerControls.TogglePlayFlips` | src/components/media/VideoPlayer.tsx:45-55 | `togglePlay` flips `isPlaying`, changes nothing else, and undoes itself |
| `PlayerControls.SeekKeepsPlayState` | src/components/media/AudioPlayer.tsx:57-62 | a seek sets the position, changes nothing else, and the last seek wins |
| `PlayerControls.VolumeChangeShowsValue` | src/components/media/VideoPlayer.tsx:64-71 | a volume change stores the value, mutes exactly at zero, and the slider then shows the value |
| `PlayerControls.ToggleMuteKeepsVolume` | src/components/media/VideoPlayer.tsx:73-78 | muting flips `isMuted` and keeps the stored volume; the slider shows 0 while muted and the volume otherwise |
| `PlayerControls.ToggleMuteInvolution` | src/components/media/AudioPlayer.tsx:73-78 | on a state where the element agrees with the button, muting twice restores the state |
| `PlayerControls.MuteThenUnmuteRestores` | src/components/media/AudioPlayer.tsx:162 | after a non-zero volume is set, muting shows 0, and unmuting shows that volume again |
| `PlayerControls.MuteUnmuteAtSevenTenths` | src/components/media/AudioPlayer.tsx:162 | set 0.7, mute, unmute: the slider shows 0.7 |
| `PlayerControls.EndedStops` | src/components/media/VideoPlayer.tsx:29-32 | `ended` stops playback and keeps everything else |
| `PlayerControls.HandlersPreserveInvariants` | src/components/media/VideoPlayer.tsx:45-78 | with the corrected volume handler, every handler keeps the volume in [0, 1] and the element's `muted` equal to `isMuted` |
| `PlayerControls.InitialValid` | src/components/media/VideoPlayer.tsx:17-21 | the initial controls are in range and in agreement |
| `PlayerControls.VolumeChangeAsWrittenDesyncs` | src/components/media/VideoPlayer.tsx:64-71 | the volume handler as written: after a mute, dragging to 0.5 shows sound on while the element stays muted |
| `PlayerControls.VolumeChangeCorrectionOnlyTouchesElement` | src/components/media/AudioPlayer.tsx:64-71 | the corrected volume handler differs from the one as written only in the element flag, and shows exactly the same controls |
| `PlayerControls.View` | src/components/media/VideoPlayer.tsx:120-185 | definition; stated by the `ViewVolume`, `ViewButtons`, `ViewSeekRange` and `ViewTimesReadBack` rows |
| `PlayerControls.ViewVolume` | src/components/media/VideoPlayer.tsx:180 | the volume slider stays in [0, 1] and reads 0 exactly when muted or at zero volume |
| `PlayerControls.ViewButtons` | src/components/media/VideoPlayer.tsx:142 | previous is disabled exactly without `hasPrevious`; next is disabled exactly without `hasNext` |
| `PlayerControls.ViewSeekRange` | src/components/media/VideoPlayer.tsx:124 | the seek maximum is the duration, or 100 while the duration is 0 |
| `PlayerControls.ViewTimesReadBack` | src/components/media/VideoPlayer.tsx:133 | the two time labels read back as the position and the duration |
| `PlayerControls.Player.constructor` | src/components/media/AudioPlayer.tsx:17-21 | paused at 0 of 0 seconds, full volume, not muted |
| `PlayerControls.Player.TogglePlay` | src/components/media/AudioPlayer.tsx:45-55 | with an element, the state takes the toggle step; without one, nothing changes |
| `PlayerControls.Player.HandleSeek` | src/components/media/AudioPlayer.tsx:57-62 | with an element, the position becomes the slider value; without one, nothing changes |
| `PlayerControls.Player.HandleVolumeChange` | src/components/media/AudioPlayer.tsx:64-71 | with an element, the corrected volume step, which keeps the volume in range; without one, nothing changes |
| `PlayerControls.Player.ToggleMute` | src/components/media/AudioPlayer.tsx:73-78 | with an element, the mute step, which keeps the element in agreement; without one, nothing changes |
| `PlayerControls.Player.OnTimeUpdate` | src/components/media/VideoPlayer.tsx:27 | the position follows the element |
| `PlayerControls.Player.OnLoadedMetadata` | src/components/media/VideoPlayer.tsx:28 | the duration follows the element |
| `PlayerControls.Player.OnEnded` | src/components/media/AudioPlayer.tsx:29-32 | playback stops, and `onNext` is called exactly when `hasNext` holds and `onNext` is given |

## Left out

- The DOM media element is not modelled: `play()`, `pause()`, the engine clamping `currentTime`, and the volume the element is given. Only the component state and the element's `muted` flag are kept. The element's events are method inputs.
- Fullscreen (`toggleFullscreen`, VideoPlayer.tsx lines 80-88) is left out because it is a platform call with no component state.
- The `useEffect` listener setup and teardown is left out. The `Player` methods `OnTimeUpdate`, `OnLoadedMetadata` and `OnEnded` require `hasElement`, because the listeners are attached only while the element exists.
- JavaScript numbers are not modelled as floats. Times are whole seconds, so `formatTime` on fractional or NaN input is not covered. The volume is a real number.
- `toLowerCase` is folded for ASCII letters only. Non-ASCII characters, including the Hebrew titles of the demo catalog, are kept as they are, which matches JavaScript for Hebrew.
- `new Date(addedAt).getTime()` is modelled by `DateKey`, which reads `yyyy-mm-dd` strings as `year * 10000 + month * 100 + day`. `DateKeyOrdersDays` proves that this key orders calendar days as their day counts do, so it gives the comparator the same signs as the instants.
- DateSort.DateKey accepts only the `yyyy-mm-dd` shape naming a real calendar day, and MediaLibrary.RecentItems requires every `addedAt` to have that shape. Other strings that JavaScript parses, such as full ISO timestamps, are not covered. Days a month lacks, such as `2024-02-30`, are not covered either: some engines roll them over to the next month and others give NaN. Strings that give NaN make the comparator inconsistent.
- `useMemo` caching, the unused `setCategories` and `loading` state, and remote loading of `Manifest` are left out. `Manifest` is only declared in `Media` because nothing shown consumes it.
- The JSX markup, styling and widget toolkit are left out. `Header`, `CategoryRow`, `MediaCard` and `PlaylistSidebar` are not part of this model, and neither is the per-card `isActive` highlight by id. The sidebar's item clicks reach the page as `IndexPage.Page.HandleItemChange`.
- The `Dialog`'s `onOpenChange` and the close button both call `onClose`, which is `IndexPage.Page.HandleCloseModal`.
- `handleVolumeChange` sets `isMuted` to `value === 0` on every change, so any non-zero value unmutes, and the model follows this.
- PlayerControls.Player and PdfViewer.Viewer each stand for one mounting of their component, starting from the constructor. `MediaPlayer` renders the players without a `key` (MediaPlayer.tsx lines 19, 29 and 38), and the modal stays mounted. So when next, previous, the `ended` auto-advance or a sidebar click moves to another item of the same kind, React reuses the component. The new item then inherits `isPlaying`, the position, the duration, the volume and the mute flag, or the PDF page and zoom, while the new source starts paused. The model has no item-change step and does not capture this carry-over.
- PlayerControls.Player.HandleVolumeChange uses the corrected step from "Findings", not the handler as written. The handler as written is `PlayerControls.VolumeChangeAsWritten`.

## Findings

| source | as written | input that shows it | evidently intended | confidence | as-written member | corrected member |
|---|---|---|---|---|---|---|
| src/components/media/VideoPlayer.tsx:64-71 | `handleVolumeChange` sets `volume` and `isMuted` but never writes `video.muted`, though `toggleMute` does (the audio player, lines 64-71 of AudioPlayer.tsx, is the same) | press mute, then drag the volume slider to 0.5: the button shows sound on while the element is still muted, so nothing plays | the element's `muted` follows `isMuted` on a volume change as it does on a mute toggle | medium, not executed | `PlayerControls.VolumeChangeAsWrittenDesyncs` | `PlayerControls.HandlersPreserveInvariants` |
