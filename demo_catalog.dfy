/** The embedded demo catalog and what the catalog derivations give on it. */
module DemoCatalog {
  import opened Wrappers
  import opened Media
  import opened MediaLibrary
  import opened DateSort
  import opened Seqs
  import opened TextSearch

  function Item(id: string, name: string, title: string, description: string, kind: MediaType,
                path: string, category: string, duration: Option<string>, addedAt: string): MediaItem
  {
    MediaItem(id, name, title, Some(description), kind, path, None, category, duration, None, addedAt)
  }

  const IntroToReact := Item("1", "intro-to-react.mp4", "מבוא ל-React", "למד את הבסיס של React",
    Video, "media/tutorials/intro-to-react.mp4", "tutorials", Some("15:30"), "2024-01-15")
  const TypescriptBasics := Item("2", "typescript-basics.mp4", "יסודות TypeScript", "הכר את TypeScript",
    Video, "media/tutorials/typescript-basics.mp4", "tutorials", Some("22:45"), "2024-01-10")
  const CssAnimations := Item("3", "css-animations.mp4", "אנימציות CSS", "צור אנימציות מדהימות",
    Video, "media/tutorials/css-animations.mp4", "tutorials", Some("18:20"), "2024-01-08")
  const ProjectOverview := Item("4", "project-overview.pdf", "סקירת הפרויקט", "סקירה כללית של הפרויקט",
    Pdf, "media/presentations/project-overview.pdf", "presentations", None, "2024-01-12")
  const Architecture := Item("5", "architecture.pdf", "ארכיטקטורת המערכת", "תיאור מבנה המערכת",
    Pdf, "media/presentations/architecture.pdf", "presentations", None, "2024-01-05")
  const Episode01 := Item("6", "episode-01.mp3", "פרק 1 - התחלה", "הפרק הראשון בסדרה",
    Audio, "media/podcasts/episode-01.mp3", "podcasts", Some("45:00"), "2024-01-14")
  const Episode02 := Item("7", "episode-02.mp3", "פרק 2 - המשך", "הפרק השני בסדרה",
    Audio, "media/podcasts/episode-02.mp3", "podcasts", Some("38:15"), "2024-01-07")
  const WebSecurity := Item("8", "web-security.mp4", "אבטחת אתרים", "הרצאה על אבטחת מידע",
    Video, "media/lectures/web-security.mp4", "lectures", Some("55:00"), "2024-01-13")
  const Performance := Item("9", "performance.mp4", "ביצועים ואופטימיזציה", "שיפור ביצועי אתרים",
    Video, "media/lectures/performance.mp4", "lectures", Some("42:30"), "2024-01-06")

  const Tutorials := Category("tutorials", "הדרכות", "media/tutorials", [IntroToReact, TypescriptBasics, CssAnimations])
  const Presentations := Category("presentations", "מצגות", "media/presentations", [ProjectOverview, Architecture])
  const Podcasts := Category("podcasts", "פודקאסטים", "media/podcasts", [Episode01, Episode02])
  const Lectures := Category("lectures", "הרצאות", "media/lectures", [WebSecurity, Performance])

  /** `DEMO_CATEGORIES`. */
  const DemoCategories: seq<Category> := [Tutorials, Presentations, Podcasts, Lectures]

  /** The flattened demo catalog. */
  lemma DemoAllItems()
    ensures AllItems(DemoCategories) ==
      [IntroToReact, TypescriptBasics, CssAnimations, ProjectOverview, Architecture, Episode01, Episode02, WebSecurity, Performance]
  {
    assert DemoCategories[1..] == [Presentations, Podcasts, Lectures];
    assert DemoCategories[1..][1..] == [Podcasts, Lectures];
    assert DemoCategories[1..][1..][1..] == [Lectures];
    assert DemoCategories[1..][1..][1..][1..] == [];
    assert AllItems([Lectures]) == Lectures.items;
    assert AllItems([Podcasts, Lectures]) == Podcasts.items + Lectures.items;
    assert AllItems([Presentations, Podcasts, Lectures]) == Presentations.items + Podcasts.items + Lectures.items;
  }

  /** The demo catalog has four categories and nine items. */
  lemma DemoSizes()
    ensures |DemoCategories| == 4 && |AllItems(DemoCategories)| == 9
  {
    DemoAllItems();
  }

  /** An item added on a day of January 2024, written `2024-01-dd`, is dated, with key `202401dd`. */
  lemma January2024(x: MediaItem, d1: char, d2: char)
    requires x.addedAt == ['2', '0', '2', '4', '-', '0', '1', '-', d1, d2]
    requires '0' <= d1 <= '3' && '0' <= d2 <= '9'
    requires var d := (d1 as int - '0' as int) * 10 + (d2 as int - '0' as int); 1 <= d <= 31
    ensures Dated(x) && Stamp(x) == 20240100 + (d1 as int - '0' as int) * 10 + (d2 as int - '0' as int)
  {
    DateKeyOfDigits(x.addedAt);
  }

  /** The dates of the tutorials category parse. */
  lemma TutorialsStamps()
    ensures Dated(IntroToReact) && Stamp(IntroToReact) == 20240115
    ensures Dated(TypescriptBasics) && Stamp(TypescriptBasics) == 20240110
    ensures Dated(CssAnimations) && Stamp(CssAnimations) == 20240108
  {
    January2024(IntroToReact, '1', '5');
    January2024(TypescriptBasics, '1', '0');
    January2024(CssAnimations, '0', '8');
  }

  /** The dates of the presentations category parse. */
  lemma PresentationsStamps()
    ensures Dated(ProjectOverview) && Stamp(ProjectOverview) == 20240112
    ensures Dated(Architecture) && Stamp(Architecture) == 20240105
  {
    January2024(ProjectOverview, '1', '2');
    January2024(Architecture, '0', '5');
  }

  /** The dates of the podcasts category parse. */
  lemma PodcastsStamps()
    ensures Dated(Episode01) && Stamp(Episode01) == 20240114
    ensures Dated(Episode02) && Stamp(Episode02) == 20240107
  {
    January2024(Episode01, '1', '4');
    January2024(Episode02, '0', '7');
  }

  /** The dates of the lectures category parse. */
  lemma LecturesStamps()
    ensures Dated(WebSecurity) && Stamp(WebSecurity) == 20240113
    ensures Dated(Performance) && Stamp(Performance) == 20240106
  {
    January2024(WebSecurity, '1', '3');
    January2024(Performance, '0', '6');
  }

  /** Every demo date parses; the keys are the dates written as `yyyymmdd`. */
  lemma DemoStamps()
    ensures Dated(IntroToReact) && Stamp(IntroToReact) == 20240115
    ensures Dated(TypescriptBasics) && Stamp(TypescriptBasics) == 20240110
    ensures Dated(CssAnimations) && Stamp(CssAnimations) == 20240108
    ensures Dated(ProjectOverview) && Stamp(ProjectOverview) == 20240112
    ensures Dated(Architecture) && Stamp(Architecture) == 20240105
    ensures Dated(Episode01) && Stamp(Episode01) == 20240114
    ensures Dated(Episode02) && Stamp(Episode02) == 20240107
    ensures Dated(WebSecurity) && Stamp(WebSecurity) == 20240113
    ensures Dated(Performance) && Stamp(Performance) == 20240106
  {
    TutorialsStamps();
    PresentationsStamps();
    PodcastsStamps();
    LecturesStamps();
  }

  /** Nine dated items make a dated list. */
  lemma NineDated(a: MediaItem, b: MediaItem, c: MediaItem, d: MediaItem, e: MediaItem,
                  f: MediaItem, g: MediaItem, h: MediaItem, i: MediaItem)
    requires Dated(a) && Dated(b) && Dated(c) && Dated(d) && Dated(e)
    requires Dated(f) && Dated(g) && Dated(h) && Dated(i)
    ensures AllDated([a, b, c, d, e, f, g, h, i])
  {
  }

  lemma DemoDated()
    ensures AllDated(AllItems(DemoCategories))
  {
    DemoAllItems();
    DemoStamps();
    NineDated(IntroToReact, TypescriptBasics, CssAnimations, ProjectOverview, Architecture, Episode01, Episode02, WebSecurity, Performance);
  }

  lemma DemoSortStep9<T>(key: T -> int, i: T)
    requires key(i) == 20240106
    ensures SortBy(key, [i]) == [i]
  {
    assert [i][1..] == [];
    InsertByAt(key, i, [], 0);
  }

  lemma DemoSortStep8<T>(key: T -> int, h: T, i: T)
    requires key(h) == 20240113
    requires key(i) == 20240106
    requires SortBy(key, [i]) == [i]
    ensures SortBy(key, [h, i]) == [h, i]
  {
    assert [h, i][1..] == [i];
    InsertByAt(key, h, [i], 0);
  }

  lemma DemoSortStep7<T>(key: T -> int, g: T, h: T, i: T)
    requires key(g) == 20240107
    requires key(h) == 20240113
    requires key(i) == 20240106
    requires SortBy(key, [h, i]) == [h, i]
    ensures SortBy(key, [g, h, i]) == [h, g, i]
  {
    assert [g, h, i][1..] == [h, i];
    InsertByAt(key, g, [h, i], 1);
  }

  lemma DemoSortStep6<T>(key: T -> int, f: T, g: T, h: T, i: T)
    requires key(f) == 20240114
    requires key(g) == 20240107
    requires key(h) == 20240113
    requires key(i) == 20240106
    requires SortBy(key, [g, h, i]) == [h, g, i]
    ensures SortBy(key, [f, g, h, i]) == [f, h, g, i]
  {
    assert [f, g, h, i][1..] == [g, h, i];
    InsertByAt(key, f, [h, g, i], 0);
  }

  lemma DemoSortStep5<T>(key: T -> int, e: T, f: T, g: T, h: T, i: T)
    requires key(e) == 20240105
    requires key(f) == 20240114
    requires key(g) == 20240107
    requires key(h) == 20240113
    requires key(i) == 20240106
    requires SortBy(key, [f, g, h, i]) == [f, h, g, i]
    ensures SortBy(key, [e, f, g, h, i]) == [f, h, g, i, e]
  {
    assert [e, f, g, h, i][1..] == [f, g, h, i];
    InsertByAt(key, e, [f, h, g, i], 4);
  }

  lemma DemoSortStep4<T>(key: T -> int, d: T, e: T, f: T, g: T, h: T, i: T)
    requires key(d) == 20240112
    requires key(e) == 20240105
    requires key(f) == 20240114
    requires key(g) == 20240107
    requires key(h) == 20240113
    requires key(i) == 20240106
    requires SortBy(key, [e, f, g, h, i]) == [f, h, g, i, e]
    ensures SortBy(key, [d, e, f, g, h, i]) == [f, h, d, g, i, e]
  {
    assert [d, e, f, g, h, i][1..] == [e, f, g, h, i];
    InsertByAt(key, d, [f, h, g, i, e], 2);
  }

  lemma DemoSortStep3<T>(key: T -> int, c: T, d: T, e: T, f: T, g: T, h: T, i: T)
    requires key(c) == 20240108
    requires key(d) == 20240112
    requires key(e) == 20240105
    requires key(f) == 20240114
    requires key(g) == 20240107
    requires key(h) == 20240113
    requires key(i) == 20240106
    requires SortBy(key, [d, e, f, g, h, i]) == [f, h, d, g, i, e]
    ensures SortBy(key, [c, d, e, f, g, h, i]) == [f, h, d, c, g, i, e]
  {
    assert [c, d, e, f, g, h, i][1..] == [d, e, f, g, h, i];
    InsertByAt(key, c, [f, h, d, g, i, e], 3);
  }

  lemma DemoSortStep2<T>(key: T -> int, b: T, c: T, d: T, e: T, f: T, g: T, h: T, i: T)
    requires key(b) == 20240110
    requires key(c) == 20240108
    requires key(d) == 20240112
    requires key(e) == 20240105
    requires key(f) == 20240114
    requires key(g) == 20240107
    requires key(h) == 20240113
    requires key(i) == 20240106
    requires SortBy(key, [c, d, e, f, g, h, i]) == [f, h, d, c, g, i, e]
    ensures SortBy(key, [b, c, d, e, f, g, h, i]) == [f, h, d, b, c, g, i, e]
  {
    assert [b, c, d, e, f, g, h, i][1..] == [c, d, e, f, g, h, i];
    InsertByAt(key, b, [f, h, d, c, g, i, e], 3);
  }

  lemma DemoSortStep1<T>(key: T -> int, a: T, b: T, c: T, d: T, e: T, f: T, g: T, h: T, i: T)
    requires key(a) == 20240115
    requires key(b) == 20240110
    requires key(c) == 20240108
    requires key(d) == 20240112
    requires key(e) == 20240105
    requires key(f) == 20240114
    requires key(g) == 20240107
    requires key(h) == 20240113
    requires key(i) == 20240106
    requires SortBy(key, [b, c, d, e, f, g, h, i]) == [f, h, d, b, c, g, i, e]
    ensures SortBy(key, [a, b, c, d, e, f, g, h, i]) == [a, f, h, d, b, c, g, i, e]
  {
    assert [a, b, c, d, e, f, g, h, i][1..] == [b, c, d, e, f, g, h, i];
    InsertByAt(key, a, [f, h, d, b, c, g, i, e], 0);
  }

  /** Nine items with the demo dates, in catalog order, sort into this order. */
  lemma NineSorted<T>(key: T -> int, a: T, b: T, c: T, d: T, e: T, f: T, g: T, h: T, i: T)
    requires key(a) == 20240115
    requires key(b) == 20240110
    requires key(c) == 20240108
    requires key(d) == 20240112
    requires key(e) == 20240105
    requires key(f) == 20240114
    requires key(g) == 20240107
    requires key(h) == 20240113
    requires key(i) == 20240106
    ensures SortBy(key, [a, b, c, d, e, f, g, h, i]) == [a, f, h, d, b, c, g, i, e]
  {
    DemoSortStep9(key, i);
    DemoSortStep8(key, h, i);
    DemoSortStep7(key, g, h, i);
    DemoSortStep6(key, f, g, h, i);
    DemoSortStep5(key, e, f, g, h, i);
    DemoSortStep4(key, d, e, f, g, h, i);
    DemoSortStep3(key, c, d, e, f, g, h, i);
    DemoSortStep2(key, b, c, d, e, f, g, h, i);
    DemoSortStep1(key, a, b, c, d, e, f, g, h, i);
  }

  /** The recent list of the demo catalog: all nine items, newest first. */
  lemma DemoRecent()
    ensures AllDated(AllItems(DemoCategories))
    ensures RecentItems(DemoCategories) == [IntroToReact, Episode01, WebSecurity, ProjectOverview, TypescriptBasics, CssAnimations, Episode02, Performance, Architecture]
  {
    DemoAllItems();
    DemoDated();
    DemoStamps();
    NineSorted(Stamp, IntroToReact, TypescriptBasics, CssAnimations, ProjectOverview, Architecture, Episode01, Episode02, WebSecurity, Performance);
  }

  /** `web-security.mp4` contains `securit` at position 4, so any query folding to `securit` hits it. */
  lemma DemoSecurityHit(query: string)
    requires Lower(query) == "securit"
    ensures SearchHit(WebSecurity, query)
  {
    assert Lower(WebSecurity.name)[4..11] == "securit";
    assert OccursAt(Lower(WebSecurity.name), Lower(query), 4);
  }

  /** `IntroToReact` has no `u` or `U` in its title, name or description. */
  lemma IntroToReactTitleLacks() ensures 'u' !in IntroToReact.title && 'U' !in IntroToReact.title {}
  lemma IntroToReactNameLacks() ensures 'u' !in IntroToReact.name && 'U' !in IntroToReact.name {}
  lemma IntroToReactDescriptionLacks() ensures 'u' !in IntroToReact.description.value && 'U' !in IntroToReact.description.value {}

  lemma IntroToReactMissesSecurity(query: string)
    requires 'u' in Lower(query)
    ensures !SearchHit(IntroToReact, query)
  {
    IntroToReactTitleLacks();
    IntroToReactNameLacks();
    IntroToReactDescriptionLacks();
    SearchMisses(IntroToReact, query, 'u');
  }

  /** `TypescriptBasics` has no `u` or `U` in its title, name or description. */
  lemma TypescriptBasicsTitleLacks() ensures 'u' !in TypescriptBasics.title && 'U' !in TypescriptBasics.title {}
  lemma TypescriptBasicsNameLacks() ensures 'u' !in TypescriptBasics.name && 'U' !in TypescriptBasics.name {}
  lemma TypescriptBasicsDescriptionLacks() ensures 'u' !in TypescriptBasics.description.value && 'U' !in TypescriptBasics.description.value {}

  lemma TypescriptBasicsMissesSecurity(query: string)
    requires 'u' in Lower(query)
    ensures !SearchHit(TypescriptBasics, query)
  {
    TypescriptBasicsTitleLacks();
    TypescriptBasicsNameLacks();
    TypescriptBasicsDescriptionLacks();
    SearchMisses(TypescriptBasics, query, 'u');
  }

  /** `CssAnimations` has no `u` or `U` in its title, name or description. */
  lemma CssAnimationsTitleLacks() ensures 'u' !in CssAnimations.title && 'U' !in CssAnimations.title {}
  lemma CssAnimationsNameLacks() ensures 'u' !in CssAnimations.name && 'U' !in CssAnimations.name {}
  lemma CssAnimationsDescriptionLacks() ensures 'u' !in CssAnimations.description.value && 'U' !in CssAnimations.description.value {}

  lemma CssAnimationsMissesSecurity(query: string)
    requires 'u' in Lower(query)
    ensures !SearchHit(CssAnimations, query)
  {
    CssAnimationsTitleLacks();
    CssAnimationsNameLacks();
    CssAnimationsDescriptionLacks();
    SearchMisses(CssAnimations, query, 'u');
  }

  /** `ProjectOverview` has no `u` or `U` in its title, name or description. */
  lemma ProjectOverviewTitleLacks() ensures 'u' !in ProjectOverview.title && 'U' !in ProjectOverview.title {}
  lemma ProjectOverviewNameLacks() ensures 'u' !in ProjectOverview.name && 'U' !in ProjectOverview.name {}
  lemma ProjectOverviewDescriptionLacks() ensures 'u' !in ProjectOverview.description.value && 'U' !in ProjectOverview.description.value {}

  lemma ProjectOverviewMissesSecurity(query: string)
    requires 'u' in Lower(query)
    ensures !SearchHit(ProjectOverview, query)
  {
    ProjectOverviewTitleLacks();
    ProjectOverviewNameLacks();
    ProjectOverviewDescriptionLacks();
    SearchMisses(ProjectOverview, query, 'u');
  }

  /** `Architecture` has no `s` or `S` in its title, name or description. */
  lemma ArchitectureTitleLacks() ensures 's' !in Architecture.title && 'S' !in Architecture.title {}
  lemma ArchitectureNameLacks() ensures 's' !in Architecture.name && 'S' !in Architecture.name {}
  lemma ArchitectureDescriptionLacks() ensures 's' !in Architecture.description.value && 'S' !in Architecture.description.value {}

  lemma ArchitectureMissesSecurity(query: string)
    requires 's' in Lower(query)
    ensures !SearchHit(Architecture, query)
  {
    ArchitectureTitleLacks();
    ArchitectureNameLacks();
    ArchitectureDescriptionLacks();
    SearchMisses(Architecture, query, 's');
  }

  /** `Episode01` has no `u` or `U` in its title, name or description. */
  lemma Episode01TitleLacks() ensures 'u' !in Episode01.title && 'U' !in Episode01.title {}
  lemma Episode01NameLacks() ensures 'u' !in Episode01.name && 'U' !in Episode01.name {}
  lemma Episode01DescriptionLacks() ensures 'u' !in Episode01.description.value && 'U' !in Episode01.description.value {}

  lemma Episode01MissesSecurity(query: string)
    requires 'u' in Lower(query)
    ensures !SearchHit(Episode01, query)
  {
    Episode01TitleLacks();
    Episode01NameLacks();
    Episode01DescriptionLacks();
    SearchMisses(Episode01, query, 'u');
  }

  /** `Episode02` has no `u` or `U` in its title, name or description. */
  lemma Episode02TitleLacks() ensures 'u' !in Episode02.title && 'U' !in Episode02.title {}
  lemma Episode02NameLacks() ensures 'u' !in Episode02.name && 'U' !in Episode02.name {}
  lemma Episode02DescriptionLacks() ensures 'u' !in Episode02.description.value && 'U' !in Episode02.description.value {}

  lemma Episode02MissesSecurity(query: string)
    requires 'u' in Lower(query)
    ensures !SearchHit(Episode02, query)
  {
    Episode02TitleLacks();
    Episode02NameLacks();
    Episode02DescriptionLacks();
    SearchMisses(Episode02, query, 'u');
  }

  /** `Performance` has no `u` or `U` in its title, name or description. */
  lemma PerformanceTitleLacks() ensures 'u' !in Performance.title && 'U' !in Performance.title {}
  lemma PerformanceNameLacks() ensures 'u' !in Performance.name && 'U' !in Performance.name {}
  lemma PerformanceDescriptionLacks() ensures 'u' !in Performance.description.value && 'U' !in Performance.description.value {}

  lemma PerformanceMissesSecurity(query: string)
    requires 'u' in Lower(query)
    ensures !SearchHit(Performance, query)
  {
    PerformanceTitleLacks();
    PerformanceNameLacks();
    PerformanceDescriptionLacks();
    SearchMisses(Performance, query, 'u');
  }

  /** Filtering nine elements of which only the eighth passes. */
  lemma FilterOnlyEighth<T>(p: T -> bool, a: T, b: T, c: T, d: T, e: T, f: T, g: T, h: T, i: T)
    requires !p(a) && !p(b) && !p(c) && !p(d) && !p(e) && !p(f) && !p(g) && p(h) && !p(i)
    ensures Filter(p, [a, b, c, d, e, f, g, h, i]) == [h]
  {
    assert [i][1..] == [];
    assert Filter(p, [i]) == [];
    assert [h, i][1..] == [i];
    assert Filter(p, [h, i]) == [h];
    assert [g, h, i][1..] == [h, i];
    assert Filter(p, [g, h, i]) == [h];
    assert [f, g, h, i][1..] == [g, h, i];
    assert Filter(p, [f, g, h, i]) == [h];
    assert [e, f, g, h, i][1..] == [f, g, h, i];
    assert Filter(p, [e, f, g, h, i]) == [h];
    assert [d, e, f, g, h, i][1..] == [e, f, g, h, i];
    assert Filter(p, [d, e, f, g, h, i]) == [h];
    assert [c, d, e, f, g, h, i][1..] == [d, e, f, g, h, i];
    assert Filter(p, [c, d, e, f, g, h, i]) == [h];
    assert [b, c, d, e, f, g, h, i][1..] == [c, d, e, f, g, h, i];
    assert Filter(p, [b, c, d, e, f, g, h, i]) == [h];
    assert [a, b, c, d, e, f, g, h, i][1..] == [b, c, d, e, f, g, h, i];
  }

  /** The query folds to `securit`: it is not empty and holds an `s` and a `u`. */
  lemma SecurityLetters(query: string)
    requires Lower(query) == "securit"
    ensures query != [] && 's' in Lower(query) && 'u' in Lower(query)
  {
    assert |query| == 7;
    assert Lower(query)[0] == 's' && Lower(query)[3] == 'u';
  }

  /** Which demo items the `securit` query selects: the web-security lecture alone. */
  lemma SecuritySelects(query: string)
    requires Lower(query) == "securit"
    ensures Selected(WebSecurity, query, All)
    ensures !Selected(IntroToReact, query, All)
    ensures !Selected(TypescriptBasics, query, All)
    ensures !Selected(CssAnimations, query, All)
    ensures !Selected(ProjectOverview, query, All)
    ensures !Selected(Architecture, query, All)
    ensures !Selected(Episode01, query, All)
    ensures !Selected(Episode02, query, All)
    ensures !Selected(Performance, query, All)
  {
    SecurityLetters(query);
    DemoSecurityHit(query);
    IntroToReactMissesSecurity(query);
    TypescriptBasicsMissesSecurity(query);
    CssAnimationsMissesSecurity(query);
    ProjectOverviewMissesSecurity(query);
    ArchitectureMissesSecurity(query);
    Episode01MissesSecurity(query);
    Episode02MissesSecurity(query);
    PerformanceMissesSecurity(query);
  }

  /** Searching the demo catalog for `securit`, in any case, finds the web-security lecture and nothing else. */
  lemma DemoSearchSecurity(query: string)
    requires Lower(query) == "securit"
    ensures FilteredItems(DemoCategories, query, All) == [WebSecurity]
  {
    SecurityLetters(query);
    SecuritySelects(query);
    DemoAllItems();
    FilteredItemsIsOneFilter(DemoCategories, query, All);
    FilterOnlyEighth(SelectedBy(query, All), IntroToReact, TypescriptBasics, CssAnimations,
      ProjectOverview, Architecture, Episode01, Episode02, WebSecurity, Performance);
  }

  /** A category none of whose items is the web-security lecture narrows to no items. */
  lemma NarrowsToNothing(c: Category)
    requires forall k :: 0 <= k < |c.items| ==> c.items[k].id != WebSecurity.id
    ensures NarrowTo([WebSecurity])(c).items == []
  {
    FilterNone(KeptIn([WebSecurity]), c.items);
  }

  /** Filtering two elements of which only the first passes. */
  lemma FilterOnlyFirst<T>(p: T -> bool, a: T, b: T)
    requires p(a) && !p(b)
    ensures Filter(p, [a, b]) == [a]
  {
    assert [b][1..] == [];
    assert [a, b][1..] == [b];
  }

  /** Filtering four elements of which only the last passes. */
  lemma FilterOnlyFourth<T>(p: T -> bool, a: T, b: T, c: T, d: T)
    requires !p(a) && !p(b) && !p(c) && p(d)
    ensures Filter(p, [a, b, c, d]) == [d]
  {
    assert [d][1..] == [];
    assert Filter(p, [d]) == [d];
    assert [c, d][1..] == [d];
    assert Filter(p, [c, d]) == [d];
    assert [b, c, d][1..] == [c, d];
    assert Filter(p, [b, c, d]) == [d];
    assert [a, b, c, d][1..] == [b, c, d];
  }

  /** Narrowed to the web-security lecture, the lectures keep it and the other categories are left empty. */
  lemma NarrowToSecurity()
    ensures !HasItems(NarrowTo([WebSecurity])(Tutorials))
    ensures !HasItems(NarrowTo([WebSecurity])(Presentations))
    ensures !HasItems(NarrowTo([WebSecurity])(Podcasts))
    ensures NarrowTo([WebSecurity])(Lectures) == Lectures.(items := [WebSecurity])
  {
    NarrowsToNothing(Tutorials);
    NarrowsToNothing(Presentations);
    NarrowsToNothing(Podcasts);
    assert Lectures.items == [WebSecurity, Performance];
    assert Performance.id != WebSecurity.id;
    FilterOnlyFirst(KeptIn([WebSecurity]), WebSecurity, Performance);
  }

  /** Mapping over four elements. */
  lemma MapFour<T, U>(f: T -> U, a: T, b: T, c: T, d: T)
    ensures Map(f, [a, b, c, d]) == [f(a), f(b), f(c), f(d)]
  {
  }

  /** Narrowing the demo categories to the web-security lecture leaves the lectures alone. */
  lemma DemoNarrowToSecurity()
    ensures Filter(HasItems, Map(NarrowTo([WebSecurity]), DemoCategories)) == [Lectures.(items := [WebSecurity])]
  {
    var narrow := NarrowTo([WebSecurity]);
    NarrowToSecurity();
    MapFour(narrow, Tutorials, Presentations, Podcasts, Lectures);
    FilterOnlyFourth(HasItems, narrow(Tutorials), narrow(Presentations), narrow(Podcasts), narrow(Lectures));
  }

  /** The `securit` search narrows the categories to the lectures, holding the web-security lecture alone. */
  lemma DemoSearchSecurityCategories(query: string)
    requires Lower(query) == "securit"
    ensures FilteredCategories(DemoCategories, query, All) == [Lectures.(items := [WebSecurity])]
  {
    SecurityLetters(query);
    DemoSearchSecurity(query);
    DemoNarrowToSecurity();
  }

  /** Item ids are distinct across the whole demo catalog. */
  lemma DemoIdsUnique()
    ensures UniqueIds(AllItems(DemoCategories))
  {
    DemoAllItems();
  }

  /** Every demo item names the category that holds it. */
  lemma DemoItemsInOwnCategory()
    ensures ItemsInOwnCategory(DemoCategories)
  {
    assert ItemsInOwnCategory([Tutorials]);
    assert ItemsInOwnCategory([Presentations]);
    assert ItemsInOwnCategory([Podcasts]);
    assert ItemsInOwnCategory([Lectures]);
  }
}
