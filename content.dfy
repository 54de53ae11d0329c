/**
 * The content library: the category and duration filters over the content
 * items, and the play action that premium items refuse.
 */
module ContentLibrary {
  import opened Seqs

  datatype Category = MeditationCategory | BreathingCategory | SleepCategory | StressCategory

  /** The id a category is selected under. */
  function CategoryId(c: Category): string {
    match c
    case MeditationCategory => "meditation"
    case BreathingCategory => "breathing"
    case SleepCategory => "sleep"
    case StressCategory => "stress"
  }

  /** Distinct categories are selected under distinct ids, none of them 'all'. */
  lemma CategoryIdsDistinct(a: Category, b: Category)
    ensures CategoryId(a) == CategoryId(b) ==> a == b
    ensures CategoryId(a) != "all"
  {
  }

  /** `ContentItem`, without the rating and thumbnail, which no operation reads. */
  datatype ContentItem = ContentItem(
    id: string, title: string, titleTh: string, description: string, descriptionTh: string,
    duration: int, category: Category, isPremium: bool)

  /** `categoryMatch`. */
  predicate CategoryMatch(selected: string, c: Category) {
    selected == "all" || CategoryId(c) == selected
  }

  /** `durationMatch`: the buckets '5' (up to 5 minutes), '10' (over 5, up to 10) and '15' (over 10). */
  predicate DurationMatch(selected: string, d: int) {
    selected == "all" ||
    (selected == "5" && d <= 5) ||
    (selected == "10" && d > 5 && d <= 10) ||
    (selected == "15" && d > 10)
  }

  /** A category id picks exactly the items of that category. */
  lemma CategoryMatchIff(c: Category, d: Category)
    ensures CategoryMatch(CategoryId(c), d) <==> c == d
  {
    CategoryIdsDistinct(c, d);
  }

  /** Every duration falls in exactly one of the three duration buckets. */
  lemma DurationBucketsPartition(d: int)
    ensures DurationMatch("5", d) || DurationMatch("10", d) || DurationMatch("15", d)
    ensures !(DurationMatch("5", d) && DurationMatch("10", d))
    ensures !(DurationMatch("5", d) && DurationMatch("15", d))
    ensures !(DurationMatch("10", d) && DurationMatch("15", d))
  {
  }

  function Matches(category: string, duration: string): ContentItem -> bool {
    (item: ContentItem) => CategoryMatch(category, item.category) && DurationMatch(duration, item.duration)
  }

  /** `filteredContent`. */
  function FilteredContent(items: seq<ContentItem>, category: string, duration: string): (r: seq<ContentItem>)
    ensures forall x :: x in r <==> x in items && CategoryMatch(category, x.category) && DurationMatch(duration, x.duration)
  {
    Filter(Matches(category, duration), items)
  }

  /** The filtered list keeps, in their order, exactly the items whose category and duration both match. */
  lemma FilteredContentCorrect(items: seq<ContentItem>, category: string, duration: string)
    ensures IsSubsequence(FilteredContent(items, category, duration), items)
    ensures forall x :: x in FilteredContent(items, category, duration) <==>
              x in items && CategoryMatch(category, x.category) && DurationMatch(duration, x.duration)
  {
  }

  /** With both filters on 'all' every item is shown. */
  lemma AllFiltersShowEverything(items: seq<ContentItem>)
    ensures FilteredContent(items, "all", "all") == items
  {
    FilterAll(Matches("all", "all"), items);
  }

  /** Splitting by the three duration buckets accounts for every item once. */
  lemma {:induction false} DurationBucketsCount(items: seq<ContentItem>)
    ensures |FilteredContent(items, "all", "5")| + |FilteredContent(items, "all", "10")| +
            |FilteredContent(items, "all", "15")| == |items|
    decreases |items|
  {
    if items != [] {
      DurationBucketsCount(items[1..]);
      DurationBucketsPartition(items[0].duration);
    }
  }

  /** The four items of the library. */
  const ContentItems: seq<ContentItem> := [
    ContentItem("1", "Morning Mindfulness", "สติในตอนเช้า",
                "Start your day with peaceful awareness", "เริ่มต้นวันด้วยการมีสติอย่างสงบ",
                10, MeditationCategory, false),
    ContentItem("2", "Deep Breathing Exercise", "การหายใจลึก",
                "Calm your mind with focused breathing", "ทำใจให้สงบด้วยการหายใจอย่างมีสติ",
                5, BreathingCategory, false),
    ContentItem("3", "Sleep Meditation", "สมาธิก่อนนอน",
                "Drift into peaceful sleep", "หลับสนิทด้วยใจที่สงบ",
                15, SleepCategory, true),
    ContentItem("4", "Stress Relief", "คลายเครียด",
                "Release tension and find peace", "ปล่อยความเครียดและค้นหาความสงบ",
                12, StressCategory, false)
  ]

  /** The '15+' bucket of the library holds the sleep meditation and the stress relief session. */
  lemma LongSessionsOfLibrary()
    ensures FilteredContent(ContentItems, "all", "15") == [ContentItems[2], ContentItems[3]]
  {
    LongSessionsOfPattern(ContentItems);
  }

  /** Four items of which only the last two run over 10 minutes. */
  lemma LongSessionsOfPattern(s: seq<ContentItem>)
    requires |s| == 4
    requires forall i :: 0 <= i < 4 ==> (s[i].duration > 10 <==> i >= 2)
    ensures FilteredContent(s, "all", "15") == [s[2], s[3]]
  {
    assert s[..2] + s[2..] == s;
    FilterAppend(Matches("all", "15"), s[..2], s[2..]);
    FilterNone(Matches("all", "15"), s[..2]);
    FilterAll(Matches("all", "15"), s[2..]);
  }

  /** The library page's filters and the titles it has started playing. */
  class ContentPage {
    const items: seq<ContentItem>
    var selectedCategory: string
    var selectedDuration: string
    var played: seq<string>

    constructor (items: seq<ContentItem>)
      ensures this.items == items && selectedCategory == "all" && selectedDuration == "all" && played == []
    {
      this.items := items;
      selectedCategory := "all";
      selectedDuration := "all";
      played := [];
    }

    method SetCategory(category: string)
      modifies this
      ensures selectedCategory == category && selectedDuration == old(selectedDuration) && played == old(played)
    {
      selectedCategory := category;
    }

    method SetDuration(duration: string)
      modifies this
      ensures selectedDuration == duration && selectedCategory == old(selectedCategory) && played == old(played)
    {
      selectedDuration := duration;
    }

    /** The list the page renders. */
    function Shown(): seq<ContentItem>
      reads this
    {
      FilteredContent(items, selectedCategory, selectedDuration)
    }

    /** `handlePlayContent`: a premium item changes nothing; any other starts playing. */
    method HandlePlayContent(item: ContentItem)
      modifies this
      ensures item.isPremium ==> played == old(played)
      ensures !item.isPremium ==> played == old(played) + [item.title]
      ensures selectedCategory == old(selectedCategory) && selectedDuration == old(selectedDuration)
    {
      if item.isPremium {
        return;
      }
      played := played + [item.title];
    }
  }

  /** Only the free items of the library can be played. */
  method PlayWholeLibrary() {
    var page := new ContentPage(ContentItems);
    page.HandlePlayContent(ContentItems[2]);
    assert page.played == [];
    page.HandlePlayContent(ContentItems[0]);
    assert page.played == ["Morning Mindfulness"];
  }
}
