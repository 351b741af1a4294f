/**
 * The view-side entities the dashboard renders. Timestamps are integers
 * (milliseconds since the epoch) where the program keeps ISO-8601 strings.
 */
module DashboardTypes {

  import opened JsText

  /** The three importance levels a story may carry. */
  datatype ImportanceLevel = High | Medium | Emerging {
    /** The wire spelling of the level. */
    function Name(): (t: Text)
      ensures |t| >= 4
    {
      match this
      case High => Lit("HIGH")
      case Medium => Lit("MEDIUM")
      case Emerging => Lit("EMERGING")
    }
  }

  /** The spellings of the three levels are pairwise distinct. */
  lemma LevelNamesDistinct(a: ImportanceLevel, b: ImportanceLevel)
    ensures a.Name() == b.Name() <==> a == b
  {
  }

  /** The text is the spelling of one of the three levels. */
  predicate IsLevel(t: Text)
  {
    t == High.Name() || t == Medium.Name() || t == Emerging.Name()
  }

  datatype StrategicDimensions = StrategicDimensions(impact: Text, timing: Text, players: Text, precedent: Text)

  datatype ConnectedStory = ConnectedStory(id: Text, title: Text, relativeTime: Text, exactDate: Text, importance: Text)

  datatype Source = Source(id: Text, name: Text, url: Text, excerpt: Text, publishedAt: int)

  /**
   * A story as the dashboard shows it. `importance` is kept as text because the
   * transform passes any non-empty payload value through unchanged.
   */
  datatype StoryCard = StoryCard(
    id: Text,
    title: Text,
    importance: Text,
    strategicTakeaway: Text,
    strategicDimensions: StrategicDimensions,
    connectedStories: seq<ConnectedStory>,
    sources: seq<Source>,
    publishedAt: int,
    score: real)

  /** One entry of a strategic thread's own timeline. */
  datatype ThreadEvent = ThreadEvent(date: int, event: Text, storyId: Text)

  datatype StrategicThread = StrategicThread(
    id: Text,
    title: Text,
    storyIds: seq<Text>,
    timelineEvents: seq<ThreadEvent>,
    strength: real)

  /** The number of timeline events the threads hold together. */
  function TimelineEventCount(threads: seq<StrategicThread>): nat
  {
    if threads == [] then 0
    else TimelineEventCount(threads[..|threads| - 1]) + |threads[|threads| - 1].timelineEvents|
  }

  datatype DashboardStats = DashboardStats(
    totalStoriesAnalyzed: int,
    sourcesMonitored: int,
    alertsCount: int,
    lastUpdateTime: int)

  datatype UserSettings = UserSettings(
    topStoriesCount: int,
    refreshInterval: int,
    morningFeedHour: int,
    eveningFeedHour: int)
}
