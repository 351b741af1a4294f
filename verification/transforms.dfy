/**
 * The response-to-view transforms: story cards from the aggregate and detail
 * endpoints, dashboard stats, and the grouping of pairwise connection records
 * into strategic threads.
 */
module DataTransforms {

  import opened Wrappers
  import opened JsText
  import opened DashboardTypes
  import opened Hashing
  import opened Api

  const NO_IMPACT: Text := Lit("No impact analysis available")
  const NO_TIMING: Text := Lit("No timing analysis available")
  const NO_PLAYERS: Text := Lit("No players analysis available")
  const NO_PRECEDENT: Text := Lit("No precedent analysis available")
  const UNTITLED: Text := Lit("Untitled")
  const NO_TAKEAWAY: Text := Lit("No strategic takeaway available")
  const STRATEGIC_ANALYSIS: Text := Lit("Strategic Analysis")
  const NO_URL: Text := Lit("#")
  const ELLIPSIS: Text := Lit("...")
  const RECENTLY: Text := Lit("Recently")
  /** The excerpt keeps at most this many code units of the takeaway. */
  const EXCERPT_LIMIT: nat := 100
  /** No endpoint reports the number of monitored sources; the transform uses this constant. */
  const SOURCES_MONITORED: int := 156
  const DAY_MS: int := 24 * 60 * 60 * 1000

  // ------------------------------------------------------------ story cards

  /** The four analysis texts, each replaced by its placeholder when missing or empty. */
  function Dimensions(s: ApiStory): (d: StrategicDimensions)
    ensures d.impact != [] && d.timing != [] && d.players != [] && d.precedent != []
    ensures Truthy(s.impactAnalysis) ==> d.impact == s.impactAnalysis.value
    ensures !Truthy(s.impactAnalysis) ==> d.impact == NO_IMPACT
    ensures Truthy(s.timingAnalysis) ==> d.timing == s.timingAnalysis.value
    ensures !Truthy(s.timingAnalysis) ==> d.timing == NO_TIMING
    ensures Truthy(s.playersAnalysis) ==> d.players == s.playersAnalysis.value
    ensures !Truthy(s.playersAnalysis) ==> d.players == NO_PLAYERS
    ensures Truthy(s.precedentAnalysis) ==> d.precedent == s.precedentAnalysis.value
    ensures !Truthy(s.precedentAnalysis) ==> d.precedent == NO_PRECEDENT
  {
    StrategicDimensions(
      OrElse(s.impactAnalysis, NO_IMPACT),
      OrElse(s.timingAnalysis, NO_TIMING),
      OrElse(s.playersAnalysis, NO_PLAYERS),
      OrElse(s.precedentAnalysis, NO_PRECEDENT))
  }

  /**
   * The display excerpt: a takeaway longer than 100 code units is cut to its
   * first 100, mid-word if need be, and followed by `...`; a shorter one is kept.
   */
  function Excerpt(takeaway: Text): (e: Text)
    ensures |takeaway| > EXCERPT_LIMIT ==> |e| == EXCERPT_LIMIT + 3
    ensures |takeaway| > EXCERPT_LIMIT ==> e[..EXCERPT_LIMIT] == takeaway[..EXCERPT_LIMIT] && e[EXCERPT_LIMIT..] == ELLIPSIS
    ensures |takeaway| <= EXCERPT_LIMIT ==> e == takeaway
    ensures |e| <= EXCERPT_LIMIT + 3
  {
    if |takeaway| > EXCERPT_LIMIT then takeaway[..EXCERPT_LIMIT] + ELLIPSIS else takeaway
  }

  /** The takeaway the card shows: the payload's, or the placeholder. */
  function Takeaway(s: ApiStory): (t: Text)
    ensures t != []
    ensures Truthy(s.strategicTakeaway) ==> t == s.strategicTakeaway.value
    ensures !Truthy(s.strategicTakeaway) ==> t == NO_TAKEAWAY
  {
    OrElse(s.strategicTakeaway, NO_TAKEAWAY)
  }

  /** The one source record a card is given: it mirrors the story's id and carries the excerpt. */
  function SynthesizedSource(s: ApiStory, now: int): (src: Source)
    ensures src.id == s.id && src.name == STRATEGIC_ANALYSIS
    ensures Truthy(s.url) ==> src.url == s.url.value
    ensures !Truthy(s.url) ==> src.url == NO_URL
    ensures src.excerpt == Excerpt(Takeaway(s))
    ensures src.publishedAt == s.publishDate.GetOr(now)
  {
    Source(s.id, STRATEGIC_ANALYSIS, OrElse(s.url, NO_URL), Excerpt(Takeaway(s)), s.publishDate.GetOr(now))
  }

  /**
   * `transformApiStoryToStoryCard`. `now` is the clock reading used when the
   * story has no publish date.
   */
  function TransformApiStory(s: ApiStory, now: int): (c: StoryCard)
    ensures c.id == s.id
    ensures c.title != [] && c.strategicTakeaway != []
    ensures Truthy(s.title) ==> c.title == s.title.value
    ensures !Truthy(s.title) ==> c.title == UNTITLED
    ensures Truthy(s.importanceLevel) ==> c.importance == s.importanceLevel.value
    ensures !Truthy(s.importanceLevel) ==> c.importance == Medium.Name()
    ensures c.strategicTakeaway == Takeaway(s)
    ensures c.strategicDimensions == Dimensions(s)
    ensures c.connectedStories == []
    ensures |c.sources| == 1 && c.sources[0] == SynthesizedSource(s, now)
    ensures c.sources[0].publishedAt == c.publishedAt
    ensures s.publishDate.Some? ==> c.publishedAt == s.publishDate.value
    ensures s.publishDate.None? ==> c.publishedAt == now
    ensures s.importanceScore.Some? ==> c.score == s.importanceScore.value
    ensures s.importanceScore.None? ==> c.score == 0.0
  {
    StoryCard(
      s.id,
      OrElse(s.title, UNTITLED),
      OrElse(s.importanceLevel, Medium.Name()),
      Takeaway(s),
      Dimensions(s),
      [],
      [SynthesizedSource(s, now)],
      s.publishDate.GetOr(now),
      s.importanceScore.GetOr(0.0))
  }

  /** A card carries one of the three levels whenever the payload's level is one of them or is missing. */
  lemma TransformKeepsLevel(s: ApiStory, now: int)
    requires !Truthy(s.importanceLevel) || IsLevel(s.importanceLevel.value)
    ensures IsLevel(TransformApiStory(s, now).importance)
  {
  }

  /** The excerpt the card's source carries is exactly 103 code units for a takeaway over 100. */
  lemma LongTakeawayExcerpt(s: ApiStory, now: int)
    requires Truthy(s.strategicTakeaway) && |s.strategicTakeaway.value| > EXCERPT_LIMIT
    ensures var e := TransformApiStory(s, now).sources[0].excerpt;
      |e| == 103 && e == s.strategicTakeaway.value[..100] + ELLIPSIS
  {
    var e := TransformApiStory(s, now).sources[0].excerpt;
    assert e == Excerpt(s.strategicTakeaway.value);
  }

  /** The lightweight reference a detail connection becomes. */
  function ConnectedStoryOf(conn: DetailConnection, today: Text): (cs: ConnectedStory)
    ensures cs.id == conn.connectedId && cs.title == conn.connectedTitle
    ensures cs.relativeTime == RECENTLY && cs.exactDate == today && cs.importance == Medium.Name()
  {
    ConnectedStory(conn.connectedId, conn.connectedTitle, RECENTLY, today, Medium.Name())
  }

  /**
   * `transformArticleDetailToStoryCard`. `today` is the date part of the
   * current ISO timestamp, which every connected story is given.
   */
  function TransformArticleDetail(d: ArticleDetail, now: int, today: Text): (c: StoryCard)
    ensures |c.connectedStories| == |d.connections.GetOr([])|
    ensures forall i :: 0 <= i < |c.connectedStories| ==>
              c.connectedStories[i] == ConnectedStoryOf(d.connections.GetOr([])[i], today)
    ensures c.(connectedStories := []) == TransformApiStory(d.article, now)
  {
    var s := d.article;
    var conns := d.connections.GetOr([]);
    StoryCard(
      s.id,
      OrElse(s.title, UNTITLED),
      OrElse(s.importanceLevel, Medium.Name()),
      Takeaway(s),
      Dimensions(s),
      seq(|conns|, i requires 0 <= i < |conns| => ConnectedStoryOf(conns[i], today)),
      [SynthesizedSource(s, now)],
      s.publishDate.GetOr(now),
      s.importanceScore.GetOr(0.0))
  }

  // ------------------------------------------------------------ stats

  /** `transformProcessingStatusToStats`; `last_update` is in seconds, the stats timestamp in milliseconds. */
  function TransformStats(status: ProcessingStatus, recentAnalysis: seq<RecentAnalysis>): (st: DashboardStats)
    ensures st.totalStoriesAnalyzed == |recentAnalysis|
    ensures st.sourcesMonitored == SOURCES_MONITORED
    ensures st.alertsCount == status.activeSessions
    ensures st.lastUpdateTime == status.lastUpdate * 1000
  {
    DashboardStats(|recentAnalysis|, SOURCES_MONITORED, status.activeSessions, status.lastUpdate * 1000)
  }
}
