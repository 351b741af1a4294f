/**
 * `useDashboardData`: the dashboard state a page holds, loaded from the
 * aggregate endpoint. The state is an object whose fields each load replaces;
 * the response (or the failure) of `getDashboardData` and the clock reading
 * are parameters of a load.
 */
module DashboardHook {

  import opened Wrappers
  import opened JsText
  import opened DashboardTypes
  import opened Api
  import opened DataTransforms
  import opened ThreadGrouping
  import opened ThreadProperties

  const LOAD_FAILED: Text := Lit("Failed to load dashboard data")
  const MINUTE_MS: int := 60 * 1000

  // ------------------------------------------------------------ specification

  /** The end `Array.prototype.slice(0, end)` stops at: a negative end counts back from the length. */
  function SliceEnd(len: nat, end: int): (e: nat)
    ensures e <= len
    ensures end >= 0 ==> e == if end < len then end else len
    ensures end < 0 ==> e + (if -end < len then -end else len) == len
  {
    if end < 0 then (if len + end < 0 then 0 else len + end)
    else if end < len then end
    else len
  }

  /** The cards shown for the payload's stories: the first `count` (as `slice` reads it), in payload order. */
  function TopStories(top: seq<ApiStory>, count: int, now: int): (shown: seq<StoryCard>)
    ensures |shown| <= |top| && (count >= 0 ==> |shown| <= count)
    ensures forall i :: 0 <= i < |shown| ==> shown[i].id == top[i].id
  {
    seq(SliceEnd(|top|, count), i requires 0 <= i < SliceEnd(|top|, count) => TransformApiStory(top[i], now))
  }

  /** What one successful load puts on the dashboard. */
  datatype Loaded = Loaded(stories: seq<StoryCard>, connectedThreads: seq<StrategicThread>, stats: DashboardStats)

  /**
   * The outcome of one load: `None` when the request fails, or when the payload
   * lacks `top_stories` or `processing_status` (reading them throws, and the
   * load takes its error path).
   */
  function Load(outcome: Result<DashboardPayload, ApiError>, count: int, now: int): (r: Option<Loaded>)
    ensures r.Some? <==> outcome.Ok? && outcome.value.topStories.Some? && outcome.value.processingStatus.Some?
    ensures r.Some? ==> |r.value.stories| == SliceEnd(|outcome.value.topStories.value|, count)
    ensures r.Some? ==> r.value.stats.totalStoriesAnalyzed == |outcome.value.recentAnalysis.GetOr([])|
    ensures r.Some? ==> TimelineEventCount(r.value.connectedThreads) == |outcome.value.strategicThreads.GetOr([])|
  {
    match outcome
    case Err(_) => None
    case Ok(payload) =>
      if payload.topStories.None? || payload.processingStatus.None? then None
      else
        ThreadEventsCoverRecords(payload.strategicThreads.GetOr([]), now);
        Some(Loaded(
          TopStories(payload.topStories.value, count, now),
          Threads(payload.strategicThreads.GetOr([]), now),
          TransformStats(payload.processingStatus.value, payload.recentAnalysis.GetOr([]))))
  }

  /** The period of the refresh timer: `refreshInterval` minutes. */
  function RefreshPeriodMs(settings: UserSettings): (ms: int)
    ensures 5 <= settings.refreshInterval <= 60 ==> 5 * MINUTE_MS <= ms <= 60 * MINUTE_MS
    ensures settings.refreshInterval > 0 ==> ms % MINUTE_MS == 0 && ms / MINUTE_MS == settings.refreshInterval
  {
    settings.refreshInterval * 60 * 1000
  }

  // ------------------------------------------------------------ properties

  /** A story count of n >= 0 shows min(n, available) stories, each the card of the payload story at the same place. */
  lemma ShownStories(top: seq<ApiStory>, count: int, now: int)
    requires count >= 0
    ensures |TopStories(top, count, now)| == if count < |top| then count else |top|
    ensures forall i :: 0 <= i < |TopStories(top, count, now)| ==>
      TopStories(top, count, now)[i] == TransformApiStory(top[i], now)
    ensures forall i :: 0 <= i < |TopStories(top, count, now)| ==>
      TopStories(top, count, now)[i].id == top[i].id && TopStories(top, count, now)[i].score == top[i].importanceScore.GetOr(0.0)
  {
  }

  /** A negative story count drops that many stories from the end, as `slice` does. */
  lemma NegativeCountDropsFromEnd(top: seq<ApiStory>, count: int, now: int)
    requires count < 0 && -count <= |top|
    ensures |TopStories(top, count, now)| == |top| + count
  {
  }

  /** Raising the story count never hides a story that was shown: the shorter list is a prefix of the longer. */
  lemma MoreStoriesExtendFewer(top: seq<ApiStory>, m: int, n: int, now: int)
    requires 0 <= m <= n
    ensures TopStories(top, m, now) <= TopStories(top, n, now)
  {
  }

  // ------------------------------------------------------------ the hook's state

  class DashboardStore {
    /** The settings the hook was called with; loads read the story count from here. */
    const hookSettings: UserSettings
    var stories: seq<StoryCard>
    var connectedThreads: seq<StrategicThread>
    var stats: DashboardStats
    var userSettings: UserSettings
    var loading: bool
    var lastUpdated: int
    var error: Option<Text>

    /** Never more stories than the hook's count, and the only error text is the load failure. */
    ghost predicate Valid()
      reads this
    {
      && (hookSettings.topStoriesCount >= 0 ==> |stories| <= hookSettings.topStoriesCount)
      && (error.None? || error == Some(LOAD_FAILED))
    }

    /** The initial state: nothing loaded, zero counts stamped `now`, loading. */
    constructor (settings: UserSettings, now: int)
      ensures Valid()
      ensures hookSettings == settings && userSettings == settings
      ensures stories == [] && connectedThreads == []
      ensures stats == DashboardStats(0, 0, 0, now)
      ensures loading && lastUpdated == now && error == None
    {
      hookSettings := settings;
      stories := [];
      connectedThreads := [];
      stats := DashboardStats(0, 0, 0, now);
      userSettings := settings;
      loading := true;
      lastUpdated := now;
      error := None;
    }

    /** The first update of `loadDashboardData`: only the loading flag changes. */
    method BeginLoad()
      modifies this
      ensures loading
      ensures stories == old(stories) && connectedThreads == old(connectedThreads) && stats == old(stats)
      ensures userSettings == old(userSettings) && lastUpdated == old(lastUpdated) && error == old(error)
    {
      loading := true;
    }

    /**
     * The rest of `loadDashboardData` once the request has settled: a usable
     * payload replaces stories, threads and stats and clears the error; anything
     * else keeps them and records the failure. Either way loading ends.
     */
    method CompleteLoad(outcome: Result<DashboardPayload, ApiError>, now: int)
      requires Valid()
      modifies this
      ensures Valid() && !loading && userSettings == old(userSettings)
      ensures Load(outcome, hookSettings.topStoriesCount, now).Some? ==>
        && Loaded(stories, connectedThreads, stats) == Load(outcome, hookSettings.topStoriesCount, now).value
        && lastUpdated == now && error == None
      ensures Load(outcome, hookSettings.topStoriesCount, now).None? ==>
        && stories == old(stories) && connectedThreads == old(connectedThreads) && stats == old(stats)
        && lastUpdated == old(lastUpdated) && error == Some(LOAD_FAILED)
    {
      if outcome.Err? || outcome.value.topStories.None? || outcome.value.processingStatus.None? {
        loading := false;
        error := Some(LOAD_FAILED);
        return;
      }
      var payload := outcome.value;
      var shown := TopStories(payload.topStories.value, hookSettings.topStoriesCount, now);
      var threads := TransformApiThreads(payload.strategicThreads.GetOr([]), now);
      var newStats := TransformStats(payload.processingStatus.value, payload.recentAnalysis.GetOr([]));
      stories, connectedThreads, stats := shown, threads, newStats;
      loading := false;
      lastUpdated := now;
      error := None;
    }

    /** One whole load, as on mount, on each timer tick and on a manual refresh. */
    method LoadDashboardData(outcome: Result<DashboardPayload, ApiError>, now: int)
      requires Valid()
      modifies this
      ensures Valid() && !loading && userSettings == old(userSettings)
      ensures Load(outcome, hookSettings.topStoriesCount, now).Some? ==>
        && Loaded(stories, connectedThreads, stats) == Load(outcome, hookSettings.topStoriesCount, now).value
        && lastUpdated == now && error == None
      ensures Load(outcome, hookSettings.topStoriesCount, now).None? ==>
        && stories == old(stories) && connectedThreads == old(connectedThreads) && stats == old(stats)
        && lastUpdated == old(lastUpdated) && error == Some(LOAD_FAILED)
    {
      BeginLoad();
      CompleteLoad(outcome, now);
    }

    /** `refreshDashboard`: exactly one more load. */
    method RefreshDashboard(outcome: Result<DashboardPayload, ApiError>, now: int)
      requires Valid()
      modifies this
      ensures Valid() && !loading && userSettings == old(userSettings)
      ensures Load(outcome, hookSettings.topStoriesCount, now).Some? ==>
        && Loaded(stories, connectedThreads, stats) == Load(outcome, hookSettings.topStoriesCount, now).value
        && lastUpdated == now && error == None
      ensures Load(outcome, hookSettings.topStoriesCount, now).None? ==>
        && stories == old(stories) && connectedThreads == old(connectedThreads) && stats == old(stats)
        && lastUpdated == old(lastUpdated) && error == Some(LOAD_FAILED)
    {
      LoadDashboardData(outcome, now);
    }

    /** `updateUserSettings`: replaces the stored settings and nothing else. */
    method UpdateUserSettings(settings: UserSettings)
      requires Valid()
      modifies this
      ensures Valid() && userSettings == settings
      ensures stories == old(stories) && connectedThreads == old(connectedThreads) && stats == old(stats)
      ensures loading == old(loading) && lastUpdated == old(lastUpdated) && error == old(error)
    {
      userSettings := settings;
    }
  }

  /**
   * Stored settings do not reach the loader: after `updateUserSettings` a load
   * still truncates to the story count the hook was called with.
   */
  method UpdateThenLoad(store: DashboardStore, settings: UserSettings, outcome: Result<DashboardPayload, ApiError>, now: int)
    requires store.Valid()
    requires outcome.Ok? && outcome.value.topStories.Some? && outcome.value.processingStatus.Some?
    modifies store
    ensures store.userSettings == settings
    ensures |store.stories| == SliceEnd(|outcome.value.topStories.value|, store.hookSettings.topStoriesCount)
  {
    store.UpdateUserSettings(settings);
    store.LoadDashboardData(outcome, now);
  }
}
