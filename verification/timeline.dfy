/**
 * `TimelineView`: every story and every thread event merged into one list,
 * newest first, and the per-level story counts shown under it. Dates are
 * integers, so the comparator `b.date - a.date` is exact.
 */
module Timeline {

  import opened Wrappers
  import opened JsText
  import opened DashboardTypes

  datatype EventKind = StoryEntry | ThreadEntry

  /** One row of the timeline; the optional fields are absent as the source leaves them out. */
  datatype TimelineEvent = TimelineEvent(
    date: int,
    event: Text,
    kind: EventKind,
    importance: Option<Text>,
    threadId: Option<Text>,
    storyId: Option<Text>)

  // ------------------------------------------------------------ the merge

  function StoryEvent(story: StoryCard): TimelineEvent
  {
    TimelineEvent(story.publishedAt, story.title, StoryEntry, Some(story.importance), None, Some(story.id))
  }

  function ThreadEvent(thread: StrategicThread, e: DashboardTypes.ThreadEvent): TimelineEvent
  {
    TimelineEvent(e.date, e.event, ThreadEntry, None, Some(thread.id), None)
  }

  /** The story rows, in story order. */
  function StoryEvents(stories: seq<StoryCard>): seq<TimelineEvent>
  {
    seq(|stories|, i requires 0 <= i < |stories| => StoryEvent(stories[i]))
  }

  /** The rows of one thread, in the order of its timeline. */
  function EventsOf(thread: StrategicThread): seq<TimelineEvent>
  {
    seq(|thread.timelineEvents|, k requires 0 <= k < |thread.timelineEvents| => ThreadEvent(thread, thread.timelineEvents[k]))
  }

  /** The rows of all threads, thread after thread. */
  function ThreadEvents(threads: seq<StrategicThread>): seq<TimelineEvent>
  {
    if threads == [] then []
    else ThreadEvents(threads[..|threads| - 1]) + EventsOf(threads[|threads| - 1])
  }

  /** The list before sorting: stories first, then thread events. */
  function Unsorted(stories: seq<StoryCard>, threads: seq<StrategicThread>): seq<TimelineEvent>
  {
    StoryEvents(stories) + ThreadEvents(threads)
  }

  // ------------------------------------------------------------ the sort

  /** Dates never increase along the list. */
  predicate NewestFirst(s: seq<TimelineEvent>)
  {
    forall i, j :: 0 <= i < j < |s| ==> s[i].date >= s[j].date
  }

  /** Puts x before the first row not newer than it. */
  function Insert(x: TimelineEvent, t: seq<TimelineEvent>): (r: seq<TimelineEvent>)
    ensures |r| == |t| + 1
  {
    if t == [] || x.date >= t[0].date then [x] + t
    else [t[0]] + Insert(x, t[1..])
  }

  /**
   * A stable sort on `b.date - a.date`: what `Array.prototype.sort` returns for
   * this comparator, since ECMA-262 (from ES2019) requires the sort to be stable.
   */
  function SortNewestFirst(s: seq<TimelineEvent>): (r: seq<TimelineEvent>)
    ensures |r| == |s|
  {
    if s == [] then [] else Insert(s[0], SortNewestFirst(s[1..]))
  }

  /** The rows of one date, in list order. */
  function OnDate(s: seq<TimelineEvent>, d: int): seq<TimelineEvent>
  {
    if s == [] then []
    else (if s[0].date == d then [s[0]] else []) + OnDate(s[1..], d)
  }

  lemma {:induction false} InsertPermutes(x: TimelineEvent, t: seq<TimelineEvent>)
    ensures multiset(Insert(x, t)) == multiset(t) + multiset{x}
  {
    if t != [] && x.date < t[0].date {
      InsertPermutes(x, t[1..]);
      assert t == [t[0]] + t[1..];
    }
  }

  /** Inserting a row no newer than d into rows no newer than d gives rows no newer than d. */
  lemma {:induction false} InsertBelow(x: TimelineEvent, t: seq<TimelineEvent>, d: int)
    requires x.date <= d && forall i :: 0 <= i < |t| ==> t[i].date <= d
    ensures forall i :: 0 <= i < |Insert(x, t)| ==> Insert(x, t)[i].date <= d
  {
    if t != [] && x.date < t[0].date {
      var tail := t[1..];
      InsertBelow(x, tail, d);
      assert Insert(x, t) == [t[0]] + Insert(x, tail);
    }
  }

  lemma {:induction false} InsertSpec(x: TimelineEvent, t: seq<TimelineEvent>)
    requires NewestFirst(t)
    ensures NewestFirst(Insert(x, t))
    ensures multiset(Insert(x, t)) == multiset(t) + multiset{x}
  {
    InsertPermutes(x, t);
    if t != [] && x.date < t[0].date {
      var tail := t[1..];
      InsertSpec(x, tail);
      InsertBelow(x, tail, t[0].date);
      assert Insert(x, t) == [t[0]] + Insert(x, tail);
    }
  }

  /** The rows of one date in a list with a given head. */
  lemma OnDateCons(e: TimelineEvent, s: seq<TimelineEvent>, d: int)
    ensures OnDate([e] + s, d) == (if e.date == d then [e] else []) + OnDate(s, d)
  {
    assert ([e] + s)[1..] == s;
  }

  /** Inserting x adds x to the rows of its own date, in front, and changes no other date's rows. */
  lemma {:induction false} InsertOnDate(x: TimelineEvent, t: seq<TimelineEvent>, d: int)
    ensures OnDate(Insert(x, t), d) == (if x.date == d then [x] else []) + OnDate(t, d)
  {
    if t == [] || x.date >= t[0].date {
      OnDateCons(x, t, d);
    } else {
      var rest := Insert(x, t[1..]);
      InsertOnDate(x, t[1..], d);
      OnDateCons(t[0], rest, d);
      OnDateCons(t[0], t[1..], d);
      assert t == [t[0]] + t[1..];
      if x.date == d {
        assert t[0].date != d;
      } else if t[0].date == d {
        assert OnDate(Insert(x, t), d) == [t[0]] + OnDate(t[1..], d);
      }
    }
  }

  /** The sorted list is newest first and holds exactly the input rows. */
  lemma {:induction false} SortSpec(s: seq<TimelineEvent>)
    ensures NewestFirst(SortNewestFirst(s))
    ensures multiset(SortNewestFirst(s)) == multiset(s)
  {
    if s != [] {
      SortSpec(s[1..]);
      InsertSpec(s[0], SortNewestFirst(s[1..]));
      assert s == [s[0]] + s[1..];
    }
  }

  /** Stability: rows with the same date keep their input order. */
  lemma {:induction false} SortIsStable(s: seq<TimelineEvent>, d: int)
    ensures OnDate(SortNewestFirst(s), d) == OnDate(s, d)
  {
    if s != [] {
      SortIsStable(s[1..], d);
      InsertOnDate(s[0], SortNewestFirst(s[1..]), d);
    }
  }

  // ------------------------------------------------------------ getAllEvents

  /** `getAllEvents`: push the story rows, then each thread's rows, then sort newest first. */
  method GetAllEvents(threads: seq<StrategicThread>, stories: seq<StoryCard>) returns (result: seq<TimelineEvent>)
    ensures result == SortNewestFirst(Unsorted(stories, threads))
    ensures |result| == |stories| + TimelineEventCount(threads)
  {
    var events: seq<TimelineEvent> := [];
    for i := 0 to |stories|
      invariant events == StoryEvents(stories[..i])
    {
      events := events + [StoryEvent(stories[i])];
    }
    assert stories[..|stories|] == stories;
    for t := 0 to |threads|
      invariant events == StoryEvents(stories) + ThreadEvents(threads[..t])
    {
      var thread := threads[t];
      for k := 0 to |thread.timelineEvents|
        invariant events == StoryEvents(stories) + ThreadEvents(threads[..t]) + EventsOf(thread)[..k]
      {
        events := events + [ThreadEvent(thread, thread.timelineEvents[k])];
      }
      assert EventsOf(thread)[..|thread.timelineEvents|] == EventsOf(thread);
      assert threads[..t + 1][..t] == threads[..t];
    }
    assert threads[..|threads|] == threads;
    result := SortNewestFirst(events);
    SortSpec(events);
    ThreadEventsCount(threads);
    assert |result| == |multiset(result)| == |multiset(events)| == |events|;
  }

  // ------------------------------------------------------------ properties

  /** One row per thread-timeline event. */
  lemma {:induction false} ThreadEventsCount(threads: seq<StrategicThread>)
    ensures |ThreadEvents(threads)| == TimelineEventCount(threads)
  {
    if threads != [] {
      ThreadEventsCount(threads[..|threads| - 1]);
    }
  }

  /** A row of the thread part belongs to one of the threads, carries its id, and has no importance. */
  lemma {:induction false} ThreadEventShape(threads: seq<StrategicThread>, e: TimelineEvent)
    requires e in ThreadEvents(threads)
    ensures e.kind == ThreadEntry && e.importance == None && e.storyId == None
    ensures exists j :: 0 <= j < |threads| && e.threadId == Some(threads[j].id)
  {
    var init := threads[..|threads| - 1];
    if e in ThreadEvents(init) {
      ThreadEventShape(init, e);
      var j :| 0 <= j < |init| && e.threadId == Some(init[j].id);
      assert init[j] == threads[j];
    } else {
      assert e.threadId == Some(threads[|threads| - 1].id);
    }
  }

  /**
   * Every timeline row is either a story row (title, publication date, importance
   * and story id of one of the stories) or a thread row (no importance, the id of
   * one of the threads).
   */
  lemma TimelineRowShapes(threads: seq<StrategicThread>, stories: seq<StoryCard>, e: TimelineEvent)
    requires e in SortNewestFirst(Unsorted(stories, threads))
    ensures e.kind == StoryEntry ==>
      exists i :: 0 <= i < |stories| && e == TimelineEvent(stories[i].publishedAt, stories[i].title, StoryEntry,
        Some(stories[i].importance), None, Some(stories[i].id))
    ensures e.kind == ThreadEntry ==>
      e.importance == None && e.storyId == None && exists j :: 0 <= j < |threads| && e.threadId == Some(threads[j].id)
  {
    SortSpec(Unsorted(stories, threads));
    assert e in multiset(Unsorted(stories, threads));
    if e in ThreadEvents(threads) {
      ThreadEventShape(threads, e);
    } else {
      assert e in StoryEvents(stories);
    }
  }

  // ------------------------------------------------------------ importance counts

  /** `stories.filter(s => s.importance === level).length`. */
  function CountLevel(stories: seq<StoryCard>, level: ImportanceLevel): (n: nat)
    ensures n <= |stories|
  {
    if stories == [] then 0
    else CountLevel(stories[..|stories| - 1], level) + (if stories[|stories| - 1].importance == level.Name() then 1 else 0)
  }

  /** When every story carries one of the three levels, the three counts add up to the number of stories. */
  lemma {:induction false} LevelCountsSum(stories: seq<StoryCard>)
    requires forall i :: 0 <= i < |stories| ==> IsLevel(stories[i].importance)
    ensures CountLevel(stories, High) + CountLevel(stories, Medium) + CountLevel(stories, Emerging) == |stories|
  {
    if stories != [] {
      var last := stories[|stories| - 1];
      LevelCountsSum(stories[..|stories| - 1]);
      assert IsLevel(last.importance);
      LevelNamesDistinct(High, Medium);
      LevelNamesDistinct(High, Emerging);
      LevelNamesDistinct(Medium, Emerging);
    }
  }
}
