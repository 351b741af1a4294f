/**
 * `transformApiThreadsToStrategicThreads`: flat connection records are bucketed
 * by their label, or by position in groups of three when unlabelled, and each
 * bucket becomes one strategic thread, in the order its key was first seen.
 */
module ThreadGrouping {

  import opened Wrappers
  import opened JsText
  import opened DashboardTypes
  import opened Hashing
  import opened Api

  const CONNECTS_TO: Text := Lit(" connects to ")
  const THREAD_KEY_PREFIX: Text := Lit("thread-")
  const THREAD_TITLE_PREFIX: Text := Lit("Strategic Thread ")
  const DAY_MS: int := 24 * 60 * 60 * 1000

  // ------------------------------------------------------------ specification

  /** The bucket key of record i: its label, or `thread-` and the index of its group of three. */
  function ThreadKey(rs: seq<ThreadRecord>, i: nat): (key: Text)
    requires i < |rs|
    ensures key != []
    ensures !Truthy(rs[i].connectionType) ==> StartsWith(key, THREAD_KEY_PREFIX)
  {
    if Truthy(rs[i].connectionType) then rs[i].connectionType.value
    else THREAD_KEY_PREFIX + Decimal(i / 3)
  }

  /** The digits after `thread-` in an unlabelled record's key read back as its group index. */
  lemma UnlabelledKeyReadsBack(rs: seq<ThreadRecord>, i: nat)
    requires i < |rs| && !Truthy(rs[i].connectionType)
    ensures DigitsValue(ThreadKey(rs, i)[|THREAD_KEY_PREFIX|..]) == i / 3
  {
    DecimalRoundTrip(i / 3);
    assert ThreadKey(rs, i)[|THREAD_KEY_PREFIX|..] == Decimal(i / 3);
  }

  /** Adding to a JavaScript `Set` (or a new key to a `Map`): insertion order, no duplicates. */
  function AddDistinct(s: seq<Text>, x: Text): seq<Text>
  {
    if x in s then s else s + [x]
  }

  /** The keys of the map after the first n records, in insertion order. */
  function KeysUpTo(rs: seq<ThreadRecord>, n: nat): seq<Text>
    requires n <= |rs|
  {
    if n == 0 then [] else AddDistinct(KeysUpTo(rs, n - 1), ThreadKey(rs, n - 1))
  }

  /** The records among the first n whose key is k, in input order. */
  function BucketUpTo(rs: seq<ThreadRecord>, n: nat, k: Text): seq<ThreadRecord>
    requires n <= |rs|
  {
    if n == 0 then []
    else BucketUpTo(rs, n - 1, k) + (if ThreadKey(rs, n - 1) == k then [rs[n - 1]] else [])
  }

  /** The positions of those records. */
  function BucketIndices(rs: seq<ThreadRecord>, n: nat, k: Text): seq<nat>
    requires n <= |rs|
  {
    if n == 0 then []
    else BucketIndices(rs, n - 1, k) + (if ThreadKey(rs, n - 1) == k then [n - 1] else [])
  }

  /** The story ids of a bucket: the hashes of each record's two titles, first-seen order, no repeats. */
  function StoryIdsOf(b: seq<ThreadRecord>): seq<Text>
  {
    if b == [] then []
    else
      var last := b[|b| - 1];
      AddDistinct(AddDistinct(StoryIdsOf(b[..|b| - 1]), HashOf(last.primaryTitle)), HashOf(last.connectedTitle))
  }

  /** The `reduce` that adds up the relationship strengths, from the left. */
  function StrengthSum(b: seq<ThreadRecord>): real
  {
    if b == [] then 0.0 else StrengthSum(b[..|b| - 1]) + b[|b| - 1].relationshipStrength
  }

  function EventText(r: ThreadRecord): Text
  {
    r.primaryTitle + CONNECTS_TO + r.connectedTitle
  }

  /** The synthesized timeline: event idx is dated idx days before `now`. */
  function TimelineOf(b: seq<ThreadRecord>, now: int): seq<ThreadEvent>
  {
    seq(|b|, idx requires 0 <= idx < |b| =>
      ThreadEvent(now - idx * DAY_MS, EventText(b[idx]), HashOf(b[idx].primaryTitle)))
  }

  /** The first record's label, or `Strategic Thread k` for the k-th emitted thread. */
  function ThreadTitle(b: seq<ThreadRecord>, index: nat): Text
  {
    if b != [] && Truthy(b[0].connectionType) then b[0].connectionType.value
    else THREAD_TITLE_PREFIX + Decimal(index + 1)
  }

  /** The thread built from one map entry; `index` is the entry's position. */
  function BuildThread(key: Text, b: seq<ThreadRecord>, storyIds: seq<Text>, index: nat, now: int): StrategicThread
    requires b != []
  {
    StrategicThread(key, ThreadTitle(b, index), storyIds, TimelineOf(b, now), StrengthSum(b) / (|b| as real))
  }

  /** The j-th thread of the whole transform. */
  function ThreadAt(rs: seq<ThreadRecord>, j: nat, now: int): StrategicThread
    requires j < |KeysUpTo(rs, |rs|)|
  {
    var k := KeysUpTo(rs, |rs|)[j];
    BucketSeen(rs, |rs|, k);
    BuildThread(k, BucketUpTo(rs, |rs|, k), StoryIdsOf(BucketUpTo(rs, |rs|, k)), j, now)
  }

  /** What the transform returns for the records, read with the clock at `now`. */
  function Threads(rs: seq<ThreadRecord>, now: int): (ts: seq<StrategicThread>)
    ensures rs != [] ==> |ts| == |KeysUpTo(rs, |rs|)|
    ensures forall j :: 0 <= j < |ts| ==> j < |KeysUpTo(rs, |rs|)| && ts[j].id == KeysUpTo(rs, |rs|)[j]
  {
    if |rs| == 0 then []
    else seq(|KeysUpTo(rs, |rs|)|, j requires 0 <= j < |KeysUpTo(rs, |rs|)| => ThreadAt(rs, j, now))
  }

  // ------------------------------------------------------------ the transform

  /** One entry of the source's `threadMap`. */
  datatype ThreadData = ThreadData(connections: seq<ThreadRecord>, storyIds: seq<Text>)

  /** The map and its insertion order after the first n records. */
  ghost predicate MapAfter(rs: seq<ThreadRecord>, n: nat, order: seq<Text>, threadMap: map<Text, ThreadData>)
    requires n <= |rs|
  {
    && order == KeysUpTo(rs, n)
    && (forall k :: k in threadMap <==> k in order)
    && EntriesAfter(rs, n, threadMap)
  }

  /** Every entry holds the bucket of its key among the first n records, and that bucket's story ids. */
  ghost predicate EntriesAfter(rs: seq<ThreadRecord>, n: nat, threadMap: map<Text, ThreadData>)
    requires n <= |rs|
  {
    forall k :: k in threadMap ==>
      threadMap[k] == ThreadData(BucketUpTo(rs, n, k), StoryIdsOf(BucketUpTo(rs, n, k)))
  }

  lemma BucketStepSame(rs: seq<ThreadRecord>, n: nat)
    requires n < |rs|
    ensures BucketUpTo(rs, n + 1, ThreadKey(rs, n)) == BucketUpTo(rs, n, ThreadKey(rs, n)) + [rs[n]]
  {
  }

  lemma BucketStepOther(rs: seq<ThreadRecord>, n: nat, k: Text)
    requires n < |rs| && k != ThreadKey(rs, n)
    ensures BucketUpTo(rs, n + 1, k) == BucketUpTo(rs, n, k)
  {
  }

  lemma StoryIdsStep(b: seq<ThreadRecord>, r: ThreadRecord)
    ensures StoryIdsOf(b + [r]) == AddDistinct(AddDistinct(StoryIdsOf(b), HashOf(r.primaryTitle)), HashOf(r.connectedTitle))
  {
    assert (b + [r])[..|b|] == b;
  }

  /** The insertion order and the key set move in step with the specification's key list. */
  lemma MapStepKeys(rs: seq<ThreadRecord>, n: nat, order: seq<Text>, threadMap: map<Text, ThreadData>,
                    order': seq<Text>, threadMap': map<Text, ThreadData>)
    requires n < |rs| && MapAfter(rs, n, order, threadMap)
    requires order' == if ThreadKey(rs, n) in threadMap then order else order + [ThreadKey(rs, n)]
    requires ThreadKey(rs, n) in threadMap' && threadMap'.Keys == threadMap.Keys + {ThreadKey(rs, n)}
    ensures order' == KeysUpTo(rs, n + 1)
    ensures forall k :: k in threadMap' <==> k in order'
  {
  }

  /** Every entry holds the bucket and story ids of the first n + 1 records. */
  lemma MapStepEntries(rs: seq<ThreadRecord>, n: nat, threadMap: map<Text, ThreadData>, threadMap': map<Text, ThreadData>)
    requires n < |rs| && EntriesAfter(rs, n, threadMap)
    requires var b := BucketUpTo(rs, n, ThreadKey(rs, n));
      threadMap' == threadMap[ThreadKey(rs, n) := ThreadData(b + [rs[n]],
        AddDistinct(AddDistinct(StoryIdsOf(b), HashOf(rs[n].primaryTitle)), HashOf(rs[n].connectedTitle)))]
    ensures EntriesAfter(rs, n + 1, threadMap')
  {
    var key := ThreadKey(rs, n);
    BucketStepSame(rs, n);
    StoryIdsStep(BucketUpTo(rs, n, key), rs[n]);
    forall k | k in threadMap'
      ensures threadMap'[k] == ThreadData(BucketUpTo(rs, n + 1, k), StoryIdsOf(BucketUpTo(rs, n + 1, k)))
    {
      if k != key {
        BucketStepOther(rs, n, k);
      }
    }
  }

  /** Pushing record n into its bucket and adding its two hashes keeps the map in step with the specification. */
  lemma MapStep(rs: seq<ThreadRecord>, n: nat, order: seq<Text>, threadMap: map<Text, ThreadData>,
                order': seq<Text>, threadMap': map<Text, ThreadData>)
    requires n < |rs| && MapAfter(rs, n, order, threadMap)
    requires order' == if ThreadKey(rs, n) in threadMap then order else order + [ThreadKey(rs, n)]
    requires var b := BucketUpTo(rs, n, ThreadKey(rs, n));
      threadMap' == threadMap[ThreadKey(rs, n) := ThreadData(b + [rs[n]],
        AddDistinct(AddDistinct(StoryIdsOf(b), HashOf(rs[n].primaryTitle)), HashOf(rs[n].connectedTitle)))]
    ensures MapAfter(rs, n + 1, order', threadMap')
  {
    MapStepKeys(rs, n, order, threadMap, order', threadMap');
    MapStepEntries(rs, n, threadMap, threadMap');
  }

  /** The map after the first n records, entry by entry as the callback builds it. */
  ghost function MapUpTo(rs: seq<ThreadRecord>, n: nat): map<Text, ThreadData>
    requires n <= |rs|
  {
    if n == 0 then map[]
    else
      var m := MapUpTo(rs, n - 1);
      var key := ThreadKey(rs, n - 1);
      var r := rs[n - 1];
      var d := if key in m then m[key] else ThreadData([], []);
      m[key := ThreadData(d.connections + [r], AddDistinct(AddDistinct(d.storyIds, HashOf(r.primaryTitle)), HashOf(r.connectedTitle)))]
  }

  /** The callback-built map has exactly the seen keys, each holding its bucket and that bucket's story ids. */
  lemma {:induction false} MapUpToMatches(rs: seq<ThreadRecord>, n: nat)
    requires n <= |rs|
    ensures MapAfter(rs, n, KeysUpTo(rs, n), MapUpTo(rs, n))
  {
    if n > 0 {
      var p := n - 1;
      MapUpToMatches(rs, p);
      MapUpToStep(rs, p);
    }
  }

  lemma MapUpToStep(rs: seq<ThreadRecord>, n: nat)
    requires n < |rs| && MapAfter(rs, n, KeysUpTo(rs, n), MapUpTo(rs, n))
    ensures MapAfter(rs, n + 1, KeysUpTo(rs, n + 1), MapUpTo(rs, n + 1))
  {
    var m := MapUpTo(rs, n);
    var key := ThreadKey(rs, n);
    var b := BucketUpTo(rs, n, key);
    BucketSeen(rs, n, key);
    var d := if key in m then m[key] else ThreadData([], []);
    assert d == ThreadData(b, StoryIdsOf(b));
    var m' := m[key := ThreadData(b + [rs[n]],
        AddDistinct(AddDistinct(StoryIdsOf(b), HashOf(rs[n].primaryTitle)), HashOf(rs[n].connectedTitle)))];
    assert MapUpTo(rs, n + 1) == m';
    MapStep(rs, n, KeysUpTo(rs, n), m, KeysUpTo(rs, n + 1), m');
  }

  /** The `forEach` callback: file record `index` under its key, creating the entry on first sight. */
  method AddConnection(apiThreads: seq<ThreadRecord>, index: nat, order: seq<Text>, threadMap: map<Text, ThreadData>)
    returns (order': seq<Text>, threadMap': map<Text, ThreadData>)
    requires index < |apiThreads|
    requires order == KeysUpTo(apiThreads, index) && threadMap == MapUpTo(apiThreads, index)
    ensures order' == KeysUpTo(apiThreads, index + 1) && threadMap' == MapUpTo(apiThreads, index + 1)
  {
    MapUpToMatches(apiThreads, index);
    order', threadMap' := order, threadMap;
    var thread := apiThreads[index];
    var threadKey := if Truthy(thread.connectionType) then thread.connectionType.value
                     else THREAD_KEY_PREFIX + Decimal(index / 3);
    assert threadKey == ThreadKey(apiThreads, index);
    // `threadMap.get(threadKey)` after an empty entry is set for a new key
    var threadData := ThreadData([], []);
    if threadKey in threadMap' {
      threadData := threadMap'[threadKey];
    } else {
      order' := order' + [threadKey];
    }
    var primaryId := HashString(thread.primaryTitle);
    var connectedId := HashString(thread.connectedTitle);
    threadMap' := threadMap'[threadKey := ThreadData(threadData.connections + [thread],
                                                     AddDistinct(AddDistinct(threadData.storyIds, primaryId), connectedId))];
  }

  /** The `forEach` over all records. */
  method FillThreadMap(apiThreads: seq<ThreadRecord>) returns (order: seq<Text>, threadMap: map<Text, ThreadData>)
    ensures order == KeysUpTo(apiThreads, |apiThreads|) && threadMap == MapUpTo(apiThreads, |apiThreads|)
  {
    order, threadMap := [], map[];
    var index := 0;
    while index < |apiThreads|
      invariant 0 <= index <= |apiThreads|
      invariant order == KeysUpTo(apiThreads, index) && threadMap == MapUpTo(apiThreads, index)
    {
      order, threadMap := AddConnection(apiThreads, index, order, threadMap);
      index := index + 1;
    }
  }

  /** The transform as the source runs it: fill an insertion-ordered map, then map its entries. */
  method TransformApiThreads(apiThreads: seq<ThreadRecord>, now: int) returns (result: seq<StrategicThread>)
    ensures result == Threads(apiThreads, now)
  {
    if |apiThreads| == 0 {
      return [];
    }
    var order, threadMap := FillThreadMap(apiThreads);
    MapUpToMatches(apiThreads, |apiThreads|);
    MapEntriesAreThreads(apiThreads, order, threadMap, now);
    result := seq(|order|, j requires 0 <= j < |order| =>
      BuildThread(order[j], threadMap[order[j]].connections, threadMap[order[j]].storyIds, j, now));
  }

  /** Once every record is in, entry j of the map builds the j-th thread of the specification. */
  lemma MapEntriesAreThreads(rs: seq<ThreadRecord>, order: seq<Text>, threadMap: map<Text, ThreadData>, now: int)
    requires |rs| > 0 && MapAfter(rs, |rs|, order, threadMap)
    ensures |order| == |Threads(rs, now)|
    ensures forall j :: 0 <= j < |order| ==>
      && order[j] in threadMap && threadMap[order[j]].connections != []
      && BuildThread(order[j], threadMap[order[j]].connections, threadMap[order[j]].storyIds, j, now) == Threads(rs, now)[j]
  {
    forall j | 0 <= j < |order|
      ensures order[j] in threadMap && threadMap[order[j]].connections != []
      ensures BuildThread(order[j], threadMap[order[j]].connections, threadMap[order[j]].storyIds, j, now) == Threads(rs, now)[j]
    {
      BucketSeen(rs, |rs|, order[j]);
      assert Threads(rs, now)[j] == ThreadAt(rs, j, now);
    }
  }

  // ------------------------------------------------------------ properties

  /** A key has records exactly when it has been seen. */
  lemma {:induction false} BucketSeen(rs: seq<ThreadRecord>, n: nat, k: Text)
    requires n <= |rs|
    ensures BucketUpTo(rs, n, k) != [] <==> k in KeysUpTo(rs, n)
  {
    if n > 0 {
      var m := n - 1;
      BucketSeen(rs, m, k);
    }
  }
}
