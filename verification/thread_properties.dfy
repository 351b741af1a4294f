/**
 * What the grouping of connection records into strategic threads guarantees:
 * one thread per distinct key, in first-seen order, every record in exactly one
 * thread, story ids without repeats, and the numbering of unlabelled groups.
 */
module ThreadProperties {

  import opened JsText
  import opened DashboardTypes
  import opened Hashing
  import opened Api
  import opened ThreadGrouping

  predicate Distinct(s: seq<Text>)
  {
    forall i, j :: 0 <= i < j < |s| ==> s[i] != s[j]
  }

  lemma AddDistinctSpec(s: seq<Text>, x: Text)
    requires Distinct(s)
    ensures Distinct(AddDistinct(s, x))
    ensures forall y :: y in AddDistinct(s, x) <==> y in s || y == x
    ensures |AddDistinct(s, x)| <= |s| + 1
  {
  }

  // ------------------------------------------------------------ keys

  /** No key is listed twice, so no two threads share an id. */
  lemma {:induction false} KeysDistinct(rs: seq<ThreadRecord>, n: nat)
    requires n <= |rs|
    ensures Distinct(KeysUpTo(rs, n))
  {
    if n > 0 {
      var m := n - 1;
      KeysDistinct(rs, m);
      AddDistinctSpec(KeysUpTo(rs, m), ThreadKey(rs, m));
    }
  }

  /** The keys are exactly the keys of the records read so far. */
  lemma {:induction false} KeysSeen(rs: seq<ThreadRecord>, n: nat, k: Text)
    requires n <= |rs|
    ensures k in KeysUpTo(rs, n) <==> exists i :: 0 <= i < n && ThreadKey(rs, i) == k
  {
    if n > 0 {
      var m := n - 1;
      KeysSeen(rs, m, k);
      if ThreadKey(rs, m) == k {
        assert ThreadKey(rs, m) == k;
      }
    }
  }

  /** There are at most as many keys as records, and at least one once a record is read. */
  lemma {:induction false} KeyCount(rs: seq<ThreadRecord>, n: nat)
    requires n <= |rs|
    ensures |KeysUpTo(rs, n)| <= n
    ensures n > 0 ==> |KeysUpTo(rs, n)| >= 1
  {
    if n > 0 {
      var m := n - 1;
      KeyCount(rs, m);
    }
  }

  /** An empty input gives no threads; otherwise between one thread and one per record. */
  lemma ThreadCount(rs: seq<ThreadRecord>, now: int)
    ensures rs == [] ==> Threads(rs, now) == []
    ensures rs != [] ==> 1 <= |Threads(rs, now)| <= |rs|
    ensures rs != [] ==> forall j :: 0 <= j < |Threads(rs, now)| ==> Threads(rs, now)[j].id == KeysUpTo(rs, |rs|)[j]
  {
    KeyCount(rs, |rs|);
  }

  // ------------------------------------------------------------ buckets

  /**
   * A bucket is the subsequence of the records whose key is k: record t of the
   * bucket is input record idx[t], the positions increase, and no record with
   * key k is skipped.
   */
  lemma {:induction false} BucketIndicesSpec(rs: seq<ThreadRecord>, n: nat, k: Text)
    requires n <= |rs|
    ensures var b, idx := BucketUpTo(rs, n, k), BucketIndices(rs, n, k);
      && |idx| == |b|
      && (forall t :: 0 <= t < |idx| ==> idx[t] < n && ThreadKey(rs, idx[t]) == k && b[t] == rs[idx[t]])
      && (forall s, t :: 0 <= s < t < |idx| ==> idx[s] < idx[t])
      && (forall i :: 0 <= i < n && ThreadKey(rs, i) == k ==> i in idx)
  {
    if n > 0 {
      var m := n - 1;
      BucketIndicesSpec(rs, m, k);
    }
  }

  /** The bucket of each thread's key, read over all records. */
  function BucketTotal(rs: seq<ThreadRecord>, n: nat, keys: seq<Text>): nat
    requires n <= |rs|
  {
    if keys == [] then 0
    else BucketTotal(rs, n, keys[..|keys| - 1]) + |BucketUpTo(rs, n, keys[|keys| - 1])|
  }

  lemma BucketTotalAppend(rs: seq<ThreadRecord>, n: nat, keys: seq<Text>, x: Text)
    requires n <= |rs|
    ensures BucketTotal(rs, n, keys + [x]) == BucketTotal(rs, n, keys) + |BucketUpTo(rs, n, x)|
  {
    assert (keys + [x])[..|keys|] == keys;
  }

  /** Reading record n adds one to the total exactly when its key is among the listed ones. */
  lemma {:induction false} BucketTotalStep(rs: seq<ThreadRecord>, n: nat, keys: seq<Text>)
    requires n < |rs| && Distinct(keys)
    ensures BucketTotal(rs, n + 1, keys) == BucketTotal(rs, n, keys) + (if ThreadKey(rs, n) in keys then 1 else 0)
  {
    if keys != [] {
      var init, last := keys[..|keys| - 1], keys[|keys| - 1];
      assert keys == init + [last];
      assert Distinct(init);
      BucketTotalStep(rs, n, init);
      assert last !in init;
    }
  }

  /** Every record read lands in exactly one bucket: the bucket sizes add up to the record count. */
  lemma {:induction false} BucketsPartition(rs: seq<ThreadRecord>, n: nat)
    requires n <= |rs|
    ensures BucketTotal(rs, n, KeysUpTo(rs, n)) == n
  {
    if n > 0 {
      var m := n - 1;
      var keys := KeysUpTo(rs, m);
      var key := ThreadKey(rs, m);
      BucketsPartition(rs, m);
      KeysDistinct(rs, m);
      BucketTotalStep(rs, m, keys);
      if key !in keys {
        BucketSeen(rs, m, key);
        BucketTotalAppend(rs, n, keys, key);
      }
    }
  }

  lemma {:induction false} EventCountPrefix(rs: seq<ThreadRecord>, now: int, m: nat)
    requires rs != [] && m <= |KeysUpTo(rs, |rs|)|
    ensures TimelineEventCount(Threads(rs, now)[..m]) == BucketTotal(rs, |rs|, KeysUpTo(rs, |rs|)[..m])
  {
    var keys := KeysUpTo(rs, |rs|);
    var threads := Threads(rs, now);
    if m > 0 {
      EventCountPrefix(rs, now, m - 1);
      assert threads[..m][..m - 1] == threads[..m - 1];
      assert keys[..m][..m - 1] == keys[..m - 1];
      assert threads[m - 1] == ThreadAt(rs, m - 1, now);
    }
  }

  /** The timeline view shows exactly one thread event per connection record. */
  lemma ThreadEventsCoverRecords(rs: seq<ThreadRecord>, now: int)
    ensures TimelineEventCount(Threads(rs, now)) == |rs|
  {
    if rs != [] {
      var keys := KeysUpTo(rs, |rs|);
      EventCountPrefix(rs, now, |keys|);
      assert Threads(rs, now)[..|keys|] == Threads(rs, now);
      assert keys[..|keys|] == keys;
      BucketsPartition(rs, |rs|);
    }
  }

  // ------------------------------------------------------------ order

  /** A key's bucket positions are non-empty exactly when the key has been seen. */
  lemma {:induction false} IndicesSeen(rs: seq<ThreadRecord>, n: nat, k: Text)
    requires n <= |rs|
    ensures BucketIndices(rs, n, k) != [] <==> k in KeysUpTo(rs, n)
    ensures BucketIndices(rs, n, k) != [] ==> BucketIndices(rs, n, k)[0] < n
  {
    if n > 0 {
      var m := n - 1;
      IndicesSeen(rs, m, k);
    }
  }

  /** Threads come out in the order in which their first record appears in the input. */
  lemma {:induction false} FirstSeenOrder(rs: seq<ThreadRecord>, n: nat)
    requires n <= |rs|
    ensures forall j :: 0 <= j < |KeysUpTo(rs, n)| ==> BucketIndices(rs, n, KeysUpTo(rs, n)[j]) != []
    ensures forall i, j :: 0 <= i < j < |KeysUpTo(rs, n)| ==>
      BucketIndices(rs, n, KeysUpTo(rs, n)[i])[0] < BucketIndices(rs, n, KeysUpTo(rs, n)[j])[0]
  {
    if n > 0 {
      var m := n - 1;
      var keys := KeysUpTo(rs, m);
      var key := ThreadKey(rs, m);
      FirstSeenOrder(rs, m);
      forall j | 0 <= j < |keys|
        ensures BucketIndices(rs, n, keys[j]) != [] && BucketIndices(rs, n, keys[j])[0] == BucketIndices(rs, m, keys[j])[0]
      {
      }
      if key !in keys {
        IndicesSeen(rs, m, key);
        assert BucketIndices(rs, n, key) == [m];
        forall j | 0 <= j < |keys|
          ensures BucketIndices(rs, m, keys[j])[0] < m
        {
          IndicesSeen(rs, m, keys[j]);
        }
      }
    }
  }

  // ------------------------------------------------------------ contents

  /** A thread's story ids: no repeats, at most two per record, and exactly the hashes of its records' titles. */
  lemma {:induction false} StoryIdsSpec(b: seq<ThreadRecord>)
    ensures Distinct(StoryIdsOf(b))
    ensures |StoryIdsOf(b)| <= 2 * |b|
    ensures forall h :: h in StoryIdsOf(b) <==>
      exists r :: r in b && (h == HashOf(r.primaryTitle) || h == HashOf(r.connectedTitle))
  {
    if b != [] {
      var init, last := b[..|b| - 1], b[|b| - 1];
      assert b == init + [last];
      StoryIdsSpec(init);
      var once := AddDistinct(StoryIdsOf(init), HashOf(last.primaryTitle));
      AddDistinctSpec(StoryIdsOf(init), HashOf(last.primaryTitle));
      AddDistinctSpec(once, HashOf(last.connectedTitle));
      forall h | h in StoryIdsOf(b)
        ensures exists r :: r in b && (h == HashOf(r.primaryTitle) || h == HashOf(r.connectedTitle))
      {
        if h !in StoryIdsOf(init) {
          assert last in b;
        }
      }
    }
  }

  lemma {:induction false} StrengthSumBounds(b: seq<ThreadRecord>)
    requires forall r :: r in b ==> 0.0 <= r.relationshipStrength <= 1.0
    ensures 0.0 <= StrengthSum(b) <= |b| as real
  {
    if b != [] {
      assert b[|b| - 1] in b;
      StrengthSumBounds(b[..|b| - 1]);
    }
  }

  /** Every record of a bucket is one of the input records, and a labelled one carries the bucket's key. */
  lemma {:induction false} BucketRecords(rs: seq<ThreadRecord>, n: nat, k: Text)
    requires n <= |rs|
    ensures forall r :: r in BucketUpTo(rs, n, k) ==> r in rs[..n]
    ensures forall r :: r in BucketUpTo(rs, n, k) && Truthy(r.connectionType) ==> r.connectionType.value == k
  {
    if n > 0 {
      var m := n - 1;
      BucketRecords(rs, m, k);
      assert rs[..n] == rs[..m] + [rs[m]];
    }
  }

  lemma AverageInUnitRange(b: seq<ThreadRecord>)
    requires b != [] && forall r :: r in b ==> 0.0 <= r.relationshipStrength <= 1.0
    ensures 0.0 <= StrengthSum(b) / (|b| as real) <= 1.0
  {
    StrengthSumBounds(b);
    var s, len := StrengthSum(b), |b| as real;
    assert s / len <= 1.0 by {
      assert s <= len * 1.0;
    }
  }

  /** With every relationship strength in [0, 1], every thread's averaged strength is in [0, 1]. */
  lemma ThreadStrengthInUnitRange(rs: seq<ThreadRecord>, now: int)
    requires forall i :: 0 <= i < |rs| ==> 0.0 <= rs[i].relationshipStrength <= 1.0
    ensures forall j :: 0 <= j < |Threads(rs, now)| ==> 0.0 <= Threads(rs, now)[j].strength <= 1.0
  {
    forall j | 0 <= j < |Threads(rs, now)|
      ensures 0.0 <= Threads(rs, now)[j].strength <= 1.0
    {
      var k := KeysUpTo(rs, |rs|)[j];
      var b := BucketUpTo(rs, |rs|, k);
      BucketSeen(rs, |rs|, k);
      BucketRecords(rs, |rs|, k);
      assert rs[..|rs|] == rs;
      AverageInUnitRange(b);
      assert Threads(rs, now)[j] == ThreadAt(rs, j, now);
    }
  }

  /**
   * Every thread has records, and a thread whose first record carries a label
   * is titled with that label, which is also its id.
   */
  lemma LabelledThreadTitle(rs: seq<ThreadRecord>, now: int, j: nat)
    requires rs != [] && j < |Threads(rs, now)|
    ensures var t := Threads(rs, now)[j]; var b := BucketUpTo(rs, |rs|, t.id);
      && b != []
      && (Truthy(b[0].connectionType) ==> t.title == t.id == b[0].connectionType.value)
  {
    var k := KeysUpTo(rs, |rs|)[j];
    assert Threads(rs, now)[j] == ThreadAt(rs, j, now);
    BucketSeen(rs, |rs|, k);
    BucketRecords(rs, |rs|, k);
    assert BucketUpTo(rs, |rs|, k)[0] in BucketUpTo(rs, |rs|, k);
  }

  // ------------------------------------------------------------ unlabelled records

  /** The keys `thread-0`, `thread-1`, ... of the first count groups of three. */
  function GroupKeys(count: nat): (keys: seq<Text>)
    ensures |keys| == count
  {
    seq(count, g requires 0 <= g < count => THREAD_KEY_PREFIX + Decimal(g))
  }

  lemma GroupKeyInjective(g: nat, h: nat)
    requires THREAD_KEY_PREFIX + Decimal(g) == THREAD_KEY_PREFIX + Decimal(h)
    ensures g == h
  {
    assert (THREAD_KEY_PREFIX + Decimal(g))[|THREAD_KEY_PREFIX|..] == Decimal(g);
    assert (THREAD_KEY_PREFIX + Decimal(h))[|THREAD_KEY_PREFIX|..] == Decimal(h);
    DecimalInjective(g, h);
  }

  /** The key of group g is new after groups 0 to g - 1, and appending it lists groups 0 to g. */
  lemma NextGroupKey(g: nat)
    ensures THREAD_KEY_PREFIX + Decimal(g) !in GroupKeys(g)
    ensures GroupKeys(g) + [THREAD_KEY_PREFIX + Decimal(g)] == GroupKeys(g + 1)
  {
    if THREAD_KEY_PREFIX + Decimal(g) in GroupKeys(g) {
      var h :| 0 <= h < g && GroupKeys(g)[h] == THREAD_KEY_PREFIX + Decimal(g);
      GroupKeyInjective(g, h);
    }
  }

  lemma GroupArithmetic(m: nat)
    ensures m % 3 == 0 ==> (m + 2) / 3 == m / 3 && (m + 3) / 3 == m / 3 + 1
    ensures m % 3 != 0 ==> m / 3 < (m + 2) / 3 == (m + 3) / 3
  {
  }

  /** Record m, in group m / 3, extends the keys of records 0 to m - 1 to those of records 0 to m. */
  lemma GroupKeyStep(m: nat)
    ensures AddDistinct(GroupKeys((m + 2) / 3), THREAD_KEY_PREFIX + Decimal(m / 3)) == GroupKeys((m + 3) / 3)
  {
    var g, key := m / 3, THREAD_KEY_PREFIX + Decimal(m / 3);
    GroupArithmetic(m);
    if m % 3 == 0 {
      NextGroupKey(g);
    } else {
      assert GroupKeys((m + 2) / 3)[g] == key;
    }
  }

  /** Without labels, record i falls in group i / 3, so n records make ceil(n / 3) groups in order. */
  lemma {:induction false} UnlabelledKeys(rs: seq<ThreadRecord>, n: nat)
    requires n <= |rs| && forall i :: 0 <= i < |rs| ==> !Truthy(rs[i].connectionType)
    ensures KeysUpTo(rs, n) == GroupKeys((n + 2) / 3)
  {
    if n > 0 {
      var m := n - 1;
      UnlabelledKeys(rs, m);
      assert !Truthy(rs[m].connectionType);
      assert KeysUpTo(rs, n) == AddDistinct(KeysUpTo(rs, m), THREAD_KEY_PREFIX + Decimal(m / 3));
      GroupKeyStep(m);
      assert n + 2 == m + 3;
    }
  }

  /**
   * Without labels, thread j is the group of records 3j to 3j + 2: its id is
   * `thread-j` while its title counts from one, `Strategic Thread j+1`.
   */
  lemma UnlabelledThreads(rs: seq<ThreadRecord>, now: int)
    requires rs != [] && forall i :: 0 <= i < |rs| ==> !Truthy(rs[i].connectionType)
    ensures |Threads(rs, now)| == (|rs| + 2) / 3
    ensures forall j :: 0 <= j < |Threads(rs, now)| ==>
      && Threads(rs, now)[j].id == THREAD_KEY_PREFIX + Decimal(j)
      && Threads(rs, now)[j].title == THREAD_TITLE_PREFIX + Decimal(j + 1)
  {
    UnlabelledKeys(rs, |rs|);
    forall j | 0 <= j < |Threads(rs, now)|
      ensures Threads(rs, now)[j].id == THREAD_KEY_PREFIX + Decimal(j)
      ensures Threads(rs, now)[j].title == THREAD_TITLE_PREFIX + Decimal(j + 1)
    {
      var k := KeysUpTo(rs, |rs|)[j];
      assert Threads(rs, now)[j] == ThreadAt(rs, j, now);
      BucketSeen(rs, |rs|, k);
      BucketIndicesSpec(rs, |rs|, k);
      var b := BucketUpTo(rs, |rs|, k);
      assert b[0] == rs[BucketIndices(rs, |rs|, k)[0]];
    }
  }
}
