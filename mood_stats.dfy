/**
 * The weekly mood aggregator: from a list of journal entries, the number
 * of entries of each of the four moods (in the order 😊, 😢, 😡, 😌)
 * dated within the window [weekAgo, now].
 *
 * The clock is not modelled: `now` and `weekAgo` are instants given by
 * the caller, and an entry's date is an instant on the same scale.
 */
module MoodStats {
  import opened Common

  datatype Entry = Entry(date: int, mood: string)

  /** The buckets of the result, in this order. */
  const Moods: seq<string> := [Happy, Sad, Angry, Calm]

  /** Both ends of the window are inclusive. */
  predicate InWindow(e: Entry, weekAgo: int, now: int)
  {
    weekAgo <= e.date <= now
  }

  /** `entries.filter(e => weekAgo <= e.date && e.date <= now)`: order kept, every copy of an in-window entry kept. */
  function Windowed(entries: seq<Entry>, weekAgo: int, now: int): (filtered: seq<Entry>)
    ensures |filtered| <= |entries|
    ensures forall k :: 0 <= k < |filtered| ==> weekAgo <= filtered[k].date <= now
    decreases entries
  {
    if entries == [] then []
    else
      (if InWindow(entries[0], weekAgo, now) then [entries[0]] else []) + Windowed(entries[1..], weekAgo, now)
  }

  /** `filtered.filter(e => e.mood === m)`: every copy of an entry with mood `m` kept, nothing else. */
  function WithMood(filtered: seq<Entry>, m: string): (matching: seq<Entry>)
    ensures |matching| <= |filtered|
    ensures forall k :: 0 <= k < |matching| ==> matching[k].mood == m
    decreases filtered
  {
    if filtered == [] then []
    else
      (if filtered[0].mood == m then [filtered[0]] else []) + WithMood(filtered[1..], m)
  }

  /** `computeWeeklyMoodCounts`: one slot per mood of `Moods`, each the length of that mood's filter over the window. */
  function ComputeWeeklyMoodCounts(entries: seq<Entry>, weekAgo: int, now: int): (counts: seq<nat>)
    ensures |counts| == |Moods| == 4
    ensures forall i :: 0 <= i < |counts| ==> counts[i] <= |Windowed(entries, weekAgo, now)| <= |entries|
  {
    var filtered := Windowed(entries, weekAgo, now);
    seq(|Moods|, i requires 0 <= i < |Moods| => |WithMood(filtered, Moods[i])|)
  }

  /** Reference definition: a single pass counting the in-window entries of mood `m`. */
  function MatchCount(entries: seq<Entry>, weekAgo: int, now: int, m: string): nat
    decreases entries
  {
    if entries == [] then 0
    else (if weekAgo <= entries[0].date <= now && entries[0].mood == m then 1 else 0)
         + MatchCount(entries[1..], weekAgo, now, m)
  }

  /** The in-window entries whose mood is none of the four buckets. */
  function Unrecognised(filtered: seq<Entry>): (ignored: seq<Entry>)
    ensures forall k :: 0 <= k < |ignored| ==> ignored[k] in filtered && ignored[k].mood !in Moods
    decreases filtered
  {
    if filtered == [] then []
    else
      (if filtered[0].mood !in Moods then [filtered[0]] else []) + Unrecognised(filtered[1..])
  }

  /** The window filter keeps every copy of each in-window entry and nothing else. */
  lemma {:induction false} WindowedMultiset(entries: seq<Entry>, weekAgo: int, now: int)
    ensures forall e :: multiset(Windowed(entries, weekAgo, now))[e]
                        == if weekAgo <= e.date <= now then multiset(entries)[e] else 0
    decreases entries
  {
    if entries != [] {
      assert entries == [entries[0]] + entries[1..];
      WindowedMultiset(entries[1..], weekAgo, now);
    }
  }

  /** The mood filter keeps every copy of each entry with mood `m` and nothing else. */
  lemma {:induction false} WithMoodMultiset(filtered: seq<Entry>, m: string)
    ensures forall e :: multiset(WithMood(filtered, m))[e] == if e.mood == m then multiset(filtered)[e] else 0
    decreases filtered
  {
    if filtered != [] {
      assert filtered == [filtered[0]] + filtered[1..];
      WithMoodMultiset(filtered[1..], m);
    }
  }

  lemma {:induction false} WindowedAppend(a: seq<Entry>, b: seq<Entry>, weekAgo: int, now: int)
    ensures Windowed(a + b, weekAgo, now) == Windowed(a, weekAgo, now) + Windowed(b, weekAgo, now)
    decreases a
  {
    if a == [] {
      assert a + b == b;
    } else {
      assert (a + b)[1..] == a[1..] + b;
      WindowedAppend(a[1..], b, weekAgo, now);
    }
  }

  lemma {:induction false} WithMoodAppend(a: seq<Entry>, b: seq<Entry>, m: string)
    ensures WithMood(a + b, m) == WithMood(a, m) + WithMood(b, m)
    decreases a
  {
    if a == [] {
      assert a + b == b;
    } else {
      assert (a + b)[1..] == a[1..] + b;
      WithMoodAppend(a[1..], b, m);
    }
  }

  /** Filtering by window and then by mood counts exactly what the single-pass reference counts. */
  lemma {:induction false} FilterThenCountIsMatchCount(entries: seq<Entry>, weekAgo: int, now: int, m: string)
    ensures |WithMood(Windowed(entries, weekAgo, now), m)| == MatchCount(entries, weekAgo, now, m)
    decreases entries
  {
    if entries != [] {
      var head := if InWindow(entries[0], weekAgo, now) then [entries[0]] else [];
      WithMoodAppend(head, Windowed(entries[1..], weekAgo, now), m);
      FilterThenCountIsMatchCount(entries[1..], weekAgo, now, m);
    }
  }

  /** Slot i is the number of entries dated in [weekAgo, now] whose mood is the i-th emoji. */
  lemma SlotIsMatchCount(entries: seq<Entry>, weekAgo: int, now: int, i: nat)
    requires i < 4
    ensures ComputeWeeklyMoodCounts(entries, weekAgo, now)[i] == MatchCount(entries, weekAgo, now, Moods[i])
  {
    FilterThenCountIsMatchCount(entries, weekAgo, now, Moods[i]);
  }

  /** Entries in the same numbers give in-window entries in the same numbers. */
  lemma WindowedSameBag(a: seq<Entry>, b: seq<Entry>, weekAgo: int, now: int)
    requires multiset(a) == multiset(b)
    ensures multiset(Windowed(a, weekAgo, now)) == multiset(Windowed(b, weekAgo, now))
  {
    WindowedMultiset(a, weekAgo, now);
    WindowedMultiset(b, weekAgo, now);
  }

  /** Entries in the same numbers have as many of each mood. */
  lemma WithMoodSameBag(s: seq<Entry>, t: seq<Entry>, m: string)
    requires multiset(s) == multiset(t)
    ensures |WithMood(s, m)| == |WithMood(t, m)|
  {
    WithMoodMultiset(s, m);
    WithMoodMultiset(t, m);
    assert multiset(WithMood(s, m)) == multiset(WithMood(t, m));
    assert |WithMood(s, m)| == |multiset(WithMood(s, m))|;
    assert |WithMood(t, m)| == |multiset(WithMood(t, m))|;
  }

  /** Reordering the entries never changes the counts. */
  lemma CountsIgnoreOrder(a: seq<Entry>, b: seq<Entry>, weekAgo: int, now: int)
    requires multiset(a) == multiset(b)
    ensures ComputeWeeklyMoodCounts(a, weekAgo, now) == ComputeWeeklyMoodCounts(b, weekAgo, now)
  {
    var wa, wb := Windowed(a, weekAgo, now), Windowed(b, weekAgo, now);
    WindowedSameBag(a, b, weekAgo, now);
    forall i | 0 <= i < 4
      ensures ComputeWeeklyMoodCounts(a, weekAgo, now)[i] == ComputeWeeklyMoodCounts(b, weekAgo, now)[i]
    {
      WithMoodSameBag(wa, wb, Moods[i]);
    }
  }

  /**
   * Inserting one entry anywhere in the list adds one to the slot of its
   * mood when it is dated within [weekAgo, now], and changes nothing else.
   */
  lemma InsertEntry(a: seq<Entry>, b: seq<Entry>, e: Entry, weekAgo: int, now: int)
    ensures forall i :: 0 <= i < 4 ==>
      ComputeWeeklyMoodCounts(a + [e] + b, weekAgo, now)[i]
        == ComputeWeeklyMoodCounts(a + b, weekAgo, now)[i]
           + (if weekAgo <= e.date <= now && e.mood == Moods[i] then 1 else 0)
  {
    var wa, we, wb := Windowed(a, weekAgo, now), Windowed([e], weekAgo, now), Windowed(b, weekAgo, now);
    WindowedAppend(a + [e], b, weekAgo, now);
    WindowedAppend(a, [e], weekAgo, now);
    WindowedAppend(a, b, weekAgo, now);
    assert [e][1..] == [];
    assert we == if InWindow(e, weekAgo, now) then [e] else [];
    forall i | 0 <= i < 4
      ensures ComputeWeeklyMoodCounts(a + [e] + b, weekAgo, now)[i]
        == ComputeWeeklyMoodCounts(a + b, weekAgo, now)[i]
           + (if weekAgo <= e.date <= now && e.mood == Moods[i] then 1 else 0)
    {
      var m := Moods[i];
      WithMoodAppend(wa + we, wb, m);
      WithMoodAppend(wa, we, m);
      WithMoodAppend(wa, wb, m);
      if we != [] {
        assert we[1..] == [];
      }
    }
  }

  /** Entries dated exactly `weekAgo` or exactly `now` are counted; one step outside either end, they are not. */
  lemma WindowBoundsInclusive(a: seq<Entry>, b: seq<Entry>, weekAgo: int, now: int, i: nat, m: string)
    requires weekAgo <= now && i < 4
    ensures ComputeWeeklyMoodCounts(a + [Entry(weekAgo, Moods[i])] + b, weekAgo, now)[i]
         == ComputeWeeklyMoodCounts(a + b, weekAgo, now)[i] + 1
    ensures ComputeWeeklyMoodCounts(a + [Entry(now, Moods[i])] + b, weekAgo, now)[i]
         == ComputeWeeklyMoodCounts(a + b, weekAgo, now)[i] + 1
    ensures ComputeWeeklyMoodCounts(a + [Entry(weekAgo - 1, m)] + b, weekAgo, now)
         == ComputeWeeklyMoodCounts(a + b, weekAgo, now)
    ensures ComputeWeeklyMoodCounts(a + [Entry(now + 1, m)] + b, weekAgo, now)
         == ComputeWeeklyMoodCounts(a + b, weekAgo, now)
  {
    InsertEntry(a, b, Entry(weekAgo, Moods[i]), weekAgo, now);
    InsertEntry(a, b, Entry(now, Moods[i]), weekAgo, now);
    InsertEntry(a, b, Entry(weekAgo - 1, m), weekAgo, now);
    InsertEntry(a, b, Entry(now + 1, m), weekAgo, now);
  }

  /** An entry whose mood is none of the four emojis is ignored, wherever and whenever it is. */
  lemma UnknownMoodIgnored(a: seq<Entry>, b: seq<Entry>, e: Entry, weekAgo: int, now: int)
    requires e.mood !in Moods
    ensures ComputeWeeklyMoodCounts(a + [e] + b, weekAgo, now) == ComputeWeeklyMoodCounts(a + b, weekAgo, now)
  {
    InsertEntry(a, b, e, weekAgo, now);
  }

  /** An unrecognised entry is never dropped by `Unrecognised`. */
  lemma {:induction false} UnrecognisedKeeps(filtered: seq<Entry>, e: Entry)
    requires e in filtered && e.mood !in Moods
    ensures Unrecognised(filtered) != []
    decreases filtered
  {
    if filtered[0] != e {
      UnrecognisedKeeps(filtered[1..], e);
    }
  }

  /** Every entry of a list lands in exactly one of the four mood filters or among the unrecognised. */
  lemma {:induction false} BucketsPartition(filtered: seq<Entry>)
    ensures |WithMood(filtered, Happy)| + |WithMood(filtered, Sad)| + |WithMood(filtered, Angry)|
            + |WithMood(filtered, Calm)| + |Unrecognised(filtered)| == |filtered|
    decreases filtered
  {
    if filtered != [] {
      BucketsPartition(filtered[1..]);
    }
  }

  /**
   * The slots add up to at most the number of in-window entries, with
   * equality exactly when every in-window entry has one of the four moods.
   */
  lemma SlotSum(entries: seq<Entry>, weekAgo: int, now: int)
    ensures var counts := ComputeWeeklyMoodCounts(entries, weekAgo, now);
            counts[0] + counts[1] + counts[2] + counts[3] <= |Windowed(entries, weekAgo, now)|
    ensures var counts := ComputeWeeklyMoodCounts(entries, weekAgo, now);
            (counts[0] + counts[1] + counts[2] + counts[3] == |Windowed(entries, weekAgo, now)|)
            <==> (forall k :: 0 <= k < |entries| && weekAgo <= entries[k].date <= now ==> entries[k].mood in Moods)
  {
    var filtered := Windowed(entries, weekAgo, now);
    var ignored := Unrecognised(filtered);
    BucketsPartition(filtered);
    WindowedMultiset(entries, weekAgo, now);
    if ignored == [] {
      forall k | 0 <= k < |entries| && weekAgo <= entries[k].date <= now
        ensures entries[k].mood in Moods
      {
        var e := entries[k];
        assert multiset(entries)[e] > 0;
        assert e in filtered;
        if e.mood !in Moods {
          UnrecognisedKeeps(filtered, e);
          assert false;
        }
      }
    } else {
      var e := ignored[0];
      assert e in filtered;
      assert multiset(filtered)[e] > 0;
      assert e in entries;
      var k :| 0 <= k < |entries| && entries[k] == e;
      assert weekAgo <= entries[k].date <= now && entries[k].mood !in Moods;
    }
  }
}
