/**
 * One tick of the liveness sweep (func.py:71-75 with func.py:208-213).
 *
 * The source loops `for sensor in self.sensors` and removes stale sensors
 * from that same list inside the loop. A Python list iterator walks an
 * index over the list as it is now, so after each removal the element
 * that slid into the removed place is never looked at. `Sweep` follows
 * that index over the shrinking list; `SweepView` says the same thing
 * over the original list, and the lemmas below are stated on it.
 *
 * No sensor changes while a sweep runs, so which sensors are stale is
 * fixed for the whole tick: the sweep functions take that set, `stale`,
 * and do not read the heap.
 */
module Liveness {
  import opened Sensors

  /** func.py:73-74: the stamp is set and older than `timeout` seconds, strictly. */
  predicate Stale(s: Sensor, now: int, timeout: int)
    reads s
  {
    s.lastUpdated.Some? && now - s.lastUpdated.value > timeout
  }

  /** The sensors of `ss` that are stale at `now`. */
  ghost function StaleAt(ss: seq<Sensor>, now: int, timeout: int): (stale: set<Sensor>)
    reads ss
    ensures forall s :: s in stale ==> s in ss
    ensures forall s :: s in ss ==> (s in stale <==> Stale(s, now, timeout))
  {
    set s | s in ss && Stale(s, now, timeout)
  }

  /** The registry after a sweep, and the sensors taken out of it, in removal order. */
  datatype SweepResult = SweepResult(kept: seq<Sensor>, removed: seq<Sensor>)

  /** The iterator at index `i` of the current list `ss`. */
  function Sweep(ss: seq<Sensor>, i: nat, stale: set<Sensor>): SweepResult
    decreases |ss| - i
  {
    if i >= |ss| then SweepResult(ss, [])
    else if ss[i] in stale then
      var r := Sweep(ss[..i] + ss[i + 1..], i + 1, stale);
      SweepResult(r.kept, [ss[i]] + r.removed)
    else Sweep(ss, i + 1, stale)
  }

  /**
   * The same tick seen on the original list: a sensor that is looked at
   * and found stale is removed, and the one after it is kept unexamined.
   */
  function SweepView(t: seq<Sensor>, stale: set<Sensor>): SweepResult
  {
    if t == [] then SweepResult([], [])
    else if t[0] in stale then
      if |t| == 1 then SweepResult([], [t[0]])
      else
        var r := SweepView(t[2..], stale);
        SweepResult([t[1]] + r.kept, [t[0]] + r.removed)
    else
      var r := SweepView(t[1..], stale);
      SweepResult([t[0]] + r.kept, r.removed)
  }

  /** The sweep over the shrinking list leaves the part before the index alone. */
  lemma {:induction false} SweepIsView(ss: seq<Sensor>, i: nat, stale: set<Sensor>)
    requires i <= |ss|
    ensures Sweep(ss, i, stale) ==
      SweepResult(ss[..i] + SweepView(ss[i..], stale).kept, SweepView(ss[i..], stale).removed)
    decreases |ss| - i
  {
    if i == |ss| {
      assert ss[..i] == ss && ss[i..] == [];
    } else if ss[i] in stale {
      if i + 1 < |ss| {
        SweepIsView(ss[..i] + ss[i + 1..], i + 1, stale);
        DropViewStep(ss, i, stale);
      } else {
        assert ss[..i] + ss[i + 1..] == ss[..i] && ss[i..] == [ss[i]];
      }
    } else {
      SweepIsView(ss, i + 1, stale);
      KeepViewStep(ss, i, stale);
    }
  }

  /** A removal at `i` lets the iterator skip the sensor that slides into place `i`. */
  lemma DropViewStep(ss: seq<Sensor>, i: nat, stale: set<Sensor>)
    requires i + 1 < |ss| && ss[i] in stale
    requires var ss' := ss[..i] + ss[i + 1..];
      Sweep(ss', i + 1, stale) ==
      SweepResult(ss'[..i + 1] + SweepView(ss'[i + 1..], stale).kept, SweepView(ss'[i + 1..], stale).removed)
    ensures Sweep(ss, i, stale) ==
      SweepResult(ss[..i] + SweepView(ss[i..], stale).kept, SweepView(ss[i..], stale).removed)
  {
    var ss' := ss[..i] + ss[i + 1..];
    assert ss'[..i + 1] == ss[..i] + [ss[i + 1]];
    assert ss'[i + 1..] == ss[i..][2..];
  }

  /** A sensor that is kept at `i` joins the part before the iterator. */
  lemma KeepViewStep(ss: seq<Sensor>, i: nat, stale: set<Sensor>)
    requires i < |ss| && ss[i] !in stale
    requires Sweep(ss, i + 1, stale) ==
      SweepResult(ss[..i + 1] + SweepView(ss[i + 1..], stale).kept, SweepView(ss[i + 1..], stale).removed)
    ensures Sweep(ss, i, stale) ==
      SweepResult(ss[..i] + SweepView(ss[i..], stale).kept, SweepView(ss[i..], stale).removed)
  {
    assert ss[..i + 1] == ss[..i] + [ss[i]];
    assert ss[i + 1..] == ss[i..][1..];
  }

  /** Every sensor is either kept or removed, exactly once. */
  lemma {:induction false} SweepPartitions(t: seq<Sensor>, stale: set<Sensor>)
    ensures multiset(SweepView(t, stale).kept) + multiset(SweepView(t, stale).removed) == multiset(t)
  {
    if t != [] {
      if t[0] in stale {
        if |t| > 1 {
          var r := SweepView(t[2..], stale);
          SweepPartitions(t[2..], stale);
          PartitionPair(t, r.kept, r.removed);
        } else {
          assert t == [t[0]];
        }
      } else {
        var r := SweepView(t[1..], stale);
        SweepPartitions(t[1..], stale);
        PartitionOne(t, r.kept, r.removed);
      }
    }
  }

  /** Putting back the first sensor, kept. */
  lemma PartitionOne(t: seq<Sensor>, kept: seq<Sensor>, removed: seq<Sensor>)
    requires t != [] && multiset(kept) + multiset(removed) == multiset(t[1..])
    ensures multiset([t[0]] + kept) + multiset(removed) == multiset(t)
  {
    MultisetFront(t);
    assert multiset([t[0]] + kept) == multiset{t[0]} + multiset(kept);
  }

  /** Putting back the first two sensors, the first removed and the second kept. */
  lemma PartitionPair(t: seq<Sensor>, kept: seq<Sensor>, removed: seq<Sensor>)
    requires |t| > 1 && multiset(kept) + multiset(removed) == multiset(t[2..])
    ensures multiset([t[1]] + kept) + multiset([t[0]] + removed) == multiset(t)
  {
    MultisetFront(t);
    MultisetFront(t[1..]);
    assert t[1..][1..] == t[2..];
    assert multiset([t[1]] + kept) == multiset{t[1]} + multiset(kept);
    assert multiset([t[0]] + removed) == multiset{t[0]} + multiset(removed);
  }

  lemma MultisetFront(t: seq<Sensor>)
    requires t != []
    ensures multiset(t) == multiset{t[0]} + multiset(t[1..])
  {
    assert t == [t[0]] + t[1..];
  }

  lemma MultisetBack(t: seq<Sensor>)
    requires t != []
    ensures multiset(t) == multiset(t[..|t| - 1]) + multiset{t[|t| - 1]}
  {
    assert t == t[..|t| - 1] + [t[|t| - 1]];
  }

  /** Every removed sensor was stale. */
  lemma {:induction false} SweepRemovesOnlyStale(t: seq<Sensor>, stale: set<Sensor>)
    ensures forall k :: 0 <= k < |SweepView(t, stale).removed| ==> SweepView(t, stale).removed[k] in stale
  {
    if t != [] {
      if t[0] in stale {
        if |t| > 1 { SweepRemovesOnlyStale(t[2..], stale); }
      } else {
        SweepRemovesOnlyStale(t[1..], stale);
      }
    }
  }

  /**
   * A sensor with no stamp, or updated within the timeout, is never
   * removed: it is among the kept sensors.
   */
  lemma FreshSensorsKept(t: seq<Sensor>, stale: set<Sensor>, s: Sensor)
    requires s in t && s !in stale
    ensures s in SweepView(t, stale).kept && s !in SweepView(t, stale).removed
  {
    SweepPartitions(t, stale);
    SweepRemovesOnlyStale(t, stale);
    assert s in multiset(t);
  }

  /** `a` is `b` with some elements left out, the rest in their order. */
  ghost predicate Subsequence(a: seq<Sensor>, b: seq<Sensor>)
    decreases |b|
  {
    if b == [] then a == []
    else (a != [] && a[0] == b[0] && Subsequence(a[1..], b[1..])) || Subsequence(a, b[1..])
  }

  /** The survivors keep their relative order, and so do the removed sensors. */
  lemma {:induction false} SweepKeepsOrder(t: seq<Sensor>, stale: set<Sensor>)
    ensures Subsequence(SweepView(t, stale).kept, t)
    ensures Subsequence(SweepView(t, stale).removed, t)
  {
    if t != [] {
      var r := SweepView(t, stale);
      if t[0] in stale {
        if |t| > 1 {
          var r' := SweepView(t[2..], stale);
          SweepKeepsOrder(t[2..], stale);
          assert t[1..][1..] == t[2..];
          assert r.kept[1..] == r'.kept;
          assert Subsequence(r.kept, t[1..]);
          assert r.removed[1..] == r'.removed;
          assert Subsequence(r'.removed, t[1..]);
        } else {
          assert Subsequence(r.kept, t[1..]);
          assert Subsequence(r.removed[1..], t[1..]);
        }
      } else {
        var r' := SweepView(t[1..], stale);
        SweepKeepsOrder(t[1..], stale);
        assert r.kept[1..] == r'.kept;
      }
    }
  }

  /**
   * The skipped neighbour: of two stale sensors next to each other, the
   * first is removed and the second survives the tick.
   */
  lemma StaleNeighbourSurvives(a: Sensor, b: Sensor, stale: set<Sensor>)
    requires a in stale && b in stale
    ensures SweepView([a, b], stale) == SweepResult([b], [a])
  {
    assert [a, b][2..] == [];
  }

  /** The sensors of `ss` that are not stale, in order. */
  function NotStale(ss: seq<Sensor>, stale: set<Sensor>): seq<Sensor>
  {
    if ss == [] then []
    else NotStale(ss[..|ss| - 1], stale) + (if ss[|ss| - 1] in stale then [] else [ss[|ss| - 1]])
  }

  /** The stale sensors of `ss`, in order. */
  function StaleOnes(ss: seq<Sensor>, stale: set<Sensor>): seq<Sensor>
  {
    if ss == [] then []
    else StaleOnes(ss[..|ss| - 1], stale) + (if ss[|ss| - 1] in stale then [ss[|ss| - 1]] else [])
  }

  /** A sensor that is not stale moves from the unvisited rest to the survivors. */
  lemma KeepStep(ss: seq<Sensor>, i: nat, stale: set<Sensor>)
    requires i < |ss| && ss[i] !in stale
    ensures NotStale(ss[..i + 1], stale) + ss[i + 1..] == NotStale(ss[..i], stale) + ss[i..]
    ensures StaleOnes(ss[..i + 1], stale) == StaleOnes(ss[..i], stale)
  {
    assert ss[..i + 1][..i] == ss[..i];
    assert ss[i..] == [ss[i]] + ss[i + 1..];
    assert StaleOnes(ss[..i], stale) + [] == StaleOnes(ss[..i], stale);
  }

  /** A stale sensor leaves the unvisited rest and joins the removed ones. */
  lemma DropStep(ss: seq<Sensor>, i: nat, stale: set<Sensor>)
    requires i < |ss| && ss[i] in stale
    ensures NotStale(ss[..i], stale) + ss[i..] == NotStale(ss[..i + 1], stale) + ([ss[i]] + ss[i + 1..])
    ensures StaleOnes(ss[..i + 1], stale) == StaleOnes(ss[..i], stale) + [ss[i]]
  {
    assert ss[..i + 1][..i] == ss[..i];
    assert ss[i..] == [ss[i]] + ss[i + 1..];
    assert NotStale(ss[..i], stale) + [] == NotStale(ss[..i], stale);
  }

  /** The survivors are sensors of `ss`, and none is stale. */
  lemma {:induction false} NotStaleFresh(ss: seq<Sensor>, stale: set<Sensor>)
    ensures forall k :: 0 <= k < |NotStale(ss, stale)| ==>
      NotStale(ss, stale)[k] in ss && NotStale(ss, stale)[k] !in stale
  {
    if ss != [] {
      NotStaleFresh(ss[..|ss| - 1], stale);
      assert ss == ss[..|ss| - 1] + [ss[|ss| - 1]];
    }
  }

  /** The removed sensors are sensors of `ss`, and every one is stale. */
  lemma {:induction false} StaleOnesStale(ss: seq<Sensor>, stale: set<Sensor>)
    ensures forall k :: 0 <= k < |StaleOnes(ss, stale)| ==>
      StaleOnes(ss, stale)[k] in ss && StaleOnes(ss, stale)[k] in stale
  {
    if ss != [] {
      StaleOnesStale(ss[..|ss| - 1], stale);
      assert ss == ss[..|ss| - 1] + [ss[|ss| - 1]];
    }
  }

  /** The two filters split the list: every sensor lands in exactly one of them. */
  lemma {:induction false} FiltersPartition(ss: seq<Sensor>, stale: set<Sensor>)
    ensures multiset(NotStale(ss, stale)) + multiset(StaleOnes(ss, stale)) == multiset(ss)
  {
    if ss != [] {
      var init, last := ss[..|ss| - 1], ss[|ss| - 1];
      FiltersPartition(init, stale);
      MultisetBack(ss);
      var kept, gone := NotStale(init, stale), StaleOnes(init, stale);
      if last in stale {
        assert NotStale(ss, stale) == kept + [] == kept;
        assert multiset(gone + [last]) == multiset(gone) + multiset{last};
      } else {
        assert StaleOnes(ss, stale) == gone + [] == gone;
        assert multiset(kept + [last]) == multiset(kept) + multiset{last};
      }
    }
  }
}
