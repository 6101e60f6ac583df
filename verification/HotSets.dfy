/** Hot-set segments: their allocation from a shuffled list of objects, and partial churn from epoch to epoch. */
module HotSets {
  import opened Model
  import opened Totals
  import opened Workloads

  /** The hot objects that all nodes share, and those of each node alone. */
  datatype Segments = Segments(shared: seq<nat>, private: seq<seq<nat>>)

  function All(s: Segments): seq<seq<nat>> { [s.shared] + s.private }

  function SetOf(segment: seq<nat>): set<nat> { set o | o in segment }

  predicate Apart(a: seq<nat>, b: seq<nat>) { SetOf(a) !! SetOf(b) }

  /** No object is listed twice, within a segment or across segments. */
  predicate NoRepeats(all: seq<seq<nat>>) {
    (forall i :: 0 <= i < |all| ==> Unique(all[i])) &&
    (forall i, j :: 0 <= i < j < |all| ==> Apart(all[i], all[j]))
  }

  function Union(all: seq<seq<nat>>): set<nat> { set i, o | 0 <= i < |all| && o in all[i] :: o }

  /* ---- Picking objects ---- */

  function ObjectAt(objects: seq<nat>, index: nat): nat
    requires objects != []
  {
    objects[index % |objects|]
  }

  /** A contiguous run of the list, wrapping around. */
  method NextObjects(objects: seq<nat>, cursor: nat, count: nat) returns (selected: seq<nat>, next: nat)
    requires objects != []
    ensures |selected| == count && next == cursor + count
    ensures forall i :: 0 <= i < count ==> selected[i] == ObjectAt(objects, cursor + i)
  {
    selected := [];
    for i := 0 to count
      invariant |selected| == i && forall j :: 0 <= j < i ==> selected[j] == ObjectAt(objects, cursor + j)
    {
      selected := selected + [ObjectAt(objects, cursor + i)];
    }
    next := cursor + count;
  }

  /** As many consecutive positions as there are objects reach every object. */
  lemma ReachesAll(n: nat, cursor: nat, i: nat)
    requires i < n
    ensures exists k :: cursor <= k < cursor + n && k % n == i
  {
    var q, r := cursor / n, cursor % n;
    var k := if i >= r then cursor + (i - r) else cursor + (i + n - r);
    if i >= r {
      Division(k, n, q, i);
    } else {
      OneMoreGroup(q, n);
      Division(k, n, q + 1, i);
    }
  }

  predicate Taken(o: nat, used: set<nat>, disallowed: set<nat>) { o in used || o in disallowed }

  /** The first object from the cursor on that is not taken; there is none exactly when every object is taken. */
  method NextUnusedObject(objects: seq<nat>, cursor: nat, used: set<nat>, disallowed: set<nat>)
    returns (found: Option<nat>, next: nat)
    ensures found.None? <==> forall o :: o in objects ==> Taken(o, used, disallowed)
    ensures found.Some? ==>
              && cursor < next <= cursor + |objects| && found.value == ObjectAt(objects, next - 1)
              && !Taken(found.value, used, disallowed)
              && forall k :: cursor <= k < next - 1 ==> Taken(ObjectAt(objects, k), used, disallowed)
  {
    next := cursor;
    for attempts := 0 to |objects|
      invariant next == cursor + attempts
      invariant forall k :: cursor <= k < next ==> Taken(ObjectAt(objects, k), used, disallowed)
    {
      var candidate := ObjectAt(objects, next);
      next := next + 1;
      if !Taken(candidate, used, disallowed) {
        assert candidate in objects;
        return Some(candidate), next;
      }
    }
    forall o | o in objects ensures Taken(o, used, disallowed) {
      var i :| 0 <= i < |objects| && objects[i] == o;
      ReachesAll(|objects|, cursor, i);
      var k :| cursor <= k < cursor + |objects| && k % |objects| == i;
      assert ObjectAt(objects, k) == o;
    }
    found := None;
  }

  /** If every object is taken, then no fewer are taken than there are objects. */
  lemma AllTaken(objects: seq<nat>, used: set<nat>, disallowed: set<nat>)
    requires forall o :: o in objects ==> Taken(o, used, disallowed)
    ensures |used + disallowed| >= |SetOf(objects)|
  {
    Contained(SetOf(objects), used + disallowed);
  }

  lemma {:induction false} Contained(a: set<nat>, b: set<nat>)
    requires a <= b
    ensures |a| <= |b|
    decreases |a|
  {
    if a != {} {
      var o :| o in a;
      Contained(a - {o}, b - {o});
    }
  }

  /* ---- Filling a segment ---- */

  /** The segment has been extended by distinct objects that were not taken. */
  predicate Extended(segment: seq<nat>, longer: seq<nat>, objects: seq<nat>, used: set<nat>, disallowed: set<nat>) {
    && |segment| <= |longer| && longer[..|segment|] == segment && Unique(longer[|segment|..])
    && forall i :: |segment| <= i < |longer| ==> longer[i] in objects && !Taken(longer[i], used, disallowed)
  }

  lemma ExtendByOne(segment: seq<nat>, longer: seq<nat>, objects: seq<nat>, used: set<nat>, disallowed: set<nat>,
                    o: nat)
    requires Extended(segment, longer, objects, used, disallowed) && o in objects
    requires !Taken(o, used + SetOf(longer[|segment|..]), disallowed)
    ensures Extended(segment, longer + [o], objects, used, disallowed)
    ensures SetOf((longer + [o])[|segment|..]) == SetOf(longer[|segment|..]) + {o}
  {
    var new_ := longer[|segment|..];
    assert (longer + [o])[|segment|..] == new_ + [o];
    assert o !in new_;
    assert (longer + [o])[..|segment|] == segment;
  }

  lemma GrowsByOne(used: set<nat>, disallowed: set<nat>, o: nat)
    ensures |used + {o} + disallowed| <= |used + disallowed| + 1
  {
    assert used + {o} + disallowed == (used + disallowed) + {o};
  }

  /** The next object of the list, from the cursor on, that is not taken. */
  predicate IsNext(objects: seq<nat>, cursor: nat, taken: set<nat>, o: nat, next: nat) {
    && objects != [] && cursor < next && o == ObjectAt(objects, next - 1) && o !in taken
    && forall k :: cursor <= k < next - 1 ==> ObjectAt(objects, k) in taken
  }

  /** The next objects of the list that are not taken, one after the other, each taken once it has been picked. */
  ghost predicate Picked(objects: seq<nat>, cursor: nat, added: seq<nat>, next: nat, taken: set<nat>)
    decreases |added|
  {
    if added == [] then next == cursor
    else
      var n := |added| - 1;
      exists mid: nat :: Picked(objects, cursor, added[..n], mid, taken) &&
                         IsNext(objects, mid, taken + SetOf(added[..n]), added[n], next)
  }

  lemma PickedOne(objects: seq<nat>, cursor: nat, added: seq<nat>, mid: nat, taken: set<nat>, o: nat, next: nat)
    requires Picked(objects, cursor, added, mid, taken) && IsNext(objects, mid, taken + SetOf(added), o, next)
    ensures Picked(objects, cursor, added + [o], next, taken)
  {
    hide IsNext, SetOf;
    var all, n := added + [o], |added|;
    assert all[..n] == added && all[n] == o;
    assert Picked(objects, cursor, all[..n], mid, taken) &&
           IsNext(objects, mid, taken + SetOf(all[..n]), all[n], next);
  }

  /** Picking goes on where it left off. */
  lemma {:induction false} PickedMore(objects: seq<nat>, cursor: nat, a: seq<nat>, mid: nat, taken: set<nat>,
                                      b: seq<nat>, next: nat)
    requires Picked(objects, cursor, a, mid, taken) && Picked(objects, mid, b, next, taken + SetOf(a))
    ensures Picked(objects, cursor, a + b, next, taken)
    decreases |b|
  {
    if b == [] {
      assert a + b == a;
    } else {
      var n := |b| - 1;
      var here: nat :| Picked(objects, mid, b[..n], here, taken + SetOf(a)) &&
                       IsNext(objects, here, taken + SetOf(a) + SetOf(b[..n]), b[n], next);
      PickedMore(objects, cursor, a, mid, taken, b[..n], here);
      assert taken + SetOf(a) + SetOf(b[..n]) == taken + SetOf(a + b[..n]);
      PickedOne(objects, cursor, a + b[..n], here, taken, b[n], next);
      assert a + b == a + b[..n] + [b[n]];
    }
  }

  lemma NothingPicked(objects: seq<nat>, cursor: nat, taken: set<nat>)
    ensures Picked(objects, cursor, [], cursor, taken)
  {
  }

  /** What `NextUnusedObject` finds is picked. */
  lemma FoundIsPicked(objects: seq<nat>, cursor: nat, segment: seq<nat>, longer: seq<nat>, mid: nat, used: set<nat>,
                      nowUsed: set<nat>, disallowed: set<nat>, o: nat, next: nat)
    requires |segment| <= |longer| && nowUsed == used + SetOf(longer[|segment|..])
    requires Picked(objects, cursor, longer[|segment|..], mid, used + disallowed)
    requires objects != [] && mid < next && o == ObjectAt(objects, next - 1) && !Taken(o, nowUsed, disallowed)
    requires forall k :: mid <= k < next - 1 ==> Taken(ObjectAt(objects, k), nowUsed, disallowed)
    ensures Picked(objects, cursor, (longer + [o])[|segment|..], next, used + disallowed)
  {
    var added := longer[|segment|..];
    assert used + disallowed + SetOf(added) == nowUsed + disallowed;
    PickedOne(objects, cursor, added, mid, used + disallowed, o, next);
    assert (longer + [o])[|segment|..] == added + [o];
  }

  /** The segment has been extended so far by the next objects of the list, which are used now. */
  ghost predicate Appending(segment: seq<nat>, longer: seq<nat>, objects: seq<nat>, cursor: nat, next: nat,
                            used: set<nat>, nowUsed: set<nat>, disallowed: set<nat>)
  {
    && Extended(segment, longer, objects, used, disallowed)
    && nowUsed == used + SetOf(longer[|segment|..])
    && Picked(objects, cursor, longer[|segment|..], next, used + disallowed)
    && |nowUsed + disallowed| <= |used + disallowed| + (|longer| - |segment|)
  }

  lemma AppendingStarts(segment: seq<nat>, objects: seq<nat>, cursor: nat, used: set<nat>, disallowed: set<nat>)
    ensures Appending(segment, segment, objects, cursor, cursor, used, used, disallowed)
  {
    NothingPicked(objects, cursor, used + disallowed);
    assert segment[|segment|..] == [] && used + SetOf([]) == used;
  }

  lemma AppendingMore(segment: seq<nat>, longer: seq<nat>, objects: seq<nat>, cursor: nat, mid: nat, used: set<nat>,
                      nowUsed: set<nat>, disallowed: set<nat>, o: nat, next: nat)
    requires Appending(segment, longer, objects, cursor, mid, used, nowUsed, disallowed)
    requires objects != [] && mid < next && o == ObjectAt(objects, next - 1) && !Taken(o, nowUsed, disallowed)
    requires forall k :: mid <= k < next - 1 ==> Taken(ObjectAt(objects, k), nowUsed, disallowed)
    ensures Appending(segment, longer + [o], objects, cursor, next, used, nowUsed + {o}, disallowed)
  {
    hide Picked, IsNext, Extended, SetOf;
    AppendingEnds(segment, longer, objects, cursor, mid, used, nowUsed, disallowed);
    assert o in objects;
    ExtendByOne(segment, longer, objects, used, disallowed, o);
    GrowsByOne(nowUsed, disallowed, o);
    FoundIsPicked(objects, cursor, segment, longer, mid, used, nowUsed, disallowed, o, next);
  }

  lemma AppendingEnds(segment: seq<nat>, longer: seq<nat>, objects: seq<nat>, cursor: nat, next: nat, used: set<nat>,
                      nowUsed: set<nat>, disallowed: set<nat>)
    requires Appending(segment, longer, objects, cursor, next, used, nowUsed, disallowed)
    ensures Extended(segment, longer, objects, used, disallowed) && |segment| <= |longer|
    ensures nowUsed == used + SetOf(longer[|segment|..])
    ensures Picked(objects, cursor, longer[|segment|..], next, used + disallowed)
    ensures |nowUsed + disallowed| <= |used + disallowed| + (|longer| - |segment|)
  {
  }

  method AppendReplacements(segment: seq<nat>, finalSize: nat, objects: seq<nat>, cursor: nat, used: set<nat>,
                            disallowed: set<nat>) returns (ok: bool, longer: seq<nat>, next: nat, nowUsed: set<nat>)
    ensures Extended(segment, longer, objects, used, disallowed) && |segment| <= |longer|
    ensures nowUsed == used + SetOf(longer[|segment|..])
    ensures ok ==> Picked(objects, cursor, longer[|segment|..], next, used + disallowed)
    ensures ok ==> |longer| == (if |segment| < finalSize then finalSize else |segment|)
    ensures |segment| <= finalSize && |used + disallowed| + (finalSize - |segment|) <= |SetOf(objects)| ==> ok
  {
    hide Appending, Extended, Picked, IsNext, Taken, SetOf;
    longer, next, nowUsed := segment, cursor, used;
    AppendingStarts(segment, objects, cursor, used, disallowed);
    while |longer| < finalSize
      invariant Appending(segment, longer, objects, cursor, next, used, nowUsed, disallowed)
      invariant |longer| <= (if |segment| < finalSize then finalSize else |segment|)
    {
      var replacement, mid;
      mid := next;
      replacement, next := NextUnusedObject(objects, mid, nowUsed, disallowed);
      if replacement.None? {
        AllTaken(objects, nowUsed, disallowed);
        AppendingEnds(segment, longer, objects, cursor, mid, used, nowUsed, disallowed);
        return false, longer, next, nowUsed;
      }
      AppendingMore(segment, longer, objects, cursor, mid, used, nowUsed, disallowed, replacement.value, next);
      longer := longer + [replacement.value];
      nowUsed := nowUsed + {replacement.value};
    }
    AppendingEnds(segment, longer, objects, cursor, next, used, nowUsed, disallowed);
    ok := true;
  }

  /* ---- Partial churn ---- */

  function KeepPrefix(segment: seq<nat>, churn: real): seq<nat> {
    segment[..|segment| - ReplacementCount(|segment|, churn)]
  }

  function KeepAll(all: seq<seq<nat>>, churn: real): (kept: seq<seq<nat>>)
    ensures |kept| == |all|
  {
    seq(|all|, i requires 0 <= i < |all| => KeepPrefix(all[i], churn))
  }

  /** A segment keeps its size and its prefix; what replaces the rest was not hot before. */
  predicate SegmentChurned(before: seq<nat>, after: seq<nat>, objects: seq<nat>, hot: set<nat>, churn: real) {
    |after| == |before| && KeepPrefix(before, churn) == after[..|KeepPrefix(before, churn)|] &&
    forall i :: |KeepPrefix(before, churn)| <= i < |after| ==> after[i] in objects && after[i] !in hot
  }

  predicate AllChurned(before: seq<seq<nat>>, after: seq<seq<nat>>, objects: seq<nat>, churn: real) {
    |after| == |before| &&
    forall i :: 0 <= i < |before| ==> SegmentChurned(before[i], after[i], objects, Union(before), churn)
  }

  ghost function Replacing(churn: real): seq<nat> -> nat {
    (segment: seq<nat>) => ReplacementCount(|segment|, churn)
  }

  lemma KeptNoRepeats(all: seq<seq<nat>>, churn: real)
    requires NoRepeats(all)
    ensures NoRepeats(KeepAll(all, churn)) && Union(KeepAll(all, churn)) <= Union(all)
  {
    var kept := KeepAll(all, churn);
    forall i, j | 0 <= i < j < |kept| ensures Apart(kept[i], kept[j]) {
      assert Apart(all[i], all[j]);
      assert SetOf(kept[i]) <= SetOf(all[i]) && SetOf(kept[j]) <= SetOf(all[j]);
    }
    forall o | o in Union(kept) ensures o in Union(all) {
      var i :| 0 <= i < |kept| && o in kept[i];
      assert o in all[i];
    }
  }

  /** One segment is filled with objects that no segment lists. */
  lemma FillOne(all: seq<seq<nat>>, k: nat, longer: seq<nat>, objects: seq<nat>, disallowed: set<nat>)
    requires NoRepeats(all) && k < |all| && Extended(all[k], longer, objects, Union(all), disallowed)
    ensures NoRepeats(all[k := longer])
    ensures Union(all[k := longer]) == Union(all) + SetOf(longer[|all[k]|..])
  {
    var all', added := all[k := longer], longer[|all[k]|..];
    assert longer == all[k] + added;
    assert forall o :: o in added ==> o !in Union(all);
    forall i, j | 0 <= i < j < |all'| ensures Apart(all'[i], all'[j]) {
      assert Apart(all[i], all[j]);
      ListedInUnion(all, i);
      ListedInUnion(all, j);
    }
    FillUnique(all[k], added, Union(all));
    forall o | o in Union(all') ensures o in Union(all) + SetOf(added) {
      var i :| 0 <= i < |all'| && o in all'[i];
      assert i != k ==> o in all[i];
    }
    forall o | o in Union(all) + SetOf(added) ensures o in Union(all') {
      if o in added {
        assert o in all'[k];
      } else {
        var i :| 0 <= i < |all| && o in all[i];
        assert o in all'[i];
      }
    }
  }

  lemma ListedInUnion(all: seq<seq<nat>>, i: nat)
    requires i < |all|
    ensures SetOf(all[i]) <= Union(all)
  {
  }

  lemma FillUnique(segment: seq<nat>, added: seq<nat>, union: set<nat>)
    requires Unique(segment) && Unique(added) && SetOf(segment) <= union
    requires forall o :: o in added ==> o !in union
    ensures Unique(segment + added)
  {
    var all := segment + added;
    forall i, j | 0 <= i < j < |all| ensures all[i] != all[j] {
      if i < |segment| <= j {
        assert all[i] in SetOf(segment) && all[j] in added;
      }
    }
  }

  lemma FilledIsChurned(before: seq<nat>, longer: seq<nat>, objects: seq<nat>, used: set<nat>, hot: set<nat>,
                        churn: real)
    requires Extended(KeepPrefix(before, churn), longer, objects, used, hot) && |longer| == |before|
    ensures SegmentChurned(before, longer, objects, hot, churn)
  {
  }

  /** The first `k` segments have been filled; the others still are the kept prefixes. */
  ghost predicate Filling(before: seq<seq<nat>>, current: seq<seq<nat>>, k: nat, used: set<nat>, objects: seq<nat>,
                          churn: real)
  {
    && |current| == |before| && k <= |before| && NoRepeats(current) && used == Union(current)
    && (forall j :: 0 <= j < k ==> SegmentChurned(before[j], current[j], objects, Union(before), churn))
    && (forall j :: k <= j < |before| ==> current[j] == KeepPrefix(before[j], churn))
    && |used + Union(before)| <= |Union(before)| + SumBy(Replacing(churn), before[..k])
  }

  lemma FillingStarts(before: seq<seq<nat>>, used: set<nat>, objects: seq<nat>, churn: real)
    requires NoRepeats(before) && used == Union(KeepAll(before, churn))
    ensures Filling(before, KeepAll(before, churn), 0, used, objects, churn)
  {
    KeptNoRepeats(before, churn);
    assert used + Union(before) == Union(before);
  }

  /** A filled segment adds at most as many objects as it replaces. */
  lemma FillCount(before: seq<seq<nat>>, k: nat, used: set<nat>, churn: real, added: seq<nat>)
    requires k < |before| && |added| == ReplacementCount(|before[k]|, churn)
    requires |used + Union(before)| <= |Union(before)| + SumBy(Replacing(churn), before[..k])
    ensures |used + SetOf(added) + Union(before)| <= |Union(before)| + SumBy(Replacing(churn), before[..k + 1])
  {
    hide Union, ReplacementCount;
    assert before[..k + 1] == before[..k] + [before[k]];
    SumByAppend(Replacing(churn), before[..k], before[k]);
    SetOfCount(added);
    assert used + SetOf(added) + Union(before) == (used + Union(before)) + SetOf(added);
  }

  lemma LongerPart(segment: seq<nat>, longer: seq<nat>, objects: seq<nat>, used: set<nat>, disallowed: set<nat>)
    requires Extended(segment, longer, objects, used, disallowed)
    ensures |segment| <= |longer| && |longer[|segment|..]| == |longer| - |segment|
  {
  }

  lemma FillStep(before: seq<seq<nat>>, current: seq<seq<nat>>, k: nat, used: set<nat>, objects: seq<nat>, churn: real,
                 longer: seq<nat>, nowUsed: set<nat>)
    requires Filling(before, current, k, used, objects, churn) && k < |before|
    requires Extended(current[k], longer, objects, used, Union(before)) && |longer| == |before[k]|
    requires nowUsed == used + SetOf(longer[|current[k]|..])
    ensures Filling(before, current[k := longer], k + 1, nowUsed, objects, churn)
  {
    hide NoRepeats, Union, SegmentChurned, SumBy, SetOf;
    LongerPart(current[k], longer, objects, used, Union(before));
    FillOne(current, k, longer, objects, Union(before));
    FilledIsChurned(before[k], longer, objects, used, Union(before), churn);
    FillCount(before, k, used, churn, longer[|current[k]|..]);
    hide Extended, ReplacementCount, KeepPrefix;
  }

  lemma {:induction false} SetOfCount(s: seq<nat>)
    ensures |SetOf(s)| <= |s|
  {
    if s != [] {
      var n := |s| - 1;
      SetOfCount(s[..n]);
      assert s == s[..n] + [s[n]];
      assert SetOf(s) == SetOf(s[..n]) + {s[n]};
    }
  }

  lemma SumByPrefix(f: seq<nat> -> nat, s: seq<seq<nat>>, k: nat)
    requires k <= |s|
    ensures SumBy(f, s[..k]) <= SumBy(f, s)
  {
    SumByConcat(f, s[..k], s[k..]);
    assert s[..k] + s[k..] == s;
  }

  /** There are enough objects for every replacement. */
  ghost predicate Enough(before: seq<seq<nat>>, objects: seq<nat>, churn: real) {
    |Union(before)| + SumBy(Replacing(churn), before) <= |SetOf(objects)|
  }

  lemma RoomToFill(before: seq<seq<nat>>, current: seq<seq<nat>>, k: nat, used: set<nat>, objects: seq<nat>,
                   churn: real)
    requires Filling(before, current, k, used, objects, churn) && k < |before| && Enough(before, objects, churn)
    ensures |current[k]| <= |before[k]|
    ensures |used + Union(before)| + (|before[k]| - |current[k]|) <= |SetOf(objects)|
  {
    hide NoRepeats, Union, SegmentChurned, SetOf;
    assert before[..k + 1] == before[..k] + [before[k]];
    SumByAppend(Replacing(churn), before[..k], before[k]);
    SumByPrefix(Replacing(churn), before, k + 1);
  }

  lemma FillingEnds(before: seq<seq<nat>>, current: seq<seq<nat>>, used: set<nat>, objects: seq<nat>, churn: real)
    requires Filling(before, current, |before|, used, objects, churn)
    ensures NoRepeats(current) && AllChurned(before, current, objects, churn)
  {
  }

  lemma RoomIfEnough(before: seq<seq<nat>>, current: seq<seq<nat>>, k: nat, used: set<nat>, objects: seq<nat>,
                     churn: real)
    requires Filling(before, current, k, used, objects, churn) && k < |before|
    ensures current[k] == KeepPrefix(before[k], churn)
    ensures Enough(before, objects, churn) ==>
              |used + Union(before)| + (|before[k]| - |current[k]|) <= |SetOf(objects)|
  {
    if Enough(before, objects, churn) {
      RoomToFill(before, current, k, used, objects, churn);
    }
  }

  lemma UnionNext(all: seq<seq<nat>>, segment: seq<nat>)
    ensures Union(all + [segment]) == Union(all) + SetOf(segment)
  {
    var longer := all + [segment];
    forall o | o in Union(all) ensures o in Union(longer) {
      var i :| 0 <= i < |all| && o in all[i];
      assert o in longer[i];
    }
    forall o | o in segment ensures o in Union(longer) {
      assert o in longer[|all|];
    }
    forall o | o in Union(longer) ensures o in Union(all) + SetOf(segment) {
      var i :| 0 <= i < |longer| && o in longer[i];
      assert i < |all| ==> o in all[i];
    }
  }

  /** All objects of the given segments, collected one segment at a time. */
  method InsertSegments(s: Segments) returns (objects: set<nat>)
    ensures objects == Union(All(s))
  {
    objects := SetOf(s.shared);
    assert [s.shared] == [] + [s.shared];
    UnionNext([], s.shared);
    assert [s.shared] + s.private[..0] == [s.shared];
    for i := 0 to |s.private|
      invariant objects == Union([s.shared] + s.private[..i])
    {
      objects := objects + SetOf(s.private[i]);
      UnionNext([s.shared] + s.private[..i], s.private[i]);
      assert [s.shared] + s.private[..i + 1] == [s.shared] + s.private[..i] + [s.private[i]];
    }
    assert s.private[..|s.private|] == s.private;
  }

  method KeepPrefixes(private: seq<seq<nat>>, churn: real) returns (kept: seq<seq<nat>>)
    ensures kept == KeepAll(private, churn)
  {
    kept := [];
    for i := 0 to |private|
      invariant |kept| == i && forall j :: 0 <= j < i ==> kept[j] == KeepPrefix(private[j], churn)
    {
      kept := kept + [KeepPrefix(private[i], churn)];
    }
  }

  /** Fills segment `k` of the new layout up to its old size. */
  method FillSegment(ghost before: seq<seq<nat>>, ghost current: seq<seq<nat>>, ghost k: nat, segment: seq<nat>,
                     finalSize: nat, objects: seq<nat>, cursor: nat, used: set<nat>, hot: set<nat>, ghost churn: real)
    returns (ok: bool, longer: seq<nat>, next: nat, nowUsed: set<nat>)
    requires Filling(before, current, k, used, objects, churn) && k < |before| && hot == Union(before)
    requires segment == current[k] && finalSize == |before[k]|
    ensures ok ==> Filling(before, current[k := longer], k + 1, nowUsed, objects, churn)
    ensures ok ==> |segment| <= |longer| && nowUsed == used + SetOf(longer[|segment|..]) &&
                   Picked(objects, cursor, longer[|segment|..], next, used + hot)
    ensures Enough(before, objects, churn) ==> ok
  {
    RoomIfEnough(before, current, k, used, objects, churn);
    hide NoRepeats, Union, SegmentChurned, SumBy, SetOf, Extended, Filling, Enough;
    ok, longer, next, nowUsed := AppendReplacements(segment, finalSize, objects, cursor, used, hot);
    if ok {
      FillStep(before, current, k, used, objects, churn, longer, nowUsed);
    }
  }

  lemma AllParts(s: Segments)
    ensures |All(s)| == |s.private| + 1 && All(s)[0] == s.shared
    ensures forall i :: 0 <= i < |s.private| ==> All(s)[i + 1] == s.private[i]
  {
  }

  lemma SharedReplaced(s: Segments, filled: seq<nat>)
    ensures All(s.(shared := filled)) == All(s)[0 := filled]
  {
  }

  lemma PrivateReplaced(s: Segments, i: nat, filled: seq<nat>)
    requires i < |s.private|
    ensures All(s.(private := s.private[i := filled])) == All(s)[i + 1 := filled]
  {
  }

  lemma AllKept(s: Segments, churn: real)
    ensures All(Segments(KeepPrefix(s.shared, churn), KeepAll(s.private, churn))) == KeepAll(All(s), churn)
  {
  }

  /** What has been added to a segment behind its kept prefix. */
  function NewIn(before: seq<nat>, after: seq<nat>, churn: real): seq<nat> {
    if |KeepPrefix(before, churn)| <= |after| then after[|KeepPrefix(before, churn)|..] else []
  }

  /** What has been added to the first `k` segments, one after the other. */
  function Added(before: seq<seq<nat>>, after: seq<seq<nat>>, k: nat, churn: real): seq<nat>
    requires k <= |before| == |after|
  {
    if k == 0 then [] else Added(before, after, k - 1, churn) + NewIn(before[k - 1], after[k - 1], churn)
  }

  lemma {:induction false} AddedSame(before: seq<seq<nat>>, a: seq<seq<nat>>, b: seq<seq<nat>>, k: nat, churn: real)
    requires k <= |before| == |a| == |b| && forall i :: 0 <= i < k ==> a[i] == b[i]
    ensures Added(before, a, k, churn) == Added(before, b, k, churn)
  {
    if k > 0 {
      AddedSame(before, a, b, k - 1, churn);
    }
  }

  /** The objects picked so far are those added to the first `k` segments, and they are used. */
  ghost predicate Picking(before: seq<seq<nat>>, current: seq<seq<nat>>, k: nat, objects: seq<nat>, cursor: nat,
                          next: nat, used: set<nat>, hot: set<nat>, churn: real)
  {
    && k <= |before| == |current|
    && Picked(objects, cursor, Added(before, current, k, churn), next, hot)
    && used + hot == hot + SetOf(Added(before, current, k, churn))
  }

  lemma PickingStarts(before: seq<seq<nat>>, objects: seq<nat>, cursor: nat, used: set<nat>, churn: real)
    requires NoRepeats(before) && used == Union(KeepAll(before, churn))
    ensures Picking(before, KeepAll(before, churn), 0, objects, cursor, cursor, used, Union(before), churn)
  {
    KeptNoRepeats(before, churn);
    NothingPicked(objects, cursor, Union(before));
  }

  /** The objects that a churn has added, in order, are the next ones of the list that had not been hot. */
  ghost predicate PicksNext(before: seq<seq<nat>>, after: seq<seq<nat>>, objects: seq<nat>, cursor: nat, next: nat,
                            churn: real)
  {
    |after| == |before| && Picked(objects, cursor, Added(before, after, |before|, churn), next, Union(before))
  }

  lemma PickingEnds(before: seq<seq<nat>>, current: seq<seq<nat>>, objects: seq<nat>, cursor: nat, next: nat,
                    used: set<nat>, churn: real)
    requires Picking(before, current, |before|, objects, cursor, next, used, Union(before), churn)
    ensures PicksNext(before, current, objects, cursor, next, churn)
  {
  }

  /** A segment that has not been filled yet is the kept prefix. */
  lemma FillingAt(before: seq<seq<nat>>, current: seq<seq<nat>>, k: nat, used: set<nat>, objects: seq<nat>,
                  churn: real)
    requires Filling(before, current, k, used, objects, churn) && k < |before|
    ensures |current| == |before| && current[k] == KeepPrefix(before[k], churn)
  {
  }

  lemma PickingStep(before: seq<seq<nat>>, current: seq<seq<nat>>, k: nat, objects: seq<nat>, cursor: nat, mid: nat,
                    used: set<nat>, hot: set<nat>, churn: real, longer: seq<nat>, next: nat, nowUsed: set<nat>)
    requires Picking(before, current, k, objects, cursor, mid, used, hot, churn) && k < |before|
    requires current[k] == KeepPrefix(before[k], churn) && |current[k]| <= |longer|
    requires nowUsed == used + SetOf(longer[|current[k]|..])
    requires Picked(objects, mid, longer[|current[k]|..], next, used + hot)
    ensures Picking(before, current[k := longer], k + 1, objects, cursor, next, nowUsed, hot, churn)
  {
    hide Picked, KeepPrefix;
    var so, more := Added(before, current, k, churn), longer[|current[k]|..];
    AddedSame(before, current, current[k := longer], k, churn);
    PickedMore(objects, cursor, so, mid, hot, more, next);
    assert SetOf(so + more) == SetOf(so) + SetOf(more);
    assert nowUsed + hot == (used + hot) + SetOf(more);
  }

  /**
   * The segments of the next epoch. It fails for lack of objects only if there are not enough for all replacements, and
   * what it adds are the next objects of the list that have not been hot, segment by segment.
   */
  method ChurnHotSetSegments(previous: Segments, objects: seq<nat>, cursor: nat, churn: real)
    returns (ok: bool, churned: Segments, next: nat)
    requires NoRepeats(All(previous))
    ensures ok ==> NoRepeats(All(churned)) && AllChurned(All(previous), All(churned), objects, churn)
    ensures ok ==> PicksNext(All(previous), All(churned), objects, cursor, next, churn)
    ensures Enough(All(previous), objects, churn) ==> ok
  {
    hide NoRepeats, Union, SegmentChurned, SumBy, SetOf, Extended, ReplacementCount, Filling, Enough, KeepAll,
         AllChurned, All, Picking, Picked, KeepPrefix;
    ghost var before := All(previous);
    AllParts(previous);
    var shared := KeepPrefix(previous.shared, churn);
    var private := KeepPrefixes(previous.private, churn);
    churned, next := Segments(shared, private), cursor;
    AllKept(previous, churn);
    AllParts(churned);
    var used := InsertSegments(churned);
    var hot := InsertSegments(previous);
    FillingStarts(before, used, objects, churn);
    PickingStarts(before, objects, cursor, used, churn);
    var filled, mid, nowUsed;
    mid := next;
    ok, filled, next, nowUsed :=
      FillSegment(before, All(churned), 0, churned.shared, |previous.shared|, objects, mid, used, hot, churn);
    if !ok {
      return;
    }
    PickingStep(before, All(churned), 0, objects, cursor, mid, used, hot, churn, filled, next, nowUsed);
    used := nowUsed;
    SharedReplaced(churned, filled);
    churned := churned.(shared := filled);
    for i := 0 to |previous.private|
      invariant ok && |churned.private| == |previous.private|
      invariant Filling(before, All(churned), i + 1, used, objects, churn)
      invariant Picking(before, All(churned), i + 1, objects, cursor, next, used, hot, churn)
    {
      AllParts(churned);
      mid := next;
      FillingAt(before, All(churned), i + 1, used, objects, churn);
      ok, filled, next, nowUsed :=
        FillSegment(before, All(churned), i + 1, churned.private[i], |previous.private[i]|,
                    objects, mid, used, hot, churn);
      if !ok {
        return;
      }
      PickingStep(before, All(churned), i + 1, objects, cursor, mid, used, hot, churn, filled, next, nowUsed);
      used := nowUsed;
      PrivateReplaced(churned, i, filled);
      churned := churned.(private := churned.private[i := filled]);
    }
    FillingEnds(before, All(churned), used, objects, churn);
    PickingEnds(before, All(churned), objects, cursor, next, used, churn);
  }

  /* ---- Full allocation ---- */

  predicate Run(objects: seq<nat>, segment: seq<nat>, start: nat) {
    objects != [] && forall i :: 0 <= i < |segment| ==> segment[i] == ObjectAt(objects, start + i)
  }

  lemma SameResidue(p: nat, q: nat, n: nat)
    requires p < q < p + n
    ensures p % n != q % n
  {
    if p % n == q % n {
      assert q - p == (q / n) * n - (p / n) * n;
      Distributes(q / n, p / n, n);
      Multiple(q / n - p / n, n);
    }
  }

  lemma DistinctPositions(objects: seq<nat>, p: nat, q: nat)
    requires objects != [] && Unique(objects) && p < q < p + |objects|
    ensures ObjectAt(objects, p) != ObjectAt(objects, q)
  {
    SameResidue(p, q, |objects|);
  }

  lemma RunUnique(objects: seq<nat>, a: seq<nat>, start: nat)
    requires Run(objects, a, start) && Unique(objects) && |a| <= |objects|
    ensures Unique(a)
  {
    forall i, j | 0 <= i < j < |a| ensures a[i] != a[j] {
      DistinctPositions(objects, start + i, start + j);
    }
  }

  lemma RunsApart(objects: seq<nat>, a: seq<nat>, p: nat, b: seq<nat>, q: nat)
    requires Run(objects, a, p) && Run(objects, b, q) && Unique(objects)
    requires p + |a| <= q && q + |b| <= p + |objects|
    ensures Apart(a, b)
  {
    forall i, j | 0 <= i < |a| && 0 <= j < |b| ensures a[i] != b[j] {
      DistinctPositions(objects, p + i, q + j);
    }
  }

  /** Where segment `i` of a layout starts. */
  function StartOf(cursor: nat, shared: nat, private: nat, i: nat): nat {
    if i == 0 then cursor else cursor + shared + (i - 1) * private
  }

  predicate Sized(s: Segments, shared: nat, private: nat, nodes: nat) {
    |s.shared| == shared && |s.private| == nodes && forall i :: 0 <= i < nodes ==> |s.private[i]| == private
  }

  lemma LaidOutNoRepeats(objects: seq<nat>, s: Segments, cursor: nat, shared: nat, private: nat, nodes: nat)
    requires Sized(s, shared, private, nodes) && Unique(objects) && shared + private * nodes <= |objects|
    requires forall i :: 0 <= i <= nodes ==> Run(objects, All(s)[i], StartOf(cursor, shared, private, i))
    ensures NoRepeats(All(s))
  {
    var all := All(s);
    forall i | 0 <= i < |all| ensures Unique(all[i]) {
      Within(shared, private, nodes, i, i);
      RunUnique(objects, all[i], StartOf(cursor, shared, private, i));
    }
    forall i, j | 0 <= i < j < |all| ensures Apart(all[i], all[j]) {
      Within(shared, private, nodes, i, j);
      RunsApart(objects, all[i], StartOf(cursor, shared, private, i), all[j], StartOf(cursor, shared, private, j));
    }
  }

  /** Segments follow each other, within the space of the whole layout. */
  lemma Within(shared: nat, private: nat, nodes: nat, i: nat, j: nat)
    requires i <= j <= nodes
    ensures i < j ==>
              StartOf(0, shared, private, i) + (if i == 0 then shared else private)
              <= StartOf(0, shared, private, j)
    ensures StartOf(0, shared, private, j) + (if j == 0 then shared else private) <= shared + private * nodes
  {
    if j > 0 {
      OneMoreGroup(j - 1, private);
      Grows(j, nodes, private);
      if 0 < i < j {
        OneMoreGroup(i - 1, private);
        Grows(i, j - 1, private);
      }
    } else {
      Grows(0, nodes, private);
    }
  }

  lemma Grows(a: nat, b: nat, c: nat)
    requires a <= b
    ensures a * c <= b * c == c * b
  {
  }

  method AllocateHotSetSegments(shared: nat, private: nat, nodes: nat, objects: seq<nat>, cursor: nat)
    returns (s: Segments, next: nat)
    requires objects != []
    ensures Sized(s, shared, private, nodes) && next == cursor + shared + nodes * private
    ensures forall i :: 0 <= i <= nodes ==> Run(objects, All(s)[i], StartOf(cursor, shared, private, i))
  {
    var first, parts;
    first, next := NextObjects(objects, cursor, shared);
    parts := [];
    for i := 0 to nodes
      invariant |parts| == i && next == StartOf(cursor, shared, private, i + 1)
      invariant forall j :: 0 <= j < i ==>
                  |parts[j]| == private && Run(objects, parts[j], StartOf(cursor, shared, private, j + 1))
    {
      var segment;
      segment, next := NextObjects(objects, next, private);
      OneMoreGroup(i, private);
      parts := parts + [segment];
    }
    s := Segments(first, parts);
  }

  /* ---- The hot set of a node ---- */

  function HotSetForNode(s: Segments, node: nat): seq<nat>
    requires node < |s.private|
  {
    s.shared + s.private[node]
  }

  /** Two nodes have exactly the shared objects in common. */
  lemma HotSetsMeetInShared(s: Segments, a: nat, b: nat)
    requires NoRepeats(All(s)) && a < |s.private| && b < |s.private| && a != b
    ensures SetOf(HotSetForNode(s, a)) * SetOf(HotSetForNode(s, b)) == SetOf(s.shared)
    ensures Unique(HotSetForNode(s, a))
  {
    var all := All(s);
    assert Apart(all[0], all[a + 1]) && Apart(all[0], all[b + 1]);
    assert if a < b then Apart(all[a + 1], all[b + 1]) else Apart(all[b + 1], all[a + 1]);
    assert Unique(all[0]) && Unique(all[a + 1]);
    assert SetOf(HotSetForNode(s, a)) == SetOf(s.shared) + SetOf(s.private[a]);
    assert SetOf(HotSetForNode(s, b)) == SetOf(s.shared) + SetOf(s.private[b]);
    FillUnique(s.shared, s.private[a], SetOf(s.shared));
  }
}
