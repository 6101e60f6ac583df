/** What admission and installation do to a cache: greedy victims, atomic failure, exact byte accounting. */
module CacheLaws {
  import opened Model
  import opened Totals
  import opened Policies
  import opened Cache

  /* ---- Planned victims ---- */

  /** The bytes that a list of residents occupies. */
  function Freed(entries: map<nat, Entry>, victims: seq<nat>): nat
    requires forall v :: v in victims ==> v in entries
  {
    if victims == [] then 0 else entries[victims[0]].size + Freed(entries, victims[1..])
  }

  /** A duplicate-free list of residents, coldest first, each colder than every resident left out. */
  ghost predicate ColdestFirst(p: Policy, entries: map<nat, Entry>, victims: seq<nat>) {
    && (forall v :: v in victims ==> v in entries)
    && (forall i, j :: 0 <= i < j < |victims| ==> Colder(p, entries, victims[i], victims[j]))
    && (forall i, k :: 0 <= i < |victims| && k in entries && k !in victims ==>
                         Colder(p, entries, victims[i], k))
  }

  /** The shortest prefix, in the policy's order, whose removal makes room for `need` bytes. */
  ghost predicate ShortestPrefix(p: Policy, entries: map<nat, Entry>, occupancy: int, capacity: nat, need: nat,
                                 victims: seq<nat>)
  {
    && ColdestFirst(p, entries, victims)
    && occupancy - Freed(entries, victims) + need <= capacity
    && (forall m :: 0 <= m < |victims| ==> occupancy - Freed(entries, victims[..m]) + need > capacity)
  }

  lemma {:induction false} FreedShrunk(entries: map<nat, Entry>, gone: nat, victims: seq<nat>)
    requires forall v :: v in victims ==> v in entries && v != gone
    ensures Freed(entries - {gone}, victims) == Freed(entries, victims)
  {
    if victims != [] {
      FreedShrunk(entries, gone, victims[1..]);
    }
  }

  lemma ColdestFirstExtends(p: Policy, entries: map<nat, Entry>, v: nat, rest: seq<nat>)
    requires IsColdest(p, entries, v) && ColdestFirst(p, entries - {v}, rest)
    ensures ColdestFirst(p, entries, [v] + rest)
  {
    var left, all := entries - {v}, [v] + rest;
    assert forall w :: w in all ==> w in entries;
    forall i, j | 0 <= i < j < |all| ensures Colder(p, entries, all[i], all[j]) {
      assert i > 0 ==> Colder(p, left, rest[i - 1], rest[j - 1]);
    }
    forall i, k | 0 <= i < |all| && k in entries && k !in all ensures Colder(p, entries, all[i], k) {
      assert all[0] == v && k in left && k !in rest;
      assert i > 0 ==> Colder(p, left, rest[i - 1], k);
    }
  }

  lemma NeedsExtend(entries: map<nat, Entry>, occupancy: int, capacity: nat, need: nat, v: nat, rest: seq<nat>)
    requires v in entries && forall w :: w in rest ==> w in entries && w != v
    requires occupancy + need > capacity
    requires forall m :: 0 <= m < |rest| ==>
               occupancy - entries[v].size - Freed(entries - {v}, rest[..m]) + need > capacity
    ensures forall m :: 0 <= m < |rest| + 1 ==> occupancy - Freed(entries, ([v] + rest)[..m]) + need > capacity
  {
    forall m | 0 < m < |rest| + 1 ensures occupancy - Freed(entries, ([v] + rest)[..m]) + need > capacity {
      assert ([v] + rest)[..m][1..] == rest[..m - 1];
      FreedShrunk(entries, v, rest[..m - 1]);
    }
  }

  lemma ColdestFirstListed(p: Policy, entries: map<nat, Entry>, victims: seq<nat>)
    requires ColdestFirst(p, entries, victims)
    ensures forall v :: v in victims ==> v in entries
  {
  }

  lemma NothingPlanned(p: Policy, entries: map<nat, Entry>, occupancy: int, capacity: nat, need: nat)
    ensures ColdestFirst(p, entries, [])
    ensures occupancy + need <= capacity ==> ShortestPrefix(p, entries, occupancy, capacity, need, [])
  {
  }

  lemma PrefixExtends(p: Policy, entries: map<nat, Entry>, occupancy: int, capacity: nat, need: nat, v: nat,
                      rest: seq<nat>)
    requires IsColdest(p, entries, v) && occupancy + need > capacity
    requires ShortestPrefix(p, entries - {v}, occupancy - entries[v].size, capacity, need, rest)
    ensures ShortestPrefix(p, entries, occupancy, capacity, need, [v] + rest)
  {
    hide Colder;
    FreedShrunk(entries, v, rest);
    ColdestFirstExtends(p, entries, v, rest);
    NeedsExtend(entries, occupancy, capacity, need, v, rest);
    assert ([v] + rest)[1..] == rest;
  }

  lemma YieldsStill(p: Policy, entries: map<nat, Entry>, gone: nat, v: nat, obj: nat, size: nat)
    requires v in entries - {gone} && Yields(p, entries - {gone}, v, obj, size)
    ensures Yields(p, entries, v, obj, size)
  {
  }

  /** The plan lists residents in the policy's order, all of which the policy yields; none could be spared. */
  lemma {:induction false} PlanIsGreedy(p: Policy, entries: map<nat, Entry>, occupancy: int, capacity: nat,
                                        r: Request)
    ensures var plan := PlanVictims(p, entries, occupancy, capacity, r);
            && ColdestFirst(p, entries, plan.victims)
            && (forall v :: v in plan.victims ==> Yields(p, entries, v, r.obj, r.size))
            && (plan.room ==> ShortestPrefix(p, entries, occupancy, capacity, r.size, plan.victims))
    decreases |entries|
  {
    hide Worth, Colder, ShortestPrefix, ColdestFirst;
    var plan := PlanVictims(p, entries, occupancy, capacity, r);
    if plan.victims == [] {
      NothingPlanned(p, entries, occupancy, capacity, r.size);
    } else {
      var v := Coldest(p, entries);
      var left := entries - {v};
      var rest := PlanVictims(p, left, occupancy - entries[v].size, capacity, r).victims;
      PlanIsGreedy(p, left, occupancy - entries[v].size, capacity, r);
      assert plan.victims == [v] + rest && plan.victims[1..] == rest;
      ColdestFirstListed(p, left, rest);
      forall w | w in rest ensures w in entries && Yields(p, entries, w, r.obj, r.size) {
        YieldsStill(p, entries, v, w, r.obj, r.size);
      }
      ColdestFirstExtends(p, entries, v, rest);
      if plan.room {
        PrefixExtends(p, entries, occupancy, capacity, r.size, v, rest);
      }
    }
  }

  /** At most one list of residents is the shortest prefix, so no scan order can change the victims. */
  lemma ShortestPrefixUnique(p: Policy, entries: map<nat, Entry>, occupancy: int, capacity: nat, need: nat,
                             a: seq<nat>, b: seq<nat>)
    requires ShortestPrefix(p, entries, occupancy, capacity, need, a)
    requires ShortestPrefix(p, entries, occupancy, capacity, need, b)
    ensures a == b
  {
    var n := if |a| < |b| then |a| else |b|;
    ColdestFirstAgree(p, entries, a, b, n);
    assert n == |a| ==> b[..n] == a;
    assert n == |b| ==> a[..n] == b;
  }

  lemma {:induction false} ColdestFirstAgree(p: Policy, entries: map<nat, Entry>, a: seq<nat>, b: seq<nat>, n: nat)
    requires ColdestFirst(p, entries, a) && ColdestFirst(p, entries, b)
    requires n <= |a| && n <= |b|
    ensures forall i :: 0 <= i < n ==> a[i] == b[i]
  {
    hide ColdestFirst;
    if n > 0 {
      ColdestFirstAgree(p, entries, a, b, n - 1);
      ColdestFirstListed(p, entries, a);
      ColdestFirstListed(p, entries, b);
      assert a[n - 1] in a && b[n - 1] in b;
      ColdestNotAfter(p, entries, a, b, n - 1);
      ColdestNotAfter(p, entries, b, a, n - 1);
    }
  }

  lemma ColdestNotAfter(p: Policy, entries: map<nat, Entry>, a: seq<nat>, b: seq<nat>, m: nat)
    requires ColdestFirst(p, entries, a) && ColdestFirst(p, entries, b)
    requires m < |a| && m < |b|
    requires forall i :: 0 <= i < m ==> a[i] == b[i]
    ensures a[m] == b[m] || Colder(p, entries, a[m], b[m])
  {
    hide Colder;
    if b[m] in a {
      var j :| 0 <= j < |a| && a[j] == b[m];
      if j < m {
        assert Colder(p, entries, b[j], b[m]);
        NotColderThanItself(p, entries, b[m]);
      } else if m < j {
        assert Colder(p, entries, a[m], a[j]);
      }
    }
  }

  lemma NotColderThanItself(p: Policy, entries: map<nat, Entry>, v: nat)
    requires v in entries
    ensures !Colder(p, entries, v, v)
  {
  }

  /* ---- Eviction of a planned list ---- */

  lemma {:induction false} EvictAllKeeps(c: CacheState, victims: seq<nat>, time: nat)
    requires Sound(c)
    requires forall v :: v in victims ==> v in c.entries
    requires forall i, j :: 0 <= i < j < |victims| ==> victims[i] != victims[j]
    ensures var d := EvictAll(c, victims, time);
            && Sound(d) && (Exact(c) ==> Exact(d)) && SameButContents(c, d)
            && d.entries == c.entries - (set v | v in victims)
            && d.occupancy == c.occupancy - Freed(c.entries, victims)
            && d.bytesEvicted == c.bytesEvicted + Freed(c.entries, victims)
    decreases |victims|
  {
    if victims == [] {
      assert c.entries == c.entries - (set v | v in victims);
    } else {
      var v, rest := victims[0], victims[1..];
      var d := Evict(c, v, time);
      EvictKeeps(c, v, time);
      FreedShrunk(c.entries, v, rest);
      EvictAllKeeps(d, rest, time);
      WithoutAll(c.entries, victims);
    }
  }

  lemma WithoutAll(entries: map<nat, Entry>, victims: seq<nat>)
    requires victims != []
    ensures entries - {victims[0]} - (set v | v in victims[1..]) == entries - (set v | v in victims)
  {
    assert (set v | v in victims) == {victims[0]} + (set v | v in victims[1..]);
  }

  lemma VictimsDistinct(p: Policy, entries: map<nat, Entry>, victims: seq<nat>)
    requires ColdestFirst(p, entries, victims)
    ensures forall i, j :: 0 <= i < j < |victims| ==> victims[i] != victims[j]
  {
    forall i, j | 0 <= i < j < |victims| ensures victims[i] != victims[j] {
      assert Colder(p, entries, victims[i], victims[j]);
    }
  }

  /* ---- Admission ---- */

  /** The residents after a successful admission, before the incoming object is entered. */
  ghost function Survivors(c: CacheState, r: Request): map<nat, Entry> {
    c.entries - (set v | v in PlanVictims(c.policy, c.entries, c.occupancy, c.capacity, r).victims)
  }

  lemma AdmitKeeps(c: CacheState, r: Request, time: nat)
    requires Sound(c)
    ensures Sound(Admit(c, r, time))
    ensures Exact(c) && Succeeds(c, r) ==>
              (Exact(Admit(c, r, time)) <==> r.obj !in Survivors(c, r) || c.entries[r.obj].size == 0)
    ensures Exact(c) && !Succeeds(c, r) ==> Exact(Admit(c, r, time))
  {
    if Admits(c.policy, r.obj, r.size) && r.size <= c.capacity {
      var plan := PlanVictims(c.policy, c.entries, c.occupancy, c.capacity, r);
      PlanIsGreedy(c.policy, c.entries, c.occupancy, c.capacity, r);
      if plan.room {
        VictimsDistinct(c.policy, c.entries, plan.victims);
        EvictAllKeeps(c, plan.victims, time);
        PlaceKeeps(EvictAll(c, plan.victims, time), r.obj, Touch(c.policy, Entry(r.size, time, time), time),
                   AttemptRecord(r, time, true, plan.victims));
      } else {
        RejectKeeps(c, r, time, plan.victims);
      }
    } else {
      RejectKeeps(c, r, time, []);
    }
  }

  /** A successful admission replaces exactly the shortest cold prefix by the incoming object. */
  lemma AdmitEvictsShortestPrefix(c: CacheState, r: Request, time: nat)
    requires Sound(c) && Succeeds(c, r)
    ensures var d := Admit(c, r, time);
            var victims := d.records[|d.records| - 1].victims;
            && ShortestPrefix(c.policy, c.entries, c.occupancy, c.capacity, r.size, victims)
            && (forall v :: v in victims ==> Yields(c.policy, c.entries, v, r.obj, r.size))
            && d.entries.Keys == c.entries.Keys - (set v | v in victims) + {r.obj}
            && (forall k :: k in d.entries && k != r.obj ==> d.entries[k] == c.entries[k])
            && d.entries[r.obj].size == r.size && d.entries[r.obj].insertTime == time
            && d.occupancy == c.occupancy - Freed(c.entries, victims) + r.size
            && d.bytesAdmitted == c.bytesAdmitted + r.size
            && d.bytesEvicted == c.bytesEvicted + Freed(c.entries, victims)
  {
    var plan := PlanVictims(c.policy, c.entries, c.occupancy, c.capacity, r);
    PlanIsGreedy(c.policy, c.entries, c.occupancy, c.capacity, r);
    VictimsDistinct(c.policy, c.entries, plan.victims);
    EvictAllKeeps(c, plan.victims, time);
  }

  /** A failed admission changes nothing but the list of records, whatever victims had been planned. */
  lemma FailedAdmitIsAtomic(c: CacheState, r: Request, time: nat)
    requires !Succeeds(c, r)
    ensures exists record :: Admit(c, r, time) == c.(records := c.records + [record]) &&
                             !record.admitted && !record.evicted && record.futureHits == 0
  {
    var d := Admit(c, r, time);
    assert d == c.(records := c.records + [d.records[|c.records|]]);
  }

  /** Under LRU nothing but bytes that no resident accounts for can keep a fitting object out. */
  lemma {:induction false} LruPlanFindsRoom(entries: map<nat, Entry>, occupancy: int, capacity: nat, r: Request)
    requires r.size <= capacity && occupancy >= Total(Sizes(entries))
    ensures PlanVictims(Lru, entries, occupancy, capacity, r).room <==>
            occupancy - Total(Sizes(entries)) + r.size <= capacity
    decreases |entries|
  {
    hide SelectVictim, Coldest, Sizes, Total;
    if occupancy + r.size > capacity && entries != map[] {
      var v := Coldest(Lru, entries);
      LruGivesUpColdest(entries, r.obj, r.size);
      SizesWithout(entries, v);
      LruPlanFindsRoom(entries - {v}, occupancy - entries[v].size, capacity, r);
    } else if entries == map[] {
      LruGivesUpColdest(entries, r.obj, r.size);
    }
  }

  /** Under LRU only an empty cache has nothing to give up. */
  lemma LruGivesUpColdest(entries: map<nat, Entry>, obj: nat, size: nat)
    ensures SelectVictim(Lru, entries, obj, size) ==
            if entries == map[] then None else Some(Coldest(Lru, entries))
    ensures entries == map[] ==> Total(Sizes(entries)) == 0
    ensures entries != map[] ==> Coldest(Lru, entries) in entries
  {
    assert entries == map[] ==> Sizes(entries) == map[];
  }

  lemma LruAdmitsExactly(c: CacheState, r: Request)
    requires Sound(c) && c.policy == Lru
    ensures Succeeds(c, r) <==> c.occupancy - Total(Sizes(c.entries)) + r.size <= c.capacity
    ensures Exact(c) ==> (Succeeds(c, r) <==> r.size <= c.capacity)
  {
    if r.size <= c.capacity {
      LruPlanFindsRoom(c.entries, c.occupancy, c.capacity, r);
    }
  }

  lemma AdmitWithRoom(c: CacheState, r: Request, time: nat)
    requires Admits(c.policy, r.obj, r.size) && c.occupancy + r.size <= c.capacity
    ensures Succeeds(c, r)
    ensures Admit(c, r, time) == Place(c, r.obj, Touch(c.policy, Entry(r.size, time, time), time),
                                       AttemptRecord(r, time, true, []))
  {
  }

  /** Two overlapping misses on one object make the counted occupancy exceed the resident bytes. */
  lemma OverlappingMissesBreakExactness(capacity: nat, r: Request)
    requires 0 < r.size && r.size + r.size <= capacity
    ensures var once := Admit(NewCache(capacity, Lru), r, 1);
            var twice := Admit(once, r.(id := r.id + 1), 2);
            && Exact(once) && Succeeds(once, r.(id := r.id + 1))
            && !Exact(twice) && twice.occupancy == Total(Sizes(twice.entries)) + r.size
  {
    var c := NewCache(capacity, Lru);
    AdmitWithRoom(c, r, 1);
    var once := Admit(c, r, 1);
    AdmitWithRoom(once, r.(id := r.id + 1), 2);
    SizesWith(map[], r.obj, Entry(r.size, 1, 1));
    SizesWith(once.entries, r.obj, Entry(r.size, 2, 2));
    assert Sizes(map[]) == map[];
  }

  /* ---- Installation of replicas ---- */

  ghost function OpenRecords(active: map<nat, nat>, entries: map<nat, Entry>): set<nat> {
    set o | o in entries && o in active :: active[o]
  }

  ghost predicate AllOpen(records: seq<Record>, active: map<nat, nat>, entries: map<nat, Entry>) {
    active.Keys == entries.Keys &&
    forall o :: o in entries ==> active[o] < |records| && IsOpen(records[active[o]], o, entries[o].size)
  }

  lemma OpenRecordsWithout(records: seq<Record>, active: map<nat, nat>, entries: map<nat, Entry>, k: nat)
    requires AllOpen(records, active, entries) && k in entries
    ensures OpenRecords(active, entries) == OpenRecords(active - {k}, entries - {k}) + {active[k]}
    ensures active[k] !in OpenRecords(active - {k}, entries - {k})
    ensures AllOpen(records, active - {k}, entries - {k})
  {
    forall o | o in entries && o != k ensures active[o] != active[k] {
      assert IsOpen(records[active[o]], o, entries[o].size) && IsOpen(records[active[k]], k, entries[k].size);
    }
    forall x | x in OpenRecords(active, entries) && x != active[k]
      ensures x in OpenRecords(active - {k}, entries - {k})
    {
      var o :| o in entries && active[o] == x;
      assert o in entries - {k};
    }
  }

  lemma CloseOneMore(records: seq<Record>, open: set<nat>, i: nat, time: nat)
    requires i < |records| && i !in open && records[i].admitted && !records[i].evicted
    ensures var before, after := CloseAll(records, open, time), CloseAll(records, open + {i}, time);
            && SumBy(FutureHits, after) == SumBy(FutureHits, before)
            && SumBy(AdmittedSize, after) == SumBy(AdmittedSize, before)
            && SumBy(EvictedSize, after) == SumBy(EvictedSize, before) + records[i].size
  {
    var before := CloseAll(records, open, time);
    var t := CloseRecord(records[i], time);
    assert CloseAll(records, open + {i}, time) == before[i := t];
    SumByUpdate(FutureHits, before, i, t);
    SumByUpdate(AdmittedSize, before, i, t);
    SumByUpdate(EvictedSize, before, i, t);
  }

  lemma {:induction false} CloseAllSums(records: seq<Record>, active: map<nat, nat>, entries: map<nat, Entry>,
                                        time: nat)
    requires AllOpen(records, active, entries)
    ensures var closed := CloseAll(records, OpenRecords(active, entries), time);
            && SumBy(FutureHits, closed) == SumBy(FutureHits, records)
            && SumBy(AdmittedSize, closed) == SumBy(AdmittedSize, records)
            && SumBy(EvictedSize, closed) == SumBy(EvictedSize, records) + Total(Sizes(entries))
    decreases |entries|
  {
    if entries == map[] {
      assert CloseAll(records, OpenRecords(active, entries), time) == records;
      assert Sizes(entries) == map[];
    } else {
      var k :| k in entries;
      OpenRecordsWithout(records, active, entries, k);
      CloseAllSums(records, active - {k}, entries - {k}, time);
      SizesWithout(entries, k);
      assert IsOpen(records[active[k]], k, entries[k].size);
      CloseOneMore(records, OpenRecords(active - {k}, entries - {k}), active[k], time);
    }
  }

  lemma ClearKeeps(c: CacheState, time: nat)
    requires Sound(c)
    ensures Sound(Clear(c, time)) && Exact(Clear(c, time))
  {
    CloseAllSums(c.records, c.active, c.entries, time);
    assert OpenRecords(c.active, c.entries) == (set o | o in c.entries && o in c.active :: c.active[o]);
    assert Sizes(map[]) == map[];
  }

  lemma {:induction false} InstallFromKeeps(c: CacheState, replicas: seq<Replica>, time: nat, node: nat, epoch: nat)
    requires Sound(c)
    ensures var d := InstallFrom(c, replicas, time, node, epoch);
            && Sound(d) && (Exact(c) ==> Exact(d))
            && d.capacity == c.capacity && d.policy == c.policy && d.hits == c.hits && d.misses == c.misses
    decreases |replicas|
  {
    if replicas != [] {
      var first := replicas[0];
      if first.size > c.capacity {
        InstallFromKeeps(c, replicas[1..], time, node, epoch);
      } else if c.occupancy + first.size <= c.capacity {
        if first.obj in c.entries {
          InstallFromKeeps(c, replicas[1..], time, node, epoch);
        } else {
          var entry, record := Entry(first.size, time, time), ReplicaRecord(first, time, node, epoch);
          PlaceKeeps(c, first.obj, entry, record);
          InstallFromKeeps(Place(c, first.obj, entry, record), replicas[1..], time, node, epoch);
        }
      }
    }
  }

  lemma InstallKeeps(c: CacheState, replicas: seq<Replica>, time: nat, node: nat, epoch: nat)
    requires Sound(c)
    ensures var d := Install(c, replicas, time, node, epoch);
            && Sound(d) && Exact(d)
            && d.capacity == c.capacity && d.policy == c.policy && d.hits == c.hits && d.misses == c.misses
  {
    ClearKeeps(c, time);
    InstallFromKeeps(Clear(c, time), replicas, time, node, epoch);
  }

  /* ---- The policy's own state is not touched ---- */

  lemma {:induction false} EvictAllSamePolicy(c: CacheState, victims: seq<nat>, time: nat)
    ensures EvictAll(c, victims, time).policy == c.policy && EvictAll(c, victims, time).capacity == c.capacity
    decreases |victims|
  {
    if victims != [] {
      EvictAllSamePolicy(Evict(c, victims[0], time), victims[1..], time);
    }
  }

  lemma AdmitSamePolicy(c: CacheState, r: Request, time: nat)
    ensures Admit(c, r, time).policy == c.policy && Admit(c, r, time).capacity == c.capacity
  {
    EvictAllSamePolicy(c, PlanVictims(c.policy, c.entries, c.occupancy, c.capacity, r).victims, time);
  }

  lemma {:induction false} InstallFromSamePolicy(c: CacheState, replicas: seq<Replica>, time: nat, node: nat,
                                                 epoch: nat)
    ensures var d := InstallFrom(c, replicas, time, node, epoch); d.policy == c.policy && d.capacity == c.capacity
    decreases |replicas|
  {
    if replicas != [] {
      var first := replicas[0];
      if first.size > c.capacity || (c.occupancy + first.size <= c.capacity && first.obj in c.entries) {
        InstallFromSamePolicy(c, replicas[1..], time, node, epoch);
      } else if c.occupancy + first.size <= c.capacity {
        InstallFromSamePolicy(
          Place(c, first.obj, Entry(first.size, time, time), ReplicaRecord(first, time, node, epoch)),
          replicas[1..], time, node, epoch);
      }
    }
  }

  lemma InstallSamePolicy(c: CacheState, replicas: seq<Replica>, time: nat, node: nat, epoch: nat)
    ensures var d := Install(c, replicas, time, node, epoch); d.policy == c.policy && d.capacity == c.capacity
  {
    InstallFromSamePolicy(Clear(c, time), replicas, time, node, epoch);
  }
}
