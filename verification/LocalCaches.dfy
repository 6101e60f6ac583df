/** A node's private cache as an object, over whichever policy it was given. */
module LocalCaches {
  import opened Model
  import opened Totals
  import opened Policies
  import opened Cache
  import opened CacheLaws
  import opened Recorders
  import opened CachePolicies

  /* ---- Policies, dispatched by kind ---- */

  datatype CachePolicy =
    | AlwaysRemotePolicy
    | LruPolicy
    | HotnessPolicy(hotness: HotnessOnlyPolicy)
    | GlobalHottestReplicationPolicy
    | ContentionPolicy(contention: ContentionAwarePolicy)

  function PolicyRepr(p: CachePolicy): set<object> {
    if p.HotnessPolicy? then {p.hotness} else if p.ContentionPolicy? then {p.contention} else {}
  }

  ghost function PolicyView(p: CachePolicy): Policy
    reads PolicyRepr(p)
  {
    match p
    case AlwaysRemotePolicy => AlwaysRemote
    case LruPolicy => Lru
    case HotnessPolicy(h) => Hotness(h.config, h.View())
    case GlobalHottestReplicationPolicy => GlobalHottest
    case ContentionPolicy(c) => ContentionAware(c.config, c.capacity, c.View())
  }

  ghost predicate PolicyValid(p: CachePolicy)
    reads PolicyRepr(p)
  {
    match p
    case HotnessPolicy(h) => h.Valid()
    case ContentionPolicy(c) => c.Valid()
    case _ => true
  }

  /** A policy that looks at telemetry looks at these statistics. */
  ghost predicate LooksAt(p: CachePolicy, stats: Stats) {
    p.ContentionPolicy? ==> p.contention.stats == stats
  }

  /** A fresh policy object of the configured kind. */
  method MakeCachePolicy(initial: Policy, stats: Stats) returns (p: CachePolicy)
    requires initial.Hotness? ==> initial.window == Window(map[], map[])
    requires initial.ContentionAware? ==> initial.state == FreshContention
    ensures PolicyValid(p) && PolicyView(p) == initial && LooksAt(p, stats)
    ensures fresh(PolicyRepr(p))
  {
    match initial
    case AlwaysRemote => p := AlwaysRemotePolicy;
    case Lru => p := LruPolicy;
    case Hotness(config, window) =>
      var h := new HotnessOnlyPolicy(config);
      p := HotnessPolicy(h);
    case GlobalHottest => p := GlobalHottestReplicationPolicy;
    case ContentionAware(config, capacity, state) =>
      var c := new ContentionAwarePolicy(config, capacity, stats);
      p := ContentionPolicy(c);
  }

  method PolicyOnLookup(p: CachePolicy, epoch: nat, obj: nat, ghost stats: Stats)
    requires PolicyValid(p) && LooksAt(p, stats)
    modifies PolicyRepr(p)
    ensures PolicyValid(p) && PolicyView(p) == OnLookup(old(PolicyView(p)), epoch, obj, stats.objects)
  {
    hide HotnessLookup, ContentionLookup;
    match p
    case HotnessPolicy(h) => h.OnLookup(epoch, obj);
    case ContentionPolicy(c) => c.OnLookup(epoch, obj);
    case _ =>
  }

  method PolicyOnEpochStart(p: CachePolicy, epoch: nat, ghost stats: Stats)
    requires PolicyValid(p) && LooksAt(p, stats)
    modifies PolicyRepr(p)
    ensures PolicyValid(p) && PolicyView(p) == OnEpochStart(old(PolicyView(p)), epoch, stats.objects)
  {
    hide HotnessEpochStart, ContentionEpochStart;
    match p
    case HotnessPolicy(h) => h.OnEpochStart(epoch);
    case ContentionPolicy(c) => c.OnEpochStart(epoch);
    case _ =>
  }

  /** Whether the policy wants the object; what it wants of the cache is not asked here. */
  method PolicyAdmits(p: CachePolicy, r: Request) returns (admit: bool)
    ensures admit == Admits(PolicyView(p), r.obj, r.size)
  {
    match p
    case AlwaysRemotePolicy => admit := false;
    case LruPolicy => admit := true;
    case HotnessPolicy(h) => admit := h.CountFor(r.obj) >= h.config.minAdmitCount;
    case GlobalHottestReplicationPolicy => admit := false;
    case ContentionPolicy(c) => admit := c.AdmissionDecision(r);
  }

  method PolicySelectVictim(p: CachePolicy, entries: map<nat, Entry>, r: Request) returns (victim: Option<nat>)
    ensures victim == Policies.SelectVictim(PolicyView(p), entries, r.obj, r.size)
  {
    match p
    case LruPolicy => victim := SelectOldest(entries);
    case HotnessPolicy(h) => victim := h.SelectVictim(entries, r);
    case ContentionPolicy(c) => victim := c.SelectVictim(entries, r);
    case _ => victim := None;
  }

  function PolicyTouch(p: CachePolicy, entry: Entry, time: nat): Entry {
    if p.AlwaysRemotePolicy? then entry else entry.(lastAccess := time)
  }

  lemma TouchAgrees(p: CachePolicy, entry: Entry, time: nat)
    ensures PolicyTouch(p, entry, time) == Touch(PolicyView(p), entry, time)
  {
  }

  /* ---- The cache ---- */

  class LocalCache {
    const capacity: nat
    const policy: CachePolicy
    var occupancy: nat
    var hitCount: nat
    var missCount: nat
    var bytesAdmitted: nat
    var bytesEvicted: nat
    var entries: map<nat, Entry>
    var records: seq<Record>
    var active: map<nat, nat>

    function Repr(): set<object> { {this} + PolicyRepr(policy) }

    ghost function View(): CacheState
      reads Repr()
    {
      CacheState(capacity, occupancy, hitCount, missCount, bytesAdmitted, bytesEvicted, PolicyView(policy), entries,
                 records, active)
    }

    ghost predicate Valid()
      reads Repr()
    {
      PolicyValid(policy)
    }

    lemma PolicyIsElsewhere()
      ensures this !in PolicyRepr(policy)
    {
    }

    constructor (capacity: nat, policy: CachePolicy)
      requires PolicyValid(policy)
      ensures this.capacity == capacity && this.policy == policy
      ensures View() == NewCache(capacity, PolicyView(policy)) && Valid()
    {
      this.capacity, this.policy := capacity, policy;
      occupancy, hitCount, missCount, bytesAdmitted, bytesEvicted := 0, 0, 0, 0, 0;
      entries, records, active := map[], [], map[];
    }

    method Lookup(r: Request, time: nat, ghost stats: Stats) returns (hit: bool)
      requires Valid() && LooksAt(policy, stats)
      modifies Repr()
      ensures Valid() && View() == Cache.Lookup(old(View()), r, time, stats.objects)
      ensures hit <==> r.obj in old(entries)
    {
      hide OnLookup, PolicyView, PolicyValid, CreditHit, Touch, PolicyTouch, Cache.Lookup;
      ghost var before := View();
      if r.obj !in entries {
        missCount := missCount + 1;
        PolicyOnLookup(policy, r.epoch, r.obj, stats);
        MissIs(before, View(), r, time, stats.objects);
        return false;
      }
      hitCount := hitCount + 1;
      PolicyOnLookup(policy, r.epoch, r.obj, stats);
      TouchAgrees(policy, entries[r.obj], time);
      entries := entries[r.obj := PolicyTouch(policy, entries[r.obj], time)];
      RecordHit(r.obj);
      HitIs(before, View(), r, time, stats.objects);
      hit := true;
    }

    /** A hit is credited to the placement that brought the object in. */
    method RecordHit(obj: nat)
      modifies `records
      ensures records == CreditHit(old(records), active, obj)
    {
      if obj in active && active[obj] < |records| {
        var record := records[active[obj]];
        records := records[active[obj] := record.(futureHits := record.futureHits + 1, reused := true)];
      }
    }

    /** Takes one object out and closes its placement. */
    method Evict(obj: nat, time: nat)
      requires Valid() && Removable(View(), obj)
      modifies this
      ensures Valid() && View() == Cache.Evict(old(View()), obj, time)
    {
      if obj !in entries {
        return;
      }
      hide PolicyView, PolicyValid, Cache.Evict;
      ghost var before := View();
      CloseActive(obj, time);
      occupancy := occupancy - entries[obj].size;
      bytesEvicted := bytesEvicted + entries[obj].size;
      entries := entries - {obj};
      EvictedIs(before, View(), obj, time);
    }

    /** Plans victims on a copy of the residents, until the object would fit or the policy gives up no more. */
    method PlanRoom(r: Request) returns (room: bool, planned: seq<nat>)
      ensures Plan(room, planned) == PlanOf(PolicyView(policy), entries, occupancy, capacity, r)
    {
      hide PlanOf, Policies.SelectVictim;
      var candidates, projected: int := entries, occupancy;
      planned := [];
      while projected + r.size > capacity
        invariant PlanOf(PolicyView(policy), entries, occupancy, capacity, r) ==
                  Prefixed(planned, PlanOf(PolicyView(policy), candidates, projected, capacity, r))
        decreases |candidates|
      {
        var victim := PolicySelectVictim(policy, candidates, r);
        PlanStep(PolicyView(policy), candidates, projected, capacity, r, planned);
        if victim.None? {
          return false, planned;
        }
        projected := projected - candidates[victim.value].size;
        planned := planned + [victim.value];
        candidates := candidates - {victim.value};
      }
      PlanDone(PolicyView(policy), candidates, projected, capacity, r, planned);
      room := true;
    }

    method RecordAttempt(r: Request, time: nat, admitted: bool, planned: seq<nat>)
      modifies `records
      ensures records == old(records) + [AttemptRecord(r, time, admitted, planned)]
    {
      records := records + [AttemptRecord(r, time, admitted, planned)];
    }

    method EvictPlanned(planned: seq<nat>, time: nat)
      requires Valid() && Sound(View()) && Listed(entries, planned)
      modifies this
      ensures Valid() && View() == EvictAll(old(View()), planned, time)
    {
      hide Sound, PolicyView, PolicyValid, Cache.Evict;
      for i := 0 to |planned|
        invariant Valid() && Sound(View()) && Listed(entries, planned[i..])
        invariant EvictAll(View(), planned[i..], time) == EvictAll(old(View()), planned, time)
      {
        SoundIsRemovable(View(), planned[i]);
        EvictListed(View(), planned[i..], time);
        assert planned[i..][1..] == planned[i + 1..];
        Evict(planned[i], time);
      }
    }

    method Admit(r: Request, time: nat) returns (admitted: bool)
      requires Valid() && Sound(View())
      modifies this
      ensures Valid() && View() == Cache.Admit(old(View()), r, time)
      ensures admitted <==> Succeeds(old(View()), r)
    {
      PolicyIsElsewhere();
      hide Sound, PolicyView, PolicyValid, Cache.Evict, PlanVictims, Touch, PolicyTouch;
      ghost var before := View();
      var wanted := PolicyAdmits(policy, r);
      if !wanted || r.size > capacity {
        RecordAttempt(r, time, false, []);
        return false;
      }
      var room, planned := PlanRoom(r);
      if !room {
        RecordAttempt(r, time, false, planned);
        return false;
      }
      PlanIsListed(before, r);
      EvictPlanned(planned, time);
      TouchAgrees(policy, Entry(r.size, time, time), time);
      EvictAllSamePolicy(before, planned, time);
      ghost var cleared := View();
      var entry := PolicyTouch(policy, Entry(r.size, time, time), time);
      Enter(r.obj, entry, AttemptRecord(r, time, true, planned));
      TouchKeepsSize(before.policy, Entry(r.size, time, time), time);
      assert View() == Place(cleared, r.obj, entry, AttemptRecord(r, time, true, planned));
      admitted := true;
    }

    /** The object becomes resident by the placement that is recorded last. */
    method Enter(obj: nat, entry: Entry, record: Record)
      modifies this
      ensures View() == Place(old(View()), obj, entry, record)
    {
      occupancy := occupancy + entry.size;
      bytesAdmitted := bytesAdmitted + entry.size;
      entries := entries[obj := entry];
      records := records + [record];
      active := active[obj := |records| - 1];
    }

    method OnEpochStart(epoch: nat, ghost stats: Stats)
      requires Valid() && LooksAt(policy, stats)
      modifies PolicyRepr(policy)
      ensures Valid() && View() == Cache.EpochStart(old(View()), epoch, stats.objects)
    {
      hide PolicyView, PolicyValid, Policies.OnEpochStart;
      PolicyOnEpochStart(policy, epoch, stats);
    }

    /** Closes the placements of all residents, resident by resident in any order. */
    method CloseResidents(time: nat)
      requires forall o :: o in active ==> active[o] < |records|
      modifies `records, `bytesEvicted
      ensures records == CloseAll(old(records), OpenRecords(active, entries), time)
      ensures bytesEvicted == old(bytesEvicted) + Total(Sizes(entries))
    {
      ClearStarts(records, active, entries, time);
      hide CloseAll, OpenRecords, Total, Sizes;
      var rest := entries.Keys;
      while rest != {}
        invariant rest <= entries.Keys && |records| == |old(records)|
        invariant records == CloseAll(old(records), OpenRecords(active, entries - rest), time)
        invariant bytesEvicted == old(bytesEvicted) + Total(Sizes(entries - rest))
        decreases |rest|
      {
        var o :| o in rest;
        CloseMore(old(records), active, entries, rest, o, time);
        rest := rest - {o};
        if o in active {
          records := records[active[o] := CloseRecord(records[active[o]], time)];
        }
        bytesEvicted := bytesEvicted + entries[o].size;
      }
      assert entries - {} == entries;
    }

    method ClearEntries(time: nat)
      requires Valid() && forall o :: o in active ==> active[o] < |records|
      modifies this
      ensures Valid() && View() == Clear(old(View()), time)
    {
      PolicyIsElsewhere();
      hide PolicyView, PolicyValid, CloseAll, Total, Sizes;
      CloseResidents(time);
      entries, active, occupancy := map[], map[], 0;
    }

    /** Replaces the residents by the replicas that fit, in the order of the list. */
    method InstallReplicas(replicas: seq<Replica>, time: nat, node: nat, epoch: nat)
      requires Valid() && forall o :: o in active ==> active[o] < |records|
      modifies this
      ensures Valid() && View() == Install(old(View()), replicas, time, node, epoch)
    {
      PolicyIsElsewhere();
      hide PolicyView, PolicyValid, Clear;
      ClearEntries(time);
      ghost var cleared := View();
      for i := 0 to |replicas|
        invariant Valid() && InstallFrom(View(), replicas[i..], time, node, epoch) ==
                             InstallFrom(cleared, replicas, time, node, epoch)
      {
        var replica := replicas[i];
        assert replicas[i..][0] == replica && replicas[i..][1..] == replicas[i + 1..];
        if replica.size > capacity {
          continue;
        }
        if occupancy + replica.size > capacity {
          return;
        }
        if replica.obj in entries {
          continue;
        }
        Enter(replica.obj, Entry(replica.size, time, time), ReplicaRecord(replica, time, node, epoch));
      }
    }

    /** Closes the placement of an object that is going, but keeps its record. */
    method CloseActive(obj: nat, time: nat)
      requires obj in active ==> active[obj] < |records|
      modifies `records, `active
      ensures active == old(active) - {obj}
      ensures records == if obj in old(active)
                         then old(records)[old(active)[obj] := CloseRecord(old(records[active[obj]]), time)]
                         else old(records)
    {
      if obj in active {
        var placement := active[obj];
        records := records[placement := CloseRecord(records[placement], time)];
        active := active - {obj};
      }
    }
  }

  lemma MissIs(c: CacheState, d: CacheState, r: Request, time: nat, telemetry: Telemetry)
    requires r.obj !in c.entries
    requires d == c.(misses := c.misses + 1, policy := OnLookup(c.policy, r.epoch, r.obj, telemetry))
    ensures d == Cache.Lookup(c, r, time, telemetry)
  {
  }

  lemma HitIs(c: CacheState, d: CacheState, r: Request, time: nat, telemetry: Telemetry)
    requires r.obj in c.entries
    requires var policy := OnLookup(c.policy, r.epoch, r.obj, telemetry);
             d == c.(hits := c.hits + 1, policy := policy,
                     entries := c.entries[r.obj := Touch(policy, c.entries[r.obj], time)],
                     records := CreditHit(c.records, c.active, r.obj))
    ensures d == Cache.Lookup(c, r, time, telemetry)
  {
  }

  /** A resident has its placement on record and its bytes counted, so that taking it out cannot underflow. */
  predicate Removable(c: CacheState, obj: nat) {
    obj in c.entries ==>
      obj in c.active && c.active[obj] < |c.records| && c.entries[obj].size <= c.occupancy
  }

  lemma SoundIsRemovable(c: CacheState, obj: nat)
    requires Sound(c)
    ensures Removable(c, obj)
  {
    if obj in c.entries {
      SizesWithout(c.entries, obj);
    }
  }

  ghost function PlanOf(p: Policy, entries: map<nat, Entry>, occupancy: int, capacity: nat, r: Request): Plan {
    PlanVictims(p, entries, occupancy, capacity, r)
  }

  function Prefixed(planned: seq<nat>, plan: Plan): Plan { Plan(plan.room, planned + plan.victims) }

  lemma PlanStep(p: Policy, candidates: map<nat, Entry>, projected: int, capacity: nat, r: Request, planned: seq<nat>)
    requires projected + r.size > capacity
    ensures var victim := Policies.SelectVictim(p, candidates, r.obj, r.size);
            var plan := Prefixed(planned, PlanOf(p, candidates, projected, capacity, r));
            if victim.None? then plan == Plan(false, planned)
            else
              victim.value in candidates &&
              plan == Prefixed(planned + [victim.value],
                               PlanOf(p, candidates - {victim.value}, projected - candidates[victim.value].size,
                                           capacity, r))
  {
  }

  lemma PlanDone(p: Policy, candidates: map<nat, Entry>, projected: int, capacity: nat, r: Request, planned: seq<nat>)
    requires projected + r.size <= capacity
    ensures Prefixed(planned, PlanOf(p, candidates, projected, capacity, r)) == Plan(true, planned)
  {
  }

  /** Distinct residents. */
  predicate Listed(entries: map<nat, Entry>, planned: seq<nat>) {
    (forall v :: v in planned ==> v in entries) &&
    (forall i, j :: 0 <= i < j < |planned| ==> planned[i] != planned[j])
  }

  lemma PlanIsListed(c: CacheState, r: Request)
    ensures Listed(c.entries, PlanVictims(c.policy, c.entries, c.occupancy, c.capacity, r).victims)
  {
    PlanIsGreedy(c.policy, c.entries, c.occupancy, c.capacity, r);
    VictimsDistinct(c.policy, c.entries, PlanVictims(c.policy, c.entries, c.occupancy, c.capacity, r).victims);
  }

  lemma EvictListed(c: CacheState, victims: seq<nat>, time: nat)
    requires Sound(c) && victims != [] && Listed(c.entries, victims)
    ensures var d := Cache.Evict(c, victims[0], time);
            Sound(d) && Listed(d.entries, victims[1..]) && EvictAll(d, victims[1..], time) == EvictAll(c, victims, time)
  {
    EvictKeeps(c, victims[0], time);
  }

  lemma TouchKeepsSize(p: Policy, entry: Entry, time: nat)
    ensures Touch(p, entry, time).size == entry.size
  {
  }

  lemma ClearStarts(records: seq<Record>, active: map<nat, nat>, entries: map<nat, Entry>, time: nat)
    ensures CloseAll(records, OpenRecords(active, entries - entries.Keys), time) == records
    ensures Total(Sizes(entries - entries.Keys)) == 0
  {
    assert entries - entries.Keys == map[];
    assert Sizes(map[]) == map[];
  }

  /** One more resident has been taken off the rest. */
  lemma CloseMore(records: seq<Record>, active: map<nat, nat>, entries: map<nat, Entry>, rest: set<nat>, o: nat,
                  time: nat)
    requires o in rest && rest <= entries.Keys && forall k :: k in active ==> active[k] < |records|
    ensures var before := CloseAll(records, OpenRecords(active, entries - rest), time);
            CloseAll(records, OpenRecords(active, entries - (rest - {o})), time) ==
            if o in active then before[active[o] := CloseRecord(before[active[o]], time)] else before
    ensures Total(Sizes(entries - (rest - {o}))) == Total(Sizes(entries - rest)) + entries[o].size
  {
    var more := entries - (rest - {o});
    assert more - {o} == entries - rest && more[o] == entries[o];
    SizesWithout(more, o);
    CloseNext(records, active, more, o, time);
  }

  lemma CloseNext(records: seq<Record>, active: map<nat, nat>, entries: map<nat, Entry>, o: nat, time: nat)
    requires o in entries && forall k :: k in active ==> active[k] < |records|
    ensures var before := CloseAll(records, OpenRecords(active, entries - {o}), time);
            CloseAll(records, OpenRecords(active, entries), time) ==
            if o in active then before[active[o] := CloseRecord(before[active[o]], time)] else before
  {
    var open, more := OpenRecords(active, entries - {o}), OpenRecords(active, entries);
    if o in active {
      assert more == open + {active[o]} by {
        forall i | i in more ensures i in open + {active[o]} {
          var k :| k in entries && k in active && active[k] == i;
          assert k != o ==> k in entries - {o};
        }
      }
    } else {
      assert more == open by {
        forall i | i in more ensures i in open {
          var k :| k in entries && k in active && active[k] == i;
          assert k in entries - {o};
        }
      }
    }
  }

  lemma EvictedIs(c: CacheState, d: CacheState, obj: nat, time: nat)
    requires obj in c.entries && obj in c.active && c.active[obj] < |c.records| && c.entries[obj].size <= c.occupancy
    requires d == c.(records := c.records[c.active[obj] := CloseRecord(c.records[c.active[obj]], time)],
                     active := c.active - {obj}, occupancy := c.occupancy - c.entries[obj].size,
                     bytesEvicted := c.bytesEvicted + c.entries[obj].size, entries := c.entries - {obj})
    ensures d == Cache.Evict(c, obj, time)
  {
  }
}
