/** Placement records: what becomes of them, and what every cache operation does to them and to the last accesses. */
module Placements {
  import opened Model
  import opened Policies
  import opened Cache
  import opened CacheLaws

  /* ---- What may become of a record ---- */

  /** A record keeps what it was made of; it may gain hits until it is closed, which happens once. */
  predicate Continues(r: Record, q: Record, time: nat) {
    && q.node == r.node && q.epoch == r.epoch && q.request == r.request && q.obj == r.obj && q.time == r.time
    && q.admitted == r.admitted && q.size == r.size && q.victims == r.victims
    && (r.evicted ==> q == r) && r.futureHits <= q.futureHits
    && ((r.reused <==> r.futureHits > 0) ==> (q.reused <==> q.futureHits > 0))
    && (q.evicted && !r.evicted ==> r.admitted && q.evictionTime == time)
  }

  predicate AllContinue(before: seq<Record>, after: seq<Record>, time: nat) {
    |before| <= |after| &&
    forall j {:trigger Continues(before[j], after[j], time)} :: 0 <= j < |before| ==>
      Continues(before[j], after[j], time)
  }

  lemma ContinueTwice(a: seq<Record>, b: seq<Record>, c: seq<Record>, time: nat)
    requires AllContinue(a, b, time) && AllContinue(b, c, time)
    ensures AllContinue(a, c, time)
  {
    forall j | 0 <= j < |a| ensures Continues(a[j], c[j], time) {
      assert Continues(a[j], b[j], time) && Continues(b[j], c[j], time);
    }
  }

  lemma OneContinues(records: seq<Record>, i: nat, q: Record, time: nat)
    requires i < |records| && Continues(records[i], q, time)
    ensures AllContinue(records, records[i := q], time)
  {
  }

  lemma NoneContinues(records: seq<Record>, time: nat)
    ensures AllContinue(records, records, time)
  {
  }

  /* ---- Lookups ---- */

  /** A hit is credited to the placement that is active, and refreshes the last access unless nothing is cached. */
  lemma LookupContinues(c: CacheState, r: Request, time: nat, telemetry: Telemetry)
    requires Sound(c)
    ensures var d := Lookup(c, r, time, telemetry);
            && |d.records| == |c.records| && AllContinue(c.records, d.records, time)
            && d.entries.Keys == c.entries.Keys
            && (forall o :: o in c.entries ==>
                  d.entries[o] == if o == r.obj && !c.policy.AlwaysRemote? then c.entries[o].(lastAccess := time)
                                  else c.entries[o])
  {
    var d := Lookup(c, r, time, telemetry);
    hide HotnessLookup, ContentionLookup;
    if r.obj in c.entries {
      var i := c.active[r.obj];
      OneContinues(c.records, i, d.records[i], time);
    } else {
      NoneContinues(c.records, time);
    }
  }

  /* ---- Evictions ---- */

  lemma EvictContinues(c: CacheState, obj: nat, time: nat)
    requires Sound(c) && obj in c.entries
    ensures |Evict(c, obj, time).records| == |c.records| && AllContinue(c.records, Evict(c, obj, time).records, time)
    ensures var i := c.active[obj];
            i < |c.records| && Evict(c, obj, time).records[i] == c.records[i].(evicted := true, evictionTime := time)
  {
    var i := c.active[obj];
    OneContinues(c.records, i, CloseRecord(c.records[i], time), time);
  }

  lemma {:induction false} EvictAllContinues(c: CacheState, victims: seq<nat>, time: nat)
    requires Sound(c) && forall v :: v in victims ==> v in c.entries
    requires forall i, j :: 0 <= i < j < |victims| ==> victims[i] != victims[j]
    ensures var d := EvictAll(c, victims, time);
            && |d.records| == |c.records| && AllContinue(c.records, d.records, time)
    ensures forall v :: v in victims ==>
              c.active[v] < |c.records| && EvictAll(c, victims, time).records[c.active[v]] ==
              c.records[c.active[v]].(evicted := true, evictionTime := time)
    decreases |victims|
  {
    if victims == [] {
      NoneContinues(c.records, time);
    } else {
      hide Sound;
      var d := Evict(c, victims[0], time);
      EvictKeeps(c, victims[0], time);
      EvictContinues(c, victims[0], time);
      EvictAllContinues(d, victims[1..], time);
      var e := EvictAll(d, victims[1..], time);
      ContinueTwice(c.records, d.records, e.records, time);
      forall v | v in victims
        ensures c.active[v] < |c.records| &&
                e.records[c.active[v]] == c.records[c.active[v]].(evicted := true, evictionTime := time)
      {
        if v == victims[0] {
          assert Continues(d.records[c.active[v]], e.records[c.active[v]], time);
        } else {
          assert v in victims[1..];
          OtherActive(c, victims[0], v, time);
        }
      }
    }
  }

  /** An eviction closes one placement; that of another resident is as it was. */
  lemma OtherActive(c: CacheState, obj: nat, other: nat, time: nat)
    requires Sound(c) && obj in c.entries && other in c.entries && other != obj
    ensures var d := Evict(c, obj, time);
            && other in d.active && d.active[other] == c.active[other] < |c.records| == |d.records|
            && d.records[d.active[other]] == c.records[c.active[other]]
  {
    assert IsOpen(c.records[c.active[obj]], obj, c.entries[obj].size);
    assert IsOpen(c.records[c.active[other]], other, c.entries[other].size);
  }

  /* ---- Admissions ---- */

  /** The record that an attempt to admit the object of a request leaves, whether it succeeds or not. */
  predicate AttemptOf(q: Record, r: Request, time: nat, admitted: bool) {
    && q.node == r.source && q.epoch == r.epoch && q.request == r.id && q.obj == r.obj && q.time == time
    && q.size == r.size && q.admitted == admitted && q.futureHits == 0 && !q.reused && !q.evicted
  }

  /** Residents differ from before at most in the object of the request, which was brought in at `time`. */
  predicate BroughtIn(before: map<nat, Entry>, after: map<nat, Entry>, obj: nat, time: nat, admitted: bool) {
    forall o :: o in after ==>
      if admitted && o == obj then after[o].lastAccess == time else o in before && after[o] == before[o]
  }

  /** An attempt leaves exactly one record, closes the placements of the victims now, and brings the object in now. */
  lemma AdmitContinues(c: CacheState, r: Request, time: nat)
    requires Sound(c)
    ensures var d := Admit(c, r, time);
            && |d.records| == |c.records| + 1 && AllContinue(c.records, d.records, time)
            && AttemptOf(d.records[|c.records|], r, time, Succeeds(c, r))
            && BroughtIn(c.entries, d.entries, r.obj, time, Succeeds(c, r))
            && (Succeeds(c, r) ==> forall v :: v in d.records[|c.records|].victims ==>
                  v in c.active && c.active[v] < |c.records| && d.records[c.active[v]] ==
                  c.records[c.active[v]].(evicted := true, evictionTime := time))
  {
    var d := Admit(c, r, time);
    if Succeeds(c, r) {
      hide Sound, PlanVictims, Admits;
      var victims := PlanVictims(c.policy, c.entries, c.occupancy, c.capacity, r).victims;
      PlanIsGreedy(c.policy, c.entries, c.occupancy, c.capacity, r);
      VictimsDistinct(c.policy, c.entries, victims);
      EvictAllKeeps(c, victims, time);
      EvictAllContinues(c, victims, time);
      AllActive(c);
      hide EvictAll, AllContinue;
      Appended(c.records, EvictAll(c, victims, time).records, d.records[|c.records|], time);
      NeverRemote(c, r);
    } else {
      NoneContinues(c.records, time);
      Appended(c.records, c.records, d.records[|c.records|], time);
    }
  }

  lemma AllActive(c: CacheState)
    requires Sound(c)
    ensures c.active.Keys == c.entries.Keys
  {
  }

  lemma NeverRemote(c: CacheState, r: Request)
    requires Succeeds(c, r)
    ensures !c.policy.AlwaysRemote?
  {
  }

  lemma Appended(before: seq<Record>, after: seq<Record>, q: Record, time: nat)
    requires AllContinue(before, after, time)
    ensures AllContinue(before, after + [q], time)
  {
    forall j | 0 <= j < |before| ensures Continues(before[j], (after + [q])[j], time) {
      assert Continues(before[j], after[j], time);
    }
  }

  /* ---- Installations ---- */

  /** The record that an installed replica leaves. */
  predicate ReplicaOf(q: Record, node: nat, epoch: nat, time: nat) {
    && q.node == node && q.epoch == epoch && q.request == 0 && q.time == time && q.admitted
    && q.futureHits == 0 && !q.reused && !q.evicted
  }

  /** The records from `first` on are those of replicas. */
  predicate ReplicasFrom(records: seq<Record>, first: nat, node: nat, epoch: nat, time: nat) {
    forall j :: first <= j < |records| ==> ReplicaOf(records[j], node, epoch, time)
  }

  /** Every resident was brought in now, by one of the records from `first` on. */
  predicate AllNew(c: CacheState, first: nat, time: nat) {
    forall o :: o in c.entries ==>
      c.entries[o].lastAccess == c.entries[o].insertTime == time &&
      exists j :: first <= j < |c.records| && c.records[j].obj == o
  }

  lemma {:induction false} InstallFromContinues(c: CacheState, replicas: seq<Replica>, time: nat, node: nat, epoch: nat,
                                                first: nat)
    requires first <= |c.records| && ReplicasFrom(c.records, first, node, epoch, time) && AllNew(c, first, time)
    ensures var d := InstallFrom(c, replicas, time, node, epoch);
            && AllContinue(c.records, d.records, time) && ReplicasFrom(d.records, first, node, epoch, time)
            && AllNew(d, first, time)
    decreases |replicas|
  {
    NoneContinues(c.records, time);
    if replicas != [] {
      var r, rest := replicas[0], replicas[1..];
      if r.size > c.capacity || (c.occupancy + r.size <= c.capacity && r.obj in c.entries) {
        InstallFromContinues(c, rest, time, node, epoch, first);
      } else if c.occupancy + r.size <= c.capacity {
        var record := ReplicaRecord(r, time, node, epoch);
        var d := Place(c, r.obj, Entry(r.size, time, time), record);
        Appended(c.records, c.records, record, time);
        forall o | o in d.entries
          ensures d.entries[o].lastAccess == d.entries[o].insertTime == time
          ensures exists j :: first <= j < |d.records| && d.records[j].obj == o
        {
          if o == r.obj {
            assert d.records[|c.records|].obj == o;
          } else {
            var j :| first <= j < |c.records| && c.records[j].obj == o;
            assert d.records[j].obj == o;
          }
        }
        InstallFromContinues(d, rest, time, node, epoch, first);
        ContinueTwice(c.records, d.records, InstallFrom(d, rest, time, node, epoch).records, time);
      }
    }
  }

  lemma ClearContinues(c: CacheState, time: nat)
    requires Sound(c)
    ensures |Clear(c, time).records| == |c.records| && AllContinue(c.records, Clear(c, time).records, time)
  {
    var d := Clear(c, time);
    forall j | 0 <= j < |c.records| ensures Continues(c.records[j], d.records[j], time) {
      var open := set o | o in c.entries && o in c.active :: c.active[o];
      if j in open {
        var o :| o in c.entries && o in c.active && c.active[o] == j;
        assert IsOpen(c.records[j], o, c.entries[o].size);
      }
    }
  }

  /** An installation closes what was open now, and leaves records of replicas and nothing but what they brought in. */
  lemma InstallContinues(c: CacheState, replicas: seq<Replica>, time: nat, node: nat, epoch: nat)
    requires Sound(c)
    ensures var d := Install(c, replicas, time, node, epoch);
            && AllContinue(c.records, d.records, time) && ReplicasFrom(d.records, |c.records|, node, epoch, time)
            && AllNew(d, |c.records|, time)
  {
    hide Sound, AllContinue;
    ClearContinues(c, time);
    InstallFromContinues(Clear(c, time), replicas, time, node, epoch, |c.records|);
    ContinueTwice(c.records, Clear(c, time).records, Install(c, replicas, time, node, epoch).records, time);
  }
}
