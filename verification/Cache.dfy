/** A private cache as a value: lookup, planned admission, eviction, replica installation and its records. */
module Cache {
  import opened Model
  import opened Totals
  import opened Policies

  /** One admission attempt and what became of the placement. */
  datatype Record = Record(node: nat, epoch: nat, request: nat, obj: nat, time: nat, admitted: bool, size: nat,
                           futureHits: nat, reused: bool, evicted: bool, evictionTime: nat, victims: seq<nat>)

  datatype CacheState =
    CacheState(capacity: nat, occupancy: nat, hits: nat, misses: nat, bytesAdmitted: nat, bytesEvicted: nat,
               policy: Policy, entries: map<nat, Entry>, records: seq<Record>, active: map<nat, nat>)

  function NewCache(capacity: nat, policy: Policy): CacheState {
    CacheState(capacity, 0, 0, 0, 0, 0, policy, map[], [], map[])
  }

  /* ---- Operations ---- */

  ghost function Lookup(c: CacheState, r: Request, time: nat, telemetry: Telemetry): CacheState {
    var policy := OnLookup(c.policy, r.epoch, r.obj, telemetry);
    if r.obj !in c.entries then c.(misses := c.misses + 1, policy := policy)
    else
      c.(hits := c.hits + 1, policy := policy,
         entries := c.entries[r.obj := Touch(policy, c.entries[r.obj], time)],
         records := CreditHit(c.records, c.active, r.obj))
  }

  function CreditHit(records: seq<Record>, active: map<nat, nat>, obj: nat): seq<Record> {
    if obj in active && active[obj] < |records| then
      var r := records[active[obj]];
      records[active[obj] := r.(futureHits := r.futureHits + 1, reused := true)]
    else records
  }

  /** The outcome of planning victims on a copy of the residents. */
  datatype Plan = Plan(room: bool, victims: seq<nat>)

  ghost function PlanVictims(p: Policy, entries: map<nat, Entry>, occupancy: int, capacity: nat, r: Request): Plan
    decreases |entries|
  {
    if occupancy + r.size <= capacity then Plan(true, [])
    else
      var v := SelectVictim(p, entries, r.obj, r.size);
      if v.None? then Plan(false, [])
      else
        var rest := PlanVictims(p, entries - {v.value}, occupancy - entries[v.value].size, capacity, r);
        Plan(rest.room, [v.value] + rest.victims)
  }

  function CloseRecord(r: Record, time: nat): Record {
    r.(evicted := true, evictionTime := time)
  }

  function Evict(c: CacheState, obj: nat, time: nat): CacheState {
    if obj !in c.entries then c
    else
      c.(records := if obj in c.active && c.active[obj] < |c.records|
                    then c.records[c.active[obj] := CloseRecord(c.records[c.active[obj]], time)] else c.records,
         active := c.active - {obj},
         occupancy := if c.occupancy >= c.entries[obj].size then c.occupancy - c.entries[obj].size else 0,
         bytesEvicted := c.bytesEvicted + c.entries[obj].size,
         entries := c.entries - {obj})
  }

  function EvictAll(c: CacheState, victims: seq<nat>, time: nat): CacheState
    decreases |victims|
  {
    if victims == [] then c else EvictAll(Evict(c, victims[0], time), victims[1..], time)
  }

  function AttemptRecord(r: Request, time: nat, admitted: bool, victims: seq<nat>): Record {
    Record(r.source, r.epoch, r.id, r.obj, time, admitted, r.size, 0, false, false, 0, victims)
  }

  function Reject(c: CacheState, r: Request, time: nat, victims: seq<nat>): CacheState {
    c.(records := c.records + [AttemptRecord(r, time, false, victims)])
  }

  function Place(c: CacheState, obj: nat, entry: Entry, record: Record): CacheState {
    c.(occupancy := c.occupancy + entry.size, bytesAdmitted := c.bytesAdmitted + entry.size,
       entries := c.entries[obj := entry], records := c.records + [record], active := c.active[obj := |c.records|])
  }

  ghost predicate Succeeds(c: CacheState, r: Request) {
    Admits(c.policy, r.obj, r.size) && r.size <= c.capacity &&
    PlanVictims(c.policy, c.entries, c.occupancy, c.capacity, r).room
  }

  ghost function Admit(c: CacheState, r: Request, time: nat): CacheState {
    if !Admits(c.policy, r.obj, r.size) || r.size > c.capacity then Reject(c, r, time, [])
    else
      var plan := PlanVictims(c.policy, c.entries, c.occupancy, c.capacity, r);
      if !plan.room then Reject(c, r, time, plan.victims)
      else
        Place(EvictAll(c, plan.victims, time), r.obj, Touch(c.policy, Entry(r.size, time, time), time),
              AttemptRecord(r, time, true, plan.victims))
  }

  ghost function EpochStart(c: CacheState, epoch: nat, telemetry: Telemetry): CacheState {
    c.(policy := OnEpochStart(c.policy, epoch, telemetry))
  }

  function CloseAll(records: seq<Record>, open: set<nat>, time: nat): (closed: seq<Record>)
    ensures |closed| == |records|
  {
    seq(|records|, i requires 0 <= i < |records| => if i in open then CloseRecord(records[i], time) else records[i])
  }

  ghost function Sizes(entries: map<nat, Entry>): map<nat, nat> {
    map o | o in entries :: entries[o].size
  }

  ghost function Clear(c: CacheState, time: nat): CacheState {
    c.(records := CloseAll(c.records, (set o | o in c.entries && o in c.active :: c.active[o]), time),
       active := map[], occupancy := 0, entries := map[],
       bytesEvicted := c.bytesEvicted + Total(Sizes(c.entries)))
  }

  function ReplicaRecord(replica: Replica, time: nat, node: nat, epoch: nat): Record {
    Record(node, epoch, 0, replica.obj, time, true, replica.size, 0, false, false, 0, [])
  }

  /** Installs a list of replicas: oversized and repeated ones are skipped, the first that does not fit stops. */
  function InstallFrom(c: CacheState, replicas: seq<Replica>, time: nat, node: nat, epoch: nat): CacheState
    decreases |replicas|
  {
    if replicas == [] then c
    else
      var first := replicas[0];
      if first.size > c.capacity then InstallFrom(c, replicas[1..], time, node, epoch)
      else if c.occupancy + first.size > c.capacity then c
      else if first.obj in c.entries then InstallFrom(c, replicas[1..], time, node, epoch)
      else
        InstallFrom(Place(c, first.obj, Entry(first.size, time, time), ReplicaRecord(first, time, node, epoch)),
                    replicas[1..], time, node, epoch)
  }

  ghost function Install(c: CacheState, replicas: seq<Replica>, time: nat, node: nat, epoch: nat): CacheState {
    InstallFrom(Clear(c, time), replicas, time, node, epoch)
  }

  /* ---- What every operation keeps ---- */

  function FutureHits(r: Record): nat { r.futureHits }

  function AdmittedSize(r: Record): nat { if r.admitted then r.size else 0 }

  function EvictedSize(r: Record): nat { if r.evicted then r.size else 0 }

  /** The resident bytes fit the counted occupancy, which fits the capacity. */
  ghost predicate Fits(c: CacheState) {
    Total(Sizes(c.entries)) <= c.occupancy <= c.capacity
  }

  /** The counted occupancy is exactly the resident bytes. */
  ghost predicate Exact(c: CacheState) {
    c.occupancy == Total(Sizes(c.entries))
  }

  predicate IsOpen(r: Record, obj: nat, size: nat) {
    r.admitted && !r.evicted && r.obj == obj && r.size == size
  }

  /** Every resident has exactly one open record, and nothing else is active. */
  ghost predicate Tracked(c: CacheState) {
    c.active.Keys == c.entries.Keys &&
    forall o :: o in c.entries ==> c.active[o] < |c.records| && IsOpen(c.records[c.active[o]], o, c.entries[o].size)
  }

  /** The counters are the sums over the records. */
  ghost predicate Balanced(c: CacheState) {
    c.hits == SumBy(FutureHits, c.records) &&
    c.bytesAdmitted == SumBy(AdmittedSize, c.records) &&
    c.bytesEvicted == SumBy(EvictedSize, c.records)
  }

  /** Only residents, occupancy, evicted bytes and records may differ. */
  predicate SameButContents(c: CacheState, d: CacheState) {
    d.capacity == c.capacity && d.policy == c.policy && d.hits == c.hits && d.misses == c.misses &&
    d.bytesAdmitted == c.bytesAdmitted
  }

  ghost predicate Sound(c: CacheState) {
    Fits(c) && Tracked(c) && Balanced(c)
  }

  lemma NewCacheIsSound(capacity: nat, policy: Policy)
    ensures Sound(NewCache(capacity, policy)) && Exact(NewCache(capacity, policy))
  {
    assert Sizes(map[]) == map[];
  }

  lemma SizesWithout(entries: map<nat, Entry>, obj: nat)
    requires obj in entries
    ensures Sizes(entries - {obj}) == Sizes(entries) - {obj}
    ensures Total(Sizes(entries)) == entries[obj].size + Total(Sizes(entries - {obj}))
  {
    TotalRemove(Sizes(entries), obj);
    assert Sizes(entries - {obj}) == Sizes(entries) - {obj};
  }

  lemma SizesWith(entries: map<nat, Entry>, obj: nat, entry: Entry)
    ensures Total(Sizes(entries[obj := entry])) + (if obj in entries then entries[obj].size else 0) ==
            Total(Sizes(entries)) + entry.size
  {
    TotalUpdate(Sizes(entries), obj, entry.size);
    assert Sizes(entries[obj := entry]) == Sizes(entries)[obj := entry.size];
  }

  /** A lookup keeps the books and the residents; it hits exactly when the object is resident. */
  lemma LookupKeeps(c: CacheState, r: Request, time: nat, telemetry: Telemetry)
    requires Sound(c)
    ensures Sound(Lookup(c, r, time, telemetry))
    ensures Lookup(c, r, time, telemetry).entries.Keys == c.entries.Keys
    ensures Exact(c) ==> Exact(Lookup(c, r, time, telemetry))
    ensures Lookup(c, r, time, telemetry).hits == c.hits + (if r.obj in c.entries then 1 else 0)
  {
    var d := Lookup(c, r, time, telemetry);
    if r.obj in c.entries {
      var i := c.active[r.obj];
      SumByUpdate(FutureHits, c.records, i, d.records[i]);
      SumByUpdate(AdmittedSize, c.records, i, d.records[i]);
      SumByUpdate(EvictedSize, c.records, i, d.records[i]);
      assert Sizes(d.entries) == Sizes(c.entries);
    }
  }

  lemma EvictKeeps(c: CacheState, obj: nat, time: nat)
    requires Sound(c) && obj in c.entries
    ensures Sound(Evict(c, obj, time))
    ensures var d := Evict(c, obj, time);
            && d.entries == c.entries - {obj} && d.occupancy == c.occupancy - c.entries[obj].size
            && d.bytesEvicted == c.bytesEvicted + c.entries[obj].size && SameButContents(c, d)
            && (Exact(c) ==> Exact(d))
  {
    var d := Evict(c, obj, time);
    SizesWithout(c.entries, obj);
    var i := c.active[obj];
    SumByUpdate(FutureHits, c.records, i, d.records[i]);
    SumByUpdate(AdmittedSize, c.records, i, d.records[i]);
    SumByUpdate(EvictedSize, c.records, i, d.records[i]);
  }

  lemma PlaceKeeps(c: CacheState, obj: nat, entry: Entry, record: Record)
    requires Sound(c) && c.occupancy + entry.size <= c.capacity
    requires IsOpen(record, obj, entry.size) && record.futureHits == 0
    ensures Sound(Place(c, obj, entry, record))
    ensures Exact(c) ==> (Exact(Place(c, obj, entry, record)) <==> obj !in c.entries || c.entries[obj].size == 0)
  {
    SizesWith(c.entries, obj, entry);
    SumByAppend(FutureHits, c.records, record);
    SumByAppend(AdmittedSize, c.records, record);
    SumByAppend(EvictedSize, c.records, record);
  }

  lemma RejectKeeps(c: CacheState, r: Request, time: nat, victims: seq<nat>)
    requires Sound(c)
    ensures Sound(Reject(c, r, time, victims))
  {
    var record := AttemptRecord(r, time, false, victims);
    SumByAppend(FutureHits, c.records, record);
    SumByAppend(AdmittedSize, c.records, record);
    SumByAppend(EvictedSize, c.records, record);
  }
}
