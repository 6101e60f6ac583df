/** The statistics as a value, and the counters that each record operation moves. */
module Statistics {
  import opened Model
  import opened Totals

  datatype ChannelBucket = ChannelBucket(accesses: nat, bytes: nat, serviceTime: nat, queueWait: nat,
                                         maxQueueWait: nat, waitSamples: nat, maxDepth: nat)

  datatype NodeLatency = NodeLatency(total: nat, samples: seq<nat>)

  datatype StatsState =
    StatsState(totalLatency: nat, latencies: seq<nat>, nodeLatencies: map<nat, NodeLatency>,
               totalWait: nat, maxWait: nat, waitSamples: nat, peakDepth: nat, peakChannelDepth: nat,
               hits: nat, misses: nat, nodeHits: map<nat, nat>, nodeMisses: map<nat, nat>,
               objects: Telemetry, channels: map<nat, map<nat, ChannelBucket>>)

  const NoStats := StatsState(0, [], map[], 0, 0, 0, 0, 0, 0, 0, map[], map[], map[], map[])

  const NoObject := ObjectBucket(0, {}, 0, 0, 0, 0, 0, 0)

  const NoChannel := ChannelBucket(0, 0, 0, 0, 0, 0, 0)

  function Max(a: nat, b: nat): nat { if a < b then b else a }

  function Row<V>(table: map<nat, map<nat, V>>, epoch: nat): map<nat, V> {
    if epoch in table then table[epoch] else map[]
  }

  function Cell<V>(table: map<nat, map<nat, V>>, epoch: nat, key: nat, default: V): V {
    if key in Row(table, epoch) then Row(table, epoch)[key] else default
  }

  function Put<V>(table: map<nat, map<nat, V>>, epoch: nat, key: nat, value: V): map<nat, map<nat, V>> {
    table[epoch := Row(table, epoch)[key := value]]
  }

  function Plus(counts: map<nat, nat>, key: nat): map<nat, nat> {
    counts[key := (if key in counts then counts[key] else 0) + 1]
  }

  function RecordLatency(s: StatsState, node: nat, latency: nat): StatsState {
    var known := if node in s.nodeLatencies then s.nodeLatencies[node] else NodeLatency(0, []);
    s.(totalLatency := s.totalLatency + latency, latencies := s.latencies + [latency],
       nodeLatencies := s.nodeLatencies[node := NodeLatency(known.total + latency, known.samples + [latency])])
  }

  function RecordMemoryWait(s: StatsState, wait: nat): StatsState {
    s.(totalWait := s.totalWait + wait, waitSamples := s.waitSamples + 1, maxWait := Max(s.maxWait, wait))
  }

  function ObserveDepth(s: StatsState, depth: nat): StatsState {
    s.(peakDepth := Max(s.peakDepth, depth), peakChannelDepth := Max(s.peakChannelDepth, depth))
  }

  function RecordHit(s: StatsState, node: nat): StatsState {
    s.(hits := s.hits + 1, nodeHits := Plus(s.nodeHits, node))
  }

  function RecordMiss(s: StatsState, node: nat): StatsState {
    s.(misses := s.misses + 1, nodeMisses := Plus(s.nodeMisses, node))
  }

  function AccessedObject(s: StatsState, r: Request, depth: nat): ObjectBucket {
    var b := Cell(s.objects, r.epoch, r.obj, NoObject);
    b.(accesses := b.accesses + 1, requesters := b.requesters + {r.source}, maxDepth := Max(b.maxDepth, depth))
  }

  function AccessedChannel(s: StatsState, r: Request, c: nat, depth: nat): ChannelBucket {
    var k := Cell(s.channels, r.epoch, c, NoChannel);
    k.(accesses := k.accesses + 1, maxDepth := Max(k.maxDepth, depth))
  }

  function WaitedObject(s: StatsState, r: Request, wait: nat): ObjectBucket {
    var b := Cell(s.objects, r.epoch, r.obj, NoObject);
    b.(queueWait := b.queueWait + wait, waitSamples := b.waitSamples + 1, maxQueueWait := Max(b.maxQueueWait, wait))
  }

  function WaitedChannel(s: StatsState, r: Request, c: nat, wait: nat): ChannelBucket {
    var k := Cell(s.channels, r.epoch, c, NoChannel);
    k.(queueWait := k.queueWait + wait, waitSamples := k.waitSamples + 1, maxQueueWait := Max(k.maxQueueWait, wait))
  }

  function ServedObject(s: StatsState, r: Request, service: nat): ObjectBucket {
    var b := Cell(s.objects, r.epoch, r.obj, NoObject);
    b.(serviceTime := b.serviceTime + service, bytes := b.bytes + r.size)
  }

  function ServedChannel(s: StatsState, r: Request, c: nat, service: nat): ChannelBucket {
    var k := Cell(s.channels, r.epoch, c, NoChannel);
    k.(serviceTime := k.serviceTime + service, bytes := k.bytes + r.size)
  }

  function RecordRemoteAccess(s: StatsState, r: Request, channel: nat, depth: nat): StatsState {
    s.(objects := Put(s.objects, r.epoch, r.obj, AccessedObject(s, r, depth)),
       channels := Put(s.channels, r.epoch, channel, AccessedChannel(s, r, channel, depth)))
  }

  function RecordQueueWait(s: StatsState, r: Request, channel: nat, wait: nat): StatsState {
    s.(objects := Put(s.objects, r.epoch, r.obj, WaitedObject(s, r, wait)),
       channels := Put(s.channels, r.epoch, channel, WaitedChannel(s, r, channel, wait)))
  }

  function RecordService(s: StatsState, r: Request, channel: nat, service: nat): StatsState {
    s.(objects := Put(s.objects, r.epoch, r.obj, ServedObject(s, r, service)),
       channels := Put(s.channels, r.epoch, channel, ServedChannel(s, r, channel, service)))
  }

  /* ---- Sums over a table of buckets ---- */

  ghost function Measures<V(!new)>(f: V -> nat, row: map<nat, V>): map<nat, nat> {
    map k | k in row :: f(row[k])
  }

  ghost function RowSum<V(!new)>(f: V -> nat, row: map<nat, V>): nat {
    Total(Measures(f, row))
  }

  ghost function RowSums<V(!new)>(f: V -> nat, table: map<nat, map<nat, V>>): map<nat, nat> {
    map e | e in table :: RowSum(f, table[e])
  }

  /** The sum of a measure over all buckets of all epochs. */
  ghost function TableSum<V(!new)>(f: V -> nat, table: map<nat, map<nat, V>>): nat {
    Total(RowSums(f, table))
  }

  lemma RowSumUpdate<V(!new)>(f: V -> nat, row: map<nat, V>, key: nat, v: V)
    ensures RowSum(f, row[key := v]) + (if key in row then f(row[key]) else 0) == RowSum(f, row) + f(v)
  {
    TotalUpdate(Measures(f, row), key, f(v));
    assert Measures(f, row[key := v]) == Measures(f, row)[key := f(v)];
  }

  /** One bucket changes; a missing bucket counts for nothing. */
  lemma PutSum<V(!new)>(f: V -> nat, table: map<nat, map<nat, V>>, epoch: nat, key: nat, default: V, v: V)
    requires f(default) == 0
    ensures TableSum(f, Put(table, epoch, key, v)) + f(Cell(table, epoch, key, default)) == TableSum(f, table) + f(v)
  {
    var row := Row(table, epoch);
    var sum := RowSum(f, row[key := v]);
    RowSumUpdate(f, row, key, v);
    TotalUpdate(RowSums(f, table), epoch, sum);
    assert RowSums(f, Put(table, epoch, key, v)) == RowSums(f, table)[epoch := sum];
    if epoch !in table {
      assert Measures(f, row) == map[];
    }
  }

  function ServiceOf(b: ObjectBucket): nat { b.serviceTime }
}
