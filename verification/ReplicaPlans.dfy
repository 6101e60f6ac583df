/** Building the oracle's replica plan: demand tables filled request by request, then ranked. */
module ReplicaPlans {
  import opened Model
  import opened Policies
  import opened Totals
  import opened Statistics
  import opened Protocol
  import opened Oracle

  /** How often an object is requested in an epoch, and its largest size. */
  datatype ObjectDemand = ObjectDemand(requests: nat, size: nat)

  const NoDemand := ObjectDemand(0, 0)

  type DemandTable = map<nat, map<nat, ObjectDemand>>

  /* ---- First pass ---- */

  /** Request `y` of node `j` comes before request `x` of node `i`. */
  predicate Seen(i: nat, x: nat, j: nat, y: nat) { j < i || (j == i && y < x) }

  /** The requests for an object among those seen before request `x` of node `i`. */
  ghost function SeenDemand(nodes: seq<NodeConfig>, i: nat, x: nat, e: nat, o: nat): nat
    requires i <= |nodes| && (i < |nodes| ==> x <= |nodes[i].requests|)
  {
    Covered(nodes[..i], e, {o}) + (if i < |nodes| then SumBy(Covers(e, {o}), nodes[i].requests[..x]) else 0)
  }

  ghost predicate SizeSeen(nodes: seq<NodeConfig>, i: nat, x: nat, e: nat, o: nat, size: nat) {
    (forall j, y :: 0 <= j < |nodes| && 0 <= y < |nodes[j].requests| && Seen(i, x, j, y) ==>
                      IsFor(nodes[j].requests[y], e, o) ==> nodes[j].requests[y].size <= size) &&
    (exists j, y :: 0 <= j < |nodes| && 0 <= y < |nodes[j].requests| && Seen(i, x, j, y) &&
                    IsFor(nodes[j].requests[y], e, o) && nodes[j].requests[y].size == size)
  }

  ghost predicate TalliedAt(table: DemandTable, nodes: seq<NodeConfig>, i: nat, x: nat, e: nat, o: nat)
    requires i <= |nodes| && (i < |nodes| ==> x <= |nodes[i].requests|)
  {
    Cell(table, e, o, NoDemand).requests == SeenDemand(nodes, i, x, e, o) &&
    (o in Row(table, e) ==> Row(table, e)[o].requests > 0 && SizeSeen(nodes, i, x, e, o, Row(table, e)[o].size))
  }

  ghost predicate Tallied(table: DemandTable, nodes: seq<NodeConfig>, i: nat, x: nat)
    requires i <= |nodes| && (i < |nodes| ==> x <= |nodes[i].requests|)
  {
    forall e, o {:trigger TalliedAt(table, nodes, i, x, e, o)} ::
      0 <= e && 0 <= o ==> TalliedAt(table, nodes, i, x, e, o)
  }

  function Raised(d: ObjectDemand, size: nat): ObjectDemand {
    ObjectDemand(d.requests + 1, if d.size < size then size else d.size)
  }

  lemma SeenOneMore(nodes: seq<NodeConfig>, i: nat, x: nat, e: nat, o: nat)
    requires i < |nodes| && x < |nodes[i].requests|
    ensures SeenDemand(nodes, i, x + 1, e, o) ==
            SeenDemand(nodes, i, x, e, o) + (if IsFor(nodes[i].requests[x], e, o) then 1 else 0)
  {
    var requests := nodes[i].requests;
    assert requests[..x + 1] == requests[..x] + [requests[x]];
    SumByAppend(Covers(e, {o}), requests[..x], requests[x]);
  }

  lemma SizeOneMore(nodes: seq<NodeConfig>, i: nat, x: nat, e: nat, o: nat, size: nat)
    requires i < |nodes| && x < |nodes[i].requests| && SizeSeen(nodes, i, x, e, o, size)
    ensures var r := nodes[i].requests[x];
            SizeSeen(nodes, i, x + 1, e, o, if IsFor(r, e, o) && size < r.size then r.size else size)
  {
    var r := nodes[i].requests[x];
    assert Seen(i, x + 1, i, x);
    var j, y :| 0 <= j < |nodes| && 0 <= y < |nodes[j].requests| && Seen(i, x, j, y) &&
                IsFor(nodes[j].requests[y], e, o) && nodes[j].requests[y].size == size;
    assert Seen(i, x + 1, j, y);
  }

  lemma SizeFirst(nodes: seq<NodeConfig>, i: nat, x: nat, e: nat, o: nat)
    requires i < |nodes| && x < |nodes[i].requests| && IsFor(nodes[i].requests[x], e, o)
    requires forall j, y :: 0 <= j < |nodes| && 0 <= y < |nodes[j].requests| && Seen(i, x, j, y) ==>
                              !IsFor(nodes[j].requests[y], e, o)
    ensures SizeSeen(nodes, i, x + 1, e, o, nodes[i].requests[x].size)
  {
    assert Seen(i, x + 1, i, x);
  }

  lemma {:induction false} SumByPositive<T>(f: T -> nat, s: seq<T>, k: nat)
    requires k < |s| && f(s[k]) > 0
    ensures SumBy(f, s) > 0
  {
    SumByMember(f, s, k);
  }

  /** A request that has been seen is counted. */
  lemma SeenIsCounted(nodes: seq<NodeConfig>, i: nat, x: nat, e: nat, o: nat, j: nat, y: nat)
    requires i <= |nodes| && (i < |nodes| ==> x <= |nodes[i].requests|)
    requires j < |nodes| && y < |nodes[j].requests| && Seen(i, x, j, y) && IsFor(nodes[j].requests[y], e, o)
    ensures SeenDemand(nodes, i, x, e, o) > 0
  {
    if j < i {
      SumByPositive(Covers(e, {o}), nodes[j].requests, y);
      assert nodes[..i][j] == nodes[j];
      SumByPositive(NodeCovers(e, {o}), nodes[..i], j);
    } else {
      assert nodes[i].requests[..x][y] == nodes[i].requests[y];
      SumByPositive(Covers(e, {o}), nodes[i].requests[..x], y);
    }
  }

  lemma CountOne(table: DemandTable, nodes: seq<NodeConfig>, i: nat, x: nat)
    requires i < |nodes| && x < |nodes[i].requests| && Tallied(table, nodes, i, x)
    ensures var r := nodes[i].requests[x];
            Tallied(Put(table, r.epoch, r.obj, Raised(Cell(table, r.epoch, r.obj, NoDemand), r.size)), nodes, i, x + 1)
  {
    var r := nodes[i].requests[x];
    var table' := Put(table, r.epoch, r.obj, Raised(Cell(table, r.epoch, r.obj, NoDemand), r.size));
    var next := x + 1;
    forall e: nat, o: nat ensures TalliedAt(table', nodes, i, next, e, o) {
      assert TalliedAt(table, nodes, i, x, e, o);
      CountAt(table, nodes, i, x, e, o);
    }
  }

  lemma CountAt(table: DemandTable, nodes: seq<NodeConfig>, i: nat, x: nat, e: nat, o: nat)
    requires i < |nodes| && x < |nodes[i].requests| && TalliedAt(table, nodes, i, x, e, o)
    ensures var r := nodes[i].requests[x];
            TalliedAt(Put(table, r.epoch, r.obj, Raised(Cell(table, r.epoch, r.obj, NoDemand), r.size)),
                      nodes, i, x + 1, e, o)
  {
    var r := nodes[i].requests[x];
    SeenOneMore(nodes, i, x, e, o);
    if o in Row(table, e) {
      SizeOneMore(nodes, i, x, e, o, Row(table, e)[o].size);
    } else if IsFor(r, e, o) {
      forall j, y | 0 <= j < |nodes| && 0 <= y < |nodes[j].requests| && Seen(i, x, j, y)
        ensures !IsFor(nodes[j].requests[y], e, o)
      {
        if IsFor(nodes[j].requests[y], e, o) {
          SeenIsCounted(nodes, i, x, e, o, j, y);
        }
      }
      SizeFirst(nodes, i, x, e, o);
    }
    hide SeenDemand, SizeSeen;
  }

  lemma NodeDone(table: DemandTable, nodes: seq<NodeConfig>, i: nat)
    requires i < |nodes| && Tallied(table, nodes, i, |nodes[i].requests|)
    ensures Tallied(table, nodes, i + 1, 0)
  {
    var next, first := i + 1, 0;
    forall e: nat, o: nat ensures TalliedAt(table, nodes, next, first, e, o) {
      assert TalliedAt(table, nodes, i, |nodes[i].requests|, e, o);
      assert nodes[..i + 1] == nodes[..i] + [nodes[i]];
      SumByAppend(NodeCovers(e, {o}), nodes[..i], nodes[i]);
      assert nodes[i].requests[..|nodes[i].requests|] == nodes[i].requests;
      SameSeen(nodes, i, e, o, if o in Row(table, e) then Row(table, e)[o].size else 0);
    }
  }

  lemma SameSeen(nodes: seq<NodeConfig>, i: nat, e: nat, o: nat, size: nat)
    requires i < |nodes|
    ensures SizeSeen(nodes, i, |nodes[i].requests|, e, o, size) ==> SizeSeen(nodes, i + 1, 0, e, o, size)
  {
    if SizeSeen(nodes, i, |nodes[i].requests|, e, o, size) {
      var j, y :| 0 <= j < |nodes| && 0 <= y < |nodes[j].requests| && Seen(i, |nodes[i].requests|, j, y) &&
                  IsFor(nodes[j].requests[y], e, o) && nodes[j].requests[y].size == size;
      assert Seen(i + 1, 0, j, y);
      forall k, z | 0 <= k < |nodes| && 0 <= z < |nodes[k].requests| && Seen(i + 1, 0, k, z) &&
          IsFor(nodes[k].requests[z], e, o)
        ensures nodes[k].requests[z].size <= size
      {
        assert Seen(i, |nodes[i].requests|, k, z);
      }
    }
  }

  /** Groups all requests by epoch, then by object. */
  method TallyDemand(nodes: seq<NodeConfig>) returns (table: DemandTable)
    ensures Tallied(table, nodes, |nodes|, 0)
  {
    hide TalliedAt;
    table := map[];
    NothingSeen(nodes);
    for i := 0 to |nodes|
      invariant Tallied(table, nodes, i, 0)
    {
      for x := 0 to |nodes[i].requests|
        invariant Tallied(table, nodes, i, x)
      {
        var r := nodes[i].requests[x];
        CountOne(table, nodes, i, x);
        table := Put(table, r.epoch, r.obj, Raised(Cell(table, r.epoch, r.obj, NoDemand), r.size));
      }
      NodeDone(table, nodes, i);
    }
  }

  lemma NothingSeen(nodes: seq<NodeConfig>)
    ensures Tallied(map[], nodes, 0, 0)
  {
    var table: DemandTable, i, x := map[], 0, 0;
    assert nodes[..0] == [];
    forall e: nat, o: nat ensures TalliedAt(table, nodes, i, x, e, o) {
      if nodes != [] {
        assert nodes[0].requests[..0] == [];
      }
    }
  }

  /* ---- Second pass ---- */

  /** The order in which replicas are listed: most requests first, then the smallest identifier. */
  predicate Precedes(row: map<nat, ObjectDemand>, a: Replica, b: Replica) {
    a.obj in row && b.obj in row &&
    (row[a.obj].requests > row[b.obj].requests || (row[a.obj].requests == row[b.obj].requests && a.obj < b.obj))
  }

  ghost predicate Ranked(row: map<nat, ObjectDemand>, replicas: seq<Replica>) {
    forall i, j {:trigger Precedes(row, replicas[i], replicas[j])} ::
      0 <= i < j < |replicas| ==> Precedes(row, replicas[i], replicas[j])
  }

  /** Exactly the given objects, with their sizes. */
  predicate Lists(row: map<nat, ObjectDemand>, replicas: seq<Replica>, objs: set<nat>) {
    Objs(replicas) == objs <= row.Keys &&
    forall i :: 0 <= i < |replicas| ==> replicas[i].obj in row && replicas[i].size == row[replicas[i].obj].size
  }

  /** Puts one more replica in its place. */
  method InsertRanked(row: map<nat, ObjectDemand>, replicas: seq<Replica>, r: Replica) returns (longer: seq<Replica>)
    requires Ranked(row, replicas) && Lists(row, replicas, Objs(replicas))
    requires r.obj in row && r.obj !in Objs(replicas) && r.size == row[r.obj].size
    ensures Ranked(row, longer) && Lists(row, longer, Objs(replicas) + {r.obj})
  {
    var k := 0;
    while k < |replicas| && Precedes(row, replicas[k], r)
      invariant k <= |replicas| && forall i :: 0 <= i < k ==> Precedes(row, replicas[i], r)
    {
      k := k + 1;
    }
    longer := replicas[..k] + [r] + replicas[k..];
    InsertedIsRanked(row, replicas, r, k);
    InsertedLists(replicas, r, k);
  }

  lemma InsertedIsRanked(row: map<nat, ObjectDemand>, replicas: seq<Replica>, r: Replica, k: nat)
    requires Ranked(row, replicas) && Lists(row, replicas, Objs(replicas)) && k <= |replicas|
    requires r.obj in row && r.obj !in Objs(replicas)
    requires forall i :: 0 <= i < k ==> Precedes(row, replicas[i], r)
    requires k < |replicas| ==> !Precedes(row, replicas[k], r)
    ensures Ranked(row, replicas[..k] + [r] + replicas[k..])
  {
    var longer := replicas[..k] + [r] + replicas[k..];
    forall j | k <= j < |replicas| ensures Precedes(row, r, replicas[j]) {
      assert replicas[k].obj in Objs(replicas);
      assert k < j ==> Precedes(row, replicas[k], replicas[j]);
    }
    forall i, j | 0 <= i < j < |longer| ensures Precedes(row, longer[i], longer[j]) {
      var a, b := if i > k then i - 1 else i, if j > k then j - 1 else j;
      assert i != k && j != k ==> Precedes(row, replicas[a], replicas[b]);
    }
  }

  lemma InsertedLists(replicas: seq<Replica>, r: Replica, k: nat)
    requires k <= |replicas|
    ensures Objs(replicas[..k] + [r] + replicas[k..]) == Objs(replicas) + {r.obj}
  {
    var longer := replicas[..k] + [r] + replicas[k..];
    forall o | o in Objs(replicas) ensures o in Objs(longer) {
      var i :| 0 <= i < |replicas| && replicas[i].obj == o;
      assert longer[if i < k then i else i + 1].obj == o;
    }
    assert longer[k].obj == r.obj;
    forall o | o in Objs(longer) ensures o in Objs(replicas) + {r.obj} {
      var i :| 0 <= i < |longer| && longer[i].obj == o;
      assert i != k ==> replicas[if i < k then i else i - 1].obj == o;
    }
  }

  /** All objects of one epoch, taken from the table in any order and ranked. */
  method RankEpoch(row: map<nat, ObjectDemand>) returns (replicas: seq<Replica>)
    ensures Ranked(row, replicas) && Lists(row, replicas, row.Keys)
  {
    replicas := [];
    var rest := row.Keys;
    while rest != {}
      invariant rest <= row.Keys && Ranked(row, replicas) && Lists(row, replicas, row.Keys - rest)
      decreases |rest|
    {
      var o :| o in rest;
      assert row.Keys - rest + {o} == row.Keys - (rest - {o});
      rest := rest - {o};
      replicas := InsertRanked(row, replicas, Replica(o, row[o].size));
    }
  }

  /** The demand table says how often and with which largest size every object is requested. */
  lemma TallyMeans(table: DemandTable, nodes: seq<NodeConfig>, e: nat, o: nat)
    requires Tallied(table, nodes, |nodes|, 0)
    ensures Demand(nodes, e, o) == Cell(table, e, o, NoDemand).requests
    ensures o in Row(table, e) <==> Demand(nodes, e, o) > 0
    ensures o in Row(table, e) ==> LargestSize(nodes, e, o, Row(table, e)[o].size)
  {
    var i, x := |nodes|, 0;
    assert TalliedAt(table, nodes, i, x, e, o);
    assert nodes[..|nodes|] == nodes;
    if o in Row(table, e) {
      var size := Row(table, e)[o].size;
      forall j, y | 0 <= j < |nodes| && 0 <= y < |nodes[j].requests| && IsFor(nodes[j].requests[y], e, o)
        ensures nodes[j].requests[y].size <= size
      {
        assert Seen(i, x, j, y);
      }
    }
  }

  lemma RankedIsPlanned(table: DemandTable, nodes: seq<NodeConfig>, e: nat, replicas: seq<Replica>)
    requires Tallied(table, nodes, |nodes|, 0)
    requires Ranked(Row(table, e), replicas) && Lists(Row(table, e), replicas, Row(table, e).Keys)
    ensures RankedByDemand(nodes, e, replicas)
  {
    var row := Row(table, e);
    forall o: nat ensures Demand(nodes, e, o) > 0 <==> o in Objs(replicas) {
      TallyMeans(table, nodes, e, o);
    }
    forall i | 0 <= i < |replicas| ensures LargestSize(nodes, e, replicas[i].obj, replicas[i].size) {
      TallyMeans(table, nodes, e, replicas[i].obj);
    }
    hide Demand, LargestSize, Tallied;
    forall i, j | 0 <= i < j < |replicas| ensures Hotter(nodes, e, replicas[i].obj, replicas[j].obj) {
      TallyMeans(table, nodes, e, replicas[i].obj);
      TallyMeans(table, nodes, e, replicas[j].obj);
      assert Precedes(row, replicas[i], replicas[j]);
    }
  }

  /** The plan that the simulator builds ranks the objects of every epoch by their demand. */
  method BuildGlobalReplicaPlan(nodes: seq<NodeConfig>) returns (plan: ReplicaPlan)
    ensures IsPlan(nodes, plan)
  {
    var table := TallyDemand(nodes);
    plan := map[];
    var rest := table.Keys;
    hide Tallied, RankedByDemand;
    while rest != {}
      invariant rest <= table.Keys && plan.Keys == table.Keys - rest
      invariant forall e :: e in plan ==> RankedByDemand(nodes, e, plan[e])
      decreases |rest|
    {
      var e :| e in rest;
      rest := rest - {e};
      var replicas := RankEpoch(table[e]);
      RankedIsPlanned(table, nodes, e, replicas);
      plan := plan[e := replicas];
    }
    forall i, x | 0 <= i < |nodes| && 0 <= x < |nodes[i].requests| ensures nodes[i].requests[x].epoch in plan {
      RequestIsTallied(table, nodes, i, x);
    }
  }

  lemma RequestIsTallied(table: DemandTable, nodes: seq<NodeConfig>, i: nat, x: nat)
    requires Tallied(table, nodes, |nodes|, 0) && i < |nodes| && x < |nodes[i].requests|
    ensures nodes[i].requests[x].epoch in table
  {
    var r, n, z := nodes[i].requests[x], |nodes|, 0;
    assert IsFor(r, r.epoch, r.obj);
    SeenIsCounted(nodes, n, z, r.epoch, r.obj, i, x);
    assert TalliedAt(table, nodes, n, z, r.epoch, r.obj);
  }

  /** Only the oracle policy runs with a plan. */
  method PlanFor(policy: Policy, nodes: seq<NodeConfig>) returns (plan: Option<ReplicaPlan>)
    ensures plan.Some? <==> policy == GlobalHottest
    ensures plan.Some? ==> IsPlan(nodes, plan.value)
  {
    if policy != GlobalHottest {
      return None;
    }
    var ranked := BuildGlobalReplicaPlan(nodes);
    plan := Some(ranked);
  }
}
