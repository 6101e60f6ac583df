/** The oracle replica plan: what it covers, what is installed of it, and why there is only one. */
module Oracle {
  import opened Model
  import opened Totals
  import opened Policies
  import opened Cache
  import opened Protocol

  /* ---- Demand ---- */

  ghost function Covers(epoch: nat, objs: set<nat>): RequestSpec -> nat {
    (r: RequestSpec) => if r.epoch == epoch && r.obj in objs then 1 else 0
  }

  ghost function NodeCovers(epoch: nat, objs: set<nat>): NodeConfig -> nat {
    (n: NodeConfig) => SumBy(Covers(epoch, objs), n.requests)
  }

  /** The requests of one epoch, over all nodes, for one of the given objects. */
  ghost function Covered(nodes: seq<NodeConfig>, epoch: nat, objs: set<nat>): nat {
    SumBy(NodeCovers(epoch, objs), nodes)
  }

  ghost function Demand(nodes: seq<NodeConfig>, epoch: nat, obj: nat): nat {
    Covered(nodes, epoch, {obj})
  }

  lemma {:induction false} SumByPlus<T>(f: T -> nat, g: T -> nat, h: T -> nat, s: seq<T>)
    requires forall t :: t in s ==> f(t) == g(t) + h(t)
    ensures SumBy(f, s) == SumBy(g, s) + SumBy(h, s)
  {
    if s != [] {
      SumByPlus(f, g, h, s[..|s| - 1]);
    }
  }

  /** Disjoint sets of objects cover separate requests. */
  lemma CoveredUnion(nodes: seq<NodeConfig>, epoch: nat, a: set<nat>, b: set<nat>)
    requires a !! b
    ensures Covered(nodes, epoch, a + b) == Covered(nodes, epoch, a) + Covered(nodes, epoch, b)
  {
    forall n | n in nodes ensures NodeCovers(epoch, a + b)(n) == NodeCovers(epoch, a)(n) + NodeCovers(epoch, b)(n) {
      SumByPlus(Covers(epoch, a + b), Covers(epoch, a), Covers(epoch, b), n.requests);
    }
    SumByPlus(NodeCovers(epoch, a + b), NodeCovers(epoch, a), NodeCovers(epoch, b), nodes);
  }

  lemma NothingCovered(nodes: seq<NodeConfig>, epoch: nat)
    ensures Covered(nodes, epoch, {}) == 0
  {
    var none: set<nat> := {};
    CoveredUnion(nodes, epoch, none, none);
    assert none + none == none;
  }

  lemma {:induction false} CoversAtMost(nodes: seq<NodeConfig>, epoch: nat, objs: set<nat>, most: nat)
    requires forall o :: o in objs ==> Demand(nodes, epoch, o) <= most
    ensures Covered(nodes, epoch, objs) <= |objs| * most
    decreases |objs|
  {
    if objs == {} {
      NothingCovered(nodes, epoch);
    } else {
      var o :| o in objs;
      CoversAtMost(nodes, epoch, objs - {o}, most);
      CoveredUnion(nodes, epoch, objs - {o}, {o});
      assert objs == (objs - {o}) + {o};
      Next(|objs - {o}|, most);
    }
  }

  lemma Next(n: nat, x: nat)
    ensures (n + 1) * x == n * x + x
  {
  }

  /* ---- The plan ---- */

  function Objs(replicas: seq<Replica>): set<nat> { set i | 0 <= i < |replicas| :: replicas[i].obj }

  predicate IsFor(r: RequestSpec, epoch: nat, obj: nat) { r.epoch == epoch && r.obj == obj }

  /** The largest size with which an object is requested in an epoch. */
  predicate LargestSize(nodes: seq<NodeConfig>, epoch: nat, obj: nat, size: nat) {
    (forall i, x :: 0 <= i < |nodes| && 0 <= x < |nodes[i].requests| && IsFor(nodes[i].requests[x], epoch, obj) ==>
                      nodes[i].requests[x].size <= size) &&
    (exists i, x :: 0 <= i < |nodes| && 0 <= x < |nodes[i].requests| && IsFor(nodes[i].requests[x], epoch, obj) &&
                    nodes[i].requests[x].size == size)
  }

  ghost predicate Hotter(nodes: seq<NodeConfig>, epoch: nat, a: nat, b: nat) {
    Demand(nodes, epoch, a) > Demand(nodes, epoch, b) ||
    (Demand(nodes, epoch, a) == Demand(nodes, epoch, b) && a < b)
  }

  /** The objects requested in an epoch, each once, most requested first. */
  ghost predicate RankedByDemand(nodes: seq<NodeConfig>, epoch: nat, replicas: seq<Replica>) {
    && (forall i, j :: 0 <= i < j < |replicas| ==> Hotter(nodes, epoch, replicas[i].obj, replicas[j].obj))
    && (forall o: nat :: Demand(nodes, epoch, o) > 0 <==> o in Objs(replicas))
    && (forall i :: 0 <= i < |replicas| ==> LargestSize(nodes, epoch, replicas[i].obj, replicas[i].size))
  }

  /** The plan ranks the objects of every epoch that has requests. */
  ghost predicate IsPlan(nodes: seq<NodeConfig>, plan: ReplicaPlan) {
    (forall e :: e in plan ==> RankedByDemand(nodes, e, plan[e])) &&
    (forall i, x :: 0 <= i < |nodes| && 0 <= x < |nodes[i].requests| ==> nodes[i].requests[x].epoch in plan)
  }

  function PlannedFor(plan: ReplicaPlan, epoch: nat): seq<Replica> {
    if epoch in plan then plan[epoch] else []
  }

  /* ---- What is installed ---- */

  /** The objects that an installation adds to those already present. */
  function Installed(capacity: nat, occupancy: nat, present: set<nat>, replicas: seq<Replica>): set<nat>
    decreases |replicas|
  {
    if replicas == [] then present
    else if replicas[0].size > capacity then Installed(capacity, occupancy, present, replicas[1..])
    else if occupancy + replicas[0].size > capacity then present
    else if replicas[0].obj in present then Installed(capacity, occupancy, present, replicas[1..])
    else Installed(capacity, occupancy + replicas[0].size, present + {replicas[0].obj}, replicas[1..])
  }

  lemma {:induction false} InstallFromInstalls(c: CacheState, replicas: seq<Replica>, time: nat, node: nat, epoch: nat)
    ensures InstallFrom(c, replicas, time, node, epoch).entries.Keys ==
            Installed(c.capacity, c.occupancy, c.entries.Keys, replicas)
    decreases |replicas|
  {
    if replicas != [] {
      var first, rest := replicas[0], replicas[1..];
      if first.size > c.capacity || (c.occupancy + first.size <= c.capacity && first.obj in c.entries) {
        InstallFromInstalls(c, rest, time, node, epoch);
      } else if c.occupancy + first.size <= c.capacity {
        var d := Place(c, first.obj, Entry(first.size, time, time), ReplicaRecord(first, time, node, epoch));
        InstallFromInstalls(d, rest, time, node, epoch);
        assert d.entries.Keys == c.entries.Keys + {first.obj};
      }
    }
  }

  /** An installation leaves the objects that fit an empty cache, whatever was resident before. */
  lemma InstallReplaces(c: CacheState, replicas: seq<Replica>, time: nat, node: nat, epoch: nat)
    ensures Install(c, replicas, time, node, epoch).entries.Keys == Installed(c.capacity, 0, {}, replicas)
  {
    InstallFromInstalls(Clear(c, time), replicas, time, node, epoch);
    assert Clear(c, time).entries.Keys == {};
  }

  /** The longest prefix of `total` objects of one size that fits has `n` of them. */
  predicate PrefixFits(capacity: nat, occupancy: nat, total: nat, n: nat, size: nat) {
    occupancy + n * size <= capacity && (n < total ==> occupancy + (n + 1) * size > capacity)
  }

  /** Of replicas that are all of one size, the longest prefix that fits is installed. */
  lemma {:induction false} EqualSizesPrefix(capacity: nat, occupancy: nat, present: set<nat>, replicas: seq<Replica>,
                                            size: nat)
    requires forall i :: 0 <= i < |replicas| ==> replicas[i].size == size && replicas[i].obj !in present
    requires forall i, j :: 0 <= i < j < |replicas| ==> replicas[i].obj != replicas[j].obj
    requires occupancy <= capacity
    ensures exists n: nat :: n <= |replicas| && PrefixFits(capacity, occupancy, |replicas|, n, size) &&
                             Installed(capacity, occupancy, present, replicas) == present + Objs(replicas[..n])
    decreases |replicas|
  {
    if replicas == [] || occupancy + size > capacity {
      assert Objs(replicas[..0]) == {};
      if replicas != [] && size > capacity {
        NoneFits(capacity, occupancy, present, replicas, size);
      }
      assert Installed(capacity, occupancy, present, replicas) == present + Objs(replicas[..0]);
      assert PrefixFits(capacity, occupancy, |replicas|, 0, size);
    } else {
      var o, rest := replicas[0].obj, replicas[1..];
      EqualSizesPrefix(capacity, occupancy + size, present + {o}, rest, size);
      var n: nat :| n <= |rest| && PrefixFits(capacity, occupancy + size, |rest|, n, size) &&
                    Installed(capacity, occupancy + size, present + {o}, rest) == present + {o} + Objs(rest[..n]);
      Next(n, size);
      Next(n + 1, size);
      ObjsOfPrefix(replicas, n);
      assert present + {o} + Objs(rest[..n]) == present + Objs(replicas[..n + 1]);
      assert PrefixFits(capacity, occupancy, |replicas|, n + 1, size);
    }
  }

  /** The replicas that fit the capacity at all, in order. */
  function Fitting(capacity: nat, replicas: seq<Replica>): seq<Replica> {
    if replicas == [] then []
    else (if replicas[0].size <= capacity then [replicas[0]] else []) + Fitting(capacity, replicas[1..])
  }

  function BytesIn(replicas: seq<Replica>): nat {
    if replicas == [] then 0 else replicas[0].size + BytesIn(replicas[1..])
  }

  /** `n` is the length of the longest prefix of a list that fits into what is left. */
  predicate LongestFit(left: nat, replicas: seq<Replica>, n: nat) {
    && n <= |replicas| && BytesIn(replicas[..n]) <= left
    && (n < |replicas| ==> BytesIn(replicas[..n + 1]) > left)
  }

  lemma BytesFirst(replicas: seq<Replica>, n: nat)
    requires 0 < n <= |replicas|
    ensures BytesIn(replicas[..n]) == replicas[0].size + BytesIn(replicas[1..][..n - 1])
  {
    assert replicas[..n][1..] == replicas[1..][..n - 1];
  }

  /** One more replica at the front that fits. */
  lemma FitsFirst(left: nat, f: Replica, rest: seq<Replica>, n: nat)
    requires f.size <= left && LongestFit(left - f.size, rest, n)
    ensures LongestFit(left, [f] + rest, n + 1)
  {
    var all := [f] + rest;
    assert all[1..] == rest;
    BytesFirst(all, n + 1);
    if n < |rest| {
      BytesFirst(all, n + 2);
    }
  }

  /** The first one does not fit. */
  lemma FirstTooLarge(left: nat, f: Replica, rest: seq<Replica>)
    requires f.size > left
    ensures LongestFit(left, [f] + rest, 0) && Objs(([f] + rest)[..0]) == {}
  {
    assert ([f] + rest)[..1] == [f] && [f][1..] == [];
    assert BytesIn([f]) == f.size + BytesIn([]);
  }

  /**
   * Of distinct replicas of any sizes, those too large for the capacity are passed over, and of the others the longest
   * prefix that fits is installed: the first that does not fit ends the installation.
   */
  lemma {:induction false} LongestFitIsInstalled(capacity: nat, occupancy: nat, present: set<nat>,
                                                 replicas: seq<Replica>) returns (n: nat)
    requires forall i :: 0 <= i < |replicas| ==> replicas[i].obj !in present
    requires forall i, j :: 0 <= i < j < |replicas| ==> replicas[i].obj != replicas[j].obj
    requires occupancy <= capacity
    ensures LongestFit(capacity - occupancy, Fitting(capacity, replicas), n)
    ensures Installed(capacity, occupancy, present, replicas) == present + Objs(Fitting(capacity, replicas)[..n])
    decreases |replicas|
  {
    if replicas == [] {
      n := 0;
      assert Objs([]) == {};
    } else {
      var f, rest, fitting := replicas[0], replicas[1..], Fitting(capacity, replicas[1..]);
      if f.size > capacity {
        n := LongestFitIsInstalled(capacity, occupancy, present, rest);
        assert Fitting(capacity, replicas) == fitting;
      } else if occupancy + f.size > capacity {
        n := 0;
        FirstTooLarge(capacity - occupancy, f, fitting);
      } else {
        n := LongestFitIsInstalled(capacity, occupancy + f.size, present + {f.obj}, rest);
        FitsFirst(capacity - occupancy, f, fitting, n);
        assert ([f] + fitting)[1..] == fitting;
        ObjsOfPrefix([f] + fitting, n);
        assert present + {f.obj} + Objs(fitting[..n]) == present + Objs(([f] + fitting)[..n + 1]);
        n := n + 1;
      }
    }
  }

  lemma ObjsOfPrefix(replicas: seq<Replica>, n: nat)
    requires n < |replicas|
    ensures Objs(replicas[..n + 1]) == {replicas[0].obj} + Objs(replicas[1..][..n])
  {
    var a, b := replicas[..n + 1], replicas[1..][..n];
    forall o | o in Objs(a) ensures o in {replicas[0].obj} + Objs(b) {
      var i :| 0 <= i < |a| && a[i].obj == o;
      assert i > 0 ==> b[i - 1].obj == o;
    }
    forall o | o in Objs(b) ensures o in Objs(a) {
      var i :| 0 <= i < |b| && b[i].obj == o;
      assert a[i + 1].obj == o;
    }
    assert a[0].obj == replicas[0].obj;
  }

  lemma {:induction false} NoneFits(capacity: nat, occupancy: nat, present: set<nat>, replicas: seq<Replica>, size: nat)
    requires size > capacity && forall i :: 0 <= i < |replicas| ==> replicas[i].size == size
    ensures Installed(capacity, occupancy, present, replicas) == present
    decreases |replicas|
  {
    if replicas != [] {
      NoneFits(capacity, occupancy, present, replicas[1..], size);
    }
  }

  /* ---- The ranking ---- */

  lemma PrefixNext(replicas: seq<Replica>, n: nat)
    requires n < |replicas|
    ensures Objs(replicas[..n + 1]) == Objs(replicas[..n]) + {replicas[n].obj}
  {
    var a, b := replicas[..n + 1], replicas[..n];
    forall o | o in Objs(a) ensures o in Objs(b) + {replicas[n].obj} {
      var i :| 0 <= i <= n && a[i].obj == o;
      assert i < n ==> b[i].obj == o;
    }
    forall o | o in Objs(b) ensures o in Objs(a) {
      var i :| 0 <= i < n && b[i].obj == o;
      assert a[i].obj == o;
    }
    assert a[n].obj == replicas[n].obj;
  }

  lemma Split(nodes: seq<NodeConfig>, epoch: nat, a: set<nat>, b: set<nat>)
    ensures Covered(nodes, epoch, a) == Covered(nodes, epoch, a * b) + Covered(nodes, epoch, a - b)
  {
    CoveredUnion(nodes, epoch, a * b, a - b);
    assert a == (a * b) + (a - b);
  }

  lemma RankedDistinct(nodes: seq<NodeConfig>, epoch: nat, replicas: seq<Replica>)
    requires RankedByDemand(nodes, epoch, replicas)
    ensures forall i, j :: 0 <= i < j < |replicas| ==> replicas[i].obj != replicas[j].obj
  {
    forall i, j | 0 <= i < j < |replicas| ensures replicas[i].obj != replicas[j].obj {
      assert Hotter(nodes, epoch, replicas[i].obj, replicas[j].obj);
    }
  }

  predicate AgreeUpTo(a: seq<Replica>, b: seq<Replica>, n: nat) {
    n <= |a| && n <= |b| && forall i :: 0 <= i < n ==> a[i].obj == b[i].obj
  }

  /** Where two rankings agree so far, the next object of one is at or after this place in the other. */
  lemma RankedNext(nodes: seq<NodeConfig>, epoch: nat, a: seq<Replica>, b: seq<Replica>, n: nat) returns (j: nat)
    requires RankedByDemand(nodes, epoch, a) && RankedByDemand(nodes, epoch, b) && AgreeUpTo(a, b, n) && n < |a|
    ensures n <= j < |b| && b[j].obj == a[n].obj
  {
    RankedDistinct(nodes, epoch, a);
    assert a[n].obj in Objs(a);
    hide Demand, LargestSize, Hotter;
    assert a[n].obj in Objs(b);
    j :| 0 <= j < |b| && b[j].obj == a[n].obj;
  }

  lemma RankingStep(nodes: seq<NodeConfig>, epoch: nat, a: seq<Replica>, b: seq<Replica>, n: nat)
    requires RankedByDemand(nodes, epoch, a) && RankedByDemand(nodes, epoch, b)
    requires AgreeUpTo(a, b, n) && n < |a| && n < |b|
    ensures a[n].obj == b[n].obj
  {
    var j := RankedNext(nodes, epoch, a, b, n);
    var i := RankedNext(nodes, epoch, b, a, n);
    hide Demand, LargestSize, Objs, AgreeUpTo, RankedByDemand;
    RankedPair(nodes, epoch, b, n, j);
    RankedPair(nodes, epoch, a, n, i);
  }

  lemma RankedPair(nodes: seq<NodeConfig>, epoch: nat, a: seq<Replica>, i: nat, j: nat)
    requires RankedByDemand(nodes, epoch, a) && i <= j < |a|
    ensures i < j ==> Hotter(nodes, epoch, a[i].obj, a[j].obj)
  {
  }

  lemma {:induction false} RankingsAgree(nodes: seq<NodeConfig>, epoch: nat, a: seq<Replica>, b: seq<Replica>, n: nat)
    requires RankedByDemand(nodes, epoch, a) && RankedByDemand(nodes, epoch, b) && n <= |a| && n <= |b|
    ensures AgreeUpTo(a, b, n)
  {
    hide RankedByDemand;
    if n > 0 {
      RankingsAgree(nodes, epoch, a, b, n - 1);
      RankingStep(nodes, epoch, a, b, n - 1);
    }
  }

  /** There is one ranking: the order in which the demand table is read cannot change the plan. */
  lemma RankingUnique(nodes: seq<NodeConfig>, epoch: nat, a: seq<Replica>, b: seq<Replica>)
    requires RankedByDemand(nodes, epoch, a) && RankedByDemand(nodes, epoch, b)
    ensures |a| == |b| && AgreeUpTo(a, b, |a|)
  {
    hide RankedByDemand;
    var n := if |a| < |b| then |a| else |b|;
    RankingsAgree(nodes, epoch, a, b, n);
    if |a| > n {
      var j := RankedNext(nodes, epoch, a, b, n);
    } else if |b| > n {
      var j := RankedNext(nodes, epoch, b, a, n);
    }
  }

  lemma {:induction false} NoneCounted<T>(f: T -> nat, s: seq<T>)
    requires forall t :: t in s ==> f(t) == 0
    ensures SumBy(f, s) == 0
  {
    if s != [] {
      NoneCounted(f, s[..|s| - 1]);
    }
  }

  lemma NoRequestsNothingCovered(nodes: seq<NodeConfig>, epoch: nat, objs: set<nat>)
    requires forall i, x :: 0 <= i < |nodes| && 0 <= x < |nodes[i].requests| ==> nodes[i].requests[x].epoch != epoch
    ensures Covered(nodes, epoch, objs) == 0
  {
    forall n | n in nodes ensures NodeCovers(epoch, objs)(n) == 0 {
      var i :| 0 <= i < |nodes| && nodes[i] == n;
      forall r | r in n.requests ensures Covers(epoch, objs)(r) == 0 {
        var x :| 0 <= x < |n.requests| && n.requests[x] == r;
        assert nodes[i].requests[x].epoch != epoch;
      }
      NoneCounted(Covers(epoch, objs), n.requests);
    }
    NoneCounted(NodeCovers(epoch, objs), nodes);
  }
}
