/** When the greedy installation of a ranked plan is optimal: exactly when it dominates every choice that fits. */
module Choices {
  import opened Model
  import opened Totals
  import opened Protocol
  import opened Oracle

  /* ---- Choices of objects ---- */

  predicate Distinct(replicas: seq<Replica>) {
    forall i, j :: 0 <= i < j < |replicas| ==> replicas[i].obj != replicas[j].obj
  }

  /** How many of the first `k` replicas are for one of the objects. */
  function Among(replicas: seq<Replica>, objs: set<nat>, k: nat): nat
    requires k <= |replicas|
  {
    if k == 0 then 0 else Among(replicas, objs, k - 1) + (if replicas[k - 1].obj in objs then 1 else 0)
  }

  /** The bytes that the objects take among the first `k` replicas. */
  function BytesAmong(replicas: seq<Replica>, objs: set<nat>, k: nat): nat
    requires k <= |replicas|
  {
    if k == 0 then 0
    else BytesAmong(replicas, objs, k - 1) + (if replicas[k - 1].obj in objs then replicas[k - 1].size else 0)
  }

  /** The listed ones of the objects fit the capacity together. */
  predicate Fit(replicas: seq<Replica>, objs: set<nat>, capacity: nat) {
    BytesAmong(replicas, objs, |replicas|) <= capacity
  }

  /** Of every leading part of the list, `chosen` has at least as many objects as any choice that fits. */
  ghost predicate Dominates(replicas: seq<Replica>, chosen: set<nat>, capacity: nat) {
    forall other: set<nat>, k: nat {:trigger Among(replicas, other, k)} ::
      k <= |replicas| && Fit(replicas, other, capacity) ==> Among(replicas, other, k) <= Among(replicas, chosen, k)
  }

  /** No choice that fits covers more requests of the epoch. */
  ghost predicate IsOptimal(nodes: seq<NodeConfig>, epoch: nat, replicas: seq<Replica>, chosen: set<nat>,
                            capacity: nat)
  {
    forall other: set<nat> {:trigger Covered(nodes, epoch, other)} ::
      Fit(replicas, other, capacity) ==> Covered(nodes, epoch, other) <= Covered(nodes, epoch, chosen)
  }

  /* ---- A choice that dominates is optimal ---- */

  /** The requests for the listed objects, added up in the order of the list. */
  ghost function DemandAmong(nodes: seq<NodeConfig>, epoch: nat, replicas: seq<Replica>, objs: set<nat>, k: nat): nat
    requires k <= |replicas|
  {
    if k == 0 then 0
    else DemandAmong(nodes, epoch, replicas, objs, k - 1) +
         (if replicas[k - 1].obj in objs then Demand(nodes, epoch, replicas[k - 1].obj) else 0)
  }

  lemma {:induction false} CoveredAmong(nodes: seq<NodeConfig>, epoch: nat, replicas: seq<Replica>, objs: set<nat>,
                                        k: nat)
    requires k <= |replicas| && Distinct(replicas)
    ensures Covered(nodes, epoch, objs * Objs(replicas[..k])) == DemandAmong(nodes, epoch, replicas, objs, k)
  {
    if k == 0 {
      assert objs * Objs(replicas[..0]) == {};
      NothingCovered(nodes, epoch);
    } else {
      hide Covered;
      CoveredAmong(nodes, epoch, replicas, objs, k - 1);
      PrefixNext(replicas, k - 1);
      var o, before := replicas[k - 1].obj, Objs(replicas[..k - 1]);
      NotListed(replicas, k - 1);
      if o in objs {
        CoveredUnion(nodes, epoch, objs * before, {o});
        assert objs * (before + {o}) == objs * before + {o};
      } else {
        assert objs * (before + {o}) == objs * before;
      }
    }
  }

  lemma NotListed(replicas: seq<Replica>, k: nat)
    requires k < |replicas| && Distinct(replicas)
    ensures replicas[k].obj !in Objs(replicas[..k])
  {
    forall i | 0 <= i < k ensures replicas[..k][i].obj != replicas[k].obj {
    }
  }

  /** Whatever is not ranked is not requested, so the ranking accounts for all that is covered. */
  lemma CoveredIsAmong(nodes: seq<NodeConfig>, epoch: nat, replicas: seq<Replica>, objs: set<nat>)
    requires RankedByDemand(nodes, epoch, replicas)
    ensures Covered(nodes, epoch, objs) == DemandAmong(nodes, epoch, replicas, objs, |replicas|)
  {
    RankedDistinct(nodes, epoch, replicas);
    CoveredAmong(nodes, epoch, replicas, objs, |replicas|);
    assert replicas[..|replicas|] == replicas;
    hide Covered;
    Split(nodes, epoch, objs, Objs(replicas));
    CoversAtMost(nodes, epoch, objs - Objs(replicas), 0);
  }

  /** Summation by parts: while demands fall along the list, more objects of every leading part mean more requests. */
  lemma {:induction false} MoreAmong(nodes: seq<NodeConfig>, epoch: nat, replicas: seq<Replica>, a: set<nat>,
                                     b: set<nat>, k: nat)
    requires RankedByDemand(nodes, epoch, replicas) && 0 < k <= |replicas|
    requires forall j: nat :: j <= k ==> Among(replicas, a, j) <= Among(replicas, b, j)
    ensures DemandAmong(nodes, epoch, replicas, a, k) +
            Demand(nodes, epoch, replicas[k - 1].obj) * (Among(replicas, b, k) - Among(replicas, a, k)) <=
            DemandAmong(nodes, epoch, replicas, b, k)
  {
    hide Demand;
    var d := Demand(nodes, epoch, replicas[k - 1].obj);
    var lead := Among(replicas, b, k - 1) - Among(replicas, a, k - 1);
    assert Among(replicas, a, k - 1) <= Among(replicas, b, k - 1);
    if k > 1 {
      MoreAmong(nodes, epoch, replicas, a, b, k - 1);
      assert Hotter(nodes, epoch, replicas[k - 2].obj, replicas[k - 1].obj);
      LeadKept(Demand(nodes, epoch, replicas[k - 2].obj), d, lead);
    }
    var o := replicas[k - 1].obj;
    LeadMoves(d, lead, if o in b then 1 else 0, if o in a then 1 else 0);
  }

  lemma LeadKept(before: nat, now: nat, lead: nat)
    requires now <= before
    ensures now * lead <= before * lead
  {
  }

  lemma LeadMoves(d: nat, lead: nat, gained: nat, lost: nat)
    ensures d * (lead + gained - lost) == d * lead + d * gained - d * lost
  {
  }

  lemma AllAmong(nodes: seq<NodeConfig>, epoch: nat, replicas: seq<Replica>, a: set<nat>, b: set<nat>)
    requires RankedByDemand(nodes, epoch, replicas)
    requires forall j: nat :: j <= |replicas| ==> Among(replicas, a, j) <= Among(replicas, b, j)
    ensures Covered(nodes, epoch, a) <= Covered(nodes, epoch, b)
  {
    hide Covered, RankedByDemand, Demand;
    CoveredIsAmong(nodes, epoch, replicas, a);
    CoveredIsAmong(nodes, epoch, replicas, b);
    var n := |replicas|;
    if n > 0 {
      assert Among(replicas, a, n) <= Among(replicas, b, n);
      MoreAmong(nodes, epoch, replicas, a, b, n);
      LeadKept(Demand(nodes, epoch, replicas[n - 1].obj), 0, Among(replicas, b, n) - Among(replicas, a, n));
    }
  }

  /** Whatever the demands are that the list ranks, a choice that dominates covers as much as any that fits. */
  lemma DominantIsOptimal(nodes: seq<NodeConfig>, epoch: nat, replicas: seq<Replica>, chosen: set<nat>, capacity: nat)
    requires RankedByDemand(nodes, epoch, replicas) && Dominates(replicas, chosen, capacity)
    ensures IsOptimal(nodes, epoch, replicas, chosen, capacity)
  {
    hide Covered, RankedByDemand;
    forall other: set<nat> | Fit(replicas, other, capacity)
      ensures Covered(nodes, epoch, other) <= Covered(nodes, epoch, chosen)
    {
      AllAmong(nodes, epoch, replicas, other, chosen);
    }
  }

  /* ---- Objects of one size ---- */

  lemma {:induction false} AmongCounts(replicas: seq<Replica>, objs: set<nat>, k: nat)
    requires k <= |replicas| && Distinct(replicas)
    ensures Among(replicas, objs, k) == |objs * Objs(replicas[..k])| <= k
  {
    if k == 0 {
      assert objs * Objs(replicas[..0]) == {};
    } else {
      hide Objs, Distinct;
      AmongCounts(replicas, objs, k - 1);
      PrefixNext(replicas, k - 1);
      NotListed(replicas, k - 1);
      OneMoreListed(objs, Objs(replicas[..k - 1]), replicas[k - 1].obj);
    }
  }

  lemma OneMoreListed(objs: set<nat>, before: set<nat>, o: nat)
    requires o !in before
    ensures |objs * (before + {o})| == |objs * before| + (if o in objs then 1 else 0)
  {
    assert objs * (before + {o}) == if o in objs then objs * before + {o} else objs * before;
  }

  lemma AmongAll(replicas: seq<Replica>, objs: set<nat>)
    requires Distinct(replicas)
    ensures Among(replicas, objs, |replicas|) <= |objs|
  {
    AmongCounts(replicas, objs, |replicas|);
    var listed := objs * Objs(replicas[..|replicas|]);
    assert objs == listed + (objs - listed);
  }

  lemma {:induction false} AmongGrows(replicas: seq<Replica>, objs: set<nat>, k: nat, n: nat)
    requires k <= n <= |replicas|
    ensures Among(replicas, objs, k) <= Among(replicas, objs, n)
    decreases n
  {
    if k < n {
      AmongGrows(replicas, objs, k, n - 1);
    }
  }

  /** The first `n` objects are as many of any leading part as there can be. */
  lemma {:induction false} AmongFirst(replicas: seq<Replica>, n: nat, k: nat)
    requires n <= |replicas| && k <= |replicas|
    ensures Among(replicas, Objs(replicas[..n]), k) >= if k < n then k else n
  {
    if k > 0 {
      AmongFirst(replicas, n, k - 1);
      if k <= n {
        assert replicas[..n][k - 1].obj == replicas[k - 1].obj;
      }
    }
  }

  /** No set of at most as many objects covers more than a ranked prefix. */
  lemma PrefixIsOptimal(nodes: seq<NodeConfig>, epoch: nat, replicas: seq<Replica>, n: nat, other: set<nat>)
    requires RankedByDemand(nodes, epoch, replicas) && n <= |replicas| && (|other| <= n || n == |replicas|)
    ensures Covered(nodes, epoch, other) <= Covered(nodes, epoch, Objs(replicas[..n]))
  {
    RankedDistinct(nodes, epoch, replicas);
    hide Covered, RankedByDemand;
    forall j: nat | j <= |replicas| ensures Among(replicas, other, j) <= Among(replicas, Objs(replicas[..n]), j) {
      AmongCounts(replicas, other, j);
      AmongGrows(replicas, other, j, |replicas|);
      AmongAll(replicas, other);
      AmongFirst(replicas, n, j);
    }
    AllAmong(nodes, epoch, replicas, other, Objs(replicas[..n]));
  }

  predicate OneSize(replicas: seq<Replica>, size: nat) {
    forall i :: 0 <= i < |replicas| ==> replicas[i].size == size
  }

  lemma {:induction false} BytesOfOneSize(replicas: seq<Replica>, objs: set<nat>, size: nat, k: nat)
    requires k <= |replicas| && OneSize(replicas, size)
    ensures BytesAmong(replicas, objs, k) == Among(replicas, objs, k) * size
  {
    if k > 0 {
      BytesOfOneSize(replicas, objs, size, k - 1);
      Next(Among(replicas, objs, k - 1), size);
    }
  }

  /** Of objects of one size, what is installed dominates. */
  lemma OneSizeDominates(replicas: seq<Replica>, size: nat, capacity: nat)
    requires Distinct(replicas) && OneSize(replicas, size)
    ensures Dominates(replicas, Installed(capacity, 0, {}, replicas), capacity)
  {
    EqualSizesPrefix(capacity, 0, {}, replicas, size);
    var n: nat :| n <= |replicas| && PrefixFits(capacity, 0, |replicas|, n, size) &&
                  Installed(capacity, 0, {}, replicas) == {} + Objs(replicas[..n]);
    assert {} + Objs(replicas[..n]) == Objs(replicas[..n]);
    hide Installed;
    forall other: set<nat>, k: nat | k <= |replicas| && Fit(replicas, other, capacity)
      ensures Among(replicas, other, k) <= Among(replicas, Objs(replicas[..n]), k)
    {
      AmongCounts(replicas, other, k);
      AmongFirst(replicas, n, k);
      if n < |replicas| {
        BytesOfOneSize(replicas, other, size, |replicas|);
        AmongGrows(replicas, other, k, |replicas|);
        NoMoreThan(Among(replicas, other, |replicas|), n, size, capacity);
      }
    }
  }

  lemma NoMoreThan(m: nat, n: nat, size: nat, capacity: nat)
    requires m * size <= capacity < (n + 1) * size
    ensures m <= n
  {
    if m > n {
      LeadKept(m, n + 1, size);
    }
  }

  predicate SameSize(nodes: seq<NodeConfig>, epoch: nat, size: nat) {
    forall i, x :: 0 <= i < |nodes| && 0 <= x < |nodes[i].requests| && nodes[i].requests[x].epoch == epoch ==>
                     nodes[i].requests[x].size == size
  }

  /**
   * If the objects of an epoch are all of one size, then no set of objects that fits the capacity covers more
   * requests of that epoch than what the plan installs.
   */
  lemma OracleIsOptimal(nodes: seq<NodeConfig>, plan: ReplicaPlan, epoch: nat, size: nat, capacity: nat,
                        other: set<nat>)
    requires IsPlan(nodes, plan) && SameSize(nodes, epoch, size) && |other| * size <= capacity
    ensures Covered(nodes, epoch, other) <= Covered(nodes, epoch, Installed(capacity, 0, {}, PlannedFor(plan, epoch)))
  {
    if epoch in plan {
      var replicas := plan[epoch];
      forall i | 0 <= i < |replicas| ensures replicas[i].size == size {
        assert LargestSize(nodes, epoch, replicas[i].obj, replicas[i].size);
      }
      RankedDistinct(nodes, epoch, replicas);
      hide RankedByDemand, Covered, Installed, SameSize;
      OneSizeDominates(replicas, size, capacity);
      BytesOfOneSize(replicas, other, size, |replicas|);
      AmongAll(replicas, other);
      LeadKept(|other|, Among(replicas, other, |replicas|), size);
      DominantIsOptimal(nodes, epoch, replicas, Installed(capacity, 0, {}, replicas), capacity);
    } else {
      NoRequestsNothingCovered(nodes, epoch, other);
    }
  }

  /* ---- A choice that does not dominate is not optimal for some demand ---- */

  /** How often the object of place `j` is requested in the stream that favours the first `k` places. */
  function Favour(n: nat, k: nat, j: nat): nat
    requires j < n
  {
    (if j < k then n * n + 1 else 0) + (n - j)
  }

  /** Requests for the objects of the first `m` places, ranked like the list, that favour the first `k` places. */
  function Favouring(replicas: seq<Replica>, k: nat, m: nat): seq<RequestSpec>
    requires m <= |replicas|
  {
    if m == 0 then []
    else Favouring(replicas, k, m - 1) +
         seq(Favour(|replicas|, k, m - 1), _ => RequestSpec(replicas[m - 1].obj, replicas[m - 1].size, 0, 0))
  }

  function FavouringNode(replicas: seq<Replica>, k: nat): seq<NodeConfig> {
    [NodeConfig(1, Favouring(replicas, k, |replicas|))]
  }

  /** The requests that the stream makes for the objects, added up in the order of the list. */
  function FavourAmong(replicas: seq<Replica>, k: nat, objs: set<nat>, m: nat): nat
    requires m <= |replicas|
  {
    if m == 0 then 0
    else FavourAmong(replicas, k, objs, m - 1) +
         (if replicas[m - 1].obj in objs then Favour(|replicas|, k, m - 1) else 0)
  }

  lemma {:induction false} Copies<T>(f: T -> nat, s: seq<T>, x: nat)
    requires forall t :: t in s ==> f(t) == x
    ensures SumBy(f, s) == |s| * x
  {
    if s != [] {
      Copies(f, s[..|s| - 1], x);
      Next(|s| - 1, x);
    }
  }

  lemma {:induction false} FavouringCovers(replicas: seq<Replica>, k: nat, objs: set<nat>, m: nat)
    requires m <= |replicas|
    ensures SumBy(Covers(0, objs), Favouring(replicas, k, m)) == FavourAmong(replicas, k, objs, m)
  {
    if m > 0 {
      var f, r := Covers(0, objs), RequestSpec(replicas[m - 1].obj, replicas[m - 1].size, 0, 0);
      var copies := seq(Favour(|replicas|, k, m - 1), _ => r);
      FavouringCovers(replicas, k, objs, m - 1);
      SumByConcat(f, Favouring(replicas, k, m - 1), copies);
      Copies(f, copies, if r.obj in objs then 1 else 0);
    }
  }

  lemma FavouringCovered(replicas: seq<Replica>, k: nat, objs: set<nat>)
    ensures Covered(FavouringNode(replicas, k), 0, objs) == FavourAmong(replicas, k, objs, |replicas|)
  {
    var nodes, f := FavouringNode(replicas, k), NodeCovers(0, objs);
    FavouringCovers(replicas, k, objs, |replicas|);
    SumByAppend(f, [], nodes[0]);
    assert [] + [nodes[0]] == nodes;
  }

  lemma FavourStep(big: nat, n: nat, count: nat, total: nat, m: nat, rank: nat, more: nat)
    requires big * count <= total <= big * count + m * n && rank <= n && more <= 1
    ensures big * (count + more) <= total + big * more + rank <= big * (count + more) + (m + 1) * n
    ensures total <= big * count + (m + 1) * n
  {
    Next(m, n);
    LeadMoves(big, count, more, 0);
  }

  /** How many places weigh in full, among the first `m`. */
  function Favoured(k: nat, m: nat): nat { if m < k then m else k }

  /** The favoured places weigh more than all the rest together. */
  lemma {:induction false} FavourWithin(replicas: seq<Replica>, k: nat, objs: set<nat>, m: nat)
    requires k <= |replicas| && m <= |replicas|
    ensures var n, count := |replicas|, Among(replicas, objs, Favoured(k, m));
            (n * n + 1) * count <= FavourAmong(replicas, k, objs, m) <= (n * n + 1) * count + m * n
  {
    if m > 0 {
      FavourWithin(replicas, k, objs, m - 1);
      var n, here := |replicas|, replicas[m - 1].obj in objs;
      var count, total := Among(replicas, objs, Favoured(k, m - 1)), FavourAmong(replicas, k, objs, m - 1);
      FavourStep(n * n + 1, n, count, total, m - 1, if here then n - (m - 1) else 0,
                 if here && m - 1 < k then 1 else 0);
    }
  }

  lemma {:induction false} FavourOfOne(replicas: seq<Replica>, k: nat, o: nat, m: nat)
    requires m <= |replicas| && Distinct(replicas)
    ensures FavourAmong(replicas, k, {o}, m) > 0 ==> exists j :: 0 <= j < m && replicas[j].obj == o
    ensures forall j {:trigger Favour(|replicas|, k, j)} :: 0 <= j < m && replicas[j].obj == o ==>
              FavourAmong(replicas, k, {o}, m) == Favour(|replicas|, k, j)
  {
    if m > 0 {
      FavourOfOne(replicas, k, o, m - 1);
    }
  }

  lemma {:induction false} FavouringSizes(replicas: seq<Replica>, k: nat, m: nat, x: nat)
    requires m <= |replicas| && x < |Favouring(replicas, k, m)|
    ensures exists j :: 0 <= j < m && Favouring(replicas, k, m)[x] ==
                                      RequestSpec(replicas[j].obj, replicas[j].size, 0, 0)
  {
    if m > 0 {
      var before := Favouring(replicas, k, m - 1);
      if x < |before| {
        FavouringSizes(replicas, k, m - 1, x);
        var j :| 0 <= j < m - 1 && before[x] == RequestSpec(replicas[j].obj, replicas[j].size, 0, 0);
        assert Favouring(replicas, k, m)[x] == before[x];
      } else {
        assert Favouring(replicas, k, m)[x] == RequestSpec(replicas[m - 1].obj, replicas[m - 1].size, 0, 0);
      }
    }
  }

  lemma {:induction false} FavouringLists(replicas: seq<Replica>, k: nat, m: nat, j: nat) returns (x: nat)
    requires j < m <= |replicas|
    ensures x < |Favouring(replicas, k, m)|
    ensures Favouring(replicas, k, m)[x] == RequestSpec(replicas[j].obj, replicas[j].size, 0, 0)
  {
    if j == m - 1 {
      x := |Favouring(replicas, k, m - 1)|;
    } else {
      x := FavouringLists(replicas, k, m - 1, j);
    }
  }

  lemma FavouringLargest(replicas: seq<Replica>, k: nat, j: nat)
    requires j < |replicas| && Distinct(replicas)
    ensures LargestSize(FavouringNode(replicas, k), 0, replicas[j].obj, replicas[j].size)
  {
    var requests := Favouring(replicas, k, |replicas|);
    var x := FavouringLists(replicas, k, |replicas|, j);
    assert IsFor(FavouringNode(replicas, k)[0].requests[x], 0, replicas[j].obj);
    forall y | 0 <= y < |requests| && IsFor(requests[y], 0, replicas[j].obj)
      ensures requests[y].size <= replicas[j].size
    {
      FavouringSizes(replicas, k, |replicas|, y);
    }
  }

  lemma FavouringDemand(replicas: seq<Replica>, k: nat, o: nat)
    requires Distinct(replicas)
    ensures var d := Demand(FavouringNode(replicas, k), 0, o);
            && (d > 0 <==> o in Objs(replicas))
            && (forall j {:trigger Favour(|replicas|, k, j)} :: 0 <= j < |replicas| && replicas[j].obj == o ==>
                  d == Favour(|replicas|, k, j))
  {
    FavouringCovered(replicas, k, {o});
    FavourOfOne(replicas, k, o, |replicas|);
    if o in Objs(replicas) {
      var j :| 0 <= j < |replicas| && replicas[j].obj == o;
      assert Favour(|replicas|, k, j) > 0;
    }
  }

  /** The list ranks the stream, with its own sizes. */
  lemma FavouringRanked(replicas: seq<Replica>, k: nat)
    requires Distinct(replicas)
    ensures RankedByDemand(FavouringNode(replicas, k), 0, replicas)
  {
    hide Covered, Favouring;
    var nodes, n := FavouringNode(replicas, k), |replicas|;
    forall i, j | 0 <= i < j < n ensures Hotter(nodes, 0, replicas[i].obj, replicas[j].obj) {
      FavouringDemand(replicas, k, replicas[i].obj);
      FavouringDemand(replicas, k, replicas[j].obj);
      assert Favour(n, k, i) > Favour(n, k, j);
    }
    forall o: nat ensures Demand(nodes, 0, o) > 0 <==> o in Objs(replicas) {
      FavouringDemand(replicas, k, o);
    }
    forall j | 0 <= j < n ensures LargestSize(nodes, 0, replicas[j].obj, replicas[j].size) {
      FavouringLargest(replicas, k, j);
    }
  }

  /** Under the stream that favours the first `k` places, a choice with more of them covers more. */
  lemma FavouredCoverMore(replicas: seq<Replica>, k: nat, a: set<nat>, b: set<nat>)
    requires k <= |replicas| && Among(replicas, a, k) < Among(replicas, b, k)
    ensures Covered(FavouringNode(replicas, k), 0, a) < Covered(FavouringNode(replicas, k), 0, b)
  {
    var n := |replicas|;
    FavouringCovered(replicas, k, a);
    FavouringCovered(replicas, k, b);
    hide Covered, FavourAmong, Among;
    FavourWithin(replicas, k, a, n);
    FavourWithin(replicas, k, b, n);
    LeadKept(Among(replicas, b, k), Among(replicas, a, k) + 1, n * n + 1);
    Next(Among(replicas, a, k), n * n + 1);
  }

  /** No stream that the list ranks, in any epoch, is covered better than by the chosen objects. */
  ghost predicate AlwaysOptimal(replicas: seq<Replica>, chosen: set<nat>, capacity: nat) {
    forall nodes, epoch: nat {:trigger RankedByDemand(nodes, epoch, replicas)} ::
      RankedByDemand(nodes, epoch, replicas) ==> IsOptimal(nodes, epoch, replicas, chosen, capacity)
  }

  /**
   * What is installed of a list is optimal for all demands that the list ranks exactly when it dominates, which is a
   * matter of the list, its sizes and the capacity alone.
   */
  lemma InstalledIsOptimalWhen(replicas: seq<Replica>, capacity: nat)
    requires Distinct(replicas)
    ensures var chosen := Installed(capacity, 0, {}, replicas);
            AlwaysOptimal(replicas, chosen, capacity) <==> Dominates(replicas, chosen, capacity)
  {
    var chosen := Installed(capacity, 0, {}, replicas);
    hide RankedByDemand, IsOptimal, Installed;
    if Dominates(replicas, chosen, capacity) {
      forall nodes, epoch: nat | RankedByDemand(nodes, epoch, replicas)
        ensures IsOptimal(nodes, epoch, replicas, chosen, capacity)
      {
        DominantIsOptimal(nodes, epoch, replicas, chosen, capacity);
      }
    } else {
      var other: set<nat>, k: nat :| k <= |replicas| && Fit(replicas, other, capacity) &&
                                     Among(replicas, other, k) > Among(replicas, chosen, k);
      FavouringRanked(replicas, k);
      FavouredNotOptimal(replicas, k, chosen, other, capacity);
    }
  }

  lemma FavouredNotOptimal(replicas: seq<Replica>, k: nat, chosen: set<nat>, other: set<nat>, capacity: nat)
    requires k <= |replicas| && Fit(replicas, other, capacity)
    requires Among(replicas, chosen, k) < Among(replicas, other, k)
    ensures !IsOptimal(FavouringNode(replicas, k), 0, replicas, chosen, capacity)
  {
    FavouredCoverMore(replicas, k, chosen, other);
  }

  /* ---- Objects of several sizes ---- */

  /** One node that asks for a large object and two small ones, once each. */
  function Uneven(): seq<NodeConfig> {
    [NodeConfig(1, [RequestSpec(1, 2, 0, 0)] + [RequestSpec(2, 1, 0, 0)] + [RequestSpec(3, 1, 0, 0)])]
  }

  lemma UnevenCovered(epoch: nat, objs: set<nat>)
    ensures Covered(Uneven(), epoch, objs) ==
            if epoch != 0 then 0
            else (if 1 in objs then 1 else 0) + (if 2 in objs then 1 else 0) + (if 3 in objs then 1 else 0)
  {
    var f, node := Covers(epoch, objs), Uneven()[0];
    var a, b, c := RequestSpec(1, 2, 0, 0), RequestSpec(2, 1, 0, 0), RequestSpec(3, 1, 0, 0);
    SumByAppend(f, [a] + [b], c);
    SumByAppend(f, [a], b);
    SumByAppend(f, [], a);
    assert [] + [a] == [a];
    SumByAppend(NodeCovers(epoch, objs), [], node);
    assert [] + [node] == Uneven();
  }

  function UnevenReplicas(): seq<Replica> { [Replica(1, 2), Replica(2, 1), Replica(3, 1)] }

  lemma UnevenRanked()
    ensures RankedByDemand(Uneven(), 0, UnevenReplicas())
  {
    hide Covered, LargestSize;
    var replicas := UnevenReplicas();
    forall o: nat ensures Demand(Uneven(), 0, o) == if 1 <= o <= 3 then 1 else 0 {
      UnevenCovered(0, {o});
    }
    forall o: nat ensures o in Objs(replicas) <==> 1 <= o <= 3 {
      assert replicas[0].obj == 1 && replicas[1].obj == 2 && replicas[2].obj == 3;
    }
    forall i | 0 <= i < 3 ensures LargestSize(Uneven(), 0, replicas[i].obj, replicas[i].size) {
      UnevenSizes(i);
    }
  }

  lemma UnevenSizes(i: nat)
    requires i < 3
    ensures LargestSize(Uneven(), 0, UnevenReplicas()[i].obj, UnevenReplicas()[i].size)
  {
    assert IsFor(Uneven()[0].requests[i], 0, UnevenReplicas()[i].obj);
  }

  lemma UnevenInstalled()
    ensures Installed(2, 0, {}, UnevenReplicas()) == {1}
  {
    assert UnevenReplicas()[1..][0] == Replica(2, 1);
  }

  /** Among the three objects the two small ones fit as well, and are more than the one that is installed. */
  lemma UnevenNotDominated()
    ensures var replicas := UnevenReplicas();
            && Fit(replicas, {2, 3}, 2) && Among(replicas, {2, 3}, 3) == 2 && Among(replicas, {1}, 3) == 1
            && !Dominates(replicas, {1}, 2)
  {
    var replicas := UnevenReplicas();
    assert Among(replicas, {2, 3}, 1) == 0 && Among(replicas, {1}, 1) == 1;
    assert BytesAmong(replicas, {2, 3}, 1) == 0;
    assert Among(replicas, {2, 3}, 2) == 1 && Among(replicas, {1}, 2) == 1 && BytesAmong(replicas, {2, 3}, 2) == 1;
    assert Among(replicas, {2, 3}, 3) == 2 && BytesAmong(replicas, {2, 3}, 3) == 2;
  }

  /** With objects of several sizes the plan need not cover the most: two small objects beat the large one. */
  lemma UnevenIsNotOptimal()
    ensures var plan := map[0 := UnevenReplicas()];
            && IsPlan(Uneven(), plan) && Installed(2, 0, {}, PlannedFor(plan, 0)) == {1}
            && !Dominates(UnevenReplicas(), {1}, 2) && Fit(UnevenReplicas(), {2, 3}, 2)
            && Covered(Uneven(), 0, {1}) == 1 && Covered(Uneven(), 0, {2, 3}) == 2
  {
    hide Covered, RankedByDemand, Installed, Dominates, Fit;
    UnevenRanked();
    UnevenInstalled();
    UnevenNotDominated();
    UnevenCovered(0, {1});
    UnevenCovered(0, {2, 3});
  }
}
