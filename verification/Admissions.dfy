/** What the policies let in and give up, in the terms of counts, scores and recency. */
module Admissions {
  import opened Model
  import opened Policies
  import opened Cache
  import opened CacheLaws
  import opened Scheduling
  import opened Protocol
  import opened Invariants
  import opened Releases
  import opened Steps
  import opened Runs
  import opened Barriers
  import opened PolicyTraces
  import opened CacheRuns
  import opened Placements
  import opened Histories
  import opened Recency

  /* ---- Room ---- */

  /** Residents in the policy's order, all of which it would give up, and which occupy enough. */
  ghost predicate MakesRoom(c: CacheState, r: Request, victims: seq<nat>) {
    && ColdestFirst(c.policy, c.entries, victims)
    && (forall v :: v in victims ==> Yields(c.policy, c.entries, v, r.obj, r.size))
    && c.occupancy - Freed(c.entries, victims) + r.size <= c.capacity
  }

  lemma FirstIsColdest(p: Policy, entries: map<nat, Entry>, victims: seq<nat>)
    requires ColdestFirst(p, entries, victims) && victims != []
    ensures IsColdest(p, entries, victims[0]) && ColdestFirst(p, entries - {victims[0]}, victims[1..])
    ensures forall v :: v in victims[1..] ==> v in entries && v != victims[0]
  {
    hide Colder;
    var v, rest, left := victims[0], victims[1..], entries - {victims[0]};
    VictimsDistinct(p, entries, victims);
    forall k | k in entries && k != v ensures Colder(p, entries, v, k) {
      if k in victims {
        var i :| 0 <= i < |victims| && victims[i] == k;
        assert Colder(p, entries, victims[0], victims[i]);
      }
    }
    forall i, j | 0 <= i < j < |rest| ensures Colder(p, left, rest[i], rest[j]) {
      assert Colder(p, entries, victims[i + 1], victims[j + 1]);
      ColderToo(p, entries, v, rest[i], rest[j]);
    }
    forall i, k | 0 <= i < |rest| && k in left && k !in rest ensures Colder(p, left, rest[i], k) {
      assert Colder(p, entries, victims[i + 1], k);
      ColderToo(p, entries, v, rest[i], k);
    }
  }

  lemma ColderToo(p: Policy, entries: map<nat, Entry>, gone: nat, a: nat, b: nat)
    requires a in entries && b in entries && a != gone && b != gone && Colder(p, entries, a, b)
    ensures Colder(p, entries - {gone}, a, b)
  {
  }

  /** Planning finds room whenever some list of residents in the policy's order makes it. */
  lemma {:induction false} PlanFindsRoom(p: Policy, entries: map<nat, Entry>, occupancy: int, capacity: nat,
                                         r: Request, victims: seq<nat>)
    requires ColdestFirst(p, entries, victims)
    requires forall v :: v in victims ==> Yields(p, entries, v, r.obj, r.size)
    requires occupancy - Freed(entries, victims) + r.size <= capacity
    ensures PlanVictims(p, entries, occupancy, capacity, r).room
    decreases |victims|
  {
    hide ColdestFirst, Colder, Yields;
    if occupancy + r.size > capacity {
      FirstIsColdest(p, entries, victims);
      var v, rest := victims[0], victims[1..];
      ColdestUnique(p, entries, v);
      FreedShrunk(entries, v, rest);
      forall w | w in rest ensures Yields(p, entries - {v}, w, r.obj, r.size) {
        YieldsToo(p, entries, v, w, r.obj, r.size);
      }
      PlanFindsRoom(p, entries - {v}, occupancy - entries[v].size, capacity, r, rest);
    }
  }

  lemma YieldsToo(p: Policy, entries: map<nat, Entry>, gone: nat, v: nat, obj: nat, size: nat)
    requires v in entries && v != gone && Yields(p, entries, v, obj, size)
    ensures Yields(p, entries - {gone}, v, obj, size)
  {
  }

  /** An admission succeeds exactly if the policy wants the object and some such list makes room for it. */
  lemma SucceedsWhen(c: CacheState, r: Request)
    requires Sound(c)
    ensures Succeeds(c, r) <==>
            Admits(c.policy, r.obj, r.size) && r.size <= c.capacity && exists victims :: MakesRoom(c, r, victims)
  {
    hide Admits, Colder, Yields;
    PlanIsGreedy(c.policy, c.entries, c.occupancy, c.capacity, r);
    var plan := PlanVictims(c.policy, c.entries, c.occupancy, c.capacity, r);
    if plan.room {
      assert MakesRoom(c, r, plan.victims);
    }
    if victims :| MakesRoom(c, r, victims) {
      PlanFindsRoom(c.policy, c.entries, c.occupancy, c.capacity, r, victims);
    }
  }

  /** An object is resident after an attempt exactly if it was before or the attempt succeeded. */
  lemma ResidentIfSucceeds(c: CacheState, r: Request, time: nat)
    requires Sound(c)
    ensures r.obj in Admit(c, r, time).entries <==> r.obj in c.entries || Succeeds(c, r)
  {
    if Succeeds(c, r) {
      AdmitEvictsShortestPrefix(c, r, time);
    } else {
      FailedAdmitIsAtomic(c, r, time);
    }
  }

  /** What is left of the residents without the given ones. */
  ghost function Without(entries: map<nat, Entry>, victims: seq<nat>): map<nat, Entry> {
    entries - (set v | v in victims)
  }

  /** A plan that finds no room stops where the policy would give up no more. */
  lemma {:induction false} PlanStopsShort(p: Policy, entries: map<nat, Entry>, occupancy: int, capacity: nat,
                                          r: Request, o: nat)
    requires !PlanVictims(p, entries, occupancy, capacity, r).room
    requires IsColdest(p, Without(entries, PlanVictims(p, entries, occupancy, capacity, r).victims), o)
    ensures o in entries && !Yields(p, entries, o, r.obj, r.size)
    decreases |entries|
  {
    hide Colder, Yields;
    var victims := PlanVictims(p, entries, occupancy, capacity, r).victims;
    if victims == [] {
      assert Without(entries, victims) == entries;
      if entries != map[] {
        ColdestUnique(p, entries, o);
      }
    } else {
      var v, rest := victims[0], victims[1..];
      assert victims == [v] + rest;
      assert Without(entries - {v}, rest) == Without(entries, victims);
      PlanStopsShort(p, entries - {v}, occupancy - entries[v].size, capacity, r, o);
      if Yields(p, entries, o, r.obj, r.size) {
        YieldsToo(p, entries, v, o, r.obj, r.size);
      }
    }
  }

  /**
   * A failed attempt records no victims if the policy does not want the object or it is larger than the cache, and
   * otherwise the residents that the policy would have given up, until one that it would not.
   */
  lemma RejectedVictims(c: CacheState, r: Request, time: nat)
    requires Sound(c) && !Succeeds(c, r)
    ensures var d := Admit(c, r, time);
            && |d.records| == |c.records| + 1
            && var victims := d.records[|c.records|].victims;
            && (!Admits(c.policy, r.obj, r.size) || r.size > c.capacity ==> victims == [])
            && ColdestFirst(c.policy, c.entries, victims)
            && (forall v :: v in victims ==> Yields(c.policy, c.entries, v, r.obj, r.size))
            && (Admits(c.policy, r.obj, r.size) && r.size <= c.capacity ==>
                  forall o :: IsColdest(c.policy, Without(c.entries, victims), o) ==>
                    o in c.entries && !Yields(c.policy, c.entries, o, r.obj, r.size))
  {
    hide Admits, PlanVictims, Colder, Yields;
    PlanIsGreedy(c.policy, c.entries, c.occupancy, c.capacity, r);
    NothingPlanned(c.policy, c.entries, c.occupancy, c.capacity, r.size);
    if Admits(c.policy, r.obj, r.size) && r.size <= c.capacity {
      var victims := PlanVictims(c.policy, c.entries, c.occupancy, c.capacity, r).victims;
      forall o | IsColdest(c.policy, Without(c.entries, victims), o)
        ensures o in c.entries && !Yields(c.policy, c.entries, o, r.obj, r.size)
      {
        PlanStopsShort(c.policy, c.entries, c.occupancy, c.capacity, r, o);
      }
    }
  }

  /* ---- What the contention variants let in ---- */

  /** The score reaches the minimum, and the object has been asked for often enough where the variant gates on reuse. */
  predicate Deserves(config: ContentionConfig, count: nat, confirmed: nat, score: real) {
    && score >= config.minAdmitScore
    && (config.variant == ReuseGated ==> count >= config.reuseGateThreshold)
    && (config.variant == SmoothedReuseGated ==>
          confirmed >= config.reuseGateThreshold || score >= config.minAdmitScore + config.bypassMargin)
  }

  /** Where no space is lacking, an absent object becomes resident exactly if it deserves it. */
  lemma ContentionLetsIn(c: CacheState, r: Request, time: nat)
    requires Sound(c) && c.policy.ContentionAware? && r.obj !in c.entries && c.occupancy + r.size <= c.capacity
    ensures var config, state := c.policy.contention, c.policy.state;
            r.obj in Admit(c, r, time).entries <==>
            Deserves(config, CountIn(state.local, r.obj), CountIn(state.confirmations.counts, r.obj),
                     Score(config, c.policy.capacity, state, r.obj, r.size))
  {
    hide Score;
    ResidentIfSucceeds(c, r, time);
  }

  /** Likewise for the access count of the hotness policy. */
  lemma HotnessLetsIn(c: CacheState, r: Request, time: nat)
    requires Sound(c) && c.policy.Hotness? && r.obj !in c.entries && c.occupancy + r.size <= c.capacity
    ensures r.obj in Admit(c, r, time).entries <==>
            CountIn(c.policy.window.counts, r.obj) >= c.policy.hotness.minAdmitCount
  {
    ResidentIfSucceeds(c, r, time);
  }

  /** The policies that cache nothing, or only what is installed, change no resident on a miss. */
  lemma OthersLetNothingIn(c: CacheState, r: Request, time: nat)
    requires c.policy.AlwaysRemote? || c.policy.GlobalHottest?
    ensures Admit(c, r, time).entries == c.entries
  {
  }

  /* ---- In runs: lookups instead of counts, accesses instead of keys ---- */

  /** The policy starts fresh, and a window, if there is one, spans some epoch. */
  predicate Countable(cfg: Config) {
    ValidConfig(cfg) && IsFresh(cfg.policy) &&
    (cfg.policy.Hotness? && cfg.policy.hotness.mode.Windowed? ==> cfg.policy.hotness.window > 0)
  }

  /** The first epoch whose lookups still count for admission. */
  function CountsFrom(cfg: Config, n: NodeState): nat {
    match cfg.policy
    case Hotness(config, window) =>
      if config.mode.Windowed? then FirstOf(n, config.window)
      else if config.mode.EpochOnly? then EpochOf(n) else 0
    case ContentionAware(config, capacity, state) => if config.resetOnEpochChange then EpochOf(n) else 0
    case _ => 0
  }

  /** How often the node has asked for the object, in the epochs that count. */
  ghost function Asked(cfg: Config, s: State, id: nat, obj: nat): nat
    requires id in s.nodes
  {
    Lookups(s.shared.ledger.tracks, id, obj, CountsFrom(cfg, s.nodes[id]))
  }

  /** How often in the epochs that confirm. */
  ghost function Confirmed(cfg: Config, s: State, id: nat, obj: nat): nat
    requires id in s.nodes && cfg.policy.ContentionAware?
  {
    Lookups(s.shared.ledger.tracks, id, obj, FirstOf(s.nodes[id], cfg.policy.contention.ConfirmationWindow()))
  }

  /** The score of an object, by the snapshot and the counts that the node's policy holds. */
  function ScoreAt(cfg: Config, s: State, id: nat, obj: nat, size: nat): real
    requires id in s.nodes && cfg.policy.ContentionAware?
  {
    var p := s.nodes[id].cache.policy;
    if p.ContentionAware? then Score(cfg.policy.contention, p.capacity, p.state, obj, size) else 0.0
  }

  ghost predicate Wants(cfg: Config, s: State, id: nat, r: Request)
    requires id in s.nodes
  {
    match cfg.policy
    case Lru => true
    case Hotness(config, window) => Asked(cfg, s, id, r.obj) >= config.minAdmitCount
    case ContentionAware(config, capacity, state) =>
      Deserves(config, Asked(cfg, s, id, r.obj),
               if config.variant == SmoothedReuseGated then Confirmed(cfg, s, id, r.obj) else 0,
               ScoreAt(cfg, s, id, r.obj, r.size))
    case _ => false
  }

  /** How much more than a resident's an incoming object's score has to be. */
  function Advantage(config: ContentionConfig): real {
    if config.variant == Hysteresis then config.evictionMargin
    else if config.variant == SmoothedReuseGated && config.evictionMargin > 0.0 then config.evictionMargin
    else 0.0
  }

  ghost predicate Outranks(cfg: Config, s: State, id: nat, r: Request, v: nat)
    requires id in s.nodes && v in s.nodes[id].cache.entries
  {
    match cfg.policy
    case Lru => true
    case Hotness(config, window) => Asked(cfg, s, id, r.obj) > Asked(cfg, s, id, v)
    case ContentionAware(config, capacity, state) =>
      ScoreAt(cfg, s, id, r.obj, r.size) >
      ScoreAt(cfg, s, id, v, s.nodes[id].cache.entries[v].size) + Advantage(config)
    case _ => false
  }

  /** Which of two residents goes first: the one asked for less, or of the lesser score, or else accessed longer ago. */
  ghost predicate GoesBefore(cfg: Config, s: State, id: nat, a: nat, b: nat)
    requires id in s.nodes && a in s.nodes[id].cache.entries && b in s.nodes[id].cache.entries
  {
    var c := s.nodes[id].cache;
    var longer := LongerAgo(id, a, b, c.records, s.shared.ledger.tracks);
    match cfg.policy
    case Hotness(config, window) =>
      Asked(cfg, s, id, a) < Asked(cfg, s, id, b) || (Asked(cfg, s, id, a) == Asked(cfg, s, id, b) && longer)
    case ContentionAware(config, capacity, state) =>
      var x, y := ScoreAt(cfg, s, id, a, c.entries[a].size), ScoreAt(cfg, s, id, b, c.entries[b].size);
      x < y || (x == y && longer)
    case _ => longer
  }

  /** Residents that go first, each outranked by the object that comes in, and that occupy enough. */
  ghost predicate GivesWay(cfg: Config, s: State, id: nat, r: Request, victims: seq<nat>)
    requires id in s.nodes
  {
    var c := s.nodes[id].cache;
    && (forall v :: v in victims ==> v in c.entries)
    && (forall i, j {:trigger GoesBefore(cfg, s, id, victims[i], victims[j])} ::
          0 <= i < j < |victims| ==> GoesBefore(cfg, s, id, victims[i], victims[j]))
    && (forall i, o {:trigger GoesBefore(cfg, s, id, victims[i], o)} ::
          0 <= i < |victims| && o in c.entries && o !in victims ==> GoesBefore(cfg, s, id, victims[i], o))
    && (forall v {:trigger Outranks(cfg, s, id, r, v)} :: v in victims ==> Outranks(cfg, s, id, r, v))
    && c.occupancy - Freed(c.entries, victims) + r.size <= c.capacity
  }

  /* ---- The two are the same ---- */

  /** What the policy of a node counts and scores by is what the request table shows. */
  ghost predicate Shows(cfg: Config, s: State, id: nat)
    requires id in s.nodes
  {
    var p := s.nodes[id].cache.policy;
    && (cfg.policy.Hotness? ==>
          p.Hotness? && p.hotness == cfg.policy.hotness &&
          forall obj: nat {:trigger Asked(cfg, s, id, obj)} :: CountIn(p.window.counts, obj) == Asked(cfg, s, id, obj))
    && (cfg.policy.ContentionAware? ==>
          p.ContentionAware? && p.contention == cfg.policy.contention &&
          (forall obj: nat {:trigger Asked(cfg, s, id, obj)} ::
             CountIn(p.state.local, obj) == Asked(cfg, s, id, obj)) &&
          (p.contention.variant == SmoothedReuseGated ==>
             forall obj: nat {:trigger Confirmed(cfg, s, id, obj)} ::
               CountIn(p.state.confirmations.counts, obj) == Confirmed(cfg, s, id, obj)))
    && (Stateless(cfg.policy) ==> p == cfg.policy)
  }

  lemma HotnessShows(cfg: Config, k: nat, id: nat, obj: nat)
    requires Countable(cfg) && id in Run(cfg, k).nodes && cfg.policy.Hotness?
    ensures var p := Run(cfg, k).nodes[id].cache.policy;
            p.Hotness? && CountIn(p.window.counts, obj) == Asked(cfg, Run(cfg, k), id, obj)
  {
    hide Run, Lookups;
    if cfg.policy.hotness.mode.Windowed? {
      WindowsCountLookups(cfg, k, id, obj);
    } else {
      CountsAreLookups(cfg, k, id, obj);
    }
  }

  lemma SameSettings(cfg: Config, k: nat, id: nat)
    requires Countable(cfg) && id in Run(cfg, k).nodes
    ensures var p := Run(cfg, k).nodes[id].cache.policy;
            && (cfg.policy.Hotness? ==> p.Hotness? && p.hotness == cfg.policy.hotness)
            && (cfg.policy.ContentionAware? ==> p.ContentionAware? && p.contention == cfg.policy.contention)
            && (Stateless(cfg.policy) ==> p == cfg.policy)
  {
    hide Run;
    PoliciesStand(cfg, k);
    PoliciesTraced(cfg, k);
    var s := Run(cfg, k);
    assert Keeping(cfg, s.nodes[id].cache) && Traced(cfg.policy, id, s.nodes[id], s.shared.ledger.tracks);
  }

  lemma PolicyShows(cfg: Config, k: nat, id: nat)
    requires Countable(cfg) && id in Run(cfg, k).nodes
    ensures Shows(cfg, Run(cfg, k), id)
  {
    hide Run, Asked, Confirmed;
    SameSettings(cfg, k, id);
    var s := Run(cfg, k);
    if cfg.policy.Hotness? {
      forall obj: nat ensures CountIn(s.nodes[id].cache.policy.window.counts, obj) == Asked(cfg, s, id, obj) {
        HotnessShows(cfg, k, id, obj);
      }
    }
    if cfg.policy.ContentionAware? {
      ContentionShows(cfg, k, id);
    }
  }

  lemma ContentionShows(cfg: Config, k: nat, id: nat)
    requires Countable(cfg) && id in Run(cfg, k).nodes && cfg.policy.ContentionAware?
    ensures var s := Run(cfg, k);
            var p := s.nodes[id].cache.policy;
            && p.ContentionAware?
            && (forall obj: nat {:trigger Asked(cfg, s, id, obj)} ::
                  CountIn(p.state.local, obj) == Asked(cfg, s, id, obj))
            && (cfg.policy.contention.variant == SmoothedReuseGated ==>
                  forall obj: nat {:trigger Confirmed(cfg, s, id, obj)} ::
                    CountIn(p.state.confirmations.counts, obj) == Confirmed(cfg, s, id, obj))
  {
    hide Run, Lookups;
    SameSettings(cfg, k, id);
    var s := Run(cfg, k);
    forall obj: nat ensures CountIn(s.nodes[id].cache.policy.state.local, obj) == Asked(cfg, s, id, obj) {
      LocalCountsLookups(cfg, k, id, obj);
    }
    if cfg.policy.contention.variant == SmoothedReuseGated {
      forall obj: nat
        ensures CountIn(s.nodes[id].cache.policy.state.confirmations.counts, obj) == Confirmed(cfg, s, id, obj)
      {
        ConfirmationsCountLookups(cfg, k, id, obj);
      }
    }
  }

  lemma LongerAgoMeans(id: nat, c: CacheState, tracks: seq<Track>, a: nat, b: nat)
    requires Recent(id, c, tracks) && a in c.entries && b in c.entries
    ensures LongerAgo(id, a, b, c.records, tracks) <==>
            c.entries[a].lastAccess < c.entries[b].lastAccess ||
            (c.entries[a].lastAccess == c.entries[b].lastAccess && a < b)
  {
    hide LastAccessed;
    var x, y := c.entries[a].lastAccess, c.entries[b].lastAccess;
    assert LastAccessed(id, a, x, c.records, tracks) && LastAccessed(id, b, y, c.records, tracks);
    forall s, t | LastAccessed(id, a, s, c.records, tracks) && LastAccessed(id, b, t, c.records, tracks)
      ensures s == x && t == y
    {
      LastAccessOnce(id, a, s, x, c.records, tracks);
      LastAccessOnce(id, b, t, y, c.records, tracks);
    }
  }

  lemma OrderShows(cfg: Config, s: State, id: nat, a: nat, b: nat)
    requires id in s.nodes && Shows(cfg, s, id) && Recent(id, s.nodes[id].cache, s.shared.ledger.tracks)
    requires a in s.nodes[id].cache.entries && b in s.nodes[id].cache.entries
    ensures Colder(s.nodes[id].cache.policy, s.nodes[id].cache.entries, a, b) <==> GoesBefore(cfg, s, id, a, b)
  {
    hide Asked, Confirmed, LongerAgo, Score, Recent;
    LongerAgoMeans(id, s.nodes[id].cache, s.shared.ledger.tracks, a, b);
    var x, y := Asked(cfg, s, id, a), Asked(cfg, s, id, b);
  }

  lemma RankShows(cfg: Config, s: State, id: nat, r: Request, v: nat)
    requires id in s.nodes && Shows(cfg, s, id) && v in s.nodes[id].cache.entries
    ensures Yields(s.nodes[id].cache.policy, s.nodes[id].cache.entries, v, r.obj, r.size) <==>
            Outranks(cfg, s, id, r, v)
  {
    hide Asked, Confirmed, Score;
    var x, y := Asked(cfg, s, id, r.obj), Asked(cfg, s, id, v);
  }

  lemma WantShows(cfg: Config, s: State, id: nat, r: Request)
    requires id in s.nodes && Shows(cfg, s, id)
    ensures Admits(s.nodes[id].cache.policy, r.obj, r.size) <==> Wants(cfg, s, id, r)
  {
    hide Asked, Confirmed, Score;
    var x := Asked(cfg, s, id, r.obj);
    if cfg.policy.ContentionAware? && cfg.policy.contention.variant == SmoothedReuseGated {
      var y := Confirmed(cfg, s, id, r.obj);
    }
  }

  lemma RoomShows(cfg: Config, s: State, id: nat, r: Request, victims: seq<nat>)
    requires id in s.nodes && Shows(cfg, s, id) && Recent(id, s.nodes[id].cache, s.shared.ledger.tracks)
    ensures MakesRoom(s.nodes[id].cache, r, victims) <==> GivesWay(cfg, s, id, r, victims)
  {
    hide Shows, Recent, Colder, GoesBefore, Yields, Outranks;
    var c := s.nodes[id].cache;
    if forall v :: v in victims ==> v in c.entries {
      forall a, b | a in c.entries && b in c.entries
        ensures Colder(c.policy, c.entries, a, b) <==> GoesBefore(cfg, s, id, a, b)
      {
        OrderShows(cfg, s, id, a, b);
      }
      forall v | v in victims
        ensures Yields(c.policy, c.entries, v, r.obj, r.size) <==> Outranks(cfg, s, id, r, v)
      {
        RankShows(cfg, s, id, r, v);
      }
      SameOrder(cfg, s, id, victims);
    }
  }

  lemma SameOrder(cfg: Config, s: State, id: nat, victims: seq<nat>)
    requires id in s.nodes && forall v :: v in victims ==> v in s.nodes[id].cache.entries
    requires var c := s.nodes[id].cache;
             forall a, b {:trigger GoesBefore(cfg, s, id, a, b)} {:trigger Colder(c.policy, c.entries, a, b)} ::
               a in c.entries && b in c.entries ==>
                 (Colder(c.policy, c.entries, a, b) <==> GoesBefore(cfg, s, id, a, b))
    ensures var c := s.nodes[id].cache;
            ColdestFirst(c.policy, c.entries, victims) <==>
            && (forall i, j {:trigger GoesBefore(cfg, s, id, victims[i], victims[j])} ::
                  0 <= i < j < |victims| ==> GoesBefore(cfg, s, id, victims[i], victims[j]))
            && (forall i, o {:trigger GoesBefore(cfg, s, id, victims[i], o)} ::
                  0 <= i < |victims| && o in c.entries && o !in victims ==> GoesBefore(cfg, s, id, victims[i], o))
  {
    hide Colder, GoesBefore;
  }

  /* ---- Admissions in runs ---- */

  /** The facts about a node that is about to receive a response. */
  lemma AtReturn(cfg: Config, k: nat, id: nat, r: Request) returns (time: nat)
    requires Countable(cfg) && !cfg.policy.AlwaysRemote? && Returns(cfg, Run(cfg, k), id, r)
    ensures var s := Run(cfg, k);
            && Shows(cfg, s, id) && Sound(s.nodes[id].cache) && s.nodes[id].cache.capacity == cfg.capacity
            && Recent(id, s.nodes[id].cache, s.shared.ledger.tracks)
            && id in Run(cfg, k + 1).nodes
            && Run(cfg, k + 1).nodes[id].cache == Admit(s.nodes[id].cache, r, time)
  {
    hide Turn, Admit, Core, Sound, Shows, Recent;
    var s := Run(cfg, k);
    RunKeeps(cfg, k);
    PolicyShows(cfg, k, id);
    PoliciesStand(cfg, k);
    assert Keeping(cfg, s.nodes[id].cache);
    CachesAt(cfg, s, id);
    TurnAdmits(cfg, s, id, r);
    time := Least(s.shared.queue).time;
    RunRemembers(cfg, k);
    assert History(id, s.nodes[id].cache, s.shared.ledger.tracks, s.shared.queue.now);
  }

  /**
   * When the response of a miss comes to a node, the object is resident afterwards if and only if it was before, or the
   * policy wants it, it fits the capacity at all, and there are residents that give way to it.
   */
  lemma ResidentExactlyWhen(cfg: Config, k: nat, id: nat, r: Request)
    requires Countable(cfg) && !cfg.policy.AlwaysRemote? && Returns(cfg, Run(cfg, k), id, r)
    ensures var s := Run(cfg, k);
            id in Run(cfg, k + 1).nodes &&
            (r.obj in Run(cfg, k + 1).nodes[id].cache.entries <==>
               r.obj in s.nodes[id].cache.entries ||
               (Wants(cfg, s, id, r) && r.size <= cfg.capacity &&
                exists victims {:trigger GivesWay(cfg, s, id, r, victims)} :: GivesWay(cfg, s, id, r, victims)))
  {
    hide Run, Admit, Sound, Shows, Recent, Succeeds, Admits, MakesRoom, GivesWay, Wants, Returns;
    var time := AtReturn(cfg, k, id, r);
    var s := Run(cfg, k);
    assert id in s.nodes by { AtNode(cfg, s, id, r); }
    var c := s.nodes[id].cache;
    ResidentIfSucceeds(c, r, time);
    SucceedsWhen(c, r);
    WantShows(cfg, s, id, r);
    if victims :| MakesRoom(c, r, victims) {
      RoomShows(cfg, s, id, r, victims);
    }
    if victims :| GivesWay(cfg, s, id, r, victims) {
      RoomShows(cfg, s, id, r, victims);
    }
  }

  lemma AtNode(cfg: Config, s: State, id: nat, r: Request)
    requires Returns(cfg, s, id, r)
    ensures id in s.nodes
  {
  }

  /** Where no space is lacking, that is so exactly if the policy wants it. */
  lemma NoneNeedGiveWay(cfg: Config, s: State, id: nat, r: Request)
    requires id in s.nodes && s.nodes[id].cache.occupancy + r.size <= s.nodes[id].cache.capacity
    ensures GivesWay(cfg, s, id, r, [])
  {
    assert Freed(s.nodes[id].cache.entries, []) == 0;
  }

  /** The residents that an admission evicts give way to it, in that order, and the last of them could not be spared. */
  lemma EvictedGiveWay(cfg: Config, k: nat, id: nat, r: Request)
    requires Countable(cfg) && !cfg.policy.AlwaysRemote? && Returns(cfg, Run(cfg, k), id, r)
    ensures var s := Run(cfg, k);
            var c := s.nodes[id].cache;
            && id in Run(cfg, k + 1).nodes
            && var d := Run(cfg, k + 1).nodes[id].cache;
            && |d.records| == |c.records| + 1
            && var q := d.records[|c.records|];
            && (!q.admitted ==> d.entries == c.entries)
            && (q.admitted ==>
                  && GivesWay(cfg, s, id, r, q.victims)
                  && d.entries.Keys == c.entries.Keys - (set v | v in q.victims) + {r.obj}
                  && forall m :: 0 <= m < |q.victims| ==> !GivesWay(cfg, s, id, r, q.victims[..m]))
  {
    hide Run, Admit, Sound, Shows, Recent, Returns, GoesBefore, Outranks, MakesRoom;
    var time := AtReturn(cfg, k, id, r);
    var s := Run(cfg, k);
    assert id in s.nodes by { AtNode(cfg, s, id, r); }
    var c := s.nodes[id].cache;
    AdmittedOrNot(c, r, time);
    var q := Admit(c, r, time).records[|c.records|];
    if q.admitted {
      EvictedMakeRoom(c, r, time);
      RoomShows(cfg, s, id, r, q.victims);
    }
  }

  lemma EvictedMakeRoom(c: CacheState, r: Request, time: nat)
    requires Sound(c)
    ensures var d := Admit(c, r, time);
            && |d.records| == |c.records| + 1
            && var q := d.records[|c.records|];
            q.admitted ==>
              MakesRoom(c, r, q.victims) &&
              forall m :: 0 <= m < |q.victims| ==> c.occupancy - Freed(c.entries, q.victims[..m]) + r.size > c.capacity
  {
    AdmitContinues(c, r, time);
    hide Admits, PlanVictims, EvictAll, Sound;
    if Succeeds(c, r) {
      AdmitEvictsShortestPrefix(c, r, time);
    }
  }

  /** Under a contention policy, a returned object that there is room for becomes resident exactly if it deserves to. */
  lemma ContentionCachesTheDeserving(cfg: Config, k: nat, id: nat, r: Request)
    requires Countable(cfg) && cfg.policy.ContentionAware? && Returns(cfg, Run(cfg, k), id, r)
    requires var c := Run(cfg, k).nodes[id].cache; r.obj !in c.entries && c.occupancy + r.size <= c.capacity
    ensures var s, config := Run(cfg, k), cfg.policy.contention;
            id in Run(cfg, k + 1).nodes &&
            (r.obj in Run(cfg, k + 1).nodes[id].cache.entries <==>
               Deserves(config, Asked(cfg, s, id, r.obj),
                        if config.variant == SmoothedReuseGated then Confirmed(cfg, s, id, r.obj) else 0,
                        ScoreAt(cfg, s, id, r.obj, r.size)))
  {
    hide Run, Admit, Sound, Recent, GivesWay, Deserves, Asked, Confirmed, ScoreAt;
    var time := AtReturn(cfg, k, id, r);
    ResidentExactlyWhen(cfg, k, id, r);
    NoneNeedGiveWay(cfg, Run(cfg, k), id, r);
  }

  /* ---- Nothing is ever cached under the remote-only policy ---- */

  predicate Bare(n: NodeState) { n.cache.policy == AlwaysRemote && n.cache.entries == map[] }

  ghost predicate AllBare(s: State) {
    && (forall id {:trigger Bare(s.nodes[id])} :: id in s.nodes ==> Bare(s.nodes[id]))
    && (forall i {:trigger s.shared.ledger.tracks[i]} :: 0 <= i < |s.shared.ledger.tracks| ==>
          !s.shared.ledger.tracks[i].hit)
  }

  lemma NodeBare(cfg: Config, id: nat, n: NodeState, sh: Shared, e: Event)
    requires NodeHandle(cfg, id, n, sh, e).Ok? && Bare(n) && cfg.plan.None?
    requires forall i :: 0 <= i < |sh.ledger.tracks| ==> !sh.ledger.tracks[i].hit
    ensures var (n', sh') := NodeHandle(cfg, id, n, sh, e).value;
            Bare(n') && forall i :: 0 <= i < |sh'.ledger.tracks| ==> !sh'.ledger.tracks[i].hit
  {
    hide Schedule, Stamp;
  }

  lemma DispatchBare(cfg: Config, s: State, e: Event)
    requires MemoryShape(cfg, s.memory) && Dispatch(cfg, s, e).Ok? && AllBare(s) && cfg.plan.None?
    ensures AllBare(Dispatch(cfg, s, e).value)
  {
    hide NodeHandle, MemoryHandle, Bare;
    var d := Dispatch(cfg, s, e).value;
    if e.target in s.nodes {
      assert Bare(s.nodes[e.target]);
      NodeBare(cfg, e.target, s.nodes[e.target], s.shared, e);
    } else {
      MemoryMovesOne(cfg, s.memory, s.shared, e);
      MemoryKeepsHits(cfg, s.memory, s.shared, e);
    }
    forall id | id in d.nodes ensures Bare(d.nodes[id]) {
      assert id != e.target ==> Bare(s.nodes[id]);
    }
  }

  lemma MemoryKeepsHits(cfg: Config, m: MemoryState, sh: Shared, e: Event)
    requires MemoryShape(cfg, m) && MemoryHandle(cfg, m, sh, e).Ok?
    requires forall i :: 0 <= i < |sh.ledger.tracks| ==> !sh.ledger.tracks[i].hit
    ensures var tracks' := MemoryHandle(cfg, m, sh, e).value.1.ledger.tracks;
            forall i :: 0 <= i < |tracks'| ==> !tracks'[i].hit
  {
    hide Schedule, Stamp;
  }

  lemma TurnBare(cfg: Config, s: State)
    requires Inv(cfg, s) && AllBare(s) && cfg.plan.None?
    ensures AllBare(Turn(cfg, s))
  {
    hide Dispatch, Release;
    if s.shared.queue.pending != {} {
      var e := Least(s.shared.queue);
      DispatchKeeps(cfg, s, e);
      PickBare(s, e);
      DispatchBare(cfg, Pick(s, e), e);
      TurnIsRelease(cfg, s);
      ReleaseBare(cfg, Handled(cfg, s));
    }
  }

  lemma PickBare(s: State, e: Event)
    requires AllBare(s)
    ensures AllBare(Pick(s, e))
  {
    forall id | id in s.nodes ensures Bare(Pick(s, e).nodes[id]) {
      assert Bare(s.nodes[id]);
    }
  }

  lemma ReleaseBare(cfg: Config, s: State)
    requires AllBare(s)
    ensures AllBare(Release(cfg, s))
  {
    hide Release;
    ReleaseFrame(cfg, s);
    ReleaseSame(cfg, s);
    var r := Release(cfg, s);
    forall id | id in r.nodes ensures Bare(r.nodes[id]) {
      assert SameButGenerating(r.nodes[id], s.nodes[id]) && Bare(s.nodes[id]);
    }
  }

  /** Under the remote-only policy no cache ever holds anything, and no lookup ever hits. */
  lemma {:induction false} RemoteNeverHits(cfg: Config, k: nat)
    requires ValidConfig(cfg) && cfg.policy.AlwaysRemote? && cfg.plan.None?
    ensures AllBare(Run(cfg, k))
  {
    hide Turn, Inv, Core, Release, AllBare;
    if k == 0 {
      InitialBare(cfg);
      ReleaseBare(cfg, Initial(cfg));
    } else {
      RemoteNeverHits(cfg, k - 1);
      RunKeeps(cfg, k - 1);
      TurnBare(cfg, Run(cfg, k - 1));
    }
  }

  lemma InitialBare(cfg: Config)
    requires ValidConfig(cfg) && cfg.policy.AlwaysRemote?
    ensures AllBare(Initial(cfg))
  {
    InitialNodesAre(cfg, |cfg.nodes|);
    forall id | id in Initial(cfg).nodes ensures Bare(Initial(cfg).nodes[id]) {
      var i :| 0 <= i < |cfg.nodes| && cfg.nodes[i].id == id;
    }
  }
}
