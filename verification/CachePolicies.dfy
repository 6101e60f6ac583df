/** The stateful cache policies as objects: window counts updated in place, telemetry snapshots, scans for a victim. */
module CachePolicies {
  import opened Model
  import opened Totals
  import opened Policies
  import opened Windows
  import opened Scoring
  import opened Recorders

  /* ---- Taking the counts of one epoch out of the aggregate ---- */

  /** Every count is lowered by the epoch's own; what would reach zero is dropped. */
  function Subtracted(counts: map<nat, nat>, gone: map<nat, nat>): map<nat, nat> {
    map o | o in counts && (o in gone ==> counts[o] > gone[o]) :: if o in gone then counts[o] - gone[o] else counts[o]
  }

  method SubtractEpochCounts(counts: map<nat, nat>, gone: map<nat, nat>) returns (left: map<nat, nat>)
    ensures left == Subtracted(counts, gone)
  {
    left := counts;
    var rest := gone.Keys;
    while rest != {}
      invariant rest <= gone.Keys
      invariant left == Subtracted(counts, gone - rest)
      decreases |rest|
    {
      var o :| o in rest;
      rest := rest - {o};
      if o in left {
        if left[o] <= gone[o] {
          left := left - {o};
        } else {
          left := left[o := left[o] - gone[o]];
        }
      }
    }
    assert gone - {} == gone;
  }

  lemma RecountWithout(buckets: map<nat, map<nat, nat>>, e: nat, o: nat)
    requires e in buckets
    ensures Recount(buckets, o) == Recount(buckets - {e}, o) + (if o in buckets[e] then buckets[e][o] else 0)
  {
    var counts := PerEpoch(buckets, o);
    if o in buckets[e] {
      TotalRemove(counts, e);
      assert PerEpoch(buckets - {e}, o) == counts - {e};
    } else {
      assert PerEpoch(buckets - {e}, o) == counts;
    }
  }

  lemma CountedSomewhere(buckets: map<nat, map<nat, nat>>, o: nat)
    requires Positive(buckets)
    ensures o in Objects(buckets) <==> Recount(buckets, o) > 0
  {
    if o in Objects(buckets) {
      var e :| e in buckets && o in buckets[e];
      TotalRemove(PerEpoch(buckets, o), e);
    } else {
      assert PerEpoch(buckets, o) == map[];
    }
  }

  lemma SubtractedAt(w: Window, e: nat, o: nat)
    requires Aggregated(w) && e in w.buckets
    ensures o in w.buckets[e] ==> o in w.counts && w.counts[o] >= w.buckets[e][o]
    ensures var left, counts := w.buckets - {e}, Subtracted(w.counts, w.buckets[e]);
            (o in counts <==> o in Objects(left)) && (o in counts ==> counts[o] == Recount(left, o))
  {
    CountedSomewhere(w.buckets, o);
    CountedSomewhere(w.buckets - {e}, o);
    RecountWithout(w.buckets, e, o);
    hide Recount, Objects, Positive;
  }

  /** The saturating subtraction never loses anything: what is left is the recount of the epochs that are left. */
  lemma SubtractionIsExact(w: Window, e: nat)
    requires Aggregated(w) && e in w.buckets
    ensures Aggregated(Window(Subtracted(w.counts, w.buckets[e]), w.buckets - {e}))
    ensures forall o :: o in w.buckets[e] ==> o in w.counts && w.counts[o] >= w.buckets[e][o]
  {
    assert Positive(w.buckets - {e});
    hide Recount, Objects, Positive, Subtracted;
    var left, counts := w.buckets - {e}, Subtracted(w.counts, w.buckets[e]);
    forall o: nat
      ensures o in w.buckets[e] ==> o in w.counts && w.counts[o] >= w.buckets[e][o]
      ensures (o in counts <==> o in Objects(left)) && (o in counts ==> counts[o] == Recount(left, o))
    {
      SubtractedAt(w, e, o);
    }
    assert counts == RecountAll(left);
  }

  lemma WithoutIsRetain(buckets: map<nat, map<nat, nat>>, gone: set<nat>, first: nat)
    requires forall e :: e in gone <==> e in buckets && e < first
    ensures buckets - (gone - {}) == Retain(buckets, first)
  {
  }

  /* ---- Hotness ---- */

  class HotnessOnlyPolicy {
    const config: HotnessConfig
    var accessCounts: map<nat, nat>
    var epochAccessCounts: map<nat, map<nat, nat>>

    ghost function View(): Window
      reads this
    {
      Window(accessCounts, epochAccessCounts)
    }

    ghost predicate Valid()
      reads this
    {
      config.mode.Windowed? ==> Aggregated(View())
    }

    constructor (config: HotnessConfig)
      ensures Valid() && this.config == config && View() == Window(map[], map[])
    {
      this.config := config;
      accessCounts, epochAccessCounts := map[], map[];
    }

    method OnLookup(epoch: nat, obj: nat)
      requires Valid()
      modifies this
      ensures Valid() && View() == HotnessLookup(config, old(View()), epoch, obj)
    {
      BumpAggregatedIf(epoch, obj);
      accessCounts := Increment(accessCounts, obj);
      if config.mode.Windowed? {
        epochAccessCounts := epochAccessCounts[epoch := Increment(BucketOf(epochAccessCounts, epoch), obj)];
      }
    }

    lemma BumpAggregatedIf(epoch: nat, obj: nat)
      requires Valid()
      ensures config.mode.Windowed? ==> Aggregated(Bump(View(), epoch, obj))
    {
      if config.mode.Windowed? {
        BumpAggregated(View(), epoch, obj);
      }
    }

    method OnEpochStart(epoch: nat)
      requires Valid()
      modifies this
      ensures Valid() && View() == HotnessEpochStart(config, old(View()), epoch)
    {
      if config.mode.EpochOnly? {
        accessCounts, epochAccessCounts := map[], map[];
        return;
      }
      if config.mode.Windowed? {
        PruneWindow(epoch);
      }
    }

    /** Collects the epochs that have left the window, then takes them out one by one. */
    method PruneWindow(epoch: nat)
      requires Valid() && config.mode.Windowed?
      modifies this
      ensures Valid() && View() == Prune(old(View()), FirstRetained(epoch, config.window))
    {
      var gone := set e | e in epochAccessCounts && e + config.window <= epoch;
      ghost var buckets := epochAccessCounts;
      var rest := gone;
      while rest != {}
        invariant rest <= gone && rest <= epochAccessCounts.Keys
        invariant Aggregated(View()) && epochAccessCounts == buckets - (gone - rest)
        decreases |rest|
      {
        var e :| e in rest;
        SubtractionIsExact(View(), e);
        accessCounts := SubtractEpochCounts(accessCounts, epochAccessCounts[e]);
        epochAccessCounts := epochAccessCounts - {e};
        rest := rest - {e};
      }
      WithoutIsRetain(buckets, gone, FirstRetained(epoch, config.window));
    }

    function CountFor(obj: nat): nat
      reads this
    {
      CountIn(accessCounts, obj)
    }

    /** Scans the residents, in any order, for the coldest, and gives it up for a hotter object only. */
    method SelectVictim(entries: map<nat, Entry>, incoming: Request) returns (victim: Option<nat>)
      ensures victim == Policies.SelectVictim(Hotness(config, View()), entries, incoming.obj, incoming.size)
    {
      ghost var p := Hotness(config, View());
      if entries == map[] {
        return None;
      }
      var coldest :| coldest in entries;
      var rest := entries.Keys;
      while rest != {}
        invariant rest <= entries.Keys && coldest in entries
        invariant ColdestSoFar(p, entries, entries.Keys - rest, coldest)
        decreases |rest|
      {
        hide ColdestSoFar;
        var o :| o in rest;
        ScanStep(p, entries, entries.Keys - rest, coldest, o);
        assert entries.Keys - rest + {o} == entries.Keys - (rest - {o});
        rest := rest - {o};
        var count, least := CountFor(o), CountFor(coldest);
        if count < least {
          coldest := o;
        } else if count == least && entries[o].lastAccess < entries[coldest].lastAccess {
          coldest := o;
        } else if count == least && entries[o].lastAccess == entries[coldest].lastAccess && o < coldest {
          coldest := o;
        }
      }
      ScannedAll(p, entries, coldest);
      ColdestUnique(p, entries, coldest);
      hide IsColdest, Coldest;
      if CountFor(incoming.obj) <= CountFor(coldest) {
        return None;
      }
      victim := Some(coldest);
    }
  }

  /* ---- Scanning for the coldest resident ---- */

  ghost predicate ColdestSoFar(p: Policy, entries: map<nat, Entry>, scanned: set<nat>, v: nat)
    requires v in entries && scanned <= entries.Keys
  {
    forall k :: k in scanned && k != v ==> Colder(p, entries, v, k)
  }

  lemma ScanStep(p: Policy, entries: map<nat, Entry>, scanned: set<nat>, v: nat, o: nat)
    requires v in entries && o in entries && scanned <= entries.Keys && ColdestSoFar(p, entries, scanned, v)
    ensures ColdestSoFar(p, entries, scanned + {o}, if o != v && Colder(p, entries, o, v) then o else v)
  {
  }

  lemma ScannedAll(p: Policy, entries: map<nat, Entry>, v: nat)
    requires v in entries && ColdestSoFar(p, entries, entries.Keys - {}, v)
    ensures IsColdest(p, entries, v)
  {
  }

  /** The scan of the recency policy: residents are compared by their last access only. */
  method SelectOldest(entries: map<nat, Entry>) returns (victim: Option<nat>)
    ensures forall obj, size :: victim == Policies.SelectVictim(Lru, entries, obj, size)
  {
    if entries == map[] {
      return None;
    }
    var oldest :| oldest in entries;
    var rest := entries.Keys;
    while rest != {}
      invariant rest <= entries.Keys && oldest in entries
      invariant ColdestSoFar(Lru, entries, entries.Keys - rest, oldest)
      decreases |rest|
    {
      var o :| o in rest;
      ScanStep(Lru, entries, entries.Keys - rest, oldest, o);
      assert entries.Keys - rest + {o} == entries.Keys - (rest - {o});
      rest := rest - {o};
      if entries[o].lastAccess < entries[oldest].lastAccess {
        oldest := o;
      } else if entries[o].lastAccess == entries[oldest].lastAccess && o < oldest {
        oldest := o;
      }
    }
    ScannedAll(Lru, entries, oldest);
    ColdestUnique(Lru, entries, oldest);
    victim := Some(oldest);
  }

  /* ---- Contention ---- */

  lemma {:induction false} NothingBeforeTheFirstEpoch(telemetry: Telemetry, epoch: nat, ages: nat, decay: real)
    requires ages >= epoch
    ensures Snapshot(telemetry, epoch, ages, decay) == Snapshot(telemetry, epoch, epoch, decay)
  {
    if ages > epoch {
      NothingBeforeTheFirstEpoch(telemetry, epoch, ages - 1, decay);
    }
  }

  /** The rows of one epoch's telemetry, added object by object in any order. */
  lemma NoRowAdded(snapshot: map<nat, Signals>, row: map<nat, ObjectBucket>, weight: real)
    ensures AddEpoch(snapshot, row - row.Keys, weight) == snapshot
  {
  }

  lemma RowAdded(snapshot: map<nat, Signals>, row: map<nat, ObjectBucket>, rest: set<nat>, o: nat, weight: real)
    requires o in rest && rest <= row.Keys
    ensures var sums := AddEpoch(snapshot, row - rest, weight);
            AddEpoch(snapshot, row - (rest - {o}), weight) ==
            sums[o := AddSignals(SignalsOf(sums, o), row[o], weight)]
  {
    hide AddSignals;
  }

  method AddContentionSnapshots(snapshot: map<nat, Signals>, row: map<nat, ObjectBucket>, weight: real)
    returns (sums: map<nat, Signals>)
    ensures sums == AddEpoch(snapshot, row, weight)
  {
    hide AddEpoch, AddSignals, SignalsOf;
    sums := snapshot;
    var rest := row.Keys;
    NoRowAdded(snapshot, row, weight);
    while rest != {}
      invariant rest <= row.Keys
      invariant sums == AddEpoch(snapshot, row - rest, weight)
      decreases |rest|
    {
      var o :| o in rest;
      RowAdded(snapshot, row, rest, o, weight);
      rest := rest - {o};
      sums := sums[o := AddSignals(SignalsOf(sums, o), row[o], weight)];
    }
    assert row - {} == row;
  }

  method RefreshNormalizationMaxima(snapshot: map<nat, Signals>) returns (maxima: Maxima)
    ensures maxima == MaximaOf(snapshot)
  {
    maxima := NoMaxima;
    var rest := snapshot.Keys;
    while rest != {}
      invariant rest <= snapshot.Keys
      invariant AreMaxima(snapshot - rest, maxima)
      decreases |rest|
    {
      var o :| o in rest;
      ghost var seen := snapshot - (rest - {o});
      assert seen - {o} == snapshot - rest && seen[o] == snapshot[o];
      RaiseMaxima(seen, o, maxima);
      maxima := Raise(maxima, snapshot[o]);
      rest := rest - {o};
    }
    assert snapshot - {} == snapshot;
    MaximaUnique(snapshot, maxima);
  }

  class ContentionAwarePolicy {
    const config: ContentionConfig
    const capacity: nat
    const stats: Stats
    var currentEpoch: Option<nat>
    var localAccessCounts: map<nat, nat>
    var confirmationCounts: map<nat, nat>
    var confirmationByEpoch: map<nat, map<nat, nat>>
    var previousEpochStats: map<nat, Signals>
    var maxima: Maxima

    ghost function View(): Contention
      reads this
    {
      Contention(currentEpoch, localAccessCounts, Window(confirmationCounts, confirmationByEpoch),
                 previousEpochStats, maxima)
    }

    ghost predicate Valid()
      reads this
    {
      Aggregated(Window(confirmationCounts, confirmationByEpoch))
    }

    constructor (config: ContentionConfig, capacity: nat, stats: Stats)
      ensures Valid() && this.config == config && this.capacity == capacity && this.stats == stats
      ensures View() == FreshContention
    {
      this.config, this.capacity, this.stats := config, capacity, stats;
      currentEpoch, localAccessCounts, confirmationCounts, confirmationByEpoch := None, map[], map[], map[];
      previousEpochStats, maxima := map[], NoMaxima;
    }

    method OnLookup(epoch: nat, obj: nat)
      requires Valid()
      modifies this
      ensures Valid() && View() == ContentionLookup(config, old(View()), epoch, obj, stats.objects)
    {
      hide Snapshot, MaximaOf, Prune, Aggregated;
      if currentEpoch != Some(epoch) {
        OnEpochStart(epoch);
      }
      localAccessCounts := Increment(localAccessCounts, obj);
      if config.Confirms() {
        BumpAggregated(Window(confirmationCounts, confirmationByEpoch), epoch, obj);
        confirmationByEpoch := confirmationByEpoch[epoch := Increment(BucketOf(confirmationByEpoch, epoch), obj)];
        confirmationCounts := Increment(confirmationCounts, obj);
      }
    }

    method OnEpochStart(epoch: nat)
      requires Valid()
      modifies this
      ensures Valid() && View() == ContentionEpochStart(config, old(View()), epoch, stats.objects)
    {
      hide Snapshot, MaximaOf, Prune, Aggregated;
      if currentEpoch == Some(epoch) {
        return;
      }
      currentEpoch := Some(epoch);
      if config.resetOnEpochChange {
        localAccessCounts := map[];
      }
      if config.Confirms() {
        PruneLocalConfirmation(epoch);
      }
      previousEpochStats := TakeSnapshot(epoch);
      maxima := RefreshNormalizationMaxima(previousEpochStats);
    }

    method PruneLocalConfirmation(epoch: nat)
      requires Valid()
      modifies `confirmationCounts, `confirmationByEpoch
      ensures Valid()
      ensures Window(confirmationCounts, confirmationByEpoch) ==
              Prune(old(Window(confirmationCounts, confirmationByEpoch)), FirstRetained(epoch,
                  config.ConfirmationWindow()))
    {
      var first := FirstRetained(epoch, config.ConfirmationWindow());
      ghost var buckets := confirmationByEpoch;
      var rest := set e | e in confirmationByEpoch && e < first;
      ghost var gone := rest;
      while rest != {}
        invariant rest <= gone && rest <= confirmationByEpoch.Keys
        invariant Valid() && confirmationByEpoch == buckets - (gone - rest)
        decreases |rest|
      {
        var e :| e in rest;
        SubtractionIsExact(Window(confirmationCounts, confirmationByEpoch), e);
        confirmationCounts := SubtractEpochCounts(confirmationCounts, confirmationByEpoch[e]);
        confirmationByEpoch := confirmationByEpoch - {e};
        rest := rest - {e};
      }
      WithoutIsRetain(buckets, gone, first);
    }

    /** Blends the prior epochs, nearest first, each weighing the decay once more. */
    method TakeSnapshot(epoch: nat) returns (snapshot: map<nat, Signals>)
      ensures snapshot == Snapshot(stats.objects, epoch, config.History(), config.decay)
    {
      snapshot := map[];
      for age := 0 to config.History()
        invariant snapshot == Snapshot(stats.objects, epoch, age, config.decay)
      {
        if epoch <= age {
          NothingBeforeTheFirstEpoch(stats.objects, epoch, age, config.decay);
          NothingBeforeTheFirstEpoch(stats.objects, epoch, config.History(), config.decay);
          return;
        }
        var row := EpochTelemetry(stats.objects, epoch - age - 1);
        snapshot := AddContentionSnapshots(snapshot, row, Power(config.decay, age));
      }
    }

    function ScoreObject(obj: nat, size: nat): real
      reads this
    {
      Score(config, capacity,
            Contention(currentEpoch, localAccessCounts, Window(confirmationCounts, confirmationByEpoch),
                       previousEpochStats, maxima), obj, size)
    }

    method AdmissionDecision(r: Request) returns (admit: bool)
      ensures admit == ContentionAdmits(config, capacity, View(), r.obj, r.size)
    {
      hide Score;
      if config.variant == ReuseGated && CountIn(localAccessCounts, r.obj) < config.reuseGateThreshold {
        return false;
      }
      var score := ScoreObject(r.obj, r.size);
      if score < config.minAdmitScore {
        return false;
      }
      if !config.Confirms() {
        return true;
      }
      if CountIn(confirmationCounts, r.obj) >= config.reuseGateThreshold {
        return true;
      }
      admit := score >= config.minAdmitScore + config.bypassMargin;
    }

    /** Scans the residents, in any order, for the least score, and gives it up for a better object only. */
    method SelectVictim(entries: map<nat, Entry>, incoming: Request) returns (victim: Option<nat>)
      ensures victim == Policies.SelectVictim(ContentionAware(config, capacity, View()), entries, incoming.obj,
          incoming.size)
    {
      hide Score;
      ghost var p := ContentionAware(config, capacity, View());
      if entries == map[] {
        return None;
      }
      var weakest :| weakest in entries;
      var least := ScoreObject(weakest, entries[weakest].size);
      var rest := entries.Keys;
      while rest != {}
        invariant rest <= entries.Keys && weakest in entries && least == ScoreObject(weakest, entries[weakest].size)
        invariant ColdestSoFar(p, entries, entries.Keys - rest, weakest)
        decreases |rest|
      {
        var o :| o in rest;
        ScanStep(p, entries, entries.Keys - rest, weakest, o);
        assert entries.Keys - rest + {o} == entries.Keys - (rest - {o});
        rest := rest - {o};
        var score := ScoreObject(o, entries[o].size);
        if score < least {
          weakest, least := o, score;
        } else if score == least && entries[o].lastAccess < entries[weakest].lastAccess {
          weakest, least := o, score;
        } else if score == least && entries[o].lastAccess == entries[weakest].lastAccess && o < weakest {
          weakest, least := o, score;
        }
      }
      ScannedAll(p, entries, weakest);
      ColdestUnique(p, entries, weakest);
      if ScoreObject(incoming.obj, incoming.size) <= least + config.Margin() {
        return None;
      }
      victim := Some(weakest);
    }
  }
}
