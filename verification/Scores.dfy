/** The contention score in figures: how telemetry ages, what each signal contributes, and what a run scores by. */
module Scores {
  import opened Model
  import opened Policies
  import opened Statistics
  import opened Protocol
  import opened Runs
  import opened Telemetries
  import opened Scoring

  /* ---- Telemetry ages by the decay ---- */

  /** What a bucket shows, unblended. */
  function Shown(b: ObjectBucket): Signals {
    Signals(b.accesses as real, |b.requesters| as real, b.bytes as real, b.queueWait as real, b.serviceTime as real)
  }

  /** `now` is what `b` shows, and the earlier signals at a fraction of their weight. */
  predicate Blends(now: Signals, b: ObjectBucket, earlier: Signals, decay: real) {
    && now.accesses == b.accesses as real + decay * earlier.accesses
    && now.requesters == |b.requesters| as real + decay * earlier.requesters
    && now.bytes == b.bytes as real + decay * earlier.bytes
    && now.queueWait == b.queueWait as real + decay * earlier.queueWait
    && now.serviceTime == b.serviceTime as real + decay * earlier.serviceTime
  }

  /** What the epoch of age `age` adds to a weighted sum; ages count from one, and there may be no such epoch. */
  function Aged(f: ObjectBucket -> real, telemetry: Telemetry, epoch: nat, age: nat, decay: real, obj: nat): real
    requires age > 0
  {
    if epoch < age then 0.0 else BucketValue(f, telemetry, epoch - age, obj) * Power(decay, age - 1)
  }

  lemma WeightedNext(f: ObjectBucket -> real, telemetry: Telemetry, epoch: nat, ages: nat, decay: real, obj: nat)
    ensures Weighted(f, telemetry, epoch, ages + 1, decay, obj) ==
            Weighted(f, telemetry, epoch, ages, decay, obj) + Aged(f, telemetry, epoch, ages + 1, decay, obj)
  {
    hide BucketValue, Power;
  }

  lemma Reorder(x: real, y: real, z: real)
    ensures x * (y * z) == y * (x * z)
  {
  }

  lemma Distributes(x: real, y: real, z: real)
    ensures x * (y + z) == x * y + x * z
  {
  }

  /** An epoch that is one age older weighs the decay times as much. */
  lemma AgedNext(f: ObjectBucket -> real, telemetry: Telemetry, epoch: nat, age: nat, decay: real, obj: nat)
    requires age > 0
    ensures Aged(f, telemetry, epoch + 1, age + 1, decay, obj) == decay * Aged(f, telemetry, epoch, age, decay, obj)
  {
    hide BucketValue;
    if epoch >= age {
      Reorder(BucketValue(f, telemetry, epoch - age, obj), decay, Power(decay, age - 1));
    }
  }

  lemma NewestAge(f: ObjectBucket -> real, telemetry: Telemetry, epoch: nat, decay: real, obj: nat)
    ensures Weighted(f, telemetry, epoch + 1, 1, decay, obj) == BucketValue(f, telemetry, epoch, obj)
    ensures Weighted(f, telemetry, epoch, 0, decay, obj) == 0.0
  {
    hide BucketValue;
    WeightedNext(f, telemetry, epoch + 1, 0, decay, obj);
    assert Power(decay, 0) == 1.0;
  }

  /** One epoch more, one age more: the newest epoch in full, and all the others one step older. */
  lemma {:induction false} WeightedAges(f: ObjectBucket -> real, telemetry: Telemetry, epoch: nat, ages: nat,
                                        decay: real, obj: nat)
    ensures Weighted(f, telemetry, epoch + 1, ages + 1, decay, obj) ==
            BucketValue(f, telemetry, epoch, obj) + decay * Weighted(f, telemetry, epoch, ages, decay, obj)
  {
    hide BucketValue, Weighted, Aged;
    if ages == 0 {
      NewestAge(f, telemetry, epoch, decay, obj);
    } else {
      WeightedAges(f, telemetry, epoch, ages - 1, decay, obj);
      WeightedNext(f, telemetry, epoch + 1, ages, decay, obj);
      WeightedNext(f, telemetry, epoch, ages - 1, decay, obj);
      AgedNext(f, telemetry, epoch, ages, decay, obj);
      Distributes(decay, Weighted(f, telemetry, epoch, ages - 1, decay, obj),
                  Aged(f, telemetry, epoch, ages, decay, obj));
    }
  }

  lemma WeightedOfNothing(f: ObjectBucket -> real, telemetry: Telemetry, epoch: nat, ages: nat, decay: real, obj: nat)
    requires epoch == 0 || ages == 0
    ensures Weighted(f, telemetry, epoch, ages, decay, obj) == 0.0
  {
  }

  /**
   * The snapshot of an epoch is what the epoch before it showed, and the snapshot that this one could have taken, over
   * one epoch less, at the decayed weight. Without prior epochs, or without history, there is nothing in it.
   */
  lemma SnapshotBlends(telemetry: Telemetry, epoch: nat, ages: nat, decay: real, obj: nat)
    ensures Blends(SignalsOf(Snapshot(telemetry, epoch + 1, ages + 1, decay), obj),
                   Cell(telemetry, epoch, obj, NoObject),
                   SignalsOf(Snapshot(telemetry, epoch, ages, decay), obj), decay)
    ensures SignalsOf(Snapshot(telemetry, 0, ages, decay), obj) == NoSignals
    ensures SignalsOf(Snapshot(telemetry, epoch, 0, decay), obj) == NoSignals
  {
    hide Snapshot, Weighted;
    SnapshotMeans(telemetry, epoch + 1, ages + 1, decay, obj);
    SnapshotMeans(telemetry, epoch, ages, decay, obj);
    SnapshotMeans(telemetry, 0, ages, decay, obj);
    SnapshotMeans(telemetry, epoch, 0, decay, obj);
    forall f ensures Weighted(f, telemetry, 0, ages, decay, obj) == Weighted(f, telemetry, epoch, 0, decay, obj) == 0.0
    {
      WeightedOfNothing(f, telemetry, 0, ages, decay, obj);
      WeightedOfNothing(f, telemetry, epoch, 0, decay, obj);
    }
    WeightedAges(BucketAccesses, telemetry, epoch, ages, decay, obj);
    WeightedAges(BucketRequesters, telemetry, epoch, ages, decay, obj);
    WeightedAges(BucketBytes, telemetry, epoch, ages, decay, obj);
    WeightedAges(BucketQueueWait, telemetry, epoch, ages, decay, obj);
    WeightedAges(BucketServiceTime, telemetry, epoch, ages, decay, obj);
  }

  /* ---- What each signal contributes ---- */

  /** The fraction that `part` is of `whole`, but no more than one; of nothing there is no part. */
  predicate FractionOf(x: real, part: real, whole: real) {
    if whole > 0.0 then (if part < whole then x * whole == part else x == 1.0) else x == 0.0
  }

  lemma NormalizedIsFraction(value: real, max: real)
    ensures FractionOf(Normalized(value, max), value, max)
  {
    if max > 0.0 {
      assert value / max * max == value;
      if value < max {
        assert value / max < 1.0;
      } else {
        assert value / max >= 1.0;
      }
    }
  }

  /** What an object costs per byte that a cache would hold of it: queueing and service, over the mean size fetched. */
  lemma CostMeans(s: Signals)
    requires s.accesses > 0.0 && s.bytes > 0.0
    ensures CostPerByte(s) * s.bytes == (s.queueWait + s.serviceTime) * s.accesses
  {
    Quotient(s.bytes, s.accesses);
    var mean, cost := s.bytes / s.accesses, CostPerByte(s);
    assert cost * mean == s.queueWait + s.serviceTime;
    assert mean * s.accesses == s.bytes;
    Regroup(cost, mean, s.accesses);
  }

  lemma Regroup(x: real, y: real, z: real)
    ensures x * (y * z) == (x * y) * z
  {
  }

  /** Nothing fetched costs nothing. */
  lemma NoCostWithoutBytes(s: Signals)
    requires s.accesses <= 0.0 || s.bytes <= 0.0
    ensures CostPerByte(s) == 0.0
  {
  }

  /** The weighted sum of seven fractions, the last of which is taken off. */
  predicate AddsUp(score: real, w: Weights, p: Components) {
    score == w.localHotness * p.localHotness + w.remoteAccess * p.accesses + w.distinctRequester * p.requesters +
             w.queueWait * p.queueWait + w.serviceTime * p.serviceTime + w.costDensity * p.density -
             w.sizePenalty * p.sizePenalty
  }

  /** The fractions that a score is made of. */
  predicate Fractions(p: Components, config: ContentionConfig, capacity: nat, c: Contention, obj: nat, size: nat) {
    var s := SignalsOf(c.snapshot, obj);
    && FractionOf(p.localHotness, CountIn(c.local, obj) as real, config.localHotnessThreshold as real)
    && FractionOf(p.accesses, s.accesses, c.maxima.accesses)
    && FractionOf(p.requesters, s.requesters, c.maxima.requesters)
    && FractionOf(p.queueWait, s.queueWait, c.maxima.queueWait)
    && FractionOf(p.serviceTime, s.serviceTime, c.maxima.serviceTime)
    && FractionOf(p.density, CostPerByte(s), c.maxima.density)
    && if capacity > 0 then FractionOf(p.sizePenalty, size as real, capacity as real) else p.sizePenalty == 1.0
  }

  /**
   * A score is the weighted sum of the fractions that the object's local count, its four signals and its cost are of
   * the threshold and the maxima, less the fraction that its size is of the capacity.
   */
  lemma ScoreAddsUp(config: ContentionConfig, capacity: nat, c: Contention, obj: nat, size: nat) returns (p: Components)
    ensures Fractions(p, config, capacity, c, obj, size)
    ensures AddsUp(Score(config, capacity, c, obj, size), config.weights, p)
  {
    hide Fractions, AddsUp, ComponentsOf, Weigh;
    p := ComponentsOf(config, capacity, c, obj, size);
    ComponentsAreFractions(config, capacity, c, obj, size);
    WeighAddsUp(config.weights, p);
  }

  lemma WeighAddsUp(w: Weights, p: Components)
    ensures AddsUp(Weigh(w, p), w, p)
  {
  }

  lemma ComponentsAreFractions(config: ContentionConfig, capacity: nat, c: Contention, obj: nat, size: nat)
    ensures Fractions(ComponentsOf(config, capacity, c, obj, size), config, capacity, c, obj, size)
  {
    hide Normalized, CostPerByte, FractionOf;
    var s := SignalsOf(c.snapshot, obj);
    ComponentsMean(config, capacity, c, obj, size);
    NormalizedIsFraction(CountIn(c.local, obj) as real, config.localHotnessThreshold as real);
    NormalizedIsFraction(s.accesses, c.maxima.accesses);
    NormalizedIsFraction(s.requesters, c.maxima.requesters);
    NormalizedIsFraction(s.queueWait, c.maxima.queueWait);
    NormalizedIsFraction(s.serviceTime, c.maxima.serviceTime);
    NormalizedIsFraction(CostPerByte(s), c.maxima.density);
    if capacity > 0 {
      PenaltyIsFraction(size, capacity);
    }
  }

  lemma PenaltyIsFraction(size: nat, capacity: nat)
    requires capacity > 0
    ensures FractionOf(MinReal(size as real / capacity as real, 1.0), size as real, capacity as real)
  {
    NormalizedIsFraction(size as real, capacity as real);
  }

  /* ---- What a run scores by ---- */

  /**
   * A node of a variant that does not smooth scores by what the epoch before its own showed, as it stands at the end of
   * the run; in the first epoch there is nothing to score by.
   */
  lemma ScoresByTheEpochBefore(cfg: Config, k: nat, id: nat, obj: nat)
    requires ValidConfig(cfg) && cfg.policy.ContentionAware? && cfg.policy.state.epoch.None?
    requires cfg.policy.contention.variant in {V1, ReuseGated, Hysteresis}
    requires k <= Turns(cfg) && id in Run(cfg, k).nodes && Run(cfg, k).nodes[id].epoch.Some?
    ensures var n := Run(cfg, k).nodes[id];
            && n.cache.policy.ContentionAware?
            && SignalsOf(n.cache.policy.state.snapshot, obj) ==
               if n.epoch.value == 0 then NoSignals
               else Shown(Cell(Final(cfg).shared.stats.objects, n.epoch.value - 1, obj, NoObject))
  {
    hide Run, Snapshot, Blends;
    SnapshotsAreFinal(cfg, k, id);
    var e, telemetry, decay :=
      Run(cfg, k).nodes[id].epoch.value, Final(cfg).shared.stats.objects, cfg.policy.contention.decay;
    SnapshotBlends(telemetry, 0, 1, decay, obj);
    if e > 0 {
      SnapshotBlends(telemetry, e - 1, 0, decay, obj);
      NothingBlended(SignalsOf(Snapshot(telemetry, e, 1, decay), obj), Cell(telemetry, e - 1, obj, NoObject), decay);
    }
  }

  lemma NothingBlended(now: Signals, b: ObjectBucket, decay: real)
    requires Blends(now, b, NoSignals, decay)
    ensures now == Shown(b)
  {
  }

  /** A node of a variant that smooths scores by as many epochs before its own as are configured, blended. */
  lemma ScoresByItsHistory(cfg: Config, k: nat, id: nat)
    requires ValidConfig(cfg) && cfg.policy.ContentionAware? && cfg.policy.state.epoch.None?
    requires cfg.policy.contention.variant in {Smoothed, SmoothedReuseGated}
    requires k <= Turns(cfg) && id in Run(cfg, k).nodes && Run(cfg, k).nodes[id].epoch.Some?
    ensures var n, config := Run(cfg, k).nodes[id], cfg.policy.contention;
            && n.cache.policy.ContentionAware?
            && n.cache.policy.state.snapshot ==
               Snapshot(Final(cfg).shared.stats.objects, n.epoch.value, config.historyEpochs, config.decay)
            && AreMaxima(n.cache.policy.state.snapshot, n.cache.policy.state.maxima)
  {
    hide Run, Snapshot, AreMaxima;
    SnapshotsAreFinal(cfg, k, id);
    MaximaAreLargest(Run(cfg, k).nodes[id].cache.policy.state.snapshot);
  }
}
