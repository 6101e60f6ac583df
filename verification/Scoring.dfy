/** What the contention score means: weighted history, bounds, and when smoothing makes no difference. */
module Scoring {
  import opened Model
  import opened Policies

  /* ---- The snapshot is a weighted sum of the prior epochs ---- */

  /** A signal that grows in proportion to what is added. */
  ghost predicate Linear(f: ObjectBucket -> real, g: Signals -> real) {
    g(NoSignals) == 0.0 && forall s, b, w :: g(AddSignals(s, b, w)) == g(s) + f(b) * w
  }

  function BucketValue(f: ObjectBucket -> real, telemetry: Telemetry, epoch: nat, obj: nat): real {
    if obj in EpochTelemetry(telemetry, epoch) then f(EpochTelemetry(telemetry, epoch)[obj]) else 0.0
  }

  /** The sum over the `ages` epochs before `epoch`, the epoch of age `a` weighing `decay` to the power `a`. */
  function Weighted(f: ObjectBucket -> real, telemetry: Telemetry, epoch: nat, ages: nat, decay: real, obj: nat): real {
    if ages == 0 then 0.0
    else
      Weighted(f, telemetry, epoch, ages - 1, decay, obj) +
      (if epoch < ages then 0.0 else BucketValue(f, telemetry, epoch - ages, obj) * Power(decay, ages - 1))
  }

  lemma {:induction false} SnapshotIsWeightedSum(f: ObjectBucket -> real, g: Signals -> real, telemetry: Telemetry,
                                                 epoch: nat, ages: nat, decay: real, obj: nat)
    requires Linear(f, g)
    ensures g(SignalsOf(Snapshot(telemetry, epoch, ages, decay), obj)) ==
            Weighted(f, telemetry, epoch, ages, decay, obj)
  {
    hide AddEpoch, AddSignals, Power, EpochTelemetry, BucketValue;
    if ages == 0 {
      assert SignalsOf(map[], obj) == NoSignals;
    } else {
      SnapshotIsWeightedSum(f, g, telemetry, epoch, ages - 1, decay, obj);
      if epoch >= ages {
        AddEpochIsSum(f, g, Snapshot(telemetry, epoch, ages - 1, decay), telemetry, epoch - ages,
                      Power(decay, ages - 1), obj);
      }
    }
  }

  lemma AddEpochIsSum(f: ObjectBucket -> real, g: Signals -> real, snapshot: map<nat, Signals>, telemetry: Telemetry,
                      epoch: nat, weight: real, obj: nat)
    requires Linear(f, g)
    ensures g(SignalsOf(AddEpoch(snapshot, EpochTelemetry(telemetry, epoch), weight), obj)) ==
            g(SignalsOf(snapshot, obj)) + BucketValue(f, telemetry, epoch, obj) * weight
  {
    hide AddSignals;
    if obj in EpochTelemetry(telemetry, epoch) {
      var s, b := SignalsOf(snapshot, obj), EpochTelemetry(telemetry, epoch)[obj];
      assert g(AddSignals(s, b, weight)) == g(s) + f(b) * weight;
    }
  }

  function Accesses(s: Signals): real { s.accesses }
  function Requesters(s: Signals): real { s.requesters }
  function Bytes(s: Signals): real { s.bytes }
  function QueueWait(s: Signals): real { s.queueWait }
  function ServiceTimeOf(s: Signals): real { s.serviceTime }

  function BucketAccesses(b: ObjectBucket): real { b.accesses as real }
  function BucketRequesters(b: ObjectBucket): real { |b.requesters| as real }
  function BucketBytes(b: ObjectBucket): real { b.bytes as real }
  function BucketQueueWait(b: ObjectBucket): real { b.queueWait as real }
  function BucketServiceTime(b: ObjectBucket): real { b.serviceTime as real }

  /** All five signals of an object are weighted sums of its telemetry. */
  lemma SnapshotMeans(telemetry: Telemetry, epoch: nat, ages: nat, decay: real, obj: nat)
    ensures SignalsOf(Snapshot(telemetry, epoch, ages, decay), obj) ==
            Signals(Weighted(BucketAccesses, telemetry, epoch, ages, decay, obj),
                    Weighted(BucketRequesters, telemetry, epoch, ages, decay, obj),
                    Weighted(BucketBytes, telemetry, epoch, ages, decay, obj),
                    Weighted(BucketQueueWait, telemetry, epoch, ages, decay, obj),
                    Weighted(BucketServiceTime, telemetry, epoch, ages, decay, obj))
  {
    hide Snapshot, Weighted;
    SnapshotIsWeightedSum(BucketAccesses, Accesses, telemetry, epoch, ages, decay, obj);
    SnapshotIsWeightedSum(BucketRequesters, Requesters, telemetry, epoch, ages, decay, obj);
    SnapshotIsWeightedSum(BucketBytes, Bytes, telemetry, epoch, ages, decay, obj);
    SnapshotIsWeightedSum(BucketQueueWait, QueueWait, telemetry, epoch, ages, decay, obj);
    SnapshotIsWeightedSum(BucketServiceTime, ServiceTimeOf, telemetry, epoch, ages, decay, obj);
  }

  /* ---- Maxima ---- */

  /** The largest value of a signal over a snapshot, and zero if none is larger. */
  ghost predicate IsLargest(g: Signals -> real, snapshot: map<nat, Signals>, m: real) {
    m >= 0.0 && (forall o :: o in snapshot ==> g(snapshot[o]) <= m) &&
    (m == 0.0 || exists o :: o in snapshot && g(snapshot[o]) == m)
  }

  lemma LargestUnique(g: Signals -> real, snapshot: map<nat, Signals>, m: real, n: real)
    requires IsLargest(g, snapshot, m) && IsLargest(g, snapshot, n)
    ensures m == n
  {
  }

  lemma LargestRaise(g: Signals -> real, snapshot: map<nat, Signals>, o: nat, m: real)
    requires o in snapshot && IsLargest(g, snapshot - {o}, m)
    ensures IsLargest(g, snapshot, MaxReal(m, g(snapshot[o])))
  {
    var rest := snapshot - {o};
    forall k | k in snapshot ensures g(snapshot[k]) <= MaxReal(m, g(snapshot[o])) {
      assert k != o ==> k in rest;
    }
    if MaxReal(m, g(snapshot[o])) == m && m != 0.0 {
      var k :| k in rest && g(rest[k]) == m;
      assert k in snapshot;
    }
  }

  ghost predicate AreMaxima(snapshot: map<nat, Signals>, m: Maxima) {
    && IsLargest(Accesses, snapshot, m.accesses) && IsLargest(Requesters, snapshot, m.requesters)
    && IsLargest(QueueWait, snapshot, m.queueWait) && IsLargest(ServiceTimeOf, snapshot, m.serviceTime)
    && IsLargest(CostPerByte, snapshot, m.density)
  }

  lemma RaiseMaxima(snapshot: map<nat, Signals>, o: nat, m: Maxima)
    requires o in snapshot && AreMaxima(snapshot - {o}, m)
    ensures AreMaxima(snapshot, Raise(m, snapshot[o]))
  {
    hide IsLargest, MaxReal, CostPerByte;
    LargestRaise(Accesses, snapshot, o, m.accesses);
    LargestRaise(Requesters, snapshot, o, m.requesters);
    LargestRaise(QueueWait, snapshot, o, m.queueWait);
    LargestRaise(ServiceTimeOf, snapshot, o, m.serviceTime);
    LargestRaise(CostPerByte, snapshot, o, m.density);
  }

  /** The maxima that the policy keeps are the largest signals, whatever the order in which it scans the snapshot. */
  lemma {:induction false} MaximaAreLargest(snapshot: map<nat, Signals>)
    ensures AreMaxima(snapshot, MaximaOf(snapshot))
    decreases |snapshot|
  {
    if snapshot != map[] {
      hide AreMaxima, Raise;
      var o :| o in snapshot && MaximaOf(snapshot) == Raise(MaximaOf(snapshot - {o}), snapshot[o]);
      MaximaAreLargest(snapshot - {o});
      RaiseMaxima(snapshot, o, MaximaOf(snapshot - {o}));
    }
  }

  lemma MaximaUnique(snapshot: map<nat, Signals>, m: Maxima)
    requires AreMaxima(snapshot, m)
    ensures m == MaximaOf(snapshot)
  {
    MaximaAreLargest(snapshot);
    var n := MaximaOf(snapshot);
    LargestUnique(Accesses, snapshot, m.accesses, n.accesses);
    LargestUnique(Requesters, snapshot, m.requesters, n.requesters);
    LargestUnique(QueueWait, snapshot, m.queueWait, n.queueWait);
    LargestUnique(ServiceTimeOf, snapshot, m.serviceTime, n.serviceTime);
    LargestUnique(CostPerByte, snapshot, m.density, n.density);
  }

  /* ---- Bounds ---- */

  predicate Unit(x: real) { 0.0 <= x <= 1.0 }

  predicate NonNegative(s: Signals) {
    s.accesses >= 0.0 && s.requesters >= 0.0 && s.bytes >= 0.0 && s.queueWait >= 0.0 && s.serviceTime >= 0.0
  }

  lemma NormalizedIsUnit(value: real, max: real)
    requires value >= 0.0
    ensures Unit(Normalized(value, max))
    ensures value <= max ==> (Normalized(value, max) == 1.0 <==> value == max > 0.0)
  {
    if max > 0.0 {
      Divided(value, max);
    }
  }

  lemma Divided(value: real, max: real)
    requires value >= 0.0 && max > 0.0
    ensures value / max >= 0.0 && (value / max <= 1.0 <==> value <= max) && (value / max == 1.0 <==> value == max)
  {
  }

  lemma {:induction false} PowerNonNegative(base: real, exponent: nat)
    requires base >= 0.0
    ensures Power(base, exponent) >= 0.0
  {
    if exponent > 0 {
      PowerNonNegative(base, exponent - 1);
    }
  }

  lemma AddNonNegative(s: Signals, b: ObjectBucket, w: real)
    requires NonNegative(s) && w >= 0.0
    ensures NonNegative(AddSignals(s, b, w))
  {
    Product(b.accesses as real, w);
    Product(|b.requesters| as real, w);
    Product(b.bytes as real, w);
    Product(b.queueWait as real, w);
    Product(b.serviceTime as real, w);
  }

  lemma Product(a: real, b: real)
    requires a >= 0.0 && b >= 0.0
    ensures a * b >= 0.0
  {
  }

  predicate AllNonNegative(snapshot: map<nat, Signals>) {
    forall o :: o in snapshot ==> NonNegative(snapshot[o])
  }

  lemma AddEpochNonNegative(snapshot: map<nat, Signals>, row: map<nat, ObjectBucket>, w: real)
    requires AllNonNegative(snapshot) && w >= 0.0
    ensures AllNonNegative(AddEpoch(snapshot, row, w))
  {
    forall o | o in row ensures NonNegative(AddEpoch(snapshot, row, w)[o]) {
      AddNonNegative(SignalsOf(snapshot, o), row[o], w);
    }
  }

  lemma {:induction false} SnapshotNonNegative(telemetry: Telemetry, epoch: nat, ages: nat, decay: real)
    requires decay >= 0.0
    ensures AllNonNegative(Snapshot(telemetry, epoch, ages, decay))
  {
    if ages > 0 {
      SnapshotNonNegative(telemetry, epoch, ages - 1, decay);
      PowerNonNegative(decay, ages - 1);
      if epoch >= ages {
        AddEpochNonNegative(Snapshot(telemetry, epoch, ages - 1, decay), EpochTelemetry(telemetry, epoch - ages),
                            Power(decay, ages - 1));
      }
    }
  }

  lemma CostNonNegative(s: Signals)
    requires NonNegative(s)
    ensures CostPerByte(s) >= 0.0
  {
    if s.accesses > 0.0 && s.bytes > 0.0 {
      Quotient(s.bytes, s.accesses);
      Quotient(s.queueWait + s.serviceTime, s.bytes / s.accesses);
    }
  }

  lemma Quotient(a: real, b: real)
    requires a >= 0.0 && b > 0.0
    ensures a / b >= 0.0 && (a > 0.0 ==> a / b > 0.0)
  {
  }

  predicate AllUnit(p: Components) {
    Unit(p.localHotness) && Unit(p.accesses) && Unit(p.requesters) && Unit(p.queueWait) && Unit(p.serviceTime) &&
    Unit(p.density) && Unit(p.sizePenalty)
  }

  lemma ComponentsAreUnit(config: ContentionConfig, capacity: nat, c: Contention, obj: nat, size: nat)
    requires obj in c.snapshot ==> NonNegative(c.snapshot[obj])
    ensures AllUnit(ComponentsOf(config, capacity, c, obj, size))
  {
    NormalizedIsUnit(CountIn(c.local, obj) as real, config.localHotnessThreshold as real);
    if capacity > 0 {
      Quotient(size as real, capacity as real);
    }
    if obj in c.snapshot {
      var s := c.snapshot[obj];
      NormalizedIsUnit(s.accesses, c.maxima.accesses);
      NormalizedIsUnit(s.requesters, c.maxima.requesters);
      NormalizedIsUnit(s.queueWait, c.maxima.queueWait);
      NormalizedIsUnit(s.serviceTime, c.maxima.serviceTime);
      CostNonNegative(s);
      NormalizedIsUnit(CostPerByte(s), c.maxima.density);
    }
  }

  predicate NonNegativeWeights(w: Weights) {
    w.localHotness >= 0.0 && w.remoteAccess >= 0.0 && w.distinctRequester >= 0.0 && w.queueWait >= 0.0 &&
    w.serviceTime >= 0.0 && w.sizePenalty >= 0.0 && w.costDensity >= 0.0
  }

  lemma Share(w: real, x: real)
    requires w >= 0.0 && Unit(x)
    ensures 0.0 <= Part(w, x) <= w
  {
  }

  lemma WeighWithin(w: Weights, p: Components)
    requires NonNegativeWeights(w) && AllUnit(p)
    ensures -w.sizePenalty <= Weigh(w, p) <=
            w.localHotness + w.remoteAccess + w.distinctRequester + w.queueWait + w.serviceTime + w.costDensity
  {
    hide Part;
    Share(w.localHotness, p.localHotness);
    Share(w.remoteAccess, p.accesses);
    Share(w.distinctRequester, p.requesters);
    Share(w.queueWait, p.queueWait);
    Share(w.serviceTime, p.serviceTime);
    Share(w.costDensity, p.density);
    Share(w.sizePenalty, p.sizePenalty);
  }

  /** At any time after an epoch start every component is a fraction, and the score lies between its weights. */
  lemma ScoreWithin(config: ContentionConfig, capacity: nat, c: Contention, epoch: nat, telemetry: Telemetry, obj: nat,
                    size: nat)
    requires NonNegativeWeights(config.weights) && config.decay >= 0.0
    requires c.snapshot == Snapshot(telemetry, epoch, config.History(), config.decay)
    ensures AllUnit(ComponentsOf(config, capacity, c, obj, size))
    ensures var w := config.weights;
            -w.sizePenalty <= Score(config, capacity, c, obj, size) <=
            w.localHotness + w.remoteAccess + w.distinctRequester + w.queueWait + w.serviceTime + w.costDensity
  {
    SnapshotNonNegative(telemetry, epoch, config.History(), config.decay);
    ComponentsAreUnit(config, capacity, c, obj, size);
    WeighWithin(config.weights, ComponentsOf(config, capacity, c, obj, size));
  }

  lemma NoSignalsNormalized(max: real)
    ensures Normalized(0.0, max) == 0.0
  {
  }

  /* ---- Ranking ---- */

  ghost predicate ScoresLower(config: ContentionConfig, capacity: nat, c: Contention, a: nat, size: nat, b: nat,
                              other: nat)
  {
    Score(config, capacity, c, a, size) <= Score(config, capacity, c, b, other)
  }

  /** Two objects compare by score, whatever their sizes, as they compare by one signal. */
  ghost predicate RanksBy(g: Signals -> real, config: ContentionConfig, capacity: nat, c: Contention) {
    forall a, size, b, other {:trigger ScoresLower(config, capacity, c, a, size, b, other)} ::
      ScoresLower(config, capacity, c, a, size, b, other) <==>
      g(SignalsOf(c.snapshot, a)) <= g(SignalsOf(c.snapshot, b))
  }

  lemma QuotientOrder(x: real, y: real, max: real)
    requires max > 0.0
    ensures x / max <= y / max <==> x <= y
  {
  }

  lemma NormalizedOrder(x: real, y: real, max: real)
    requires 0.0 <= x <= max && 0.0 <= y <= max
    ensures Normalized(x, max) <= Normalized(y, max) <==> x <= y
  {
    if max > 0.0 {
      Divided(x, max);
      Divided(y, max);
      QuotientOrder(x, y, max);
    }
  }

  lemma PartOrder(weight: real, x: real, y: real)
    requires weight > 0.0
    ensures Part(weight, x) <= Part(weight, y) <==> x <= y
    ensures Part(0.0, x) == 0.0
  {
    assert x <= y ==> weight * x <= weight * y;
    assert x > y ==> weight * x > weight * y;
  }

  /** The signal of any object lies between zero and the maximum that is kept for it. */
  lemma SignalWithin(g: Signals -> real, snapshot: map<nat, Signals>, max: real, obj: nat)
    requires IsLargest(g, snapshot, max) && g(NoSignals) == 0.0
    requires forall o :: o in snapshot ==> g(snapshot[o]) >= 0.0
    ensures 0.0 <= g(SignalsOf(snapshot, obj)) <= max
  {
  }

  /** The component that the score takes from each signal; a missing object has none. */
  lemma ComponentsMean(config: ContentionConfig, capacity: nat, c: Contention, obj: nat, size: nat)
    ensures var p, s := ComponentsOf(config, capacity, c, obj, size), SignalsOf(c.snapshot, obj);
            && p.accesses == Normalized(s.accesses, c.maxima.accesses)
            && p.requesters == Normalized(s.requesters, c.maxima.requesters)
            && p.queueWait == Normalized(s.queueWait, c.maxima.queueWait)
            && p.serviceTime == Normalized(s.serviceTime, c.maxima.serviceTime)
            && p.density == Normalized(CostPerByte(s), c.maxima.density)
  {
    if obj !in c.snapshot {
      forall max ensures Normalized(0.0, max) == 0.0 {
        NoSignalsNormalized(max);
      }
    }
  }

  /** A weight alone weighs its own component alone. */
  lemma LoneWeight(x: real, p: Components)
    ensures Weigh(Weights(x, 0.0, 0.0, 0.0, 0.0, 0.0, 0.0), p) == Part(x, p.localHotness)
    ensures Weigh(Weights(0.0, x, 0.0, 0.0, 0.0, 0.0, 0.0), p) == Part(x, p.accesses)
    ensures Weigh(Weights(0.0, 0.0, x, 0.0, 0.0, 0.0, 0.0), p) == Part(x, p.requesters)
    ensures Weigh(Weights(0.0, 0.0, 0.0, x, 0.0, 0.0, 0.0), p) == Part(x, p.queueWait)
    ensures Weigh(Weights(0.0, 0.0, 0.0, 0.0, x, 0.0, 0.0), p) == Part(x, p.serviceTime)
    ensures Weigh(Weights(0.0, 0.0, 0.0, 0.0, 0.0, x, 0.0), p) == -Part(x, p.sizePenalty)
    ensures Weigh(Weights(0.0, 0.0, 0.0, 0.0, 0.0, 0.0, x), p) == Part(x, p.density)
  {
    hide Part;
    forall v ensures Part(0.0, v) == 0.0 {
      PartOrder(1.0, v, v);
    }
  }

  lemma SignalsWithin(c: Contention, obj: nat)
    requires AllNonNegative(c.snapshot) && AreMaxima(c.snapshot, c.maxima)
    ensures var s := SignalsOf(c.snapshot, obj);
            && 0.0 <= s.accesses <= c.maxima.accesses && 0.0 <= s.requesters <= c.maxima.requesters
            && 0.0 <= s.queueWait <= c.maxima.queueWait && 0.0 <= s.serviceTime <= c.maxima.serviceTime
            && 0.0 <= CostPerByte(s) <= c.maxima.density
  {
    forall o | o in c.snapshot ensures CostPerByte(c.snapshot[o]) >= 0.0 {
      CostNonNegative(c.snapshot[o]);
    }
    hide CostPerByte;
    SignalWithin(Accesses, c.snapshot, c.maxima.accesses, obj);
    SignalWithin(Requesters, c.snapshot, c.maxima.requesters, obj);
    SignalWithin(QueueWait, c.snapshot, c.maxima.queueWait, obj);
    SignalWithin(ServiceTimeOf, c.snapshot, c.maxima.serviceTime, obj);
    NoCost();
    SignalWithin(CostPerByte, c.snapshot, c.maxima.density, obj);
  }

  lemma NoCost()
    ensures CostPerByte(NoSignals) == 0.0
  {
  }

  lemma SignalsCompare(config: ContentionConfig, capacity: nat, c: Contention, x: real, a: nat, size: nat, b: nat,
                       other: nat)
    requires x > 0.0 && AllNonNegative(c.snapshot) && AreMaxima(c.snapshot, c.maxima)
    ensures var p, q := ComponentsOf(config, capacity, c, a, size), ComponentsOf(config, capacity, c, b, other);
            var s, t := SignalsOf(c.snapshot, a), SignalsOf(c.snapshot, b);
            && (Part(x, p.accesses) <= Part(x, q.accesses) <==> s.accesses <= t.accesses)
            && (Part(x, p.requesters) <= Part(x, q.requesters) <==> s.requesters <= t.requesters)
            && (Part(x, p.queueWait) <= Part(x, q.queueWait) <==> s.queueWait <= t.queueWait)
            && (Part(x, p.serviceTime) <= Part(x, q.serviceTime) <==> s.serviceTime <= t.serviceTime)
            && (Part(x, p.density) <= Part(x, q.density) <==> CostPerByte(s) <= CostPerByte(t))
  {
    hide Part, Normalized, CostPerByte, ComponentsOf, AreMaxima, AllNonNegative, SignalsOf;
    ComponentsMean(config, capacity, c, a, size);
    ComponentsMean(config, capacity, c, b, other);
    SignalsWithin(c, a);
    SignalsWithin(c, b);
    var p, q := ComponentsOf(config, capacity, c, a, size), ComponentsOf(config, capacity, c, b, other);
    var s, t := SignalsOf(c.snapshot, a), SignalsOf(c.snapshot, b);
    NormalizedOrder(s.accesses, t.accesses, c.maxima.accesses);
    NormalizedOrder(s.requesters, t.requesters, c.maxima.requesters);
    NormalizedOrder(s.queueWait, t.queueWait, c.maxima.queueWait);
    NormalizedOrder(s.serviceTime, t.serviceTime, c.maxima.serviceTime);
    NormalizedOrder(CostPerByte(s), CostPerByte(t), c.maxima.density);
    PartOrder(x, p.accesses, q.accesses);
    PartOrder(x, p.requesters, q.requesters);
    PartOrder(x, p.queueWait, q.queueWait);
    PartOrder(x, p.serviceTime, q.serviceTime);
    PartOrder(x, p.density, q.density);
  }

  /**
   * A policy that gives weight to one signal alone ranks objects exactly as the blended telemetry of the prior epochs
   * does: normalising by the maximum reorders nothing, and the clamp to one ties nothing.
   */
  lemma OneWeightRanks(config: ContentionConfig, capacity: nat, c: Contention, epoch: nat, telemetry: Telemetry,
                       x: real)
    requires x > 0.0 && config.decay >= 0.0 && c.maxima == MaximaOf(c.snapshot)
    requires c.snapshot == Snapshot(telemetry, epoch, config.History(), config.decay)
    ensures config.weights == Weights(0.0, x, 0.0, 0.0, 0.0, 0.0, 0.0) ==> RanksBy(Accesses, config, capacity, c)
    ensures config.weights == Weights(0.0, 0.0, x, 0.0, 0.0, 0.0, 0.0) ==> RanksBy(Requesters, config, capacity, c)
    ensures config.weights == Weights(0.0, 0.0, 0.0, x, 0.0, 0.0, 0.0) ==> RanksBy(QueueWait, config, capacity, c)
    ensures config.weights == Weights(0.0, 0.0, 0.0, 0.0, x, 0.0, 0.0) ==> RanksBy(ServiceTimeOf, config, capacity, c)
    ensures config.weights == Weights(0.0, 0.0, 0.0, 0.0, 0.0, 0.0, x) ==> RanksBy(CostPerByte, config, capacity, c)
  {
    hide Part, Weigh, Normalized, CostPerByte, ComponentsOf, AreMaxima, AllNonNegative, Snapshot, MaximaOf, SignalsOf;
    SnapshotNonNegative(telemetry, epoch, config.History(), config.decay);
    MaximaAreLargest(c.snapshot);
    var w := config.weights;
    forall a, size, b, other
      ensures var lower := ScoresLower(config, capacity, c, a, size, b, other);
              var s, t := SignalsOf(c.snapshot, a), SignalsOf(c.snapshot, b);
              && (w == Weights(0.0, x, 0.0, 0.0, 0.0, 0.0, 0.0) ==> (lower <==> s.accesses <= t.accesses))
              && (w == Weights(0.0, 0.0, x, 0.0, 0.0, 0.0, 0.0) ==> (lower <==> s.requesters <= t.requesters))
              && (w == Weights(0.0, 0.0, 0.0, x, 0.0, 0.0, 0.0) ==> (lower <==> s.queueWait <= t.queueWait))
              && (w == Weights(0.0, 0.0, 0.0, 0.0, x, 0.0, 0.0) ==> (lower <==> s.serviceTime <= t.serviceTime))
              && (w == Weights(0.0, 0.0, 0.0, 0.0, 0.0, 0.0, x) ==> (lower <==> CostPerByte(s) <= CostPerByte(t)))
    {
      LoneWeight(x, ComponentsOf(config, capacity, c, a, size));
      LoneWeight(x, ComponentsOf(config, capacity, c, b, other));
      SignalsCompare(config, capacity, c, x, a, size, b, other);
    }
  }

  /** Local hotness ranks by the lookups up to the threshold, and the size penalty by the size up to the capacity. */
  lemma HotnessAndSizeRank(config: ContentionConfig, capacity: nat, c: Contention, x: real, a: nat, size: nat, b: nat,
                           other: nat)
    requires x > 0.0
    ensures var lower := ScoresLower(config, capacity, c, a, size, b, other);
            var high := config.localHotnessThreshold;
            && (config.weights == Weights(x, 0.0, 0.0, 0.0, 0.0, 0.0, 0.0) ==>
                  (lower <==> CappedAt(CountIn(c.local, a), high) <= CappedAt(CountIn(c.local, b), high)))
            && (config.weights == Weights(0.0, 0.0, 0.0, 0.0, 0.0, x, 0.0) ==>
                  (lower <==> CappedAt(other, capacity) <= CappedAt(size, capacity)))
  {
    hide Part, Weigh;
    var p, q := ComponentsOf(config, capacity, c, a, size), ComponentsOf(config, capacity, c, b, other);
    LoneWeight(x, p);
    LoneWeight(x, q);
    PartOrder(x, p.localHotness, q.localHotness);
    PartOrder(x, q.sizePenalty, p.sizePenalty);
    if config.localHotnessThreshold > 0 {
      FractionOrder(CountIn(c.local, a), CountIn(c.local, b), config.localHotnessThreshold);
    }
    if capacity > 0 {
      FractionOrder(other, size, capacity);
    }
  }

  function CappedAt(n: nat, most: nat): nat { if n < most then n else most }

  lemma FractionOrder(m: nat, n: nat, most: nat)
    requires most > 0
    ensures MinReal(m as real / most as real, 1.0) <= MinReal(n as real / most as real, 1.0) <==>
            CappedAt(m, most) <= CappedAt(n, most)
  {
    Divided(m as real, most as real);
    Divided(n as real, most as real);
    QuotientOrder(m as real, n as real, most as real);
  }
}
