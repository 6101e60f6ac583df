/** The cache policies as values: access counts, scores, admission and choice of a victim. */
module Policies {
  import opened Model
  import opened Totals

  /* ---- Access counts kept per epoch, with an aggregate ---- */

  /** Per-epoch counts and the aggregate count of each object over the retained epochs. */
  datatype Window = Window(counts: map<nat, nat>, buckets: map<nat, map<nat, nat>>)

  function CountIn(counts: map<nat, nat>, obj: nat): nat {
    if obj in counts then counts[obj] else 0
  }

  function BucketOf(buckets: map<nat, map<nat, nat>>, epoch: nat): map<nat, nat> {
    if epoch in buckets then buckets[epoch] else map[]
  }

  function Increment(counts: map<nat, nat>, obj: nat): map<nat, nat> {
    counts[obj := CountIn(counts, obj) + 1]
  }

  function Bump(w: Window, epoch: nat, obj: nat): Window {
    Window(Increment(w.counts, obj), w.buckets[epoch := Increment(BucketOf(w.buckets, epoch), obj)])
  }

  /** The counts of one object, epoch by epoch. */
  ghost function PerEpoch(buckets: map<nat, map<nat, nat>>, obj: nat): map<nat, nat> {
    map e | e in buckets && obj in buckets[e] :: buckets[e][obj]
  }

  ghost function Recount(buckets: map<nat, map<nat, nat>>, obj: nat): nat {
    Total(PerEpoch(buckets, obj))
  }

  ghost function Objects(buckets: map<nat, map<nat, nat>>): set<nat> {
    set e, o | e in buckets && o in buckets[e] :: o
  }

  ghost function RecountAll(buckets: map<nat, map<nat, nat>>): map<nat, nat> {
    map o | o in Objects(buckets) :: Recount(buckets, o)
  }

  function Retain(buckets: map<nat, map<nat, nat>>, first: nat): map<nat, map<nat, nat>> {
    map e | e in buckets && e >= first :: buckets[e]
  }

  /** Forgets every epoch before `first`. */
  ghost function Prune(w: Window, first: nat): Window {
    Window(RecountAll(Retain(w.buckets, first)), Retain(w.buckets, first))
  }

  /** The first epoch that a window of `window` epochs ending at `epoch` retains. */
  function FirstRetained(epoch: nat, window: nat): nat {
    if epoch + 1 >= window then epoch + 1 - window else 0
  }

  /* ---- Hotness ---- */

  datatype HistoryMode = EpochOnly | Cumulative | Windowed

  datatype HotnessConfig = HotnessConfig(minAdmitCount: nat, mode: HistoryMode, window: nat)

  function HotnessLookup(config: HotnessConfig, w: Window, epoch: nat, obj: nat): Window {
    if config.mode.Windowed? then Bump(w, epoch, obj) else w.(counts := Increment(w.counts, obj))
  }

  ghost function HotnessEpochStart(config: HotnessConfig, w: Window, epoch: nat): Window {
    match config.mode
    case EpochOnly => Window(map[], map[])
    case Cumulative => w
    case Windowed => Prune(w, FirstRetained(epoch, config.window))
  }

  /* ---- Contention ---- */

  datatype Variant = V1 | Smoothed | ReuseGated | Hysteresis | SmoothedReuseGated

  datatype Weights = Weights(localHotness: real, remoteAccess: real, distinctRequester: real, queueWait: real,
                             serviceTime: real, sizePenalty: real, costDensity: real)

  datatype ContentionConfig =
    ContentionConfig(weights: Weights, variant: Variant, minAdmitScore: real, localHotnessThreshold: nat,
                     resetOnEpochChange: bool, historyEpochs: nat, decay: real, reuseGateThreshold: nat,
                     confirmationWindow: nat, bypassMargin: real, evictionMargin: real)
  {
    predicate Smooths() { variant == Smoothed || variant == SmoothedReuseGated }

    predicate Confirms() { variant == SmoothedReuseGated }

    predicate Hysteretic() { variant == Hysteresis || (variant == SmoothedReuseGated && evictionMargin > 0.0) }

    function History(): nat { if Smooths() then historyEpochs else 1 }

    function Margin(): real { if Hysteretic() then evictionMargin else 0.0 }

    function ConfirmationWindow(): nat { if confirmationWindow > 1 then confirmationWindow else 1 }
  }

  /** Telemetry of one object blended over the prior epochs. */
  datatype Signals = Signals(accesses: real, requesters: real, bytes: real, queueWait: real, serviceTime: real)

  const NoSignals := Signals(0.0, 0.0, 0.0, 0.0, 0.0)

  /** The largest value of every signal, and of the cost per cached byte. */
  datatype Maxima = Maxima(accesses: real, requesters: real, queueWait: real, serviceTime: real, density: real)

  const NoMaxima := Maxima(0.0, 0.0, 0.0, 0.0, 0.0)

  datatype Contention = Contention(epoch: Option<nat>, local: map<nat, nat>, confirmations: Window,
                                   snapshot: map<nat, Signals>, maxima: Maxima)

  const FreshContention := Contention(None, map[], Window(map[], map[]), map[], NoMaxima)

  function Power(base: real, exponent: nat): real {
    if exponent == 0 then 1.0 else base * Power(base, exponent - 1)
  }

  function AddSignals(s: Signals, b: ObjectBucket, weight: real): Signals {
    Signals(s.accesses + b.accesses as real * weight,
            s.requesters + |b.requesters| as real * weight,
            s.bytes + b.bytes as real * weight,
            s.queueWait + b.queueWait as real * weight,
            s.serviceTime + b.serviceTime as real * weight)
  }

  function SignalsOf(snapshot: map<nat, Signals>, obj: nat): Signals {
    if obj in snapshot then snapshot[obj] else NoSignals
  }

  /** Adds one epoch's telemetry, weighted, to the snapshot. */
  function AddEpoch(snapshot: map<nat, Signals>, epoch: map<nat, ObjectBucket>, weight: real): map<nat, Signals> {
    map o | o in snapshot.Keys + epoch.Keys ::
      if o in epoch then AddSignals(SignalsOf(snapshot, o), epoch[o], weight) else snapshot[o]
  }

  function EpochTelemetry(telemetry: Telemetry, epoch: nat): map<nat, ObjectBucket> {
    if epoch in telemetry then telemetry[epoch] else map[]
  }

  /** The snapshot taken at the start of `epoch` from the `ages` epochs before it, nearest first. */
  function Snapshot(telemetry: Telemetry, epoch: nat, ages: nat, decay: real): map<nat, Signals> {
    if ages == 0 then map[]
    else if epoch < ages then Snapshot(telemetry, epoch, ages - 1, decay)
    else AddEpoch(Snapshot(telemetry, epoch, ages - 1, decay), EpochTelemetry(telemetry, epoch - ages),
                  Power(decay, ages - 1))
  }

  function CostPerByte(s: Signals): real {
    if s.accesses <= 0.0 || s.bytes <= 0.0 then 0.0
    else (s.queueWait + s.serviceTime) / (s.bytes / s.accesses)
  }

  function MaxReal(a: real, b: real): real { if a < b then b else a }

  function Raise(m: Maxima, s: Signals): Maxima {
    Maxima(MaxReal(m.accesses, s.accesses), MaxReal(m.requesters, s.requesters),
           MaxReal(m.queueWait, s.queueWait), MaxReal(m.serviceTime, s.serviceTime),
           MaxReal(m.density, CostPerByte(s)))
  }

  /** The maxima over a whole snapshot, never below zero. */
  ghost function MaximaOf(snapshot: map<nat, Signals>): Maxima
    decreases |snapshot|
  {
    if snapshot == map[] then NoMaxima else
      var o :| o in snapshot;
      Raise(MaximaOf(snapshot - {o}), snapshot[o])
  }

  ghost function ContentionEpochStart(config: ContentionConfig, c: Contention, epoch: nat, telemetry: Telemetry)
    : Contention
  {
    if c.epoch == Some(epoch) then c else
      var snapshot := Snapshot(telemetry, epoch, config.History(), config.decay);
      Contention(Some(epoch),
                 if config.resetOnEpochChange then map[] else c.local,
                 if config.Confirms()
                 then Prune(c.confirmations, FirstRetained(epoch, config.ConfirmationWindow()))
                 else c.confirmations,
                 snapshot, MaximaOf(snapshot))
  }

  ghost function ContentionLookup(config: ContentionConfig, c: Contention, epoch: nat, obj: nat,
                                  telemetry: Telemetry): Contention
  {
    var d := ContentionEpochStart(config, c, epoch, telemetry);
    d.(local := Increment(d.local, obj),
       confirmations := if config.Confirms() then Bump(d.confirmations, epoch, obj) else d.confirmations)
  }

  function MinReal(a: real, b: real): real { if b < a then b else a }

  function Normalized(value: real, max: real): real {
    if max <= 0.0 then 0.0 else MinReal(value / max, 1.0)
  }

  datatype Components = Components(localHotness: real, accesses: real, requesters: real, queueWait: real,
                                   serviceTime: real, density: real, sizePenalty: real)

  function ComponentsOf(config: ContentionConfig, capacity: nat, c: Contention, obj: nat, size: nat)
    : Components
  {
    var local := Normalized(CountIn(c.local, obj) as real, config.localHotnessThreshold as real);
    var penalty := if capacity == 0 then 1.0 else MinReal(size as real / capacity as real, 1.0);
    if obj !in c.snapshot then Components(local, 0.0, 0.0, 0.0, 0.0, 0.0, penalty)
    else
      var s := c.snapshot[obj];
      Components(local, Normalized(s.accesses, c.maxima.accesses), Normalized(s.requesters, c.maxima.requesters),
                 Normalized(s.queueWait, c.maxima.queueWait), Normalized(s.serviceTime, c.maxima.serviceTime),
                 Normalized(CostPerByte(s), c.maxima.density), penalty)
  }

  function Part(weight: real, component: real): real { weight * component }

  function Weigh(w: Weights, p: Components): real {
    Part(w.localHotness, p.localHotness) + Part(w.remoteAccess, p.accesses) + Part(w.distinctRequester, p.requesters) +
    Part(w.queueWait, p.queueWait) + Part(w.serviceTime, p.serviceTime) + Part(w.costDensity, p.density) -
    Part(w.sizePenalty, p.sizePenalty)
  }

  function Score(config: ContentionConfig, capacity: nat, c: Contention, obj: nat, size: nat): real {
    Weigh(config.weights, ComponentsOf(config, capacity, c, obj, size))
  }

  function ContentionAdmits(config: ContentionConfig, capacity: nat, c: Contention, obj: nat, size: nat): bool {
    if config.variant == ReuseGated && CountIn(c.local, obj) < config.reuseGateThreshold then false else
      var score := Score(config, capacity, c, obj, size);
      if score < config.minAdmitScore then false
      else if !config.Confirms() then true
      else if CountIn(c.confirmations.counts, obj) >= config.reuseGateThreshold then true
      else score >= config.minAdmitScore + config.bypassMargin
  }

  /* ---- Any policy ---- */

  datatype Policy =
    | AlwaysRemote
    | Lru
    | Hotness(hotness: HotnessConfig, window: Window)
    | GlobalHottest
    | ContentionAware(contention: ContentionConfig, capacity: nat, state: Contention)

  datatype Entry = Entry(size: nat, insertTime: nat, lastAccess: nat)

  ghost function OnLookup(p: Policy, epoch: nat, obj: nat, telemetry: Telemetry): Policy {
    match p
    case Hotness(config, window) => Hotness(config, HotnessLookup(config, window, epoch, obj))
    case ContentionAware(config, capacity, state) =>
      ContentionAware(config, capacity, ContentionLookup(config, state, epoch, obj, telemetry))
    case _ => p
  }

  ghost function OnEpochStart(p: Policy, epoch: nat, telemetry: Telemetry): Policy {
    match p
    case Hotness(config, window) => Hotness(config, HotnessEpochStart(config, window, epoch))
    case ContentionAware(config, capacity, state) =>
      ContentionAware(config, capacity, ContentionEpochStart(config, state, epoch, telemetry))
    case _ => p
  }

  function Touch(p: Policy, entry: Entry, time: nat): Entry {
    if p.AlwaysRemote? then entry else entry.(lastAccess := time)
  }

  function Admits(p: Policy, obj: nat, size: nat): bool {
    match p
    case AlwaysRemote => false
    case Lru => true
    case Hotness(config, window) => CountIn(window.counts, obj) >= config.minAdmitCount
    case GlobalHottest => false
    case ContentionAware(config, capacity, state) => ContentionAdmits(config, capacity, state, obj, size)
  }

  /** What the policy would lose with an object: nothing is compared under LRU. */
  function Worth(p: Policy, obj: nat, size: nat): real {
    match p
    case Hotness(config, window) => CountIn(window.counts, obj) as real
    case ContentionAware(config, capacity, state) => Score(config, capacity, state, obj, size)
    case _ => 0.0
  }

  /** Residents are given up in this order: least worth first, then oldest access, then smallest identifier. */
  predicate Colder(p: Policy, entries: map<nat, Entry>, a: nat, b: nat)
    requires a in entries && b in entries
  {
    var wa, wb := Worth(p, a, entries[a].size), Worth(p, b, entries[b].size);
    wa < wb || (wa == wb && (entries[a].lastAccess < entries[b].lastAccess ||
                             (entries[a].lastAccess == entries[b].lastAccess && a < b)))
  }

  predicate IsColdest(p: Policy, entries: map<nat, Entry>, v: nat) {
    v in entries && forall k :: k in entries && k != v ==> Colder(p, entries, v, k)
  }

  /** Whether the policy would give up `v` for the incoming object. */
  predicate Yields(p: Policy, entries: map<nat, Entry>, v: nat, obj: nat, size: nat)
    requires v in entries
  {
    match p
    case Lru => true
    case Hotness(config, window) => CountIn(window.counts, obj) > CountIn(window.counts, v)
    case ContentionAware(config, capacity, state) =>
      Score(config, capacity, state, obj, size) >
      Score(config, capacity, state, v, entries[v].size) + config.Margin()
    case _ => false
  }

  lemma {:induction false} ColdestExists(p: Policy, entries: map<nat, Entry>)
    requires entries != map[]
    ensures exists v :: IsColdest(p, entries, v)
    decreases |entries|
  {
    var k :| k in entries;
    var rest := entries - {k};
    if rest == map[] {
      assert forall j :: j in entries && j != k ==> j in rest;
      assert IsColdest(p, entries, k);
    } else {
      ColdestExists(p, rest);
      var w :| IsColdest(p, rest, w);
      if Colder(p, entries, k, w) {
        forall j | j in entries && j != k ensures Colder(p, entries, k, j) {
          if j != w {
            assert j in rest;
            assert Colder(p, rest, w, j);
          }
        }
        assert IsColdest(p, entries, k);
      } else {
        forall j | j in entries && j != w ensures Colder(p, entries, w, j) {
          if j != k {
            assert j in rest;
            assert Colder(p, rest, w, j);
          }
        }
        assert IsColdest(p, entries, w);
      }
    }
  }

  ghost function Coldest(p: Policy, entries: map<nat, Entry>): (v: nat)
    requires entries != map[]
    ensures IsColdest(p, entries, v)
  {
    ColdestExists(p, entries);
    var v :| IsColdest(p, entries, v);
    v
  }

  /** The order in which residents are scanned cannot matter: there is one coldest resident. */
  lemma ColdestUnique(p: Policy, entries: map<nat, Entry>, v: nat)
    requires IsColdest(p, entries, v)
    ensures v == Coldest(p, entries)
  {
    var u := Coldest(p, entries);
    assert u != v ==> Colder(p, entries, u, v);
  }

  ghost function SelectVictim(p: Policy, entries: map<nat, Entry>, obj: nat, size: nat): Option<nat> {
    if entries == map[] then None
    else if Yields(p, entries, Coldest(p, entries), obj, size) then Some(Coldest(p, entries))
    else None
  }
}
