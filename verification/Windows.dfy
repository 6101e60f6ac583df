/** Windowed access counts along any trace: what the pruned aggregates are worth. */
module Windows {
  import opened Model
  import opened Totals
  import opened Policies

  datatype Access = Start(epoch: nat) | Look(epoch: nat, obj: nat)

  /** Epochs do not go back. */
  predicate Sequential(trace: seq<Access>) {
    forall i, j :: 0 <= i < j < |trace| ==> trace[i].epoch <= trace[j].epoch
  }

  /** Every lookup follows the start of its own epoch, as in the simulator. */
  predicate Announced(trace: seq<Access>) {
    forall i :: 0 <= i < |trace| && trace[i].Look? ==> Started(trace[..i]) == Some(trace[i].epoch)
  }

  /** The epoch started last. */
  function Started(trace: seq<Access>): Option<nat> {
    if trace == [] then None
    else if trace[|trace| - 1].Start? then Some(trace[|trace| - 1].epoch)
    else Started(trace[..|trace| - 1])
  }

  ghost function HotnessAfter(config: HotnessConfig, trace: seq<Access>): Window {
    if trace == [] then Window(map[], map[])
    else
      var w := HotnessAfter(config, trace[..|trace| - 1]);
      match trace[|trace| - 1]
      case Start(epoch) => HotnessEpochStart(config, w, epoch)
      case Look(epoch, obj) => HotnessLookup(config, w, epoch, obj)
  }

  /** The lookups of an object in the epochs from `first` on. */
  function LooksFrom(trace: seq<Access>, obj: nat, first: nat): nat {
    if trace == [] then 0
    else
      var last := trace[|trace| - 1];
      LooksFrom(trace[..|trace| - 1], obj, first) +
      (if last.Look? && last.obj == obj && last.epoch >= first then 1 else 0)
  }

  /** The first epoch that a window of `window` epochs retains after a trace. */
  function FirstAfter(window: nat, trace: seq<Access>): nat {
    if Started(trace).None? then 0 else FirstRetained(Started(trace).value, window)
  }

  /* ---- Recounting ---- */

  lemma RecountBump(w: Window, epoch: nat, o: nat, obj: nat)
    ensures Recount(Bump(w, epoch, o).buckets, obj) == Recount(w.buckets, obj) + (if o == obj then 1 else 0)
  {
    var buckets' := Bump(w, epoch, o).buckets;
    var counts := PerEpoch(w.buckets, obj);
    if o == obj {
      TotalUpdate(counts, epoch, buckets'[epoch][o]);
      assert PerEpoch(buckets', obj) == counts[epoch := buckets'[epoch][o]];
    } else {
      assert PerEpoch(buckets', obj) == counts;
    }
  }

  lemma RetainBump(w: Window, epoch: nat, o: nat, first: nat)
    ensures Retain(Bump(w, epoch, o).buckets, first) ==
            if epoch >= first then Bump(Window(map[], Retain(w.buckets, first)), epoch, o).buckets
            else Retain(w.buckets, first)
  {
  }

  lemma RetainTwice(buckets: map<nat, map<nat, nat>>, a: nat, b: nat)
    requires a <= b
    ensures Retain(Retain(buckets, a), b) == Retain(buckets, b)
  {
  }

  /** Every bucket holds positive counts, so that an object is counted exactly when some bucket lists it. */
  predicate Positive(buckets: map<nat, map<nat, nat>>) {
    forall e, o :: e in buckets && o in buckets[e] ==> buckets[e][o] > 0
  }

  /** The aggregate is the recount of the buckets. */
  ghost predicate Aggregated(w: Window) {
    w.counts == RecountAll(w.buckets) && Positive(w.buckets)
  }

  lemma BumpObjects(w: Window, epoch: nat, o: nat)
    ensures Objects(Bump(w, epoch, o).buckets) == Objects(w.buckets) + {o}
  {
    var b := Bump(w, epoch, o);
    forall x | x in Objects(w.buckets) ensures x in Objects(b.buckets) {
      var e :| e in w.buckets && x in w.buckets[e];
      assert e in b.buckets && x in b.buckets[e];
    }
    assert o in b.buckets[epoch];
  }

  lemma BumpAggregated(w: Window, epoch: nat, o: nat)
    requires Aggregated(w)
    ensures Aggregated(Bump(w, epoch, o))
  {
    var b := Bump(w, epoch, o);
    BumpObjects(w, epoch, o);
    BumpPositive(w, epoch, o);
    forall x | x in Objects(b.buckets) ensures b.counts[x] == Recount(b.buckets, x) {
      hide Recount, Bump;
      CountIsRecount(w, x);
      RecountBump(w, epoch, o, x);
      BumpCounts(w, epoch, o);
    }
    hide Bump, Recount, Positive;
    BumpCounts(w, epoch, o);
    assert b.counts.Keys == Objects(b.buckets);
  }

  lemma BumpPositive(w: Window, epoch: nat, o: nat)
    requires Positive(w.buckets)
    ensures Positive(Bump(w, epoch, o).buckets)
  {
  }

  lemma BumpCounts(w: Window, epoch: nat, o: nat)
    ensures Bump(w, epoch, o).counts == Increment(w.counts, o)
  {
  }

  lemma PruneAggregated(w: Window, first: nat)
    requires Positive(w.buckets)
    ensures Aggregated(Prune(w, first))
  {
  }

  lemma CountIsRecount(w: Window, obj: nat)
    requires Aggregated(w)
    ensures CountIn(w.counts, obj) == Recount(w.buckets, obj)
  {
    if obj !in w.counts {
      assert PerEpoch(w.buckets, obj) == map[];
    }
  }

  /* ---- Hotness ---- */

  lemma {:induction false} HotnessAggregated(config: HotnessConfig, trace: seq<Access>)
    requires config.mode.Windowed?
    ensures Aggregated(HotnessAfter(config, trace))
  {
    if trace != [] {
      var w := HotnessAfter(config, trace[..|trace| - 1]);
      HotnessAggregated(config, trace[..|trace| - 1]);
      match trace[|trace| - 1]
      case Start(epoch) => PruneAggregated(w, FirstRetained(epoch, config.window));
      case Look(epoch, obj) => BumpAggregated(w, epoch, obj);
    }
  }

  /** Whatever is retained is counted in full. */
  lemma {:induction false} RetainedIsCounted(config: HotnessConfig, trace: seq<Access>, obj: nat, first: nat)
    requires config.mode.Windowed? && Sequential(trace) && first >= FirstAfter(config.window, trace)
    ensures Recount(Retain(HotnessAfter(config, trace).buckets, first), obj) == LooksFrom(trace, obj, first)
  {
    if trace == [] {
      assert PerEpoch(Retain(map[], first), obj) == map[];
    } else {
      var before, last := trace[..|trace| - 1], trace[|trace| - 1];
      var w := HotnessAfter(config, before);
      StartedBefore(config.window, before, last);
      RetainedIsCounted(config, before, obj, first);
      match last
      case Start(epoch) => RetainTwice(w.buckets, FirstRetained(epoch, config.window), first);
      case Look(epoch, o) =>
        RetainBump(w, epoch, o, first);
        RecountBump(Window(map[], Retain(w.buckets, first)), epoch, o, obj);
    }
  }

  lemma StartedBefore(window: nat, before: seq<Access>, last: Access)
    requires Sequential(before + [last])
    ensures Sequential(before) && (before + [last])[..|before|] == before
    ensures FirstAfter(window, before) <= FirstAfter(window, before + [last])
  {
    assert (before + [last])[..|before|] == before;
    assert forall i, j :: 0 <= i < j < |before| ==> (before + [last])[i].epoch <= (before + [last])[j].epoch;
    if last.Start? && Started(before).Some? {
      StartedEarlier(before, before + [last]);
    }
  }

  lemma {:induction false} StartedEarlier(before: seq<Access>, trace: seq<Access>)
    requires before <= trace && Sequential(trace) && Started(before).Some? && |trace| > |before|
    ensures Started(before).value <= trace[|trace| - 1].epoch
  {
    var n := |before| - 1;
    assert before[n] == trace[n];
    if before[n].Look? {
      StartedEarlier(before[..n], trace);
    }
  }

  /** After a start, an epoch that is not behind it is retained, if the window spans at least one epoch. */
  lemma {:induction false} OnlyRetained(config: HotnessConfig, trace: seq<Access>, e: nat)
    requires config.mode.Windowed? && config.window > 0 && Sequential(trace) && e in HotnessAfter(config, trace).buckets
    ensures e >= FirstAfter(config.window, trace)
  {
    if trace != [] {
      var before, last := trace[..|trace| - 1], trace[|trace| - 1];
      assert trace == before + [last];
      StartedBefore(config.window, before, last);
      if last.Look? {
        if e != last.epoch {
          OnlyRetained(config, before, e);
        } else if Started(before).Some? {
          StartedEarlier(before, trace);
        }
      }
    }
  }

  /**
   * Along any trace whose epochs do not go back, the windowed count of an object is the number of its lookups in
   * the retained epochs: the incremental aggregate has lost nothing.
   */
  lemma WindowedCount(config: HotnessConfig, trace: seq<Access>, obj: nat)
    requires config.mode.Windowed? && config.window > 0 && Sequential(trace)
    ensures CountIn(HotnessAfter(config, trace).counts, obj) == LooksFrom(trace, obj, FirstAfter(config.window, trace))
  {
    var w, first := HotnessAfter(config, trace), FirstAfter(config.window, trace);
    HotnessAggregated(config, trace);
    CountIsRecount(w, obj);
    RetainedIsCounted(config, trace, obj, first);
    forall e | e in w.buckets ensures e >= first {
      OnlyRetained(config, trace, e);
    }
    assert Retain(w.buckets, first) == w.buckets;
  }

  /** The lookups of an object since the last start. */
  function LooksSinceStart(trace: seq<Access>, obj: nat): nat {
    if trace == [] || trace[|trace| - 1].Start? then 0
    else LooksSinceStart(trace[..|trace| - 1], obj) + (if trace[|trace| - 1].obj == obj then 1 else 0)
  }

  /** Along any trace, the epoch-only count of an object is the number of its lookups since the last start. */
  lemma {:induction false} EpochCount(config: HotnessConfig, trace: seq<Access>, obj: nat)
    requires config.mode.EpochOnly?
    ensures CountIn(HotnessAfter(config, trace).counts, obj) == LooksSinceStart(trace, obj)
  {
    if trace != [] {
      EpochCount(config, trace[..|trace| - 1], obj);
    }
  }

  /** Along any trace, the cumulative count of an object is the number of all its lookups. */
  lemma {:induction false} CumulativeCount(config: HotnessConfig, trace: seq<Access>, obj: nat)
    requires config.mode.Cumulative?
    ensures CountIn(HotnessAfter(config, trace).counts, obj) == LooksFrom(trace, obj, 0)
  {
    if trace != [] {
      CumulativeCount(config, trace[..|trace| - 1], obj);
    }
  }

  /** Every start is that of an epoch that has not come before. */
  predicate FreshStarts(trace: seq<Access>) {
    forall i, j :: 0 <= i < j < |trace| && trace[j].Start? ==> trace[i].epoch < trace[j].epoch
  }

  /** Where starts are announced and new, the lookups since the last start are those of the epoch started. */
  lemma {:induction false} SinceStartIsEpoch(trace: seq<Access>, obj: nat)
    requires Sequential(trace) && Announced(trace) && FreshStarts(trace)
    ensures LooksSinceStart(trace, obj) ==
            LooksFrom(trace, obj, if Started(trace).Some? then Started(trace).value else 0)
  {
    if trace != [] {
      var n := |trace| - 1;
      var before, last := trace[..n], trace[n];
      assert trace == before + [last];
      StartedBefore(0, before, last);
      forall i | 0 <= i < n && before[i].Look? ensures Started(before[..i]) == Some(before[i].epoch) {
        assert before[..i] == trace[..i] && trace[i].Look?;
      }
      if last.Start? {
        NoLooksYet(before, obj, last.epoch);
      } else {
        SinceStartIsEpoch(before, obj);
      }
    }
  }

  lemma {:induction false} NoLooksYet(trace: seq<Access>, obj: nat, first: nat)
    requires forall i :: 0 <= i < |trace| ==> trace[i].epoch < first
    ensures LooksFrom(trace, obj, first) == 0
  {
    if trace != [] {
      NoLooksYet(trace[..|trace| - 1], obj, first);
    }
  }

  /** The epochs that a window retains are the last ones, as many as the window spans. */
  lemma RetainsTheLast(epoch: nat, window: nat, e: nat)
    ensures e >= FirstRetained(epoch, window) <==> e + window > epoch
  {
  }

  /** A window of no epochs still counts what has been looked up since the last start. */
  lemma EmptyWindowCounts(minAdmitCount: nat, obj: nat)
    ensures var config, trace := HotnessConfig(minAdmitCount, Windowed, 0), [Start(0), Look(0, obj)];
            Sequential(trace) && CountIn(HotnessAfter(config, trace).counts, obj) == 1 &&
            LooksFrom(trace, obj, FirstAfter(0, trace)) == 0
  {
    var config, trace := HotnessConfig(minAdmitCount, Windowed, 0), [Start(0), Look(0, obj)];
    var one := [Start(0)];
    assert trace[..1] == one && one[..0] == [];
    assert HotnessAfter(config, one) == HotnessEpochStart(config, HotnessAfter(config, []), 0);
    assert HotnessAfter(config, one).counts == map[];
    assert HotnessAfter(config, trace) == Bump(HotnessAfter(config, one), 0, obj);
    assert Started(trace) == Started(one) == Some(0);
    assert LooksFrom(trace, obj, 1) == LooksFrom(one, obj, 1) == LooksFrom([], obj, 1);
  }

  ghost predicate CountsExactly(config: HotnessConfig) {
    forall trace, obj: nat :: Sequential(trace) ==>
      CountIn(HotnessAfter(config, trace).counts, obj) == LooksFrom(trace, obj, FirstAfter(config.window, trace))
  }

  /** The windowed count is right on all traces exactly when the window spans at least one epoch. */
  lemma WindowMustNotBeEmpty(config: HotnessConfig)
    requires config.mode.Windowed?
    ensures CountsExactly(config) <==> config.window > 0
  {
    if config.window > 0 {
      forall trace, obj: nat | Sequential(trace)
        ensures CountIn(HotnessAfter(config, trace).counts, obj) ==
                LooksFrom(trace, obj, FirstAfter(config.window, trace))
      {
        WindowedCount(config, trace, obj);
      }
    } else {
      EmptyWindowCounts(config.minAdmitCount, 1);
      var trace := [Start(0), Look(0, 1)];
      assert Sequential(trace);
    }
  }

  /* ---- Contention ---- */

  ghost function ContentionAfter(config: ContentionConfig, trace: seq<Access>, telemetry: seq<Telemetry>): Contention
    requires |telemetry| == |trace|
  {
    if trace == [] then FreshContention
    else
      var n := |trace| - 1;
      var c := ContentionAfter(config, trace[..n], telemetry[..n]);
      match trace[n]
      case Start(epoch) => ContentionEpochStart(config, c, epoch, telemetry[n])
      case Look(epoch, obj) => ContentionLookup(config, c, epoch, obj, telemetry[n])
  }

  /** The epoch of the last access, a start or a lookup. */
  function Latest(trace: seq<Access>): Option<nat> {
    if trace == [] then None else Some(trace[|trace| - 1].epoch)
  }

  /** The first epoch that a window of `window` epochs retains if lookups start their epochs as well. */
  function FirstSeen(window: nat, trace: seq<Access>): nat {
    if trace == [] then 0 else FirstRetained(trace[|trace| - 1].epoch, window)
  }

  /** The same trace, with a start before every lookup. */
  function WithStarts(trace: seq<Access>): seq<Access> {
    if trace == [] then []
    else
      var before, last := WithStarts(trace[..|trace| - 1]), trace[|trace| - 1];
      if last.Start? then before + [last] else before + [Start(last.epoch)] + [last]
  }

  predicate NoneAfter(trace: seq<Access>, epoch: nat) {
    forall i :: 0 <= i < |trace| ==> trace[i].epoch <= epoch
  }

  lemma OneMoreAccess(before: seq<Access>, last: Access)
    requires Sequential(before) && NoneAfter(before, last.epoch)
    ensures Sequential(before + [last]) && NoneAfter(before + [last], last.epoch)
    ensures Started(before + [last]) == if last.Start? then Some(last.epoch) else Started(before)
  {
    assert (before + [last])[..|before|] == before;
  }

  /** The starts that are put in leave the epochs in order, and the last of them is that of the last access. */
  lemma {:induction false} WithStartsSame(trace: seq<Access>)
    requires Sequential(trace)
    ensures Sequential(WithStarts(trace)) && Started(WithStarts(trace)) == Latest(trace)
    ensures trace != [] ==> NoneAfter(WithStarts(trace), Latest(trace).value)
  {
    if trace != [] {
      var before, last := trace[..|trace| - 1], trace[|trace| - 1];
      assert trace == before + [last];
      StartedBefore(0, before, last);
      WithStartsSame(before);
      assert before != [] ==> trace[|before| - 1].epoch <= last.epoch;
      var b := WithStarts(before);
      hide Sequential, Started;
      OneMoreAccess(b, Start(last.epoch));
      if last.Look? {
        OneMoreAccess(b + [Start(last.epoch)], last);
      }
    }
  }

  lemma {:induction false} WithStartsLooks(trace: seq<Access>, obj: nat, first: nat)
    ensures LooksFrom(WithStarts(trace), obj, first) == LooksFrom(trace, obj, first)
  {
    if trace != [] {
      var before, last := trace[..|trace| - 1], trace[|trace| - 1];
      WithStartsLooks(before, obj, first);
      var b := WithStarts(before);
      if last.Start? {
        assert (b + [last])[..|b|] == b;
      } else {
        var s := b + [Start(last.epoch)];
        assert s[..|b|] == b && (s + [last])[..|s|] == s;
      }
    }
  }

  lemma HotnessThen(config: HotnessConfig, before: seq<Access>, last: Access)
    ensures HotnessAfter(config, before + [last]) ==
            if last.Start? then HotnessEpochStart(config, HotnessAfter(config, before), last.epoch)
            else HotnessLookup(config, HotnessAfter(config, before), last.epoch, last.obj)
  {
    assert (before + [last])[..|before|] == before;
  }

  /** Nothing is lost by pruning twice. */
  lemma PruneAgain(w: Window, first: nat)
    requires Aggregated(w) && forall e :: e in w.buckets ==> e >= first
    ensures Prune(w, first) == w
  {
    assert Retain(w.buckets, first) == w.buckets;
  }

  /** A start of the epoch that was started last changes nothing. */
  lemma StartAgain(config: HotnessConfig, trace: seq<Access>, epoch: nat)
    requires config.mode.Windowed? && config.window > 0 && Sequential(trace) && Started(trace) == Some(epoch)
    ensures HotnessEpochStart(config, HotnessAfter(config, trace), epoch) == HotnessAfter(config, trace)
  {
    var w := HotnessAfter(config, trace);
    HotnessAggregated(config, trace);
    forall e | e in w.buckets ensures e >= FirstRetained(epoch, config.window) {
      OnlyRetained(config, trace, e);
    }
    PruneAgain(w, FirstRetained(epoch, config.window));
  }

  /** The window that the contention policy confirms by, as a configuration of the hotness policy. */
  function ConfirmingWindow(config: ContentionConfig): HotnessConfig {
    HotnessConfig(0, Windowed, config.ConfirmationWindow())
  }

  /**
   * Along any trace the contention policy confirms by the window that the hotness policy would hold if every lookup
   * were preceded by a start of its epoch, whatever telemetry the policy reads.
   */
  lemma {:induction false} ConfirmationIsAnnounced(config: ContentionConfig, trace: seq<Access>,
                                                   telemetry: seq<Telemetry>)
    requires |telemetry| == |trace| && config.Confirms() && Sequential(trace)
    ensures var c := ContentionAfter(config, trace, telemetry);
            c.confirmations == HotnessAfter(ConfirmingWindow(config), WithStarts(trace)) && c.epoch == Latest(trace)
  {
    hide Sequential, Prune, Bump, Started, Snapshot, MaximaOf;
    if trace != [] {
      var n := |trace| - 1;
      var before, last := trace[..n], trace[n];
      assert trace == before + [last];
      StartedBefore(0, before, last);
      ConfirmationIsAnnounced(config, before, telemetry[..n]);
      WithStartsSame(before);
      var b, hotness := WithStarts(before), ConfirmingWindow(config);
      if Started(b) == Some(last.epoch) {
        StartAgain(hotness, b, last.epoch);
      }
      HotnessThen(hotness, b, Start(last.epoch));
      HotnessThen(hotness, b + [Start(last.epoch)], last);
    }
  }

  /** The confirmation count of an object is the number of its lookups in the window that ends with the last access. */
  lemma ConfirmationCount(config: ContentionConfig, trace: seq<Access>, telemetry: seq<Telemetry>, obj: nat)
    requires |telemetry| == |trace| && config.Confirms() && Sequential(trace)
    ensures CountIn(ContentionAfter(config, trace, telemetry).confirmations.counts, obj) ==
            LooksFrom(trace, obj, FirstSeen(config.ConfirmationWindow(), trace))
  {
    ConfirmationIsAnnounced(config, trace, telemetry);
    WithStartsSame(trace);
    WindowedCount(ConfirmingWindow(config), WithStarts(trace), obj);
    WithStartsLooks(trace, obj, FirstSeen(config.ConfirmationWindow(), trace));
  }

  /** The epochs that confirm are the last ones, at least the epoch itself. */
  lemma ConfirmsByTheLast(config: ContentionConfig, epoch: nat, e: nat)
    ensures e >= FirstRetained(epoch, config.ConfirmationWindow()) <==>
            e >= epoch || e + config.confirmationWindow > epoch
  {
  }

  /**
   * Along any trace whose epochs do not go back, the local count of an object is the number of its lookups in the
   * epoch of the last access, or of all its lookups if counts are kept across epochs.
   */
  lemma {:induction false} LocalCount(config: ContentionConfig, trace: seq<Access>, telemetry: seq<Telemetry>, obj: nat)
    requires |telemetry| == |trace| && Sequential(trace)
    ensures ContentionAfter(config, trace, telemetry).epoch == Latest(trace)
    ensures CountIn(ContentionAfter(config, trace, telemetry).local, obj) ==
            LooksFrom(trace, obj, if config.resetOnEpochChange && trace != [] then Latest(trace).value else 0)
  {
    hide Sequential, Prune, Bump, Snapshot, MaximaOf;
    if trace != [] {
      var n := |trace| - 1;
      var before, last := trace[..n], trace[n];
      assert trace == before + [last];
      StartedBefore(0, before, last);
      LocalCount(config, before, telemetry[..n], obj);
      if config.resetOnEpochChange && Latest(before) != Some(last.epoch) {
        AllEarlier(before, last);
        NoLooksYet(before, obj, last.epoch);
      }
    }
  }

  lemma AllEarlier(before: seq<Access>, last: Access)
    requires Sequential(before + [last]) && Latest(before) != Some(last.epoch)
    ensures forall i :: 0 <= i < |before| ==> before[i].epoch < last.epoch
  {
    var trace := before + [last];
    forall i | 0 <= i < |before| ensures before[i].epoch < last.epoch {
      assert trace[i].epoch <= trace[|before| - 1].epoch <= trace[|before|].epoch;
    }
  }

  /** Some lookup of the object lies in the epochs from `from` on, but before `to`. */
  predicate LooksBetween(trace: seq<Access>, obj: nat, from: nat, to: nat) {
    exists i :: 0 <= i < |trace| && trace[i].Look? && trace[i].obj == obj && from <= trace[i].epoch < to
  }

  lemma {:induction false} LooksDiffer(trace: seq<Access>, obj: nat, from: nat, to: nat)
    requires from <= to
    ensures LooksFrom(trace, obj, to) <= LooksFrom(trace, obj, from)
    ensures LooksFrom(trace, obj, to) == LooksFrom(trace, obj, from) <==> !LooksBetween(trace, obj, from, to)
  {
    if trace != [] {
      var n := |trace| - 1;
      var before, last := trace[..n], trace[n];
      LooksDiffer(before, obj, from, to);
      var here := last.Look? && last.obj == obj && from <= last.epoch < to;
      assert LooksBetween(trace, obj, from, to) <==> here || LooksBetween(before, obj, from, to) by {
        if LooksBetween(before, obj, from, to) {
          var i :| 0 <= i < n && before[i].Look? && before[i].obj == obj && from <= before[i].epoch < to;
          assert trace[i] == before[i];
        }
        if LooksBetween(trace, obj, from, to) {
          var i :| 0 <= i <= n && trace[i].Look? && trace[i].obj == obj && from <= trace[i].epoch < to;
          assert i < n ==> before[i] == trace[i];
        }
      }
    }
  }

  lemma {:induction false} SeenAfterStarted(window: nat, trace: seq<Access>)
    requires Sequential(trace)
    ensures FirstAfter(window, trace) <= FirstSeen(window, trace)
  {
    if trace != [] && Started(trace).Some? {
      var n := |trace| - 1;
      assert trace == trace[..n] + [trace[n]];
      if trace[n].Look? {
        StartedEarlier(trace[..n], trace);
      }
    }
  }

  /**
   * The confirmation count of an object agrees with the windowed hotness count over the same window exactly when no
   * lookup of the object lies in an epoch that the last access has moved out of the window, but no start has.
   */
  lemma ConfirmationAgreesWhen(config: ContentionConfig, hotness: HotnessConfig, trace: seq<Access>,
                               telemetry: seq<Telemetry>, obj: nat)
    requires |telemetry| == |trace| && config.Confirms() && hotness.mode.Windowed?
    requires hotness.window == config.confirmationWindow > 0 && Sequential(trace)
    ensures CountIn(ContentionAfter(config, trace, telemetry).confirmations.counts, obj) ==
            CountIn(HotnessAfter(hotness, trace).counts, obj) <==>
            !LooksBetween(trace, obj, FirstAfter(hotness.window, trace), FirstSeen(hotness.window, trace))
  {
    ConfirmationCount(config, trace, telemetry, obj);
    WindowedCount(hotness, trace, obj);
    SeenAfterStarted(hotness.window, trace);
    LooksDiffer(trace, obj, FirstAfter(hotness.window, trace), FirstSeen(hotness.window, trace));
  }

  /** Without a start the hotness policy keeps what the contention policy has let go. */
  lemma UnannouncedLookupsDiffer(config: ContentionConfig, hotness: HotnessConfig, telemetry: seq<Telemetry>, obj: nat)
    requires config.Confirms() && config.confirmationWindow == 1 && |telemetry| == 2
    requires hotness.mode.Windowed? && hotness.window == 1
    ensures var trace := [Look(0, obj), Look(1, obj)];
            && Sequential(trace) && CountIn(HotnessAfter(hotness, trace).counts, obj) == 2
            && CountIn(ContentionAfter(config, trace, telemetry).confirmations.counts, obj) == 1
  {
    var one, trace := [Look(0, obj)], [Look(0, obj), Look(1, obj)];
    assert trace[..1] == one && one[..0] == [];
    ConfirmationCount(config, trace, telemetry, obj);
    WindowedCount(hotness, trace, obj);
    assert Started(trace) == Started(one) == Started([]) == None;
    assert LooksFrom(one, obj, 0) == 1 && LooksFrom(one, obj, 1) == 0;
  }

  /** In particular, the two hold the same window where every lookup follows the start of its epoch. */
  lemma {:induction false} ConfirmationAgrees(config: ContentionConfig, hotness: HotnessConfig, trace: seq<Access>,
                                              telemetry: seq<Telemetry>)
    requires |telemetry| == |trace| && config.Confirms() && hotness.mode.Windowed?
    requires hotness.window == config.confirmationWindow > 0 && Sequential(trace) && Announced(trace)
    ensures ContentionAfter(config, trace, telemetry).confirmations == HotnessAfter(hotness, trace)
    ensures ContentionAfter(config, trace, telemetry).epoch == Started(trace)
  {
    if trace != [] {
      var n := |trace| - 1;
      var before, last := trace[..n], trace[n];
      assert trace == before + [last];
      StartedBefore(hotness.window, before, last);
      forall i | 0 <= i < n && before[i].Look? ensures Started(before[..i]) == Some(before[i].epoch) {
        assert before[..i] == trace[..i] && trace[i].Look?;
      }
      ConfirmationAgrees(config, hotness, before, telemetry[..n]);
      if last.Start? && Started(before) == Some(last.epoch) {
        StartAgain(hotness, before, last.epoch);
      }
    }
  }
}
