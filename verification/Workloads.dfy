/** Synthetic workload configurations: the sizes of hot sets, their capacity check, and when requests are due. */
module Workloads {
  import opened Model

  datatype Overlap = Low | Medium | High

  datatype HotSetMode = Static | Shifted

  datatype SizeMode = Fixed | Bimodal

  datatype WorkloadConfig =
    WorkloadConfig(nodes: seq<nat>, objectCount: nat, memoryChannels: nat, hotChannels: nat, sizeMode: SizeMode,
                   size: nat, small: nat, large: nat, largeProbability: real, requestsPerEpoch: nat, epochs: nat,
                   hotSetSize: nat, hotProbability: real, mode: HotSetMode, churn: real, overlap: Overlap,
                   issueMode: IssueMode, burstSize: nat, burstInterval: nat, intraBurstGap: nat, jitter: nat)

  /* ---- Hot-set arithmetic ---- */

  function SharedCount(config: WorkloadConfig): (n: nat)
    ensures n <= config.hotSetSize
  {
    match config.overlap
    case Low => 0
    case Medium => config.hotSetSize / 2
    case High => config.hotSetSize
  }

  function PrivateCount(config: WorkloadConfig): nat { config.hotSetSize - SharedCount(config) }

  function RequiredPerEpoch(config: WorkloadConfig): nat {
    SharedCount(config) + PrivateCount(config) * |config.nodes|
  }

  function EffectiveChurn(config: WorkloadConfig): real {
    if config.mode == Static then 0.0 else config.churn
  }

  function Ceiling(x: real): int { if x.Floor as real == x then x.Floor else x.Floor + 1 }

  /** The least whole number of objects that is no smaller than the fraction of the segment. */
  function CeilingOf(segment: nat, churn: real): int { Ceiling(segment as real * churn) }

  function ReplacementCount(segment: nat, churn: real): (n: nat)
    ensures n <= segment && (n > 0 <==> segment > 0 && churn > 0.0)
  {
    if segment == 0 || churn <= 0.0 then 0
    else if churn >= 1.0 then segment
    else
      assert 0 < CeilingOf(segment, churn) <= segment by { ReplacementBounds(segment, churn); }
      CeilingOf(segment, churn)
  }

  /** A fraction of a nonempty segment replaces at least one of its objects, and never more than all. */
  lemma ReplacementBounds(segment: nat, churn: real)
    requires segment > 0 && 0.0 < churn < 1.0
    ensures 0 < CeilingOf(segment, churn) <= segment
    ensures segment as real * churn <= CeilingOf(segment, churn) as real < segment as real * churn + 1.0
  {
    Fraction(segment as real, churn);
  }

  lemma Fraction(a: real, b: real)
    requires a > 0.0 && 0.0 < b < 1.0
    ensures 0.0 < a * b < a
  {
  }

  function TotalReplacements(config: WorkloadConfig, churn: real): nat {
    ReplacementCount(SharedCount(config), churn) + ReplacementCount(PrivateCount(config), churn) * |config.nodes|
  }

  /* ---- Objects that may be hot ---- */

  function HotChannelLimit(config: WorkloadConfig): nat {
    if config.hotChannels == 0 then config.memoryChannels else config.hotChannels
  }

  predicate Eligible(config: WorkloadConfig, obj: nat)
    requires config.memoryChannels > 0
  {
    ChannelOf(obj, config.memoryChannels) < HotChannelLimit(config)
  }

  /** How many of the objects 1 to `n` may be hot. */
  function EligibleUpTo(config: WorkloadConfig, n: nat): nat
    requires config.memoryChannels > 0
  {
    if n == 0 then 0 else EligibleUpTo(config, n - 1) + (if Eligible(config, n) then 1 else 0)
  }

  method EligibleHotObjectCount(config: WorkloadConfig) returns (count: nat)
    requires config.memoryChannels > 0
    ensures count == EligibleUpTo(config, config.objectCount)
  {
    count := 0;
    for obj := 1 to config.objectCount + 1
      invariant count == EligibleUpTo(config, obj - 1)
    {
      if Eligible(config, obj) {
        count := count + 1;
      }
    }
  }

  /** What the matrix script computes instead: whole groups of channels, and what is left of the last one. */
  function ClosedForm(config: WorkloadConfig): nat
    requires config.memoryChannels > 0
  {
    var limit, left := HotChannelLimit(config), config.objectCount % config.memoryChannels;
    (config.objectCount / config.memoryChannels) * limit + (if left < limit then left else limit)
  }

  lemma DivModNext(n: nat, c: nat)
    requires c > 0
    ensures (n + 1) % c == (if n % c + 1 == c then 0 else n % c + 1)
    ensures (n + 1) / c == n / c + (if n % c + 1 == c then 1 else 0)
  {
    var q, r := n / c, n % c;
    assert n + 1 == q * c + (r + 1);
    if r + 1 == c {
      assert n + 1 == (q + 1) * c;
      Division(n + 1, c, q + 1, 0);
    } else {
      Division(n + 1, c, q, r + 1);
    }
  }

  lemma Division(n: nat, c: nat, q: nat, r: nat)
    requires c > 0 && n == q * c + r && r < c
    ensures n / c == q && n % c == r
  {
    assert n == (n / c) * c + n % c;
    Distributes(n / c, q, c);
    Multiple(n / c - q, c);
  }

  lemma Distributes(a: int, b: int, c: int)
    ensures (a - b) * c == a * c - b * c
  {
  }

  lemma Multiple(d: int, c: int)
    requires c >= 0
    ensures (d > 0 ==> d * c >= c) && (d < 0 ==> d * c <= -c)
  {
    if d > 0 {
      assert (d - 1) * c >= 0;
    } else if d < 0 {
      assert (-d - 1) * c >= 0;
    }
  }

  /** The counting loop over all objects and the closed form agree. */
  lemma {:induction false} ClosedFormCounts(config: WorkloadConfig)
    requires config.memoryChannels > 0 && config.hotChannels <= config.memoryChannels
    ensures EligibleUpTo(config, config.objectCount) == ClosedForm(config)
    decreases config.objectCount
  {
    hide ClosedForm, Eligible;
    var n := config.objectCount;
    if n == 0 {
      ClosedFormOfNone(config);
    } else {
      var smaller := config.(objectCount := n - 1);
      ClosedFormCounts(smaller);
      SameEligible(config, smaller, n - 1);
      ClosedFormNext(config);
    }
  }

  lemma ClosedFormOfNone(config: WorkloadConfig)
    requires config.memoryChannels > 0 && config.objectCount == 0
    ensures ClosedForm(config) == 0
  {
    Division(0, config.memoryChannels, 0, 0);
  }

  /** The closed form grows by one with each object on a hot channel. */
  lemma ClosedFormNext(config: WorkloadConfig)
    requires config.memoryChannels > 0 && config.hotChannels <= config.memoryChannels && config.objectCount > 0
    ensures var n := config.objectCount;
            ClosedForm(config) ==
            ClosedForm(config.(objectCount := n - 1)) + (if Eligible(config, n) then 1 else 0)
  {
    var n, c := config.objectCount, config.memoryChannels;
    DivModNext(n - 1, c);
    OneMoreGroup((n - 1) / c, HotChannelLimit(config));
  }

  lemma OneMoreGroup(q: nat, limit: nat)
    ensures (q + 1) * limit == q * limit + limit
  {
  }

  lemma {:induction false} SameEligible(a: WorkloadConfig, b: WorkloadConfig, n: nat)
    requires a.memoryChannels == b.memoryChannels > 0 && a.hotChannels == b.hotChannels
    ensures EligibleUpTo(a, n) == EligibleUpTo(b, n)
  {
    if n > 0 {
      SameEligible(a, b, n - 1);
    }
  }

  /** The generator's two capacity checks: on the overlap, and on a partial churn. */
  predicate CapacityChecks(config: WorkloadConfig)
    requires config.memoryChannels > 0
  {
    var eligible, churn := EligibleUpTo(config, config.objectCount), EffectiveChurn(config);
    RequiredPerEpoch(config) <= eligible &&
    (0.0 < churn < 1.0 ==> RequiredPerEpoch(config) + TotalReplacements(config, churn) <= eligible)
  }

  /** The matrix script's check. */
  predicate MatrixCheck(config: WorkloadConfig)
    requires config.memoryChannels > 0
  {
    var shared, private, churn := SharedCount(config), PrivateCount(config), EffectiveChurn(config);
    var base := shared + private * |config.nodes|;
    var required :=
      if 0.0 < churn < 1.0
      then base + (if shared > 0 then CeilingOf(shared, churn) else 0) +
           (if private > 0 then CeilingOf(private, churn) * |config.nodes| else 0)
      else base;
    required <= ClosedForm(config)
  }

  /** The script rejects exactly the combinations that the generator would reject. */
  lemma MatrixCheckAgrees(config: WorkloadConfig)
    requires config.memoryChannels > 0 && config.hotChannels <= config.memoryChannels
    ensures MatrixCheck(config) <==> CapacityChecks(config)
  {
    hide CeilingOf, ClosedForm, EligibleUpTo;
    ClosedFormCounts(config);
    var churn, private := EffectiveChurn(config), PrivateCount(config);
    if 0.0 < churn < 1.0 {
      assert TotalReplacements(config, churn) ==
             (if SharedCount(config) > 0 then CeilingOf(SharedCount(config), churn) else 0) +
             (if private > 0 then CeilingOf(private, churn) * |config.nodes| else 0);
    }
  }

  /* ---- Validation ---- */

  predicate Unique(s: seq<nat>) {
    forall i, j :: 0 <= i < j < |s| ==> s[i] != s[j]
  }

  predicate Probability(p: real) { 0.0 <= p <= 1.0 }

  /** The bursts of a schedule do not overlap. */
  predicate BurstsSeparate(config: WorkloadConfig) {
    config.issueMode == ScheduledBursty && config.burstSize > 1 ==>
      (config.burstSize - 1) * config.intraBurstGap <= config.burstInterval
  }

  predicate Acceptable(config: WorkloadConfig) {
    && config.nodes != [] && Unique(config.nodes) && config.objectCount > 0 && config.memoryChannels > 0
    && config.hotChannels <= config.memoryChannels && config.size > 0 && config.small > 0 && config.large > 0
    && config.small <= config.large && config.requestsPerEpoch > 0 && config.epochs > 0
    && 0 < config.hotSetSize <= config.objectCount
    && Probability(config.hotProbability) && Probability(config.churn) && Probability(config.largeProbability)
    && config.burstSize > 0 && config.burstInterval > 0 && BurstsSeparate(config) && CapacityChecks(config)
  }

  /* ---- Planned arrivals ---- */

  /** When request number `i` of an epoch is due, given the node's jitter in that epoch. */
  function IssueOffset(config: WorkloadConfig, jitter: nat, i: nat): nat
    requires config.burstSize > 0
  {
    if config.issueMode == CompletionDriven then 0
    else jitter + (i / config.burstSize) * config.burstInterval + (i % config.burstSize) * config.intraBurstGap
  }

  lemma OffsetsNext(config: WorkloadConfig, jitter: nat, i: nat)
    requires config.burstSize > 0 && BurstsSeparate(config)
    ensures IssueOffset(config, jitter, i) <= IssueOffset(config, jitter, i + 1)
  {
    var b, q, r := config.burstSize, i / config.burstSize, i % config.burstSize;
    DivModNext(i, b);
    OneMoreGroup(q, config.burstInterval);
    OneMoreGroup(r, config.intraBurstGap);
    if r + 1 == b && b == 1 {
      assert r * config.intraBurstGap == 0;
    }
  }

  /** Because the bursts do not overlap, later requests of an epoch are not due earlier. */
  lemma {:induction false} OffsetsAscending(config: WorkloadConfig, jitter: nat, i: nat, j: nat)
    requires config.burstSize > 0 && BurstsSeparate(config) && i <= j
    ensures IssueOffset(config, jitter, i) <= IssueOffset(config, jitter, j)
    decreases j - i
  {
    if i < j {
      OffsetsNext(config, jitter, i);
      OffsetsAscending(config, jitter, i + 1, j);
    }
  }

  /** Without the check on the interval some request would be due before its predecessor. */
  lemma OverlappingBurstsGoBack(config: WorkloadConfig, jitter: nat)
    requires config.issueMode == ScheduledBursty && config.burstSize > 0
    ensures BurstsSeparate(config) <==>
            forall i: nat :: IssueOffset(config, jitter, i) <= IssueOffset(config, jitter, i + 1)
  {
    if BurstsSeparate(config) {
      forall i: nat ensures IssueOffset(config, jitter, i) <= IssueOffset(config, jitter, i + 1) {
        OffsetsNext(config, jitter, i);
      }
    } else {
      var last := config.burstSize - 1;
      Division(last, config.burstSize, 0, last);
      Division(last + 1, config.burstSize, 1, 0);
      assert IssueOffset(config, jitter, last) > IssueOffset(config, jitter, last + 1);
    }
  }
}
