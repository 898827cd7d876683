/**
 * Metric bookkeeping of the training callbacks: a dictionary of metrics that
 * computes and resets its entries, counter-based metrics that merge by
 * element-wise addition (BLEU statistics, WER counts), and a throughput
 * counter.  Metric states are integer tensors, modelled as sequences; the
 * score libraries behind BLEU and WER and the wall clock are parameters.
 */
module CallbackMetrics {
  import opened Wrappers

  // ---------------------------------------------------------------------------
  // Element-wise counter arithmetic

  /** All-zero counters of the given length (`torch.zeros`). */
  function Zeros(n: nat): (r: seq<int>)
    ensures |r| == n
    ensures forall i :: 0 <= i < n ==> r[i] == 0
  {
    seq(n, _ => 0)
  }

  /** Element-wise sum of two equally shaped counter tensors (`+=`). */
  function Add(a: seq<int>, b: seq<int>): (r: seq<int>)
    requires |a| == |b|
    ensures |r| == |a|
    ensures forall i :: 0 <= i < |a| ==> r[i] == a[i] + b[i]
  {
    seq(|a|, i requires 0 <= i < |a| => a[i] + b[i])
  }

  /** Every tensor in `xs` has `n` elements. */
  predicate AllOfLength(xs: seq<seq<int>>, n: nat) {
    forall j :: 0 <= j < |xs| ==> |xs[j]| == n
  }

  /** `init` with every tensor of `xs` added to it, first to last. */
  function Total(init: seq<int>, xs: seq<seq<int>>): (r: seq<int>)
    requires AllOfLength(xs, |init|)
    ensures |r| == |init|
    decreases |xs|
  {
    if xs == [] then init else Add(Total(init, xs[..|xs| - 1]), xs[|xs| - 1])
  }

  /** The sum of position `i` over all tensors of `xs`. */
  function ColumnSum(xs: seq<seq<int>>, i: nat): (r: int)
    requires forall j :: 0 <= j < |xs| ==> i < |xs[j]|
    decreases |xs|
  {
    if xs == [] then 0 else ColumnSum(xs[..|xs| - 1], i) + xs[|xs| - 1][i]
  }

  /** Every tensor present in `xs` has `n` elements. */
  predicate Shaped(xs: seq<Option<seq<int>>>, n: nat) {
    forall j :: 0 <= j < |xs| ==> xs[j].Some? ==> |xs[j].value| == n
  }

  /**
   * `init` with each entry of `xs` added in turn, where `None` adds the value
   * accumulated so far (a tensor added to itself in place).
   */
  function Accumulate(init: seq<int>, xs: seq<Option<seq<int>>>): (r: seq<int>)
    requires Shaped(xs, |init|)
    ensures |r| == |init|
    decreases |xs|
  {
    if xs == [] then init
    else
      var acc := Accumulate(init, xs[..|xs| - 1]);
      Add(acc, xs[|xs| - 1].GetOr(acc))
  }

  /** One more entry of `xs` adds that entry, or the value so far when it is `None`. */
  lemma AccumulateStep(init: seq<int>, xs: seq<Option<seq<int>>>, j: nat)
    requires Shaped(xs, |init|) && j < |xs|
    ensures Shaped(xs[..j], |init|) && Shaped(xs[..j + 1], |init|)
    ensures var acc := Accumulate(init, xs[..j]);
      Accumulate(init, xs[..j + 1]) == Add(acc, xs[j].GetOr(acc))
  {
    var p := xs[..j + 1];
    assert p[..j] == xs[..j];
    assert p[|p| - 1] == xs[j];
    assert Shaped(p, |init|) by {
      forall i | 0 <= i < |p| && p[i].Some? ensures |p[i].value| == |init| {
        assert p[i] == xs[i];
      }
    }
  }

  /** Without self-additions, accumulating is plain summation. */
  lemma {:induction false} AccumulateWithoutSelf(init: seq<int>, xs: seq<Option<seq<int>>>, ys: seq<seq<int>>)
    requires |xs| == |ys| && AllOfLength(ys, |init|)
    requires forall j :: 0 <= j < |xs| ==> xs[j] == Some(ys[j])
    ensures Shaped(xs, |init|)
    ensures Accumulate(init, xs) == Total(init, ys)
    decreases |xs|
  {
    if xs != [] {
      AccumulateWithoutSelf(init, xs[..|xs| - 1], ys[..|ys| - 1]);
    }
  }

  /** Adding a list of tensors adds, at every position, the sum of that position. */
  lemma {:induction false} TotalAt(init: seq<int>, xs: seq<seq<int>>, i: nat)
    requires AllOfLength(xs, |init|)
    requires i < |init|
    ensures Total(init, xs)[i] == init[i] + ColumnSum(xs, i)
    decreases |xs|
  {
    if xs != [] {
      TotalAt(init, xs[..|xs| - 1], i);
    }
  }

  /** Swapping the last two tensors added does not change the total. */
  lemma {:induction false} TotalSwapLast(init: seq<int>, xs: seq<seq<int>>, a: seq<int>, b: seq<int>)
    requires AllOfLength(xs, |init|) && |a| == |init| && |b| == |init|
    ensures Total(init, xs + [a, b]) == Total(init, xs + [b, a])
  {
    var n := |xs|;
    assert (xs + [a, b])[..n + 1] == xs + [a];
    assert (xs + [a, b])[..n + 1][..n] == xs;
    assert (xs + [b, a])[..n + 1] == xs + [b];
    assert (xs + [b, a])[..n + 1][..n] == xs;
  }

  /**
   * The order in which the tensors are added does not matter: swapping any
   * two adjacent tensors leaves the total unchanged.
   */
  lemma {:induction false} TotalSwapAdjacent(init: seq<int>, xs: seq<seq<int>>, a: seq<int>, b: seq<int>, ys: seq<seq<int>>)
    requires AllOfLength(xs, |init|) && AllOfLength(ys, |init|) && |a| == |init| && |b| == |init|
    ensures AllOfLength(xs + [a, b] + ys, |init|) && AllOfLength(xs + [b, a] + ys, |init|)
    ensures Total(init, xs + [a, b] + ys) == Total(init, xs + [b, a] + ys)
    decreases |ys|
  {
    if ys == [] {
      assert xs + [a, b] + ys == xs + [a, b];
      assert xs + [b, a] + ys == xs + [b, a];
      TotalSwapLast(init, xs, a, b);
    } else {
      var n := |ys| - 1;
      TotalSwapAdjacent(init, xs, a, b, ys[..n]);
      assert (xs + [a, b] + ys)[..|xs| + 2 + n] == xs + [a, b] + ys[..n];
      assert (xs + [b, a] + ys)[..|xs| + 2 + n] == xs + [b, a] + ys[..n];
    }
  }

  // ---------------------------------------------------------------------------
  // CounterBasedMetric

  /**
   * A torcheval metric whose states are integer counter tensors, registered by
   * name together with their defaults.  `formula` is what the metric's own
   * `compute()` derives from its states.
   */
  class CounterBasedMetric {
    var states: map<string, seq<int>>
    const defaults: map<string, seq<int>>
    const formula: map<string, seq<int>> -> real

    /** Every registered state exists and keeps its default's shape. */
    ghost predicate Valid()
      reads this
    {
      states.Keys == defaults.Keys &&
      forall k :: k in states ==> |states[k]| == |defaults[k]|
    }

    /** `m` registers the same states, with the same shapes, as this metric. */
    ghost predicate SameShape(m: CounterBasedMetric)
      reads m
    {
      m.Valid() && m.defaults.Keys == defaults.Keys &&
      forall k :: k in defaults ==> |m.defaults[k]| == |defaults[k]|
    }

    constructor (defaults: map<string, seq<int>>, formula: map<string, seq<int>> -> real)
      ensures Valid()
      ensures this.defaults == defaults && this.formula == formula
      ensures states == defaults
    {
      this.defaults := defaults;
      this.formula := formula;
      states := defaults;
    }

    /** The value `compute()` returns for the current states. */
    function Value(): (r: real)
      reads this
    {
      formula(states)
    }

    /** torcheval's `reset()`: every state back to its default. */
    method Reset()
      modifies this
      ensures states == defaults
      ensures Valid()
    {
      states := defaults;
    }

    /**
     * Every other metric to merge registers the same states as this one, with
     * the same shapes (this metric itself may be among them).
     */
    ghost predicate Mergeable(metrics: seq<CounterBasedMetric>)
      reads set m | m in metrics && m != this
    {
      forall j :: 0 <= j < |metrics| && metrics[j] != this ==> SameShape(metrics[j])
    }

    /** The other metrics to merge hold state `k`, shaped as this metric's default. */
    lemma SnapshotShape(metrics: seq<CounterBasedMetric>, k: string)
      requires Mergeable(metrics) && k in defaults
      ensures SnapshotShaped(Snapshot(this, metrics), k, |defaults[k]|)
    {
      var snap := Snapshot(this, metrics);
      forall j | 0 <= j < |snap| && snap[j].Some?
        ensures k in snap[j].value && |snap[j].value[k]| == |defaults[k]|
      {
        assert SameShape(metrics[j]);
      }
    }

    /**
     * State `k`, starting from `init`, once the merged metrics' states `k`
     * have been added to it in turn.
     */
    ghost function MergeResult(metrics: seq<CounterBasedMetric>, k: string, init: seq<int>): (r: seq<int>)
      reads set m | m in metrics && m != this
      requires Mergeable(metrics) && k in defaults && |init| == |defaults[k]|
      ensures |r| == |init|
    {
      SnapshotShape(metrics, k);
      Accumulate(init, Pick(Snapshot(this, metrics), k))
    }

    /**
     * When this metric is not among those merged, its state `k` becomes the
     * old value plus the sum of the merged metrics' states `k`.
     */
    lemma {:induction false} MergeResultIsTotal(metrics: seq<CounterBasedMetric>, k: string, init: seq<int>)
      requires Mergeable(metrics) && k in defaults && |init| == |defaults[k]|
      requires this !in metrics
      ensures forall j :: 0 <= j < |metrics| ==> k in metrics[j].states
      ensures AllOfLength(Column(metrics, k), |init|)
      ensures MergeResult(metrics, k, init) == Total(init, Column(metrics, k))
    {
      SnapshotShape(metrics, k);
      var src := Pick(Snapshot(this, metrics), k);
      var col := Column(metrics, k);
      forall j | 0 <= j < |metrics| ensures src[j] == Some(col[j]) {
        assert metrics[j] in metrics;
      }
      AccumulateWithoutSelf(init, src, col);
    }

    /** `snap` holds the current states of `metrics`, and `None` for this metric. */
    ghost predicate IsSnapshot(metrics: seq<CounterBasedMetric>, snap: seq<Option<map<string, seq<int>>>>)
      reads set m | m in metrics && m != this
    {
      |snap| == |metrics| &&
      forall j :: 0 <= j < |metrics| ==> snap[j] == if metrics[j] == this then None else Some(metrics[j].states)
    }

    /** `x += y` on state `k`, in place. */
    method AddInto(k: string, y: seq<int>)
      requires k in states && |y| == |states[k]|
      modifies this
      ensures states == old(states)[k := Add(old(states[k]), y)]
    {
      states := states[k := Add(states[k], y)];
    }

    /**
     * The inner loop of `merge_state`: `x += getattr(metric, k)` for every
     * metric in turn, in place on this metric's state `k`; no other state
     * changes.  `snap` is the merged metrics' states, which the loop reads.
     */
    method AddState(metrics: seq<CounterBasedMetric>, k: string, ghost snap: seq<Option<map<string, seq<int>>>>)
      requires k in states && IsSnapshot(metrics, snap) && SnapshotShaped(snap, k, |states[k]|)
      modifies this
      ensures states == old(states)[k := Accumulate(old(states[k]), Pick(snap, k))]
    {
      ghost var src := Pick(snap, k);
      ghost var init := states[k];
      var j := 0;
      while j < |metrics|
        invariant 0 <= j <= |metrics|
        invariant states == old(states)[k := Accumulate(init, src[..j])]
      {
        var y := metrics[j].states[k];
        assert y == src[j].GetOr(states[k]);
        AccumulateStep(init, src, j);
        AddInto(k, y);
        j := j + 1;
      }
      assert src[..|metrics|] == src;
    }

    /**
     * The outer loop of `merge_state`: every registered state gets the same
     * state of each merged metric added to it in turn, in place.
     */
    method MergeAllStates(metrics: seq<CounterBasedMetric>, ghost snap: seq<Option<map<string, seq<int>>>>)
      requires Valid() && IsSnapshot(metrics, snap)
      requires forall k :: k in defaults ==> SnapshotShaped(snap, k, |defaults[k]|)
      modifies this
      ensures Valid()
      ensures forall k :: k in defaults ==>
        SnapshotShaped(snap, k, |defaults[k]|) && states[k] == Accumulate(old(states[k]), Pick(snap, k))
    {
      ghost var target := map k | k in defaults :: Accumulate(states[k], Pick(snap, k));
      var todo := defaults.Keys;
      ghost var done: set<string> := {};
      while todo != {}
        invariant todo + done == defaults.Keys && todo !! done
        invariant Valid()
        invariant IsSnapshot(metrics, snap)
        invariant forall k :: k in todo ==> states[k] == old(states[k])
        invariant forall k :: k in done ==> states[k] == target[k]
        decreases todo
      {
        var k :| k in todo;
        AddState(metrics, k, snap);
        todo := todo - {k};
        done := done + {k};
      }
    }

    /**
     * `merge_state(metrics)`: every registered state gets the same state of
     * each merged metric added to it, in place; the merged metrics are not
     * changed and the method returns this metric.
     */
    method MergeState(metrics: seq<CounterBasedMetric>) returns (r: CounterBasedMetric)
      requires Valid() && Mergeable(metrics)
      modifies this
      ensures r == this && Valid()
      ensures forall j :: 0 <= j < |metrics| && metrics[j] != this ==> metrics[j].states == old(metrics[j].states)
      ensures forall k :: k in old(states) ==> states[k] == old(MergeResult(metrics, k, states[k]))
    {
      ghost var snap := Snapshot(this, metrics);
      forall k | k in defaults ensures SnapshotShaped(snap, k, |defaults[k]|) {
        SnapshotShape(metrics, k);
      }
      MergeAllStates(metrics, snap);
      r := this;
    }
  }

  /** Every state present in `snap` holds `k`, with `n` elements. */
  predicate SnapshotShaped(snap: seq<Option<map<string, seq<int>>>>, k: string, n: nat) {
    forall j :: 0 <= j < |snap| && snap[j].Some? ==> k in snap[j].value && |snap[j].value[k]| == n
  }

  /** The states of each metric to merge, or `None` where it is `self` itself. */
  function Snapshot(self: CounterBasedMetric, metrics: seq<CounterBasedMetric>): (r: seq<Option<map<string, seq<int>>>>)
    reads set m | m in metrics && m != self
    ensures |r| == |metrics|
    ensures forall j :: 0 <= j < |metrics| ==>
      r[j] == if metrics[j] == self then None else Some(metrics[j].states)
    decreases |metrics|
  {
    if metrics == [] then []
    else
      var last := metrics[|metrics| - 1];
      Snapshot(self, metrics[..|metrics| - 1]) + [if last == self then None else Some(last.states)]
  }

  /**
   * What each merged metric adds to state `k`: its state `k`, or `None` where
   * the merged metric is the one merged into, which adds its current value.
   */
  function Pick(snap: seq<Option<map<string, seq<int>>>>, k: string): (r: seq<Option<seq<int>>>)
    requires forall j :: 0 <= j < |snap| && snap[j].Some? ==> k in snap[j].value
    ensures |r| == |snap|
    ensures forall j :: 0 <= j < |snap| ==> r[j] == if snap[j].None? then None else Some(snap[j].value[k])
  {
    seq(|snap|, j requires 0 <= j < |snap| => if snap[j].None? then None else Some(snap[j].value[k]))
  }

  /** The `k` state of each metric, in order (`getattr(metric, k)`). */
  function Column(metrics: seq<CounterBasedMetric>, k: string): (r: seq<seq<int>>)
    reads set m | m in metrics
    requires forall j :: 0 <= j < |metrics| ==> k in metrics[j].states
    ensures |r| == |metrics|
    ensures forall j :: 0 <= j < |metrics| ==> r[j] == metrics[j].states[k]
    decreases |metrics|
  {
    if metrics == [] then [] else Column(metrics[..|metrics| - 1], k) + [metrics[|metrics| - 1].states[k]]
  }

  // ---------------------------------------------------------------------------
  // The metrics dictionary

  /**
   * A value of the metrics dictionary: a plain number, a counter-based metric
   * object, or a throughput metric object.
   */
  datatype Entry =
    | Plain(value: real)
    | Tracked(metric: CounterBasedMetric)
    | Timed(meter: EffectiveThroughput)

  /** The objects an entry's value is computed from. */
  function EntryObjects(e: Entry): set<object> {
    match e
    case Plain(_) => {}
    case Tracked(m) => {m}
    case Timed(t) => {t}
  }

  /**
   * What `compute` reports for an entry, at clock reading `now`: a plain value
   * as it is, a metric its computed value.
   */
  function EntryValue(e: Entry, now: real): (r: real)
    reads EntryObjects(e)
    ensures e.Plain? ==> r == e.value
    ensures e.Tracked? ==> r == e.metric.formula(e.metric.states)
    ensures e.Timed? ==> r == e.meter.Throughput(now)
  {
    match e
    case Plain(v) => v
    case Tracked(m) => m.Value()
    case Timed(t) => t.Throughput(now)
  }

  /** `k.endswith("_min")`: the key of a global minimum, which is never reset. */
  predicate EndsWithMin(k: string) {
    |k| >= 4 && k[|k| - 4..] == "_min"
  }

  /** Prefixing is injective: distinct keys stay distinct under a common prefix. */
  lemma {:induction false} PrefixCancels(p: string, a: string, b: string)
    requires p + a == p + b
    ensures a == b
  {
    assert a == (p + a)[|p|..];
    assert b == (p + b)[|p|..];
  }

  /** `Metrics`: a dictionary from names to plain values and metric objects. */
  class Metrics {
    var entries: map<string, Entry>

    constructor (entries: map<string, Entry>)
      ensures this.entries == entries
    {
      this.entries := entries;
    }

    /** The metric objects the dictionary holds. */
    ghost function MetricObjects(): set<CounterBasedMetric>
      reads this
    {
      set k | k in entries && entries[k].Tracked? :: entries[k].metric
    }

    /** The metric objects held under a key of `keys` that does not end in `_min`. */
    ghost function ResetTargets(keys: set<string>): set<CounterBasedMetric>
      reads this
    {
      set k | k in keys && k in entries && entries[k].Tracked? && !EndsWithMin(k) :: entries[k].metric
    }

    /** The throughput metrics the dictionary holds. */
    ghost function Meters(): set<EffectiveThroughput>
      reads this
    {
      set k | k in entries && entries[k].Timed? :: entries[k].meter
    }

    /** The throughput metrics held under a key of `keys` that does not end in `_min`. */
    ghost function MeterResetTargets(keys: set<string>): set<EffectiveThroughput>
      reads this
    {
      set k | k in keys && k in entries && entries[k].Timed? && !EndsWithMin(k) :: entries[k].meter
    }

    /**
     * `compute(prefix)` without synchronisation, at clock reading `now`: one
     * result per entry, under the entry's key with `prefix` prepended; a plain
     * value is copied and a metric contributes its own computed value.
     */
    method Compute(now: real, prefix: string := "") returns (results: map<string, real>)
      ensures results.Keys == set k | k in entries :: prefix + k
      ensures forall k :: k in entries ==> results[prefix + k] == EntryValue(entries[k], now)
    {
      results := map[];
      var todo := entries.Keys;
      ghost var done: set<string> := {};
      while todo != {}
        invariant todo + done == entries.Keys && todo !! done
        invariant results.Keys == set k | k in done :: prefix + k
        invariant forall k :: k in done ==> results[prefix + k] == EntryValue(entries[k], now)
        decreases todo
      {
        var k :| k in todo;
        var val := match entries[k]
          case Plain(v) => v
          case Tracked(m) => m.Value()
          case Timed(t) => t.Throughput(now);
        forall k' | k' in done ensures prefix + k' != prefix + k {
          if prefix + k' == prefix + k {
            PrefixCancels(prefix, k', k);
          }
        }
        results := results[prefix + k := val];
        todo := todo - {k};
        done := done + {k};
      }
    }

    /**
     * `reset()`, at clock reading `now`: every metric held under a key that
     * does not end in `_min` is reset; the other metric objects and the plain
     * values are left as they were.  A metric object held under both kinds of
     * key is reset.  Resetting a throughput metric restarts its clock only.
     */
    method Reset(now: real)
      modifies MetricObjects(), Meters()
      ensures entries == old(entries)
      ensures forall m :: m in old(MetricObjects()) ==>
        m.states == if m in old(ResetTargets(entries.Keys)) then m.defaults else old(m.states)
      ensures forall t :: t in old(Meters()) ==>
        t.numTotal == old(t.numTotal) &&
        t.startTime == if t in old(MeterResetTargets(entries.Keys)) then now else old(t.startTime)
    {
      var todo := entries.Keys;
      ghost var done: set<string> := {};
      while todo != {}
        invariant todo + done == entries.Keys && todo !! done
        invariant forall m :: m in MetricObjects() ==>
          m.states == if m in ResetTargets(done) then m.defaults else old(m.states)
        invariant forall t :: t in Meters() ==>
          t.numTotal == old(t.numTotal) &&
          t.startTime == if t in MeterResetTargets(done) then now else old(t.startTime)
        decreases todo
      {
        var k :| k in todo;
        if EndsWithMin(k) {
          // global minimum counters are never reset
        } else if entries[k].Tracked? {
          entries[k].metric.Reset();
        } else if entries[k].Timed? {
          var _ := entries[k].meter.Reset(now);
        }
        todo := todo - {k};
        done := done + {k};
      }
    }

    /** No metric object is held under two different keys. */
    ghost predicate DistinctMetrics()
      reads this
    {
      forall a, b :: a in entries && b in entries && a != b && entries[a].Tracked? && entries[b].Tracked? ==>
        entries[a].metric != entries[b].metric
    }

    /**
     * When no metric object is held under two keys, a metric held under a key
     * ending in `_min` is not among those `reset` resets.
     */
    lemma MinKeysNotReset(k: string)
      requires DistinctMetrics()
      requires k in entries && entries[k].Tracked? && EndsWithMin(k)
      ensures entries[k].metric !in ResetTargets(entries.Keys)
    {
    }
  }

  // ---------------------------------------------------------------------------
  // BLEU

  const BleuCountsKey: string := "bleu_counts"
  const NumRefsKey: string := "num_refs"

  /**
   * `Bleu`: a counter-based metric with the sacrebleu segment statistics and
   * the number of references seen.  `base` is its counter-based part; `size`
   * is the number of statistics sacrebleu reports.
   */
  class Bleu {
    const base: CounterBasedMetric
    const size: nat

    ghost predicate Valid()
      reads this, base
    {
      base.Valid() &&
      base.defaults == map[BleuCountsKey := Zeros(size), NumRefsKey := Zeros(1)]
    }

    /** Both states start at zero; `score` is sacrebleu's score of the statistics. */
    constructor (size: nat, score: map<string, seq<int>> -> real)
      ensures Valid() && fresh(base)
      ensures this.size == size && base.formula == score
      ensures BleuCounts() == Zeros(size) && NumRefs() == 0
    {
      this.size := size;
      base := new CounterBasedMetric(map[BleuCountsKey := Zeros(size), NumRefsKey := Zeros(1)], score);
    }

    function BleuCounts(): (r: seq<int>)
      reads this, base
      requires Valid()
      ensures |r| == size
    {
      base.states[BleuCountsKey]
    }

    function NumRefs(): (r: int)
      reads this, base
      requires Valid()
    {
      base.states[NumRefsKey][0]
    }

    /**
     * `update(hypothesis, references)`, given the statistics `counts` sacrebleu
     * computes for them: `num_refs` grows by the number of references and the
     * statistics are added element-wise.
     */
    method Update(counts: seq<int>, references: seq<string>)
      requires Valid() && |counts| == size
      modifies base
      ensures Valid()
      ensures NumRefs() == old(NumRefs()) + |references|
      ensures BleuCounts() == Add(old(BleuCounts()), counts)
    {
      base.AddInto(NumRefsKey, [|references|]);
      base.AddInto(BleuCountsKey, counts);
    }
  }

  // ---------------------------------------------------------------------------
  // WER

  /** The order of the WER counters (`WER.KEYS`). */
  const WerKeys: seq<string> := ["hits", "substitutions", "deletions", "insertions"]
  const CountersKey: string := "counters"

  /** `true` when `measures` has every counter name. */
  predicate HasAllMeasures(measures: map<string, int>) {
    forall i :: 0 <= i < |WerKeys| ==> WerKeys[i] in measures
  }

  /** `[measures[k] for k in KEYS]`: the counters in their fixed order. */
  function ToCounters(measures: map<string, int>): (r: seq<int>)
    requires HasAllMeasures(measures)
    ensures |r| == |WerKeys|
  {
    seq(|WerKeys|, i requires 0 <= i < |WerKeys| => measures[WerKeys[i]])
  }

  /** `{k: counters[i] for i, k in enumerate(KEYS)}`: the counters by name. */
  function MeasuresOf(counters: seq<int>): (m: map<string, int>)
    requires |counters| == |WerKeys|
    ensures HasAllMeasures(m)
  {
    map["hits" := counters[0], "substitutions" := counters[1],
        "deletions" := counters[2], "insertions" := counters[3]]
  }

  /** A quotient kept as its two integer terms (the division is in floating point). */
  datatype Ratio = Ratio(numerator: int, denominator: int)

  /**
   * `WER.compute()`: errors over reference words, that is
   * (substitutions + deletions + insertions) / (substitutions + deletions + hits).
   */
  function ErrorRate(counters: seq<int>): (r: Ratio)
    requires |counters| == |WerKeys|
    ensures r.numerator == counters[1] + counters[2] + counters[3]
    ensures r.denominator == counters[1] + counters[2] + counters[0]
  {
    var m := MeasuresOf(counters);
    Ratio(m["substitutions"] + m["deletions"] + m["insertions"],
          m["substitutions"] + m["deletions"] + m["hits"])
  }

  /** Naming the counters and listing them again gives back the same counters. */
  lemma {:induction false} CountersRoundTrip(counters: seq<int>)
    requires |counters| == |WerKeys|
    ensures ToCounters(MeasuresOf(counters)) == counters
  {
    var r := ToCounters(MeasuresOf(counters));
    forall i | 0 <= i < |WerKeys| ensures r[i] == counters[i] {
      assert WerKeys[i] == ["hits", "substitutions", "deletions", "insertions"][i];
    }
  }

  /** Listing the measures and naming them again gives back every measure. */
  lemma {:induction false} MeasuresRoundTrip(measures: map<string, int>, i: nat)
    requires HasAllMeasures(measures) && i < |WerKeys|
    ensures MeasuresOf(ToCounters(measures))[WerKeys[i]] == measures[WerKeys[i]]
  {
    assert WerKeys[i] == ["hits", "substitutions", "deletions", "insertions"][i];
  }

  /**
   * What one update adds to the error rate: its substitutions, deletions and
   * insertions to the errors, its substitutions, deletions and hits to the
   * reference length.
   */
  lemma {:induction false} ErrorRateOfUpdate(counters: seq<int>, measures: map<string, int>)
    requires |counters| == |WerKeys| && HasAllMeasures(measures)
    ensures var before := ErrorRate(counters);
      var after := ErrorRate(Add(counters, ToCounters(measures)));
      after.numerator == before.numerator +
        measures["substitutions"] + measures["deletions"] + measures["insertions"] &&
      after.denominator == before.denominator +
        measures["substitutions"] + measures["deletions"] + measures["hits"]
  {
    assert WerKeys[0] == "hits" && WerKeys[1] == "substitutions";
    assert WerKeys[2] == "deletions" && WerKeys[3] == "insertions";
  }

  /** Sum of the two terms of a ratio over several counter tensors. */
  function SumOfRates(xs: seq<seq<int>>): (r: Ratio)
    requires AllOfLength(xs, |WerKeys|)
    decreases |xs|
  {
    if xs == [] then Ratio(0, 0)
    else
      var rest := SumOfRates(xs[..|xs| - 1]);
      var last := ErrorRate(xs[|xs| - 1]);
      Ratio(rest.numerator + last.numerator, rest.denominator + last.denominator)
  }

  /**
   * Merging WER counters adds the numerators and the denominators of their
   * error rates: the merged rate is that of the pooled transcripts, not the
   * mean of the individual rates.
   */
  lemma {:induction false} ErrorRateOfMerge(init: seq<int>, xs: seq<seq<int>>)
    requires |init| == |WerKeys| && AllOfLength(xs, |WerKeys|)
    ensures ErrorRate(Total(init, xs)) ==
      Ratio(ErrorRate(init).numerator + SumOfRates(xs).numerator,
            ErrorRate(init).denominator + SumOfRates(xs).denominator)
    decreases |xs|
  {
    if xs != [] {
      ErrorRateOfMerge(init, xs[..|xs| - 1]);
    }
  }

  /**
   * The number `WER.compute()` reports for the states: the error rate's
   * numerator divided by its denominator (taken as 0 when nothing was counted).
   */
  function WerValue(states: map<string, seq<int>>): (r: real)
    ensures CountersKey in states && |states[CountersKey]| == |WerKeys| ==>
      var rate := ErrorRate(states[CountersKey]);
      rate.denominator != 0 ==> r * rate.denominator as real == rate.numerator as real
  {
    if CountersKey in states && |states[CountersKey]| == |WerKeys| then
      var rate := ErrorRate(states[CountersKey]);
      if rate.denominator == 0 then 0.0 else rate.numerator as real / rate.denominator as real
    else 0.0
  }

  /** `WER`: a counter-based metric with one tensor of the four counters. */
  class Wer {
    const base: CounterBasedMetric

    ghost predicate Valid()
      reads this, base
    {
      base.Valid() && base.defaults == map[CountersKey := Zeros(|WerKeys|)] && base.formula == WerValue
    }

    /** The counters start at zero, and the metric computes the error rate. */
    constructor ()
      ensures Valid() && fresh(base)
      ensures base.formula == WerValue
      ensures Counters() == Zeros(|WerKeys|)
    {
      base := new CounterBasedMetric(map[CountersKey := Zeros(|WerKeys|)], WerValue);
    }

    function Counters(): (r: seq<int>)
      reads this, base
      requires Valid()
      ensures |r| == |WerKeys|
    {
      base.states[CountersKey]
    }

    /**
     * `update(prediction, reference)`, given the measures jiwer computes for
     * them: each counter grows by its measure.
     */
    method Update(measures: map<string, int>)
      requires Valid() && HasAllMeasures(measures)
      modifies base
      ensures Valid()
      ensures Counters() == Add(old(Counters()), ToCounters(measures))
    {
      base.AddInto(CountersKey, ToCounters(measures));
    }

    /**
     * `compute()`: the error rate of the counters so far, whose quotient is
     * the value the metric reports.
     */
    function Compute(): (r: Ratio)
      reads this, base
      requires Valid()
      ensures r.numerator == Counters()[1] + Counters()[2] + Counters()[3]
      ensures r.denominator == Counters()[1] + Counters()[2] + Counters()[0]
      ensures r.denominator != 0 ==> base.Value() * r.denominator as real == r.numerator as real
    {
      ErrorRate(Counters())
    }
  }

  // ---------------------------------------------------------------------------
  // Throughput

  /** The `ValueError` of a negative update, with the value received. */
  datatype ValueError = NegativeCount(received: int)

  /** The earlier of two start times (`torch.min`). */
  function Min(a: real, b: real): (r: real)
    ensures r <= a && r <= b && (r == a || r == b)
  {
    if a <= b then a else b
  }

  /** `acc` lowered to each start time of `ts` in turn. */
  function Earliest(acc: real, ts: seq<real>): (r: real)
    decreases |ts|
  {
    if ts == [] then acc else Min(Earliest(acc, ts[..|ts| - 1]), ts[|ts| - 1])
  }

  /** `Earliest` is the minimum: no later than any start, and one of them. */
  lemma {:induction false} EarliestIsMinimum(acc: real, ts: seq<real>)
    ensures Earliest(acc, ts) <= acc
    ensures forall j :: 0 <= j < |ts| ==> Earliest(acc, ts) <= ts[j]
    ensures Earliest(acc, ts) == acc || exists j :: 0 <= j < |ts| && Earliest(acc, ts) == ts[j]
    decreases |ts|
  {
    if ts != [] {
      EarliestIsMinimum(acc, ts[..|ts| - 1]);
    }
  }

  /** The sum of some integers. */
  function SumInts(xs: seq<int>): (r: int)
    decreases |xs|
  {
    if xs == [] then 0 else SumInts(xs[..|xs| - 1]) + xs[|xs| - 1]
  }

  /**
   * `acc` after `acc += totals[j]` for each `j` in turn, where a position
   * marked in `isSelf` is the metric being merged into and adds the running
   * total itself.
   */
  function MergedTotal(acc: int, totals: seq<int>, isSelf: seq<bool>): (r: int)
    requires |totals| == |isSelf|
    decreases |totals|
  {
    if totals == [] then acc
    else
      var n := |totals| - 1;
      var prev := MergedTotal(acc, totals[..n], isSelf[..n]);
      if isSelf[n] then prev + prev else prev + totals[n]
  }

  /** Without the metric itself among those merged, the merged total is the plain sum. */
  lemma {:induction false} MergedTotalWithoutSelf(acc: int, totals: seq<int>, isSelf: seq<bool>)
    requires |totals| == |isSelf|
    requires forall j :: 0 <= j < |isSelf| ==> !isSelf[j]
    ensures MergedTotal(acc, totals, isSelf) == acc + SumInts(totals)
    decreases |totals|
  {
    if totals != [] {
      var n := |totals| - 1;
      MergedTotalWithoutSelf(acc, totals[..n], isSelf[..n]);
    }
  }

  /** No count in `xs` is negative. */
  predicate NonNegative(xs: seq<int>) {
    forall j :: 0 <= j < |xs| ==> xs[j] >= 0
  }

  /** Merging non-negative totals into a non-negative total keeps it non-negative. */
  lemma {:induction false} MergedTotalNonNegative(acc: int, totals: seq<int>, isSelf: seq<bool>)
    requires |totals| == |isSelf| && acc >= 0
    requires NonNegative(totals)
    ensures MergedTotal(acc, totals, isSelf) >= 0
    decreases |totals|
  {
    if totals != [] {
      var n := |totals| - 1;
      MergedTotalNonNegative(acc, totals[..n], isSelf[..n]);
    }
  }

  /** Which of `metrics` is `self` itself. */
  function SelfFlags(self: EffectiveThroughput, metrics: seq<EffectiveThroughput>): (r: seq<bool>)
    ensures |r| == |metrics| && forall j :: 0 <= j < |metrics| ==> (r[j] <==> metrics[j] == self)
  {
    seq(|metrics|, j requires 0 <= j < |metrics| => metrics[j] == self)
  }

  /** The processed counts of some throughput metrics. */
  function Totals(metrics: seq<EffectiveThroughput>): (r: seq<int>)
    reads set m | m in metrics
    ensures |r| == |metrics| && forall j :: 0 <= j < |metrics| ==> r[j] == metrics[j].numTotal
    decreases |metrics|
  {
    if metrics == [] then [] else Totals(metrics[..|metrics| - 1]) + [metrics[|metrics| - 1].numTotal]
  }

  /** The start times of some throughput metrics. */
  function StartTimes(metrics: seq<EffectiveThroughput>): (r: seq<real>)
    reads set m | m in metrics
    ensures |r| == |metrics| && forall j :: 0 <= j < |metrics| ==> r[j] == metrics[j].startTime
    decreases |metrics|
  {
    if metrics == [] then [] else StartTimes(metrics[..|metrics| - 1]) + [metrics[|metrics| - 1].startTime]
  }

  /**
   * `EffectiveThroughput`: the number of items processed since `startTime`,
   * a reading of the clock (passed in as `now`).
   */
  class EffectiveThroughput {
    var numTotal: int
    var startTime: real

    /** No count is ever negative, so neither is the total. */
    ghost predicate Valid()
      reads this
    {
      numTotal >= 0
    }

    /** Nothing processed yet, counting from the clock reading `now`. */
    constructor (now: real)
      ensures numTotal == 0 && startTime == now
      ensures Valid()
    {
      numTotal := 0;
      startTime := now;
    }

    /**
     * `compute()` at clock reading `now`: the items processed per unit of
     * time elapsed since the start time.
     */
    function Throughput(now: real): (r: real)
      reads this
      ensures now != startTime ==> r * (now - startTime) == numTotal as real
    {
      if now == startTime then 0.0 else numTotal as real / (now - startTime)
    }

    /**
     * `update(num_processed)`: a negative count raises `ValueError` and changes
     * nothing; otherwise the count is added to the total and this metric is
     * returned.
     */
    method Update(numProcessed: int) returns (r: Result<EffectiveThroughput, ValueError>)
      modifies this
      ensures startTime == old(startTime)
      ensures numProcessed < 0 ==> r == Failure(NegativeCount(numProcessed)) && numTotal == old(numTotal)
      ensures numProcessed >= 0 ==> r == Success(this) && numTotal == old(numTotal) + numProcessed
      ensures old(Valid()) ==> Valid()
    {
      if numProcessed < 0 {
        return Failure(NegativeCount(numProcessed));
      }
      numTotal := numTotal + numProcessed;
      r := Success(this);
    }

    /**
     * `merge_state(metrics)`: the totals are added up and the start time
     * becomes the earliest of all start times; returns this metric.  Where this
     * metric is itself among those merged, its total is added as it stands at
     * that point, which doubles it.
     */
    method MergeState(metrics: seq<EffectiveThroughput>) returns (r: EffectiveThroughput)
      modifies this
      ensures r == this
      ensures forall j :: 0 <= j < |metrics| && metrics[j] != this ==>
        metrics[j].numTotal == old(metrics[j].numTotal) && metrics[j].startTime == old(metrics[j].startTime)
      ensures numTotal == MergedTotal(old(numTotal), old(Totals(metrics)), SelfFlags(this, metrics))
      ensures startTime == Earliest(old(startTime), old(StartTimes(metrics)))
    {
      ghost var totals := Totals(metrics);
      ghost var starts := StartTimes(metrics);
      ghost var start0 := startTime;
      ghost var flags := SelfFlags(this, metrics);
      var j := 0;
      while j < |metrics|
        invariant 0 <= j <= |metrics|
        invariant numTotal == MergedTotal(old(numTotal), totals[..j], flags[..j])
        invariant startTime == Earliest(start0, starts[..j])
      {
        var m := metrics[j];
        assert totals[..j + 1][..j] == totals[..j];
        assert flags[..j + 1][..j] == flags[..j];
        assert starts[..j + 1][..j] == starts[..j];
        if m == this {
          EarliestIsMinimum(start0, starts[..j]);
        }
        numTotal := numTotal + m.numTotal;
        startTime := Min(startTime, m.startTime);
        j := j + 1;
      }
      assert totals[..|metrics|] == totals;
      assert flags[..|metrics|] == flags;
      assert starts[..|metrics|] == starts;
      r := this;
    }

    /** `reset()`: only the start time moves, to `now`; the total is kept. */
    method Reset(now: real) returns (r: EffectiveThroughput)
      modifies this
      ensures r == this
      ensures startTime == now && numTotal == old(numTotal)
      ensures old(Valid()) ==> Valid()
    {
      startTime := now;
      r := this;
    }
  }
}
