// The market-making strategy: an event-driven sampler over a regular grid, the
// rolling statistics it feeds, and the quotes drawn from them.
module Strategy {
  import opened Orders
  import opened Snapshots
  import Q = Quotes
  import G = Resampling
  import S = Rolling

  /** Grid increments needed before any quote. */
  const MIN_SAMPLES_FOR_QUOTE := 100

  // ---------------------------------------------------------- book imbalance

  /** The quantity at prices no worse than `bound`. */
  function QtyWithin(isBid: bool, s: seq<Level>, bound: real): real {
    if s == [] then 0.0
    else
      var l := s[|s| - 1];
      QtyWithin(isBid, s[..|s| - 1], bound) + if Better(isBid, bound, l.price) then 0.0 else l.qty
  }

  lemma {:induction false} NothingBeyond(isBid: bool, s: seq<Level>, bound: real, n: nat)
    requires BestFirst(isBid, s) && n < |s| && Better(isBid, bound, s[n].price)
    ensures QtyWithin(isBid, s, bound) == QtyWithin(isBid, s[..n], bound)
    decreases |s|
  {
    var m := |s| - 1;
    if n < m {
      NothingBeyond(isBid, s[..m], bound, n);
      assert s[..m][..n] == s[..n];
    }
  }

  /** Stops at the first level beyond the bound; on a sorted side that loses nothing. */
  method SumWithin(isBid: bool, levels: array<Level>, count: nat, bound: real) returns (sum: real)
    requires count <= levels.Length && BestFirst(isBid, levels[..count])
    ensures sum == QtyWithin(isBid, levels[..count], bound)
  {
    sum := 0.0;
    ghost var s := levels[..count];
    for n := 0 to count
      invariant sum == QtyWithin(isBid, s[..n], bound)
    {
      if Better(isBid, bound, levels[n].price) {
        NothingBeyond(isBid, s, bound, n);
        return;
      }
      assert s[..n + 1][..n] == s[..n];
      sum := sum + levels[n].qty;
    }
    assert s[..count] == s;
  }

  // ------------------------------------------------------------- observations

  function BookMid(bids: seq<Level>, asks: seq<Level>): real
    requires WellFormed(bids, asks)
  {
    (bids[0].price + asks[0].price) / 2.0
  }

  /** The prices at a relative distance from mid. */
  function Below(mid: real, depth: real): real {
    mid * (1.0 - depth)
  }

  function Above(mid: real, depth: real): real {
    mid * (1.0 + depth)
  }

  /** What one well-formed book says at a moment: its mid price, and bid less ask
      quantity within `depth` of it. */
  function Observe(time: int, bids: seq<Level>, asks: seq<Level>, depth: real): G.Observation
    requires WellFormed(bids, asks)
  {
    var mid := BookMid(bids, asks);
    G.Observation(time, mid, QtyWithin(true, bids, Below(mid, depth)) - QtyWithin(false, asks, Above(mid, depth)))
  }

  /** One more bid counts in full if it is within the depth, and not at all beyond. */
  lemma BidsAdd(time: int, bids: seq<Level>, asks: seq<Level>, depth: real, l: Level)
    requires WellFormed(bids, asks) && WellFormed(bids + [l], asks)
    ensures var was, now := Observe(time, bids, asks, depth), Observe(time, bids + [l], asks, depth);
      && now.time == was.time && now.mid == was.mid == (bids[0].price + asks[0].price) / 2.0
      && now.imbalance == was.imbalance + (if l.price >= now.mid - now.mid * depth then l.qty else 0.0)
  {
    QtyAppends(true, bids, l, Below(BookMid(bids, asks), depth));
    Within(BookMid(bids, asks), depth);
    hide QtyWithin, Below, Above;
    assert (bids + [l])[0] == bids[0];
  }

  lemma QtyAppends(isBid: bool, s: seq<Level>, l: Level, bound: real)
    ensures QtyWithin(isBid, s + [l], bound) == QtyWithin(isBid, s, bound) +
      if (if isBid then l.price >= bound else l.price <= bound) then l.qty else 0.0
  {
    assert (s + [l])[..|s|] == s;
  }

  lemma Within(mid: real, depth: real)
    ensures Below(mid, depth) == mid - mid * depth && Above(mid, depth) == mid + mid * depth
  {
  }

  /** One more ask counts the other way. */
  lemma AsksSubtract(time: int, bids: seq<Level>, asks: seq<Level>, depth: real, l: Level)
    requires WellFormed(bids, asks) && WellFormed(bids, asks + [l])
    ensures var was, now := Observe(time, bids, asks, depth), Observe(time, bids, asks + [l], depth);
      && now.time == was.time && now.mid == was.mid
      && now.imbalance == was.imbalance - (if l.price <= now.mid + now.mid * depth then l.qty else 0.0)
  {
    QtyAppends(false, asks, l, Above(BookMid(bids, asks), depth));
    Within(BookMid(bids, asks), depth);
    hide QtyWithin, Below, Above;
    assert (asks + [l])[0] == asks[0];
  }

  /** What the two best levels alone say. */
  lemma BestLevelsAlone(time: int, bid: Level, ask: Level, depth: real)
    requires WellFormed([bid], [ask])
    ensures var o := Observe(time, [bid], [ask], depth);
      && o.time == time && o.mid == (bid.price + ask.price) / 2.0
      && o.imbalance == (if bid.price >= o.mid - o.mid * depth then bid.qty else 0.0)
                        - (if ask.price <= o.mid + o.mid * depth then ask.qty else 0.0)
  {
    hide QtyWithin, Below, Above;
    var mid := BookMid([bid], [ask]);
    Within(mid, depth);
    QtyOfOne(true, bid, Below(mid, depth));
    QtyOfOne(false, ask, Above(mid, depth));
    ObserveIs(time, [bid], [ask], depth, mid,
              QtyWithin(true, [bid], Below(mid, depth)) - QtyWithin(false, [ask], Above(mid, depth)));
  }

  lemma ObserveIs(time: int, bids: seq<Level>, asks: seq<Level>, depth: real, mid: real, imbalance: real)
    requires WellFormed(bids, asks) && mid == BookMid(bids, asks)
    requires imbalance == QtyWithin(true, bids, Below(mid, depth)) - QtyWithin(false, asks, Above(mid, depth))
    ensures Observe(time, bids, asks, depth) == G.Observation(time, mid, imbalance)
  {
  }

  lemma QtyOfOne(isBid: bool, l: Level, bound: real)
    ensures QtyWithin(isBid, [l], bound)
      == if (if isBid then l.price >= bound else l.price <= bound) then l.qty else 0.0
  {
    assert [] + [l] == [l];
    QtyAppends(isBid, [], l, bound);
  }

  datatype Reading = Reading(bestBid: real, bestAsk: real, seen: G.Observation)

  // ---------------------------------------------------- series from the samples

  /** Increments of the mid price from one grid point to the next. */
  function Changes(samples: seq<G.Sample>): (r: seq<real>)
    ensures |r| == if samples == [] then 0 else |samples| - 1
    ensures forall i :: 0 <= i < |r| ==> r[i] == samples[i + 1].mid - samples[i].mid
  {
    if samples == [] then []
    else seq(|samples| - 1, i requires 0 <= i < |samples| - 1 => samples[i + 1].mid - samples[i].mid)
  }

  function Imbalances(samples: seq<G.Sample>): (r: seq<real>)
    ensures |r| == |samples|
    ensures forall i :: 0 <= i < |r| ==> r[i] == samples[i].imbalance
  {
    seq(|samples|, i requires 0 <= i < |samples| => samples[i].imbalance)
  }

  lemma OneMoreSample(samples: seq<G.Sample>, s: G.Sample)
    ensures Imbalances(samples + [s]) == Imbalances(samples) + [s.imbalance]
    ensures samples == [] ==> Changes(samples + [s]) == Changes(samples)
    ensures samples != [] ==> Changes(samples + [s]) == Changes(samples) + [s.mid - samples[|samples| - 1].mid]
  {
    var all := samples + [s];
    assert forall i :: 0 <= i < |samples| ==> all[i] == samples[i];
    if samples != [] {
      var more := Changes(samples) + [s.mid - samples[|samples| - 1].mid];
      assert forall i :: 0 <= i < |more| ==> Changes(all)[i] == more[i];
    }
  }

  lemma LastOfLast(s: seq<real>, v: real, k: nat)
    ensures S.Last(S.Last(s, k) + [v], k) == S.Last(s + [v], k)
  {
  }

  lemma NothingYet(k: nat, step: nat, maxGap: int)
    ensures S.Last(Changes([]), k) == [] && S.Last(Imbalances([]), k) == []
    ensures G.Proper([], maxGap) && G.IsResampling([], [], step)
  {
  }

  /** The books' grid points before the newest observation carry the held one. */
  lemma HeldBefore(stream: seq<G.Observation>, o: G.Observation, t: int)
    requires stream != [] && G.LastTime(stream) < t < o.time
    ensures G.SampleAt(stream + [o], t) == G.Sample(t, stream[|stream| - 1].mid, stream[|stream| - 1].imbalance)
  {
    assert (stream + [o])[..|stream|] == stream;
    assert G.HeldAt(stream, t) == stream[|stream| - 1];
  }

  lemma HeldExactly(stream: seq<G.Observation>, o: G.Observation)
    requires stream != [] && G.LastTime(stream) < o.time
    ensures G.SampleAt(stream + [o], o.time) == G.Sample(o.time, o.mid, o.imbalance)
  {
  }

  /** The samples so far are right for the longer stream `all`. */
  ghost predicate RightSoFar(all: seq<G.Observation>, samples: seq<G.Sample>, step: nat)
    requires all != []
  {
    forall k :: 0 <= k < |samples| ==> samples[k] == G.SampleAt(all, G.GridTime(all[0].time, k, step))
  }

  lemma RightBefore(stream: seq<G.Observation>, o: G.Observation, samples: seq<G.Sample>, step: nat)
    requires stream != [] && G.Ordered(stream + [o]) && G.IsResampling(stream, samples, step)
    ensures RightSoFar(stream + [o], samples, step)
  {
    var t0 := stream[0].time;
    forall k | 0 <= k < |samples|
      ensures samples[k] == G.SampleAt(stream + [o], G.GridTime(t0, k, step))
    {
      G.GridGrows(t0, k, |samples| - 1, step);
      G.HeldAtAhead(stream, [o], G.GridTime(t0, k, step));
    }
  }

  lemma RightAfter(all: seq<G.Observation>, samples: seq<G.Sample>, s: G.Sample, step: nat)
    requires all != [] && RightSoFar(all, samples, step)
    requires s == G.SampleAt(all, G.GridTime(all[0].time, |samples|, step))
    ensures RightSoFar(all, samples + [s], step)
    ensures G.GridTime(all[0].time, |samples| + 1, step) == G.GridTime(all[0].time, |samples|, step) + step
  {
    G.GridGrows(all[0].time, |samples|, |samples| + 1, step);
  }

  lemma NextIsDue(stream: seq<G.Observation>, samples: seq<G.Sample>, step: nat)
    requires stream != [] && G.IsResampling(stream, samples, step)
    ensures samples != []
    ensures G.GridTime(stream[0].time, |samples| - 1, step)
      <= G.LastTime(stream) < G.GridTime(stream[0].time, |samples|, step)
  {
  }

  lemma NoSamplesYet(stream: seq<G.Observation>, samples: seq<G.Sample>, step: nat)
    requires G.IsResampling(stream, samples, step)
    ensures stream == [] ==> samples == []
  {
  }

  lemma RightToTheEnd(all: seq<G.Observation>, samples: seq<G.Sample>, step: nat)
    requires all != [] && samples != [] && RightSoFar(all, samples, step)
    requires G.GridTime(all[0].time, |samples| - 1, step) <= G.LastTime(all) < G.GridTime(all[0].time, |samples|, step)
    ensures G.IsResampling(all, samples, step)
  {
  }

  /** Where a message that is not late leads. */
  lemma AcceptsNotLate(stream: seq<G.Observation>, o: G.Observation, maxGap: int)
    requires G.Proper(stream, maxGap) && o.time >= if stream == [] then 0 else G.LastTime(stream)
    ensures var next := G.Accept(stream, o, maxGap);
      && G.Proper(next, maxGap) && G.Ordered(next)
      && next == if stream == [] || o.time - G.LastTime(stream) >= maxGap then [o] else stream + [o]
  {
    G.AcceptKeeps(stream, o, maxGap);
  }

  lemma FirstOfAll(o: G.Observation, step: nat)
    requires step > 0
    ensures G.IsResampling([o], [G.Sample(o.time, o.mid, o.imbalance)], step)
    ensures G.GridTime(o.time, 1, step) == o.time + step
  {
    assert G.GridTime(o.time, 0, step) == o.time;
  }

  predicate IsRoot(x: real, r: real) {
    r >= 0.0 && S.Square(r) == x
  }

  /** The square root, as the mathematics library computes it. */
  ghost predicate TakesRoots(root: real -> real) {
    forall x: real :: x >= 0.0 ==> IsRoot(x, root(x))
  }

  lemma ScaledSquare(raw: real, scale: real, step: real)
    requires raw >= 0.0 && scale >= 0.0 && step > 0.0 && S.Square(scale) == 1_000_000_000.0 / step
    ensures raw * scale >= 0.0
    ensures S.Square(raw * scale) * step == S.Square(raw) * 1_000_000_000.0
  {
    assert S.Square(raw * scale) == S.Square(raw) * S.Square(scale);
    assert S.Square(raw) * (1_000_000_000.0 / step) * step == S.Square(raw) * 1_000_000_000.0;
  }

  lemma SquaresInOrder(a: real, b: real)
    requires 0.0 <= a <= b
    ensures S.Square(a) <= S.Square(b)
    ensures a < b ==> S.Square(a) < S.Square(b)
  {
    var d := b - a;
    assert S.Square(b) == S.Square(a) + 2.0 * (a * d) + d * d;
    assert a * d >= 0.0;
    assert d > 0.0 ==> d * d > 0.0;
  }

  lemma RootOrder(r: real, t: real)
    requires r >= 0.0 && t > 0.0
    ensures r >= t <==> S.Square(r) >= S.Square(t)
  {
    if r >= t {
      SquaresInOrder(t, r);
    } else {
      SquaresInOrder(r, t);
    }
  }

  /** The z-score of the latest reading, given as its square and its sign. */
  ghost predicate IsScore(alpha: real, imbalance: real, obi: seq<real>) {
    if S.Variance(obi) < S.Square(S.TINY) then alpha == 0.0
    else
      && S.Square(alpha) * S.Variance(obi) == S.Square(imbalance - S.Mean(obi))
      && (alpha > 0.0 <==> imbalance > S.Mean(obi))
  }

  /** Volatility per square-root second from increments `step` nanoseconds apart. */
  ghost predicate IsVolatility(volatility: real, changes: seq<real>, step: nat) {
    volatility >= 0.0 && S.Square(volatility) * step as real == S.Variance(changes) * 1_000_000_000.0
  }

  class ObiStrategy {
    const settings: Q.Settings
    const stepNs: nat
    const updateIntervalSteps: nat
    const requiredHistoryNs: nat
    const maxGapNs: int
    const lookingDepth: real
    const window: nat
    const root: real -> real
    const midChanges: S.RollingStats
    const imbalances: S.RollingStats
    var prevMid: Option<real>
    var position: real
    var stepCount: nat
    var lastUpdateStep: nat
    var volatility: real
    var alpha: real
    var warmedUp: bool
    var firstTimestampNs: Option<int>
    var latestTimestampNs: int
    var totalSamples: nat
    var held: Option<(real, real)>
    var nextSampleNs: int
    var lastObservationNs: int

    /** The messages accepted, and the samples taken, since the last reset. */
    ghost var stream: seq<G.Observation>
    ghost var samples: seq<G.Sample>

    ghost function Parts(): set<object>
      reads this
    {
      {midChanges, imbalances} + midChanges.Repr + imbalances.Repr
    }

    ghost predicate Configured()
      reads this
    {
      && Q.ValidSettings(settings)
      && stepNs > 0 && updateIntervalSteps > 0 && window > 0
      && TakesRoots(root)
      && midChanges in midChanges.Repr && imbalances in imbalances.Repr
      && midChanges.window.buffer.Length == imbalances.window.buffer.Length == window
      && this !in midChanges.Repr && this !in imbalances.Repr && midChanges.Repr !! imbalances.Repr
    }

    /** Every counter and statistic is the samples' own. */
    ghost predicate Recorded()
      reads this, Parts()
    {
      var n := |samples|;
      && Configured()
      && midChanges.Valid() && imbalances.Valid()
      && midChanges.Contents() == S.Last(Changes(samples), window)
      && imbalances.Contents() == S.Last(Imbalances(samples), window)
      && prevMid == (if n == 0 then None else Some(samples[n - 1].mid))
      && firstTimestampNs == (if n == 0 then None else Some(samples[0].time))
      && latestTimestampNs == (if n == 0 then 0 else samples[n - 1].time)
      && stepCount == n && totalSamples == (if n == 0 then 0 else n - 1)
      && lastUpdateStep <= stepCount
      && (warmedUp ==> totalSamples >= MIN_SAMPLES_FOR_QUOTE)
    }

    /** The samples are the declarative resampling of the accepted messages. */
    ghost predicate Valid()
      reads this, Parts()
    {
      && Recorded()
      && G.Proper(stream, maxGapNs)
      && G.IsResampling(stream, samples, stepNs)
      && held == (if stream == [] then None else Some((stream[|stream| - 1].mid, stream[|stream| - 1].imbalance)))
      && lastObservationNs == (if stream == [] then 0 else G.LastTime(stream))
      && (stream != [] ==> nextSampleNs == G.GridTime(stream[0].time, |samples|, stepNs))
    }

    constructor (settings: Q.Settings, stepNs: nat, windowSteps: nat, updateIntervalSteps: nat, lookingDepth: real,
                 requiredHistoryMinutes: nat, depthStaleSecs: nat, root: real -> real)
      requires Q.ValidSettings(settings) && stepNs > 0 && windowSteps > 0 && updateIntervalSteps > 0
      requires TakesRoots(root)
      ensures Valid() && fresh(Parts()) && stream == [] && samples == []
    {
      this.settings, this.stepNs, this.updateIntervalSteps, this.lookingDepth := settings, stepNs, updateIntervalSteps,
        lookingDepth;
      this.requiredHistoryNs := requiredHistoryMinutes * 60 * 1_000_000_000;
      this.maxGapNs := depthStaleSecs * 1_000_000_000;
      this.root, this.window := root, windowSteps;
      midChanges := new S.RollingStats(windowSteps);
      imbalances := new S.RollingStats(windowSteps);
      prevMid, held, firstTimestampNs := None, None, None;
      position, volatility, alpha := 0.0, 0.0, 0.0;
      stepCount, lastUpdateStep, totalSamples := 0, 0, 0;
      warmedUp := false;
      latestTimestampNs, nextSampleNs, lastObservationNs := 0, 0, 0;
      stream, samples := [], [];
    }

    function HistoryDurationNs(): (r: int)
      reads this
    {
      if firstTimestampNs.Some? && latestTimestampNs > firstTimestampNs.value
      then latestTimestampNs - firstTimestampNs.value
      else 0
    }

    predicate IsValidForTrading()
      reads this
    {
      warmedUp && HistoryDurationNs() >= requiredHistoryNs
    }

    method PushStatistics(change: Option<real>, imbalance: real)
      requires Configured() && midChanges.Valid() && imbalances.Valid()
      modifies Parts()
      ensures midChanges.Valid() && imbalances.Valid()
      ensures midChanges.Contents() ==
        if change.Some? then S.Last(old(midChanges.Contents()) + [change.value], window) else old(midChanges.Contents())
      ensures imbalances.Contents() == S.Last(old(imbalances.Contents()) + [imbalance], window)
    {
      hide S.RollingStats.Valid, S.RollingStats.Contents, S.Last, TakesRoots;
      if change.Some? {
        midChanges.Push(change.value);
      }
      imbalances.Push(imbalance);
    }

    method Sample(time: int, mid: real, imbalance: real)
      requires Recorded()
      modifies Parts(), `prevMid, `firstTimestampNs, `latestTimestampNs, `stepCount, `totalSamples, `samples
      ensures Recorded()
      ensures samples == old(samples) + [G.Sample(time, mid, imbalance)]
    {
      hide S.RollingStats.Valid, S.RollingStats.Contents, S.Last, Changes, Imbalances, TakesRoots;
      var s := G.Sample(time, mid, imbalance);
      OneMoreSample(samples, s);
      LastOfLast(Imbalances(samples), imbalance, window);
      if prevMid.Some? {
        LastOfLast(Changes(samples), mid - prevMid.value, window);
      }
      PushStatistics(if prevMid.Some? then Some(mid - prevMid.value) else None, imbalance);
      Count(s);
    }

    method Count(s: G.Sample)
      modifies `prevMid, `firstTimestampNs, `latestTimestampNs, `stepCount, `totalSamples, `samples
      ensures firstTimestampNs == if old(firstTimestampNs).None? then Some(s.time) else old(firstTimestampNs)
      ensures latestTimestampNs == s.time && prevMid == Some(s.mid)
      ensures totalSamples == old(totalSamples) + if old(prevMid).Some? then 1 else 0
      ensures stepCount == old(stepCount) + 1
      ensures samples == old(samples) + [s]
    {
      if firstTimestampNs.None? {
        firstTimestampNs := Some(s.time);
      }
      latestTimestampNs := s.time;
      if prevMid.Some? {
        totalSamples := totalSamples + 1;
      }
      prevMid := Some(s.mid);
      stepCount := stepCount + 1;
      samples := samples + [s];
    }

    method SampleDue(mid: real, imbalance: real)
      requires Recorded()
      modifies Parts(), `prevMid, `firstTimestampNs, `latestTimestampNs, `stepCount, `totalSamples, `samples,
        `nextSampleNs
      ensures Recorded()
      ensures samples == old(samples) + [G.Sample(old(nextSampleNs), mid, imbalance)]
      ensures nextSampleNs == old(nextSampleNs) + stepNs
    {
      hide Changes, Imbalances, TakesRoots, S.RollingStats.Valid, S.RollingStats.Contents, S.Last;
      Sample(nextSampleNs, mid, imbalance);
      nextSampleNs := nextSampleNs + stepNs;
    }

    method ClearStatistics()
      requires Configured() && midChanges.Valid() && imbalances.Valid()
      modifies Parts()
      ensures midChanges.Valid() && midChanges.Contents() == []
      ensures imbalances.Valid() && imbalances.Contents() == []
    {
      hide S.RollingStats.Valid, S.RollingStats.Contents, TakesRoots;
      midChanges.Clear();
      imbalances.Clear();
    }

    method ResetState()
      requires Recorded()
      modifies this, Parts()
      ensures Valid() && stream == [] && samples == []
      ensures position == old(position)
    {
      hide S.RollingStats.Valid, S.RollingStats.Contents, S.Last, TakesRoots, Changes, Imbalances;
      hide G.IsResampling, G.Proper, G.GridTime;
      NothingYet(window, stepNs, maxGapNs);
      ClearStatistics();
      ForgetProgress();
    }

    method ForgetProgress()
      modifies `prevMid, `held, `firstTimestampNs, `nextSampleNs, `lastObservationNs, `latestTimestampNs,
        `stepCount, `lastUpdateStep, `totalSamples, `volatility, `alpha, `warmedUp, `stream, `samples
      ensures prevMid == None && held == None && firstTimestampNs == None
      ensures nextSampleNs == lastObservationNs == latestTimestampNs == 0
      ensures stepCount == lastUpdateStep == totalSamples == 0
      ensures volatility == alpha == 0.0 && !warmedUp && stream == [] && samples == []
    {
      prevMid, held, firstTimestampNs := None, None, None;
      nextSampleNs, lastObservationNs, latestTimestampNs := 0, 0, 0;
      stepCount, lastUpdateStep, totalSamples := 0, 0, 0;
      volatility, alpha := 0.0, 0.0;
      warmedUp := false;
      stream, samples := [], [];
    }

    /** Samples the held observation at every grid point before a new arrival. */
    method HoldUntil(o: G.Observation)
      requires Valid() && stream != []
      requires G.Ordered(stream + [o])
      modifies Parts(), `prevMid, `firstTimestampNs, `latestTimestampNs, `stepCount, `totalSamples, `samples,
        `nextSampleNs
      ensures Recorded() && samples != [] && RightSoFar(stream + [o], samples, stepNs)
      ensures nextSampleNs == G.GridTime(stream[0].time, |samples|, stepNs) > G.LastTime(stream)
      ensures G.GridTime(stream[0].time, |samples| - 1, stepNs) <= o.time <= nextSampleNs
    {
      hide Changes, Imbalances, TakesRoots, S.RollingStats.Valid, S.RollingStats.Contents, S.Last;
      hide RightSoFar, G.SampleAt, G.GridTime, G.IsResampling;
      ghost var all, last := stream + [o], stream[|stream| - 1];
      assert all[0] == stream[0] && all[|stream|].time >= all[|stream| - 1].time;
      RightBefore(stream, o, samples, stepNs);
      NextIsDue(stream, samples, stepNs);
      var mid, imbalance := held.value.0, held.value.1;
      while nextSampleNs < o.time
        invariant Recorded() && samples != [] && RightSoFar(all, samples, stepNs)
        invariant nextSampleNs == G.GridTime(all[0].time, |samples|, stepNs) > last.time
        invariant G.GridTime(all[0].time, |samples| - 1, stepNs) <= o.time
        decreases o.time - nextSampleNs
      {
        HeldBefore(stream, o, nextSampleNs);
        RightAfter(all, samples, G.Sample(nextSampleNs, mid, imbalance), stepNs);
        SampleDue(mid, imbalance);
      }
    }

    /** Takes the samples due since the last message: held values strictly before
        the arrival, the arriving value exactly at it. */
    method CatchUp(o: G.Observation)
      requires Valid() && stream != []
      requires G.Ordered(stream + [o])
      modifies Parts(), `prevMid, `firstTimestampNs, `latestTimestampNs, `stepCount, `totalSamples, `samples,
        `nextSampleNs
      ensures Recorded()
      ensures G.IsResampling(stream + [o], samples, stepNs)
      ensures nextSampleNs == G.GridTime(stream[0].time, |samples|, stepNs)
    {
      hide Changes, Imbalances, TakesRoots, S.RollingStats.Valid, S.RollingStats.Contents, S.Last;
      hide RightSoFar, G.SampleAt, G.GridTime, G.IsResampling;
      ghost var all := stream + [o];
      HoldUntil(o);
      if nextSampleNs == o.time {
        HeldExactly(stream, o);
        RightAfter(all, samples, G.Sample(o.time, o.mid, o.imbalance), stepNs);
        SampleDue(o.mid, o.imbalance);
      }
      RightToTheEnd(all, samples, stepNs);
    }

    /** Takes the first sample after a reset. */
    method Begin(o: G.Observation)
      requires Valid() && stream == []
      modifies Parts(), `prevMid, `firstTimestampNs, `latestTimestampNs, `stepCount, `totalSamples, `samples,
        `nextSampleNs
      ensures Recorded()
      ensures G.IsResampling([o], samples, stepNs)
      ensures nextSampleNs == G.GridTime(o.time, |samples|, stepNs)
    {
      hide Changes, Imbalances, TakesRoots, S.RollingStats.Valid, S.RollingStats.Contents, S.Last;
      hide G.SampleAt, G.GridTime;
      FirstOfAll(o, stepNs);
      Sample(o.time, o.mid, o.imbalance);
      nextSampleNs := o.time + stepNs;
    }

    method Advance(o: G.Observation, ghost next: seq<G.Observation>)
      requires Valid() && G.Ordered(next)
      requires next == if stream == [] then [o] else stream + [o]
      modifies Parts(), `prevMid, `firstTimestampNs, `latestTimestampNs, `stepCount, `totalSamples, `samples,
        `nextSampleNs
      ensures Recorded()
      ensures G.IsResampling(next, samples, stepNs)
      ensures nextSampleNs == G.GridTime(next[0].time, |samples|, stepNs)
    {
      hide Changes, Imbalances, TakesRoots, S.RollingStats.Valid, S.RollingStats.Contents, S.Last;
      hide G.SampleAt, G.GridTime, G.IsResampling, G.Proper;
      if held.Some? {
        CatchUp(o);
      } else {
        Begin(o);
      }
    }

    method Hold(o: G.Observation, ghost next: seq<G.Observation>)
      requires Recorded() && G.Proper(next, maxGapNs) && next != [] && next[|next| - 1] == o
      requires G.IsResampling(next, samples, stepNs)
      requires nextSampleNs == G.GridTime(next[0].time, |samples|, stepNs)
      modifies `held, `lastObservationNs, `stream
      ensures Valid() && stream == next
    {
      hide Changes, Imbalances, TakesRoots, S.RollingStats.Valid, S.RollingStats.Contents, S.Last;
      hide G.SampleAt, G.GridTime, G.IsResampling, G.Proper;
      held := Some((o.mid, o.imbalance));
      lastObservationNs := o.time;
      stream := next;
    }

    /** Records one message that is not late. */
    method Record(o: G.Observation)
      requires Valid() && o.time >= lastObservationNs
      modifies this, Parts()
      ensures Valid() && stream == G.Accept(old(stream), o, maxGapNs)
      ensures position == old(position)
      ensures lastUpdateStep == (if stream == [o] then 0 else old(lastUpdateStep)) && stepCount == |samples|
    {
      hide Changes, Imbalances, TakesRoots, S.RollingStats.Valid, S.RollingStats.Contents, S.Last;
      hide G.SampleAt, G.GridTime, G.IsResampling, G.Proper, G.Accept;
      ghost var next := G.Accept(stream, o, maxGapNs);
      AcceptsNotLate(stream, o, maxGapNs);
      NoSamplesYet(stream, samples, stepNs);
      if held.Some? && o.time - lastObservationNs >= maxGapNs {
        ResetState();
      }
      Advance(o, next);
      Hold(o, next);
    }

    /** The standard deviation of a window, from its running sums. */
    method Std(stats: S.RollingStats) returns (r: real)
      requires TakesRoots(root) && stats.Valid()
      ensures r >= 0.0 && S.Square(r) == S.Variance(stats.Contents())
    {
      var variance := stats.CurrentVariance();
      r := root(variance);
      assert IsRoot(variance, r);
    }

    method Score(imbalance: real) returns (score: real)
      requires TakesRoots(root) && imbalances.Valid()
      ensures IsScore(score, imbalance, imbalances.Contents())
    {
      var std := Std(imbalances);
      hide S.Square, S.Variance, S.Mean;
      RootOrder(std, S.TINY);
      score := imbalances.Zscore(imbalance, std);
    }

    method Volatility() returns (v: real)
      requires TakesRoots(root) && midChanges.Valid() && stepNs > 0
      ensures IsVolatility(v, midChanges.Contents(), stepNs)
    {
      var raw := Std(midChanges);
      var scale := root(1_000_000_000.0 / stepNs as real);
      assert IsRoot(1_000_000_000.0 / stepNs as real, scale);
      hide S.Square, S.Variance;
      ScaledSquare(raw, scale, stepNs as real);
      v := raw * scale;
    }

    /** Volatility from the sampled increments; alpha from outside while fresh,
        else from the sampled imbalances. */
    method RefreshSignals(imbalance: real, binanceAlpha: Option<real>)
      requires Recorded()
      modifies `volatility, `alpha
      ensures Recorded() && SignalsAre(imbalance, binanceAlpha) && volatility >= 0.0
    {
      hide S.RollingStats.Valid, S.RollingStats.Contents, S.Last, S.Square, S.Variance, S.Mean, Changes, Imbalances,
        TakesRoots, IsScore;
      var v := Volatility();
      var score;
      if binanceAlpha.Some? {
        score := binanceAlpha.value;
      } else {
        score := Score(imbalance);
      }
      volatility, alpha := v, score;
    }

    /** What volatility and alpha mean in terms of the samples. */
    ghost predicate SignalsAre(imbalance: real, binanceAlpha: Option<real>)
      reads this
    {
      && IsVolatility(volatility, S.Last(Changes(samples), window), stepNs)
      && match binanceAlpha
         case Some(outside) => alpha == outside
         case None => IsScore(alpha, imbalance, S.Last(Imbalances(samples), window))
    }

    /** What a snapshot says, if it is well formed. */
    ghost function Read(snapshot: OrderbookSnapshot, receivedAt: int): Option<Reading>
      requires snapshot.Valid()
      reads snapshot, snapshot.bids, snapshot.asks
    {
      if snapshot.Accepted()
      then Some(Reading(snapshot.bids[0].price, snapshot.asks[0].price,
                        Observe(receivedAt, snapshot.bids[..snapshot.bidCount], snapshot.asks[..snapshot.askCount],
                                lookingDepth)))
      else None
    }

    method CalculateImbalance(snapshot: OrderbookSnapshot, mid: real) returns (imbalance: real)
      requires snapshot.Valid() && snapshot.Accepted()
      ensures imbalance ==
        QtyWithin(true, snapshot.bids[..snapshot.bidCount], Below(mid, lookingDepth))
        - QtyWithin(false, snapshot.asks[..snapshot.askCount], Above(mid, lookingDepth))
    {
      var sumBids := SumWithin(true, snapshot.bids, snapshot.bidCount, Below(mid, lookingDepth));
      var sumAsks := SumWithin(false, snapshot.asks, snapshot.askCount, Above(mid, lookingDepth));
      imbalance := sumBids - sumAsks;
    }

    /** A quote drawn from the current samples, and when it may be traded on. */
    ghost predicate Justifies(q: Quote, r: Reading, binanceAlpha: Option<real>, limit: real, orderQtyDollar: real)
      reads this
    {
      && limit > 0.0
      && |samples| > MIN_SAMPLES_FOR_QUOTE && lastUpdateStep == |samples|
      && SignalsAre(r.seen.imbalance, binanceAlpha)
      && Q.IsQuote(settings, Q.Market(r.bestBid, r.bestAsk, volatility, alpha, position, limit, orderQtyDollar), q)
      && (q.validForTrading <==> (|samples| - 1) * stepNs >= requiredHistoryNs)
    }

    /** One message: drop it, or record it and perhaps quote. `limit` is the
        position limit in dollars, `orderQtyDollar` the size of one order. */
    method Update(snapshot: OrderbookSnapshot, receivedAt: int, binanceAlpha: Option<real>, limit: real,
                  orderQtyDollar: real)
      returns (quote: Option<Quote>)
      requires Valid() && snapshot.Valid() && limit > 0.0
      modifies this, Parts()
      ensures Valid()
      ensures var r := old(Read(snapshot, receivedAt));
        && stream == (if r.None? then old(stream) else G.Accept(old(stream), r.value.seen, maxGapNs))
        && (quote.Some? <==>
              && r.Some? && receivedAt >= old(lastObservationNs)
              && |samples| - (if stream == [r.value.seen] then 0 else old(lastUpdateStep)) >= updateIntervalSteps
              && |samples| > MIN_SAMPLES_FOR_QUOTE && Q.Budget(settings, orderQtyDollar) > 0.0)
        && (quote.Some? ==> Justifies(quote.value, r.value, binanceAlpha, limit, orderQtyDollar))
    {
      hide Changes, Imbalances, TakesRoots, S.RollingStats.Valid, S.RollingStats.Contents, S.Last, Recorded, QtyWithin;
      hide G.SampleAt, G.GridTime, G.IsResampling, G.Proper, Justifies, WellFormed, Observe;
      var reading := ReadBook(snapshot, receivedAt);
      if reading.None? || receivedAt < lastObservationNs {
        return None;
      }
      Record(reading.value.seen);
      quote := QuoteIfDue(reading.value, binanceAlpha, limit, orderQtyDollar);
    }

    method QuoteIfDue(r: Reading, binanceAlpha: Option<real>, limit: real,
                      orderQtyDollar: real) returns (quote: Option<Quote>)
      requires Valid() && 0.0 < r.bestBid < r.bestAsk && limit > 0.0
      modifies `lastUpdateStep, `warmedUp, `volatility, `alpha
      ensures Valid()
      ensures quote.Some? <==>
        && |samples| - old(lastUpdateStep) >= updateIntervalSteps
        && |samples| > MIN_SAMPLES_FOR_QUOTE && Q.Budget(settings, orderQtyDollar) > 0.0
      ensures quote.Some? ==> Justifies(quote.value, r, binanceAlpha, limit, orderQtyDollar)
    {
      hide Changes, Imbalances, TakesRoots, S.RollingStats.Valid, S.RollingStats.Contents, S.Last;
      hide G.SampleAt, G.GridTime, G.IsResampling, G.Proper, Q.IsQuote, Q.ValidSettings, SignalsAre;
      if stepCount - lastUpdateStep < updateIntervalSteps {
        return None;
      }
      lastUpdateStep := stepCount;
      if totalSamples < MIN_SAMPLES_FOR_QUOTE {
        return None;
      }
      warmedUp := true;
      RefreshSignals(r.seen.imbalance, binanceAlpha);
      var market := Q.Market(r.bestBid, r.bestAsk, volatility, alpha, position, limit, orderQtyDollar);
      HistoryIsElapsed();
      quote := Q.CalculateQuote(settings, market, IsValidForTrading());
    }

    method ReadBook(snapshot: OrderbookSnapshot, receivedAt: int) returns (reading: Option<Reading>)
      requires snapshot.Valid()
      ensures reading == Read(snapshot, receivedAt)
      ensures reading.Some? ==>
        0.0 < reading.value.bestBid < reading.value.bestAsk && reading.value.seen.time == receivedAt
    {
      var verdict := snapshot.Validate();
      if verdict != Sound {
        return None;
      }
      assert AllPositive(snapshot.bids[..snapshot.bidCount]);
      var bestBid, bestAsk := snapshot.bids[0].price, snapshot.asks[0].price;
      var mid := (bestBid + bestAsk) / 2.0;
      ghost var bids, asks := snapshot.bids[..snapshot.bidCount], snapshot.asks[..snapshot.askCount];
      assert bids[0].price == bestBid && asks[0].price == bestAsk && mid == BookMid(bids, asks);
      var imbalance := CalculateImbalance(snapshot, mid);
      hide QtyWithin, WellFormed, Observe, Below, Above;
      ObserveIs(receivedAt, bids, asks, lookingDepth, mid, imbalance);
      reading := Some(Reading(bestBid, bestAsk, G.Observation(receivedAt, mid, imbalance)));
    }

    /** The history kept is one step for each sample after the first. */
    lemma HistoryIsElapsed()
      requires Valid() && totalSamples >= MIN_SAMPLES_FOR_QUOTE
      ensures HistoryDurationNs() == (|samples| - 1) * stepNs
    {
      hide S.RollingStats.Valid, S.RollingStats.Contents, S.Last, Changes, Imbalances, TakesRoots;
      hide G.SampleAt, G.GridTime, G.Proper;
      NoSamplesYet(stream, samples, stepNs);
      G.ElapsedOnGrid(stream, samples, stepNs);
      PositiveProduct(|samples| - 1, stepNs);
    }
  }

  lemma PositiveProduct(a: int, b: int)
    requires a > 0 && b > 0
    ensures a * b > 0
  {
  }

  /** A stream with that much grid history has no gap and itself spans as much. */
  lemma ReadyMeansContinuousHistory(stream: seq<G.Observation>, samples: seq<G.Sample>, step: nat, maxGap: int,
                                    required: nat)
    requires G.Proper(stream, maxGap) && G.IsResampling(stream, samples, step)
    requires |samples| > MIN_SAMPLES_FOR_QUOTE && (|samples| - 1) * step >= required
    ensures stream != [] && G.LastTime(stream) - stream[0].time >= required
    ensures forall i :: 0 < i < |stream| ==> 0 <= stream[i].time - stream[i - 1].time < maxGap
  {
    NoSamplesYet(stream, samples, step);
    G.ElapsedOnGrid(stream, samples, step);
  }
}
