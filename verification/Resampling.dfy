// The regular time grid behind the sampler, said declaratively: grid point `k`
// carries the first observation stamped exactly there, else the last before it.
module Resampling {

  datatype Observation = Observation(time: int, mid: real, imbalance: real)

  datatype Sample = Sample(time: int, mid: real, imbalance: real)

  predicate Ordered(stream: seq<Observation>) {
    forall i, j :: 0 <= i < j < |stream| ==> stream[i].time <= stream[j].time
  }

  /** Every two consecutive observations are closer than `maxGap`. */
  predicate Continuous(stream: seq<Observation>, maxGap: int) {
    forall i :: 0 < i < |stream| ==> stream[i].time - stream[i - 1].time < maxGap
  }

  function LastTime(stream: seq<Observation>): int
    requires stream != []
  {
    stream[|stream| - 1].time
  }

  /** Observation `i` is the one grid time `t` carries. */
  predicate Carries(stream: seq<Observation>, t: int, i: nat)
    requires i < |stream|
  {
    || (stream[i].time == t && forall j :: 0 <= j < i ==> stream[j].time < t)
    || (stream[i].time < t && forall j :: i < j < |stream| ==> stream[j].time > t)
  }

  /** The same, found from the newest end. */
  function HeldAt(stream: seq<Observation>, t: int): Observation
    requires stream != []
  {
    var n := |stream| - 1;
    if n == 0 then stream[0]
    else if stream[n].time > t || (stream[n].time == t && stream[n - 1].time == t) then HeldAt(stream[..n], t)
    else stream[n]
  }

  lemma {:induction false} HeldAtIsCarried(stream: seq<Observation>, t: int) returns (i: nat)
    requires Ordered(stream) && stream != [] && stream[0].time <= t
    ensures i < |stream| && Carries(stream, t, i) && HeldAt(stream, t) == stream[i]
  {
    var n := |stream| - 1;
    if n == 0 {
      i := 0;
    } else if stream[n].time > t || (stream[n].time == t && stream[n - 1].time == t) {
      i := HeldAtIsCarried(stream[..n], t);
      assert stream[..n][i] == stream[i];
      if stream[i].time < t {
        assert stream[..n][n - 1].time == stream[n - 1].time;
      }
    } else {
      i := n;
    }
  }

  lemma OnlyOneIsCarried(stream: seq<Observation>, t: int, i: nat, j: nat)
    requires Ordered(stream) && i < |stream| && j < |stream|
    requires Carries(stream, t, i) && Carries(stream, t, j)
    ensures i == j
  {
  }

  function SampleAt(stream: seq<Observation>, t: int): Sample
    requires stream != []
  {
    Sample(t, HeldAt(stream, t).mid, HeldAt(stream, t).imbalance)
  }

  function GridTime(t0: int, k: nat, step: nat): int {
    t0 + k * step
  }

  /** `samples` is the stream on its grid: one sample a grid point, from the first
      observation up to the last. */
  ghost predicate IsResampling(stream: seq<Observation>, samples: seq<Sample>, step: nat) {
    if stream == [] then samples == []
    else
      && samples != []
      && (forall k :: 0 <= k < |samples| ==> samples[k] == SampleAt(stream, GridTime(stream[0].time, k, step)))
      && GridTime(stream[0].time, |samples| - 1, step) <= LastTime(stream) < GridTime(stream[0].time, |samples|, step)
  }

  lemma GridGrows(t0: int, i: nat, j: nat, step: nat)
    requires i <= j
    ensures GridTime(t0, j, step) == GridTime(t0, i, step) + (j - i) * step
    ensures GridTime(t0, i, step) <= GridTime(t0, j, step)
  {
    assert j * step == i * step + (j - i) * step;
    assert (j - i) * step >= 0;
  }

  lemma {:induction false} HeldAtAhead(stream: seq<Observation>, more: seq<Observation>, t: int)
    requires Ordered(stream + more) && stream != [] && t <= LastTime(stream)
    ensures HeldAt(stream + more, t) == HeldAt(stream, t)
  {
    if more == [] {
      assert stream + more == stream;
    } else {
      var all, n := stream + more, |stream| + |more| - 1;
      var fewer := more[..|more| - 1];
      assert all[..n] == stream + fewer;
      HeldAtAhead(stream, fewer, t);
      assert all[n].time >= all[n - 1].time >= all[|stream| - 1].time;
      if all[n].time == t {
        assert all[n - 1].time == t;
      }
    }
  }

  /** No sample depends on a later observation: feeding more only appends. */
  lemma NoLookahead(stream: seq<Observation>, more: seq<Observation>, samples: seq<Sample>, longer: seq<Sample>,
                    step: nat)
    requires Ordered(stream + more) && IsResampling(stream, samples, step) && IsResampling(stream + more, longer, step)
    ensures samples <= longer
  {
    if stream != [] {
      var all, t0 := stream + more, stream[0].time;
      assert all[0] == stream[0];
      assert LastTime(stream) == all[|stream| - 1].time <= LastTime(all);
      if |longer| < |samples| {
        GridGrows(t0, |longer|, |samples| - 1, step);
        assert false;
      }
      forall k | 0 <= k < |samples|
        ensures samples[k] == longer[k]
      {
        GridGrows(t0, k, |samples| - 1, step);
        HeldAtAhead(stream, more, GridTime(t0, k, step));
      }
    }
  }

  /** The grid determines the samples. */
  lemma ResamplingIsUnique(stream: seq<Observation>, x: seq<Sample>, y: seq<Sample>, step: nat)
    requires Ordered(stream) && IsResampling(stream, x, step) && IsResampling(stream, y, step)
    ensures x == y
  {
    assert stream + [] == stream;
    NoLookahead(stream, [], x, y, step);
    NoLookahead(stream, [], y, x, step);
  }

  /** One observation adds at most about `maxGap / step` samples. */
  lemma CatchUpIsBounded(stream: seq<Observation>, o: Observation, samples: seq<Sample>, longer: seq<Sample>, step: nat,
                         maxGap: int)
    requires stream != [] && Ordered(stream + [o]) && Continuous(stream + [o], maxGap)
    requires IsResampling(stream, samples, step) && IsResampling(stream + [o], longer, step)
    ensures |longer| > |samples| ==> (|longer| - |samples| - 1) * step < maxGap
  {
    var all, n := stream + [o], |stream|;
    assert all[n].time - all[n - 1].time < maxGap;
    if |longer| > |samples| {
      GridGrows(stream[0].time, |samples|, |longer| - 1, step);
    }
  }

  /** Elapsed grid time is exactly one step a sample after the first. */
  lemma ElapsedOnGrid(stream: seq<Observation>, samples: seq<Sample>, step: nat)
    requires stream != [] && IsResampling(stream, samples, step)
    ensures samples[|samples| - 1].time - samples[0].time == (|samples| - 1) * step
    ensures samples[0].time == stream[0].time
    ensures samples[|samples| - 1].time - samples[0].time <= LastTime(stream) - stream[0].time
  {
    assert 0 * step == 0;
  }

  // ------------------------------------------------------- accepting messages

  /** What the sampler keeps of its input: a late message is dropped, a gap of
      `maxGap` or more starts over. */
  function Accept(stream: seq<Observation>, o: Observation, maxGap: int): seq<Observation> {
    if stream == [] then (if o.time < 0 then [] else [o])
    else if o.time < LastTime(stream) then stream
    else if o.time - LastTime(stream) >= maxGap then [o]
    else stream + [o]
  }

  function SinceReset(messages: seq<Observation>, maxGap: int): seq<Observation> {
    if messages == [] then []
    else Accept(SinceReset(messages[..|messages| - 1], maxGap), messages[|messages| - 1], maxGap)
  }

  /** Ordered, free of gaps, and not before time zero. */
  predicate Proper(stream: seq<Observation>, maxGap: int) {
    Ordered(stream) && Continuous(stream, maxGap) && (stream != [] ==> stream[0].time >= 0)
  }

  lemma AcceptKeeps(stream: seq<Observation>, o: Observation, maxGap: int)
    requires Proper(stream, maxGap)
    ensures Proper(Accept(stream, o, maxGap), maxGap)
  {
  }

  /** Whatever is fed, what is kept is ordered and free of gaps, and is a run of
      the latest accepted messages. */
  lemma {:induction false} KeptIsContinuous(messages: seq<Observation>, maxGap: int)
    ensures var kept := SinceReset(messages, maxGap);
      Proper(kept, maxGap) && forall o :: o in kept ==> o in messages
  {
    if messages != [] {
      var n := |messages| - 1;
      KeptIsContinuous(messages[..n], maxGap);
      AcceptKeeps(SinceReset(messages[..n], maxGap), messages[n], maxGap);
    }
  }

  /** The message is not late: nothing before it was stamped later. */
  predicate Latest(earlier: seq<Observation>, o: Observation) {
    o.time >= 0 && forall i :: 0 <= i < |earlier| ==> earlier[i].time <= o.time
  }

  function OnTime(messages: seq<Observation>): seq<Observation> {
    if messages == [] then []
    else
      var earlier, o := messages[..|messages| - 1], messages[|messages| - 1];
      if Latest(earlier, o) then OnTime(earlier) + [o] else OnTime(earlier)
  }

  /** What is kept of the messages on time is everything since the last gap. */
  ghost predicate SinceGap(on: seq<Observation>, kept: seq<Observation>, maxGap: int) {
    && |kept| <= |on| && kept == on[|on| - |kept|..]
    && (on != [] ==> kept != [])
    && (|kept| < |on| ==> kept[0].time - on[|on| - |kept| - 1].time >= maxGap)
  }

  lemma {:induction false} OnlyFromMessages(messages: seq<Observation>)
    ensures forall o :: o in OnTime(messages) ==> o in messages && o.time >= 0
  {
    if messages != [] {
      OnlyFromMessages(messages[..|messages| - 1]);
    }
  }

  lemma {:induction false} LatestOnTime(messages: seq<Observation>, i: nat)
    requires i < |messages| && messages[i].time >= 0
    ensures OnTime(messages) != [] && messages[i].time <= LastTime(OnTime(messages))
  {
    var n := |messages| - 1;
    if !Latest(messages[..n], messages[n]) {
      if i < n {
        LatestOnTime(messages[..n], i);
      } else {
        var k :| 0 <= k < n && messages[k].time > messages[n].time;
        LatestOnTime(messages[..n], k);
      }
    } else {
      assert i < n ==> messages[..n][i].time <= messages[n].time;
    }
  }

  /** A message is on time just when it is not before the latest one that was. */
  lemma LateIff(earlier: seq<Observation>, o: Observation)
    ensures Latest(earlier, o) <==> o.time >= 0 && (OnTime(earlier) == [] || LastTime(OnTime(earlier)) <= o.time)
  {
    var on := OnTime(earlier);
    OnlyFromMessages(earlier);
    if on != [] {
      assert on[|on| - 1] in on;
    }
    if o.time >= 0 && (on == [] || LastTime(on) <= o.time) {
      forall i | 0 <= i < |earlier|
        ensures earlier[i].time <= o.time
      {
        if earlier[i].time >= 0 {
          LatestOnTime(earlier, i);
        }
      }
    }
  }

  lemma SinceGapStep(on: seq<Observation>, kept: seq<Observation>, o: Observation, maxGap: int)
    requires SinceGap(on, kept, maxGap) && (on != [] ==> LastTime(on) >= 0)
    ensures var late := o.time < 0 || (on != [] && o.time < LastTime(on));
      SinceGap(if late then on else on + [o], Accept(kept, o, maxGap), maxGap)
  {
    if on != [] {
      assert LastTime(on) == LastTime(kept);
      assert (on + [o])[|on|..] == [o];
      assert (on + [o])[|on| - |kept|..] == kept + [o];
    }
  }

  /** The sampler drops late messages and starts over at each gap: it keeps exactly
      the messages on time since the last gap among them. */
  lemma {:induction false} KeptSinceGap(messages: seq<Observation>, maxGap: int)
    ensures SinceGap(OnTime(messages), SinceReset(messages, maxGap), maxGap)
  {
    hide SinceGap, Accept, Latest;
    if messages == [] {
      NothingSinceGap(maxGap);
    } else {
      var earlier, o := messages[..|messages| - 1], messages[|messages| - 1];
      var on := OnTime(earlier);
      KeptSinceGap(earlier, maxGap);
      OnlyFromMessages(earlier);
      assert on != [] ==> on[|on| - 1] in on;
      LateIff(earlier, o);
      SinceGapStep(on, SinceReset(earlier, maxGap), o, maxGap);
    }
  }

  lemma NothingSinceGap(maxGap: int)
    ensures SinceGap([], [], maxGap)
  {
  }

  lemma ProperPrefix(s: seq<Observation>, n: nat, maxGap: int)
    requires Proper(s, maxGap) && 0 < n < |s|
    ensures Proper(s[..n], maxGap)
    ensures LastTime(s[..n]) <= s[n].time < LastTime(s[..n]) + maxGap
  {
    assert LastTime(s[..n]) == s[n - 1].time;
  }

  lemma {:induction false} ContinuousIsKept(messages: seq<Observation>, maxGap: int)
    requires Proper(messages, maxGap)
    ensures SinceReset(messages, maxGap) == messages
  {
    if |messages| > 1 {
      hide Proper;
      var n := |messages| - 1;
      assert messages[..n] + [messages[n]] == messages;
      ProperPrefix(messages, n, maxGap);
      ContinuousIsKept(messages[..n], maxGap);
    } else if |messages| == 1 {
      assert SinceReset(messages[..0], maxGap) == [];
      assert messages == [messages[0]];
    }
  }

  // ------------------------------------------------------- redundant messages

  ghost predicate OffGrid(t0: int, t: int, step: nat) {
    forall k: nat :: GridTime(t0, k, step) != t
  }

  /** `t` falls after the observations `a` and before those in `b`. */
  predicate FallsBetween(a: seq<Observation>, t: int, b: seq<Observation>)
    requires a != []
  {
    LastTime(a) <= t && (b != [] ==> t <= b[0].time)
  }

  function Again(a: seq<Observation>, t: int): Observation
    requires a != []
  {
    a[|a| - 1].(time := t)
  }

  lemma {:induction false} RepeatIsInvisible(a: seq<Observation>, t: int, b: seq<Observation>, g: int)
    requires a != [] && Ordered(a + b) && FallsBetween(a, t, b) && g != t
    ensures var sparse, dense := HeldAt(a + b, g), HeldAt(a + [Again(a, t)] + b, g);
      sparse.mid == dense.mid && sparse.imbalance == dense.imbalance
  {
    var r := Again(a, t);
    if b == [] {
      assert a + b == a && a + [r] + b == a + [r] && (a + [r])[..|a|] == a;
      assert LastTime(a) < g ==> HeldAt(a, g) == a[|a| - 1];
    } else {
      var s, d, n := a + b, a + [r] + b, |a| + |b| - 1;
      var fewer := b[..|b| - 1];
      assert s[..n] == a + fewer && d[..n + 1] == a + [r] + fewer && s[n] == d[n + 1];
      RepeatIsInvisible(a, t, fewer, g);
      if fewer == [] {
        assert s[n - 1] == a[|a| - 1] && d[n] == r;
      } else {
        assert s[n - 1] == fewer[|fewer| - 1] == d[n];
      }
    }
  }

  /** Repeating the held observation strictly between grid points, anywhere in a
      gapless stream, changes no sample. */
  lemma RedundantMessagesDoNotMatter(a: seq<Observation>, t: int, b: seq<Observation>, samples: seq<Sample>, step: nat,
                                     maxGap: int)
    requires a != [] && Proper(a + b, maxGap)
    requires FallsBetween(a, t, b) && OffGrid(a[0].time, t, step)
    requires b == [] ==> t - LastTime(a) < maxGap && forall k: nat :: GridTime(a[0].time, k, step) <= t ==>
      GridTime(a[0].time, k, step) <= LastTime(a)
    ensures var dense := a + [Again(a, t)] + b;
      && SinceReset(a + b, maxGap) == a + b && SinceReset(dense, maxGap) == dense
      && (IsResampling(a + b, samples, step) <==> IsResampling(dense, samples, step))
  {
    var s, d := a + b, a + [Again(a, t)] + b;
    DenseIsContinuous(a, t, b, maxGap);
    ContinuousIsKept(s, maxGap);
    ContinuousIsKept(d, maxGap);
    assert s[0] == d[0] == a[0];
    forall k: nat
      ensures SampleAt(s, GridTime(a[0].time, k, step)) == SampleAt(d, GridTime(a[0].time, k, step))
    {
      RepeatIsInvisible(a, t, b, GridTime(a[0].time, k, step));
    }
    if b == [] {
      assert LastTime(s) == LastTime(a) && LastTime(d) == t;
    } else {
      assert LastTime(s) == LastTime(d) == LastTime(b);
    }
  }

  lemma DenseIsContinuous(a: seq<Observation>, t: int, b: seq<Observation>, maxGap: int)
    requires a != [] && Ordered(a + b) && Continuous(a + b, maxGap) && FallsBetween(a, t, b)
    requires b == [] ==> t - LastTime(a) < maxGap
    ensures var dense := a + [Again(a, t)] + b; Ordered(dense) && Continuous(dense, maxGap)
  {
    DenseIsOrdered(a, t, b);
    DenseHasNoGap(a, t, b, maxGap);
  }

  lemma DenseIsOrdered(a: seq<Observation>, t: int, b: seq<Observation>)
    requires a != [] && Ordered(a + b) && FallsBetween(a, t, b)
    ensures Ordered(a + [Again(a, t)] + b)
  {
    var s, d, n := a + b, a + [Again(a, t)] + b, |a|;
    forall i, j | 0 <= i < j < |d|
      ensures d[i].time <= d[j].time
    {
      assert i < n ==> d[i] == s[i] && s[i].time <= s[n - 1].time == LastTime(a);
      assert j > n ==> d[j] == s[j - 1] && s[j - 1].time >= s[n].time == b[0].time;
      assert i > n ==> d[i] == s[i - 1];
      assert j < n ==> d[j] == s[j];
    }
  }

  lemma DenseHasNoGap(a: seq<Observation>, t: int, b: seq<Observation>, maxGap: int)
    requires a != [] && Continuous(a + b, maxGap) && FallsBetween(a, t, b)
    requires b == [] ==> t - LastTime(a) < maxGap
    ensures Continuous(a + [Again(a, t)] + b, maxGap)
  {
    var s, d, n := a + b, a + [Again(a, t)] + b, |a|;
    forall i | 0 < i < |d|
      ensures d[i].time - d[i - 1].time < maxGap
    {
      if i < n {
        assert d[i] == s[i] && d[i - 1] == s[i - 1];
      } else if i > n + 1 {
        assert d[i] == s[i - 1] && d[i - 1] == s[i - 2];
      } else {
        assert s[n - 1] == a[n - 1] && (b != [] ==> s[n] == b[0]);
        assert b != [] ==> s[n].time - s[n - 1].time < maxGap;
        assert d[n].time == t && d[n - 1] == a[n - 1] && (b != [] ==> d[n + 1] == b[0]);
      }
    }
  }
}
