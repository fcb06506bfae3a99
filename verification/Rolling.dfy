// Rolling statistics: a ring buffer with running sums that must agree with
// recomputing everything from the last values pushed.
module Rolling {
  import opened Orders

  // --------------------------------------------------------- plain definitions

  function Sum(s: seq<real>): real {
    if s == [] then 0.0 else Sum(s[..|s| - 1]) + s[|s| - 1]
  }

  function Square(x: real): real {
    x * x
  }

  function SumSq(s: seq<real>): real {
    if s == [] then 0.0 else SumSq(s[..|s| - 1]) + Square(s[|s| - 1])
  }

  function Mean(s: seq<real>): real {
    if s == [] then 0.0 else Sum(s) / |s| as real
  }

  /** The sum of squared distances from `m`. */
  function Spread(s: seq<real>, m: real): real {
    if s == [] then 0.0 else Spread(s[..|s| - 1], m) + Square(s[|s| - 1] - m)
  }

  /** The population variance, as the mean squared distance from the mean. */
  function Variance(s: seq<real>): real {
    if |s| < 2 then 0.0 else Spread(s, Mean(s)) / |s| as real
  }

  /** The last `min(n, k)` of `s`. */
  function Last(s: seq<real>, k: nat): (r: seq<real>)
    ensures |r| <= k
  {
    if |s| <= k then s else s[|s| - k..]
  }

  datatype Op = Push(value: real) | Clear

  /** Window contents after a history of pushes and clears. */
  function Window(ops: seq<Op>, capacity: nat): seq<real> {
    if ops == [] then []
    else match ops[|ops| - 1]
      case Clear => []
      case Push(v) => Last(Window(ops[..|ops| - 1], capacity) + [v], capacity)
  }

  function PushedSinceClear(ops: seq<Op>): seq<real> {
    if ops == [] then []
    else match ops[|ops| - 1]
      case Clear => []
      case Push(v) => PushedSinceClear(ops[..|ops| - 1]) + [v]
  }

  /** The window is always the last `min(n, capacity)` values pushed since the
      last clear. */
  lemma {:induction false} WindowIsLastPushed(ops: seq<Op>, capacity: nat)
    ensures Window(ops, capacity) == Last(PushedSinceClear(ops), capacity)
  {
    if ops != [] {
      WindowIsLastPushed(ops[..|ops| - 1], capacity);
    }
  }

  lemma {:induction false} SumsFromTheFront(s: seq<real>)
    requires s != []
    ensures Sum(s) == s[0] + Sum(s[1..]) && SumSq(s) == Square(s[0]) + SumSq(s[1..])
  {
    var n := |s| - 1;
    if n > 0 {
      SumsFromTheFront(s[..n]);
      assert s[..n][1..] == s[1..][..n - 1];
    }
  }

  lemma SumsToTheBack(s: seq<real>, v: real)
    ensures Sum(s + [v]) == Sum(s) + v && SumSq(s + [v]) == SumSq(s) + Square(v)
  {
    assert (s + [v])[..|s|] == s;
  }

  /** Add the newest, subtract the overwritten: the constant-time update. */
  lemma SlideSums(s: seq<real>, v: real, capacity: nat)
    requires |s| <= capacity && capacity > 0
    ensures var r := Last(s + [v], capacity);
      && Sum(r) == Sum(s) + v - (if |s| == capacity then s[0] else 0.0)
      && SumSq(r) == SumSq(s) + Square(v) - (if |s| == capacity then Square(s[0]) else 0.0)
  {
    hide Sum, SumSq, Square;
    var t := s + [v];
    SumsToTheBack(s, v);
    if |s| == capacity {
      SumsFromTheFront(t);
      assert Last(t, capacity) == t[1..];
      assert t[0] == s[0];
    } else {
      assert Last(t, capacity) == t;
    }
  }

  lemma SquareIsNotNegative(x: real)
    ensures Square(x) >= 0.0
  {
  }

  lemma ExpandSquare(spread: real, sumSq: real, sum: real, n: real, m: real, x: real)
    requires spread == sumSq - 2.0 * m * sum + n * m * m
    ensures spread + Square(x - m) == sumSq + Square(x) - 2.0 * m * (sum + x) + (n + 1.0) * m * m
  {
    assert Square(x - m) == Square(x) - 2.0 * m * x + m * m;
  }

  lemma {:induction false} SpreadExpands(s: seq<real>, m: real)
    ensures Spread(s, m) == SumSq(s) - 2.0 * m * Sum(s) + |s| as real * m * m
    ensures Spread(s, m) >= 0.0
  {
    hide Square;
    if s != [] {
      var n, x := |s| - 1, s[|s| - 1];
      SpreadExpands(s[..n], m);
      SquareIsNotNegative(x - m);
      ExpandSquare(Spread(s[..n], m), SumSq(s[..n]), Sum(s[..n]), n as real, m, x);
      assert |s| as real == n as real + 1.0;
    }
  }

  lemma DivideThrough(spread: real, sumSq: real, sum: real, n: real, m: real)
    requires n > 0.0 && m == sum / n
    requires spread == sumSq - 2.0 * m * sum + n * m * m
    ensures spread / n == sumSq / n - m * m
  {
    assert sum == n * m;
    assert m * sum == n * m * m;
    assert spread == sumSq - n * (m * m);
    assert n * (m * m) / n == m * m;
  }

  /** The mean of the squares less the square of the mean is the variance, and so
      never negative: clamping it at zero changes nothing. */
  lemma MomentsGiveVariance(s: seq<real>)
    requires |s| >= 2
    ensures var n := |s| as real;
      && SumSq(s) / n - Mean(s) * Mean(s) == Variance(s)
      && Variance(s) >= 0.0
      && Max(SumSq(s) / n - Mean(s) * Mean(s), 0.0) == Variance(s)
  {
    hide Spread, SumSq, Sum;
    SpreadExpands(s, Mean(s));
    DivideThrough(Spread(s, Mean(s)), SumSq(s), Sum(s), |s| as real, Mean(s));
  }

  // ------------------------------------------------------------- ring buffer

  /** The place `i` steps after `start` in a ring of `capacity` places. */
  function Step(start: nat, i: nat, capacity: nat): (r: nat)
    requires start < capacity && i <= capacity
    ensures r < capacity
    ensures r == (start + i) % capacity
  {
    WrapOnce(start + i, capacity);
    if start + i < capacity then start + i else start + i - capacity
  }

  lemma WrapOnce(n: nat, capacity: nat)
    requires n < 2 * capacity
    ensures n % capacity == if n < capacity then n else n - capacity
  {
  }

  lemma RemainderIs(n: int, q: int, r: nat, capacity: nat)
    requires r < capacity && n == q * capacity + r
    ensures n % capacity == r
  {
    var d := n / capacity - q;
    assert d * capacity == r - n % capacity;
    assert d >= 1 ==> d * capacity >= capacity;
    assert d <= -1 ==> d * capacity + capacity <= 0;
  }

  /** Moving a write position that has gone round `writePos / capacity` times. */
  lemma PlaceAfter(writePos: nat, i: nat, capacity: nat)
    requires capacity > 0 && i <= capacity
    ensures writePos % capacity < capacity
    ensures (writePos + i) % capacity == Step(writePos % capacity, i, capacity)
  {
    var q, start := writePos / capacity, writePos % capacity;
    var r := Step(start, i, capacity);
    assert writePos == q * capacity + start;
    if start + i < capacity {
      RemainderIs(writePos + i, q, r, capacity);
    } else {
      assert (q + 1) * capacity == q * capacity + capacity;
      RemainderIs(writePos + i, q + 1, r, capacity);
    }
  }

  function Ring(buffer: seq<real>, start: nat, count: nat): (r: seq<real>)
    requires start < |buffer| && count <= |buffer|
    ensures |r| == count
    ensures forall i :: 0 <= i < count ==> r[i] == buffer[Step(start, i, |buffer|)]
  {
    seq(count, i requires 0 <= i < count => buffer[Step(start, i, |buffer|)])
  }

  /** Overwriting the oldest place and starting one further on. */
  lemma FullRingSlides(buffer: seq<real>, start: nat, value: real)
    requires start < |buffer|
    ensures var n := |buffer|;
      Ring(buffer[start := value], Step(start, 1, n), n) == Last(Ring(buffer, start, n) + [value], n)
  {
    var n := |buffer|;
    var s, t := Ring(buffer[start := value], Step(start, 1, n), n), Last(Ring(buffer, start, n) + [value], n);
    forall i | 0 <= i < n
      ensures s[i] == t[i]
    {
      if i < n - 1 {
        assert t[i] == Ring(buffer, start, n)[i + 1];
        assert Step(Step(start, 1, n), i, n) == Step(start, i + 1, n) != start;
      } else {
        assert Step(Step(start, 1, n), i, n) == start;
      }
    }
  }

  lemma RingGrows(buffer: seq<real>, count: nat, value: real)
    requires count < |buffer|
    ensures Ring(buffer[count := value], 0, count + 1) == Last(Ring(buffer, 0, count) + [value], |buffer|)
  {
  }

  class RollingWindow {
    const buffer: array<real>
    var writePos: nat
    var count: nat

    ghost predicate Valid()
      reads this
    {
      && buffer.Length > 0
      && count <= buffer.Length
      && (count < buffer.Length ==> writePos == count)
    }

    function Start(): (r: nat)
      requires Valid()
      reads this
      ensures r < buffer.Length
    {
      if count >= buffer.Length then writePos % buffer.Length else 0
    }

    /** The values from oldest to newest. */
    function Contents(): (r: seq<real>)
      requires Valid()
      reads this, buffer
      ensures |r| == count
    {
      Ring(buffer[..], Start(), count)
    }

    constructor (capacity: nat)
      requires capacity > 0
      ensures Valid() && fresh(buffer) && buffer.Length == capacity && Contents() == []
    {
      buffer := new real[capacity](_ => 0.0);
      writePos, count := 0, 0;
    }

    method Push(value: real) returns (oldValue: Option<real>)
      requires Valid()
      modifies this, buffer
      ensures Valid()
      ensures Contents() == Last(old(Contents()) + [value], buffer.Length)
      ensures count == |Contents()| > 0
      ensures oldValue == if old(count) == buffer.Length then Some(old(Contents())[0]) else None
    {
      var idx := writePos % buffer.Length;
      PlaceAfter(writePos, 1, buffer.Length);
      ghost var before, start, had := buffer[..], Start(), count;
      oldValue := if count >= buffer.Length then Some(buffer[idx]) else None;
      buffer[idx] := value;
      assert buffer[..] == before[idx := value];
      writePos := writePos + 1;
      if count < buffer.Length {
        count := count + 1;
      }
      if had == buffer.Length {
        FullRingSlides(before, start, value);
      } else {
        RingGrows(before, had, value);
        WrapOnce(had, buffer.Length);
        WrapOnce(had + 1, buffer.Length);
      }
    }

    function Latest(): (r: Option<real>)
      requires Valid()
      reads this, buffer
      ensures r == if count == 0 then None else Some(Contents()[count - 1])
    {
      if count == 0 then None
      else
        LastWritten();
        Some(buffer[(writePos + buffer.Length - 1) % buffer.Length])
    }

    lemma LastWritten()
      requires Valid() && count > 0
      ensures (writePos + buffer.Length - 1) % buffer.Length == Step(Start(), count - 1, buffer.Length)
    {
      PlaceAfter(writePos, buffer.Length - 1, buffer.Length);
      if count < buffer.Length {
        WrapOnce(writePos, buffer.Length);
      }
    }

    method Clear()
      requires Valid()
      modifies `writePos, `count
      ensures Valid() && Contents() == []
    {
      writePos := 0;
      count := 0;
    }
  }

  class RollingStats {
    const window: RollingWindow
    var sum: real
    var sumSq: real
    var cachedMean: real
    var cachedVariance: real
    ghost const Repr: set<object>

    /** Running and cached figures agree with recomputation from the window. */
    ghost predicate Valid()
      reads this, Repr
    {
      && Repr == {this, window, window.buffer}
      && window.Valid()
      && sum == Sum(window.Contents())
      && sumSq == SumSq(window.Contents())
      && cachedMean == Mean(window.Contents())
      && cachedVariance == Variance(window.Contents())
    }

    ghost function Contents(): seq<real>
      requires Valid()
      reads Repr
    {
      window.Contents()
    }

    constructor (capacity: nat)
      requires capacity > 0
      ensures Valid() && fresh(Repr)
      ensures window.buffer.Length == capacity && Contents() == []
    {
      var w := new RollingWindow(capacity);
      window := w;
      sum, sumSq, cachedMean, cachedVariance := 0.0, 0.0, 0.0, 0.0;
      Repr := {this, w, w.buffer};
    }

    method Push(value: real)
      requires Valid()
      modifies Repr
      ensures Valid()
      ensures Contents() == Last(old(Contents()) + [value], window.buffer.Length)
    {
      hide Sum, SumSq, Square, Mean, Variance, Last;
      ghost var before := Contents();
      SlideSums(before, value, window.buffer.Length);
      var oldValue := window.Push(value);
      var wrapped := window.count >= window.buffer.Length && window.writePos % window.buffer.Length == 0;
      if wrapped {
        sum, sumSq := Rebuild(window.Contents());
      } else {
        sum := sum + value;
        sumSq := sumSq + Square(value);
        if oldValue.Some? {
          sum := sum - oldValue.value;
          sumSq := sumSq - Square(oldValue.value);
        }
      }
      Refresh();
    }

    method Refresh()
      requires Repr == {this, window, window.buffer}
      requires window.Valid() && window.count > 0
      requires sum == Sum(window.Contents()) && sumSq == SumSq(window.Contents())
      modifies `cachedMean, `cachedVariance
      ensures Valid()
    {
      hide Sum, SumSq, Spread, Square, Ring, Step;
      var n := window.count;
      if n >= 2 {
        MomentsGiveVariance(window.Contents());
        cachedMean := sum / n as real;
        var meanSq := sumSq / n as real;
        cachedVariance := Max(meanSq - cachedMean * cachedMean, 0.0);
      } else if n == 1 {
        cachedMean := sum;
        cachedVariance := 0.0;
      }
    }

    /** The mean, straight from the running sum. */
    function CurrentMean(): (r: real)
      requires Valid()
      reads Repr
      ensures r == Mean(Contents()) == cachedMean
    {
      if window.count == 0 then 0.0 else sum / window.count as real
    }

    /** The variance, straight from the running sums. */
    method CurrentVariance() returns (r: real)
      requires Valid()
      ensures r == Variance(Contents()) == cachedVariance && r >= 0.0
    {
      var n := window.count;
      if n < 2 {
        return 0.0;
      }
      MomentsGiveVariance(window.Contents());
      var mean := sum / n as real;
      var meanSq := sumSq / n as real;
      return Max(meanSq - mean * mean, 0.0);
    }

    /** The score against the cached figures; `std` is the cached variance's square
        root, whose computation is not part of this model. */
    method Zscore(value: real, std: real) returns (z: real)
      requires Valid()
      requires std >= 0.0 && Square(std) == cachedVariance
      ensures std < TINY ==> z == 0.0
      ensures std >= TINY ==> Square(z) * Variance(Contents()) == Square(value - Mean(Contents()))
      ensures std >= TINY ==> (z > 0.0 <==> value > Mean(Contents())) && (z < 0.0 <==> value < Mean(Contents()))
    {
      if std < TINY {
        return 0.0;
      }
      z := (value - cachedMean) / std;
      assert z * std == value - cachedMean;
      assert Square(z) * Square(std) == Square(z * std);
    }

    method Clear()
      requires Valid()
      modifies Repr
      ensures Valid() && Contents() == []
    {
      window.Clear();
      sum, sumSq, cachedMean, cachedVariance := 0.0, 0.0, 0.0, 0.0;
    }
  }

  const TINY := 0.0000000001

  method Rebuild(values: seq<real>) returns (sum: real, sumSq: real)
    ensures sum == Sum(values) && sumSq == SumSq(values)
  {
    sum, sumSq := 0.0, 0.0;
    for i := 0 to |values|
      invariant sum == Sum(values[..i]) && sumSq == SumSq(values[..i])
    {
      assert values[..i + 1][..i] == values[..i];
      sum, sumSq := sum + values[i], sumSq + Square(values[i]);
    }
    assert values[..|values|] == values;
  }
}
