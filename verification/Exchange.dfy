// The exchange as the bot's environment: new orders on the wire, open orders,
// and the log of fills from which the true position follows.
module Exchange {
  import opened Orders
  import opened ManagerModel

  datatype Fill = Fill(order: Order, qty: real)

  /** `accepted` and `rejected` record decisions; `wire` holds writes not yet
      decided; `ids` holds the number the exchange gave each accepted order. */
  datatype Exchange = Exchange(
    wire: set<Order>, open: set<Order>, accepted: set<Order>, rejected: set<Order>, ids: map<Order, int>,
    log: seq<Fill>, base: real)

  function Filled(log: seq<Fill>, o: Order): real {
    if log == [] then 0.0
    else
      var last := log[|log| - 1];
      Filled(log[..|log| - 1], o) + (if last.order == o then last.qty else 0.0)
  }

  function Remaining(log: seq<Fill>, o: Order): real {
    o.qty - Filled(log, o)
  }

  function Position(base: real, log: seq<Fill>): real {
    if log == [] then base
    else
      var last := log[|log| - 1];
      Position(base, log[..|log| - 1]) + Sign(last.order.side) * last.qty
  }

  datatype Step =
    | Accept(order: Order, number: int)
    | Refuse(order: Order)
    | Lose(order: Order)
    | Trade(order: Order, qty: real)
    | Close(order: Order)

  predicate Enabled(x: Exchange, step: Step) {
    match step
    case Accept(o, number) => o in x.wire && number != 0 && number !in x.ids.Values
    case Refuse(o) => o in x.wire
    case Lose(o) => o in x.wire
    case Trade(o, qty) => o in x.open && 0.0 < qty <= Remaining(x.log, o)
    case Close(o) => o in x.open
  }

  /** A write is decided or never arrives; an open order trades until nothing
      remains, or is closed by a cancel or by the exchange itself. */
  function Apply(x: Exchange, step: Step): Exchange
    requires Enabled(x, step)
  {
    match step
    case Accept(o, number) =>
      x.(wire := x.wire - {o}, open := x.open + {o}, accepted := x.accepted + {o}, ids := x.ids[o := number])
    case Refuse(o) => x.(wire := x.wire - {o}, rejected := x.rejected + {o})
    case Lose(o) => x.(wire := x.wire - {o})
    case Trade(o, qty) =>
      x.(log := x.log + [Fill(o, qty)],
         open := if qty == Remaining(x.log, o) then x.open - {o} else x.open)
    case Close(o) => x.(open := x.open - {o})
  }

  ghost predicate Sane(x: Exchange) {
    && x.wire !! x.accepted && x.wire !! x.rejected && x.accepted !! x.rejected
    && x.open <= x.accepted
    && (forall i :: 0 <= i < |x.log| ==> x.log[i].order in x.accepted && x.log[i].qty > 0.0)
    && (forall o :: o in x.wire + x.accepted ==> o.qty > 0.0)
    && (forall o :: o in x.accepted ==> Filled(x.log, o) <= o.qty)
    && x.ids.Keys == x.accepted
    && (forall o :: o in x.ids ==> x.ids[o] != 0)
    && (forall o, p :: o in x.ids && p in x.ids && x.ids[o] == x.ids[p] ==> o == p)
  }

  lemma FilledAppend(log: seq<Fill>, f: Fill, o: Order)
    ensures Filled(log + [f], o) == Filled(log, o) + (if f.order == o then f.qty else 0.0)
  {
    assert (log + [f])[..|log|] == log;
  }

  lemma {:induction false} FilledNever(log: seq<Fill>, o: Order)
    requires forall i :: 0 <= i < |log| ==> log[i].order != o
    ensures Filled(log, o) == 0.0
  {
    if log != [] {
      FilledNever(log[..|log| - 1], o);
    }
  }

  lemma {:induction false} FilledGrows(log: seq<Fill>, o: Order, n: nat)
    requires n <= |log| && forall i :: 0 <= i < |log| ==> log[i].qty > 0.0
    ensures 0.0 <= Filled(log[..n], o) <= Filled(log, o)
  {
    if n < |log| {
      FilledGrows(log[..|log| - 1], o, n);
      assert log[..|log| - 1][..n] == log[..n];
    } else {
      assert log[..n] == log;
      if n > 0 {
        FilledGrows(log[..n - 1], o, n - 1);
        assert log[..n - 1][..n - 1] == log[..n - 1];
      }
    }
  }

  lemma {:induction false} SaneStep(x: Exchange, step: Step)
    requires Sane(x) && Enabled(x, step)
    ensures Sane(Apply(x, step))
  {
    var y := Apply(x, step);
    match step {
      case Trade(o, qty) =>
        forall p | p in y.accepted
          ensures Filled(y.log, p) <= p.qty
        {
          FilledAppend(x.log, Fill(o, qty), p);
        }
      case Accept(o, number) =>
        FilledNever(x.log, o);
        forall p | p in x.ids
          ensures x.ids[p] != number
        {
          assert x.ids[p] in x.ids.Values;
        }
      case _ =>
    }
  }

  // ---------------------------------------------------------------- exposure

  function LiveMark(log: seq<Fill>, o: Order, side: Side, mid: real): real {
    if o.side == side then Remaining(log, o) * Max(o.price, mid) else 0.0
  }

  /** What a set of orders may still add on one side, each at max(price, mid). */
  ghost function LiveMarks(live: set<Order>, log: seq<Fill>, side: Side, mid: real): real {
    if live == {} then 0.0
    else
      var o :| o in live;
      LiveMark(log, o, side, mid) + LiveMarks(live - {o}, log, side, mid)
  }

  /** The true exposure: the position the exchange holds, plus everything that can still trade. */
  ghost function TrueExposure(x: Exchange, live: set<Order>, side: Side, mid: real): real {
    Sign(side) * Position(x.base, x.log) * mid + LiveMarks(live, x.log, side, mid)
  }

  /** How much of a slot's order filled after the first `n` fills. */
  function Unseen(slot: Option<LiveOrder>, log: seq<Fill>, n: nat): real
    requires n <= |log|
  {
    if slot.Some? then Filled(log, slot.value.ord) - Filled(log[..n], slot.value.ord) else 0.0
  }

  function LiveIn(slot: Option<LiveOrder>, live: set<Order>, log: seq<Fill>, mid: real): real {
    if slot.Some? && slot.value.ord in live then Remaining(log, slot.value.ord) * Max(slot.value.ord.price, mid)
      else 0.0
  }

  predicate Holds(slot: Option<LiveOrder>, o: Order) {
    slot.Some? && slot.value.ord == o
  }

  /** The position cannot have drifted further than the unseen fills of the two
      slots when every later fill on this side belongs to one of them. */
  lemma {:induction false} DriftIsUnseen(base: real, log: seq<Fill>, n: nat, side: Side, slots: Slots)
    requires n <= |log| && (forall i :: 0 <= i < |log| ==> log[i].qty > 0.0)
    requires forall i :: n <= i < |log| && log[i].order.side == side ==>
      Holds(slots[0], log[i].order) || Holds(slots[1], log[i].order)
    ensures Sign(side) * (Position(base, log) - Position(base, log[..n]))
      <= Unseen(slots[0], log, n) + Unseen(slots[1], log, n)
  {
    if |log| == n {
      assert log[..n] == log;
    } else {
      var shorter := log[..|log| - 1];
      assert shorter[..n] == log[..n];
      DriftIsUnseen(base, shorter, n, side, slots);
    }
  }

  lemma OtherSide(log: seq<Fill>, o: Order, side: Side, mid: real)
    ensures o.side != side ==> LiveMark(log, o, side, mid) == 0.0
  {
  }

  lemma NothingLive(slot: Option<LiveOrder>, log: seq<Fill>, mid: real)
    ensures LiveIn(slot, {}, log, mid) == 0.0
  {
  }

  lemma LiveInRemove(slot: Option<LiveOrder>, live: set<Order>, log: seq<Fill>, side: Side, mid: real, o: Order)
    requires o in live && (slot.Some? ==> slot.value.ord.side == side)
    ensures LiveIn(slot, live, log, mid) == LiveIn(slot, live - {o}, log, mid)
      + (if Holds(slot, o) then LiveMark(log, o, side, mid) else 0.0)
  {
  }

  /** Orders that can still trade on this side all sit in its two slots. */
  lemma {:induction false} LiveMarksInSlots(live: set<Order>, log: seq<Fill>, side: Side, mid: real, slots: Slots)
    requires forall o :: o in live && o.side == side ==> Holds(slots[0], o) || Holds(slots[1], o)
    requires slots[0].Some? ==> LiveMark(log, slots[0].value.ord, side, mid) >= 0.0
    requires slots[1].Some? ==> LiveMark(log, slots[1].value.ord, side, mid) >= 0.0
    requires (slots[0].Some? ==> slots[0].value.ord.side == side)
    requires (slots[1].Some? ==> slots[1].value.ord.side == side)
    ensures LiveMarks(live, log, side, mid) <= LiveIn(slots[0], live, log, mid) + LiveIn(slots[1], live, log, mid)
    decreases live
  {
    hide LiveMark, LiveIn;
    if live == {} {
      NothingLive(slots[0], log, mid);
      NothingLive(slots[1], log, mid);
    } else {
      var o :| o in live
        && LiveMarks(live, log, side, mid) == LiveMark(log, o, side, mid) + LiveMarks(live - {o}, log, side, mid);
      LiveMarksInSlots(live - {o}, log, side, mid, slots);
      LiveInRemove(slots[0], live, log, side, mid, o);
      LiveInRemove(slots[1], live, log, side, mid, o);
      OtherSide(log, o, side, mid);
      assert Holds(slots[0], o) || Holds(slots[1], o) || o.side != side;
      assert forall p :: p in live - {o} ==> p in live;
    }
  }

  lemma Scale(a: real, b: real, k: real)
    requires a <= b && k >= 0.0
    ensures a * k <= b * k
  {
  }

  lemma TopAbove(price: real, mid: real)
    ensures mid <= Max(price, mid)
  {
  }

  lemma Covers(unseen: real, remaining: real, qty: real, mid: real, top: real, live: bool)
    requires unseen >= 0.0 && remaining >= 0.0 && unseen + remaining <= qty && 0.0 < mid <= top
    ensures unseen * mid + (if live then remaining * top else 0.0) <= qty * top
  {
    ScaleUp(unseen, mid, top);
    Scale(0.0, remaining, top);
    Scale(unseen + remaining, qty, top);
    assert (unseen + remaining) * top == unseen * top + remaining * top;
  }

  /** A slot reserves enough for its order's unseen fills and for its remainder together. */
  lemma SlotCovers(slot: Option<LiveOrder>, live: set<Order>, log: seq<Fill>, n: nat, mid: real)
    requires n <= |log| && (forall i :: 0 <= i < |log| ==> log[i].qty > 0.0) && mid > 0.0
    requires slot.Some? ==> Filled(log, slot.value.ord) <= slot.value.ord.qty
    ensures Unseen(slot, log, n) * mid + LiveIn(slot, live, log, mid) <= Mark(slot, mid)
  {
    hide Filled, Max;
    if slot.Some? {
      var o := slot.value.ord;
      FilledGrows(log, o, n);
      TopAbove(o.price, mid);
      Covers(Unseen(slot, log, n), Remaining(log, o), o.qty, mid, Max(o.price, mid), o in live);
    }
  }

  lemma ScaleUp(a: real, j: real, k: real)
    requires a >= 0.0 && j <= k
    ensures a * j <= a * k
  {
  }

  lemma DriftScaled(sign: real, now: real, was: real, drift: real, mid: real)
    requires sign * (now - was) <= drift && mid > 0.0
    ensures sign * now * mid <= sign * was * mid + drift * mid
  {
    Scale(sign * (now - was), drift, mid);
    assert sign * (now - was) * mid == sign * now * mid - sign * was * mid;
  }

  lemma AddUp(p: real, was: real, live: real, u0: real, u1: real, mid: real, l0: real, l1: real, m0: real, m1: real)
    requires p <= was + (u0 + u1) * mid
    requires live <= l0 + l1
    requires u0 * mid + l0 <= m0 && u1 * mid + l1 <= m1
    ensures p + live <= was + (m0 + m1)
  {
    assert (u0 + u1) * mid == u0 * mid + u1 * mid;
  }

  /** The arithmetic heart of the exposure bound: a position read `n` fills into
      the log, plus one side's slots in full, covers the true exposure now. */
  lemma EstimateCoversTruth(x: Exchange, live: set<Order>, n: nat, side: Side, mid: real, slots: Slots)
    requires n <= |x.log| && (forall i :: 0 <= i < |x.log| ==> x.log[i].qty > 0.0) && mid > 0.0
    requires forall i :: n <= i < |x.log| && x.log[i].order.side == side ==>
      Holds(slots[0], x.log[i].order) || Holds(slots[1], x.log[i].order)
    requires forall o :: o in live && o.side == side ==> Holds(slots[0], o) || Holds(slots[1], o)
    requires forall k :: 0 <= k < 2 && slots[k].Some? ==>
      slots[k].value.ord.side == side && Filled(x.log, slots[k].value.ord) <= slots[k].value.ord.qty
    ensures TrueExposure(x, live, side, mid) <= Sign(side) * Position(x.base, x.log[..n]) * mid + SideMarks(slots, mid)
  {
    hide Position, Filled, LiveMarks, Unseen, LiveIn, Mark, LiveMark;
    DriftIsUnseen(x.base, x.log, n, side, slots);
    var u0, u1 := Unseen(slots[0], x.log, n), Unseen(slots[1], x.log, n);
    DriftScaled(Sign(side), Position(x.base, x.log), Position(x.base, x.log[..n]), u0 + u1, mid);
    LiveMarkNonNegative(slots[0], x.log, side, mid);
    LiveMarkNonNegative(slots[1], x.log, side, mid);
    LiveMarksInSlots(live, x.log, side, mid, slots);
    SlotCovers(slots[0], live, x.log, n, mid);
    SlotCovers(slots[1], live, x.log, n, mid);
    AddUp(Sign(side) * Position(x.base, x.log) * mid, Sign(side) * Position(x.base, x.log[..n]) * mid,
          LiveMarks(live, x.log, side, mid), u0, u1, mid,
          LiveIn(slots[0], live, x.log, mid), LiveIn(slots[1], live, x.log, mid),
          Mark(slots[0], mid), Mark(slots[1], mid));
  }

  lemma LiveMarkNonNegative(slot: Option<LiveOrder>, log: seq<Fill>, side: Side, mid: real)
    requires mid > 0.0 && (slot.Some? ==> Filled(log, slot.value.ord) <= slot.value.ord.qty)
    ensures slot.Some? ==> LiveMark(log, slot.value.ord, side, mid) >= 0.0
  {
    if slot.Some? {
      Scale(0.0, Remaining(log, slot.value.ord), Max(slot.value.ord.price, mid));
    }
  }

  // ------------------------------------------------- between two quotes

  lemma {:induction false} LiveMarksPick(live: set<Order>, log: seq<Fill>, side: Side, mid: real, o: Order)
    requires o in live
    ensures LiveMarks(live, log, side, mid) == LiveMark(log, o, side, mid) + LiveMarks(live - {o}, log, side, mid)
    decreases live
  {
    hide LiveMark;
    var p :| p in live
      && LiveMarks(live, log, side, mid) == LiveMark(log, p, side, mid) + LiveMarks(live - {p}, log, side, mid);
    if p != o {
      LiveMarksPick(live - {p}, log, side, mid, o);
      LiveMarksPick(live - {o}, log, side, mid, p);
      assert live - {p} - {o} == live - {o} - {p};
    }
  }

  /** No order has traded more than its quantity. */
  predicate WithinQuantity(live: set<Order>, log: seq<Fill>) {
    forall o :: o in live ==> Filled(log, o) <= o.qty
  }

  lemma MarkNonNegative(log: seq<Fill>, o: Order, side: Side, mid: real)
    requires Filled(log, o) <= o.qty && mid > 0.0
    ensures LiveMark(log, o, side, mid) >= 0.0
  {
    hide Filled;
    Scale(0.0, Remaining(log, o), Max(o.price, mid));
  }

  lemma {:induction false} LiveMarksShrink(fewer: set<Order>, live: set<Order>, log: seq<Fill>, side: Side, mid: real)
    requires fewer <= live && WithinQuantity(live, log) && mid > 0.0
    ensures LiveMarks(fewer, log, side, mid) <= LiveMarks(live, log, side, mid)
    decreases live
  {
    hide LiveMark, Filled;
    if live != {} {
      var o :| o in live;
      LiveMarksPick(live, log, side, mid, o);
      MarkNonNegative(log, o, side, mid);
      if o in fewer {
        LiveMarksPick(fewer, log, side, mid, o);
      }
      LiveMarksShrink(fewer - {o}, live - {o}, log, side, mid);
      assert o !in fewer ==> fewer - {o} == fewer;
    }
  }

  lemma MarkUntouched(log: seq<Fill>, f: Fill, o: Order, side: Side, mid: real)
    requires f.order != o
    ensures LiveMark(log + [f], o, side, mid) == LiveMark(log, o, side, mid)
  {
    FilledAppend(log, f, o);
    hide Filled, Max;
  }

  lemma {:induction false} OthersUntouched(live: set<Order>, log: seq<Fill>, f: Fill, side: Side, mid: real)
    requires f.order !in live
    ensures LiveMarks(live, log + [f], side, mid) == LiveMarks(live, log, side, mid)
    decreases live
  {
    hide LiveMark;
    if live != {} {
      var o :| o in live;
      LiveMarksPick(live, log, side, mid, o);
      LiveMarksPick(live, log + [f], side, mid, o);
      MarkUntouched(log, f, o, side, mid);
      OthersUntouched(live - {o}, log, f, side, mid);
    }
  }

  lemma LessRemains(price: real, qty: real, filled: real, more: real, mid: real)
    requires more > 0.0 && mid > 0.0
    ensures (qty - (filled + more)) * Max(price, mid) + more * mid <= (qty - filled) * Max(price, mid)
  {
    TopAbove(price, mid);
    var top := Max(price, mid);
    ScaleUp(more, mid, top);
    assert (qty - (filled + more)) * top == (qty - filled) * top - more * top;
  }

  lemma TradeMovesMark(log: seq<Fill>, o: Order, qty: real, side: Side, mid: real)
    requires qty > 0.0 && mid > 0.0
    ensures LiveMark(log + [Fill(o, qty)], o, side, mid)
      + Sign(side) * Sign(o.side) * qty * mid <= LiveMark(log, o, side, mid)
  {
    FilledAppend(log, Fill(o, qty), o);
    hide Filled, Max;
    if o.side == side {
      LessRemains(o.price, o.qty, Filled(log, o), qty, mid);
    } else {
      Scale(0.0, qty, mid);
    }
  }

  lemma PositionAppend(base: real, log: seq<Fill>, f: Fill)
    ensures Position(base, log + [f]) == Position(base, log) + Sign(f.order.side) * f.qty
  {
    assert (log + [f])[..|log|] == log;
  }

  lemma PositionMoves(x: Exchange, f: Fill, side: Side, mid: real)
    ensures Sign(side) * Position(x.base, x.log + [f]) * mid
      == Sign(side) * Position(x.base, x.log) * mid + Sign(side) * Sign(f.order.side) * f.qty * mid
  {
    PositionAppend(x.base, x.log, f);
    hide Position;
  }

  lemma Balances(was: real, now: real, moved: real, mark: real, mark1: real, rest: real)
    requires now == was + moved && mark1 + moved <= mark
    ensures now + (mark1 + rest) <= was + (mark + rest)
  {
  }

  /** A trade moves what an order could add into the position; what is then
      counted at mid was counted at max(price, mid) before. */
  lemma TradeNeverAdds(x: Exchange, live: set<Order>, o: Order, qty: real, side: Side, mid: real)
    requires o in live && qty > 0.0 && mid > 0.0
    ensures TrueExposure(x.(log := x.log + [Fill(o, qty)]), live, side, mid) <= TrueExposure(x, live, side, mid)
  {
    hide Position, LiveMarks, LiveMark, Filled, Sign;
    var f := Fill(o, qty);
    var log := x.log + [f];
    LiveMarksPick(live, x.log, side, mid, o);
    LiveMarksPick(live, log, side, mid, o);
    OthersUntouched(live - {o}, x.log, f, side, mid);
    TradeMovesMark(x.log, o, qty, side, mid);
    PositionMoves(x, f, side, mid);
    Balances(Sign(side) * Position(x.base, x.log) * mid, Sign(side) * Position(x.base, log) * mid,
             Sign(side) * Sign(o.side) * qty * mid,
             LiveMark(x.log, o, side, mid), LiveMark(log, o, side, mid), LiveMarks(live - {o}, x.log, side, mid));
  }
}
