// The quoting loop: what it keeps, what it sends, and the exposure it reserves.
module Reservation {
  import opened Orders
  import opened ExecutionState
  import opened ManagerModel
  import opened ManagerInvariants

  // ------------------------------------------------------------ order sizing

  function Lots(count: int, lot: real): real {
    count as real * lot
  }

  /** A whole number of lots, within the minimums and the per-order cap. */
  ghost predicate WellSized(c: Config, price: real, qty: real) {
    && (exists count: int :: qty == Lots(count, c.lot))
    && qty > 0.0 && price > 0.0
    && qty >= c.minQty && qty * price >= c.minNotional
    && (c.orderCap.Some? ==> qty * price <= c.orderCap.value)
  }

  lemma RoundingNeverGrows(x: real, lot: real)
    requires lot > 0.0
    ensures RoundToLot(x, lot) <= x
  {
    var f := (x / lot).Floor as real;
    assert f <= x / lot;
    assert f * lot <= (x / lot) * lot;
  }

  lemma DivideThenScale(a: real, b: real, x: real)
    requires b > 0.0 && x <= a / b
    ensures x * b <= a
  {
    assert x * b <= (a / b) * b;
  }

  lemma QuoteQtyFits(c: Config, wanted: real, price: real, mid: real, budget: real)
    requires Configured(c) && price > 0.0 && mid > 0.0 && budget >= 0.0
    ensures var qty := QuoteQty(c, wanted, price, mid, budget);
      && qty >= 0.0
      && qty * Max(price, mid) <= budget
      && qty <= Max(wanted, 0.0)
      && (qty > 0.0 ==> WellSized(c, price, qty))
  {
    var marked := Max(price, mid);
    var affordable := Min(wanted, budget / marked);
    var capped := if c.orderCap.Some? then Min(affordable, c.orderCap.value / price) else affordable;
    var rounded := RoundToLot(capped, c.lot);
    RoundingNeverGrows(capped, c.lot);
    DivideThenScale(budget, marked, rounded);
    if c.orderCap.Some? {
      DivideThenScale(c.orderCap.value, price, rounded);
    }
    if rounded <= 0.0 {
      assert rounded * price <= 0.0;
    } else {
      assert rounded == Lots((capped / c.lot).Floor, c.lot);
    }
  }

  // ------------------------------------------------------------- composition

  function SetOf(orders: seq<Order>): set<Order> {
    set o | o in orders
  }

  /** What quoting part of one side does to the slots. */
  ghost predicate QuotedSlots(m: Manager, m1: Manager, ds: seq<Decision>, side: Side) {
    && Sound(m1)
    && m1 == m.(bids := m1.bids, asks := m1.asks, nextNumber := m1.nextNumber, stats := m1.stats)
    && SlotsOf(m1, Other(side)) == SlotsOf(m, Other(side))
    && Numbered(Sends(ds), m.nextNumber, m.exec.generation)
    && m1.nextNumber == m.nextNumber + |Sends(ds)|
    && Tracked(m1) == Tracked(m) + SetOf(Sends(ds))
    && (forall o :: o in Sends(ds) ==> o.side == side && WellSized(m.cfg, o.price, o.qty))
  }

  /** What it does to that side's reserved exposure: never up without a send,
      and within the headroom whenever something was sent. */
  predicate QuotedMarks(before: Slots, after: Slots, sent: bool, headroom: real, mid: real) {
    if sent then SideMarks(after, mid) <= headroom else SideMarks(after, mid) == SideMarks(before, mid)
  }

  ghost predicate QuotedSide(m: Manager, m1: Manager, ds: seq<Decision>, side: Side, headroom: real, mid: real) {
    && QuotedSlots(m, m1, ds, side)
    && QuotedMarks(SlotsOf(m, side), SlotsOf(m1, side), Sends(ds) != [], headroom, mid)
  }

  function Other(side: Side): Side {
    if side == Buy then Sell else Buy
  }

  lemma MarksSplit(slots: Slots, level: nat, mid: real)
    requires level < MAX_ORDER_LEVELS
    ensures SideMarks(slots, mid) == ReservedByOthers(slots, level, mid) + Mark(slots[level], mid)
  {
    assert level == 0 || level == 1;
  }

  /** A fresh number is apart from every slot, so a new order fits an empty one. */
  lemma FillsSlot(m: Manager, side: Side, level: nat, o: LiveOrder, m1: Manager)
    requires SlotsSound(m) && level < m.cfg.numLevels <= MAX_ORDER_LEVELS && SlotsOf(m, side)[level].None?
    requires o.ord.id == FreshId(m, level) && o.ord.side == side && o.ord.level == level
    requires o.ord.price > 0.0 && o.ord.qty > 0.0 && o.orderId == None && o.state == Pending
    requires m1 == WithSlot(m, side, level, Some(o)).(nextNumber := m.nextNumber + 1)
    ensures SlotsSound(m1) && PendingCount(m1) == PendingCount(m) + 1
    ensures Tracked(m1) == Tracked(m) + {o.ord}
  {
    FillTracks(m, side, level, o);
    hide Tracked, PendingCount;
    var n := m.(nextNumber := m.nextNumber + 1);
    CarrySlots(m, n);
    FreshIsApart(n, side, level, o);
    ReplaceSlot(n, side, level, Some(o), m1);
  }

  lemma FillTracks(m: Manager, side: Side, level: nat, o: LiveOrder)
    requires level < MAX_ORDER_LEVELS && SlotsOf(m, side)[level].None?
    ensures Tracked(WithSlot(m, side, level, Some(o))) == Tracked(m) + {o.ord}
  {
    assert level == 0 || level == 1;
  }

  lemma FreshIsApart(n: Manager, side: Side, level: nat, o: LiveOrder)
    requires SlotsSound(n) && level < MAX_ORDER_LEVELS && o.orderId == None
    requires forall p: Place {:trigger At(n, p)} :: p.level < MAX_ORDER_LEVELS && At(n, p).Some? ==>
               p == Place(side, level) || At(n, p).value.ord.id.number != o.ord.id.number
    ensures forall p: Place {:trigger At(n, p)} :: p.level < MAX_ORDER_LEVELS && p != Place(side, level) ==>
      Apart(Some(o), At(n, p))
  {
  }

  lemma ProductPositive(a: real, b: real)
    requires a > 0.0 && b > 0.0
    ensures a * b > 0.0
  {
  }

  lemma FillMarks(slots: Slots, level: nat, o: LiveOrder, headroom: real, mid: real)
    requires level < MAX_ORDER_LEVELS && slots[level].None? && mid > 0.0 && o.ord.qty > 0.0
    requires Mark(Some(o), mid) <= Max(headroom - ReservedByOthers(slots, level, mid), 0.0)
    ensures QuotedMarks(slots, slots[level := Some(o)], true, headroom, mid)
  {
    ProductPositive(o.ord.qty, Max(o.ord.price, mid));
    MarksSplit(slots[level := Some(o)], level, mid);
  }

  lemma RestateMarks(slots: Slots, level: nat, o: LiveOrder, headroom: real, mid: real)
    requires level < MAX_ORDER_LEVELS && slots[level].Some? && o.ord == slots[level].value.ord
    ensures QuotedMarks(slots, slots[level := Some(o)], false, headroom, mid)
  {
    assert Mark(Some(o), mid) == Mark(slots[level], mid);
  }

  lemma PlacesOrder(m: Manager, side: Side, level: nat, price: real, qty: real, now: int)
    requires Sound(m) && level < m.cfg.numLevels
    requires SlotsOf(m, side)[level].None?
    requires WellSized(m.cfg, price, qty)
    ensures var (m1, ds) := ProcessSideLevel(m, side, level, price, qty, now);
      QuotedSlots(m, m1, ds, side) && Sends(ds) != []
  {
    hide SlotsSound, PendingCount, Tracked, Sends, WellSized;
    var (m1, ds) := ProcessSideLevel(m, side, level, price, qty, now);
    var order := Order(FreshId(m, level), side, level, price, qty);
    var o := LiveOrder(order, None, Pending, now, 0);
    SendsOfOne(Send(order));
    SizedIsPositive(m.cfg, price, qty);
    var placed := WithSlot(m, side, level, Some(o)).(nextNumber := m.nextNumber + 1);
    FillsSlot(m, side, level, o, placed);
    CarrySlots(placed, m1);
    assert SetOf([order]) == {order};
  }

  lemma SizedIsPositive(c: Config, price: real, qty: real)
    requires WellSized(c, price, qty)
    ensures qty > 0.0 && price > 0.0
  {
  }

  lemma RestatesOrder(m: Manager, side: Side, level: nat, o: LiveOrder, m1: Manager, ds: seq<Decision>)
    requires Sound(m) && level < MAX_ORDER_LEVELS && SlotsOf(m, side)[level].Some?
    requires o.ord == SlotsOf(m, side)[level].value.ord && o.orderId == SlotsOf(m, side)[level].value.orderId
    requires o.state == Canceling
    requires m1.stats.sent == m.stats.sent && m1.stats.accepted == m.stats.accepted
    requires m1 == WithSlot(m, side, level, Some(o)).(stats := m1.stats)
    requires Sends(ds) == []
    ensures QuotedSlots(m, m1, ds, side)
  {
    RestateSlot(m, Place(side, level), o, WithSlot(m, side, level, Some(o)));
    assert SetOf([]) == {};
  }

  lemma SendsOnLevel(m: Manager, side: Side, headroom: real, mid: real, now: int, level: nat, price: real, qty: real)
    requires Sound(m) && level < m.cfg.numLevels && mid > 0.0
    requires SlotsOf(m, side)[level].None?
    requires WellSized(m.cfg, price, qty)
    requires qty * Max(price, mid) <= Max(headroom - ReservedByOthers(SlotsOf(m, side), level, mid), 0.0)
    ensures var (m1, ds) := ProcessSideLevel(m, side, level, price, qty, now);
      QuotedSide(m, m1, ds, side, headroom, mid)
  {
    assert level < MAX_ORDER_LEVELS && qty > 0.0;
    PlacesOrder(m, side, level, price, qty, now);
    hide QuotedSlots, QuotedMarks, Sound, WellSized, ReservedByOthers, ProcessSideLevel, SlotsOf, Sends;
    PlacedMarks(m, side, headroom, mid, now, level, price, qty);
  }

  lemma PlacedMarks(m: Manager, side: Side, headroom: real, mid: real, now: int, level: nat, price: real, qty: real)
    requires level < MAX_ORDER_LEVELS && mid > 0.0 && qty > 0.0
    requires SlotsOf(m, side)[level].None?
    requires qty * Max(price, mid) <= Max(headroom - ReservedByOthers(SlotsOf(m, side), level, mid), 0.0)
    ensures QuotedMarks(SlotsOf(m, side), SlotsOf(ProcessSideLevel(m, side, level, price, qty, now).0, side), true,
                        headroom, mid)
  {
    var o := LiveOrder(Order(FreshId(m, level), side, level, price, qty), None, Pending, now, 0);
    assert SlotsOf(ProcessSideLevel(m, side, level, price, qty, now).0, side) == SlotsOf(m, side)[level := Some(o)];
    hide ProcessSideLevel, SlotsOf, QuotedMarks;
    FillMarks(SlotsOf(m, side), level, o, headroom, mid);
  }

  lemma CancelsOnLevel(m: Manager, side: Side, headroom: real, mid: real, now: int, level: nat, m1: Manager,
                       ds: seq<Decision>)
    requires Sound(m) && level < MAX_ORDER_LEVELS
    requires SlotsOf(m, side)[level].Some? && |ds| == 1 && !ds[0].Send?
    requires m1.stats.sent == m.stats.sent && m1.stats.accepted == m.stats.accepted
    requires m1 == WithSlot(m, side, level, Some(SetCanceling(SlotsOf(m, side)[level].value, now))).(stats := m1.stats)
    ensures QuotedSide(m, m1, ds, side, headroom, mid)
  {
    SendsOfOne(ds[0]);
    assert ds == [ds[0]];
    RestatesOrder(m, side, level, SetCanceling(SlotsOf(m, side)[level].value, now), m1, ds);
    RestateMarks(SlotsOf(m, side), level, SetCanceling(SlotsOf(m, side)[level].value, now), headroom, mid);
  }

  lemma NothingOnLevel(m: Manager, side: Side, headroom: real, mid: real)
    requires Sound(m)
    ensures QuotedSide(m, m, [], side, headroom, mid)
  {
    assert SetOf(Sends([])) == {};
  }

  /** One level, once its quantity and cancel verdict are known. */
  lemma ActsOnLevel(m: Manager, side: Side, headroom: real, mid: real, now: int, level: nat,
                    price: real, qty: real, cancel: bool, m1: Manager, ds: seq<Decision>)
    requires Sound(m) && level < m.cfg.numLevels && mid > 0.0
    requires qty > 0.0 ==> WellSized(m.cfg, price, qty)
    requires qty > 0.0 ==> qty * Max(price, mid) <= Max(headroom - ReservedByOthers(SlotsOf(m, side), level, mid), 0.0)
    requires cancel ==> SlotsOf(m, side)[level].Some?
    requires (m1, ds) ==
      if cancel then
        (WithSlot(m, side, level, Some(SetCanceling(SlotsOf(m, side)[level].value, now))),
         [Cancel(SlotsOf(m, side)[level].value.ord.id)])
      else if qty > 0.0 then ProcessSideLevel(m, side, level, price, qty, now)
      else (m, [])
    ensures QuotedSide(m, m1, ds, side, headroom, mid)
  {
    if SlotsOf(m, side)[level].None? && qty > 0.0 {
      SendsOnLevel(m, side, headroom, mid, now, level, price, qty);
    } else if ds != [] {
      CancelsOnLevel(m, side, headroom, mid, now, level, m1, ds);
    } else {
      NothingOnLevel(m, side, headroom, mid);
    }
  }

  lemma QuotesLevel(m: Manager, q: Quote, side: Side, headroom: real, now: int, level: nat)
    requires Sound(m) && QuoteShape(q) && level < m.cfg.numLevels && q.mid > 0.0
    ensures var (m1, ds) := QuoteLevel(m, q, side, headroom, now, level);
      QuotedSide(m, m1, ds, side, headroom, q.mid)
  {
    hide QuoteQty, Exceeds, ReservedByOthers, ProcessSideLevel, QuotedSide;
    var (m1, ds) := QuoteLevel(m, q, side, headroom, now, level);
    var price := QuotePrice(q, side, level);
    if price <= 0.0 {
      ActsOnLevel(m, side, headroom, q.mid, now, level, price, 0.0, false, m1, ds);
    } else {
      var slot := SlotsOf(m, side)[level];
      var budget := Max(headroom - ReservedByOthers(SlotsOf(m, side), level, q.mid), 0.0);
      QuoteQtyFits(m.cfg, q.quantity, price, q.mid, budget);
      var qty := QuoteQty(m.cfg, q.quantity, price, q.mid, budget);
      var cancel := slot.Some? && slot.value.state != Canceling
                    && (Exceeds(m.cfg, slot.value.ord, q.mid, budget) || qty == 0.0);
      ActsOnLevel(m, side, headroom, q.mid, now, level, price, qty, cancel, m1, ds);
    }
  }

  lemma QuotedCompose(m: Manager, m1: Manager, m2: Manager, d1: seq<Decision>, d2: seq<Decision>,
                      side: Side, headroom: real, mid: real)
    requires QuotedSide(m, m1, d1, side, headroom, mid) && QuotedSide(m1, m2, d2, side, headroom, mid)
    ensures QuotedSide(m, m2, d1 + d2, side, headroom, mid)
  {
    SendsConcat(d1, d2);
    var a, b := Sends(d1), Sends(d2);
    assert SetOf(a + b) == SetOf(a) + SetOf(b);
  }

  lemma {:induction false} QuotesSide(m: Manager, q: Quote, side: Side, headroom: real, now: int, count: nat)
    requires Sound(m) && QuoteShape(q) && count <= m.cfg.numLevels && q.mid > 0.0
    ensures var (m1, ds) := QuoteSide(m, q, side, headroom, now, count);
      QuotedSide(m, m1, ds, side, headroom, q.mid)
  {
    if count == 0 {
      assert SetOf(Sends([])) == {};
    } else {
      QuotesSide(m, q, side, headroom, now, count - 1);
      var (m1, d1) := QuoteSide(m, q, side, headroom, now, count - 1);
      QuotesLevel(m1, q, side, headroom, now, count - 1);
      var (m2, d2) := QuoteLevel(m1, q, side, headroom, now, count - 1);
      QuotedCompose(m, m1, m2, d1, d2, side, headroom, q.mid);
    }
  }

  // ---------------------------------------------------------- the whole quote

  predicate SentOn(ds: seq<Decision>, side: Side) {
    exists o :: o in Sends(ds) && o.side == side
  }

  /** The exposure a side reserves after a quote that sent something on it. */
  predicate Reserves(m: Manager, m1: Manager, ds: seq<Decision>, side: Side, position: real, limit: real, mid: real) {
    SentOn(ds, side) ==>
      && Sign(side) * position * mid + SideMarks(SlotsOf(m1, side), mid) <= limit
      && (m.cfg.absoluteCap.Some? ==>
            Sign(side) * (position - Baseline(m)) * mid + SideMarks(SlotsOf(m1, side), mid) <= m.cfg.absoluteCap.value)
  }

  ghost predicate Quoted(m: Manager, m1: Manager, ds: seq<Decision>) {
    && Sound(m1)
    && Numbered(Sends(ds), m.nextNumber, m.exec.generation)
    && m1.nextNumber == m.nextNumber + |Sends(ds)|
    && Tracked(m1) == Tracked(m) + SetOf(Sends(ds))
    && (forall o :: o in Sends(ds) ==> WellSized(m.cfg, o.price, o.qty))
    && m1.cfg == m.cfg && m1.gate == m.gate && m1.retired == m.retired && m1.baseline == m.baseline
    && (m1.exec == m.exec || (Sends(ds) == [] && m1.exec == m.exec.SetPause(RiskData)))
  }

  lemma HeadroomSplits(m: Manager, side: Side, position: real, limit: real, mid: real, marks: real)
    requires marks <= Headroom(m, side, position, limit, mid)
    ensures Sign(side) * position * mid + marks <= limit
    ensures m.cfg.absoluteCap.Some? ==> Sign(side) * (position - Baseline(m)) * mid + marks <= m.cfg.absoluteCap.value
  {
  }

  lemma {:induction false} CancelSideKeeps(m: Manager, side: Side, now: int, count: nat)
    requires Sound(m) && count <= MAX_ORDER_LEVELS
    ensures var (m1, ds) := CancelSide(m, side, now, count);
      && Sound(m1) && Tracked(m1) == Tracked(m) && Sends(ds) == []
      && m1 == m.(bids := m1.bids, asks := m1.asks)
  {
    hide SlotsSound, PendingCount, Tracked;
    if count > 0 {
      CancelSideKeeps(m, side, now, count - 1);
      var (m1, d1) := CancelSide(m, side, now, count - 1);
      var slot := SlotsOf(m1, side)[count - 1];
      if slot.Some? && slot.value.state != Canceling {
        var o := SetCanceling(slot.value, now);
        RestateSlot(m1, Place(side, count - 1), o, WithSlot(m1, side, count - 1, Some(o)));
        SendsConcat(d1, [Cancel(slot.value.ord.id)]);
        SendsOfOne(Cancel(slot.value.ord.id));
      }
    }
  }

  lemma SweepsExposure(m: Manager, now: int)
    requires Sound(m)
    ensures var (m1, ds) := CancelExposure(m.(exec := m.exec.SetPause(RiskData)), now);
      Quoted(m, m1, ds) && Sends(ds) == []
  {
    hide CancelSide, Sound, Tracked, Sends, SetOf;
    var p := m.(exec := m.exec.SetPause(RiskData));
    PausingKeeps(m, RiskData);
    CancelSideKeeps(p, Buy, now, MAX_ORDER_LEVELS);
    var (m1, d1) := CancelSide(p, Buy, now, MAX_ORDER_LEVELS);
    CancelSideKeeps(m1, Sell, now, MAX_ORDER_LEVELS);
    var (m2, d2) := CancelSide(m1, Sell, now, MAX_ORDER_LEVELS);
    SendsConcat(d1, d2);
    SetOfNone();
  }

  lemma SetOfNone()
    ensures SetOf([]) == {}
  {
  }

  lemma SetOfConcat(a: seq<Order>, b: seq<Order>)
    ensures SetOf(a + b) == SetOf(a) + SetOf(b)
  {
  }

  lemma MembersOfConcat(a: seq<Order>, b: seq<Order>, side: Side)
    requires forall o :: o in a ==> o.side == Other(side)
    requires forall o :: o in b ==> o.side == side
    ensures (exists o :: o in a + b && o.side == side) ==> b != []
    ensures (exists o :: o in a + b && o.side == Other(side)) ==> a != []
  {
  }

  lemma NumberedConcat(a: seq<Order>, b: seq<Order>, from: nat, generation: nat)
    requires Numbered(a, from, generation) && Numbered(b, from + |a|, generation)
    ensures Numbered(a + b, from, generation)
  {
  }

  lemma BothSidesQuoted(m: Manager, m1: Manager, m2: Manager, d1: seq<Decision>, d2: seq<Decision>)
    requires QuotedSlots(m, m1, d1, Buy) && QuotedSlots(m1, m2, d2, Sell)
    ensures Quoted(m, m2, d1 + d2)
    ensures m1.bids == m2.bids
    ensures SentOn(d1 + d2, Buy) ==> Sends(d1) != []
    ensures SentOn(d1 + d2, Sell) ==> Sends(d2) != []
  {
    hide Sound, Tracked, WellSized, Numbered, Sends, SetOf;
    SendsConcat(d1, d2);
    var a, b := Sends(d1), Sends(d2);
    NumberedConcat(a, b, m.nextNumber, m.exec.generation);
    SetOfConcat(a, b);
    MembersOfConcat(a, b, Sell);
    assert m2.bids == SlotsOf(m2, Other(Sell)) == SlotsOf(m1, Other(Sell));
  }

  /** Every side that sent something stays within the account limit and the
      optional cap, counting all of its slots at max(price, mid). */
  lemma QuoteReserves(m: Manager, q: Quote, position: real, limit: real, now: int)
    requires Configured(m.cfg) && Sound(m) && QuoteShape(q)
    ensures var (m1, ds) := OnQuote(m, q, position, limit, now);
      && Quoted(m, m1, ds)
      && (Sends(ds) != [] ==> Quotable(m, q) && limit > 0.0)
      && Reserves(m, m1, ds, Buy, position, limit, q.mid)
      && Reserves(m, m1, ds, Sell, position, limit, q.mid)
  {
    hide Quoted, QuoteSide, CancelExposure, QuotedSlots, Headroom, Sound, Reserves;
    var (m1, ds) := OnQuote(m, q, position, limit, now);
    if !Quotable(m, q) || (limit > 0.0 && m.cfg.capFromStart && m.baseline.None?) {
      QuotesNothing(m, position, limit, q.mid);
    } else if limit <= 0.0 {
      SweepsExposure(m, now);
      NoSendReserves(m, m1, ds, position, limit, q.mid);
    } else {
      QuotesBothSides(m, q, position, limit, now);
    }
  }

  lemma QuotesNothing(m: Manager, position: real, limit: real, mid: real)
    requires Sound(m)
    ensures Quoted(m, m, [])
    ensures Reserves(m, m, [], Buy, position, limit, mid) && Reserves(m, m, [], Sell, position, limit, mid)
  {
    assert SetOf(Sends([])) == {};
  }

  lemma NoSendReserves(m: Manager, m1: Manager, ds: seq<Decision>, position: real, limit: real, mid: real)
    requires Sends(ds) == []
    ensures Reserves(m, m1, ds, Buy, position, limit, mid) && Reserves(m, m1, ds, Sell, position, limit, mid)
  {
  }

  lemma QuotesBothSides(m: Manager, q: Quote, position: real, limit: real, now: int)
    requires Configured(m.cfg) && Sound(m) && QuoteShape(q) && q.mid > 0.0
    ensures var count := LevelsQuoted(m, q);
      var (m1, d1) := QuoteSide(m, q, Buy, Headroom(m, Buy, position, limit, q.mid), now, count);
      var (m2, d2) := QuoteSide(m1, q, Sell, Headroom(m, Sell, position, limit, q.mid), now, count);
      && Quoted(m, m2, d1 + d2)
      && Reserves(m, m2, d1 + d2, Buy, position, limit, q.mid)
      && Reserves(m, m2, d1 + d2, Sell, position, limit, q.mid)
  {
    hide QuoteSide, QuotedSlots, Quoted, Sound, Headroom, Reserves, SideMarks;
    var count := LevelsQuoted(m, q);
    var buy, sell := Headroom(m, Buy, position, limit, q.mid), Headroom(m, Sell, position, limit, q.mid);
    QuotesSide(m, q, Buy, buy, now, count);
    var (m1, d1) := QuoteSide(m, q, Buy, buy, now, count);
    SoundAfter(m, m1, d1, Buy);
    QuotesSide(m1, q, Sell, sell, now, count);
    var (m2, d2) := QuoteSide(m1, q, Sell, sell, now, count);
    BothSidesQuoted(m, m1, m2, d1, d2);
    SideReserves(m, m2, d1 + d2, Buy, position, limit, q.mid);
    SideReserves(m, m2, d1 + d2, Sell, position, limit, q.mid);
  }

  lemma SideReserves(m: Manager, m2: Manager, ds: seq<Decision>, side: Side, position: real, limit: real, mid: real)
    requires SentOn(ds, side) ==> SideMarks(SlotsOf(m2, side), mid) <= Headroom(m, side, position, limit, mid)
    ensures Reserves(m, m2, ds, side, position, limit, mid)
  {
    if SentOn(ds, side) {
      HeadroomSplits(m, side, position, limit, mid, SideMarks(SlotsOf(m2, side), mid));
    }
  }

  lemma SoundAfter(m: Manager, m1: Manager, ds: seq<Decision>, side: Side)
    requires QuotedSlots(m, m1, ds, side)
    ensures Sound(m1) && m1.cfg == m.cfg
  {
  }
}
