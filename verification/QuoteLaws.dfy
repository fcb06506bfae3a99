// What a quote makes of each slot, exactly: when an empty one is filled and with
// how much, when an order is canceled or replaced, and when it is left alone.
module QuoteLaws {
  import opened Orders
  import opened ExecutionState
  import opened ManagerModel
  import opened ManagerInvariants
  import opened HandlerProofs
  import opened HandlerEffects
  import opened Reservation

  // -------------------------------------------------------------- quantities

  /** `count` lots are wanted, fit the room at the worse of price and mid, and keep
      the order's own cap. */
  predicate Fits(c: Config, wanted: real, price: real, mid: real, room: real, count: int) {
    && Lots(count, c.lot) <= wanted
    && Lots(count, c.lot) * price <= room && Lots(count, c.lot) * mid <= room
    && (c.orderCap.Some? ==> Lots(count, c.lot) * price <= c.orderCap.value)
  }

  predicate LargeEnough(c: Config, price: real, qty: real) {
    qty >= c.minQty && qty * price >= c.minNotional
  }

  /** The most that fits, if that is worth sending, and otherwise nothing. */
  ghost predicate BestQty(c: Config, wanted: real, price: real, mid: real, room: real, qty: real) {
    if exists count: int ::
         Fits(c, wanted, price, mid, room, count) && count > 0 && LargeEnough(c, price, Lots(count, c.lot))
    then
      && qty > 0.0 && LargeEnough(c, price, qty)
      && (exists count: int :: qty == Lots(count, c.lot) && Fits(c, wanted, price, mid, room, count))
      && (forall count: int :: Fits(c, wanted, price, mid, room, count) ==> Lots(count, c.lot) <= qty)
    else qty == 0.0
  }

  lemma Scales(a: real, b: real, k: real)
    requires k > 0.0
    ensures a >= b <==> a * k >= b * k
  {
    if a >= b {
      assert a * k >= b * k;
    } else {
      assert a * k < b * k;
    }
  }

  lemma LotsOrder(count: int, x: real, lot: real)
    requires lot > 0.0 && Lots(count, lot) <= x
    ensures Lots(count, lot) <= RoundToLot(x, lot)
  {
    assert x == x / lot * lot;
    Scales(x / lot, count as real, lot);
    assert count <= (x / lot).Floor;
    MoreLots(count, (x / lot).Floor, lot);
  }

  lemma MoreLots(a: int, b: int, lot: real)
    requires lot > 0.0 && a <= b
    ensures Lots(a, lot) <= Lots(b, lot)
  {
  }

  lemma ScaleThenDivide(a: real, b: real, x: real)
    requires b > 0.0 && x * b <= a
    ensures x <= a / b
  {
    assert a == a / b * b;
    Scales(a / b, x, b);
  }

  lemma Grows(a: real, b: real, k: real)
    requires a <= b && k >= 0.0
    ensures a * k <= b * k
  {
  }

  /** The capped wish before rounding to lots. */
  function Capped(c: Config, wanted: real, price: real, mid: real, room: real): real
    requires price > 0.0 && Max(price, mid) > 0.0
  {
    var affordable := Min(wanted, room / Max(price, mid));
    if c.orderCap.Some? then Min(affordable, c.orderCap.value / price) else affordable
  }

  lemma FittingIsBelow(c: Config, wanted: real, price: real, mid: real, room: real, count: int)
    requires c.lot > 0.0 && price > 0.0 && mid > 0.0 && Fits(c, wanted, price, mid, room, count)
    ensures Lots(count, c.lot) <= RoundToLot(Capped(c, wanted, price, mid, room), c.lot)
  {
    hide Lots, RoundToLot;
    ScaleThenDivide(room, Max(price, mid), Lots(count, c.lot));
    if c.orderCap.Some? {
      ScaleThenDivide(c.orderCap.value, price, Lots(count, c.lot));
    }
    LotsOrder(count, Capped(c, wanted, price, mid, room), c.lot);
  }

  lemma RoundedFits(c: Config, wanted: real, price: real, mid: real, room: real)
    requires c.lot > 0.0 && price > 0.0 && mid > 0.0
    requires var qty := RoundToLot(Capped(c, wanted, price, mid, room), c.lot); qty > 0.0
    ensures var count := (Capped(c, wanted, price, mid, room) / c.lot).Floor;
      && count > 0 && RoundToLot(Capped(c, wanted, price, mid, room), c.lot) == Lots(count, c.lot)
      && Fits(c, wanted, price, mid, room, count)
  {
    var capped := Capped(c, wanted, price, mid, room);
    var count := (capped / c.lot).Floor;
    var qty := RoundToLot(capped, c.lot);
    RoundingNeverGrows(capped, c.lot);
    if count <= 0 {
      Grows(count as real, 0.0, c.lot);
    }
    assert qty == Lots(count, c.lot);
    hide Lots, RoundToLot;
    DivideThenScale(room, Max(price, mid), qty);
    Grows(price, Max(price, mid), qty);
    Grows(mid, Max(price, mid), qty);
    if c.orderCap.Some? {
      DivideThenScale(c.orderCap.value, price, qty);
    }
  }

  /** The quantity quoted is the best one. */
  lemma QuotesBestQty(c: Config, wanted: real, price: real, mid: real, room: real)
    requires Configured(c) && price > 0.0 && mid > 0.0
    ensures BestQty(c, wanted, price, mid, room, QuoteQty(c, wanted, price, mid, room))
  {
    var rounded := RoundToLot(Capped(c, wanted, price, mid, room), c.lot);
    var qty := QuoteQty(c, wanted, price, mid, room);
    assert qty == if LargeEnough(c, price, rounded) then rounded else 0.0;
    forall count: int | Fits(c, wanted, price, mid, room, count)
      ensures Lots(count, c.lot) <= rounded
    {
      FittingIsBelow(c, wanted, price, mid, room, count);
    }
    hide QuoteQty, Lots, RoundToLot, Capped, Fits, LargeEnough;
    if count: int :|
      Fits(c, wanted, price, mid, room, count) && count > 0 && LargeEnough(c, price, Lots(count, c.lot))
    {
      PositiveLots(count, c.lot);
      LargerIsLargeEnough(c, price, Lots(count, c.lot), rounded);
      RoundedFits(c, wanted, price, mid, room);
    } else if LargeEnough(c, price, rounded) {
      LargeIsPositive(c, price, rounded);
      RoundedFits(c, wanted, price, mid, room);
    }
  }

  lemma LargerIsLargeEnough(c: Config, price: real, a: real, b: real)
    requires a <= b && price > 0.0 && LargeEnough(c, price, a)
    ensures LargeEnough(c, price, b)
  {
    Grows(a, b, price);
  }

  lemma LargeIsPositive(c: Config, price: real, qty: real)
    requires c.minNotional > 0.0 && price > 0.0 && LargeEnough(c, price, qty)
    ensures qty > 0.0
  {
    if qty <= 0.0 {
      Grows(qty, 0.0, price);
    }
  }

  lemma PositiveLots(count: int, lot: real)
    requires count > 0 && lot > 0.0
    ensures Lots(count, lot) > 0.0
  {
  }

  lemma BestIsNonNegative(c: Config, wanted: real, price: real, mid: real, room: real, qty: real)
    requires BestQty(c, wanted, price, mid, room, qty)
    ensures qty >= 0.0
  {
    hide Fits, LargeEnough;
  }

  /** There is only one. */
  lemma BestQtyIsUnique(c: Config, wanted: real, price: real, mid: real, room: real, a: real, b: real)
    requires BestQty(c, wanted, price, mid, room, a) && BestQty(c, wanted, price, mid, room, b)
    ensures a == b
  {
    hide Fits, Lots, LargeEnough;
  }

  // ---------------------------------------------------------------- one level

  /** The order takes more room than is left for it, or more than an order may. */
  predicate Misfit(c: Config, o: Order, mid: real, room: real) {
    || o.qty * Max(o.price, mid) > room + 0.000000001
    || (c.orderCap.Some? && o.qty * o.price > c.orderCap.value + 0.000000001)
  }

  /** The new price is at least the threshold away, in basis points of the old one. */
  predicate FarOff(c: Config, was: real, next: real) {
    was <= 0.0 || (next - was) * 10000.0 >= c.repriceBps * was || (was - next) * 10000.0 >= c.repriceBps * was
  }

  predicate Outlived(c: Config, sentAt: int, now: int) {
    c.maxLiveAgeNs > 0 && now - sentAt > c.maxLiveAgeNs
  }

  predicate Resized(c: Config, was: real, nowIs: real) {
    was - nowIs >= c.lot / 2.0 || nowIs - was >= c.lot / 2.0
  }

  /** A slot before and after its level was quoted at `price` with room `room`, when
      the best quantity is `qty`, and what was decided about it. */
  predicate Answered(c: Config, a: Option<LiveOrder>, b: Option<LiveOrder>, ds: seq<Decision>, side: Side, level: nat,
                     price: real, mid: real, room: real, qty: real, now: int) {
    match a
    case None =>
      if qty > 0.0 then
        && b.Some? && b.value == LiveOrder(Order(b.value.ord.id, side, level, price, qty), None, Pending, now, 0)
        && Send(b.value.ord) in ds
      else b == None
    case Some(o) =>
      var canceling := o.(state := Canceling, sentAt := now);
      if o.state == Canceling then b == a
      else if Misfit(c, o.ord, mid, room) || qty == 0.0 then b == Some(canceling) && Cancel(o.ord.id) in ds
      else if o.state == Live
           && (FarOff(c, o.ord.price, price) || Outlived(c, o.sentAt, now) || Resized(c, o.ord.qty, qty))
      then b == Some(canceling) && CancelAndReplace(o.ord.id, level, price, qty) in ds
      else b == a
  }

  lemma RepriceIff(c: Config, was: real, next: real)
    ensures ShouldReprice(c, was, next) <==> FarOff(c, was, next)
  {
    if was > 0.0 {
      var r := (next - was) / was;
      assert r * was == next - was;
      Scales(r * 10000.0, c.repriceBps, was);
      Scales(-r * 10000.0, c.repriceBps, was);
      assert r * 10000.0 * was == (next - was) * 10000.0;
      assert -r * 10000.0 * was == (was - next) * 10000.0;
      if c.repriceBps <= 0.0 {
        assert ShouldReprice(c, was, next);
      }
    }
  }

  /** What a slot takes up at the worse of its price and mid. */
  function Taken(slot: Option<LiveOrder>, mid: real): real {
    if slot.None? then 0.0
    else if slot.value.ord.price >= mid then slot.value.ord.qty * slot.value.ord.price
    else slot.value.ord.qty * mid
  }

  /** One level of the loop answers for its slot with the best quantity. */
  lemma LevelLaw(m: Manager, q: Quote, side: Side, headroom: real, now: int, level: nat, room: real, qty: real)
    requires Configured(m.cfg) && QuoteShape(q) && level < MAX_ORDER_LEVELS && q.mid > 0.0
    requires QuotePrice(q, side, level) > 0.0
    requires room == Max(headroom - Taken(SlotsOf(m, side)[1 - level], q.mid), 0.0)
    requires BestQty(m.cfg, q.quantity, QuotePrice(q, side, level), q.mid, room, qty)
    ensures var (m1, ds) := QuoteLevel(m, q, side, headroom, now, level);
      Answered(m.cfg, SlotsOf(m, side)[level], SlotsOf(m1, side)[level], ds, side, level,
               QuotePrice(q, side, level), q.mid, room, qty, now)
  {
    hide QuoteQty, BestQty, Taken, QuoteLevel, Answered;
    var price := QuotePrice(q, side, level);
    OthersTake(m, side, level, q.mid);
    QuotesBestQty(m.cfg, q.quantity, price, q.mid, room);
    BestQtyIsUnique(m.cfg, q.quantity, price, q.mid, room, qty, QuoteQty(m.cfg, q.quantity, price, q.mid, room));
    BestIsNonNegative(m.cfg, q.quantity, price, q.mid, room, qty);
    if SlotsOf(m, side)[level].None? {
      EmptyLevelLaw(m, q, side, headroom, now, level, room, qty);
    } else {
      FilledLevelLaw(m, q, side, headroom, now, level, room, qty);
    }
  }

  lemma OthersTake(m: Manager, side: Side, level: nat, mid: real)
    requires level < MAX_ORDER_LEVELS
    ensures ReservedByOthers(SlotsOf(m, side), level, mid) == Taken(SlotsOf(m, side)[1 - level], mid)
  {
    assert level == 0 || level == 1;
  }

  lemma EmptyLevelLaw(m: Manager, q: Quote, side: Side, headroom: real, now: int, level: nat, room: real, qty: real)
    requires m.cfg.lot > 0.0 && QuoteShape(q) && level < MAX_ORDER_LEVELS && QuotePrice(q, side, level) > 0.0
    requires SlotsOf(m, side)[level].None?
    requires room == Max(headroom - ReservedByOthers(SlotsOf(m, side), level, q.mid), 0.0)
    requires qty == QuoteQty(m.cfg, q.quantity, QuotePrice(q, side, level), q.mid, room) >= 0.0
    ensures var (m1, ds) := QuoteLevel(m, q, side, headroom, now, level); var price := QuotePrice(q, side, level);
      Answered(m.cfg, None, SlotsOf(m1, side)[level], ds, side, level, price, q.mid, room, qty, now)
  {
    hide QuoteQty, ReservedByOthers, Max;
  }

  lemma FilledLevelLaw(m: Manager, q: Quote, side: Side, headroom: real, now: int, level: nat, room: real, qty: real)
    requires m.cfg.lot > 0.0 && QuoteShape(q) && level < MAX_ORDER_LEVELS && QuotePrice(q, side, level) > 0.0
    requires SlotsOf(m, side)[level].Some?
    requires room == Max(headroom - ReservedByOthers(SlotsOf(m, side), level, q.mid), 0.0)
    requires qty == QuoteQty(m.cfg, q.quantity, QuotePrice(q, side, level), q.mid, room) >= 0.0
    ensures var (m1, ds) := QuoteLevel(m, q, side, headroom, now, level);
      Answered(m.cfg, SlotsOf(m, side)[level], SlotsOf(m1, side)[level], ds, side, level,
               QuotePrice(q, side, level), q.mid, room, qty, now)
  {
    hide QuoteQty, ReservedByOthers, FarOff, ShouldReprice, Misfit, Exceeds, Resized, Max;
    var o := SlotsOf(m, side)[level].value;
    RepriceIff(m.cfg, o.ord.price, QuotePrice(q, side, level));
    MisfitIs(m.cfg, o.ord, q.mid, room);
    ResizedIs(m.cfg, o.ord.qty, qty);
  }

  lemma MisfitIs(c: Config, o: Order, mid: real, room: real)
    ensures Misfit(c, o, mid, room) <==> Exceeds(c, o, mid, room)
  {
  }

  lemma ResizedIs(c: Config, was: real, nowIs: real)
    ensures Resized(c, was, nowIs) <==> Abs(was - nowIs) >= c.lot * 0.5
  {
  }

  lemma OtherSideStays(m: Manager, q: Quote, side: Side, headroom: real, now: int, level: nat)
    requires QuoteShape(q) && level < MAX_ORDER_LEVELS && m.cfg.lot > 0.0
    ensures SlotsOf(QuoteLevel(m, q, side, headroom, now, level).0, Other(side)) == SlotsOf(m, Other(side))
  {
    hide QuoteQty, ReservedByOthers, Exceeds, ShouldReprice;
  }

  /** The side loop, level by level: what each level starts from. */
  lemma SideLaw(m: Manager, q: Quote, side: Side, headroom: real, now: int, count: nat, level: nat)
    requires QuoteShape(q) && level < MAX_ORDER_LEVELS && count <= MAX_ORDER_LEVELS && m.cfg.lot > 0.0
    ensures var (m1, ds) := QuoteSide(m, q, side, headroom, now, count);
      && SlotsOf(m1, Other(side)) == SlotsOf(m, Other(side))
      && (level >= count ==> SlotsOf(m1, side)[level] == SlotsOf(m, side)[level])
      && (level < count ==>
            var m0 := QuoteSide(m, q, side, headroom, now, level).0;
            var (mL, dL) := QuoteLevel(m0, q, side, headroom, now, level);
            && m0.cfg == m.cfg
            && SlotsOf(m0, side)[level] == SlotsOf(m, side)[level]
            && SlotsOf(m1, side)[level] == SlotsOf(mL, side)[level]
            && SlotsOf(m0, side)[1 - level] == (if level == 0 then SlotsOf(m, side)[1] else SlotsOf(m1, side)[0])
            && forall d :: d in dL ==> d in ds)
  {
    hide QuoteLevel, SlotsOf;
    assert QuoteSide(m, q, side, headroom, now, 0) == (m, []);
    var (m1, d1) := QuoteLevel(m, q, side, headroom, now, 0);
    assert QuoteSide(m, q, side, headroom, now, 1) == (m1, [] + d1);
    OtherSideStays(m, q, side, headroom, now, 0);
    OtherLevelsStay(m, q, side, headroom, now, 0, 1);
    assert m1.cfg == m.cfg;
    var (m2, d2) := QuoteLevel(m1, q, side, headroom, now, 1);
    assert QuoteSide(m, q, side, headroom, now, 2) == (m2, [] + d1 + d2);
    OtherSideStays(m1, q, side, headroom, now, 1);
    OtherLevelsStay(m1, q, side, headroom, now, 1, 0);
    assert level == 0 || level == 1;
    assert count == 0 || count == 1 || count == 2;
  }

  // ---------------------------------------------------------- a whole quote

  /** When a quote is acted upon at all. */
  predicate MayQuote(m: Manager, q: Quote) {
    !m.exec.shutdown && m.exec.pauses == {} && q.validForTrading && q.mid > 0.0 && q.quantity > 0.0
  }

  /** What the account limit and the optional cap leave for one slot of a side,
      beside what the side's other slot takes. */
  function Room(m: Manager, side: Side, position: real, limit: real, mid: real, others: real): real {
    var held := if side == Buy then position * mid else -(position * mid);
    var start := if m.cfg.capFromStart && m.baseline.Some? then m.baseline.value else 0.0;
    var grown := if side == Buy then (position - start) * mid else (start - position) * mid;
    var byLimit := limit - held - others;
    if m.cfg.absoluteCap.Some? && m.cfg.absoluteCap.value - grown - others < byLimit
    then Max(m.cfg.absoluteCap.value - grown - others, 0.0)
    else Max(byLimit, 0.0)
  }

  lemma SignTimes(side: Side, a: real, mid: real)
    ensures Sign(side) * a * mid == if side == Buy then a * mid else -(a * mid)
  {
    if side == Sell {
      assert -1.0 * a * mid == -(a * mid);
    }
  }

  lemma Turns(a: real, b: real, mid: real)
    ensures -((a - b) * mid) == (b - a) * mid
  {
  }

  lemma RoomIs(m: Manager, side: Side, position: real, limit: real, mid: real, others: real)
    ensures Room(m, side, position, limit, mid, others) == Max(Headroom(m, side, position, limit, mid) - others, 0.0)
  {
    hide Sign;
    var start := Baseline(m);
    SignTimes(side, position, mid);
    SignTimes(side, position - start, mid);
    Turns(position, start, mid);
    SmallerLessOthers(limit - Sign(side) * position * mid, others,
                      if m.cfg.absoluteCap.None? then 0.0
                      else m.cfg.absoluteCap.value - Sign(side) * (position - start) * mid);
  }

  lemma SmallerLessOthers(a: real, others: real, b: real)
    ensures Max(Min(a, b) - others, 0.0)
      == if b - others < a - others then Max(b - others, 0.0) else Max(a - others, 0.0)
  {
  }

  /** A quote that may not be acted upon changes nothing, an unusable limit sends
      nothing, and a level that is not quoted keeps its slot. */
  lemma QuietQuote(m: Manager, q: Quote, position: real, limit: real, now: int)
    requires QuoteShape(q) && Configured(m.cfg)
    requires !MayQuote(m, q) || (limit > 0.0 && m.cfg.capFromStart && m.baseline.None?)
    ensures OnQuote(m, q, position, limit, now) == (m, [])
  {
  }

  lemma UnquotedLevelStays(m: Manager, q: Quote, position: real, limit: real, now: int, side: Side, level: nat)
    requires QuoteShape(q) && Configured(m.cfg) && limit > 0.0 && level < MAX_ORDER_LEVELS
    requires level >= m.cfg.numLevels || level >= q.numLevels || QuotePrice(q, side, level) <= 0.0
    ensures SlotsOf(OnQuote(m, q, position, limit, now).0, side)[level] == SlotsOf(m, side)[level]
  {
    hide QuoteSide;
    if MayQuote(m, q) && !(m.cfg.capFromStart && m.baseline.None?) {
      SlotOfQuote(m, q, position, limit, now, side, level);
    }
  }

  /** A side's slots after a quote are those after its own loop. */
  lemma SlotOfQuote(m: Manager, q: Quote, position: real, limit: real, now: int, side: Side, level: nat)
    requires QuoteShape(q) && Configured(m.cfg) && limit > 0.0 && level < MAX_ORDER_LEVELS
    requires MayQuote(m, q) && (m.cfg.capFromStart ==> m.baseline.Some?)
    ensures var h := Headroom(m, side, position, limit, q.mid);
      var (m1, ds) := OnQuote(m, q, position, limit, now);
      exists n: Manager ::
        && n.cfg == m.cfg && SlotsOf(n, side) == SlotsOf(m, side)
        && (var (n1, d1) := QuoteSide(n, q, side, h, now, LevelsQuoted(m, q));
            SlotsOf(m1, side) == SlotsOf(n1, side) && forall d :: d in d1 ==> d in ds)
    ensures level >= m.cfg.numLevels || level >= q.numLevels || QuotePrice(q, side, level) <= 0.0 ==>
      SlotsOf(OnQuote(m, q, position, limit, now).0, side)[level] == SlotsOf(m, side)[level]
  {
    hide QuoteSide, Headroom, QuoteLevel;
    var count := LevelsQuoted(m, q);
    var buy, sell := Headroom(m, Buy, position, limit, q.mid), Headroom(m, Sell, position, limit, q.mid);
    var (m1, d1) := QuoteSide(m, q, Buy, buy, now, count);
    var (m2, d2) := QuoteSide(m1, q, Sell, sell, now, count);
    assert OnQuote(m, q, position, limit, now) == (m2, d1 + d2);
    SideLaw(m, q, Buy, buy, now, count, level);
    SideLaw(m1, q, Sell, sell, now, count, level);
    UnpricedLevelStays(if side == Buy then m else m1, q, side, if side == Buy then buy else sell, now, level);
    if side == Buy {
      assert SlotsOf(m2, Buy) == SlotsOf(m1, Buy);
    }
  }

  lemma UnpricedLevelStays(m: Manager, q: Quote, side: Side, headroom: real, now: int, level: nat)
    requires QuoteShape(q) && m.cfg.lot > 0.0 && level < MAX_ORDER_LEVELS
    ensures QuotePrice(q, side, level) <= 0.0 ==>
      QuoteLevel(QuoteSide(m, q, side, headroom, now, level).0, q, side, headroom, now, level).0
        == QuoteSide(m, q, side, headroom, now, level).0
  {
    hide QuoteSide;
  }

  /** Every quoted level answers for its slot: an empty one is filled with the best
      quantity or stays empty, a pending order stays unless it no longer fits, a
      live one also unless its price is far off, it is too old or its size is off. */
  lemma QuoteLaw(m: Manager, q: Quote, position: real, limit: real, now: int, side: Side, level: nat, qty: real)
    requires QuoteShape(q) && Configured(m.cfg) && limit > 0.0
    requires MayQuote(m, q) && (m.cfg.capFromStart ==> m.baseline.Some?)
    requires level < m.cfg.numLevels && level < q.numLevels && QuotePrice(q, side, level) > 0.0
    requires var m1 := OnQuote(m, q, position, limit, now).0;
      var others := Taken(if level == 0 then SlotsOf(m, side)[1] else SlotsOf(m1, side)[0], q.mid);
      BestQty(m.cfg, q.quantity, QuotePrice(q, side, level), q.mid, Room(m, side, position, limit, q.mid, others), qty)
    ensures var (m1, ds) := OnQuote(m, q, position, limit, now);
      var others := Taken(if level == 0 then SlotsOf(m, side)[1] else SlotsOf(m1, side)[0], q.mid);
      Answered(m.cfg, SlotsOf(m, side)[level], SlotsOf(m1, side)[level], ds, side, level, QuotePrice(q, side, level),
               q.mid, Room(m, side, position, limit, q.mid, others), qty, now)
  {
    hide OnQuote, QuoteSide, QuoteLevel, Headroom, Room, BestQty, Answered, Taken, SlotsOf;
    SlotOfQuote(m, q, position, limit, now, side, level);
    var h := Headroom(m, side, position, limit, q.mid);
    var (m1, ds) := OnQuote(m, q, position, limit, now);
    var n: Manager :|
      && n.cfg == m.cfg && SlotsOf(n, side) == SlotsOf(m, side)
      && (var (n1, d1) := QuoteSide(n, q, side, h, now, LevelsQuoted(m, q));
          SlotsOf(m1, side) == SlotsOf(n1, side) && forall d :: d in d1 ==> d in ds);
    SideLaw(n, q, side, h, now, LevelsQuoted(m, q), level);
    var others := Taken(if level == 0 then SlotsOf(m, side)[1] else SlotsOf(m1, side)[0], q.mid);
    RoomIs(m, side, position, limit, q.mid, others);
    var n0 := QuoteSide(n, q, side, h, now, level).0;
    var room := Room(m, side, position, limit, q.mid, others);
    LevelLaw(n0, q, side, h, now, level, room, qty);
    AnsweredMore(m.cfg, SlotsOf(m, side)[level], SlotsOf(m1, side)[level], QuoteLevel(n0, q, side, h, now, level).1, ds,
                 side, level, QuotePrice(q, side, level), q.mid, room, qty, now);
  }

  /** So an order still live at a quoted level is in line with the quote. */
  lemma LiveMeansInLine(m: Manager, q: Quote, position: real, limit: real, now: int, side: Side, level: nat)
    requires QuoteShape(q) && Configured(m.cfg) && limit > 0.0
    requires MayQuote(m, q) && (m.cfg.capFromStart ==> m.baseline.Some?)
    requires level < m.cfg.numLevels && level < q.numLevels && QuotePrice(q, side, level) > 0.0
    ensures var b := SlotsOf(OnQuote(m, q, position, limit, now).0, side)[level];
      b.Some? && b.value.state == Live ==>
        !FarOff(m.cfg, b.value.ord.price, QuotePrice(q, side, level)) && !Outlived(m.cfg, b.value.sentAt, now)
  {
    hide OnQuote, Room, BestQty, Taken, FarOff, Outlived, Misfit, Resized, QuoteQty;
    var m1 := OnQuote(m, q, position, limit, now).0;
    var others := Taken(if level == 0 then SlotsOf(m, side)[1] else SlotsOf(m1, side)[0], q.mid);
    var room := Room(m, side, position, limit, q.mid, others);
    var qty := QuoteQty(m.cfg, q.quantity, QuotePrice(q, side, level), q.mid, room);
    QuotesBestQty(m.cfg, q.quantity, QuotePrice(q, side, level), q.mid, room);
    QuoteLaw(m, q, position, limit, now, side, level, qty);
  }

  lemma AnsweredMore(c: Config, a: Option<LiveOrder>, b: Option<LiveOrder>, few: seq<Decision>, ds: seq<Decision>,
                     side: Side, level: nat, price: real, mid: real, room: real, qty: real, now: int)
    requires Answered(c, a, b, few, side, level, price, mid, room, qty, now) && forall d :: d in few ==> d in ds
    ensures Answered(c, a, b, ds, side, level, price, mid, room, qty, now)
  {
    hide Misfit, FarOff;
  }

  // -------------------------------------------------------------- counters

  function Replacements(ds: seq<Decision>): nat {
    if ds == [] then 0 else Replacements(ds[..|ds| - 1]) + (if ds[|ds| - 1].CancelAndReplace? then 1 else 0)
  }

  lemma {:induction false} ReplacementsConcat(a: seq<Decision>, b: seq<Decision>)
    ensures Replacements(a + b) == Replacements(a) + Replacements(b)
  {
    if b == [] {
      assert a + b == a;
    } else {
      var c := a + b;
      assert c[..|c| - 1] == a + b[..|b| - 1];
      ReplacementsConcat(a, b[..|b| - 1]);
    }
  }

  /** The counters say how many orders were sent and how many replaced. */
  ghost predicate Counted(m: Manager, m1: Manager, ds: seq<Decision>) {
    m1.stats == m.stats.(sent := m.stats.sent + |Sends(ds)|, reprices := m.stats.reprices + Replacements(ds))
  }

  lemma OneCounts(d: Decision)
    ensures Sends([d]) == (if d.Send? then [d.order] else [])
    ensures Replacements([d]) == (if d.CancelAndReplace? then 1 else 0)
    ensures Sends([]) == [] && Replacements([]) == 0
  {
    assert [d][..0] == [];
  }

  lemma CountsAdd(m: Manager, m1: Manager, m2: Manager, a: seq<Decision>, b: seq<Decision>)
    requires Counted(m, m1, a) && Counted(m1, m2, b)
    ensures Counted(m, m2, a + b)
  {
    SendsConcat(a, b);
    ReplacementsConcat(a, b);
  }

  lemma LevelCounts(m: Manager, q: Quote, side: Side, headroom: real, now: int, level: nat)
    requires QuoteShape(q) && level < MAX_ORDER_LEVELS && m.cfg.lot > 0.0
    ensures var (m1, ds) := QuoteLevel(m, q, side, headroom, now, level); Counted(m, m1, ds)
  {
    hide QuoteQty, ReservedByOthers, Exceeds, ShouldReprice, Sends, Replacements;
    OneCounts(Cancel(ClientId(0, 0, 0)));
    var (m1, ds) := QuoteLevel(m, q, side, headroom, now, level);
    if ds != [] {
      OneCounts(ds[0]);
      assert ds == [ds[0]];
    }
  }

  lemma {:induction false} SideCounts(m: Manager, q: Quote, side: Side, headroom: real, now: int, count: nat)
    requires QuoteShape(q) && count <= MAX_ORDER_LEVELS && m.cfg.lot > 0.0
    ensures var (m1, ds) := QuoteSide(m, q, side, headroom, now, count); Counted(m, m1, ds)
  {
    hide QuoteLevel, Counted;
    if count == 0 {
      OneCounts(Cancel(ClientId(0, 0, 0)));
      NothingCounted(m);
    } else {
      SideCounts(m, q, side, headroom, now, count - 1);
      var (m1, d1) := QuoteSide(m, q, side, headroom, now, count - 1);
      LevelCounts(m1, q, side, headroom, now, count - 1);
      var (m2, d2) := QuoteLevel(m1, q, side, headroom, now, count - 1);
      CountsAdd(m, m1, m2, d1, d2);
    }
  }

  lemma NothingCounted(m: Manager)
    ensures Counted(m, m, [])
  {
  }

  /** A quote counts every order it sends and every one it replaces. */
  lemma QuoteCounts(m: Manager, q: Quote, position: real, limit: real, now: int)
    requires QuoteShape(q) && Configured(m.cfg) && limit > 0.0
    ensures var (m1, ds) := OnQuote(m, q, position, limit, now); Counted(m, m1, ds)
  {
    hide QuoteSide, Headroom, Counted;
    NothingCounted(m);
    if MayQuote(m, q) && !(m.cfg.capFromStart && m.baseline.None?) {
      var count := LevelsQuoted(m, q);
      var buy, sell := Headroom(m, Buy, position, limit, q.mid), Headroom(m, Sell, position, limit, q.mid);
      SideCounts(m, q, Buy, buy, now, count);
      var (m1, d1) := QuoteSide(m, q, Buy, buy, now, count);
      SideCounts(m1, q, Sell, sell, now, count);
      var (m2, d2) := QuoteSide(m1, q, Sell, sell, now, count);
      CountsAdd(m, m1, m2, d1, d2);
    }
  }
}
