// How each operation moves the slots: an order stays put or leaves, a bound
// exchange id is never replaced, and only acceptance ends the pending state of
// an order that was never asked to cancel.
module SlotHistory {
  import opened Orders
  import opened ExecutionState
  import opened ManagerModel
  import opened ManagerInvariants
  import opened HandlerProofs
  import opened EventLoop
  import S = OrderSocket

  /** An exchange id given to a client id. */
  type Binding = Option<(ClientId, int)>

  /** `b` is the same order's slot later: its id is kept or bound as told, and it
      is pending only if it was. */
  predicate Continues(a: Option<LiveOrder>, b: LiveOrder, bind: Binding) {
    && a.Some? && b.ord == a.value.ord
    && (a.value.orderId.Some? ==> b.orderId == a.value.orderId)
    && (a.value.orderId.None? && b.orderId.Some? ==> bind == Some((b.ord.id, b.orderId.value)))
    && (a.value.state != Pending ==> b.state != Pending)
  }

  predicate Moves(nextNumber: nat, a: Option<LiveOrder>, b: Option<LiveOrder>, bind: Binding, anew: bool) {
    b.Some? ==>
      || Continues(a, b.value, bind)
      || (anew && b.value.ord.id.number >= nextNumber && b.value.orderId.None?)
  }

  /** What one operation does to all four slots; `anew` allows new orders. */
  predicate Evolves(m: Manager, m1: Manager, bind: Binding, anew: bool) {
    && m.nextNumber <= m1.nextNumber
    && Moves(m.nextNumber, m.bids[0], m1.bids[0], bind, anew) && Moves(m.nextNumber, m.bids[1], m1.bids[1], bind, anew)
    && Moves(m.nextNumber, m.asks[0], m1.asks[0], bind, anew) && Moves(m.nextNumber, m.asks[1], m1.asks[1], bind, anew)
  }

  lemma SameSlotsEvolve(m: Manager, m1: Manager)
    requires m1.bids == m.bids && m1.asks == m.asks && m.nextNumber <= m1.nextNumber
    ensures Evolves(m, m1, None, false)
  {
  }

  lemma EvolvesChains(m: Manager, m1: Manager, m2: Manager, bind: Binding, anew: bool, anew': bool)
    requires Evolves(m, m1, bind, anew) && Evolves(m1, m2, None, anew')
    ensures Evolves(m, m2, bind, anew || anew')
  {
  }

  lemma WriteEvolves(m: Manager, p: Place, slot: Option<LiveOrder>, m1: Manager, bind: Binding, anew: bool)
    requires p.level < MAX_ORDER_LEVELS && m.nextNumber <= m1.nextNumber
    requires var w := WithSlot(m, p.side, p.level, slot); m1.bids == w.bids && m1.asks == w.asks
    requires Moves(m.nextNumber, At(m, p), slot, bind, anew)
    ensures Evolves(m, m1, bind, anew)
  {
    assert p.level == 0 || p.level == 1;
  }

  // ---------------------------------------------------------------- handlers

  lemma ClearEvolves(m: Manager, key: Key)
    ensures Evolves(m, ClearKey(m, key), None, false)
  {
    hide Find;
    var p := Find(m, key);
    if p.Some? {
      WriteEvolves(m, p.value, None, ClearKey(m, key), None, false);
    }
  }

  lemma AcceptedEvolves(m: Manager, id: ClientId, orderId: int)
    requires Sound(m)
    ensures Evolves(m, OnAccepted(m, id, orderId).0, if orderId != 0 then Some((id, orderId)) else None, false)
  {
    var p := Find(m, ByClient(id));
    if p.Some? {
      assert At(m, p.value).value.orderId != Some(0) by {
        assert p.value.level == 0 || p.value.level == 1;
      }
      hide Sound, Find;
      if !IdentityConflict(m, At(m, p.value).value, orderId) {
        WriteEvolves(m, p.value, Some(Accept(At(m, p.value).value, orderId)), OnAccepted(m, id, orderId).0,
                     if orderId != 0 then Some((id, orderId)) else None, false);
      }
    }
  }

  lemma CanceledEvolves(m: Manager, key: Key)
    ensures Evolves(m, OnCanceled(m, key).0, None, false)
  {
    hide Find;
    ClearEvolves(m, key);
  }

  lemma FillEvolves(m: Manager, orderId: int, client: Option<ClientId>, full: bool, version: nat)
    ensures Evolves(m, OnFill(m, orderId, client, full, version).0, None, false)
  {
    hide Find;
    var p := Find(m, ByFill(orderId, client));
    if p.Some? && full {
      WriteEvolves(m, p.value, None, OnFill(m, orderId, client, full, version).0, None, false);
    }
  }

  lemma CancelFailedEvolves(m: Manager, orderId: int)
    ensures Evolves(m, OnCancelFailed(m, orderId), None, false)
  {
    hide CancelFailureAt;
    var p := CancelFailureAt(m, orderId);
    if p.Some? {
      var o := At(m, p.value).value;
      var fails := o.cancelFails + 1;
      var o1 := if fails >= MAX_CANCEL_FAILURES then o.(cancelFails := fails)
                else o.(cancelFails := fails, state := Live);
      WriteEvolves(m, p.value, Some(o1), OnCancelFailed(m, orderId), None, false);
    }
  }

  lemma DispatchFailedEvolves(m: Manager, d: Decision)
    ensures Evolves(m, OnDispatchFailed(m, d), None, false)
  {
    if d.Send? {
      ClearEvolves(m, ByClient(d.order.id));
    }
  }

  function EventBinds(e: S.Event): Binding {
    if e.OrderAccepted? && e.orderId != 0 then Some((e.id, e.orderId)) else None
  }

  lemma HandleEvolves(m: Manager, e: S.Event, version: nat)
    requires Sound(m)
    ensures Evolves(m, Handle(m, e, version).0, EventBinds(e), false)
  {
    hide Find, OnAccepted, OnCanceled, OnFill, OnCancelFailed, Sound, ClearKey;
    match e {
      case OrderAccepted(id, orderId) => AcceptedEvolves(m, id, orderId);
      case OrderRejected(id) => ClearEvolves(m, ByClient(id));
      case OrderFilledEvent(orderId, client, status, qtyUsable) =>
        FillEvolves(m, orderId, client, status == Some(S.Filled), version);
      case OrderCanceled(orderId, client) =>
        if client.Some? {
          CanceledEvolves(m, ByClient(client.value));
          var m1 := OnCanceled(m, ByClient(client.value)).0;
          CanceledEvolves(m1, ByExchange(orderId));
          EvolvesChains(m, m1, OnCanceled(m1, ByExchange(orderId)).0, None, false, false);
        } else {
          CanceledEvolves(m, ByExchange(orderId));
        }
      case CancelFailed(orderId) => CancelFailedEvolves(m, orderId);
      case _ =>
    }
  }

  // --------------------------------------------------------------- quoting

  lemma CancelSlotEvolves(m: Manager, side: Side, level: nat, now: int)
    requires level < MAX_ORDER_LEVELS && SlotsOf(m, side)[level].Some?
    ensures Evolves(m, WithSlot(m, side, level, Some(SetCanceling(SlotsOf(m, side)[level].value, now))), None, false)
  {
    WriteEvolves(m, Place(side, level), Some(SetCanceling(SlotsOf(m, side)[level].value, now)),
                 WithSlot(m, side, level, Some(SetCanceling(SlotsOf(m, side)[level].value, now))), None, false);
  }

  lemma ProcessEvolves(m: Manager, side: Side, level: nat, price: real, qty: real, now: int)
    requires level < MAX_ORDER_LEVELS
    ensures Evolves(m, ProcessSideLevel(m, side, level, price, qty, now).0, None, true)
  {
    hide ShouldReprice;
    var m1 := ProcessSideLevel(m, side, level, price, qty, now).0;
    if SlotsOf(m, side)[level].None? {
      var order := Order(FreshId(m, level), side, level, price, qty);
      WriteEvolves(m, Place(side, level), Some(LiveOrder(order, None, Pending, now, 0)), m1, None, true);
    } else if m1 != m {
      WriteEvolves(m, Place(side, level), Some(SetCanceling(SlotsOf(m, side)[level].value, now)), m1, None, true);
    }
  }

  lemma QuoteLevelEvolves(m: Manager, q: Quote, side: Side, headroom: real, now: int, level: nat)
    requires QuoteShape(q) && level < MAX_ORDER_LEVELS && m.cfg.lot > 0.0
    ensures Evolves(m, QuoteLevel(m, q, side, headroom, now, level).0, None, true)
  {
    hide QuoteQty, ReservedByOthers, Exceeds, ProcessSideLevel;
    if SlotsOf(m, side)[level].Some? {
      CancelSlotEvolves(m, side, level, now);
    }
    forall price, qty
      ensures Evolves(m, ProcessSideLevel(m, side, level, price, qty, now).0, None, true)
    {
      ProcessEvolves(m, side, level, price, qty, now);
    }
  }

  lemma {:induction false} QuoteSideEvolves(m: Manager, q: Quote, side: Side, headroom: real, now: int, count: nat)
    requires QuoteShape(q) && count <= MAX_ORDER_LEVELS && m.cfg.lot > 0.0
    ensures Evolves(m, QuoteSide(m, q, side, headroom, now, count).0, None, true)
  {
    if count > 0 {
      QuoteSideEvolves(m, q, side, headroom, now, count - 1);
      var m1 := QuoteSide(m, q, side, headroom, now, count - 1).0;
      QuoteLevelEvolves(m1, q, side, headroom, now, count - 1);
      EvolvesChains(m, m1, QuoteLevel(m1, q, side, headroom, now, count - 1).0, None, true, true);
    }
  }

  lemma {:induction false} CancelSideEvolves(m: Manager, side: Side, now: int, count: nat)
    requires count <= MAX_ORDER_LEVELS
    ensures Evolves(m, CancelSide(m, side, now, count).0, None, false)
  {
    if count > 0 {
      CancelSideEvolves(m, side, now, count - 1);
      var m1 := CancelSide(m, side, now, count - 1).0;
      if SlotsOf(m1, side)[count - 1].Some? {
        CancelSlotEvolves(m1, side, count - 1, now);
      }
      SameSlotsEvolve(m1, m1);
      EvolvesChains(m, m1, CancelSide(m, side, now, count).0, None, false, false);
    }
  }

  lemma OnQuoteEvolves(m: Manager, q: Quote, position: real, limit: real, now: int)
    requires QuoteShape(q) && Configured(m.cfg)
    ensures Evolves(m, OnQuote(m, q, position, limit, now).0, None, true)
  {
    hide QuoteSide, CancelSide, Headroom;
    if limit <= 0.0 {
      var p := m.(exec := m.exec.SetPause(RiskData));
      SameSlotsEvolve(m, p);
      CancelSideEvolves(p, Buy, now, MAX_ORDER_LEVELS);
      var m1 := CancelSide(p, Buy, now, MAX_ORDER_LEVELS).0;
      CancelSideEvolves(m1, Sell, now, MAX_ORDER_LEVELS);
      EvolvesChains(p, m1, CancelSide(m1, Sell, now, MAX_ORDER_LEVELS).0, None, false, false);
      EvolvesChains(m, p, CancelExposure(p, now).0, None, false, false);
    } else {
      var count := LevelsQuoted(m, q);
      var buy, sell := Headroom(m, Buy, position, limit, q.mid), Headroom(m, Sell, position, limit, q.mid);
      QuoteSideEvolves(m, q, Buy, buy, now, count);
      var m1 := QuoteSide(m, q, Buy, buy, now, count).0;
      QuoteSideEvolves(m1, q, Sell, sell, now, count);
      EvolvesChains(m, m1, QuoteSide(m1, q, Sell, sell, now, count).0, None, true, true);
    }
    SameSlotsEvolve(m, m);
  }

  // ------------------------------------------------------------ consequences

  lemma StayOrShrink(a: Option<LiveOrder>, b: Option<LiveOrder>, nextNumber: nat, bind: Binding, mid: real)
    requires Moves(nextNumber, a, b, bind, false) && mid > 0.0
    requires a.Some? ==> a.value.ord.qty > 0.0
    ensures Mark(b, mid) <= Mark(a, mid)
  {
    if a.Some? {
      assert Max(a.value.ord.price, mid) > 0.0;
      assert Mark(a, mid) >= 0.0;
    }
  }

  /** Without new orders a side's reserved sum never grows. */
  lemma ReservedNeverGrows(m: Manager, m1: Manager, bind: Binding, side: Side, mid: real)
    requires Sound(m) && Evolves(m, m1, bind, false) && mid > 0.0
    ensures SideMarks(SlotsOf(m1, side), mid) <= SideMarks(SlotsOf(m, side), mid)
  {
    hide Mark;
    StayOrShrink(SlotsOf(m, side)[0], SlotsOf(m1, side)[0], m.nextNumber, bind, mid);
    StayOrShrink(SlotsOf(m, side)[1], SlotsOf(m1, side)[1], m.nextNumber, bind, mid);
  }

  /** An order already issued is found in a slot later only if it was there before,
      with the same exchange id once bound, and not pending once it was not. */
  lemma OldOrdersStayPut(m: Manager, m1: Manager, bind: Binding, anew: bool, p: Place)
    requires Evolves(m, m1, bind, anew) && p.level < MAX_ORDER_LEVELS
    requires At(m1, p).Some? && At(m1, p).value.ord.id.number < m.nextNumber
    ensures Continues(At(m, p), At(m1, p).value, bind)
  {
    assert p.level == 0 || p.level == 1;
  }
}
