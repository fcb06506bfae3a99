// The order manager as the source has it: an object whose handlers overwrite
// its slots, counters and pause state in place.
module OrderManager {
  import opened Orders
  import opened ExecutionState
  import opened ManagerModel
  import opened SharedPosition

  class OrderManager {
    var cfg: Config
    const bids: array<Option<LiveOrder>>
    const asks: array<Option<LiveOrder>>
    const position: SharedPosition
    const execution: ExecutionState
    var nextNumber: nat
    var retired: nat
    var stats: Stats
    var rejectRun: nat
    var baseline: Option<real>
    var gate: Option<nat>

    ghost predicate Valid()
      reads this
    {
      bids.Length == MAX_ORDER_LEVELS && asks.Length == MAX_ORDER_LEVELS && bids != asks && Configured(cfg)
    }

    ghost function Model(): Manager
      reads this, bids, asks, execution
      requires bids.Length == MAX_ORDER_LEVELS && asks.Length == MAX_ORDER_LEVELS
    {
      Manager(cfg, bids[..], asks[..], nextNumber, retired, stats, execution.Model(), rejectRun, baseline, gate)
    }

    constructor (cfg: Config, position: SharedPosition)
      requires Configured(cfg)
      ensures Valid() && fresh(bids) && fresh(asks) && fresh(execution) && this.position == position
      ensures Model()
        == Manager(cfg, [None, None], [None, None], 1, 0, Stats(0, 0, 0, 0, 0, 0), Exec({}, 0, false), 0, None, None)
    {
      this.cfg := cfg;
      this.position := position;
      bids := new Option<LiveOrder>[MAX_ORDER_LEVELS](_ => None);
      asks := new Option<LiveOrder>[MAX_ORDER_LEVELS](_ => None);
      execution := new ExecutionState();
      nextNumber, retired, rejectRun := 1, 0, 0;
      stats := Stats(0, 0, 0, 0, 0, 0);
      baseline, gate := None, None;
    }

    /** New exchange precision; slots already filled keep their quantities. */
    method SetPrecision(lot: real, minQty: real)
      requires Valid() && lot > 0.0
      modifies `cfg
      ensures Valid()
      ensures Model() == old(Model()).(cfg := old(cfg).(lot := lot, minQty := minQty))
    {
      cfg := cfg.(lot := lot, minQty := minQty);
    }

    // ---------------------------------------------------------------- slots

    method SetSlot(side: Side, level: nat, slot: Option<LiveOrder>)
      requires Valid() && level < MAX_ORDER_LEVELS
      modifies bids, asks
      ensures Model() == WithSlot(old(Model()), side, level, slot)
    {
      match side {
        case Buy => bids[level] := slot;
        case Sell => asks[level] := slot;
      }
      assert bids[..] == if side == Buy then old(bids[..])[level := slot] else old(bids[..]);
      assert asks[..] == if side == Sell then old(asks[..])[level := slot] else old(asks[..]);
    }

    method GetSlot(side: Side, level: nat) returns (slot: Option<LiveOrder>)
      requires Valid() && level < MAX_ORDER_LEVELS
      ensures slot == SlotsOf(Model(), side)[level]
    {
      slot := if side == Buy then bids[level] else asks[level];
    }

    /** Level by level, bid before ask. */
    method FindOrder(key: Key) returns (place: Option<Place>)
      requires Valid()
      ensures place == Find(Model(), key)
    {
      for level := 0 to MAX_ORDER_LEVELS
        invariant Find(Model(), key) == FirstHit(Model(), key, level)
      {
        if Hit(key, bids[level]) {
          return Some(Place(Buy, level));
        }
        if Hit(key, asks[level]) {
          return Some(Place(Sell, level));
        }
      }
      place := None;
    }

    method ClearOrder(key: Key)
      requires Valid()
      modifies bids, asks
      ensures Model() == ClearKey(old(Model()), key)
    {
      var place := FindOrder(key);
      if place.Some? {
        SetSlot(place.value.side, place.value.level, None);
      }
    }

    // -------------------------------------------------------------- quoting

    method GenerateClientId(level: nat) returns (id: ClientId)
      requires Valid()
      modifies `nextNumber
      ensures id == FreshId(old(Model()), level)
      ensures Model() == old(Model()).(nextNumber := old(nextNumber) + 1)
    {
      id := ClientId(level, execution.generation, nextNumber);
      nextNumber := nextNumber + 1;
    }

    method ProcessSideLevel(side: Side, level: nat, newPrice: real, qty: real, now: int)
      returns (decision: Option<Decision>)
      requires Valid() && level < MAX_ORDER_LEVELS
      modifies this, bids, asks
      ensures Valid()
      ensures (Model(), if decision.Some? then [decision.value] else []) ==
        ManagerModel.ProcessSideLevel(old(Model()), side, level, newPrice, qty, now)
    {
      var slot := GetSlot(side, level);
      match slot {
        case None =>
          var id := GenerateClientId(level);
          var order := Order(id, side, level, newPrice, qty);
          SetSlot(side, level, Some(LiveOrder(order, None, Pending, now, 0)));
          stats := stats.(sent := stats.sent + 1);
          decision := Some(Send(order));
        case Some(o) =>
          if o.state == Pending || o.state == Canceling {
            return None;
          }
          var priceChanged := ShouldReprice(cfg, o.ord.price, newPrice);
          var tooOld := cfg.maxLiveAgeNs > 0 && now - o.sentAt > cfg.maxLiveAgeNs;
          var qtyChanged := Abs(o.ord.qty - qty) >= cfg.lot * 0.5;
          if priceChanged || tooOld || qtyChanged {
            SetSlot(side, level, Some(SetCanceling(o, now)));
            stats := stats.(reprices := stats.reprices + 1);
            decision := Some(CancelAndReplace(o.ord.id, level, newPrice, qty));
          } else {
            decision := None;
          }
      }
    }

    /** Sum what the other slots of a side reserve. */
    method ReservedElsewhere(side: Side, level: nat, mid: real) returns (reserved: real)
      requires Valid() && level < MAX_ORDER_LEVELS
      ensures reserved == ReservedByOthers(SlotsOf(Model(), side), level, mid)
    {
      var orders := if side == Buy then bids else asks;
      reserved := 0.0;
      for index := 0 to MAX_ORDER_LEVELS
        invariant reserved == (if index > 0 then MarkUnless(level == 0, orders[0], mid) else 0.0)
                            + (if index > 1 then MarkUnless(level == 1, orders[1], mid) else 0.0)
      {
        if index != level && orders[index].Some? {
          reserved := reserved + orders[index].value.ord.qty * Max(orders[index].value.ord.price, mid);
        }
      }
    }

    method QuoteLevelInto(q: Quote, side: Side, headroom: real, now: int, level: nat) returns (decisions: seq<Decision>)
      requires Valid() && QuoteShape(q) && level < MAX_ORDER_LEVELS
      modifies this, bids, asks
      ensures Valid()
      ensures (Model(), decisions) == QuoteLevel(old(Model()), q, side, headroom, now, level)
    {
      var price := if side == Buy then q.bids[level] else q.asks[level];
      if price <= 0.0 {
        return [];
      }
      var reserved := ReservedElsewhere(side, level, q.mid);
      var budget := Max(headroom - reserved, 0.0);
      var qty := QuoteQty(cfg, q.quantity, price, q.mid, budget);
      var slot := GetSlot(side, level);
      if slot.Some? {
        var exceeds := Exceeds(cfg, slot.value.ord, q.mid, budget);
        if (exceeds || qty == 0.0) && slot.value.state != Canceling {
          SetSlot(side, level, Some(SetCanceling(slot.value, now)));
          return [Cancel(slot.value.ord.id)];
        }
      }
      decisions := [];
      if qty > 0.0 {
        var decision := ProcessSideLevel(side, level, price, qty, now);
        if decision.Some? {
          decisions := [decision.value];
        }
      }
    }

    method QuoteSideInto(q: Quote, side: Side, headroom: real, now: int, count: nat) returns (decisions: seq<Decision>)
      requires Valid() && QuoteShape(q) && count <= MAX_ORDER_LEVELS
      modifies this, bids, asks
      ensures Valid()
      ensures (Model(), decisions) == QuoteSide(old(Model()), q, side, headroom, now, count)
    {
      decisions := [];
      for level := 0 to count
        invariant Valid()
        invariant (Model(), decisions) == QuoteSide(old(Model()), q, side, headroom, now, level)
      {
        var more := QuoteLevelInto(q, side, headroom, now, level);
        decisions := decisions + more;
      }
    }

    method CancelSideInto(side: Side, now: int) returns (decisions: seq<Decision>)
      requires Valid()
      modifies bids, asks
      ensures (Model(), decisions) == CancelSide(old(Model()), side, now, MAX_ORDER_LEVELS)
    {
      decisions := [];
      for level := 0 to MAX_ORDER_LEVELS
        invariant (Model(), decisions) == CancelSide(old(Model()), side, now, level)
      {
        var slot := GetSlot(side, level);
        if slot.Some? && slot.value.state != Canceling {
          SetSlot(side, level, Some(SetCanceling(slot.value, now)));
          decisions := decisions + [Cancel(slot.value.ord.id)];
        }
      }
    }

    method HeadroomFor(side: Side, held: real, limit: real, mid: real) returns (headroom: real)
      requires Valid()
      ensures headroom == Headroom(Model(), side, held, limit, mid)
    {
      var sign := Sign(side);
      headroom := limit - sign * held * mid;
      if cfg.absoluteCap.Some? {
        var base := if cfg.capFromStart && baseline.Some? then baseline.value else 0.0;
        headroom := Min(headroom, cfg.absoluteCap.value - sign * (held - base) * mid);
      }
    }

    /** The hot path. `limit` is the position limit read from shared equity. */
    method OnQuoteInto(q: Quote, limit: real, now: int) returns (decisions: seq<Decision>)
      requires Valid() && QuoteShape(q)
      modifies this, bids, asks, execution
      ensures Valid()
      ensures (Model(), decisions) == OnQuote(old(Model()), q, position.position, limit, now)
    {
      if execution.shutdown || execution.pauseReasons != {} {
        return [];
      }
      if !q.validForTrading || q.mid <= 0.0 || q.quantity <= 0.0 {
        return [];
      }
      var held := position.position;
      if limit <= 0.0 {
        execution.SetPauseReason(RiskData);
        var bidCancels := CancelSideInto(Buy, now);
        var askCancels := CancelSideInto(Sell, now);
        return bidCancels + askCancels;
      }
      if cfg.capFromStart && baseline.None? {
        return [];
      }
      var count := if cfg.numLevels <= q.numLevels then cfg.numLevels else q.numLevels;
      var buyRoom := HeadroomFor(Buy, held, limit, q.mid);
      var sellRoom := HeadroomFor(Sell, held, limit, q.mid);
      var bidDecisions := QuoteSideInto(q, Buy, buyRoom, now, count);
      var askDecisions := QuoteSideInto(q, Sell, sellRoom, now, count);
      decisions := bidDecisions + askDecisions;
    }

    // ------------------------------------------------------------- handlers

    method OnOrderAccepted(id: ClientId, orderId: int) returns (ok: bool)
      requires Valid()
      modifies this, bids, asks
      ensures Valid()
      ensures (Model(), ok) == OnAccepted(old(Model()), id, orderId)
    {
      var place := FindOrder(ByClient(id));
      if place.None? {
        return false;
      }
      var slot := GetSlot(place.value.side, place.value.level);
      var o := slot.value;
      if orderId != 0 {
        if o.orderId.Some? && o.orderId.value != 0 && o.orderId.value != orderId {
          return false;
        }
        for level := 0 to MAX_ORDER_LEVELS
          invariant forall l :: 0 <= l < level ==>
            !BoundElsewhere(bids[l], id, orderId) && !BoundElsewhere(asks[l], id, orderId)
        {
          if BoundElsewhere(bids[level], id, orderId) || BoundElsewhere(asks[level], id, orderId) {
            return false;
          }
        }
      }
      assert !IdentityConflict(Model(), o, orderId);
      rejectRun := 0;
      var bound := if orderId != 0 then o.(orderId := Some(orderId)) else o;
      if o.state == Pending {
        SetSlot(place.value.side, place.value.level, Some(bound.(state := Live)));
        stats := stats.(accepted := stats.accepted + 1);
      } else {
        SetSlot(place.value.side, place.value.level, Some(bound));
      }
      ok := true;
    }

    method OnOrderRejected(id: ClientId)
      requires Valid()
      modifies this, bids, asks, execution
      ensures Valid()
      ensures Model() == OnRejected(old(Model()), id)
    {
      ClearOrder(ByClient(id));
      stats := stats.(rejections := stats.rejections + 1);
      rejectRun := rejectRun + 1;
      if cfg.breakerRejections > 0 && rejectRun >= cfg.breakerRejections {
        execution.SetPauseReason(CircuitBreaker);
      }
    }

    method OnOrderCanceled(key: Key) returns (found: bool)
      requires Valid() && !key.ByFill?
      modifies this, bids, asks
      ensures Valid()
      ensures (Model(), found) == OnCanceled(old(Model()), key)
    {
      var place := FindOrder(key);
      if place.None? {
        return false;
      }
      ClearOrder(key);
      stats := stats.(canceled := stats.canceled + 1);
      found := true;
    }

    method RequirePositionRefresh()
      requires Valid()
      modifies this, execution
      ensures Valid()
      ensures Model() == RequireRefresh(old(Model()), position.updateVersion)
    {
      var required := position.updateVersion + 2;
      gate := Some(if gate.Some? && gate.value > required then gate.value else required);
      execution.SetPauseReason(RiskData);
    }

    method PositionRefreshComplete() returns (complete: bool)
      requires Valid()
      modifies this
      ensures Valid()
      ensures (Model(), complete) == RefreshComplete(old(Model()), position.updateVersion)
    {
      if gate.None? {
        return true;
      }
      if position.updateVersion < gate.value {
        return false;
      }
      gate := None;
      complete := true;
    }

    method OnOrderFill(orderId: int, client: Option<ClientId>, full: bool) returns (found: bool)
      requires Valid()
      modifies this, bids, asks, execution
      ensures Valid()
      ensures (Model(), found) == OnFill(old(Model()), orderId, client, full, position.updateVersion)
    {
      var place := FindOrder(ByFill(orderId, client));
      if place.None? {
        return false;
      }
      RequirePositionRefresh();
      if full {
        SetSlot(place.value.side, place.value.level, None);
      }
      found := true;
    }

    method OnCancelFailedFor(orderId: int)
      requires Valid()
      modifies this, bids, asks, execution
      ensures Valid()
      ensures Model() == OnCancelFailed(old(Model()), orderId)
    {
      var sides := [Buy, Buy, Sell, Sell];
      var levels := [0, 1, 0, 1];
      var at: Option<Place> := None;
      for n := 0 to 4
        invariant at == None && Valid() && Model() == old(Model())
        invariant forall k :: 0 <= k < n ==> !CancelFailureHits(SlotsOf(Model(), sides[k])[levels[k]], orderId)
      {
        var slot := GetSlot(sides[n], levels[n]);
        if CancelFailureHits(slot, orderId) {
          at := Some(Place(sides[n], levels[n]));
          break;
        }
      }
      assert at == CancelFailureAt(Model(), orderId) by {
        var m := Model();
        assert sides[0] == Buy && sides[1] == Buy && sides[2] == Sell && sides[3] == Sell;
        assert levels[0] == 0 && levels[1] == 1 && levels[2] == 0 && levels[3] == 1;
      }
      if at.None? {
        return;
      }
      var slot := GetSlot(at.value.side, at.value.level);
      var fails := slot.value.cancelFails + 1;
      if fails >= MAX_CANCEL_FAILURES {
        SetSlot(at.value.side, at.value.level, Some(slot.value.(cancelFails := fails)));
        execution.SetPauseReason(Safety);
        execution.SetPauseReason(Reconciliation);
      } else {
        SetSlot(at.value.side, at.value.level, Some(slot.value.(cancelFails := fails, state := Live)));
      }
    }

    method OnDispatchFailedFor(d: Decision)
      requires Valid()
      modifies this, bids, asks
      ensures Valid()
      ensures Model() == OnDispatchFailed(old(Model()), d)
    {
      match d {
        case Send(order) => ClearOrder(ByClient(order.id));
        case _ =>
          for level := 0 to MAX_ORDER_LEVELS
            modifies bids, asks
            invariant forall l :: 0 <= l < MAX_ORDER_LEVELS ==>
              && bids[l] == (if l < level then Revive(old(bids[l]), d.id) else old(bids[l]))
              && asks[l] == (if l < level then Revive(old(asks[l]), d.id) else old(asks[l]))
          {
            bids[level] := Revive(bids[level], d.id);
            asks[level] := Revive(asks[level], d.id);
          }
          assert bids[..] == [Revive(old(bids[0]), d.id), Revive(old(bids[1]), d.id)];
          assert asks[..] == [Revive(old(asks[0]), d.id), Revive(old(asks[1]), d.id)];
      }
    }

    method OverdueOn(side: Side, now: int) returns (decisions: seq<Decision>)
      requires Valid()
      ensures decisions == OverdueCancels(cfg, SlotsOf(Model(), side), now, MAX_ORDER_LEVELS)
    {
      decisions := [];
      for level := 0 to MAX_ORDER_LEVELS
        invariant decisions == OverdueCancels(cfg, SlotsOf(Model(), side), now, level)
      {
        var slot := GetSlot(side, level);
        if slot.Some? && slot.value.state != Live && now - slot.value.sentAt > cfg.pendingTimeoutNs {
          decisions := decisions + [Cancel(slot.value.ord.id)];
        }
      }
    }

    method CheckTimeoutsNow(now: int) returns (decisions: seq<Decision>)
      requires Valid()
      modifies this, execution
      ensures Valid()
      ensures (Model(), decisions) == CheckTimeouts(old(Model()), now)
    {
      var bidCancels := OverdueOn(Buy, now);
      var askCancels := OverdueOn(Sell, now);
      decisions := bidCancels + askCancels;
      if decisions != [] {
        stats := stats.(timeouts := stats.timeouts + |decisions|);
        execution.SetPauseReason(Reconciliation);
      }
    }

    method InitializePositionBaseline()
      requires Valid()
      modifies this
      ensures Valid()
      ensures Model() == InitializeBaseline(old(Model()), position.position)
    {
      if baseline.None? {
        baseline := Some(position.position);
      }
    }

    method ClearAllOrders()
      requires Valid()
      modifies bids, asks
      ensures Model() == old(Model()).(bids := [None, None], asks := [None, None])
    {
      for level := 0 to MAX_ORDER_LEVELS
        invariant forall l :: 0 <= l < level ==> bids[l] == None && asks[l] == None
      {
        bids[level] := None;
        asks[level] := None;
      }
      assert bids[..] == [None, None] && asks[..] == [None, None];
    }

    method FinishReconciling()
      requires Valid()
      modifies this, bids, asks, execution
      ensures Valid()
      ensures Model() == FinishReconciliation(old(Model()))
    {
      retired := execution.generation;
      ClearAllOrders();
      rejectRun := 0;
      execution.ClearPauseReason(Safety);
      execution.ClearPauseReason(CircuitBreaker);
      execution.ClearPauseReason(Reconciliation);
    }
  }
}
