// The event handlers, timeouts and account-level operations: every one keeps
// the manager sound, and each says exactly which orders it stops tracking.
module HandlerProofs {
  import opened Orders
  import opened ExecutionState
  import opened ManagerModel
  import opened ManagerInvariants

  /** The order a key clears, if any. */
  function Released(m: Manager, key: Key): set<Order> {
    var p := Find(m, key);
    if p.None? then {} else {At(m, p.value).value.ord}
  }

  /** Nothing but slots, counters and pauses moved. */
  predicate Frame(m: Manager, m1: Manager) {
    m1.cfg == m.cfg && m1.nextNumber == m.nextNumber && m1.retired == m.retired && m1.baseline == m.baseline
  }

  lemma ClearKeeps(m: Manager, key: Key)
    requires Sound(m)
    ensures var m1 := ClearKey(m, key);
      && Sound(m1) && Tracked(m1) == Tracked(m) - Released(m, key)
      && m1 == m.(bids := m1.bids, asks := m1.asks)
  {
    var p := Find(m, key);
    if p.Some? {
      EmptySlot(m, p.value, ClearKey(m, key));
    }
  }

  /** Clearing by client id leaves no slot under that id. */
  lemma ClearedIdIsGone(m: Manager, id: ClientId)
    requires Sound(m)
    ensures forall o :: o in Tracked(m) - Released(m, ByClient(id)) ==> o.id != id
  {
    forall o | o in Tracked(m) && o.id == id
      ensures o in Released(m, ByClient(id))
    {
      var p := PlaceOf(m, o);
      ClientHitIsTheOnlyOne(m, id, p);
    }
  }

  lemma PlaceOf(m: Manager, o: Order) returns (p: Place)
    requires o in Tracked(m)
    ensures p.level < MAX_ORDER_LEVELS && At(m, p).Some? && At(m, p).value.ord == o
  {
    if OrderIn(m.bids[0]) == {o} { p := Place(Buy, 0); }
    else if OrderIn(m.bids[1]) == {o} { p := Place(Buy, 1); }
    else if OrderIn(m.asks[0]) == {o} { p := Place(Sell, 0); }
    else { p := Place(Sell, 1); }
  }

  lemma RejectedKeeps(m: Manager, id: ClientId)
    requires Sound(m)
    ensures var m1 := OnRejected(m, id);
      && Sound(m1) && Frame(m, m1) && m1.gate == m.gate && Tightens(m.exec, m1.exec)
      && Tracked(m1) == Tracked(m) - Released(m, ByClient(id))
  {
    hide SlotsSound, PendingCount, Tracked, ClearKey, Released;
    ClearKeeps(m, ByClient(id));
    var cleared := ClearKey(m, ByClient(id));
    var m1 := OnRejected(m, id);
    CarrySlots(cleared, m1);
  }

  lemma CanceledKeeps(m: Manager, key: Key)
    requires Sound(m)
    ensures var (m1, found) := OnCanceled(m, key);
      && Sound(m1) && Frame(m, m1) && m1.gate == m.gate && m1.exec == m.exec
      && Tracked(m1) == Tracked(m) - Released(m, key)
      && found == (Released(m, key) != {})
  {
    hide SlotsSound, PendingCount, Tracked, ClearKey;
    if Find(m, key).Some? {
      ClearKeeps(m, key);
      CarrySlots(ClearKey(m, key), OnCanceled(m, key).0);
    }
  }

  lemma RefreshKeeps(m: Manager, version: nat)
    requires Sound(m)
    ensures var m1 := RequireRefresh(m, version);
      && Sound(m1) && Frame(m, m1) && Tracked(m1) == Tracked(m) && Tightens(m.exec, m1.exec)
      && m1.gate.Some? && m1.gate.value >= version + 2
      && (m.gate.Some? ==> m1.gate.value >= m.gate.value)
      && RiskData in m1.exec.pauses
      && m1.bids == m.bids && m1.asks == m.asks
  {
    PausingKeeps(m, RiskData);
  }

  lemma FillKeeps(m: Manager, orderId: int, client: Option<ClientId>, full: bool, version: nat)
    requires Sound(m)
    ensures var (m1, found) := OnFill(m, orderId, client, full, version);
      && Sound(m1) && Frame(m, m1) && Tightens(m.exec, m1.exec)
      && Tracked(m1) == (if full then Tracked(m) - Released(m, ByFill(orderId, client)) else Tracked(m))
      && found == (Released(m, ByFill(orderId, client)) != {})
      && (if found then m1.gate.Some? && m1.gate.value >= version + 2 else m1 == m)
  {
    var p := Find(m, ByFill(orderId, client));
    if p.Some? {
      RefreshKeeps(m, version);
      var m1 := RequireRefresh(m, version);
      if full {
        EmptySlot(m1, p.value, WithSlot(m1, p.value.side, p.value.level, None));
      }
    }
  }

  /** Accepting binds at most one exchange id to one slot, once, and never one
      that another slot holds; it releases nothing. */
  lemma AcceptedKeeps(m: Manager, id: ClientId, orderId: int)
    requires Sound(m)
    ensures var (m1, ok) := OnAccepted(m, id, orderId);
      && Sound(m1) && Frame(m, m1) && m1.gate == m.gate && m1.exec == m.exec && Tracked(m1) == Tracked(m)
      && (!ok ==> m1 == m)
  {
    hide SlotsSound, PendingCount, Tracked, IdentityConflict;
    var p := Find(m, ByClient(id));
    if p.Some? && !IdentityConflict(m, At(m, p.value).value, orderId) {
      var o := At(m, p.value).value;
      var a := Accept(o, orderId);
      var m1 := WithSlot(m, p.value.side, p.value.level, Some(a));
      AcceptFits(m, p.value, a, orderId);
      ReplaceSlot(m, p.value.side, p.value.level, Some(a), m1);
      SameOrders(m, p.value, a);
      CarrySlots(m1, OnAccepted(m, id, orderId).0);
    }
  }

  lemma SameOrders(m: Manager, p: Place, a: LiveOrder)
    requires p.level < MAX_ORDER_LEVELS && At(m, p).Some? && At(m, p).value.ord == a.ord
    ensures Tracked(WithSlot(m, p.side, p.level, Some(a))) == Tracked(m)
  {
    assert p.level == 0 || p.level == 1;
  }

  lemma AcceptFits(m: Manager, p: Place, a: LiveOrder, orderId: int)
    requires Sound(m) && p.level < MAX_ORDER_LEVELS && At(m, p).Some?
    requires !IdentityConflict(m, At(m, p).value, orderId) && a == Accept(At(m, p).value, orderId)
    ensures SlotOk(m, p.side, p.level, Some(a))
    ensures forall q: Place {:trigger At(m, q)} :: q.level < MAX_ORDER_LEVELS && q != p ==> Apart(Some(a), At(m, q))
  {
    assert p.level == 0 || p.level == 1;
    forall q: Place | q.level < MAX_ORDER_LEVELS && q != p
      ensures Apart(Some(a), At(m, q))
    {
      assert q.level == 0 || q.level == 1;
      assert Apart(At(m, p), At(m, q));
      assert orderId != 0 ==> !BoundElsewhere(At(m, q), a.ord.id, orderId);
    }
  }

  /** A bound exchange id is never replaced while the order holds its slot. */
  lemma BoundIdsStay(m: Manager, id: ClientId, orderId: int, p: Place)
    requires Sound(m) && p.level < MAX_ORDER_LEVELS
    requires At(m, p).Some? && At(m, p).value.orderId.Some?
    ensures var (m1, ok) := OnAccepted(m, id, orderId);
      && At(m1, p).Some? && At(m1, p).value.orderId == At(m, p).value.orderId
      && (At(m, p).value.ord.id == id && orderId != 0 && Some(orderId) != At(m, p).value.orderId ==> !ok)
  {
    var f := Find(m, ByClient(id));
    if At(m, p).value.ord.id == id {
      ClientHitIsTheOnlyOne(m, id, p);
    }
    assert p.level == 0 || p.level == 1;
    assert At(m, p).value.orderId.value != 0;
    hide Sound, SlotsSound, Find, Hit, At, WithSlot;
    if f.Some? && !IdentityConflict(m, At(m, f.value).value, orderId) {
      WriteThenRead(m, f.value, Some(Accept(At(m, f.value).value, orderId)), p);
      var m1 := OnAccepted(m, id, orderId).0;
      SameSlots(WithSlot(m, f.value.side, f.value.level, Some(Accept(At(m, f.value).value, orderId))), m1, p);
    }
  }

  lemma WriteThenRead(m: Manager, q: Place, slot: Option<LiveOrder>, p: Place)
    requires p.level < MAX_ORDER_LEVELS && q.level < MAX_ORDER_LEVELS
    ensures At(WithSlot(m, q.side, q.level, slot), p) == if p == q then slot else At(m, p)
  {
  }

  lemma SameSlots(m: Manager, m1: Manager, p: Place)
    requires p.level < MAX_ORDER_LEVELS && m1.bids == m.bids && m1.asks == m.asks
    ensures At(m1, p) == At(m, p)
  {
  }

  lemma CancelFailedKeeps(m: Manager, orderId: int)
    requires Sound(m)
    ensures var m1 := OnCancelFailed(m, orderId);
      && Sound(m1) && Frame(m, m1) && m1.gate == m.gate && Tightens(m.exec, m1.exec) && Tracked(m1) == Tracked(m)
  {
    hide SlotsSound, PendingCount, Tracked, CancelFailureAt;
    var p := CancelFailureAt(m, orderId);
    if p.Some? {
      var o := At(m, p.value).value;
      var fails := o.cancelFails + 1;
      var o1 := if fails >= MAX_CANCEL_FAILURES then o.(cancelFails := fails)
        else o.(cancelFails := fails, state := Live);
      var m0 := WithSlot(m, p.value.side, p.value.level, Some(o1));
      RestateSlot(m, p.value, o1, m0);
      CarrySlots(m0, OnCancelFailed(m, orderId));
    }
  }

  lemma RevivesKeeps(m: Manager, id: ClientId)
    requires Sound(m)
    ensures var m1 := m.(bids := [Revive(m.bids[0], id), Revive(m.bids[1], id)],
                         asks := [Revive(m.asks[0], id), Revive(m.asks[1], id)]);
      Sound(m1) && Tracked(m1) == Tracked(m)
  {
    var a, b, c, d := m.bids[0], m.bids[1], m.asks[0], m.asks[1];
    hide Revive, SlotOk, Apart, IfPending, OrderIn;
    ReviveSame(m, Buy, 0, a, id);
    ReviveSame(m, Buy, 1, b, id);
    ReviveSame(m, Sell, 0, c, id);
    ReviveSame(m, Sell, 1, d, id);
    ReviveApart(a, b, id);
    ReviveApart(c, d, id);
    ReviveApart(a, c, id);
    ReviveApart(a, d, id);
    ReviveApart(b, c, id);
    ReviveApart(b, d, id);
  }

  lemma ReviveSame(m: Manager, side: Side, level: nat, slot: Option<LiveOrder>, id: ClientId)
    requires SlotOk(m, side, level, slot)
    ensures forall m1: Manager :: m1.cfg == m.cfg && m1.nextNumber == m.nextNumber && m1.exec == m.exec ==>
      SlotOk(m1, side, level, Revive(slot, id))
    ensures IfPending(Revive(slot, id)) <= IfPending(slot) && OrderIn(Revive(slot, id)) == OrderIn(slot)
  {
  }

  lemma ReviveApart(a: Option<LiveOrder>, b: Option<LiveOrder>, id: ClientId)
    requires Apart(a, b)
    ensures Apart(Revive(a, id), Revive(b, id))
  {
  }

  lemma DispatchFailedKeeps(m: Manager, d: Decision)
    requires Sound(m)
    ensures var m1 := OnDispatchFailed(m, d);
      && Sound(m1) && Frame(m, m1) && m1.gate == m.gate && m1.exec == m.exec
      && Tracked(m1) == (if d.Send? then Tracked(m) - Released(m, ByClient(d.order.id)) else Tracked(m))
  {
    if d.Send? {
      ClearKeeps(m, ByClient(d.order.id));
    } else {
      RevivesKeeps(m, d.id);
    }
  }

  lemma {:induction false} OverdueSendsNothing(c: Config, slots: Slots, now: int, count: nat)
    requires count <= MAX_ORDER_LEVELS
    ensures Sends(OverdueCancels(c, slots, now, count)) == []
  {
    if count > 0 {
      OverdueSendsNothing(c, slots, now, count - 1);
      var rest := OverdueCancels(c, slots, now, count - 1);
      if Overdue(c, slots[count - 1], now) {
        var d := Cancel(slots[count - 1].value.ord.id);
        SendsConcat(rest, [d]);
        SendsOfOne(d);
      } else {
        assert rest + [] == rest;
      }
    }
  }

  lemma TimeoutsKeep(m: Manager, now: int)
    requires Sound(m)
    ensures var (m1, ds) := CheckTimeouts(m, now);
      && Sound(m1) && Frame(m, m1) && m1.gate == m.gate && Tightens(m.exec, m1.exec)
      && m1.bids == m.bids && m1.asks == m.asks && Tracked(m1) == Tracked(m) && Sends(ds) == []
      && (ds != [] ==> Reconciliation in m1.exec.pauses)
  {
    hide OverdueCancels, Sends;
    OverdueSendsNothing(m.cfg, m.bids, now, MAX_ORDER_LEVELS);
    OverdueSendsNothing(m.cfg, m.asks, now, MAX_ORDER_LEVELS);
    SendsConcat(OverdueCancels(m.cfg, m.bids, now, MAX_ORDER_LEVELS),
                OverdueCancels(m.cfg, m.asks, now, MAX_ORDER_LEVELS));
    PausingKeeps(m, Reconciliation);
  }

  // ----------------------------------------------------------------- account

  lemma BeginKeeps(a: Account, version: nat)
    requires Sound(a.m)
    ensures var (a1, request) := BeginAccount(a, version);
      && Sound(a1.m) && Frame(a.m, a1.m) && Tightens(a.m.exec, a1.m.exec) && Tracked(a1.m) == Tracked(a.m)
      && (a1.m.gate == a.m.gate || (a1.m.gate.Some? && a1.m.gate.value >= version + 2))
      && a1.pending
      && (if a.pending then a1 == a && request == None
          else && Reconciliation in a1.m.exec.pauses
               && a1.generation == a.generation + 1 && request == Some(a1.generation))
      && (a.m.gate.Some? ==> a1.m.gate.Some? && a1.m.gate.value >= a.m.gate.value)
  {
    if !a.pending {
      RefreshKeeps(a.m, version);
      var m1 := if Reconciliation in a.m.exec.pauses then a.m else RequireRefresh(a.m, version);
      PausingKeeps(m1, Reconciliation);
    }
  }

  /** Finishing retires everything issued so far, empties the slots and leaves
      the fill gate armed, so trading stays paused on risk data. */
  lemma FinishKeeps(a: Account, version: nat)
    requires Sound(a.m)
    ensures var a1 := FinishAccount(a, version);
      && Sound(a1.m) && a1.m.cfg == a.m.cfg && a1.m.nextNumber == a.m.nextNumber
      && Tracked(a1.m) == {}
      && a1.m.gate.Some? && a1.m.gate.value >= version + 2
      && a1.m.exec.generation >= a.m.exec.generation && a1.m.exec.shutdown == a.m.exec.shutdown
      && (a.m.exec.pauses == {} ==> a1.m.exec.generation > a.m.exec.generation)
      && a1.m.retired == a1.m.exec.generation
      && RiskData in a1.m.exec.pauses && Reconciliation !in a1.m.exec.pauses
      && !a1.pending && a1.generation == a.generation
  {
    RefreshKeeps(a.m, version);
  }

  lemma RiskTickKeeps(m: Manager, sourcesFresh: bool, version: nat, position: real)
    requires Sound(m)
    ensures var (m1, stale) := RiskTick(m, sourcesFresh, version, position);
      && Sound(m1) && m1.nextNumber == m.nextNumber && m1.retired == m.retired && m1.cfg == m.cfg
      && m1.bids == m.bids && m1.asks == m.asks && Tracked(m1) == Tracked(m)
      && m1.exec.generation >= m.exec.generation && m1.exec.shutdown == m.exec.shutdown
      && (m1.exec.pauses != {} ==> m.exec.pauses != {} || m1.exec.generation > m.exec.generation)
      && (Reconciliation in m.exec.pauses ==> Reconciliation in m1.exec.pauses)
      && (m1.gate == m.gate || (m.gate.Some? && m.gate.value <= version && m1.gate == None))
  {
    hide SlotsSound, PendingCount, Tracked;
    var (m0, current) := RefreshComplete(m, version);
    var (m1, stale) := RiskTick(m, sourcesFresh, version, position);
    CarrySlots(m, m1);
  }

  /** Clearing a reason other than the gate's own. */
  lemma ResumingKeeps(m: Manager, reason: PauseReason)
    requires Sound(m) && reason != RiskData
    ensures var m1 := m.(exec := m.exec.ClearPause(reason)); Sound(m1) && Tracked(m1) == Tracked(m)
  {
  }
}
