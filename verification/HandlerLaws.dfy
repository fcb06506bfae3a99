// What each event and account operation makes of the manager, exactly: which slot
// it empties or rewrites, that it leaves the others, how it moves the gate, the
// counters and the pauses, and when the event loop begins a reconciliation.
module HandlerLaws {
  import opened Orders
  import opened ExecutionState
  import opened ManagerModel
  import opened ManagerInvariants
  import opened HandlerProofs
  import opened HandlerEffects
  import opened EventLoop
  import S = OrderSocket

  // ------------------------------------------------------------------ slots

  /** Every slot is as before, except that the order at `p`, if any, is gone. */
  ghost predicate Emptied(m: Manager, m1: Manager, p: Option<Place>) {
    forall q: Place {:trigger At(m1, q)} :: q.level < MAX_ORDER_LEVELS ==>
      At(m1, q) == if p == Some(q) then None else At(m, q)
  }

  /** Where the order of a client id, an exchange id or a fill sits. */
  ghost predicate SitsAt(m: Manager, p: Place, client: Option<ClientId>, orderId: Option<int>) {
    && p.level < MAX_ORDER_LEVELS && At(m, p).Some?
    && (|| client == Some(At(m, p).value.ord.id)
        || (orderId.Some? && orderId != Some(0) && At(m, p).value.orderId == orderId))
  }

  lemma ClearEmpties(m: Manager, key: Key)
    ensures Emptied(m, ClearKey(m, key), Find(m, key))
  {
    hide Find;
    var p := Find(m, key);
    if p.Some? {
      forall q: Place | q.level < MAX_ORDER_LEVELS
        ensures At(ClearKey(m, key), q) == if p == Some(q) then None else At(m, q)
      {
        WriteThenRead(m, p.value, None, q);
      }
    }
  }

  lemma SameSlotsEmptied(m: Manager, m1: Manager, m2: Manager, p: Option<Place>)
    requires Emptied(m, m1, p) && m2.bids == m1.bids && m2.asks == m1.asks
    ensures Emptied(m, m2, p)
  {
    forall q: Place | q.level < MAX_ORDER_LEVELS
      ensures At(m2, q) == if p == Some(q) then None else At(m, q)
    {
      assert At(m2, q) == At(m1, q);
    }
  }

  /** Searching by client id or exchange id finds the order that has it. */
  lemma FoundIff(m: Manager, p: Place, id: ClientId, orderId: int)
    requires Sound(m)
    ensures Find(m, ByClient(id)) == Some(p) <==> SitsAt(m, p, Some(id), None)
    ensures Find(m, ByExchange(orderId)) == Some(p) <==> SitsAt(m, p, None, Some(orderId))
  {
    if SitsAt(m, p, Some(id), None) {
      ClientHitIsTheOnlyOne(m, id, p);
    }
    if SitsAt(m, p, None, Some(orderId)) {
      ExchangeHitIsTheOnlyOne(m, orderId, p);
    }
    if Find(m, ByExchange(orderId)) == Some(p) {
      ExchangeHitIsTheOnlyOne(m, orderId, p);
    }
  }

  /** A rejection empties the slot of its order and counts. */
  lemma RejectionLaw(m: Manager, id: ClientId, p: Option<Place>)
    requires Sound(m)
    requires if p.Some? then SitsAt(m, p.value, Some(id), None) else forall q :: !SitsAt(m, q, Some(id), None)
    ensures var m1 := OnRejected(m, id);
      && Emptied(m, m1, p)
      && m1.stats == m.stats.(rejections := m.stats.rejections + 1) && m1.rejectRun == m.rejectRun + 1
  {
    KnownPlace(m, id, 0, p);
    ClearEmpties(m, ByClient(id));
    hide Find, Emptied, SitsAt, ClearKey;
    SameSlotsEmptied(m, ClearKey(m, ByClient(id)), OnRejected(m, id), p);
  }

  lemma KnownPlace(m: Manager, id: ClientId, orderId: int, p: Option<Place>)
    requires Sound(m)
    ensures (if p.Some? then SitsAt(m, p.value, Some(id), None) else forall q :: !SitsAt(m, q, Some(id), None)) ==>
      Find(m, ByClient(id)) == p
    ensures (if p.Some? then SitsAt(m, p.value, None, Some(orderId))
             else forall q :: !SitsAt(m, q, None, Some(orderId))) ==>
      Find(m, ByExchange(orderId)) == p
  {
    hide Sound, Find, SitsAt;
    forall q
      ensures Find(m, ByClient(id)) == Some(q) <==> SitsAt(m, q, Some(id), None)
      ensures Find(m, ByExchange(orderId)) == Some(q) <==> SitsAt(m, q, None, Some(orderId))
    {
      FoundIff(m, q, id, orderId);
    }
  }

  /** A cancellation empties the slot of its client id, else of its exchange id. */
  lemma CancellationLaw(m: Manager, orderId: int, client: Option<ClientId>, p: Option<Place>)
    requires Sound(m)
    requires var named := client.Some? && exists q :: SitsAt(m, q, client, None);
      if p.Some? then (if named then SitsAt(m, p.value, client, None) else SitsAt(m, p.value, None, Some(orderId)))
      else !named && forall q :: !SitsAt(m, q, None, Some(orderId))
    ensures var m1 := Canceled(m, orderId, client);
      Emptied(m, m1, p) && m1.stats == m.stats.(canceled := m.stats.canceled + (if p.Some? then 1 else 0))
  {
    var id := if client.Some? then client.value else ClientId(0, 0, 0);
    if client.Some? && exists q :: SitsAt(m, q, client, None) {
      KnownPlace(m, id, orderId, p);
      CanceledEmpties(m, ByClient(id));
    } else {
      if client.Some? {
        KnownPlace(m, id, orderId, None);
      }
      KnownPlace(m, id, orderId, p);
      CanceledEmpties(m, ByExchange(orderId));
    }
  }

  lemma CanceledEmpties(m: Manager, key: Key)
    ensures var (m1, found) := OnCanceled(m, key);
      && Emptied(m, m1, Find(m, key)) && found == Find(m, key).Some?
      && m1.stats == m.stats.(canceled := m.stats.canceled + (if found then 1 else 0))
      && (!found ==> m1 == m)
  {
    hide Find;
    ClearEmpties(m, key);
  }

  /** The gate never falls and reaches two publications past the current one. */
  function Armed(gate: Option<nat>, version: nat): nat {
    if gate.None? || gate.value < version + 2 then version + 2 else gate.value
  }

  /** A fill that matches arms the gate and empties the slot only if it is the last;
      one that does not match changes nothing. */
  lemma FillLaw(m: Manager, orderId: int, client: Option<ClientId>, full: bool, version: nat)
    ensures var (m1, found) := OnFill(m, orderId, client, full, version);
      && (found <==> exists q :: SitsAt(m, q, client, Some(orderId)))
      && (!found ==> m1 == m)
      && (found ==>
            && m1.gate == Some(Armed(m.gate, version)) && m1.exec == m.exec.SetPause(RiskData)
            && exists p :: SitsAt(m, p, client, Some(orderId)) && Emptied(m, m1, if full then Some(p) else None))
  {
    var f := Find(m, ByFill(orderId, client));
    if q :| SitsAt(m, q, client, Some(orderId)) {
      FillFinds(m, orderId, client, q);
    }
    hide Find;
    if f.Some? {
      var p := f.value;
      assert SitsAt(m, p, client, Some(orderId));
      var m1 := OnFill(m, orderId, client, full, version).0;
      forall q: Place | q.level < MAX_ORDER_LEVELS
        ensures At(m1, q) == if full && q == p then None else At(m, q)
      {
        SameSlots(m, RequireRefresh(m, version), q);
        if full {
          WriteThenRead(RequireRefresh(m, version), p, None, q);
        }
      }
      assert Emptied(m, m1, if full then Some(p) else None);
    }
  }

  /** A failed cancel of an order that is not being canceled changes nothing, and of
      one that is touches only its slot. */
  lemma CancelFailureLaw(m: Manager, orderId: int, p: Place, q: Place)
    requires Sound(m) && q.level < MAX_ORDER_LEVELS
    ensures (forall r: Place :: r.level < MAX_ORDER_LEVELS && At(m, r).Some? ==>
               !(At(m, r).value.state == Canceling && At(m, r).value.orderId == Some(orderId))) ==>
      OnCancelFailed(m, orderId) == m
    ensures p.level < MAX_ORDER_LEVELS && p != q && At(m, p).Some?
            && At(m, p).value.state == Canceling && At(m, p).value.orderId == Some(orderId) ==>
      At(OnCancelFailed(m, orderId), q) == At(m, q)
  {
    var f := CancelFailureAt(m, orderId);
    if p.level < MAX_ORDER_LEVELS && CancelFailureHits(At(m, p), orderId) {
      assert f == Some(p) by {
        assert p.level == 0 || p.level == 1;
      }
      hide Sound, CancelFailureAt;
      var o := At(m, p).value;
      var fails := o.cancelFails + 1;
      var o1 := if fails >= MAX_CANCEL_FAILURES then o.(cancelFails := fails)
        else o.(cancelFails := fails, state := Live);
      WriteThenRead(m, p, Some(o1), q);
      SameSlots(WithSlot(m, p.side, p.level, Some(o1)), OnCancelFailed(m, orderId), q);
    }
  }

  /** A cancel or replacement the queue refused puts its order back to live. */
  lemma RefusedCancelLaw(m: Manager, d: Decision, q: Place)
    requires q.level < MAX_ORDER_LEVELS && !d.Send?
    ensures var m1 := OnDispatchFailed(m, d);
      && m1 == m.(bids := m1.bids, asks := m1.asks)
      && At(m1, q) == if At(m, q).Some? && At(m, q).value.ord.id == d.id then Some(At(m, q).value.(state := Live))
                      else At(m, q)
  {
    assert q.level == 0 || q.level == 1;
  }

  /** A send the queue refused empties its slot. */
  lemma RefusedSendLaw(m: Manager, o: Order, p: Place)
    requires Sound(m) && SitsAt(m, p, Some(o.id), None)
    ensures var m1 := OnDispatchFailed(m, Send(o));
      Emptied(m, m1, Some(p)) && m1 == m.(bids := m1.bids, asks := m1.asks)
  {
    KnownPlace(m, o.id, 0, Some(p));
    ClearEmpties(m, ByClient(o.id));
  }

  /** A slot after its decision was refused, if it was this slot's. */
  function AfterRefusal(slot: Option<LiveOrder>, d: Decision): Option<LiveOrder> {
    if slot.None? || slot.value.ord.id != (if d.Send? then d.order.id else d.id) then slot
    else if d.Send? then None
    else Some(slot.value.(state := Live))
  }

  lemma RefusalLaw(m: Manager, d: Decision, p: Place)
    requires Sound(m) && p.level < MAX_ORDER_LEVELS
    ensures At(OnDispatchFailed(m, d), p) == AfterRefusal(At(m, p), d)
  {
    if d.Send? {
      FoundIff(m, p, d.order.id, 0);
      ClearEmpties(m, ByClient(d.order.id));
    } else {
      RefusedCancelLaw(m, d, p);
    }
  }

  // --------------------------------------------------------- account operations

  lemma RefreshLaw(m: Manager, version: nat)
    ensures RequireRefresh(m, version) == m.(gate := Some(Armed(m.gate, version)), exec := m.exec.SetPause(RiskData))
  {
  }

  /** Beginning arms the gate unless a reconciliation pause is already up. */
  lemma BeginLaw(a: Account, version: nat)
    requires !a.pending
    ensures var (a1, request) := BeginAccount(a, version);
      && a1.pending && a1.generation == a.generation + 1 && request == Some(a.generation + 1)
      && a1.m == a.m.(gate := a1.m.gate, exec := a1.m.exec)
      && a1.m.gate == (if Reconciliation in a.m.exec.pauses then a.m.gate else Some(Armed(a.m.gate, version)))
      && a1.m.exec.shutdown == a.m.exec.shutdown
      && a1.m.exec.pauses ==
           (if Reconciliation in a.m.exec.pauses then a.m.exec.pauses else a.m.exec.pauses + {RiskData, Reconciliation})
      && a1.m.exec.generation == a.m.exec.generation
           + (if Reconciliation in a.m.exec.pauses then 0 else if RiskData in a.m.exec.pauses then 1 else 2)
  {
    if Reconciliation !in a.m.exec.pauses && RiskData in a.m.exec.pauses {
      assert a.m.exec.pauses + {Reconciliation} == a.m.exec.pauses + {RiskData, Reconciliation};
    }
  }

  /** Finishing leaves the transport and market-data pauses, clears the rest but
      risk data, and forgets the run of rejections. */
  lemma FinishLaw(a: Account, version: nat)
    ensures var a1 := FinishAccount(a, version);
      && !a1.pending && a1.generation == a.generation
      && a1.m == a.m.(bids := [None, None], asks := [None, None], rejectRun := 0, retired := a1.m.exec.generation,
                      gate := Some(Armed(a.m.gate, version)), exec := a1.m.exec)
      && a1.m.exec.pauses == {RiskData} + (a.m.exec.pauses - {Safety, CircuitBreaker, Reconciliation})
      && a1.m.exec.shutdown == a.m.exec.shutdown
      && a1.m.exec.generation == a.m.exec.generation + (if RiskData in a.m.exec.pauses then 0 else 1)
  {
  }

  /** The risk check resumes on fresh sources behind an open gate, and otherwise
      pauses; data that just went stale also pauses for reconciliation. */
  lemma RiskTickLaw(m: Manager, sourcesFresh: bool, version: nat, position: real)
    ensures var (m1, stale) := RiskTick(m, sourcesFresh, version, position);
      var open := m.gate.None? || version >= m.gate.value;
      && m1.gate == (if open then None else m.gate)
      && m1.baseline == (if m.baseline.None? && sourcesFresh && open then Some(position) else m.baseline)
      && stale == (!sourcesFresh && RiskData !in m.exec.pauses)
      && m1.exec.pauses == (if sourcesFresh && open then m.exec.pauses - {RiskData}
                            else m.exec.pauses + {RiskData} + (if stale then {Reconciliation} else {}))
      && m1.exec.shutdown == m.exec.shutdown
      && m1.exec.generation == m.exec.generation
           + (if (sourcesFresh && open) || RiskData in m.exec.pauses then 0
              else if stale && Reconciliation !in m.exec.pauses then 2 else 1)
      && m1 == m.(gate := m1.gate, baseline := m1.baseline, exec := m1.exec)
  {
  }

  // ------------------------------------------------------------- the event loop

  /** A fill report whose quantity and status can be relied on. */
  predicate Usable(e: S.Event) {
    e.OrderFilledEvent? && e.qtyUsable && (e.status == Some(S.Filled) || e.status == Some(S.Partial))
  }

  /** Which events begin an account reconciliation. */
  ghost predicate Begins(m: Manager, e: S.Event) {
    match e
    case OrderAccepted(id, orderId) =>
      id.generation >= m.retired && !exists p :: SitsAt(m, p, Some(id), None) && MayBind(m, p, orderId)
    case OrderFilledEvent(orderId, client, status, _) =>
      !Usable(e) || status == Some(S.Partial) || !exists p :: SitsAt(m, p, client, Some(orderId))
    case CancelFailed(orderId) =>
      orderId == 0 || Reconciliation in m.exec.pauses
      || exists p: Place :: p.level < MAX_ORDER_LEVELS && At(m, p).Some? && LastFailure(At(m, p).value, orderId)
    case OrderSubmissionAcknowledged => false
    case OrderRejected(_) => false
    case OrderCanceled(_, _) => false
    case CancelSubmissionAcknowledged => true
    case AmbiguousResponse => true
    case Disconnected => true
    case Authenticated => false
  }

  /** One more failure than an order being canceled may have. */
  predicate LastFailure(o: LiveOrder, orderId: int) {
    o.state == Canceling && o.orderId == Some(orderId) && o.cancelFails + 1 >= 3
  }

  lemma AcceptanceBegins(m: Manager, id: ClientId, orderId: int)
    requires Sound(m)
    ensures OnAccepted(m, id, orderId).1 <==> exists p :: SitsAt(m, p, Some(id), None) && MayBind(m, p, orderId)
  {
    hide Sound, MayBind, Find, OnAccepted;
    if p :| SitsAt(m, p, Some(id), None) && MayBind(m, p, orderId) {
      AcceptanceBindsIff(m, id, orderId, p);
    }
    if OnAccepted(m, id, orderId).1 {
      var p := AcceptedPlace(m, id, orderId);
      AcceptanceBindsIff(m, id, orderId, p);
    }
  }

  lemma AcceptedPlace(m: Manager, id: ClientId, orderId: int) returns (p: Place)
    requires OnAccepted(m, id, orderId).1
    ensures SitsAt(m, p, Some(id), None)
  {
    p := Find(m, ByClient(id)).value;
  }

  lemma FailureBegins(m: Manager, orderId: int)
    requires Sound(m)
    ensures Reconciliation in OnCancelFailed(m, orderId).exec.pauses <==>
      Reconciliation in m.exec.pauses
      || exists p: Place :: p.level < MAX_ORDER_LEVELS && At(m, p).Some? && LastFailure(At(m, p).value, orderId)
  {
    if p: Place :| p.level < MAX_ORDER_LEVELS && At(m, p).Some? && LastFailure(At(m, p).value, orderId) {
      CancelFailuresFailClosed(m, orderId, p);
    }
    var f := CancelFailureAt(m, orderId);
    if f.Some? {
      var o := At(m, f.value).value;
      assert LastFailure(o, orderId) <==> o.cancelFails + 1 >= MAX_CANCEL_FAILURES;
    }
  }

  /** The event loop begins a reconciliation exactly on these events. */
  lemma HandleBeginsIff(m: Manager, e: S.Event, version: nat)
    requires Sound(m)
    ensures Handle(m, e, version).1 <==> Begins(m, e)
  {
    match e {
      case OrderAccepted(id, orderId) => AcceptanceBegins(m, id, orderId);
      case OrderFilledEvent(orderId, client, status, qtyUsable) =>
        FillLaw(m, orderId, client, status == Some(S.Filled), version);
      case CancelFailed(orderId) => FailureBegins(m, orderId);
      case _ =>
    }
  }

  /** And to the manager it does exactly this: late events of retired orders are
      ignored, fills arm the gate whether or not they match, only a usable last
      fill empties a slot. */
  lemma HandleLaw(m: Manager, e: S.Event, version: nat)
    ensures var m1 := Handle(m, e, version).0;
      match e
      case OrderAccepted(id, orderId) => m1 == if id.generation < m.retired then m else OnAccepted(m, id, orderId).0
      case OrderRejected(id) => m1 == if id.generation < m.retired then m else OnRejected(m, id)
      case OrderFilledEvent(orderId, client, status, _) =>
        && m1.gate == Some(Armed(m.gate, version)) && m1.exec == m.exec.SetPause(RiskData)
        && (if Usable(e) && status == Some(S.Filled) && exists p :: SitsAt(m, p, client, Some(orderId))
            then exists p :: SitsAt(m, p, client, Some(orderId)) && Emptied(m, m1, Some(p))
            else m1.bids == m.bids && m1.asks == m.asks)
      case OrderCanceled(orderId, client) => m1 == Canceled(m, orderId, client)
      case CancelFailed(orderId) => m1 == OnCancelFailed(m, orderId)
      case Disconnected => m1 == m.(exec := m.exec.SetPause(OrderWebSocket))
      case Authenticated => m1 == m.(exec := m.exec.ClearPause(OrderWebSocket))
      case _ => m1 == m
  {
    match e {
      case OrderFilledEvent(orderId, client, status, qtyUsable) =>
        FillLaw(m, orderId, client, status == Some(S.Filled), version);
        RefreshLaw(m, version);
        hide Find, SitsAt, Emptied, RequireRefresh;
      case _ =>
    }
  }
}
