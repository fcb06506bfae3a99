// What the order manager does about trouble: exposure above the limit, overdue
// answers, runs of rejections and failing cancels.
module HandlerEffects {
  import opened Orders
  import opened ExecutionState
  import opened ManagerModel
  import opened ManagerInvariants
  import opened HandlerProofs
  import opened Reservation

  // ----------------------------------------------------- exposure above limit

  /** `b` is `a` with a cancel asked for. */
  predicate AskedToCancel(a: Option<LiveOrder>, b: Option<LiveOrder>, now: int) {
    match a
    case None => b == None
    case Some(o) => b == Some(if o.state == Canceling then o else SetCanceling(o, now))
  }

  lemma {:induction false} CancelSideIsComplete(m: Manager, side: Side, now: int, count: nat)
    requires count <= MAX_ORDER_LEVELS
    ensures var (m1, ds) := CancelSide(m, side, now, count);
      && m1 == WithSlots(m, side, SlotsOf(m1, side))
      && (forall l :: 0 <= l < count ==> AskedToCancel(SlotsOf(m, side)[l], SlotsOf(m1, side)[l], now))
      && (forall l :: count <= l < MAX_ORDER_LEVELS ==> SlotsOf(m1, side)[l] == SlotsOf(m, side)[l])
      && (forall l :: 0 <= l < count && SlotsOf(m, side)[l].Some? && SlotsOf(m, side)[l].value.state != Canceling ==>
            Cancel(SlotsOf(m, side)[l].value.ord.id) in ds)
  {
    if count > 0 {
      CancelSideIsComplete(m, side, now, count - 1);
    }
  }

  /** An unusable limit leaves no slot that is not being canceled, and says so to
      the exchange for every one that was not already. */
  lemma SweepCancelsEverything(m: Manager, now: int, p: Place)
    requires p.level < MAX_ORDER_LEVELS
    ensures var (m1, ds) := CancelExposure(m, now);
      && AskedToCancel(At(m, p), At(m1, p), now)
      && (At(m, p).Some? && At(m, p).value.state != Canceling ==> Cancel(At(m, p).value.ord.id) in ds)
  {
    hide CancelSide;
    CancelSideIsComplete(m, Buy, now, MAX_ORDER_LEVELS);
    var m1 := CancelSide(m, Buy, now, MAX_ORDER_LEVELS).0;
    CancelSideIsComplete(m1, Sell, now, MAX_ORDER_LEVELS);
  }

  /** A slot that no longer fits beside the others is canceled by its level. */
  lemma MisfitIsCanceled(m: Manager, q: Quote, side: Side, headroom: real, now: int, level: nat)
    requires QuoteShape(q) && level < MAX_ORDER_LEVELS && m.cfg.lot > 0.0
    requires QuotePrice(q, side, level) > 0.0
    requires SlotsOf(m, side)[level].Some?
    requires Mark(SlotsOf(m, side)[level], q.mid)
      > Max(headroom - ReservedByOthers(SlotsOf(m, side), level, q.mid), 0.0) + SLACK
    ensures var m1 := QuoteLevel(m, q, side, headroom, now, level).0;
      SlotsOf(m1, side)[level].Some? && SlotsOf(m1, side)[level].value.state == Canceling
  {
    hide QuoteQty, ReservedByOthers;
  }

  lemma OtherLevelsStay(m: Manager, q: Quote, side: Side, headroom: real, now: int, level: nat, l: nat)
    requires QuoteShape(q) && level < MAX_ORDER_LEVELS && m.cfg.lot > 0.0 && l < MAX_ORDER_LEVELS && l != level
    ensures SlotsOf(QuoteLevel(m, q, side, headroom, now, level).0, side)[l] == SlotsOf(m, side)[l]
  {
    hide QuoteQty, ReservedByOthers, Exceeds, ShouldReprice;
  }

  /** Once over the limit a side only cancels: if after its level loop the side
      still reserves more than its headroom, nothing was sent on it and every
      quoted slot of any weight is being canceled. */
  lemma {:induction false} OverLimitOnlyCancels(m: Manager, q: Quote, side: Side, headroom: real, now: int, count: nat,
                                                level: nat)
    requires Sound(m) && QuoteShape(q) && level < count <= m.cfg.numLevels && q.mid > 0.0
    requires SideMarks(SlotsOf(QuoteSide(m, q, side, headroom, now, count).0, side), q.mid) > headroom + SLACK
    requires QuotePrice(q, side, level) > 0.0
    requires Mark(SlotsOf(m, side)[level], q.mid) > SLACK
    ensures var (m1, ds) := QuoteSide(m, q, side, headroom, now, count);
      && Sends(ds) == []
      && SlotsOf(m1, side)[level].Some? && SlotsOf(m1, side)[level].value.state == Canceling
  {
    var (m0, d0) := QuoteSide(m, q, side, headroom, now, count - 1);
    StaysOver(m, q, side, headroom, now, count);
    if level == count - 1 {
      hide QuoteSide, QuoteLevel, Sound;
      LaterLevelStays(m, q, side, headroom, now, count - 1, level);
      MarksSplit(SlotsOf(m0, side), level, q.mid);
      MisfitIsCanceled(m0, q, side, headroom, now, level);
    } else {
      OverLimitOnlyCancels(m, q, side, headroom, now, count - 1, level);
      OtherLevelsStay(m0, q, side, headroom, now, count - 1, level);
    }
  }

  /** A side over its headroom after the loop was over it all along. */
  lemma StaysOver(m: Manager, q: Quote, side: Side, headroom: real, now: int, count: nat)
    requires Sound(m) && QuoteShape(q) && 0 < count <= m.cfg.numLevels && q.mid > 0.0
    requires SideMarks(SlotsOf(QuoteSide(m, q, side, headroom, now, count).0, side), q.mid) > headroom + SLACK
    ensures var (m0, d0) := QuoteSide(m, q, side, headroom, now, count - 1);
      && Sends(QuoteSide(m, q, side, headroom, now, count).1) == [] && Sends(d0) == []
      && SideMarks(SlotsOf(m0, side), q.mid) == SideMarks(SlotsOf(m, side), q.mid)
      && SideMarks(SlotsOf(m0, side), q.mid) > headroom + SLACK
      && m0.cfg == m.cfg
      && QuoteSide(m, q, side, headroom, now, count).0 == QuoteLevel(m0, q, side, headroom, now, count - 1).0
  {
    hide SlotsSound, PendingCount, QuoteLevel, Tracked, WellSized, SideMarks;
    QuotesSide(m, q, side, headroom, now, count);
    QuotesSide(m, q, side, headroom, now, count - 1);
    var (m0, d0) := QuoteSide(m, q, side, headroom, now, count - 1);
    var (m1, d1) := QuoteLevel(m0, q, side, headroom, now, count - 1);
    SendsConcat(d0, d1);
    assert SideMarks(SlotsOf(m1, side), q.mid) == SideMarks(SlotsOf(m, side), q.mid);
  }

  lemma {:induction false} LaterLevelStays(m: Manager, q: Quote, side: Side, headroom: real, now: int, count: nat,
                                           level: nat)
    requires Sound(m) && QuoteShape(q) && count <= level < m.cfg.numLevels && q.mid > 0.0
    ensures SlotsOf(QuoteSide(m, q, side, headroom, now, count).0, side)[level] == SlotsOf(m, side)[level]
  {
    if count > 0 {
      LaterLevelStays(m, q, side, headroom, now, count - 1, level);
      OtherLevelsStay(QuoteSide(m, q, side, headroom, now, count - 1).0, q, side, headroom, now, count - 1, level);
    }
  }

  // ---------------------------------------------------------------- timeouts

  lemma {:induction false} OverdueCancelsNameOverdue(c: Config, slots: Slots, now: int, count: nat, d: Decision)
    requires count <= MAX_ORDER_LEVELS
    ensures d in OverdueCancels(c, slots, now, count) <==>
      exists l :: 0 <= l < count && Overdue(c, slots[l], now) && d == Cancel(slots[l].value.ord.id)
  {
    if count > 0 {
      OverdueCancelsNameOverdue(c, slots, now, count - 1, d);
    }
  }

  predicate OverdueAt(m: Manager, p: Place, now: int)
    requires p.level < MAX_ORDER_LEVELS
  {
    && At(m, p).Some? && (At(m, p).value.state == Pending || At(m, p).value.state == Canceling)
    && now - At(m, p).value.sentAt > m.cfg.pendingTimeoutNs
  }

  /** A timeout check asks to cancel exactly the orders whose placing or canceling
      has gone unanswered too long, counts them, and begins a reconciliation exactly
      when there is one; it touches nothing else. */
  lemma TimeoutsNameExactlyTheOverdue(m: Manager, now: int, d: Decision)
    ensures var (m1, ds) := CheckTimeouts(m, now);
      && (d in ds <==>
            exists p: Place :: p.level < MAX_ORDER_LEVELS && OverdueAt(m, p, now) && d == Cancel(At(m, p).value.ord.id))
      && m1.exec == (if ds == [] then m.exec else m.exec.SetPause(Reconciliation))
      && m1 == m.(exec := m1.exec, stats := m.stats.(timeouts := m.stats.timeouts + |ds|))
  {
    OverdueCancelsNameOverdue(m.cfg, m.bids, now, MAX_ORDER_LEVELS, d);
    OverdueCancelsNameOverdue(m.cfg, m.asks, now, MAX_ORDER_LEVELS, d);
    hide OverdueCancels, Overdue;
    var bidsDue, asksDue :=
      OverdueCancels(m.cfg, m.bids, now, MAX_ORDER_LEVELS), OverdueCancels(m.cfg, m.asks, now, MAX_ORDER_LEVELS);
    if d in bidsDue {
      var l: nat :| l < MAX_ORDER_LEVELS && Overdue(m.cfg, m.bids[l], now) && d == Cancel(m.bids[l].value.ord.id);
      assert OverdueAt(m, Place(Buy, l), now);
    }
    if d in asksDue {
      var l: nat :| l < MAX_ORDER_LEVELS && Overdue(m.cfg, m.asks[l], now) && d == Cancel(m.asks[l].value.ord.id);
      assert OverdueAt(m, Place(Sell, l), now);
    }
  }

  // -------------------------------------------------------------- acceptances

  /** The exchange id is new to the slot or already its own, and no other slot's. */
  ghost predicate MayBind(m: Manager, p: Place, orderId: int)
    requires p.level < MAX_ORDER_LEVELS && At(m, p).Some?
  {
    orderId != 0 ==>
      && (At(m, p).value.orderId == None || At(m, p).value.orderId == Some(orderId))
      && forall q: Place {:trigger At(m, q)} :: q.level < MAX_ORDER_LEVELS && q != p && At(m, q).Some? ==>
           At(m, q).value.orderId != Some(orderId)
  }

  /** What a successful acceptance makes of a slot. */
  predicate AcceptedSlot(a: LiveOrder, b: LiveOrder, orderId: int) {
    && b.ord == a.ord && b.sentAt == a.sentAt && b.cancelFails == a.cancelFails
    && b.orderId == (if orderId == 0 then a.orderId else Some(orderId))
    && b.state == (match a.state case Pending => Live case Live => Live case Canceling => Canceling)
  }

  /** An acceptance binds its exchange id, and makes a pending order live and counts
      it, exactly when the id is not in the way of another; else it changes nothing. */
  lemma AcceptanceBindsIff(m: Manager, id: ClientId, orderId: int, p: Place)
    requires Sound(m) && p.level < MAX_ORDER_LEVELS && At(m, p).Some? && At(m, p).value.ord.id == id
    ensures var (m1, ok) := OnAccepted(m, id, orderId);
      && (ok <==> MayBind(m, p, orderId))
      && (!ok ==> m1 == m)
      && (ok ==>
            && At(m1, p).Some? && AcceptedSlot(At(m, p).value, At(m1, p).value, orderId)
            && m1.stats.accepted == m.stats.accepted + (if At(m, p).value.state == Pending then 1 else 0)
            && (forall q: Place {:trigger At(m1, q)} :: q.level < MAX_ORDER_LEVELS && q != p ==> At(m1, q) == At(m, q)))
  {
    ClientHitIsTheOnlyOne(m, id, p);
    MayBindIff(m, p, orderId);
    hide Sound, Find, Hit, At, WithSlot, MayBind, IdentityConflict;
    if MayBind(m, p, orderId) {
      var a := Accept(At(m, p).value, orderId);
      forall q: Place | q.level < MAX_ORDER_LEVELS
        ensures At(OnAccepted(m, id, orderId).0, q) == if q == p then Some(a) else At(m, q)
      {
        WriteThenRead(m, p, Some(a), q);
        SameSlots(WithSlot(m, p.side, p.level, Some(a)), OnAccepted(m, id, orderId).0, q);
      }
    }
  }

  lemma MayBindIff(m: Manager, p: Place, orderId: int)
    requires Sound(m) && p.level < MAX_ORDER_LEVELS && At(m, p).Some?
    ensures MayBind(m, p, orderId) <==> !IdentityConflict(m, At(m, p).value, orderId)
  {
    assert p.level == 0 || p.level == 1;
    assert At(m, Place(Buy, 0)) == m.bids[0] && At(m, Place(Buy, 1)) == m.bids[1];
    assert At(m, Place(Sell, 0)) == m.asks[0] && At(m, Place(Sell, 1)) == m.asks[1];
  }

  /** From then on the exchange id finds the order. */
  lemma BoundOrderIsFound(m: Manager, id: ClientId, orderId: int, p: Place)
    requires Sound(m) && p.level < MAX_ORDER_LEVELS && At(m, p).Some? && At(m, p).value.ord.id == id
    requires MayBind(m, p, orderId) && orderId != 0
    ensures var m1 := OnAccepted(m, id, orderId).0;
      Find(m1, ByExchange(orderId)) == Some(p) && (forall c :: OnFill(m1, orderId, c, true, 0).1)
  {
    AcceptanceBindsIff(m, id, orderId, p);
    AcceptedKeeps(m, id, orderId);
    var m1 := OnAccepted(m, id, orderId).0;
    hide Sound, OnAccepted, MayBind;
    ExchangeHitIsTheOnlyOne(m1, orderId, p);
    forall c
      ensures OnFill(m1, orderId, c, true, 0).1
    {
      FillFinds(m1, orderId, c, p);
    }
  }

  /** A fill is matched by its client id or by a nonzero exchange id. */
  lemma FillFinds(m: Manager, orderId: int, client: Option<ClientId>, p: Place)
    requires p.level < MAX_ORDER_LEVELS && At(m, p).Some?
    requires client == Some(At(m, p).value.ord.id) || (orderId != 0 && At(m, p).value.orderId == Some(orderId))
    ensures Find(m, ByFill(orderId, client)).Some?
  {
    assert p.level == 0 || p.level == 1;
  }

  // -------------------------------------------------------------- rejections

  function AfterRejections(m: Manager, ids: seq<ClientId>): Manager {
    if ids == [] then m else OnRejected(AfterRejections(m, ids[..|ids| - 1]), ids[|ids| - 1])
  }

  /** Rejections in a row trip the circuit breaker exactly when their number,
      counted from the last acceptance, reaches the configured threshold. */
  lemma {:induction false} RejectionsTripBreaker(m: Manager, ids: seq<ClientId>)
    requires CircuitBreaker !in m.exec.pauses
    ensures var m1 := AfterRejections(m, ids);
      && m1.cfg == m.cfg && m1.rejectRun == m.rejectRun + |ids|
      && (CircuitBreaker in m1.exec.pauses <==>
            ids != [] && m.cfg.breakerRejections > 0 && m.rejectRun + |ids| >= m.cfg.breakerRejections)
      && (CircuitBreaker !in m1.exec.pauses ==> m1.exec == m.exec)
  {
    hide Find;
    if ids != [] {
      RejectionsTripBreaker(m, ids[..|ids| - 1]);
    }
  }

  lemma AcceptanceEndsTheRun(m: Manager, id: ClientId, orderId: int)
    ensures var (m1, ok) := OnAccepted(m, id, orderId); m1.rejectRun == if ok then 0 else m.rejectRun
  {
    hide Find, IdentityConflict;
  }

  // ---------------------------------------------------------- failing cancels

  /** The first two failed cancels of an order put it back to live; the third
      leaves it canceling and pauses for safety and reconciliation. */
  lemma CancelFailuresFailClosed(m: Manager, orderId: int, p: Place)
    requires Sound(m) && p.level < MAX_ORDER_LEVELS && CancelFailureHits(At(m, p), orderId)
    ensures var m1 := OnCancelFailed(m, orderId);
      && At(m1, p).Some? && At(m1, p).value.ord == At(m, p).value.ord
      && At(m1, p).value.cancelFails == At(m, p).value.cancelFails + 1
      && (if At(m, p).value.cancelFails + 1 < MAX_CANCEL_FAILURES
          then At(m1, p).value.state == Live && m1.exec == m.exec
          else At(m1, p).value.state == Canceling && Safety in m1.exec.pauses && Reconciliation in m1.exec.pauses)
  {
    assert CancelFailureAt(m, orderId) == Some(p) by {
      assert p.level == 0 || p.level == 1;
    }
    hide Sound, CancelFailureAt;
    var o := At(m, p).value;
    var fails := o.cancelFails + 1;
    var o1 := if fails >= MAX_CANCEL_FAILURES then o.(cancelFails := fails)
      else o.(cancelFails := fails, state := Live);
    WriteThenRead(m, p, Some(o1), p);
    SameSlots(WithSlot(m, p.side, p.level, Some(o1)), OnCancelFailed(m, orderId), p);
  }
}
