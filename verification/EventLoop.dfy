// How the event loop serves one event of the order socket: what it does to the
// manager, and whether it begins an account reconciliation.
module EventLoop {
  import opened Orders
  import opened ExecutionState
  import opened ManagerModel
  import opened ManagerInvariants
  import opened HandlerProofs
  import S = OrderSocket

  function Paused(m: Manager, reason: PauseReason): Manager {
    m.(exec := m.exec.SetPause(reason))
  }

  /** A cancellation is looked up by client id first, then by exchange id. */
  function Canceled(m: Manager, orderId: int, client: Option<ClientId>): Manager {
    var (m1, found) := if client.Some? then OnCanceled(m, ByClient(client.value)) else (m, false);
    if found then m1 else OnCanceled(m1, ByExchange(orderId)).0
  }

  /** A fill of unusable quantity or status only arms the gate. */
  function FilledBy(m: Manager, orderId: int, client: Option<ClientId>, status: Option<S.FillStatus>, qtyUsable: bool,
                    version: nat):
    (Manager, bool)
  {
    if !qtyUsable || (status != Some(S.Filled) && status != Some(S.Partial)) then (RequireRefresh(m, version), true)
    else
      var (m1, found) := OnFill(m, orderId, client, status == Some(S.Filled), version);
      if found then (m1, status == Some(S.Partial)) else (RequireRefresh(m1, version), true)
  }

  /** The manager afterwards, and whether a reconciliation is begun then. */
  function Handle(m: Manager, e: S.Event, version: nat): (Manager, bool) {
    match e
    case OrderAccepted(id, orderId) =>
      if Retired(m, id) then (m, false)
      else
        var (m1, ok) := OnAccepted(m, id, orderId);
        (m1, !ok)
    case OrderSubmissionAcknowledged => (m, false)
    case OrderRejected(id) => if Retired(m, id) then (m, false) else (OnRejected(m, id), false)
    case OrderFilledEvent(orderId, client, status, qtyUsable) =>
      FilledBy(m, orderId, client, status, qtyUsable, version)
    case OrderCanceled(orderId, client) => (Canceled(m, orderId, client), false)
    case CancelSubmissionAcknowledged => (m, true)
    case CancelFailed(orderId) =>
      var m1 := OnCancelFailed(m, orderId);
      (m1, orderId == 0 || Reconciliation in m1.exec.pauses)
    case AmbiguousResponse => (m, true)
    case Disconnected => (Paused(m, OrderWebSocket), true)
    case Authenticated => (m.(exec := m.exec.ClearPause(OrderWebSocket)), false)
  }

  /** The orders an event may take out of the slots. */
  function Gone(m: Manager, e: S.Event): set<Order> {
    match e
    case OrderRejected(id) => if Retired(m, id) then {} else Released(m, ByClient(id))
    case OrderFilledEvent(orderId, client, status, qtyUsable) =>
      if qtyUsable && status == Some(S.Filled) then Released(m, ByFill(orderId, client)) else {}
    case OrderCanceled(orderId, client) =>
      if client.Some? && Released(m, ByClient(client.value)) != {} then Released(m, ByClient(client.value))
      else Released(m, ByExchange(orderId))
    case _ => {}
  }

  lemma CanceledReleases(m: Manager, orderId: int, client: Option<ClientId>)
    requires Sound(m)
    ensures var m1 := Canceled(m, orderId, client);
      && Sound(m1) && Frame(m, m1) && m1.gate == m.gate && m1.exec == m.exec
      && Tracked(m1) == Tracked(m) - Gone(m, S.OrderCanceled(orderId, client))
  {
    hide Sound, Tracked, Released, OnCanceled;
    if client.Some? {
      CanceledKeeps(m, ByClient(client.value));
      var (m1, found) := OnCanceled(m, ByClient(client.value));
      if !found {
        assert m1 == m by {
          NotFoundSame(m, ByClient(client.value));
        }
        CanceledKeeps(m, ByExchange(orderId));
      }
    } else {
      CanceledKeeps(m, ByExchange(orderId));
    }
  }

  lemma NotFoundSame(m: Manager, key: Key)
    requires !OnCanceled(m, key).1
    ensures OnCanceled(m, key).0 == m
  {
  }

  lemma FilledByKeeps(m: Manager, orderId: int, client: Option<ClientId>, status: Option<S.FillStatus>, qtyUsable: bool,
                      version: nat)
    requires Sound(m)
    ensures var (m1, begin) := FilledBy(m, orderId, client, status, qtyUsable, version);
      && Sound(m1) && Frame(m, m1) && Tightens(m.exec, m1.exec)
      && m1.gate.Some? && m1.gate.value >= version + 2
      && Tracked(m1) == Tracked(m) - Gone(m, S.OrderFilledEvent(orderId, client, status, qtyUsable))
  {
    hide Sound, Tracked, Released, OnFill, Tightens;
    FillKeeps(m, orderId, client, status == Some(S.Filled), version);
    RefreshKeeps(m, version);
  }

  /** Every event keeps the manager sound and takes exactly the named orders out;
      only an acceptance of the connection loosens a pause. */
  lemma HandleKeeps(m: Manager, e: S.Event, version: nat)
    requires Sound(m)
    ensures var (m1, begin) := Handle(m, e, version);
      && Sound(m1) && Frame(m, m1)
      && Tracked(m1) == Tracked(m) - Gone(m, e)
      && (if e.Authenticated? then m1.exec == m.exec.ClearPause(OrderWebSocket) else Tightens(m.exec, m1.exec))
      && (m1.gate == m.gate || (m1.gate.Some? && m1.gate.value >= version + 2))
      && (e.OrderFilledEvent? ==> m1.gate.Some? && m1.gate.value >= version + 2)
      && (e.Disconnected? || e.AmbiguousResponse? ==> begin)
  {
    hide Sound, Tracked, Released, OnAccepted, OnRejected, Canceled, FilledBy, OnCancelFailed, Tightens;
    match e {
      case OrderAccepted(id, orderId) =>
        AcceptedKeeps(m, id, orderId);
        Unchanged(m);
      case OrderRejected(id) =>
        RejectedKeeps(m, id);
        Unchanged(m);
      case OrderFilledEvent(orderId, client, status, qtyUsable) =>
        FilledByKeeps(m, orderId, client, status, qtyUsable, version);
      case OrderCanceled(orderId, client) =>
        CanceledReleases(m, orderId, client);
        Unchanged(m);
      case CancelFailed(orderId) => CancelFailedKeeps(m, orderId);
      case Disconnected => PausingKeeps(m, OrderWebSocket);
      case Authenticated => ResumingKeeps(m, OrderWebSocket);
      case _ => Unchanged(m);
    }
  }

  lemma Unchanged(m: Manager)
    ensures Tightens(m.exec, m.exec)
  {
  }
}
