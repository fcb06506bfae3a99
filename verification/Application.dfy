// The event loop's reconciliation entry points and the one-second risk check.
module Application {
  import opened Orders
  import opened ExecutionState
  import opened ManagerModel
  import opened OrderManager
  import opened SharedPosition
  import opened EventLoop
  import S = OrderSocket

  class App {
    const manager: OrderManager
    var reconciliationPending: bool
    var reconciliationGeneration: nat
    /** Requests handed to the worker's channel, oldest first. */
    var requests: seq<nat>

    constructor (manager: OrderManager)
      ensures this.manager == manager && !reconciliationPending && reconciliationGeneration == 0 && requests == []
    {
      this.manager := manager;
      reconciliationPending, reconciliationGeneration, requests := false, 0, [];
    }

    ghost predicate Valid()
      reads this, manager
    {
      manager.Valid()
    }

    ghost function Model(): Account
      reads this, manager, manager.bids, manager.asks, manager.execution
      requires Valid()
    {
      Account(manager.Model(), reconciliationPending, reconciliationGeneration)
    }

    /** Pause first, arm the fill gate once per reconciliation, then ask for cleanup. */
    method BeginAccountReconciliation()
      requires Valid()
      modifies this, manager, manager.execution
      ensures Valid()
      ensures var (acct, request) := BeginAccount(old(Model()), manager.position.updateVersion);
        && Model() == acct
        && requests == if request.Some? then old(requests) + [request.value] else old(requests)
    {
      if reconciliationPending {
        return;
      }
      reconciliationPending := true;
      if Reconciliation !in manager.execution.pauseReasons {
        manager.RequirePositionRefresh();
      }
      manager.execution.SetPauseReason(Reconciliation);
      reconciliationGeneration := reconciliationGeneration + 1;
      requests := requests + [reconciliationGeneration];
    }

    method FinishAccountReconciliation()
      requires Valid()
      modifies this, manager, manager.bids, manager.asks, manager.execution
      ensures Valid()
      ensures Model() == FinishAccount(old(Model()), manager.position.updateVersion)
      ensures requests == old(requests)
    {
      reconciliationPending := false;
      manager.RequirePositionRefresh();
      manager.FinishReconciling();
    }

    /** Serves one event of the order socket. */
    method HandleOrderEvent(e: S.Event)
      requires Valid()
      modifies this, manager, manager.bids, manager.asks, manager.execution
      ensures Valid()
      ensures var (m1, begin) := Handle(old(manager.Model()), e, manager.position.updateVersion);
        var (acct, request) := BeginAccount(old(Model()).(m := m1), manager.position.updateVersion);
        if begin then Model() == acct
          && requests == (if request.Some? then old(requests) + [request.value] else old(requests))
        else Model() == old(Model()).(m := m1) && requests == old(requests)
    {
      var begin := ServeManager(e);
      if begin {
        BeginAccountReconciliation();
      }
    }

    method ServeManager(e: S.Event) returns (begin: bool)
      requires Valid()
      modifies manager, manager.bids, manager.asks, manager.execution
      ensures Valid()
      ensures (manager.Model(), begin) == Handle(old(manager.Model()), e, manager.position.updateVersion)
    {
      begin := false;
      match e {
        case OrderAccepted(id, orderId) =>
          if manager.retired <= id.generation {
            var matched := manager.OnOrderAccepted(id, orderId);
            begin := !matched;
          }
        case OrderRejected(id) =>
          if manager.retired <= id.generation {
            manager.OnOrderRejected(id);
          }
        case OrderFilledEvent(orderId, client, status, qtyUsable) =>
          begin := ServeFill(orderId, client, status, qtyUsable);
        case OrderCanceled(orderId, client) =>
          var found := false;
          if client.Some? {
            found := manager.OnOrderCanceled(ByClient(client.value));
          }
          if !found {
            found := manager.OnOrderCanceled(ByExchange(orderId));
          }
        case CancelFailed(orderId) =>
          manager.OnCancelFailedFor(orderId);
          begin := orderId == 0 || Reconciliation in manager.execution.pauseReasons;
        case OrderSubmissionAcknowledged =>
        case CancelSubmissionAcknowledged => begin := true;
        case AmbiguousResponse => begin := true;
        case Disconnected =>
          manager.execution.SetPauseReason(OrderWebSocket);
          begin := true;
        case Authenticated => manager.execution.ClearPauseReason(OrderWebSocket);
      }
    }

    method ServeFill(orderId: int, client: Option<ClientId>, status: Option<S.FillStatus>, qtyUsable: bool)
      returns (begin: bool)
      requires Valid()
      modifies manager, manager.bids, manager.asks, manager.execution
      ensures Valid()
      ensures (manager.Model(), begin) ==
        FilledBy(old(manager.Model()), orderId, client, status, qtyUsable, manager.position.updateVersion)
    {
      var full := status == Some(S.Filled);
      var partial := status == Some(S.Partial);
      if !qtyUsable {
        manager.RequirePositionRefresh();
        return true;
      }
      if !full && !partial {
        manager.RequirePositionRefresh();
        return true;
      }
      var matched := manager.OnOrderFill(orderId, client, full);
      if !matched {
        manager.RequirePositionRefresh();
      }
      begin := !matched || partial;
    }

    method UpdateRiskPauses(sourcesFresh: bool) returns (becameStale: bool)
      requires Valid()
      modifies manager, manager.execution
      ensures Valid()
      ensures (manager.Model(), becameStale) ==
        RiskTick(old(manager.Model()), sourcesFresh, manager.position.updateVersion, manager.position.position)
    {
      var current := manager.PositionRefreshComplete();
      var wasStale := RiskData in manager.execution.pauseReasons;
      becameStale := false;
      if sourcesFresh && current {
        manager.InitializePositionBaseline();
        manager.execution.ClearPauseReason(RiskData);
      } else {
        manager.execution.SetPauseReason(RiskData);
        if !sourcesFresh && !wasStale {
          manager.execution.SetPauseReason(Reconciliation);
          becameStale := true;
        }
      }
    }
  }
}
