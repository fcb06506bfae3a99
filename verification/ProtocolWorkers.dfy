// The order executor and the reconciliation worker keep the invariant.
module ProtocolWorkers {
  import opened Orders
  import opened ExecutionState
  import opened ManagerModel
  import opened ManagerInvariants
  import opened HandlerProofs
  import opened Protocol
  import opened ProtocolInvariants
  import S = OrderSocket
  import X = Exchange

  // --------------------------------------------------------------- executor

  lemma PopKeepsBooks(s: Sys, sent: bool)
    requires Books(s) && ExecEnabled(s, Pop(sent))
    ensures Books(ExecApply(s, Pop(sent)))
  {
    hide Tracked, X.Sane, Sound;
    var t := ExecApply(s, Pop(sent));
    assert forall k :: 0 <= k < |t.queue| ==> t.queue[k] == s.queue[k + 1];
    assert s.queue[0] in s.queue;
  }

  lemma PopKeepsTags(s: Sys, sent: bool)
    requires Stale(s.issued, s.queue, s.exec, s.acct.m.exec) && FreshQueue(s.queue, s.exec, s.written)
    requires ExecEnabled(s, Pop(sent))
    ensures var t := ExecApply(s, Pop(sent));
      Stale(t.issued, t.queue, t.exec, t.acct.m.exec) && FreshQueue(t.queue, t.exec, t.written)
  {
    hide S.AddRequest;
  }

  lemma StepKeepsBooks(s: Sys, e: ExecStep)
    requires Books(s) && ExecEnabled(s, e) && !e.Pop? && !e.Write?
    ensures Books(ExecApply(s, e))
  {
    hide Tracked, X.Sane, Sound;
    assert KnownOrders(ExecApply(s, e)) <= KnownOrders(s);
  }

  lemma ExecKeepsCore(s: Sys, e: ExecStep)
    requires Core(s) && ExecEnabled(s, e)
    ensures Core(ExecApply(s, e))
  {
    hide Books, Stale, FreshQueue, ExecApply, Locks, Tokens;
    var t := ExecApply(s, e);
    ExecKeepsLocks(s, e);
    if e.Pop? {
      PopKeepsBooks(s, e.sent);
      PopKeepsTags(s, e.sent);
    } else if e.Write? {
      WriteKeepsBooks(s, e.reached);
    } else {
      StepKeepsBooks(s, e);
      StepKeepsTags(s, e);
    }
  }

  lemma ExecKeepsLocks(s: Sys, e: ExecStep)
    requires Locks(s) && Tokens(s) && ExecEnabled(s, e)
    ensures Locks(ExecApply(s, e)) && Tokens(ExecApply(s, e))
  {
  }

  lemma StepKeepsTags(s: Sys, e: ExecStep)
    requires Stale(s.issued, s.queue, s.exec, s.acct.m.exec) && FreshQueue(s.queue, s.exec, s.written)
    requires ExecEnabled(s, e) && !e.Pop? && !e.Write?
    ensures var t := ExecApply(s, e);
      Stale(t.issued, t.queue, t.exec, t.acct.m.exec) && FreshQueue(t.queue, t.exec, t.written)
  {
    hide S.AddRequest;
    assert ExecOrder(ExecApply(s, e).exec) <= ExecOrder(s.exec);
  }

  lemma WriteKeepsBooks(s: Sys, reached: bool)
    requires Books(s) && FreshQueue(s.queue, s.exec, s.written) && Stale(s.issued, s.queue, s.exec, s.acct.m.exec)
    requires ExecEnabled(s, Write(reached))
    ensures var t := ExecApply(s, Write(reached));
      Books(t) && FreshQueue(t.queue, t.exec, t.written) && Stale(t.issued, t.queue, t.exec, t.acct.m.exec)
  {
    hide Tracked, Sound;
    var t := ExecApply(s, Write(reached));
    var o := s.exec.order;
    assert KnownOrders(t) == KnownOrders(s);
    assert Registered(s.issued, o);
    assert o.qty > 0.0;
    forall k | 0 <= k < |t.queue| && t.queue[k].decision.Send?
      ensures t.queue[k].decision.order != o
    {
      assert o in ExecOrder(s.exec);
    }
  }

  /** The executor's steps only move an outstanding order along or drop it. */
  lemma ExecKeepsStray(s: Sys, e: ExecStep)
    requires NoStray(s) && ExecEnabled(s, e)
    ensures NoStray(ExecApply(s, e))
  {
    hide Tracked, Current, S.AddRequest;
    var t := ExecApply(s, e);
    if e.Pop? {
      CurrentPop(s.queue, s.acct.m.exec.generation);
    }
    assert Outstanding(t) <= Outstanding(s);
  }

  lemma ExecKeepsCleanup(s: Sys, e: ExecStep)
    requires Core(s) && CleanupPart(s) && ExecEnabled(s, e)
    ensures CleanupPart(ExecApply(s, e))
  {
    hide Books, Stale, FreshQueue;
    var t := ExecApply(s, e);
    match e {
      case Pop(sent) =>
        if !s.queue[0].decision.Send? && sent {
          var marked := s.socket.(cancels := s.socket.cancels + {s.queue[0].decision.id});
          S.SamePendingSameUnresolved(s.socket, marked);
          S.AddRequestAdds(marked, S.CancelByClientId(s.queue[0].decision.id));
        }
      case InsertPending =>
        S.AddRequestAdds(s.socket, S.New(s.exec.order.id));
        assert s.exec.order.id in S.Unresolved(t.socket);
      case Write(reached) =>
        assert Ids(s.x.wire + {s.exec.order}) == Ids(s.x.wire) + {s.exec.order.id};
        assert s.lock == ByExecutor && !UnderLock(s.worker);
      case SecondCheck(writable) => PermittedIsNotQuiet(s);
      case _ =>
    }
  }

  /** While a verified result is on its way everything tagged is stale. */
  lemma PermittedIsNotQuiet(s: Sys)
    requires Stale(s.issued, s.queue, s.exec, s.acct.m.exec) && Tokens(s) && s.exec.Checked?
    ensures s.worker.Verified? || s.results != [] ==> !s.acct.m.exec.Permits(s.exec.tag)
  {
  }

  /** Writing keeps the fills and the published position as they were. */
  lemma ExecKeepsPosition(s: Sys, e: ExecStep)
    requires PositionPart(s) && ExecEnabled(s, e)
    ensures PositionPart(ExecApply(s, e))
  {
  }

  // ----------------------------------------------------------------- worker

  lemma WorkerKeepsCore(s: Sys, e: WorkerStep)
    requires Core(s) && WorkerEnabled(s, e)
    ensures Core(WorkerApply(s, e))
  {
    hide Tracked, Sound, Stale, FreshQueue, Registry;
    if e.Take? {
      OneRequest(s);
    }
    assert KnownOrders(WorkerApply(s, e)) == KnownOrders(s);
  }

  lemma WorkerKeepsStray(s: Sys, e: WorkerStep)
    requires NoStray(s) && WorkerEnabled(s, e)
    ensures NoStray(WorkerApply(s, e))
  {
    hide Tracked, Current, InHand;
    assert Outstanding(WorkerApply(s, e)) <= Outstanding(s);
  }

  lemma WorkerKeepsPosition(s: Sys, e: WorkerStep)
    requires PositionPart(s) && WorkerEnabled(s, e)
    ensures PositionPart(WorkerApply(s, e))
  {
  }

  /** Forgetting ids the exchange has decided uncovers no order on the wire. */
  lemma ForgetDecided(s: Sys, ids: set<ClientId>)
    requires Books(s) && FreshQueue(s.queue, s.exec, s.written) && PendingCovers(s)
    requires ids <= Ids(s.x.accepted + s.x.rejected)
    ensures PendingCovers(s.(socket := S.DropConfirmed(s.socket, ids)))
  {
    S.DropConfirmedLeaves(s.socket, ids);
    forall id | id in ids
      ensures id !in Ids(s.x.wire) && (s.exec.Inserted? ==> s.exec.order.id != id)
    {
      DecidedIsNotPending(s, id);
    }
  }

  lemma WorkerKeepsPending(s: Sys, e: WorkerStep)
    requires Core(s) && CleanupPart(s) && WorkerEnabled(s, e)
    ensures PendingCovers(WorkerApply(s, e))
  {
    match e {
      case Retain =>
        IdsSubset(s.x.accepted, s.x.accepted + s.x.rejected);
        ForgetDecided(s, s.worker.before);
      case Query(id, known) =>
        if known {
          ForgetDecided(s, {id});
        }
      case _ =>
    }
  }

  /** When no request is unresolved, nothing is on the wire. */
  lemma SettledMeansNothingOnWire(s: Sys)
    requires PendingCovers(s) && S.SubmissionsSettled(s.socket)
    ensures s.x.wire == {}
  {
    assert S.Unresolved(s.socket) == {};
    assert forall o :: o in s.x.wire ==> o.id in Ids(s.x.wire);
  }

  lemma OneRequest(s: Sys)
    requires Tokens(s) && s.requests != []
    ensures |s.requests| == 1 && s.acct.pending && s.results == [] && MaxOf(s.requests) == s.acct.generation
  {
  }

  lemma WorkerKeepsCleanup(s: Sys, e: WorkerStep)
    requires Core(s) && CleanupPart(s) && WorkerEnabled(s, e)
    ensures CleanupPart(WorkerApply(s, e))
  {
    var t := WorkerApply(s, e);
    WorkerKeepsPending(s, e);
    match e {
      case Take => OneRequest(s);
      case ReadOpen => IdsSubset(s.x.open, s.x.accepted);
      case Settle =>
        if S.SubmissionsSettled(s.socket) {
          SettledMeansNothingOnWire(s);
        }
      case _ =>
    }
  }
}
