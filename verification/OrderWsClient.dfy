// The order socket client and the application's reconciliation entry points, as
// objects updated in place. REST answers and write outcomes are inputs.
module OrderWsClient {
  import opened Orders
  import opened ExecutionState
  import opened OrderSocket

  datatype Rest<T> = Answer(value: T) | Failed

  datatype PlaceResult = Placed | Suspended | NotConnected | NotAuthenticated | SendError

  lemma DropTwice(s: Socket, a: set<ClientId>, b: set<ClientId>)
    ensures DropConfirmed(DropConfirmed(s, a), b) == DropConfirmed(s, a + b)
  {
  }

  lemma DropIrrelevant(s: Socket, a: set<ClientId>)
    requires Unresolved(s) !! a
    ensures DropConfirmed(s, a) == s
  {
    forall r | r in s.pending && s.pending[r].New?
      ensures s.pending[r].id !in a
    {
      assert s.pending[r].id in Unresolved(s);
    }
    assert DropConfirmed(s, a).pending == s.pending;
  }

  class OrderWsClient {
    var pendingRequests: map<nat, PendingRequest>
    var pendingCancels: set<ClientId>
    var messageCounter: nat
    var connected: bool
    var wsAuthenticated: bool

    constructor ()
      ensures Model() == Socket(map[], {}, 0) && !connected && !wsAuthenticated
    {
      pendingRequests, pendingCancels, messageCounter := map[], {}, 0;
      connected, wsAuthenticated := false, false;
    }

    ghost function Model(): Socket
      reads this
    {
      Socket(pendingRequests, pendingCancels, messageCounter)
    }

    /** The request is recorded before the write and stays recorded when the
        write fails or times out: it may have reached the exchange. Nothing is
        recorded unless both permission checks passed; `later` is what the second
        one finds, after signing and waiting for the writer. */
    method PlaceOrder(id: ClientId, execution: ExecutionState, tag: nat, later: Exec, writerReady: bool,
                      writeFails: bool)
      returns (result: PlaceResult)
      modifies this
      ensures unchanged(`connected) && unchanged(`wsAuthenticated)
      ensures result == Placed || result == SendError <==>
        execution.Model().Permits(tag) && old(connected && wsAuthenticated) && writerReady && later.Permits(tag)
      ensures result == Placed || result == SendError ==> id in Unresolved(Model())
      ensures result == Suspended <==>
        !execution.Model().Permits(tag) || (old(connected && wsAuthenticated) && writerReady && !later.Permits(tag))
      ensures if result == Placed || result == SendError
        then pendingRequests == old(pendingRequests)[old(messageCounter) := New(id)]
        else pendingRequests == old(pendingRequests)
      ensures pendingCancels == old(pendingCancels)
    {
      var ok := execution.Permits(tag);
      if !ok {
        return Suspended;
      }
      if !connected {
        return NotConnected;
      }
      if !wsAuthenticated {
        return NotAuthenticated;
      }
      var requestId := messageCounter;
      messageCounter := messageCounter + 1;
      if !writerReady {
        return NotConnected;
      }
      if !later.Permits(tag) {
        return Suspended;
      }
      pendingRequests := pendingRequests[requestId := New(id)];
      assert pendingRequests[requestId] == New(id);
      result := if writeFails then SendError else Placed;
    }

    /** A cancel that could not be written leaves no trace but a used number. */
    method CancelOrderByClientId(id: ClientId, writeFails: bool) returns (ok: bool)
      requires messageCounter !in pendingRequests
      modifies this
      ensures unchanged(`connected) && unchanged(`wsAuthenticated)
      ensures ok <==> old(connected && wsAuthenticated) && !writeFails
      ensures if ok
        then Model() == AddRequest(old(Model()).(cancels := old(pendingCancels) + {id}), CancelByClientId(id))
        else pendingRequests == old(pendingRequests) && pendingCancels == old(pendingCancels) - {id}
    {
      pendingCancels := pendingCancels + {id};
      ok := SendCancel(CancelByClientId(id), writeFails);
      if !ok {
        pendingCancels := pendingCancels - {id};
      }
    }

    method SendCancel(request: PendingRequest, writeFails: bool) returns (ok: bool)
      requires messageCounter !in pendingRequests
      modifies `pendingRequests, `messageCounter
      ensures ok <==> connected && wsAuthenticated && !writeFails
      ensures if ok then Model() == AddRequest(old(Model()), request) else pendingRequests == old(pendingRequests)
      ensures ok ==> pendingRequests == old(pendingRequests)[old(messageCounter) := request]
      ensures ok ==> messageCounter == old(messageCounter) + 1
    {
      if !connected || !wsAuthenticated {
        return false;
      }
      var requestId := messageCounter;
      messageCounter := messageCounter + 1;
      pendingRequests := pendingRequests[requestId := request];
      if writeFails {
        pendingRequests := pendingRequests - {requestId};
        return false;
      }
      ok := true;
    }

    /** What the connection loop does when a connection is lost: the flags go first,
        awaited cancels are forgotten, unanswered requests are not. */
    method ConnectionLost()
      modifies `connected, `wsAuthenticated, `pendingCancels
      ensures !connected && !wsAuthenticated && pendingCancels == {}
      ensures Model() == Drop(old(Model()))
    {
      connected := false;
      wsAuthenticated := false;
      pendingCancels := {};
    }

    method ClearPendingTracking()
      modifies `pendingRequests, `pendingCancels
      ensures Model() == ClearTracking(old(Model()))
      ensures pendingRequests == map[] && pendingCancels == {}
    {
      pendingCancels := {};
      pendingRequests := map[];
    }

    /** A cold-path snapshot never waits for the lock. */
    method TryClearRestConfirmedRequests(ids: set<ClientId>, locked: bool)
      modifies `pendingRequests
      ensures Model() == if locked then old(Model()) else DropConfirmed(old(Model()), ids)
      ensures locked ==> pendingRequests == old(pendingRequests)
      ensures !locked ==> forall r :: r in pendingRequests <==>
        r in old(pendingRequests) && !(old(pendingRequests)[r].New? && old(pendingRequests)[r].id in ids)
      ensures forall r :: r in pendingRequests ==> pendingRequests[r] == old(pendingRequests)[r]
    {
      if locked {
        return;
      }
      pendingRequests := map r | r in pendingRequests
        && !(pendingRequests[r].New? && pendingRequests[r].id in ids) :: pendingRequests[r];
    }

    method SubmissionsSettled() returns (settled: bool)
      ensures settled == OrderSocket.SubmissionsSettled(Model())
      ensures settled <==> forall r :: r in pendingRequests ==> !pendingRequests[r].New?
    {
      var rest := pendingRequests.Keys;
      while rest != {}
        invariant rest <= pendingRequests.Keys
        invariant forall r :: r in pendingRequests && r !in rest ==> !pendingRequests[r].New?
        decreases rest
      {
        var r :| r in rest;
        if pendingRequests[r].New? {
          return false;
        }
        rest := rest - {r};
      }
      settled := true;
    }

    /** One verification pass. `before` and `remaining` are the two open-order
        queries, `decided` the ids the per-order query reports with a final or
        open status, `busy` those whose removal finds the map locked. Settlement is
        judged before the cancel, so an answer that arrives during the cleanup needs
        another pass. */
    method CancelAndVerify(before: Rest<set<ClientId>>, decided: set<ClientId>, busy: set<ClientId>, cancelFails: bool,
                           remaining: Rest<set<ClientId>>)
      returns (verdict: Rest<bool>)
      modifies `pendingRequests
      ensures before.Failed? ==> verdict.Failed? && Model() == old(Model())
      ensures before.Answer? ==> Model() == DropConfirmed(old(Model()), before.value + (decided - busy))
      ensures verdict.Failed? <==> before.Failed? || cancelFails || remaining.Failed?
      ensures verdict.Answer? ==>
        (verdict.value <==> remaining.value == {} && Unresolved(old(Model())) <= before.value + (decided - busy))
    {
      if before.Failed? {
        return Failed;
      }
      TryClearRestConfirmedRequests(before.value, false);
      var unresolved := set r | r in pendingRequests && pendingRequests[r].New? :: pendingRequests[r].id;
      var todo := unresolved;
      ghost var listed, dropped := Model(), decided - busy;
      while todo != {}
        invariant todo <= unresolved
        invariant Model() == DropConfirmed(listed, (unresolved - todo) * dropped)
        decreases todo
      {
        var id :| id in todo;
        ghost var done := (unresolved - todo) * dropped;
        if id in decided {
          TryClearRestConfirmedRequests({id}, id in busy);
          DropTwice(listed, done, {id});
        }
        assert (unresolved - (todo - {id})) * dropped == if id in dropped then done + {id} else done;
        todo := todo - {id};
      }
      PassTotal(old(Model()), before.value, dropped, listed, Model());
      var settled := SubmissionsSettled();
      SettledIffConfirmed(old(Model()), before.value + dropped);
      if cancelFails || remaining.Failed? {
        return Failed;
      }
      verdict := Answer(remaining.value == {} && settled);
    }

    /** The effect of a response on the correlation state, and the event it raises. */
    method HandleResponse(r: Response) returns (event: Option<Event>)
      modifies `pendingRequests, `pendingCancels
      ensures (Model(), event) == OrderSocket.HandleResponse(old(Model()), r)
    {
      if r.requestId.Some? && r.requestId.value.Own? && r.code.Some? {
        var n := r.requestId.value.number;
        if n in pendingRequests {
          var request := pendingRequests[n];
          pendingRequests := pendingRequests - {n};
          if request.CancelByClientId? {
            pendingCancels := pendingCancels - {request.id};
          }
          return Some(Correlated(Socket(pendingRequests, pendingCancels, messageCounter), request, r.code.value).1);
        }
      }
      if AlreadySettled(r) {
        return None;
      }
      if r.code.Some? && r.topic != OrderCancel && r.data.Some? && r.data.value.client.Some? {
        if r.data.value.client.value !in pendingCancels {
          TryClearRestConfirmedRequests({r.data.value.client.value}, false);
        }
      }
      var s := Socket(pendingRequests, pendingCancels, messageCounter);
      var (t, e) := ByMethod(s, r);
      pendingCancels := t.cancels;
      RoutingKeepsPending(s, r);
      event := Some(e);
    }
  }

  lemma PassTotal(s: Socket, before: set<ClientId>, decided: set<ClientId>, listed: Socket, after: Socket)
    requires listed == DropConfirmed(s, before)
    requires after == DropConfirmed(listed, Unresolved(listed) * decided)
    ensures after == DropConfirmed(s, before + decided)
  {
    DropTwice(s, before, Unresolved(listed) * decided);
    DropTwice(s, before, decided);
    DropTwice(listed, Unresolved(listed) * decided, decided - Unresolved(listed));
    assert Unresolved(listed) * decided + (decided - Unresolved(listed)) == decided;
    DropConfirmedLeaves(listed, Unresolved(listed) * decided);
    DropIrrelevant(after, decided - Unresolved(listed));
  }

  lemma SettledIffConfirmed(s: Socket, ids: set<ClientId>)
    ensures OrderSocket.SubmissionsSettled(DropConfirmed(s, ids)) <==> Unresolved(s) <= ids
  {
    var t := DropConfirmed(s, ids);
    DropConfirmedLeaves(s, ids);
    assert forall r :: r in t.pending && t.pending[r].New? ==> t.pending[r].id in Unresolved(t);
    if OrderSocket.SubmissionsSettled(t) {
      assert Unresolved(t) == {};
      forall id | id in Unresolved(s)
        ensures id in ids
      {
        assert id !in Unresolved(s) - ids;
      }
    }
  }
}
