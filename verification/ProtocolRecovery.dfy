// The protocol recovers: some run issues an order, loses the answer to it, cleans
// the account up and trades again, so the pauses and the gate can all be opened.
module ProtocolRecovery {
  import opened Orders
  import opened ExecutionState
  import opened ManagerModel
  import opened ManagerInvariants
  import opened Protocol
  import opened ProtocolExample
  import S = OrderSocket
  import X = Exchange

  /** Trading is permitted again after a reconciliation, nothing is open, on the wire
      or tracked, and every order the exchange ever accepted is retired. */
  predicate Recovered(s: Sys) {
    && s.acct.m.exec.Permits(s.acct.m.exec.generation) && s.acct.m.gate.None? && !s.acct.pending
    && s.acct.generation > 0 && s.x.accepted != {}
    && s.x.open == {} && s.x.wire == {} && Tracked(s.acct.m) == {}
    && forall o :: o in s.x.accepted ==> Retired(s.acct.m, o.id)
  }

  const CLOSED := OPEN.(open := {})
  const CONFIRMED := S.Socket(map[1 := S.CancelByClientId(ORDER.id)], {ORDER.id}, 2)

  /** From the overdue order on: the worker cleans up. */
  function Cleaning(requests: seq<nat>, results: seq<nat>, worker: WorkerPc, lock: Lock, socket: S.Socket,
                    x: X.Exchange): Sys {
    Sys(Account(OVERDUE, true, 1), AtRest, [], requests, results, Idle, lock, worker, socket, Up, [], {}, 0, PUBLISHED,
        x, {}, [ORDER], {ORDER})
  }

  lemma Holds()
    ensures Reachable(Cleaning([], [], Held(1), ByWorker, AWAITED, OPEN))
  {
    AwaitsCancel();
    hide Reachable;
    assert [] + [1] == [1];
    Reaches(Later(OVERDUE, [], Idle, Free, AWAITED, OPEN, {ORDER}), MainDoes(BeginReconciliation),
            Cleaning([1], [], Sleeping, Free, AWAITED, OPEN));
    Reaches(Cleaning([1], [], Sleeping, Free, AWAITED, OPEN), WorkerDoes(Take),
            Cleaning([], [], Waiting(1), Free, AWAITED, OPEN));
    Reaches(Cleaning([], [], Waiting(1), Free, AWAITED, OPEN), WorkerDoes(AcquireLock),
            Cleaning([], [], Held(1), ByWorker, AWAITED, OPEN));
  }

  lemma Lists()
    ensures Reachable(Cleaning([], [], Listed(1, {ORDER.id}), ByWorker, AWAITED, OPEN))
  {
    Holds();
    hide Reachable;
    assert Ids(OPEN.open) == {ORDER.id};
    Reaches(Cleaning([], [], Held(1), ByWorker, AWAITED, OPEN), WorkerDoes(ReadOpen),
            Cleaning([], [], Listed(1, {ORDER.id}), ByWorker, AWAITED, OPEN));
  }

  lemma Confirms()
    ensures Reachable(Cleaning([], [], Dropped(1), ByWorker, CONFIRMED, OPEN))
  {
    Lists();
    hide Reachable;
    assert S.DropConfirmed(AWAITED, {ORDER.id}) == CONFIRMED by {
      assert S.DropConfirmed(AWAITED, {ORDER.id}).pending == CONFIRMED.pending;
    }
    Reaches(Cleaning([], [], Listed(1, {ORDER.id}), ByWorker, AWAITED, OPEN), WorkerDoes(Retain),
            Cleaning([], [], Dropped(1), ByWorker, CONFIRMED, OPEN));
  }

  lemma Asks()
    ensures Reachable(Cleaning([], [], Querying(1, {ORDER.id}), ByWorker, AWAITED, CLOSED))
  {
    Holds();
    hide Reachable;
    assert OPEN.open - {ORDER} == {} && Ids({}) == {};
    Reaches(Cleaning([], [], Held(1), ByWorker, AWAITED, OPEN), ExchangeDoes(X.Close(ORDER)),
            Cleaning([], [], Held(1), ByWorker, AWAITED, CLOSED));
    Reaches(Cleaning([], [], Held(1), ByWorker, AWAITED, CLOSED), WorkerDoes(ReadOpen),
            Cleaning([], [], Listed(1, {}), ByWorker, AWAITED, CLOSED));
    assert S.DropConfirmed(AWAITED, {}) == AWAITED by {
      assert S.DropConfirmed(AWAITED, {}).pending == AWAITED.pending;
    }
    Reaches(Cleaning([], [], Listed(1, {}), ByWorker, AWAITED, CLOSED), WorkerDoes(Retain),
            Cleaning([], [], Dropped(1), ByWorker, AWAITED, CLOSED));
    assert S.Unresolved(AWAITED) == {ORDER.id} by {
      assert 0 in AWAITED.pending && AWAITED.pending[0] == S.New(ORDER.id);
    }
    Reaches(Cleaning([], [], Dropped(1), ByWorker, AWAITED, CLOSED), WorkerDoes(ListUnresolved),
            Cleaning([], [], Querying(1, {ORDER.id}), ByWorker, AWAITED, CLOSED));
  }

  /** An order closed before it could be listed is asked for by its id, and the answer
      settles its submission. */
  lemma SettlesByQuery()
    ensures Reachable(Cleaning([], [], Settled(1, true), ByWorker, CONFIRMED, CLOSED))
  {
    Asks();
    hide Reachable;
    assert S.DropConfirmed(AWAITED, {ORDER.id}) == CONFIRMED by {
      assert S.DropConfirmed(AWAITED, {ORDER.id}).pending == CONFIRMED.pending;
    }
    assert ORDER.id in Ids(CLOSED.accepted + CLOSED.rejected) by {
      assert ORDER in CLOSED.accepted + CLOSED.rejected;
    }
    assert {ORDER.id} - {ORDER.id} == {};
    Reaches(Cleaning([], [], Querying(1, {ORDER.id}), ByWorker, AWAITED, CLOSED), WorkerDoes(Query(ORDER.id, true)),
            Cleaning([], [], Querying(1, {}), ByWorker, CONFIRMED, CLOSED));
    assert S.SubmissionsSettled(CONFIRMED);
    Reaches(Cleaning([], [], Querying(1, {}), ByWorker, CONFIRMED, CLOSED), WorkerDoes(Settle),
            Cleaning([], [], Settled(1, true), ByWorker, CONFIRMED, CLOSED));
  }

  lemma Settles()
    ensures Reachable(Cleaning([], [], Settled(1, true), ByWorker, CONFIRMED, OPEN))
  {
    Confirms();
    hide Reachable;
    assert S.Unresolved(CONFIRMED) == {} && S.SubmissionsSettled(CONFIRMED);
    Reaches(Cleaning([], [], Dropped(1), ByWorker, CONFIRMED, OPEN), WorkerDoes(ListUnresolved),
            Cleaning([], [], Querying(1, {}), ByWorker, CONFIRMED, OPEN));
    Reaches(Cleaning([], [], Querying(1, {}), ByWorker, CONFIRMED, OPEN), WorkerDoes(Settle),
            Cleaning([], [], Settled(1, true), ByWorker, CONFIRMED, OPEN));
  }

  lemma Cancels()
    ensures Reachable(Cleaning([], [], Judged(1, true), ByWorker, CONFIRMED, CLOSED))
  {
    Settles();
    hide Reachable;
    assert OPEN.open - {ORDER} == {};
    Reaches(Cleaning([], [], Settled(1, true), ByWorker, CONFIRMED, OPEN), WorkerDoes(CancelAll({ORDER})),
            Cleaning([], [], Canceled(1, true), ByWorker, CONFIRMED, CLOSED));
    Reaches(Cleaning([], [], Canceled(1, true), ByWorker, CONFIRMED, CLOSED), WorkerDoes(ReadRemaining),
            Cleaning([], [], Judged(1, true), ByWorker, CONFIRMED, CLOSED));
  }

  lemma Verifies()
    ensures Reachable(Cleaning([], [1], Sleeping, Free, CONFIRMED, CLOSED))
  {
    Cancels();
    hide Reachable;
    Reaches(Cleaning([], [], Judged(1, true), ByWorker, CONFIRMED, CLOSED), WorkerDoes(LeaveLock),
            Cleaning([], [], Verified(1), Free, CONFIRMED, CLOSED));
    assert [] + [1] == [1];
    Reaches(Cleaning([], [], Verified(1), Free, CONFIRMED, CLOSED), WorkerDoes(Report),
            Cleaning([], [1], Sleeping, Free, CONFIRMED, CLOSED));
  }

  const FINISHED := OVERDUE.(bids := [None, None], exec := Exec({RiskData}, 5, false), retired := 5, gate := Some(3))

  /** After the finish: the position is published twice more. */
  function Finished(m: Manager, version: nat, poll: PollPc): Sys {
    Sys(Account(m, false, 1), AtRest, [], [], [], Idle, Free, Sleeping, S.Socket(map[], {}, 2), Up, [], {}, 0,
        Feed(0.0, 0, true, version, poll), CLOSED, {}, [ORDER], {ORDER})
  }

  lemma Finishes()
    ensures Reachable(Finished(FINISHED, 1, PollIdle))
  {
    Verifies();
    hide Reachable;
    assert FinishAccount(Account(OVERDUE, true, 1), 1) == Account(FINISHED, false, 1) by {
      assert {Reconciliation} + {RiskData} - {Safety} - {CircuitBreaker} - {Reconciliation} == {RiskData};
    }
    hide FinishAccount;
    Reaches(Cleaning([], [1], Sleeping, Free, CONFIRMED, CLOSED), MainDoes(FinishReconciling),
            Finished(FINISHED, 1, PollIdle));
  }

  lemma Publishes(version: nat)
    requires Reachable(Finished(FINISHED, version, PollIdle))
    ensures Reachable(Finished(FINISHED, version + 1, PollIdle))
  {
    hide Reachable;
    Reaches(Finished(FINISHED, version, PollIdle), PollDoes(ReadPosition),
            Finished(FINISHED, version, PollRead(0.0, 0)));
    Reaches(Finished(FINISHED, version, PollRead(0.0, 0)), PollDoes(Publish), Finished(FINISHED, version, PollStored));
    Reaches(Finished(FINISHED, version, PollStored), PollDoes(BumpVersion), Finished(FINISHED, version + 1, PollIdle));
  }

  lemma SomeRunRecovers()
    ensures exists states: seq<Sys>, steps: seq<Step> ::
      WellReadRun(states, steps, |steps|) && Recovered(states[|steps|])
  {
    Finishes();
    Publishes(1);
    Publishes(2);
    var s := Finished(FINISHED.(exec := Exec({}, 5, false), gate := None), 3, PollIdle);
    assert Reachable(s) by {
      hide Reachable;
      assert {RiskData} - {RiskData} == {};
      Reaches(Finished(FINISHED, 3, PollIdle), MainDoes(RiskCheck(true)), s);
    }
    assert Recovered(s) by {
      assert ORDER in s.x.accepted;
      assert Tracked(s.acct.m) == {};
    }
    var states, steps :| WellReadRun(states, steps, |steps|) && states[|steps|] == s;
  }
}
