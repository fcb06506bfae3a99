// The exchange, the poller and the socket keep the invariant.
module ProtocolEnvironment {
  import opened Orders
  import opened ExecutionState
  import opened ManagerModel
  import opened ManagerInvariants
  import opened HandlerProofs
  import opened Protocol
  import opened ProtocolInvariants
  import C = Correspondence
  import S = OrderSocket
  import X = Exchange

  /** A step that leaves the manager, the executor and the queues alone. */
  predicate Aside(s: Sys, t: Sys) {
    && t.acct == s.acct && t.exec == s.exec && t.queue == s.queue && t.issued == s.issued && t.written == s.written
    && t.lock == s.lock && t.worker == s.worker && t.requests == s.requests && t.results == s.results
    && t.main == s.main && t.delivered == s.delivered
  }

  lemma AsideKeepsCore(s: Sys, t: Sys)
    requires Core(s) && Aside(s, t) && t.x == s.x
    ensures Core(t) && Outstanding(t) == Outstanding(s)
  {
    hide Registry, Stale, FreshQueue, Sound, X.Sane;
    assert KnownOrders(t) == KnownOrders(s);
  }

  lemma ExchangeKeepsCore(s: Sys, e: X.Step)
    requires Core(s) && X.Enabled(s.x, e)
    ensures Core(s.(x := X.Apply(s.x, e)))
    ensures Outstanding(s.(x := X.Apply(s.x, e))) <= Outstanding(s)
  {
    hide X.Sane, Sound, Registry, Stale, FreshQueue, Current, InHand, ExecOrder, Tracked;
    X.SaneStep(s.x, e);
  }

  lemma ExchangeKeepsCleanup(s: Sys, e: X.Step)
    requires Books(s) && CleanupPart(s) && X.Enabled(s.x, e)
    ensures CleanupPart(s.(x := X.Apply(s.x, e)))
  {
    var t := s.(x := X.Apply(s.x, e));
    IdsSubset(t.x.wire, s.x.wire);
    IdsSubset(s.x.accepted, t.x.accepted);
  }

  /** A new fill belongs to an open order, hence to a tracked one. */
  lemma ExchangeKeepsPosition(s: Sys, e: X.Step)
    requires NoStray(s) && PositionPart(s) && X.Enabled(s.x, e)
    ensures PositionPart(s.(x := X.Apply(s.x, e)))
  {
    var t := s.(x := X.Apply(s.x, e));
    if e.Trade? {
      assert e.order in Outstanding(s);
      assert t.x.log[..s.feed.seen] == s.x.log[..s.feed.seen];
      if s.feed.poll.PollRead? {
        assert t.x.log[..s.feed.poll.seen] == s.x.log[..s.feed.poll.seen];
      }
      if s.main.Quoting? {
        assert t.x.log[..s.main.seen] == s.x.log[..s.main.seen];
      }
    }
  }

  lemma PollKeeps(s: Sys, e: PollStep)
    requires PositionPart(s) && PollEnabled(s, e)
    ensures PositionPart(PollApply(s, e))
  {
    assert s.x.log[..|s.x.log|] == s.x.log;
  }

  /** A response that is not misread resolves only submissions the exchange has
      decided: it is an answer to one, or shows that one was accepted. */
  lemma AnswersAreDecided(x: X.Exchange, s: S.Socket, r: S.Response, about: C.Meaning)
    requires X.Sane(x) && C.TrueOf(x, about) && C.Phrases(x, s, r, about) && !C.Misread(s, r, about)
    requires S.Answers(s, r).Some?
    ensures S.Answers(s, r).value in Ids(x.accepted + x.rejected)
  {
    var o := if about.OnFill? then x.log[about.index].order else about.order;
    assert o in x.accepted + x.rejected;
    assert S.Answers(s, r).value == o.id;
  }

  /** So an answered submission is neither on the wire nor about to be written. */
  lemma AnsweredIsNotPending(s: Sys, r: S.Response, about: C.Meaning)
    requires Books(s) && FreshQueue(s.queue, s.exec, s.written)
    requires SocketEnabled(s, Respond(r, about)) && WellRead(s, SocketDoes(Respond(r, about)))
    requires S.Answers(s.socket, r).Some?
    ensures S.Answers(s.socket, r).value !in Ids(s.x.wire)
    ensures forall o :: o in ExecOrder(s.exec) ==> o.id != S.Answers(s.socket, r).value
  {
    hide FreshQueue, Registry, Sound, S.Answers, C.Phrases, C.Misread, X.Sane;
    AnswersAreDecided(s.x, s.socket, r, about);
    DecidedIsNotPending(s, S.Answers(s.socket, r).value);
  }

  lemma SocketKeepsCleanup(s: Sys, e: SocketStep)
    requires Core(s) && CleanupPart(s) && SocketEnabled(s, e) && WellRead(s, SocketDoes(e))
    ensures CleanupPart(SocketApply(s, e))
  {
    hide Books, Stale, FreshQueue, Locks, Tokens, S.Answers, S.HandleResponse, C.Phrases, C.TrueOf, WellRead;
    match e {
      case Respond(r, about) =>
        S.OnlyAnswersResolve(s.socket, r);
        if S.Answers(s.socket, r).Some? {
          AnsweredIsNotPending(s, r, about);
        }
      case Announce => S.SamePendingSameUnresolved(s.socket, SocketApply(s, e).socket);
      case _ =>
    }
  }
}
