// Where a response is misread. The conditions of the theorems about runs cannot
// be dropped: from any state of the kinds below the exchange may send a response
// that the order socket takes for the opposite of what was meant.
module ProtocolMisread {
  import opened Orders
  import opened ExecutionState
  import opened ManagerModel
  import opened ManagerInvariants
  import opened HandlerProofs
  import opened EventLoop
  import opened Protocol
  import opened ProtocolInvariants
  import C = Correspondence
  import Main = ProtocolMain
  import Post = ProtocolMail
  import Slots = ProtocolSlots
  import S = OrderSocket
  import Theorems = ProtocolTheorems
  import X = Exchange

  /** What a caller can check of a response: if all are legible, none is misread. */
  lemma LegibleIsWellRead(states: seq<Sys>, steps: seq<Step>, n: nat)
    requires Run(states, steps) && n <= |steps|
    requires forall k :: 0 <= k < n && steps[k].SocketDoes? && steps[k].socket.Respond? ==>
               S.Legible(states[k].socket, steps[k].socket.r)
    ensures WellReadRun(states, steps, n)
  {
    hide Run, S.Legible;
  }

  /** Serving an event leaves every exposed order tracked exactly when the event
      takes out of the slots no order that is open or on the wire. */
  lemma StraysIff(s: Sys)
    requires Core(s) && NoStray(s) && s.mail != []
    ensures (forall o :: o in s.x.wire + s.x.open ==> o in Tracked(Serve(s).acct.m)) <==>
            Gone(s.acct.m, s.mail[0].event) !! s.x.wire + s.x.open
  {
    Post.ServeFacts(s);
    assert s.x.wire + s.x.open <= Tracked(s.acct.m) by {
      hide Core, Tracked, Gone, Serve;
    }
    hide Core, Tracked, Gone, Serve, NoStray;
    var gone := Gone(s.acct.m, s.mail[0].event);
    if o :| o in gone && o in s.x.wire + s.x.open {
      assert o !in Tracked(Serve(s).acct.m);
    }
  }

  lemma InSlotIsReleased(m: Manager, o: Order)
    requires Sound(m) && o in Tracked(m)
    ensures Released(m, ByClient(o.id)) == {o}
  {
    var p := PlaceOf(m, o);
    ClientHitIsTheOnlyOne(m, o.id, p);
  }

  /** Serving the next event leaves an open order that no slot tracks. */
  ghost predicate Loses(t: Sys, o: Order)
    requires Enabled(t, MainDoes(HandleMail)) && Configured(t.acct.m.cfg)
  {
    var u := Apply(t, MainDoes(HandleMail));
    o in u.x.open && o !in Tracked(u.acct.m) && !NoStray(u)
  }

  lemma MailKeepsCore(s: Sys, t: Sys)
    requires Core(s) && t == s.(socket := t.socket, mail := t.mail)
    ensures Core(t)
  {
    hide Stale, FreshQueue;
    Main.BooksSame(s, t);
  }

  predicate NamesAsGone(m: Manager, e: S.Event, id: ClientId) {
    || (e.OrderCanceled? && e.client == Some(id))
    || (e.OrderRejected? && e.id == id && !Retired(m, id))
  }

  lemma TakesOut(m: Manager, e: S.Event, o: Order)
    requires Sound(m) && o in Tracked(m) && NamesAsGone(m, e, o.id)
    ensures o in Gone(m, e)
  {
    InSlotIsReleased(m, o);
    hide Released, Sound, Tracked;
  }

  lemma LosesOrder(s: Sys, t: Sys, o: Order)
    requires Core(s) && s.mail == [] && t == s.(socket := t.socket, mail := t.mail) && t.mail != []
    requires Configured(s.acct.m.cfg) && s.main.AtRest?
    requires o in s.x.open && o in Tracked(s.acct.m)
    requires NamesAsGone(s.acct.m, t.mail[0].event, o.id)
    ensures Enabled(t, MainDoes(HandleMail)) && Loses(t, o)
  {
    hide Core, Gone, Tracked, Sound, MainApply, Serve, Current, InHand, NamesAsGone, Main.Loosens;
    Theorems.SoundIn(s);
    TakesOut(s.acct.m, t.mail[0].event, o);
    MailKeepsCore(s, t);
    Slots.ServeIs(t);
    Post.ServeFacts(t);
  }

  // ------------------------------------------ an acceptance read as a cancel

  /** No method, no request id, code 0, and the order's two ids. */
  function Accepted(s: Sys, o: Order): S.Response
    requires o in s.x.ids
  {
    S.Response(S.Absent, Some(0), None, Some(S.Data(Some(o.id), Some(s.x.ids[o]), None, false)))
  }

  lemma AcceptanceReadAsCancel(s: Sys, o: Order)
    requires X.Sane(s.x) && s.link.Up? && o in s.x.open && o.id in s.socket.cancels
    ensures var e := Respond(Accepted(s, o), C.OnSubmission(o, true));
      && SocketEnabled(s, e) && !WellRead(s, SocketDoes(e))
      && (var t := SocketApply(s, e);
          t == s.(socket := t.socket, mail := s.mail + [Mail(S.OrderCanceled(s.x.ids[o], Some(o.id)), e.about)]))
  {
    assert o in s.x.accepted && s.x.ids[o] != 0;
  }

  /** An order open at the exchange whose acceptance comes after its cancel was
      issued: the event loop frees its slot and nothing tracks it any more. */
  lemma AcceptanceFreesLiveOrder(s: Sys, o: Order)
    requires Core(s) && Configured(s.acct.m.cfg) && s.main.AtRest? && s.link.Up? && s.mail == []
    requires o in s.x.open && o in Tracked(s.acct.m) && o.id in s.socket.cancels
    ensures o in s.x.ids && var e := Respond(Accepted(s, o), C.OnSubmission(o, true));
      && SocketEnabled(s, e) && !WellRead(s, SocketDoes(e))
      && (var t := SocketApply(s, e); Enabled(t, MainDoes(HandleMail)) && Loses(t, o))
  {
    hide Core, X.Sane, SocketApply, SocketEnabled, WellRead, Loses, Tracked;
    Post.SaneIn(s);
    AcceptanceReadAsCancel(s, o);
    LosesOrder(s, SocketApply(s, Respond(Accepted(s, o), C.OnSubmission(o, true))), o);
  }

  // ----------------------------------------- a failed cancel read as a rejection

  /** No method, no request id, a nonzero code and the client id alone. */
  function CancelRefused(o: Order): S.Response {
    S.Response(S.Absent, Some(1), None, Some(S.Data(Some(o.id), None, None, false)))
  }

  lemma FailedCancelReadAsRejection(s: Sys, o: Order)
    requires s.link.Up? && o.id !in s.socket.cancels
    ensures var e := Respond(CancelRefused(o), C.OnCancel(o, false));
      && SocketEnabled(s, e) && !WellRead(s, SocketDoes(e))
      && (var t := SocketApply(s, e);
          t == s.(socket := t.socket, mail := s.mail + [Mail(S.OrderRejected(o.id), e.about)]))
  {
  }

  /** An open order whose failed cancel is no longer awaited. */
  lemma FailedCancelFreesLiveOrder(s: Sys, o: Order)
    requires Core(s) && Configured(s.acct.m.cfg) && s.main.AtRest? && s.link.Up? && s.mail == []
    requires o in s.x.open && o in Tracked(s.acct.m) && o.id !in s.socket.cancels && !Retired(s.acct.m, o.id)
    ensures var e := Respond(CancelRefused(o), C.OnCancel(o, false));
      && SocketEnabled(s, e) && !WellRead(s, SocketDoes(e))
      && (var t := SocketApply(s, e); Enabled(t, MainDoes(HandleMail)) && Loses(t, o))
  {
    hide Core, SocketApply, SocketEnabled, WellRead, Loses, Tracked;
    FailedCancelReadAsRejection(s, o);
    LosesOrder(s, SocketApply(s, Respond(CancelRefused(o), C.OnCancel(o, false))), o);
  }

  /** And one still on the wire: the submission is forgotten, so the worker would
      take it for settled. */
  lemma FailedCancelForgetsSubmission(s: Sys, o: Order)
    requires s.link.Up? && o in s.x.wire && o.id !in s.socket.cancels
    ensures var step := SocketDoes(Respond(CancelRefused(o), C.OnCancel(o, false)));
      && Enabled(s, step) && !WellRead(s, step)
      && (var t := SocketApply(s, step.socket); o in t.x.wire && o.id !in S.Unresolved(t.socket) && !PendingCovers(t))
  {
    S.DropConfirmedLeaves(s.socket, {o.id});
    var t := SocketApply(s, Respond(CancelRefused(o), C.OnCancel(o, false)));
    S.RoutingKeepsPending(S.DropConfirmed(s.socket, {o.id}), CancelRefused(o));
    S.SamePendingSameUnresolved(S.DropConfirmed(s.socket, {o.id}), t.socket);
    assert o.id in Ids(t.x.wire);
  }
}
