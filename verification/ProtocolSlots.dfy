// How each step of the system moves the slots, and what follows for whole runs:
// bound ids are never replaced, acceptance happens once, a released order does
// not return, and only a quote adds to what a side reserves.
module ProtocolSlots {
  import opened Orders
  import opened ExecutionState
  import opened ManagerModel
  import opened ManagerInvariants
  import opened HandlerProofs
  import opened EventLoop
  import opened SlotHistory
  import opened Protocol
  import opened ProtocolInvariants

  /** The exchange id a step may bind, and to which client id. */
  function Binds(s: Sys, step: Step): Binding
    requires Enabled(s, step)
  {
    if step == MainDoes(HandleMail) then EventBinds(s.mail[0].event)
    else if step.MainDoes? && step.main.RestObserves? then Some((step.main.order.id, s.x.ids[step.main.order]))
    else None
  }

  lemma {:induction false} DispatchEvolves(m: Manager, ds: seq<Decision>, dropped: set<nat>)
    ensures Evolves(m, Dispatch(m, ds, dropped).0, None, false)
  {
    if ds == [] {
      SameSlotsEvolve(m, m);
    } else {
      hide Evolves, OnDispatchFailed;
      var n := |ds| - 1;
      DispatchEvolves(m, ds[..n], dropped);
      var m1 := Dispatch(m, ds[..n], dropped).0;
      if n in dropped {
        DispatchFailedEvolves(m1, ds[n]);
        EvolvesChains(m, m1, OnDispatchFailed(m1, ds[n]), None, false, false);
      }
    }
  }

  lemma EndQuoteEvolves(s: Sys, q: Quote, limit: real, now: int, dropped: set<nat>)
    requires MainEnabled(s, EndQuote(q, limit, now, dropped)) && Configured(s.acct.m.cfg)
    ensures Evolves(s.acct.m, MainApply(s, EndQuote(q, limit, now, dropped)).acct.m, None, true)
  {
    hide OnQuote, Dispatch, Evolves;
    OnQuoteEvolves(s.acct.m, q, s.main.position, limit, now);
    var (m1, ds) := OnQuote(s.acct.m, q, s.main.position, limit, now);
    DispatchEvolves(m1, ds, dropped);
    EvolvesChains(s.acct.m, m1, Dispatch(m1, ds, dropped).0, None, true, false);
  }

  lemma TimeoutEvolves(s: Sys, now: int, dropped: set<nat>)
    requires MainEnabled(s, TimeoutCheck(now, dropped)) && Configured(s.acct.m.cfg)
    ensures Evolves(s.acct.m, MainApply(s, TimeoutCheck(now, dropped)).acct.m, None, false)
  {
    hide OverdueCancels, Dispatch;
    var (m1, ds) := CheckTimeouts(s.acct.m, now);
    SameSlotsEvolve(s.acct.m, m1);
    hide Evolves, CheckTimeouts;
    DispatchEvolves(m1, ds, dropped);
    EvolvesChains(s.acct.m, m1, Dispatch(m1, ds, dropped).0, None, false, false);
  }

  lemma BeginEvolves(s: Sys)
    ensures Evolves(s.acct.m, Begin(s).acct.m, None, false)
  {
    SameSlotsEvolve(s.acct.m, Begin(s).acct.m);
  }

  lemma ServeEvolves(s: Sys)
    requires Sound(s.acct.m) && s.mail != []
    ensures Evolves(s.acct.m, Serve(s).acct.m, EventBinds(s.mail[0].event), false)
  {
    hide Sound, Handle, Evolves, Begin;
    var Mail(event, about) := s.mail[0];
    var (m1, begin) := Handle(s.acct.m, event, s.feed.version);
    HandleEvolves(s.acct.m, event, s.feed.version);
    if begin {
      var t := WithManager(s, m1).(
        mail := s.mail[1..],
        delivered := if event.OrderFilledEvent? && about.OnFill? then s.delivered + {about.index} else s.delivered);
      BeginEvolves(t);
      EvolvesChains(s.acct.m, m1, Begin(t).acct.m, EventBinds(event), false, false);
    }
  }

  lemma FinishEvolves(a: Account, version: nat)
    ensures Evolves(a.m, FinishAccount(a, version).m, None, false)
  {
  }

  lemma RiskCheckEvolves(s: Sys, sourcesFresh: bool)
    requires Sound(s.acct.m) && MainEnabled(s, RiskCheck(sourcesFresh)) && Configured(s.acct.m.cfg)
    ensures Evolves(s.acct.m, MainApply(s, RiskCheck(sourcesFresh)).acct.m, None, false)
  {
    hide Sound, RiskTick;
    RiskTickKeeps(s.acct.m, sourcesFresh, s.feed.version, s.feed.position);
    SameSlotsEvolve(s.acct.m, RiskTick(s.acct.m, sourcesFresh, s.feed.version, s.feed.position).0);
  }

  lemma FinishStepEvolves(s: Sys)
    requires MainEnabled(s, FinishReconciling) && Configured(s.acct.m.cfg)
    ensures Evolves(s.acct.m, MainApply(s, FinishReconciling).acct.m, None, false)
  {
    hide FinishAccount, Evolves;
    FinishEvolves(s.acct, s.feed.version);
    SameSlotsEvolve(s.acct.m, s.acct.m);
  }

  lemma ObservesEvolves(s: Sys, o: Order)
    requires Books(s) && MainEnabled(s, RestObserves(o)) && Configured(s.acct.m.cfg)
    ensures Evolves(s.acct.m, MainApply(s, RestObserves(o)).acct.m, Some((o.id, s.x.ids[o])), false)
  {
    hide Sound, Registry, OnAccepted, Evolves;
    AcceptedEvolves(s.acct.m, o.id, s.x.ids[o]);
  }

  /** Steps that leave the slots as they are. */
  lemma OtherStepEvolves(s: Sys, e: MainStep)
    requires MainEnabled(s, e) && Configured(s.acct.m.cfg)
    requires e.BeginQuote? || e.RefreshPosition? || e.RestConfirms? || e.PauseFor? || e.Resume? || e.SetPrecision?
      || e.ShutDown?
    ensures Evolves(s.acct.m, MainApply(s, e).acct.m, None, false)
  {
    SameSlotsEvolve(s.acct.m, MainApply(s, e).acct.m);
  }

  lemma MainEvolves(s: Sys, e: MainStep)
    requires Books(s) && Enabled(s, MainDoes(e)) && Configured(s.acct.m.cfg)
    ensures Evolves(s.acct.m, MainApply(s, e).acct.m, Binds(s, MainDoes(e)), e.EndQuote?)
  {
    hide MainApply, Evolves, Registry, Sound;
    match e {
      case EndQuote(q, limit, now, dropped) => EndQuoteEvolves(s, q, limit, now, dropped);
      case TimeoutCheck(now, dropped) => TimeoutEvolves(s, now, dropped);
      case HandleMail =>
        ServeEvolves(s);
        ServeIs(s);
      case BeginReconciliation =>
        BeginEvolves(s);
        BeginIs(s);
      case RestObserves(o) => ObservesEvolves(s, o);
      case RiskCheck(sourcesFresh) => RiskCheckEvolves(s, sourcesFresh);
      case FinishReconciling => FinishStepEvolves(s);
      case _ => OtherStepEvolves(s, e);
    }
  }

  lemma ServeIs(s: Sys)
    requires MainEnabled(s, HandleMail) && Configured(s.acct.m.cfg)
    ensures MainApply(s, HandleMail) == Serve(s)
  {
    hide Serve;
  }

  lemma BeginIs(s: Sys)
    requires MainEnabled(s, BeginReconciliation) && Configured(s.acct.m.cfg)
    ensures MainApply(s, BeginReconciliation) == Begin(s)
  {
    hide Begin;
  }

  /** Every step, of every actor, moves the slots only in these ways; only a
      quote brings new orders. */
  lemma StepEvolves(s: Sys, step: Step)
    requires Books(s) && Enabled(s, step) && Configured(s.acct.m.cfg)
    ensures Evolves(s.acct.m, Apply(s, step).acct.m, Binds(s, step), step.MainDoes? && step.main.EndQuote?)
  {
    hide MainApply, Books;
    if step.MainDoes? {
      MainEvolves(s, step.main);
    } else {
      SameSlotsEvolve(s.acct.m, s.acct.m);
    }
  }

  /** Only quotes reserve: no other step of any actor, not even a misread
      response, increases what a side's slots reserve. */
  lemma OnlyQuotesReserve(s: Sys, step: Step, side: Side, mid: real)
    requires Books(s) && Enabled(s, step) && Configured(s.acct.m.cfg) && mid > 0.0
    requires !(step.MainDoes? && step.main.EndQuote?)
    ensures SideMarks(SlotsOf(Apply(s, step).acct.m, side), mid) <= SideMarks(SlotsOf(s.acct.m, side), mid)
  {
    hide Evolves, Apply, Registry, SideMarks;
    StepEvolves(s, step);
    ReservedNeverGrows(s.acct.m, Apply(s, step).acct.m, Binds(s, step), side, mid);
  }
}
