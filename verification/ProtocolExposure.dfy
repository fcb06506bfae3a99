// The exposure bound: at every send, and from there until the next quote.
module ProtocolExposure {
  import opened Orders
  import opened ExecutionState
  import opened ManagerModel
  import opened ManagerInvariants
  import opened Reservation
  import opened HandlerProofs
  import opened Protocol
  import opened ProtocolInvariants
  import opened ProtocolTheorems
  import E = EventLoop
  import Handlers = HandlerLaws
  import Laws = QuoteLaws
  import Environment = ProtocolEnvironment
  import Main = ProtocolMain
  import Post = ProtocolMail
  import Quoting = ProtocolQuoting
  import S = OrderSocket
  import Slots = ProtocolSlots
  import SlotHistory
  import X = Exchange

  // ------------------------------------------------------------ at a send

  predicate SentSomething(s: Sys, e: MainStep, side: Side)
    requires e.EndQuote? && MainEnabled(s, e) && Configured(s.acct.m.cfg)
  {
    SentOn(OnQuote(s.acct.m, e.q, s.main.position, e.limit, e.now).1, side)
  }

  lemma InOwnSlots(m: Manager, o: Order)
    requires SlotsSound(m) && o in Tracked(m)
    ensures X.Holds(SlotsOf(m, o.side)[0], o) || X.Holds(SlotsOf(m, o.side)[1], o)
  {
  }

  lemma NeverOverfilled(x: X.Exchange, o: Order)
    requires X.Sane(x) && o.qty > 0.0
    ensures X.Filled(x.log, o) <= o.qty
  {
    if o !in x.accepted {
      X.FilledNever(x.log, o);
    }
  }

  /** The slots after a quote, over the position it read, cover the truth. */
  lemma SlotsCoverTruth(s: Sys, t: Sys, side: Side, mid: real)
    requires QuotingKnows(s) && s.main.Quoting?
    requires Books(t) && NoStray(t) && t.x == s.x && Tracked(s.acct.m) <= Tracked(t.acct.m) && mid > 0.0
    ensures X.TrueExposure(t.x, Outstanding(t), side, mid)
      <= Sign(side) * s.main.position * mid + SideMarks(SlotsOf(t.acct.m, side), mid)
  {
    hide Outstanding, Tracked, SideMarks, X.TrueExposure, Registry;
    var slots := SlotsOf(t.acct.m, side);
    forall i | s.main.seen <= i < |t.x.log| && t.x.log[i].order.side == side
      ensures X.Holds(slots[0], t.x.log[i].order) || X.Holds(slots[1], t.x.log[i].order)
    {
      InOwnSlots(t.acct.m, t.x.log[i].order);
    }
    forall o | o in Outstanding(t) && o.side == side
      ensures X.Holds(slots[0], o) || X.Holds(slots[1], o)
    {
      InOwnSlots(t.acct.m, o);
    }
    forall k | 0 <= k < 2 && slots[k].Some?
      ensures slots[k].value.ord.side == side && X.Filled(t.x.log, slots[k].value.ord) <= slots[k].value.ord.qty
    {
      NeverOverfilled(t.x, slots[k].value.ord);
    }
    X.EstimateCoversTruth(t.x, Outstanding(t), s.main.seen, side, mid, slots);
  }

  /** What a quote that sent on a side reserves there, over the position it read. */
  ghost predicate WithinLimits(m: Manager, side: Side, position: real, limit: real, mid: real, marks: real) {
    && Sign(side) * position * mid + marks <= limit
    && (m.cfg.absoluteCap.Some? ==> Sign(side) * (position - Baseline(m)) * mid + marks <= m.cfg.absoluteCap.value)
  }

  lemma WithinLimitsLess(m: Manager, m1: Manager, side: Side, position: real, limit: real, mid: real, marks: real,
                         fewer: real)
    requires WithinLimits(m, side, position, limit, mid, marks) && fewer <= marks
    requires m1.cfg == m.cfg && m1.baseline == m.baseline
    ensures WithinLimits(m1, side, position, limit, mid, fewer)
  {
    assert Baseline(m1) == Baseline(m);
  }

  lemma QuoteWithinLimits(m: Manager, e: MainStep, position: real, side: Side)
    requires Sound(m) && Configured(m.cfg) && e.EndQuote? && QuoteShape(e.q)
    requires SentOn(OnQuote(m, e.q, position, e.limit, e.now).1, side)
    ensures e.q.mid > 0.0
    ensures var m1 := OnQuote(m, e.q, position, e.limit, e.now).0;
      WithinLimits(m, side, position, e.limit, e.q.mid, SideMarks(SlotsOf(m1, side), e.q.mid))
  {
    hide OnQuote, Sound, Quoted, SideMarks, Baseline;
    QuoteReserves(m, e.q, position, e.limit, e.now);
  }

  /** Dispatch only takes slots away, so the side stays within its limits. */
  lemma DispatchWithinLimits(s: Sys, e: MainStep, side: Side)
    requires Core(s) && e.EndQuote? && MainEnabled(s, e) && Configured(s.acct.m.cfg) && SentSomething(s, e, side)
    ensures var t := MainApply(s, e);
      && t.x == s.x && e.q.mid > 0.0
      && WithinLimits(t.acct.m, side, s.main.position, e.limit, e.q.mid, SideMarks(SlotsOf(t.acct.m, side), e.q.mid))
  {
    SoundIn(s);
    hide Core, Sound, SideMarks, OnQuote, Dispatch, WithinLimits, SlotHistory.Evolves, Reserves;
    var m, q := s.acct.m, e.q;
    var (m1, ds) := OnQuote(m, q, s.main.position, e.limit, e.now);
    var (m2, msgs) := Dispatch(m1, ds, e.dropped);
    QuoteWithinLimits(m, e, s.main.position, side);
    QuoteReserves(m, q, s.main.position, e.limit, e.now);
    DispatchTakesAway(m, m1, ds, e.dropped, side, q.mid);
    WithinLimitsLess(m, m2, side, s.main.position, e.limit, q.mid,
                     SideMarks(SlotsOf(m1, side), q.mid), SideMarks(SlotsOf(m2, side), q.mid));
  }

  lemma DispatchTakesAway(m: Manager, m1: Manager, ds: seq<Decision>, dropped: set<nat>, side: Side, mid: real)
    requires Sound(m) && Quoted(m, m1, ds) && mid > 0.0
    ensures var m2 := Dispatch(m1, ds, dropped).0;
      && m2.cfg == m.cfg && m2.baseline == m.baseline
      && SideMarks(SlotsOf(m2, side), mid) <= SideMarks(SlotsOf(m1, side), mid)
  {
    Quoting.QuoteEmits(m, m1, ds, dropped);
    Slots.DispatchEvolves(m1, ds, dropped);
    hide Tracked, SlotsSound, PendingCount, SideMarks, Dispatch, SlotHistory.Evolves, Quoting.Emits, Numbered;
    SlotHistory.ReservedNeverGrows(m1, Dispatch(m1, ds, dropped).0, None, side, mid);
  }

  lemma LimitsHold(m: Manager, side: Side, position: real, limit: real, mid: real, marks: real, truth: real)
    requires WithinLimits(m, side, position, limit, mid, marks) && truth <= Sign(side) * position * mid + marks
    ensures truth <= limit
    ensures m.cfg.absoluteCap.Some? ==> truth - Sign(side) * Baseline(m) * mid <= m.cfg.absoluteCap.value
  {
    hide Baseline;
    var b := Baseline(m);
    assert Sign(side) * (position - b) * mid == Sign(side) * position * mid - Sign(side) * b * mid;
  }

  lemma SendWithinLimits(s: Sys, e: MainStep, side: Side)
    requires Inv(s) && e.EndQuote? && MainEnabled(s, e) && Configured(s.acct.m.cfg)
    requires SentSomething(s, e, side)
    ensures var t := MainApply(s, e); var m := t.acct.m;
      var truth := X.TrueExposure(t.x, Outstanding(t), side, e.q.mid);
      && e.q.mid > 0.0
      && truth <= e.limit
      && (m.cfg.absoluteCap.Some? ==> truth - Sign(side) * Baseline(m) * e.q.mid <= m.cfg.absoluteCap.value)
  {
    hide Inv, Core, NoStray, Books, MainApply, MainEnabled, SentSomething, X.TrueExposure, Outstanding, SideMarks,
      WithinLimits, Baseline;
    InvParts(s);
    var t := MainApply(s, e);
    DispatchWithinLimits(s, e, side);
    assert Books(t) && NoStray(t) by {
      MainKeepsBase(s, e);
      BaseParts(t);
    }
    QuoteTracks(s, e);
    assert QuotingKnows(s) && s.main.Quoting? by {
      QuotingIn(s, e);
    }
    hide QuotingKnows;
    SlotsCoverTruth(s, t, side, e.q.mid);
    LimitsHold(t.acct.m, side, s.main.position, e.limit, e.q.mid, SideMarks(SlotsOf(t.acct.m, side), e.q.mid),
               X.TrueExposure(t.x, Outstanding(t), side, e.q.mid));
  }

  lemma BaseParts(s: Sys)
    requires Base(s)
    ensures Books(s) && NoStray(s)
  {
  }

  lemma QuotingIn(s: Sys, e: MainStep)
    requires PositionPart(s) && e.EndQuote? && MainEnabled(s, e)
    ensures QuotingKnows(s) && s.main.Quoting?
  {
  }

  lemma QuoteTracks(s: Sys, e: MainStep)
    requires Core(s) && e.EndQuote? && MainEnabled(s, e) && Configured(s.acct.m.cfg)
    ensures Tracked(s.acct.m) <= Tracked(MainApply(s, e).acct.m)
  {
    hide Core, Tracked, OnQuote, Dispatch, Sound, Numbered;
    Quoting.EndQuoteEmits(s, e.q, e.limit, e.now, e.dropped);
  }

  // ------------------------------------------------------ the start position

  /** A risk check that finds fresh sources and an open gate. */
  predicate Resumes(s: Sys, step: Step) {
    step == MainDoes(RiskCheck(true)) && (s.acct.m.gate.None? || s.feed.version >= s.acct.m.gate.value)
  }

  /** The position published at the first such check among the first `j` steps. */
  function StartPosition(states: seq<Sys>, steps: seq<Step>, j: nat): Option<real>
    requires j <= |steps| < |states|
  {
    if j == 0 then None
    else
      var earlier := StartPosition(states, steps, j - 1);
      if earlier.Some? then earlier
      else if Resumes(states[j - 1], steps[j - 1]) then Some(states[j - 1].feed.position)
      else None
  }

  lemma {:induction false} StartIsFirst(states: seq<Sys>, steps: seq<Step>, j: nat, b: real)
    requires j <= |steps| < |states|
    ensures StartPosition(states, steps, j) == Some(b) <==>
      exists k: nat :: k < j && Resumes(states[k], steps[k]) && states[k].feed.position == b
        && forall i: nat :: i < k ==> !Resumes(states[i], steps[i])
    ensures StartPosition(states, steps, j) == None <==> forall i: nat :: i < j ==> !Resumes(states[i], steps[i])
  {
    hide Resumes;
    if j > 0 {
      StartIsFirst(states, steps, j - 1, b);
      if StartPosition(states, steps, j - 1).None? && Resumes(states[j - 1], steps[j - 1]) {
        assert forall i: nat :: i < j - 1 ==> !Resumes(states[i], steps[i]);
      }
    }
  }

  lemma EmissionKeepsBaseline(s: Sys, e: MainStep)
    requires Core(s) && (e.EndQuote? || e.TimeoutCheck?) && MainEnabled(s, e) && Configured(s.acct.m.cfg)
    ensures MainApply(s, e).acct.m.baseline == s.acct.m.baseline
  {
    hide Core, Sound, Tracked, Dispatch, OnQuote, CheckTimeouts, Numbered;
    SoundIn(s);
    match e {
      case EndQuote(q, limit, now, dropped) => Quoting.EndQuoteEmits(s, q, limit, now, dropped);
      case TimeoutCheck(now, dropped) =>
        TimeoutsKeep(s.acct.m, now);
        var (m1, ds) := CheckTimeouts(s.acct.m, now);
        NoSends(ds, m1);
        Quoting.DispatchKeeps(m1, ds, dropped, m1.nextNumber, m1.exec.generation);
    }
  }

  lemma NoSends(ds: seq<Decision>, m: Manager)
    requires Sends(ds) == []
    ensures Numbered(Sends(ds), m.nextNumber, m.exec.generation) && SetOf(Sends(ds)) <= Tracked(m)
  {
  }

  lemma MainBaseline(s: Sys, e: MainStep)
    requires Core(s) && MainEnabled(s, e) && Configured(s.acct.m.cfg)
    ensures MainApply(s, e).acct.m.baseline ==
      if s.acct.m.baseline.None? && Resumes(s, MainDoes(e)) then Some(s.feed.position) else s.acct.m.baseline
  {
    hide Core, Sound, Tracked, E.Handle, OnAccepted, RiskTick, BeginAccount, FinishAccount;
    SoundIn(s);
    var m := s.acct.m;
    match e {
      case EndQuote(_, _, _, _) => EmissionKeepsBaseline(s, e);
      case TimeoutCheck(_, _) => EmissionKeepsBaseline(s, e);
      case RiskCheck(sourcesFresh) => Handlers.RiskTickLaw(m, sourcesFresh, s.feed.version, s.feed.position);
      case RestObserves(o) => AcceptedKeeps(m, o.id, s.x.ids[o]);
      case BeginReconciliation => BeginKeeps(s.acct, s.feed.version);
      case FinishReconciling => Handlers.FinishLaw(s.acct, s.feed.version);
      case HandleMail =>
        E.HandleKeeps(m, s.mail[0].event, s.feed.version);
        BeginKeeps(s.acct.(m := E.Handle(m, s.mail[0].event, s.feed.version).0), s.feed.version);
      case _ =>
    }
  }

  lemma StepBaseline(s: Sys, step: Step)
    requires Core(s) && Enabled(s, step) && Configured(s.acct.m.cfg)
    ensures Apply(s, step).acct.m.baseline ==
      if s.acct.m.baseline.None? && Resumes(s, step) then Some(s.feed.position) else s.acct.m.baseline
  {
    hide Core, MainApply;
    if step.MainDoes? {
      MainBaseline(s, step.main);
    }
  }

  lemma InitiallyNoBaseline(s: Sys)
    requires Initial(s)
    ensures s.acct.m.baseline == None
  {
  }

  /** The baseline is the start position: the position published at the first risk
      check of the run that resumed trading, and nothing after it. */
  lemma {:induction false} BaselineIsStart(states: seq<Sys>, steps: seq<Step>, j: nat)
    requires Run(states, steps) && j < |states|
    ensures states[j].acct.m.baseline == StartPosition(states, steps, j)
  {
    hide Core, Initial, Enabled, Apply, Resumes;
    if j == 0 {
      InitiallyNoBaseline(states[0]);
    } else {
      BaselineIsStart(states, steps, j - 1);
      CoreAlways(states, steps, j - 1);
      StepBaseline(states[j - 1], steps[j - 1]);
    }
  }

  lemma {:induction false} StartStays(states: seq<Sys>, steps: seq<Step>, n: nat, j: nat)
    requires n <= j <= |steps| < |states| && StartPosition(states, steps, n).Some?
    ensures StartPosition(states, steps, j) == StartPosition(states, steps, n)
    decreases j
  {
    if n < j {
      StartStays(states, steps, n, j - 1);
    }
  }

  /** Once set it never changes. */
  lemma {:induction false} BaselineIsFixed(states: seq<Sys>, steps: seq<Step>, n: nat, j: nat)
    requires Run(states, steps) && n <= j < |states| && states[n].acct.m.baseline.Some?
    ensures states[j].acct.m.baseline == states[n].acct.m.baseline
  {
    hide Initial, Enabled, Apply;
    BaselineIsStart(states, steps, n);
    BaselineIsStart(states, steps, j);
    StartStays(states, steps, n, j);
  }

  /** What growth is measured from under the optional cap. */
  function CapBase(c: Config, start: Option<real>): real {
    if c.capFromStart && start.Some? then start.value else 0.0
  }

  // ------------------------------------------------------------ the bound

  /** The bounds on one side's true exposure, growth measured from `base`. */
  ghost predicate Bounded(s: Sys, side: Side, mid: real, limit: real, base: real) {
    var truth := X.TrueExposure(s.x, Outstanding(s), side, mid);
    && truth <= limit
    && (s.acct.m.cfg.absoluteCap.Some? ==> truth - Sign(side) * base * mid <= s.acct.m.cfg.absoluteCap.value)
  }

  lemma SendHasBase(s: Sys, e: MainStep, side: Side)
    requires e.EndQuote? && MainEnabled(s, e) && Configured(s.acct.m.cfg) && SentSomething(s, e, side)
    ensures s.acct.m.cfg.capFromStart ==> s.acct.m.baseline.Some?
  {
    hide QuoteSide, CancelSide;
    if s.acct.m.cfg.capFromStart && s.acct.m.baseline.None? && Laws.MayQuote(s.acct.m, e.q) && e.limit <= 0.0 {
      QuoteSendsNothing(s.acct.m, e.now);
    }
  }

  lemma QuoteSendsNothing(m: Manager, now: int)
    ensures Sends(CancelExposure(m.(exec := m.exec.SetPause(RiskData)), now).1) == []
  {
    var p := m.(exec := m.exec.SetPause(RiskData));
    CancelsOnly(p, Buy, now, MAX_ORDER_LEVELS);
    var (m1, d1) := CancelSide(p, Buy, now, MAX_ORDER_LEVELS);
    CancelsOnly(m1, Sell, now, MAX_ORDER_LEVELS);
    SendsConcat(d1, CancelSide(m1, Sell, now, MAX_ORDER_LEVELS).1);
  }

  lemma {:induction false} CancelsOnly(m: Manager, side: Side, now: int, count: nat)
    requires count <= MAX_ORDER_LEVELS
    ensures Sends(CancelSide(m, side, now, count).1) == []
  {
    if count > 0 {
      CancelsOnly(m, side, now, count - 1);
      var (m1, d1) := CancelSide(m, side, now, count - 1);
      var slot := SlotsOf(m1, side)[count - 1];
      if slot.Some? && slot.value.state != Canceling {
        SendsConcat(d1, [Cancel(slot.value.ord.id)]);
        SendsOfOne(Cancel(slot.value.ord.id));
      }
    }
  }

  /** True exposure is bounded at every send: as long as no response was misread,
      in every interleaving of fills, late fill events, polls, lost connections and
      reconciliations, when a quote emits a new order on a side, the exchange's own
      position times mid plus everything open, on the wire or permitted on that
      side, at max(price, mid), is within the account limit, and relative to the
      position trading started from, if so configured, within the cap. */
  lemma {:induction false} ExposureBoundedAtSend(states: seq<Sys>, steps: seq<Step>, n: nat, side: Side)
    requires WellReadRun(states, steps, n) && n < |steps|
    requires steps[n].MainDoes? && steps[n].main.EndQuote?
    requires SentSomething(states[n], steps[n].main, side)
    ensures var e := steps[n].main; var start := StartPosition(states, steps, n);
      && (states[n].acct.m.cfg.capFromStart ==> start.Some?)
      && Bounded(states[n + 1], side, e.q.mid, e.limit, CapBase(states[n].acct.m.cfg, start))
  {
    hide Inv, MainApply, MainEnabled, X.TrueExposure, Outstanding, SentSomething, WellRead, Initial, Core;
    AlwaysInv(states, steps, n);
    assert Enabled(states[n], steps[n]);
    SendWithinLimits(states[n], steps[n].main, side);
    BaselineIsStart(states, steps, n);
    SendHasBase(states[n], steps[n].main, side);
    QuoteKeepsSettings(states[n], steps[n].main);
  }

  lemma QuoteKeepsSettings(s: Sys, e: MainStep)
    requires Inv(s) && e.EndQuote? && MainEnabled(s, e) && Configured(s.acct.m.cfg)
    ensures MainApply(s, e).acct.m.cfg == s.acct.m.cfg && MainApply(s, e).acct.m.baseline == s.acct.m.baseline
  {
    hide Base, MailPart, Core, Tracked, OnQuote, Dispatch, Sound, Numbered;
    InvParts(s);
    Quoting.EndQuoteEmits(s, e.q, e.limit, e.now, e.dropped);
  }

  /** Only a quote that may be acted upon sends: no order is issued by anything but
      a quote valid for trading, of positive mid and quantity, while nothing is
      paused or stopped. */
  lemma {:induction false} OnlyValidQuotesSend(states: seq<Sys>, steps: seq<Step>, n: nat)
    requires Run(states, steps) && n < |steps| && states[n + 1].issued != states[n].issued
    ensures steps[n].MainDoes? && steps[n].main.EndQuote?
    ensures Laws.MayQuote(states[n].acct.m, steps[n].main.q)
  {
    hide Core, Initial, OnQuote;
    CoreAlways(states, steps, n);
    if !(steps[n].MainDoes? && steps[n].main.EndQuote?) {
      OthersIssueNothing(states[n], steps[n]);
    }
    var e := steps[n].main;
    if !Laws.MayQuote(states[n].acct.m, e.q) {
      Laws.QuietQuote(states[n].acct.m, e.q, states[n].main.position, e.limit, e.now);
    }
  }

  lemma OthersIssueNothing(s: Sys, step: Step)
    requires Core(s) && Enabled(s, step) && Configured(s.acct.m.cfg) && !(step.MainDoes? && step.main.EndQuote?)
    ensures Apply(s, step).issued == s.issued
  {
    hide Core, Dispatch, CheckTimeouts, E.Handle, BeginAccount, S.HandleResponse, X.Apply;
  }

  // ----------------------------------------------------- until the next quote

  lemma LoosenShrinks(s: Sys, t: Sys)
    requires Stale(s.issued, s.queue, s.exec, s.acct.m.exec) && Main.Loosens(s.acct.m.exec, t.acct.m.exec)
    requires t.x == s.x && t.exec == s.exec && t.queue == s.queue
    ensures Outstanding(t) <= Outstanding(s)
  {
    Main.LoosenKeepsTags(s.issued, s.queue, s.exec, s.acct.m.exec, t.acct.m.exec);
    hide Current, InHand;
  }

  lemma CancelsAreNotCurrent(queue: seq<Msg>, msgs: seq<Msg>, generation: nat)
    requires forall k :: 0 <= k < |msgs| ==> !msgs[k].decision.Send?
    ensures Current(queue + msgs, generation) <= Current(queue, generation)
  {
  }

  lemma TimeoutShrinks(s: Sys, now: int, dropped: set<nat>)
    requires Core(s) && MainEnabled(s, TimeoutCheck(now, dropped)) && Configured(s.acct.m.cfg)
    ensures Outstanding(MainApply(s, TimeoutCheck(now, dropped))) <= Outstanding(s)
  {
    Quoting.TimeoutCheckEmits(s, now, dropped);
    var (m1, ds) := CheckTimeouts(s.acct.m, now);
    var (m2, msgs) := Dispatch(m1, ds, dropped);
    assert SetOf([]) == {};
    Quoting.MsgsNeedSends(msgs, []);
    CancelsAreNotCurrent(s.queue, msgs, m2.exec.generation);
    assert Main.Loosens(s.acct.m.exec, m2.exec);
    hide Sound, Tracked, Dispatch, CheckTimeouts, MainApply, Books, FreshQueue, Locks, Tokens;
    Main.LoosenKeepsTags(s.issued, s.queue, s.exec, s.acct.m.exec, m2.exec);
    hide Current, InHand, Stale;
  }

  lemma StaleIn(s: Sys)
    requires Core(s)
    ensures Stale(s.issued, s.queue, s.exec, s.acct.m.exec)
  {
  }

  lemma MainShrinks(s: Sys, e: MainStep)
    requires Core(s) && MainEnabled(s, e) && Configured(s.acct.m.cfg) && !e.EndQuote?
    ensures Outstanding(MainApply(s, e)) <= Outstanding(s)
  {
    hide Core, MainApply, Stale, Main.Loosens, Outstanding;
    var t := MainApply(s, e);
    if e.TimeoutCheck? {
      TimeoutShrinks(s, e.now, e.dropped);
    } else {
      Post.MainLoosens(s, e);
      Post.QueueStays(s, e);
      StaleIn(s);
      LoosenShrinks(s, t);
    }
  }

  lemma ExecShrinks(s: Sys, e: ExecStep)
    requires ExecEnabled(s, e)
    ensures Outstanding(ExecApply(s, e)) <= Outstanding(s)
  {
    hide Current, S.AddRequest;
    if e.Pop? {
      CurrentPop(s.queue, s.acct.m.exec.generation);
    }
  }

  /** Only a quote adds to what is open, on the wire or still permitted. */
  lemma OutstandingShrinks(s: Sys, step: Step)
    requires Core(s) && Enabled(s, step) && Configured(s.acct.m.cfg) && !(step.MainDoes? && step.main.EndQuote?)
    ensures Outstanding(Apply(s, step)) <= Outstanding(s)
  {
    match step {
      case MainDoes(e) => hide Core, MainApply, Outstanding; MainShrinks(s, e);
      case ExecDoes(e) => hide Core, ExecApply, Outstanding; ExecShrinks(s, e);
      case WorkerDoes(e) => hide Core, Current, InHand;
      case SocketDoes(e) =>
        hide Core, Outstanding, S.HandleResponse;
        Environment.AsideKeepsCore(s, SocketApply(s, e));
      case PollDoes(e) =>
        hide Core, Outstanding;
        Environment.AsideKeepsCore(s, PollApply(s, e));
      case ExchangeDoes(e) => hide Core, X.Apply, Outstanding; Environment.ExchangeKeepsCore(s, e);
    }
  }

  lemma OutstandingSized(s: Sys)
    requires Core(s)
    ensures forall o :: o in Outstanding(s) ==> o.qty > 0.0
  {
    hide Tracked, Sound, Stale, FreshQueue, Locks, Tokens;
    forall o | o in Outstanding(s)
      ensures o.qty > 0.0
    {
      assert Registered(s.issued, o) by {
        if o in Current(s.queue, s.acct.m.exec.generation) {
        } else if o in InHand(s.exec, s.acct.m.exec.generation) {
          assert o in KnownOrders(s);
        } else {
          assert o in KnownOrders(s);
        }
      }
    }
  }

  lemma AllWithinQuantity(s: Sys, x: X.Exchange)
    requires Core(s) && X.Sane(x)
    ensures X.WithinQuantity(Outstanding(s), x.log)
  {
    OutstandingSized(s);
    hide Core, Outstanding, X.Sane;
    forall o | o in Outstanding(s)
      ensures X.Filled(x.log, o) <= o.qty
    {
      NeverOverfilled(x, o);
    }
  }

  /** Only trading writes the exchange's log. */
  lemma OnlyTradesLog(s: Sys, step: Step)
    requires Enabled(s, step) && Configured(s.acct.m.cfg)
    ensures var x := Apply(s, step).x;
      && x.base == s.x.base
      && (if step.ExchangeDoes? && step.exchange.Trade? then
            && step.exchange.order in s.x.open && step.exchange.qty > 0.0
            && x.log == s.x.log + [X.Fill(step.exchange.order, step.exchange.qty)]
          else x.log == s.x.log)
  {
    hide OnQuote, Dispatch, CheckTimeouts, E.Handle, BeginAccount, FinishAccount, RiskTick, RequireRefresh,
      S.HandleResponse, S.DropConfirmed, S.AddRequest, X.Position;
  }

  lemma FillsMove(s: Sys, t: Sys, step: Step, side: Side, mid: real)
    requires Enabled(s, step) && Configured(s.acct.m.cfg) && t == Apply(s, step) && mid > 0.0
    ensures t.x.base == s.x.base
    ensures X.TrueExposure(t.x, Outstanding(s), side, mid) <= X.TrueExposure(s.x, Outstanding(s), side, mid)
  {
    hide Enabled, Apply, Current, InHand, Configured, X.LiveMarks, X.Position;
    OnlyTradesLog(s, step);
    if step.ExchangeDoes? && step.exchange.Trade? {
      assert step.exchange.order in Outstanding(s);
      X.TradeNeverAdds(s.x, Outstanding(s), step.exchange.order, step.exchange.qty, side, mid);
    }
  }

  /** No step of any actor but a quote increases a side's true exposure. */
  lemma ExposureFalls(s: Sys, step: Step, side: Side, mid: real)
    requires Core(s) && Enabled(s, step) && Configured(s.acct.m.cfg) && mid > 0.0
    requires !(step.MainDoes? && step.main.EndQuote?)
    ensures X.TrueExposure(Apply(s, step).x, Outstanding(Apply(s, step)), side, mid)
      <= X.TrueExposure(s.x, Outstanding(s), side, mid)
  {
    hide Core, Outstanding, Enabled, Apply, X.Sane, X.LiveMarks, X.Position, X.WithinQuantity;
    var t := Apply(s, step);
    OutstandingShrinks(s, step);
    StepKeepsCore(s, step);
    Post.SaneIn(t);
    AllWithinQuantity(s, t.x);
    X.LiveMarksShrink(Outstanding(t), Outstanding(s), t.x.log, side, mid);
    FillsMove(s, t, step, side, mid);
  }

  lemma {:induction false} ExposureFallsBetweenQuotes(
    states: seq<Sys>, steps: seq<Step>, n: nat, j: nat, side: Side, mid: real)
    requires Run(states, steps) && n <= j < |states| && mid > 0.0
    requires forall k :: n <= k < j ==> !(steps[k].MainDoes? && steps[k].main.EndQuote?)
    ensures X.TrueExposure(states[j].x, Outstanding(states[j]), side, mid)
      <= X.TrueExposure(states[n].x, Outstanding(states[n]), side, mid)
    decreases j
  {
    hide Core, X.TrueExposure, Outstanding, Enabled, Apply, Initial;
    if n < j {
      ExposureFallsBetweenQuotes(states, steps, n, j - 1, side, mid);
      CoreAlways(states, steps, j - 1);
      ExposureFalls(states[j - 1], steps[j - 1], side, mid);
    }
  }

  /** And it stays bounded until the next quote: whatever fills, cancels, writes,
      losses and responses, read rightly or not, come after the send, the exposure
      at that quote's mid is still within its limit. */
  lemma {:induction false} ExposureStaysBounded(states: seq<Sys>, steps: seq<Step>, n: nat, j: nat, side: Side)
    requires WellReadRun(states, steps, n) && n < j < |states|
    requires steps[n].MainDoes? && steps[n].main.EndQuote?
    requires SentSomething(states[n], steps[n].main, side)
    requires forall k :: n < k < j ==> !(steps[k].MainDoes? && steps[k].main.EndQuote?)
    ensures var e := steps[n].main; var c := states[n].acct.m.cfg;
      var truth := X.TrueExposure(states[j].x, Outstanding(states[j]), side, e.q.mid);
      && truth <= e.limit
      && (c.absoluteCap.Some? ==>
            truth - Sign(side) * CapBase(c, StartPosition(states, steps, n)) * e.q.mid <= c.absoluteCap.value)
  {
    hide Initial, Enabled, Apply, WellRead, X.TrueExposure, Outstanding, SentSomething;
    ExposureBoundedAtSend(states, steps, n, side);
    QuoteHasMid(states, steps, n, side);
    ExposureFallsBetweenQuotes(states, steps, n + 1, j, side, steps[n].main.q.mid);
  }

  lemma {:induction false} QuoteHasMid(states: seq<Sys>, steps: seq<Step>, n: nat, side: Side)
    requires Run(states, steps) && n < |steps| && steps[n].MainDoes? && steps[n].main.EndQuote?
    requires SentSomething(states[n], steps[n].main, side)
    ensures steps[n].main.q.mid > 0.0 && states[n + 1].acct.m.cfg == states[n].acct.m.cfg
  {
    hide Core, Sound, Initial, OnQuote, Dispatch, Tracked, Numbered;
    assert Enabled(states[n], steps[n]);
    CoreAlways(states, steps, n);
    SoundIn(states[n]);
    var e := steps[n].main;
    QuoteWithinLimits(states[n].acct.m, e, states[n].main.position, side);
    Quoting.EndQuoteEmits(states[n], e.q, e.limit, e.now, e.dropped);
  }
}
