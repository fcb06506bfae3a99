// What holds of the whole system in every run.
module ProtocolTheorems {
  import opened Orders
  import opened ExecutionState
  import opened ManagerModel
  import opened ManagerInvariants
  import opened Reservation
  import opened HandlerProofs
  import opened Protocol
  import opened ProtocolInvariants
  import E = EventLoop
  import Environment = ProtocolEnvironment
  import Workers = ProtocolWorkers
  import Main = ProtocolMain
  import Quoting = ProtocolQuoting
  import Slots = ProtocolSlots
  import Post = ProtocolMail
  import S = OrderSocket
  import X = Exchange

  // ----------------------------------------------------------- the invariant

  lemma InitiallyCore(s: Sys)
    requires Initial(s)
    ensures Core(s) && NoStray(s)
  {
    assert Tracked(s.acct.m) == {};
  }

  lemma InitiallyInv(s: Sys)
    requires Initial(s)
    ensures Inv(s)
  {
    InitiallyCore(s);
    hide Core, NoStray;
    assert s.x.log == [];
  }

  // Numbers, tags, locks and tokens survive every step, however responses are read.

  lemma TightKeepsCore(s: Sys, m1: Manager)
    requires Core(s) && Main.Follows(s.acct.m, m1)
    ensures Core(WithManager(s, m1))
  {
    Main.HandlerKeepsCore(s, m1, s.delivered, s.mail);
  }

  lemma PauseStepsKeepCore(s: Sys, e: MainStep)
    requires Core(s) && MainEnabled(s, e) && Configured(s.acct.m.cfg)
    requires e.PauseFor? || e.ShutDown? || e.SetPrecision? || e.RefreshPosition? || e.RestObserves?
    ensures Core(MainApply(s, e))
  {
    hide Core, Sound, Tracked, OnAccepted, RequireRefresh;
    var m := s.acct.m;
    SoundIn(s);
    match e {
      case PauseFor(reason) =>
        PausingKeeps(m, reason);
        TightKeepsCore(s, m.(exec := m.exec.SetPause(reason)));
      case ShutDown =>
        Main.StopFollows(m);
        TightKeepsCore(s, m.(exec := m.exec.Stop()));
      case SetPrecision(lot, minQty) =>
        Main.PrecisionFollows(m, lot, minQty);
        TightKeepsCore(s, m.(cfg := m.cfg.(lot := lot, minQty := minQty)));
      case RefreshPosition =>
        RefreshKeeps(m, s.feed.version);
        TightKeepsCore(s, RequireRefresh(m, s.feed.version));
      case RestObserves(o) =>
        AcceptedKeeps(m, o.id, s.x.ids[o]);
        TightKeepsCore(s, OnAccepted(m, o.id, s.x.ids[o]).0);
    }
  }

  lemma ResumeStepsKeepCore(s: Sys, e: MainStep)
    requires Core(s) && MainEnabled(s, e) && Configured(s.acct.m.cfg)
    requires e.Resume? || e.RiskCheck?
    ensures Core(MainApply(s, e))
  {
    hide Core, Sound, Tracked, RiskTick;
    var m := s.acct.m;
    SoundIn(s);
    match e {
      case Resume(reason) =>
        ResumingKeeps(m, reason);
        Main.LoosenKeepsCore(s, m.(exec := m.exec.ClearPause(reason)));
      case RiskCheck(sourcesFresh) =>
        RiskTickKeeps(m, sourcesFresh, s.feed.version, s.feed.position);
        Main.LoosenKeepsCore(s, RiskTick(m, sourcesFresh, s.feed.version, s.feed.position).0);
    }
  }

  lemma EmissionsKeepCore(s: Sys, e: MainStep)
    requires Core(s) && MainEnabled(s, e) && Configured(s.acct.m.cfg)
    requires e.EndQuote? || e.TimeoutCheck?
    ensures Core(MainApply(s, e))
  {
    hide Core, Quoting.Emits, MainApply, Quoting.Emitted, Quoting.Dispatched, Quoted, OnQuote, CheckTimeouts, Dispatch;
    match e {
      case EndQuote(q, limit, now, dropped) =>
        Quoting.EndQuoteEmits(s, q, limit, now, dropped);
        var (m1, ds) := OnQuote(s.acct.m, q, s.main.position, limit, now);
        var (m2, msgs) := Dispatch(m1, ds, dropped);
        Quoting.EmitKeepsCore(s, m2, msgs, Sends(ds));
      case TimeoutCheck(now, dropped) =>
        Quoting.TimeoutCheckEmits(s, now, dropped);
        var (m1, ds) := CheckTimeouts(s.acct.m, now);
        var (m2, msgs) := Dispatch(m1, ds, dropped);
        Quoting.EmitKeepsCore(s, m2, msgs, []);
    }
  }

  lemma SocketOnlyKeepsCore(s: Sys, t: Sys)
    requires Core(s) && t == s.(socket := t.socket, main := t.main)
    ensures Core(t)
  {
    hide Stale, FreshQueue;
    Main.BooksSame(s, t);
  }

  lemma MainKeepsCore(s: Sys, e: MainStep)
    requires Core(s) && MainEnabled(s, e) && Configured(s.acct.m.cfg)
    ensures Core(MainApply(s, e))
  {
    match e {
      case EndQuote(_, _, _, _) => EmissionsKeepCore(s, e);
      case TimeoutCheck(_, _) => EmissionsKeepCore(s, e);
      case Resume(_) => ResumeStepsKeepCore(s, e);
      case RiskCheck(_) => ResumeStepsKeepCore(s, e);
      case HandleMail =>
        Main.ServeKeepsCore(s);
        Slots.ServeIs(s);
      case BeginReconciliation =>
        Main.BeginKeepsCore(s);
        Slots.BeginIs(s);
      case FinishReconciling =>
        Main.FinishKeepsCore(s);
        Main.FinishIs(s);
      case BeginQuote =>
        hide Core;
        SocketOnlyKeepsCore(s, MainApply(s, e));
      case RestConfirms(_) =>
        hide Core;
        SocketOnlyKeepsCore(s, MainApply(s, e));
      case _ => PauseStepsKeepCore(s, e);
    }
  }

  lemma StepKeepsCore(s: Sys, step: Step)
    requires Core(s) && Enabled(s, step) && Configured(s.acct.m.cfg)
    ensures Core(Apply(s, step))
  {
    match step {
      case MainDoes(e) => hide Core, MainApply; MainKeepsCore(s, e);
      case ExecDoes(e) => hide Core, ExecApply; Workers.ExecKeepsCore(s, e);
      case WorkerDoes(e) => hide Core, WorkerApply; Workers.WorkerKeepsCore(s, e);
      case SocketDoes(e) =>
        hide Core, S.HandleResponse;
        Environment.AsideKeepsCore(s, SocketApply(s, e));
      case PollDoes(e) =>
        hide Core;
        Environment.AsideKeepsCore(s, PollApply(s, e));
      case ExchangeDoes(e) => hide Core, X.Apply; Environment.ExchangeKeepsCore(s, e);
    }
  }

  // The rest needs responses that are not misread.

  lemma MainKeepsBase(s: Sys, e: MainStep)
    requires Inv(s) && MainEnabled(s, e) && Configured(s.acct.m.cfg)
    ensures Base(MainApply(s, e))
  {
    hide Inv, Base, Core, Begin, Serve, NoStray, CleanupPart, PositionPart, MailPart;
    InvParts(s);
    match e {
      case BeginQuote => Quoting.BeginQuoteKeeps(s);
      case EndQuote(q, limit, now, dropped) => Quoting.EndQuoteKeeps(s, q, limit, now, dropped);
      case HandleMail =>
        Main.ServeKeepsBase(s);
        Slots.ServeIs(s);
      case RestObserves(o) => Main.RestObservesKeeps(s, o);
      case RefreshPosition => Main.RefreshStepKeeps(s);
      case RestConfirms(ids) => Main.RestConfirmsKeeps(s, ids);
      case BeginReconciliation =>
        Main.BeginKeepsBase(s);
        Slots.BeginIs(s);
      case FinishReconciling =>
        Main.FinishStepKeeps(s);
        Main.FinishIs(s);
      case PauseFor(reason) => Main.PauseKeeps(s, reason);
      case Resume(reason) => Main.ResumeKeeps(s, reason);
      case RiskCheck(sourcesFresh) => Main.RiskCheckKeeps(s, sourcesFresh);
      case TimeoutCheck(now, dropped) => Quoting.TimeoutCheckKeeps(s, now, dropped);
      case SetPrecision(lot, minQty) => Main.PrecisionKeeps(s, lot, minQty);
      case ShutDown => Main.ShutDownKeeps(s);
    }
  }

  /** A socket or poller step leaves every order where it is. */
  lemma AsideKeepsStray(s: Sys, t: Sys)
    requires NoStray(s) && Environment.Aside(s, t) && t.x == s.x
    ensures NoStray(t)
  {
    hide Tracked, Current, InHand;
  }

  lemma SocketKeepsPosition(s: Sys, t: Sys)
    requires PositionPart(s) && Environment.Aside(s, t) && t.x == s.x && t.feed == s.feed
    ensures PositionPart(t)
  {
    hide FeedTrue, Tracked;
  }

  lemma PollKeepsCleanup(s: Sys, t: Sys)
    requires CleanupPart(s) && Environment.Aside(s, t) && t.x == s.x && t.socket == s.socket
    ensures CleanupPart(t)
  {
  }

  lemma ActorKeepsBase(s: Sys, step: Step)
    requires Base(s) && Enabled(s, step) && WellRead(s, step) && (step.ExecDoes? || step.WorkerDoes?)
    ensures Base(if step.ExecDoes? then ExecApply(s, step.exec) else WorkerApply(s, step.worker))
  {
    hide Core, NoStray, CleanupPart, PositionPart, ExecApply, WorkerApply;
    if step.ExecDoes? {
      Workers.ExecKeepsCore(s, step.exec);
      Workers.ExecKeepsStray(s, step.exec);
      Workers.ExecKeepsCleanup(s, step.exec);
      Workers.ExecKeepsPosition(s, step.exec);
    } else {
      Workers.WorkerKeepsCore(s, step.worker);
      Workers.WorkerKeepsStray(s, step.worker);
      Workers.WorkerKeepsCleanup(s, step.worker);
      Workers.WorkerKeepsPosition(s, step.worker);
    }
  }

  lemma OutsideKeepsBase(s: Sys, step: Step)
    requires Base(s) && Enabled(s, step) && WellRead(s, step) && Configured(s.acct.m.cfg)
    requires step.SocketDoes? || step.PollDoes? || step.ExchangeDoes?
    ensures Base(Apply(s, step))
  {
    hide Core, NoStray, CleanupPart, PositionPart, S.HandleResponse, SocketEnabled, WellRead, X.Apply, X.Enabled;
    match step {
      case SocketDoes(e) =>
        Environment.AsideKeepsCore(s, SocketApply(s, e));
        AsideKeepsStray(s, SocketApply(s, e));
        Environment.SocketKeepsCleanup(s, e);
        SocketKeepsPosition(s, SocketApply(s, e));
      case PollDoes(e) =>
        Environment.AsideKeepsCore(s, PollApply(s, e));
        AsideKeepsStray(s, PollApply(s, e));
        PollKeepsCleanup(s, PollApply(s, e));
        Environment.PollKeeps(s, e);
      case ExchangeDoes(e) =>
        Environment.ExchangeKeepsCore(s, e);
        ExchangeKeepsStray(s, e);
        ExchangeKeepsCleanup(s, e);
        Environment.ExchangeKeepsPosition(s, e);
    }
  }

  lemma ExchangeKeepsStray(s: Sys, e: X.Step)
    requires Core(s) && NoStray(s) && X.Enabled(s.x, e)
    ensures NoStray(s.(x := X.Apply(s.x, e)))
  {
    Environment.ExchangeKeepsCore(s, e);
    hide Core, Outstanding, Tracked, X.Apply;
  }

  lemma ExchangeKeepsCleanup(s: Sys, e: X.Step)
    requires Core(s) && CleanupPart(s) && X.Enabled(s.x, e)
    ensures CleanupPart(s.(x := X.Apply(s.x, e)))
  {
    Post.BooksIn(s);
    hide Core, Books, CleanupPart, X.Apply;
    Environment.ExchangeKeepsCleanup(s, e);
  }

  /** Every step of every actor keeps the invariant unless it misreads a response. */
  lemma StepKeeps(s: Sys, step: Step)
    requires Inv(s) && Enabled(s, step) && Configured(s.acct.m.cfg) && WellRead(s, step)
    ensures Inv(Apply(s, step))
  {
    hide Core, NoStray, PositionPart, MailPart, WorkerKnows, PendingCovers, MainApply, ExecApply, WorkerApply,
      SocketApply, PollApply, WellRead;
    Post.StepKeepsMail(s, step);
    hide Base, Inv;
    assert Inv(s) && Base(s) by {
      InvParts(s);
    }
    assert Base(Apply(s, step)) by {
      if step.MainDoes? {
        MainKeepsBase(s, step.main);
      } else if step.ExecDoes? || step.WorkerDoes? {
        ActorKeepsBase(s, step);
      } else {
        OutsideKeepsBase(s, step);
      }
    }
    InvFrom(Apply(s, step));
  }

  lemma InvParts(s: Sys)
    requires Inv(s)
    ensures Base(s) && MailPart(s) && Core(s) && NoStray(s) && CleanupPart(s) && PositionPart(s)
  {
  }

  lemma InvFrom(s: Sys)
    requires Base(s) && MailPart(s)
    ensures Inv(s)
  {
  }

  lemma {:induction false} CoreAlways(states: seq<Sys>, steps: seq<Step>, n: nat)
    requires Run(states, steps) && n < |states|
    ensures Core(states[n])
  {
    hide Core, Initial, Enabled, Apply;
    if n == 0 {
      InitiallyCore(states[0]);
    } else {
      CoreAlways(states, steps, n - 1);
      StepKeepsCore(states[n - 1], steps[n - 1]);
    }
  }

  lemma {:induction false} AlwaysInv(states: seq<Sys>, steps: seq<Step>, n: nat)
    requires WellReadRun(states, steps, n)
    ensures Inv(states[n])
  {
    hide Inv, Initial, Enabled, Apply, WellRead;
    if n == 0 {
      InitiallyInv(states[0]);
    } else {
      AlwaysInv(states, steps, n - 1);
      StepKeeps(states[n - 1], steps[n - 1]);
    }
  }

  // ---------------------------------------------------------------- cleanup

  /** Verified cleanup is sound: as long as no response was misread, when the worker's verdict is "verified", no
      new-order write of this bot is in flight and no order is open, and both
      stay so until the event loop has finished the reconciliation. */
  lemma {:induction false} VerifiedCleanupIsSound(states: seq<Sys>, steps: seq<Step>, n: nat)
    requires WellReadRun(states, steps, n)
    ensures var s := states[n];
      (s.worker.Judged? && s.worker.verdict) || s.worker.Verified? || s.results != [] ==>
        s.x.wire == {} && s.x.open == {}
  {
    hide Inv, Base, Core, MailPart, NoStray, PositionPart, PendingCovers, Initial, Enabled, Apply, WellRead;
    AlwaysInv(states, steps, n);
    InvParts(states[n]);
  }

  /** Nothing is written between the verified pass and the finish: the executor
      cannot pass its checks, whatever is queued. */
  lemma {:induction false} NothingWrittenBeforeFinish(states: seq<Sys>, steps: seq<Step>, n: nat)
    requires WellReadRun(states, steps, n) && n < |steps|
    requires states[n].worker.Verified? || states[n].results != []
    ensures steps[n] != ExecDoes(InsertPending) && !(steps[n].ExecDoes? && steps[n].exec.Write?)
    ensures states[n + 1].written == states[n].written
  {
    hide Inv, Apply, Enabled, WellRead, Initial;
    AlwaysInv(states, steps, n);
    NothingPermitted(states[n], steps[n]);
  }

  lemma NothingPermitted(s: Sys, step: Step)
    requires Inv(s) && Enabled(s, step) && Configured(s.acct.m.cfg) && (s.worker.Verified? || s.results != [])
    ensures step != ExecDoes(InsertPending) && !(step.ExecDoes? && step.exec.Write?)
    ensures Apply(s, step).written == s.written
  {
    InvParts(s);
    assert !s.exec.Permitted? && !s.exec.Inserted? by {
      hide Inv, Base, Core, MailPart, NoStray, PositionPart, PendingCovers;
    }
    hide *;
    OnlyWritesWrite(s, step);
  }

  lemma OnlyWritesWrite(s: Sys, step: Step)
    requires Enabled(s, step) && Configured(s.acct.m.cfg) && !(step.ExecDoes? && step.exec.Write?)
    ensures Apply(s, step).written == s.written
  {
    hide OnQuote, Dispatch, CheckTimeouts, E.Handle, BeginAccount, S.HandleResponse, X.Apply;
  }

  // -------------------------------------------------------- no stray orders

  lemma AtMostTwoPerLevel(m: Manager)
    requires Sound(m)
    ensures |Tracked(m)| <= 2 * m.cfg.numLevels
  {
    var a, b, c, d := OrderIn(m.bids[0]), OrderIn(m.bids[1]), OrderIn(m.asks[0]), OrderIn(m.asks[1]);
    assert Tracked(m) == (a + b) + (c + d);
    assert |(a + b) + (c + d)| <= |a| + |b| + |c| + |d|;
  }

  lemma {:induction false} SmallerSubset(a: set<Order>, b: set<Order>)
    requires a <= b
    ensures |a| <= |b|
    decreases |a|
  {
    if a != {} {
      var o :| o in a;
      SmallerSubset(a - {o}, b - {o});
    }
  }

  /** No untracked order: as long as no response was misread, each order that is
      open, on the wire, or still permitted to be written occupies a local slot, so
      at most two per configured level are outstanding. */
  lemma {:induction false} NoUntrackedOrder(states: seq<Sys>, steps: seq<Step>, n: nat)
    requires WellReadRun(states, steps, n)
    ensures var s := states[n];
      && (forall o :: o in Outstanding(s) ==> exists p: Place :: p.level < MAX_ORDER_LEVELS && Occupies(s.acct.m, p, o))
      && |Outstanding(s)| <= 2 * s.acct.m.cfg.numLevels
  {
    hide Inv, Outstanding, Tracked, Sound, Initial, Enabled, Apply, WellRead;
    AlwaysInv(states, steps, n);
    var s := states[n];
    InvParts(s);
    SoundIn(s);
    hide Base, Core, MailPart, CleanupPart, PositionPart;
    forall o | o in Outstanding(s)
      ensures exists p: Place :: p.level < MAX_ORDER_LEVELS && Occupies(s.acct.m, p, o)
    {
      var p := PlaceOf(s.acct.m, o);
      assert Occupies(s.acct.m, p, o);
    }
    SmallerSubset(Outstanding(s), Tracked(s.acct.m));
    AtMostTwoPerLevel(s.acct.m);
  }

  predicate Occupies(m: Manager, p: Place, o: Order)
    requires p.level < MAX_ORDER_LEVELS
  {
    At(m, p).Some? && At(m, p).value.ord == o
  }

  /** And no order occupies two slots, no exchange id is bound twice or to zero,
      and acceptances never outnumber the orders sent. */
  lemma {:induction false} SlotIdentity(states: seq<Sys>, steps: seq<Step>, n: nat, p: Place, q: Place)
    requires Run(states, steps) && n < |states|
    requires p.level < MAX_ORDER_LEVELS && q.level < MAX_ORDER_LEVELS
    ensures var m := states[n].acct.m;
      && m.stats.accepted <= m.stats.sent
      && (At(m, p).Some? ==>
            At(m, p).value.orderId != Some(0) && At(m, p).value.ord.side == p.side
              && At(m, p).value.ord.level == p.level)
      && (At(m, p).Some? && At(m, q).Some? && p != q ==>
            && At(m, p).value.ord.id.number != At(m, q).value.ord.id.number
            && (At(m, p).value.orderId.Some? ==> At(m, p).value.orderId != At(m, q).value.orderId))
  {
    hide Core;
    CoreAlways(states, steps, n);
    SoundIn(states[n]);
    IdentityIn(states[n].acct.m, p, q);
  }

  lemma IdentityIn(m: Manager, p: Place, q: Place)
    requires Sound(m) && p.level < MAX_ORDER_LEVELS && q.level < MAX_ORDER_LEVELS
    ensures m.stats.accepted <= m.stats.sent
    ensures At(m, p).Some? ==>
      At(m, p).value.orderId != Some(0) && At(m, p).value.ord.side == p.side && At(m, p).value.ord.level == p.level
    ensures At(m, p).Some? && At(m, q).Some? && p != q ==>
      && At(m, p).value.ord.id.number != At(m, q).value.ord.id.number
      && (At(m, p).value.orderId.Some? ==> At(m, p).value.orderId != At(m, q).value.orderId)
  {
    assert p.level == 0 || p.level == 1;
    assert q.level == 0 || q.level == 1;
  }

  // --------------------------------------------------------------- position

  /** Two publications suffice: whenever trading is permitted, the published
      position is one the exchange held, and it includes every fill whose event
      was delivered and every fill of an order no slot reserves for. */
  lemma {:induction false} PublishedPositionIsCurrent(states: seq<Sys>, steps: seq<Step>, n: nat)
    requires WellReadRun(states, steps, n) && !Blocked(states[n].acct.m.exec)
    ensures var s := states[n];
      && s.feed.seen <= |s.x.log|
      && s.feed.position == X.Position(s.x.base, s.x.log[..s.feed.seen])
      && (forall i :: 0 <= i < |s.x.log| && (s.x.log[i].order !in Tracked(s.acct.m) || i in s.delivered) ==>
            i < s.feed.seen)
  {
    hide Inv, Base, Core, MailPart, NoStray, CleanupPart, Tracked, SlotsSound, PendingCount, Initial, Enabled, Apply,
      WellRead;
    AlwaysInv(states, steps, n);
    var s := states[n];
    InvParts(s);
    SoundIn(s);
    forall i | 0 <= i < |s.x.log| && (s.x.log[i].order !in Tracked(s.acct.m) || i in s.delivered)
      ensures i < s.feed.seen
    {
      assert Covered(s.acct.m, s.feed, i);
    }
  }

  /** One publication would not be enough: a gate armed one publication ahead opens
      on a reading that was already in flight and misses a delivered fill. The code
      arms it two ahead, and then the same reading leaves trading paused. */
  lemma OnePublicationIsNotEnough(s: Sys, ahead: nat, i: nat)
    requires Configured(s.acct.m.cfg) && s.main.AtRest? && !s.acct.m.exec.shutdown
    requires s.acct.m.exec.pauses == {RiskData} && s.acct.m.gate == Some(s.feed.version + ahead)
    requires s.feed.poll.PollRead? && s.feed.poll.seen <= i && i in s.delivered
    ensures var t := PollApply(PollApply(s, Publish), BumpVersion);
      && PollEnabled(s, Publish) && PollEnabled(PollApply(s, Publish), BumpVersion) && MainEnabled(t, RiskCheck(true))
      && (var u := MainApply(t, RiskCheck(true));
          && u.feed.version == s.feed.version + 1 && u.feed.seen <= i && i in u.delivered
          && (!Blocked(u.acct.m.exec) <==> ahead <= 1))
  {
    var t := PollApply(PollApply(s, Publish), BumpVersion);
    assert RiskTick(t.acct.m, true, t.feed.version, t.feed.position).0.exec.pauses ==
      (if ahead <= 1 then {RiskData} - {RiskData} else {RiskData});
  }

  lemma SoundIn(s: Sys)
    requires Core(s)
    ensures Sound(s.acct.m)
  {
  }
}
