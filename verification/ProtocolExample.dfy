// The protocol is not idle: some run quotes and sends an order, so the theorems
// about runs are about something; and in some run a response is misread and a
// live order is lost from the slots, so their condition on responses is needed.
module ProtocolExample {
  import opened Orders
  import opened ExecutionState
  import opened ManagerModel
  import opened ManagerInvariants
  import opened Reservation
  import opened Protocol
  import C = Correspondence
  import Exposure = ProtocolExposure
  import Misread = ProtocolMisread
  import Invariants = ProtocolInvariants
  import Theorems = ProtocolTheorems
  import S = OrderSocket
  import X = Exchange

  // -------------------------------------------------------- reachable states

  /** Reached by some run without a misread response. */
  ghost predicate Reachable(s: Sys) {
    exists states: seq<Sys>, steps: seq<Step> :: WellReadRun(states, steps, |steps|) && states[|steps|] == s
  }

  /** One more step of a run. */
  lemma Longer(states: seq<Sys>, steps: seq<Step>, step: Step)
    requires Run(states, steps)
    requires Enabled(states[|steps|], step) && Configured(states[|steps|].acct.m.cfg)
    ensures Run(states + [Apply(states[|steps|], step)], steps + [step])
  {
    hide Initial, Enabled, Apply, Configured;
    var states', steps' := states + [Apply(states[|steps|], step)], steps + [step];
    forall n | 0 <= n < |steps'|
      ensures Enabled(states'[n], steps'[n]) && Configured(states'[n].acct.m.cfg)
      ensures states'[n + 1] == Apply(states'[n], steps'[n])
    {
      if n < |steps| {
        assert states'[n] == states[n] && states'[n + 1] == states[n + 1] && steps'[n] == steps[n];
      }
    }
  }

  lemma Reaches(s: Sys, step: Step, t: Sys)
    requires Reachable(s) && Configured(s.acct.m.cfg) && Enabled(s, step) && WellRead(s, step) && t == Apply(s, step)
    ensures Reachable(t)
  {
    hide Enabled, Apply, WellRead, Configured, Initial;
    var states, steps :| WellReadRun(states, steps, |steps|) && states[|steps|] == s;
    Longer(states, steps, step);
    var states', steps' := states + [t], steps + [step];
    forall k | 0 <= k < |steps'|
      ensures WellRead(states'[k], steps'[k])
    {
      if k < |steps| {
        assert states'[k] == states[k] && steps'[k] == steps[k];
      }
    }
    assert WellReadRun(states', steps', |steps'|);
  }

  // ------------------------------------------------------- starting to trade

  const CONFIG := Config(1.0, 0, 0, 1.0, 1.0, 1.0, 0, 1, None, false, None)
  const IDLE := Manager(CONFIG, [None, None], [None, None], 1, 0, Stats(0, 0, 0, 0, 0, 0), Exec({}, 3, false), 0, None,
                        None)
  const QUOTE := Quote([100.0, 0.0], [0.0, 0.0], 1, 1.0, 100.5, true)
  const ORDER := Order(ClientId(0, 3, 1), Buy, 0, 100.0, 1.0)
  const NO_REQUESTS := S.Socket(map[], {}, 0)
  const NOTHING := X.Exchange({}, {}, {}, {}, map[], [], 0.0)
  const PUBLISHED := Feed(0.0, 0, true, 1, PollIdle)

  function Paused(pauses: set<PauseReason>, baseline: Option<real>): Manager {
    IDLE.(exec := Exec(pauses, 3, false), baseline := baseline)
  }

  /** While nothing has been issued. */
  function Early(m: Manager, link: Link, mail: seq<Mail>, feed: Feed): Sys {
    Sys(Account(m, false, 0), AtRest, [], [], [], Idle, Free, Sleeping, NO_REQUESTS, link, mail, {}, 0, feed, NOTHING,
        {}, [], {})
  }

  const CONNECTED := [Mail(S.Authenticated, C.NothingSaid)]

  lemma Starts()
    ensures Reachable(Early(Paused({OrderWebSocket, MarketData, RiskData}, None), Down, [],
                            Feed(0.0, 0, false, 0, PollIdle)))
  {
    var s := Early(Paused({OrderWebSocket, MarketData, RiskData}, None), Down, [], Feed(0.0, 0, false, 0, PollIdle));
    var none: seq<Step> := [];
    assert WellReadRun([s], none, |none|) && [s][|none|] == s;
  }

  lemma Connects()
    ensures var m := Paused({OrderWebSocket, MarketData, RiskData}, None);
      Reachable(Early(m, Up, CONNECTED, Feed(0.0, 0, false, 0, PollIdle)))
  {
    var m := Paused({OrderWebSocket, MarketData, RiskData}, None);
    var s := Early(m, Down, [], Feed(0.0, 0, false, 0, PollIdle));
    Starts();
    hide Reachable;
    Reaches(s, SocketDoes(Connect), Early(m, Up, CONNECTED, Feed(0.0, 0, false, 0, PollIdle)));
  }

  lemma Publishes()
    ensures Reachable(Early(Paused({OrderWebSocket, MarketData, RiskData}, None), Up, CONNECTED, PUBLISHED))
  {
    Connects();
    hide Reachable;
    var m := Paused({OrderWebSocket, MarketData, RiskData}, None);
    var read := Early(m, Up, CONNECTED, Feed(0.0, 0, false, 0, PollRead(0.0, 0)));
    var stored := Early(m, Up, CONNECTED, Feed(0.0, 0, true, 0, PollStored));
    Reaches(Early(m, Up, CONNECTED, Feed(0.0, 0, false, 0, PollIdle)), PollDoes(ReadPosition), read);
    Reaches(read, PollDoes(Publish), stored);
    Reaches(stored, PollDoes(BumpVersion), Early(m, Up, CONNECTED, PUBLISHED));
  }

  lemma RiskChecked()
    ensures Reachable(Early(Paused({OrderWebSocket, MarketData}, Some(0.0)), Up, CONNECTED, PUBLISHED))
  {
    Publishes();
    hide Reachable;
    assert {OrderWebSocket, MarketData, RiskData} - {RiskData} == {OrderWebSocket, MarketData};
    Reaches(Early(Paused({OrderWebSocket, MarketData, RiskData}, None), Up, CONNECTED, PUBLISHED),
            MainDoes(RiskCheck(true)),
            Early(Paused({OrderWebSocket, MarketData}, Some(0.0)), Up, CONNECTED, PUBLISHED));
  }

  lemma Resumes()
    ensures Reachable(Early(Paused({}, Some(0.0)), Up, [], PUBLISHED))
  {
    RiskChecked();
    hide Reachable;
    assert {OrderWebSocket, MarketData} - {OrderWebSocket} == {MarketData};
    assert {MarketData} - {MarketData} == {};
    var served := Early(Paused({MarketData}, Some(0.0)), Up, [], PUBLISHED);
    Reaches(Early(Paused({OrderWebSocket, MarketData}, Some(0.0)), Up, CONNECTED, PUBLISHED), MainDoes(HandleMail),
            served);
    Reaches(served, MainDoes(Resume(MarketData)), Early(Paused({}, Some(0.0)), Up, [], PUBLISHED));
  }

  function Reading(): Sys {
    Early(Paused({}, Some(0.0)), Up, [], PUBLISHED).(main := Quoting(0.0, 0))
  }

  lemma Reads()
    ensures Reachable(Reading())
  {
    Resumes();
    hide Reachable;
    Reaches(Early(Paused({}, Some(0.0)), Up, [], PUBLISHED), MainDoes(BeginQuote), Reading());
  }

  // ------------------------------------------------------------- sending

  const SEND := EndQuote(QUOTE, 1000.0, 0, {})

  function WithOrder(state: OrderState, exec: Exec): Manager {
    IDLE.(bids := [Some(LiveOrder(ORDER, None, state, 0, 0)), None], nextNumber := 2, stats := Stats(1, 0, 0, 0, 0, 0),
          exec := exec, baseline := Some(0.0))
  }

  lemma OneUnit()
    ensures QuoteQty(CONFIG, 1.0, 100.0, 100.5, 1000.0) == 1.0
  {
    assert 1000.0 / 100.5 >= 1.0;
    assert (1.0 / 1.0).Floor == 1;
  }

  lemma QuotesOne()
    ensures OnQuote(Paused({}, Some(0.0)), QUOTE, 0.0, 1000.0, 0)
      == (WithOrder(Pending, Exec({}, 3, false)), [Send(ORDER)])
  {
    var m := Paused({}, Some(0.0));
    var m1 := WithOrder(Pending, Exec({}, 3, false));
    OneUnit();
    var slot := Some(LiveOrder(ORDER, None, Pending, 0, 0));
    assert m.bids[0 := slot] == [slot, None];
    assert Headroom(m, Buy, 0.0, 1000.0, 100.5) == 1000.0;
    assert ReservedByOthers(m.bids, 0, 100.5) == 0.0;
    assert ProcessSideLevel(m, Buy, 0, 100.0, 1.0, 0) == (m1, [Send(ORDER)]);
    assert QuoteLevel(m, QUOTE, Buy, 1000.0, 0, 0) == (m1, [Send(ORDER)]);
    assert QuoteSide(m, QUOTE, Buy, 1000.0, 0, 0) == (m, []);
    assert QuoteSide(m, QUOTE, Buy, 1000.0, 0, 1) == (m1, [] + [Send(ORDER)]);
    var h := Headroom(m, Sell, 0.0, 1000.0, 100.5);
    assert QuoteSide(m1, QUOTE, Sell, h, 0, 0) == (m1, []);
    assert QuoteLevel(m1, QUOTE, Sell, h, 0, 0) == (m1, []);
    assert QuoteSide(m1, QUOTE, Sell, h, 0, 1) == (m1, [] + []);
    assert ([] + [Send(ORDER)]) + ([] + []) == [Send(ORDER)];
    assert LevelsQuoted(m, QUOTE) == 1 && Quotable(m, QUOTE) && Sign(Buy) == 1.0;
  }

  lemma QuoteSends()
    ensures Configured(Reading().acct.m.cfg) && Enabled(Reading(), MainDoes(SEND))
    ensures Exposure.SentSomething(Reading(), SEND, Buy)
  {
    QuotesOne();
    SendsOfOne(Send(ORDER));
    assert ORDER in Sends([Send(ORDER)]) && ORDER.side == Buy;
  }

  /** Some run reaches a quote that sends a buy order. */
  lemma SomeRunSends()
    ensures exists states: seq<Sys>, steps: seq<Step>, n: nat ::
      && WellReadRun(states, steps, n) && n < |steps|
      && steps[n].MainDoes? && steps[n].main.EndQuote?
      && Exposure.SentSomething(states[n], steps[n].main, Buy)
  {
    Reads();
    QuoteSends();
    hide Exposure.SentSomething, Reading, Initial, Apply, Configured, WellRead, MainEnabled;
    var states, steps :| WellReadRun(states, steps, |steps|) && states[|steps|] == Reading();
    Longer(states, steps, MainDoes(SEND));
    var states', steps', n := states + [Apply(Reading(), MainDoes(SEND))], steps + [MainDoes(SEND)], |steps|;
    assert states'[n] == Reading() && steps'[n] == MainDoes(SEND);
    assert WellReadRun(states', steps', n);
  }

  // ------------------------------------------------------ losing a live order

  /** From the send on: only the manager, the queue, the executor, the socket and
      the exchange change. */
  function Later(m: Manager, queue: seq<Msg>, exec: ExecPc, lock: Lock, socket: S.Socket, x: X.Exchange,
                 written: set<Order>): Sys {
    Sys(Account(m, false, 0), AtRest, queue, [], [], exec, lock, Sleeping, socket, Up, [], {}, 0, PUBLISHED, x, {},
        [ORDER], written)
  }

  const GO := Exec({}, 3, false)
  const REQUESTED := S.Socket(map[0 := S.New(ORDER.id)], {}, 1)
  const ONWIRE := X.Exchange({ORDER}, {}, {}, {}, map[], [], 0.0)
  const OPEN := X.Exchange({}, {ORDER}, {ORDER}, {}, map[ORDER := 7], [], 0.0)

  function WithExec(exec: ExecPc, lock: Lock): Sys {
    Later(WithOrder(Pending, GO), [], exec, lock, NO_REQUESTS, NOTHING, {})
  }

  lemma DispatchesOne(m: Manager, d: Decision)
    ensures Dispatch(m, [d], {}) == (m, [Msg(m.exec.generation, d)])
  {
    assert [d][..0] == [];
    assert Dispatch(m, [], {}) == (m, []);
    assert [] + [Msg(m.exec.generation, d)] == [Msg(m.exec.generation, d)];
  }

  lemma Queues()
    ensures Reachable(Later(WithOrder(Pending, GO), [Msg(3, Send(ORDER))], Idle, Free, NO_REQUESTS, NOTHING, {}))
  {
    Reads();
    hide Reachable;
    QuotesOne();
    SendsOfOne(Send(ORDER));
    var m1 := WithOrder(Pending, GO);
    DispatchesOne(m1, Send(ORDER));
    hide OnQuote, Dispatch, Sends;
    assert [] + [Msg(3, Send(ORDER))] == [Msg(3, Send(ORDER))] && [] + [ORDER] == [ORDER];
    Reaches(Reading(), MainDoes(SEND), Later(m1, [Msg(3, Send(ORDER))], Idle, Free, NO_REQUESTS, NOTHING, {}));
  }

  lemma Permits()
    ensures Reachable(WithExec(Permitted(ORDER), ByExecutor))
  {
    Queues();
    hide Reachable;
    Reaches(Later(WithOrder(Pending, GO), [Msg(3, Send(ORDER))], Idle, Free, NO_REQUESTS, NOTHING, {}),
            ExecDoes(Pop(false)),
            WithExec(Holding(3, ORDER), Free));
    Reaches(WithExec(Holding(3, ORDER), Free), ExecDoes(TakeLock), WithExec(Locked(3, ORDER), ByExecutor));
    Reaches(WithExec(Locked(3, ORDER), ByExecutor), ExecDoes(FirstCheck(true)),
            WithExec(Checked(3, ORDER), ByExecutor));
    Reaches(WithExec(Checked(3, ORDER), ByExecutor), ExecDoes(SecondCheck(true)),
            WithExec(Permitted(ORDER), ByExecutor));
  }

  function Sent(exec: ExecPc, lock: Lock, x: X.Exchange, written: set<Order>): Sys {
    Later(WithOrder(Pending, GO), [], exec, lock, REQUESTED, x, written)
  }

  lemma Inserts()
    ensures Reachable(Sent(Inserted(ORDER), ByExecutor, NOTHING, {}))
  {
    Permits();
    hide Reachable;
    assert map[][0 := S.New(ORDER.id)] == map[0 := S.New(ORDER.id)];
    Reaches(WithExec(Permitted(ORDER), ByExecutor), ExecDoes(InsertPending),
            Sent(Inserted(ORDER), ByExecutor, NOTHING, {}));
  }

  lemma Writes()
    ensures Reachable(Sent(Idle, Free, ONWIRE, {ORDER}))
  {
    Inserts();
    hide Reachable;
    assert {} + {ORDER} == {ORDER};
    Reaches(Sent(Inserted(ORDER), ByExecutor, NOTHING, {}), ExecDoes(Write(true)),
            Sent(Releasing, ByExecutor, ONWIRE, {ORDER}));
    Reaches(Sent(Releasing, ByExecutor, ONWIRE, {ORDER}), ExecDoes(ReleaseLock), Sent(Idle, Free, ONWIRE, {ORDER}));
  }

  lemma Opens()
    ensures Reachable(Sent(Idle, Free, OPEN, {ORDER}))
  {
    Writes();
    hide Reachable;
    assert X.Enabled(ONWIRE, X.Accept(ORDER, 7)) && X.Apply(ONWIRE, X.Accept(ORDER, 7)) == OPEN by {
      assert {ORDER} - {ORDER} == {};
      assert map[][ORDER := 7] == map[ORDER := 7];
    }
    Reaches(Sent(Idle, Free, ONWIRE, {ORDER}), ExchangeDoes(X.Accept(ORDER, 7)), Sent(Idle, Free, OPEN, {ORDER}));
  }

  /** The order times out unanswered: its cancel is issued and awaited. */
  const OVERDUE := WithOrder(Pending, Exec({Reconciliation}, 4, false)).(stats := Stats(1, 0, 0, 0, 0, 1))
  const AWAITED := S.Socket(map[0 := S.New(ORDER.id), 1 := S.CancelByClientId(ORDER.id)], {ORDER.id}, 2)

  lemma TimesOut()
    ensures CheckTimeouts(WithOrder(Pending, GO), 1) == (OVERDUE, [Cancel(ORDER.id)])
  {
    var m := WithOrder(Pending, GO);
    assert OverdueCancels(CONFIG, m.bids, 1, 0) == [];
    assert OverdueCancels(CONFIG, m.bids, 1, 1) == [] + [Cancel(ORDER.id)];
    assert OverdueCancels(CONFIG, m.bids, 1, 2) == [] + [Cancel(ORDER.id)] + [];
    assert OverdueCancels(CONFIG, m.asks, 1, 0) == [];
    assert OverdueCancels(CONFIG, m.asks, 1, 1) == [] + [];
    assert OverdueCancels(CONFIG, m.asks, 1, 2) == [] + [] + [];
    assert {} + {Reconciliation} == {Reconciliation};
    assert [] + [Cancel(ORDER.id)] + [] + ([] + [] + []) == [Cancel(ORDER.id)];
  }

  lemma AwaitsCancel()
    ensures Reachable(Later(OVERDUE, [], Idle, Free, AWAITED, OPEN, {ORDER}))
  {
    Opens();
    hide Reachable;
    TimesOut();
    DispatchesOne(OVERDUE, Cancel(ORDER.id));
    hide CheckTimeouts, Dispatch;
    assert [] + [Msg(4, Cancel(ORDER.id))] == [Msg(4, Cancel(ORDER.id))];
    var overdue := Later(OVERDUE, [Msg(4, Cancel(ORDER.id))], Idle, Free, REQUESTED, OPEN, {ORDER});
    Reaches(Sent(Idle, Free, OPEN, {ORDER}), MainDoes(TimeoutCheck(1, {})), overdue);
    assert map[0 := S.New(ORDER.id)][1 := S.CancelByClientId(ORDER.id)] == AWAITED.pending;
    assert {} + {ORDER.id} == {ORDER.id};
    Reaches(overdue, ExecDoes(Pop(true)), Later(OVERDUE, [], Idle, Free, AWAITED, OPEN, {ORDER}));
  }

  lemma LosesNext(s: Sys)
    requires s == Later(OVERDUE, [], Idle, Free, AWAITED, OPEN, {ORDER})
    ensures ORDER in s.x.ids
    ensures var respond := SocketDoes(Respond(Misread.Accepted(s, ORDER), C.OnSubmission(ORDER, true)));
      && Configured(s.acct.m.cfg) && Enabled(s, respond) && !WellRead(s, respond)
      && (var t := Apply(s, respond);
          && Configured(t.acct.m.cfg) && Enabled(t, MainDoes(HandleMail))
          && (var u := Apply(t, MainDoes(HandleMail)); ORDER in u.x.open && ORDER !in Tracked(u.acct.m)))
  {
    assert Invariants.Core(s) by {
      AwaitsCancel();
      var states, steps :| WellReadRun(states, steps, |steps|) && states[|steps|] == s;
      Theorems.CoreAlways(states, steps, |steps|);
    }
    Misread.AcceptanceFreesLiveOrder(s, ORDER);
  }

  /** A run, well read but for its last response, that ends with an order open at
      the exchange in no slot. */
  ghost predicate LosesOrder(states: seq<Sys>, steps: seq<Step>, o: Order) {
    && |steps| >= 2 && WellReadRun(states, steps, |steps| - 2)
    && o in states[|steps|].x.open && o !in Tracked(states[|steps|].acct.m)
  }

  lemma SomeRunLosesAnOrder()
    ensures exists states: seq<Sys>, steps: seq<Step>, o: Order :: LosesOrder(states, steps, o)
  {
    AwaitsCancel();
    var s := Later(OVERDUE, [], Idle, Free, AWAITED, OPEN, {ORDER});
    LosesNext(s);
    var states, steps :| WellReadRun(states, steps, |steps|) && states[|steps|] == s;
    LosesAfter(states, steps, s, SocketDoes(Respond(Misread.Accepted(s, ORDER), C.OnSubmission(ORDER, true))));
  }

  lemma LosesAfter(states: seq<Sys>, steps: seq<Step>, s: Sys, respond: Step)
    requires WellReadRun(states, steps, |steps|) && states[|steps|] == s
    requires Configured(s.acct.m.cfg) && Enabled(s, respond)
    requires var t := Apply(s, respond);
      && Configured(t.acct.m.cfg) && Enabled(t, MainDoes(HandleMail))
      && (var u := Apply(t, MainDoes(HandleMail)); ORDER in u.x.open && ORDER !in Tracked(u.acct.m))
    ensures exists states: seq<Sys>, steps: seq<Step>, o: Order :: LosesOrder(states, steps, o)
  {
    hide Initial, Enabled, Apply, Configured, WellRead, Tracked;
    var t := Apply(s, respond);
    var u := Apply(t, MainDoes(HandleMail));
    Longer(states, steps, respond);
    Longer(states + [t], steps + [respond], MainDoes(HandleMail));
    var states', steps' := states + [t] + [u], steps + [respond] + [MainDoes(HandleMail)];
    forall k | 0 <= k < |steps|
      ensures WellRead(states'[k], steps'[k])
    {
      assert states'[k] == states[k] && steps'[k] == steps[k];
    }
    assert WellReadRun(states', steps', |steps|) && states'[|steps'|] == u;
    assert LosesOrder(states', steps', ORDER);
  }
}
