// The bot and its exchange as one transition system. The actors are the event
// loop, the order executor, the reconciliation worker, the order socket's
// reader, the position poller and the exchange. Each step is one atomic action
// of one actor; everything else interleaves freely.
module Protocol {
  import opened Orders
  import opened ExecutionState
  import opened ManagerModel
  import opened ManagerInvariants
  import opened HandlerProofs
  import opened EventLoop
  import C = Correspondence
  import S = OrderSocket
  import X = Exchange

  /** A decision in the executor's queue, tagged with the generation at dispatch. */
  datatype Msg = Msg(tag: nat, decision: Decision)

  /** Quoting holds the position it has read and how many fills that reading includes. */
  datatype MainPc = AtRest | Quoting(position: real, seen: nat)

  /** Placing one order: wait for the submission lock, check, sign, check again,
      record the request, write, release. */
  datatype ExecPc =
    | Idle
    | Holding(tag: nat, order: Order)
    | Locked(tag: nat, order: Order)
    | Checked(tag: nat, order: Order)
    | Permitted(order: Order)
    | Inserted(order: Order)
    | Releasing

  /** The passes of `cancel_and_verify` under the submission lock. */
  datatype WorkerPc =
    | Sleeping
    | Waiting(gen: nat)
    | Held(gen: nat)
    | Listed(gen: nat, before: set<ClientId>)
    | Dropped(gen: nat)
    | Querying(gen: nat, todo: set<ClientId>)
    | Settled(gen: nat, settled: bool)
    | Canceled(gen: nat, settled: bool)
    | Judged(gen: nat, verdict: bool)
    | Verified(gen: nat)

  datatype Lock = Free | ByExecutor | ByWorker

  datatype PollPc = PollIdle | PollRead(position: real, seen: nat) | PollStored

  /** The published position, the number of fills it includes, whether one was
      ever published, the publication count, and the poller's own place. */
  datatype Feed = Feed(position: real, seen: nat, known: bool, version: nat, poll: PollPc)

  /** The order socket's connection; falling means lost but not yet announced. */
  datatype Link = Down | Up | Falling

  /** An event on its way to the event loop, and what the exchange meant by the
      response it was raised for, which no actor looks at. */
  datatype Mail = Mail(event: S.Event, about: C.Meaning)

  /** `told` are the fills reported to the socket, `delivered` those reported to
      the manager, and fills before `cut` precede the current connection. */
  datatype Sys = Sys(
    acct: Account, main: MainPc,
    queue: seq<Msg>, requests: seq<nat>, results: seq<nat>,
    exec: ExecPc, lock: Lock, worker: WorkerPc,
    socket: S.Socket, link: Link, mail: seq<Mail>, told: set<nat>, cut: nat,
    feed: Feed, x: X.Exchange,
    delivered: set<nat>, issued: seq<Order>, written: set<Order>)

  function Ids(orders: set<Order>): set<ClientId> {
    set o | o in orders :: o.id
  }

  function WithManager(s: Sys, m: Manager): Sys {
    s.(acct := s.acct.(m := m))
  }

  // --------------------------------------------------------- the event loop

  datatype MainStep =
    | BeginQuote
    | EndQuote(q: Quote, limit: real, now: int, dropped: set<nat>)
    | HandleMail
    | RestObserves(order: Order)
    | RefreshPosition
    | RestConfirms(ids: set<ClientId>)
    | BeginReconciliation
    | FinishReconciling
    | PauseFor(reason: PauseReason)
    | Resume(reason: PauseReason)
    | RiskCheck(sourcesFresh: bool)
    | TimeoutCheck(now: int, dropped: set<nat>)
    | SetPrecision(lot: real, minQty: real)
    | ShutDown

  /** Hand decisions to the executor one by one; a full queue drops one and
      rolls the manager back for it. */
  function Dispatch(m: Manager, ds: seq<Decision>, dropped: set<nat>): (Manager, seq<Msg>) {
    if ds == [] then (m, [])
    else
      var n := |ds| - 1;
      var (m1, msgs) := Dispatch(m, ds[..n], dropped);
      if n in dropped then (OnDispatchFailed(m1, ds[n]), msgs)
      else (m1, msgs + [Msg(m1.exec.generation, ds[n])])
  }

  predicate MainEnabled(s: Sys, step: MainStep) {
    var m := s.acct.m;
    if step.EndQuote? then s.main.Quoting? && QuoteShape(step.q)
    else
      && s.main.AtRest?
      && match step
         case BeginQuote => !m.exec.shutdown && m.exec.pauses == {}
         case HandleMail => s.mail != []
         case RestObserves(o) => o in s.x.ids
         case RestConfirms(ids) => ids <= Ids(s.x.accepted)
         case FinishReconciling => s.results != []
         case Resume(r) => r == MarketData
         case RiskCheck(sourcesFresh) => sourcesFresh ==> s.feed.known
         case TimeoutCheck(_, _) => !s.acct.pending
         case SetPrecision(lot, _) => lot > 0.0
         case _ => true
  }

  function Begin(s: Sys): Sys {
    var (acct, request) := BeginAccount(s.acct, s.feed.version);
    s.(acct := acct, requests := if request.Some? then s.requests + [request.value] else s.requests)
  }

  /** The oldest event is served; a served fill report counts as delivered. */
  function Serve(s: Sys): Sys
    requires s.mail != []
  {
    var Mail(event, about) := s.mail[0];
    var (m1, begin) := Handle(s.acct.m, event, s.feed.version);
    var t := WithManager(s, m1).(
      mail := s.mail[1..],
      delivered := if event.OrderFilledEvent? && about.OnFill? then s.delivered + {about.index} else s.delivered);
    if begin then Begin(t) else t
  }

  function MainApply(s: Sys, step: MainStep): Sys
    requires MainEnabled(s, step)
    requires Configured(s.acct.m.cfg)
  {
    var m := s.acct.m;
    match step
    case BeginQuote => s.(main := Quoting(s.feed.position, s.feed.seen))
    case EndQuote(q, limit, now, dropped) =>
      var (m1, ds) := OnQuote(m, q, s.main.position, limit, now);
      var (m2, msgs) := Dispatch(m1, ds, dropped);
      WithManager(s, m2).(main := AtRest, queue := s.queue + msgs, issued := s.issued + Sends(ds))
    case HandleMail => Serve(s)
    case RestObserves(o) => WithManager(s, OnAccepted(m, o.id, s.x.ids[o]).0)
    case RefreshPosition => WithManager(s, RequireRefresh(m, s.feed.version))
    case RestConfirms(ids) => s.(socket := S.DropConfirmed(s.socket, ids))
    case BeginReconciliation => Begin(s)
    case FinishReconciling =>
      if s.results[0] == s.acct.generation
      then s.(results := s.results[1..], socket := S.ClearTracking(s.socket),
              acct := FinishAccount(s.acct, s.feed.version))
      else s.(results := s.results[1..])
    case PauseFor(reason) => WithManager(s, m.(exec := m.exec.SetPause(reason)))
    case Resume(reason) => WithManager(s, m.(exec := m.exec.ClearPause(reason)))
    case RiskCheck(sourcesFresh) => WithManager(s, RiskTick(m, sourcesFresh, s.feed.version, s.feed.position).0)
    case TimeoutCheck(now, dropped) =>
      var (m1, ds) := CheckTimeouts(m, now);
      var (m2, msgs) := Dispatch(m1, ds, dropped);
      WithManager(s, m2).(queue := s.queue + msgs)
    case SetPrecision(lot, minQty) => WithManager(s, m.(cfg := m.cfg.(lot := lot, minQty := minQty)))
    case ShutDown => WithManager(s, m.(exec := m.exec.Stop()))
  }

  // --------------------------------------------------------------- executor

  datatype ExecStep =
    | Pop(sent: bool)
    | TakeLock
    | FirstCheck(connected: bool)
    | SecondCheck(writable: bool)
    | InsertPending
    | Write(reached: bool)
    | ReleaseLock

  predicate ExecEnabled(s: Sys, step: ExecStep) {
    match step
    case Pop(sent) => s.exec.Idle? && s.queue != [] && (sent ==> s.link.Up?)
    case TakeLock => s.exec.Holding? && s.lock == Free
    case FirstCheck(connected) => s.exec.Locked? && (connected ==> s.link.Up?)
    case SecondCheck(_) => s.exec.Checked?
    case InsertPending => s.exec.Permitted?
    case Write(_) => s.exec.Inserted?
    case ReleaseLock => s.exec.Releasing?
  }

  /** A failed or timed-out write may still have reached the exchange. */
  function ExecApply(s: Sys, step: ExecStep): Sys
    requires ExecEnabled(s, step)
  {
    match step
    case Pop(sent) =>
      var d := s.queue[0].decision;
      var t := s.(queue := s.queue[1..]);
      if d.Send? then t.(exec := Holding(s.queue[0].tag, d.order))
      else if sent then t.(socket := S.AddRequest(s.socket.(cancels := s.socket.cancels + {d.id}),
                                                  S.CancelByClientId(d.id)))
      else t
    case TakeLock => s.(exec := Locked(s.exec.tag, s.exec.order), lock := ByExecutor)
    case FirstCheck(connected) =>
      s.(exec := if connected && s.acct.m.exec.Permits(s.exec.tag) then Checked(s.exec.tag, s.exec.order)
         else Releasing)
    case SecondCheck(writable) =>
      s.(exec := if writable && s.acct.m.exec.Permits(s.exec.tag) then Permitted(s.exec.order) else Releasing)
    case InsertPending => s.(exec := Inserted(s.exec.order), socket := S.AddRequest(s.socket, S.New(s.exec.order.id)))
    case Write(reached) =>
      s.(exec := Releasing, written := s.written + {s.exec.order},
         x := if reached then s.x.(wire := s.x.wire + {s.exec.order}) else s.x)
    case ReleaseLock => s.(exec := Idle, lock := Free)
  }

  // ------------------------------------------------- reconciliation worker

  datatype WorkerStep =
    | Take
    | AcquireLock
    | ReadOpen
    | Retain
    | ListUnresolved
    | Query(id: ClientId, known: bool)
    | Settle
    | CancelAll(gone: set<Order>)
    | ReadRemaining
    | LeaveLock
    | Report
    | RestFails

  function MaxOf(gens: seq<nat>): (newest: nat)
    requires gens != []
    ensures newest in gens && forall g :: g in gens ==> g <= newest
  {
    if |gens| == 1 then gens[0]
    else
      var rest := MaxOf(gens[1..]);
      assert gens == [gens[0]] + gens[1..];
      if gens[0] >= rest then gens[0] else rest
  }

  predicate UnderLock(w: WorkerPc) {
    w.Held? || w.Listed? || w.Dropped? || w.Querying? || w.Settled? || w.Canceled? || w.Judged?
  }

  predicate WorkerEnabled(s: Sys, step: WorkerStep) {
    var w := s.worker;
    match step
    case Take => w.Sleeping? && s.requests != []
    case AcquireLock => w.Waiting? && s.lock == Free
    case ReadOpen => w.Held?
    case Retain => w.Listed?
    case ListUnresolved => w.Dropped?
    case Query(id, known) => w.Querying? && id in w.todo && (known ==> id in Ids(s.x.accepted + s.x.rejected))
    case Settle => w.Querying? && w.todo == {}
    case CancelAll(gone) => w.Settled? && gone <= s.x.open
    case ReadRemaining => w.Canceled?
    case LeaveLock => w.Judged?
    case Report => w.Verified?
    case RestFails => UnderLock(w) && !w.Judged?
  }

  /** The batch cancel may close any part of the open orders: only the second
      query decides. A reported status means the exchange has decided the order. */
  function WorkerApply(s: Sys, step: WorkerStep): Sys
    requires WorkerEnabled(s, step)
  {
    var w := s.worker;
    match step
    case Take => s.(worker := Waiting(MaxOf(s.requests)), requests := [])
    case AcquireLock => s.(worker := Held(w.gen), lock := ByWorker)
    case ReadOpen => s.(worker := Listed(w.gen, Ids(s.x.open)))
    case Retain => s.(worker := Dropped(w.gen), socket := S.DropConfirmed(s.socket, w.before))
    case ListUnresolved => s.(worker := Querying(w.gen, S.Unresolved(s.socket)))
    case Query(id, known) =>
      s.(worker := Querying(w.gen, w.todo - {id}), socket := if known then S.DropConfirmed(s.socket, {id})
         else s.socket)
    case Settle => s.(worker := Settled(w.gen, S.SubmissionsSettled(s.socket)))
    case CancelAll(gone) => s.(worker := Canceled(w.gen, w.settled), x := s.x.(open := s.x.open - gone))
    case ReadRemaining => s.(worker := Judged(w.gen, w.settled && s.x.open == {}))
    case LeaveLock => s.(worker := if w.verdict then Verified(w.gen) else Waiting(w.gen), lock := Free)
    case Report => s.(worker := Sleeping, results := s.results + [w.gen])
    case RestFails => s.(worker := Waiting(w.gen), lock := Free)
  }

  // ------------------------------------------------------- socket and poller

  datatype SocketStep = Respond(r: S.Response, about: C.Meaning) | Fall | Announce | Connect

  /** On one connection an order's fills are reported before its cancellation. */
  predicate FillsReported(s: Sys, o: Order) {
    forall i :: 0 <= i < |s.x.log| && s.x.log[i].order == o ==> i in s.told || i < s.cut
  }

  /** All that is asked of the exchange: what it says is so, in one of the forms
      it uses, and fills come before the cancellation they precede. */
  predicate SocketEnabled(s: Sys, step: SocketStep) {
    match step
    case Respond(r, about) =>
      && s.link.Up?
      && C.TrueOf(s.x, about) && C.Phrases(s.x, s.socket, r, about)
      && (about.OnCancel? && about.done ==> FillsReported(s, about.order))
    case Fall => s.link.Up?
    case Announce => s.link.Falling?
    case Connect => s.link.Down?
  }

  function Posted(s: Sys, event: S.Event, about: C.Meaning): Sys {
    s.(mail := s.mail + [Mail(event, about)])
  }

  /** Losing the connection clears its flags, then forgets the awaited cancels and
      posts the event; fills made by the time of the next one may stay unreported. */
  function SocketApply(s: Sys, step: SocketStep): Sys {
    match step
    case Respond(r, about) =>
      var (socket, e) := S.HandleResponse(s.socket, r);
      var t := s.(socket := socket, told := if about.OnFill? then s.told + {about.index} else s.told);
      if e.Some? then Posted(t, e.value, about) else t
    case Fall => s.(link := Falling)
    case Announce => Posted(s.(link := Down, socket := S.Drop(s.socket)), S.Disconnected, C.NothingSaid)
    case Connect => Posted(s.(link := Up, cut := |s.x.log|), S.Authenticated, C.NothingSaid)
  }

  datatype PollStep = ReadPosition | Publish | BumpVersion | PollFails

  predicate PollEnabled(s: Sys, step: PollStep) {
    match step
    case ReadPosition => s.feed.poll.PollIdle?
    case Publish => s.feed.poll.PollRead?
    case BumpVersion => s.feed.poll.PollStored?
    case PollFails => s.feed.poll.PollRead?
  }

  /** REST reads are linearizable: the answer is the position at one instant.
      Storing the value and counting the publication are separate stores. */
  function PollApply(s: Sys, step: PollStep): Sys
    requires PollEnabled(s, step)
  {
    var f := s.feed;
    s.(feed := match step
       case ReadPosition => f.(poll := PollRead(X.Position(s.x.base, s.x.log), |s.x.log|))
       case Publish => Feed(f.poll.position, f.poll.seen, true, f.version, PollStored)
       case BumpVersion => f.(version := f.version + 1, poll := PollIdle)
       case PollFails => f.(poll := PollIdle))
  }

  // ------------------------------------------------------------------- runs

  datatype Step =
    | MainDoes(main: MainStep)
    | ExecDoes(exec: ExecStep)
    | WorkerDoes(worker: WorkerStep)
    | SocketDoes(socket: SocketStep)
    | PollDoes(poll: PollStep)
    | ExchangeDoes(exchange: X.Step)

  predicate Enabled(s: Sys, step: Step) {
    match step
    case MainDoes(e) => MainEnabled(s, e)
    case ExecDoes(e) => ExecEnabled(s, e)
    case WorkerDoes(e) => WorkerEnabled(s, e)
    case SocketDoes(e) => SocketEnabled(s, e)
    case PollDoes(e) => PollEnabled(s, e)
    case ExchangeDoes(e) => X.Enabled(s.x, e)
  }

  function Apply(s: Sys, step: Step): Sys
    requires Enabled(s, step) && Configured(s.acct.m.cfg)
  {
    match step
    case MainDoes(e) => MainApply(s, e)
    case ExecDoes(e) => ExecApply(s, e)
    case WorkerDoes(e) => WorkerApply(s, e)
    case SocketDoes(e) => SocketApply(s, e)
    case PollDoes(e) => PollApply(s, e)
    case ExchangeDoes(e) => s.(x := X.Apply(s.x, e))
  }

  /** After the verified startup cleanup: nothing open, nothing on the wire, and
      trading paused on transport, market data and risk data. The poller was started
      before, so readings may be in flight or published already. */
  predicate Initial(s: Sys) {
    && Configured(s.acct.m.cfg)
    && s.acct == Account(
         Manager(s.acct.m.cfg, [None, None], [None, None], 1, 0, Stats(0, 0, 0, 0, 0, 0),
                 Exec({OrderWebSocket, MarketData, RiskData}, 3, false), 0, None, None), false, 0)
    && s.main == AtRest && s.queue == [] && s.requests == [] && s.results == []
    && s.exec == Idle && s.lock == Free && s.worker == Sleeping
    && s.socket == S.Socket(map[], {}, 0) && s.link == Down && s.mail == [] && s.told == {} && s.cut == 0
    && s.feed.seen == 0 && (s.feed.known ==> s.feed.position == s.x.base)
    && (s.feed.poll.PollRead? ==> s.feed.poll.seen == 0 && s.feed.poll.position == s.x.base)
    && (s.feed.poll.PollStored? ==> s.feed.known)
    && s.x == X.Exchange({}, {}, {}, {}, map[], [], s.x.base)
    && s.delivered == {} && s.issued == [] && s.written == {}
  }

  ghost predicate Run(states: seq<Sys>, steps: seq<Step>) {
    && |states| == |steps| + 1
    && Initial(states[0])
    && forall n :: 0 <= n < |steps| ==>
         Enabled(states[n], steps[n]) && Configured(states[n].acct.m.cfg) && states[n + 1] == Apply(states[n], steps[n])
  }

  /** The step misreads no response: if one comes in without its method and a known
      request id, no acceptance is taken for a cancel's answer and no failed cancel
      for a submission's. */
  predicate WellRead(s: Sys, step: Step) {
    step.SocketDoes? && step.socket.Respond? ==> !C.Misread(s.socket, step.socket.r, step.socket.about)
  }

  /** A run in which no response among the first `n` steps is misread. */
  ghost predicate WellReadRun(states: seq<Sys>, steps: seq<Step>, n: nat) {
    Run(states, steps) && n <= |steps| && forall k :: 0 <= k < n ==> WellRead(states[k], steps[k])
  }
}
