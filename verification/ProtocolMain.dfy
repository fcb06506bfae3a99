// The event loop's handlers and account-level steps keep the invariant.
module ProtocolMain {
  import opened Orders
  import opened ExecutionState
  import opened ManagerModel
  import opened ManagerInvariants
  import opened HandlerProofs
  import opened Protocol
  import opened ProtocolInvariants
  import opened EventLoop
  import C = Correspondence
  import ProtocolWorkers
  import S = OrderSocket
  import X = Exchange

  // ------------------------------------------------- any tightening handler

  /** What any handler does to the manager, however the event came about. */
  ghost predicate Follows(m: Manager, m1: Manager) {
    && Sound(m1) && m1.nextNumber == m.nextNumber && Tightens(m.exec, m1.exec)
    && Tracked(m1) <= Tracked(m)
  }

  /** What a handler may do to the manager when its event is true. */
  ghost predicate Handles(s: Sys, m1: Manager, delivered: set<nat>) {
    var m := s.acct.m;
    && Follows(m, m1)
    && (m1.gate == m.gate || Rearmed(s, m1))
    && (forall o :: o in Tracked(m) - Tracked(m1) ==> MayRelease(s, m1, o))
    && s.delivered <= delivered && (forall i :: i in delivered ==> i < |s.x.log|)
    && (delivered == s.delivered || Rearmed(s, m1))
  }

  predicate Rearmed(s: Sys, m1: Manager) {
    m1.gate.Some? && m1.gate.value >= s.feed.version + 2
  }

  /** A slot may be given up only for an order the exchange is done with, and
      only if its fills were all delivered, or the gate is armed anew, or a
      reconciliation is under way. */
  ghost predicate MayRelease(s: Sys, m1: Manager, o: Order) {
    && o in s.x.accepted + s.x.rejected && o !in s.x.open
    && (|| Rearmed(s, m1)
        || Reconciliation in s.acct.m.exec.pauses
        || (forall i :: 0 <= i < |s.x.log| && s.x.log[i].order == o ==> i in s.delivered))
  }

  /** The system after a handler: the manager, the fills delivered, the mail left. */
  function After(s: Sys, m1: Manager, delivered: set<nat>, mail: seq<Mail>): Sys {
    WithManager(s, m1).(delivered := delivered, mail := mail)
  }

  lemma HandlerKeepsTags(issued: seq<Order>, queue: seq<Msg>, pc: ExecPc, e: Exec, e1: Exec)
    requires Stale(issued, queue, pc, e) && Tightens(e, e1)
    ensures Stale(issued, queue, pc, e1)
    ensures Current(queue, e1.generation) <= Current(queue, e.generation)
    ensures InHand(pc, e1.generation) <= InHand(pc, e.generation)
    ensures e1 != e ==>
      Current(queue, e1.generation) == {}
        && InHand(pc, e1.generation) <= (if pc.Permitted? || pc.Inserted? then {pc.order} else {})
  {
  }

  lemma HandlerKeepsCore(s: Sys, m1: Manager, delivered: set<nat>, mail: seq<Mail>)
    requires Core(s) && Follows(s.acct.m, m1)
    ensures Core(After(s, m1, delivered, mail))
  {
    hide Tracked, Sound, X.Sane, Current, FreshQueue;
    var t := After(s, m1, delivered, mail);
    HandlerKeepsTags(s.issued, s.queue, s.exec, s.acct.m.exec, m1.exec);
    assert KnownOrders(t) <= KnownOrders(s);
  }

  lemma HandlerKeepsStray(s: Sys, m1: Manager, delivered: set<nat>, mail: seq<Mail>)
    requires Core(s) && NoStray(s) && Handles(s, m1, delivered)
    ensures NoStray(After(s, m1, delivered, mail))
  {
    hide Tracked, Sound, X.Sane, Current;
    var t := After(s, m1, delivered, mail);
    HandlerKeepsTags(s.issued, s.queue, s.exec, s.acct.m.exec, m1.exec);
    forall o | o in Outstanding(t)
      ensures o in Tracked(m1)
    {
      assert o in Outstanding(s);
      if o !in Tracked(m1) {
        StillOut(s, m1, o);
      }
    }
  }

  /** An outstanding order is never one that may be released. */
  lemma StillOut(s: Sys, m1: Manager, o: Order)
    requires Core(s) && o in Outstanding(s)
    ensures !MayRelease(s, m1, o)
  {
    hide Tracked, Sound;
  }

  lemma HandlerKeepsCleanup(s: Sys, m1: Manager, delivered: set<nat>, mail: seq<Mail>)
    requires CleanupPart(s)
    ensures CleanupPart(After(s, m1, delivered, mail))
  {
    hide Tracked, Sound, MayRelease;
  }

  lemma HandlerKeepsPosition(s: Sys, m1: Manager, delivered: set<nat>, mail: seq<Mail>)
    requires PositionPart(s) && s.main.AtRest? && Sound(s.acct.m) && Handles(s, m1, delivered)
    ensures PositionPart(After(s, m1, delivered, mail))
  {
    hide Tracked, SlotsSound, PendingCount, FeedTrue;
    var t := After(s, m1, delivered, mail);
    forall i | 0 <= i < |t.x.log| && (t.x.log[i].order !in Tracked(m1) || i in delivered)
      ensures Covered(m1, t.feed, i)
    {
      if !Rearmed(s, m1) {
        var o := s.x.log[i].order;
        if o in Tracked(s.acct.m) && o !in Tracked(m1) {
          assert MayRelease(s, m1, o);
        }
        assert Covered(s.acct.m, s.feed, i);
      }
    }
  }

  lemma HandlerKeeps(s: Sys, m1: Manager, delivered: set<nat>, mail: seq<Mail>)
    requires Base(s) && s.main.AtRest? && Handles(s, m1, delivered)
    ensures Base(After(s, m1, delivered, mail))
  {
    hide Stale, FreshQueue, NoStray, CleanupPart, PositionPart;
    HandlerKeepsCore(s, m1, delivered, mail);
    HandlerKeepsStray(s, m1, delivered, mail);
    HandlerKeepsCleanup(s, m1, delivered, mail);
    HandlerKeepsPosition(s, m1, delivered, mail);
  }

  /** A step that touches only the manager and the pause state, and releases nothing. */
  lemma QuietHandlerKeeps(s: Sys, m1: Manager)
    requires Base(s) && s.main.AtRest? && Follows(s.acct.m, m1) && Tracked(m1) == Tracked(s.acct.m)
    requires m1.gate == s.acct.m.gate || Rearmed(s, m1)
    ensures Base(WithManager(s, m1))
  {
    hide Tracked, Core, NoStray, CleanupPart, Follows;
    HandlerKeeps(s, m1, s.delivered, s.mail);
  }

  // ------------------------------------------------------- reconciliation begins

  lemma BeginKeepsCore(s: Sys)
    requires Core(s)
    ensures Core(Begin(s))
    ensures Reconciliation in Begin(s).acct.m.exec.pauses
  {
    var m1 := BeginAccount(s.acct, s.feed.version).0.m;
    BeginKeeps(s.acct, s.feed.version);
    HandlerKeepsCore(s, m1, s.delivered, s.mail);
    var t := WithManager(s, m1);
    assert t == After(s, m1, s.delivered, s.mail);
    hide Books, Stale, FreshQueue;
    BooksSame(t, Begin(s));
  }

  lemma BooksSame(t: Sys, u: Sys)
    requires Books(t) && u.acct.m == t.acct.m && u.x == t.x && u.written == t.written
    requires u.issued == t.issued && u.queue == t.queue && u.exec == t.exec
    ensures Books(u)
  {
  }

  lemma BeginKeepsBase(s: Sys)
    requires Base(s) && s.main.AtRest?
    ensures Base(Begin(s))
  {
    hide Stale, FreshQueue, Registry, FeedTrue, Locks;
    BeginKeepsCore(s);
    BeginKeeps(s.acct, s.feed.version);
    var m1 := BeginAccount(s.acct, s.feed.version).0.m;
    QuietHandlerKeeps(s, m1);
    var t, u := WithManager(s, m1), Begin(s);
    hide Core, Handles;
    assert Outstanding(u) == Outstanding(t);
  }

  // --------------------------------------------------------- serving an event

  /** Serving an event keeps numbers and tags whatever the event says. */
  lemma ServeKeepsCore(s: Sys)
    requires Core(s) && s.mail != []
    ensures Core(Serve(s))
  {
    var Mail(event, about) := s.mail[0];
    var (m1, begin) := Handle(s.acct.m, event, s.feed.version);
    HandleKeeps(s.acct.m, event, s.feed.version);
    var delivered := if event.OrderFilledEvent? && about.OnFill? then s.delivered + {about.index} else s.delivered;
    var t := After(s, m1, delivered, s.mail[1..]);
    hide Handle, Sound, Tracked;
    if event.Authenticated? {
      LoosenKeepsCore(s, m1);
      ServedCore(WithManager(s, m1), t);
    } else {
      HandlerKeepsCore(s, m1, delivered, s.mail[1..]);
    }
    if begin {
      BeginKeepsCore(t);
    }
  }

  lemma ServedCore(t: Sys, u: Sys)
    requires Core(t) && u == t.(delivered := u.delivered, mail := u.mail)
    ensures Core(u)
  {
    hide Stale, FreshQueue;
    BooksSame(t, u);
  }

  lemma PlaceInTracked(m: Manager, key: Key, o: Order)
    requires o in Released(m, key)
    ensures o in Tracked(m)
    ensures key.ByClient? ==> o.id == key.id
    ensures exists p: Place :: p.level < MAX_ORDER_LEVELS && Hit(key, At(m, p)) && At(m, p).value.ord == o
  {
    var p := Find(m, key).value;
    assert p.level == 0 || p.level == 1;
  }

  /** An order named by a true event is the order the slots know under that name. */
  lemma SameIdSameOrder(s: Sys, o: Order, d: Order)
    requires Books(s) && o in Tracked(s.acct.m) && d in s.x.accepted + s.x.rejected && o.id == d.id
    ensures o == d
  {
    assert d in KnownOrders(s) && o in KnownOrders(s);
    SameNumberSameOrder(s.issued, o, d);
  }

  lemma SameNumberSameSlotOrder(s: Sys, p: Place, d: Order, number: int)
    requires Books(s) && NumbersTrue(s) && p.level < MAX_ORDER_LEVELS
    requires At(s.acct.m, p).Some? && At(s.acct.m, p).value.orderId == Some(number) && d in s.x.ids
    requires s.x.ids[d] == number
    ensures At(s.acct.m, p).value.ord == d
  {
    assert p.level == 0 || p.level == 1;
  }

  /** What a key releases is the order the key names. */
  lemma ReleasedIsNamed(s: Sys, key: Key, orderId: int, client: Option<ClientId>, d: Order, o: Order)
    requires Books(s) && NumbersTrue(s) && d in s.x.accepted + s.x.rejected && o in Released(s.acct.m, key)
    requires C.NamedBy(s.x, d, orderId, client)
    requires key == ByFill(orderId, client) || (key == ByExchange(orderId))
      || (client.Some? && key == ByClient(client.value))
    ensures o == d
  {
    PlaceInTracked(s.acct.m, key, o);
    var p: Place :| p.level < MAX_ORDER_LEVELS && Hit(key, At(s.acct.m, p)) && At(s.acct.m, p).value.ord == o;
    if client.Some? && o.id == client.value {
      hide Sound, X.Sane;
      SameIdSameOrder(s, o, d);
    } else {
      ZeroIsUnbound(s.acct.m, p);
      SameNumberSameSlotOrder(s, p, d, orderId);
    }
  }

  lemma ZeroIsUnbound(m: Manager, p: Place)
    requires Sound(m) && p.level < MAX_ORDER_LEVELS && At(m, p).Some?
    ensures At(m, p).value.orderId != Some(0)
  {
    assert p.level == 0 || p.level == 1;
  }

  lemma {:induction false} NoFillsUnlessAccepted(s: Sys, o: Order)
    requires X.Sane(s.x) && o in s.x.rejected
    ensures forall i :: 0 <= i < |s.x.log| ==> s.x.log[i].order != o
  {
  }

  /** Every order a true event takes out of the slots is one the exchange is done
      with, and its fills were delivered before or a refresh is on its way. */
  lemma GoneMayGo(s: Sys, m1: Manager, o: Order)
    requires Books(s) && MailPart(s) && s.mail != []
    requires o in Gone(s.acct.m, s.mail[0].event)
    requires s.mail[0].event.OrderFilledEvent? ==> Rearmed(s, m1)
    ensures MayRelease(s, m1, o)
  {
    hide Sound, Registry;
    var Mail(e, about) := s.mail[0];
    assert Trusted(s.x, s.mail[0]);
    if e.OrderRejected? {
      ReleasedIsNamed(s, ByClient(e.id), 0, Some(e.id), about.order, o);
      NoFillsUnlessAccepted(s, o);
    } else if e.OrderFilledEvent? {
      assert s.x.log[about.index].order in s.x.accepted;
      ReleasedIsNamed(s, ByFill(e.orderId, e.client), e.orderId, e.client, s.x.log[about.index].order, o);
    } else {
      var key := if e.client.Some? && Released(s.acct.m, ByClient(e.client.value)) != {} then ByClient(e.client.value)
        else ByExchange(e.orderId);
      ReleasedIsNamed(s, key, e.orderId, e.client, about.order, o);
      PlaceInTracked(s.acct.m, key, o);
      forall i | 0 <= i < |s.x.log| && s.x.log[i].order == o
        ensures i in s.delivered || Reconciliation in s.acct.m.exec.pauses
      {
        assert InTime(s, 0, i);
      }
    }
  }

  /** The system once the event is served, before any reconciliation begins. */
  function Served(s: Sys): Sys
    requires s.mail != []
  {
    var Mail(event, about) := s.mail[0];
    After(s, Handle(s.acct.m, event, s.feed.version).0,
          if event.OrderFilledEvent? && about.OnFill? then s.delivered + {about.index} else s.delivered, s.mail[1..])
  }

  lemma ServeKeepsBase(s: Sys)
    requires Inv(s) && s.main.AtRest? && s.mail != []
    ensures Base(Serve(s))
  {
    hide Inv, Base, Served, Begin, Handle;
    assert Serve(s)
      == (if Handle(s.acct.m, s.mail[0].event, s.feed.version).1 then Begin(Served(s)) else Served(s)) by {
      ServeIs(s);
    }
    ServedKeepsBase(s);
    if Handle(s.acct.m, s.mail[0].event, s.feed.version).1 {
      assert Served(s).main == s.main by {
        ServeIs(s);
      }
      BeginKeepsBase(Served(s));
    }
  }

  lemma ServeIs(s: Sys)
    requires s.mail != []
    ensures Serve(s) == if Handle(s.acct.m, s.mail[0].event, s.feed.version).1 then Begin(Served(s)) else Served(s)
    ensures Served(s).main == s.main
  {
    hide Handle, Begin;
  }

  lemma ServedKeepsBase(s: Sys)
    requires Inv(s) && s.main.AtRest? && s.mail != []
    ensures Base(Served(s))
  {
    hide Base, Handles, MailPart, Handle;
    var m1 := Handle(s.acct.m, s.mail[0].event, s.feed.version).0;
    if s.mail[0].event.Authenticated? {
      AuthenticatedServed(s);
      AuthenticatedKeeps(s, m1, Served(s));
    } else {
      EventMay(s);
      HandlerKeeps(s, m1, Served(s).delivered, s.mail[1..]);
    }
  }

  lemma AuthenticatedServed(s: Sys)
    requires s.mail != [] && s.mail[0].event.Authenticated?
    ensures Handle(s.acct.m, s.mail[0].event, s.feed.version).0
      == s.acct.m.(exec := s.acct.m.exec.ClearPause(OrderWebSocket))
  {
  }

  /** A true event asks of the manager only what it may do. */
  lemma EventMay(s: Sys)
    requires Inv(s) && s.mail != [] && !s.mail[0].event.Authenticated?
    ensures Handles(s, Handle(s.acct.m, s.mail[0].event, s.feed.version).0, Served(s).delivered)
  {
    hide Handle, Sound, Tracked, Gone, Registry, Stale, FreshQueue, NoStray, CleanupPart, PositionPart, Handles, X.Sane;
    var Mail(event, about) := s.mail[0];
    HandleKeeps(s.acct.m, event, s.feed.version);
    assert Trusted(s.x, s.mail[0]);
    var m1 := Handle(s.acct.m, event, s.feed.version).0;
    forall o | o in Tracked(s.acct.m) - Tracked(m1)
      ensures MayRelease(s, m1, o)
    {
      GoneMayGo(s, m1, o);
    }
    hide MayRelease, MailPart, Core;
    ServedHandles(s, m1, Served(s).delivered);
  }

  lemma ServedHandles(s: Sys, m1: Manager, delivered: set<nat>)
    requires Base(s) && Follows(s.acct.m, m1) && (m1.gate == s.acct.m.gate || Rearmed(s, m1))
    requires forall o :: o in Tracked(s.acct.m) - Tracked(m1) ==> MayRelease(s, m1, o)
    requires s.delivered <= delivered && (forall i :: i in delivered ==> i in s.delivered || i < |s.x.log|)
    requires delivered == s.delivered || Rearmed(s, m1)
    ensures Handles(s, m1, delivered)
  {
    hide Tracked, Sound, Follows, MayRelease;
  }

  // ------------------------------------------------------- handlers of one kind

  lemma RestObservesKeeps(s: Sys, o: Order)
    requires Base(s) && s.main.AtRest? && o in s.x.ids
    ensures Base(WithManager(s, OnAccepted(s.acct.m, o.id, s.x.ids[o]).0))
  {
    AcceptedKeeps(s.acct.m, o.id, s.x.ids[o]);
    QuietHandlerKeeps(s, OnAccepted(s.acct.m, o.id, s.x.ids[o]).0);
  }

  lemma RefreshStepKeeps(s: Sys)
    requires Base(s) && s.main.AtRest?
    ensures Base(WithManager(s, RequireRefresh(s.acct.m, s.feed.version)))
  {
    RefreshKeeps(s.acct.m, s.feed.version);
    QuietHandlerKeeps(s, RequireRefresh(s.acct.m, s.feed.version));
  }

  lemma PauseKeeps(s: Sys, reason: PauseReason)
    requires Base(s) && s.main.AtRest?
    ensures Base(WithManager(s, s.acct.m.(exec := s.acct.m.exec.SetPause(reason))))
  {
    PausingKeeps(s.acct.m, reason);
    QuietHandlerKeeps(s, s.acct.m.(exec := s.acct.m.exec.SetPause(reason)));
  }

  lemma ShutDownKeeps(s: Sys)
    requires Base(s) && s.main.AtRest?
    ensures Base(WithManager(s, s.acct.m.(exec := s.acct.m.exec.Stop())))
  {
    StopFollows(s.acct.m);
    QuietHandlerKeeps(s, s.acct.m.(exec := s.acct.m.exec.Stop()));
  }

  lemma StopFollows(m: Manager)
    requires Sound(m)
    ensures var m1 := m.(exec := m.exec.Stop()); Follows(m, m1) && Tracked(m1) == Tracked(m)
  {
    CarrySlots(m, m.(exec := m.exec.Stop()));
  }

  lemma PrecisionFollows(m: Manager, lot: real, minQty: real)
    requires Sound(m) && lot > 0.0
    ensures var m1 := m.(cfg := m.cfg.(lot := lot, minQty := minQty)); Follows(m, m1) && Tracked(m1) == Tracked(m)
  {
    CarrySlots(m, m.(cfg := m.cfg.(lot := lot, minQty := minQty)));
  }

  lemma PrecisionKeeps(s: Sys, lot: real, minQty: real)
    requires Base(s) && s.main.AtRest? && lot > 0.0
    ensures Base(WithManager(s, s.acct.m.(cfg := s.acct.m.cfg.(lot := lot, minQty := minQty))))
  {
    PrecisionFollows(s.acct.m, lot, minQty);
    QuietHandlerKeeps(s, s.acct.m.(cfg := s.acct.m.cfg.(lot := lot, minQty := minQty)));
  }

  lemma RestConfirmsKeeps(s: Sys, ids: set<ClientId>)
    requires Base(s) && ids <= Ids(s.x.accepted)
    ensures Base(s.(socket := S.DropConfirmed(s.socket, ids)))
  {
    IdsSubset(s.x.accepted, s.x.accepted + s.x.rejected);
    ProtocolWorkers.ForgetDecided(s, ids);
    var t := s.(socket := S.DropConfirmed(s.socket, ids));
    BooksSame(s, t);
  }

  // ------------------------------------------- steps that may loosen a pause

  /** What a step that neither issues nor releases may do to the pause state. */
  predicate Loosens(e: Exec, e1: Exec) {
    && e1.generation >= e.generation
    && (Blocked(e1) ==> Blocked(e) || e1.generation > e.generation)
  }

  lemma LoosenKeepsCore(s: Sys, m1: Manager)
    requires Core(s) && Sound(m1) && m1.nextNumber == s.acct.m.nextNumber
    requires Loosens(s.acct.m.exec, m1.exec) && Tracked(m1) == Tracked(s.acct.m)
    requires Reconciliation in s.acct.m.exec.pauses ==> Reconciliation in m1.exec.pauses
    ensures Core(WithManager(s, m1))
  {
    hide Tracked, Sound, X.Sane, FreshQueue;
    var t := WithManager(s, m1);
    LoosenKeepsTags(s.issued, s.queue, s.exec, s.acct.m.exec, m1.exec);
    assert KnownOrders(t) == KnownOrders(s);
  }

  lemma LoosenKeepsStray(s: Sys, m1: Manager)
    requires NoStray(s) && Stale(s.issued, s.queue, s.exec, s.acct.m.exec)
    requires Loosens(s.acct.m.exec, m1.exec) && Tracked(m1) == Tracked(s.acct.m)
    ensures NoStray(WithManager(s, m1))
  {
    hide Tracked, Current;
    LoosenKeepsTags(s.issued, s.queue, s.exec, s.acct.m.exec, m1.exec);
  }

  lemma LoosenKeepsTags(issued: seq<Order>, queue: seq<Msg>, pc: ExecPc, e: Exec, e1: Exec)
    requires Stale(issued, queue, pc, e) && Loosens(e, e1)
    ensures Stale(issued, queue, pc, e1)
    ensures Current(queue, e1.generation) <= Current(queue, e.generation)
    ensures InHand(pc, e1.generation) <= InHand(pc, e.generation)
  {
  }

  lemma ResumeKeeps(s: Sys, reason: PauseReason)
    requires Base(s) && s.main.AtRest? && (reason == OrderWebSocket || reason == MarketData)
    ensures Base(WithManager(s, s.acct.m.(exec := s.acct.m.exec.ClearPause(reason))))
  {
    var m1 := s.acct.m.(exec := s.acct.m.exec.ClearPause(reason));
    ResumingKeeps(s.acct.m, reason);
    hide Sound, Tracked, Stale, FreshQueue, Registry, X.Sane;
    LoosenKeepsCore(s, m1);
    LoosenKeepsStray(s, m1);
    ResumeKeepsRest(s, m1);
  }

  lemma AuthenticatedKeeps(s: Sys, m1: Manager, t: Sys)
    requires Base(s) && s.main.AtRest? && m1 == s.acct.m.(exec := s.acct.m.exec.ClearPause(OrderWebSocket))
    requires t == WithManager(s, m1).(mail := t.mail)
    ensures Base(t)
  {
    ResumeKeeps(s, OrderWebSocket);
    var u := WithManager(s, m1);
    hide Stale, FreshQueue, FeedTrue, Tracked;
    BooksSame(u, t);
    assert Outstanding(t) == Outstanding(u);
  }

  lemma ResumeKeepsRest(s: Sys, m1: Manager)
    requires CleanupPart(s) && PositionPart(s) && s.main.AtRest?
    requires m1.gate == s.acct.m.gate && Tracked(m1) == Tracked(s.acct.m)
    requires forall r: PauseReason :: (r == RiskData || r == Reconciliation) && r in s.acct.m.exec.pauses ==>
      r in m1.exec.pauses
    ensures CleanupPart(WithManager(s, m1)) && PositionPart(WithManager(s, m1))
  {
    hide Tracked, FeedTrue;
  }

  /** The gate opens only once enough publications have been counted, and by then
      every fill it was armed for is in the published position. */
  lemma OpenedGateCovers(m: Manager, m1: Manager, f: Feed, i: nat)
    requires Covered(m, f, i)
    requires m1.gate == m.gate || (m.gate.Some? && m.gate.value <= f.version && m1.gate == None)
    requires Reconciliation in m.exec.pauses ==> Reconciliation in m1.exec.pauses
    ensures Covered(m1, f, i)
  {
  }

  lemma RiskCheckKeeps(s: Sys, sourcesFresh: bool)
    requires Base(s) && s.main.AtRest? && (sourcesFresh ==> s.feed.known)
    ensures Base(WithManager(s, RiskTick(s.acct.m, sourcesFresh, s.feed.version, s.feed.position).0))
  {
    hide Tracked, Sound, Stale, FreshQueue, Registry, X.Sane, FeedTrue;
    var m1 := RiskTick(s.acct.m, sourcesFresh, s.feed.version, s.feed.position).0;
    RiskTickKeeps(s.acct.m, sourcesFresh, s.feed.version, s.feed.position);
    assert RiskData !in m1.exec.pauses ==> sourcesFresh;
    hide RiskTick;
    LoosenKeepsCore(s, m1);
    LoosenKeepsStray(s, m1);
    hide Core, NoStray;
    RiskCheckPosition(s, m1);
  }

  lemma RiskCheckPosition(s: Sys, m1: Manager)
    requires Accounted(s) && Tracked(m1) == Tracked(s.acct.m)
    requires m1.gate == s.acct.m.gate
      || (s.acct.m.gate.Some? && s.acct.m.gate.value <= s.feed.version && m1.gate == None)
    requires Reconciliation in s.acct.m.exec.pauses ==> Reconciliation in m1.exec.pauses
    ensures Accounted(WithManager(s, m1))
  {
    hide Tracked;
    forall i | 0 <= i < |s.x.log| && (s.x.log[i].order !in Tracked(m1) || i in s.delivered)
      ensures Covered(m1, s.feed, i)
    {
      OpenedGateCovers(s.acct.m, m1, s.feed, i);
    }
  }

  // -------------------------------------------------------------- finishing

  lemma FinishKeepsCore(s: Sys)
    requires Core(s) && s.results != []
    ensures Core(Finish(s))
  {
    hide Sound, X.Sane, FreshQueue;
    FinishKeeps(s.acct, s.feed.version);
    var m1 := FinishAccount(s.acct, s.feed.version).m;
    assert Loosens(s.acct.m.exec, m1.exec);
    LoosenKeepsTags(s.issued, s.queue, s.exec, s.acct.m.exec, m1.exec);
    assert KnownOrders(Finish(s)) <= KnownOrders(s);
  }

  function Finish(s: Sys): Sys
    requires s.results != []
  {
    s.(results := s.results[1..], socket := S.ClearTracking(s.socket), acct := FinishAccount(s.acct, s.feed.version))
  }

  lemma FinishIs(s: Sys)
    requires Core(s) && s.results != [] && MainEnabled(s, FinishReconciling) && Configured(s.acct.m.cfg)
    ensures MainApply(s, FinishReconciling) == Finish(s)
  {
  }

  lemma NothingCurrent(s: Sys)
    requires Stale(s.issued, s.queue, s.exec, s.acct.m.exec) && WorkerKnows(s) && Tokens(s) && s.results != []
    ensures Current(s.queue, s.acct.m.exec.generation) == {}
    ensures InHand(s.exec, s.acct.m.exec.generation) == {}
    ensures s.x.wire == {} && s.x.open == {}
  {
    assert s.acct.pending;
  }

  /** When a result arrives nothing is open, on the wire or still permitted, so
      emptying every slot loses no order; the re-armed gate covers every fill. */
  lemma FinishKeepsStray(s: Sys)
    requires Core(s) && WorkerKnows(s) && s.results != []
    ensures Outstanding(Finish(s)) == {}
  {
    FinishKeeps(s.acct, s.feed.version);
    NothingCurrent(s);
    var m1 := FinishAccount(s.acct, s.feed.version).m;
    LoosenKeepsTags(s.issued, s.queue, s.exec, s.acct.m.exec, m1.exec);
  }

  lemma FinishArms(s: Sys)
    requires Books(s)
    ensures var a1 := FinishAccount(s.acct, s.feed.version);
      && Rearmed(s, a1.m) && RiskData in a1.m.exec.pauses && Tracked(a1.m) == {}
      && !a1.pending && a1.generation == s.acct.generation
  {
    FinishKeeps(s.acct, s.feed.version);
  }

  lemma FinishKeepsRest(s: Sys, a1: Account)
    requires CleanupPart(s) && Tokens(s) && PositionPart(s) && s.main.AtRest? && s.results != []
    requires Rearmed(s, a1.m) && RiskData in a1.m.exec.pauses
    ensures var t := s.(results := s.results[1..], socket := S.ClearTracking(s.socket), acct := a1);
      CleanupPart(t) && PositionPart(t)
  {
    hide Tracked;
  }

  lemma FinishStepKeeps(s: Sys)
    requires Base(s) && s.main.AtRest? && s.results != []
    ensures Base(Finish(s))
  {
    hide Stale, FreshQueue, Registry, Sound, X.Sane, FinishAccount, Tracked;
    FinishKeepsCore(s);
    FinishKeepsStray(s);
    FinishArms(s);
    FinishKeepsRest(s, FinishAccount(s.acct, s.feed.version));
  }
}
