// Quoting and dispatch: fresh orders enter the slots and the executor's queue
// together, and what a full queue drops leaves both.
module ProtocolQuoting {
  import opened Orders
  import opened ExecutionState
  import opened ManagerModel
  import opened ManagerInvariants
  import opened Reservation
  import opened HandlerProofs
  import opened Protocol
  import opened ProtocolInvariants
  import opened ProtocolMain
  import Laws = HandlerLaws
  import S = OrderSocket
  import X = Exchange

  // --------------------------------------------------------------- dispatch

  function MsgOrders(msgs: seq<Msg>): set<Order> {
    set k | 0 <= k < |msgs| && msgs[k].decision.Send? :: msgs[k].decision.order
  }

  ghost predicate Dispatched(m: Manager, ds: seq<Decision>, m1: Manager, msgs: seq<Msg>) {
    && Sound(m1)
    && m1 == m.(bids := m1.bids, asks := m1.asks)
    && Tracked(m1) == Tracked(m) - (SetOf(Sends(ds)) - MsgOrders(msgs))
    && MsgOrders(msgs) <= Tracked(m1)
    && MsgOrders(msgs) <= SetOf(Sends(ds))
    && (forall k :: 0 <= k < |msgs| ==> msgs[k].tag == m.exec.generation)
    && Upward(msgs)
  }

  predicate Upward(msgs: seq<Msg>) {
    forall j, k :: 0 <= j < k < |msgs| && msgs[j].decision.Send? && msgs[k].decision.Send? ==>
      msgs[j].decision.order.id.number < msgs[k].decision.order.id.number
  }

  lemma SameNumberSameSlot(m: Manager, a: Order, b: Order)
    requires SlotsSound(m) && a in Tracked(m) && b in Tracked(m) && a.id.number == b.id.number
    ensures a == b
  {
  }

  lemma DropOne(m: Manager, o: Order)
    requires Sound(m) && o in Tracked(m)
    ensures Tracked(OnDispatchFailed(m, Send(o))) == Tracked(m) - {o}
  {
    DispatchFailedKeeps(m, Send(o));
    ClearedIdIsGone(m, o.id);
    forall r | r in Released(m, ByClient(o.id))
      ensures r == o
    {
      PlaceInTracked(m, ByClient(o.id), r);
      SameNumberSameSlot(m, r, o);
    }
  }

  lemma DispatchFailedOnlySlots(m: Manager, d: Decision)
    requires Sound(m)
    ensures var m1 := OnDispatchFailed(m, d); m1 == m.(bids := m1.bids, asks := m1.asks)
  {
    if d.Send? {
      ClearKeeps(m, ByClient(d.order.id));
    }
  }

  lemma OneMoreRefused(tracked: set<Order>, sends: set<Order>, queued: set<Order>, o: Order)
    requires o !in queued
    ensures tracked - (sends - queued) - {o} == tracked - (sends + {o} - queued)
  {
  }

  lemma OneMoreQueued(tracked: set<Order>, sends: set<Order>, queued: set<Order>, o: Order)
    requires o !in sends
    ensures tracked - (sends - queued) == tracked - (sends + {o} - (queued + {o}))
  {
  }

  lemma DropStep(m: Manager, ds: seq<Decision>, m1: Manager, msgs: seq<Msg>, from: nat, generation: nat)
    requires ds != [] && Dispatched(m, ds[..|ds| - 1], m1, msgs)
    requires Numbered(Sends(ds), from, generation) && SetOf(Sends(ds)) <= Tracked(m)
    ensures Dispatched(m, ds, OnDispatchFailed(m1, ds[|ds| - 1]), msgs)
  {
    hide Sound, Sends, Numbered, OnDispatchFailed, Tracked, MsgOrders, Upward, SetOf, Released;
    var d := ds[|ds| - 1];
    var m2 := OnDispatchFailed(m1, d);
    DispatchFailedKeeps(m1, d);
    DispatchFailedOnlySlots(m1, d);
    SendsLast(ds, from, generation);
    var earlier := SetOf(Sends(ds[..|ds| - 1]));
    if d.Send? {
      assert d.order in Tracked(m1);
      DropOne(m1, d.order);
      OneMoreRefused(Tracked(m), earlier, MsgOrders(msgs), d.order);
    } else {
      assert earlier + {} == earlier;
    }
  }

  /** The last decision's order, if it is a send, is not among the earlier ones. */
  lemma SendsLast(ds: seq<Decision>, from: nat, generation: nat)
    requires ds != [] && Numbered(Sends(ds), from, generation)
    ensures var d := ds[|ds| - 1]; var earlier := Sends(ds[..|ds| - 1]);
      && Numbered(earlier, from, generation)
      && SetOf(Sends(ds)) == SetOf(earlier) + (if d.Send? then {d.order} else {})
      && (d.Send? ==> d.order !in SetOf(earlier) && forall o :: o in SetOf(earlier) ==> o.id.number < d.order.id.number)
  {
    var d := ds[|ds| - 1];
    var earlier := Sends(ds[..|ds| - 1]);
    hide SetOf, Numbered;
    if d.Send? {
      assert Sends(ds) == earlier + [d.order];
      NumberedPush(earlier, d.order, from, generation);
    } else {
      assert Sends(ds) == earlier + [] == earlier;
      assert SetOf(earlier) + {} == SetOf(earlier);
    }
  }

  lemma NumberedPush(earlier: seq<Order>, o: Order, from: nat, generation: nat)
    requires Numbered(earlier + [o], from, generation)
    ensures Numbered(earlier, from, generation)
    ensures SetOf(earlier + [o]) == SetOf(earlier) + {o}
    ensures forall p :: p in SetOf(earlier) ==> p.id.number < o.id.number
  {
    var all := earlier + [o];
    assert all[|earlier|] == o && forall i :: 0 <= i < |earlier| ==> all[i] == earlier[i];
  }

  lemma KeepStep(m: Manager, ds: seq<Decision>, m1: Manager, msgs: seq<Msg>, from: nat, generation: nat)
    requires ds != [] && Dispatched(m, ds[..|ds| - 1], m1, msgs)
    requires Numbered(Sends(ds), from, generation) && SetOf(Sends(ds)) <= Tracked(m)
    ensures Dispatched(m, ds, m1, msgs + [Msg(m1.exec.generation, ds[|ds| - 1])])
  {
    hide Sound, Tracked, Sends, Numbered, Upward, MsgOrders, SetOf;
    var d := ds[|ds| - 1];
    SendsLast(ds, from, generation);
    var earlier := SetOf(Sends(ds[..|ds| - 1]));
    if d.Send? {
      OneMoreQueued(Tracked(m), earlier, MsgOrders(msgs), d.order);
    } else {
      assert earlier + {} == earlier && MsgOrders(msgs) + {} == MsgOrders(msgs);
    }
    MsgOrdersPush(msgs, Msg(m1.exec.generation, d));
    UpwardPush(msgs, Msg(m1.exec.generation, d));
  }

  lemma UpwardPush(msgs: seq<Msg>, m: Msg)
    requires Upward(msgs)
    requires m.decision.Send? ==> forall o :: o in MsgOrders(msgs) ==> o.id.number < m.decision.order.id.number
    ensures Upward(msgs + [m])
  {
    var all := msgs + [m];
    forall j, k | 0 <= j < k < |all| && all[j].decision.Send? && all[k].decision.Send?
      ensures all[j].decision.order.id.number < all[k].decision.order.id.number
    {
      assert all[j] == msgs[j];
      if k == |msgs| {
        assert msgs[j].decision.order in MsgOrders(msgs);
      }
    }
  }

  lemma MsgOrdersPush(msgs: seq<Msg>, m: Msg)
    ensures MsgOrders(msgs + [m]) == MsgOrders(msgs) + (if m.decision.Send? then {m.decision.order} else {})
  {
    var all := msgs + [m];
    assert forall k :: 0 <= k < |msgs| ==> all[k] == msgs[k];
    assert all[|msgs|] == m;
    forall o | o in MsgOrders(msgs)
      ensures o in MsgOrders(all)
    {
      var k :| 0 <= k < |msgs| && msgs[k].decision.Send? && msgs[k].decision.order == o;
      assert all[k].decision.order == o;
    }
    if m.decision.Send? {
      assert all[|msgs|].decision.order in MsgOrders(all);
    }
  }

  lemma {:induction false} DispatchKeeps(m: Manager, ds: seq<Decision>, dropped: set<nat>, from: nat, generation: nat)
    requires Sound(m) && Numbered(Sends(ds), from, generation) && SetOf(Sends(ds)) <= Tracked(m)
    ensures var (m1, msgs) := Dispatch(m, ds, dropped); Dispatched(m, ds, m1, msgs)
  {
    if ds == [] {
      assert SetOf(Sends(ds)) == {};
    } else {
      var n := |ds| - 1;
      SendsLast(ds, from, generation);
      DispatchKeeps(m, ds[..n], dropped, from, generation);
      var (m1, msgs) := Dispatch(m, ds[..n], dropped);
      if n in dropped {
        DropStep(m, ds, m1, msgs, from, generation);
      } else {
        KeepStep(m, ds, m1, msgs, from, generation);
      }
    }
  }

  /** A decision for this order, a send or not, is among those the queue refused. */
  predicate Refuses(ds: seq<Decision>, dropped: set<nat>, id: ClientId, send: bool) {
    exists n :: 0 <= n < |ds| && n in dropped && ds[n].Send? == send
                && id == if ds[n].Send? then ds[n].order.id else ds[n].id
  }

  lemma RefusesLast(ds: seq<Decision>, dropped: set<nat>, id: ClientId, send: bool)
    requires ds != []
    ensures var n := |ds| - 1;
      Refuses(ds, dropped, id, send) <==>
        || Refuses(ds[..n], dropped, id, send)
        || (n in dropped && ds[n].Send? == send && id == if ds[n].Send? then ds[n].order.id else ds[n].id)
  {
    var n := |ds| - 1;
    if k :| 0 <= k < |ds[..n]| && k in dropped && ds[..n][k].Send? == send
            && id == if ds[..n][k].Send? then ds[..n][k].order.id else ds[..n][k].id {
      assert ds[k] == ds[..n][k];
    }
    if k :| 0 <= k < |ds| && k in dropped && ds[k].Send? == send
            && id == if ds[k].Send? then ds[k].order.id else ds[k].id {
      assert k < n ==> ds[..n][k] == ds[k];
    }
  }

  /** After a dispatch the slot of a refused send is empty, that of a refused cancel
      live, and every other as it was. */
  lemma {:induction false} RefusalsRollBack(m: Manager, ds: seq<Decision>, dropped: set<nat>, p: Place)
    requires Sound(m) && p.level < MAX_ORDER_LEVELS
    ensures var a, m1 := At(m, p), Dispatch(m, ds, dropped).0;
      && Sound(m1)
      && At(m1, p) ==
           if a.None? || Refuses(ds, dropped, a.value.ord.id, true) then None
           else if Refuses(ds, dropped, a.value.ord.id, false) then Some(a.value.(state := Live))
           else a
  {
    hide Sound, At, OnDispatchFailed, Refuses;
    if ds == [] {
      RefusesNothing(dropped);
    } else {
      var n, a := |ds| - 1, At(m, p);
      RefusalsRollBack(m, ds[..n], dropped, p);
      var m1 := Dispatch(m, ds[..n], dropped).0;
      if a.Some? {
        RefusesLast(ds, dropped, a.value.ord.id, true);
        RefusesLast(ds, dropped, a.value.ord.id, false);
      }
      if n in dropped {
        DispatchFailedKeeps(m1, ds[n]);
        Laws.RefusalLaw(m1, ds[n], p);
      }
    }
  }

  lemma RefusesNothing(dropped: set<nat>)
    ensures forall id, send :: !Refuses([], dropped, id, send)
  {
  }

  /** And the queue gets exactly the other decisions, at the current generation. */
  lemma {:induction false} QueuesTheRest(m: Manager, ds: seq<Decision>, dropped: set<nat>)
    requires Sound(m)
    ensures var (m1, msgs) := Dispatch(m, ds, dropped);
      && m1.exec == m.exec && Sound(m1)
      && (forall n :: 0 <= n < |ds| && n !in dropped ==> Msg(m.exec.generation, ds[n]) in msgs)
      && (forall msg :: msg in msgs ==>
            exists n :: 0 <= n < |ds| && n !in dropped && msg == Msg(m.exec.generation, ds[n]))
  {
    hide Sound, OnDispatchFailed;
    if ds != [] {
      var n := |ds| - 1;
      QueuesTheRest(m, ds[..n], dropped);
      var (m1, fewer) := Dispatch(m, ds[..n], dropped);
      DispatchFailedKeeps(m1, ds[n]);
      var msgs := Dispatch(m, ds, dropped).1;
      forall k | 0 <= k < |ds| && k !in dropped
        ensures Msg(m.exec.generation, ds[k]) in msgs
      {
        assert k < n ==> ds[..n][k] == ds[k];
      }
      forall msg | msg in msgs
        ensures exists k :: 0 <= k < |ds| && k !in dropped && msg == Msg(m.exec.generation, ds[k])
      {
        if msg in fewer {
          var k :| 0 <= k < n && k !in dropped && msg == Msg(m.exec.generation, ds[..n][k]);
          assert ds[..n][k] == ds[k];
        }
      }
    }
  }

  // ------------------------------------------------------------ emitting

  /** What a step that issues `sends` and queues `msgs` does to the manager. */
  ghost predicate Emits(m: Manager, m2: Manager, msgs: seq<Msg>, sends: seq<Order>) {
    && Sound(m2)
    && m2.nextNumber == m.nextNumber + |sends| && Numbered(sends, m.nextNumber, m.exec.generation)
    && (forall o :: o in sends ==> o.qty > 0.0)
    && Tracked(m) <= Tracked(m2) <= Tracked(m) + SetOf(sends)
    && MsgOrders(msgs) <= Tracked(m2) && MsgOrders(msgs) <= SetOf(sends)
    && (forall k :: 0 <= k < |msgs| && msgs[k].decision.Send? ==> msgs[k].tag == m.exec.generation)
    && Upward(msgs)
    && (m2.exec == m.exec || (sends == [] && Tightens(m.exec, m2.exec)))
    && m2.gate == m.gate
  }

  function Emitted(s: Sys, m2: Manager, msgs: seq<Msg>, sends: seq<Order>): Sys {
    WithManager(s, m2).(main := AtRest, queue := s.queue + msgs, issued := s.issued + sends)
  }

  lemma EmitKeepsRegistry(issued: seq<Order>, nextNumber: nat, known: set<Order>, queue: seq<Msg>,
                          sends: seq<Order>, generation: nat, msgs: seq<Msg>, known1: set<Order>)
    requires Registry(issued, nextNumber, known, queue)
    requires Numbered(sends, nextNumber, generation) && (forall o :: o in sends ==> o.qty > 0.0)
    requires known1 <= known + SetOf(sends) && MsgOrders(msgs) <= SetOf(sends)
    ensures Registry(issued + sends, nextNumber + |sends|, known1, queue + msgs)
  {
    var all, q := issued + sends, queue + msgs;
    forall o | o in SetOf(sends)
      ensures Registered(all, o)
    {
      var i :| 0 <= i < |sends| && sends[i] == o;
      assert all[|issued| + i] == o;
    }
    forall k | 0 <= k < |q| && q[k].decision.Send?
      ensures Registered(all, q[k].decision.order)
    {
      if k < |queue| {
        assert Registered(issued, queue[k].decision.order);
      } else {
        assert q[k] == msgs[k - |queue|];
        assert msgs[k - |queue|].decision.order in MsgOrders(msgs);
      }
    }
  }

  lemma EmitKeepsStale(issued: seq<Order>, queue: seq<Msg>, pc: ExecPc, e: Exec, e1: Exec, sends: seq<Order>,
                       nextNumber: nat, msgs: seq<Msg>)
    requires Stale(issued, queue, pc, e) && Numbered(sends, nextNumber, e.generation)
    requires e1 == e || (sends == [] && Tightens(e, e1))
    requires sends != [] ==> !Blocked(e)
    requires forall k :: 0 <= k < |msgs| && msgs[k].decision.Send? ==> msgs[k].tag == e.generation && sends != []
    ensures Stale(issued + sends, queue + msgs, pc, e1)
  {
  }

  lemma EmitKeepsQueue(s: Sys, m2: Manager, msgs: seq<Msg>, sends: seq<Order>)
    requires Books(s) && FreshQueue(s.queue, s.exec, s.written) && Emits(s.acct.m, m2, msgs, sends)
    ensures FreshQueue(s.queue + msgs, s.exec, s.written)
  {
    hide Tracked, Sound, X.Sane;
    var q := s.queue + msgs;
    forall k | |s.queue| <= k < |q| && q[k].decision.Send?
      ensures q[k].decision.order.id.number >= s.acct.m.nextNumber
    {
      assert q[k] == msgs[k - |s.queue|];
      assert q[k].decision.order in MsgOrders(msgs);
    }
    assert forall o :: o in KnownOrders(s) ==> o.id.number < s.acct.m.nextNumber;
    assert forall k :: 0 <= k < |s.queue| && s.queue[k].decision.Send? ==>
      s.queue[k].decision.order.id.number < s.acct.m.nextNumber;
    hide Books, Registry, KnownOrders;
    forall j, k | 0 <= j < k < |q| && q[j].decision.Send? && q[k].decision.Send?
      ensures q[j].decision.order.id.number < q[k].decision.order.id.number
    {
      if k < |s.queue| {
        assert q[j] == s.queue[j] && q[k] == s.queue[k];
      } else if j < |s.queue| {
        assert q[j] == s.queue[j];
      } else {
        assert q[j] == msgs[j - |s.queue|] && q[k] == msgs[k - |s.queue|];
      }
    }
  }

  lemma EmitKeepsStray(s: Sys, m2: Manager, msgs: seq<Msg>, sends: seq<Order>)
    requires NoStray(s) && Stale(s.issued, s.queue, s.exec, s.acct.m.exec) && Emits(s.acct.m, m2, msgs, sends)
    ensures NoStray(Emitted(s, m2, msgs, sends))
  {
    hide Tracked, Sound;
    HandlerKeepsTags(s.issued, s.queue, s.exec, s.acct.m.exec, m2.exec);
    var t := Emitted(s, m2, msgs, sends);
    var g := m2.exec.generation;
    forall o | o in Current(t.queue, g)
      ensures o in Tracked(m2)
    {
      var k :| 0 <= k < |t.queue| && t.queue[k].decision.Send? && t.queue[k].tag == g && t.queue[k].decision.order == o;
      if k < |s.queue| {
        assert t.queue[k] == s.queue[k];
        assert o in Current(s.queue, g);
        assert o in Outstanding(s);
      } else {
        assert t.queue[k] == msgs[k - |s.queue|];
        assert o in MsgOrders(msgs);
      }
    }
    assert forall o :: o in InHand(s.exec, g) ==> o in Outstanding(s);
    assert s.x.wire <= Outstanding(s) && s.x.open <= Outstanding(s);
  }

  lemma EmitKeepsCore(s: Sys, m2: Manager, msgs: seq<Msg>, sends: seq<Order>)
    requires Core(s) && Emits(s.acct.m, m2, msgs, sends)
    requires sends != [] ==> !Blocked(s.acct.m.exec)
    ensures Core(Emitted(s, m2, msgs, sends))
  {
    hide Tracked, Sound, X.Sane, Registry, FreshQueue, Stale, Numbered, Upward;
    var t := Emitted(s, m2, msgs, sends);
    EmitKeepsRegistry(s.issued, s.acct.m.nextNumber, KnownOrders(s), s.queue, sends, s.acct.m.exec.generation, msgs,
                      KnownOrders(t));
    MsgsNeedSends(msgs, sends);
    EmitKeepsStale(s.issued, s.queue, s.exec, s.acct.m.exec, m2.exec, sends, s.acct.m.nextNumber, msgs);
    EmitKeepsQueue(s, m2, msgs, sends);
  }

  lemma MsgsNeedSends(msgs: seq<Msg>, sends: seq<Order>)
    requires MsgOrders(msgs) <= SetOf(sends)
    ensures forall k :: 0 <= k < |msgs| && msgs[k].decision.Send? ==> sends != []
  {
    forall k | 0 <= k < |msgs| && msgs[k].decision.Send?
      ensures sends != []
    {
      assert msgs[k].decision.order in MsgOrders(msgs);
    }
  }

  lemma EmitKeepsRest(s: Sys, m2: Manager, msgs: seq<Msg>, sends: seq<Order>)
    requires CleanupPart(s) && PositionPart(s) && Emits(s.acct.m, m2, msgs, sends)
    ensures CleanupPart(Emitted(s, m2, msgs, sends))
    ensures PositionPart(Emitted(s, m2, msgs, sends))
  {
    hide Tracked, Sound, FeedTrue, MsgOrders, Numbered, Upward, SetOf;
    var t := Emitted(s, m2, msgs, sends);
    forall i | 0 <= i < |t.x.log| && (t.x.log[i].order !in Tracked(m2) || i in t.delivered)
      ensures Covered(m2, t.feed, i)
    {
      assert Covered(s.acct.m, s.feed, i);
    }
  }

  lemma EmitKeeps(s: Sys, m2: Manager, msgs: seq<Msg>, sends: seq<Order>)
    requires Base(s) && Emits(s.acct.m, m2, msgs, sends)
    requires sends != [] ==> !Blocked(s.acct.m.exec)
    ensures Base(Emitted(s, m2, msgs, sends))
  {
    hide CleanupPart, PositionPart, Emits;
    EmitKeepsCore(s, m2, msgs, sends);
    EmitKeepsStray(s, m2, msgs, sends);
    EmitKeepsRest(s, m2, msgs, sends);
  }

  // --------------------------------------------------------------- the steps

  lemma FreshIsUntracked(m: Manager, sends: seq<Order>)
    requires SlotsSound(m) && Numbered(sends, m.nextNumber, m.exec.generation)
    ensures Tracked(m) !! SetOf(sends)
  {
  }

  lemma QuoteEmits(m: Manager, m1: Manager, ds: seq<Decision>, dropped: set<nat>)
    requires Sound(m) && Quoted(m, m1, ds)
    ensures var (m2, msgs) := Dispatch(m1, ds, dropped); Emits(m, m2, msgs, Sends(ds)) && Dispatched(m1, ds, m2, msgs)
  {
    hide Tracked, SlotsSound, PendingCount, Numbered, Sends, SetOf;
    var sends := Sends(ds);
    FreshIsUntracked(m, sends);
    DispatchKeeps(m1, ds, dropped, m.nextNumber, m.exec.generation);
    var (m2, msgs) := Dispatch(m1, ds, dropped);
    MsgsNeedSends(msgs, sends);
    assert forall o :: o in sends ==> o.qty > 0.0;
  }

  lemma TimeoutEmits(m: Manager, now: int, dropped: set<nat>)
    requires Sound(m)
    ensures var (m1, ds) := CheckTimeouts(m, now); var (m2, msgs) := Dispatch(m1, ds, dropped); Emits(m, m2, msgs, [])
  {
    hide Tracked, SlotsSound, PendingCount, CheckTimeouts;
    TimeoutsKeep(m, now);
    var (m1, ds) := CheckTimeouts(m, now);
    DispatchKeeps(m1, ds, dropped, m1.nextNumber, m1.exec.generation);
    var (m2, msgs) := Dispatch(m1, ds, dropped);
    assert SetOf([]) == {};
    MsgsNeedSends(msgs, []);
  }

  /** The two steps that dispatch decisions, as emissions. */
  lemma TimeoutCheckEmits(s: Sys, now: int, dropped: set<nat>)
    requires Core(s) && MainEnabled(s, TimeoutCheck(now, dropped)) && Configured(s.acct.m.cfg)
    ensures var m2 := Dispatch(CheckTimeouts(s.acct.m, now).0, CheckTimeouts(s.acct.m, now).1, dropped).0;
      var msgs := Dispatch(CheckTimeouts(s.acct.m, now).0, CheckTimeouts(s.acct.m, now).1, dropped).1;
      && Emits(s.acct.m, m2, msgs, [])
      && MainApply(s, TimeoutCheck(now, dropped)) == Emitted(s, m2, msgs, [])
  {
    hide Stale, FreshQueue, Registry, Emits;
    TimeoutEmits(s.acct.m, now, dropped);
    assert s.issued + [] == s.issued;
  }

  lemma EndQuoteEmits(s: Sys, q: Quote, limit: real, now: int, dropped: set<nat>)
    requires Core(s) && MainEnabled(s, EndQuote(q, limit, now, dropped)) && Configured(s.acct.m.cfg)
    ensures var (m1, ds) := OnQuote(s.acct.m, q, s.main.position, limit, now);
      var (m2, msgs) := Dispatch(m1, ds, dropped);
      && Quoted(s.acct.m, m1, ds) && Dispatched(m1, ds, m2, msgs)
      && Emits(s.acct.m, m2, msgs, Sends(ds))
      && (Sends(ds) != [] ==> !Blocked(s.acct.m.exec))
      && MainApply(s, EndQuote(q, limit, now, dropped)) == Emitted(s, m2, msgs, Sends(ds))
  {
    hide Stale, FreshQueue, Registry, Emits, Quoted, Dispatched, Reserves, OnQuote;
    QuoteReserves(s.acct.m, q, s.main.position, limit, now);
    var (m1, ds) := OnQuote(s.acct.m, q, s.main.position, limit, now);
    QuoteEmits(s.acct.m, m1, ds, dropped);
  }

  lemma TimeoutCheckKeeps(s: Sys, now: int, dropped: set<nat>)
    requires Base(s) && MainEnabled(s, TimeoutCheck(now, dropped)) && Configured(s.acct.m.cfg)
    ensures Base(MainApply(s, TimeoutCheck(now, dropped)))
  {
    hide Core, Emits, NoStray, CleanupPart, PositionPart, MainApply, Emitted;
    TimeoutCheckEmits(s, now, dropped);
    var (m1, ds) := CheckTimeouts(s.acct.m, now);
    var (m2, msgs) := Dispatch(m1, ds, dropped);
    EmitKeeps(s, m2, msgs, []);
  }

  lemma EndQuoteKeeps(s: Sys, q: Quote, limit: real, now: int, dropped: set<nat>)
    requires Base(s) && MainEnabled(s, EndQuote(q, limit, now, dropped)) && Configured(s.acct.m.cfg)
    ensures Base(MainApply(s, EndQuote(q, limit, now, dropped)))
  {
    hide Core, Emits, NoStray, CleanupPart, PositionPart, MainApply, Emitted, Quoted, Dispatched, OnQuote;
    EndQuoteEmits(s, q, limit, now, dropped);
    var (m1, ds) := OnQuote(s.acct.m, q, s.main.position, limit, now);
    var (m2, msgs) := Dispatch(m1, ds, dropped);
    EmitKeeps(s, m2, msgs, Sends(ds));
  }

  /** A quote starts only while nothing is paused, so the gate is open and the
      position it reads misses only fills that slots still reserve for. */
  lemma BeginQuoteKeeps(s: Sys)
    requires Base(s) && MainEnabled(s, BeginQuote)
    ensures Base(s.(main := Quoting(s.feed.position, s.feed.seen)))
  {
    var t := s.(main := Quoting(s.feed.position, s.feed.seen));
    assert QuotingKnows(t) by {
      forall i | s.feed.seen <= i < |s.x.log|
        ensures s.x.log[i].order in Tracked(s.acct.m) && i !in s.delivered
      {
        assert !Covered(s.acct.m, s.feed, i);
      }
    }
    BooksSame(s, t);
  }
}
