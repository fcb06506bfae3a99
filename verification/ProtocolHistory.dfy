// What a run remembers, however responses are read: issued ids and retirement,
// sends that outlived a pause, and each order's story in its slot.
module ProtocolHistory {
  import opened Orders
  import opened ExecutionState
  import opened ManagerModel
  import opened ManagerInvariants
  import opened Reservation
  import opened HandlerProofs
  import opened Protocol
  import opened ProtocolInvariants
  import Quoting = ProtocolQuoting
  import Main = ProtocolMain
  import Post = ProtocolMail
  import SlotHistory
  import Slots = ProtocolSlots
  import Theorems = ProtocolTheorems
  import S = OrderSocket
  import X = Exchange

  function Generation(s: Sys): nat {
    s.acct.m.exec.generation
  }

  /** From one state to a later one: ids are only appended, in generations no
      older than the first state's, and so are queued sends, under fresh numbers. */
  ghost predicate MovesOn(s: Sys, t: Sys) {
    && Generation(s) <= Generation(t)
    && s.issued <= t.issued
    && (forall k :: |s.issued| <= k < |t.issued| ==> t.issued[k].id.generation >= Generation(s))
  }

  ghost predicate QueueMovesOn(s: Sys, t: Sys) {
    && s.queue <= t.queue && t.exec == s.exec && t.written == s.written
    && (forall k :: |s.queue| <= k < |t.queue| && t.queue[k].decision.Send? ==>
          t.queue[k].decision.order.id.number >= s.acct.m.nextNumber)
  }

  lemma EmitMovesOn(s: Sys, m2: Manager, msgs: seq<Msg>, sends: seq<Order>)
    requires Quoting.Emits(s.acct.m, m2, msgs, sends)
    ensures var t := Quoting.Emitted(s, m2, msgs, sends); MovesOn(s, t) && QueueMovesOn(s, t)
  {
    hide Tracked, Sound;
    var t := Quoting.Emitted(s, m2, msgs, sends);
    forall k | |s.queue| <= k < |t.queue| && t.queue[k].decision.Send?
      ensures t.queue[k].decision.order.id.number >= s.acct.m.nextNumber
    {
      assert t.queue[k] == msgs[k - |s.queue|];
      assert t.queue[k].decision.order in Quoting.MsgOrders(msgs);
    }
  }

  lemma EmissionMovesOn(s: Sys, e: MainStep)
    requires Core(s) && MainEnabled(s, e) && Configured(s.acct.m.cfg) && (e.EndQuote? || e.TimeoutCheck?)
    ensures var t := MainApply(s, e); MovesOn(s, t) && QueueMovesOn(s, t)
  {
    hide Core, MainApply, Dispatch, OnQuote, CheckTimeouts, Quoting.Emits, Quoting.Emitted, MovesOn, QueueMovesOn;
    match e {
      case EndQuote(q, limit, now, dropped) =>
        Quoting.EndQuoteEmits(s, q, limit, now, dropped);
        var (m1, ds) := OnQuote(s.acct.m, q, s.main.position, limit, now);
        var (m2, msgs) := Dispatch(m1, ds, dropped);
        EmitMovesOn(s, m2, msgs, Sends(ds));
      case TimeoutCheck(now, dropped) =>
        Quoting.TimeoutCheckEmits(s, now, dropped);
        var (m1, ds) := CheckTimeouts(s.acct.m, now);
        var (m2, msgs) := Dispatch(m1, ds, dropped);
        EmitMovesOn(s, m2, msgs, []);
    }
  }

  lemma MainMovesOn(s: Sys, e: MainStep)
    requires Core(s) && MainEnabled(s, e) && Configured(s.acct.m.cfg)
    ensures var t := MainApply(s, e); MovesOn(s, t) && QueueMovesOn(s, t)
  {
    hide Core, MainApply;
    if e.EndQuote? || e.TimeoutCheck? {
      EmissionMovesOn(s, e);
    } else {
      Post.MainLoosens(s, e);
      Post.QueueStays(s, e);
    }
  }

  lemma StepMovesOn(s: Sys, step: Step)
    requires Core(s) && Enabled(s, step) && Configured(s.acct.m.cfg)
    ensures MovesOn(s, Apply(s, step))
  {
    hide Core, MainApply, MainEnabled;
    if step.MainDoes? {
      MainMovesOn(s, step.main);
    }
  }

  lemma MovesOnChains(a: Sys, b: Sys, c: Sys)
    requires MovesOn(a, b) && MovesOn(b, c)
    ensures MovesOn(a, c)
  {
    assert forall k :: |a.issued| <= k < |b.issued| ==> c.issued[k] == b.issued[k];
  }

  lemma {:induction false} RunMovesOn(states: seq<Sys>, steps: seq<Step>, n: nat, j: nat)
    requires Run(states, steps) && n <= j < |states|
    ensures MovesOn(states[n], states[j])
    decreases j
  {
    hide Core, Initial, Enabled, Apply;
    if n < j {
      RunMovesOn(states, steps, n, j - 1);
      Theorems.CoreAlways(states, steps, j - 1);
      StepMovesOn(states[j - 1], steps[j - 1]);
      hide MovesOn;
      MovesOnChains(states[n], states[j - 1], states[j]);
    }
  }

  // -------------------------------------------------------------- retirement

  /** Finishing retires exactly the ids issued before it: an id belongs to a
      generation below the retirement line just when it was issued earlier. */
  lemma {:induction false} RetirementIsExact(states: seq<Sys>, steps: seq<Step>, n: nat, j: nat, k: nat)
    requires Run(states, steps) && n < |steps| && steps[n] == MainDoes(FinishReconciling)
    requires n < j < |states| && k < |states[j].issued|
    ensures Retired(states[n + 1].acct.m, states[j].issued[k].id) <==> k < |states[n].issued|
  {
    hide Core, Initial, Apply;
    Theorems.CoreAlways(states, steps, n);
    RunMovesOn(states, steps, n + 1, j);
    assert Enabled(states[n], steps[n]);
    FinishRetires(states[n], states[n + 1]);
  }

  lemma FinishRetires(s: Sys, t: Sys)
    requires Core(s) && Enabled(s, MainDoes(FinishReconciling)) && Configured(s.acct.m.cfg)
    requires t == Apply(s, MainDoes(FinishReconciling))
    ensures t.issued == s.issued && t.acct.m.retired == Generation(t)
    ensures forall k :: 0 <= k < |s.issued| ==> Retired(t.acct.m, s.issued[k].id)
  {
    hide FreshQueue, Registry, X.Sane, Sound;
    FinishKeeps(s.acct, s.feed.version);
    assert s.acct.pending && s.results[0] == s.acct.generation;
    forall k | 0 <= k < |s.issued|
      ensures s.issued[k].id.generation < Generation(s)
    {
      assert NotAfter(s.issued[k].id.generation, s.acct.m.exec);
    }
  }

  // -------------------------------------------------- sends behind a pause

  /** An order that can no longer be written: it was issued and not written, and
      every copy of it still queued or in the executor's hand carries a dead tag. */
  ghost predicate Dead(s: Sys, o: Order) {
    && o.id.number < s.acct.m.nextNumber && o !in s.written
    && (forall k :: 0 <= k < |s.queue| && s.queue[k].decision == Send(o) ==> s.queue[k].tag < Generation(s))
    && (o in ExecOrder(s.exec) ==> !s.exec.Permitted? && !s.exec.Inserted? && s.exec.tag < Generation(s))
  }

  lemma PopStaysDead(s: Sys, sent: bool, o: Order)
    requires ExecEnabled(s, Pop(sent)) && Dead(s, o)
    ensures Dead(ExecApply(s, Pop(sent)), o)
  {
    var t := ExecApply(s, Pop(sent));
    assert forall k :: 0 <= k < |t.queue| ==> t.queue[k] == s.queue[k + 1];
  }

  lemma MainStaysDead(s: Sys, e: MainStep, o: Order)
    requires Core(s) && MainEnabled(s, e) && Configured(s.acct.m.cfg) && Dead(s, o)
    requires s.acct.m.nextNumber <= MainApply(s, e).acct.m.nextNumber
    ensures Dead(MainApply(s, e), o)
  {
    hide Core, MainApply, MainEnabled;
    MainMovesOn(s, e);
  }

  lemma DeadStaysDead(s: Sys, step: Step, o: Order)
    requires Core(s) && Enabled(s, step) && Configured(s.acct.m.cfg) && Dead(s, o)
    ensures Dead(Apply(s, step), o)
  {
    hide Core, MainApply, S.HandleResponse, S.AddRequest, S.DropConfirmed, X.Apply, X.Enabled;
    if step.MainDoes? {
      hide MainEnabled, Dead;
      NumbersGrow(s, step);
      MainStaysDead(s, step.main, o);
    } else if step.ExecDoes? && step.exec.Pop? {
      PopStaysDead(s, step.exec.sent, o);
    }
  }

  lemma NumbersGrow(s: Sys, step: Step)
    requires Core(s) && Enabled(s, step) && Configured(s.acct.m.cfg)
    ensures s.acct.m.nextNumber <= Apply(s, step).acct.m.nextNumber
  {
    hide Books, Stale, FreshQueue, Apply, Enabled;
    Slots.StepEvolves(s, step);
  }

  lemma {:induction false} DeadForever(states: seq<Sys>, steps: seq<Step>, n: nat, j: nat, o: Order)
    requires Run(states, steps) && n <= j < |states| && Dead(states[n], o)
    ensures Dead(states[j], o)
    decreases j
  {
    hide Core, Dead, Initial, Enabled, Apply;
    if n < j {
      DeadForever(states, steps, n, j - 1, o);
      Theorems.CoreAlways(states, steps, j - 1);
      DeadStaysDead(states[j - 1], steps[j - 1], o);
    }
  }

  /** The order the executor holds and has not yet seen permitted for good. */
  function Held(pc: ExecPc): set<Order> {
    if pc.Holding? || pc.Locked? || pc.Checked? then {pc.order} else {}
  }

  function Queued(queue: seq<Msg>): set<Order> {
    set k | 0 <= k < |queue| && queue[k].decision.Send? :: queue[k].decision.order
  }

  /** A send still queued, or in the executor's hand before its second check, when
      any pause goes up is never written, however the pauses are cleared and
      trading resumes afterwards. */
  lemma {:induction false} SendDiesWithPause(states: seq<Sys>, steps: seq<Step>, n: nat, j: nat, o: Order)
    requires Run(states, steps) && n <= j < |states| && Blocked(states[n].acct.m.exec)
    requires o in Queued(states[n].queue) + Held(states[n].exec)
    ensures o !in states[j].written && o !in states[j].x.wire + states[j].x.open
  {
    hide Core, Dead, Initial, Enabled, Apply;
    Theorems.CoreAlways(states, steps, n);
    if o in Held(states[n].exec) {
      HeldIsDead(states[n]);
    } else {
      var k :| 0 <= k < |states[n].queue| && states[n].queue[k].decision.Send?
        && states[n].queue[k].decision.order == o;
      QueuedIsDead(states[n], k);
    }
    DeadForever(states, steps, n, j, o);
    Theorems.CoreAlways(states, steps, j);
    DeadIsNowhere(states[j], o);
  }

  lemma DeadIsNowhere(s: Sys, o: Order)
    requires Core(s) && Dead(s, o)
    ensures o !in s.written && o !in s.x.wire + s.x.open
  {
    hide Tracked, Sound, Stale, FreshQueue, Registry;
  }

  lemma QueuedIsDead(s: Sys, k: nat)
    requires Core(s) && Blocked(s.acct.m.exec) && k < |s.queue| && s.queue[k].decision.Send?
    ensures Dead(s, s.queue[k].decision.order)
  {
    hide Tracked, Sound, X.Sane;
    var o := s.queue[k].decision.order;
    assert Registered(s.issued, o);
    forall i | 0 <= i < |s.queue| && s.queue[i].decision == Send(o)
      ensures s.queue[i].tag < Generation(s)
    {
      assert NotAfter(s.queue[i].tag, s.acct.m.exec);
    }
    assert o !in ExecOrder(s.exec);
  }

  lemma HeldIsDead(s: Sys)
    requires Core(s) && Blocked(s.acct.m.exec) && (s.exec.Holding? || s.exec.Locked? || s.exec.Checked?)
    ensures Dead(s, s.exec.order)
  {
    hide Tracked, Sound, X.Sane;
    var o := s.exec.order;
    assert o in KnownOrders(s);
    assert o in ExecOrder(s.exec);
  }

  // ------------------------------------------------- the story of a slot

  lemma {:induction false} NumbersOnlyGrow(states: seq<Sys>, steps: seq<Step>, n: nat, j: nat)
    requires Run(states, steps) && n <= j < |states|
    ensures states[n].acct.m.nextNumber <= states[j].acct.m.nextNumber
    decreases j
  {
    hide Core, Initial, Enabled, Apply;
    if n < j {
      NumbersOnlyGrow(states, steps, n, j - 1);
      Theorems.CoreAlways(states, steps, j - 1);
      NumbersGrow(states[j - 1], steps[j - 1]);
    }
  }

  /** One step keeps an old order's slot, its bound id, and that it is not pending. */
  lemma StepContinues(s: Sys, step: Step, p: Place)
    requires Core(s) && Enabled(s, step) && Configured(s.acct.m.cfg) && p.level < MAX_ORDER_LEVELS
    requires var b := At(Apply(s, step).acct.m, p); b.Some? && b.value.ord.id.number < s.acct.m.nextNumber
    ensures var a, b := At(s.acct.m, p), At(Apply(s, step).acct.m, p);
      && a.Some? && a.value.ord == b.value.ord
      && (a.value.orderId.Some? ==> b.value.orderId == a.value.orderId)
      && (a.value.state != Pending ==> b.value.state != Pending)
  {
    hide Stale, FreshQueue, Books, Apply, Enabled, SlotHistory.Evolves, At;
    Slots.StepEvolves(s, step);
    SlotHistory.OldOrdersStayPut(s.acct.m, Apply(s, step).acct.m, Slots.Binds(s, step),
                                 step.MainDoes? && step.main.EndQuote?, p);
  }

  /** An order found in a slot was there at every earlier moment since its number
      was issued; its id, once bound, was never another, and it was accepted once. */
  lemma {:induction false} SlotsContinue(states: seq<Sys>, steps: seq<Step>, n: nat, j: nat, p: Place)
    requires Run(states, steps) && n <= j < |states| && p.level < MAX_ORDER_LEVELS
    requires At(states[j].acct.m, p).Some? && At(states[j].acct.m, p).value.ord.id.number < states[n].acct.m.nextNumber
    ensures var a, b := At(states[n].acct.m, p), At(states[j].acct.m, p);
      && a.Some? && a.value.ord == b.value.ord
      && (a.value.orderId.Some? ==> b.value.orderId == a.value.orderId)
      && (a.value.state != Pending ==> b.value.state != Pending)
    decreases j
  {
    hide Core, Initial, Enabled, Apply, At;
    if n < j {
      NumbersOnlyGrow(states, steps, n, j - 1);
      Theorems.CoreAlways(states, steps, j - 1);
      StepContinues(states[j - 1], steps[j - 1], p);
      SlotsContinue(states, steps, n, j - 1, p);
    }
  }

  lemma OldIsNumbered(m: Manager, p: Place)
    requires Sound(m) && p.level < MAX_ORDER_LEVELS && At(m, p).Some?
    ensures At(m, p).value.ord.id.number < m.nextNumber
    ensures At(m, p).value.ord.side == p.side && At(m, p).value.ord.level == p.level
  {
    assert p.level == 0 || p.level == 1;
  }

  /** Never rebound, accepted at most once: if an order sits in a slot at two
      moments of a run, it is the same slot, an exchange id bound at the first is
      still bound at the second, and an order no longer pending never is again. */
  lemma {:induction false} SlotStory(states: seq<Sys>, steps: seq<Step>, n: nat, j: nat, p: Place, q: Place)
    requires Run(states, steps) && n <= j < |states| && p.level < MAX_ORDER_LEVELS && q.level < MAX_ORDER_LEVELS
    requires At(states[n].acct.m, p).Some? && At(states[j].acct.m, q).Some?
    requires At(states[n].acct.m, p).value.ord == At(states[j].acct.m, q).value.ord
    ensures p == q
    ensures var a, b := At(states[n].acct.m, p).value, At(states[j].acct.m, q).value;
      && (a.orderId.Some? ==> b.orderId == a.orderId)
      && (a.state != Pending ==> b.state != Pending)
  {
    hide Core, Initial, Enabled, Apply, At, Sound;
    Theorems.CoreAlways(states, steps, n);
    Theorems.CoreAlways(states, steps, j);
    Theorems.SoundIn(states[n]);
    Theorems.SoundIn(states[j]);
    OldIsNumbered(states[n].acct.m, p);
    OldIsNumbered(states[j].acct.m, q);
    SlotsContinue(states, steps, n, j, q);
  }

  /** A released order never comes back: once issued and in no slot, in no slot ever. */
  lemma {:induction false} ReleasedStaysOut(states: seq<Sys>, steps: seq<Step>, n: nat, j: nat, o: Order)
    requires Run(states, steps) && n <= j < |states|
    requires o in states[n].issued && o !in Tracked(states[n].acct.m)
    ensures o !in Tracked(states[j].acct.m)
  {
    hide Core, Initial, Enabled, Apply, At, Tracked;
    if o in Tracked(states[j].acct.m) {
      Theorems.CoreAlways(states, steps, n);
      IssuedIsNumbered(states[n], o);
      var p := PlaceOf(states[j].acct.m, o);
      SlotsContinue(states, steps, n, j, p);
      Post.TrackedAt(states[n].acct.m, p, o);
    }
  }

  lemma IssuedIsNumbered(s: Sys, o: Order)
    requires Core(s) && o in s.issued
    ensures o.id.number < s.acct.m.nextNumber
  {
  }
}
