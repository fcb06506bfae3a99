// What every order-manager operation keeps, and which orders it tracks,
// releases or sends.
module ManagerInvariants {
  import opened Orders
  import opened ExecutionState
  import opened ManagerModel

  // ------------------------------------------------------------- definitions

  /** Two slots never share a client number nor a bound exchange id. */
  predicate Apart(a: Option<LiveOrder>, b: Option<LiveOrder>) {
    a.Some? && b.Some? ==>
      && a.value.ord.id.number != b.value.ord.id.number
      && (a.value.orderId.Some? && b.value.orderId.Some? ==> a.value.orderId != b.value.orderId)
  }

  predicate SlotOk(m: Manager, side: Side, level: nat, slot: Option<LiveOrder>) {
    slot.Some? ==>
      var o := slot.value.ord;
      && o.side == side && o.level == level && o.id.level == level
      && level < m.cfg.numLevels
      && o.id.number < m.nextNumber && o.id.generation <= m.exec.generation
      && o.qty > 0.0 && o.price > 0.0
      && slot.value.orderId != Some(0)
  }

  function IfPending(slot: Option<LiveOrder>): nat {
    if slot.Some? && slot.value.state == Pending then 1 else 0
  }

  function PendingCount(m: Manager): nat {
    IfPending(m.bids[0]) + IfPending(m.bids[1]) + IfPending(m.asks[0]) + IfPending(m.asks[1])
  }

  predicate SlotsSound(m: Manager) {
    && SlotOk(m, Buy, 0, m.bids[0]) && SlotOk(m, Buy, 1, m.bids[1])
    && SlotOk(m, Sell, 0, m.asks[0]) && SlotOk(m, Sell, 1, m.asks[1])
    && Apart(m.bids[0], m.bids[1]) && Apart(m.asks[0], m.asks[1])
    && Apart(m.bids[0], m.asks[0]) && Apart(m.bids[0], m.asks[1])
    && Apart(m.bids[1], m.asks[0]) && Apart(m.bids[1], m.asks[1])
  }

  /** The manager's own invariant: slot identity, the acceptance count, and a
      gate that is never armed without the pause that enforces it. */
  predicate Sound(m: Manager) {
    && Configured(m.cfg)
    && SlotsSound(m)
    && (m.gate.Some? ==> RiskData in m.exec.pauses)
    && m.stats.accepted + PendingCount(m) <= m.stats.sent
    && m.retired <= m.exec.generation
  }

  function OrderIn(slot: Option<LiveOrder>): set<Order> {
    if slot.Some? then {slot.value.ord} else {}
  }

  function OrdersIn(slots: Slots): set<Order> {
    OrderIn(slots[0]) + OrderIn(slots[1])
  }

  /** The orders that occupy a local slot. */
  function Tracked(m: Manager): set<Order> {
    OrdersIn(m.bids) + OrdersIn(m.asks)
  }

  /** The new orders among some decisions, in order. */
  function Sends(ds: seq<Decision>): seq<Order> {
    if ds == [] then []
    else Sends(ds[..|ds| - 1]) + (if ds[|ds| - 1].Send? then [ds[|ds| - 1].order] else [])
  }

  lemma SendsOfOne(d: Decision)
    ensures Sends([d]) == if d.Send? then [d.order] else []
  {
    assert [d][..0] == [];
  }

  lemma {:induction false} SendsConcat(a: seq<Decision>, b: seq<Decision>)
    ensures Sends(a + b) == Sends(a) + Sends(b)
  {
    if b == [] {
      assert a + b == a;
    } else {
      var c := a + b;
      assert c[..|c| - 1] == a + b[..|b| - 1];
      SendsConcat(a, b[..|b| - 1]);
    }
  }

  /** New orders numbered from `from` upwards, all in one generation. */
  predicate Numbered(orders: seq<Order>, from: nat, generation: nat) {
    && (forall i :: 0 <= i < |orders| ==> orders[i].id.number == from + i)
    && (forall i :: 0 <= i < |orders| ==> orders[i].id.generation == generation)
  }

  // ---------------------------------------------------------------- searches

  lemma ClientHitIsTheOnlyOne(m: Manager, id: ClientId, p: Place)
    requires Sound(m) && p.level < MAX_ORDER_LEVELS && Hit(ByClient(id), At(m, p))
    ensures Find(m, ByClient(id)) == Some(p)
  {
    var f := Find(m, ByClient(id));
    assert FirstHit(m, ByClient(id), 1) == (if Hit(ByClient(id), m.bids[1]) then Some(Place(Buy, 1))
      else if Hit(ByClient(id), m.asks[1]) then Some(Place(Sell, 1)) else FirstHit(m, ByClient(id), 2));
    assert p.level == 0 || p.level == 1;
  }

  /** Exchange ids are never zero and never bound twice, so the first match is
      the only match: the find and the clear touch the same slot. */
  lemma ExchangeHitIsTheOnlyOne(m: Manager, orderId: int, p: Place)
    requires Sound(m) && p.level < MAX_ORDER_LEVELS && Hit(ByExchange(orderId), At(m, p))
    ensures orderId != 0 && Find(m, ByExchange(orderId)) == Some(p)
  {
    var key := ByExchange(orderId);
    assert FirstHit(m, key, 1) == (if Hit(key, m.bids[1]) then Some(Place(Buy, 1))
      else if Hit(key, m.asks[1]) then Some(Place(Sell, 1)) else FirstHit(m, key, 2));
    assert p.level == 0 || p.level == 1;
  }

  /** Changing one slot: enough for the slots to stay sound is that the new
      content fits and is apart from the other three. */
  lemma ReplaceSlot(m: Manager, side: Side, level: nat, slot: Option<LiveOrder>, m1: Manager)
    requires SlotsSound(m) && level < MAX_ORDER_LEVELS
    requires m1 == WithSlot(m, side, level, slot)
    requires SlotOk(m, side, level, slot)
    requires forall q: Place {:trigger At(m, q)} :: q.level < MAX_ORDER_LEVELS && q != Place(side, level) ==>
      Apart(slot, At(m, q))
    ensures SlotsSound(m1)
    ensures PendingCount(m1) == PendingCount(m) - IfPending(At(m, Place(side, level))) + IfPending(slot)
  {
    assert level == 0 || level == 1;
    var a, b, c, d := At(m, Place(Buy, 0)), At(m, Place(Buy, 1)), At(m, Place(Sell, 0)), At(m, Place(Sell, 1));
  }

  /** Slots that did not move stay sound while counters and generations grow. */
  lemma CarrySlots(m: Manager, m1: Manager)
    requires SlotsSound(m) && m1.bids == m.bids && m1.asks == m.asks && m1.cfg.numLevels == m.cfg.numLevels
    requires m1.nextNumber >= m.nextNumber && m1.exec.generation >= m.exec.generation
    ensures SlotsSound(m1) && Tracked(m1) == Tracked(m) && PendingCount(m1) == PendingCount(m)
  {
  }

  /** Rewriting a slot without touching its order or its exchange id. */
  lemma RestateSlot(m: Manager, p: Place, o: LiveOrder, m1: Manager)
    requires SlotsSound(m) && p.level < MAX_ORDER_LEVELS && At(m, p).Some?
    requires o.ord == At(m, p).value.ord && o.orderId == At(m, p).value.orderId
    requires m1 == WithSlot(m, p.side, p.level, Some(o))
    ensures SlotsSound(m1) && Tracked(m1) == Tracked(m)
    ensures PendingCount(m1) == PendingCount(m) - IfPending(At(m, p)) + IfPending(Some(o))
  {
    forall q: Place | q.level < MAX_ORDER_LEVELS && q != p
      ensures Apart(Some(o), At(m, q))
    {
      assert Apart(At(m, p), At(m, q)) by {
        assert p.level == 0 || p.level == 1;
        assert q.level == 0 || q.level == 1;
      }
    }
    ReplaceSlot(m, p.side, p.level, Some(o), m1);
    hide SlotsSound, PendingCount;
    assert p.level == 0 || p.level == 1;
  }

  /** Emptying a slot releases exactly its order. */
  lemma EmptySlot(m: Manager, p: Place, m1: Manager)
    requires SlotsSound(m) && p.level < MAX_ORDER_LEVELS && At(m, p).Some?
    requires m1 == WithSlot(m, p.side, p.level, None)
    ensures SlotsSound(m1)
    ensures Tracked(m1) == Tracked(m) - {At(m, p).value.ord}
    ensures PendingCount(m1) <= PendingCount(m)
  {
    ReplaceSlot(m, p.side, p.level, None, m1);
    OthersDiffer(m, p);
    WithoutOne(OrderIn(m.bids[0]), OrderIn(m.bids[1]), OrderIn(m.asks[0]), OrderIn(m.asks[1]));
    hide SlotsSound, PendingCount;
    assert p.level == 0 || p.level == 1;
    assert At(m, Place(Buy, 0)) == m.bids[0] && At(m, Place(Buy, 1)) == m.bids[1];
    assert At(m, Place(Sell, 0)) == m.asks[0] && At(m, Place(Sell, 1)) == m.asks[1];
  }

  lemma WithoutOne(a: set<Order>, b: set<Order>, c: set<Order>, d: set<Order>)
    ensures var all := a + b + (c + d);
      && (a !! b && a !! c && a !! d ==> all - a == {} + b + (c + d))
      && (b !! a && b !! c && b !! d ==> all - b == a + {} + (c + d))
      && (c !! a && c !! b && c !! d ==> all - c == a + b + ({} + d))
      && (d !! a && d !! b && d !! c ==> all - d == a + b + (c + {}))
  {
  }

  lemma OthersDiffer(m: Manager, p: Place)
    requires SlotsSound(m) && p.level < MAX_ORDER_LEVELS
    ensures forall q: Place {:trigger At(m, q)} :: q.level < MAX_ORDER_LEVELS && q != p ==>
      OrderIn(At(m, q)) !! OrderIn(At(m, p))
  {
    assert p.level == 0 || p.level == 1;
    forall q: Place | q.level < MAX_ORDER_LEVELS && q != p
      ensures OrderIn(At(m, q)) !! OrderIn(At(m, p))
    {
      assert q.level == 0 || q.level == 1;
      assert Apart(At(m, p), At(m, q));
    }
  }

  // ------------------------------------------------------------- pause state

  /** The execution state only tightened: pauses were added or trading stopped,
      and if anything changed then every earlier tag is now stale. */
  predicate Tightens(e: Exec, e1: Exec) {
    || e1 == e
    || (&& (e.shutdown ==> e1.shutdown) && e.pauses <= e1.pauses
        && (e1.shutdown || e1.pauses != {}) && e1.generation > e.generation)
  }

  lemma PausingKeeps(m: Manager, reason: PauseReason)
    requires Sound(m)
    ensures var m1 := m.(exec := m.exec.SetPause(reason));
      Sound(m1) && Tracked(m1) == Tracked(m) && Tightens(m.exec, m1.exec) && reason in m1.exec.pauses
  {
  }
}
