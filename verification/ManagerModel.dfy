// What each order-manager operation does to the four slots, the counters and
// the pause state, as functions on values. Class OrderManager is proved to
// compute these; the reservation, identity and protocol theorems are about them.
module ManagerModel {
  import opened Orders
  import opened ExecutionState

  const MAX_CANCEL_FAILURES := 3
  const SLACK := 0.000000001

  datatype Config = Config(
    repriceBps: real, pendingTimeoutNs: nat, maxLiveAgeNs: nat,
    lot: real, minQty: real, minNotional: real,
    breakerRejections: nat, numLevels: nat,
    absoluteCap: Option<real>, capFromStart: bool, orderCap: Option<real>)

  datatype Stats = Stats(sent: nat, accepted: nat, canceled: nat, rejections: nat, reprices: nat, timeouts: nat)

  datatype Manager = Manager(
    cfg: Config, bids: Slots, asks: Slots, nextNumber: nat, retired: nat, stats: Stats,
    exec: Exec, rejectRun: nat, baseline: Option<real>, gate: Option<nat>)

  /** What configuration and symbol-info validation establish before trading. */
  predicate Configured(c: Config) {
    c.lot > 0.0 && c.minNotional > 0.0 && 1 <= c.numLevels <= MAX_ORDER_LEVELS
  }

  function SlotsOf(m: Manager, side: Side): Slots {
    if side == Buy then m.bids else m.asks
  }

  function WithSlots(m: Manager, side: Side, slots: Slots): Manager {
    if side == Buy then m.(bids := slots) else m.(asks := slots)
  }

  function WithSlot(m: Manager, side: Side, level: nat, slot: Option<LiveOrder>): Manager
    requires level < MAX_ORDER_LEVELS
  {
    WithSlots(m, side, SlotsOf(m, side)[level := slot])
  }

  // ------------------------------------------------------------------ quoting

  /** Exposure a slot reserves: its whole quantity at max(limit price, mid). */
  function Mark(slot: Option<LiveOrder>, mid: real): real {
    if slot.Some? then slot.value.ord.qty * Max(slot.value.ord.price, mid) else 0.0
  }

  function SideMarks(slots: Slots, mid: real): real {
    Mark(slots[0], mid) + Mark(slots[1], mid)
  }

  function MarkUnless(skip: bool, slot: Option<LiveOrder>, mid: real): real {
    if skip then 0.0 else Mark(slot, mid)
  }

  function ReservedByOthers(slots: Slots, level: nat, mid: real): real {
    MarkUnless(level == 0, slots[0], mid) + MarkUnless(level == 1, slots[1], mid)
  }

  function Baseline(m: Manager): real {
    if m.cfg.capFromStart && m.baseline.Some? then m.baseline.value else 0.0
  }

  function Headroom(m: Manager, side: Side, position: real, limit: real, mid: real): real {
    var h := limit - Sign(side) * position * mid;
    if m.cfg.absoluteCap.Some?
    then Min(h, m.cfg.absoluteCap.value - Sign(side) * (position - Baseline(m)) * mid)
    else h
  }

  function RoundToLot(qty: real, lot: real): real
    requires lot > 0.0
  {
    (qty / lot).Floor as real * lot
  }

  function QuoteQty(c: Config, wanted: real, price: real, mid: real, budget: real): real
    requires c.lot > 0.0 && price > 0.0
  {
    var affordable := Min(wanted, budget / Max(price, mid));
    var capped := if c.orderCap.Some? then Min(affordable, c.orderCap.value / price) else affordable;
    var rounded := RoundToLot(capped, c.lot);
    if rounded < c.minQty || rounded * price < c.minNotional then 0.0 else rounded
  }

  predicate Exceeds(c: Config, o: Order, mid: real, budget: real) {
    || o.qty * Max(o.price, mid) > budget + SLACK
    || (c.orderCap.Some? && o.qty * o.price > c.orderCap.value + SLACK)
  }

  function SetCanceling(o: LiveOrder, now: int): LiveOrder {
    o.(state := Canceling, sentAt := now)
  }

  function Abs(x: real): real {
    if x < 0.0 then -x else x
  }

  predicate ShouldReprice(c: Config, oldPrice: real, newPrice: real) {
    oldPrice <= 0.0 || Abs((newPrice - oldPrice) / oldPrice) * 10000.0 >= c.repriceBps
  }

  function FreshId(m: Manager, level: nat): ClientId {
    ClientId(level, m.exec.generation, m.nextNumber)
  }

  function ProcessSideLevel(m: Manager, side: Side, level: nat, price: real, qty: real, now: int):
    (Manager, seq<Decision>)
    requires level < MAX_ORDER_LEVELS
  {
    match SlotsOf(m, side)[level]
    case None =>
      var order := Order(FreshId(m, level), side, level, price, qty);
      var m1 := WithSlot(m, side, level, Some(LiveOrder(order, None, Pending, now, 0)));
      (m1.(nextNumber := m.nextNumber + 1, stats := m.stats.(sent := m.stats.sent + 1)), [Send(order)])
    case Some(o) =>
      if o.state != Live then (m, [])
      else if ShouldReprice(m.cfg, o.ord.price, price)
           || (m.cfg.maxLiveAgeNs > 0 && now - o.sentAt > m.cfg.maxLiveAgeNs)
           || Abs(o.ord.qty - qty) >= m.cfg.lot * 0.5
      then (WithSlot(m, side, level, Some(SetCanceling(o, now))).(stats := m.stats.(reprices := m.stats.reprices + 1)),
            [CancelAndReplace(o.ord.id, level, price, qty)])
      else (m, [])
  }

  function QuoteLevel(m: Manager, q: Quote, side: Side, headroom: real, now: int, level: nat): (Manager, seq<Decision>)
    requires QuoteShape(q) && level < MAX_ORDER_LEVELS && m.cfg.lot > 0.0
  {
    var price := QuotePrice(q, side, level);
    if price <= 0.0 then (m, [])
    else
      var slot := SlotsOf(m, side)[level];
      var budget := Max(headroom - ReservedByOthers(SlotsOf(m, side), level, q.mid), 0.0);
      var qty := QuoteQty(m.cfg, q.quantity, price, q.mid, budget);
      if slot.Some? && slot.value.state != Canceling
         && (Exceeds(m.cfg, slot.value.ord, q.mid, budget) || qty == 0.0)
      then (WithSlot(m, side, level, Some(SetCanceling(slot.value, now))), [Cancel(slot.value.ord.id)])
      else if qty > 0.0 then ProcessSideLevel(m, side, level, price, qty, now)
      else (m, [])
  }

  /** The first `count` levels of one side, in order. */
  function QuoteSide(m: Manager, q: Quote, side: Side, headroom: real, now: int, count: nat):
    (r: (Manager, seq<Decision>))
    requires QuoteShape(q) && count <= MAX_ORDER_LEVELS && m.cfg.lot > 0.0
    ensures r.0.cfg == m.cfg
  {
    if count == 0 then (m, [])
    else
      var (m1, d1) := QuoteSide(m, q, side, headroom, now, count - 1);
      var (m2, d2) := QuoteLevel(m1, q, side, headroom, now, count - 1);
      (m2, d1 + d2)
  }

  function CancelSide(m: Manager, side: Side, now: int, count: nat): (Manager, seq<Decision>)
    requires count <= MAX_ORDER_LEVELS
  {
    if count == 0 then (m, [])
    else
      var (m1, d1) := CancelSide(m, side, now, count - 1);
      var slot := SlotsOf(m1, side)[count - 1];
      if slot.Some? && slot.value.state != Canceling
      then (WithSlot(m1, side, count - 1, Some(SetCanceling(slot.value, now))), d1 + [Cancel(slot.value.ord.id)])
      else (m1, d1)
  }

  function CancelExposure(m: Manager, now: int): (Manager, seq<Decision>) {
    var (m1, d1) := CancelSide(m, Buy, now, MAX_ORDER_LEVELS);
    var (m2, d2) := CancelSide(m1, Sell, now, MAX_ORDER_LEVELS);
    (m2, d1 + d2)
  }

  function LevelsQuoted(m: Manager, q: Quote): nat {
    if m.cfg.numLevels <= q.numLevels then m.cfg.numLevels else q.numLevels
  }

  /** Quotes are ignored while stopped, paused, warming up or malformed. */
  predicate Quotable(m: Manager, q: Quote) {
    && !m.exec.shutdown && m.exec.pauses == {}
    && q.validForTrading && q.mid > 0.0 && q.quantity > 0.0
  }

  function OnQuote(m: Manager, q: Quote, position: real, limit: real, now: int): (Manager, seq<Decision>)
    requires QuoteShape(q) && Configured(m.cfg)
  {
    if !Quotable(m, q) then (m, [])
    else if limit <= 0.0 then CancelExposure(m.(exec := m.exec.SetPause(RiskData)), now)
    else if m.cfg.capFromStart && m.baseline.None? then (m, [])
    else
      var count := LevelsQuoted(m, q);
      var (m1, d1) := QuoteSide(m, q, Buy, Headroom(m, Buy, position, limit, q.mid), now, count);
      var (m2, d2) := QuoteSide(m1, q, Sell, Headroom(m, Sell, position, limit, q.mid), now, count);
      (m2, d1 + d2)
  }

  // ------------------------------------------------------------ slot searches

  /** The keys by which events name an order. A zero exchange id names nothing in a fill. */
  datatype Key = ByClient(id: ClientId) | ByExchange(orderId: int) | ByFill(orderId: int, client: Option<ClientId>)

  predicate Matches(key: Key, o: LiveOrder) {
    match key
    case ByClient(id) => o.ord.id == id
    case ByExchange(x) => o.orderId == Some(x)
    case ByFill(x, c) => (x != 0 && o.orderId == Some(x)) || c == Some(o.ord.id)
  }

  predicate Hit(key: Key, slot: Option<LiveOrder>) {
    slot.Some? && Matches(key, slot.value)
  }

  datatype Place = Place(side: Side, level: nat)

  /** Level by level, bid before ask; the first hit wins. */
  function FirstHit(m: Manager, key: Key, level: nat): (p: Option<Place>)
    requires level <= MAX_ORDER_LEVELS
    ensures p.Some? ==> p.value.level < MAX_ORDER_LEVELS && Hit(key, SlotsOf(m, p.value.side)[p.value.level])
    ensures p.None? ==> forall l :: level <= l < MAX_ORDER_LEVELS ==> !Hit(key, m.bids[l]) && !Hit(key, m.asks[l])
    decreases MAX_ORDER_LEVELS - level
  {
    if level == MAX_ORDER_LEVELS then None
    else if Hit(key, m.bids[level]) then Some(Place(Buy, level))
    else if Hit(key, m.asks[level]) then Some(Place(Sell, level))
    else FirstHit(m, key, level + 1)
  }

  function Find(m: Manager, key: Key): (p: Option<Place>)
    ensures p.Some? ==> p.value.level < MAX_ORDER_LEVELS && Hit(key, SlotsOf(m, p.value.side)[p.value.level])
    ensures p.None? ==> forall l :: 0 <= l < MAX_ORDER_LEVELS ==> !Hit(key, m.bids[l]) && !Hit(key, m.asks[l])
  {
    FirstHit(m, key, 0)
  }

  function At(m: Manager, p: Place): Option<LiveOrder>
    requires p.level < MAX_ORDER_LEVELS
  {
    SlotsOf(m, p.side)[p.level]
  }

  function ClearKey(m: Manager, key: Key): Manager {
    var p := Find(m, key);
    if p.None? then m else WithSlot(m, p.value.side, p.value.level, None)
  }

  // ----------------------------------------------------------------- handlers

  predicate BoundElsewhere(slot: Option<LiveOrder>, id: ClientId, orderId: int) {
    slot.Some? && slot.value.orderId == Some(orderId) && slot.value.ord.id != id
  }

  predicate IdentityConflict(m: Manager, o: LiveOrder, orderId: int) {
    && orderId != 0
    && (|| (o.orderId.Some? && o.orderId.value != 0 && o.orderId.value != orderId)
        || BoundElsewhere(m.bids[0], o.ord.id, orderId) || BoundElsewhere(m.bids[1], o.ord.id, orderId)
        || BoundElsewhere(m.asks[0], o.ord.id, orderId) || BoundElsewhere(m.asks[1], o.ord.id, orderId))
  }

  function Accept(o: LiveOrder, orderId: int): LiveOrder {
    var bound := if orderId != 0 then o.(orderId := Some(orderId)) else o;
    if o.state == Pending then bound.(state := Live) else bound
  }

  function OnAccepted(m: Manager, id: ClientId, orderId: int): (Manager, bool) {
    var p := Find(m, ByClient(id));
    if p.None? then (m, false)
    else
      var o := At(m, p.value).value;
      if IdentityConflict(m, o, orderId) then (m, false)
      else
        var m1 := WithSlot(m, p.value.side, p.value.level, Some(Accept(o, orderId))).(rejectRun := 0);
        (if o.state == Pending then m1.(stats := m.stats.(accepted := m.stats.accepted + 1)) else m1, true)
  }

  function OnRejected(m: Manager, id: ClientId): Manager {
    var m1 := ClearKey(m, ByClient(id)).(
      stats := m.stats.(rejections := m.stats.rejections + 1), rejectRun := m.rejectRun + 1);
    if m.cfg.breakerRejections > 0 && m1.rejectRun >= m.cfg.breakerRejections
    then m1.(exec := m1.exec.SetPause(CircuitBreaker))
    else m1
  }

  function OnCanceled(m: Manager, key: Key): (Manager, bool) {
    if Find(m, key).None? then (m, false)
    else (ClearKey(m, key).(stats := m.stats.(canceled := m.stats.canceled + 1)), true)
  }

  /** Arm the fill gate: two publications later than the current one. */
  function RequireRefresh(m: Manager, version: nat): Manager {
    var required := version + 2;
    m.(gate := Some(if m.gate.Some? && m.gate.value > required then m.gate.value else required),
       exec := m.exec.SetPause(RiskData))
  }

  function RefreshComplete(m: Manager, version: nat): (Manager, bool) {
    if m.gate.None? then (m, true)
    else if version < m.gate.value then (m, false)
    else (m.(gate := None), true)
  }

  function OnFill(m: Manager, orderId: int, client: Option<ClientId>, full: bool, version: nat): (Manager, bool) {
    var p := Find(m, ByFill(orderId, client));
    if p.None? then (m, false)
    else
      var m1 := RequireRefresh(m, version);
      (if full then WithSlot(m1, p.value.side, p.value.level, None) else m1, true)
  }

  predicate CancelFailureHits(slot: Option<LiveOrder>, orderId: int) {
    slot.Some? && slot.value.orderId == Some(orderId) && slot.value.state == Canceling
  }

  /** Bids before asks; the first slot that is Canceling under this exchange id. */
  function CancelFailureAt(m: Manager, orderId: int): (p: Option<Place>)
    ensures p.Some? ==> p.value.level < MAX_ORDER_LEVELS && CancelFailureHits(At(m, p.value), orderId)
  {
    if CancelFailureHits(m.bids[0], orderId) then Some(Place(Buy, 0))
    else if CancelFailureHits(m.bids[1], orderId) then Some(Place(Buy, 1))
    else if CancelFailureHits(m.asks[0], orderId) then Some(Place(Sell, 0))
    else if CancelFailureHits(m.asks[1], orderId) then Some(Place(Sell, 1))
    else None
  }

  function OnCancelFailed(m: Manager, orderId: int): Manager {
    var p := CancelFailureAt(m, orderId);
    if p.None? then m
    else
      var o := At(m, p.value).value;
      var fails := o.cancelFails + 1;
      if fails >= MAX_CANCEL_FAILURES
      then WithSlot(m, p.value.side, p.value.level, Some(o.(cancelFails := fails)))
           .(exec := m.exec.SetPause(Safety).SetPause(Reconciliation))
      else WithSlot(m, p.value.side, p.value.level, Some(o.(cancelFails := fails, state := Live)))
  }

  function Revive(slot: Option<LiveOrder>, id: ClientId): Option<LiveOrder> {
    if Hit(ByClient(id), slot) then Some(slot.value.(state := Live)) else slot
  }

  function OnDispatchFailed(m: Manager, d: Decision): Manager {
    if d.Send? then ClearKey(m, ByClient(d.order.id))
    else m.(bids := [Revive(m.bids[0], d.id), Revive(m.bids[1], d.id)],
            asks := [Revive(m.asks[0], d.id), Revive(m.asks[1], d.id)])
  }

  predicate Overdue(c: Config, slot: Option<LiveOrder>, now: int) {
    slot.Some? && slot.value.state != Live && now - slot.value.sentAt > c.pendingTimeoutNs
  }

  function OverdueCancels(c: Config, slots: Slots, now: int, count: nat): seq<Decision>
    requires count <= MAX_ORDER_LEVELS
  {
    if count == 0 then []
    else OverdueCancels(c, slots, now, count - 1)
         + (if Overdue(c, slots[count - 1], now) then [Cancel(slots[count - 1].value.ord.id)] else [])
  }

  /** Timed-out slots keep their exposure; only the pause and the cancels go out. */
  function CheckTimeouts(m: Manager, now: int): (Manager, seq<Decision>) {
    var ds := OverdueCancels(m.cfg, m.bids, now, MAX_ORDER_LEVELS)
      + OverdueCancels(m.cfg, m.asks, now, MAX_ORDER_LEVELS);
    if ds == [] then (m, [])
    else (m.(stats := m.stats.(timeouts := m.stats.timeouts + |ds|), exec := m.exec.SetPause(Reconciliation)), ds)
  }

  function InitializeBaseline(m: Manager, position: real): Manager {
    if m.baseline.None? then m.(baseline := Some(position)) else m
  }

  function FinishReconciliation(m: Manager): Manager {
    m.(retired := m.exec.generation, bids := [None, None], asks := [None, None], rejectRun := 0,
       exec := m.exec.ClearPause(Safety).ClearPause(CircuitBreaker).ClearPause(Reconciliation))
  }

  predicate Retired(m: Manager, id: ClientId) {
    id.generation < m.retired
  }

  // --------------------------------------------------- account-level handlers

  /** What the event loop remembers about account-wide reconciliation. */
  datatype Account = Account(m: Manager, pending: bool, generation: nat)

  /** Returns the request handed to the worker, if one is. */
  function BeginAccount(a: Account, version: nat): (Account, Option<nat>) {
    if a.pending then (a, None)
    else
      var m1 := if Reconciliation in a.m.exec.pauses then a.m else RequireRefresh(a.m, version);
      (Account(m1.(exec := m1.exec.SetPause(Reconciliation)), true, a.generation + 1), Some(a.generation + 1))
  }

  function FinishAccount(a: Account, version: nat): Account {
    Account(FinishReconciliation(RequireRefresh(a.m, version)), false, a.generation)
  }

  /** The one-second risk check; returns whether fresh data just became stale. */
  function RiskTick(m: Manager, sourcesFresh: bool, version: nat, position: real): (Manager, bool) {
    var (m1, current) := RefreshComplete(m, version);
    if sourcesFresh && current
    then (InitializeBaseline(m1, position).(exec := m1.exec.ClearPause(RiskData)), false)
    else
      var m2 := m1.(exec := m1.exec.SetPause(RiskData));
      if !sourcesFresh && RiskData !in m1.exec.pauses
      then (m2.(exec := m2.exec.SetPause(Reconciliation)), true)
      else (m2, false)
  }
}
