// The invariant of the whole system, in parts, and its preservation by every
// actor other than the event loop.
module ProtocolInvariants {
  import opened Orders
  import opened ExecutionState
  import opened ManagerModel
  import opened ManagerInvariants
  import opened HandlerProofs
  import opened Protocol
  import C = Correspondence
  import S = OrderSocket
  import X = Exchange

  // ------------------------------------------------------------- definitions

  function ExecOrder(e: ExecPc): set<Order> {
    if e.Idle? || e.Releasing? then {} else {e.order}
  }

  predicate Registered(issued: seq<Order>, o: Order) {
    1 <= o.id.number <= |issued| && issued[o.id.number - 1] == o
  }

  /** Every order anywhere is the one its number was issued for. */
  ghost predicate Registry(issued: seq<Order>, nextNumber: nat, known: set<Order>, queue: seq<Msg>) {
    && |issued| + 1 == nextNumber
    && (forall k :: 0 <= k < |issued| ==> issued[k].id.number == k + 1 && issued[k].qty > 0.0)
    && (forall o :: o in known ==> Registered(issued, o))
    && (forall k :: 0 <= k < |queue| && queue[k].decision.Send? ==> Registered(issued, queue[k].decision.order))
  }

  function KnownOrders(s: Sys): set<Order> {
    Tracked(s.acct.m) + s.written + ExecOrder(s.exec)
  }

  ghost predicate Books(s: Sys) {
    && Sound(s.acct.m)
    && X.Sane(s.x)
    && s.x.wire + s.x.accepted + s.x.rejected <= s.written
    && Registry(s.issued, s.acct.m.nextNumber, KnownOrders(s), s.queue)
  }

  predicate Blocked(e: Exec) {
    e.shutdown || e.pauses != {}
  }

  predicate NotAfter(tag: nat, e: Exec) {
    tag <= e.generation && (Blocked(e) ==> tag < e.generation)
  }

  /** Nothing issued or queued is ahead of the current generation, and while any
      pause is up everything issued or queued is strictly behind it. */
  ghost predicate Stale(issued: seq<Order>, queue: seq<Msg>, pc: ExecPc, e: Exec) {
    && (forall k :: 0 <= k < |issued| ==> NotAfter(issued[k].id.generation, e))
    && (forall k :: 0 <= k < |queue| && queue[k].decision.Send? ==> NotAfter(queue[k].tag, e))
    && (pc.Holding? || pc.Locked? || pc.Checked? ==> NotAfter(pc.tag, e))
  }

  /** Queued sends are numbered upwards behind the executor's, and none was written. */
  ghost predicate FreshQueue(queue: seq<Msg>, pc: ExecPc, written: set<Order>) {
    && (forall k :: 0 <= k < |queue| && queue[k].decision.Send? ==> queue[k].decision.order !in written)
    && (forall j, k :: 0 <= j < k < |queue| && queue[j].decision.Send? && queue[k].decision.Send? ==>
          queue[j].decision.order.id.number < queue[k].decision.order.id.number)
    && ExecOrder(pc) !! written
    && (forall k, o :: 0 <= k < |queue| && queue[k].decision.Send? && o in ExecOrder(pc) ==>
          o.id.number < queue[k].decision.order.id.number)
  }

  /** Queued sends that the current generation still permits. */
  function Current(queue: seq<Msg>, generation: nat): set<Order> {
    set k | 0 <= k < |queue| && queue[k].decision.Send? && queue[k].tag == generation :: queue[k].decision.order
  }

  function InHand(pc: ExecPc, generation: nat): set<Order> {
    if pc.Permitted? || pc.Inserted? then {pc.order}
    else if (pc.Holding? || pc.Locked? || pc.Checked?) && pc.tag == generation then {pc.order}
    else {}
  }

  /** Every order that is open, on the wire, or may still be written. */
  function Outstanding(s: Sys): set<Order> {
    var g := s.acct.m.exec.generation;
    s.x.wire + s.x.open + Current(s.queue, g) + InHand(s.exec, g)
  }

  predicate NoStray(s: Sys) {
    Outstanding(s) <= Tracked(s.acct.m)
  }

  /** A new order on the wire is always an unresolved request. */
  ghost predicate PendingCovers(s: Sys) {
    && Ids(s.x.wire) <= S.Unresolved(s.socket)
    && (s.exec.Inserted? ==> s.exec.order.id in S.Unresolved(s.socket))
    && (forall r :: r in s.socket.pending ==> r < s.socket.nextRequest)
  }

  predicate Locks(s: Sys) {
    && (s.lock == ByExecutor <==>
          s.exec.Locked? || s.exec.Checked? || s.exec.Permitted? || s.exec.Inserted? || s.exec.Releasing?)
    && (s.lock == ByWorker <==> UnderLock(s.worker))
  }

  /** At most one reconciliation is anywhere between its request and its result. */
  predicate Tokens(s: Sys) {
    && |s.requests| + |s.results| + (if s.worker.Sleeping? then 0 else 1) == (if s.acct.pending then 1 else 0)
    && (s.acct.pending ==> Reconciliation in s.acct.m.exec.pauses)
    && (s.requests != [] ==> s.requests[0] == s.acct.generation)
    && (s.results != [] ==> s.results[0] == s.acct.generation)
    && (!s.worker.Sleeping? ==> s.worker.gen == s.acct.generation)
  }

  predicate Quiet(s: Sys) {
    s.x.wire == {} && s.x.open == {} && !s.exec.Permitted? && !s.exec.Inserted?
  }

  ghost predicate WorkerKnows(s: Sys) {
    && (s.worker.Listed? ==> s.worker.before <= Ids(s.x.accepted))
    && ((s.worker.Settled? || s.worker.Canceled?) && s.worker.settled ==> s.x.wire == {})
    && (s.worker.Judged? && s.worker.verdict ==> s.x.wire == {} && s.x.open == {})
    && (s.worker.Verified? || s.results != [] ==> Quiet(s))
  }

  ghost predicate FeedTrue(f: Feed, x: X.Exchange) {
    && f.seen <= |x.log|
    && (f.known ==> f.position == X.Position(x.base, x.log[..f.seen]))
    && (f.poll.PollRead? ==>
          f.seen <= f.poll.seen <= |x.log| && f.poll.position == X.Position(x.base, x.log[..f.poll.seen]))
    && (f.poll.PollStored? ==> f.known)
  }

  /** Whether the next publication to be counted will include fill `i`. */
  predicate NextCovers(f: Feed, i: nat) {
    match f.poll
    case PollIdle => true
    case PollRead(_, n) => i < n
    case PollStored => i < f.seen
  }

  /** Fill `i` is in the published position, or the armed gate outlasts every
      publication that could miss it, or a reconciliation will re-arm the gate. */
  predicate Covered(m: Manager, f: Feed, i: nat) {
    || i < f.seen
    || (m.gate.Some? && m.gate.value >= f.version + 2)
    || (m.gate.Some? && m.gate.value == f.version + 1 && NextCovers(f, i))
    || Reconciliation in m.exec.pauses
  }

  /** Every fill that no slot still reserves for is covered. */
  ghost predicate Accounted(s: Sys) {
    forall i :: 0 <= i < |s.x.log| && (s.x.log[i].order !in Tracked(s.acct.m) || i in s.delivered) ==>
      Covered(s.acct.m, s.feed, i)
  }

  /** The reading a quote is working from misses only fills of tracked orders. */
  ghost predicate QuotingKnows(s: Sys) {
    s.main.Quoting? ==>
      && !Blocked(s.acct.m.exec) && s.acct.m.gate == None
      && s.main.seen <= |s.x.log|
      && s.main.position == X.Position(s.x.base, s.x.log[..s.main.seen])
      && (forall i :: s.main.seen <= i < |s.x.log| ==> s.x.log[i].order in Tracked(s.acct.m) && i !in s.delivered)
  }

  predicate RiskKnown(s: Sys) {
    RiskData in s.acct.m.exec.pauses || s.feed.known
  }

  predicate DeliveredBounded(s: Sys) {
    forall i :: i in s.delivered ==> i < |s.x.log|
  }

  // --------------------------------------------------------------- the mail

  /** What a queued event reports is what was meant, and what was meant is so. */
  predicate Trusted(x: X.Exchange, mail: Mail) {
    && C.TrueOf(x, mail.about) && C.ReadsRight(x, mail.event, mail.about)
    && (mail.about.OnFill? ==> mail.event.OrderFilledEvent? || mail.event.AmbiguousResponse?)
  }

  ghost predicate MailTrue(s: Sys) {
    forall k :: 0 <= k < |s.mail| ==> Trusted(s.x, s.mail[k])
  }

  /** A bound exchange id is the one the exchange gave the slot's order. */
  predicate BoundRight(x: X.Exchange, slot: Option<LiveOrder>) {
    slot.Some? && slot.value.orderId.Some? ==>
      slot.value.ord in x.ids && x.ids[slot.value.ord] == slot.value.orderId.value
  }

  predicate NumbersTrue(s: Sys) {
    var m := s.acct.m;
    && BoundRight(s.x, m.bids[0]) && BoundRight(s.x, m.bids[1])
    && BoundRight(s.x, m.asks[0]) && BoundRight(s.x, m.asks[1])
  }

  /** Among the first `k` events is a report of fill `i`, or a lost connection. */
  predicate Announced(mail: seq<Mail>, k: nat, i: nat)
    requires k <= |mail|
  {
    exists j :: 0 <= j < k && (mail[j].event.Disconnected? || (mail[j].about.OnFill? && mail[j].about.index == i))
  }

  predicate LossAhead(mail: seq<Mail>) {
    exists j :: 0 <= j < |mail| && mail[j].event.Disconnected?
  }

  /** By the time the first `k` events are served, fill `i` of a tracked order is
      delivered or a reconciliation is under way. */
  predicate InTime(s: Sys, k: nat, i: nat)
    requires k <= |s.mail| && i < |s.x.log|
  {
    || i in s.delivered || s.x.log[i].order !in Tracked(s.acct.m)
    || Reconciliation in s.acct.m.exec.pauses || Announced(s.mail, k, i)
  }

  ghost predicate ToldInTime(s: Sys) {
    forall i :: i in s.told ==> i < |s.x.log| && InTime(s, |s.mail|, i)
  }

  /** Every fill of a canceled order comes to the manager before its cancellation. */
  ghost predicate FillsFirst(s: Sys) {
    forall k, i ::
      && 0 <= k < |s.mail| && 0 <= i < |s.x.log|
      && s.mail[k].about.OnCancel? && s.mail[k].about.done && s.x.log[i].order == s.mail[k].about.order
      ==> InTime(s, k, i)
  }

  predicate LossKnown(s: Sys) {
    Reconciliation in s.acct.m.exec.pauses || LossAhead(s.mail)
  }

  /** A fill that may never be reported is behind a loss that stops trading. */
  ghost predicate GapsKnown(s: Sys) {
    && s.cut <= |s.x.log|
    && forall i :: 0 <= i < |s.x.log| && i !in s.told && (i < s.cut || !s.link.Up?) ==>
         s.x.log[i].order in Tracked(s.acct.m) ==> s.link.Falling? || LossKnown(s)
  }

  /** While the connection is down nothing can trade unless the loss is known. */
  predicate Dormant(s: Sys) {
    && s.x.wire == {} && s.x.open == {} && !s.exec.Permitted? && !s.exec.Inserted?
    && (s.exec.Checked? ==> s.exec.tag < s.acct.m.exec.generation)
  }

  ghost predicate MailPart(s: Sys) {
    && MailTrue(s) && NumbersTrue(s)
    && ToldInTime(s) && FillsFirst(s) && GapsKnown(s)
    && (s.link.Down? ==> LossKnown(s) || Dormant(s))
  }

  // ----------------------------------------------------------- the invariant

  /** What holds however responses are read: numbers, tags, locks and tokens. */
  ghost predicate Core(s: Sys) {
    && Books(s)
    && Stale(s.issued, s.queue, s.exec, s.acct.m.exec)
    && FreshQueue(s.queue, s.exec, s.written)
    && Locks(s) && Tokens(s)
  }

  /** The parts about the worker and unresolved requests. */
  ghost predicate CleanupPart(s: Sys) {
    PendingCovers(s) && WorkerKnows(s)
  }

  /** The parts about fills and the published position. */
  ghost predicate PositionPart(s: Sys) {
    FeedTrue(s.feed, s.x) && Accounted(s) && QuotingKnows(s) && RiskKnown(s) && DeliveredBounded(s)
  }

  ghost predicate Base(s: Sys) {
    Core(s) && NoStray(s) && CleanupPart(s) && PositionPart(s)
  }

  /** And what holds while no response is misread. */
  ghost predicate Inv(s: Sys) {
    Base(s) && MailPart(s)
  }

  // ------------------------------------------------------------- small facts

  lemma SameNumberSameOrder(issued: seq<Order>, a: Order, b: Order)
    requires Registered(issued, a) && Registered(issued, b) && a.id.number == b.id.number
    ensures a == b
  {
  }

  /** An id the exchange has decided is not the id of an order still on the wire
      or of one about to be written. */
  lemma DecidedIsNotPending(s: Sys, id: ClientId)
    requires Books(s) && FreshQueue(s.queue, s.exec, s.written)
    requires id in Ids(s.x.accepted + s.x.rejected)
    ensures id !in Ids(s.x.wire)
    ensures forall o :: o in ExecOrder(s.exec) ==> o.id != id
  {
    var d :| d in s.x.accepted + s.x.rejected && d.id == id;
    assert d in KnownOrders(s);
    forall o | o in s.x.wire + ExecOrder(s.exec) && o.id == id
      ensures false
    {
      assert o in KnownOrders(s);
      SameNumberSameOrder(s.issued, o, d);
    }
  }

  lemma CurrentPop(queue: seq<Msg>, generation: nat)
    requires queue != []
    ensures Current(queue, generation) ==
      Current(queue[1..], generation)
        + (if queue[0].decision.Send? && queue[0].tag == generation then {queue[0].decision.order} else {})
  {
    var rest := queue[1..];
    forall o | o in Current(queue, generation)
      && !(queue[0].decision.Send? && queue[0].tag == generation && queue[0].decision.order == o)
      ensures o in Current(rest, generation)
    {
      var k :| 0 <= k < |queue| && queue[k].decision.Send? && queue[k].tag == generation
        && queue[k].decision.order == o;
      assert rest[k - 1] == queue[k];
    }
    forall o | o in Current(rest, generation)
      ensures o in Current(queue, generation)
    {
      var k :| 0 <= k < |rest| && rest[k].decision.Send? && rest[k].tag == generation && rest[k].decision.order == o;
      assert queue[k + 1] == rest[k];
    }
  }

  lemma IdsSubset(a: set<Order>, b: set<Order>)
    requires a <= b
    ensures Ids(a) <= Ids(b)
  {
  }
}
