// The order socket's correlation state: which new-order requests are still
// unanswered, which cancels are awaited, and how each response is routed.
module OrderSocket {
  import opened Orders

  datatype PendingRequest = New(id: ClientId) | CancelByClientId(id: ClientId) | CancelByOrderId(orderId: int)

  /** `pending` is keyed by the number in the request id this client generated. */
  datatype Socket = Socket(pending: map<nat, PendingRequest>, cancels: set<ClientId>, nextRequest: nat)

  /** The client ids of new orders whose fate is still unknown. */
  function Unresolved(s: Socket): set<ClientId> {
    set r | r in s.pending && s.pending[r].New? :: s.pending[r].id
  }

  predicate SubmissionsSettled(s: Socket) {
    forall r :: r in s.pending ==> !s.pending[r].New?
  }

  function AddRequest(s: Socket, request: PendingRequest): Socket {
    s.(pending := s.pending[s.nextRequest := request], nextRequest := s.nextRequest + 1)
  }

  /** Forget new-order requests whose client id REST has reported. */
  function DropConfirmed(s: Socket, ids: set<ClientId>): Socket {
    s.(pending := map r | r in s.pending && !(s.pending[r].New? && s.pending[r].id in ids) :: s.pending[r])
  }

  function ClearTracking(s: Socket): Socket {
    s.(pending := map[], cancels := {})
  }

  /** Losing the connection forgets awaited cancels but no submission. */
  function Drop(s: Socket): Socket {
    s.(cancels := {})
  }

  // --------------------------------------------------------------- responses

  datatype Topic = Absent | OrderNew | OrderCancel | OrderFill | OrderFilled | Unknown

  /** A request id is one this client generated, or something else. */
  datatype RequestId = Own(number: nat) | Foreign

  /** What a fill report says about its order, read case-insensitively. */
  datatype FillStatus = Filled | Partial | OtherStatus

  /** The fields read out of a response's data; `qtyUsable` says whether its fill
      quantity is a positive finite number. */
  datatype Data = Data(client: Option<ClientId>, orderId: Option<int>, status: Option<FillStatus>, qtyUsable: bool)

  datatype Response = Response(topic: Topic, code: Option<int>, requestId: Option<RequestId>, data: Option<Data>)

  datatype Event =
    | OrderAccepted(id: ClientId, orderId: int)
    | OrderSubmissionAcknowledged
    | OrderRejected(id: ClientId)
    | OrderFilledEvent(orderId: int, client: Option<ClientId>, status: Option<FillStatus>, qtyUsable: bool)
    | OrderCanceled(orderId: int, client: Option<ClientId>)
    | CancelSubmissionAcknowledged
    | CancelFailed(orderId: int)
    | AmbiguousResponse
    | Disconnected
    | Authenticated

  predicate Correlates(s: Socket, r: Response) {
    r.code.Some? && r.requestId.Some? && r.requestId.value.Own? && r.requestId.value.number in s.pending
  }

  function Correlated(s: Socket, request: PendingRequest, code: int): (Socket, Event) {
    match request
    case New(id) => (s, if code == 0 then OrderAccepted(id, 0) else OrderRejected(id))
    case CancelByClientId(id) =>
      (s.(cancels := s.cancels - {id}), if code == 0 then OrderCanceled(0, Some(id)) else CancelFailed(0))
    case CancelByOrderId(x) => (s, if code == 0 then OrderCanceled(x, None) else CancelFailed(x))
  }

  function OrderIdOr0(d: Data): int {
    if d.orderId.Some? then d.orderId.value else 0
  }

  function OrderResponse(d: Data, code: int): Event {
    if code == 0 then
      if d.client.None? || OrderIdOr0(d) == 0 then OrderSubmissionAcknowledged
      else OrderAccepted(d.client.value, OrderIdOr0(d))
    else if d.client.None? then AmbiguousResponse
    else OrderRejected(d.client.value)
  }

  function CancelResponse(d: Data, code: int): Event {
    if code == 0 then
      if OrderIdOr0(d) == 0 && d.client.None? then CancelSubmissionAcknowledged
      else OrderCanceled(OrderIdOr0(d), d.client)
    else if OrderIdOr0(d) == 0 && d.client.None? then AmbiguousResponse
    else CancelFailed(OrderIdOr0(d))
  }

  /** A coded answer that carries a client id no cancel is awaiting settles that submission. */
  predicate SettlesByClientId(s: Socket, r: Response) {
    r.code.Some? && r.topic != OrderCancel && r.data.Some? && r.data.value.client.Some?
      && r.data.value.client.value !in s.cancels
  }

  function AwaitCancel(s: Socket, d: Data): Socket {
    if d.client.Some? then s.(cancels := s.cancels - {d.client.value}) else s
  }

  predicate HasNew(s: Socket) {
    exists r :: r in s.pending && s.pending[r].New?
  }

  predicate HasCancel(s: Socket) {
    exists r :: r in s.pending && !s.pending[r].New?
  }

  function Methodless(s: Socket, r: Response): (Socket, Event) {
    if r.data.None? then
      if r.code == Some(0) && HasNew(s) && !HasCancel(s) then (s, OrderSubmissionAcknowledged)
      else if r.code == Some(0) && HasCancel(s) && !HasNew(s) then (s, CancelSubmissionAcknowledged)
      else (s, AmbiguousResponse)
    else if r.code.None? then (s, AmbiguousResponse)
    else
      var d := r.data.value;
      if d.client.Some? && d.client.value in s.cancels then (AwaitCancel(s, d), CancelResponse(d, r.code.value))
      else if d.client.Some? then (s, OrderResponse(d, r.code.value))
      else if d.orderId.Some? then (s, CancelResponse(d, r.code.value))
      else (s, AmbiguousResponse)
  }

  function FillReport(d: Data, status: Option<FillStatus>): Event {
    OrderFilledEvent(OrderIdOr0(d), d.client, status, d.qtyUsable)
  }

  function ByMethod(s: Socket, r: Response): (Socket, Event) {
    match r.topic
    case OrderNew =>
      if r.code.None? then (s, AmbiguousResponse)
      else if r.data.Some? then (s, OrderResponse(r.data.value, r.code.value))
      else (s, if r.code.value == 0 then OrderSubmissionAcknowledged else AmbiguousResponse)
    case OrderCancel =>
      if r.code.None? then (s, AmbiguousResponse)
      else if r.data.Some? then (AwaitCancel(s, r.data.value), CancelResponse(r.data.value, r.code.value))
      else (s, if r.code.value == 0 then CancelSubmissionAcknowledged else AmbiguousResponse)
    case OrderFill => (s, if r.data.Some? then FillReport(r.data.value, r.data.value.status) else AmbiguousResponse)
    case OrderFilled =>
      (s, if r.data.Some? then FillReport(r.data.value, if r.data.value.status.Some? then r.data.value.status
                                          else Some(Filled))
          else AmbiguousResponse)
    case Absent => Methodless(s, r)
    case Unknown => Methodless(s, r)
  }

  /** A duplicate of an answer already settled, or one from an earlier connection. */
  predicate AlreadySettled(r: Response) {
    r.code.Some? && r.requestId.Some? && r.requestId.value.Own? && r.topic == Absent && r.data.None?
  }

  function HandleResponse(s: Socket, r: Response): (Socket, Option<Event>) {
    if Correlates(s, r) then
      var n := r.requestId.value.number;
      var (s1, e) := Correlated(s.(pending := s.pending - {n}), s.pending[n], r.code.value);
      (s1, Some(e))
    else if AlreadySettled(r) then (s, None)
    else
      var s0 := if SettlesByClientId(s, r) then DropConfirmed(s, {r.data.value.client.value}) else s;
      var (s1, e) := ByMethod(s0, r);
      (s1, Some(e))
  }

  // -------------------------------------------------------------- properties

  /** The new order a response answers, if its code settles one. */
  function Answers(s: Socket, r: Response): Option<ClientId> {
    if Correlates(s, r) then
      var q := s.pending[r.requestId.value.number];
      if q.New? then Some(q.id) else None
    else if !AlreadySettled(r) && SettlesByClientId(s, r) then r.data.value.client
    else None
  }

  lemma DropConfirmedLeaves(s: Socket, ids: set<ClientId>)
    ensures Unresolved(DropConfirmed(s, ids)) == Unresolved(s) - ids
    ensures DropConfirmed(s, ids).pending.Keys <= s.pending.Keys
  {
    var t := DropConfirmed(s, ids);
    forall id | id in Unresolved(s) - ids
      ensures id in Unresolved(t)
    {
      var r :| r in s.pending && s.pending[r].New? && s.pending[r].id == id;
      assert r in t.pending;
    }
  }

  /** Submissions are settled exactly when no client id's fate is unknown, whatever
      cancels are outstanding. */
  lemma SettledIff(s: Socket)
    ensures SubmissionsSettled(s) <==> Unresolved(s) == {}
  {
    forall r | r in s.pending && s.pending[r].New?
      ensures s.pending[r].id in Unresolved(s)
    {
    }
  }

  lemma AddRequestAdds(s: Socket, request: PendingRequest)
    requires forall r :: r in s.pending ==> r < s.nextRequest
    ensures var t := AddRequest(s, request);
      && Unresolved(t) == Unresolved(s) + (if request.New? then {request.id} else {})
      && (forall r :: r in t.pending ==> r < t.nextRequest)
  {
    var t := AddRequest(s, request);
    forall id | id in Unresolved(s)
      ensures id in Unresolved(t)
    {
      var r :| r in s.pending && s.pending[r].New? && s.pending[r].id == id;
      assert t.pending[r] == s.pending[r];
    }
    if request.New? {
      assert t.pending[s.nextRequest] == request;
    }
  }

  lemma RemoveKeyLeaves(s: Socket, n: nat)
    requires n in s.pending
    ensures var t := s.(pending := s.pending - {n});
      Unresolved(s) <= Unresolved(t) + (if s.pending[n].New? then {s.pending[n].id} else {})
  {
    var t := s.(pending := s.pending - {n});
    forall id | id in Unresolved(s) && !(s.pending[n].New? && s.pending[n].id == id)
      ensures id in Unresolved(t)
    {
      var r :| r in s.pending && s.pending[r].New? && s.pending[r].id == id;
      assert r in t.pending;
    }
  }

  lemma RoutingKeepsPending(s: Socket, r: Response)
    ensures ByMethod(s, r).0.pending == s.pending && ByMethod(s, r).0.nextRequest == s.nextRequest
  {
  }

  /** The one way a response loses an unresolved submission is by being a coded
      answer to that very submission. */
  lemma OnlyAnswersResolve(s: Socket, r: Response)
    ensures var (t, e) := HandleResponse(s, r);
      && t.pending.Keys <= s.pending.Keys && t.nextRequest == s.nextRequest
      && Unresolved(s) <= Unresolved(t) + (if Answers(s, r).Some? then {Answers(s, r).value} else {})
      && (Answers(s, r).Some? ==> r.code.Some?)
  {
    if Correlates(s, r) {
      var n := r.requestId.value.number;
      RemoveKeyLeaves(s, n);
      var s0 := s.(pending := s.pending - {n});
      assert HandleResponse(s, r).0.pending == s0.pending;
      SamePendingSameUnresolved(s0, HandleResponse(s, r).0);
    } else if !AlreadySettled(r) {
      var s0 := if SettlesByClientId(s, r) then DropConfirmed(s, {r.data.value.client.value}) else s;
      if SettlesByClientId(s, r) {
        DropConfirmedLeaves(s, {r.data.value.client.value});
      }
      RoutingKeepsPending(s0, r);
      SamePendingSameUnresolved(s0, HandleResponse(s, r).0);
    }
  }

  lemma SamePendingSameUnresolved(s: Socket, t: Socket)
    requires s.pending == t.pending
    ensures Unresolved(s) == Unresolved(t)
  {
  }

  // ------------------------------------------------- answers without a method

  /** The method tells submissions, cancels and fills apart. */
  predicate Named(topic: Topic) {
    topic == OrderNew || topic == OrderCancel || topic == OrderFill || topic == OrderFilled
  }

  /** The response carries a code and the id of a request still pending. */
  predicate Echoes(s: Socket, r: Response) {
    && r.code.Some? && r.requestId.Some?
    && r.requestId.value.Own? && r.requestId.value.number in s.pending
  }

  /** A coded answer with a client id but neither method nor a known request id
      is read as a cancel's answer exactly when that cancel is still awaited. */
  lemma MethodlessIsCancelIff(s: Socket, r: Response)
    requires !Named(r.topic) && !Echoes(s, r)
    requires r.code.Some? && r.data.Some? && r.data.value.client.Some?
    ensures var e := HandleResponse(s, r).1;
      && e.Some?
      && (r.data.value.client.value in s.cancels <==> e.value.OrderCanceled? || e.value.CancelFailed?)
      && (r.data.value.client.value !in s.cancels <==>
            e.value.OrderAccepted? || e.value.OrderSubmissionAcknowledged? || e.value.OrderRejected?)
  {
    assert DropConfirmed(s, {r.data.value.client.value}).cancels == s.cancels;
  }

  /** The response raises no verdict that depends on guessing what it answers:
      it echoes a pending request id, or names its method, or lacks a code or
      data, or its code and ids lead to no cancel confirmation or rejection. */
  predicate Legible(s: Socket, r: Response) {
    || Echoes(s, r) || Named(r.topic) || r.code.None? || r.data.None?
    || (var d := r.data.value;
        if r.code.value == 0 then (if d.client.Some? then d.client.value !in s.cancels else OrderIdOr0(d) == 0)
        else d.client.None? || d.client.value in s.cancels)
  }

  /** Guessing is exactly what raises those two verdicts otherwise. */
  lemma IllegibleIsGuessed(s: Socket, r: Response)
    requires !Legible(s, r)
    ensures var e := HandleResponse(s, r).1;
      && e.Some?
      && e.value == (if r.code.value == 0 then OrderCanceled(OrderIdOr0(r.data.value), r.data.value.client)
                     else OrderRejected(r.data.value.client.value))
  {
    if r.data.value.client.Some? {
      assert DropConfirmed(s, {r.data.value.client.value}).cancels == s.cancels;
    }
  }

  /** The ids a response itself supports: those of the pending request it echoes,
      else those in its data. */
  predicate NamesSubmission(s: Socket, r: Response, id: ClientId) {
    if Echoes(s, r) then s.pending[r.requestId.value.number] == New(id)
    else r.data.Some? && r.data.value.client == Some(id)
  }

  predicate NamesCancel(s: Socket, r: Response, orderId: int, client: Option<ClientId>) {
    if Echoes(s, r) then
      match s.pending[r.requestId.value.number]
      case New(_) => false
      case CancelByClientId(id) => orderId == 0 && client == Some(id)
      case CancelByOrderId(x) => orderId == x && client == None
    else r.data.Some? && OrderIdOr0(r.data.value) == orderId && r.data.value.client == client
  }

  /** No verdict is made up: acceptance, rejection and cancellation carry the ids
      the response supports and the sign of its code. */
  lemma VerdictsMatchCodes(s: Socket, r: Response)
    ensures var e := HandleResponse(s, r).1;
      && (e.Some? && e.value.OrderAccepted? ==> r.code == Some(0) && NamesSubmission(s, r, e.value.id))
      && (e.Some? && e.value.OrderRejected? ==> r.code.Some? && r.code != Some(0) && NamesSubmission(s, r, e.value.id))
      && (e.Some? && e.value.OrderCanceled? ==> r.code == Some(0) && NamesCancel(s, r, e.value.orderId, e.value.client))
  {
  }

  /** The answer "cannot cancel" for an order whose cancel is no longer awaited is
      reported as that order's rejection, with or without an order id. */
  lemma LateCancelFailureReadsAsRejection(id: ClientId, topic: Topic, orderId: Option<int>, status: Option<FillStatus>,
                                          usable: bool)
    requires !Named(topic)
    ensures var s := Socket(map[], {}, 0);
      HandleResponse(s, Response(topic, Some(1), None, Some(Data(Some(id), orderId, status, usable)))).1
        == Some(OrderRejected(id))
  {
  }

  /** The answer "accepted" for an order whose cancel is already awaited is
      reported as that order's cancellation. */
  lemma EarlyCancelMakesAcceptanceReadAsCancel(id: ClientId, orderId: int)
    ensures var s := Socket(map[0 := New(id), 1 := CancelByClientId(id)], {id}, 2);
      HandleResponse(s, Response(Absent, Some(0), None, Some(Data(Some(id), Some(orderId), None, false)))).1
        == Some(OrderCanceled(orderId, Some(id)))
  {
  }

  // ----------------------------------------------- the rest of the routing

  /** What a response does to the bookkeeping: an echoed request is forgotten, with
      the wait for its cancel; else a coded answer naming a client id settles that
      submission, or ends the wait for its cancel; nothing else changes. */
  lemma AnswersSettle(s: Socket, r: Response)
    ensures var t := HandleResponse(s, r).0; var named := r.code.Some? && r.data.Some? && r.data.value.client.Some?;
      && t.nextRequest == s.nextRequest
      && (if Echoes(s, r) then
            var n := r.requestId.value.number;
            && t.pending == s.pending - {n}
            && t.cancels == (if s.pending[n].CancelByClientId? then s.cancels - {s.pending[n].id} else s.cancels)
          else if named && r.topic != OrderCancel && r.data.value.client.value !in s.cancels then
            && t.cancels == s.cancels
            && (forall q :: q in t.pending <==> q in s.pending && s.pending[q] != New(r.data.value.client.value))
            && (forall q :: q in t.pending ==> t.pending[q] == s.pending[q])
          else
            && t.pending == s.pending
            && t.cancels == (if named && (r.topic == OrderCancel || !Named(r.topic))
                             then s.cancels - {r.data.value.client.value} else s.cancels))
  {
    if r.topic == OrderCancel && r.data.Some? && r.data.value.client.Some? {
      assert r.data.value.client.value !in s.cancels ==> s.cancels - {r.data.value.client.value} == s.cancels;
    }
  }

  predicate AwaitsNew(s: Socket) {
    exists q :: q in s.pending && s.pending[q].New?
  }

  predicate AwaitsCancel(s: Socket) {
    exists q :: q in s.pending && (s.pending[q].CancelByClientId? || s.pending[q].CancelByOrderId?)
  }

  /** An answer that identifies no order by client id passes no verdict on one: it
      is acknowledged if its kind is plain and its code zero, ends a cancel if an
      exchange id alone names its order, and otherwise calls for reconciliation. */
  lemma UnidentifiedIsReported(s: Socket, r: Response)
    requires !Echoes(s, r) && r.topic != OrderFill && r.topic != OrderFilled
    requires r.code.None? || r.data.None? || r.data.value.client.None?
    ensures var done := r.code == Some(0); var number := if r.data.Some? then r.data.value.orderId else None;
      HandleResponse(s, r).1 ==
        if r.code.None? then Some(AmbiguousResponse)
        else if r.data.None? && r.topic == Absent && r.requestId.Some? && r.requestId.value.Own? then None
        else if r.topic == OrderNew then Some(if done then OrderSubmissionAcknowledged else AmbiguousResponse)
        else if number.Some? && number != Some(0) then
          Some(if done then OrderCanceled(number.value, None) else CancelFailed(number.value))
        else if !done then Some(AmbiguousResponse)
        else if r.topic == OrderCancel || number == Some(0) then Some(CancelSubmissionAcknowledged)
        else if r.data.None? && AwaitsNew(s) && !AwaitsCancel(s) then Some(OrderSubmissionAcknowledged)
        else if r.data.None? && AwaitsCancel(s) && !AwaitsNew(s) then Some(CancelSubmissionAcknowledged)
        else Some(AmbiguousResponse)
  {
    assert AwaitsNew(s) == HasNew(s);
    assert AwaitsCancel(s) == HasCancel(s) by {
      if HasCancel(s) {
        var q :| q in s.pending && !s.pending[q].New?;
        assert s.pending[q].CancelByClientId? || s.pending[q].CancelByOrderId?;
      }
    }
  }
}
