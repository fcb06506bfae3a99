// What the exchange means by a response, and when the order socket reads it so.
// Assumptions are only about what the exchange sends; how the client interprets
// it is the code of module OrderSocket.
module Correspondence {
  import opened Orders
  import S = OrderSocket
  import X = Exchange

  /** What one response is about. Submission and cancel answers are told apart
      by the exchange, not necessarily by the fields of the response. */
  datatype Meaning =
    | OnSubmission(order: Order, accepted: bool)
    | OnCancel(order: Order, done: bool)
    | OnFill(index: nat, full: bool)
    | NothingSaid

  // ----------------------------------------------- what the exchange sends

  /** The exchange says what is so: an order was accepted or rejected; a canceled
      order was accepted and is closed; a fill happened, the last one closing. */
  predicate TrueOf(x: X.Exchange, about: Meaning) {
    match about
    case OnSubmission(o, accepted) => if accepted then o in x.accepted else o in x.rejected
    case OnCancel(o, done) => done ==> o in x.accepted && o !in x.open
    case OnFill(i, full) => i < |x.log| && (full ==> x.log[i].order !in x.open)
    case NothingSaid => true
  }

  /** The ids in a response's data are the order's own; zero stands for no number. */
  predicate NamesOrder(x: X.Exchange, o: Order, d: S.Data) {
    && (d.client.Some? ==> d.client.value == o.id)
    && (S.OrderIdOr0(d) != 0 ==> o in x.ids && x.ids[o] == S.OrderIdOr0(d))
  }

  predicate SaysFilled(r: S.Response) {
    r.data.Some? && (r.data.value.status == Some(S.Filled) || (r.topic == S.OrderFilled && r.data.value.status.None?))
  }

  /** The forms a message may take. A method, if there is one, is the right one; an
      echoed request id is that of the request answered; fill reports echo none. */
  predicate Phrases(x: X.Exchange, s: S.Socket, r: S.Response, about: Meaning) {
    match about
    case OnSubmission(o, accepted) =>
      && (S.Named(r.topic) ==> r.topic == S.OrderNew)
      && (r.code.Some? ==> (r.code.value == 0 <==> accepted))
      && (r.data.Some? ==> NamesOrder(x, o, r.data.value))
      && (S.Echoes(s, r) ==> s.pending[r.requestId.value.number] == S.New(o.id))
    case OnCancel(o, done) =>
      && (S.Named(r.topic) ==> r.topic == S.OrderCancel)
      && (r.code.Some? ==> (r.code.value == 0 <==> done))
      && (r.data.Some? ==> NamesOrder(x, o, r.data.value))
      && (S.Echoes(s, r) ==>
            || s.pending[r.requestId.value.number] == S.CancelByClientId(o.id)
            || (o in x.ids && s.pending[r.requestId.value.number] == S.CancelByOrderId(x.ids[o])))
    case OnFill(i, full) =>
      && (r.topic == S.OrderFill || r.topic == S.OrderFilled)
      && !S.Echoes(s, r)
      && (r.data.Some? ==> i < |x.log| && NamesOrder(x, x.log[i].order, r.data.value))
      && (SaysFilled(r) ==> full)
    case NothingSaid =>
      && !S.Echoes(s, r)
      && (r.data.Some? ==>
            && r.topic != S.OrderFill && r.topic != S.OrderFilled
            && (r.code.None? || (r.data.value.client.None? && S.OrderIdOr0(r.data.value) == 0)))
  }

  // ---------------------------------------------- what the client makes of it

  predicate NamedBy(x: X.Exchange, o: Order, orderId: int, client: Option<ClientId>) {
    && (client.Some? ==> client.value == o.id)
    && (orderId != 0 ==> o in x.ids && x.ids[o] == orderId)
  }

  /** The event reports what was meant. */
  predicate ReadsRight(x: X.Exchange, e: S.Event, about: Meaning) {
    match e
    case OrderAccepted(id, orderId) =>
      && ((about.OnSubmission? && about.accepted) || (about.OnCancel? && about.done))
      && NamedBy(x, about.order, orderId, Some(id))
    case OrderRejected(id) => about.OnSubmission? && !about.accepted && about.order.id == id
    case OrderCanceled(orderId, client) => about.OnCancel? && about.done && NamedBy(x, about.order, orderId, client)
    case OrderFilledEvent(orderId, client, status, _) =>
      && about.OnFill? && about.index < |x.log|
      && NamedBy(x, x.log[about.index].order, orderId, client)
      && (status == Some(S.Filled) ==> about.full)
    case _ => about.OnFill? ==> e.AmbiguousResponse?
  }

  /** A guess gone wrong: an acceptance taken for a cancel's answer, or a failed
      cancel taken for a submission's. */
  predicate Misread(s: S.Socket, r: S.Response, about: Meaning) {
    !S.Legible(s, r) && if r.code.value == 0 then about.OnSubmission? else about.OnCancel?
  }

  /** Whatever the exchange sends, the event reports what was meant exactly when
      the response is not misread, and a misread one is reported as a cancellation
      or a rejection. */
  lemma ReadsRightIff(x: X.Exchange, s: S.Socket, r: S.Response, about: Meaning)
    requires Phrases(x, s, r, about)
    ensures var e := S.HandleResponse(s, r).1;
      && (e.Some? ==> (ReadsRight(x, e.value, about) <==> !Misread(s, r, about)))
      && (Misread(s, r, about) ==> e.Some? && (e.value.OrderCanceled? || e.value.OrderRejected?))
      && (about.OnFill? ==> e.Some? && (e.value.OrderFilledEvent? || e.value.AmbiguousResponse?))
  {
    if S.SettlesByClientId(s, r) {
      assert S.DropConfirmed(s, {r.data.value.client.value}).cancels == s.cancels;
    }
  }

  /** A verdict is true of the exchange whatever the exchange meant exactly when
      the response is legible. */
  lemma TrueWhateverMeantIff(s: S.Socket, r: S.Response)
    requires S.HandleResponse(s, r).1.Some?
    ensures S.Legible(s, r) <==>
      forall x: X.Exchange, about: Meaning :: X.Sane(x) && TrueOf(x, about) && Phrases(x, s, r, about) ==>
        ReadsRight(x, S.HandleResponse(s, r).1.value, about)
  {
    if S.Legible(s, r) {
      forall x: X.Exchange, about: Meaning | Phrases(x, s, r, about)
        ensures ReadsRight(x, S.HandleResponse(s, r).1.value, about)
      {
        ReadsRightIff(x, s, r, about);
      }
    } else {
      var d := r.data.value;
      var id := if d.client.Some? then d.client.value else ClientId(0, 0, 0);
      var o := Order(id, Buy, 0, 1.0, 1.0);
      var number := if S.OrderIdOr0(d) != 0 then S.OrderIdOr0(d) else 1;
      var x := X.Exchange({}, {o}, {o}, {}, map[o := number], [], 0.0);
      var about := if r.code.value == 0 then OnSubmission(o, true) else OnCancel(o, false);
      assert X.Sane(x) && TrueOf(x, about) && Phrases(x, s, r, about);
      ReadsRightIff(x, s, r, about);
      assert Misread(s, r, about);
    }
  }

  // ------------------------------------- what each answer is reported as

  /** The exchange's number in a response's data, zero if there is none. */
  function NumberIn(r: S.Response): int {
    if r.data.Some? && r.data.value.orderId.Some? then r.data.value.orderId.value else 0
  }

  /** The answer says which order it is about. */
  predicate Identified(s: S.Socket, r: S.Response) {
    r.code.Some? && (S.Echoes(s, r) || (r.data.Some? && r.data.value.client.Some?))
  }

  /** What an identified answer to a submission is reported as: its acceptance or
      its rejection, unless it has neither method nor known request id and comes
      while the order's cancel is awaited. */
  lemma SubmissionIsReported(x: X.Exchange, s: S.Socket, r: S.Response, o: Order, accepted: bool)
    requires Phrases(x, s, r, OnSubmission(o, accepted)) && Identified(s, r)
    ensures S.HandleResponse(s, r).1 == Some(
      if !S.Echoes(s, r) && r.topic != S.OrderNew && o.id in s.cancels then
        if accepted then S.OrderCanceled(NumberIn(r), Some(o.id)) else S.CancelFailed(NumberIn(r))
      else if !accepted then S.OrderRejected(o.id)
      else if S.Echoes(s, r) then S.OrderAccepted(o.id, 0)
      else if NumberIn(r) != 0 then S.OrderAccepted(o.id, NumberIn(r))
      else S.OrderSubmissionAcknowledged)
  {
    if S.SettlesByClientId(s, r) {
      assert S.DropConfirmed(s, {r.data.value.client.value}).cancels == s.cancels;
    }
  }

  /** And of a cancel: the request's own order if it echoes one, else the ids in
      its data, unless nothing tells it from a submission's answer. */
  lemma CancelIsReported(x: X.Exchange, s: S.Socket, r: S.Response, o: Order, done: bool)
    requires Phrases(x, s, r, OnCancel(o, done)) && Identified(s, r)
    ensures S.HandleResponse(s, r).1 == Some(
      if S.Echoes(s, r) then
        if s.pending[r.requestId.value.number] == S.CancelByClientId(o.id) then
          if done then S.OrderCanceled(0, Some(o.id)) else S.CancelFailed(0)
        else
          if done then S.OrderCanceled(x.ids[o], None) else S.CancelFailed(x.ids[o])
      else if r.topic == S.OrderCancel || o.id in s.cancels then
        if done then S.OrderCanceled(NumberIn(r), Some(o.id)) else S.CancelFailed(NumberIn(r))
      else if !done then S.OrderRejected(o.id)
      else if NumberIn(r) != 0 then S.OrderAccepted(o.id, NumberIn(r))
      else S.OrderSubmissionAcknowledged)
  {
    if S.SettlesByClientId(s, r) {
      assert S.DropConfirmed(s, {r.data.value.client.value}).cancels == s.cancels;
    }
  }

  /** A fill report with data is reported with its ids, status and quantity. */
  lemma FillIsReported(x: X.Exchange, s: S.Socket, r: S.Response, i: nat, full: bool)
    requires Phrases(x, s, r, OnFill(i, full))
    ensures S.HandleResponse(s, r).1 == Some(
      if r.data.None? then S.AmbiguousResponse
      else
        var d := r.data.value;
        var status := if d.status.None? && r.topic == S.OrderFilled then Some(S.Filled) else d.status;
        S.OrderFilledEvent(NumberIn(r), d.client, status, d.qtyUsable))
  {
  }
}
