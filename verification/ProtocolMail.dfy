// The events on their way to the event loop stay true, the exchange ids in the
// slots stay right, and no fill is missed behind a cancellation or a lost
// connection. This is where the assumptions on what the exchange sends are used.
module ProtocolMail {
  import opened Orders
  import opened ExecutionState
  import opened ManagerModel
  import opened ManagerInvariants
  import opened HandlerProofs
  import opened EventLoop
  import opened SlotHistory
  import opened Protocol
  import opened ProtocolInvariants
  import opened ProtocolSlots
  import C = Correspondence
  import Main = ProtocolMain
  import Quoting = ProtocolQuoting
  import S = OrderSocket
  import X = Exchange

  // --------------------------------------------------- what stays true

  /** A later exchange: decisions, numbers and fills are only added, and no order
      once decided opens again. */
  ghost predicate Later(x: X.Exchange, y: X.Exchange) {
    && x.accepted <= y.accepted && x.rejected <= y.rejected
    && (forall o :: o in x.ids ==> o in y.ids && y.ids[o] == x.ids[o])
    && x.log <= y.log
    && y.open * x.accepted <= x.open
  }

  lemma TrustedLater(x: X.Exchange, y: X.Exchange, mail: Mail)
    requires X.Sane(x) && Later(x, y) && Trusted(x, mail)
    ensures Trusted(y, mail)
  {
    if mail.about.OnFill? {
      assert y.log[mail.about.index] == x.log[mail.about.index];
    }
  }

  lemma MailTrueLater(s: Sys, t: Sys)
    requires X.Sane(s.x) && MailTrue(s) && Later(s.x, t.x)
    requires forall k :: 0 <= k < |t.mail| ==> t.mail[k] in s.mail
    ensures MailTrue(t)
  {
    hide X.Sane, Later, Trusted;
    forall k | 0 <= k < |t.mail|
      ensures Trusted(t.x, t.mail[k])
    {
      TrustedLater(s.x, t.x, t.mail[k]);
    }
  }

  lemma ExchangeLater(x: X.Exchange, e: X.Step)
    requires X.Sane(x) && X.Enabled(x, e)
    ensures Later(x, X.Apply(x, e))
  {
  }

  // ------------------------------------------------------ exchange ids

  lemma SlotNumbers(x: X.Exchange, y: X.Exchange, nextNumber: nat, a: Option<LiveOrder>, b: Option<LiveOrder>,
                    bind: Binding, anew: bool)
    requires BoundRight(x, a) && Moves(nextNumber, a, b, bind, anew)
    requires forall o :: o in x.ids ==> o in y.ids && y.ids[o] == x.ids[o]
    requires bind.Some? && a.Some? && a.value.ord.id == bind.value.0 ==>
               a.value.ord in x.ids && x.ids[a.value.ord] == bind.value.1
    ensures BoundRight(y, b)
  {
  }

  /** Ids bound by a step are right if the one it brings is. */
  lemma NumbersStay(s: Sys, t: Sys, bind: Binding, anew: bool)
    requires NumbersTrue(s) && Evolves(s.acct.m, t.acct.m, bind, anew)
    requires forall o :: o in s.x.ids ==> o in t.x.ids && t.x.ids[o] == s.x.ids[o]
    requires bind.Some? ==> forall o :: o in Tracked(s.acct.m) && o.id == bind.value.0 ==>
               o in s.x.ids && s.x.ids[o] == bind.value.1
    ensures NumbersTrue(t)
  {
    hide BoundRight, Moves;
    var m, m1 := s.acct.m, t.acct.m;
    SlotNumbers(s.x, t.x, m.nextNumber, m.bids[0], m1.bids[0], bind, anew);
    SlotNumbers(s.x, t.x, m.nextNumber, m.bids[1], m1.bids[1], bind, anew);
    SlotNumbers(s.x, t.x, m.nextNumber, m.asks[0], m1.asks[0], bind, anew);
    SlotNumbers(s.x, t.x, m.nextNumber, m.asks[1], m1.asks[1], bind, anew);
  }

  /** A step binds only the number the exchange gave the order of that client id. */
  lemma BindsRight(s: Sys, step: Step, o: Order)
    requires Books(s) && MailTrue(s) && Enabled(s, step)
    requires Binds(s, step).Some? && o in Tracked(s.acct.m) && o.id == Binds(s, step).value.0
    ensures o in s.x.ids && s.x.ids[o] == Binds(s, step).value.1
  {
    hide Registry, Sound, Tracked;
    if step == MainDoes(HandleMail) {
      assert Trusted(s.x, s.mail[0]);
      Main.SameIdSameOrder(s, o, s.mail[0].about.order);
    } else {
      Main.SameIdSameOrder(s, o, step.main.order);
    }
  }

  lemma NumbersKept(s: Sys, step: Step)
    requires Books(s) && MailTrue(s) && NumbersTrue(s) && Enabled(s, step) && Configured(s.acct.m.cfg)
    requires Later(s.x, Apply(s, step).x)
    ensures NumbersTrue(Apply(s, step))
  {
    hide Apply, NumbersTrue, Evolves, Binds, Enabled, MailTrue, Books;
    StepEvolves(s, step);
    forall o | Binds(s, step).Some? && o in Tracked(s.acct.m) && o.id == Binds(s, step).value.0
      ensures o in s.x.ids && s.x.ids[o] == Binds(s, step).value.1
    {
      BindsRight(s, step, o);
    }
    NumbersStay(s, Apply(s, step), Binds(s, step), step.MainDoes? && step.main.EndQuote?);
  }

  // ----------------------------------------------------- fills in time

  /** The three statements about when fills reach the manager. */
  ghost predicate Times(s: Sys) {
    ToldInTime(s) && FillsFirst(s) && GapsKnown(s)
  }

  /** Nothing happens to the mail, the connection or the fills, deliveries and
      reconciliation stay, and orders added to the slots have no fills yet. */
  ghost predicate Carries(s: Sys, t: Sys) {
    && t.mail == s.mail && t.told == s.told && t.cut == s.cut && t.link == s.link && t.x.log == s.x.log
    && s.delivered <= t.delivered
    && (Reconciliation in s.acct.m.exec.pauses ==> Reconciliation in t.acct.m.exec.pauses)
    && (forall i :: 0 <= i < |s.x.log| && s.x.log[i].order in Tracked(t.acct.m) ==>
          s.x.log[i].order in Tracked(s.acct.m))
  }

  lemma CarriesTimes(s: Sys, t: Sys)
    requires Times(s) && Carries(s, t)
    ensures Times(t) && (LossKnown(s) ==> LossKnown(t))
  {
    hide Tracked, Announced, LossAhead;
    forall k, i | 0 <= k <= |s.mail| && 0 <= i < |s.x.log| && InTime(s, k, i)
      ensures InTime(t, k, i)
    {
    }
  }

  /** New mail and newly told fills at the end. */
  lemma AnnouncedStays(mail: seq<Mail>, more: seq<Mail>, k: nat, i: nat)
    requires k <= |mail| && Announced(mail, k, i)
    ensures Announced(mail + more, k, i)
  {
    var j :| 0 <= j < k && (mail[j].event.Disconnected? || (mail[j].about.OnFill? && mail[j].about.index == i));
    assert (mail + more)[j] == mail[j];
  }

  lemma LossAheadStays(mail: seq<Mail>, more: seq<Mail>)
    requires LossAhead(mail)
    ensures LossAhead(mail + more)
  {
    var j :| 0 <= j < |mail| && mail[j].event.Disconnected?;
    assert (mail + more)[j] == mail[j];
  }

  lemma InTimeStays(s: Sys, t: Sys, more: seq<Mail>, k: nat, i: nat)
    requires t.mail == s.mail + more && t.x == s.x && t.acct == s.acct && t.delivered == s.delivered
    requires k <= |s.mail| && i < |s.x.log| && InTime(s, k, i)
    ensures InTime(t, k, i)
  {
    hide Announced, Tracked;
    if Announced(s.mail, k, i) {
      AnnouncedStays(s.mail, more, k, i);
    }
  }

  lemma AnnouncedLonger(mail: seq<Mail>, k: nat, l: nat, i: nat)
    requires k <= l <= |mail| && Announced(mail, k, i)
    ensures Announced(mail, l, i)
  {
  }

  // ------------------------------------------------------- socket steps

  lemma LossIsAhead(mail: seq<Mail>, k: nat)
    requires k < |mail| && mail[k].event.Disconnected?
    ensures LossAhead(mail)
  {
  }

  lemma LossIsAnnounced(mail: seq<Mail>, i: nat)
    requires LossAhead(mail)
    ensures Announced(mail, |mail|, i)
  {
  }

  /** A cancellation comes in when all fills of its order are reported, or were
      lost with an earlier connection whose loss is known. */
  lemma CancellationIsInTime(s: Sys, o: Order, i: nat)
    requires ToldInTime(s) && GapsKnown(s) && s.link.Up? && FillsReported(s, o)
    requires i < |s.x.log| && s.x.log[i].order == o
    ensures InTime(s, |s.mail|, i)
  {
    hide Tracked, Announced, LossAhead;
    if i !in s.told && LossAhead(s.mail) {
      LossIsAnnounced(s.mail, i);
    }
  }

  /** What the socket posts, if anything, with fills told and cut as given. */
  ghost predicate Posts(s: Sys, t: Sys, more: seq<Mail>) {
    t == s.(socket := t.socket, link := t.link, mail := s.mail + more, told := t.told, cut := t.cut) && |more| <= 1
  }

  ghost predicate AllInTime(s: Sys, o: Order) {
    forall i :: 0 <= i < |s.x.log| && s.x.log[i].order == o ==> InTime(s, |s.mail|, i)
  }

  lemma PostKeepsFillsFirst(s: Sys, t: Sys, more: seq<Mail>)
    requires FillsFirst(s) && Posts(s, t, more)
    requires more != [] && more[0].about.OnCancel? && more[0].about.done ==> AllInTime(s, more[0].about.order)
    ensures FillsFirst(t)
  {
    hide InTime;
    forall k, i | && 0 <= k < |t.mail| && 0 <= i < |t.x.log|
                  && t.mail[k].about.OnCancel? && t.mail[k].about.done && t.x.log[i].order == t.mail[k].about.order
      ensures InTime(t, k, i)
    {
      if k < |s.mail| {
        assert t.mail[k] == s.mail[k];
      } else {
        assert t.mail[k] == more[0];
      }
      InTimeStays(s, t, more, k, i);
    }
  }

  predicate Reported(s: Sys, more: seq<Mail>, i: nat) {
    more != [] && more[0].about.OnFill? && more[0].about.index == i < |s.x.log|
  }

  lemma PostKeepsTold(s: Sys, t: Sys, more: seq<Mail>)
    requires ToldInTime(s) && Posts(s, t, more)
    requires forall i :: i in t.told ==> i in s.told || Reported(s, more, i)
    ensures ToldInTime(t)
  {
    hide Tracked;
    forall i | i in t.told
      ensures i < |t.x.log| && InTime(t, |t.mail|, i)
    {
      if i in s.told {
        InTimeStays(s, t, more, |s.mail|, i);
        if Announced(t.mail, |s.mail|, i) {
          AnnouncedLonger(t.mail, |s.mail|, |t.mail|, i);
        }
      } else {
        assert t.mail[|s.mail|] == more[0];
      }
    }
  }

  lemma SocketPosts(s: Sys, e: SocketStep)
    requires SocketEnabled(s, e)
    ensures var t := SocketApply(s, e); var more := t.mail[|s.mail|..];
      && |s.mail| <= |t.mail| && Posts(s, t, more)
      && (e.Respond? ==> t.told == (if e.about.OnFill? then s.told + {e.about.index} else s.told))
      && (e.Respond? && more != [] ==> more[0].about == e.about)
      && (e.Respond? && e.about.OnFill? ==> more != [])
      && (!e.Respond? ==> t.told == s.told && (more != [] ==> more[0].about.NothingSaid?))
      && (e.Announce? ==> more != [] && more[0].event.Disconnected?)
  {
    if e.Respond? {
      C.ReadsRightIff(s.x, s.socket, e.r, e.about);
    }
    hide S.HandleResponse, C.Phrases, C.TrueOf;
    assert SocketApply(s, e).mail == s.mail + SocketApply(s, e).mail[|s.mail|..];
  }

  lemma SocketKeepsTimes(s: Sys, e: SocketStep)
    requires Times(s) && SocketEnabled(s, e)
    ensures var t := SocketApply(s, e); ToldInTime(t) && FillsFirst(t)
  {
    var t := SocketApply(s, e);
    var more := t.mail[|s.mail|..];
    SocketPosts(s, e);
    if e.Respond? && e.about.OnCancel? && e.about.done {
      forall i | 0 <= i < |s.x.log| && s.x.log[i].order == e.about.order
        ensures InTime(s, |s.mail|, i)
      {
        CancellationIsInTime(s, e.about.order, i);
      }
    }
    assert e.Respond? && e.about.OnFill? ==> e.about.index < |s.x.log|;
    hide SocketApply, SocketEnabled, ToldInTime, FillsFirst;
    PostKeepsFillsFirst(s, t, more);
    PostKeepsTold(s, t, more);
  }

  lemma SocketKeepsGaps(s: Sys, e: SocketStep)
    requires GapsKnown(s) && SocketEnabled(s, e)
    ensures var t := SocketApply(s, e); GapsKnown(t) && (LossKnown(s) || e.Announce? ==> LossKnown(t))
  {
    hide Tracked, LossAhead, S.HandleResponse, C.Phrases, C.TrueOf;
    var t := SocketApply(s, e);
    SocketPosts(s, e);
    var more := t.mail[|s.mail|..];
    if LossAhead(s.mail) {
      LossAheadStays(s.mail, more);
    }
    if e.Announce? {
      assert t.mail[|s.mail|] == more[0];
      LossIsAhead(t.mail, |s.mail|);
    }
  }

  lemma SocketKeepsTrue(s: Sys, e: SocketStep)
    requires MailTrue(s) && SocketEnabled(s, e) && WellRead(s, SocketDoes(e))
    ensures MailTrue(SocketApply(s, e))
  {
    if e.Respond? {
      C.ReadsRightIff(s.x, s.socket, e.r, e.about);
    }
    hide S.HandleResponse, C.Phrases;
  }

  lemma SocketKeepsMail(s: Sys, e: SocketStep)
    requires MailPart(s) && SocketEnabled(s, e) && WellRead(s, SocketDoes(e))
    ensures MailPart(SocketApply(s, e))
  {
    SocketKeepsTrue(s, e);
    SocketKeepsTimes(s, e);
    SocketKeepsGaps(s, e);
    NumbersSame(s, SocketApply(s, e));
    hide MailTrue, NumbersTrue, ToldInTime, FillsFirst, GapsKnown, S.HandleResponse, C.Phrases, C.TrueOf, LossAhead,
      WellRead;
  }

  lemma NumbersSame(s: Sys, t: Sys)
    requires NumbersTrue(s) && t.acct == s.acct && t.x.ids == s.x.ids
    ensures NumbersTrue(t)
  {
  }

  // ------------------------------------------------------ the exchange

  lemma TradeKeepsTimes(s: Sys, o: Order, qty: real)
    requires Times(s) && MailTrue(s) && X.Enabled(s.x, X.Trade(o, qty))
    requires s.link.Down? ==> LossKnown(s)
    ensures Times(s.(x := X.Apply(s.x, X.Trade(o, qty))))
  {
    hide Tracked, Announced, LossAhead, X.Remaining;
    var t := s.(x := X.Apply(s.x, X.Trade(o, qty)));
    assert forall i :: 0 <= i < |s.x.log| ==> t.x.log[i] == s.x.log[i];
    forall k, i | && 0 <= k < |t.mail| && 0 <= i < |t.x.log|
                  && t.mail[k].about.OnCancel? && t.mail[k].about.done && t.x.log[i].order == t.mail[k].about.order
      ensures InTime(t, k, i)
    {
      assert Trusted(s.x, s.mail[k]);
      assert i < |s.x.log|;
      assert InTime(s, k, i);
    }
    forall i | i in t.told
      ensures i < |t.x.log| && InTime(t, |t.mail|, i)
    {
      assert InTime(s, |s.mail|, i);
    }
  }

  lemma OtherExchangeKeepsTimes(s: Sys, t: Sys)
    requires Times(s) && t == s.(x := t.x) && t.x.log == s.x.log
    ensures Times(t)
  {
    CarriesTimes(s, t);
  }

  lemma ExchangeKeepsMail(s: Sys, e: X.Step)
    requires Books(s) && MailPart(s) && X.Enabled(s.x, e)
    ensures MailPart(s.(x := X.Apply(s.x, e)))
  {
    var t := s.(x := X.Apply(s.x, e));
    ExchangeLater(s.x, e);
    MailTrueLater(s, t);
    NumbersStayThere(s, t);
    if e.Trade? {
      TradeKeepsTimes(s, e.order, e.qty);
    } else {
      OtherExchangeKeepsTimes(s, t);
    }
    hide Books, MailTrue, NumbersTrue, ToldInTime, FillsFirst, GapsKnown, LossAhead, X.Remaining;
  }

  lemma NumbersStayThere(s: Sys, t: Sys)
    requires NumbersTrue(s) && t.acct == s.acct
    requires (forall o :: o in s.x.ids ==> o in t.x.ids && t.x.ids[o] == s.x.ids[o])
    ensures NumbersTrue(t)
  {
  }

  // ------------------------------------- executor, worker, poller, event loop

  lemma CarriesMail(s: Sys, t: Sys)
    requires X.Sane(s.x) && MailPart(s) && Carries(s, t) && Later(s.x, t.x) && NumbersTrue(t)
    requires Dormant(s) && s.link.Down? ==> Dormant(t)
    ensures MailPart(t)
  {
    MailTrueLater(s, t);
    CarriesTimes(s, t);
    hide X.Sane, MailTrue, NumbersTrue, ToldInTime, FillsFirst, GapsKnown, LossKnown, Dormant, Later;
  }

  lemma ExecStaysDormant(s: Sys, e: ExecStep)
    requires Stale(s.issued, s.queue, s.exec, s.acct.m.exec)
    requires ExecEnabled(s, e) && s.link.Down? && Dormant(s)
    ensures Dormant(ExecApply(s, e))
  {
    hide S.AddRequest;
  }

  /** The executor and the worker touch neither mail nor fills nor the manager. */
  lemma ExecCarries(s: Sys, e: ExecStep)
    requires ExecEnabled(s, e)
    ensures var t := ExecApply(s, e);
      Carries(s, t) && Later(s.x, t.x) && t.acct == s.acct && t.x.ids == s.x.ids && t.link == s.link
  {
    hide Tracked, S.AddRequest;
  }

  lemma ExecKeepsMail(s: Sys, e: ExecStep)
    requires Core(s) && MailPart(s) && ExecEnabled(s, e)
    ensures MailPart(ExecApply(s, e))
  {
    var t := ExecApply(s, e);
    ExecCarries(s, e);
    NumbersSame(s, t);
    if s.link.Down? && Dormant(s) {
      ExecStaysDormant(s, e);
    }
    SaneIn(s);
    hide Core, MailPart, NumbersTrue, ExecApply, ExecEnabled, Carries, Later, Dormant, X.Sane;
    CarriesMail(s, t);
  }

  lemma SaneIn(s: Sys)
    requires Core(s)
    ensures X.Sane(s.x)
  {
  }

  lemma WorkerCarries(s: Sys, e: WorkerStep)
    requires WorkerEnabled(s, e)
    ensures var t := WorkerApply(s, e);
      && Carries(s, t) && Later(s.x, t.x) && t.acct == s.acct && t.x.ids == s.x.ids && t.link == s.link
      && (Dormant(s) ==> Dormant(t))
  {
    hide Tracked, S.DropConfirmed;
  }

  lemma WorkerKeepsMail(s: Sys, e: WorkerStep)
    requires Core(s) && MailPart(s) && WorkerEnabled(s, e)
    ensures MailPart(WorkerApply(s, e))
  {
    var t := WorkerApply(s, e);
    WorkerCarries(s, e);
    NumbersSame(s, t);
    SaneIn(s);
    hide Core, MailPart, NumbersTrue, WorkerApply, WorkerEnabled, Carries, Later, Dormant, X.Sane;
    CarriesMail(s, t);
  }

  lemma PollKeepsMail(s: Sys, e: PollStep)
    requires Core(s) && MailPart(s) && PollEnabled(s, e)
    ensures MailPart(PollApply(s, e))
  {
    var t := PollApply(s, e);
    NumbersSame(s, t);
    SaneIn(s);
    hide Core, Tracked, MailPart, NumbersTrue, X.Sane;
    CarriesMail(s, t);
  }

  // ---------------------------------------------------------- event loop

  lemma AnnouncedShifts(mail: seq<Mail>, k: nat, i: nat)
    requires k < |mail| && Announced(mail, k + 1, i)
    ensures mail[0].event.Disconnected? || (mail[0].about.OnFill? && mail[0].about.index == i)
      || Announced(mail[1..], k, i)
  {
    var j :| 0 <= j < k + 1 && (mail[j].event.Disconnected? || (mail[j].about.OnFill? && mail[j].about.index == i));
    if j > 0 {
      assert mail[1..][j - 1] == mail[j];
    }
  }

  /** What the first event announced has come about once it is served. */
  lemma ServedInTime(s: Sys, k: nat, i: nat)
    requires Core(s) && MailTrue(s) && s.mail != [] && k < |s.mail| && i < |s.x.log| && InTime(s, k + 1, i)
    ensures InTime(Serve(s), k, i)
  {
    ServeFacts(s);
    assert Trusted(s.x, s.mail[0]);
    hide Core, Tracked, Serve, MailTrue, Announced, C.TrueOf, Main.Loosens;
    if Announced(s.mail, k + 1, i) {
      AnnouncedShifts(s.mail, k, i);
    }
  }

  lemma ServedStays(s: Sys)
    requires s.mail != []
    ensures var t := Serve(s); var Mail(event, about) := s.mail[0];
      && t.mail == s.mail[1..] && t.x == s.x && t.told == s.told && t.cut == s.cut && t.link == s.link
      && t.exec == s.exec
      && s.delivered <= t.delivered && (event.OrderFilledEvent? && about.OnFill? ==> about.index in t.delivered)
  {
    hide Handle, BeginAccount;
  }

  lemma ServedManager(s: Sys)
    requires Sound(s.acct.m) && s.mail != []
    ensures var m1 := Serve(s).acct.m; var event := s.mail[0].event;
      && Tracked(m1) == Tracked(s.acct.m) - Gone(s.acct.m, event)
      && (Reconciliation in s.acct.m.exec.pauses ==> Reconciliation in m1.exec.pauses)
      && (event.Disconnected? || event.AmbiguousResponse? ==> Reconciliation in m1.exec.pauses || s.acct.pending)
      && Main.Loosens(s.acct.m.exec, m1.exec)
  {
    var Mail(event, about) := s.mail[0];
    var (m1, begin) := Handle(s.acct.m, event, s.feed.version);
    HandleKeeps(s.acct.m, event, s.feed.version);
    hide Handle, Sound, Tracked, BeginAccount, Gone;
    if begin {
      BeginKeeps(s.acct.(m := m1), s.feed.version);
    }
  }

  lemma ServeFacts(s: Sys)
    requires Core(s) && s.mail != []
    ensures var t := Serve(s); var Mail(event, about) := s.mail[0];
      && t.mail == s.mail[1..] && t.x == s.x && t.told == s.told && t.cut == s.cut && t.link == s.link
      && t.exec == s.exec
      && s.delivered <= t.delivered && (event.OrderFilledEvent? && about.OnFill? ==> about.index in t.delivered)
      && Tracked(t.acct.m) == Tracked(s.acct.m) - Gone(s.acct.m, event)
      && (Reconciliation in s.acct.m.exec.pauses ==> Reconciliation in t.acct.m.exec.pauses)
      && (event.Disconnected? || event.AmbiguousResponse? ==> Reconciliation in t.acct.m.exec.pauses)
      && Main.Loosens(s.acct.m.exec, t.acct.m.exec)
  {
    ServedStays(s);
    ServedManager(s) by {
      assert Books(s);
    }
    hide Books, Stale, FreshQueue, Serve, Gone, Tracked, Main.Loosens;
  }

  lemma ServeKeepsTold(s: Sys)
    requires Core(s) && MailTrue(s) && ToldInTime(s) && s.mail != []
    ensures ToldInTime(Serve(s))
  {
    ServeFacts(s);
    var t := Serve(s);
    hide Core, Serve, Tracked, InTime, MailTrue;
    forall i | i in t.told
      ensures i < |t.x.log| && InTime(t, |t.mail|, i)
    {
      assert InTime(s, |s.mail|, i);
      ServedInTime(s, |s.mail| - 1, i);
    }
  }

  lemma ServeKeepsFillsFirst(s: Sys)
    requires Core(s) && MailTrue(s) && FillsFirst(s) && s.mail != []
    ensures FillsFirst(Serve(s))
  {
    ServeFacts(s);
    var t := Serve(s);
    hide Core, Serve, Tracked, InTime, MailTrue;
    forall k, i | && 0 <= k < |t.mail| && 0 <= i < |t.x.log|
                  && t.mail[k].about.OnCancel? && t.mail[k].about.done && t.x.log[i].order == t.mail[k].about.order
      ensures InTime(t, k, i)
    {
      assert t.mail[k] == s.mail[k + 1];
      ServedInTime(s, k, i);
    }
  }

  lemma ServeKeepsLoss(s: Sys)
    requires Core(s) && s.mail != [] && LossKnown(s)
    ensures LossKnown(Serve(s))
  {
    ServeFacts(s);
    var t := Serve(s);
    hide Core, Serve, Tracked;
    if LossAhead(s.mail) && Reconciliation !in t.acct.m.exec.pauses {
      var j :| 0 <= j < |s.mail| && s.mail[j].event.Disconnected?;
      assert t.mail[j - 1] == s.mail[j];
    }
  }

  lemma ServeKeepsGaps(s: Sys)
    requires Core(s) && s.mail != [] && GapsKnown(s)
    ensures GapsKnown(Serve(s))
  {
    ServeFacts(s);
    if LossKnown(s) {
      ServeKeepsLoss(s);
    }
    hide Core, Serve, Tracked, LossKnown;
  }

  lemma ServeKeepsMail(s: Sys)
    requires Core(s) && MailPart(s) && s.mail != [] && NumbersTrue(Serve(s))
    ensures MailPart(Serve(s))
  {
    ServeFacts(s);
    ServeKeepsTold(s);
    ServeKeepsFillsFirst(s);
    ServeKeepsGaps(s);
    if LossKnown(s) {
      ServeKeepsLoss(s);
    }
    SaneIn(s);
    hide Core, Serve, Tracked, NumbersTrue, ToldInTime, FillsFirst, GapsKnown, LossKnown, X.Sane, MailTrue;
    LaterSelf(s.x);
    MailTrueLater(s, Serve(s));
  }

  lemma LaterSelf(x: X.Exchange)
    ensures Later(x, x)
  {
  }

  lemma NothingToMiss(s: Sys)
    requires MailTrue(s) && (forall i :: i in s.told ==> i < |s.x.log|) && s.cut <= |s.x.log|
    requires Tracked(s.acct.m) == {} && s.acct.m.bids == [None, None] && s.acct.m.asks == [None, None] && Dormant(s)
    ensures MailPart(s)
  {
    hide MailTrue, Tracked, Announced, LossAhead;
  }

  /** Nothing is tracked after the finish, so nothing can be missed. */
  lemma FinishKeepsMail(s: Sys)
    requires Core(s) && WorkerKnows(s) && MailPart(s) && s.results != []
    ensures MailPart(Main.Finish(s))
  {
    var t := Main.Finish(s);
    Main.FinishArms(s);
    Main.NothingCurrent(s);
    FinishKeeps(s.acct, s.feed.version);
    assert t.acct.m.bids == [None, None] && t.acct.m.asks == [None, None];
    hide Sound, X.Sane, Registry, FreshQueue, FinishAccount, Tracked, Announced, LossAhead, Trusted, FillsFirst,
      NumbersTrue;
    NothingToMiss(t);
  }

  /** What every other step of the event loop leaves as it is. */
  ghost predicate Onward(s: Sys, t: Sys) {
    && t.x == s.x && t.exec == s.exec && t.mail == s.mail && t.told == s.told && t.cut == s.cut && t.link == s.link
    && t.delivered == s.delivered
    && Main.Loosens(s.acct.m.exec, t.acct.m.exec)
    && (Reconciliation in s.acct.m.exec.pauses ==> Reconciliation in t.acct.m.exec.pauses)
  }

  lemma EmissionOnward(s: Sys, e: MainStep)
    requires Core(s) && (e.EndQuote? || e.TimeoutCheck?) && MainEnabled(s, e) && Configured(s.acct.m.cfg)
    ensures Onward(s, MainApply(s, e))
  {
    hide Core, Dispatch, OnQuote, CheckTimeouts, Sound, Tracked, Numbered;
    if e.EndQuote? {
      Quoting.EndQuoteEmits(s, e.q, e.limit, e.now, e.dropped);
    } else {
      Quoting.TimeoutCheckEmits(s, e.now, e.dropped);
    }
  }

  lemma BeginOnward(s: Sys)
    requires Core(s)
    ensures Onward(s, Begin(s))
  {
    hide Stale, FreshQueue, Locks, Tokens, Registry, X.Sane, Sound, Tracked;
    BeginKeeps(s.acct, s.feed.version);
  }

  lemma RiskCheckOnward(s: Sys, sourcesFresh: bool)
    requires Core(s) && MainEnabled(s, RiskCheck(sourcesFresh)) && Configured(s.acct.m.cfg)
    ensures Onward(s, MainApply(s, RiskCheck(sourcesFresh)))
  {
    hide Stale, FreshQueue, Locks, Tokens, Registry, X.Sane, Sound, Tracked, RiskTick;
    RiskTickKeeps(s.acct.m, sourcesFresh, s.feed.version, s.feed.position);
  }

  lemma ObservesOnward(s: Sys, o: Order)
    requires Core(s) && MainEnabled(s, RestObserves(o)) && Configured(s.acct.m.cfg)
    ensures Onward(s, MainApply(s, RestObserves(o)))
  {
    hide Stale, FreshQueue, Locks, Tokens, X.Sane, Sound, Tracked, OnAccepted;
    AcceptedKeeps(s.acct.m, o.id, s.x.ids[o]);
  }

  lemma OtherOnward(s: Sys, e: MainStep)
    requires MainEnabled(s, e) && Configured(s.acct.m.cfg)
    requires e.BeginQuote? || e.RefreshPosition? || e.RestConfirms? || e.PauseFor? || e.Resume? || e.SetPrecision?
      || e.ShutDown?
    ensures Onward(s, MainApply(s, e))
  {
    hide S.DropConfirmed;
  }

  lemma MainOnward(s: Sys, e: MainStep)
    requires Core(s) && MainEnabled(s, e) && Configured(s.acct.m.cfg) && !e.HandleMail? && !e.FinishReconciling?
    ensures Onward(s, MainApply(s, e))
  {
    hide Core, Onward, MainApply;
    match e {
      case EndQuote(_, _, _, _) => EmissionOnward(s, e);
      case TimeoutCheck(_, _) => EmissionOnward(s, e);
      case BeginReconciliation =>
        BeginOnward(s);
        BeginIs(s);
      case RiskCheck(sourcesFresh) => RiskCheckOnward(s, sourcesFresh);
      case RestObserves(o) => ObservesOnward(s, o);
      case _ => OtherOnward(s, e);
    }
  }

  lemma FinishLoosens(s: Sys)
    requires Core(s) && s.results != []
    ensures Main.Loosens(s.acct.m.exec, Main.Finish(s).acct.m.exec)
  {
    hide Stale, FreshQueue, Locks, Tokens, Registry, X.Sane, Sound;
    FinishKeeps(s.acct, s.feed.version);
  }

  lemma MainLoosens(s: Sys, e: MainStep)
    requires Core(s) && MainEnabled(s, e) && Configured(s.acct.m.cfg)
    ensures var t := MainApply(s, e); t.x == s.x && t.exec == s.exec && Main.Loosens(s.acct.m.exec, t.acct.m.exec)
  {
    hide Core, MainApply, Serve, Main.Loosens;
    if e.HandleMail? {
      ServeIs(s);
      ServeFacts(s);
    } else if e.FinishReconciling? {
      Main.FinishIs(s);
      FinishLoosens(s);
    } else {
      MainOnward(s, e);
    }
  }

  lemma QueueStays(s: Sys, e: MainStep)
    requires MainEnabled(s, e) && Configured(s.acct.m.cfg) && !e.EndQuote? && !e.TimeoutCheck?
    ensures var t := MainApply(s, e); t.queue == s.queue && t.issued == s.issued && t.written == s.written
  {
    hide Handle, BeginAccount;
  }

  lemma LogIsOld(s: Sys, i: nat)
    requires Books(s) && i < |s.x.log|
    ensures s.x.log[i].order.id.number < s.acct.m.nextNumber
  {
    hide Tracked, Sound;
    assert s.x.log[i].order in KnownOrders(s);
  }

  lemma TrackedAt(m: Manager, p: Place, o: Order)
    requires p.level < MAX_ORDER_LEVELS && At(m, p).Some? && At(m, p).value.ord == o
    ensures o in Tracked(m)
  {
    assert p.level == 0 || p.level == 1;
  }

  /** No order of the log enters a slot: new orders have no fills. */
  lemma LogStaysOut(s: Sys, step: Step, i: nat)
    requires Books(s) && Enabled(s, step) && Configured(s.acct.m.cfg) && i < |s.x.log|
    requires s.x.log[i].order in Tracked(Apply(s, step).acct.m)
    ensures s.x.log[i].order in Tracked(s.acct.m)
  {
    hide Apply, Evolves, Binds, Enabled, Books, Tracked;
    LogIsOld(s, i);
    StepEvolves(s, step);
    var m1 := Apply(s, step).acct.m;
    var p := PlaceOf(m1, s.x.log[i].order);
    OldOrdersStayPut(s.acct.m, m1, Binds(s, step), step.MainDoes? && step.main.EndQuote?, p);
    TrackedAt(s.acct.m, p, s.x.log[i].order);
  }

  lemma OnwardKeepsMail(s: Sys, t: Sys)
    requires X.Sane(s.x) && MailPart(s) && Onward(s, t) && NumbersTrue(t)
    requires forall i :: 0 <= i < |s.x.log| && s.x.log[i].order in Tracked(t.acct.m) ==>
      s.x.log[i].order in Tracked(s.acct.m)
    ensures MailPart(t)
  {
    hide X.Sane, MailPart, NumbersTrue, Tracked;
    CarriesMail(s, t);
  }

  lemma MainKeepsMail(s: Sys, e: MainStep)
    requires Core(s) && WorkerKnows(s) && MailPart(s) && Enabled(s, MainDoes(e)) && Configured(s.acct.m.cfg)
    ensures MailPart(MainApply(s, e))
  {
    var step := MainDoes(e);
    SaneIn(s);
    assert MainApply(s, e) == Apply(s, step) by {
      hide MainApply;
    }
    if e.HandleMail? {
      ServeIs(s);
      ServeFacts(s);
    } else if e.FinishReconciling? {
      Main.FinishIs(s);
    } else {
      MainOnward(s, e);
      forall i | 0 <= i < |s.x.log| && s.x.log[i].order in Tracked(Apply(s, step).acct.m)
        ensures s.x.log[i].order in Tracked(s.acct.m)
      {
        LogStaysOut(s, step, i);
      }
    }
    hide MainApply, Apply, Core, Tracked, NumbersTrue, Serve, X.Sane;
    if e.FinishReconciling? {
      FinishKeepsMail(s);
    } else {
      NumbersKept(s, step);
      if e.HandleMail? {
        ServeKeepsMail(s);
      } else {
        OnwardKeepsMail(s, MainApply(s, e));
      }
    }
  }

  /** No step with a well-read response spoils the mail. */
  lemma StepKeepsMail(s: Sys, step: Step)
    requires Core(s) && WorkerKnows(s) && MailPart(s)
    requires Enabled(s, step) && Configured(s.acct.m.cfg) && WellRead(s, step)
    ensures MailPart(Apply(s, step))
  {
    hide Core, WorkerKnows, MailPart, MainApply, ExecApply, WorkerApply, SocketApply, PollApply;
    match step {
      case MainDoes(e) => MainKeepsMail(s, e);
      case ExecDoes(e) => ExecKeepsMail(s, e);
      case WorkerDoes(e) => WorkerKeepsMail(s, e);
      case SocketDoes(e) => SocketKeepsMail(s, e);
      case PollDoes(e) => PollKeepsMail(s, e);
      case ExchangeDoes(e) =>
        assert Books(s) by {
          BooksIn(s);
        }
        ExchangeKeepsMail(s, e);
    }
  }

  lemma BooksIn(s: Sys)
    requires Core(s)
    ensures Books(s)
  {
  }
}
