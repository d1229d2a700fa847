/** What becomes of the customer's money: refunds the provider turned down, and payments that arrive for an
    order already dropped. Over every run of the two services and the network. */
module RefundOutcomes {
  import opened Prelude
  import opened StateMachine
  import opened Orders
  import opened OrderProofs
  import opened Payments
  import opened MoneySafety

  /** Where a run stands before its k-th event. */
  function Before(w: World, trace: seq<Event>, k: nat): World
    requires k <= |trace|
  {
    Unfold(w, trace[..k])
  }

  lemma BeforeNext(w: World, trace: seq<Event>, k: nat)
    requires k < |trace|
    ensures Before(w, trace, k + 1) == Next(Before(w, trace, k), trace[k])
  {
    UnfoldStep(w, trace, k);
  }

  lemma BeforeEnd(w: World, trace: seq<Event>)
    ensures Before(w, trace, |trace|) == Unfold(w, trace)
  {
    assert trace[..|trace|] == trace;
  }

  /** The composed run's order is one that calls alone can bring about. */
  lemma {:induction false} WorldOrderReachable(w: World, trace: seq<Event>)
    requires Initial(w)
    ensures Reachable(Unfold(w, trace).order)
  {
    if trace == [] {
      var id, customer, restaurant, total, env :|
        w.order == Create(id, customer, restaurant, w.order.paymentMethod, total, env);
      assert w.order == Run(Create(id, customer, restaurant, w.order.paymentMethod, total, env), []);
    } else {
      var b, e := Unfold(w, trace[..|trace| - 1]), trace[|trace| - 1];
      WorldOrderReachable(w, trace[..|trace| - 1]);
      if e.OrderCall? {
        StepReachable(b.order, e.action, e.env);
      } else if e.NoticeArrives? {
        StepReachable(b.order, PaymentEvent(true), e.env);
      }
    }
  }

  lemma {:induction false} StepReachable(o: Order, a: Action, env: Env)
    requires Reachable(o)
    ensures Reachable(Step(o, a, env))
  {
    var id, customer, restaurant, m, total, e0, history :|
      o == Run(Create(id, customer, restaurant, m, total, e0), history);
    var longer := history + [(a, env)];
    assert longer[..|longer| - 1] == history;
    assert Step(o, a, env) == Run(Create(id, customer, restaurant, m, total, e0), longer);
  }

  // ---------------------------------------------------------------- refunds turned down

  /** A refund command that reaches the provider. */
  predicate Asks(w: World, e: Event) {
    && e.CommandArrives? && e.i < |w.order.commands| && w.order.commands[e.i].action == Refund
    && w.desk.snapshot.Some? && w.desk.payment.Some?
    && w.desk.payment.value.status in {TxAuthorized, TxSucceeded}
  }

  /** It is the only step that asks, and it asks once. */
  lemma AskedOnlyThen(w: World, e: Event)
    ensures NextDesk(w, e).refunds
            == w.desk.refunds
               + if Asks(w, e) then [RefundCall(w.desk.payment.value.reference, w.desk.snapshot.value.total, e.ok)]
                 else []
  {
  }

  lemma {:induction false} RefundsAccumulate(w: World, trace: seq<Event>, k: nat)
    requires k <= |trace|
    ensures Before(w, trace, k).desk.refunds <= Unfold(w, trace).desk.refunds
    decreases |trace| - k
  {
    if k < |trace| {
      BeforeNext(w, trace, k);
      AskedOnlyThen(Before(w, trace, k), trace[k]);
      RefundsAccumulate(w, trace, k + 1);
    } else {
      BeforeEnd(w, trace);
    }
  }

  /** The j-th event reopens a refunded payment. */
  predicate ReopensAt(w: World, trace: seq<Event>, j: nat)
    requires j < |trace|
  {
    IsRefunded(Before(w, trace, j).desk) && Reopens(Before(w, trace, j).desk, trace[j])
  }

  predicate AsksAt(w: World, trace: seq<Event>, k: nat)
    requires k < |trace|
  {
    Asks(Before(w, trace, k), trace[k])
  }

  lemma {:induction false} ReopenedBefore(w: World, trace: seq<Event>, k: nat)
    requires k <= |trace| && IsRefunded(w.desk) && !IsRefunded(Before(w, trace, k).desk)
    ensures exists j :: 0 <= j < k && ReopensAt(w, trace, j)
  {
    assert trace[..0] == [];
    if k > 0 {
      BeforeNext(w, trace, k - 1);
      if IsRefunded(Before(w, trace, k - 1).desk) {
        LeavesRefundedIff(Before(w, trace, k - 1), trace[k - 1]);
        assert ReopensAt(w, trace, k - 1);
      } else {
        ReopenedBefore(w, trace, k - 1);
      }
    }
  }

  lemma {:induction false} AskedBefore(w: World, trace: seq<Event>, k: nat)
    requires k <= |trace| && |Before(w, trace, k).desk.refunds| > |w.desk.refunds|
    ensures exists j :: 0 <= j < k && AsksAt(w, trace, j)
  {
    assert trace[..0] == [];
    if k > 0 {
      BeforeNext(w, trace, k - 1);
      AskedOnlyThen(Before(w, trace, k - 1), trace[k - 1]);
      if Asks(Before(w, trace, k - 1), trace[k - 1]) {
        assert AsksAt(w, trace, k - 1);
      } else {
        AskedBefore(w, trace, k - 1);
      }
    }
  }

  /** Once a payment is marked refunded, whatever the provider answered, the provider is asked again if and
      only if a step that reopens it is followed by a refund command that reaches the provider. */
  lemma {:induction false} AskedAgainIff(w: World, trace: seq<Event>)
    requires IsRefunded(w.desk)
    ensures |Unfold(w, trace).desk.refunds| > |w.desk.refunds|
            <==> exists j, k :: 0 <= j < k < |trace| && ReopensAt(w, trace, j) && AsksAt(w, trace, k)
  {
    BeforeEnd(w, trace);
    if |Unfold(w, trace).desk.refunds| > |w.desk.refunds| {
      AskedBefore(w, trace, |trace|);
      var k :| 0 <= k < |trace| && AsksAt(w, trace, k);
      ReopenedBefore(w, trace, k);
    }
    if j, k :| 0 <= j < k < |trace| && ReopensAt(w, trace, j) && AsksAt(w, trace, k) {
      BeforeNext(w, trace, k);
      AskedOnlyThen(Before(w, trace, k), trace[k]);
      RefundsAccumulate(w, trace, k + 1);
      StartAccumulates(w, trace, k);
    }
  }

  lemma {:induction false} StartAccumulates(w: World, trace: seq<Event>, k: nat)
    requires k <= |trace|
    ensures w.desk.refunds <= Before(w, trace, k).desk.refunds
  {
    assert trace[..k][..0] == [];
    RefundsAccumulate(w, trace[..k], 0);
  }

  predicate PaidBack(d: Desk) {
    exists i :: 0 <= i < |d.refunds| && d.refunds[i].ok
  }

  /** In runs of order events, commands and retries, and for cash, the one answer is final: from the moment
      the payment is marked refunded it stays so, nobody asks again, and the customer is ever paid back
      if and only if that one call succeeded. */
  lemma {:induction false} OneAnswerDecides(w: World, trace: seq<Event>, k: nat)
    requires Initial(w) && k <= |trace|
    requires forall i :: 0 <= i < |trace| ==> Quiet(w.order.paymentMethod, trace[i])
    requires IsRefunded(Before(w, trace, k).desk)
    ensures var marked, end := Before(w, trace, k).desk, Unfold(w, trace).desk;
            && IsRefunded(end) && |marked.refunds| == 1 && end.refunds == marked.refunds
            && (PaidBack(end) <==> marked.refunds[0].ok)
  {
    QuietRuns(w, trace);
    QuietRuns(w, trace[..k]);
    RefundsBounded(w, trace);
    RefundsBounded(w, trace[..k]);
    RefundsAccumulate(w, trace, k);
  }

  // Nothing in either service depends on the provider's answer to a refund.

  function WithoutAnswers(calls: seq<RefundCall>): seq<RefundCall> {
    seq(|calls|, i requires 0 <= i < |calls| => calls[i].(ok := true))
  }

  function Blind(w: World): World {
    w.(desk := w.desk.(refunds := WithoutAnswers(w.desk.refunds)))
  }

  function BlindEvent(e: Event): Event {
    match e
    case CommandArrives(i, _) => CommandArrives(i, true)
    case _ => e
  }

  function BlindTrace(trace: seq<Event>): seq<Event> {
    seq(|trace|, i requires 0 <= i < |trace| => BlindEvent(trace[i]))
  }

  lemma BlindCommand(d: Desk, action: PaymentAction, ok: bool)
    ensures var blind := d.(refunds := WithoutAnswers(d.refunds));
            match OnCommand(d, Some(action), ok)
            case Ok(n) => OnCommand(blind, Some(action), true) == Ok(n.(refunds := WithoutAnswers(n.refunds)))
            case Err(e) => OnCommand(blind, Some(action), true) == Err(e)
  {
    if d.snapshot.Some? && action == Refund {
      var n := RefundPayment(d, ok);
      if n != d {
        assert WithoutAnswers(n.refunds) == WithoutAnswers(d.refunds) + [n.refunds[|d.refunds|].(ok := true)];
      }
    }
  }

  lemma BlindStep(w: World, e: Event)
    ensures Blind(Next(w, e)) == Next(Blind(w), BlindEvent(e))
  {
    if e.CommandArrives? {
      if e.i < |w.order.commands| {
        BlindCommand(w.desk, w.order.commands[e.i].action, e.ok);
      }
    } else {
      AskedOnlyThen(w, e);
    }
  }

  lemma {:induction false} BlindRun(w: World, trace: seq<Event>)
    ensures Blind(Unfold(w, trace)) == Unfold(Blind(w), BlindTrace(trace))
  {
    if trace != [] {
      BlindRun(w, trace[..|trace| - 1]);
      BlindStep(Unfold(w, trace[..|trace| - 1]), trace[|trace| - 1]);
      assert BlindTrace(trace)[..|trace| - 1] == BlindTrace(trace[..|trace| - 1]);
    }
  }

  /** Two runs that differ in nothing but what the provider answered to refunds end in the same order,
      payment, messages and calls: from what is stored, a refund turned down cannot be told from one
      that was paid. */
  lemma AnswersChangeNothing(w: World, one: seq<Event>, other: seq<Event>)
    requires BlindTrace(one) == BlindTrace(other)
    ensures var a, b := Unfold(w, one), Unfold(w, other);
            && a.order == b.order && a.left == b.left && a.desk.payment == b.desk.payment
            && a.desk.snapshot == b.desk.snapshot && a.desk.notices == b.desk.notices
            && WithoutAnswers(a.desk.refunds) == WithoutAnswers(b.desk.refunds)
  {
    BlindRun(w, one);
    BlindRun(w, other);
    var a, b := Unfold(w, one), Unfold(w, other);
    assert Blind(a).order == Blind(b).order && Blind(a).desk == Blind(b).desk;
  }

  // ---------------------------------------------------------------- money kept

  predicate Collected(d: Desk) {
    d.payment.Some? && d.payment.value.status == TxSucceeded
  }

  /** The customer's money is there, the order is off the line, and no refund was ordered. */
  predicate MoneyKept(w: World) {
    Collected(w.desk) && !OnMainLine(w.order.status) && w.order.refundStatus != FullRefund
  }

  /** And the kitchen never began, so that by the refund rules nothing of it was earned. */
  predicate Owed(w: World) {
    MoneyKept(w) && !Visited(w.order.events, Preparing)
  }

  lemma DroppedVisits(o: Order)
    requires Consistent(o) && !OnMainLine(o.status)
    ensures Visited(o.events, Preparing) ==> Visited(o.events, PaymentSuccess)
    ensures o.status == Rejected ==> !Visited(o.events, Preparing)
  {
    var n := |o.events|;
    assert o.events[n - 1].to in Allowed(o.events[n - 2].to);
    WalkVisits(o.events, Preparing);
    WalkVisits(o.events, PaymentSuccess);
  }

  /** In every run, exactly when collected money of a dropped order is owed and not ordered back: the order
      was cancelled before its payment was recorded, or moved to REJECTED without being rejected. */
  lemma {:induction false} OwedIff(w: World, trace: seq<Event>)
    requires Initial(w)
    ensures var end := Unfold(w, trace);
            && (MoneyKept(end) <==>
                  Collected(end.desk)
                  && ((end.order.status == Cancelled
                       && (Visited(end.order.events, PaymentSuccess) ==> Visited(end.order.events, Preparing)))
                      || (end.order.status == Rejected && end.order.cancelledBy == None)))
            && (Owed(end) <==>
                  Collected(end.desk)
                  && ((end.order.status == Cancelled && !Visited(end.order.events, PaymentSuccess))
                      || (end.order.status == Rejected && end.order.cancelledBy == None)))
  {
    var o := Unfold(w, trace).order;
    WorldOrderReachable(w, trace);
    RefundRule(o);
    ReachableConsistent(o);
    if !OnMainLine(o.status) {
      DroppedVisits(o);
    }
  }

  lemma DeadEnd(o: Order, a: Action, env: Env)
    requires !OnMainLine(o.status)
    ensures Step(o, a, env) == o
  {
    StepKinds(o, a, env);
  }

  lemma {:induction false} DroppedStays(w: World, trace: seq<Event>, k: nat)
    requires k <= |trace| && !OnMainLine(Before(w, trace, k).order.status)
    ensures Unfold(w, trace).order == Before(w, trace, k).order
    decreases |trace| - k
  {
    if k < |trace| {
      var b := Before(w, trace, k);
      BeforeNext(w, trace, k);
      if trace[k].OrderCall? {
        DeadEnd(b.order, trace[k].action, trace[k].env);
      } else if trace[k].NoticeArrives? {
        DeadEnd(b.order, PaymentEvent(true), trace[k].env);
      }
      DroppedStays(w, trace, k + 1);
    } else {
      BeforeEnd(w, trace);
    }
  }

  /** And nothing repairs it: once an order is dropped without a refund, no later event of any kind changes
      it, orders a refund or makes the provider pay one. */
  lemma {:induction false} KeptForGood(w: World, trace: seq<Event>, k: nat)
    requires Initial(w) && k <= |trace|
    requires var b := Before(w, trace, k); !OnMainLine(b.order.status) && b.order.refundStatus != FullRefund
    ensures var end := Unfold(w, trace);
            && end.order == Before(w, trace, k).order
            && PaymentCommand(end.order.id, Refund, end.order.total) !in end.order.commands
            && end.desk.refunds == []
  {
    DroppedStays(w, trace, k);
    UnfoldSound(w, trace);
  }

  /** It takes no more than a customer who cancels a card order and whose payment goes through all the same:
      from any state in which the order waits for the card, cancellation, webhook, payment event. */
  lemma LatePaymentOwed(w: World, env: Env, caller: Caller)
    requires Consistent(w.order) && w.order.status == PaymentPending && caller.userId == w.order.customerId
    requires w.desk.payment.Some? && w.desk.payment.value.reference.Some?
    ensures var paid := WebhookEvent(false, IntentSucceeded, w.desk.payment.value.reference, None, false);
            var cancelled := Next(w, OrderCall(CustomerCancel(caller), env));
            var told := Next(Next(cancelled, WebhookCalled(paid)), NoticeArrives(|w.desk.notices|, env));
            Owed(told) && told.order == cancelled.order && |told.desk.notices| == |w.desk.notices| + 1
  {
    var paid := WebhookEvent(false, IntentSucceeded, w.desk.payment.value.reference, None, false);
    var cancelled := Next(w, OrderCall(CustomerCancel(caller), env));
    CancelledUnpaid(w.order, caller, env);
    var settled := Next(cancelled, WebhookCalled(paid));
    assert Collected(settled.desk) && settled.order == cancelled.order;
    DeadEnd(settled.order, PaymentEvent(true), env);
  }

  lemma CancelledUnpaid(o: Order, caller: Caller, env: Env)
    requires Consistent(o) && o.status == PaymentPending && caller.userId == o.customerId
    ensures var n := Step(o, CustomerCancel(caller), env);
            n.status == Cancelled && n.refundStatus == NoRefund && !Visited(n.events, Preparing)
  {
    var n := Step(o, CustomerCancel(caller), env);
    LogLength(o);
    WalkFollowsRank(o.events, 0);
    WalkFollowsRank(o.events, 1);
    assert |n.events| == 3 && n.events[..2] == o.events && n.events[2].to == Cancelled;
    assert n.events[0] == o.events[0] && n.events[1] == o.events[1];
  }

  lemma NotedCard(w: World, env: Env, answer: ProviderResult)
    requires w == World(Create(1, 2, 3, Card, 500, env), EMPTY_DESK, 0) && answer.ok
    ensures var noted := Next(w, NoteArrives(0, answer));
            && noted.order == w.order && noted.desk.notices == []
            && noted.desk.payment == Some(Payment(Card, 500, TxAuthorized, answer.reference))
  {
  }

  /** Such a state is the one every card order starts from. */
  lemma {:induction false} SomeMoneyIsOwed(env: Env, answer: ProviderResult)
    requires answer.ok && answer.reference.Some?
    ensures exists w, trace :: Initial(w) && Owed(Unfold(w, trace))
  {
    var w := World(Create(1, 2, 3, Card, 500, env), EMPTY_DESK, 0);
    CreateConsistent(1, 2, 3, Card, 500, env);
    NotedCard(w, env, answer);
    LatePaymentOwed(Next(w, NoteArrives(0, answer)), env, Caller(2, false));
    var paid := WebhookEvent(false, IntentSucceeded, answer.reference, None, false);
    var t := [NoteArrives(0, answer), OrderCall(CustomerCancel(Caller(2, false)), env), WebhookCalled(paid),
              NoticeArrives(0, env)];
    UnfoldFour(w, t);
    FreshWorld(w, env);
    assert Initial(w) && Owed(Unfold(w, t));
  }

  lemma FreshWorld(w: World, env: Env)
    requires w == World(Create(1, 2, 3, Card, 500, env), EMPTY_DESK, 0)
    ensures Initial(w) && w.order.status == PaymentPending && w.order.customerId == 2
  {
    assert w.order == Create(1, 2, 3, w.order.paymentMethod, 500, env);
  }
}
