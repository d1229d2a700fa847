/** Orders and payments composed through a network that may deliver any message ever recorded, at any
    time, any number of times and in any order. */
module MoneySafety {
  import opened Prelude
  import opened StateMachine
  import opened Orders
  import opened OrderProofs
  import opened Payments

  /** The two services' state for one order. `left` counts the steps that took the payment out of
      REFUNDED. */
  datatype World = World(order: Order, desk: Desk, left: nat)

  datatype Event =
    | OrderCall(action: Action, env: Env)
    | NoticeArrives(i: nat, env: Env)
    | NoteArrives(i: nat, answer: ProviderResult)
    | CommandArrives(i: nat, ok: bool)
    | RetryAsked(answer: ProviderResult)
    | ResumeAsked(answer: ProviderResult)
    | ConfirmAsked(answer: ProviderResult)
    | WebhookCalled(event: WebhookEvent)

  predicate IsRefunded(d: Desk) {
    d.payment.Some? && d.payment.value.status == TxRefunded
  }

  /** The order's next state. A payment event reaches it only as a message the desk recorded. */
  function NextOrder(w: World, e: Event): Order {
    match e
    case OrderCall(a, env) => if a.PaymentEvent? then w.order else Step(w.order, a, env)
    case NoticeArrives(i, env) => if i < |w.desk.notices| then Step(w.order, PaymentEvent(true), env) else w.order
    case _ => w.order
  }

  function NextDesk(w: World, e: Event): Desk {
    match e
    case OrderCall(_, _) => w.desk
    case NoticeArrives(_, _) => w.desk
    case NoteArrives(i, answer) =>
      if i < |w.order.notes| then OnOrderEvent(w.desk, PayloadOf(w.order.notes[i]), answer) else w.desk
    case CommandArrives(i, ok) =>
      if i < |w.order.commands| then
        match OnCommand(w.desk, Some(w.order.commands[i].action), ok)
        case Ok(d) => d
        case Err(_) => w.desk
      else w.desk
    case RetryAsked(answer) => Retry(w.desk, answer).0
    case ResumeAsked(answer) => Resume(w.desk, answer).0
    case ConfirmAsked(answer) => Confirm(w.desk, answer).0
    case WebhookCalled(event) => OnWebhook(w.desk, event).0
  }

  function Next(w: World, e: Event): World {
    var d := NextDesk(w, e);
    World(NextOrder(w, e), d, w.left + if IsRefunded(w.desk) && !IsRefunded(d) then 1 else 0)
  }

  function Unfold(w: World, trace: seq<Event>): World {
    if trace == [] then w else Next(Unfold(w, trace[..|trace| - 1]), trace[|trace| - 1])
  }

  /** Where every order begins: committed by checkout, unknown to payments. */
  ghost predicate Initial(w: World) {
    w.desk == EMPTY_DESK && w.left == 0
    && exists id, customer, restaurant, total, env ::
         w.order == Create(id, customer, restaurant, w.order.paymentMethod, total, env)
  }

  // ---------------------------------------------------------------- what every step keeps

  /** Whatever payments holds about the order agrees with the order. */
  predicate Agrees(o: Order, d: Desk) {
    && (d.snapshot.Some? ==> d.snapshot.value.total == o.total && d.snapshot.value.paymentMethod == o.paymentMethod)
    && (d.payment.Some? ==> d.payment.value.amount == o.total && d.payment.value.provider == o.paymentMethod)
    && (forall i :: 0 <= i < |d.notices| ==> d.notices[i] == PaymentNotice(o.paymentMethod, o.total))
    && (forall i :: 0 <= i < |d.refunds| ==> d.refunds[i].amount == o.total)
  }

  predicate RefundsCounted(w: World) {
    |w.desk.refunds| == w.left + if IsRefunded(w.desk) then 1 else 0
  }

  predicate RefundsOrdered(w: World) {
    w.desk.refunds != [] || IsRefunded(w.desk) ==> w.order.refundStatus == FullRefund
  }

  /** A card order the system marked paid was reported paid by the payments service. */
  predicate PaidWasReported(w: World) {
    (w.order.paymentMethod == Card && |w.order.events| > 2 && w.order.events[2].to == PaymentSuccess
     && w.order.events[2].actor == System)
    ==> w.desk.notices != []
  }

  ghost predicate Sound(w: World) {
    Consistent(w.order) && Agrees(w.order, w.desk) && RefundsCounted(w) && RefundsOrdered(w) && PaidWasReported(w)
  }

  /** What a call may change of the order, as far as payments is concerned. */
  predicate KeepsTerms(o: Order, n: Order, paid: bool) {
    && n.total == o.total && n.paymentMethod == o.paymentMethod
    && (o.refundStatus == FullRefund ==> n.refundStatus == FullRefund)
    && (|o.events| > 2 ==> |n.events| > 2 && n.events[2] == o.events[2])
    && (|o.events| <= 2 && |n.events| > 2 && n.events[2].to == PaymentSuccess && n.events[2].actor == System ==> paid)
  }

  lemma MoveKeepsTerms(o: Order, n: Order)
    requires Consistent(o) && (PaidMove(o, n) || ForwardMove(o, n) || DropMove(o, n))
    ensures KeepsTerms(o, n, PaidMove(o, n))
  {
    LogLength(o);
  }

  lemma StepKeepsTerms(o: Order, a: Action, env: Env)
    requires Consistent(o)
    ensures Consistent(Step(o, a, env)) && KeepsTerms(o, Step(o, a, env), a.PaymentEvent?)
  {
    StepConsistent(o, a, env);
    StepKinds(o, a, env);
    if Step(o, a, env) != o {
      MoveKeepsTerms(o, Step(o, a, env));
    }
  }

  lemma NextOrderKeepsTerms(w: World, e: Event)
    requires Consistent(w.order)
    ensures Consistent(NextOrder(w, e)) && KeepsTerms(w.order, NextOrder(w, e), w.desk.notices != [])
  {
    if e.OrderCall? {
      StepKeepsTerms(w.order, e.action, e.env);
    } else if e.NoticeArrives? {
      StepKeepsTerms(w.order, PaymentEvent(true), e.env);
    }
  }

  lemma OrderEventAgrees(o: Order, d: Desk, p: OrderPayload, answer: ProviderResult)
    requires Agrees(o, d) && p.total == Some(o.total) && p.paymentMethod == Some(o.paymentMethod)
    ensures Agrees(o, OnOrderEvent(d, p, answer)) && OnOrderEvent(d, p, answer).notices == d.notices
  {
  }

  lemma NextDeskAgrees(w: World, e: Event)
    requires Consistent(w.order) && Agrees(w.order, w.desk)
    ensures Agrees(w.order, NextDesk(w, e))
    ensures |w.desk.notices| <= |NextDesk(w, e).notices|
  {
    if e.NoteArrives? && e.i < |w.order.notes| {
      OrderEventAgrees(w.order, w.desk, PayloadOf(w.order.notes[e.i]), e.answer);
    }
  }

  lemma NextDeskCounts(w: World, e: Event)
    requires RefundsCounted(w)
    ensures RefundsCounted(Next(w, e))
  {
  }

  lemma NextDeskOrdered(w: World, e: Event)
    requires Consistent(w.order) && RefundsOrdered(w)
    ensures var d := NextDesk(w, e); d.refunds != [] || IsRefunded(d) ==> w.order.refundStatus == FullRefund
  {
    if e.CommandArrives? && e.i < |w.order.commands| {
      assert w.order.commands[e.i].action == Refund ==> w.order.refundStatus == FullRefund;
    }
  }

  lemma SoundTogether(w: World, n: World)
    requires Sound(w) && Consistent(n.order) && KeepsTerms(w.order, n.order, w.desk.notices != [])
    requires Agrees(w.order, n.desk) && |w.desk.notices| <= |n.desk.notices| && RefundsCounted(n)
    requires RefundsOrdered(n.(order := w.order))
    ensures Sound(n)
  {
  }

  lemma NextSound(w: World, e: Event)
    requires Sound(w)
    ensures Sound(Next(w, e))
  {
    NextOrderKeepsTerms(w, e);
    NextDeskAgrees(w, e);
    NextDeskCounts(w, e);
    NextDeskOrdered(w, e);
    SoundTogether(w, Next(w, e));
  }

  lemma InitialSound(w: World)
    requires Initial(w)
    ensures Sound(w)
  {
    var id, customer, restaurant, total, env :|
      w.order == Create(id, customer, restaurant, w.order.paymentMethod, total, env);
    CreateConsistent(id, customer, restaurant, w.order.paymentMethod, total, env);
  }

  lemma {:induction false} UnfoldSound(w: World, trace: seq<Event>)
    requires Initial(w)
    ensures Sound(Unfold(w, trace))
  {
    if trace == [] {
      InitialSound(w);
    } else {
      UnfoldSound(w, trace[..|trace| - 1]);
      NextSound(Unfold(w, trace[..|trace| - 1]), trace[|trace| - 1]);
    }
  }

  // ---------------------------------------------------------------- the main results

  /** In every run the provider is asked for exactly one refund more than the number of times the
      payment left REFUNDED, if it is REFUNDED now, and for exactly that number otherwise; so never
      for more than one more. A single refund already means that the order is marked fully refunded
      and never asked to settle, and each refund is for the order's total. */
  lemma RefundsBounded(w: World, trace: seq<Event>)
    requires Initial(w)
    ensures var end := Unfold(w, trace);
            && |end.desk.refunds| == end.left + (if IsRefunded(end.desk) then 1 else 0)
            && |end.desk.refunds| <= 1 + end.left
            && (end.desk.refunds != [] ==>
                  end.order.refundStatus == FullRefund
                  && end.order.commands == [PaymentCommand(end.order.id, Refund, end.order.total)])
            && (forall c :: c in end.order.commands && c.action == Settle ==> end.desk.refunds == [])
            && (forall i :: 0 <= i < |end.desk.refunds| ==> end.desk.refunds[i].amount == end.order.total)
  {
    UnfoldSound(w, trace);
  }

  /** However order events are duplicated and reordered, the payment's amount and provider are the
      order's, and a card order marked paid by the system had its payment reported. */
  lemma ServicesAgree(w: World, trace: seq<Event>)
    requires Initial(w)
    ensures var end := Unfold(w, trace);
            && (end.desk.payment.Some? ==>
                  end.desk.payment.value.amount == end.order.total
                  && end.desk.payment.value.provider == end.order.paymentMethod)
            && (end.order.paymentMethod == Card && end.order.paymentStatus == Paid ==> end.desk.notices != [])
  {
    UnfoldSound(w, trace);
    LogLength(Unfold(w, trace).order);
  }

  /** Steps that cannot take a payment out of REFUNDED: messages, retries and, for cash, everything
      but a webhook without an object id. */
  predicate Quiet(m: PaymentMethod, e: Event) {
    if m == CashOnDelivery then e.WebhookCalled? ==> e.event.reference.Some?
    else !e.ResumeAsked? && !e.ConfirmAsked? && !e.WebhookCalled?
  }

  lemma {:induction false} QuietRuns(w: World, trace: seq<Event>)
    requires Initial(w)
    requires forall i :: 0 <= i < |trace| ==> Quiet(w.order.paymentMethod, trace[i])
    ensures var end := Unfold(w, trace);
            && end.left == 0
            && end.order.paymentMethod == w.order.paymentMethod
            && CashHasNoReference(w.order.paymentMethod, end.desk)
  {
    if trace != [] {
      var init, e := trace[..|trace| - 1], trace[|trace| - 1];
      QuietRuns(w, init);
      UnfoldSound(w, init);
      QuietStep(Unfold(w, init), e);
    }
  }

  /** Cash payments carry no provider reference. */
  predicate CashHasNoReference(m: PaymentMethod, d: Desk) {
    m == CashOnDelivery && d.payment.Some? ==> d.payment.value.reference == None
  }

  lemma QuietDesk(w: World, e: Event)
    requires Consistent(w.order) && Agrees(w.order, w.desk) && Quiet(w.order.paymentMethod, e)
    requires CashHasNoReference(w.order.paymentMethod, w.desk)
    ensures IsRefunded(w.desk) ==> IsRefunded(NextDesk(w, e))
    ensures CashHasNoReference(w.order.paymentMethod, NextDesk(w, e))
  {
    if e.NoteArrives? && e.i < |w.order.notes| {
      assert PayloadOf(w.order.notes[e.i]).paymentMethod == Some(w.order.paymentMethod);
    }
  }

  lemma QuietStep(w: World, e: Event)
    requires Sound(w) && Quiet(w.order.paymentMethod, e)
    requires CashHasNoReference(w.order.paymentMethod, w.desk)
    ensures var n := Next(w, e);
            && n.left == w.left
            && n.order.paymentMethod == w.order.paymentMethod
            && CashHasNoReference(w.order.paymentMethod, n.desk)
  {
    NextOrderKeepsTerms(w, e);
    QuietDesk(w, e);
  }

  /** Cash orders, and runs of order events, commands and retries only, are refunded at most once. */
  lemma AtMostOneRefund(w: World, trace: seq<Event>)
    requires Initial(w)
    requires forall i :: 0 <= i < |trace| ==> Quiet(w.order.paymentMethod, trace[i])
    ensures |Unfold(w, trace).desk.refunds| <= 1
  {
    QuietRuns(w, trace);
    RefundsBounded(w, trace);
  }

  // ---------------------------------------------------------------- why the bound is not one

  /** From any state in which the refund was ordered and the read-model still says PAYMENT_PENDING:
      refund, resumed payment, redelivered command, second refund, whatever the provider answered to
      either; so a refused refund can be followed by one that is paid. */
  lemma ResumeRearmsRefund(w: World, answer: ProviderResult, first: bool, again: bool)
    requires w.order.commands == [PaymentCommand(w.order.id, Refund, w.order.total)]
    requires w.desk.snapshot.Some? && w.desk.snapshot.value.status == Some(PaymentPending)
    requires w.desk.payment.Some? && w.desk.payment.value.provider == Card && w.desk.payment.value.status == TxSucceeded
    requires answer.ok
    ensures var end := Next(Next(Next(w, CommandArrives(0, first)), ResumeAsked(answer)), CommandArrives(0, again));
            var total := w.desk.snapshot.value.total;
            && end.desk.refunds == w.desk.refunds + [RefundCall(w.desk.payment.value.reference, total, first)]
                                   + [RefundCall(answer.reference, total, again)]
            && end.left == w.left + 1
  {
    var refunded := Next(w, CommandArrives(0, first));
    assert IsRefunded(refunded.desk);
    var resumed := Next(refunded, ResumeAsked(answer));
    assert resumed.left == w.left + 1 && resumed.desk.refunds == refunded.desk.refunds;
  }

  /** The payment desk as the first order event and the provider's webhook leave it. */
  function PaidDesk(answer: ProviderResult): Desk {
    Desk(Some(Snapshot(2, Some(PaymentPending), 500, Card)), Some(Payment(Card, 500, TxSucceeded, answer.reference)),
         [PaymentNotice(Card, 500)], [])
  }

  lemma PaidByCard(w: World, env: Env, answer: ProviderResult)
    requires w == World(Create(1, 2, 3, Card, 500, env), EMPTY_DESK, 0)
    requires answer.ok && answer.reference.Some?
    ensures var paid := WebhookEvent(false, IntentSucceeded, answer.reference, None, false);
            Next(Next(w, NoteArrives(0, answer)), WebhookCalled(paid)) == World(w.order, PaidDesk(answer), 0)
  {
    var noted := Next(w, NoteArrives(0, answer));
    assert noted.desk.payment == Some(Payment(Card, 500, TxAuthorized, answer.reference));
  }

  lemma CancelledAfterNotice(w: World, env: Env)
    requires w.order == Create(1, 2, 3, Card, 500, env) && |w.desk.notices| > 0
    ensures var end := Next(Next(w, NoticeArrives(0, env)), OrderCall(CustomerCancel(Caller(2, false)), env));
            && end.order.commands == [PaymentCommand(end.order.id, Refund, end.order.total)]
            && end.desk == w.desk && end.left == w.left
  {
    var marked := Next(w, NoticeArrives(0, env));
    assert marked.order.status == PaymentSuccess && marked.order.commands == [];
  }

  /** Such a state is reached by ordinary traffic: paid by card, cancelled, the later order events
      still on their way. */
  lemma PaidThenCancelled(w: World, env: Env, answer: ProviderResult, t: seq<Event>)
    requires w == World(Create(1, 2, 3, Card, 500, env), EMPTY_DESK, 0)
    requires answer.ok && answer.reference.Some?
    requires var paid := WebhookEvent(false, IntentSucceeded, answer.reference, None, false);
             t == [NoteArrives(0, answer), WebhookCalled(paid), NoticeArrives(0, env),
                   OrderCall(CustomerCancel(Caller(2, false)), env)]
    ensures var end := Unfold(w, t);
            && end.order.commands == [PaymentCommand(end.order.id, Refund, end.order.total)]
            && end.desk == PaidDesk(answer) && end.left == 0
  {
    PaidByCard(w, env, answer);
    CancelledAfterNotice(World(w.order, PaidDesk(answer), 0), env);
    UnfoldFour(w, t);
  }

  /** So the bound is met: a run with two refunds of one order. */
  lemma SecondRefund(env: Env, answer: ProviderResult)
    requires answer.ok && answer.reference.Some?
    ensures exists w, trace :: Initial(w) && |Unfold(w, trace).desk.refunds| == 2 && Unfold(w, trace).left == 1
  {
    var w := World(Create(1, 2, 3, Card, 500, env), EMPTY_DESK, 0);
    var paid := WebhookEvent(false, IntentSucceeded, answer.reference, None, false);
    var first := [NoteArrives(0, answer), WebhookCalled(paid), NoticeArrives(0, env),
                  OrderCall(CustomerCancel(Caller(2, false)), env)];
    var rest := [CommandArrives(0, true), ResumeAsked(answer), CommandArrives(0, true)];
    PaidThenCancelled(w, env, answer, first);
    TwoRefundsAfter(w, first, answer, rest);
    assert Initial(w);
  }

  lemma TwoRefundsAfter(w: World, first: seq<Event>, answer: ProviderResult, rest: seq<Event>)
    requires var mid := Unfold(w, first);
             && mid.order.commands == [PaymentCommand(mid.order.id, Refund, mid.order.total)]
             && mid.desk.snapshot.Some? && mid.desk.snapshot.value.status == Some(PaymentPending)
             && mid.desk.payment.Some? && mid.desk.payment.value.provider == Card
             && mid.desk.payment.value.status == TxSucceeded && mid.desk.refunds == [] && mid.left == 0
    requires answer.ok && rest == [CommandArrives(0, true), ResumeAsked(answer), CommandArrives(0, true)]
    ensures |Unfold(w, first + rest).desk.refunds| == 2 && Unfold(w, first + rest).left == 1
  {
    ResumeRearmsRefund(Unfold(w, first), answer, true, true);
    UnfoldThree(w, first, rest);
  }

  lemma UnfoldThree(w: World, first: seq<Event>, rest: seq<Event>)
    requires |rest| == 3
    ensures Unfold(w, first + rest) == Next(Next(Next(Unfold(w, first), rest[0]), rest[1]), rest[2])
  {
    var trace, n := first + rest, |first|;
    assert trace[..n] == first && trace[..n + 3] == trace;
    UnfoldStep(w, trace, n);
    UnfoldStep(w, trace, n + 1);
    UnfoldStep(w, trace, n + 2);
  }

  lemma UnfoldFour(w: World, t: seq<Event>)
    requires |t| == 4
    ensures Unfold(w, t) == Next(Next(Next(Next(w, t[0]), t[1]), t[2]), t[3])
  {
    UnfoldStep(w, t, 0);
    UnfoldStep(w, t, 1);
    UnfoldStep(w, t, 2);
    UnfoldStep(w, t, 3);
    assert t[..4] == t;
  }

  lemma UnfoldStep(w: World, trace: seq<Event>, k: nat)
    requires k < |trace|
    ensures Unfold(w, trace[..k + 1]) == Next(Unfold(w, trace[..k]), trace[k])
  {
    assert trace[..k + 1][..k] == trace[..k];
  }

  /** A resumed or confirmed card payment while the read-model still waits for it, or a fresh webhook about
      money, for the payment's own reference, that is not merely announcing money to come. */
  predicate Reopens(d: Desk, e: Event) {
    && d.payment.Some?
    && match e
       case ResumeAsked(_) => d.snapshot.Some? && AwaitsCard(d)
       case ConfirmAsked(verified) => d.snapshot.Some? && AwaitsCard(d) && verified.ok
       case WebhookCalled(event) =>
         && !event.duplicate && event.reference == d.payment.value.reference
         && (Fails(event.kind) || (Settles(event.kind) && (event.kind == IntentSucceeded || !event.unpaid)))
       case _ => false
  }

  /** Those are exactly the steps that take a refunded payment out of REFUNDED. */
  lemma LeavesRefundedIff(w: World, e: Event)
    requires IsRefunded(w.desk)
    ensures !IsRefunded(NextDesk(w, e)) <==> Reopens(w.desk, e)
  {
  }

  /** Cash has no reference, so a webhook without an object id finds a cash payment: it is one of those
      steps, and a redelivered command then refunds the cash order again. */
  lemma BlankWebhookRearmsCash(w: World, event: WebhookEvent)
    requires w.order.commands == [PaymentCommand(w.order.id, Refund, w.order.total)]
    requires w.desk.snapshot.Some? && IsRefunded(w.desk) && w.desk.payment.value.provider == CashOnDelivery
    requires w.desk.payment.value.reference == None
    requires event == WebhookEvent(false, IntentSucceeded, None, None, false)
    ensures var end := Next(Next(w, WebhookCalled(event)), CommandArrives(0, true));
            |end.desk.refunds| == |w.desk.refunds| + 1 && end.left == w.left + 1
  {
    var succeeded := Next(w, WebhookCalled(event));
    assert succeeded.desk.payment.value.status == TxSucceeded && succeeded.order == w.order;
  }
}
