/** What each step does to a payment, and what a cash payment's status tells about the whole run
    (services/payments/app/service.py, consumer.py, webhook.py). */
module PaymentLaws {
  import opened Prelude
  import opened StateMachine
  import opened Orders
  import opened OrderProofs
  import opened Payments
  import opened MoneySafety
  import opened RefundOutcomes

  // ---------------------------------------------------------------- single steps

  /** Only the payment row may have changed. */
  predicate OnlyPayment(d: Desk, n: Desk) {
    n.snapshot == d.snapshot && n.notices == d.notices && n.refunds == d.refunds
  }

  /** Only its status, and only to `s`. */
  predicate StatusSet(d: Desk, n: Desk, s: TxStatus) {
    OnlyPayment(d, n) && d.payment.Some? && n.payment == Some(d.payment.value.(status := s))
  }

  predicate HasStatus(d: Desk, statuses: set<TxStatus>) {
    d.payment.Some? && d.payment.value.status in statuses
  }

  /** Settling collects what was authorised or still open, and touches nothing else. */
  lemma SettleLaw(d: Desk, ok: bool)
    requires d.snapshot.Some?
    ensures match OnCommand(d, Some(Settle), ok)
            case Ok(n) => if HasStatus(d, {TxPending, TxAuthorized}) then StatusSet(d, n, TxSucceeded) else n == d
            case Err(_) => false
  {
  }

  /** Refunding asks the provider once for what was authorised or collected, and touches nothing else. */
  lemma RefundLaw(d: Desk, ok: bool)
    requires d.snapshot.Some?
    ensures match OnCommand(d, Some(Refund), ok)
            case Ok(n) =>
              if HasStatus(d, {TxAuthorized, TxSucceeded}) then
                && StatusSet(d, n.(refunds := d.refunds), TxRefunded)
                && n.refunds == d.refunds + [RefundCall(d.payment.value.reference, d.snapshot.value.total, ok)]
              else n == d
            case Err(_) => false
  {
  }

  /** A command for an order payments has not heard of is refused, whatever it asks; an unknown action is
      dropped. */
  lemma CommandRefusedIff(d: Desk, action: Option<PaymentAction>, ok: bool)
    ensures OnCommand(d, action, ok).Err? <==> d.snapshot.None?
    ensures d.snapshot.Some? && action.None? ==> OnCommand(d, action, ok) == Ok(d)
  {
  }

  /** The new value if the event carries one, otherwise the old, otherwise a default. */
  predicate Overwritten<T(==)>(now: T, event: Option<T>, before: Option<T>, default: T) {
    now == if event.Some? then event.value else if before.Some? then before.value else default
  }

  /** An order event leaves in the copy what it carries, and a payment for a payable order exists after it. */
  lemma OrderEventLaw(d: Desk, p: OrderPayload, answer: ProviderResult)
    ensures var n := OnOrderEvent(d, p, answer);
            && n.snapshot.Some? && n.notices == d.notices && n.refunds == d.refunds
            && var s := n.snapshot.value;
               && Overwritten(s.customerId, p.customerId, if d.snapshot.Some? then Some(d.snapshot.value.customerId) else None, 0)
               && Overwritten(s.status, if p.status.Some? then Some(p.status) else None,
                              if d.snapshot.Some? then Some(d.snapshot.value.status) else None, None)
               && Overwritten(s.total, p.total, if d.snapshot.Some? then Some(d.snapshot.value.total) else None, 0)
               && Overwritten(s.paymentMethod, p.paymentMethod,
                              if d.snapshot.Some? then Some(d.snapshot.value.paymentMethod) else None, CashOnDelivery)
               && (d.payment.Some? ==> n.payment == d.payment)
               && (d.payment.None? ==>
                     (n.payment.Some? <==> s.status == Some(PaymentPending) || s.status == Some(PaymentSuccess)))
               && (d.payment.None? && n.payment.Some? ==> Opened(n.payment.value, s, answer))
  {
  }

  /** A new payment: cash is authorised at once, a card as the provider answered. */
  predicate Opened(p: Payment, s: Snapshot, answer: ProviderResult) {
    && p.provider == s.paymentMethod && p.amount == s.total
    && p.status == (if s.paymentMethod == CashOnDelivery || answer.ok then TxAuthorized else TxFailed)
    && p.reference == (if s.paymentMethod == CashOnDelivery then None else answer.reference)
  }

  /** Authorised again, at the provider's word and under its new reference. */
  predicate Again(d: Desk, n: Desk, ok: bool, reference: Option<string>) {
    && OnlyPayment(d, n) && d.payment.Some?
    && n.payment == Some(d.payment.value.(status := if ok then TxAuthorized else TxFailed, reference := reference))
  }

  /** What a customer's call is told, if anything is missing. */
  predicate Missing(d: Desk, r: Outcome<DeskError>) {
    (d.snapshot.None? && r == Refused(NoSnapshot)) || (d.snapshot.Some? && d.payment.None? && r == Refused(NoPayment))
  }

  /** A retry re-authorises exactly a failed payment; a gateway fault is reported after it is stored. */
  lemma RetryLaw(d: Desk, answer: ProviderResult)
    ensures var (n, r) := Retry(d, answer);
            if d.snapshot.None? || d.payment.None? then n == d && Missing(d, r)
            else if d.payment.value.status != TxFailed then n == d && r == Done
            else if d.payment.value.provider == CashOnDelivery then Again(d, n, true, None) && r == Done
            else && Again(d, n, answer.ok, answer.reference)
                 && r == if !answer.ok && answer.isError then Refused(GatewayError) else Done
  {
  }

  /** Resuming does so exactly for a card order that payments still thinks unpaid, whatever the payment's
      status. */
  lemma ResumeLaw(d: Desk, answer: ProviderResult)
    ensures var (n, r) := Resume(d, answer);
            if d.snapshot.None? || d.payment.None? then n == d && Missing(d, r)
            else if d.payment.value.provider != Card || d.snapshot.value.status != Some(PaymentPending) then
              n == d && r == Done
            else && Again(d, n, answer.ok, answer.reference)
                 && r == if !answer.ok && answer.isError then Refused(GatewayError) else Done
  {
  }

  /** The money is there: the status, the reference a refund needs, and one event about it. */
  predicate Arrived(d: Desk, n: Desk, reference: Option<string>) {
    && d.payment.Some? && n.snapshot == d.snapshot && n.refunds == d.refunds
    && n.payment == Some(d.payment.value.(
                          status := TxSucceeded,
                          reference := if reference.Some? then reference else d.payment.value.reference))
    && n.notices == d.notices + [PaymentNotice(d.payment.value.provider, d.payment.value.amount)]
  }

  lemma ConfirmLaw(d: Desk, verified: ProviderResult)
    ensures var (n, r) := Confirm(d, verified);
            if d.snapshot.None? || d.payment.None? then n == d && Missing(d, r)
            else if d.payment.value.provider == Card && d.snapshot.value.status == Some(PaymentPending) && verified.ok then
              Arrived(d, n, verified.reference) && r == Done
            else n == d && r == Done
  {
  }

  /** The webhook acts exactly on a fresh event about money for this payment's reference. */
  lemma WebhookLaw(d: Desk, e: WebhookEvent)
    ensures var (n, r) := OnWebhook(d, e);
            if e.duplicate then n == d && r == Duplicate
            else if e.kind == OtherKind then n == d && r == Ignored
            else if d.payment.None? || d.payment.value.reference != e.reference then n == d && r == UnknownReference
            else if e.kind == IntentFailed || e.kind == CheckoutAsyncFailed then
              StatusSet(d, n, TxFailed) && r == MarkedFailed
            else if e.kind == IntentSucceeded then Arrived(d, n, None) && r == MarkedPaid
            else if e.unpaid then
              && r == AwaitingPayment && OnlyPayment(d, n)
              && n.payment == Some(d.payment.value.(reference := if e.intent.Some? then e.intent else d.payment.value.reference))
            else Arrived(d, n, e.intent) && r == MarkedPaid
  {
  }

  /** In a run: a retry that the provider grants makes a failed payment refundable again, and a refund command
      then reaches the provider. */
  lemma RetryRevives(w: World, answer: ProviderResult, ok: bool)
    requires w.order.commands == [PaymentCommand(w.order.id, Refund, w.order.total)]
    requires w.desk.snapshot.Some? && HasStatus(w.desk, {TxFailed}) && answer.ok
    ensures var retried := Next(w, RetryAsked(answer));
            && HasStatus(retried.desk, {TxAuthorized}) && Asks(retried, CommandArrives(0, ok))
            && !Asks(w, CommandArrives(0, ok))
  {
    RetryLaw(w.desk, answer);
  }

  /** In a run: a card payment confirmed while its order waits is collected, and the event that says so pays
      the order. */
  lemma ConfirmPays(w: World, verified: ProviderResult, env: Env)
    requires w.order.status == PaymentPending && verified.ok
    requires w.desk.snapshot.Some? && w.desk.payment.Some? && w.desk.payment.value.provider == Card
    requires w.desk.snapshot.value.status == Some(PaymentPending)
    ensures var confirmed := Next(w, ConfirmAsked(verified));
            var told := Next(confirmed, NoticeArrives(|w.desk.notices|, env));
            Collected(told.desk) && told.order.status == PaymentSuccess && told.order.paymentStatus == Paid
  {
    ConfirmLaw(w.desk, verified);
  }

  // ---------------------------------------------------------------- settling, over runs

  /** A settle command reaches a payment that can be collected. */
  predicate SettleReaches(w: World, e: Event) {
    && e.CommandArrives? && e.i < |w.order.commands| && w.order.commands[e.i].action == Settle
    && w.desk.snapshot.Some? && HasStatus(w.desk, {TxPending, TxAuthorized})
  }

  /** Which steps undo a collected payment: a refund, a payment begun again, a failure reported. */
  predicate Undoes(w: World, e: Event) {
    || Asks(w, e)
    || (e.ResumeAsked? && w.desk.snapshot.Some? && w.desk.payment.Some? && AwaitsCard(w.desk))
    || (e.WebhookCalled? && w.desk.payment.Some? && !e.event.duplicate
        && (e.event.kind == IntentFailed || e.event.kind == CheckoutAsyncFailed)
        && e.event.reference == w.desk.payment.value.reference)
  }

  lemma CollectedStaysIff(w: World, e: Event)
    requires Collected(w.desk)
    ensures Collected(NextDesk(w, e)) <==> !Undoes(w, e)
  {
    if e.CommandArrives? && e.i < |w.order.commands| && w.desk.snapshot.Some? {
      SettleLaw(w.desk, e.ok);
      RefundLaw(w.desk, e.ok);
    } else if e.WebhookCalled? {
      WebhookLaw(w.desk, e.event);
    } else if e.ConfirmAsked? {
      ConfirmLaw(w.desk, e.answer);
    }
  }

  lemma SettleCollects(w: World, e: Event)
    requires SettleReaches(w, e)
    ensures Collected(NextDesk(w, e)) && NextDesk(w, e).payment == Some(w.desk.payment.value.(status := TxSucceeded))
  {
    SettleLaw(w.desk, e.ok);
  }

  predicate SettleOrdered(o: Order) {
    o.commands == [PaymentCommand(o.id, Settle, o.total)]
  }

  lemma SettledStep(w: World, e: Event)
    requires Sound(w) && SettleOrdered(w.order)
    requires SettleReaches(w, e) || (Collected(w.desk) && !e.ResumeAsked? && !e.WebhookCalled?)
    ensures Collected(Next(w, e).desk) && SettleOrdered(Next(w, e).order)
  {
    SettledOrder(w, e);
    if SettleReaches(w, e) {
      SettleCollects(w, e);
    } else {
      CollectedStaysIff(w, e);
    }
  }

  lemma {:induction false} SettledRun(w: World, trace: seq<Event>, k: nat, n: nat)
    requires Initial(w) && k < n <= |trace| && SettleReaches(Before(w, trace, k), trace[k])
    requires forall i :: k < i < n ==> !trace[i].ResumeAsked? && !trace[i].WebhookCalled?
    ensures Collected(Before(w, trace, n).desk) && SettleOrdered(Before(w, trace, n).order)
  {
    UnfoldSound(w, trace[..n - 1]);
    BeforeNext(w, trace, n - 1);
    if n > k + 1 {
      SettledRun(w, trace, k, n - 1);
    } else {
      ReachedIsOrdered(Before(w, trace, k), trace[k]);
    }
    SettledStep(Before(w, trace, n - 1), trace[n - 1]);
  }

  lemma ReachedIsOrdered(w: World, e: Event)
    requires Sound(w) && SettleReaches(w, e)
    ensures SettleOrdered(w.order)
  {
  }

  /** In every run: an order whose settle command reaches a payment that can be collected is collected, for
      the order's own total, and stays so as long as the payment is not begun again or reported failed; it
      is never refunded. */
  lemma {:induction false} DeliveredIsCollected(w: World, trace: seq<Event>, k: nat)
    requires Initial(w) && k < |trace| && SettleReaches(Before(w, trace, k), trace[k])
    requires forall i :: k < i < |trace| ==> !trace[i].ResumeAsked? && !trace[i].WebhookCalled?
    ensures var end := Unfold(w, trace);
            && Collected(end.desk) && end.desk.payment.value.amount == end.order.total && end.desk.refunds == []
            && Visited(end.order.events, Delivered)
  {
    SettledRun(w, trace, k, |trace|);
    BeforeEnd(w, trace);
    UnfoldSound(w, trace);
    WorldOrderReachable(w, trace);
    AuditAndCommands(Unfold(w, trace).order);
  }

  /** Once ordered, a settle stays ordered, and no refund joins it. */
  lemma SettledOrder(w: World, e: Event)
    requires Sound(w) && SettleOrdered(w.order)
    ensures SettleOrdered(NextOrder(w, e)) && !Asks(w, e)
  {
    if e.OrderCall? {
      StepKinds(w.order, e.action, e.env);
    } else if e.NoticeArrives? {
      StepKinds(w.order, PaymentEvent(true), e.env);
    }
  }

  // ---------------------------------------------------------------- cash

  /** A command reaches an order's payment. */
  predicate Handled(w: World, e: Event) {
    e.CommandArrives? && e.i < |w.order.commands| && w.desk.payment.Some?
  }

  predicate HandledAt(w: World, trace: seq<Event>, k: nat)
    requires k < |trace|
  {
    Handled(Before(w, trace, k), trace[k])
  }

  predicate EverHandled(w: World, trace: seq<Event>) {
    exists k :: 0 <= k < |trace| && HandledAt(w, trace, k)
  }

  /** What a cash payment's status says: nothing came for it yet, it was settled, or it was refunded. */
  function CashStatus(handled: bool, o: Order): TxStatus {
    if !handled then TxAuthorized else if o.refundStatus == FullRefund then TxRefunded else TxSucceeded
  }

  ghost predicate CashTold(w: World, handled: bool) {
    && (w.desk.payment.Some? ==>
          w.desk.snapshot.Some? && w.desk.payment.value.reference == None
          && w.desk.payment.value.status == CashStatus(handled, w.order))
    && (handled ==> w.desk.payment.Some? && w.order.commands != [])
  }

  lemma CashCommand(w: World, e: Event, handled: bool)
    requires Sound(w) && w.order.paymentMethod == CashOnDelivery && CashTold(w, handled)
    requires Handled(w, e)
    ensures CashTold(Next(w, e), true)
  {
    SettleLaw(w.desk, e.ok);
    RefundLaw(w.desk, e.ok);
  }

  lemma CashOtherDesk(w: World, e: Event, handled: bool)
    requires Sound(w) && w.order.paymentMethod == CashOnDelivery && CashTold(w, handled)
    requires Quiet(CashOnDelivery, e) && !Handled(w, e) && !e.OrderCall? && !e.NoticeArrives?
    ensures CashTold(Next(w, e), handled)
  {
    match e
    case NoteArrives(i, answer) =>
      if i < |w.order.notes| {
        OrderEventLaw(w.desk, PayloadOf(w.order.notes[i]), answer);
      }
    case CommandArrives(i, ok) =>
      if i < |w.order.commands| && w.desk.snapshot.Some? {
        SettleLaw(w.desk, ok);
        RefundLaw(w.desk, ok);
      }
    case RetryAsked(answer) => RetryLaw(w.desk, answer);
    case ResumeAsked(answer) => ResumeLaw(w.desk, answer);
    case ConfirmAsked(answer) => ConfirmLaw(w.desk, answer);
    case WebhookCalled(event) => WebhookLaw(w.desk, event);
  }

  /** An order that has issued its command keeps it, and with it whether it is refunded. */
  lemma CashOrder(w: World, e: Event, handled: bool)
    requires Sound(w) && CashTold(w, handled) && (e.OrderCall? || e.NoticeArrives?)
    ensures CashTold(Next(w, e), handled)
  {
    var a := if e.OrderCall? then e.action else PaymentEvent(true);
    StepKinds(w.order, a, e.env);
  }

  lemma {:induction false} EverHandledOneMore(w: World, trace: seq<Event>)
    requires trace != []
    ensures EverHandled(w, trace) <==>
            EverHandled(w, trace[..|trace| - 1]) || Handled(Unfold(w, trace[..|trace| - 1]), trace[|trace| - 1])
  {
    var n, init := |trace| - 1, trace[..|trace| - 1];
    forall k | 0 <= k < n
      ensures HandledAt(w, trace, k) <==> HandledAt(w, init, k)
    {
      assert trace[..k] == init[..k] && trace[k] == init[k];
    }
    assert HandledAt(w, trace, n) <==> Handled(Unfold(w, init), trace[n]);
  }

  lemma {:induction false} CashRun(w: World, trace: seq<Event>)
    requires Initial(w) && w.order.paymentMethod == CashOnDelivery
    requires forall i :: 0 <= i < |trace| ==> Quiet(CashOnDelivery, trace[i])
    ensures Unfold(w, trace).order.paymentMethod == CashOnDelivery
    ensures CashTold(Unfold(w, trace), EverHandled(w, trace))
  {
    if trace != [] {
      var init, e := trace[..|trace| - 1], trace[|trace| - 1];
      var b := Unfold(w, init);
      CashRun(w, init);
      UnfoldSound(w, init);
      NextOrderKeepsTerms(b, e);
      EverHandledOneMore(w, trace);
      if Handled(b, e) {
        CashCommand(b, e, EverHandled(w, init));
      } else if e.OrderCall? || e.NoticeArrives? {
        CashOrder(b, e, EverHandled(w, init));
      } else {
        CashOtherDesk(b, e, EverHandled(w, init));
      }
    }
  }

  lemma CashMeans(w: World, handled: bool)
    requires Sound(w) && Reachable(w.order) && CashTold(w, handled) && w.desk.payment.Some?
    ensures w.desk.payment.value.status == TxAuthorized <==> !handled
    ensures Collected(w.desk) <==> handled && Visited(w.order.events, Delivered)
    ensures IsRefunded(w.desk) <==> handled && w.order.refundStatus == FullRefund
  {
    AuditAndCommands(w.order);
  }

  /** In every run of a cash order, webhooks without an object id aside, its payment's status tells exactly
      what happened: authorised as long as no command reached it, collected iff one did and the order was
      delivered, refunded iff one did and the order was dropped with a refund. */
  lemma {:induction false} CashPaymentIff(w: World, trace: seq<Event>)
    requires Initial(w) && w.order.paymentMethod == CashOnDelivery
    requires forall i :: 0 <= i < |trace| ==> Quiet(CashOnDelivery, trace[i])
    ensures var end := Unfold(w, trace);
            end.desk.payment.Some? ==>
              && (end.desk.payment.value.status == TxAuthorized <==> !EverHandled(w, trace))
              && (Collected(end.desk) <==> EverHandled(w, trace) && Visited(end.order.events, Delivered))
              && (IsRefunded(end.desk) <==> EverHandled(w, trace) && end.order.refundStatus == FullRefund)
  {
    CashRun(w, trace);
    UnfoldSound(w, trace);
    WorldOrderReachable(w, trace);
    if Unfold(w, trace).desk.payment.Some? {
      CashMeans(Unfold(w, trace), EverHandled(w, trace));
    }
  }
}
