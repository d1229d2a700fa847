/** The payment row and order read-model as the payments service mutates them. */
module PaymentService {
  import opened Prelude
  import opened StateMachine
  import opened Orders
  import opened Payments

  class PaymentDesk {
    var snapshot: Option<Snapshot>
    var payment: Option<Payment>
    var notices: seq<PaymentNotice>
    var refunds: seq<RefundCall>

    function State(): Desk
      reads this
    {
      Desk(snapshot, payment, notices, refunds)
    }

    constructor ()
      ensures State() == EMPTY_DESK
    {
      snapshot, payment, notices, refunds := None, None, [], [];
    }

    method CreatePaymentForOrder(answer: ProviderResult)
      requires snapshot.Some?
      modifies this`payment
      ensures State() == CreatePayment(old(State()), answer)
    {
      if payment.Some? {
        return;
      }
      var r := Authorize(snapshot.value.paymentMethod, answer);
      payment := Some(Payment(snapshot.value.paymentMethod, snapshot.value.total,
                              if r.ok then TxAuthorized else TxFailed, r.reference));
    }

    method CapturePayment()
      modifies this`payment
      ensures State() == Capture(old(State()))
    {
      if payment.None? {
        return;
      }
      if !Capturable(payment.value.status) {
        return;
      }
      payment := Some(payment.value.(status := TxSucceeded));
    }

    method Refund(ok: bool)
      requires snapshot.Some?
      modifies this`payment, this`refunds
      ensures State() == RefundPayment(old(State()), ok)
    {
      if payment.None? {
        return;
      }
      if payment.value.status == TxRefunded {
        return;
      }
      if payment.value.status !in {TxAuthorized, TxSucceeded} {
        return;
      }
      refunds := refunds + [RefundCall(payment.value.reference, snapshot.value.total, ok)];
      payment := Some(payment.value.(status := TxRefunded));
    }

    method RetryPayment(answer: ProviderResult) returns (r: Outcome<DeskError>)
      modifies this`payment
      ensures (State(), r) == Retry(old(State()), answer)
    {
      if snapshot.None? {
        return Refused(NoSnapshot);
      }
      if payment.None? {
        return Refused(NoPayment);
      }
      if payment.value.status != TxFailed {
        return Done;
      }
      var result := Authorize(payment.value.provider, answer);
      payment := Some(payment.value.(status := if result.ok then TxAuthorized else TxFailed,
                                     reference := result.reference));
      r := GatewayOutcome(result);
    }

    method ResumeCardPayment(answer: ProviderResult) returns (r: Outcome<DeskError>)
      modifies this`payment
      ensures (State(), r) == Resume(old(State()), answer)
    {
      if snapshot.None? {
        return Refused(NoSnapshot);
      }
      if payment.None? {
        return Refused(NoPayment);
      }
      if payment.value.provider != Card || snapshot.value.status != Some(PaymentPending) {
        return Done;
      }
      payment := Some(payment.value.(status := if answer.ok then TxAuthorized else TxFailed,
                                     reference := answer.reference));
      r := GatewayOutcome(answer);
    }

    method ConfirmCardPayment(verified: ProviderResult) returns (r: Outcome<DeskError>)
      modifies this`payment, this`notices
      ensures (State(), r) == Confirm(old(State()), verified)
    {
      if snapshot.None? {
        return Refused(NoSnapshot);
      }
      if payment.None? {
        return Refused(NoPayment);
      }
      if payment.value.provider != Card || snapshot.value.status != Some(PaymentPending) || !verified.ok {
        return Done;
      }
      if verified.reference.Some? {
        payment := Some(payment.value.(reference := verified.reference));
      }
      payment := Some(payment.value.(status := TxSucceeded));
      notices := notices + [PaymentNotice(payment.value.provider, payment.value.amount)];
      r := Done;
    }

    method ApplyOrderEvent(p: OrderPayload, answer: ProviderResult)
      modifies this`snapshot, this`payment
      ensures State() == OnOrderEvent(old(State()), p, answer)
    {
      if snapshot.None? {
        snapshot := Some(Snapshot(if p.customerId.Some? then p.customerId.value else 0, p.status, 0, CashOnDelivery));
      }
      if p.status.Some? {
        snapshot := Some(snapshot.value.(status := p.status));
      }
      if p.customerId.Some? {
        snapshot := Some(snapshot.value.(customerId := p.customerId.value));
      }
      if p.total.Some? {
        snapshot := Some(snapshot.value.(total := p.total.value));
      }
      if p.paymentMethod.Some? {
        snapshot := Some(snapshot.value.(paymentMethod := p.paymentMethod.value));
      }
      if Payable(snapshot.value.status) {
        CreatePaymentForOrder(answer);
      }
    }

    method ApplyPaymentCommand(action: Option<PaymentAction>, ok: bool) returns (r: Outcome<DeskError>)
      modifies this`payment, this`refunds
      ensures match OnCommand(old(State()), action, ok)
              case Ok(d) => r == Done && State() == d
              case Err(e) => r == Refused(e) && State() == old(State())
    {
      if snapshot.None? {
        return Refused(NoSnapshot);
      }
      if action == Some(Settle) {
        CapturePayment();
      } else if action == Some(PaymentAction.Refund) {
        Refund(ok);
      }
      r := Done;
    }

    method HandleEvent(e: WebhookEvent) returns (r: WebhookOutcome)
      modifies this`payment, this`notices
      ensures (State(), r) == OnWebhook(old(State()), e)
    {
      if e.duplicate {
        return Duplicate;
      }
      if !Settles(e.kind) && !Fails(e.kind) {
        return Ignored;
      }
      if payment.None? || payment.value.reference != e.reference {
        return UnknownReference;
      }
      if Fails(e.kind) {
        payment := Some(payment.value.(status := TxFailed));
        return MarkedFailed;
      }
      if e.kind == CheckoutCompleted || e.kind == CheckoutAsyncSucceeded {
        if e.intent.Some? {
          payment := Some(payment.value.(reference := e.intent));
        }
        if e.unpaid {
          return AwaitingPayment;
        }
      }
      payment := Some(payment.value.(status := TxSucceeded));
      notices := notices + [PaymentNotice(payment.value.provider, payment.value.amount)];
      r := MarkedPaid;
    }
  }
}
