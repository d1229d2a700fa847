/** The payments service's view of one order: the order read-model, the payment row, the events it
    recorded and the refunds it asked the provider for (services/payments/app/service.py,
    consumer.py, webhook.py). Answers of the payment provider are parameters. */
module Payments {
  import opened Prelude
  import opened StateMachine
  import opened Orders

  datatype TxStatus = TxPending | TxAuthorized | TxSucceeded | TxFailed | TxRefunded

  datatype Payment = Payment(provider: PaymentMethod, amount: int, status: TxStatus, reference: Option<string>)

  datatype Snapshot = Snapshot(customerId: int, status: Option<Status>, total: int, paymentMethod: PaymentMethod)

  /** An order-events message as the consumer reads it: every field may be missing. */
  datatype OrderPayload = OrderPayload(
    customerId: Option<int>, status: Option<Status>, total: Option<int>, paymentMethod: Option<PaymentMethod>)

  datatype ProviderResult = ProviderResult(ok: bool, reference: Option<string>, isError: bool)

  /** One call of the provider's refund, with the answer nobody looks at. */
  datatype RefundCall = RefundCall(reference: Option<string>, amount: int, ok: bool)

  /** A payment-events message: the money moved. */
  datatype PaymentNotice = PaymentNotice(provider: PaymentMethod, amount: int)

  datatype Desk = Desk(
    snapshot: Option<Snapshot>, payment: Option<Payment>, notices: seq<PaymentNotice>, refunds: seq<RefundCall>)

  datatype DeskError = NoSnapshot | NoPayment | GatewayError

  datatype WebhookKind =
    | IntentSucceeded | IntentFailed | CheckoutCompleted | CheckoutAsyncSucceeded | CheckoutAsyncFailed | OtherKind

  /** A verified provider event. `duplicate` is what the seen-set answered, `intent` the
      PaymentIntent a completed session names, `unpaid` a session whose money is still to come. */
  datatype WebhookEvent = WebhookEvent(
    duplicate: bool, kind: WebhookKind, reference: Option<string>, intent: Option<string>, unpaid: bool)

  datatype WebhookOutcome = Duplicate | Ignored | UnknownReference | MarkedFailed | AwaitingPayment | MarkedPaid

  const EMPTY_DESK := Desk(None, None, [], [])

  predicate Payable(s: Option<Status>) {
    s == Some(PaymentPending) || s == Some(PaymentSuccess)
  }

  predicate Capturable(s: TxStatus) {
    s == TxPending || s == TxAuthorized
  }

  predicate Settles(k: WebhookKind) {
    k == IntentSucceeded || k == CheckoutCompleted || k == CheckoutAsyncSucceeded
  }

  predicate Fails(k: WebhookKind) {
    k == IntentFailed || k == CheckoutAsyncFailed
  }

  /** Cash is always authorised, without a reference; a card gets the provider's answer. */
  function Authorize(m: PaymentMethod, answer: ProviderResult): ProviderResult {
    if m == CashOnDelivery then ProviderResult(true, None, false) else answer
  }

  function AuthorizedStatus(r: ProviderResult): TxStatus {
    if r.ok then TxAuthorized else TxFailed
  }

  function GatewayOutcome(r: ProviderResult): Outcome<DeskError> {
    if !r.ok && r.isError then Refused(GatewayError) else Done
  }

  function CreatePayment(d: Desk, answer: ProviderResult): Desk
    requires d.snapshot.Some?
  {
    if d.payment.Some? then d
    else
      var order := d.snapshot.value;
      var r := Authorize(order.paymentMethod, answer);
      d.(payment := Some(Payment(order.paymentMethod, order.total, AuthorizedStatus(r), r.reference)))
  }

  function Capture(d: Desk): Desk {
    if d.payment.None? || !Capturable(d.payment.value.status) then d
    else d.(payment := Some(d.payment.value.(status := TxSucceeded)))
  }

  /** Refunds what was collected, once; marks it refunded whatever the provider answered. */
  function RefundPayment(d: Desk, ok: bool): Desk
    requires d.snapshot.Some?
  {
    if d.payment.None? || (d.payment.value.status != TxAuthorized && d.payment.value.status != TxSucceeded) then d
    else
      d.(payment := Some(d.payment.value.(status := TxRefunded)),
         refunds := d.refunds + [RefundCall(d.payment.value.reference, d.snapshot.value.total, ok)])
  }

  function Reauthorised(d: Desk, r: ProviderResult): Desk
    requires d.payment.Some?
  {
    d.(payment := Some(d.payment.value.(status := AuthorizedStatus(r), reference := r.reference)))
  }

  function Retry(d: Desk, answer: ProviderResult): (Desk, Outcome<DeskError>) {
    if d.snapshot.None? then (d, Refused(NoSnapshot))
    else if d.payment.None? then (d, Refused(NoPayment))
    else if d.payment.value.status != TxFailed then (d, Done)
    else
      var r := Authorize(d.payment.value.provider, answer);
      (Reauthorised(d, r), GatewayOutcome(r))
  }

  predicate AwaitsCard(d: Desk)
    requires d.snapshot.Some? && d.payment.Some?
  {
    d.payment.value.provider == Card && d.snapshot.value.status == Some(PaymentPending)
  }

  function Resume(d: Desk, answer: ProviderResult): (Desk, Outcome<DeskError>) {
    if d.snapshot.None? then (d, Refused(NoSnapshot))
    else if d.payment.None? then (d, Refused(NoPayment))
    else if !AwaitsCard(d) then (d, Done)
    else (Reauthorised(d, answer), GatewayOutcome(answer))
  }

  function Succeed(d: Desk, reference: Option<string>): Desk
    requires d.payment.Some?
  {
    var p := d.payment.value;
    d.(payment := Some(p.(status := TxSucceeded, reference := if reference.Some? then reference else p.reference)),
       notices := d.notices + [PaymentNotice(p.provider, p.amount)])
  }

  function Confirm(d: Desk, verified: ProviderResult): (Desk, Outcome<DeskError>) {
    if d.snapshot.None? then (d, Refused(NoSnapshot))
    else if d.payment.None? then (d, Refused(NoPayment))
    else if !AwaitsCard(d) || !verified.ok then (d, Done)
    else (Succeed(d, verified.reference), Done)
  }

  /** Only what the event carries is overwritten. */
  function Mirror(s: Option<Snapshot>, p: OrderPayload): Snapshot {
    var base := if s.Some? then s.value
                else Snapshot(if p.customerId.Some? then p.customerId.value else 0, p.status, 0, CashOnDelivery);
    Snapshot(
      if p.customerId.Some? then p.customerId.value else base.customerId,
      if p.status.Some? then p.status else base.status,
      if p.total.Some? then p.total.value else base.total,
      if p.paymentMethod.Some? then p.paymentMethod.value else base.paymentMethod)
  }

  function OnOrderEvent(d: Desk, p: OrderPayload, answer: ProviderResult): Desk {
    var seen := d.(snapshot := Some(Mirror(d.snapshot, p)));
    if Payable(seen.snapshot.value.status) then CreatePayment(seen, answer) else seen
  }

  /** A command that overtook its order's event is refused and left to be redelivered; an action nobody
      knows is dropped. */
  function OnCommand(d: Desk, action: Option<PaymentAction>, ok: bool): Result<Desk, DeskError> {
    if d.snapshot.None? then Err(NoSnapshot)
    else
      match action
      case None => Ok(d)
      case Some(Settle) => Ok(Capture(d))
      case Some(Refund) => Ok(RefundPayment(d, ok))
  }

  function OnWebhook(d: Desk, e: WebhookEvent): (Desk, WebhookOutcome) {
    if e.duplicate then (d, Duplicate)
    else if !Settles(e.kind) && !Fails(e.kind) then (d, Ignored)
    else if d.payment.None? || d.payment.value.reference != e.reference then (d, UnknownReference)
    else if Fails(e.kind) then (d.(payment := Some(d.payment.value.(status := TxFailed))), MarkedFailed)
    else if e.kind == IntentSucceeded then (Succeed(d, None), MarkedPaid)
    else if e.unpaid then
      (d.(payment := Some(d.payment.value.(
            reference := if e.intent.Some? then e.intent else d.payment.value.reference))), AwaitingPayment)
    else (Succeed(d, e.intent), MarkedPaid)
  }

  function PayloadOf(n: OrderNote): OrderPayload {
    OrderPayload(Some(n.customerId), Some(n.status), Some(n.total), Some(n.paymentMethod))
  }
}
