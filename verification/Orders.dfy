/** One order of the orders service as a value, and every entry point that drives it
    (services/orders/app/service.py, services/orders/app/consumer.py).

    The order's outbox rows are kept by topic: `notes` on order-events, `commands` on
    payment-commands, `alerts` (the owner told) on notification-events. Money is in paise and
    time in whole seconds. */
module Orders {
  import opened Prelude
  import opened StateMachine

  datatype PaymentMethod = CashOnDelivery | Card

  datatype PaymentStatus = Unpaid | Paid | PaymentFailed | Refunded

  datatype PaymentAction = Settle | Refund

  /** What a delivery-events message reports. */
  datatype DeliveryReport = ReportUnassigned | ReportAssigned | ReportAccepted | ReportPickedUp | ReportDelivered

  datatype StatusEvent = StatusEvent(from: Option<Status>, to: Status, actor: Actor, reason: Option<string>)

  datatype OrderNote = OrderNote(
    orderId: int, status: Status, customerId: int, restaurantId: int,
    total: int, paymentMethod: PaymentMethod, paymentStatus: PaymentStatus)

  datatype PaymentCommand = PaymentCommand(orderId: int, action: PaymentAction, amount: int)

  datatype Order = Order(
    id: int, customerId: int, restaurantId: int, paymentMethod: PaymentMethod, total: int,
    status: Status, paymentStatus: PaymentStatus, refundStatus: RefundStatus, refundAmount: int,
    cancelledBy: Option<Actor>, cancelReason: Option<string>, updatedAt: int,
    events: seq<StatusEvent>, notes: seq<OrderNote>, commands: seq<PaymentCommand>, alerts: seq<int>,
    stockReleases: nat)

  datatype Caller = Caller(userId: int, isAdmin: bool)

  datatype OrderError = IllegalTransition | CancelNotAllowed | RestaurantUnknown | NotManager | CannotView

  /** What a call sees besides the order row: the clock, the local restaurant read-model and the
      two sweep settings. */
  datatype Env = Env(now: int, owner: Option<int>, paymentWindow: int, acceptTimeout: int)

  datatype Action =
    | PaymentEvent(succeeded: bool)
    | CustomerCancel(caller: Caller)
    | Accept(caller: Caller)
    | Reject(caller: Caller, reason: Option<string>)
    | Advance(caller: Caller, to: Status)
    | DeliveryEvent(report: DeliveryReport)
    | SweepUnpaid
    | SweepUnaccepted

  const PAYMENT_CONFIRMED := "payment confirmed"
  const COD_REASON := "COD: to be collected on delivery"
  const NOT_PAID_IN_TIME := "payment was not completed in time"
  const ACCEPTANCE_TIMEOUT := "restaurant acceptance timeout"

  // ---------------------------------------------------------------- building blocks

  function Transition(o: Order, to: Status, actor: Actor, reason: Option<string>, now: int)
    : (r: Result<Order, OrderError>)
  {
    if to !in Allowed(o.status) then Err(IllegalTransition)
    else Ok(o.(status := to, updatedAt := now,
               events := o.events + [StatusEvent(Some(o.status), to, actor, reason)]))
  }

  function NoteOf(o: Order): OrderNote {
    OrderNote(o.id, o.status, o.customerId, o.restaurantId, o.total, o.paymentMethod, o.paymentStatus)
  }

  function EmitStatus(o: Order): Order {
    o.(notes := o.notes + [NoteOf(o)])
  }

  function NotifyRestaurant(o: Order, owner: Option<int>): Order {
    if owner.Some? then o.(alerts := o.alerts + [owner.value]) else o
  }

  function RequestPaymentAction(o: Order, action: PaymentAction): Order {
    o.(commands := o.commands + [PaymentCommand(o.id, action, o.total)])
  }

  function RecordRefund(o: Order, refund: RefundStatus): Order {
    if refund == FullRefund then
      o.(refundStatus := refund, refundAmount := o.total, paymentStatus := Refunded)
    else
      o.(refundStatus := refund, refundAmount := 0)
  }

  /** The stock release of a cancelled order is a call to another service. Only the fact that it
      was made is the order's. */
  function RestoreStock(o: Order): Order {
    o.(stockReleases := o.stockReleases + 1)
  }

  /** The caller manages the restaurant: 404 before 403, answered from the local read-model. */
  function ManagerCheck(caller: Caller, owner: Option<int>): Outcome<OrderError> {
    if owner.None? then Refused(RestaurantUnknown)
    else if owner.value != caller.userId && !caller.isAdmin then Refused(NotManager)
    else Done
  }

  predicate MayView(o: Order, caller: Caller, owner: Option<int>) {
    caller.userId == o.customerId || caller.isAdmin || ManagerCheck(caller, owner) == Done
  }

  // ---------------------------------------------------------------- entry points

  /** The order a successful checkout commits. */
  function Create(id: int, customerId: int, restaurantId: int, m: PaymentMethod, total: int, env: Env): Order {
    var baseline := Order(id, customerId, restaurantId, m, total, Created, Unpaid, NoRefund, 0, None, None, env.now,
                       [StatusEvent(None, Created, System, None)], [], [], [], 0);
    var pending := baseline.(status := PaymentPending,
                          events := baseline.events + [StatusEvent(Some(Created), PaymentPending, System, None)]);
    if m == CashOnDelivery then
      var paid := pending.(status := PaymentSuccess, paymentStatus := Paid,
                           events := pending.events
                           + [StatusEvent(Some(PaymentPending), PaymentSuccess, System, Some(COD_REASON))]);
      NotifyRestaurant(EmitStatus(paid), env.owner)
    else
      EmitStatus(pending)
  }

  function MarkPaid(o: Order, env: Env): Result<Order, OrderError> {
    if o.status != PaymentPending then Ok(o)
    else
      match Transition(o, PaymentSuccess, System, Some(PAYMENT_CONFIRMED), env.now)
      case Err(e) => Err(e)
      case Ok(moved) => Ok(NotifyRestaurant(EmitStatus(moved.(paymentStatus := Paid)), env.owner))
  }

  function CancelByCustomer(o: Order, caller: Caller, env: Env): Result<Order, OrderError> {
    if !MayView(o, caller, env.owner) then Err(CannotView)
    else if !CustomerCancelAllowed(o.status) then Err(CancelNotAllowed)
    else
      match Transition(o, Cancelled, Customer, None, env.now)
      case Err(e) => Err(e)
      case Ok(moved) =>
        var refund := RefundOnCancel(o.status, Customer);
        var done := EmitStatus(RestoreStock(RecordRefund(moved.(cancelledBy := Some(Customer)), refund)));
        Ok(if refund == FullRefund then RequestPaymentAction(done, Refund) else done)
  }

  function AcceptByRestaurant(o: Order, caller: Caller, env: Env): Result<Order, OrderError> {
    match ManagerCheck(caller, env.owner)
    case Refused(e) => Err(e)
    case Done =>
      match Transition(o, RestaurantAccepted, Restaurant, None, env.now)
      case Err(e) => Err(e)
      case Ok(moved) => Ok(EmitStatus(moved))
  }

  function RejectByRestaurant(o: Order, caller: Caller, reason: Option<string>, env: Env)
    : Result<Order, OrderError>
  {
    match ManagerCheck(caller, env.owner)
    case Refused(e) => Err(e)
    case Done =>
      match Transition(o, Rejected, Restaurant, reason, env.now)
      case Err(e) => Err(e)
      case Ok(moved) =>
        var noted := moved.(cancelledBy := Some(Restaurant), cancelReason := reason);
        Ok(RequestPaymentAction(EmitStatus(RestoreStock(RecordRefund(noted, FullRefund))), Refund))
  }

  function AdvanceStatus(o: Order, caller: Caller, to: Status, env: Env): Result<Order, OrderError> {
    match ManagerCheck(caller, env.owner)
    case Refused(e) => Err(e)
    case Done =>
      match Transition(o, to, Restaurant, None, env.now)
      case Err(e) => Err(e)
      case Ok(moved) =>
        if to == Cancelled then
          var refund := RefundOnCancel(o.status, Restaurant);
          var done := EmitStatus(RestoreStock(RecordRefund(moved.(cancelledBy := Some(Restaurant)), refund)));
          Ok(if refund == FullRefund then RequestPaymentAction(done, Refund) else done)
        else if to == Delivered then Ok(RequestPaymentAction(EmitStatus(moved), Settle))
        else Ok(EmitStatus(moved))
  }

  function DriverAdvance(o: Order, to: Status, env: Env): Result<Order, OrderError> {
    match Transition(o, to, Driver, None, env.now)
    case Err(e) => Err(e)
    case Ok(moved) =>
      Ok(if to == Delivered then RequestPaymentAction(EmitStatus(moved), Settle) else EmitStatus(moved))
  }

  /** Which transition a delivery report asks for, if any. */
  function DriverTarget(report: DeliveryReport): Option<Status> {
    match report
    case ReportPickedUp => Some(OutForDelivery)
    case ReportDelivered => Some(Delivered)
    case _ => None
  }

  predicate StaleUnpaid(o: Order, env: Env) {
    o.status == PaymentPending && o.updatedAt < env.now - env.paymentWindow
  }

  function ExpireUnpaid(o: Order, env: Env): Result<Order, OrderError> {
    if !StaleUnpaid(o, env) then Ok(o)
    else
      match Transition(o, Cancelled, System, Some(NOT_PAID_IN_TIME), env.now)
      case Err(e) => Err(e)
      case Ok(moved) =>
        var noted := moved.(cancelledBy := Some(System), cancelReason := Some(NOT_PAID_IN_TIME));
        Ok(EmitStatus(RestoreStock(RecordRefund(noted, NoRefund))))
  }

  predicate StaleUnaccepted(o: Order, env: Env) {
    o.status == PaymentSuccess && o.updatedAt < env.now - env.acceptTimeout
  }

  function ExpireUnaccepted(o: Order, env: Env): Result<Order, OrderError> {
    if !StaleUnaccepted(o, env) then Ok(o)
    else
      match Transition(o, Cancelled, System, Some(ACCEPTANCE_TIMEOUT), env.now)
      case Err(e) => Err(e)
      case Ok(moved) =>
        var noted := moved.(cancelledBy := Some(System));
        Ok(RequestPaymentAction(EmitStatus(RestoreStock(RecordRefund(noted, FullRefund))), Refund))
  }

  function Attempt(o: Order, a: Action, env: Env): Result<Order, OrderError> {
    match a
    case PaymentEvent(succeeded) => if succeeded then MarkPaid(o, env) else Ok(o)
    case CustomerCancel(caller) => CancelByCustomer(o, caller, env)
    case Accept(caller) => AcceptByRestaurant(o, caller, env)
    case Reject(caller, reason) => RejectByRestaurant(o, caller, reason, env)
    case Advance(caller, to) => AdvanceStatus(o, caller, to, env)
    case DeliveryEvent(report) =>
      var target := DriverTarget(report);
      if target.None? then Ok(o) else DriverAdvance(o, target.value, env)
    case SweepUnpaid => ExpireUnpaid(o, env)
    case SweepUnaccepted => ExpireUnaccepted(o, env)
  }

  /** A refused call leaves the row as it was: the transaction is rolled back. */
  function Step(o: Order, a: Action, env: Env): Order {
    match Attempt(o, a, env)
    case Ok(next) => next
    case Err(_) => o
  }

  /** The order after a serial history of calls, in any order and with any arguments. */
  function Run(o: Order, history: seq<(Action, Env)>): Order {
    if history == [] then o
    else
      var last := history[|history| - 1];
      Step(Run(o, history[..|history| - 1]), last.0, last.1)
  }
}
