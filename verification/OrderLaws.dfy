/** Which call makes which move: for every entry point of the orders service, when it takes effect, what it
    then does, and what it answers otherwise (services/orders/app/service.py). */
module OrderLaws {
  import opened Prelude
  import opened StateMachine
  import opened Orders
  import opened OrderProofs

  /** The table of legal transitions: one rank up along the main line, cancelled from anywhere before the
      drop-off, rejected from PAYMENT_SUCCESS. */
  predicate Legal(from: Status, to: Status) {
    || (OnMainLine(from) && OnMainLine(to) && Rank(to) == Rank(from) + 1)
    || (to == Cancelled && OnMainLine(from) && Rank(from) < Rank(Delivered))
    || (to == Rejected && from == PaymentSuccess)
  }

  lemma AllowedIff(from: Status, to: Status)
    ensures to in Allowed(from) <==> Legal(from, to)
  {
  }

  predicate Manages(c: Caller, owner: Option<int>) {
    owner.Some? && (owner.value == c.userId || c.isAdmin)
  }

  predicate Sees(o: Order, c: Caller, owner: Option<int>) {
    c.userId == o.customerId || c.isAdmin || Manages(c, owner)
  }

  /** One step of the log, at the call's time, told on order-events; who and what the order is stays. */
  predicate Goes(o: Order, n: Order, to: Status, actor: Actor, reason: Option<string>, now: int) {
    && n.status == to && n.updatedAt == now
    && n.events == o.events + [StatusEvent(Some(o.status), to, actor, reason)]
    && n.notes == o.notes + [OrderNote(o.id, to, o.customerId, o.restaurantId, o.total, o.paymentMethod, n.paymentStatus)]
    && (n.id, n.customerId, n.restaurantId, n.paymentMethod, n.total)
       == (o.id, o.customerId, o.restaurantId, o.paymentMethod, o.total)
  }

  /** No refund, release or cancellation is recorded. */
  predicate StaysOn(o: Order, n: Order) {
    && n.refundStatus == o.refundStatus && n.refundAmount == o.refundAmount && n.stockReleases == o.stockReleases
    && n.cancelledBy == o.cancelledBy && n.cancelReason == o.cancelReason
  }

  /** Neither is anything about the payment, or the owner told. */
  predicate Plain(o: Order, n: Order) {
    StaysOn(o, n) && n.paymentStatus == o.paymentStatus && n.commands == o.commands && n.alerts == o.alerts
  }

  /** Taken off the line by `actor`: stock back once, and the money, asked for once, in full or not at all. */
  predicate TakenOff(o: Order, n: Order, actor: Actor, why: Option<string>, inFull: bool) {
    && n.cancelledBy == Some(actor) && n.cancelReason == why
    && n.stockReleases == o.stockReleases + 1 && n.alerts == o.alerts
    && n.refundStatus == (if inFull then FullRefund else NoRefund)
    && n.refundAmount == (if inFull then o.total else 0)
    && n.paymentStatus == (if inFull then Refunded else o.paymentStatus)
    && n.commands == o.commands + (if inFull then [PaymentCommand(o.id, Refund, o.total)] else [])
  }

  /** Paid for, and not yet in the kitchen. */
  predicate PaidNotStarted(s: Status) {
    s == PaymentSuccess || s == RestaurantAccepted
  }

  lemma CheckoutLaw(id: int, customer: int, restaurant: int, m: PaymentMethod, total: int, env: Env)
    ensures var o := Create(id, customer, restaurant, m, total, env);
            && (o.id, o.customerId, o.restaurantId, o.paymentMethod, o.total) == (id, customer, restaurant, m, total)
            && o.status == (if m == CashOnDelivery then PaymentSuccess else PaymentPending)
            && o.paymentStatus == (if m == CashOnDelivery then Paid else Unpaid)
            && o.refundStatus == NoRefund && o.refundAmount == 0 && o.cancelledBy == None && o.stockReleases == 0
            && o.commands == [] && o.notes == [NoteOf(o)] && o.updatedAt == env.now
            && o.alerts == (if m == CashOnDelivery && env.owner.Some? then [env.owner.value] else [])
            && (forall i :: 0 <= i < |o.events| ==> o.events[i].actor == System)
  {
  }

  lemma PaymentEventLaw(o: Order, succeeded: bool, env: Env)
    ensures var n := Step(o, PaymentEvent(succeeded), env);
            if succeeded && o.status == PaymentPending then
              && Goes(o, n, PaymentSuccess, System, Some(PAYMENT_CONFIRMED), env.now) && StaysOn(o, n)
              && n.paymentStatus == Paid && n.commands == o.commands
              && n.alerts == o.alerts + if env.owner.Some? then [env.owner.value] else []
            else n == o
    ensures Attempt(o, PaymentEvent(succeeded), env).Ok?
  {
  }

  lemma CancelLaw(o: Order, c: Caller, env: Env)
    ensures var n := Step(o, CustomerCancel(c), env);
            if Sees(o, c, env.owner) && OnMainLine(o.status) && Rank(o.status) < Rank(Preparing) then
              && Goes(o, n, Cancelled, Customer, None, env.now)
              && TakenOff(o, n, Customer, o.cancelReason, PaidNotStarted(o.status))
            else n == o
    ensures match Attempt(o, CustomerCancel(c), env)
            case Ok(_) => Sees(o, c, env.owner) && OnMainLine(o.status) && Rank(o.status) < Rank(Preparing)
            case Err(e) => e == if Sees(o, c, env.owner) then CancelNotAllowed else CannotView
  {
  }

  /** Which of the restaurant's calls are refused, and why: an unknown restaurant, then a stranger, then the
      state machine. */
  function ManagerError(c: Caller, owner: Option<int>): OrderError {
    if owner.None? then RestaurantUnknown else if !Manages(c, owner) then NotManager else IllegalTransition
  }

  lemma AcceptLaw(o: Order, c: Caller, env: Env)
    ensures var n := Step(o, Accept(c), env);
            if Manages(c, env.owner) && o.status == PaymentSuccess then
              Goes(o, n, RestaurantAccepted, Restaurant, None, env.now) && Plain(o, n)
            else n == o
    ensures match Attempt(o, Accept(c), env)
            case Ok(_) => Manages(c, env.owner) && o.status == PaymentSuccess
            case Err(e) => e == ManagerError(c, env.owner)
  {
    AllowedIff(o.status, RestaurantAccepted);
  }

  lemma RejectLaw(o: Order, c: Caller, reason: Option<string>, env: Env)
    ensures var n := Step(o, Reject(c, reason), env);
            if Manages(c, env.owner) && o.status == PaymentSuccess then
              Goes(o, n, Rejected, Restaurant, reason, env.now) && TakenOff(o, n, Restaurant, reason, true)
            else n == o
    ensures match Attempt(o, Reject(c, reason), env)
            case Ok(_) => Manages(c, env.owner) && o.status == PaymentSuccess
            case Err(e) => e == ManagerError(c, env.owner)
  {
    AllowedIff(o.status, Rejected);
  }

  lemma AdvanceLaw(o: Order, c: Caller, to: Status, env: Env)
    ensures var n := Step(o, Advance(c, to), env);
            if Manages(c, env.owner) && Legal(o.status, to) then
              && Goes(o, n, to, Restaurant, None, env.now)
              && (if to == Cancelled then TakenOff(o, n, Restaurant, o.cancelReason, PaidNotStarted(o.status))
                  else if to == Delivered then Plain(o, n.(commands := o.commands)) && SettleAsked(o, n)
                  else Plain(o, n))
            else n == o
    ensures match Attempt(o, Advance(c, to), env)
            case Ok(_) => Manages(c, env.owner) && Legal(o.status, to)
            case Err(e) => e == ManagerError(c, env.owner)
  {
    AllowedIff(o.status, to);
  }

  predicate SettleAsked(o: Order, n: Order) {
    n.commands == o.commands + [PaymentCommand(o.id, Settle, o.total)]
  }

  lemma DeliveryLaw(o: Order, report: DeliveryReport, env: Env)
    ensures var n := Step(o, DeliveryEvent(report), env);
            if report == ReportPickedUp && o.status == ReadyForPickup then
              Goes(o, n, OutForDelivery, Driver, None, env.now) && Plain(o, n)
            else if report == ReportDelivered && o.status == OutForDelivery then
              Goes(o, n, Delivered, Driver, None, env.now) && Plain(o, n.(commands := o.commands)) && SettleAsked(o, n)
            else n == o
    ensures Attempt(o, DeliveryEvent(report), env).Err? <==>
            (report == ReportPickedUp && o.status != ReadyForPickup) || (report == ReportDelivered && o.status != OutForDelivery)
  {
    AllowedIff(o.status, OutForDelivery);
    AllowedIff(o.status, Delivered);
  }

  /** The payment window must have passed: an order exactly as old as the window is left alone. */
  lemma SweepUnpaidLaw(o: Order, env: Env)
    ensures var n := Step(o, SweepUnpaid, env);
            if o.status == PaymentPending && env.now - o.updatedAt > env.paymentWindow then
              && Goes(o, n, Cancelled, System, Some(NOT_PAID_IN_TIME), env.now)
              && TakenOff(o, n, System, Some(NOT_PAID_IN_TIME), false)
            else n == o
    ensures StaleUnpaid(o, env) <==> o.status == PaymentPending && env.now - o.updatedAt > env.paymentWindow
  {
  }

  lemma SweepUnacceptedLaw(o: Order, env: Env)
    ensures var n := Step(o, SweepUnaccepted, env);
            if o.status == PaymentSuccess && env.now - o.updatedAt > env.acceptTimeout then
              && Goes(o, n, Cancelled, System, Some(ACCEPTANCE_TIMEOUT), env.now)
              && TakenOff(o, n, System, o.cancelReason, true)
            else n == o
    ensures StaleUnaccepted(o, env) <==> o.status == PaymentSuccess && env.now - o.updatedAt > env.acceptTimeout
  {
  }

  // ---------------------------------------------------------------- who did what, over whole runs

  /** Who may have made an entry of the log. */
  predicate Entitled(e: StatusEvent) {
    match e.to
    case Created => e.actor == System
    case PaymentPending => e.actor == System || e.actor == Restaurant
    case PaymentSuccess => e.actor == System || e.actor == Restaurant
    case OutForDelivery => e.actor == Driver || e.actor == Restaurant
    case Delivered => e.actor == Driver || e.actor == Restaurant
    case Cancelled =>
      || e.actor == Restaurant
      || (e.actor == Customer && e.from.Some? && Rank(e.from.value) < Rank(Preparing))
      || (e.actor == System && (e.from == Some(PaymentPending) || e.from == Some(PaymentSuccess)))
    case _ => e.actor == Restaurant
  }

  predicate AllEntitled(log: seq<StatusEvent>) {
    forall i :: 0 <= i < |log| ==> Entitled(log[i])
  }

  /** A step writes nothing, or one entry its author was entitled to. */
  lemma StepEntitled(o: Order, a: Action, env: Env)
    ensures var n := Step(o, a, env);
            n == o || exists e :: n.events == o.events + [e] && e.from == Some(o.status) && Entitled(e)
  {
    var n := Step(o, a, env);
    if n != o {
      ghost var e: StatusEvent;
      match a
      case PaymentEvent(s) =>
        PaymentEventLaw(o, s, env);
        e := StatusEvent(Some(o.status), n.status, System, Some(PAYMENT_CONFIRMED));
      case CustomerCancel(c) =>
        CancelLaw(o, c, env);
        e := StatusEvent(Some(o.status), n.status, Customer, None);
      case Accept(c) =>
        AcceptLaw(o, c, env);
        e := StatusEvent(Some(o.status), n.status, Restaurant, None);
      case Reject(c, reason) =>
        RejectLaw(o, c, reason, env);
        e := StatusEvent(Some(o.status), n.status, Restaurant, reason);
      case Advance(c, to) =>
        AdvanceLaw(o, c, to, env);
        e := StatusEvent(Some(o.status), n.status, Restaurant, None);
      case DeliveryEvent(report) =>
        DeliveryLaw(o, report, env);
        e := StatusEvent(Some(o.status), n.status, Driver, None);
      case SweepUnpaid =>
        SweepUnpaidLaw(o, env);
        e := StatusEvent(Some(o.status), n.status, System, Some(NOT_PAID_IN_TIME));
      case SweepUnaccepted =>
        SweepUnacceptedLaw(o, env);
        e := StatusEvent(Some(o.status), n.status, System, Some(ACCEPTANCE_TIMEOUT));
      assert n.events == o.events + [e] && e.from == Some(o.status) && Entitled(e);
    }
  }

  lemma {:induction false} RunEntitled(o: Order, history: seq<(Action, Env)>)
    requires AllEntitled(o.events)
    ensures AllEntitled(Run(o, history).events)
  {
    if history != [] {
      var last := history[|history| - 1];
      RunEntitled(o, history[..|history| - 1]);
      StepEntitled(Run(o, history[..|history| - 1]), last.0, last.1);
    }
  }

  /** In every reachable order every entry of the audit log is by somebody entitled to it: only the kitchen
      accepts, prepares and rejects, only a driver or the kitchen moves an order out of the door, a
      customer cancels only before the kitchen starts, the system only what was left lying. */
  lemma {:induction false} LogEntitled(o: Order)
    requires Reachable(o)
    ensures AllEntitled(o.events)
  {
    var id, customer, restaurant, m, total, env, history :|
      o == Run(Create(id, customer, restaurant, m, total, env), history);
    CheckoutLaw(id, customer, restaurant, m, total, env);
    RunEntitled(Create(id, customer, restaurant, m, total, env), history);
  }

  // ---------------------------------------------------------------- the refund table

  /** Nothing back before payment, everything back after it, except from a restaurant or driver once the
      kitchen has started. */
  lemma RefundTable(current: Status, actor: Actor)
    ensures RefundOnCancel(current, actor) == NoRefund <==>
            || current == Created || current == PaymentPending
            || ((actor == Restaurant || actor == Driver) && current != PaymentSuccess && current != RestaurantAccepted)
    ensures RefundOnCancel(current, actor) != PartialRefund
    ensures CustomerCancelAllowed(current) <==> OnMainLine(current) && Rank(current) < Rank(Preparing)
  {
  }
}
