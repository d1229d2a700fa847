/** The order row as the orders service mutates it (services/orders/app/service.py): every method
    overwrites fields and appends to the session, and is proved to have the effect of the
    corresponding function on values. */
module OrderService {
  import opened Prelude
  import opened StateMachine
  import opened Orders

  /** A call committed the row the specification gives, or was refused and left it as it was. */
  predicate Returned(r: Outcome<OrderError>, before: Order, after: Order, expected: Result<Order, OrderError>) {
    match expected
    case Ok(n) => r == Done && after == n
    case Err(e) => r == Refused(e) && after == before
  }

  class OrderRow {
    const id: int
    const customerId: int
    const restaurantId: int
    const paymentMethod: PaymentMethod
    const total: int
    var status: Status
    var paymentStatus: PaymentStatus
    var refundStatus: RefundStatus
    var refundAmount: int
    var cancelledBy: Option<Actor>
    var cancelReason: Option<string>
    var updatedAt: int
    var events: seq<StatusEvent>
    var notes: seq<OrderNote>
    var commands: seq<PaymentCommand>
    var alerts: seq<int>
    var stockReleases: nat

    /** The row and its session appends as one value. */
    function State(): Order
      reads this
    {
      Order(id, customerId, restaurantId, paymentMethod, total, status, paymentStatus, refundStatus, refundAmount,
            cancelledBy, cancelReason, updatedAt, events, notes, commands, alerts, stockReleases)
    }

    /** Placing an order: the baseline event, then as far as the payment method allows. */
    constructor FromCheckout(id: int, customerId: int, restaurantId: int, m: PaymentMethod, total: int, env: Env)
      ensures State() == Create(id, customerId, restaurantId, m, total, env)
    {
      this.id, this.customerId, this.restaurantId := id, customerId, restaurantId;
      this.paymentMethod, this.total := m, total;
      status, paymentStatus, refundStatus, refundAmount := Created, Unpaid, NoRefund, 0;
      cancelledBy, cancelReason, updatedAt := None, None, env.now;
      events := [StatusEvent(None, Created, System, None)];
      notes, commands, alerts, stockReleases := [], [], [], 0;
      new;
      var moved := ApplyTransition(PaymentPending, System, None, env.now);
      if paymentMethod == CashOnDelivery {
        moved := ApplyTransition(PaymentSuccess, System, Some(COD_REASON), env.now);
        paymentStatus := Paid;
      }
      Emit();
      if status == PaymentSuccess {
        NotifyOwner(env.owner);
      }
    }

    /** Validates the transition against the row, appends the audit event, sets the status. */
    method ApplyTransition(to: Status, actor: Actor, reason: Option<string>, now: int)
      returns (r: Outcome<OrderError>)
      modifies this
      ensures Returned(r, old(State()), State(), Transition(old(State()), to, actor, reason, now))
    {
      if to !in Allowed(status) {
        return Refused(IllegalTransition);
      }
      events := events + [StatusEvent(Some(status), to, actor, reason)];
      status := to;
      updatedAt := now;
      return Done;
    }

    method Emit()
      modifies this`notes
      ensures State() == EmitStatus(old(State()))
    {
      notes := notes + [OrderNote(id, status, customerId, restaurantId, total, paymentMethod, paymentStatus)];
    }

    method NotifyOwner(owner: Option<int>)
      modifies this`alerts
      ensures State() == NotifyRestaurant(old(State()), owner)
    {
      if owner.Some? {
        alerts := alerts + [owner.value];
      }
    }

    method WriteRefund(refund: RefundStatus)
      modifies this
      ensures State() == RecordRefund(old(State()), refund)
    {
      refundStatus := refund;
      if refund == FullRefund {
        refundAmount := total;
        paymentStatus := Refunded;
      } else {
        refundAmount := 0;
      }
    }

    method AskPayments(action: PaymentAction)
      modifies this`commands
      ensures State() == RequestPaymentAction(old(State()), action)
    {
      commands := commands + [PaymentCommand(id, action, total)];
    }

    method ReleaseStock()
      modifies this`stockReleases
      ensures State() == RestoreStock(old(State()))
    {
      stockReleases := stockReleases + 1;
    }

    method OnPaid(env: Env) returns (r: Outcome<OrderError>)
      modifies this
      ensures Returned(r, old(State()), State(), MarkPaid(old(State()), env))
    {
      if status != PaymentPending {
        return Done;
      }
      r := ApplyTransition(PaymentSuccess, System, Some(PAYMENT_CONFIRMED), env.now);
      paymentStatus := Paid;
      Emit();
      NotifyOwner(env.owner);
    }

    method Cancel(caller: Caller, env: Env) returns (r: Outcome<OrderError>)
      modifies this
      ensures Returned(r, old(State()), State(), CancelByCustomer(old(State()), caller, env))
    {
      if !MayView(State(), caller, env.owner) {
        return Refused(CannotView);
      }
      var current := status;
      if !CustomerCancelAllowed(current) {
        return Refused(CancelNotAllowed);
      }
      r := ApplyTransition(Cancelled, Customer, None, env.now);
      cancelledBy := Some(Customer);
      var refund := RefundOnCancel(current, Customer);
      WriteRefund(refund);
      ReleaseStock();
      Emit();
      if refund == FullRefund {
        AskPayments(Refund);
      }
    }

    method KitchenAccept(caller: Caller, env: Env) returns (r: Outcome<OrderError>)
      modifies this
      ensures Returned(r, old(State()), State(), AcceptByRestaurant(old(State()), caller, env))
    {
      r := ManagerCheck(caller, env.owner);
      if r.Refused? {
        return;
      }
      r := ApplyTransition(RestaurantAccepted, Restaurant, None, env.now);
      if r.Refused? {
        return;
      }
      Emit();
    }

    method KitchenReject(caller: Caller, reason: Option<string>, env: Env) returns (r: Outcome<OrderError>)
      modifies this
      ensures Returned(r, old(State()), State(), RejectByRestaurant(old(State()), caller, reason, env))
    {
      r := ManagerCheck(caller, env.owner);
      if r.Refused? {
        return;
      }
      r := ApplyTransition(Rejected, Restaurant, reason, env.now);
      if r.Refused? {
        return;
      }
      cancelledBy := Some(Restaurant);
      cancelReason := reason;
      WriteRefund(FullRefund);
      ReleaseStock();
      Emit();
      AskPayments(Refund);
    }

    method KitchenAdvance(caller: Caller, to: Status, env: Env) returns (r: Outcome<OrderError>)
      modifies this
      ensures Returned(r, old(State()), State(), AdvanceStatus(old(State()), caller, to, env))
    {
      r := ManagerCheck(caller, env.owner);
      if r.Refused? {
        return;
      }
      var current := status;
      r := ApplyTransition(to, Restaurant, None, env.now);
      if r.Refused? {
        return;
      }
      var refund := NoRefund;
      if to == Cancelled {
        cancelledBy := Some(Restaurant);
        refund := RefundOnCancel(current, Restaurant);
        WriteRefund(refund);
        ReleaseStock();
      }
      Emit();
      if to == Delivered {
        AskPayments(Settle);
      } else if refund == FullRefund {
        AskPayments(Refund);
      }
    }

    method DriverMove(to: Status, env: Env) returns (r: Outcome<OrderError>)
      modifies this
      ensures Returned(r, old(State()), State(), DriverAdvance(old(State()), to, env))
    {
      r := ApplyTransition(to, Driver, None, env.now);
      if r.Refused? {
        return;
      }
      Emit();
      if to == Delivered {
        AskPayments(Settle);
      }
    }

    /** The consumer of payment-events. */
    method OnPaymentEvent(succeeded: bool, env: Env)
      modifies this
      ensures State() == Step(old(State()), PaymentEvent(succeeded), env)
    {
      if succeeded {
        var _ := OnPaid(env);
      }
    }

    /** The consumer of delivery-events: a refused transition is logged and dropped. */
    method OnDeliveryEvent(report: DeliveryReport, env: Env)
      modifies this
      ensures State() == Step(old(State()), DeliveryEvent(report), env)
    {
      var target := DriverTarget(report);
      if target.Some? {
        var _ := DriverMove(target.value, env);
      }
    }

    /** The unpaid sweep at this row. */
    method TimeOutUnpaid(env: Env)
      modifies this
      ensures State() == Step(old(State()), SweepUnpaid, env)
    {
      if status != PaymentPending || updatedAt >= env.now - env.paymentWindow {
        return;
      }
      var _ := ApplyTransition(Cancelled, System, Some(NOT_PAID_IN_TIME), env.now);
      cancelledBy := Some(System);
      cancelReason := Some(NOT_PAID_IN_TIME);
      WriteRefund(NoRefund);
      ReleaseStock();
      Emit();
    }

    /** The acceptance sweep at this row. */
    method TimeOutUnaccepted(env: Env)
      modifies this
      ensures State() == Step(old(State()), SweepUnaccepted, env)
    {
      if status != PaymentSuccess || updatedAt >= env.now - env.acceptTimeout {
        return;
      }
      var _ := ApplyTransition(Cancelled, System, Some(ACCEPTANCE_TIMEOUT), env.now);
      cancelledBy := Some(System);
      WriteRefund(FullRefund);
      ReleaseStock();
      Emit();
      AskPayments(Refund);
    }
  }

  /** How many of these orders a sweep finds stale. */
  function CountUnpaid(orders: seq<Order>, env: Env): nat {
    if orders == [] then 0
    else CountUnpaid(orders[..|orders| - 1], env) + if StaleUnpaid(orders[|orders| - 1], env) then 1 else 0
  }

  function CountUnaccepted(orders: seq<Order>, env: Env): nat {
    if orders == [] then 0
    else CountUnaccepted(orders[..|orders| - 1], env) + if StaleUnaccepted(orders[|orders| - 1], env) then 1 else 0
  }

  /** The table as values. */
  ghost function States(rows: seq<OrderRow>): (r: seq<Order>)
    reads rows
    ensures |r| == |rows| && forall i :: 0 <= i < |rows| ==> r[i] == rows[i].State()
  {
    seq(|rows|, i requires 0 <= i < |rows| reads rows => rows[i].State())
  }

  /** Every order after the same call. */
  function After(orders: seq<Order>, a: Action, env: Env): (r: seq<Order>)
    ensures |r| == |orders|
  {
    seq(|orders|, i requires 0 <= i < |orders| => Step(orders[i], a, env))
  }

  /** The sweeps' queries, as far as their size is concerned. */
  method StaleUnpaidRows(rows: seq<OrderRow>, env: Env) returns (n: nat)
    ensures n == CountUnpaid(States(rows), env)
  {
    n := 0;
    ghost var states := States(rows);
    for k := 0 to |rows|
      invariant n == CountUnpaid(states[..k], env)
    {
      assert states[..k + 1][..k] == states[..k];
      if StaleUnpaid(rows[k].State(), env) {
        n := n + 1;
      }
    }
    assert states[..|rows|] == states;
  }

  method StaleUnacceptedRows(rows: seq<OrderRow>, env: Env) returns (n: nat)
    ensures n == CountUnaccepted(States(rows), env)
  {
    n := 0;
    ghost var states := States(rows);
    for k := 0 to |rows|
      invariant n == CountUnaccepted(states[..k], env)
    {
      assert states[..k + 1][..k] == states[..k];
      if StaleUnaccepted(rows[k].State(), env) {
        n := n + 1;
      }
    }
    assert states[..|rows|] == states;
  }

  /** One row of the sweep; no other row changes. */
  method SweepRowUnpaid(rows: seq<OrderRow>, k: nat, env: Env, ghost before: Order, ghost swept: Order)
    requires k < |rows| && forall i, j :: 0 <= i < j < |rows| ==> rows[i] != rows[j]
    requires rows[k].State() == before && swept == Step(before, SweepUnpaid, env)
    modifies rows[k]
    ensures rows[k].State() == swept
    ensures forall i :: 0 <= i < |rows| && i != k ==> rows[i].State() == old(rows[i].State())
  {
    rows[k].TimeOutUnpaid(env);
  }

  /** One row of the sweep; no other row changes. */
  method SweepRowUnaccepted(rows: seq<OrderRow>, k: nat, env: Env, ghost before: Order, ghost swept: Order)
    requires k < |rows| && forall i, j :: 0 <= i < j < |rows| ==> rows[i] != rows[j]
    requires rows[k].State() == before && swept == Step(before, SweepUnaccepted, env)
    modifies rows[k]
    ensures rows[k].State() == swept
    ensures forall i :: 0 <= i < |rows| && i != k ==> rows[i].State() == old(rows[i].State())
  {
    rows[k].TimeOutUnaccepted(env);
  }

  /** The sweep over unpaid orders: of all orders, exactly the stale ones are expired, each by the
      single-order step and whatever the sweep has done to others before, and they are counted. */
  method ExpireUnpaidOrders(rows: seq<OrderRow>, env: Env) returns (expired: nat)
    requires forall i, j :: 0 <= i < j < |rows| ==> rows[i] != rows[j]
    modifies rows
    ensures States(rows) == After(old(States(rows)), SweepUnpaid, env)
    ensures expired == CountUnpaid(old(States(rows)), env)
  {
    ghost var before := States(rows);
    ghost var swept := After(before, SweepUnpaid, env);
    expired := StaleUnpaidRows(rows, env);
    for k := 0 to |rows|
      invariant forall i :: 0 <= i < k ==> rows[i].State() == swept[i]
      invariant forall i :: k <= i < |rows| ==> rows[i].State() == before[i]
    {
      SweepRowUnpaid(rows, k, env, before[k], swept[k]);
    }
  }

  /** Likewise for orders the kitchen never accepted. */
  method ExpirePendingAcceptances(rows: seq<OrderRow>, env: Env) returns (expired: nat)
    requires forall i, j :: 0 <= i < j < |rows| ==> rows[i] != rows[j]
    modifies rows
    ensures States(rows) == After(old(States(rows)), SweepUnaccepted, env)
    ensures expired == CountUnaccepted(old(States(rows)), env)
  {
    ghost var before := States(rows);
    ghost var swept := After(before, SweepUnaccepted, env);
    expired := StaleUnacceptedRows(rows, env);
    for k := 0 to |rows|
      invariant forall i :: 0 <= i < k ==> rows[i].State() == swept[i]
      invariant forall i :: k <= i < |rows| ==> rows[i].State() == before[i]
    {
      SweepRowUnaccepted(rows, k, env, before[k], swept[k]);
    }
  }
}
