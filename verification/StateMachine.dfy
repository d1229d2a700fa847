/** The central order state machine: legal transitions and refund rules
    (services/orders/app/state_machine.py). */
module StateMachine {

  datatype Status =
    | Created
    | PaymentPending
    | PaymentSuccess
    | RestaurantAccepted
    | Preparing
    | ReadyForPickup
    | OutForDelivery
    | Delivered
    | Completed
    | Cancelled
    | Rejected

  datatype Actor = Customer | Restaurant | Driver | System

  datatype RefundStatus = NoRefund | FullRefund | PartialRefund

  function Allowed(s: Status): set<Status> {
    match s
    case Created => {PaymentPending, Cancelled}
    case PaymentPending => {PaymentSuccess, Cancelled}
    case PaymentSuccess => {RestaurantAccepted, Cancelled, Rejected}
    case RestaurantAccepted => {Preparing, Cancelled}
    case Preparing => {ReadyForPickup, Cancelled}
    case ReadyForPickup => {OutForDelivery, Cancelled}
    case OutForDelivery => {Delivered, Cancelled}
    case Delivered => {Completed}
    case Completed => {}
    case Cancelled => {}
    case Rejected => {}
  }

  const PRE_PREP: set<Status> := {Created, PaymentPending, PaymentSuccess, RestaurantAccepted}

  const UNPAID: set<Status> := {Created, PaymentPending}

  predicate CustomerCancelAllowed(current: Status) {
    current in PRE_PREP
  }

  function RefundOnCancel(current: Status, actor: Actor): RefundStatus {
    if current in UNPAID then NoRefund
    else if actor == System || actor == Customer then FullRefund
    else if current in PRE_PREP then FullRefund
    else NoRefund
  }

  /** Statuses on the way from CREATED to COMPLETED; the other two are dead ends off it. */
  predicate OnMainLine(s: Status) {
    s != Cancelled && s != Rejected
  }

  /** The position of a status on the main line. The two dead ends are placed behind everything
      they can be reached from. */
  function Rank(s: Status): nat {
    match s
    case Created => 0
    case PaymentPending => 1
    case PaymentSuccess => 2
    case RestaurantAccepted => 3
    case Preparing => 4
    case ReadyForPickup => 5
    case OutForDelivery => 6
    case Delivered => 7
    case Completed => 8
    case Cancelled => 8
    case Rejected => 8
  }
}
