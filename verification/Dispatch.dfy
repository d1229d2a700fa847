/** Deliveries and the drivers they are offered to (services/delivery/app/service.py). */
module Dispatch {
  import opened Prelude

  datatype DeliveryStatus = Unassigned | Assigned | Accepted | PickedUp | Delivered

  /** A delivery-events message. */
  datatype Report = Report(status: DeliveryStatus, driver: Option<int>)

  /** One order's delivery row, with the messages about it and the drivers it was offered to. */
  datatype Delivery = Delivery(driver: Option<int>, status: DeliveryStatus, reports: seq<Report>, offers: seq<int>)

  datatype Driver = Driver(id: int, active: bool)

  /** Deliveries by order id; the roster in the order the database lists it. */
  datatype Fleet = Fleet(deliveries: map<int, Delivery>, roster: seq<Driver>)

  datatype DispatchError = NotFound | Forbidden | Conflict

  /** Who asks for a reassignment: an admin, or an account and whether this service knows the order's
      restaurant and its owner. */
  datatype Requester = Requester(userId: int, isAdmin: bool, restaurantKnown: bool, owner: Option<int>)

  const ACTIVE: set<DeliveryStatus> := {Assigned, Accepted, PickedUp}

  // ---------------------------------------------------------------- driver selection

  function Busy(deliveries: map<int, Delivery>): set<int> {
    set o | o in deliveries && deliveries[o].status in ACTIVE && deliveries[o].driver.Some? :: deliveries[o].driver.value
  }

  function Find(roster: seq<Driver>, id: int): Option<Driver> {
    if roster == [] then None
    else if roster[0].id == id then Some(roster[0])
    else Find(roster[1..], id)
  }

  function ListAvailable(roster: seq<Driver>, busy: set<int>): seq<Driver> {
    if roster == [] then []
    else (if roster[0].active && roster[0].id !in busy then [roster[0]] else []) + ListAvailable(roster[1..], busy)
  }

  /** The first of the nearby drivers, nearest first, that can take work. */
  function NearestAvailable(nearby: seq<int>, roster: seq<Driver>, busy: set<int>, exclude: Option<int>): Option<int> {
    if nearby == [] then None
    else
      var found := Find(roster, nearby[0]);
      if nearby[0] !in busy && Some(nearby[0]) != exclude && found.Some? && found.value.active then Some(nearby[0])
      else NearestAvailable(nearby[1..], roster, busy, exclude)
  }

  function FirstNot(drivers: seq<Driver>, exclude: Option<int>): Option<int> {
    if drivers == [] then None
    else if Some(drivers[0].id) != exclude then Some(drivers[0].id)
    else FirstNot(drivers[1..], exclude)
  }

  /** `nearby` is what the location index answers, nothing when the restaurant's position or the index
      is not there. */
  function PickDriver(f: Fleet, nearby: seq<int>, exclude: Option<int>): Option<int> {
    var busy := Busy(f.deliveries);
    var nearest := NearestAvailable(nearby, f.roster, busy, exclude);
    if nearest.Some? then nearest else FirstNot(ListAvailable(f.roster, busy), exclude)
  }

  // ---------------------------------------------------------------- one delivery row

  function Announce(d: Delivery): Delivery {
    d.(reports := d.reports + [Report(d.status, d.driver)])
  }

  /** Offer an unassigned delivery to a driver, if there is one. */
  function Offer(d: Delivery, driver: Option<int>): Delivery {
    match driver
    case None => d
    case Some(id) => d.(driver := Some(id), status := Assigned, offers := d.offers + [id])
  }

  datatype DriverCall =
    | AcceptCall(driver: int)
    | RejectCall(driver: int, next: Option<int>)
    | PickupCall(driver: int)
    | DeliverCall(driver: int)

  /** What a driver's call makes of the row; `next` is the driver picked when an offer is declined. */
  function OnRow(d: Delivery, call: DriverCall): Result<Delivery, DispatchError> {
    if d.driver != Some(call.driver) then Err(Forbidden)
    else
      match call
      case AcceptCall(_) => if d.status != Assigned then Err(Conflict) else Ok(Announce(d.(status := Accepted)))
      case RejectCall(_, next) =>
        if d.status !in {Assigned, Accepted} then Err(Conflict)
        else Ok(Announce(Offer(d.(driver := None, status := Unassigned), next)))
      case PickupCall(_) =>
        if d.status !in {Assigned, Accepted} then Err(Conflict) else Ok(Announce(d.(status := PickedUp)))
      case DeliverCall(_) => if d.status != PickedUp then Err(Conflict) else Ok(Announce(d.(status := Delivered)))
  }

  // ---------------------------------------------------------------- the service's calls

  datatype Action =
    | Assign(order: int, nearby: seq<int>)
    | AcceptAssignment(driver: int, order: int)
    | RejectAssignment(driver: int, order: int, nearby: seq<int>)
    | Pickup(driver: int, order: int)
    | Deliver(driver: int, order: int)
    | Reassign(requester: Requester, order: int, newDriver: int)
    | RosterEvent(driver: int, active: Option<bool>)

  function NewDelivery(driver: Option<int>): Delivery {
    Announce(Offer(Delivery(None, Unassigned, [], []), driver))
  }

  function AssignForOrder(f: Fleet, order: int, nearby: seq<int>): Fleet {
    if order in f.deliveries then f
    else f.(deliveries := f.deliveries[order := NewDelivery(PickDriver(f, nearby, None))])
  }

  function DriverActs(f: Fleet, order: int, call: DriverCall): Result<Fleet, DispatchError> {
    if order !in f.deliveries then Err(NotFound)
    else
      match OnRow(f.deliveries[order], call)
      case Err(e) => Err(e)
      case Ok(d) => Ok(f.(deliveries := f.deliveries[order := d]))
  }

  /** Declining frees the row before the next driver is picked. */
  function Declined(f: Fleet, order: int): Fleet
    requires order in f.deliveries
  {
    f.(deliveries := f.deliveries[order := f.deliveries[order].(driver := None, status := Unassigned)])
  }

  function DriverRejects(f: Fleet, driver: int, order: int, nearby: seq<int>): Result<Fleet, DispatchError> {
    if order !in f.deliveries then Err(NotFound)
    else DriverActs(f, order, RejectCall(driver, PickDriver(Declined(f, order), nearby, Some(driver))))
  }

  function OwnedOrder(r: Requester): Outcome<DispatchError> {
    if r.isAdmin then Done
    else if !r.restaurantKnown then Refused(NotFound)
    else if r.owner != Some(r.userId) then Refused(Forbidden)
    else Done
  }

  /** The restaurant's override: neither the delivery's status nor the driver's work is looked at. */
  function ReassignDelivery(f: Fleet, r: Requester, order: int, newDriver: int): Result<Fleet, DispatchError> {
    if order !in f.deliveries then Err(NotFound)
    else
      match OwnedOrder(r)
      case Refused(e) => Err(e)
      case Done =>
        var found := Find(f.roster, newDriver);
        if found.None? || !found.value.active then Err(NotFound)
        else Ok(f.(deliveries := f.deliveries[order := Announce(Offer(f.deliveries[order], Some(newDriver)))]))
  }

  /** A user event about a driver: known or not, activity only if the event carries it. */
  function Enrolled(roster: seq<Driver>, id: int, active: Option<bool>): seq<Driver> {
    if roster == [] then [Driver(id, active != Some(false))]
    else if roster[0].id == id then
      [if active.Some? then Driver(id, active.value) else roster[0]] + roster[1..]
    else [roster[0]] + Enrolled(roster[1..], id, active)
  }

  function Attempt(f: Fleet, a: Action): Result<Fleet, DispatchError> {
    match a
    case Assign(order, nearby) => Ok(AssignForOrder(f, order, nearby))
    case AcceptAssignment(driver, order) => DriverActs(f, order, AcceptCall(driver))
    case RejectAssignment(driver, order, nearby) => DriverRejects(f, driver, order, nearby)
    case Pickup(driver, order) => DriverActs(f, order, PickupCall(driver))
    case Deliver(driver, order) => DriverActs(f, order, DeliverCall(driver))
    case Reassign(r, order, newDriver) => ReassignDelivery(f, r, order, newDriver)
    case RosterEvent(driver, active) => Ok(f.(roster := Enrolled(f.roster, driver, active)))
  }

  function Step(f: Fleet, a: Action): Fleet {
    match Attempt(f, a)
    case Ok(next) => next
    case Err(_) => f
  }

  function Run(f: Fleet, history: seq<Action>): Fleet {
    if history == [] then f else Step(Run(f, history[..|history| - 1]), history[|history| - 1])
  }

  // ---------------------------------------------------------------- in place

  class DeliveryDesk {
    var deliveries: map<int, Delivery>
    var roster: seq<Driver>

    ghost function State(): Fleet
      reads this
    {
      Fleet(deliveries, roster)
    }

    constructor (roster: seq<Driver>)
      ensures State() == Fleet(map[], roster)
    {
      deliveries, this.roster := map[], roster;
    }

    method AssignForOrder(order: int, nearby: seq<int>) returns (d: Delivery)
      modifies this
      ensures State() == Step(old(State()), Assign(order, nearby))
      ensures order in deliveries && d == deliveries[order]
    {
      if order in deliveries {
        return deliveries[order];
      }
      var driver := PickDriver(Fleet(deliveries, roster), nearby, None);
      d := Delivery(None, Unassigned, [], []);
      if driver.Some? {
        d := d.(driver := driver, status := Assigned, offers := d.offers + [driver.value]);
      }
      d := Announce(d);
      deliveries := deliveries[order := d];
    }

    /** The row, if it is there and the driver's own. */
    method OwnedActive(driver: int, order: int) returns (r: Result<Delivery, DispatchError>)
      ensures r == if order !in deliveries then Err(NotFound)
                   else if deliveries[order].driver != Some(driver) then Err(Forbidden)
                   else Ok(deliveries[order])
    {
      if order !in deliveries {
        return Err(NotFound);
      }
      if deliveries[order].driver != Some(driver) {
        return Err(Forbidden);
      }
      return Ok(deliveries[order]);
    }

    method AcceptAssignment(driver: int, order: int) returns (r: Outcome<DispatchError>)
      modifies this
      ensures Matches(r, DriverActs(old(State()), order, AcceptCall(driver)))
      ensures State() == Step(old(State()), Action.AcceptAssignment(driver, order))
    {
      var owned := OwnedActive(driver, order);
      if owned.Err? {
        return Refused(owned.error);
      }
      var d := owned.value;
      if d.status != Assigned {
        return Refused(Conflict);
      }
      d := d.(status := Accepted);
      deliveries := deliveries[order := Announce(d)];
      return Done;
    }

    method RejectAssignment(driver: int, order: int, nearby: seq<int>) returns (r: Outcome<DispatchError>)
      modifies this
      ensures Matches(r, DriverRejects(old(State()), driver, order, nearby))
      ensures State() == Step(old(State()), Action.RejectAssignment(driver, order, nearby))
    {
      var owned := OwnedActive(driver, order);
      if owned.Err? {
        return Refused(owned.error);
      }
      var d := owned.value;
      if d.status != Assigned && d.status != Accepted {
        return Refused(Conflict);
      }
      d := d.(driver := None, status := Unassigned);
      deliveries := deliveries[order := d];
      var next := PickDriver(Fleet(deliveries, roster), nearby, Some(driver));
      if next.Some? {
        d := d.(driver := next, status := Assigned, offers := d.offers + [next.value]);
      }
      deliveries := deliveries[order := Announce(d)];
      return Done;
    }

    method Pickup(driver: int, order: int) returns (r: Outcome<DispatchError>)
      modifies this
      ensures Matches(r, DriverActs(old(State()), order, PickupCall(driver)))
      ensures State() == Step(old(State()), Action.Pickup(driver, order))
    {
      var owned := OwnedActive(driver, order);
      if owned.Err? {
        return Refused(owned.error);
      }
      var d := owned.value;
      if d.status != Assigned && d.status != Accepted {
        return Refused(Conflict);
      }
      d := d.(status := PickedUp);
      deliveries := deliveries[order := Announce(d)];
      return Done;
    }

    method Deliver(driver: int, order: int) returns (r: Outcome<DispatchError>)
      modifies this
      ensures Matches(r, DriverActs(old(State()), order, DeliverCall(driver)))
      ensures State() == Step(old(State()), Action.Deliver(driver, order))
    {
      var owned := OwnedActive(driver, order);
      if owned.Err? {
        return Refused(owned.error);
      }
      var d := owned.value;
      if d.status != PickedUp {
        return Refused(Conflict);
      }
      d := d.(status := Delivered);
      deliveries := deliveries[order := Announce(d)];
      return Done;
    }

    method Reassign(requester: Requester, order: int, newDriver: int) returns (r: Outcome<DispatchError>)
      modifies this
      ensures Matches(r, ReassignDelivery(old(State()), requester, order, newDriver))
      ensures State() == Step(old(State()), Action.Reassign(requester, order, newDriver))
    {
      if order !in deliveries {
        return Refused(NotFound);
      }
      var owned := OwnedOrder(requester);
      if owned.Refused? {
        return owned;
      }
      var driver := Find(roster, newDriver);
      if driver.None? || !driver.value.active {
        return Refused(NotFound);
      }
      var d := deliveries[order];
      d := d.(driver := Some(newDriver), status := Assigned, offers := d.offers + [newDriver]);
      deliveries := deliveries[order := Announce(d)];
      return Done;
    }
  }

  /** The outcome reported is the one of the specification. */
  predicate Matches(r: Outcome<DispatchError>, spec: Result<Fleet, DispatchError>) {
    match spec
    case Ok(_) => r == Done
    case Err(e) => r == Refused(e)
  }
}
