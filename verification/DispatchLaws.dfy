/** When each call on a delivery takes effect, what it then does and what it answers otherwise
    (services/delivery/app/service.py, lines 178-403). */
module DispatchLaws {
  import opened Prelude
  import opened Dispatch
  import opened DispatchProofs

  /** Exactly one delivery row is different. */
  predicate OnlyRow(f: Fleet, n: Fleet, order: int) {
    && n.roster == f.roster && n.deliveries.Keys == f.deliveries.Keys + {order}
    && forall o :: o in f.deliveries && o != order ==> n.deliveries[o] == f.deliveries[o]
  }

  /** The row now says this and has reported it once more. */
  predicate Becomes(d: Delivery, n: Delivery, status: DeliveryStatus, driver: Option<int>) {
    n.status == status && n.driver == driver && n.reports == d.reports + [Report(status, driver)]
  }

  // ---------------------------------------------------------------- assignment

  /** A new order's delivery goes to an eligible driver, and to nobody only if there is none; an order that
      has one keeps it. */
  lemma AssignLaw(f: Fleet, order: int, nearby: seq<int>)
    requires UniqueIds(f.roster)
    ensures var n := Step(f, Assign(order, nearby));
            if order in f.deliveries then n == f
            else
              && OnlyRow(f, n, order)
              && var d := n.deliveries[order];
                 && d.reports == [Report(d.status, d.driver)]
                 && (match d.driver
                     case Some(id) => Eligible(f, None, id) && d.status == Assigned && d.offers == [id]
                     case None => d.status == Unassigned && d.offers == [] && forall id :: !Eligible(f, None, id))
  {
    if order !in f.deliveries {
      PickIff(f, nearby, None);
    }
  }

  // ---------------------------------------------------------------- the driver's calls

  /** Refused in this order: no such delivery, somebody else's, the wrong moment. */
  predicate RefusedBy(f: Fleet, order: int, driver: int, e: DispatchError) {
    e == if order !in f.deliveries then NotFound
         else if f.deliveries[order].driver != Some(driver) then Forbidden
         else Conflict
  }

  predicate Own(f: Fleet, order: int, driver: int, statuses: set<DeliveryStatus>) {
    order in f.deliveries && f.deliveries[order].driver == Some(driver) && f.deliveries[order].status in statuses
  }

  /** Answered with the row moved on, its driver kept and nobody offered anything, exactly from `from`. */
  predicate MovesOn(
    f: Fleet, r: Result<Fleet, DispatchError>, order: int, driver: int, from: set<DeliveryStatus>, to: DeliveryStatus)
  {
    match r
    case Ok(n) =>
      && Own(f, order, driver, from) && OnlyRow(f, n, order)
      && Becomes(f.deliveries[order], n.deliveries[order], to, Some(driver))
      && n.deliveries[order].offers == f.deliveries[order].offers
    case Err(e) => !Own(f, order, driver, from) && RefusedBy(f, order, driver, e)
  }

  lemma AcceptLaw(f: Fleet, driver: int, order: int)
    ensures MovesOn(f, Attempt(f, AcceptAssignment(driver, order)), order, driver, {Assigned}, Accepted)
  {
  }

  lemma PickupLaw(f: Fleet, driver: int, order: int)
    ensures MovesOn(f, Attempt(f, Pickup(driver, order)), order, driver, {Assigned, Accepted}, PickedUp)
  {
  }

  lemma DeliverLaw(f: Fleet, driver: int, order: int)
    ensures MovesOn(f, Attempt(f, Deliver(driver, order)), order, driver, {PickedUp}, Delivered)
  {
  }

  /** The fleet as it is once the declining driver is off the row. */
  function Without(f: Fleet, order: int): Fleet
    requires order in f.deliveries
  {
    f.(deliveries := f.deliveries[order := f.deliveries[order].(driver := None, status := Unassigned)])
  }

  /** Declining passes the order on to an eligible driver other than the one declining, or to nobody exactly
      if there is none. */
  lemma RejectLaw(f: Fleet, driver: int, order: int, nearby: seq<int>)
    requires UniqueIds(f.roster)
    ensures match Attempt(f, RejectAssignment(driver, order, nearby))
            case Ok(n) =>
              && Own(f, order, driver, {Assigned, Accepted}) && OnlyRow(f, n, order)
              && var (d, next) := (f.deliveries[order], n.deliveries[order].driver);
                 && Becomes(d, n.deliveries[order], if next.Some? then Assigned else Unassigned, next)
                 && n.deliveries[order].offers == d.offers + (if next.Some? then [next.value] else [])
                 && (next.Some? ==> Eligible(Without(f, order), Some(driver), next.value))
                 && (next.None? ==> forall id :: !Eligible(Without(f, order), Some(driver), id))
            case Err(e) => !Own(f, order, driver, {Assigned, Accepted}) && RefusedBy(f, order, driver, e)
  {
    if order in f.deliveries {
      PickIff(Without(f, order), nearby, Some(driver));
    }
  }

  // ---------------------------------------------------------------- the restaurant's override

  predicate MayReassign(r: Requester) {
    r.isAdmin || (r.restaurantKnown && r.owner == Some(r.userId))
  }

  /** Reassigned exactly if the delivery is there, the requester is an admin or owns the restaurant behind it,
      and the driver is on the roster and active; then only that row changes, to an offer to that driver.
      Otherwise refused in this order: no delivery, no known restaurant, not the owner, no such driver. */
  lemma ReassignLaw(f: Fleet, r: Requester, order: int, driver: int)
    requires UniqueIds(f.roster)
    ensures match Attempt(f, Reassign(r, order, driver))
            case Ok(n) =>
              && order in f.deliveries && MayReassign(r) && Driver(driver, true) in f.roster && OnlyRow(f, n, order)
              && Becomes(f.deliveries[order], n.deliveries[order], Assigned, Some(driver))
              && n.deliveries[order].offers == f.deliveries[order].offers + [driver]
            case Err(e) =>
              && !(order in f.deliveries && MayReassign(r) && Driver(driver, true) in f.roster)
              && e == if order in f.deliveries && !r.isAdmin && r.restaurantKnown && r.owner != Some(r.userId)
                      then Forbidden else NotFound
  {
    FindIff(f.roster, driver);
  }

  // ---------------------------------------------------------------- the roster

  /** A user event enrols a driver, active unless it says otherwise, or updates only what it carries; no
      other driver is touched, and no delivery. */
  lemma {:induction false} RosterLaw(roster: seq<Driver>, id: int, active: Option<bool>, d: Driver)
    requires UniqueIds(roster)
    ensures d in Enrolled(roster, id, active) <==>
            if d.id != id then d in roster
            else if active.Some? then d.active == active.value
            else d in roster || (d.active && Driver(id, false) !in roster)
  {
    if roster != [] {
      assert roster == [roster[0]] + roster[1..];
      if roster[0].id == id {
        assert forall k :: 0 < k < |roster| ==> roster[k].id != id;
      } else {
        RosterLaw(roster[1..], id, active, d);
      }
    }
  }

  /** Busy is whoever is on a delivery offered, accepted or picked up. */
  lemma BusyIff(deliveries: map<int, Delivery>, id: int)
    ensures id in Busy(deliveries) <==>
            exists o :: && o in deliveries && deliveries[o].driver == Some(id)
                        && (deliveries[o].status == Assigned || deliveries[o].status == Accepted
                            || deliveries[o].status == PickedUp)
  {
  }

  /** A delivery is taken from a driver only by that driver declining or by somebody who may reassign it. */
  lemma TakenFromOnly(f: Fleet, a: Action, order: int)
    requires UniqueIds(f.roster) && order in f.deliveries && f.deliveries[order].driver.Some?
    ensures var n := Step(f, a);
            order in n.deliveries
            && (n.deliveries[order].driver != f.deliveries[order].driver ==>
                  (a.RejectAssignment? && a.order == order && Some(a.driver) == f.deliveries[order].driver)
                  || (a.Reassign? && a.order == order && MayReassign(a.requester)))
  {
    match a
    case Assign(o, nearby) => AssignLaw(f, o, nearby);
    case AcceptAssignment(driver, o) => AcceptLaw(f, driver, o);
    case RejectAssignment(driver, o, nearby) => RejectLaw(f, driver, o, nearby);
    case Pickup(driver, o) => PickupLaw(f, driver, o);
    case Deliver(driver, o) => DeliverLaw(f, driver, o);
    case Reassign(r, o, newDriver) => ReassignLaw(f, r, o, newDriver);
    case RosterEvent(_, _) =>
  }
}
