/** Who gets which delivery, over every history of calls. */
module DispatchProofs {
  import opened Prelude
  import opened Dispatch

  // ---------------------------------------------------------------- picking a driver

  predicate UniqueIds(roster: seq<Driver>) {
    forall i, j :: 0 <= i < j < |roster| ==> roster[i].id != roster[j].id
  }

  /** Can be offered work: on the roster, active, on no delivery, and not the one to leave out. */
  predicate Eligible(f: Fleet, exclude: Option<int>, id: int) {
    Driver(id, true) in f.roster && id !in Busy(f.deliveries) && Some(id) != exclude
  }

  lemma {:induction false} FindIff(roster: seq<Driver>, id: int)
    requires UniqueIds(roster)
    ensures Find(roster, id) == Some(Driver(id, true)) <==> Driver(id, true) in roster
    ensures Find(roster, id).Some? ==> Find(roster, id).value.id == id
  {
    if roster != [] {
      if roster[0].id == id {
        assert roster[0] in roster;
      } else {
        FindIff(roster[1..], id);
        assert roster == [roster[0]] + roster[1..];
      }
    }
  }

  lemma {:induction false} AvailableIff(roster: seq<Driver>, busy: set<int>, d: Driver)
    ensures d in ListAvailable(roster, busy) <==> d in roster && d.active && d.id !in busy
  {
    if roster != [] {
      AvailableIff(roster[1..], busy, d);
      assert roster == [roster[0]] + roster[1..];
    }
  }

  lemma {:induction false} FirstNotIff(drivers: seq<Driver>, exclude: Option<int>)
    ensures match FirstNot(drivers, exclude)
            case Some(id) => Some(id) != exclude && exists d :: d in drivers && d.id == id
            case None => forall d :: d in drivers ==> Some(d.id) == exclude
  {
    if drivers != [] {
      FirstNotIff(drivers[1..], exclude);
      assert drivers == [drivers[0]] + drivers[1..];
    }
  }

  /** The nearest-first scan stops at the first nearby driver who is eligible, and only there. */
  lemma {:induction false} NearestIsFirstEligible(f: Fleet, nearby: seq<int>, exclude: Option<int>)
    requires UniqueIds(f.roster)
    ensures match NearestAvailable(nearby, f.roster, Busy(f.deliveries), exclude)
            case Some(id) =>
              exists k :: && 0 <= k < |nearby| && nearby[k] == id && Eligible(f, exclude, id)
                          && forall j :: 0 <= j < k ==> !Eligible(f, exclude, nearby[j])
            case None => forall k :: 0 <= k < |nearby| ==> !Eligible(f, exclude, nearby[k])
  {
    if nearby != [] {
      FindIff(f.roster, nearby[0]);
      if !Eligible(f, exclude, nearby[0]) {
        NearestIsFirstEligible(f, nearby[1..], exclude);
        assert nearby == [nearby[0]] + nearby[1..];
        var r := NearestAvailable(nearby[1..], f.roster, Busy(f.deliveries), exclude);
        if r.Some? {
          var k :| && 0 <= k < |nearby[1..]| && nearby[1..][k] == r.value && Eligible(f, exclude, r.value)
                   && forall j :: 0 <= j < k ==> !Eligible(f, exclude, nearby[1..][j]);
          assert nearby[k + 1] == r.value;
          assert forall j :: 0 < j < k + 1 ==> nearby[j] == nearby[1..][j - 1];
        }
      }
    }
  }

  /** A pick is always eligible, there is none only if nobody is, and a nearby eligible driver is
      preferred in order of nearness. */
  lemma {:induction false} PickIff(f: Fleet, nearby: seq<int>, exclude: Option<int>)
    requires UniqueIds(f.roster)
    ensures match PickDriver(f, nearby, exclude)
            case Some(id) => Eligible(f, exclude, id)
            case None => forall id :: !Eligible(f, exclude, id)
    ensures forall k :: 0 <= k < |nearby| && Eligible(f, exclude, nearby[k])
                        && (forall j :: 0 <= j < k ==> !Eligible(f, exclude, nearby[j]))
                        ==> PickDriver(f, nearby, exclude) == Some(nearby[k])
  {
    var busy := Busy(f.deliveries);
    NearestIsFirstEligible(f, nearby, exclude);
    var free := ListAvailable(f.roster, busy);
    FirstNotIff(free, exclude);
    forall id
      ensures Driver(id, true) in free <==> Driver(id, true) in f.roster && id !in busy
      ensures Driver(id, false) !in free
    {
      AvailableIff(f.roster, busy, Driver(id, true));
      AvailableIff(f.roster, busy, Driver(id, false));
    }
    var picked := FirstNot(free, exclude);
    if picked.Some? {
      var d :| d in free && d.id == picked.value;
      AvailableIff(f.roster, busy, d);
      assert d == Driver(d.id, true);
    }
  }

  // ---------------------------------------------------------------- one delivery per driver

  predicate DriverIffAssigned(d: Delivery) {
    d.status == Unassigned <==> d.driver == None
  }

  predicate Carrying(d: Delivery, driver: int) {
    d.status in ACTIVE && d.driver == Some(driver)
  }

  /** No driver is on two active deliveries. */
  predicate OneEach(deliveries: map<int, Delivery>) {
    forall a, b :: a in deliveries && b in deliveries && a != b
                   && deliveries[a].status in ACTIVE && deliveries[b].status in ACTIVE && deliveries[a].driver.Some?
                   ==> deliveries[a].driver != deliveries[b].driver
  }

  /** The stream of reports about a delivery ends with what the row says. */
  predicate Reported(d: Delivery) {
    |d.reports| > 0 && d.reports[|d.reports| - 1] == Report(d.status, d.driver)
  }

  ghost predicate FleetValid(f: Fleet) {
    && UniqueIds(f.roster)
    && (forall o :: o in f.deliveries ==> DriverIffAssigned(f.deliveries[o]) && Reported(f.deliveries[o]))
    && OneEach(f.deliveries)
  }

  /** Nobody else is carrying for this driver. */
  predicate FreeFor(deliveries: map<int, Delivery>, order: int, driver: int) {
    forall o :: o in deliveries && o != order ==> !Carrying(deliveries[o], driver)
  }

  /** A row may be rewritten if its driver carries nothing else. */
  lemma RowChangeKeeps(f: Fleet, order: int, d: Delivery)
    requires FleetValid(f) && DriverIffAssigned(d) && Reported(d)
    requires d.driver.Some? && d.status in ACTIVE ==> FreeFor(f.deliveries, order, d.driver.value)
    ensures FleetValid(f.(deliveries := f.deliveries[order := d]))
  {
    var after := f.deliveries[order := d];
    forall a, b | a in after && b in after && a != b
                  && after[a].status in ACTIVE && after[b].status in ACTIVE && after[a].driver.Some?
      ensures after[a].driver != after[b].driver
    {
      if a == order {
        assert !Carrying(f.deliveries[b], d.driver.value);
      } else if b == order && d.driver.Some? {
        assert !Carrying(f.deliveries[a], d.driver.value);
      }
    }
  }

  lemma NotBusyIsFree(f: Fleet, order: int, driver: int)
    requires driver !in Busy(f.deliveries)
    ensures FreeFor(f.deliveries, order, driver)
  {
  }

  lemma AssignKeeps(f: Fleet, order: int, nearby: seq<int>)
    requires FleetValid(f)
    ensures FleetValid(AssignForOrder(f, order, nearby))
  {
    if order !in f.deliveries {
      PickIff(f, nearby, None);
      var driver := PickDriver(f, nearby, None);
      if driver.Some? {
        NotBusyIsFree(f, order, driver.value);
      }
      RowChangeKeeps(f, order, NewDelivery(driver));
    }
  }

  /** Accepting, picking up and delivering leave the driver where they are. */
  lemma OwnRowKeeps(f: Fleet, order: int, call: DriverCall)
    requires FleetValid(f) && !call.RejectCall? && DriverActs(f, order, call).Ok?
    ensures FleetValid(DriverActs(f, order, call).value)
  {
    var before := f.deliveries[order];
    assert before.driver == Some(call.driver);
    assert before.status in ACTIVE ==> FreeFor(f.deliveries, order, call.driver);
    RowChangeKeeps(f, order, OnRow(before, call).value);
  }

  lemma RejectKeeps(f: Fleet, driver: int, order: int, nearby: seq<int>)
    requires FleetValid(f) && DriverRejects(f, driver, order, nearby).Ok?
    ensures FleetValid(DriverRejects(f, driver, order, nearby).value)
    ensures DriverRejects(f, driver, order, nearby).value.deliveries[order].driver != Some(driver)
  {
    var freed := Declined(f, order);
    PickIff(freed, nearby, Some(driver));
    var next := PickDriver(freed, nearby, Some(driver));
    if next.Some? {
      NotBusyIsFree(freed, order, next.value);
      forall o | o in f.deliveries && o != order
        ensures !Carrying(f.deliveries[o], next.value)
      {
        assert freed.deliveries[o] == f.deliveries[o];
      }
    }
    RowChangeKeeps(f, order, OnRow(f.deliveries[order], RejectCall(driver, next)).value);
  }

  /** The override keeps one delivery per driver exactly when the new driver is on no other one. */
  lemma ReassignKeepsIff(f: Fleet, r: Requester, order: int, newDriver: int)
    requires FleetValid(f) && ReassignDelivery(f, r, order, newDriver).Ok?
    ensures FleetValid(ReassignDelivery(f, r, order, newDriver).value) <==> FreeFor(f.deliveries, order, newDriver)
  {
    var after := ReassignDelivery(f, r, order, newDriver).value;
    if FreeFor(f.deliveries, order, newDriver) {
      RowChangeKeeps(f, order, after.deliveries[order]);
    } else {
      var o :| o in f.deliveries && o != order && Carrying(f.deliveries[o], newDriver);
      assert after.deliveries[o] == f.deliveries[o];
      assert after.deliveries[order].driver == after.deliveries[o].driver;
    }
  }

  lemma {:induction false} EnrolledIds(roster: seq<Driver>, id: int, active: Option<bool>)
    requires UniqueIds(roster)
    ensures UniqueIds(Enrolled(roster, id, active))
    ensures forall d :: d in Enrolled(roster, id, active) ==> d.id == id || d in roster
  {
    if roster != [] {
      assert roster == [roster[0]] + roster[1..];
      if roster[0].id != id {
        EnrolledIds(roster[1..], id, active);
        forall j | 0 < j < |Enrolled(roster, id, active)|
          ensures Enrolled(roster, id, active)[j].id != roster[0].id
        {
          assert Enrolled(roster, id, active)[j] in Enrolled(roster[1..], id, active);
        }
      }
    }
  }

  /** A reassignment that an attentive restaurant would make. */
  predicate Considerate(f: Fleet, a: Action) {
    a.Reassign? ==> FreeFor(f.deliveries, a.order, a.newDriver)
  }

  lemma StepKeeps(f: Fleet, a: Action)
    requires FleetValid(f) && Considerate(f, a)
    ensures FleetValid(Step(f, a))
  {
    if Attempt(f, a).Ok? {
      match a
      case Assign(order, nearby) => AssignKeeps(f, order, nearby);
      case AcceptAssignment(driver, order) => OwnRowKeeps(f, order, AcceptCall(driver));
      case RejectAssignment(driver, order, nearby) => RejectKeeps(f, driver, order, nearby);
      case Pickup(driver, order) => OwnRowKeeps(f, order, PickupCall(driver));
      case Deliver(driver, order) => OwnRowKeeps(f, order, DeliverCall(driver));
      case Reassign(r, order, newDriver) => ReassignKeepsIff(f, r, order, newDriver);
      case RosterEvent(driver, active) => EnrolledIds(f.roster, driver, active);
    }
  }

  /** Over every history whose reassignments go to drivers with nothing else on: each driver has at
      most one active delivery, a delivery is unassigned iff it has no driver, and the last report
      about it is what its row says. */
  lemma {:induction false} OneDeliveryPerDriver(roster: seq<Driver>, history: seq<Action>)
    requires UniqueIds(roster)
    requires forall k :: 0 <= k < |history| ==> Considerate(Run(Fleet(map[], roster), history[..k]), history[k])
    ensures FleetValid(Run(Fleet(map[], roster), history))
  {
    if history != [] {
      var init := history[..|history| - 1];
      forall k | 0 <= k < |init|
        ensures Considerate(Run(Fleet(map[], roster), init[..k]), init[k])
      {
        assert init[..k] == history[..k];
      }
      OneDeliveryPerDriver(roster, init);
      StepKeeps(Run(Fleet(map[], roster), init), history[|history| - 1]);
    }
  }

  /** A driver on one delivery is reassigned to another by its restaurant, and now has two. */
  lemma ReassignDoublesUp()
    ensures var d := Delivery(Some(7), PickedUp, [Report(PickedUp, Some(7))], [7]);
            var waiting := Delivery(None, Unassigned, [Report(Unassigned, None)], []);
            var f := Fleet(map[1 := d, 2 := waiting], [Driver(7, true)]);
            FleetValid(f) && !FleetValid(Step(f, Reassign(Requester(9, true, true, None), 2, 7)))
  {
    var d := Delivery(Some(7), PickedUp, [Report(PickedUp, Some(7))], [7]);
    var waiting := Delivery(None, Unassigned, [Report(Unassigned, None)], []);
    var f := Fleet(map[1 := d, 2 := waiting], [Driver(7, true)]);
    assert Carrying(f.deliveries[1], 7);
    ReassignKeepsIff(f, Requester(9, true, true, None), 2, 7);
  }
}
