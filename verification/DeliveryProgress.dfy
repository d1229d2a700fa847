/** What a delivery reports over its life, what the order makes of the reports, and overlapping calls
    of drivers on one delivery. */
module DeliveryProgress {
  import opened Prelude
  import opened Dispatch
  import opened DispatchProofs
  import opened RowLock
  import StateMachine
  import Orders

  // ---------------------------------------------------------------- the journey

  /** One report may follow another: offers come and go until a pickup, and only the same driver's
      drop-off follows that. */
  predicate MayFollow(prev: Report, next: Report) {
    match prev.status
    case Delivered => false
    case PickedUp => next == Report(Delivered, prev.driver)
    case _ =>
      match next.status
      case Delivered => false
      case PickedUp => prev.status != Unassigned && next.driver == prev.driver
      case Accepted => prev.status == Assigned && next.driver == prev.driver
      case _ => true
  }

  predicate Journey(reports: seq<Report>) {
    && |reports| > 0
    && reports[0].status in {Unassigned, Assigned}
    && forall i :: 0 < i < |reports| ==> MayFollow(reports[i - 1], reports[i])
  }

  ghost predicate AllJourneys(f: Fleet) {
    forall o :: o in f.deliveries ==> Journey(f.deliveries[o].reports) && Reported(f.deliveries[o])
  }

  /** A reassignment of a delivery that nobody has picked up yet. */
  predicate InTime(f: Fleet, a: Action) {
    a.Reassign? && a.order in f.deliveries ==> f.deliveries[a.order].status !in {PickedUp, Delivered}
  }

  lemma JourneyGoesOn(reports: seq<Report>, next: Report)
    requires Journey(reports) && MayFollow(reports[|reports| - 1], next)
    ensures Journey(reports + [next])
  {
    var longer := reports + [next];
    forall i | 0 < i < |longer|
      ensures MayFollow(longer[i - 1], longer[i])
    {
      if i < |reports| {
        assert MayFollow(reports[i - 1], reports[i]);
      }
    }
  }

  lemma DriverGoesOn(d: Delivery, call: DriverCall)
    requires Journey(d.reports) && Reported(d) && OnRow(d, call).Ok?
    ensures Journey(OnRow(d, call).value.reports) && Reported(OnRow(d, call).value)
  {
    var after := OnRow(d, call).value;
    JourneyGoesOn(d.reports, Report(after.status, after.driver));
  }

  /** The override continues the journey exactly when the food has not left the restaurant. */
  lemma ReassignInTimeIff(f: Fleet, r: Requester, order: int, newDriver: int)
    requires AllJourneys(f) && ReassignDelivery(f, r, order, newDriver).Ok?
    ensures AllJourneys(ReassignDelivery(f, r, order, newDriver).value)
            <==> f.deliveries[order].status !in {PickedUp, Delivered}
  {
    var before := f.deliveries[order];
    var after := ReassignDelivery(f, r, order, newDriver).value;
    assert after.deliveries[order].reports == before.reports + [Report(Assigned, Some(newDriver))];
    if before.status !in {PickedUp, Delivered} {
      JourneyGoesOn(before.reports, Report(Assigned, Some(newDriver)));
    } else {
      var n := |before.reports|;
      assert !MayFollow(after.deliveries[order].reports[n - 1], after.deliveries[order].reports[n]);
    }
  }

  lemma StepContinues(f: Fleet, a: Action)
    requires AllJourneys(f) && InTime(f, a)
    ensures AllJourneys(Step(f, a))
  {
    if Attempt(f, a).Ok? {
      match a
      case Assign(_, _) =>
      case AcceptAssignment(driver, order) => DriverGoesOn(f.deliveries[order], AcceptCall(driver));
      case RejectAssignment(driver, order, nearby) =>
        DriverGoesOn(f.deliveries[order], RejectCall(driver, PickDriver(Declined(f, order), nearby, Some(driver))));
      case Pickup(driver, order) => DriverGoesOn(f.deliveries[order], PickupCall(driver));
      case Deliver(driver, order) => DriverGoesOn(f.deliveries[order], DeliverCall(driver));
      case Reassign(r, order, newDriver) => ReassignInTimeIff(f, r, order, newDriver);
      case RosterEvent(_, _) =>
    }
  }

  /** Over every history whose reassignments come before the pickup, every delivery's reports are a
      journey that ends in what its row says. */
  lemma {:induction false} EveryDeliveryIsAJourney(roster: seq<Driver>, history: seq<Action>)
    requires forall k :: 0 <= k < |history| ==> InTime(Run(Fleet(map[], roster), history[..k]), history[k])
    ensures AllJourneys(Run(Fleet(map[], roster), history))
  {
    if history != [] {
      var init := history[..|history| - 1];
      forall k | 0 <= k < |init|
        ensures InTime(Run(Fleet(map[], roster), init[..k]), init[k])
      {
        assert init[..k] == history[..k];
      }
      EveryDeliveryIsAJourney(roster, init);
      StepContinues(Run(Fleet(map[], roster), init), history[|history| - 1]);
    }
  }

  // ---------------------------------------------------------------- the order listens

  function ReportOf(r: Report): Orders.DeliveryReport {
    match r.status
    case Unassigned => Orders.ReportUnassigned
    case Assigned => Orders.ReportAssigned
    case Accepted => Orders.ReportAccepted
    case PickedUp => Orders.ReportPickedUp
    case Delivered => Orders.ReportDelivered
  }

  /** The order after hearing the reports in the given order. */
  function Heard(o: Orders.Order, reports: seq<Report>, env: Orders.Env): Orders.Order {
    if reports == [] then o
    else
      Orders.Step(Heard(o, reports[..|reports| - 1], env),
                  Orders.DeliveryEvent(ReportOf(reports[|reports| - 1])), env)
  }

  predicate HasPickup(reports: seq<Report>) {
    exists i :: 0 <= i < |reports| && reports[i].status == PickedUp
  }

  /** A drop-off somewhere after a pickup. */
  predicate HasDropOff(reports: seq<Report>) {
    exists j :: 0 <= j < |reports| && reports[j].status == Delivered && HasPickup(reports[..j])
  }

  lemma HasPickupOneMore(reports: seq<Report>)
    requires reports != []
    ensures HasPickup(reports) <==>
            HasPickup(reports[..|reports| - 1]) || reports[|reports| - 1].status == PickedUp
  {
    var init := reports[..|reports| - 1];
    if HasPickup(init) {
      var i :| 0 <= i < |init| && init[i].status == PickedUp;
      assert reports[i].status == PickedUp;
    }
    if HasPickup(reports) && reports[|reports| - 1].status != PickedUp {
      var i :| 0 <= i < |reports| && reports[i].status == PickedUp;
      assert init[i].status == PickedUp;
    }
  }

  lemma HasDropOffOneMore(reports: seq<Report>)
    requires reports != []
    ensures HasDropOff(reports) <==>
            || HasDropOff(reports[..|reports| - 1])
            || (reports[|reports| - 1].status == Delivered && HasPickup(reports[..|reports| - 1]))
  {
    var init := reports[..|reports| - 1];
    if HasDropOff(init) {
      var j :| 0 <= j < |init| && init[j].status == Delivered && HasPickup(init[..j]);
      assert init[..j] == reports[..j] && reports[j].status == Delivered;
    }
    if HasDropOff(reports) {
      var j :| 0 <= j < |reports| && reports[j].status == Delivered && HasPickup(reports[..j]);
      if j < |init| {
        assert init[..j] == reports[..j] && init[j].status == Delivered;
      }
    }
  }

  /** An order waiting for its driver, told any reports in any order and any number of times, is out
      for delivery once a pickup was among them and delivered once a drop-off came after it; whatever
      else arrives is refused. */
  lemma {:induction false} OrderHears(o: Orders.Order, reports: seq<Report>, env: Orders.Env)
    requires o.status == StateMachine.ReadyForPickup
    ensures Heard(o, reports, env).status
            == if HasDropOff(reports) then StateMachine.Delivered
               else if HasPickup(reports) then StateMachine.OutForDelivery
               else StateMachine.ReadyForPickup
  {
    if reports != [] {
      OrderHears(o, reports[..|reports| - 1], env);
      HasPickupOneMore(reports);
      HasDropOffOneMore(reports);
    }
  }

  lemma {:induction false} JourneyPickups(reports: seq<Report>)
    requires Journey(reports)
    ensures HasPickup(reports) <==> reports[|reports| - 1].status in {PickedUp, Delivered}
    ensures HasDropOff(reports) <==> reports[|reports| - 1].status == Delivered
  {
    HasPickupOneMore(reports);
    HasDropOffOneMore(reports);
    if |reports| > 1 {
      var init := reports[..|reports| - 1];
      assert MayFollow(reports[|reports| - 2], reports[|reports| - 1]);
      assert forall i :: 0 < i < |init| ==> MayFollow(reports[i - 1], reports[i]);
      JourneyPickups(init);
    }
  }

  /** Heard in order, the reports of a delivery leave its order where the delivery is. */
  lemma OrderFollowsDelivery(o: Orders.Order, d: Delivery, env: Orders.Env)
    requires o.status == StateMachine.ReadyForPickup && Journey(d.reports) && Reported(d)
    ensures Heard(o, d.reports, env).status
            == match d.status
               case Delivered => StateMachine.Delivered
               case PickedUp => StateMachine.OutForDelivery
               case _ => StateMachine.ReadyForPickup
  {
    OrderHears(o, d.reports, env);
    JourneyPickups(d.reports);
  }

  // ---------------------------------------------------------------- overlapping calls

  function OnRowOrNot(d: Delivery, call: DriverCall): Delivery {
    match OnRow(d, call)
    case Ok(next) => next
    case Err(_) => d
  }

  /** The k-th commit changed the row it read. */
  predicate TookEffect(calls: seq<DriverCall>, db: Table<Delivery>, k: nat)
    requires |db.phases| == |calls| && InRange(|calls|, db.commits) && k < |db.commits|
  {
    var t := db.commits[k];
    db.phases[t].Committed? && OnRowOrNot(db.phases[t].read, calls[t]) != db.phases[t].read
  }

  lemma {:induction false} SerialReportsGrow(calls: seq<DriverCall>, d: Delivery, order: seq<nat>, k: nat)
    requires InRange(|calls|, order) && k <= |order|
    ensures InRange(|calls|, order[..k])
    ensures |Serial(OnRowOrNot, calls, d, order[..k]).reports| <= |Serial(OnRowOrNot, calls, d, order).reports|
  {
    if k < |order| {
      var init := order[..|order| - 1];
      SerialReportsGrow(calls, d, init, k);
      assert init[..k] == order[..k];
    } else {
      assert order[..k] == order;
    }
  }

  /** Drivers' calls on one delivery, in any interleaving, have the result of a serial order, and no
      two that took effect decided from the same version of the row. */
  lemma LockedDriverCallsDecideApart(calls: seq<DriverCall>, d: Delivery, moves: seq<Move>)
    ensures var db := PlayAll(OnRowOrNot, calls, d, moves);
            && Serialised(OnRowOrNot, calls, d, db)
            && forall k, l :: 0 <= k < l < |db.commits| && TookEffect(calls, db, k) && TookEffect(calls, db, l)
                              ==> db.phases[db.commits[k]].read != db.phases[db.commits[l]].read
  {
    LockedIsSerial(OnRowOrNot, calls, d, moves);
    var db := PlayAll(OnRowOrNot, calls, d, moves);
    forall k, l | 0 <= k < l < |db.commits| && TookEffect(calls, db, k) && TookEffect(calls, db, l)
      ensures db.phases[db.commits[k]].read != db.phases[db.commits[l]].read
    {
      EffectiveReadsDiffer(calls, d, db.commits, k, l);
    }
  }

  lemma EffectiveReadsDiffer(calls: seq<DriverCall>, d: Delivery, order: seq<nat>, k: nat, l: nat)
    requires InRange(|calls|, order) && k < l < |order|
    requires var read := Serial(OnRowOrNot, calls, d, order[..k]); OnRowOrNot(read, calls[order[k]]) != read
    ensures Serial(OnRowOrNot, calls, d, order[..k]) != Serial(OnRowOrNot, calls, d, order[..l])
  {
    SerialReportsGrow(calls, d, order[..l], k + 1);
    assert order[..l][..k + 1] == order[..k + 1];
    assert order[..k + 1][..k] == order[..k];
  }

  /** Every call is this driver declining, with somebody else or nobody next. */
  predicate AllDecline(calls: seq<DriverCall>, driver: int) {
    forall t :: 0 <= t < |calls| ==>
      calls[t].RejectCall? && calls[t].driver == driver && calls[t].next != Some(driver)
  }

  lemma {:induction false} DeclinedStays(calls: seq<DriverCall>, d: Delivery, driver: int, order: seq<nat>, k: nat)
    requires AllDecline(calls, driver) && InRange(|calls|, order) && k <= |order|
    requires InRange(|calls|, order[..k]) && Serial(OnRowOrNot, calls, d, order[..k]).driver != Some(driver)
    ensures Serial(OnRowOrNot, calls, d, order) == Serial(OnRowOrNot, calls, d, order[..k])
  {
    if k < |order| {
      var init := order[..|order| - 1];
      assert init[..k] == order[..k];
      DeclinedStays(calls, d, driver, init, k);
    } else {
      assert order[..k] == order;
    }
  }

  lemma SecondDeclineIdle(calls: seq<DriverCall>, d: Delivery, driver: int, order: seq<nat>, k: nat, l: nat)
    requires AllDecline(calls, driver) && InRange(|calls|, order) && k < l < |order|
    requires var read := Serial(OnRowOrNot, calls, d, order[..k]); OnRowOrNot(read, calls[order[k]]) != read
    ensures var read := Serial(OnRowOrNot, calls, d, order[..l]); OnRowOrNot(read, calls[order[l]]) == read
  {
    assert order[..k + 1][..k] == order[..k];
    assert order[..l][..k + 1] == order[..k + 1];
    DeclinedStays(calls, d, driver, order[..l], k + 1);
  }

  /** Simultaneous declines by one driver release the offer once: at most one takes effect, so the
      order is passed on to at most one driver. */
  lemma OneDeclineCounts(calls: seq<DriverCall>, d: Delivery, driver: int, moves: seq<Move>)
    requires AllDecline(calls, driver)
    ensures var db := PlayAll(OnRowOrNot, calls, d, moves);
            && Serialised(OnRowOrNot, calls, d, db)
            && forall k, l :: 0 <= k < l < |db.commits| && TookEffect(calls, db, k) ==> !TookEffect(calls, db, l)
  {
    LockedIsSerial(OnRowOrNot, calls, d, moves);
    var db := PlayAll(OnRowOrNot, calls, d, moves);
    forall k, l | 0 <= k < l < |db.commits| && TookEffect(calls, db, k)
      ensures !TookEffect(calls, db, l)
    {
      SecondDeclineIdle(calls, d, driver, db.commits, k, l);
    }
  }
}
