/** Every field the schedule reports, in terms of the rows and the timeline
    (services/restaurants/app/hours.py, lines 79-158). */
module HoursLaws {
  import opened Prelude
  import opened Hours
  import opened HoursProofs

  predicate AllDay(r: DayRow) {
    HasWindow(r) && r.opensAt == r.closesAt
  }

  /** A row whose window is running at this minute and ends. */
  predicate RunsNow(rows: seq<DayRow>, day: Weekday, now: Minute, r: DayRow) {
    r in rows && HasWindow(r) && r.opensAt != r.closesAt && Active(r, day * DAY + now)
  }

  /** While open by schedule: a whole day and no closing time iff today's row has equal times; otherwise the
      closing time of a running row, today's own if that is running. */
  lemma OpenReport(rows: seq<DayRow>, day: Weekday, now: Minute)
    requires UniqueDays(rows) && rows != [] && ScheduleOf(true, rows, day, now).accepting
    ensures var s := ScheduleOf(true, rows, day, now);
            && s.day == day && s.nextOpensAt == None && s.nextOpensDay == None
            && (s.open24 <==> exists r :: r in rows && r.day == day && AllDay(r))
            && (s.open24 <==> s.closesAt.None?)
            && (s.closesAt.Some? ==>
                  exists r :: && RunsNow(rows, day, now, r) && r.closesAt == s.closesAt
                              && (r.day == day || forall t :: RunsNow(rows, day, now, t) ==> t.day != day))
  {
    ByDayFinds(rows, day);
    ByDayFinds(rows, (day + 6) % 7);
    var today, yesterday := ByDay(rows, day), ByDay(rows, (day + 6) % 7);
    if today.Some? && HasWindow(today.value) {
      ActiveSplit(today.value, day, now);
    }
    if yesterday.Some? && HasWindow(yesterday.value) {
      ActiveSplit(yesterday.value, day, now);
    }
    var s := ScheduleOf(true, rows, day, now);
    if s.closesAt.Some? {
      var r := if today.Some? && HasWindow(today.value) && OpenSince(today.value, now) then today.value
               else yesterday.value;
      assert RunsNow(rows, day, now, r) && r.closesAt == s.closesAt;
    }
  }

  /** With no schedule at all the switch alone decides and no times are reported. */
  lemma UnscheduledReport(day: Weekday, now: Minute)
    ensures ScheduleOf(true, [], day, now) == ScheduleStatus(true, day, None, false, None, None)
  {
  }

  // ---------------------------------------------------------------- the next opening, switched off or not

  predicate Opens(r: DayRow) {
    !r.isClosed && r.opensAt.Some?
  }

  /** Its opening time today has come. */
  predicate Past(r: DayRow, day: Weekday, now: Minute)
    requires Opens(r)
  {
    r.day == day && r.opensAt.value <= now
  }

  /** Minutes from now to its opening time on its next day, today included. */
  function MinutesAhead(r: DayRow, day: Weekday, now: Minute): int
    requires Opens(r)
  {
    Ahead(day, r.day) * DAY + r.opensAt.value - now
  }

  predicate Soonest(rows: seq<DayRow>, day: Weekday, now: Minute, r: DayRow) {
    && r in rows && Opens(r) && !Past(r, day, now)
    && forall t :: t in rows && Opens(t) && !Past(t, day, now) ==> MinutesAhead(r, day, now) <= MinutesAhead(t, day, now)
  }

  lemma SkippedIff(rows: seq<DayRow>, day: Weekday, now: Minute, r: DayRow)
    requires UniqueDays(rows) && r in rows && Opens(r)
    ensures Skipped(rows, day, now, Ahead(day, r.day)) <==> Past(r, day, now)
  {
    AheadInverse(day, r.day, 0);
    ByDayFinds(rows, r.day);
  }

  /** The opening that is found is the first still to come, in minutes from now; none is found exactly when
      every opening row is today's and its time has come. */
  lemma NextOpenSoonest(rows: seq<DayRow>, day: Weekday, now: Minute, a: nat)
    requires UniqueDays(rows) && a == ScanAhead(rows, day, now, 0)
    ensures a >= 7 <==> forall r :: r in rows && Opens(r) ==> Past(r, day, now)
    ensures a < 7 ==> ByDay(rows, (day + a) % 7).Some? && Soonest(rows, day, now, ByDay(rows, (day + a) % 7).value)
                      && ByDay(rows, (day + a) % 7).value.day == (day + a) % 7
  {
    ScanStopsAtFirst(rows, day, now, 0);
    forall r | r in rows && Opens(r)
      ensures Past(r, day, now) || a <= Ahead(day, r.day) < 7
    {
      SkippedIff(rows, day, now, r);
    }
    if a < 7 {
      ScanRow(rows, day, now, a, (day + a) % 7);
    }
  }

  lemma ScanRow(rows: seq<DayRow>, day: Weekday, now: Minute, a: nat, d: Weekday)
    requires UniqueDays(rows) && a < 7 && d == (day + a) % 7 && !Skipped(rows, day, now, a)
    requires forall r :: r in rows && Opens(r) ==> Past(r, day, now) || a <= Ahead(day, r.day) < 7
    ensures ByDay(rows, d).Some? && ByDay(rows, d).value.day == d && Soonest(rows, day, now, ByDay(rows, d).value)
  {
    ByDayFinds(rows, d);
    var row := ByDay(rows, d).value;
    AheadInverse(day, d, a);
    forall t | t in rows && Opens(t) && !Past(t, day, now)
      ensures MinutesAhead(row, day, now) <= MinutesAhead(t, day, now)
    {
      if Ahead(day, t.day) == a {
        AheadInverse(day, t.day, a);
      }
    }
  }

  /** Whenever orders are not accepted, switched off or closed by schedule, no closing time is reported and
      the opening reported is the first still to come. */
  lemma ClosedReportLaw(isOpen: bool, rows: seq<DayRow>, day: Weekday, now: Minute)
    requires UniqueDays(rows) && !ScheduleOf(isOpen, rows, day, now).accepting
    ensures var s := ScheduleOf(isOpen, rows, day, now);
            && s.day == day && s.closesAt == None && !s.open24
            && (s.nextOpensDay.Some? <==> s.nextOpensAt.Some?)
            && (s.nextOpensDay == None <==> forall r :: r in rows && Opens(r) ==> Past(r, day, now))
            && (s.nextOpensDay.Some? ==>
                  exists r :: && Soonest(rows, day, now, r)
                              && s.nextOpensDay == Some(r.day) && s.nextOpensAt == r.opensAt)
  {
    var a := ScanAhead(rows, day, now, 0);
    NextOpenSoonest(rows, day, now, a);
    if a < 7 {
      var r := ByDay(rows, (day + a) % 7).value;
      assert NextOpen(rows, day, now) == (Some(r.day), r.opensAt);
    }
  }
}
