/** The weekly opening-hours policy (services/restaurants/app/hours.py). The clock is a weekday and a
    minute of that day, already local. */
module Hours {
  import opened Prelude

  const DAY := 1440
  const WEEK := 10080

  type Minute = m: int | 0 <= m < 1440
  type Weekday = d: int | 0 <= d < 7

  datatype DayRow = DayRow(day: Weekday, opensAt: Option<Minute>, closesAt: Option<Minute>, isClosed: bool)

  datatype ScheduleStatus = ScheduleStatus(
    accepting: bool, day: Weekday, closesAt: Option<Minute>, open24: bool,
    nextOpensAt: Option<Minute>, nextOpensDay: Option<Weekday>)

  /** The schedule as a dictionary keyed by weekday: a later row replaces an earlier one. */
  function ByDay(rows: seq<DayRow>, d: Weekday): Option<DayRow> {
    if rows == [] then None
    else if rows[|rows| - 1].day == d then Some(rows[|rows| - 1])
    else ByDay(rows[..|rows| - 1], d)
  }

  predicate HasWindow(r: DayRow) {
    !r.isClosed && r.opensAt.Some? && r.closesAt.Some?
  }

  function ScheduleOf(isOpen: bool, rows: seq<DayRow>, day: Weekday, now: Minute): ScheduleStatus {
    if !isOpen then
      var (d, t) := NextOpen(rows, day, now);
      ScheduleStatus(false, day, None, false, t, d)
    else if rows == [] then ScheduleStatus(true, day, None, false, None, None)
    else
      var today := ByDay(rows, day);
      if today.Some? && HasWindow(today.value) && today.value.opensAt == today.value.closesAt then
        ScheduleStatus(true, day, None, true, None, None)
      else if today.Some? && HasWindow(today.value) && OpenSince(today.value, now) then
        ScheduleStatus(true, day, today.value.closesAt, false, None, None)
      else
        var yesterday := ByDay(rows, (day + 6) % 7);
        if yesterday.Some? && HasWindow(yesterday.value) && CarriesOver(yesterday.value, now) then
          ScheduleStatus(true, day, yesterday.value.closesAt, false, None, None)
        else
          var (d, t) := NextOpen(rows, day, now);
          ScheduleStatus(false, day, None, false, t, d)
  }

  /** Inside the part of a window that lies on its own day. */
  predicate OpenSince(r: DayRow, now: Minute)
    requires HasWindow(r)
  {
    var (opens, closes) := (r.opensAt.value, r.closesAt.value);
    (opens < closes && opens <= now < closes) || (opens > closes && now >= opens)
  }

  /** Inside the part of an overnight window that lies on the following day. */
  predicate CarriesOver(r: DayRow, now: Minute)
    requires HasWindow(r)
  {
    r.opensAt.value > r.closesAt.value && now < r.closesAt.value
  }

  /** How many days ahead the scan stops, from `ahead` on; seven if it runs out. */
  function ScanAhead(rows: seq<DayRow>, day: Weekday, now: Minute, ahead: nat): nat
    decreases 7 - ahead
  {
    if ahead >= 7 then 7
    else
      var row := ByDay(rows, (day + ahead) % 7);
      if row.None? || row.value.isClosed || row.value.opensAt.None? then ScanAhead(rows, day, now, ahead + 1)
      else if ahead == 0 && row.value.opensAt.value <= now then ScanAhead(rows, day, now, ahead + 1)
      else ahead
  }

  function NextOpen(rows: seq<DayRow>, day: Weekday, now: Minute): (Option<Weekday>, Option<Minute>) {
    var a := ScanAhead(rows, day, now, 0);
    if a >= 7 then (None, None)
    else
      var row := ByDay(rows, (day + a) % 7);
      (Some((day + a) % 7), if row.Some? then row.value.opensAt else None)
  }

  /** The same policy as the SQL predicate that browse filters with. */
  predicate WithinScheduleClause(rows: seq<DayRow>, day: Weekday, now: Minute) {
    || rows == []
    || (exists r :: r in rows && r.day == day && HasWindow(r)
                    && (r.opensAt == r.closesAt
                        || (r.opensAt.value < r.closesAt.value && r.opensAt.value <= now && r.closesAt.value > now)
                        || (r.opensAt.value > r.closesAt.value && r.opensAt.value <= now)))
    || (exists r :: r in rows && r.day == (day + 6) % 7 && HasWindow(r)
                    && r.opensAt.value > r.closesAt.value && r.closesAt.value > now)
  }

  // ---------------------------------------------------------------- the timeline

  predicate UniqueDays(rows: seq<DayRow>) {
    forall i, j :: 0 <= i < j < |rows| ==> rows[i].day != rows[j].day
  }

  /** Minute of the week at which a row's window begins. Equal times mean the whole calendar day. */
  function Start(r: DayRow): int
    requires HasWindow(r)
  {
    r.day * DAY + if r.opensAt == r.closesAt then 0 else r.opensAt.value
  }

  function Length(r: DayRow): int
    requires HasWindow(r)
  {
    var (opens, closes) := (r.opensAt.value, r.closesAt.value);
    if opens == closes then DAY else if opens < closes then closes - opens else DAY - opens + closes
  }

  /** Minute `w`, counted from some Monday 00:00, lies in the row's weekly recurring window. */
  predicate Active(r: DayRow, w: int) {
    HasWindow(r) && (w - Start(r)) % WEEK < Length(r)
  }

  predicate SomeActive(rows: seq<DayRow>, w: int) {
    exists r :: r in rows && Active(r, w)
  }

  /** What checkout is told at minute `w`. */
  function StatusAt(isOpen: bool, rows: seq<DayRow>, w: int): ScheduleStatus {
    ScheduleOf(isOpen, rows, (w % WEEK) / DAY, w % DAY)
  }

  predicate AcceptsAt(isOpen: bool, rows: seq<DayRow>, w: int) {
    StatusAt(isOpen, rows, w).accepting
  }

  lemma {:induction false} ByDayFinds(rows: seq<DayRow>, d: Weekday)
    requires UniqueDays(rows)
    ensures match ByDay(rows, d)
            case Some(r) => r in rows && r.day == d && forall r' :: r' in rows && r'.day == d ==> r' == r
            case None => forall r :: r in rows ==> r.day != d
  {
    if rows != [] {
      ByDayFinds(rows[..|rows| - 1], d);
      assert rows == rows[..|rows| - 1] + [rows[|rows| - 1]];
    }
  }

  /** A window covers a minute either on its own day or, past midnight, on the next. */
  lemma ActiveSplit(r: DayRow, day: Weekday, now: Minute)
    requires HasWindow(r)
    ensures Active(r, day * DAY + now) <==>
            (r.day == day && (r.opensAt == r.closesAt || OpenSince(r, now)))
            || (r.day == (day + 6) % 7 && CarriesOver(r, now))
  {
    var gap := day * DAY + now - Start(r);
    assert -WEEK <= gap < WEEK;
    assert gap % WEEK == if gap < 0 then gap + WEEK else gap;
  }

  lemma ClockSplit(w: int)
    ensures 0 <= (w % WEEK) / DAY < 7
    ensures (w % WEEK) / DAY * DAY + w % DAY == w % WEEK
  {
  }

  lemma ActivePeriodic(r: DayRow, w: int)
    ensures Active(r, w) <==> Active(r, w % WEEK)
  {
    if HasWindow(r) {
      var q, s := w / WEEK, Start(r);
      assert w == q * WEEK + w % WEEK;
      assert (w - s) % WEEK == (w % WEEK - s) % WEEK;
    }
  }

  /** The schedule accepts an order at a minute exactly when the minute lies in the union of the rows'
      windows on the cyclic week (or there are no rows), and the switch is on; and the SQL predicate
      says the same as the Python branches. */
  lemma AcceptsIffInWindow(isOpen: bool, rows: seq<DayRow>, day: Weekday, now: Minute)
    requires UniqueDays(rows)
    ensures ScheduleOf(isOpen, rows, day, now).accepting
            <==> isOpen && (rows == [] || SomeActive(rows, day * DAY + now))
    ensures WithinScheduleClause(rows, day, now) <==> rows == [] || SomeActive(rows, day * DAY + now)
  {
    ByDayFinds(rows, day);
    ByDayFinds(rows, (day + 6) % 7);
    forall r | r in rows && HasWindow(r)
      ensures Active(r, day * DAY + now) <==>
              (r.day == day && (r.opensAt == r.closesAt || OpenSince(r, now)))
              || (r.day == (day + 6) % 7 && CarriesOver(r, now))
    {
      ActiveSplit(r, day, now);
    }
  }

  lemma AcceptsAtIff(isOpen: bool, rows: seq<DayRow>, w: int)
    requires UniqueDays(rows)
    ensures AcceptsAt(isOpen, rows, w) <==> isOpen && (rows == [] || SomeActive(rows, w))
  {
    ClockSplit(w);
    AcceptsIffInWindow(isOpen, rows, (w % WEEK) / DAY, w % DAY);
    forall r | r in rows
      ensures Active(r, w) <==> Active(r, w % WEEK)
    {
      ActivePeriodic(r, w);
    }
  }
}
