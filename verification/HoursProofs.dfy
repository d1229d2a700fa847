/** Are the reported times true? On the cyclic week, minute by minute. */
module HoursProofs {
  import opened Prelude
  import opened Hours

  lemma ModWeek(a: int, q: int, r: int)
    requires a == q * WEEK + r && 0 <= r < WEEK
    ensures a % WEEK == r
  {
  }

  lemma ModDay(a: int, q: int, r: int)
    requires a == q * DAY + r && 0 <= r < DAY
    ensures a % DAY == r
  {
  }

  /** What is left of a running window is the time until its closing time next comes round. */
  lemma TimeLeft(r: DayRow, w: int, q: int, x: int)
    requires HasWindow(r) && r.opensAt != r.closesAt && w - Start(r) == q * WEEK + x && 0 <= x < Length(r)
    ensures (r.closesAt.value - w) % DAY == Length(r) - x
  {
    var c := if r.opensAt.value < r.closesAt.value then r.day else r.day + 1;
    assert Start(r) + Length(r) == r.closesAt.value + DAY * c;
    ModDay(r.closesAt.value - w, -(c + 7 * q), Length(r) - x);
  }

  /** A window that is running at `w` runs until its closing time next comes round. */
  lemma WindowTail(r: DayRow, w: int, v: int)
    requires HasWindow(r) && r.opensAt != r.closesAt && Active(r, w)
    requires w <= v < w + (r.closesAt.value - w) % DAY
    ensures Active(r, v)
  {
    var s := Start(r);
    var q, x := (w - s) / WEEK, (w - s) % WEEK;
    TimeLeft(r, w, q, x);
    ModWeek(v - s, q, x + (v - w));
  }

  /** A reported closing time is that of a row whose window is running. */
  lemma ReportedRowRuns(rows: seq<DayRow>, w: int, closes: Minute)
    requires UniqueDays(rows) && StatusAt(true, rows, w).closesAt == Some(closes)
    ensures exists r :: r in rows && HasWindow(r) && r.opensAt != r.closesAt && r.closesAt == Some(closes) && Active(r, w)
  {
    ClockSplit(w);
    var day, now := (w % WEEK) / DAY, w % DAY;
    ByDayFinds(rows, day);
    ByDayFinds(rows, (day + 6) % 7);
    var today := ByDay(rows, day);
    var r := if today.Some? && HasWindow(today.value) && OpenSince(today.value, now) then today.value
             else ByDay(rows, (day + 6) % 7).value;
    ActiveSplit(r, day, now);
    ActivePeriodic(r, w);
  }

  /** Orders are accepted at every minute from now until the reported closing time next comes round. */
  lemma ClosingTimeTrue(rows: seq<DayRow>, w: int, closes: Minute)
    requires UniqueDays(rows) && StatusAt(true, rows, w).closesAt == Some(closes)
    ensures forall v :: w <= v < w + (closes - w) % DAY ==> AcceptsAt(true, rows, v)
    ensures (closes - w) % DAY > 0
  {
    ReportedRowRuns(rows, w, closes);
    var r :| r in rows && HasWindow(r) && r.opensAt != r.closesAt && r.closesAt == Some(closes) && Active(r, w);
    TimeLeft(r, w, (w - Start(r)) / WEEK, (w - Start(r)) % WEEK);
    forall v | w <= v < w + (closes - w) % DAY
      ensures AcceptsAt(true, rows, v)
    {
      WindowTail(r, w, v);
      AcceptsAtIff(true, rows, v);
    }
  }

  // ---------------------------------------------------------------- the next opening

  /** Every row is a closed day or has both times, as the API's validation leaves them. */
  predicate WellFormed(rows: seq<DayRow>) {
    forall r :: r in rows ==> r.isClosed || HasWindow(r)
  }

  /** Days from one weekday to the next occurrence of another. */
  function Ahead(day: Weekday, d: Weekday): nat {
    if d >= day then d - day else d - day + 7
  }

  /** The scan passes over the day `b` days from today. */
  predicate Skipped(rows: seq<DayRow>, day: Weekday, now: Minute, b: nat) {
    var row := ByDay(rows, (day + b) % 7);
    row.None? || row.value.isClosed || row.value.opensAt.None? || (b == 0 && row.value.opensAt.value <= now)
  }

  lemma AheadInverse(day: Weekday, d: Weekday, a: nat)
    requires a < 7
    ensures (day + Ahead(day, d)) % 7 == d
    ensures d == (day + a) % 7 ==> Ahead(day, d) == a
  {
  }

  /** A row with a window is passed over only if it is today's and its opening time has passed. */
  lemma SkippedRow(rows: seq<DayRow>, day: Weekday, now: Minute, r: DayRow)
    requires UniqueDays(rows) && r in rows && HasWindow(r)
    ensures Skipped(rows, day, now, Ahead(day, r.day)) <==> r.day == day && r.opensAt.value <= now
  {
    AheadInverse(day, r.day, 0);
    ByDayFinds(rows, r.day);
  }

  lemma {:induction false} ScanStopsAtFirst(rows: seq<DayRow>, day: Weekday, now: Minute, ahead: nat)
    requires ahead <= 7
    ensures var a := ScanAhead(rows, day, now, ahead);
            && ahead <= a <= 7
            && (a < 7 ==> !Skipped(rows, day, now, a))
            && forall b: nat :: ahead <= b < a ==> Skipped(rows, day, now, b)
    decreases 7 - ahead
  {
    if ahead < 7 && Skipped(rows, day, now, ahead) {
      ScanStopsAtFirst(rows, day, now, ahead + 1);
    }
  }

  /** Minutes until a row that is not running next begins. */
  function UntilStart(r: DayRow, day: Weekday, now: Minute): int
    requires HasWindow(r)
  {
    var opening := if r.opensAt == r.closesAt then 0 else r.opensAt.value;
    if r.day == day && opening <= now then WEEK + opening - now else Ahead(day, r.day) * DAY + opening - now
  }

  /** It is silent until then, and running at that minute. */
  lemma QuietUntilStart(r: DayRow, day: Weekday, now: Minute)
    requires HasWindow(r) && !Active(r, day * DAY + now)
    ensures var w := day * DAY + now;
            && (forall v :: w <= v < w + UntilStart(r, day, now) ==> !Active(r, v))
            && Active(r, w + UntilStart(r, day, now))
    ensures UntilStart(r, day, now) > 0
  {
    var w, s, e := day * DAY + now, Start(r), UntilStart(r, day, now);
    var q := if r.day >= day && w + e == s then 0 else 1;
    assert w + e - s == q * WEEK && 0 < e <= WEEK;
    forall v | w <= v < w + e
      ensures !Active(r, v)
    {
      assert v - s == (q - 1) * WEEK + (WEEK - e + (v - w));
      assert (v - s) % WEEK == WEEK - e + (v - w);
      assert w - s == (q - 1) * WEEK + (WEEK - e);
      assert e < WEEK ==> (w - s) % WEEK == WEEK - e;
    }
  }

  /** With every row's next start at least `until` minutes away, nothing is accepted before that. */
  lemma AllQuiet(rows: seq<DayRow>, day: Weekday, now: Minute, until: int)
    requires UniqueDays(rows) && rows != [] && !SomeActive(rows, day * DAY + now)
    requires forall r :: r in rows && HasWindow(r) ==> until <= UntilStart(r, day, now)
    ensures var w := day * DAY + now; forall v :: w <= v < w + until ==> !AcceptsAt(true, rows, v)
  {
    var w := day * DAY + now;
    forall v | w <= v < w + until
      ensures !AcceptsAt(true, rows, v)
    {
      forall r | r in rows
        ensures !Active(r, v)
      {
        if HasWindow(r) {
          QuietUntilStart(r, day, now);
        }
      }
      AcceptsAtIff(true, rows, v);
    }
  }

  /** Of two rows that are not running, the one on the nearer day begins first; today's counts as the
      farthest once its opening time has passed. */
  lemma NearerDayFirst(row: DayRow, r: DayRow, day: Weekday, now: Minute)
    requires HasWindow(row) && HasWindow(r)
    requires !Active(row, day * DAY + now) && !Active(r, day * DAY + now)
    requires row.day == day ==> row.opensAt.value > now
    requires row == r || Ahead(day, row.day) < Ahead(day, r.day) || (r.day == day && r.opensAt.value <= now)
    ensures UntilStart(row, day, now) <= UntilStart(r, day, now)
  {
    ActiveSplit(row, day, now);
    ActiveSplit(r, day, now);
  }

  /** The row the scan stops at: the first to open again when the schedule says closed. */
  predicate FirstToOpen(rows: seq<DayRow>, day: Weekday, now: Minute, row: DayRow) {
    && row in rows && HasWindow(row)
    && (row.day == day ==> row.opensAt.value > now)
    && forall r :: r in rows && HasWindow(r) ==> UntilStart(row, day, now) <= UntilStart(r, day, now)
  }

  lemma ScanFindsFirst(rows: seq<DayRow>, day: Weekday, now: Minute, a: nat, d: Weekday)
    requires UniqueDays(rows) && WellFormed(rows) && !SomeActive(rows, day * DAY + now)
    requires a == ScanAhead(rows, day, now, 0) < 7 && d == (day + a) % 7
    ensures var row := ByDay(rows, d); row.Some? && row.value.day == d && FirstToOpen(rows, day, now, row.value)
  {
    ScanStopsAtFirst(rows, day, now, 0);
    ByDayFinds(rows, d);
    var row := ByDay(rows, d).value;
    AheadInverse(day, d, a);
    forall r | r in rows && HasWindow(r)
      ensures UntilStart(row, day, now) <= UntilStart(r, day, now)
    {
      SkippedRow(rows, day, now, r);
      if Ahead(day, r.day) == a {
        ByDayFinds(rows, r.day);
        AheadInverse(day, r.day, a);
      }
      NearerDayFirst(row, r, day, now);
    }
  }

  /** The reported opening is where the closed stretch really ends. */
  ghost predicate OpeningTrue(rows: seq<DayRow>, day: Weekday, now: Minute, d: Weekday, t: Minute) {
    var w := day * DAY + now;
    var opening := (day + Ahead(day, d)) * DAY + t;
    && (forall v :: w <= v < opening ==> !AcceptsAt(true, rows, v))
    && AcceptsAt(true, rows, opening)
  }

  lemma FirstOpeningTrueIff(rows: seq<DayRow>, day: Weekday, now: Minute, row: DayRow)
    requires UniqueDays(rows) && !SomeActive(rows, day * DAY + now) && FirstToOpen(rows, day, now, row)
    ensures OpeningTrue(rows, day, now, row.day, row.opensAt.value)
            <==> !(row.opensAt == row.closesAt && row.opensAt.value > 0)
  {
    var w := day * DAY + now;
    assert !Active(row, w);
    ActiveSplit(row, day, now);
    var first := UntilStart(row, day, now);
    AllQuiet(rows, day, now, first);
    QuietUntilStart(row, day, now);
    AcceptsAtIff(true, rows, w + first);
  }

  lemma ClosedReport(rows: seq<DayRow>, day: Weekday, now: Minute)
    requires UniqueDays(rows) && rows != [] && !ScheduleOf(true, rows, day, now).accepting
    ensures !SomeActive(rows, day * DAY + now)
    ensures var s := ScheduleOf(true, rows, day, now); (s.nextOpensDay, s.nextOpensAt) == NextOpen(rows, day, now)
  {
    AcceptsIffInWindow(true, rows, day, now);
  }

  lemma ReportedRowFirst(rows: seq<DayRow>, day: Weekday, now: Minute, d: Weekday, t: Minute)
    requires UniqueDays(rows) && WellFormed(rows) && !SomeActive(rows, day * DAY + now)
    requires NextOpen(rows, day, now) == (Some(d), Some(t))
    ensures var row := ByDay(rows, d);
            row.Some? && row.value.day == d && row.value.opensAt == Some(t) && FirstToOpen(rows, day, now, row.value)
  {
    ScanFindsFirst(rows, day, now, ScanAhead(rows, day, now, 0), d);
  }

  /** When closed by schedule, the reported opening is true, no order being accepted before it and one
      at it, if and only if it is not an all-day row whose equal times are later than midnight: such
      a day really opens at 00:00. */
  lemma NextOpeningTrueIff(rows: seq<DayRow>, day: Weekday, now: Minute, d: Weekday, t: Minute)
    requires UniqueDays(rows) && WellFormed(rows) && rows != []
    requires var s := ScheduleOf(true, rows, day, now);
             !s.accepting && s.nextOpensDay == Some(d) && s.nextOpensAt == Some(t)
    ensures ByDay(rows, d).Some? && HasWindow(ByDay(rows, d).value)
    ensures OpeningTrue(rows, day, now, d, t)
            <==> !(ByDay(rows, d).value.opensAt == ByDay(rows, d).value.closesAt && t > 0)
  {
    ClosedReport(rows, day, now);
    ReportedRowFirst(rows, day, now, d, t);
    FirstOpeningTrueIff(rows, day, now, ByDay(rows, d).value);
  }

  lemma PassedToday(r: DayRow, day: Weekday, now: Minute)
    requires HasWindow(r) && !Active(r, day * DAY + now) && r.day == day && r.opensAt.value <= now
    ensures WEEK - now <= UntilStart(r, day, now) < WEEK
    ensures Active(r, day * DAY + now + UntilStart(r, day, now))
  {
    ActiveSplit(r, day, now);
    QuietUntilStart(r, day, now);
  }

  /** Reporting no opening means closed until midnight a week from today's date. It does not mean
      closed all week: there is an opening within the next seven days exactly when today's own row
      has a window, which is then behind us today. */
  lemma NoOpeningReported(rows: seq<DayRow>, day: Weekday, now: Minute)
    requires UniqueDays(rows) && WellFormed(rows) && rows != []
    requires var s := ScheduleOf(true, rows, day, now); !s.accepting && s.nextOpensDay == None
    ensures var w := day * DAY + now; forall v :: w <= v < (day + 7) * DAY ==> !AcceptsAt(true, rows, v)
    ensures var w := day * DAY + now;
            (exists v :: w <= v < w + WEEK && AcceptsAt(true, rows, v))
            <==> exists r :: r in rows && r.day == day && HasWindow(r)
  {
    var w := day * DAY + now;
    AcceptsIffInWindow(true, rows, day, now);
    ScanStopsAtFirst(rows, day, now, 0);
    forall r | r in rows && HasWindow(r)
      ensures r.day == day && WEEK - now <= UntilStart(r, day, now) < WEEK
      ensures AcceptsAt(true, rows, w + UntilStart(r, day, now))
    {
      SkippedRow(rows, day, now, r);
      PassedToday(r, day, now);
      AcceptsAtIff(true, rows, w + UntilStart(r, day, now));
    }
    AllQuiet(rows, day, now, WEEK - now);
    if v :| w <= v < w + WEEK && AcceptsAt(true, rows, v) {
      AcceptsAtIff(true, rows, v);
    }
  }
}
