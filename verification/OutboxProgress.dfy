/** Which outbox rows get out at all (shared/outbox.py, lines 45-68): for one row, over every sequence of
    drains with new events recorded in between. */
module OutboxProgress {
  import opened Outbox

  datatype TableStep = DrainPass | NewEvent

  function Drains(steps: seq<TableStep>): nat {
    if steps == [] then 0 else Drains(steps[..|steps| - 1]) + if steps[|steps| - 1].DrainPass? then 1 else 0
  }

  function Along<T>(drain: T -> T, record: T -> T, x: T, steps: seq<TableStep>): T {
    if steps == [] then x
    else
      var before := Along(drain, record, x, steps[..|steps| - 1]);
      if steps[|steps| - 1].DrainPass? then drain(before) else record(before)
  }

  function Recorder(): seq<Row> -> seq<Row> {
    rows => rows + [Row(false, 0)]
  }

  /** The table after drains and recordings in any order. */
  function Passed(rows: seq<Row>, send: nat -> bool, limit: nat, steps: seq<TableStep>): (r: seq<Row>)
    ensures |r| >= |rows|
  {
    AlongKeeps(Drainer(send, limit), Recorder(), (r: seq<Row>) => |r| >= |rows|, rows, steps);
    Along(Drainer(send, limit), Recorder(), rows, steps)
  }

  lemma {:induction false} AlongKeeps<T>(drain: T -> T, record: T -> T, inv: T -> bool, x: T, steps: seq<TableStep>)
    requires inv(x) && forall y :: inv(y) ==> inv(drain(y)) && inv(record(y))
    ensures inv(Along(drain, record, x, steps))
  {
    if steps != [] {
      AlongKeeps(drain, record, inv, x, steps[..|steps| - 1]);
    }
  }

  /** Two values kept in relation, one of them blind to what is recorded. */
  lemma {:induction false} AlongRelates<T>(
      drain: T -> T, record: T -> T, rel: (T, T) -> bool, x: T, y: T, steps: seq<TableStep>)
    requires rel(x, y) && forall u, v :: rel(u, v) ==> rel(drain(u), drain(v)) && rel(record(u), v)
    ensures rel(Along(drain, record, x, steps), Times(drain, y, Drains(steps)))
  {
    if steps != [] {
      AlongRelates(drain, record, rel, x, y, steps[..|steps| - 1]);
    }
  }

  // ---------------------------------------------------------------- a row and what is in front of it

  /** The queue of the first k rows is the front of the queue, and everything behind it is at k or later. */
  predicate Fronts(p: seq<nat>, q: seq<nat>, k: nat) {
    && p <= q
    && (forall j :: 0 <= j < |p| ==> p[j] < k)
    && (forall j :: |p| <= j < |q| ==> q[j] >= k)
  }

  lemma {:induction false} PendingFronts(rows: seq<Row>, k: nat)
    requires k <= |rows|
    ensures Fronts(Pending(rows[..k]), Pending(rows), k)
  {
    if k == |rows| {
      assert rows[..k] == rows;
      PendingLists(rows);
    } else {
      var n := |rows| - 1;
      PendingFronts(rows[..n], k);
      assert rows[..n][..k] == rows[..k];
    }
  }

  lemma TakeFronts(p: seq<nat>, q: seq<nat>, k: nat, limit: nat, i: nat)
    requires Fronts(p, q, k) && i < k
    ensures i in Take(q, limit) <==> i in Take(p, limit)
  {
    if i in Take(q, limit) {
      var j :| 0 <= j < |Take(q, limit)| && Take(q, limit)[j] == i;
      assert q[j] == i && j < |p| && p[j] == q[j];
      assert Take(p, limit)[j] == i;
    }
    if i in Take(p, limit) {
      var j :| 0 <= j < |Take(p, limit)| && Take(p, limit)[j] == i;
      assert p[j] == i && q[j] == p[j];
      assert Take(q, limit)[j] == i;
    }
  }

  /** What a drain does to the first k rows does not depend on the others. */
  lemma {:induction false} DrainedFront(rows: seq<Row>, send: nat -> bool, limit: nat, k: nat)
    requires k <= |rows|
    ensures Drained(rows, send, limit)[..k] == Drained(rows[..k], send, limit)
  {
    PendingFronts(rows, k);
    forall i | 0 <= i < k
      ensures Drained(rows, send, limit)[i] == Drained(rows[..k], send, limit)[i]
    {
      TakeFronts(Pending(rows[..k]), Pending(rows), k, limit, i);
    }
  }

  /** A waiting row is in the batch exactly when fewer than `limit` unpublished rows are in front of it. */
  lemma {:induction false} InBatchIff(rows: seq<Row>, limit: nat, i: nat, q: seq<nat>)
    requires i < |rows| && !rows[i].published && q == Pending(rows)
    ensures i in Take(q, limit) <==> |Pending(rows[..i])| < limit
  {
    var p := Pending(rows[..i]);
    PendingFronts(rows, i);
    PendingFronts(rows, i + 1);
    assert rows[..i + 1][..i] == rows[..i];
    assert Pending(rows[..i + 1]) == p + [i];
    PlaceInBatch(p, q, limit, i);
  }

  lemma PlaceInBatch(p: seq<nat>, q: seq<nat>, limit: nat, i: nat)
    requires Fronts(p, q, i) && Fronts(p + [i], q, i + 1)
    ensures i in Take(q, limit) <==> |p| < limit
  {
    assert q[|p|] == (p + [i])[|p|];
    if |p| < limit {
      assert Take(q, limit)[|p|] == i;
    }
    if i in Take(q, limit) {
      var j :| 0 <= j < |Take(q, limit)| && Take(q, limit)[j] == i;
      assert q[j] == i;
    }
  }

  lemma {:induction false} DrainReaches(rows: seq<Row>, send: nat -> bool, limit: nat, i: nat)
    requires i < |rows| && send(i)
    ensures Drained(rows, send, limit)[i].published
            <==> rows[i].published || Waiting(rows[..i], send) + Failing(rows[..i], send) < limit
  {
    var q := Pending(rows);
    PendingLists(rows);
    CountsAddUp(Pending(rows[..i]), send);
    if rows[i].published {
      PublishedNotListed(rows, q, limit, i);
    } else {
      InBatchIff(rows, limit, i, q);
    }
  }

  lemma PublishedNotListed(rows: seq<Row>, q: seq<nat>, limit: nat, i: nat)
    requires Lists(rows, q) && i < |rows| && rows[i].published
    ensures i !in Take(q, limit)
  {
    forall j | 0 <= j < |Take(q, limit)|
      ensures Take(q, limit)[j] != i
    {
      assert Take(q, limit)[j] == q[j];
    }
  }

  lemma {:induction false} DrainOnce(front: seq<Row>, send: nat -> bool, limit: nat, n: nat)
    ensures DrainTimes(front, send, limit, n + 1) == Drained(DrainTimes(front, send, limit, n), send, limit)
  {
  }

  predicate Begins(front: seq<Row>, rows: seq<Row>, k: nat) {
    |front| == k && front <= rows
  }

  lemma {:induction false} DrainBegins(rows: seq<Row>, front: seq<Row>, send: nat -> bool, limit: nat, k: nat)
    requires Begins(front, rows, k)
    ensures Begins(Drained(front, send, limit), Drained(rows, send, limit), k)
  {
    DrainedFront(rows, send, limit, k);
    assert rows[..k] == front;
  }

  /** Whatever the steps, the first k rows are where the drains alone bring them. */
  lemma {:induction false} FrontAfter(rows: seq<Row>, send: nat -> bool, limit: nat, steps: seq<TableStep>, k: nat)
    requires k <= |rows|
    ensures Passed(rows, send, limit, steps)[..k] == DrainTimes(rows[..k], send, limit, Drains(steps))
  {
    var f, g := Drainer(send, limit), Recorder();
    var rel := (u: seq<Row>, v: seq<Row>) => Begins(v, u, k);
    forall u, v | rel(u, v)
      ensures rel(f(u), f(v)) && rel(g(u), v)
    {
      DrainBegins(u, v, send, limit, k);
    }
    AlongRelates(f, g, rel, rows, rows[..k], steps);
  }

  lemma {:induction false} TimesRelates<T>(f: T -> T, rel: (T, T) -> bool, x: T, y: T, n: nat)
    requires rel(x, y) && forall u, v :: rel(u, v) ==> rel(f(u), f(v))
    ensures rel(Times(f, x, n), Times(f, y, n))
  {
    if n > 0 {
      TimesRelates(f, rel, x, y, n - 1);
    }
  }

  lemma {:induction false} FrontOfDrained(rows: seq<Row>, front: seq<Row>, send: nat -> bool, limit: nat, n: nat, k: nat)
    requires Begins(front, rows, k)
    ensures |DrainTimes(rows, send, limit, n)| == |rows|
    ensures Begins(DrainTimes(front, send, limit, n), DrainTimes(rows, send, limit, n), k)
  {
    var f, size := Drainer(send, limit), |rows|;
    var rel := (u: seq<Row>, v: seq<Row>) => |u| == size && Begins(v, u, k);
    forall u, v | rel(u, v)
      ensures rel(f(u), f(v))
    {
      DrainBegins(u, v, send, limit, k);
    }
    TimesRelates(f, rel, rows, front, n);
  }

  // ---------------------------------------------------------------- how the front shrinks

  lemma {:induction false} FailingStays(front: seq<Row>, send: nat -> bool, limit: nat, n: nat, failing: nat)
    requires Failing(front, send) == failing
    ensures Failing(DrainTimes(front, send, limit, n), send) == failing
  {
    var f, inv := Drainer(send, limit), (r: seq<Row>) => Failing(r, send) == failing;
    forall y | inv(y)
      ensures inv(f(y))
    {
      DrainProgress(y, send, limit);
    }
    TimesKeeps(f, inv, front, n);
  }

  lemma {:induction false} FrontShrinks(front: seq<Row>, send: nat -> bool, limit: nat, gain: nat, n: nat)
    requires Failing(front, send) + gain == limit
    ensures Waiting(DrainTimes(front, send, limit, n), send) <= LeftAfter(Waiting(front, send), gain, n)
  {
    var f, m := Drainer(send, limit), (r: seq<Row>) => Waiting(r, send);
    var inv := (r: seq<Row>) => Failing(r, send) + gain == limit;
    forall y | inv(y)
      ensures inv(f(y)) && (m(f(y)) == 0 || m(f(y)) + gain <= m(y))
    {
      DrainGains(y, send, limit, gain);
    }
    TimesShrinks(f, inv, m, front, gain, n);
  }

  lemma AlmostThere(start: nat, gain: nat, n: nat)
    requires n > 0 && n * gain > start
    ensures LeftAfter(start, gain, n - 1) < gain
  {
    LeftAfterCloses(start, gain, n - 1);
    assert n * gain == (n - 1) * gain + gain;
  }

  // ---------------------------------------------------------------- the main results

  /** A row of a table on its own is a row of the table that ends with it. */
  lemma {:induction false} LastRowOf(rows: seq<Row>, send: nat -> bool, limit: nat, steps: seq<TableStep>, i: nat)
    requires i < |rows|
    ensures |DrainTimes(rows[..i + 1], send, limit, Drains(steps))| == i + 1
    ensures Passed(rows, send, limit, steps)[i] == DrainTimes(rows[..i + 1], send, limit, Drains(steps))[i]
  {
    FrontAfter(rows, send, limit, steps, i + 1);
    var r := Passed(rows, send, limit, steps);
    assert r[i] == r[..i + 1][i];
  }

  lemma {:induction false} FrontNearlyClear(front: seq<Row>, send: nat -> bool, limit: nat, gain: nat, m: nat)
    requires Failing(front, send) + gain == limit && LeftAfter(Waiting(front, send), gain, m) < gain
    ensures var left := DrainTimes(front, send, limit, m);
            Waiting(left, send) + Failing(left, send) < limit
  {
    FrontShrinks(front, send, limit, gain, m);
    FailingStays(front, send, limit, m, Failing(front, send));
  }

  lemma {:induction false} ReachedNext(before: seq<Row>, front: seq<Row>, send: nat -> bool, limit: nat, i: nat)
    requires |before| == i + 1 && Begins(front, before, i) && send(i)
    requires Waiting(front, send) + Failing(front, send) < limit
    ensures Drained(before, send, limit)[i].published
  {
    assert before[..i] == front;
    DrainReaches(before, send, limit, i);
  }

  lemma {:induction false} LastOutInTime(rows: seq<Row>, send: nat -> bool, limit: nat, i: nat, front: seq<Row>, gain: nat, m: nat)
    requires |rows| == i + 1 && Begins(front, rows, i) && send(i) && Failing(front, send) + gain == limit
    requires LeftAfter(Waiting(front, send), gain, m) < gain
    ensures |DrainTimes(rows, send, limit, m + 1)| == i + 1 && DrainTimes(rows, send, limit, m + 1)[i].published
  {
    FrontOfDrained(rows, front, send, limit, m, i);
    FrontNearlyClear(front, send, limit, gain, m);
    ReachedNext(DrainTimes(rows, send, limit, m), DrainTimes(front, send, limit, m), send, limit, i);
    DrainOnce(rows, send, limit, m);
  }

  lemma {:induction false} OutOnceNearlyClear(
      rows: seq<Row>, send: nat -> bool, limit: nat, steps: seq<TableStep>, i: nat, gain: nat, m: nat)
    requires i < |rows| && send(i) && Failing(rows[..i], send) + gain == limit
    requires Drains(steps) == m + 1 && LeftAfter(Waiting(rows[..i], send), gain, m) < gain
    ensures Passed(rows, send, limit, steps)[i].published
  {
    LastRowOf(rows, send, limit, steps, i);
    LastOutInTime(rows[..i + 1], send, limit, i, rows[..i], gain, m);
  }

  /** With P permanently failing rows in front of it, P < B, and S sendable ones, a row the broker takes is
      out after any steps with n drains, n * (B - P) > S, whatever is recorded or failing behind it. */
  lemma {:induction false} OutInTime(
      rows: seq<Row>, send: nat -> bool, limit: nat, steps: seq<TableStep>, i: nat, gain: nat)
    requires i < |rows| && send(i) && Failing(rows[..i], send) + gain == limit
    requires Drains(steps) * gain > Waiting(rows[..i], send)
    ensures Passed(rows, send, limit, steps)[i].published
  {
    var n := Drains(steps);
    assert n > 0;
    AlmostThere(Waiting(rows[..i], send), gain, n);
    OutOnceNearlyClear(rows, send, limit, steps, i, gain, n - 1);
  }

  /** The last row waits behind `limit` or more that fail. */
  predicate StuckBehind(rows: seq<Row>, send: nat -> bool, limit: nat, i: nat) {
    |rows| == i + 1 && !rows[i].published && Failing(rows[..i], send) >= limit
  }

  lemma {:induction false} StaysBehind(rows: seq<Row>, send: nat -> bool, limit: nat, i: nat)
    requires StuckBehind(rows, send, limit, i) && send(i)
    ensures StuckBehind(Drained(rows, send, limit), send, limit, i)
  {
    DrainReaches(rows, send, limit, i);
    DrainedFront(rows, send, limit, i);
    DrainProgress(rows[..i], send, limit);
  }

  /** With B or more of them in front of it, it is never sent. */
  lemma {:induction false} NeverOut(rows: seq<Row>, send: nat -> bool, limit: nat, steps: seq<TableStep>, i: nat)
    requires i < |rows| && send(i) && !rows[i].published && Failing(rows[..i], send) >= limit
    ensures !Passed(rows, send, limit, steps)[i].published
  {
    LastRowOf(rows, send, limit, steps, i);
    assert rows[..i + 1][..i] == rows[..i];
    var f, inv := Drainer(send, limit), (r: seq<Row>) => StuckBehind(r, send, limit, i);
    forall y | inv(y)
      ensures inv(f(y))
    {
      StaysBehind(y, send, limit, i);
    }
    TimesKeeps(f, inv, rows[..i + 1], Drains(steps));
  }

  function Repeated(n: nat): (steps: seq<TableStep>)
    ensures Drains(steps) == n
  {
    if n == 0 then []
    else
      var init := Repeated(n - 1);
      assert (init + [DrainPass])[..|init|] == init;
      init + [DrainPass]
  }

  /** So a waiting row that the broker takes gets out at all if and only if fewer than B permanently
      failing rows are in front of it. */
  lemma {:induction false} RowGoesOutIff(rows: seq<Row>, send: nat -> bool, limit: nat, i: nat)
    requires i < |rows| && send(i) && !rows[i].published
    ensures (exists steps :: Passed(rows, send, limit, steps)[i].published) <==> Failing(rows[..i], send) < limit
  {
    if Failing(rows[..i], send) < limit {
      var gain, n := limit - Failing(rows[..i], send), Waiting(rows[..i], send) + 1;
      assert n * gain >= n;
      OutInTime(rows, send, limit, Repeated(n), i, gain);
    } else {
      forall steps
        ensures !Passed(rows, send, limit, steps)[i].published
      {
        NeverOut(rows, send, limit, steps, i);
      }
    }
  }

  // ---------------------------------------------------------------- the order on the wire

  /** What one drain puts on the wire. */
  function DrainWire(rows: seq<Row>, send: nat -> bool, limit: nat): seq<nat> {
    Wire(Take(Pending(rows), limit), send)
  }

  /** `n` rows just recorded. */
  function Recorded(n: nat): seq<Row> {
    seq(n, _ => Row(false, 0))
  }

  function UpTo(from: nat, n: nat): seq<nat> {
    seq(n, i requires 0 <= i => from + i)
  }

  lemma {:induction false} RecordedPending(n: nat)
    ensures Pending(Recorded(n)) == UpTo(0, n)
  {
    if n > 0 {
      RecordedPending(n - 1);
      assert Recorded(n)[..n - 1] == Recorded(n - 1);
      assert UpTo(0, n) == UpTo(0, n - 1) + [n - 1];
    }
  }

  lemma {:induction false} WireAllButFirst(n: nat, send: nat -> bool)
    requires RefusesFirst(send)
    ensures Wire(UpTo(0, n + 1), send) == UpTo(1, n)
  {
    if n == 0 {
      assert UpTo(0, 1)[..0] == [];
    } else {
      WireAllButFirst(n - 1, send);
      assert UpTo(0, n + 1)[..n] == UpTo(0, n);
      assert UpTo(1, n) == UpTo(1, n - 1) + [n];
    }
  }

  lemma {:induction false} KeepOnlyFirst(n: nat, gone: set<nat>)
    requires 0 !in gone && forall i :: 0 < i <= n ==> i in gone
    ensures Keep(UpTo(0, n + 1), gone) == [0]
  {
    if n == 0 {
      assert UpTo(0, 1)[..0] == [];
    } else {
      KeepOnlyFirst(n - 1, gone);
      assert UpTo(0, n + 1)[..n] == UpTo(0, n);
    }
  }

  ghost predicate RefusesFirst(send: nat -> bool) {
    !send(0) && forall i: nat :: i > 0 ==> send(i)
  }

  lemma {:induction false} FirstStaysBehind(n: nat, send: nat -> bool, limit: nat, q: seq<nat>)
    requires n < limit && RefusesFirst(send) && q == UpTo(0, n + 1)
    ensures Pending(Drained(Recorded(n + 1), send, limit)) == [0]
  {
    RecordedPending(n + 1);
    DrainLeaves(Recorded(n + 1), send, limit, q, q);
    forall i: nat | 0 < i <= n
      ensures i in SentOf(q, send)
    {
      assert q[i] == i;
    }
    KeepOnlyFirst(n, SentOf(q, send));
  }

  lemma {:induction false} OthersGoOut(n: nat, send: nat -> bool, limit: nat)
    requires n < limit && RefusesFirst(send)
    ensures DrainWire(Recorded(n + 1), send, limit) == UpTo(1, n)
  {
    RecordedPending(n + 1);
    WireAllButFirst(n, send);
  }

  /** A row refused once goes out behind everything recorded after it: the broker sees the messages of one
      outbox out of order. */
  lemma {:induction false} RetriedRowGoesLast(n: nat, first: nat -> bool, second: nat -> bool, limit: nat)
    requires n < limit && RefusesFirst(first) && second(0)
    ensures var rows := Recorded(n + 1);
            DrainWire(rows, first, limit) + DrainWire(Drained(rows, first, limit), second, limit) == UpTo(1, n) + [0]
  {
    var q := UpTo(0, n + 1);
    OthersGoOut(n, first, limit);
    FirstStaysBehind(n, first, limit, q);
    WireOfOne(Drained(Recorded(n + 1), first, limit), second, limit);
  }

  lemma WireOfOne(rows: seq<Row>, send: nat -> bool, limit: nat)
    requires Pending(rows) == [0] && send(0) && limit > 0
    ensures DrainWire(rows, send, limit) == [0]
  {
    assert [0][..0] == [];
  }

  // ---------------------------------------------------------------- attempts

  /** A drain either marks a waiting row within its reach or counts one attempt more on it, as the broker
      answers, and leaves every other row alone. */
  lemma {:induction false} DrainRowLaw(rows: seq<Row>, send: nat -> bool, limit: nat, i: nat)
    requires i < |rows|
    ensures var n := Drained(rows, send, limit)[i];
            if rows[i].published || |Pending(rows[..i])| >= limit then n == rows[i]
            else if send(i) then n == Row(true, rows[i].attempts)
            else n == Row(false, rows[i].attempts + 1)
  {
    PendingLists(rows);
    if rows[i].published {
      PublishedNotListed(rows, Pending(rows), limit, i);
    } else {
      InBatchIff(rows, limit, i, Pending(rows));
    }
  }
}
