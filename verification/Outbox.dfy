/** The transactional outbox table and one pass of its relay (shared/outbox.py). A row's id is its
    position: rows are only ever appended. */
module Outbox {

  datatype Row = Row(published: bool, attempts: nat)

  /** Ids of the unpublished rows, in order. */
  function Pending(rows: seq<Row>): seq<nat> {
    if rows == [] then []
    else Pending(rows[..|rows| - 1]) + if rows[|rows| - 1].published then [] else [|rows| - 1]
  }

  function Take(q: seq<nat>, limit: nat): seq<nat> {
    if |q| <= limit then q else q[..limit]
  }

  /** How many of the ids the broker takes, and how many it refuses. */
  function Sendable(q: seq<nat>, send: nat -> bool): nat {
    if q == [] then 0 else Sendable(q[..|q| - 1], send) + if send(q[|q| - 1]) then 1 else 0
  }

  /** What the broker gets of them, in order. */
  function Wire(q: seq<nat>, send: nat -> bool): seq<nat> {
    if q == [] then [] else Wire(q[..|q| - 1], send) + if send(q[|q| - 1]) then [q[|q| - 1]] else []
  }

  function Stuck(q: seq<nat>, send: nat -> bool): nat {
    if q == [] then 0 else Stuck(q[..|q| - 1], send) + if send(q[|q| - 1]) then 0 else 1
  }

  function Tried(row: Row, sent: bool): Row {
    if sent then row.(published := true) else row.(attempts := row.attempts + 1)
  }

  /** The table after one batch: what was sent is marked, what failed is counted, the rest untouched. */
  function Drained(rows: seq<Row>, send: nat -> bool, limit: nat): (r: seq<Row>)
    ensures |r| == |rows|
  {
    var batch := Take(Pending(rows), limit);
    seq(|rows|, i requires 0 <= i < |rows| => if i in batch then Tried(rows[i], send(i)) else rows[i])
  }

  /** The ids of unpublished rows and no others, each once, in order. */
  predicate Lists(rows: seq<Row>, q: seq<nat>) {
    && (forall k :: 0 <= k < |q| ==> q[k] < |rows| && !rows[q[k]].published)
    && (forall k, l :: 0 <= k < l < |q| ==> q[k] < q[l])
    && (forall i :: 0 <= i < |rows| && !rows[i].published ==> i in q)
  }

  lemma {:induction false} PendingLists(rows: seq<Row>)
    ensures Lists(rows, Pending(rows))
  {
    if rows != [] {
      var n := |rows| - 1;
      PendingLists(rows[..n]);
      ListsOneMore(rows, Pending(rows[..n]), Pending(rows));
    }
  }

  lemma ListsOneMore(rows: seq<Row>, p: seq<nat>, q: seq<nat>)
    requires rows != [] && Lists(rows[..|rows| - 1], p)
    requires q == p + if rows[|rows| - 1].published then [] else [|rows| - 1]
    ensures Lists(rows, q)
  {
    var n := |rows| - 1;
    assert forall k :: 0 <= k < |p| ==> q[k] == p[k] && rows[..n][p[k]] == rows[p[k]];
    forall i | 0 <= i < |rows| && !rows[i].published
      ensures i in q
    {
      assert i < n ==> rows[..n][i] == rows[i] && i in p;
    }
  }

  lemma {:induction false} BatchIds(rows: seq<Row>, limit: nat, batch: seq<nat>)
    requires batch == Take(Pending(rows), limit)
    ensures forall k :: 0 <= k < |batch| ==> batch[k] < |rows|
    ensures forall k, l :: 0 <= k < l < |batch| ==> batch[k] != batch[l]
  {
    PendingLists(rows);
    PrefixLists(rows, Pending(rows), batch);
  }

  lemma PrefixLists(rows: seq<Row>, q: seq<nat>, batch: seq<nat>)
    requires Lists(rows, q) && batch <= q
    ensures forall k :: 0 <= k < |batch| ==> batch[k] < |rows|
    ensures forall k, l :: 0 <= k < l < |batch| ==> batch[k] != batch[l]
  {
    assert forall k :: 0 <= k < |batch| ==> batch[k] == q[k];
  }

  /** The first k ids of the batch have been tried, nothing else has changed. */
  predicate TriedUpTo(rows: seq<Row>, now: seq<Row>, batch: seq<nat>, k: nat, send: nat -> bool)
    requires k <= |batch| && forall l :: 0 <= l < |batch| ==> batch[l] < |rows|
  {
    && |now| == |rows|
    && (forall l :: 0 <= l < k ==> now[batch[l]] == Tried(rows[batch[l]], send(batch[l])))
    && (forall l :: k <= l < |batch| ==> now[batch[l]] == rows[batch[l]])
    && (forall i :: 0 <= i < |rows| && i !in batch ==> now[i] == rows[i])
  }

  lemma TriedOneMore(rows: seq<Row>, now: seq<Row>, batch: seq<nat>, k: nat, send: nat -> bool)
    requires k < |batch| && forall l :: 0 <= l < |batch| ==> batch[l] < |rows|
    requires forall i, j :: 0 <= i < j < |batch| ==> batch[i] != batch[j]
    requires TriedUpTo(rows, now, batch, k, send)
    ensures TriedUpTo(rows, now[batch[k] := Tried(now[batch[k]], send(batch[k]))], batch, k + 1, send)
  {
    assert batch[k] in batch;
  }

  lemma TriedAll(rows: seq<Row>, now: seq<Row>, batch: seq<nat>, limit: nat, send: nat -> bool)
    requires batch == Take(Pending(rows), limit) && forall l :: 0 <= l < |batch| ==> batch[l] < |rows|
    requires TriedUpTo(rows, now, batch, |batch|, send)
    ensures now == Drained(rows, send, limit)
  {
    forall i | 0 <= i < |rows|
      ensures now[i] == Drained(rows, send, limit)[i]
    {
      if i in batch {
        var l :| 0 <= l < |batch| && batch[l] == i;
      }
    }
  }

  lemma {:induction false} WireCounts(q: seq<nat>, send: nat -> bool)
    ensures |Wire(q, send)| == Sendable(q, send)
  {
    if q != [] {
      WireCounts(q[..|q| - 1], send);
    }
  }

  /** The send loop over one batch: marks or counts each row, and says what went out. */
  method SendBatch(rows: seq<Row>, batch: seq<nat>, send: nat -> bool) returns (after: seq<Row>, sent: seq<nat>)
    requires forall k :: 0 <= k < |batch| ==> batch[k] < |rows|
    requires forall k, l :: 0 <= k < l < |batch| ==> batch[k] != batch[l]
    ensures TriedUpTo(rows, after, batch, |batch|, send)
    ensures sent == Wire(batch, send)
  {
    after, sent := rows, [];
    for k := 0 to |batch|
      invariant TriedUpTo(rows, after, batch, k, send)
      invariant sent == Wire(batch[..k], send)
    {
      var id := batch[k];
      TriedOneMore(rows, after, batch, k, send);
      if send(id) {
        after := after[id := after[id].(published := true)];
        sent := sent + [id];
      } else {
        after := after[id := after[id].(attempts := after[id].attempts + 1)];
      }
      assert batch[..k + 1][..k] == batch[..k];
    }
    assert batch[..|batch|] == batch;
  }

  class OutboxTable {
    var rows: seq<Row>
    var wire: seq<nat>

    constructor ()
      ensures rows == [] && wire == []
    {
      rows, wire := [], [];
    }

    method RecordEvent()
      modifies this`rows
      ensures rows == old(rows) + [Row(false, 0)]
    {
      rows := rows + [Row(false, 0)];
    }

    /** Publishes one batch of unpublished rows and returns how many went out. A row that fails is left
        for the next pass without holding up the rest of its batch. The marks are committed together. */
    method Drain(send: nat -> bool, limit: nat) returns (published: nat)
      modifies this
      ensures rows == Drained(old(rows), send, limit)
      ensures published == Sendable(Take(Pending(old(rows)), limit), send)
      ensures wire == old(wire) + Wire(Take(Pending(old(rows)), limit), send)
    {
      var batch := Take(Pending(rows), limit);
      BatchIds(rows, limit, batch);
      var after, sent := SendBatch(rows, batch, send);
      TriedAll(rows, after, batch, limit, send);
      WireCounts(batch, send);
      rows, wire := after, wire + sent;
      published := |sent|;
    }
  }

  // ---------------------------------------------------------------- progress

  /** The ids that are still there once the sent ones have gone. */
  function Keep(q: seq<nat>, sent: set<nat>): seq<nat> {
    if q == [] then [] else Keep(q[..|q| - 1], sent) + if q[|q| - 1] in sent then [] else [q[|q| - 1]]
  }

  function SentOf(batch: seq<nat>, send: nat -> bool): set<nat> {
    set i | i in batch && send(i)
  }

  lemma {:induction false} PendingAfter(rows: seq<Row>, after: seq<Row>, sent: set<nat>)
    requires |after| == |rows|
    requires forall i :: 0 <= i < |rows| ==> (after[i].published <==> rows[i].published || i in sent)
    ensures Pending(after) == Keep(Pending(rows), sent)
  {
    if rows != [] {
      var n := |rows| - 1;
      PendingAfter(rows[..n], after[..n], sent);
      var q := Pending(rows[..n]);
      assert (q + [n])[..|q|] == q && q + [] == q;
      assert Keep(q, sent) + [] == Keep(q, sent);
      assert Keep(q + [n], sent) == Keep(q, sent) + if n in sent then [] else [n];
    }
  }

  lemma {:induction false} Split(q: seq<nat>, k: nat, send: nat -> bool, sent: set<nat>)
    requires k <= |q|
    ensures Sendable(q, send) == Sendable(q[..k], send) + Sendable(q[k..], send)
    ensures Stuck(q, send) == Stuck(q[..k], send) + Stuck(q[k..], send)
    ensures Keep(q, sent) == Keep(q[..k], sent) + Keep(q[k..], sent)
  {
    if k < |q| {
      var init := q[..|q| - 1];
      Split(init, k, send, sent);
      assert init[..k] == q[..k] && init[k..] == q[k..][..|q[k..]| - 1];
    } else {
      assert q[..k] == q && q[k..] == [];
    }
  }

  /** Of a batch the failures remain; of ids outside it, everything. */
  lemma {:induction false} KeepBatch(q: seq<nat>, send: nat -> bool, sent: set<nat>)
    requires forall i :: i in q ==> (i in sent <==> send(i))
    ensures Sendable(Keep(q, sent), send) == 0 && Stuck(Keep(q, sent), send) == Stuck(q, send)
  {
    if q != [] {
      var init, last := q[..|q| - 1], q[|q| - 1];
      KeepBatch(init, send, sent);
      var kept := Keep(init, sent);
      assert (kept + [last])[..|kept|] == kept && kept + [] == kept;
      assert Keep(q, sent) == if last in sent then kept else kept + [last];
      assert last in q && forall i :: i in init ==> i in q;
    }
  }

  lemma {:induction false} KeepOutside(q: seq<nat>, sent: set<nat>)
    requires forall i :: i in q ==> i !in sent
    ensures Keep(q, sent) == q
  {
    if q != [] {
      KeepOutside(q[..|q| - 1], sent);
    }
  }

  /** Of a queue whose batch was tried, the batch's failures and everything behind it remain. */
  lemma {:induction false} KeepAfterBatch(q: seq<nat>, batch: seq<nat>, rest: seq<nat>, send: nat -> bool, sent: set<nat>)
    requires q == batch + rest && sent == SentOf(batch, send)
    requires forall i :: i in rest ==> i !in batch
    ensures Sendable(q, send) == Sendable(batch, send) + Sendable(rest, send)
    ensures Stuck(q, send) == Stuck(batch, send) + Stuck(rest, send)
    ensures Sendable(Keep(q, sent), send) == Sendable(rest, send)
    ensures Stuck(Keep(q, sent), send) == Stuck(q, send)
  {
    var k := |batch|;
    assert q[..k] == batch && q[k..] == rest;
    Split(q, k, send, sent);
    KeepBatch(batch, send, sent);
    KeepOutside(rest, sent);
    var kept := Keep(batch, sent);
    assert (kept + rest)[..|kept|] == kept && (kept + rest)[|kept|..] == rest;
    Split(kept + rest, |kept|, send, sent);
  }

  lemma {:induction false} CountsAddUp(q: seq<nat>, send: nat -> bool)
    ensures Sendable(q, send) + Stuck(q, send) == |q|
  {
    if q != [] {
      CountsAddUp(q[..|q| - 1], send);
    }
  }

  lemma BatchApart(rows: seq<Row>, q: seq<nat>, k: nat)
    requires Lists(rows, q) && k <= |q|
    ensures forall i :: i in q[k..] ==> i !in q[..k]
  {
    forall i | i in q[k..]
      ensures i !in q[..k]
    {
      var j :| 0 <= j < |q[k..]| && q[k..][j] == i;
      assert q[k + j] == i;
    }
  }

  lemma {:induction false} DrainLeaves(rows: seq<Row>, send: nat -> bool, limit: nat, q: seq<nat>, batch: seq<nat>)
    requires q == Pending(rows) && batch == Take(q, limit)
    ensures Pending(Drained(rows, send, limit)) == Keep(q, SentOf(batch, send))
  {
    PendingAfter(rows, Drained(rows, send, limit), SentOf(batch, send));
  }

  /** One drain publishes at least min(S, B - P) of S sendable rows past P permanently failing ones,
      exactly as many as it reports, and leaves the failing ones where they are. */
  lemma {:induction false} DrainProgress(rows: seq<Row>, send: nat -> bool, limit: nat)
    ensures var q, left := Pending(rows), Pending(Drained(rows, send, limit));
            var published := Sendable(Take(q, limit), send);
            && Sendable(left, send) == Sendable(q, send) - published
            && Stuck(left, send) == Stuck(q, send)
            && (published >= Sendable(q, send) || published >= limit - Stuck(q, send))
  {
    var q := Pending(rows);
    var batch := Take(q, limit);
    PendingLists(rows);
    assert batch == q[..|batch|];
    BatchApart(rows, q, |batch|);
    KeepAfterBatch(q, batch, q[|batch|..], send, SentOf(batch, send));
    DrainLeaves(rows, send, limit, q, batch);
    CountsAddUp(batch, send);
  }

  function Times<T>(f: T -> T, x: T, n: nat): T {
    if n == 0 then x else f(Times(f, x, n - 1))
  }

  function Drainer(send: nat -> bool, limit: nat): seq<Row> -> seq<Row> {
    rows => Drained(rows, send, limit)
  }

  function DrainTimes(rows: seq<Row>, send: nat -> bool, limit: nat, n: nat): seq<Row> {
    Times(Drainer(send, limit), rows, n)
  }

  /** Unpublished rows the broker would take, and those it refuses every time. */
  function Waiting(rows: seq<Row>, send: nat -> bool): nat {
    Sendable(Pending(rows), send)
  }

  function Failing(rows: seq<Row>, send: nat -> bool): nat {
    Stuck(Pending(rows), send)
  }

  lemma DrainGains(rows: seq<Row>, send: nat -> bool, limit: nat, gain: nat)
    requires Failing(rows, send) + gain == limit
    ensures Failing(Drained(rows, send, limit), send) == Failing(rows, send)
    ensures Waiting(Drained(rows, send, limit), send) == 0
            || Waiting(Drained(rows, send, limit), send) + gain <= Waiting(rows, send)
  {
    DrainProgress(rows, send, limit);
  }

  /** What is left of `start` when each of `n` drains takes `gain`, or all there is. */
  function LeftAfter(start: nat, gain: nat, n: nat): nat {
    if n == 0 then start
    else
      var before := LeftAfter(start, gain, n - 1);
      if before <= gain then 0 else before - gain
  }

  lemma {:induction false} LeftAfterCloses(start: nat, gain: nat, n: nat)
    ensures LeftAfter(start, gain, n) == if n * gain >= start then 0 else start - n * gain
  {
    if n > 0 {
      LeftAfterCloses(start, gain, n - 1);
      assert n * gain == (n - 1) * gain + gain;
    }
  }

  /** Whatever loses `gain`, or all it has, each time. */
  lemma {:induction false} TimesShrinks<T>(f: T -> T, inv: T -> bool, m: T -> nat, x: T, gain: nat, n: nat)
    requires inv(x) && forall y :: inv(y) ==> inv(f(y)) && (m(f(y)) == 0 || m(f(y)) + gain <= m(y))
    ensures inv(Times(f, x, n)) && m(Times(f, x, n)) <= LeftAfter(m(x), gain, n)
  {
    if n > 0 {
      TimesShrinks(f, inv, m, x, gain, n - 1);
    }
  }

  /** With fewer failing rows P than the batch size B, every sendable row is out after any number n of
      drains with n * (B - P) at least the number of sendable rows; the failing ones stay. */
  lemma {:induction false} BacklogClears(rows: seq<Row>, send: nat -> bool, limit: nat, gain: nat, n: nat)
    requires Failing(rows, send) + gain == limit
    requires n * gain >= Waiting(rows, send)
    ensures Waiting(DrainTimes(rows, send, limit, n), send) == 0
    ensures Failing(DrainTimes(rows, send, limit, n), send) == Failing(rows, send)
  {
    var f, m := Drainer(send, limit), (r: seq<Row>) => Waiting(r, send);
    var inv := (r: seq<Row>) => Failing(r, send) + gain == limit;
    forall y | inv(y)
      ensures inv(f(y)) && (m(f(y)) == 0 || m(f(y)) + gain <= m(y))
    {
      DrainGains(y, send, limit, gain);
    }
    TimesShrinks(f, inv, m, rows, gain, n);
    LeftAfterCloses(Waiting(rows, send), gain, n);
  }

  /** The oldest `limit` unpublished rows all fail. */
  predicate Blocked(q: seq<nat>, send: nat -> bool, limit: nat) {
    forall i :: i in Take(q, limit) ==> !send(i)
  }

  lemma {:induction false} NothingLeaves(rows: seq<Row>, send: nat -> bool, limit: nat, q: seq<nat>)
    requires q == Pending(rows) && Blocked(q, send, limit)
    ensures Pending(Drained(rows, send, limit)) == q
  {
    PendingAfter(rows, Drained(rows, send, limit), {});
    KeepOutside(q, {});
  }

  lemma {:induction false} TimesKeeps<T>(f: T -> T, inv: T -> bool, x: T, n: nat)
    requires inv(x) && forall y :: inv(y) ==> inv(f(y))
    ensures inv(Times(f, x, n))
  {
    if n > 0 {
      TimesKeeps(f, inv, x, n - 1);
    }
  }

  /** Once the oldest B unpublished rows all fail, no drain publishes anything, however often it is
      repeated and whatever waits behind them. */
  lemma {:induction false} Starved(rows: seq<Row>, send: nat -> bool, limit: nat, n: nat)
    requires Blocked(Pending(rows), send, limit)
    ensures Pending(DrainTimes(rows, send, limit, n)) == Pending(rows)
  {
    var q, f := Pending(rows), Drainer(send, limit);
    var inv := (r: seq<Row>) => Pending(r) == q;
    forall y | inv(y)
      ensures inv(f(y))
    {
      NothingLeaves(y, send, limit, q);
    }
    TimesKeeps(f, inv, rows, n);
  }
}
