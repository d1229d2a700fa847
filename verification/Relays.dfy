/** Any number of relays draining one outbox table at once (shared/outbox.py, lines 45-68): each locks
    its batch with SKIP LOCKED, sends row by row, commits, or crashes before the commit. */
module Relays {
  import opened Prelude
  import opened Outbox

  /** A relay's open transaction: its locked rows, how far it has come, which sends succeeded. */
  datatype Batch = Batch(ids: seq<nat>, tried: nat, sent: set<nat>)

  /** The table, the open batches, and for every row what really happened to it: successful sends, and
      aborted batches that held it. */
  datatype System = System(rows: seq<Row>, open: map<nat, Batch>, sends: seq<nat>, aborts: seq<nat>)

  datatype Event = Record | Begin(relay: nat) | SendOk(relay: nat) | SendFail(relay: nat) | Commit(relay: nat) | Crash(relay: nat)

  function Locked(s: System): set<nat> {
    set r, i | r in s.open && i in s.open[r].ids :: i
  }

  function Bump(counts: seq<nat>, ids: seq<nat>): (r: seq<nat>)
    ensures |r| == |counts|
  {
    seq(|counts|, i requires 0 <= i < |counts| => counts[i] + if i in ids then 1 else 0)
  }

  /** Committing a batch: sent rows are marked, the others count an attempt. */
  function Close(rows: seq<Row>, b: Batch): (r: seq<Row>)
    ensures |r| == |rows|
  {
    seq(|rows|, i requires 0 <= i < |rows| => if i in b.ids then Tried(rows[i], i in b.sent) else rows[i])
  }

  function Next(s: System, limit: nat, e: Event): System {
    match e
    case Record => s.(rows := s.rows + [Row(false, 0)], sends := s.sends + [0], aborts := s.aborts + [0])
    case Begin(relay) =>
      if relay in s.open then s
      else s.(open := s.open[relay := Batch(Take(Keep(Pending(s.rows), Locked(s)), limit), 0, {})])
    case SendOk(relay) =>
      if relay in s.open && s.open[relay].tried < |s.open[relay].ids|
         && s.open[relay].ids[s.open[relay].tried] < |s.sends| then
        var b := s.open[relay];
        var id := b.ids[b.tried];
        s.(open := s.open[relay := b.(tried := b.tried + 1, sent := b.sent + {id})],
           sends := s.sends[id := s.sends[id] + 1])
      else s
    case SendFail(relay) =>
      if relay in s.open && s.open[relay].tried < |s.open[relay].ids| then
        s.(open := s.open[relay := s.open[relay].(tried := s.open[relay].tried + 1)])
      else s
    case Commit(relay) =>
      if relay in s.open && s.open[relay].tried == |s.open[relay].ids| then
        s.(rows := Close(s.rows, s.open[relay]), open := s.open - {relay})
      else s
    case Crash(relay) =>
      if relay in s.open then s.(open := s.open - {relay}, aborts := Bump(s.aborts, s.open[relay].ids)) else s
  }

  function Unfold(limit: nat, trace: seq<Event>): System {
    if trace == [] then System([], map[], [], [])
    else Next(Unfold(limit, trace[..|trace| - 1]), limit, trace[|trace| - 1])
  }

  // ---------------------------------------------------------------- what every step keeps

  /** A batch lists unpublished rows, each once; only rows already tried can have been sent. */
  predicate GoodBatch(rows: seq<Row>, b: Batch) {
    && b.tried <= |b.ids|
    && (forall k :: 0 <= k < |b.ids| ==> b.ids[k] < |rows| && !rows[b.ids[k]].published)
    && (forall k, l :: 0 <= k < l < |b.ids| ==> b.ids[k] != b.ids[l])
    && (forall i :: i in b.sent ==> i in b.ids[..b.tried])
  }

  ghost predicate Disjoint(s: System) {
    forall r1, r2, i :: r1 in s.open && r2 in s.open && i in s.open[r1].ids && i in s.open[r2].ids ==> r1 == r2
  }

  /** The row has been sent and that is not forgotten: it is marked, or its open batch knows. */
  ghost predicate Accounted(s: System, i: nat)
    requires i < |s.rows|
  {
    s.rows[i].published || exists r :: r in s.open && i in s.open[r].sent
  }

  ghost predicate SendsBounded(s: System) {
    && |s.sends| == |s.rows| == |s.aborts|
    && forall i :: 0 <= i < |s.rows| ==>
         && (Accounted(s, i) ==> s.sends[i] > 0)
         && s.sends[i] <= s.aborts[i] + (if Accounted(s, i) then 1 else 0)
  }

  ghost predicate Safe(s: System) {
    && (forall r :: r in s.open ==> GoodBatch(s.rows, s.open[r]))
    && Disjoint(s)
    && SendsBounded(s)
  }

  /** Rows that are there stay there, and a published one stays published. */
  ghost predicate Grows(s: System, n: System) {
    |s.rows| <= |n.rows| && forall i :: 0 <= i < |s.rows| && s.rows[i].published ==> n.rows[i].published
  }

  predicate Increasing(q: seq<nat>) {
    forall k, l :: 0 <= k < l < |q| ==> q[k] < q[l]
  }

  lemma {:induction false} KeepIncreasing(q: seq<nat>, locked: set<nat>)
    requires Increasing(q)
    ensures Increasing(Keep(q, locked))
    ensures forall i :: i in Keep(q, locked) ==> i in q && i !in locked
  {
    if q != [] {
      var init, last := q[..|q| - 1], q[|q| - 1];
      KeepIncreasing(init, locked);
      var kept := Keep(init, locked);
      forall k | 0 <= k < |kept|
        ensures kept[k] < last
      {
        assert kept[k] in init;
        var j :| 0 <= j < |init| && init[j] == kept[k];
        assert q[j] < q[|q| - 1];
      }
      assert Keep(q, locked) == kept + if last in locked then [] else [last];
    }
  }

  /** A prefix of increasing ids that are all pending and free is a batch to work on. */
  lemma PrefixIsBatch(rows: seq<Row>, q: seq<nat>, kept: seq<nat>, ids: seq<nat>, locked: set<nat>)
    requires Lists(rows, q) && Increasing(kept) && ids <= kept
    requires forall i :: i in kept ==> i in q && i !in locked
    ensures GoodBatch(rows, Batch(ids, 0, {}))
    ensures forall k :: 0 <= k < |ids| ==> ids[k] !in locked
  {
    forall k | 0 <= k < |ids|
      ensures ids[k] < |rows| && !rows[ids[k]].published && ids[k] !in locked
    {
      assert ids[k] == kept[k] && kept[k] in kept;
      var j :| 0 <= j < |q| && q[j] == ids[k];
    }
    assert forall k :: 0 <= k < |ids| ==> ids[k] == kept[k];
  }

  /** What SKIP LOCKED hands a relay: unpublished rows nobody holds. */
  lemma {:induction false} FreshBatch(s: System, limit: nat, ids: seq<nat>)
    requires ids == Take(Keep(Pending(s.rows), Locked(s)), limit)
    ensures GoodBatch(s.rows, Batch(ids, 0, {}))
    ensures forall k :: 0 <= k < |ids| ==> ids[k] !in Locked(s)
  {
    PendingLists(s.rows);
    KeepIncreasing(Pending(s.rows), Locked(s));
    PrefixIsBatch(s.rows, Pending(s.rows), Keep(Pending(s.rows), Locked(s)), ids, Locked(s));
  }

  lemma OpenBatch(s: System, relay: nat, b: Batch)
    requires Safe(s) && relay !in s.open && GoodBatch(s.rows, b) && b.sent == {}
    requires forall k :: 0 <= k < |b.ids| ==> b.ids[k] !in Locked(s)
    ensures Safe(s.(open := s.open[relay := b]))
  {
    var n := s.(open := s.open[relay := b]);
    assert forall r, i :: r in s.open && i in s.open[r].ids ==> i in Locked(s);
    forall i | 0 <= i < |s.rows|
      ensures Accounted(n, i) <==> Accounted(s, i)
    {
      if Accounted(s, i) && !s.rows[i].published {
        var r :| r in s.open && i in s.open[r].sent;
        assert r in n.open && i in n.open[r].sent;
      }
    }
  }

  lemma RecordSafe(s: System, limit: nat)
    requires Safe(s)
    ensures Safe(Next(s, limit, Record))
  {
    var n := Next(s, limit, Record);
    forall r | r in n.open
      ensures GoodBatch(n.rows, n.open[r])
      ensures forall i :: i in n.open[r].sent ==> i < |s.rows|
    {
      assert GoodBatch(s.rows, s.open[r]);
      assert forall k :: 0 <= k < |s.open[r].ids| ==> n.rows[s.open[r].ids[k]] == s.rows[s.open[r].ids[k]];
    }
    assert forall i :: 0 <= i < |s.rows| ==> n.rows[i] == s.rows[i] && (Accounted(n, i) <==> Accounted(s, i));
  }

  /** The row about to be sent is not yet accounted for: nobody else holds it, and its own batch lists it
      once. */
  lemma NextRowUnsent(s: System, relay: nat)
    requires Safe(s) && relay in s.open && s.open[relay].tried < |s.open[relay].ids|
    ensures !Accounted(s, s.open[relay].ids[s.open[relay].tried])
  {
    var b := s.open[relay];
    var id := b.ids[b.tried];
    assert GoodBatch(s.rows, b) && id in b.ids;
    forall r | r in s.open
      ensures id !in s.open[r].sent
    {
      assert GoodBatch(s.rows, s.open[r]);
    }
  }

  lemma SendSafe(s: System, limit: nat, relay: nat, ok: bool)
    requires Safe(s) && relay in s.open && s.open[relay].tried < |s.open[relay].ids|
    ensures Safe(Next(s, limit, if ok then SendOk(relay) else SendFail(relay)))
  {
    var n := Next(s, limit, if ok then SendOk(relay) else SendFail(relay));
    var b := s.open[relay];
    var id := b.ids[b.tried];
    NextRowUnsent(s, relay);
    assert GoodBatch(s.rows, b);
    assert b.ids[..b.tried + 1] == b.ids[..b.tried] + [id];
    assert GoodBatch(n.rows, n.open[relay]);
    forall i | 0 <= i < |s.rows|
      ensures Accounted(n, i) <==> Accounted(s, i) || (ok && i == id)
    {
      if Accounted(s, i) && !s.rows[i].published {
        var r :| r in s.open && i in s.open[r].sent;
        assert r in n.open && i in n.open[r].sent;
      }
      if ok && i == id {
        assert relay in n.open && i in n.open[relay].sent;
      }
    }
  }

  /** Nobody else's batch has a row of this one, locked or sent. */
  lemma OnlyHolder(s: System, relay: nat, r: nat, i: nat)
    requires Safe(s) && relay in s.open && r in s.open && i in s.open[relay].ids
    requires i in s.open[r].ids || i in s.open[r].sent
    ensures r == relay
  {
    assert GoodBatch(s.rows, s.open[r]);
  }

  lemma CommitSafe(s: System, limit: nat, relay: nat)
    requires Safe(s) && relay in s.open && s.open[relay].tried == |s.open[relay].ids|
    ensures Safe(Next(s, limit, Commit(relay)))
  {
    var n := Next(s, limit, Commit(relay));
    var b := s.open[relay];
    assert GoodBatch(s.rows, b);
    forall r | r in n.open
      ensures GoodBatch(n.rows, n.open[r])
    {
      var other := s.open[r];
      assert GoodBatch(s.rows, other);
      forall k | 0 <= k < |other.ids|
        ensures !n.rows[other.ids[k]].published
      {
        if other.ids[k] in b.ids {
          OnlyHolder(s, relay, r, other.ids[k]);
        }
      }
    }
    forall i | 0 <= i < |s.rows|
      ensures Accounted(n, i) <==> Accounted(s, i)
    {
      CommitAccounts(s, limit, relay, i);
    }
  }

  lemma CommitAccounts(s: System, limit: nat, relay: nat, i: nat)
    requires Safe(s) && relay in s.open && s.open[relay].tried == |s.open[relay].ids| && i < |s.rows|
    ensures Accounted(Next(s, limit, Commit(relay)), i) <==> Accounted(s, i)
  {
    var n := Next(s, limit, Commit(relay));
    var b := s.open[relay];
    assert GoodBatch(s.rows, b);
    if i in b.sent {
      assert i in b.ids;
    } else if Accounted(s, i) && !s.rows[i].published {
      var r :| r in s.open && i in s.open[r].sent;
      assert r in n.open && i in n.open[r].sent;
    } else if i in b.ids {
      assert forall r :: r in n.open ==> r in s.open && n.open[r] == s.open[r];
    }
  }

  lemma CrashSafe(s: System, limit: nat, relay: nat)
    requires Safe(s) && relay in s.open
    ensures Safe(Next(s, limit, Crash(relay)))
  {
    var n := Next(s, limit, Crash(relay));
    var b := s.open[relay];
    assert GoodBatch(s.rows, b);
    forall i | 0 <= i < |s.rows|
      ensures Accounted(n, i) ==> Accounted(s, i)
      ensures Accounted(s, i) && !Accounted(n, i) ==> i in b.ids
    {
      if Accounted(s, i) && !s.rows[i].published {
        var r :| r in s.open && i in s.open[r].sent;
        assert r != relay ==> r in n.open && i in n.open[r].sent;
      }
    }
  }

  lemma NextSafe(s: System, limit: nat, e: Event)
    requires Safe(s)
    ensures Safe(Next(s, limit, e))
  {
    if e.Record? {
      RecordSafe(s, limit);
    } else if e.Begin? {
      if e.relay !in s.open {
        var ids := Take(Keep(Pending(s.rows), Locked(s)), limit);
        FreshBatch(s, limit, ids);
        OpenBatch(s, e.relay, Batch(ids, 0, {}));
      }
    } else if e.relay in s.open {
      if e.Commit? && s.open[e.relay].tried == |s.open[e.relay].ids| {
        CommitSafe(s, limit, e.relay);
      } else if e.Crash? {
        CrashSafe(s, limit, e.relay);
      } else if (e.SendOk? || e.SendFail?) && s.open[e.relay].tried < |s.open[e.relay].ids| {
        SendSafe(s, limit, e.relay, e.SendOk?);
      }
    }
  }

  lemma {:induction false} UnfoldSafe(limit: nat, trace: seq<Event>)
    ensures Safe(Unfold(limit, trace))
  {
    if trace != [] {
      UnfoldSafe(limit, trace[..|trace| - 1]);
      NextSafe(Unfold(limit, trace[..|trace| - 1]), limit, trace[|trace| - 1]);
    }
  }

  /** In every run of any number of relays: open batches never share a row, a row marked published was
      really sent, and a row is sent at most once more than the aborted batches that held it. */
  lemma RelaySafety(limit: nat, trace: seq<Event>)
    ensures var s := Unfold(limit, trace);
            && Disjoint(s)
            && |s.sends| == |s.aborts| == |s.rows|
            && forall i :: 0 <= i < |s.rows| ==>
                 (s.rows[i].published ==> s.sends[i] >= 1) && s.sends[i] <= 1 + s.aborts[i]
  {
    UnfoldSafe(limit, trace);
  }

  /** No row disappears and no published row is taken back, from any point of a run to any later one. */
  lemma {:induction false} NothingLost(limit: nat, trace: seq<Event>, k: nat)
    requires k <= |trace|
    ensures Grows(Unfold(limit, trace[..k]), Unfold(limit, trace))
  {
    if k < |trace| {
      var init := trace[..|trace| - 1];
      NothingLost(limit, init, k);
      assert init[..k] == trace[..k];
    } else {
      assert trace[..k] == trace;
    }
  }

  /** A relay alone on the table does what one drain does: its batch is the drain's, and committing after
      sends answered by `send` leaves the drained table. */
  lemma {:induction false} LoneRelayDrains(s: System, limit: nat, relay: nat, send: nat -> bool)
    requires s.open == map[]
    ensures var b := Next(s, limit, Begin(relay)).open[relay];
            && b.ids == Take(Pending(s.rows), limit)
            && Close(s.rows, Batch(b.ids, |b.ids|, SentOf(b.ids, send))) == Drained(s.rows, send, limit)
  {
    assert Locked(s) == {};
    KeepOutside(Pending(s.rows), {});
  }

  // ---------------------------------------------------------------- one relay's whole pass

  function From(s: System, limit: nat, trace: seq<Event>): System {
    if trace == [] then s else Next(From(s, limit, trace[..|trace| - 1]), limit, trace[|trace| - 1])
  }

  /** The sends of a batch, answered by the broker. */
  function Sends(relay: nat, ids: seq<nat>, send: nat -> bool): seq<Event> {
    if ids == [] then []
    else Sends(relay, ids[..|ids| - 1], send) + [if send(ids[|ids| - 1]) then SendOk(relay) else SendFail(relay)]
  }

  /** How far a relay alone has come with its batch. */
  predicate Underway(s: System, rows: seq<Row>, relay: nat, ids: seq<nat>, k: nat, send: nat -> bool)
    requires k <= |ids|
  {
    s.rows == rows && |s.sends| == |rows| && s.open == map[relay := Batch(ids, k, SentOf(ids[..k], send))]
  }

  lemma SendOneMore(s: System, limit: nat, rows: seq<Row>, relay: nat, ids: seq<nat>, k: nat, send: nat -> bool)
    requires k < |ids| && ids[k] < |rows| && Underway(s, rows, relay, ids, k, send)
    ensures Underway(Next(s, limit, if send(ids[k]) then SendOk(relay) else SendFail(relay)), rows, relay, ids, k + 1, send)
  {
    assert ids[..k + 1] == ids[..k] + [ids[k]];
    assert SentOf(ids[..k + 1], send) == SentOf(ids[..k], send) + if send(ids[k]) then {ids[k]} else {};
    var b, n := Batch(ids, k + 1, SentOf(ids[..k + 1], send)), Next(s, limit, if send(ids[k]) then SendOk(relay) else SendFail(relay));
    assert s.open[relay] == Batch(ids, k, SentOf(ids[..k], send));
    assert n.open[relay] == b;
    assert n.open == map[relay := b];
  }

  lemma {:induction false} SendsUnderway(
      s: System, limit: nat, rows: seq<Row>, relay: nat, ids: seq<nat>, k: nat, send: nat -> bool)
    requires k <= |ids| && (forall i :: 0 <= i < |ids| ==> ids[i] < |rows|) && Underway(s, rows, relay, ids, 0, send)
    ensures Underway(From(s, limit, Sends(relay, ids[..k], send)), rows, relay, ids, k, send)
  {
    if k > 0 {
      SendsUnderway(s, limit, rows, relay, ids, k - 1, send);
      var before := Sends(relay, ids[..k - 1], send);
      assert ids[..k][..k - 1] == ids[..k - 1] && ids[..k][k - 1] == ids[k - 1];
      var all := Sends(relay, ids[..k], send);
      assert all[..|all| - 1] == before;
      SendOneMore(From(s, limit, before), limit, rows, relay, ids, k - 1, send);
    }
  }

  /** A relay alone that takes a batch, sends every row of it and commits leaves exactly the drained table. */
  lemma {:induction false} LonePassDrains(s: System, limit: nat, relay: nat, send: nat -> bool, ids: seq<nat>)
    requires s.open == map[] && |s.sends| == |s.rows| && ids == Take(Pending(s.rows), limit)
    ensures var sent := From(Next(s, limit, Begin(relay)), limit, Sends(relay, ids, send));
            Next(sent, limit, Commit(relay)).rows == Drained(s.rows, send, limit)
            && Next(sent, limit, Commit(relay)).open == map[]
  {
    LoneRelayDrains(s, limit, relay, send);
    BatchIds(s.rows, limit, ids);
    var begun := Next(s, limit, Begin(relay));
    assert ids[..0] == [] && ids[..|ids|] == ids;
    assert SentOf([], send) == {};
    SendsUnderway(begun, limit, s.rows, relay, ids, |ids|, send);
    var sent := From(begun, limit, Sends(relay, ids, send));
    assert sent.open == map[relay := Batch(ids, |ids|, SentOf(ids, send))];
    assert sent.open - {relay} == map[];
  }
}
