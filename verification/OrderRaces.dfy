/** Overlapping calls on one order: the locked ones are serial, the unlocked ones exactly when
    nothing moved the order between their read and their commit. */
module OrderRaces {
  import opened Prelude
  import opened StateMachine
  import opened Orders
  import opened OrderProofs
  import opened RowLock

  function Call(o: Order, a: (Action, Env)): Order {
    Step(o, a.0, a.1)
  }

  /** An effective step climbs; a refused one leaves the row alone. */
  lemma StepClimbs(o: Order, a: Action, env: Env)
    ensures Step(o, a, env) == o || (Moves(o, Step(o, a, env)) && Rank(o.status) < Rank(Step(o, a, env).status))
  {
    StepKinds(o, a, env);
  }

  lemma {:induction false} SerialClimbs(calls: seq<(Action, Env)>, o: Order, order: seq<nat>, k: nat)
    requires InRange(|calls|, order) && k <= |order|
    ensures InRange(|calls|, order[..k])
    ensures Rank(Serial(Call, calls, o, order[..k]).status) <= Rank(Serial(Call, calls, o, order).status)
  {
    if k < |order| {
      var init := order[..|order| - 1];
      SerialClimbs(calls, o, init, k);
      assert init[..k] == order[..k];
      var a := calls[order[|order| - 1]];
      StepClimbs(Serial(Call, calls, o, init), a.0, a.1);
    } else {
      assert order[..k] == order;
    }
  }

  /** Row-locked calls on one order, in any interleaving, have the result of a serial order, and no
      two of them that took effect decided from the same status. */
  lemma LockedCallsDecideApart(calls: seq<(Action, Env)>, o: Order, moves: seq<Move>)
    ensures var db := PlayAll(Call, calls, o, moves);
            && Serialised(Call, calls, o, db)
            && forall k, l :: 0 <= k < l < |db.commits| && Effective(calls, db, k) && Effective(calls, db, l)
                              ==> db.phases[db.commits[k]].read.status != db.phases[db.commits[l]].read.status
  {
    LockedIsSerial(Call, calls, o, moves);
    var db := PlayAll(Call, calls, o, moves);
    forall k, l | 0 <= k < l < |db.commits| && Effective(calls, db, k) && Effective(calls, db, l)
      ensures db.phases[db.commits[k]].read.status != db.phases[db.commits[l]].read.status
    {
      SerialDecidesApart(calls, o, db.commits, k, l);
    }
  }

  /** The k-th commit changed the row it read. */
  predicate Effective(calls: seq<(Action, Env)>, db: Table<Order>, k: nat)
    requires |db.phases| == |calls| && InRange(|calls|, db.commits) && k < |db.commits|
  {
    var t := db.commits[k];
    db.phases[t].Committed? && Call(db.phases[t].read, calls[t]) != db.phases[t].read
  }

  lemma SerialDecidesApart(calls: seq<(Action, Env)>, o: Order, order: seq<nat>, k: nat, l: nat)
    requires InRange(|calls|, order) && k < l < |order|
    requires var read := Serial(Call, calls, o, order[..k]); Call(read, calls[order[k]]) != read
    ensures Serial(Call, calls, o, order[..k]).status != Serial(Call, calls, o, order[..l]).status
  {
    SerialClimbs(calls, o, order[..l], k + 1);
    assert order[..l][..k + 1] == order[..k + 1];
    assert order[..k + 1][..k] == order[..k];
    StepClimbs(Serial(Call, calls, o, order[..k]), calls[order[k]].0, calls[order[k]].1);
  }

  // ---------------------------------------------------------------- without the lock

  /** An UPDATE writes the columns the transaction changed. */
  function Column<T(==)>(row: T, read: T, written: T): T {
    if written == read then row else written
  }

  /** Rows inserted by the transaction are added to whatever is there by then. */
  function Inserted<T>(row: seq<T>, read: seq<T>, written: seq<T>): seq<T> {
    row + if |read| <= |written| then written[|read|..] else []
  }

  /** Committing, over the current row, a call that read `read` and turned it into `written`. */
  function Flush(row: Order, read: Order, written: Order): Order {
    row.(status := Column(row.status, read.status, written.status),
         paymentStatus := Column(row.paymentStatus, read.paymentStatus, written.paymentStatus),
         refundStatus := Column(row.refundStatus, read.refundStatus, written.refundStatus),
         refundAmount := Column(row.refundAmount, read.refundAmount, written.refundAmount),
         cancelledBy := Column(row.cancelledBy, read.cancelledBy, written.cancelledBy),
         cancelReason := Column(row.cancelReason, read.cancelReason, written.cancelReason),
         updatedAt := Column(row.updatedAt, read.updatedAt, written.updatedAt),
         events := Inserted(row.events, read.events, written.events),
         notes := Inserted(row.notes, read.notes, written.notes),
         commands := Inserted(row.commands, read.commands, written.commands),
         alerts := Inserted(row.alerts, read.alerts, written.alerts),
         stockReleases := if read.stockReleases <= written.stockReleases
                          then row.stockReleases + (written.stockReleases - read.stockReleases)
                          else row.stockReleases)
  }

  /** Every step only ever appends to the parts that are inserted rows. */
  predicate Appends(o: Order, n: Order) {
    && |o.events| <= |n.events| && n.events[..|o.events|] == o.events
    && |o.notes| <= |n.notes| && n.notes[..|o.notes|] == o.notes
    && |o.commands| <= |n.commands| && n.commands[..|o.commands|] == o.commands
    && |o.alerts| <= |n.alerts| && n.alerts[..|o.alerts|] == o.alerts
    && o.stockReleases <= n.stockReleases
    && (o.id, o.customerId, o.restaurantId, o.paymentMethod, o.total)
       == (n.id, n.customerId, n.restaurantId, n.paymentMethod, n.total)
  }

  lemma MoveAppends(o: Order, n: Order)
    requires PaidMove(o, n) || ForwardMove(o, n) || DropMove(o, n)
    ensures Appends(o, n)
  {
  }

  lemma StepAppends(o: Order, a: Action, env: Env)
    ensures Appends(o, Step(o, a, env))
  {
    StepKinds(o, a, env);
    if Step(o, a, env) != o {
      MoveAppends(o, Step(o, a, env));
    }
  }

  lemma FlushOnUnchangedRow(read: Order, written: Order)
    requires Appends(read, written)
    ensures Flush(read, read, written) == written
  {
  }

  lemma {:induction false} SameStatusSameRow(o: Order, history: seq<(Action, Env)>)
    ensures Rank(o.status) <= Rank(Run(o, history).status)
    ensures Run(o, history).status == o.status ==> Run(o, history) == o
  {
    if history != [] {
      var last := history[|history| - 1];
      var before := Run(o, history[..|history| - 1]);
      SameStatusSameRow(o, history[..|history| - 1]);
      StepClimbs(before, last.0, last.1);
    }
  }

  /** An effective call's log entry says which status it decided from. */
  lemma StepSigns(o: Order, a: Action, env: Env)
    ensures var n := Step(o, a, env);
            n == o || (|n.events| == |o.events| + 1 && n.events[|o.events|].from == Some(o.status))
  {
    StepClimbs(o, a, env);
  }

  lemma FlushSigns(row: Order, read: Order, written: Order, entry: StatusEvent)
    requires |written.events| == |read.events| + 1 && written.events[|read.events|] == entry
    ensures Flush(row, read, written).events == row.events + [entry]
  {
    assert written.events[|read.events|..] == [entry];
  }

  /** The calls that take no lock, customer cancellation and both sweeps, commit what they would have
      done serially if and only if the order still has the status they read. */
  lemma UnlockedCommitSerialIff(read: Order, history: seq<(Action, Env)>, a: Action, env: Env)
    requires Step(read, a, env) != read
    ensures var row := Run(read, history);
            Flush(row, read, Step(read, a, env)) == Step(row, a, env) <==> row.status == read.status
  {
    SameStatusSameRow(read, history);
    FlushSerialIff(read, Run(read, history), a, env);
  }

  lemma {:induction false} FlushSerialIff(read: Order, row: Order, a: Action, env: Env)
    requires Step(read, a, env) != read && (row.status == read.status ==> row == read)
    ensures Flush(row, read, Step(read, a, env)) == Step(row, a, env) <==> row.status == read.status
  {
    var written := Step(read, a, env);
    if row.status == read.status {
      StepAppends(read, a, env);
      FlushOnUnchangedRow(read, written);
    } else {
      StepSigns(read, a, env);
      StepSigns(row, a, env);
      FlushSigns(row, read, written, written.events[|read.events|]);
    }
  }

  /** What goes wrong otherwise: two overlapping cancellations of a paid order that is not yet being
      prepared both pass their check, and the second commit records a second refund command. */
  lemma OverlappingCancelsRefundTwice(o: Order, caller: Caller, env: Env)
    requires Consistent(o) && o.status in PRE_PREP - UNPAID && caller.userId == o.customerId
    ensures var cancelled := Step(o, CustomerCancel(caller), env);
            Flush(cancelled, o, cancelled).commands
            == [PaymentCommand(o.id, Refund, o.total), PaymentCommand(o.id, Refund, o.total)]
  {
    var cancelled := Step(o, CustomerCancel(caller), env);
    assert o.commands == [];
    assert cancelled.commands == [PaymentCommand(o.id, Refund, o.total)];
  }
}
