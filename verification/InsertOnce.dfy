/** Check, build, insert under a unique constraint, and on conflict read the winner: how
    `create_payment_for_order` and `assign_for_order` create the one row an order may have, with any
    number of handlers at work on the same order at once. */
module InsertOnce {
  import opened Prelude
  import opened Orders
  import opened Payments

  /** A row and the handler whose insert committed it. */
  datatype Stored<+R> = Stored(writer: nat, row: R)

  datatype Stage<+R> = Arrived | Absent | Built(row: R) | Returned(stored: Stored<R>)

  datatype Table<+R> = Table(stored: Option<Stored<R>>, workers: seq<Stage<R>>, inserts: nat)

  datatype Move<+R> = Read(t: nat) | Build(t: nat, row: R) | Insert(t: nat)

  function Opened<R>(workers: nat): Table<R> {
    Table(None, seq(workers, _ => Arrived), 0)
  }

  /** One handler's next database action; one that is not due changes nothing. An insert that violates
      the unique constraint is rolled back and the winner's row is read and returned. */
  function Play<R>(db: Table<R>, m: Move<R>): Table<R> {
    if m.t >= |db.workers| then db
    else
      var stage := db.workers[m.t];
      match m
      case Read(t) =>
        if !stage.Arrived? then db
        else db.(workers := db.workers[t := if db.stored.Some? then Returned(db.stored.value) else Absent])
      case Build(t, row) =>
        if !stage.Absent? then db else db.(workers := db.workers[t := Built(row)])
      case Insert(t) =>
        if !stage.Built? then db
        else if db.stored.Some? then db.(workers := db.workers[t := Returned(db.stored.value)])
        else
          var own := Stored(t, stage.row);
          Table(Some(own), db.workers[t := Returned(own)], db.inserts + 1)
  }

  function PlayAll<R>(workers: nat, moves: seq<Move<R>>): Table<R> {
    if moves == [] then Opened(workers) else Play(PlayAll(workers, moves[..|moves| - 1]), moves[|moves| - 1])
  }

  ghost predicate AllReturnTheRow<R>(db: Table<R>) {
    && db.inserts == (if db.stored.Some? then 1 else 0)
    && forall t :: 0 <= t < |db.workers| && db.workers[t].Returned? ==> db.stored == Some(db.workers[t].stored)
  }

  /** Under every interleaving at most one row is ever inserted, it is never replaced, and every
      handler that returned, returned that row. */
  lemma {:induction false} OneRow<R>(workers: nat, moves: seq<Move<R>>)
    ensures AllReturnTheRow(PlayAll(workers, moves))
    ensures forall k :: 0 <= k <= |moves| && PlayAll(workers, moves[..k]).stored.Some?
                        ==> PlayAll(workers, moves).stored == PlayAll(workers, moves[..k]).stored
  {
    if moves == [] {
    } else {
      var init := moves[..|moves| - 1];
      OneRow(workers, init);
      forall k | 0 <= k <= |moves| && PlayAll(workers, moves[..k]).stored.Some?
        ensures PlayAll(workers, moves).stored == PlayAll(workers, moves[..k]).stored
      {
        if k < |moves| {
          assert init[..k] == moves[..k];
        } else {
          assert moves[..k] == moves;
        }
      }
    }
  }

  /** The row `create_payment_for_order` builds from the order read-model and the provider's answer. */
  function PaymentFor(order: Snapshot, answer: ProviderResult): Payment {
    CreatePayment(Desk(Some(order), None, [], []), answer).payment.value
  }

  /** Concurrent creations for one order: the single row has the order's amount and provider, whoever
      wins and whatever the provider answered each of them. */
  lemma {:induction false} OnePayment(workers: nat, moves: seq<Move<Payment>>, total: int, m: PaymentMethod)
    requires forall i :: 0 <= i < |moves| && moves[i].Build? ==>
               exists order: Snapshot, answer ::
                 order.total == total && order.paymentMethod == m && moves[i].row == PaymentFor(order, answer)
    ensures var db := PlayAll(workers, moves);
            && AllReturnTheRow(db)
            && (db.stored.Some? ==> db.stored.value.row.amount == total && db.stored.value.row.provider == m)
            && forall t :: 0 <= t < |db.workers| && db.workers[t].Built? ==>
                 db.workers[t].row.amount == total && db.workers[t].row.provider == m
  {
    OneRow(workers, moves);
    if moves != [] {
      OnePayment(workers, moves[..|moves| - 1], total, m);
    }
  }

  /** A handler that has built its row and inserts returns: its own row exactly if none was there before. */
  lemma InsertReturns<R>(db: Table<R>, t: nat)
    requires t < |db.workers| && db.workers[t].Built?
    ensures var n := Play(db, Insert(t));
            && n.stored.Some? && n.workers[t] == Returned(n.stored.value)
            && (db.stored.None? <==> n.stored == Some(Stored(t, db.workers[t].row)) && n.inserts == db.inserts + 1)
  {
  }

  /** A handler that finds the row returns it at once, without building or inserting anything. */
  lemma ReadReturns<R>(db: Table<R>, t: nat)
    requires t < |db.workers| && db.workers[t].Arrived?
    ensures var n := Play(db, Read(t));
            && n.stored == db.stored && n.inserts == db.inserts
            && n.workers[t] == if db.stored.Some? then Returned(db.stored.value) else Absent
  {
  }
}
