/** What every history of calls keeps true of an order. */
module OrderProofs {
  import opened Prelude
  import opened StateMachine
  import opened Orders

  // ---------------------------------------------------------------- the audit log

  /** The log is a connected walk along legal transitions, from the CREATED baseline. */
  predicate LegalWalk(log: seq<StatusEvent>) {
    && |log| > 0
    && log[0].from == None && log[0].to == Created
    && forall i :: 0 < i < |log| ==> log[i].from == Some(log[i - 1].to) && log[i].to in Allowed(log[i - 1].to)
  }

  predicate Visited(log: seq<StatusEvent>, s: Status) {
    exists i :: 0 <= i < |log| && log[i].to == s
  }

  /** Every entry but the last is on the main line, at its own rank; so is the last one unless the
      walk ended in a dead end. */
  lemma {:induction false} WalkFollowsRank(log: seq<StatusEvent>, i: nat)
    requires LegalWalk(log) && i < |log|
    ensures i < |log| - 1 ==> OnMainLine(log[i].to)
    ensures OnMainLine(log[i].to) ==> Rank(log[i].to) == i
    ensures i > 0 ==> OnMainLine(log[i - 1].to) && Rank(log[i - 1].to) == i - 1
  {
    if i > 0 {
      WalkFollowsRank(log, i - 1);
      assert log[i].to in Allowed(log[i - 1].to);
    }
    if i < |log| - 1 {
      assert log[i + 1].to in Allowed(log[i].to);
    }
  }

  /** No status is entered twice, and there are at most eight transitions. */
  lemma WalkNeverRepeats(log: seq<StatusEvent>)
    requires LegalWalk(log)
    ensures forall i, j :: 0 <= i < j < |log| ==> log[i].to != log[j].to
    ensures |log| - 1 <= 8
  {
    forall i, j | 0 <= i < j < |log|
      ensures log[i].to != log[j].to
    {
      WalkFollowsRank(log, i);
      WalkFollowsRank(log, j);
    }
    if |log| > 1 {
      WalkFollowsRank(log, |log| - 1);
      assert log[|log| - 1].to in Allowed(log[|log| - 2].to);
    }
  }

  /** On the main line the log has visited exactly the statuses up to the current one. */
  lemma WalkVisits(log: seq<StatusEvent>, s: Status)
    requires LegalWalk(log) && OnMainLine(s)
    ensures OnMainLine(log[|log| - 1].to) ==> (Visited(log, s) <==> Rank(s) <= Rank(log[|log| - 1].to))
    ensures !OnMainLine(log[|log| - 1].to) && |log| > 1
            ==> (Visited(log, s) <==> Rank(s) <= Rank(log[|log| - 2].to))
  {
    forall i | 0 <= i < |log|
      ensures OnMainLine(log[i].to) ==> Rank(log[i].to) == i
      ensures i < |log| - 1 ==> OnMainLine(log[i].to)
    {
      WalkFollowsRank(log, i);
    }
    if Rank(s) < |log| && OnMainLine(log[Rank(s)].to) {
      assert Rank(log[Rank(s)].to) == Rank(s);
      assert log[Rank(s)].to == s;
    }
  }

  // ---------------------------------------------------------------- the invariant

  predicate AuditLogFaithful(o: Order) {
    LegalWalk(o.events) && o.events[|o.events| - 1].to == o.status
  }

  /** Refund fields, payment status and refund command tell one story, and a dead end fixes which. */
  predicate RefundsConsistent(o: Order) {
    && o.refundStatus != PartialRefund
    && (o.refundStatus == FullRefund <==> o.paymentStatus == Refunded)
    && o.refundAmount == (if o.refundStatus == FullRefund then o.total else 0)
    && (o.refundStatus == FullRefund ==> !OnMainLine(o.status))
    && (o.status == Cancelled ==>
          |o.events| > 1
          && (o.refundStatus == FullRefund <==> 2 <= Rank(o.events[|o.events| - 2].to) < 4))
    && (o.status == Cancelled ==> o.cancelledBy.Some?)
    && (o.status == Rejected ==> o.cancelledBy == if o.refundStatus == FullRefund then Some(Restaurant) else None)
    && (OnMainLine(o.status) ==> o.cancelledBy == None)
  }

  /** The payment commands ever recorded. */
  predicate CommandsExact(o: Order) {
    o.commands ==
    if o.refundStatus == FullRefund then [PaymentCommand(o.id, Refund, o.total)]
    else if o.status == Delivered || o.status == Completed then [PaymentCommand(o.id, Settle, o.total)]
    else []
  }

  /** How many log entries precede the first event a checkout publishes. */
  function LogBase(o: Order): nat {
    if o.paymentMethod == CashOnDelivery then 2 else 1
  }

  /** The published events are the log's entries from checkout on, one each, and the last of them
      is a full copy of the row. */
  predicate NotesFaithful(o: Order) {
    && |o.events| == LogBase(o) + |o.notes|
    && |o.notes| > 0
    && (forall i :: 0 <= i < |o.notes| ==>
          o.notes[i].status == o.events[LogBase(o) + i].to && o.notes[i].orderId == o.id
          && o.notes[i].total == o.total && o.notes[i].paymentMethod == o.paymentMethod)
    && o.notes[|o.notes| - 1] == NoteOf(o)
  }

  /** Stock is given back at most once, exactly when a refundable dead end was reached by a path
      that releases it. */
  predicate StockReleasedOnce(o: Order) {
    o.stockReleases == if o.cancelledBy.Some? then 1 else 0
  }

  /** Entry 2 of the log is the payment. It was left unrecorded exactly when the restaurant forced
      the transition; only a recorded one alerts the owner, and at most once. */
  predicate PaymentRecorded(o: Order) {
    && (|o.events| <= 2 || o.events[2].to != PaymentSuccess ==> o.paymentStatus == Unpaid && o.alerts == [])
    && (|o.events| > 2 && o.events[2].to == PaymentSuccess ==> o.events[2].actor in {System, Restaurant})
    && (|o.events| > 2 && o.events[2].to == PaymentSuccess && o.refundStatus != FullRefund ==>
          o.paymentStatus == (if o.events[2].actor == Restaurant then Unpaid else Paid))
    && (|o.events| > 2 && o.events[2].to == PaymentSuccess && o.events[2].actor == Restaurant ==> o.alerts == [])
    && |o.alerts| <= 1
  }

  ghost predicate Consistent(o: Order) {
    && AuditLogFaithful(o)
    && RefundsConsistent(o)
    && CommandsExact(o)
    && NotesFaithful(o)
    && StockReleasedOnce(o)
    && PaymentRecorded(o)
  }

  lemma CreateConsistent(id: int, customerId: int, restaurantId: int, m: PaymentMethod, total: int, env: Env)
    ensures Consistent(Create(id, customerId, restaurantId, m, total, env))
  {
  }

  /** The log facts a step needs: where the row stands fixes the log's length. */
  lemma LogLength(o: Order)
    requires AuditLogFaithful(o)
    ensures OnMainLine(o.status) ==> |o.events| == Rank(o.status) + 1
    ensures |o.events| > 2 && OnMainLine(o.status) ==> o.events[2].to == PaymentSuccess
  {
    WalkFollowsRank(o.events, |o.events| - 1);
    if |o.events| > 2 {
      WalkFollowsRank(o.events, 2);
    }
  }

  /** What every effective call does to the append-only parts of the row. */
  predicate Moves(o: Order, n: Order) {
    && NoteOf(o).(status := n.status, paymentStatus := n.paymentStatus) == NoteOf(n)
    && |n.events| == |o.events| + 1 && n.events[..|o.events|] == o.events
    && n.events[|o.events|].from == Some(o.status) && n.events[|o.events|].to == n.status
    && n.status in Allowed(o.status)
    && n.notes == o.notes + [NoteOf(n)]
  }

  /** The payments service reported the money. */
  predicate PaidMove(o: Order, n: Order) {
    && Moves(o, n) && n.status == PaymentSuccess && n.events[|o.events|].actor == System
    && n.paymentStatus == Paid
    && |o.alerts| <= |n.alerts| <= |o.alerts| + 1 && n.alerts[..|o.alerts|] == o.alerts
    && n.commands == o.commands && n.refundStatus == o.refundStatus && n.refundAmount == o.refundAmount
    && n.cancelledBy == o.cancelledBy && n.stockReleases == o.stockReleases
  }

  /** The kitchen or a driver pushed the order on: no payment or refund field is touched. */
  predicate ForwardMove(o: Order, n: Order) {
    && Moves(o, n) && n.status != Cancelled
    && (n.status == PaymentSuccess ==> n.events[|o.events|].actor == Restaurant)
    && n.paymentStatus == o.paymentStatus && n.alerts == o.alerts
    && n.commands == o.commands + (if n.status == Delivered then [PaymentCommand(o.id, Settle, o.total)] else [])
    && n.refundStatus == o.refundStatus && n.refundAmount == o.refundAmount
    && n.cancelledBy == o.cancelledBy && n.stockReleases == o.stockReleases
  }

  /** The order was cancelled or rejected: money back in full or not at all. */
  predicate DropMove(o: Order, n: Order) {
    && Moves(o, n) && !OnMainLine(n.status) && n.alerts == o.alerts
    && (n.refundStatus == FullRefund <==> o.status in PRE_PREP - UNPAID) && n.refundStatus != PartialRefund
    && n.refundAmount == (if n.refundStatus == FullRefund then o.total else 0)
    && n.paymentStatus == (if n.refundStatus == FullRefund then Refunded else o.paymentStatus)
    && n.commands == o.commands
                     + (if n.refundStatus == FullRefund then [PaymentCommand(o.id, Refund, o.total)] else [])
    && n.cancelledBy.Some? && (n.status == Rejected ==> n.cancelledBy == Some(Restaurant))
    && n.stockReleases == o.stockReleases + 1
  }

  lemma DropKinds(o: Order, a: Action, env: Env)
    requires a.CustomerCancel? || a.Reject? || a.SweepUnpaid? || a.SweepUnaccepted?
    ensures Step(o, a, env) == o || DropMove(o, Step(o, a, env))
  {
  }

  lemma DriveKinds(o: Order, a: Action, env: Env)
    requires a.PaymentEvent? || a.Accept? || a.Advance? || a.DeliveryEvent?
    ensures var n := Step(o, a, env); n == o || PaidMove(o, n) || ForwardMove(o, n) || DropMove(o, n)
  {
  }

  /** Nine entry points, three kinds of move. */
  lemma StepKinds(o: Order, a: Action, env: Env)
    ensures var n := Step(o, a, env); n == o || PaidMove(o, n) || ForwardMove(o, n) || DropMove(o, n)
  {
    if a.CustomerCancel? || a.Reject? || a.SweepUnpaid? || a.SweepUnaccepted? {
      DropKinds(o, a, env);
    } else {
      DriveKinds(o, a, env);
    }
  }

  lemma MovesKeepsLogAndNotes(o: Order, n: Order)
    requires AuditLogFaithful(o) && NotesFaithful(o) && Moves(o, n)
    ensures AuditLogFaithful(n) && NotesFaithful(n)
  {
    forall i | 0 < i < |n.events|
      ensures n.events[i].from == Some(n.events[i - 1].to) && n.events[i].to in Allowed(n.events[i - 1].to)
    {
      assert i < |o.events| ==> n.events[i] == o.events[i];
      assert n.events[i - 1] == o.events[i - 1];
    }
    assert n.events[0] == o.events[0];
    forall i | 0 <= i < |n.notes|
      ensures n.notes[i].status == n.events[LogBase(n) + i].to && n.notes[i].orderId == n.id
      ensures n.notes[i].total == n.total && n.notes[i].paymentMethod == n.paymentMethod
    {
      if i < |o.notes| {
        assert n.notes[i] == o.notes[i];
        assert n.events[LogBase(n) + i] == o.events[LogBase(o) + i];
      }
    }
  }

  lemma MoveKeepsMoney(o: Order, n: Order)
    requires AuditLogFaithful(o) && RefundsConsistent(o) && CommandsExact(o) && StockReleasedOnce(o)
    requires PaidMove(o, n) || ForwardMove(o, n) || DropMove(o, n)
    ensures RefundsConsistent(n) && CommandsExact(n) && StockReleasedOnce(n)
  {
    assert n.events[|n.events| - 2] == o.events[|o.events| - 1];
  }

  lemma MoveKeepsPaymentRecord(o: Order, n: Order)
    requires AuditLogFaithful(o) && RefundsConsistent(o) && PaymentRecorded(o)
    requires PaidMove(o, n) || ForwardMove(o, n) || DropMove(o, n)
    ensures PaymentRecorded(n)
  {
    LogLength(o);
    assert |o.events| > 2 ==> n.events[2] == o.events[2];
  }

  lemma MoveConsistent(o: Order, n: Order)
    requires Consistent(o)
    requires PaidMove(o, n) || ForwardMove(o, n) || DropMove(o, n)
    ensures Consistent(n)
  {
    MovesKeepsLogAndNotes(o, n);
    MoveKeepsMoney(o, n);
    MoveKeepsPaymentRecord(o, n);
  }

  lemma StepConsistent(o: Order, a: Action, env: Env)
    requires Consistent(o)
    ensures Consistent(Step(o, a, env))
  {
    StepKinds(o, a, env);
    if Step(o, a, env) != o {
      MoveConsistent(o, Step(o, a, env));
    }
  }

  /** Every history of calls, however interleaved with refusals, keeps the order consistent. */
  lemma {:induction false} RunConsistent(o: Order, history: seq<(Action, Env)>)
    requires Consistent(o)
    ensures Consistent(Run(o, history))
  {
    if history != [] {
      var last := history[|history| - 1];
      RunConsistent(o, history[..|history| - 1]);
      StepConsistent(Run(o, history[..|history| - 1]), last.0, last.1);
    }
  }

  // ---------------------------------------------------------------- the main results

  /** An order created by checkout and driven by any history of calls. */
  ghost predicate Reachable(o: Order) {
    exists id, customer, restaurant, m, total, env, history ::
      o == Run(Create(id, customer, restaurant, m, total, env), history)
  }

  lemma ReachableConsistent(o: Order)
    requires Reachable(o)
    ensures Consistent(o)
  {
    var id, customer, restaurant, m, total, env, history :|
      o == Run(Create(id, customer, restaurant, m, total, env), history);
    CreateConsistent(id, customer, restaurant, m, total, env);
    RunConsistent(Create(id, customer, restaurant, m, total, env), history);
  }

  /** The audit log of every reachable order is a legal path to its status without repetition, and
      the order issued at most one payment command: a settle exactly if it was delivered, a refund
      exactly if it is marked refunded, never both. */
  lemma AuditAndCommands(o: Order)
    requires Reachable(o)
    ensures LegalWalk(o.events) && o.events[|o.events| - 1].to == o.status
    ensures forall i, j :: 0 <= i < j < |o.events| ==> o.events[i].to != o.events[j].to
    ensures |o.events| - 1 <= 8
    ensures |o.commands| <= 1
    ensures PaymentCommand(o.id, Settle, o.total) in o.commands <==> Visited(o.events, Delivered)
    ensures PaymentCommand(o.id, Refund, o.total) in o.commands <==> o.refundStatus == FullRefund
    ensures forall c :: c in o.commands ==> c.orderId == o.id && c.amount == o.total
  {
    ReachableConsistent(o);
    WalkNeverRepeats(o.events);
    WalkVisits(o.events, Delivered);
    if !OnMainLine(o.status) {
      assert o.events[|o.events| - 1].to in Allowed(o.events[|o.events| - 2].to);
    }
  }

  /** Refund command, refund fields and payment status agree; a cancelled order is refunded exactly
      when it had been paid for and the kitchen had not started; a rejected one exactly when it was
      rejected as such and not merely moved to REJECTED. */
  lemma RefundRule(o: Order)
    requires Reachable(o)
    ensures PaymentCommand(o.id, Refund, o.total) in o.commands <==> o.refundStatus == FullRefund
    ensures o.refundStatus == FullRefund <==> o.paymentStatus == Refunded
    ensures o.refundAmount == if o.refundStatus == FullRefund then o.total else 0
    ensures o.status == Cancelled ==>
              (o.refundStatus == FullRefund <==>
               Visited(o.events, PaymentSuccess) && !Visited(o.events, Preparing))
    ensures o.status == Rejected ==> (o.refundStatus == FullRefund <==> o.cancelledBy == Some(Restaurant))
    ensures OnMainLine(o.status) ==> o.refundStatus == NoRefund
  {
    ReachableConsistent(o);
    WalkVisits(o.events, PaymentSuccess);
    WalkVisits(o.events, Preparing);
  }

  /** The order-events stream of one order is its audit log from checkout on, one message per
      transition, and its last message carries the row's current facts. */
  lemma StreamTellsTheLog(o: Order)
    requires Reachable(o)
    ensures |o.notes| > 0 && o.notes[|o.notes| - 1] == NoteOf(o)
    ensures |o.notes| == |o.events| - LogBase(o)
    ensures forall i :: 0 <= i < |o.notes| ==> o.notes[i].status == o.events[LogBase(o) + i].to
  {
    ReachableConsistent(o);
  }

  /** Stock is put back at most once, for exactly the orders somebody took off the line. The owner
      hears of an order at most once, and never of one whose payment was not recorded. */
  lemma SideEffectsOnce(o: Order)
    requires Reachable(o)
    ensures o.stockReleases <= 1
    ensures o.stockReleases == 1 <==> o.status == Cancelled || (o.status == Rejected && o.refundStatus == FullRefund)
    ensures |o.alerts| <= 1
    ensures o.alerts != [] ==> o.paymentStatus == Paid || o.paymentStatus == Refunded
  {
    ReachableConsistent(o);
    LogLength(o);
    if |o.events| > 2 {
      WalkFollowsRank(o.events, 2);
    }
  }

  /** Being past payment does not mean that a payment was recorded: the restaurant can force the
      transition. It is unrecorded exactly when the log shows the restaurant as the actor. */
  lemma UnrecordedPayment(o: Order)
    requires Reachable(o) && Visited(o.events, PaymentSuccess) && o.refundStatus == NoRefund
    ensures |o.events| > 2 && o.events[2].to == PaymentSuccess
    ensures o.paymentStatus == Unpaid <==> o.events[2].actor == Restaurant
  {
    ReachableConsistent(o);
    var i :| 0 <= i < |o.events| && o.events[i].to == PaymentSuccess;
    WalkFollowsRank(o.events, i);
  }

  /** A history in which it happens: the owner moves an unpaid card order to PAYMENT_SUCCESS and on
      to REJECTED, and neither payment nor refund is recorded. */
  lemma ForcedPaymentThenRejection(env: Env, owner: int)
    requires env.owner == Some(owner)
    ensures var o := Run(Create(1, 2, 3, Card, 500, env),
                         [(Advance(Caller(owner, false), PaymentSuccess), env),
                          (Advance(Caller(owner, false), Rejected), env)]);
            o.status == Rejected && o.paymentStatus == Unpaid && o.commands == []
  {
    var first := Create(1, 2, 3, Card, 500, env);
    var h := [(Advance(Caller(owner, false), PaymentSuccess), env), (Advance(Caller(owner, false), Rejected), env)];
    assert h[..1] == [h[0]];
    assert h[..1][..0] == [];
    assert Run(first, h[..1]) == Step(first, h[0].0, h[0].1);
  }
}
