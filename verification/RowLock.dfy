/** Transactions that take the row with SELECT ... FOR UPDATE, decide from what they read, write and
    commit. Any number of them, interleaved in any way, against one row. */
module RowLock {
  import opened Prelude

  datatype Phase<+S> = Waiting | Holding(read: S) | Committed(read: S) | RolledBack

  /** The row, who holds its lock, what each transaction is doing, and the commits so far. */
  datatype Table<+S> = Table(row: S, holder: Option<nat>, phases: seq<Phase<S>>, commits: seq<nat>)

  datatype Move = Lock(t: nat) | Commit(t: nat) | Rollback(t: nat)

  function Start<S, A>(row: S, work: seq<A>): Table<S> {
    Table(row, None, seq(|work|, _ => Waiting), [])
  }

  /** One move of one transaction. A move that is not possible, such as locking a held row, is a wait
      and changes nothing. A commit writes what the transaction made of the row it read. */
  function Play<S, A>(step: (S, A) -> S, work: seq<A>, db: Table<S>, m: Move): Table<S>
    requires |db.phases| == |work|
  {
    if m.t >= |work| then db
    else
      var phase := db.phases[m.t];
      match m
      case Lock(t) =>
        if db.holder == None && phase.Waiting? then
          db.(holder := Some(t), phases := db.phases[t := Holding(db.row)])
        else db
      case Commit(t) =>
        if phase.Holding? then
          db.(row := step(phase.read, work[t]), holder := None, phases := db.phases[t := Committed(phase.read)],
              commits := db.commits + [t])
        else db
      case Rollback(t) =>
        if phase.Holding? then db.(holder := None, phases := db.phases[t := RolledBack]) else db
  }

  function PlayAll<S, A>(step: (S, A) -> S, work: seq<A>, row: S, moves: seq<Move>): (db: Table<S>)
    ensures |db.phases| == |work|
  {
    if moves == [] then Start(row, work)
    else Play(step, work, PlayAll(step, work, row, moves[..|moves| - 1]), moves[|moves| - 1])
  }

  predicate InRange(work: nat, order: seq<nat>) {
    forall k :: 0 <= k < |order| ==> order[k] < work
  }

  /** The row after running the named transactions one at a time, in the given order. */
  function Serial<S, A>(step: (S, A) -> S, work: seq<A>, row: S, order: seq<nat>): S
    requires InRange(|work|, order)
  {
    if order == [] then row
    else step(Serial(step, work, row, order[..|order| - 1]), work[order[|order| - 1]])
  }

  /** Whoever holds the row read it as it is. */
  ghost predicate HolderSeesRow<S>(db: Table<S>) {
    forall t :: 0 <= t < |db.phases| && db.phases[t].Holding? ==>
      db.holder == Some(t) && db.phases[t].read == db.row
  }

  /** The k-th committed transaction read what the ones before it left. */
  ghost predicate ReadsSerial<S, A>(step: (S, A) -> S, work: seq<A>, row: S, phases: seq<Phase<S>>, commits: seq<nat>)
    requires InRange(|work|, commits) && |phases| == |work|
  {
    forall k :: 0 <= k < |commits| ==> phases[commits[k]] == Committed(Serial(step, work, row, commits[..k]))
  }

  /** The commits are the committed transactions, each once. */
  ghost predicate CommitsListed<S>(phases: seq<Phase<S>>, commits: seq<nat>) {
    && (forall k, l :: 0 <= k < l < |commits| ==> commits[k] != commits[l])
    && (forall t :: 0 <= t < |phases| && phases[t].Committed? ==> t in commits)
    && (forall k :: 0 <= k < |commits| ==> commits[k] < |phases| && phases[commits[k]].Committed?)
  }

  ghost predicate Serialised<S, A>(step: (S, A) -> S, work: seq<A>, row: S, db: Table<S>) {
    && |db.phases| == |work|
    && InRange(|work|, db.commits)
    && db.row == Serial(step, work, row, db.commits)
    && HolderSeesRow(db)
    && ReadsSerial(step, work, row, db.phases, db.commits)
    && CommitsListed(db.phases, db.commits)
  }

  lemma ReadsOneMore<S, A>(step: (S, A) -> S, work: seq<A>, row: S, phases: seq<Phase<S>>, commits: seq<nat>, t: nat)
    requires InRange(|work|, commits) && |phases| == |work| && t < |work| && t !in commits
    requires ReadsSerial(step, work, row, phases, commits)
    ensures InRange(|work|, commits + [t])
    ensures ReadsSerial(step, work, row, phases[t := Committed(Serial(step, work, row, commits))], commits + [t])
  {
    var n := commits + [t];
    forall k | 0 <= k < |n|
      ensures phases[t := Committed(Serial(step, work, row, commits))][n[k]] == Committed(Serial(step, work, row, n[..k]))
    {
      if k < |commits| {
        assert n[..k] == commits[..k] && commits[k] in commits;
      } else {
        assert n[..k] == commits;
      }
    }
  }

  lemma ListedOneMore<S>(phases: seq<Phase<S>>, commits: seq<nat>, t: nat, read: S)
    requires CommitsListed(phases, commits) && t < |phases| && phases[t].Holding?
    ensures t !in commits && CommitsListed(phases[t := Committed(read)], commits + [t])
  {
    assert t !in commits;
  }

  lemma SerialOneMore<S, A>(step: (S, A) -> S, work: seq<A>, row: S, commits: seq<nat>, t: nat)
    requires InRange(|work|, commits) && t < |work|
    ensures InRange(|work|, commits + [t])
    ensures Serial(step, work, row, commits + [t]) == step(Serial(step, work, row, commits), work[t])
  {
    assert (commits + [t])[..|commits|] == commits;
  }

  lemma {:induction false} CommitSerialised<S, A>(step: (S, A) -> S, work: seq<A>, row: S, db: Table<S>, t: nat)
    requires Serialised(step, work, row, db) && t < |work| && db.phases[t].Holding?
    ensures Serialised(step, work, row, Play(step, work, db, Commit(t)))
  {
    assert db.phases[t].read == db.row;
    ListedOneMore(db.phases, db.commits, t, db.row);
    ReadsOneMore(step, work, row, db.phases, db.commits, t);
    SerialOneMore(step, work, row, db.commits, t);
  }

  lemma {:induction false} PlaySerialised<S, A>(step: (S, A) -> S, work: seq<A>, row: S, db: Table<S>, m: Move)
    requires Serialised(step, work, row, db)
    ensures Serialised(step, work, row, Play(step, work, db, m))
  {
    if m.Commit? && m.t < |work| && db.phases[m.t].Holding? {
      CommitSerialised(step, work, row, db, m.t);
    }
  }

  /** Every interleaving of locking transactions has the result of running the committed ones one at
      a time in commit order, and each of them decided from exactly the row the ones before it left. */
  lemma {:induction false} LockedIsSerial<S, A>(step: (S, A) -> S, work: seq<A>, row: S, moves: seq<Move>)
    ensures Serialised(step, work, row, PlayAll(step, work, row, moves))
  {
    if moves != [] {
      LockedIsSerial(step, work, row, moves[..|moves| - 1]);
      PlaySerialised(step, work, row, PlayAll(step, work, row, moves[..|moves| - 1]), moves[|moves| - 1]);
    }
  }

  /** Each transaction in turn takes the lock and commits. */
  function InTurn(order: seq<nat>): seq<Move> {
    if order == [] then [] else InTurn(order[..|order| - 1]) + [Lock(order[|order| - 1]), Commit(order[|order| - 1])]
  }

  predicate Distinct(order: seq<nat>) {
    forall k, l :: 0 <= k < l < |order| ==> order[k] != order[l]
  }

  /** Nobody has begun who is not in `order`, and the lock is free. */
  predicate Done<S>(db: Table<S>, order: seq<nat>) {
    && db.holder == None && db.commits == order
    && forall t :: 0 <= t < |db.phases| && t !in order ==> db.phases[t].Waiting?
  }

  lemma TwoMoves<S, A>(step: (S, A) -> S, work: seq<A>, row: S, moves: seq<Move>, a: Move, b: Move)
    ensures PlayAll(step, work, row, moves + [a, b]) == Play(step, work, Play(step, work, PlayAll(step, work, row, moves), a), b)
  {
    var all := moves + [a, b];
    assert all[..|all| - 1] == moves + [a];
    assert (moves + [a])[..|moves|] == moves;
  }

  lemma TurnDone<S, A>(step: (S, A) -> S, work: seq<A>, db: Table<S>, order: seq<nat>, t: nat)
    requires |db.phases| == |work| && Done(db, order) && t < |work| && t !in order
    ensures Done(Play(step, work, Play(step, work, db, Lock(t)), Commit(t)), order + [t])
  {
  }

  lemma {:induction false} InTurnDone<S, A>(step: (S, A) -> S, work: seq<A>, row: S, order: seq<nat>)
    requires InRange(|work|, order) && Distinct(order)
    ensures Done(PlayAll(step, work, row, InTurn(order)), order)
  {
    if order != [] {
      var init, t := order[..|order| - 1], order[|order| - 1];
      InTurnDone(step, work, row, init);
      TwoMoves(step, work, row, InTurn(init), Lock(t), Commit(t));
      TurnDone(step, work, PlayAll(step, work, row, InTurn(init)), init, t);
      assert init + [t] == order;
    }
  }

  /** And every serial order is an interleaving: locking excludes nobody for good. */
  lemma {:induction false} EverySerialOrderPlays<S, A>(step: (S, A) -> S, work: seq<A>, row: S, order: seq<nat>)
    requires InRange(|work|, order) && Distinct(order)
    ensures var db := PlayAll(step, work, row, InTurn(order));
            db.commits == order && db.row == Serial(step, work, row, order)
  {
    InTurnDone(step, work, row, order);
    LockedIsSerial(step, work, row, InTurn(order));
  }

  /** A transaction that rolls back leaves no trace on the row and lets the next one in. */
  lemma RollbackFrees<S, A>(step: (S, A) -> S, work: seq<A>, db: Table<S>, t: nat, next: nat)
    requires |db.phases| == |work| && t < |work| && next < |work| && t != next
    requires db.holder == Some(t) && db.phases[t].Holding? && db.phases[next].Waiting?
    ensures var n := Play(step, work, Play(step, work, db, Rollback(t)), Lock(next));
            n.row == db.row && n.commits == db.commits && n.holder == Some(next) && n.phases[next] == Holding(db.row)
  {
  }
}
