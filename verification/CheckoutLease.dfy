/** The per-user checkout lock: SET NX with a ten-second expiry, deleted unconditionally when the
    checkout ends (services/orders/app/service.py). */
module CheckoutLease {
  import opened Prelude

  const TTL := 10

  /** The key. Redis stores no holder; `setter` remembers which checkout's SET created it. */
  datatype Key = Key(setter: nat, expiresAt: int)

  /** The clock, the key, and the checkouts now between acquiring and deleting. */
  datatype Redis = Redis(now: int, key: Option<Key>, inside: map<nat, int>)

  datatype Event = Elapse(seconds: nat) | Acquire(run: nat) | Finish(run: nat)

  predicate Held(s: Redis) {
    s.key.Some? && s.now < s.key.value.expiresAt
  }

  /** A checkout that finds the key is refused; one that ends deletes whatever key is there. */
  function Next(s: Redis, e: Event): Redis {
    match e
    case Elapse(seconds) => s.(now := s.now + seconds)
    case Acquire(run) =>
      if Held(s) || run in s.inside then s
      else s.(key := Some(Key(run, s.now + TTL)), inside := s.inside[run := s.now])
    case Finish(run) =>
      if run in s.inside then s.(key := None, inside := s.inside - {run}) else s
  }

  function Unfold(s: Redis, trace: seq<Event>): Redis {
    if trace == [] then s else Next(Unfold(s, trace[..|trace| - 1]), trace[|trace| - 1])
  }

  /** No checkout is still running a full TTL after it acquired. */
  predicate InTime(s: Redis) {
    forall run :: run in s.inside ==> s.now < s.inside[run] + TTL
  }

  /** This end of a checkout removes a lock some other checkout holds. */
  predicate Steals(s: Redis, e: Event) {
    e.Finish? && e.run in s.inside && Held(s) && s.key.value.setter != e.run
  }

  ghost predicate Exclusive(s: Redis) {
    && (forall r1, r2 :: r1 in s.inside && r2 in s.inside ==> r1 == r2)
    && (forall run :: run in s.inside ==> s.key == Some(Key(run, s.inside[run] + TTL)))
  }

  lemma NextExclusive(s: Redis, e: Event)
    requires Exclusive(s) && InTime(s)
    ensures Exclusive(Next(s, e)) && !Steals(s, e)
  {
    assert forall run :: run in s.inside ==> Held(s);
  }

  /** If every checkout ends within the TTL of acquiring, then in every timed interleaving at most one
      is in the critical section, it holds the key, and no end of a checkout removes another's lock. */
  lemma {:induction false} MutualExclusion(s: Redis, trace: seq<Event>)
    requires s.key == None && s.inside == map[]
    requires forall k :: 0 <= k <= |trace| ==> InTime(Unfold(s, trace[..k]))
    ensures Exclusive(Unfold(s, trace))
    ensures forall run :: run in Unfold(s, trace).inside ==> Held(Unfold(s, trace))
    ensures forall k :: 0 <= k < |trace| ==> !Steals(Unfold(s, trace[..k]), trace[k])
  {
    assert trace[..|trace|] == trace;
    assert InTime(Unfold(s, trace));
    if trace != [] {
      var init := trace[..|trace| - 1];
      assert forall k :: 0 <= k <= |init| ==> init[..k] == trace[..k];
      MutualExclusion(s, init);
      assert InTime(Unfold(s, init));
      NextExclusive(Unfold(s, init), trace[|trace| - 1]);
      forall k | 0 <= k < |trace|
        ensures !Steals(Unfold(s, trace[..k]), trace[k])
      {
        if k < |init| {
          assert init[k] == trace[k];
          assert init[..k] == trace[..k];
        }
      }
    }
  }

  /** The hypothesis is needed. Whenever the one checkout inside runs into its TTL, the next attempt is
      let in beside it, and its own late end then deletes the newcomer's lock. */
  lemma OverrunBreaksExclusion(s: Redis, run: nat, other: nat, seconds: nat)
    requires Exclusive(s) && run in s.inside && other != run
    requires s.now + seconds >= s.inside[run] + TTL
    ensures var late := Next(Next(s, Elapse(seconds)), Acquire(other));
            run in late.inside && other in late.inside && Steals(late, Finish(run))
  {
    assert other !in s.inside;
  }

  /** A checkout gets in exactly when no unexpired key is there, for ten seconds; nobody else is put out. */
  lemma AcquireIff(s: Redis, run: nat)
    requires run !in s.inside
    ensures var n := Next(s, Acquire(run));
            && (run in n.inside <==> s.key.None? || s.now >= s.key.value.expiresAt)
            && (run in n.inside ==> n.key == Some(Key(run, s.now + 10)) && n.inside[run] == s.now)
            && (run !in n.inside ==> n == s)
            && forall other :: other != run ==> (other in n.inside <==> other in s.inside)
  {
  }

  /** In time, the end of a checkout lets the next one in at once, not only after the TTL. */
  lemma FinishLetsNextIn(s: Redis, run: nat, next: nat)
    requires Exclusive(s) && run in s.inside && next != run
    ensures var n := Next(Next(s, Finish(run)), Acquire(next));
            run !in n.inside && n.inside == map[next := s.now]
  {
    assert s.inside - {run} == map[];
    assert next !in s.inside;
  }
}
