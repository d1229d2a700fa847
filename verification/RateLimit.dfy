/** The fixed-window limiter (shared/ratelimit.py). Incrementing the counter and setting its expiry on
    the first hit are one step; an expired key is gone. */
module RateLimit {
  import opened Prelude

  datatype Slot = Slot(count: nat, expiresAt: int)

  function HitSlot(slot: Option<Slot>, now: int, window: nat): Slot {
    if slot.None? || now >= slot.value.expiresAt then Slot(1, now + window)
    else slot.value.(count := slot.value.count + 1)
  }

  class Limiter {
    var slot: Option<Slot>

    ghost predicate Valid()
      reads this
    {
      slot.Some? ==> slot.value.count > 0
    }

    constructor ()
      ensures Valid() && slot == None
    {
      slot := None;
    }

    method Enforce(now: int, limit: nat, window: nat) returns (admitted: bool)
      requires Valid()
      modifies this
      ensures Valid() && slot == Some(HitSlot(old(slot), now, window))
      ensures admitted <==> slot.value.count <= limit
    {
      if slot.Some? && now >= slot.value.expiresAt {
        slot := None;
      }
      var count := if slot.Some? then slot.value.count + 1 else 1;
      if count == 1 {
        slot := Some(Slot(count, now + window));
      } else {
        slot := Some(slot.value.(count := count));
      }
      return count <= limit;
    }
  }

  /** The key after a trace of request times. */
  function After(trace: seq<int>, window: nat): Option<Slot> {
    if trace == [] then None
    else Some(HitSlot(After(trace[..|trace| - 1], window), trace[|trace| - 1], window))
  }

  /** How many requests at times in [from, from + window) were admitted. */
  function AdmittedIn(trace: seq<int>, limit: nat, window: nat, from: int): nat {
    if trace == [] then 0
    else
      var t := trace[|trace| - 1];
      AdmittedIn(trace[..|trace| - 1], limit, window, from)
      + if from <= t < from + window && After(trace, window).value.count <= limit then 1 else 0
  }

  predicate Sorted(trace: seq<int>) {
    forall i, j :: 0 <= i < j < |trace| ==> trace[i] <= trace[j]
  }

  function Min(a: int, b: int): int {
    if a < b then a else b
  }

  /** By where the current window began: before the interval, inside it, or after it. */
  predicate Bounded(trace: seq<int>, limit: nat, window: nat, from: int)
    requires limit > 0
  {
    var n := AdmittedIn(trace, limit, window, from);
    if trace == [] then n == 0
    else
      var slot, last := After(trace, window).value, trace[|trace| - 1];
      var start := slot.expiresAt - window;
      && slot.count > 0 && start <= last < slot.expiresAt
      && (last < from ==> n == 0)
      && (start < from ==> n <= Min(slot.count, limit) - 1)
      && (from <= start < from + window ==> n <= limit - 1 + Min(slot.count, limit))
      && n <= 2 * limit - 1
  }

  lemma {:induction false} TraceBounded(trace: seq<int>, limit: nat, window: nat, from: int)
    requires Sorted(trace) && limit > 0 && window > 0
    ensures Bounded(trace, limit, window, from)
  {
    if trace != [] {
      TraceBounded(trace[..|trace| - 1], limit, window, from);
      assert |trace| > 1 ==> trace[|trace| - 2] <= trace[|trace| - 1];
    }
  }

  /** For every trace of requests, any half-open interval of one window's length admits fewer than twice
      the limit. */
  lemma AdmitsUnderTwiceLimit(trace: seq<int>, limit: nat, window: nat, from: int)
    requires Sorted(trace) && window > 0
    ensures AdmittedIn(trace, limit, window, from) <= if limit == 0 then 0 else 2 * limit - 1
  {
    if limit > 0 {
      TraceBounded(trace, limit, window, from);
    } else {
      NothingAdmitted(trace, window, from);
    }
  }

  lemma {:induction false} NothingAdmitted(trace: seq<int>, window: nat, from: int)
    ensures AdmittedIn(trace, 0, window, from) == 0
    ensures trace != [] ==> After(trace, window).value.count > 0
  {
    if trace != [] {
      NothingAdmitted(trace[..|trace| - 1], window, from);
    }
  }

  // ---------------------------------------------------------------- the bound is met

  /** `n` more requests at one instant. */
  function Burst(trace: seq<int>, t: int, n: nat): seq<int> {
    if n == 0 then trace else Burst(trace, t, n - 1) + [t]
  }

  /** A trace up to time `t`, with the key it leaves and how many it admitted. */
  predicate Reaches(trace: seq<int>, t: int, limit: nat, window: nat, from: int, slot: Slot, admitted: nat) {
    && trace != [] && Sorted(trace) && trace[|trace| - 1] == t
    && After(trace, window) == Some(slot) && AdmittedIn(trace, limit, window, from) == admitted
  }

  lemma SortedOneMore(trace: seq<int>, t: int)
    requires Sorted(trace) && (trace != [] ==> trace[|trace| - 1] <= t)
    ensures Sorted(trace + [t])
  {
    forall i, j | 0 <= i < j < |trace + [t]|
      ensures (trace + [t])[i] <= (trace + [t])[j]
    {
      assert i < |trace| - 1 ==> trace[i] <= trace[|trace| - 1];
    }
  }

  lemma {:induction false} OneMore(trace: seq<int>, t: int, limit: nat, window: nat, from: int, last: int, slot: Slot, admitted: nat)
    requires Reaches(trace, last, limit, window, from, slot, admitted) && last <= t
    ensures var hit := HitSlot(Some(slot), t, window);
            Reaches(trace + [t], t, limit, window, from, hit,
                    admitted + if from <= t < from + window && hit.count <= limit then 1 else 0)
  {
    SortedOneMore(trace, t);
    assert (trace + [t])[..|trace|] == trace;
  }

  /** One more request within the running window and its quota is admitted. */
  lemma {:induction false} OneMoreAdmitted(
      trace: seq<int>, t: int, limit: nat, window: nat, from: int, last: int, slot: Slot, admitted: nat)
    requires Reaches(trace, last, limit, window, from, slot, admitted) && last <= t
    requires t < slot.expiresAt && from <= t < from + window && slot.count < limit
    ensures Reaches(trace + [t], t, limit, window, from, Slot(slot.count + 1, slot.expiresAt), admitted + 1)
  {
    OneMore(trace, t, limit, window, from, last, slot, admitted);
  }

  /** So is a burst. */
  lemma {:induction false} BurstAdmits(
      trace: seq<int>, t: int, n: nat, limit: nat, window: nat, from: int, last: int, slot: Slot, admitted: nat)
    requires Reaches(trace, last, limit, window, from, slot, admitted) && last <= t
    requires t < slot.expiresAt && from <= t < from + window && slot.count + n <= limit
    ensures Reaches(Burst(trace, t, n), if n == 0 then last else t, limit, window, from,
                    Slot(slot.count + n, slot.expiresAt), admitted + n)
  {
    if n > 0 {
      BurstAdmits(trace, t, n - 1, limit, window, from, last, slot, admitted);
      OneMoreAdmitted(Burst(trace, t, n - 1), t, limit, window, from, if n == 1 then last else t,
                      Slot(slot.count + n - 1, slot.expiresAt), admitted + n - 1);
    }
  }

  /** One request opens a window, the rest of its quota comes in its last instant, and a full quota in
      the first instant of the next. */
  function WorstTrace(limit: nat, window: nat): seq<int>
    requires limit > 0
  {
    Burst(Burst([0], window - 1, limit - 1) + [window], window, limit - 1)
  }

  lemma FirstHit(limit: nat, window: nat)
    requires limit > 0 && window > 1
    ensures Reaches([0], 0, limit, window, window - 1, Slot(1, window), 0)
  {
    assert [0][..0] == [];
    assert After([0], window) == Some(HitSlot(After([], window), 0, window));
  }

  /** The bound is tight: 2 * limit - 1 admissions within one window's length. */
  lemma {:induction false} WorstCase(limit: nat, window: nat)
    requires limit > 0 && window > 1
    ensures Sorted(WorstTrace(limit, window))
    ensures AdmittedIn(WorstTrace(limit, window), limit, window, window - 1) == 2 * limit - 1
  {
    FirstHit(limit, window);
    BurstAdmits([0], window - 1, limit - 1, limit, window, window - 1, 0, Slot(1, window), 0);
    var quota := Burst([0], window - 1, limit - 1);
    OneMore(quota, window, limit, window, window - 1, if limit == 1 then 0 else window - 1, Slot(limit, window), limit - 1);
    BurstAdmits(quota + [window], window, limit - 1, limit, window, window - 1, window, Slot(1, 2 * window), limit);
  }

  // ---------------------------------------------------------------- who is admitted

  /** Requests at or after a time. */
  function Since(trace: seq<int>, start: int): nat {
    if trace == [] then 0
    else Since(trace[..|trace| - 1], start) + if trace[|trace| - 1] >= start then 1 else 0
  }

  lemma {:induction false} NoneSince(trace: seq<int>, start: int)
    requires forall i :: 0 <= i < |trace| ==> trace[i] < start
    ensures Since(trace, start) == 0
  {
    if trace != [] {
      NoneSince(trace[..|trace| - 1], start);
    }
  }

  /** The window began with a request, is running, and its counter is the requests since it began. */
  predicate Counts(trace: seq<int>, window: nat, slot: Slot) {
    && trace != [] && slot.expiresAt - window <= trace[|trace| - 1] < slot.expiresAt
    && slot.count == Since(trace, slot.expiresAt - window)
  }

  lemma SinceNow(trace: seq<int>)
    requires Sorted(trace) && trace != [] && (|trace| > 1 ==> trace[|trace| - 2] < trace[|trace| - 1])
    ensures Since(trace, trace[|trace| - 1]) == 1
  {
    NoneSince(trace[..|trace| - 1], trace[|trace| - 1]);
  }

  /** So a request is admitted exactly if, it included, at most `limit` were made since the running window
      began. */
  lemma {:induction false} CounterExact(trace: seq<int>, window: nat)
    requires Sorted(trace) && trace != [] && window > 0
    ensures Counts(trace, window, After(trace, window).value)
  {
    var init, t := trace[..|trace| - 1], trace[|trace| - 1];
    if init == [] {
      SinceNow(trace);
    } else {
      CounterExact(init, window);
      assert trace[|trace| - 2] <= t;
      var before := After(init, window).value;
      if t >= before.expiresAt {
        SinceNow(trace);
      }
    }
  }
}
