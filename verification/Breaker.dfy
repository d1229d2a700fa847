/** The circuit breaker around a synchronous call (shared/http_client.py). Its two fields are proved to
    be a function of everything ever reported to it. */
module Breaker {
  import opened Prelude

  datatype Report = Succeeded(at: int) | Failed(at: int)

  datatype Answer = Unreachable | Interrupted | Response(code: int)

  datatype Reply = Unavailable | Aborted | Answered(code: int)

  /** Failures since the last success. */
  function FailureRun(h: seq<Report>): nat {
    if h == [] || h[|h| - 1].Succeeded? then 0 else 1 + FailureRun(h[..|h| - 1])
  }

  /** Open: enough failures since the last success, the latest of them less than a cooldown old. */
  predicate OpenAt(threshold: int, cooldown: int, h: seq<Report>, now: int) {
    var n := FailureRun(h);
    n > 0 && n >= threshold && now - h[|h| - 1].at < cooldown
  }

  /** What a finished call reports: unreachable and 5xx are failures, every other answer, 4xx included,
      is a success, an interrupted call reports nothing. */
  function ReportOf(answer: Answer, finished: int): Option<Report> {
    match answer
    case Unreachable => Some(Failed(finished))
    case Interrupted => None
    case Response(code) => Some(if code >= 500 then Failed(finished) else Succeeded(finished))
  }

  /** The history once a call that was let through has come back. */
  function Reported(h: seq<Report>, answer: Answer, finished: int): seq<Report> {
    match ReportOf(answer, finished)
    case None => h
    case Some(report) => h + [report]
  }

  function ReplyTo(answer: Answer): Reply {
    match answer
    case Unreachable => Unavailable
    case Interrupted => Aborted
    case Response(code) => if code >= 500 then Unavailable else Answered(code)
  }

  /** The history after a call that asked at `started` and was answered at `finished`. */
  function AfterCall(threshold: int, cooldown: int, h: seq<Report>, started: int, finished: int, answer: Answer)
    : seq<Report>
  {
    if OpenAt(threshold, cooldown, h, started) then h else Reported(h, answer, finished)
  }

  class CircuitBreaker {
    const threshold: int
    const cooldown: int
    var failures: nat
    var openedAt: Option<int>
    ghost var history: seq<Report>

    ghost predicate Valid()
      reads this
    {
      && failures == FailureRun(history)
      && openedAt == (if failures > 0 && failures >= threshold then Some(history[|history| - 1].at) else None)
    }

    constructor (threshold: int, cooldown: int)
      ensures Valid() && history == [] && this.threshold == threshold && this.cooldown == cooldown
    {
      this.threshold, this.cooldown := threshold, cooldown;
      failures, openedAt, history := 0, None, [];
    }

    method IsOpen(now: int) returns (open: bool)
      requires Valid()
      ensures open <==> OpenAt(threshold, cooldown, history, now)
    {
      if openedAt.None? {
        return false;
      }
      if now - openedAt.value >= cooldown {
        return false;
      }
      return true;
    }

    method RecordSuccess(ghost now: int)
      requires Valid()
      modifies this
      ensures Valid() && history == old(history) + [Succeeded(now)]
    {
      failures := 0;
      openedAt := None;
      history := history + [Succeeded(now)];
    }

    method RecordFailure(now: int)
      requires Valid()
      modifies this
      ensures Valid() && history == old(history) + [Failed(now)]
    {
      failures := failures + 1;
      if failures >= threshold {
        openedAt := Some(now);
      }
      history := history + [Failed(now)];
      assert history[..|history| - 1] == old(history);
    }

    /** A call that was let through comes back, other calls having come and gone meanwhile. */
    method HandleAnswer(finished: int, answer: Answer) returns (reply: Reply)
      requires Valid()
      modifies this
      ensures Valid() && history == Reported(old(history), answer, finished)
      ensures reply == ReplyTo(answer)
    {
      match answer {
        case Unreachable =>
          RecordFailure(finished);
          return Unavailable;
        case Interrupted =>
          return Aborted;
        case Response(code) =>
          if code >= 500 {
            RecordFailure(finished);
            return Unavailable;
          }
          RecordSuccess(finished);
          return Answered(code);
      }
    }

    /** One call through the client with nothing in between: refused at once while open, classified
        otherwise. */
    method Request(started: int, finished: int, answer: Answer) returns (reply: Reply)
      requires Valid()
      modifies this
      ensures Valid() && history == AfterCall(threshold, cooldown, old(history), started, finished, answer)
      ensures reply == if OpenAt(threshold, cooldown, old(history), started) then Unavailable else ReplyTo(answer)
    {
      var open := IsOpen(started);
      if open {
        return Unavailable;
      }
      reply := HandleAnswer(finished, answer);
    }
  }

  // ---------------------------------------------------------------- overlapping calls

  datatype Moment = Start(call: nat, at: int) | Finish(call: nat, at: int, answer: Answer)

  /** What was reported, the calls on their way, and all calls ever let through. */
  datatype Client = Client(history: seq<Report>, inFlight: set<nat>, through: set<nat>)

  /** The circuit is asked when a call starts and told when it comes back, and those are two moments. */
  function Next(threshold: int, cooldown: int, c: Client, m: Moment): Client {
    match m
    case Start(call, at) =>
      if call in c.through || OpenAt(threshold, cooldown, c.history, at) then c
      else c.(inFlight := c.inFlight + {call}, through := c.through + {call})
    case Finish(call, at, answer) =>
      if call !in c.inFlight then c
      else c.(history := Reported(c.history, answer, at), inFlight := c.inFlight - {call})
  }

  function Unfold(threshold: int, cooldown: int, c: Client, trace: seq<Moment>): Client {
    if trace == [] then c
    else Next(threshold, cooldown, Unfold(threshold, cooldown, c, trace[..|trace| - 1]), trace[|trace| - 1])
  }

  /** A call that comes back before anything else happens is the sequential call. */
  lemma SequentialCall(threshold: int, cooldown: int, c: Client, call: nat, started: int, finished: int, answer: Answer)
    requires call !in c.through && call !in c.inFlight
    ensures Next(threshold, cooldown, Next(threshold, cooldown, c, Start(call, started)),
                 Finish(call, finished, answer)).history
            == AfterCall(threshold, cooldown, c.history, started, finished, answer)
  {
  }

  lemma {:induction false} HistoryOnlyGrows(threshold: int, cooldown: int, c: Client, trace: seq<Moment>)
    ensures c.history <= Unfold(threshold, cooldown, c, trace).history
  {
    if trace != [] {
      HistoryOnlyGrows(threshold, cooldown, c, trace[..|trace| - 1]);
    }
  }

  /** Every call starts once. */
  predicate NewStarts(c: Client, trace: seq<Moment>) {
    && (forall i :: 0 <= i < |trace| && trace[i].Start? ==> trace[i].call !in c.through)
    && (forall i, j :: 0 <= i < j < |trace| && trace[i].Start? && trace[j].Start? ==> trace[i].call != trace[j].call)
  }

  predicate StartsBy(m: Moment, due: int) {
    m.Start? && m.at >= due
  }

  function DueStarts(trace: seq<Moment>, due: int): set<nat> {
    set i | 0 <= i < |trace| && StartsBy(trace[i], due) :: trace[i].call
  }

  /** The circuit has tripped. */
  predicate Tripped(threshold: int, c: Client) {
    FailureRun(c.history) >= threshold > 0
  }

  lemma {:induction false} DueOneMore(trace: seq<Moment>, due: int)
    requires trace != []
    ensures DueStarts(trace, due) == DueStarts(trace[..|trace| - 1], due)
                                     + if StartsBy(trace[|trace| - 1], due) then {trace[|trace| - 1].call} else {}
  {
    var init := trace[..|trace| - 1];
    forall x
      ensures x in DueStarts(trace, due) <==>
              x in DueStarts(init, due) || (StartsBy(trace[|trace| - 1], due) && x == trace[|trace| - 1].call)
    {
      if x in DueStarts(init, due) {
        var i :| 0 <= i < |init| && StartsBy(init[i], due) && init[i].call == x;
        assert trace[i] == init[i];
      }
      if x in DueStarts(trace, due) {
        var i :| 0 <= i < |trace| && StartsBy(trace[i], due) && trace[i].call == x;
        assert i < |init| ==> init[i] == trace[i];
      }
    }
  }

  /** One more moment without a report. */
  lemma {:induction false} OneMoreMoment(threshold: int, cooldown: int, c: Client, b: Client, m: Moment, due: int)
    requires Tripped(threshold, c) && due == c.history[|c.history| - 1].at + cooldown
    requires b.history == c.history == Next(threshold, cooldown, b, m).history
    requires m.Start? ==> m.call !in b.through
    ensures Next(threshold, cooldown, b, m).through == b.through + if StartsBy(m, due) then {m.call} else {}
  {
  }

  lemma NotStartedBefore(c: Client, trace: seq<Moment>, due: int)
    requires NewStarts(c, trace) && trace != [] && trace[|trace| - 1].Start?
    ensures trace[|trace| - 1].call !in c.through + DueStarts(trace[..|trace| - 1], due)
  {
  }

  /** From a trip to the next report, in every interleaving of starting, returning and interrupted calls,
      the calls let through are exactly those started at least a cooldown after the latest failure. */
  lemma {:induction false} LetThroughExactly(threshold: int, cooldown: int, c: Client, trace: seq<Moment>)
    requires Tripped(threshold, c) && NewStarts(c, trace)
    requires Unfold(threshold, cooldown, c, trace).history == c.history
    ensures Unfold(threshold, cooldown, c, trace).through
            == c.through + DueStarts(trace, c.history[|c.history| - 1].at + cooldown)
  {
    if trace != [] {
      var init, m := trace[..|trace| - 1], trace[|trace| - 1];
      var b := Unfold(threshold, cooldown, c, init);
      var due := c.history[|c.history| - 1].at + cooldown;
      HistoryOnlyGrows(threshold, cooldown, c, init);
      assert b.history == c.history;
      LetThroughExactly(threshold, cooldown, c, init);
      DueOneMore(trace, due);
      if m.Start? {
        NotStartedBefore(c, trace, due);
      }
      OneMoreMoment(threshold, cooldown, c, b, m, due);
    }
  }

  lemma AtMostOneIff(s: set<nat>)
    ensures |s| <= 1 <==> forall x, y :: x in s && y in s ==> x == y
  {
    if x, y :| x in s && y in s && x != y {
      assert y in s - {x} && |s - {x}| == |s| - 1;
      assert |s| > 1;
    } else if s != {} {
      var x :| x in s;
      assert s == {x};
    }
  }

  /** So the promise of a single probe until it reports back holds if and only if no two calls start
      after the cooldown. */
  lemma {:induction false} SingleProbeIff(threshold: int, cooldown: int, c: Client, trace: seq<Moment>)
    requires Tripped(threshold, c) && NewStarts(c, trace)
    requires Unfold(threshold, cooldown, c, trace).history == c.history
    ensures var due := c.history[|c.history| - 1].at + cooldown;
            |Unfold(threshold, cooldown, c, trace).through - c.through| <= 1
            <==> forall i, j :: 0 <= i < j < |trace| ==> !(StartsBy(trace[i], due) && StartsBy(trace[j], due))
  {
    var due := c.history[|c.history| - 1].at + cooldown;
    LetThroughExactly(threshold, cooldown, c, trace);
    var s := DueStarts(trace, due);
    assert Unfold(threshold, cooldown, c, trace).through - c.through == s;
    AtMostOneIff(s);
    forall i, j | 0 <= i < j < |trace| && StartsBy(trace[i], due) && StartsBy(trace[j], due)
      ensures trace[i].call in s && trace[j].call in s && trace[i].call != trace[j].call
    {
    }
    if x, y :| x in s && y in s && x != y {
      var i :| 0 <= i < |trace| && StartsBy(trace[i], due) && trace[i].call == x;
      var j :| 0 <= j < |trace| && StartsBy(trace[j], due) && trace[j].call == y;
      assert i < j || j < i;
    }
  }

  // ---------------------------------------------------------------- a dependency that answers

  /** Every call that comes back was answered, with whatever below 500, or was interrupted. */
  predicate Answering(trace: seq<Moment>) {
    forall i :: 0 <= i < |trace| && trace[i].Finish? ==>
      trace[i].answer == Interrupted || (trace[i].answer.Response? && trace[i].answer.code < 500)
  }

  function Started(trace: seq<Moment>): set<nat> {
    set i | 0 <= i < |trace| && trace[i].Start? :: trace[i].call
  }

  lemma StartedOneMore(trace: seq<Moment>)
    requires trace != []
    ensures Started(trace) == Started(trace[..|trace| - 1])
                              + if trace[|trace| - 1].Start? then {trace[|trace| - 1].call} else {}
  {
    var init := trace[..|trace| - 1];
    forall x
      ensures x in Started(trace) <==>
              x in Started(init) || (trace[|trace| - 1].Start? && x == trace[|trace| - 1].call)
    {
      if x in Started(init) {
        var i :| 0 <= i < |init| && init[i].Start? && init[i].call == x;
        assert trace[i] == init[i];
      }
      if x in Started(trace) {
        var i :| 0 <= i < |trace| && trace[i].Start? && trace[i].call == x;
        assert i < |init| ==> init[i] == trace[i];
      }
    }
  }

  /** Rejections are answers: a service that only ever says no is never cut off, in any interleaving, and no
      call to it is refused. */
  lemma {:induction false} AnsweringNeverCutOff(threshold: int, cooldown: int, trace: seq<Moment>)
    requires Answering(trace)
    ensures var c := Unfold(threshold, cooldown, Client([], {}, {}), trace);
            && FailureRun(c.history) == 0 && c.through == Started(trace)
            && forall now :: !OpenAt(threshold, cooldown, c.history, now)
  {
    if trace != [] {
      assert forall i :: 0 <= i < |trace| - 1 ==> trace[..|trace| - 1][i] == trace[i];
      AnsweringNeverCutOff(threshold, cooldown, trace[..|trace| - 1]);
      StartedOneMore(trace);
    }
  }

  // ---------------------------------------------------------------- a dependency that is down

  datatype Call = Call(started: int, finished: int, answer: Answer)

  /** One call after the other, each answered by a failure. */
  predicate SequentialFailures(calls: seq<Call>) {
    && (forall i :: 0 <= i < |calls| ==>
          calls[i].started <= calls[i].finished
          && (calls[i].answer == Unreachable || (calls[i].answer.Response? && calls[i].answer.code >= 500)))
    && (forall i, j :: 0 <= i < j < |calls| ==> calls[i].finished <= calls[j].started)
  }

  function HistoryOf(threshold: int, cooldown: int, calls: seq<Call>): seq<Report> {
    if calls == [] then []
    else
      var c := calls[|calls| - 1];
      AfterCall(threshold, cooldown, HistoryOf(threshold, cooldown, calls[..|calls| - 1]),
                c.started, c.finished, c.answer)
  }

  lemma {:induction false} AllFailures(h: seq<Report>)
    requires forall i :: 0 <= i < |h| ==> h[i].Failed?
    ensures FailureRun(h) == |h|
  {
    if h != [] {
      AllFailures(h[..|h| - 1]);
    }
  }

  /** Failures, each from the threshold-th on at least a cooldown after the one before. */
  predicate SpacedOut(threshold: nat, cooldown: nat, h: seq<Report>)
    requires threshold > 0
  {
    && (forall i :: 0 <= i < |h| ==> h[i].Failed?)
    && (forall i :: threshold - 1 <= i < |h| ==> h[i].at >= h[threshold - 1].at + (i + 1 - threshold) * cooldown)
  }

  lemma SpacedOneMore(threshold: nat, cooldown: nat, h: seq<Report>, at: int)
    requires threshold > 0 && SpacedOut(threshold, cooldown, h)
    requires |h| >= threshold ==> at >= h[|h| - 1].at + cooldown
    ensures SpacedOut(threshold, cooldown, h + [Failed(at)])
  {
    var k := |h|;
    if k >= threshold {
      assert h[k - 1].at >= h[threshold - 1].at + (k - threshold) * cooldown;
      assert (k + 1 - threshold) * cooldown == (k - threshold) * cooldown + cooldown;
    }
  }

  predicate FailsAt(c: Call) {
    c.started <= c.finished && (c.answer == Unreachable || (c.answer.Response? && c.answer.code >= 500))
  }

  /** One more failing call, begun after everything so far. */
  lemma {:induction false} OneMoreCall(threshold: nat, cooldown: nat, before: seq<Report>, c: Call)
    requires threshold > 0 && SpacedOut(threshold, cooldown, before) && FailsAt(c)
    requires before != [] ==> before[|before| - 1].at <= c.started
    ensures var h := AfterCall(threshold, cooldown, before, c.started, c.finished, c.answer);
            SpacedOut(threshold, cooldown, h) && (h != [] ==> h[|h| - 1].at <= c.finished)
  {
    AllFailures(before);
    if !OpenAt(threshold, cooldown, before, c.started) {
      SpacedOneMore(threshold, cooldown, before, c.finished);
    }
  }

  /** Counting failures from one, the n-th real call to a dead dependency fails at least
      (n - threshold) cooldowns after the threshold-th did: calls in between fail fast. */
  lemma {:induction false} DeadDependencySpared(threshold: nat, cooldown: nat, calls: seq<Call>)
    requires threshold > 0 && SequentialFailures(calls)
    ensures var h := HistoryOf(threshold, cooldown, calls);
            && SpacedOut(threshold, cooldown, h)
            && (h != [] ==> calls != [] && h[|h| - 1].at <= calls[|calls| - 1].finished)
  {
    if calls != [] {
      DeadDependencySpared(threshold, cooldown, calls[..|calls| - 1]);
      OneMoreCall(threshold, cooldown, HistoryOf(threshold, cooldown, calls[..|calls| - 1]), calls[|calls| - 1]);
    }
  }

  lemma {:induction false} FailuresReported(threshold: nat, cooldown: nat, calls: seq<Call>)
    requires threshold > 0 && SequentialFailures(calls)
    ensures |HistoryOf(threshold, cooldown, calls)| >= if |calls| < threshold then |calls| else threshold
  {
    if calls != [] {
      var init := calls[..|calls| - 1];
      FailuresReported(threshold, cooldown, init);
      DeadDependencySpared(threshold, cooldown, init);
      AllFailures(HistoryOf(threshold, cooldown, init));
    }
  }

  /** And it does trip: after `threshold` failing calls in a row, until a cooldown after the latest failure,
      every call is refused. */
  lemma {:induction false} DeadDependencyTrips(threshold: nat, cooldown: nat, calls: seq<Call>, now: int)
    requires threshold > 0 && SequentialFailures(calls) && |calls| >= threshold
    ensures var h := HistoryOf(threshold, cooldown, calls);
            |h| >= threshold && (OpenAt(threshold, cooldown, h, now) <==> now < h[|h| - 1].at + cooldown)
  {
    FailuresReported(threshold, cooldown, calls);
    DeadDependencySpared(threshold, cooldown, calls);
    AllFailures(HistoryOf(threshold, cooldown, calls));
  }
}
