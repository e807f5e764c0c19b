/**
 The async circuit breaker (app/infrastructure/resilience/circuit_breaker.py). A call awaits in the
 middle, so it is modelled as a beginning and an end with other calls' steps in between.
 */
module CircuitBreaker {
  import opened Wrappers

  datatype State = CLOSED | OPEN | HALF_OPEN

  datatype Config = Config(threshold: int, timeout: int)

  datatype Breaker = Breaker(state: State, failures: int, openedAt: Option<int>)

  const CLOSED_BREAKER := Breaker(CLOSED, 0, None)

  // ---------- The steps as functions ----------

  predicate Admits(c: Config, b: Breaker, now: int) {
    b.state != OPEN || now - (if b.openedAt.Some? then b.openedAt.value else 0) >= c.timeout
  }

  function Begun(c: Config, b: Breaker, now: int): Breaker {
    if b.state == OPEN && Admits(c, b, now) then b.(state := HALF_OPEN) else b
  }

  function Succeeded(b: Breaker): Breaker {
    CLOSED_BREAKER
  }

  function Failed(c: Config, b: Breaker, now: int): Breaker {
    if b.state == HALF_OPEN || b.failures + 1 >= c.threshold then Breaker(OPEN, 0, Some(now))
    else b.(failures := b.failures + 1)
  }

  class AsyncCircuitBreaker {
    const config: Config
    var state: State
    var failureCount: int
    var openedAt: Option<int>

    ghost function View(): Breaker
      reads this
    {
      Breaker(state, failureCount, openedAt)
    }

    constructor (config: Config)
      ensures this.config == config && View() == CLOSED_BREAKER
    {
      this.config := config;
      state, failureCount, openedAt := CLOSED, 0, None;
    }

    method TransitionTo(s: State, now: int)
      modifies this
      ensures View() == if s == OPEN then Breaker(OPEN, 0, Some(now)) else old(View()).(state := s)
    {
      state := s;
      if s == OPEN {
        openedAt := Some(now);
        failureCount := 0;
      }
    }

    /** The part of call before the await; false stands for CircuitBreakerOpenError. */
    method Begin(now: int) returns (admitted: bool)
      modifies this
      ensures admitted == Admits(config, old(View()), now)
      ensures View() == Begun(config, old(View()), now)
    {
      if state == OPEN {
        var elapsed := now - (if openedAt.Some? then openedAt.value else 0);
        if elapsed >= config.timeout {
          TransitionTo(HALF_OPEN, now);
        } else {
          return false;
        }
      }
      admitted := true;
    }

    method OnSuccess()
      modifies this
      ensures View() == Succeeded(old(View()))
    {
      state := CLOSED;
      failureCount := 0;
      openedAt := None;
    }

    method OnFailure(now: int)
      modifies this
      ensures View() == Failed(config, old(View()), now)
      ensures if old(state) == HALF_OPEN || old(failureCount) + 1 >= config.threshold
              then state == OPEN && failureCount == 0 && openedAt == Some(now)
              else state == old(state) && failureCount == old(failureCount) + 1 && openedAt == old(openedAt)
    {
      failureCount := failureCount + 1;
      if state == HALF_OPEN || failureCount >= config.threshold {
        TransitionTo(OPEN, now);
      }
    }
  }

  // ---------- Interleaved calls ----------

  /** A cancelled call raises CancelledError, which `except Exception` does not see. */
  datatype Event = Begin(now: int) | Succeed(now: int) | Fail(now: int) | Cancel(now: int)

  /** The breaker, the calls being awaited, and how many calls were let in so far. */
  datatype Sys = Sys(b: Breaker, inFlight: nat, admitted: nat)

  function Step(c: Config, s: Sys, ev: Event): Sys {
    match ev
    case Begin(now) =>
      if Admits(c, s.b, now) then Sys(Begun(c, s.b, now), s.inFlight + 1, s.admitted + 1) else s
    case Succeed(_) => if s.inFlight == 0 then s else Sys(Succeeded(s.b), s.inFlight - 1, s.admitted)
    case Fail(now) => if s.inFlight == 0 then s else Sys(Failed(c, s.b, now), s.inFlight - 1, s.admitted)
    case Cancel(_) => if s.inFlight == 0 then s else s.(inFlight := s.inFlight - 1)
  }

  function Run(c: Config, s: Sys, events: seq<Event>): Sys {
    if events == [] then s else Step(c, Run(c, s, events[..|events| - 1]), events[|events| - 1])
  }

  predicate Inv(c: Config, b: Breaker) {
    && (b.state == CLOSED <==> b.openedAt.None?)
    && 0 <= b.failures
    && (b.failures < c.threshold || b.failures == 0)
  }

  /** Under any interleaving: CLOSED iff no opening time is set, and the count stays below the threshold. */
  lemma {:induction false} AlwaysConsistent(c: Config, events: seq<Event>)
    ensures Inv(c, Run(c, Sys(CLOSED_BREAKER, 0, 0), events).b)
  {
    if events != [] {
      AlwaysConsistent(c, events[..|events| - 1]);
    }
  }

  /** A rejected call changes nothing, and only an open breaker before its timeout rejects. */
  lemma RejectedIff(c: Config, s: Sys, now: int)
    requires Inv(c, s.b)
    ensures Step(c, s, Begin(now)) == s <==> s.b.state == OPEN && now < s.b.openedAt.value + c.timeout
  {
  }

  // ---------- While the breaker is open ----------

  /** The k-th event ends a call that was under way. */
  predicate Ends(c: Config, s: Sys, events: seq<Event>, k: nat)
    requires k < |events|
  {
    (events[k].Succeed? || events[k].Fail?) && Run(c, s, events[..k]).inFlight > 0
  }

  /** A call under way that fails now opens the breaker: as a probe, or as the threshold's failure. */
  predicate Trips(c: Config, s: Sys) {
    s.inFlight > 0 && (s.b.state == HALF_OPEN || s.b.failures + 1 >= c.threshold)
  }

  /** All events lie between the failure that opened the breaker and the end of the timeout. */
  ghost predicate Within(c: Config, trip: int, events: seq<Event>) {
    forall i :: 0 <= i < |events| ==> trip <= events[i].now < trip + c.timeout
  }

  /** A call under way has succeeded. */
  predicate HadSuccess(c: Config, s: Sys, events: seq<Event>) {
    events != [] && (
      || (Ends(c, s, events, |events| - 1) && events[|events| - 1].Succeed?)
      || HadSuccess(c, s, events[..|events| - 1]))
  }

  /** How many calls under way have failed since one last succeeded. */
  function FailsSince(c: Config, s: Sys, events: seq<Event>): nat {
    if events == [] || (Ends(c, s, events, |events| - 1) && events[|events| - 1].Succeed?) then 0
    else FailsSince(c, s, events[..|events| - 1]) + (if Ends(c, s, events, |events| - 1) then 1 else 0)
  }

  /**
   From a failure that opens the breaker until the timeout it is closed again iff a call that was
   already under way has succeeded and fewer calls than the threshold have failed since; otherwise it
   is open, and never half open.
   */
  lemma {:induction false} ClosedInWindowIff(c: Config, s: Sys, trip: int, events: seq<Event>)
    requires Inv(c, s.b) && Trips(c, s) && Within(c, trip, events)
    ensures var t := Step(c, s, Fail(trip));
      var u := Run(c, t, events);
      && u.b.state != HALF_OPEN && Inv(c, u.b)
      && (u.b.state == OPEN ==> u.b.openedAt.value >= trip)
      && (u.b.state == CLOSED <==> HadSuccess(c, t, events) && (FailsSince(c, t, events) < c.threshold || FailsSince(c, t, events) == 0))
      && (u.b.state == CLOSED ==> u.b.failures == FailsSince(c, t, events))
  {
    if events != [] {
      assert events[|events| - 1].now >= trip;
      ClosedInWindowIff(c, s, trip, events[..|events| - 1]);
    }
  }

  /** So a call that begins before the timeout is let in exactly then. */
  lemma AdmittedInWindowIff(c: Config, s: Sys, trip: int, events: seq<Event>, now: int)
    requires Inv(c, s.b) && Trips(c, s) && Within(c, trip, events + [Begin(now)])
    ensures var t := Step(c, s, Fail(trip));
      Run(c, t, events + [Begin(now)]).admitted == Run(c, t, events).admitted + 1
      <==> HadSuccess(c, t, events) && (FailsSince(c, t, events) < c.threshold || FailsSince(c, t, events) == 0)
  {
    assert (events + [Begin(now)])[..|events|] == events;
    assert (events + [Begin(now)])[|events|].now == now;
    assert Within(c, trip, events) by {
      assert forall i :: 0 <= i < |events| ==> (events + [Begin(now)])[i] == events[i];
    }
    ClosedInWindowIff(c, s, trip, events);
  }

  /** Fail fast: before a call under way succeeds, none is let in until the timeout. */
  lemma {:induction false} NoAdmissionBeforeASuccess(c: Config, s: Sys, trip: int, events: seq<Event>)
    requires Inv(c, s.b) && Trips(c, s) && Within(c, trip, events)
    requires !HadSuccess(c, Step(c, s, Fail(trip)), events)
    ensures Run(c, Step(c, s, Fail(trip)), events).admitted == s.admitted
    ensures Run(c, Step(c, s, Fail(trip)), events).b.state == OPEN
  {
    ClosedInWindowIff(c, s, trip, events);
    if events != [] {
      var front := events[..|events| - 1];
      NoAdmissionBeforeASuccess(c, s, trip, front);
      ClosedInWindowIff(c, s, trip, front);
      assert events[|events| - 1].now < trip + c.timeout;
    }
  }

  /** The k-th event is a failure that opens the breaker. */
  predicate TripsAt(c: Config, s: Sys, events: seq<Event>, k: nat)
    requires k < |events|
  {
    events[k].Fail? && Trips(c, Run(c, s, events[..k]))
  }

  /** How many calls have failed since a call succeeded or the breaker was last opened. */
  function Strikes(c: Config, s: Sys, events: seq<Event>): nat {
    if events == [] then 0
    else
      var last := |events| - 1;
      if TripsAt(c, s, events, last) || (Ends(c, s, events, last) && events[last].Succeed?) then 0
      else Strikes(c, s, events[..last]) + (if Ends(c, s, events, last) then 1 else 0)
  }

  /** The k-th event opened the breaker, and since then none opened it again and no call succeeded. */
  ghost predicate LastTrip(c: Config, s: Sys, events: seq<Event>, k: nat) {
    && k < |events| && TripsAt(c, s, events, k)
    && forall j :: k < j < |events| ==> !TripsAt(c, s, events, j) && !(Ends(c, s, events, j) && events[j].Succeed?)
  }

  /**
   Over any history the count is the failures since a call succeeded or the breaker was last opened,
   and a breaker that is not closed carries the time of the failure that last opened it.
   */
  lemma {:induction false} OpenedAtTheLastTrip(c: Config, events: seq<Event>)
    ensures var s := Sys(CLOSED_BREAKER, 0, 0);
      var t := Run(c, s, events);
      && t.b.failures == Strikes(c, s, events)
      && (t.b.state != CLOSED ==> exists k: nat :: LastTrip(c, s, events, k) && t.b.openedAt == Some(events[k].now))
  {
    var s := Sys(CLOSED_BREAKER, 0, 0);
    if events != [] {
      var front, last := events[..|events| - 1], |events| - 1;
      OpenedAtTheLastTrip(c, front);
      AlwaysConsistent(c, front);
      var t := Run(c, s, events);
      if TripsAt(c, s, events, last) {
        assert LastTrip(c, s, events, last);
      } else if t.b.state != CLOSED && !(Ends(c, s, events, last) && events[last].Succeed?) {
        var k: nat :| LastTrip(c, s, front, k) && Run(c, s, front).b.openedAt == Some(front[k].now);
        SameSoFar(c, s, events, k);
        assert LastTrip(c, s, events, k);
      }
    }
  }

  lemma SameSoFar(c: Config, s: Sys, events: seq<Event>, k: nat)
    requires k < |events| - 1 && LastTrip(c, s, events[..|events| - 1], k)
    requires !TripsAt(c, s, events, |events| - 1) && !(Ends(c, s, events, |events| - 1) && events[|events| - 1].Succeed?)
    ensures LastTrip(c, s, events, k)
  {
    var front := events[..|events| - 1];
    assert forall j :: 0 <= j < |front| ==> front[j] == events[j] && front[..j] == events[..j];
    forall j | k < j < |events|
      ensures !TripsAt(c, s, events, j) && !(Ends(c, s, events, j) && events[j].Succeed?)
    {
      if j < |front| {
        assert !TripsAt(c, s, front, j) && !(Ends(c, s, front, j) && front[j].Succeed?);
      }
    }
  }

  /** The breaker opens while a second call is under way; that call succeeds, and the next is let in at once. */
  lemma SuccessUnderWayLetsCallsIn(timeout: int)
    requires timeout > 1
    ensures var c := Config(1, timeout);
      var tripped := Run(c, Sys(CLOSED_BREAKER, 0, 0), [Begin(0), Begin(0), Fail(1)]);
      && tripped == Sys(Breaker(OPEN, 0, Some(1)), 1, 2)
      && Within(c, 1, [Succeed(2), Begin(2)])
      && Run(c, tripped, [Succeed(2), Begin(2)]) == Sys(CLOSED_BREAKER, 1, 3)
  {
    var c := Config(1, timeout);
    var start := Sys(CLOSED_BREAKER, 0, 0);
    RunOfThree(c, start, Begin(0), Begin(0), Fail(1));
    var tripped := Run(c, start, [Begin(0), Begin(0), Fail(1)]);
    RunOfTwo(c, tripped, Succeed(2), Begin(2));
  }

  lemma RunOfTwo(c: Config, s: Sys, a: Event, b: Event)
    ensures Run(c, s, [a, b]) == Step(c, Step(c, s, a), b)
  {
    assert [a, b][..1] == [a] && [a][..0] == [];
    assert Run(c, s, [a]) == Step(c, s, a);
  }

  lemma RunOfThree(c: Config, s: Sys, a: Event, b: Event, d: Event)
    ensures Run(c, s, [a, b, d]) == Step(c, Step(c, Step(c, s, a), b), d)
  {
    RunOfTwo(c, s, a, b);
    assert [a, b, d][..2] == [a, b];
  }

  // ---------- While it is half open ----------

  function Begins(n: nat, now: int): seq<Event> {
    if n == 0 then [] else Begins(n - 1, now) + [Begin(now)]
  }

  lemma RunSnoc(c: Config, s: Sys, front: seq<Event>, ev: Event)
    ensures Run(c, s, front + [ev]) == Step(c, Run(c, s, front), ev)
  {
    assert (front + [ev])[..|front|] == front;
  }

  /** Half open, the breaker lets in every call, not one probe: any number can be under way. */
  lemma {:induction false} HalfOpenAdmitsAll(c: Config, s: Sys, n: nat, now: int)
    requires s.b.state == HALF_OPEN || (s.b.state == OPEN && Admits(c, s.b, now))
    ensures var t := Run(c, s, Begins(n, now));
      t.admitted == s.admitted + n && t.inFlight == s.inFlight + n && (n > 0 ==> t.b.state == HALF_OPEN)
  {
    if n > 0 {
      HalfOpenAdmitsAll(c, s, n - 1, now);
      hide Run, Admits;
      RunSnoc(c, s, Begins(n - 1, now), Begin(now));
    }
  }

  /** The breaker leaves HALF_OPEN at some point iff some call under way ends other than by cancellation. */
  lemma HalfOpenLeftIff(c: Config, s: Sys, events: seq<Event>)
    requires s.b.state == HALF_OPEN
    ensures (exists k :: 0 <= k <= |events| && Run(c, s, events[..k]).b.state != HALF_OPEN)
       <==> (exists k :: 0 <= k < |events| && Ends(c, s, events, k))
  {
    if k :| 0 <= k < |events| && Ends(c, s, events, k) {
      assert events[..k + 1][..k] == events[..k];
      assert Run(c, s, events[..k]).b.state != HALF_OPEN || Run(c, s, events[..k + 1]).b.state != HALF_OPEN;
    } else {
      forall k | 0 <= k <= |events|
        ensures Run(c, s, events[..k]).b.state == HALF_OPEN
      {
        StaysHalfOpen(c, s, events, k);
      }
    }
  }

  /** Nobody resets a breaker whose only probe was cancelled: without another call's end it stays as it is. */
  lemma {:induction false} StaysHalfOpen(c: Config, s: Sys, events: seq<Event>, k: nat)
    requires s.b.state == HALF_OPEN && k <= |events|
    requires forall i :: 0 <= i < |events| ==> !Ends(c, s, events, i)
    ensures Run(c, s, events[..k]).b == s.b
  {
    if k > 0 {
      StaysHalfOpen(c, s, events, k - 1);
      assert events[..k][..k - 1] == events[..k - 1];
      assert !Ends(c, s, events, k - 1);
    }
  }

  /** Two probes are under way; cancelling both leaves the breaker half open with nobody to settle it. */
  lemma TwoProbesThenNone(timeout: nat)
    ensures var c := Config(1, timeout);
      var tripped := Run(c, Sys(CLOSED_BREAKER, 0, 0), [Begin(0), Fail(0)]);
      && tripped == Sys(Breaker(OPEN, 0, Some(0)), 0, 1)
      && Run(c, tripped, [Begin(timeout), Begin(timeout)]) == Sys(Breaker(HALF_OPEN, 0, Some(0)), 2, 3)
      && Run(c, Run(c, tripped, [Begin(timeout), Begin(timeout)]), [Cancel(timeout), Cancel(timeout)])
         == Sys(Breaker(HALF_OPEN, 0, Some(0)), 0, 3)
  {
    var c := Config(1, timeout);
    RunOfTwo(c, Sys(CLOSED_BREAKER, 0, 0), Begin(0), Fail(0));
    var tripped := Run(c, Sys(CLOSED_BREAKER, 0, 0), [Begin(0), Fail(0)]);
    RunOfTwo(c, tripped, Begin(timeout), Begin(timeout));
    RunOfTwo(c, Run(c, tripped, [Begin(timeout), Begin(timeout)]), Cancel(timeout), Cancel(timeout));
  }

  // ---------- One call at a time ----------

  /** A call that is not cancelled: when it begins, when it ends and how. */
  datatype Call = Call(begin: int, end: int, ok: bool)

  datatype Outcome = REJECTED | SUCCEEDED | FAILED

  function OneCall(c: Config, b: Breaker, call: Call): (Breaker, Outcome) {
    if !Admits(c, b, call.begin) then (b, REJECTED)
    else if call.ok then (Succeeded(Begun(c, b, call.begin)), SUCCEEDED)
    else (Failed(c, Begun(c, b, call.begin), call.end), FAILED)
  }

  function Sequence(c: Config, calls: seq<Call>): (Breaker, seq<Outcome>) {
    if calls == [] then (CLOSED_BREAKER, [])
    else
      var (b, os) := Sequence(c, calls[..|calls| - 1]);
      var (d, o) := OneCall(c, b, calls[|calls| - 1]);
      (d, os + [o])
  }

  /** How many calls in a row, up to the last, did not succeed. */
  function SinceSuccess(os: seq<Outcome>): nat {
    if os == [] || os[|os| - 1] == SUCCEEDED then 0 else 1 + SinceSuccess(os[..|os| - 1])
  }

  /**
   Used one call at a time the breaker is never left half open; it is closed iff fewer calls than
   the threshold have gone wrong since the last success, and then its count is their number.
   */
  lemma {:induction false} SequentialUse(c: Config, calls: seq<Call>)
    requires c.threshold >= 1
    ensures var (b, os) := Sequence(c, calls);
      && b.state != HALF_OPEN
      && (b.state == CLOSED <==> SinceSuccess(os) < c.threshold)
      && (b.state == CLOSED ==> b.failures == SinceSuccess(os))
      && |os| == |calls|
  {
    if calls != [] {
      SequentialUse(c, calls[..|calls| - 1]);
      var (b, os) := Sequence(c, calls[..|calls| - 1]);
      var o := OneCall(c, b, calls[|calls| - 1]).1;
      assert (os + [o])[..|os|] == os;
    }
  }

  /** One call is what the steps make of it when nothing comes in between. */
  lemma OneCallIsItsSteps(c: Config, b: Breaker, call: Call)
    ensures var r := OneCall(c, b, call);
      var end := if call.ok then Succeed(call.end) else Fail(call.end);
      Run(c, Sys(b, 0, 0), if r.1 == REJECTED then [Begin(call.begin)] else [Begin(call.begin), end]).b == r.0
  {
    var one := [Begin(call.begin)];
    assert one[..0] == [];
    var end := if call.ok then Succeed(call.end) else Fail(call.end);
    var two := [Begin(call.begin), end];
    assert two[..1] == one;
    assert Run(c, Sys(b, 0, 0), one) == Step(c, Sys(b, 0, 0), Begin(call.begin));
    assert Run(c, Sys(b, 0, 0), two) == Step(c, Run(c, Sys(b, 0, 0), one), end);
  }
}
