/** The single-instance `Timer` that races an operation against a deadline.
    The instance state is whether a timeout is pending (`timeoutId` set) and
    whether it has fired (`timedOut`); one race is the sequence of events
    that follows a successful `start`. Timer ids are positive, so "an id is
    set" and "the id is truthy" coincide. */
module Timers {
  import opened Wrappers

  datatype Timer = Timer(pending: bool, timedOut: bool)

  /** A new instance: nothing pending, never fired. */
  const NewTimer := Timer(false, false)

  const AlreadyRunning := "timer is already running"
  const AlreadyTimedOut := "timer has already timed out"
  const TimeoutReason := "timeout"

  /** The guards of `start`, then arming the timeout. */
  function Start(t: Timer): (r: Result<Timer, string>)
    ensures t.pending ==> r == Failure(AlreadyRunning)
    ensures !t.pending && t.timedOut ==> r == Failure(AlreadyTimedOut)
    ensures r.Success? <==> !t.pending && !t.timedOut
    ensures r.Success? ==> r.value.pending && !r.value.timedOut
  {
    if t.pending then Failure(AlreadyRunning)
    else if t.timedOut then Failure(AlreadyTimedOut)
    else Success(Timer(true, false))
  }

  /** `stop`: clear any pending timeout; `timedOut` is left as it is. */
  function Stop(t: Timer): (r: Timer)
    ensures !r.pending && r.timedOut == t.timedOut
  {
    Timer(false, t.timedOut)
  }

  /** `isTimedOut`. */
  function IsTimedOut(t: Timer): bool {
    t.timedOut
  }

  /** `stop` twice is `stop` once. */
  lemma StopIdempotent(t: Timer)
    ensures Stop(Stop(t)) == Stop(t)
    ensures IsTimedOut(Stop(t)) == IsTimedOut(t)
  {
  }

  /** How `start`'s returned promise settled. */
  datatype Settled<T> = Fulfilled(value: T) | Rejected(reason: string)

  /** What can happen once a race is under way: the timeout callback runs
      (`onTimeout` either returns or throws), the operation's promise
      settles, or someone calls `stop`. */
  datatype RaceEvent<T> =
    | Fire(onTimeoutThrows: Option<string>)
    | OpResolves(result: T)
    | OpRejects(reason: string)
    | StopCalled

  /** One race: the instance, whether the operation has settled, how the race
      promise settled (first settler wins), and how often `onTimeout` ran. */
  datatype Race<T> = Race(timer: Timer, opSettled: bool, outcome: Option<Settled<T>>, onTimeoutCalls: nat)

  /** The race that a successful `start` begins. */
  function Begin<T>(t: Timer): (r: Result<Race<T>, string>)
    ensures r.Success? <==> Start(t).Success?
    ensures r.Failure? ==> r.error == Start(t).error
    ensures r.Success? ==> r.value == Race(Start(t).value, false, None, 0)
  {
    var armed :- Start(t);
    Success(Race(armed, false, None, 0))
  }

  function FirstSettles<T>(outcome: Option<Settled<T>>, s: Settled<T>): Option<Settled<T>> {
    if outcome.Some? then outcome else Some(s)
  }

  /** One event. A cleared timeout never fires; an operation settles once.
      The timeout callback clears the id, sets `timedOut`, runs `onTimeout`
      and rejects with "timeout" or with what `onTimeout` threw. Success of
      the operation stops the timer; failure leaves it pending. */
  function RaceStep<T>(r: Race<T>, e: RaceEvent<T>): Race<T> {
    match e
    case Fire(thrown) =>
      if !r.timer.pending then r
      else Race(Timer(false, true), r.opSettled,
                FirstSettles(r.outcome, Rejected(thrown.GetOr(TimeoutReason))),
                r.onTimeoutCalls + 1)
    case OpResolves(v) =>
      if r.opSettled then r
      else Race(Stop(r.timer), true, FirstSettles(r.outcome, Fulfilled(v)), r.onTimeoutCalls)
    case OpRejects(reason) =>
      if r.opSettled then r
      else Race(r.timer, true, FirstSettles(r.outcome, Rejected(reason)), r.onTimeoutCalls)
    case StopCalled =>
      r.(timer := Stop(r.timer))
  }

  function RunRace<T>(r: Race<T>, es: seq<RaceEvent<T>>): Race<T>
    decreases |es|
  {
    if |es| == 0 then r else RunRace(RaceStep(r, es[0]), es[1..])
  }

  /** Firing: the id is cleared, `timedOut` is set, `onTimeout` runs once,
      and an unsettled race rejects with "timeout" or with `onTimeout`'s
      error. */
  lemma FireRejects<T>(r: Race<T>, thrown: Option<string>)
    requires r.timer.pending && r.outcome.None?
    ensures RaceStep(r, Fire(thrown)).timer == Timer(false, true)
    ensures RaceStep(r, Fire(thrown)).onTimeoutCalls == r.onTimeoutCalls + 1
    ensures thrown.None? ==> RaceStep(r, Fire(thrown)).outcome == Some(Rejected(TimeoutReason))
    ensures thrown.Some? ==> RaceStep(r, Fire(thrown)).outcome == Some(Rejected(thrown.value))
  {
  }

  /** Once the race has settled, no later event changes how it settled. */
  lemma {:induction false} OutcomeStable<T>(r: Race<T>, es: seq<RaceEvent<T>>)
    requires r.outcome.Some?
    ensures RunRace(r, es).outcome == r.outcome
    decreases |es|
  {
    if |es| > 0 {
      OutcomeStable(RaceStep(r, es[0]), es[1..]);
    }
  }

  /** Once fired, an instance stays timed out whatever happens next. */
  lemma {:induction false} TimedOutSticky<T>(r: Race<T>, es: seq<RaceEvent<T>>)
    requires r.timer.timedOut
    ensures RunRace(r, es).timer.timedOut
    decreases |es|
  {
    if |es| > 0 {
      TimedOutSticky(RaceStep(r, es[0]), es[1..]);
    }
  }

  /** In a race, `onTimeout` runs at most once, and only after the id is
      gone. */
  ghost predicate CallsInvariant<T>(r: Race<T>) {
    r.onTimeoutCalls <= 1 && (r.timer.pending ==> r.onTimeoutCalls == 0)
  }

  lemma {:induction false} OnTimeoutAtMostOnce<T>(r: Race<T>, es: seq<RaceEvent<T>>)
    requires CallsInvariant(r)
    ensures RunRace(r, es).onTimeoutCalls <= 1
    ensures CallsInvariant(RunRace(r, es))
    decreases |es|
  {
    if |es| > 0 {
      OnTimeoutAtMostOnce(RaceStep(r, es[0]), es[1..]);
    }
  }

  /** When the operation succeeds first, the race fulfils with its result,
      the timer is stopped, and the instance never times out afterwards. */
  lemma OpSuccessFirst<T>(t: Timer, v: T, es: seq<RaceEvent<T>>)
    requires Begin<T>(t).Success?
    ensures RunRace(RaceStep(Begin<T>(t).value, OpResolves(v)), es).outcome == Some(Fulfilled(v))
    ensures !RunRace(RaceStep(Begin<T>(t).value, OpResolves(v)), es).timer.timedOut
    ensures RunRace(RaceStep(Begin<T>(t).value, OpResolves(v)), es).onTimeoutCalls == 0
  {
    var r1 := RaceStep(Begin<T>(t).value, OpResolves(v));
    OutcomeStable(r1, es);
    StoppedStaysQuiet(r1, es);
  }

  /** A race whose timer is cleared and whose operation has settled is over:
      nothing it receives changes it. */
  lemma {:induction false} StoppedStaysQuiet<T>(r: Race<T>, es: seq<RaceEvent<T>>)
    requires !r.timer.pending && r.opSettled
    ensures RunRace(r, es) == r
    decreases |es|
  {
    if |es| > 0 {
      assert RaceStep(r, es[0]) == r;
      StoppedStaysQuiet(r, es[1..]);
    }
  }

  /** After a successful operation the same instance can be started again. */
  lemma RestartAfterSuccess<T>(t: Timer, v: T)
    requires Begin<T>(t).Success?
    ensures Start(RaceStep(Begin<T>(t).value, OpResolves(v)).timer).Success?
  {
  }

  /** A failed operation does not stop the timer: a new `start` is refused as
      already running, and the timeout still fires later, setting `timedOut`. */
  lemma OpFailureLeavesTimerRunning<T>(t: Timer, reason: string, thrown: Option<string>)
    requires Begin<T>(t).Success?
    ensures Start(RaceStep(Begin<T>(t).value, OpRejects(reason)).timer) == Failure(AlreadyRunning)
    ensures RaceStep(Begin<T>(t).value, OpRejects(reason)).outcome == Some(Rejected(reason))
    ensures RunRace(Begin<T>(t).value, [OpRejects(reason), Fire(thrown)]).timer.timedOut
    ensures RunRace(Begin<T>(t).value, [OpRejects(reason), Fire(thrown)]).outcome == Some(Rejected(reason))
  {
    var r0 := Begin<T>(t).value;
    var r1 := RaceStep(r0, OpRejects(reason));
    assert RunRace(r0, [OpRejects(reason), Fire(thrown)]) == RunRace(r1, [Fire(thrown)]);
    var r2 := RaceStep(r1, Fire(thrown));
    assert RunRace(r1, [Fire(thrown)]) == RunRace(r2, []) == r2;
  }

  /** After the timeout has fired the instance is single-use: every later
      `start` is refused. */
  lemma NoStartAfterTimeout<T>(r: Race<T>, es: seq<RaceEvent<T>>)
    requires r.timer.timedOut
    ensures Start(RunRace(r, es).timer).Failure?
  {
    TimedOutSticky(r, es);
  }
}
