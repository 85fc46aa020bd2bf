/** `useIdleTimer`: activity resets the clock, and a poll warns after 29 minutes and logs out after 30. Times are the
    milliseconds of `Date.now()`, which is taken never to go back. */
module IdleTimer {

  const IDLE_WARNING_MS: nat := 29 * 60 * 1000
  const IDLE_LOGOUT_MS: nat := 30 * 60 * 1000

  datatype Fired = Nothing | Warned | TimedOut

  class Timer {
    var lastActivity: nat
    var warned: bool
    var timedOut: bool

    constructor (now: nat)
      ensures lastActivity == now && !warned && !timedOut
    {
      lastActivity, warned, timedOut := now, false, false;
    }

    ghost function View(): State
      reads this
    {
      State(lastActivity, warned, timedOut)
    }

    method Reset(now: nat)
      modifies this
      ensures View() == Step(old(View()), Activity(now)).0
    {
      lastActivity := now;
      warned := false;
    }

    method Poll(now: nat) returns (fired: Fired)
      modifies this
      ensures (View(), fired) == Step(old(View()), Tick(now))
    {
      var idleFor := now - lastActivity;
      if idleFor >= IDLE_LOGOUT_MS {
        if !timedOut {
          timedOut := true;
          return TimedOut;
        }
        return Nothing;
      }
      if idleFor >= IDLE_WARNING_MS && !warned {
        warned := true;
        return Warned;
      }
      return Nothing;
    }
  }

  datatype State = State(lastActivity: nat, warned: bool, timedOut: bool)

  /** Activity is any of the window events, a change of page, or "stay signed in". */
  datatype Event = Activity(now: nat) | Tick(now: nat)

  function Step(s: State, e: Event): (State, Fired) {
    match e
    case Activity(now) => (s.(lastActivity := now, warned := false), Nothing)
    case Tick(now) =>
      if now - s.lastActivity >= IDLE_LOGOUT_MS then
        if s.timedOut then (s, Nothing) else (s.(timedOut := true), TimedOut)
      else if now - s.lastActivity >= IDLE_WARNING_MS && !s.warned then (s.(warned := true), Warned)
      else (s, Nothing)
  }

  function Run(start: nat, es: seq<Event>): State
    decreases |es|
  {
    if es == [] then State(start, false, false) else Step(Run(start, es[..|es| - 1]), es[|es| - 1]).0
  }

  /** What event i of the run fires. */
  function FiredAt(start: nat, es: seq<Event>, i: nat): Fired
    requires i < |es|
  {
    Step(Run(start, es[..i]), es[i]).1
  }

  /** Time never goes back. */
  predicate Ordered(start: nat, es: seq<Event>) {
    && (forall i | 0 <= i < |es| :: start <= es[i].now)
    && (forall i, j | 0 <= i < j < |es| :: es[i].now <= es[j].now)
  }

  predicate NoActivity(es: seq<Event>, from: nat, to: nat)
    requires from <= to <= |es|
  {
    forall i | from <= i < to :: es[i].Tick?
  }

  lemma RunTo(start: nat, es: seq<Event>, i: nat)
    requires i < |es|
    ensures Run(start, es[..i + 1]) == Step(Run(start, es[..i]), es[i]).0
  {
    assert es[..i + 1][..i] == es[..i];
  }

  // ---- onTimeout -----------------------------------------------------------------------------------

  lemma {:induction false} TimedOutStays(start: nat, es: seq<Event>, i: nat, j: nat)
    requires i <= j <= |es| && Run(start, es[..i]).timedOut
    ensures Run(start, es[..j]).timedOut
    decreases j
  {
    if i < j {
      TimedOutStays(start, es, i, j - 1);
      RunTo(start, es, j - 1);
    }
  }

  /** `onTimeout` fires at most once. */
  lemma TimesOutOnce(start: nat, es: seq<Event>, i: nat, j: nat)
    requires i < |es| && j < |es| && FiredAt(start, es, i) == TimedOut && FiredAt(start, es, j) == TimedOut
    ensures i == j
  {
    if i < j {
      RunTo(start, es, i);
      TimedOutStays(start, es, i + 1, j);
    } else if j < i {
      RunTo(start, es, j);
      TimedOutStays(start, es, j + 1, i);
    }
  }

  /** The clock was set by the mount or by the last activity. */
  lemma {:induction false} ClockIs(start: nat, es: seq<Event>, i: nat) returns (r: nat)
    requires i <= |es|
    ensures r <= i && NoActivity(es, r, i)
    ensures if r == 0 then Run(start, es[..i]).lastActivity == start
            else es[r - 1].Activity? && es[r - 1].now == Run(start, es[..i]).lastActivity
  {
    if i == 0 { return 0; }
    RunTo(start, es, i - 1);
    r := ClockIs(start, es, i - 1);
    if es[i - 1].Activity? { r := i; }
  }

  /** `onTimeout` fires only after 30 minutes without activity. */
  lemma TimesOutOnlyWhenIdle(start: nat, es: seq<Event>, i: nat)
    requires Ordered(start, es) && i < |es| && FiredAt(start, es, i) == TimedOut
    ensures es[i].now >= start + IDLE_LOGOUT_MS
    ensures forall j | 0 <= j < i && es[j].Activity? :: es[i].now >= es[j].now + IDLE_LOGOUT_MS
  {
    var r := ClockIs(start, es, i);
  }

  /** A timer that has timed out has fired. */
  lemma {:induction false} TimedOutFrom(start: nat, es: seq<Event>, i: nat) returns (j: nat)
    requires i <= |es| && Run(start, es[..i]).timedOut
    ensures j < i && FiredAt(start, es, j) == TimedOut
  {
    RunTo(start, es, i - 1);
    if FiredAt(start, es, i - 1) == TimedOut { return i - 1; }
    j := TimedOutFrom(start, es, i - 1);
  }

  /** The clock stands at the latest of the mount and the activity before event i. */
  lemma ClockIsLatest(start: nat, es: seq<Event>, i: nat)
    requires Ordered(start, es) && i < |es|
    ensures start <= Run(start, es[..i]).lastActivity
    ensures forall j | 0 <= j < i && es[j].Activity? :: es[j].now <= Run(start, es[..i]).lastActivity
    ensures Run(start, es[..i]).lastActivity == start
      || exists j :: 0 <= j < i && es[j].Activity? && es[j].now == Run(start, es[..i]).lastActivity
  {
    var r := ClockIs(start, es, i);
  }

  /** `onTimeout` fires exactly at the first poll that comes 30 minutes (1 800 000 ms) or more after the mount and after
      every activity so far. */
  lemma TimesOutIff(start: nat, es: seq<Event>, i: nat)
    requires Ordered(start, es) && i < |es|
    ensures FiredAt(start, es, i) == TimedOut <==>
      && es[i].Tick? && es[i].now >= start + 1_800_000
      && (forall j | 0 <= j < i && es[j].Activity? :: es[i].now >= es[j].now + 1_800_000)
      && (forall j | 0 <= j < i :: FiredAt(start, es, j) != TimedOut)
  {
    ClockIsLatest(start, es, i);
    forall j | 0 <= j < i && FiredAt(start, es, j) == TimedOut ensures Run(start, es[..i]).timedOut {
      RunTo(start, es, j);
      TimedOutStays(start, es, j + 1, i);
    }
    if Run(start, es[..i]).timedOut { var j := TimedOutFrom(start, es, i); }
  }

  // ---- onWarn --------------------------------------------------------------------------------------

  lemma {:induction false} WarnedStays(start: nat, es: seq<Event>, i: nat, j: nat)
    requires i <= j <= |es| && Run(start, es[..i]).warned && NoActivity(es, i, j)
    ensures Run(start, es[..j]).warned
    decreases j
  {
    if i < j {
      WarnedStays(start, es, i, j - 1);
      RunTo(start, es, j - 1);
    }
  }

  /** Between two warnings there is activity. */
  lemma ActivityBetweenWarnings(start: nat, es: seq<Event>, i: nat, j: nat)
    requires i < j < |es| && FiredAt(start, es, i) == Warned && FiredAt(start, es, j) == Warned
    ensures exists k :: i < k < j && es[k].Activity?
  {
    if NoActivity(es, i + 1, j) {
      RunTo(start, es, i);
      WarnedStays(start, es, i + 1, j);
    } else {
      var k :| i + 1 <= k < j && !es[k].Tick?;
    }
  }

  /** A warned state without activity since comes from a warning. */
  lemma {:induction false} WarnedFrom(start: nat, es: seq<Event>, i: nat) returns (w: nat)
    requires i <= |es| && Run(start, es[..i]).warned
    ensures w < i && FiredAt(start, es, w) == Warned && NoActivity(es, w, i)
  {
    RunTo(start, es, i - 1);
    if FiredAt(start, es, i - 1) == Warned { return i - 1; }
    w := WarnedFrom(start, es, i - 1);
  }

  /** `onWarn` fires exactly at the first poll since the last activity that comes 29 minutes (1 740 000 ms) or more after
      the mount and every activity so far, but less than 30 minutes after one of them. */
  lemma WarnsIff(start: nat, es: seq<Event>, i: nat)
    requires Ordered(start, es) && i < |es|
    ensures FiredAt(start, es, i) == Warned <==>
      && es[i].Tick? && es[i].now >= start + 1_740_000
      && (forall j | 0 <= j < i && es[j].Activity? :: es[i].now >= es[j].now + 1_740_000)
      && (es[i].now < start + 1_800_000 || exists j :: 0 <= j < i && es[j].Activity? && es[i].now < es[j].now + 1_800_000)
      && (forall w | 0 <= w < i && NoActivity(es, w, i) :: FiredAt(start, es, w) != Warned)
  {
    ClockIsLatest(start, es, i);
    forall w | 0 <= w < i && NoActivity(es, w, i) && FiredAt(start, es, w) == Warned ensures Run(start, es[..i]).warned {
      RunTo(start, es, w);
      WarnedStays(start, es, w + 1, i);
    }
    if Run(start, es[..i]).warned { var w := WarnedFrom(start, es, i); }
  }

  // ---- Every timeout is announced ------------------------------------------------------------------

  /** Any `gap` ms of the run, counted from the mount or from a tick, contain the next tick. */
  predicate PolledEvery(start: nat, es: seq<Event>, gap: nat) {
    forall i | 0 <= i < |es| && es[i].Tick? ::
      || es[i].now <= start + gap
      || exists j :: 0 <= j < i && es[j].Tick? && es[i].now <= es[j].now + gap
  }

  lemma {:induction false} SameClock(start: nat, es: seq<Event>, i: nat, j: nat)
    requires i <= j <= |es| && NoActivity(es, i, j)
    ensures Run(start, es[..i]).lastActivity == Run(start, es[..j]).lastActivity
    decreases j
  {
    if i < j {
      SameClock(start, es, i, j - 1);
      RunTo(start, es, j - 1);
    }
  }

  lemma PreviousTick(start: nat, es: seq<Event>, i: nat, gap: nat) returns (j: nat)
    requires PolledEvery(start, es, gap) && i < |es| && es[i].Tick? && es[i].now > start + gap
    ensures j < i && es[j].Tick? && es[i].now <= es[j].now + gap
  {
    j :| 0 <= j < i && es[j].Tick? && es[i].now <= es[j].now + gap;
  }

  /** Polls at most 60 s apart include one that finds the clock past 29 minutes before the one past 30. */
  lemma LateTick(start: nat, es: seq<Event>, i: nat, r: nat, last: nat) returns (j: nat)
    requires Ordered(start, es) && PolledEvery(start, es, IDLE_LOGOUT_MS - IDLE_WARNING_MS)
    requires r <= i < |es| && es[i].Tick? && es[i].now - last >= IDLE_LOGOUT_MS
    requires if r == 0 then last == start else es[r - 1].Activity? && es[r - 1].now == last
    ensures r <= j < i && es[j].Tick? && es[j].now - last >= IDLE_WARNING_MS
  {
    assert last >= start;
    j := PreviousTick(start, es, i, IDLE_LOGOUT_MS - IDLE_WARNING_MS);
  }

  /** Such a poll leaves the timer warned or timed out. */
  lemma LateTickWarns(start: nat, es: seq<Event>, j: nat)
    requires j < |es| && es[j].Tick? && es[j].now - Run(start, es[..j]).lastActivity >= IDLE_WARNING_MS
    ensures Run(start, es[..j + 1]).warned || Run(start, es[..j + 1]).timedOut
  {
    RunTo(start, es, j);
  }

  lemma LateTickAnnounces(start: nat, es: seq<Event>, i: nat, j: nat) returns (w: nat)
    requires j < i < |es| && NoActivity(es, j, i) && FiredAt(start, es, i) == TimedOut
    requires es[j].now - Run(start, es[..i]).lastActivity >= IDLE_WARNING_MS
    ensures w < i && FiredAt(start, es, w) == Warned && NoActivity(es, w, i)
  {
    SameClock(start, es, j, i);
    LateTickWarns(start, es, j);
    if Run(start, es[..j + 1]).timedOut { TimedOutStays(start, es, j + 1, i); }
    WarnedStays(start, es, j + 1, i);
    w := WarnedFrom(start, es, i);
  }

  /** A timeout comes after a warning with no activity in between exactly if some poll since the last activity found
      the clock past 29 minutes and not yet past 30. */
  lemma TimeoutAnnouncedIff(start: nat, es: seq<Event>, i: nat)
    requires i < |es| && FiredAt(start, es, i) == TimedOut
    ensures (exists w :: 0 <= w < i && FiredAt(start, es, w) == Warned && NoActivity(es, w, i))
      <==> exists j :: 0 <= j < i && NoActivity(es, j, i)
             && IDLE_WARNING_MS <= es[j].now - Run(start, es[..i]).lastActivity < IDLE_LOGOUT_MS
  {
    if w :| 0 <= w < i && FiredAt(start, es, w) == Warned && NoActivity(es, w, i) {
      SameClock(start, es, w, i);
    }
    var last := Run(start, es[..i]).lastActivity;
    if j :| 0 <= j < i && NoActivity(es, j, i) && IDLE_WARNING_MS <= es[j].now - last < IDLE_LOGOUT_MS {
      var w := LateTickAnnounces(start, es, i, j);
    }
  }

  /** If polls are at most 60 s apart, `onTimeout` comes after an `onWarn` with no activity in between. */
  lemma TimeoutIsAnnounced(start: nat, es: seq<Event>, i: nat) returns (w: nat)
    requires Ordered(start, es) && PolledEvery(start, es, IDLE_LOGOUT_MS - IDLE_WARNING_MS)
    requires i < |es| && FiredAt(start, es, i) == TimedOut
    ensures w < i && FiredAt(start, es, w) == Warned && NoActivity(es, w, i)
  {
    var r := ClockIs(start, es, i);
    var j := LateTick(start, es, i, r, Run(start, es[..i]).lastActivity);
    w := LateTickAnnounces(start, es, i, j);
  }

  /** Thirty polls, 60.001 s apart. */
  function SlowPolls(): (es: seq<Event>)
    ensures |es| == 30 && forall k | 0 <= k < 30 :: es[k] == Tick(59971 + 60001 * k)
  {
    seq(30, k requires 0 <= k => Tick(59971 + 60001 * k))
  }

  lemma {:induction false} SlowPollsFireNothing(i: nat)
    requires i <= 29
    ensures Run(0, SlowPolls()[..i]) == State(0, false, false)
  {
    if i > 0 {
      SlowPollsFireNothing(i - 1);
      RunTo(0, SlowPolls(), i - 1);
    }
  }

  /** The 60 s are exact: polls that are one millisecond further apart can log out with no warning at all. */
  lemma SlowPollsSkipTheWarning()
    ensures Ordered(0, SlowPolls()) && PolledEvery(0, SlowPolls(), IDLE_LOGOUT_MS - IDLE_WARNING_MS + 1)
    ensures FiredAt(0, SlowPolls(), 29) == TimedOut
    ensures forall i | 0 <= i < 29 :: FiredAt(0, SlowPolls(), i) == Nothing
  {
    var es := SlowPolls();
    forall i | 0 <= i < |es| && es[i].Tick?
      ensures es[i].now <= 60001 || exists j :: 0 <= j < i && es[j].Tick? && es[i].now <= es[j].now + 60001
    {
      if i > 0 { assert es[i - 1].Tick? && es[i].now <= es[i - 1].now + 60001; }
    }
    SlowPollsFireNothing(29);
    forall i | 0 <= i < 29 ensures FiredAt(0, es, i) == Nothing { SlowPollsFireNothing(i); }
  }
}
