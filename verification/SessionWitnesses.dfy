/** Runs from the start of a session in which each hypothesis of `SessionSurvival` fails, and one in which a race is
    lost and survived. The first pair has serial 0. */
module SessionWitnesses {
  import opened Api
  import opened MobileSession
  import opened SessionLoss

  /** One event more. */
  lemma Next(es: seq<Event>, s: State, e: Event) returns (all: seq<Event>, s': State)
    requires Run(Init(0), es) == s
    ensures all == es + [e] && s' == Step(s, e) && Run(Init(0), all) == s'
  {
    all, s' := es + [e], Step(s, e);
    RunLast(Init(0), es, e);
  }

  const REFUSAL := Status(401, true)

  /** A new call of a process with an empty slot is refused, and its refresh presents the stored token. */
  function Presented(s: State, p: nat): State {
    s.(slot := s.slot[p := |s.attempts|],
       attempts := s.attempts + [Attempt(p, s.refresh, Posting)],
       calls := s.calls + [Call(p, None, s.access, [REFUSAL], Waiting(|s.attempts|))])
  }

  lemma Present(before: seq<Event>, was: State, p: nat) returns (es: seq<Event>, s: State)
    requires Run(Init(0), before) == was && p !in was.slot && was.refresh.Some?
    ensures s == Presented(was, p) && Run(Init(0), es) == s
  {
    var c, a := |was.calls|, |was.attempts|;
    es, s := Next(before, was, StartCall(p));
    es, s := Next(es, s, ReadAccess(c));
    assert s.calls == was.calls + [Call(p, None, was.access, [], Fetching)];
    es, s := Next(es, s, CallAnswered(c, REFUSAL));
    assert s.calls[c].answers == [REFUSAL];
    assert s.calls == was.calls + [Call(p, None, was.access, [REFUSAL], Waiting(a))];
    assert s.attempts == was.attempts + [Attempt(p, None, Reading)];
    es, s := Next(es, s, ReadRefresh(a));
    assert s.attempts == was.attempts + [Attempt(p, was.refresh, Posting)];
  }

  /** Processes 0 and 1 have both presented token 0. */
  const RACING := Presented(Presented(Init(0), 0), 1)

  /** The server has rotated for process 0 and refused process 1. */
  const DECIDED := RACING.(live := Some(1), issued := 2,
                           attempts := [Attempt(0, Some(0), Answered(Issued(1))), Attempt(1, Some(0), Rereading)])

  lemma Decide() returns (es: seq<Event>)
    ensures Run(Init(0), es) == DECIDED
  {
    var s;
    es, s := Present([], Init(0), 0);
    es, s := Present(es, s, 1);
    assert s.attempts == [Attempt(0, Some(0), Posting), Attempt(1, Some(0), Posting)];
    es, s := Next(es, s, ServerHandles(0, Handles));
    es, s := Next(es, s, ServerHandles(1, Handles));
    assert s.attempts == [Attempt(0, Some(0), Answered(Issued(1))), Attempt(1, Some(0), Answered(Denied))];
    es, s := Next(es, s, Deliver(1, Intact));
  }

  /** The winner saves before the loser re-reads: the loser adopts the winner's pair. */
  lemma LostRaceRun() returns (es: seq<Event>)
    ensures var s := Run(Init(0), es);
      && s.refresh == Some(1) && s.access == Some(1) && s.live == Some(1) && |s.attempts| == 2
      && s.attempts[1] == Attempt(1, Some(0), Returning(Adopted))
  {
    es := Decide();
    var s := DECIDED;
    es, s := Next(es, s, Deliver(0, Intact));
    assert s.attempts == [Attempt(0, Some(0), Saving(1)), Attempt(1, Some(0), Rereading)];
    es, s := Next(es, s, CommitSave(0));
    es, s := Next(es, s, Reread(1));
  }

  /** Attempt a has returned false and call c waits for it. */
  lemma FalseRun(before: seq<Event>, a: nat, c: nat) returns (es: seq<Event>)
    requires var s := Run(Init(0), before);
      && a < |s.attempts| && s.attempts[a].phase.Returning? && Outcome(s.attempts[a].phase.end) == Some(false)
      && c < |s.calls| && s.calls[c].phase == Waiting(a)
    ensures var was, s := Run(Init(0), before), Run(Init(0), es);
      && SignedOut(s) && s.live == was.live && s.slot == was.slot - {was.attempts[a].process}
      && |s.calls| == |was.calls| && s.calls == was.calls[c := s.calls[c]]
  {
    var was := Run(Init(0), before);
    var s;
    es, s := Next(before, was, Finally(a));
    assert s.attempts[a].phase == Done(was.attempts[a].phase.end) && s.calls == was.calls;
    es, s := Next(es, s, Resume(c));
    assert s.calls[c].phase == Clearing;
    es, s := Next(es, s, CommitClear(c));
    assert s.calls[c].phase == Ended(SessionExpired);
  }

  /** The loser re-reads before the winner saves: it signs the user out. */
  lemma EarlyRereadRun() returns (es: seq<Event>)
    ensures SignedOut(Run(Init(0), es)) && Run(Init(0), es).live == Some(1)
  {
    es := Decide();
    var s := DECIDED;
    es, s := Next(es, s, Reread(1));
    es := FalseRun(es, 1, 1);
  }

  /** A refresh is answered with a 5xx. */
  lemma ServerErrorRun() returns (es: seq<Event>)
    ensures SignedOut(Run(Init(0), es)) && Run(Init(0), es).live == Some(0)
  {
    var s;
    es, s := Present([], Init(0), 0);
    assert s.calls[0].phase == Waiting(0) && s.attempts[0].phase == Posting;
    es, s := ServerError(es, s, 0);
    es := FalseRun(es, 0, 0);
  }

  lemma ServerError(before: seq<Event>, was: State, a: nat) returns (es: seq<Event>, s: State)
    requires Run(Init(0), before) == was && a < |was.attempts| && was.attempts[a].phase.Posting?
    ensures s == SetPhase(was, a, Returning(NotOk)) && Run(Init(0), es) == s
  {
    es, s := Next(before, was, ServerHandles(a, FailsFirst));
    assert s == SetPhase(was, a, Answered(Failed));
    es, s := Next(es, s, Deliver(a, Intact));
  }

  /** Process 0 has lost the reply to its rotation, and presented token 0 again. */
  const STALE := Presented(Presented(Init(0), 0).(live := Some(1), issued := 2, slot := map[],
                                                  attempts := [Attempt(0, Some(0), Done(Threw))]), 0)

  lemma LoseRotation() returns (es: seq<Event>)
    ensures Run(Init(0), es) == STALE
  {
    var s;
    es, s := Present([], Init(0), 0);
    assert s.slot - {0} == map[];
    es, s := Next(es, s, ServerHandles(0, Handles));
    es, s := Next(es, s, Deliver(0, Lost));
    assert s.attempts == [Attempt(0, Some(0), Returning(Threw))];
    es, s := Next(es, s, Finally(0));
    assert s.attempts == [Attempt(0, Some(0), Done(Threw))];
    es, s := Present(es, s, 0);
  }

  /** A stale token is refused, and storage holds no other. */
  lemma Refusal(before: seq<Event>, was: State, a: nat) returns (es: seq<Event>, s: State)
    requires Run(Init(0), before) == was
    requires a < |was.attempts| && was.attempts[a].phase.Posting? && was.attempts[a].used == was.refresh != was.live
    ensures s == SetPhase(was, a, Returning(Refused)) && Run(Init(0), es) == s
  {
    es, s := Next(before, was, ServerHandles(a, Handles));
    assert s == SetPhase(was, a, Answered(Denied));
    es, s := Next(es, s, Deliver(a, Intact));
    assert s == SetPhase(was, a, Rereading);
    es, s := Next(es, s, Reread(a));
  }

  /** The reply to a rotation is lost; the next refresh is refused. */
  lemma LostRotationRun() returns (es: seq<Event>)
    ensures SignedOut(Run(Init(0), es)) && Run(Init(0), es).live == Some(1)
  {
    es := LoseRotation();
    assert STALE.attempts[1] == Attempt(0, Some(0), Posting) && STALE.calls[1].phase == Waiting(1);
    var s;
    es, s := Refusal(es, STALE, 1);
    es := FalseRun(es, 1, 1);
  }

  lemma OfflineCall() returns (es: seq<Event>, s: State)
    ensures s == Init(0).(calls := [Call(0, None, Some(0), [NoReply], Ended(Unreachable))]) && Run(Init(0), es) == s
  {
    es, s := Next([], Init(0), StartCall(0));
    es, s := Next(es, s, ReadAccess(0));
    es, s := Next(es, s, CallAnswered(0, NoReply));
    assert s.calls[0].answers == [NoReply];
  }

  /** The server's session is ended from outside, after one call has found no connection; the next refresh is
      refused. */
  lemma RevokedRun() returns (es: seq<Event>)
    ensures var s := Run(Init(0), es);
      && SignedOut(s) && s.live == None && s.slot == map[] && |s.calls| == 2
      && s.calls[0].phase == Ended(Unreachable)
  {
    var s;
    es, s := OfflineCall();
    es, s := Present(es, s, 0);
    var was := s;
    assert was.attempts[0] == Attempt(0, Some(0), Posting) && was.calls[1].phase == Waiting(0);
    assert was.slot - {0} == map[];
    es, s := Next(es, s, Revoke);
    es, s := Refusal(es, s, 0);
    es := FalseRun(es, 0, 1);
  }
}
