/** What a step that breaks a hypothesis of `SessionSurvival` costs: the tokens. Together with it, exactly when the
    session of processes that share one storage is safe. */
module SessionLoss {
  import opened Api
  import opened MobileSession
  import opened SessionSafety
  import opened SessionTheorems
  import opened SessionSurvival

  /** Every step of `later`, run from s, satisfies both hypotheses. */
  ghost predicate AllowedFrom(s: State, later: seq<Event>)
    decreases |later|
  {
    later == [] ||
    (var before, e := later[..|later| - 1], later[|later| - 1];
     AllowedFrom(s, before) && Benign(Run(s, before), e) && Patient(Run(s, before), e))
  }

  /** Both tokens are gone, and a call has been told that the session has expired. */
  ghost predicate SignedOut(s: State) {
    s.access == None && s.refresh == None && exists c :: 0 <= c < |s.calls| && s.calls[c].phase == Ended(SessionExpired)
  }

  /** Some continuation in which nothing more goes wrong signs the user out. */
  ghost predicate Ends(s: State) {
    exists later :: AllowedFrom(s, later) && SignedOut(Run(s, later))
  }

  /** And leaves the server's session as it is now. */
  ghost predicate EndsAlone(s: State) {
    exists later :: AllowedFrom(s, later) && SignedOut(Run(s, later)) && Run(s, later).live == s.live
  }

  // ---- Putting a step in front ---------------------------------------------------------------------

  lemma {:induction false} RunFrom(s: State, e: Event, later: seq<Event>)
    ensures Run(s, [e] + later) == Run(Step(s, e), later)
    decreases |later|
  {
    var all := [e] + later;
    if later == [] {
      assert all[..0] == [] && all == [e];
    } else {
      var before := later[..|later| - 1];
      assert all[..|all| - 1] == [e] + before;
      RunFrom(s, e, before);
    }
  }

  lemma {:induction false} AllowedAfter(s: State, e: Event, later: seq<Event>)
    requires Benign(s, e) && Patient(s, e) && AllowedFrom(Step(s, e), later)
    ensures AllowedFrom(s, [e] + later)
    decreases |later|
  {
    var all := [e] + later;
    if later == [] {
      assert all[..0] == [] && all == [e];
      assert AllowedFrom(s, all[..0]);
    } else {
      var before := later[..|later| - 1];
      assert all[..|all| - 1] == [e] + before;
      AllowedAfter(s, e, before);
      RunFrom(s, e, before);
    }
  }

  lemma StepFirst(s: State, e: Event)
    requires Benign(s, e) && Patient(s, e) && Step(s, e).live == s.live && EndsAlone(Step(s, e))
    ensures EndsAlone(s)
  {
    var s' := Step(s, e);
    var later :| AllowedFrom(s', later) && SignedOut(Run(s', later)) && Run(s', later).live == s'.live;
    AllowedAfter(s, e, later);
    RunFrom(s, e, later);
  }

  // ---- The ways down, last step first --------------------------------------------------------------

  lemma ClearingEnds(s: State, c: nat)
    requires c < |s.calls| && s.calls[c].phase.Clearing?
    ensures EndsAlone(s)
  {
    var s' := Step(s, CommitClear(c));
    assert s'.calls[c].phase == Ended(SessionExpired) && s'.live == s.live;
    assert AllowedFrom(s', []) && Run(s', []) == s';
    StepFirst(s, CommitClear(c));
  }

  /** A refresh that ends in false costs the session of whoever waits for it. */
  lemma WaiterEnds(s: State, a: nat, c: nat)
    requires a < |s.attempts| && s.attempts[a].phase.Returning? && Outcome(s.attempts[a].phase.end) == Some(false)
    requires c < |s.calls| && s.calls[c].phase == Waiting(a)
    ensures EndsAlone(s)
  {
    var s1 := Step(s, Finally(a));
    assert s1.attempts[a].phase == Done(s.attempts[a].phase.end) && s1.calls == s.calls && s1.live == s.live;
    var s2 := Step(s1, Resume(c));
    assert s2.calls[c].phase == Clearing && s2.live == s1.live;
    ClearingEnds(s2, c);
    StepFirst(s1, Resume(c));
    StepFirst(s, Finally(a));
  }

  /** A new call of process p has its request answered with a 401. */
  function Refuse(s: State, p: nat): State {
    Step(Step(Step(s, StartCall(p)), ReadAccess(|s.calls|)), CallAnswered(|s.calls|, Status(401, true)))
  }

  lemma RefusedCall(s: State, p: nat)
    ensures var s' := Refuse(s, p);
      && s' == Join(s, p).0.(calls := s'.calls) && |s'.calls| == |s.calls| + 1
      && s'.calls[|s.calls|].phase == Waiting(Join(s, p).1)
    ensures EndsAlone(Refuse(s, p)) ==> EndsAlone(s)
  {
    var c := |s.calls|;
    var s1 := Step(s, StartCall(p));
    assert s1.calls[c] == Call(p, None, None, [], Preparing);
    var s2 := Step(s1, ReadAccess(c));
    assert s2 == s.(calls := s2.calls) && s2.calls[c] == Call(p, None, s.access, [], Fetching);
    assert Refuse(s, p).live == s.live;
    if EndsAlone(Refuse(s, p)) {
      StepFirst(s2, CallAnswered(c, Status(401, true)));
      StepFirst(s1, ReadAccess(c));
      StepFirst(s, StartCall(p));
    }
  }

  lemma FalseEnds(s: State, a: nat)
    requires Safe(s) && a < |s.attempts| && s.attempts[a].phase.Returning?
    requires Outcome(s.attempts[a].phase.end) == Some(false)
    ensures EndsAlone(s)
  {
    var p := s.attempts[a].process;
    assert Join(s, p) == (s, a);
    RefusedCall(s, p);
    WaiterEnds(Refuse(s, p), a, |s.calls|);
  }

  lemma RefusalEnds(s: State, a: nat)
    requires Safe(s) && a < |s.attempts| && s.attempts[a].phase.Rereading?
    requires !UnsavedWinner(s, s.attempts[a].used) && (s.refresh == None || s.refresh == s.attempts[a].used)
    ensures EndsAlone(s)
  {
    SafeStep(s, Reread(a));
    FalseEnds(Step(s, Reread(a)), a);
    StepFirst(s, Reread(a));
  }

  ghost predicate NobodyRotated(s: State) {
    forall b | 0 <= b < |s.attempts| :: Rotated(s.attempts[b]).None?
  }

  /** A token the server no longer honours is presented, and nobody holds a newer one. */
  lemma DenialEnds(s: State, a: nat)
    requires Safe(s) && NobodyRotated(s) && a < |s.attempts| && s.attempts[a].phase.Posting?
    requires s.attempts[a].used == s.refresh && s.refresh.Some? && s.refresh != s.live
    ensures EndsAlone(s)
  {
    var s1 := Step(s, ServerHandles(a, Handles));
    assert s1 == SetPhase(s, a, Answered(Denied));
    var s2 := Step(s1, Deliver(a, Intact));
    assert s2 == SetPhase(s1, a, Rereading) && !UnsavedWinner(s2, s2.attempts[a].used);
    SafeStep(s, ServerHandles(a, Handles));
    SafeStep(s1, Deliver(a, Intact));
    RefusalEnds(s2, a);
    StepFirst(s1, Deliver(a, Intact));
    StepFirst(s, ServerHandles(a, Handles));
  }

  lemma {:induction false} Above(ks: set<nat>) returns (p: nat)
    ensures forall k | k in ks :: k < p
  {
    if ks == {} { return 0; }
    var k :| k in ks;
    p := Above(ks - {k});
    assert ks == (ks - {k}) + {k};
    p := if p > k then p else k + 1;
  }

  lemma RefuseSafe(s: State, p: nat)
    requires Safe(s)
    ensures Safe(Refuse(s, p))
  {
    SafeStep(s, StartCall(p));
    SafeStep(Step(s, StartCall(p)), ReadAccess(|s.calls|));
    SafeStep(Step(Step(s, StartCall(p)), ReadAccess(|s.calls|)), CallAnswered(|s.calls|, Status(401, true)));
  }

  /** Once storage and server disagree for good, the next refresh of the next process to start ends the session. */
  lemma StaleEnds(s: State)
    requires Safe(s) && NobodyRotated(s) && s.refresh.Some? && s.refresh != s.live
    ensures EndsAlone(s)
  {
    var p := Above(s.slot.Keys);
    RefusedCall(s, p);
    RefuseSafe(s, p);
    var s1, a := Refuse(s, p), |s.attempts|;
    assert s1.attempts == s.attempts + [Attempt(p, None, Reading)];
    var s2 := Step(s1, ReadRefresh(a));
    assert s2 == s1.(attempts := s1.attempts[a := Attempt(p, s.refresh, Posting)]);
    SafeStep(s1, ReadRefresh(a));
    DenialEnds(s2, a);
    StepFirst(s1, ReadRefresh(a));
  }

  lemma OnlyWinner(s: State, a: nat)
    requires Alive(s) && a < |s.attempts| && Rotated(s.attempts[a]).Some?
    ensures forall b | 0 <= b < |s.attempts| && b != a :: Rotated(s.attempts[b]).None?
    ensures AttemptAlive(s.refresh.value, s.live.value, s.attempts[a])
  {
  }

  /** The server's session was ended while a rotated pair was on its way: it is stored, and is stale. */
  lemma WinnerSavesAndEnds(s: State, a: nat)
    requires Safe(s) && s.live == None && s.refresh.Some? && a < |s.attempts| && Rotated(s.attempts[a]).Some?
    requires forall b | 0 <= b < |s.attempts| && b != a :: Rotated(s.attempts[b]).None?
    ensures EndsAlone(s)
  {
    if s.attempts[a].phase.Answered? {
      SafeStep(s, Deliver(a, Intact));
      WinnerSavesAndEnds2(Step(s, Deliver(a, Intact)), a);
      StepFirst(s, Deliver(a, Intact));
    } else {
      WinnerSavesAndEnds2(s, a);
    }
  }

  lemma WinnerSavesAndEnds2(s: State, a: nat)
    requires Safe(s) && s.live == None && a < |s.attempts| && s.attempts[a].phase.Saving?
    requires forall b | 0 <= b < |s.attempts| && b != a :: Rotated(s.attempts[b]).None?
    ensures EndsAlone(s)
  {
    SafeStep(s, CommitSave(a));
    StaleEnds(Step(s, CommitSave(a)));
    StepFirst(s, CommitSave(a));
  }

  // ---- Each broken hypothesis ----------------------------------------------------------------------

  lemma RevokeEnds(s: State)
    requires Safe(s) && Alive(s)
    ensures EndsAlone(Step(s, Revoke))
  {
    var s' := Step(s, Revoke);
    SafeStep(s, Revoke);
    if Racing(s) {
      var a :| 0 <= a < |s.attempts| && Rotated(s.attempts[a]).Some?;
      OnlyWinner(s, a);
      WinnerSavesAndEnds(s', a);
    } else {
      StaleEnds(s');
    }
  }

  /** The server rotates the pair and fails to answer. */
  lemma FailedAnswerEnds(s: State, a: nat)
    requires Safe(s) && Alive(s) && !Benign(s, ServerHandles(a, FailsAfter))
    ensures EndsAlone(Step(s, ServerHandles(a, FailsAfter))) && Step(s, ServerHandles(a, FailsAfter)).live.Some?
  {
    assert AttemptAlive(s.refresh.value, s.live.value, s.attempts[a]);
    forall b | 0 <= b < |s.attempts| ensures Rotated(s.attempts[b]).None? {
      assert AttemptAlive(s.refresh.value, s.live.value, s.attempts[b]);
    }
    SafeStep(s, ServerHandles(a, FailsAfter));
    StaleEnds(Step(s, ServerHandles(a, FailsAfter)));
  }

  /** The server's answer with the new pair is lost, or does not parse. */
  lemma LostAnswerEnds(s: State, a: nat, d: Delivery)
    requires Safe(s) && Alive(s) && d != Intact
    requires a < |s.attempts| && s.attempts[a].phase.Answered? && s.attempts[a].phase.reply.Issued?
    ensures EndsAlone(Step(s, Deliver(a, d))) && Step(s, Deliver(a, d)).live.Some?
  {
    OnlyWinner(s, a);
    SafeStep(s, Deliver(a, d));
    StaleEnds(Step(s, Deliver(a, d)));
  }

  /** A step that breaks a hypothesis opens a way to sign the user out in which nothing more goes wrong; unless the
      server's session was ended from outside, it is alive all along. */
  lemma BrokenHypothesisEnds(s: State, e: Event)
    requires Safe(s) && Alive(s) && !(Benign(s, e) && Patient(s, e))
    ensures EndsAlone(Step(s, e)) && (e != Revoke ==> Step(s, e).live.Some?)
  {
    if e == Revoke {
      RevokeEnds(s);
    } else if e.ServerHandles? {
      FailedAnswerEnds(s, e.attempt);
    } else if e.Deliver? && s.attempts[e.attempt].phase.reply.Issued? {
      LostAnswerEnds(s, e.attempt, e.delivery);
    } else {
      if e.Reread? { RereadAdoptsIff(s, e.attempt); }
      SafeStep(s, e);
      assert Step(s, e).attempts[e.attempt].phase in {Returning(NotOk), Returning(Refused)};
      FalseEnds(Step(s, e), e.attempt);
    }
  }

  // ---- Exactly when the session is safe ------------------------------------------------------------

  lemma {:induction false} StaysAliveAlong(s: State, later: seq<Event>)
    requires Safe(s) && Alive(s) && AllowedFrom(s, later)
    ensures Safe(Run(s, later)) && Alive(Run(s, later))
    decreases |later|
  {
    if later != [] {
      var before, e := later[..|later| - 1], later[|later| - 1];
      StaysAliveAlong(s, before);
      SafeStep(Run(s, before), e);
      StaysAlive(Run(s, before), e);
    }
  }

  /** At no point of the run could a continuation in which nothing goes wrong sign the user out. */
  ghost predicate SecureThroughout(serial: nat, es: seq<Event>)
    decreases |es|
  {
    !Ends(Run(Init(serial), es)) && (es == [] || SecureThroughout(serial, es[..|es| - 1]))
  }

  lemma AliveIsSecure(s: State)
    requires Safe(s) && Alive(s)
    ensures !Ends(s)
  {
    forall later | AllowedFrom(s, later) ensures !SignedOut(Run(s, later)) { StaysAliveAlong(s, later); }
  }

  /** Processes that share one storage are safe from being signed out, now and by anything harmless that follows,
      exactly as long as no step ends the server's session, loses a rotation's reply, lets another non-ok reply to a
      refresh through, or re-reads storage too early. */
  lemma {:induction false} SurvivesIff(serial: nat, es: seq<Event>)
    ensures SecureThroughout(serial, es) <==> Allowed(serial, es)
  {
    SafeRun(serial, es);
    if es == [] {
      AliveIsSecure(Init(serial));
    } else {
      var before, e := es[..|es| - 1], es[|es| - 1];
      SurvivesIff(serial, before);
      if Allowed(serial, before) {
        AllowedIsAlive(serial, before);
        SafeRun(serial, before);
        var s := Run(Init(serial), before);
        if Benign(s, e) && Patient(s, e) {
          StaysAlive(s, e);
          AliveIsSecure(Step(s, e));
        } else {
          BrokenHypothesisEnds(s, e);
        }
      }
    }
  }

  /** In a run that kept every hypothesis so far, breaking one lets the tokens be cleared; only `Revoke` needs the
      server's session to be over. */
  lemma BreachEndsSession(serial: nat, es: seq<Event>, e: Event)
    requires Allowed(serial, es)
    requires !(Benign(Run(Init(serial), es), e) && Patient(Run(Init(serial), es), e))
    ensures EndsAlone(Run(Init(serial), es + [e]))
    ensures e != Revoke ==> Run(Init(serial), es + [e]).live.Some?
  {
    assert (es + [e])[..|es|] == es;
    AllowedIsAlive(serial, es);
    SafeRun(serial, es);
    BrokenHypothesisEnds(Run(Init(serial), es), e);
  }

  lemma RunFour(s: State, a: Event, b: Event, c: Event, d: Event)
    ensures Run(s, [a, b, c, d]) == Step(Step(Step(Step(s, a), b), c), d)
  {
    RunLast(s, [], a);
    RunLast(s, [a], b);
    RunLast(s, [a, b], c);
    RunLast(s, [a, b, c], d);
    assert [] + [a] == [a] && [a] + [b] == [a, b] && [a, b] + [c] == [a, b, c] && [a, b, c] + [d] == [a, b, c, d];
  }

  lemma FalseSteps(s: State, a: nat, c: nat)
    requires a < |s.attempts| && s.attempts[a].phase.Returning? && Outcome(s.attempts[a].phase.end) == Some(false)
    requires c < |s.calls| && s.calls[c].phase == Waiting(a)
    ensures var s' := Step(Step(Step(s, Finally(a)), Resume(c)), CommitClear(c));
      SignedOut(s') && s'.live == s.live && |s'.calls| == |s.calls| && s'.calls[c].phase == Ended(SessionExpired)
  {
    var s1 := Step(s, Finally(a));
    assert s1.attempts[a].phase == Done(s.attempts[a].phase.end) && s1.calls == s.calls && s1.live == s.live;
    var s2 := Step(s1, Resume(c));
    assert s2.calls[c].phase == Clearing && |s2.calls| == |s.calls| && s2.live == s.live;
    assert Step(s2, CommitClear(c)).calls[c].phase == Ended(SessionExpired);
  }

  lemma FailureSteps(s: State, a: nat, c: nat)
    requires a < |s.attempts| && s.attempts[a].phase == Answered(Failed)
    requires c < |s.calls| && s.calls[c].phase == Waiting(a)
    ensures var s' := Run(s, [Deliver(a, Intact), Finally(a), Resume(c), CommitClear(c)]);
      SignedOut(s') && s'.live == s.live && |s'.calls| == |s.calls| && s'.calls[c].phase == Ended(SessionExpired)
  {
    var s1 := SetPhase(s, a, Returning(NotOk));
    assert Step(s, Deliver(a, Intact)) == s1;
    FalseSteps(s1, a, c);
    RunFour(s, Deliver(a, Intact), Finally(a), Resume(c), CommitClear(c));
  }

  /** A 5xx that reaches the client ends the session of every call that waits for it, while the server's is alive. */
  lemma FalseEndsSession(serial: nat, es: seq<Event>, a: nat, c: nat)
    requires Allowed(serial, es)
    requires var s := Run(Init(serial), es);
      && a < |s.attempts| && s.attempts[a].phase == Answered(Failed)
      && c < |s.calls| && s.calls[c].phase == Waiting(a)
    ensures var s := Run(Init(serial), es);
      var s' := Run(s, [Deliver(a, Intact), Finally(a), Resume(c), CommitClear(c)]);
      && s.refresh.Some? && SignedOut(s') && s'.live.Some? && s'.live == s.live
      && |s'.calls| == |s.calls| && s'.calls[c].phase == Ended(SessionExpired)
  {
    AllowedIsAlive(serial, es);
    var s := Run(Init(serial), es);
    FailureSteps(s, a, c);
  }
}
