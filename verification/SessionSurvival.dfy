/** When the session survives: as long as no step breaks the two hypotheses below. `SessionLoss` has the converse. */
module SessionSurvival {
  import opened Api
  import opened MobileSession
  import opened SessionSafety
  import opened SessionTheorems

  // ---- The hypotheses, step by step ----------------------------------------------------------------

  /** The server session is not ended from outside, the reply to every rotation arrives and parses, and no other
      non-ok reply to a refresh than a 401 reaches the client. Requests may be lost, and calls may fail. */
  predicate Benign(s: State, e: Event) {
    match e
    case Revoke => false
    case ServerHandles(a, FailsAfter) =>
      !(a < |s.attempts| && s.attempts[a].phase.Posting? && s.live.Some? && s.attempts[a].used == s.live)
    case Deliver(a, d) =>
      a < |s.attempts| && s.attempts[a].phase.Answered? ==>
        && (s.attempts[a].phase.reply.Issued? ==> d == Intact)
        && (s.attempts[a].phase.reply.Failed? ==> d == Lost)
    case _ => true
  }

  /** Some attempt that presented `used` has a fresh pair that is not stored yet. */
  ghost predicate UnsavedWinner(s: State, used: Option<nat>) {
    exists b :: 0 <= b < |s.attempts| && Rotated(s.attempts[b]).Some? && s.attempts[b].used == used
  }

  /** A refused client re-reads storage only once the winner of the race has stored its pair. */
  ghost predicate Patient(s: State, e: Event) {
    e.Reread? && e.attempt < |s.attempts| && s.attempts[e.attempt].phase.Rereading? ==>
      !UnsavedWinner(s, s.attempts[e.attempt].used)
  }

  // ---- The invariant -------------------------------------------------------------------------------

  /** `stored` is the serial in storage and `current` the one the server will honour. */
  ghost predicate AttemptAlive(stored: nat, current: nat, at: Attempt) {
    && (at.used.Some? ==> at.used.value <= stored)
    && (Rotated(at).Some? ==> Rotated(at) == Some(current) && at.used == Some(stored) && stored < current)
    && match at.phase
       case Reading => at.used.None?
       case Posting => at.used.Some?
       case Answered(Denied) => at.used.Some? && at.used.value < current
       case Rereading => at.used.Some? && at.used.value < current
       case Returning(end) => Outcome(end) != Some(false)
         && (Outcome(end) == Some(true) ==> at.used.Some? && at.used.value < stored)
       case Done(end) => Outcome(end) != Some(false)
         && (Outcome(end) == Some(true) ==> at.used.Some? && at.used.value < stored)
       case _ => true
  }

  /** No call has ended the session, and every retry carries an access token issued after the one refused. */
  ghost predicate CallAlive(stored: nat, attempts: seq<Attempt>, call: Call) {
    && !call.phase.Clearing? && call.phase != Ended(SessionExpired)
    && (call.via.Some? && call.header.Some? ==>
          && call.via.value < |attempts|
          && attempts[call.via.value].used.Some?
          && attempts[call.via.value].used.value < call.header.value)
  }

  ghost predicate Racing(s: State) {
    exists a :: 0 <= a < |s.attempts| && Rotated(s.attempts[a]).Some?
  }

  /** The stored token is the server's current one, or exactly one reply carrying the current one is on its way
      to storage. */
  ghost predicate Alive(s: State) {
    && s.refresh.Some? && s.access == s.refresh
    && s.live.Some? && s.live.value + 1 == s.issued
    && s.refresh.value <= s.live.value
    && (s.refresh.value < s.live.value ==> Racing(s))
    && (forall a, b | 0 <= a < |s.attempts| && 0 <= b < |s.attempts|
          && Rotated(s.attempts[a]).Some? && Rotated(s.attempts[b]).Some? :: a == b)
    && (forall a | 0 <= a < |s.attempts| :: AttemptAlive(s.refresh.value, s.live.value, s.attempts[a]))
    && (forall c | 0 <= c < |s.calls| :: CallAlive(s.refresh.value, s.attempts, s.calls[c]))
  }

  // ---- Each event ----------------------------------------------------------------------------------

  lemma CallStaysAlive(s: State, e: Event, c: nat)
    requires Safe(s) && Alive(s) && c < |s.calls|
    ensures CallAlive(s.refresh.value, s.attempts, StepCall(s, e, c).calls[c])
    ensures StepCall(s, e, c).refresh == s.refresh && StepCall(s, e, c).access == s.access
    ensures StepCall(s, e, c).live == s.live && StepCall(s, e, c).issued == s.issued
  {
    assert Told(s.attempts, s.calls[c]) && CallAlive(s.refresh.value, s.attempts, s.calls[c]);
    if e.ReadAccess? && s.calls[c].via.Some? {
      assert AttemptAlive(s.refresh.value, s.live.value, s.attempts[s.calls[c].via.value]);
    } else if e.Resume? && s.calls[c].phase.Waiting? {
      assert AttemptAlive(s.refresh.value, s.live.value, s.attempts[s.calls[c].phase.attempt]);
    }
  }

  lemma AfterCall(s: State, s': State, c: nat)
    requires Alive(s) && c < |s.calls|
    requires s' == s.(calls := s'.calls, attempts := s'.attempts, slot := s'.slot)
    requires |s'.calls| == |s.calls| && s'.calls == s.calls[c := s'.calls[c]]
    requires s'.attempts == s.attempts || s'.attempts == s.attempts + [Attempt(s.calls[c].process, None, Reading)]
    requires CallAlive(s.refresh.value, s.attempts, s'.calls[c])
    ensures Alive(s')
  {
    if Racing(s) {
      var a :| 0 <= a < |s.attempts| && Rotated(s.attempts[a]).Some?;
      assert Rotated(s'.attempts[a]).Some?;
    }
    forall d | 0 <= d < |s'.calls| ensures CallAlive(s'.refresh.value, s'.attempts, s'.calls[d]) {
      assert d != c ==> CallAlive(s.refresh.value, s.attempts, s.calls[d]);
    }
  }

  /** An attempt moves on without rotating or storing anything. */
  lemma AfterQuietAttempt(s: State, s': State, a: nat)
    requires Alive(s) && a < |s.attempts| == |s'.attempts|
    requires s' == s.(attempts := s'.attempts, slot := s'.slot) && s'.attempts == s.attempts[a := s'.attempts[a]]
    requires s.attempts[a].used.Some? ==> s'.attempts[a].used == s.attempts[a].used
    requires Rotated(s'.attempts[a]) == Rotated(s.attempts[a])
    requires AttemptAlive(s.refresh.value, s.live.value, s'.attempts[a])
    ensures Alive(s')
  {
    if Racing(s) {
      var b :| 0 <= b < |s.attempts| && Rotated(s.attempts[b]).Some?;
      assert Rotated(s'.attempts[b]).Some?;
    }
    forall c | 0 <= c < |s'.calls| ensures CallAlive(s'.refresh.value, s'.attempts, s'.calls[c]) {
      assert CallAlive(s.refresh.value, s.attempts, s.calls[c]);
    }
  }

  lemma AfterRotation(s: State, a: nat)
    requires Alive(s) && a < |s.attempts| && s.attempts[a].phase.Posting? && s.attempts[a].used == s.live
    ensures Alive(OnServer(s, a, Handles))
  {
    var s' := OnServer(s, a, Handles);
    assert AttemptAlive(s.refresh.value, s.live.value, s.attempts[a]);
    assert s.refresh == s.live;
    assert Rotated(s'.attempts[a]) == Some(s'.live.value);
    forall b | 0 <= b < |s'.attempts| && b != a
      ensures AttemptAlive(s'.refresh.value, s'.live.value, s'.attempts[b]) && Rotated(s'.attempts[b]).None?
    {
      assert AttemptAlive(s.refresh.value, s.live.value, s.attempts[b]);
    }
    forall c | 0 <= c < |s'.calls| ensures CallAlive(s'.refresh.value, s'.attempts, s'.calls[c]) {
      assert CallAlive(s.refresh.value, s.attempts, s.calls[c]);
    }
  }

  lemma AfterSave(s: State, a: nat)
    requires Alive(s) && a < |s.attempts| && s.attempts[a].phase.Saving?
    ensures Alive(StepAttempt(s, CommitSave(a), a))
  {
    var s' := StepAttempt(s, CommitSave(a), a);
    assert AttemptAlive(s.refresh.value, s.live.value, s.attempts[a]);
    forall b | 0 <= b < |s'.attempts|
      ensures AttemptAlive(s'.refresh.value, s'.live.value, s'.attempts[b]) && Rotated(s'.attempts[b]).None?
    {
      assert AttemptAlive(s.refresh.value, s.live.value, s.attempts[b]);
    }
    forall c | 0 <= c < |s'.calls| ensures CallAlive(s'.refresh.value, s'.attempts, s'.calls[c]) {
      assert CallAlive(s.refresh.value, s.attempts, s.calls[c]);
    }
  }

  /** The re-read interprets a 401 correctly exactly when the winner of the race has stored its pair. */
  lemma RereadAdoptsIff(s: State, a: nat)
    requires Alive(s) && a < |s.attempts| && s.attempts[a].phase.Rereading?
    ensures Step(s, Reread(a)).attempts[a].phase == Returning(Adopted) <==> !UnsavedWinner(s, s.attempts[a].used)
    ensures Step(s, Reread(a)).attempts[a].phase == Returning(Refused) <==> UnsavedWinner(s, s.attempts[a].used)
  {
    assert AttemptAlive(s.refresh.value, s.live.value, s.attempts[a]);
    if UnsavedWinner(s, s.attempts[a].used) {
      var b :| 0 <= b < |s.attempts| && Rotated(s.attempts[b]).Some? && s.attempts[b].used == s.attempts[a].used;
      assert AttemptAlive(s.refresh.value, s.live.value, s.attempts[b]);
    }
  }

  lemma AttemptStaysAlive(s: State, e: Event, a: nat)
    requires Alive(s) && a < |s.attempts| && !AboutCall(e) && !e.StartCall? && !e.Revoke? && e.attempt == a
    requires Benign(s, e) && Patient(s, e)
    ensures Alive(StepAttempt(s, e, a))
  {
    var s', at := StepAttempt(s, e, a), s.attempts[a];
    assert AttemptAlive(s.refresh.value, s.live.value, at);
    if s' != s {
      if e.ServerHandles? && e.fault == Handles && at.used == s.live {
        AfterRotation(s, a);
      } else if e.CommitSave? {
        AfterSave(s, a);
      } else {
        QuietAttempt(s, e, a);
        AfterQuietAttempt(s, s', a);
      }
    }
  }

  lemma QuietAttempt(s: State, e: Event, a: nat)
    requires Alive(s) && a < |s.attempts| && !AboutCall(e) && !e.StartCall? && !e.Revoke? && e.attempt == a
    requires Benign(s, e) && Patient(s, e) && !e.CommitSave?
    requires e.ServerHandles? && e.fault == Handles ==> s.attempts[a].used != s.live
    ensures var s' := StepAttempt(s, e, a);
      && s' == s.(attempts := s'.attempts, slot := s'.slot) && |s'.attempts| == |s.attempts|
      && s'.attempts == s.attempts[a := s'.attempts[a]]
      && (s.attempts[a].used.Some? ==> s'.attempts[a].used == s.attempts[a].used)
      && Rotated(s'.attempts[a]) == Rotated(s.attempts[a])
      && AttemptAlive(s.refresh.value, s.live.value, s'.attempts[a])
  {
    assert AttemptAlive(s.refresh.value, s.live.value, s.attempts[a]);
    if e.Reread? && s.attempts[a].phase.Rereading? { RereadAdoptsIff(s, a); }
  }

  lemma StaysAlive(s: State, e: Event)
    requires Safe(s) && Alive(s) && Benign(s, e) && Patient(s, e)
    ensures Alive(Step(s, e))
  {
    if AboutCall(e) && e.call < |s.calls| {
      CallShape(s, e, e.call);
      CallStaysAlive(s, e, e.call);
      AfterCall(s, Step(s, e), e.call);
    } else if !AboutCall(e) && !e.StartCall? && e.attempt < |s.attempts| {
      AttemptStaysAlive(s, e, e.attempt);
    }
  }

  // ---- Whole runs --------------------------------------------------------------------------------------

  /** No step of the run breaks a hypothesis. */
  ghost predicate Allowed(serial: nat, es: seq<Event>)
    decreases |es|
  {
    es == [] ||
    (var before, e := es[..|es| - 1], es[|es| - 1];
     && Allowed(serial, before)
     && Benign(Run(Init(serial), before), e)
     && Patient(Run(Init(serial), before), e))
  }

  lemma {:induction false} AllowedIsAlive(serial: nat, es: seq<Event>)
    requires Allowed(serial, es)
    ensures Alive(Run(Init(serial), es))
  {
    if es != [] {
      var before := es[..|es| - 1];
      AllowedIsAlive(serial, before);
      SafeRun(serial, before);
      StaysAlive(Run(Init(serial), before), es[|es| - 1]);
    }
  }

  // ---- One process ---------------------------------------------------------------------------------

  ghost predicate AllBenign(serial: nat, es: seq<Event>)
    decreases |es|
  {
    es == [] || (AllBenign(serial, es[..|es| - 1]) && Benign(Run(Init(serial), es[..|es| - 1]), es[|es| - 1]))
  }

  /** One slot is enough to make every re-read patient: nobody else can be winning. */
  lemma OneProcessIsPatient(s: State, p: nat, e: Event)
    requires Flight(s.slot, s.attempts) && AllOf(s, p)
    ensures Patient(s, e)
  {
  }

  /** Session survival: in one process, over any interleaving of any number of calls, the session is never cleared,
      and the stored token is the server's or the server's is on its way to storage. */
  lemma {:induction false} SessionSurvives(serial: nat, p: nat, es: seq<Event>)
    requires OnlyProcess(p, es) && AllBenign(serial, es)
    ensures Allowed(serial, es) && Alive(Run(Init(serial), es))
  {
    if es != [] {
      var before, e := es[..|es| - 1], es[|es| - 1];
      SessionSurvives(serial, p, before);
      SafeRun(serial, before);
      AllOfRun(serial, p, before);
      OneProcessIsPatient(Run(Init(serial), before), p, e);
      StaysAlive(Run(Init(serial), before), e);
    }
  }

  // ---- Retries are accepted ------------------------------------------------------------------------

  /** A retry is answered with a 401 only if its access token is no newer than the refresh token that was presented to
      replace it. First requests may be answered with a 401 for any reason. */
  predicate Accepts(s: State, e: Event) {
    e.CallAnswered? && e.call < |s.calls| && e.reply.Status? && e.reply.code == 401 ==>
      var call := s.calls[e.call];
      call.via.Some? && call.header.Some? && call.via.value < |s.attempts| && s.attempts[call.via.value].used.Some? ==>
        call.header.value <= s.attempts[call.via.value].used.value
  }

  ghost predicate AcceptingRun(serial: nat, es: seq<Event>)
    decreases |es|
  {
    es == [] || (AcceptingRun(serial, es[..|es| - 1]) && Accepts(Run(Init(serial), es[..|es| - 1]), es[|es| - 1]))
  }

  ghost predicate Accepted(call: Call) {
    call.phase != Ended(Rejected(401)) && (call.phase.Fetching? ==> call.header.Some?)
  }

  lemma AcceptedStep(s: State, e: Event, c: nat)
    requires Alive(s) && Accepts(s, e) && c < |s.calls| && AboutCall(e) && e.call == c && Accepted(s.calls[c])
    ensures Accepted(StepCall(s, e, c).calls[c])
  {
    assert CallAlive(s.refresh.value, s.attempts, s.calls[c]);
  }

  /** As long as no hypothesis is broken and the server accepts fresh access tokens, no call ever fails with a 401: a
      401 either leads to a retry that is accepted, or to no answer at all. */
  lemma {:induction false} NoCallFailsWith401(serial: nat, es: seq<Event>)
    requires Allowed(serial, es) && AcceptingRun(serial, es)
    ensures forall c | 0 <= c < |Run(Init(serial), es).calls| :: Accepted(Run(Init(serial), es).calls[c])
  {
    if es != [] {
      var before, e := es[..|es| - 1], es[|es| - 1];
      var s := Run(Init(serial), before);
      NoCallFailsWith401(serial, before);
      AllowedIsAlive(serial, before);
      if AboutCall(e) && e.call < |s.calls| {
        CallShape(s, e, e.call);
        AcceptedStep(s, e, e.call);
      } else if !AboutCall(e) && !e.StartCall? && !e.Revoke? && e.attempt < |s.attempts| {
        AttemptShape(s, e, e.attempt);
      }
    }
  }

  // ---- The lost race -------------------------------------------------------------------------------

  lemma LoserAdopts(s: State, a: nat)
    requires Alive(s) && a < |s.attempts| && s.attempts[a].phase.Rereading? && !UnsavedWinner(s, s.attempts[a].used)
    ensures Step(s, Reread(a)) == s.(attempts := s.attempts[a := s.attempts[a].(phase := Returning(Adopted))])
    ensures s.refresh == s.access && s.attempts[a].used.Some? && s.attempts[a].used.value < s.refresh.value
  {
    RereadAdoptsIff(s, a);
    assert AttemptAlive(s.refresh.value, s.live.value, s.attempts[a]);
  }

  /** Several processes race with one token. If the winner's save is in storage before the loser re-reads, the
      loser's refresh is on its way to true, nothing else changes (no second request, the winner's pair stays
      stored), and that pair is newer than the token the loser presented. */
  lemma LostRaceSurvived(serial: nat, es: seq<Event>, a: nat)
    requires Allowed(serial, es)
    requires var s := Run(Init(serial), es);
      a < |s.attempts| && s.attempts[a].phase.Rereading? && !UnsavedWinner(s, s.attempts[a].used)
    ensures var s := Run(Init(serial), es);
      && Run(Init(serial), es + [Reread(a)])
           == s.(attempts := s.attempts[a := s.attempts[a].(phase := Returning(Adopted))])
      && s.refresh.Some? && s.refresh == s.access
      && s.attempts[a].used.Some? && s.attempts[a].used.value < s.refresh.value
  {
    AllowedIsAlive(serial, es);
    LoserAdopts(Run(Init(serial), es), a);
    assert (es + [Reread(a)])[..|es|] == es;
  }

  // ---- What a lost rotation does -------------------------------------------------------------------

  ghost predicate Stale(stored: nat, at: Attempt) {
    Rotated(at).None? && (at.used.Some? ==> at.used.value <= stored)
  }

  /** An attempt that can end only without a new pair. */
  ghost predicate Fruitless(stored: nat, at: Attempt) {
    && (at.used.None? || at.used == Some(stored))
    && (at.phase.Posting? || at.phase.Rereading? || at.phase.Answered? ==> at.used.Some?)
    && !HasSaved(at) && at.phase != Returning(Adopted) && at.phase != Done(Adopted)
  }

  /** The server has moved on from `stored` and nobody holds the pair it moved on to. */
  ghost predicate Doomed(s: State, stored: nat, from: nat) {
    && from <= |s.attempts|
    && (s.refresh == None || s.refresh == Some(stored))
    && (s.live.Some? ==> stored < s.live.value)
    && (forall a | 0 <= a < |s.attempts| :: Stale(stored, s.attempts[a]))
    && (forall a | from <= a < |s.attempts| :: Fruitless(stored, s.attempts[a]))
  }

  lemma DoomedAttempt(s: State, e: Event, a: nat, stored: nat)
    requires a < |s.attempts| && Stale(stored, s.attempts[a])
    requires s.refresh == None || s.refresh == Some(stored)
    requires s.live.Some? ==> stored < s.live.value
    ensures var s' := StepAttempt(s, e, a);
      && s'.refresh == s.refresh && s'.live == s.live
      && Stale(stored, s'.attempts[a])
      && (Fruitless(stored, s.attempts[a]) ==> Fruitless(stored, s'.attempts[a]))
  {
  }

  lemma DoomedStep(s: State, e: Event, stored: nat, from: nat)
    requires Doomed(s, stored, from)
    ensures Doomed(Step(s, e), stored, from)
  {
    if AboutCall(e) && e.call < |s.calls| {
      DoomedCall(s, e, e.call, stored, from);
    } else if !AboutCall(e) && !e.StartCall? && !e.Revoke? && e.attempt < |s.attempts| {
      AttemptShape(s, e, e.attempt);
      DoomedAttempt(s, e, e.attempt, stored);
    }
  }

  lemma DoomedCall(s: State, e: Event, c: nat, stored: nat, from: nat)
    requires Doomed(s, stored, from) && c < |s.calls|
    ensures Doomed(StepCall(s, e, c), stored, from)
  {
    CallShape(s, e, c);
    assert StepCall(s, e, c).live == s.live;
    assert StepCall(s, e, c).refresh == s.refresh || StepCall(s, e, c).refresh == None;
  }

  lemma {:induction false} DoomedRun(s: State, es: seq<Event>, stored: nat, from: nat)
    requires Doomed(s, stored, from)
    ensures Doomed(Run(s, es), stored, from)
    decreases |es|
  {
    if es != [] {
      DoomedRun(s, es[..|es| - 1], stored, from);
      DoomedStep(Run(s, es[..|es| - 1]), es[|es| - 1], stored, from);
    }
  }

  /** If the reply to a rotation does not arrive, the session cannot recover: whatever happens later, no refresh
      started from then on ends in true, and storage never holds another token. */
  lemma LostRotationIsFatal(serial: nat, es: seq<Event>, a: nat, d: Delivery, later: seq<Event>)
    requires Allowed(serial, es) && d != Intact
    requires var s := Run(Init(serial), es);
      a < |s.attempts| && s.attempts[a].phase.Answered? && s.attempts[a].phase.reply.Issued?
    ensures var s := Run(Init(serial), es); var end := Run(Step(s, Deliver(a, d)), later);
      && (end.refresh == None || end.refresh == s.refresh)
      && (forall b | |s.attempts| <= b < |end.attempts| && end.attempts[b].phase.Done? ::
            Outcome(end.attempts[b].phase.end) != Some(true))
  {
    AllowedIsAlive(serial, es);
    var s := Run(Init(serial), es);
    assert Alive(s);
    LostRotationDooms(s, a, d);
    DoomedRun(Step(s, Deliver(a, d)), later, s.refresh.value, |s.attempts|);
  }

  lemma LostRotationDooms(s: State, a: nat, d: Delivery)
    requires Alive(s) && d != Intact
    requires a < |s.attempts| && s.attempts[a].phase.Answered? && s.attempts[a].phase.reply.Issued?
    ensures Doomed(Step(s, Deliver(a, d)), s.refresh.value, |s.attempts|)
  {
    assert AttemptAlive(s.refresh.value, s.live.value, s.attempts[a]);
    forall b | 0 <= b < |s.attempts| && b != a
      ensures Rotated(s.attempts[b]).None? && (s.attempts[b].used.Some? ==> s.attempts[b].used.value <= s.refresh.value)
    {
      assert AttemptAlive(s.refresh.value, s.live.value, s.attempts[b]);
    }
  }
}
