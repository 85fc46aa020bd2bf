/** Theorems about every run of the mobile refresh protocol, with no hypothesis about replies. */
module SessionTheorems {
  import opened Api
  import opened MobileSession
  import opened SessionSafety

  /** At most one refresh per process is outstanding; a call that waits for an attempt can resume only when that
      attempt has finished, and by then the slot no longer holds it. */
  lemma SingleFlight(serial: nat, es: seq<Event>)
    ensures var s := Run(Init(serial), es);
      && (forall i, j | 0 <= i < |s.attempts| && 0 <= j < |s.attempts|
            && !s.attempts[i].phase.Done? && !s.attempts[j].phase.Done?
            && s.attempts[i].process == s.attempts[j].process :: i == j)
      && (forall c | 0 <= c < |s.calls| && s.calls[c].phase.Waiting? ::
            var a, p := s.calls[c].phase.attempt, s.calls[c].process;
            && a < |s.attempts|
            && (s.attempts[a].phase.Done? <==> !(p in s.slot && s.slot[p] == a)))
  {
    SafeRun(serial, es);
    var s := Run(Init(serial), es);
    assert forall c | 0 <= c < |s.calls| :: Told(s.attempts, s.calls[c]);
  }

  /** Every call that awaited a finished attempt of its process was given that attempt's outcome, and only it: all of
      them asked once more and end as their second answers say, or all of them ended the session, or all of them failed
      with a network error. */
  lemma WaitersShareOutcome(serial: nat, es: seq<Event>, c: nat, d: nat)
    requires c < |Run(Init(serial), es).calls| && d < |Run(Init(serial), es).calls|
    ensures var s := Run(Init(serial), es); var x := s.calls[c]; var y := s.calls[d];
      x.via.Some? && x.via == y.via ==>
        && x.via.value < |s.attempts| && s.attempts[x.via.value].phase.Done?
        && x.process == y.process == s.attempts[x.via.value].process
        && var outcome := Outcome(s.attempts[x.via.value].phase.end);
           Follows(x, outcome) && Follows(y, outcome)
  {
    SafeRun(serial, es);
    var s := Run(Init(serial), es);
    assert Told(s.attempts, s.calls[c]) && Told(s.attempts, s.calls[d]);
  }

  lemma RetrySteps(s: State, c: nat, reply: Reply)
    requires c < |s.calls| && s.calls[c].phase.Waiting? && s.calls[c].phase.attempt < |s.attempts|
    requires var phase := s.attempts[s.calls[c].phase.attempt].phase; phase.Done? && (phase.end.Saved? || phase.end.Adopted?)
    ensures var s1 := Step(s, Resume(c)); var s2 := Step(s1, ReadAccess(c)); var s3 := Step(s2, CallAnswered(c, reply));
      && |s1.calls| == |s2.calls| == |s3.calls| == |s.calls|
      && !s1.calls[c].phase.Ended? && s2.calls[c].phase.Fetching? && s2.calls[c].header == s.access
      && s3.calls[c].phase.Ended? && Says(reply, s3.calls[c].phase.result)
      && s3.access == s.access && s3.refresh == s.refresh
  {
    var a := s.calls[c].phase.attempt;
    var s1 := Step(s, Resume(c));
    assert s1 == SetCall(s, c, s.calls[c].(via := Some(a), header := None, phase := Preparing));
    var s2 := Step(s1, ReadAccess(c));
    assert s2 == SetCall(s, c, s.calls[c].(via := Some(a), header := s.access, phase := Fetching));
  }

  /** A call whose refresh succeeded is retried with the token then stored, whoever's refresh that was: before the second
      answer it has not ended, and then it ends as that answer says, another 401 included. */
  lemma RefreshedCallIsRetried(serial: nat, es: seq<Event>, c: nat, reply: Reply)
    requires var s := Run(Init(serial), es);
      && c < |s.calls| && s.calls[c].phase.Waiting? && s.calls[c].phase.attempt < |s.attempts|
      && s.attempts[s.calls[c].phase.attempt].phase.Done?
      && var end := s.attempts[s.calls[c].phase.attempt].phase.end; end.Saved? || end.Adopted?
    ensures var s := Run(Init(serial), es);
      var s1 := Run(Init(serial), es + [Resume(c)]);
      var s2 := Run(Init(serial), es + [Resume(c)] + [ReadAccess(c)]);
      var s3 := Run(Init(serial), es + [Resume(c)] + [ReadAccess(c)] + [CallAnswered(c, reply)]);
      && |s1.calls| == |s2.calls| == |s3.calls| == |s.calls|
      && !s1.calls[c].phase.Ended? && s2.calls[c].phase.Fetching? && s2.calls[c].header == s.access
      && s3.calls[c].phase.Ended? && Says(reply, s3.calls[c].phase.result)
      && s3.access == s.access && s3.refresh == s.refresh
  {
    var s := Run(Init(serial), es);
    RunLast(Init(serial), es, Resume(c));
    RunLast(Init(serial), es + [Resume(c)], ReadAccess(c));
    RunLast(Init(serial), es + [Resume(c)] + [ReadAccess(c)], CallAnswered(c, reply));
    RetrySteps(s, c, reply);
  }

  /** A call whose refresh returned false clears both tokens and ends as session expired; one whose refresh threw ends in
      a network error and leaves the tokens alone. */
  lemma UnrefreshedCallEnds(serial: nat, es: seq<Event>, c: nat)
    requires var s := Run(Init(serial), es);
      && c < |s.calls| && s.calls[c].phase.Waiting? && s.calls[c].phase.attempt < |s.attempts|
      && s.attempts[s.calls[c].phase.attempt].phase.Done?
    ensures var s := Run(Init(serial), es); var end := s.attempts[s.calls[c].phase.attempt].phase.end;
      var s' := Run(Init(serial), es + [Resume(c)] + [CommitClear(c)]);
      && |s'.calls| == |s.calls|
      && (end.NoToken? || end.Refused? || end.NotOk? ==>
            s'.calls[c].phase == Ended(SessionExpired) && s'.access == None && s'.refresh == None)
      && (end.Threw? ==>
            s'.calls[c].phase == Ended(Unreachable) && s'.access == s.access && s'.refresh == s.refresh)
  {
    RunLast(Init(serial), es, Resume(c));
    RunLast(Init(serial), es + [Resume(c)], CommitClear(c));
    var s := Run(Init(serial), es);
    assert Step(s, Resume(c)).calls[c].phase == match Outcome(s.attempts[s.calls[c].phase.attempt].phase.end)
      case Some(true) => Preparing
      case Some(false) => Clearing
      case None => Ended(Unreachable);
  }

  /** The first answer settles a call, unless it is a 401: then the call waits for the attempt its process has in
      flight. */
  lemma FirstAnswer(serial: nat, es: seq<Event>, c: nat, reply: Reply)
    requires var s := Run(Init(serial), es); c < |s.calls| && s.calls[c].phase.Fetching? && s.calls[c].via.None?
    ensures var s' := Run(Init(serial), es + [CallAnswered(c, reply)]);
      && c < |s'.calls|
      && if IsRefusal(reply) then
           var p := s'.calls[c].process;
           && p in s'.slot && s'.calls[c].phase == Waiting(s'.slot[p])
           && s'.slot[p] < |s'.attempts| && !s'.attempts[s'.slot[p]].phase.Done?
         else s'.calls[c].phase.Ended? && Says(reply, s'.calls[c].phase.result)
  {
    RunLast(Init(serial), es, CallAnswered(c, reply));
    SafeRun(serial, es);
    var s := Run(Init(serial), es);
    JoinStep(s, s.calls[c].process);
    assert Step(s, CallAnswered(c, reply)) == OnAnswer(s, c, reply);
  }

  /** What `performRefresh` comes to: it presents the stored token, or returns false without one. */
  lemma RefreshPresents(s: State, a: nat)
    requires a < |s.attempts| && s.attempts[a].phase.Reading?
    ensures var s' := Step(s, ReadRefresh(a));
      && |s'.attempts| == |s.attempts|
      && (s.refresh.Some? ==> s'.attempts[a].phase.Posting? && s'.attempts[a].used == s.refresh)
      && (s.refresh.None? ==> s'.attempts[a].phase == Returning(NoToken))
  {
  }

  /** From the request on: no answer and an answer that does not parse are a rejection with nothing stored; a non-ok
      answer other than a 401 is false; the new pair is stored in both places before true is returned. */
  lemma RefreshFollowsServer(s: State, a: nat, fault: Fault, d: Delivery)
    requires a < |s.attempts| && s.attempts[a].phase.Posting?
    ensures var s1 := Step(Step(s, ServerHandles(a, fault)), Deliver(a, d)); var s' := Step(s1, CommitSave(a));
      var honoured := s.live.Some? && s.attempts[a].used == s.live && fault != FailsFirst;
      && |s1.attempts| == |s'.attempts| == |s.attempts| && s'.live == (if honoured then Some(s.issued) else s.live)
      && if d == Lost || (d == Garbled && honoured && fault == Handles) then
           s'.attempts[a].phase == Returning(Threw) && s'.access == s.access && s'.refresh == s.refresh
         else if fault != Handles then
           s'.attempts[a].phase == Returning(NotOk) && s'.access == s.access && s'.refresh == s.refresh
         else if honoured then
           && s'.attempts[a].phase == Returning(Saved(s.issued))
           && s'.access == Some(s.issued) && s'.refresh == Some(s.issued)
         else s1.attempts[a].phase.Rereading? && s1.access == s.access && s1.refresh == s.refresh
  {
    var s0 := Step(s, ServerHandles(a, fault));
    assert s0.attempts[a].phase.Answered? && s0.access == s.access && s0.refresh == s.refresh;
  }

  /** After a 401 it is true exactly if storage now holds another token. */
  lemma RefusalIsInterpreted(s: State, a: nat)
    requires a < |s.attempts| && s.attempts[a].phase.Rereading?
    ensures var s' := Step(s, Reread(a));
      && |s'.attempts| == |s.attempts| && s'.access == s.access && s'.refresh == s.refresh
      && s'.attempts[a].phase == Returning(if s.refresh.Some? && s.refresh != s.attempts[a].used then Adopted else Refused)
  {
  }

  /** And every way out empties the slot and leaves its result to the waiters; a lost request is a rejection too. */
  lemma RefreshReturns(s: State, a: nat)
    requires a < |s.attempts|
    ensures s.attempts[a].phase.Returning? ==> var s' := Step(s, Finally(a));
      && |s'.attempts| == |s.attempts| && s'.attempts[a].phase == Done(s.attempts[a].phase.end)
      && s.attempts[a].process !in s'.slot && forall p | p in s.slot && p != s.attempts[a].process :: p in s'.slot && s'.slot[p] == s.slot[p]
    ensures s.attempts[a].phase.Posting? ==> var s' := Step(s, LoseRequest(a));
      |s'.attempts| == |s.attempts| && s'.attempts[a].phase == Returning(Threw) && s'.live == s.live && s'.refresh == s.refresh
  {
  }

  lemma TogetherStep(s: State, e: Event)
    requires s.access == s.refresh
    ensures Step(s, e).access == Step(s, e).refresh
  {
  }

  /** Storage never holds one half of a pair, or halves of two pairs: both its writes are writes of both halves. */
  lemma {:induction false} TokensIssuedTogether(serial: nat, es: seq<Event>)
    ensures Run(Init(serial), es).access == Run(Init(serial), es).refresh
  {
    if es != [] {
      TokensIssuedTogether(serial, es[..|es| - 1]);
      TogetherStep(Run(Init(serial), es[..|es| - 1]), es[|es| - 1]);
    }
  }

  // ---- Single spend, for one process -------------------------------------------------------------

  predicate OnlyProcess(p: nat, es: seq<Event>) {
    forall i | 0 <= i < |es| && es[i].StartCall? :: es[i].process == p
  }

  ghost predicate AllOf(s: State, p: nat) {
    && (forall a | 0 <= a < |s.attempts| :: s.attempts[a].process == p)
    && (forall c | 0 <= c < |s.calls| :: s.calls[c].process == p)
    && (forall a | 0 <= a < |s.attempts| - 1 :: s.attempts[a].phase.Done?)
  }

  lemma AllOfStep(s: State, e: Event, p: nat)
    requires Flight(s.slot, s.attempts) && AllOf(s, p) && (e.StartCall? ==> e.process == p)
    ensures AllOf(Step(s, e), p)
  {
    if AboutCall(e) && e.call < |s.calls| {
      CallShape(s, e, e.call);
      AllOfCall(s, Step(s, e), e.call, p);
    } else if !AboutCall(e) && !e.StartCall? && !e.Revoke? && e.attempt < |s.attempts| {
      AttemptShape(s, e, e.attempt);
      AttemptStep(s, e, e.attempt);
    }
  }

  lemma AllOfCall(s: State, s': State, c: nat, p: nat)
    requires Flight(s.slot, s.attempts) && AllOf(s, p) && c < |s.calls| == |s'.calls|
    requires s'.calls == s.calls[c := s'.calls[c]] && s'.calls[c].process == s.calls[c].process
    requires s'.attempts == s.attempts
      || (s.calls[c].process !in s.slot
          && s'.attempts == s.attempts + [Attempt(s.calls[c].process, None, Reading)])
    ensures AllOf(s', p)
  {
  }

  lemma {:induction false} AllOfRun(serial: nat, p: nat, es: seq<Event>)
    requires OnlyProcess(p, es)
    ensures AllOf(Run(Init(serial), es), p)
  {
    if es != [] {
      var before := es[..|es| - 1];
      AllOfRun(serial, p, before);
      SafeRun(serial, before);
      AllOfStep(Run(Init(serial), before), es[|es| - 1], p);
    }
  }

  predicate HasSaved(at: Attempt) {
    (at.phase.Returning? || at.phase.Done?) && at.phase.end.Saved?
  }

  /** The serial of the pair this attempt's rotation produced, while the client knows it. */
  function Rotated(at: Attempt): Option<nat> {
    match at.phase
    case Answered(Issued(n)) => Some(n)
    case Saving(n) => Some(n)
    case _ => None
  }

  /** What one attempt knows is consistent with its place in time, given storage and the server's counter. */
  ghost predicate Dated(refresh: Option<nat>, issued: nat, at: Attempt) {
    && (at.used.Some? ==> at.used.value < issued)
    && (Rotated(at).Some? ==> at.used.Some? && at.used.value < Rotated(at).value < issued)
    && (at.phase.Posting? ==> at.used.Some?)
    && (at.phase.Reading? || at.phase == Returning(NoToken) || at.phase == Done(NoToken) ==> at.used.None?)
    && (HasSaved(at) ==> at.used.Some? && (refresh.Some? ==> at.used.value < refresh.value))
  }

  /** Serials only grow: a saved attempt's token is older than what storage holds now and than every token
      presented by a later attempt. */
  ghost predicate Growing(s: State) {
    && (s.refresh.Some? ==> s.refresh.value < s.issued)
    && (forall a | 0 <= a < |s.attempts| :: Dated(s.refresh, s.issued, s.attempts[a]))
    && (forall i, j | 0 <= i < j < |s.attempts| && HasSaved(s.attempts[i]) && s.attempts[j].used.Some? ::
          s.attempts[i].used.value < s.attempts[j].used.value)
  }

  lemma GrowingUpdate(s: State, s': State, at: Attempt)
    requires Growing(s) && |s.attempts| > 0
    requires s'.attempts == s.attempts[|s.attempts| - 1 := at]
    requires s.issued <= s'.issued && (s'.refresh.Some? ==> s'.refresh.value < s'.issued)
    requires Dated(s'.refresh, s'.issued, at)
    requires var was := s.attempts[|s.attempts| - 1];
      && (at.used == was.used || (was.used.None? && at.used == s.refresh))
      && (s'.refresh == s.refresh
          || (s'.refresh.Some? && was.used.Some? && was.used.value < s'.refresh.value))
    ensures Growing(s')
  {
    forall a | 0 <= a < |s'.attempts| ensures Dated(s'.refresh, s'.issued, s'.attempts[a]) {
      assert Dated(s.refresh, s.issued, s.attempts[a]);
    }
    forall i, j | 0 <= i < j < |s'.attempts| && HasSaved(s'.attempts[i]) && s'.attempts[j].used.Some?
      ensures s'.attempts[i].used.value < s'.attempts[j].used.value
    {
      assert Dated(s.refresh, s.issued, s.attempts[i]);
      assert s.attempts[j].used.None? ==> j == |s.attempts| - 1;
    }
  }

  lemma DatedStep(s: State, e: Event, a: nat)
    requires a < |s.attempts| && Dated(s.refresh, s.issued, s.attempts[a])
    requires s.refresh.Some? ==> s.refresh.value < s.issued
    ensures var s' := StepAttempt(s, e, a);
      && Dated(s'.refresh, s'.issued, s'.attempts[a]) && s.issued <= s'.issued
      && (s'.refresh.Some? ==> s'.refresh.value < s'.issued)
      && (s'.refresh == s.refresh || (s'.refresh.Some? && s.attempts[a].used.Some?
                                      && s.attempts[a].used.value < s'.refresh.value))
  {
  }

  lemma GrowingAttempt(s: State, e: Event, a: nat, p: nat)
    requires Flight(s.slot, s.attempts) && AllOf(s, p) && Growing(s) && a < |s.attempts|
    ensures Growing(StepAttempt(s, e, a))
  {
    var s' := StepAttempt(s, e, a);
    if s' != s {
      assert !s.attempts[a].phase.Done? && a == |s.attempts| - 1;
      assert Dated(s.refresh, s.issued, s.attempts[a]);
      AttemptShape(s, e, a);
      DatedStep(s, e, a);
      GrowingUpdate(s, s', s'.attempts[a]);
    }
  }

  lemma GrowingCall(s: State, e: Event, c: nat)
    requires Growing(s) && c < |s.calls|
    ensures Growing(StepCall(s, e, c))
  {
    var s' := StepCall(s, e, c);
    if s'.attempts != s.attempts {
      assert s'.attempts == s.attempts + [Attempt(s.calls[c].process, None, Reading)];
    }
  }

  lemma {:induction false} GrowingRun(serial: nat, p: nat, es: seq<Event>)
    requires OnlyProcess(p, es)
    ensures Growing(Run(Init(serial), es))
  {
    if es != [] {
      var before, e := es[..|es| - 1], es[|es| - 1];
      GrowingRun(serial, p, before);
      SafeRun(serial, before);
      AllOfRun(serial, p, before);
      var s := Run(Init(serial), before);
      if AboutCall(e) && e.call < |s.calls| {
        GrowingCall(s, e, e.call);
      } else if !AboutCall(e) && !e.StartCall? && !e.Revoke? && e.attempt < |s.attempts| {
        GrowingAttempt(s, e, e.attempt, p);
      }
    }
  }

  lemma SpentOnce(s: State, p: nat, i: nat, j: nat)
    requires AllOf(s, p) && Growing(s) && i < j < |s.attempts|
    requires s.attempts[i].used.Some? && s.attempts[i].used == s.attempts[j].used
    ensures s.attempts[i].phase.Done? && s.attempts[i].phase.end in {Threw, Refused, NotOk, Adopted}
  {
    assert Dated(s.refresh, s.issued, s.attempts[i]);
    assert !HasSaved(s.attempts[i]);
  }

  /** In one process a refresh token is presented a second time only if the first attempt is over and did not get
      a pair: it threw, or was answered with a non-ok status. */
  lemma SingleSpend(serial: nat, p: nat, es: seq<Event>)
    requires OnlyProcess(p, es)
    ensures var attempts := Run(Init(serial), es).attempts;
      forall i, j | 0 <= i < j < |attempts| && attempts[i].used.Some? && attempts[i].used == attempts[j].used ::
        attempts[i].phase.Done? && attempts[i].phase.end in {Threw, Refused, NotOk, Adopted}
  {
    AllOfRun(serial, p, es);
    GrowingRun(serial, p, es);
    var s := Run(Init(serial), es);
    forall i, j | 0 <= i < j < |s.attempts| && s.attempts[i].used.Some? && s.attempts[i].used == s.attempts[j].used
      ensures s.attempts[i].phase.Done? && s.attempts[i].phase.end in {Threw, Refused, NotOk, Adopted}
    {
      SpentOnce(s, p, i, j);
    }
  }
}
