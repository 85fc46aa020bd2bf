/** What keeps the dashboard's users signed in: refreshes that do not overlap, and a bootstrap that loads its user. */
module DashboardSafety {
  import opened Api
  import opened DashboardSession

  // ---- The invariant ---------------------------------------------------------------------------------

  /** The attempt in the slot, if any, holds the stored token, or the pair that replaces it, or has stored it. */
  ghost predicate SlotAlive(s: State, stored: nat, current: nat) {
    s.slot.Some? ==>
      && s.slot.value == |s.attempts| - 1
      && var at := s.attempts[s.slot.value];
         match at.phase
         case Posting => at.used == Some(stored) && stored == current
         case Answered(Issued(n)) => at.used == Some(stored) && stored < current && n == current
         case Parsing(n) => at.used == Some(stored) && stored < current && n == current
         case Returning(end) => end == Saved && at.used.Some? && at.used.value < stored
         case _ => false
  }

  ghost predicate OtherAlive(other: Other, stored: nat, current: nat) {
    match other.phase
    case Asking => other.used == Some(stored) && stored == current
    case Holding(n) => other.used == Some(stored) && stored < current && n == current
    case Turned => false
    case Over => true
  }

  /** At most one refresh is on its way, and while none is, the stored token is the server's. */
  ghost predicate OneRefresh(s: State, stored: nat, current: nat) {
    && (forall i | 0 <= i < |s.others| :: OtherAlive(s.others[i], stored, current))
    && (PageBusy(s) ==> OthersIdle(s))
    && (forall i, j | 0 <= i < |s.others| && 0 <= j < |s.others| :: s.others[i].phase.Over? || s.others[j].phase.Over? || i == j)
    && (!PageBusy(s) && OthersIdle(s) ==> stored == current)
  }

  ghost predicate AttemptsAlive(s: State, stored: nat) {
    && (forall a | 0 <= a < |s.attempts| && s.slot != Some(a) ::
          s.attempts[a].phase == Done(Saved) && s.attempts[a].used.Some? && s.attempts[a].used.value < stored)
    && (forall i, j | 0 <= i < j < |s.attempts| && s.attempts[i].used.Some? && s.attempts[j].used.Some? ::
          s.attempts[i].used.value < s.attempts[j].used.value)
    && (forall a | 0 <= a < |s.attempts| && (s.attempts[a].phase.Done? || s.attempts[a].phase.Returning?) ::
          s.access.Some?)
  }

  ghost predicate BootAlive(s: State) {
    match s.boot
    case Refreshing(a) => a < |s.attempts|
    case LoadingUser(c) => c < |s.calls| && s.calls[c].header.Some? && (s.calls[c].phase.Fetching? || s.calls[c].phase.Ended?)
    case Unauthenticated => false
    case _ => true
  }

  ghost predicate CallsAlive(s: State) {
    forall c | 0 <= c < |s.calls| :: s.calls[c].phase != Ended(SessionExpired)
  }

  ghost predicate Alive(s: State) {
    && s.clears == 0
    && s.refresh.Some? && s.live.Some? && s.live.value + 1 == s.issued
    && SlotAlive(s, s.refresh.value, s.live.value)
    && OneRefresh(s, s.refresh.value, s.live.value)
    && AttemptsAlive(s, s.refresh.value)
    && BootAlive(s) && CallsAlive(s)
  }

  // ---- Each event ------------------------------------------------------------------------------------

  lemma NewAttemptAlive(s: State)
    requires Alive(s) && s.slot.None? && OthersIdle(s)
    ensures Alive(s.(slot := Some(|s.attempts|), attempts := s.attempts + [Attempt(s.refresh, Posting)]))
  {
  }

  lemma JoinAlive(s: State)
    requires Alive(s) && (s.slot.None? ==> OthersIdle(s))
    ensures Alive(Join(s).0) && Join(s).1 < |Join(s).0.attempts|
    ensures Join(s).0.calls == s.calls && Join(s).0.boot == s.boot && Join(s).0.access == s.access
  {
    if s.slot.None? {
      NewAttemptAlive(s);
      assert Join(s).0 == s.(slot := Some(|s.attempts|), attempts := s.attempts + [Attempt(s.refresh, Posting)]);
    }
  }

  lemma AttemptAlive(s: State, e: Event, a: nat)
    requires Alive(s) && Fair(s, e) && a < |s.attempts|
    requires e.LoseRequest? || e.ServerHandles? || e.Deliver? || e.StoreTokens? || e.Finally?
    ensures Alive(StepAttempt(s, e, a))
  {
    var s' := StepAttempt(s, e, a);
    if s' != s {
      assert s.slot == Some(a) && a == |s.attempts| - 1;
      assert s'.attempts == s.attempts[a := s'.attempts[a]] && s'.attempts[a].used == s.attempts[a].used;
    }
  }

  lemma BootStartAlive(s: State)
    requires Alive(s) && Apart(s, BootStart)
    ensures Alive(StepBoot(s, BootStart))
  {
    if s.boot.Mounted? { JoinAlive(s); }
  }

  lemma NewCallAlive(s: State)
    requires Alive(s) && s.access.Some?
    ensures Alive(s.(calls := s.calls + [Call(false, s.access, Fetching)], boot := LoadingUser(|s.calls|)))
  {
  }

  lemma BootResumeAlive(s: State)
    requires Alive(s)
    ensures Alive(StepBoot(s, BootResume))
  {
    if StepBoot(s, BootResume) != s {
      assert s.attempts[s.boot.attempt].phase == Done(Saved) && s.access.Some?;
      NewCallAlive(s);
    }
  }

  lemma BootLoadedAlive(s: State)
    requires Alive(s) && Loads(s, BootLoaded)
    ensures Alive(StepBoot(s, BootLoaded))
  {
  }

  lemma SetCallAlive(s: State, c: nat, call: Call)
    requires Alive(s) && c < |s.calls| && call.phase != Ended(SessionExpired)
    requires s.boot == LoadingUser(c) ==> call.header.Some? && (call.phase.Fetching? || call.phase.Ended?)
    ensures Alive(SetCall(s, c, call))
  {
  }

  lemma AnswerAlive(s: State, c: nat, reply: Reply)
    requires Alive(s) && c < |s.calls| && s.calls[c].phase.Fetching?
    requires Fair(s, CallAnswered(c, reply)) && Apart(s, CallAnswered(c, reply))
    ensures Alive(OnAnswer(s, c, reply))
  {
    var call := s.calls[c];
    if reply.code == 401 && !call.retry {
      JoinAlive(s);
      var (s', a) := Join(s);
      SetCallAlive(s', c, call.(phase := Waiting(a)));
    } else {
      SetCallAlive(s, c, call.(phase := Ended(Settle(reply.code, reply.readable))));
    }
  }

  lemma CallAlive(s: State, e: Event, c: nat)
    requires Alive(s) && Fair(s, e) && Apart(s, e) && c < |s.calls| && (e.CallAnswered? || e.Resume?) && e.call == c
    ensures Alive(StepCall(s, e, c))
  {
    if e.CallAnswered? {
      if s.calls[c].phase.Fetching? { AnswerAlive(s, c, e.reply); }
    } else if StepCall(s, e, c) != s {
      assert s.attempts[s.calls[c].phase.attempt].phase == Done(Saved);
      SetCallAlive(s, c, Call(true, s.access, Fetching));
    }
  }

  lemma OtherStartsAlive(s: State)
    requires Alive(s) && Apart(s, OtherStarts)
    ensures Alive(Step(s, OtherStarts))
  {
    var s' := Step(s, OtherStarts);
    assert s'.others[|s.others|].phase == Asking;
    assert forall i | 0 <= i < |s.others| :: s'.others[i] == s.others[i];
  }

  lemma OtherStepAlive(s: State, e: Event, i: nat)
    requires Alive(s) && i < |s.others| && (e.OtherHandled? || e.OtherSettles?)
    ensures Alive(StepOther(s, e, i))
  {
    var s' := StepOther(s, e, i);
    if s' != s {
      assert OtherAlive(s.others[i], s.refresh.value, s.live.value) && !s.others[i].phase.Over? && !PageBusy(s);
      assert s'.others == s.others[i := s'.others[i]] && !PageBusy(s');
      if OthersIdle(s') { assert s'.others[i].phase == Over; }
    }
  }

  lemma FetchAlive(s: State)
    requires Alive(s)
    ensures Alive(Step(s, StartFetch))
  {
  }

  lemma BootStepAlive(s: State, e: Event)
    requires Alive(s) && Apart(s, e) && Loads(s, e) && (e.BootStart? || e.BootResume? || e.BootLoaded?)
    ensures Alive(StepBoot(s, e))
  {
    if e == BootStart { BootStartAlive(s); } else if e == BootResume { BootResumeAlive(s); } else { BootLoadedAlive(s); }
  }

  lemma PageStepAlive(s: State, e: Event)
    requires Alive(s) && Fair(s, e) && Apart(s, e) && !e.OtherStarts? && !e.OtherHandled? && !e.OtherSettles?
    requires !e.StartFetch? && !e.BootStart? && !e.BootResume? && !e.BootLoaded?
    ensures Alive(Step(s, e))
  {
    if e.CallAnswered? || e.Resume? { if e.call < |s.calls| { CallAlive(s, e, e.call); } }
    else if e.attempt < |s.attempts| { AttemptAlive(s, e, e.attempt); }
  }

  lemma AliveStep(s: State, e: Event)
    requires Alive(s) && Fair(s, e) && Apart(s, e) && Loads(s, e)
    ensures Alive(Step(s, e))
  {
    if e.StartFetch? { FetchAlive(s); }
    else if e.BootStart? || e.BootResume? || e.BootLoaded? { BootStepAlive(s, e); }
    else if e.OtherStarts? { OtherStartsAlive(s); }
    else if e.OtherHandled? || e.OtherSettles? { if e.other < |s.others| { OtherStepAlive(s, e, e.other); } }
    else { PageStepAlive(s, e); }
  }

  lemma {:induction false} AliveRun(serial: nat, es: seq<Event>)
    requires FairRun(serial, es) && ApartRun(serial, es) && LoadsRun(serial, es)
    ensures Alive(Run(Init(serial), es))
  {
    if es != [] {
      AliveRun(serial, es[..|es| - 1]);
      AliveStep(Run(Init(serial), es[..|es| - 1]), es[|es| - 1]);
    }
  }

  // ---- One tab ---------------------------------------------------------------------------------------

  lemma AloneStep(s: State, e: Event)
    requires s.others == [] && e != OtherStarts
    ensures Apart(s, e) && Step(s, e).others == []
  {
  }

  lemma {:induction false} AloneIsApart(serial: nat, es: seq<Event>)
    requires OtherStarts !in es
    ensures ApartRun(serial, es) && Run(Init(serial), es).others == []
  {
    if es != [] {
      AloneIsApart(serial, es[..|es| - 1]);
      AloneStep(Run(Init(serial), es[..|es| - 1]), es[|es| - 1]);
    }
  }

  /** However the bootstrap and any number of page fetches interleave, the session is never cleared, the bootstrap
      never ends unauthenticated, no fetch is sent to the login page, and every refresh token is spent once. */
  lemma BootstrapNeverSignsOut(serial: nat, es: seq<Event>)
    requires FairRun(serial, es) && LoadsRun(serial, es) && OtherStarts !in es
    ensures var s := Run(Init(serial), es);
      && s.clears == 0 && s.refresh.Some? && s.boot != Unauthenticated
      && (forall c | 0 <= c < |s.calls| :: s.calls[c].phase != Ended(SessionExpired))
      && (forall i, j | 0 <= i < |s.attempts| && 0 <= j < |s.attempts|
            && s.attempts[i].used == s.attempts[j].used :: i == j)
  {
    AloneIsApart(serial, es);
    AliveRun(serial, es);
    var s := Run(Init(serial), es);
    forall a | 0 <= a < |s.attempts| ensures s.attempts[a].used.Some? {
      if s.slot == Some(a) { assert SlotAlive(s, s.refresh.value, s.live.value); }
    }
  }

  ghost predicate SignedInThroughout(serial: nat, es: seq<Event>)
    decreases |es|
  {
    && Run(Init(serial), es).clears == 0 && Run(Init(serial), es).boot != Unauthenticated
    && (es == [] || SignedInThroughout(serial, es[..|es| - 1]))
  }

  /** With no other tab, the one thing left that can sign the user out is the answer to `/auth/me`: the user stays
      signed in exactly as long as it brings the user, although no other answer than a 2xx says the session is over. */
  lemma {:induction false} BootstrapSignsOutIff(serial: nat, es: seq<Event>)
    requires FairRun(serial, es) && OtherStarts !in es
    ensures SignedInThroughout(serial, es) <==> LoadsRun(serial, es)
  {
    if es != [] {
      var before, e := es[..|es| - 1], es[|es| - 1];
      BootstrapSignsOutIff(serial, before);
      if LoadsRun(serial, before) {
        var s := Run(Init(serial), before);
        AloneIsApart(serial, es);
        AliveRun(serial, before);
        if Loads(s, e) { AliveStep(s, e); } else { FailedLoadClears(s, e); }
      }
    }
  }

  /** A user that cannot be loaded costs the session, although the server's is alive. */
  lemma FailedLoadClears(s: State, e: Event)
    requires Alive(s) && !Loads(s, e)
    ensures var s' := Step(s, e); s'.clears == 1 && s'.refresh == None && s'.boot == Unauthenticated && s'.live.Some?
  {
  }

  // ---- What each reply does --------------------------------------------------------------------------

  /** A fetch ends as its answer says, unless that is its first 401: then it waits for the attempt in the slot. */
  lemma FetchFollowsReply(s: State, c: nat, reply: Reply)
    requires c < |s.calls| && s.calls[c].phase.Fetching?
    ensures var s' := Step(s, CallAnswered(c, reply));
      && |s'.calls| == |s.calls|
      && if reply.Status? && reply.code == 401 && !s.calls[c].retry
         then s'.slot.Some? && s'.calls[c].phase == Waiting(s'.slot.value)
         else s'.calls[c].phase.Ended? && Says(reply, s'.calls[c].phase.result) && s'.slot == s.slot
  {
  }

  /** A fetch whose refresh succeeded is sent once more, with the access token now in memory, and ends as the second
      answer says, another 401 included. */
  lemma RefreshedFetchIsRetried(s: State, c: nat, reply: Reply)
    requires c < |s.calls| && s.calls[c].phase.Waiting? && s.calls[c].phase.attempt < |s.attempts|
    requires s.attempts[s.calls[c].phase.attempt].phase == Done(Saved)
    ensures var s1 := Step(s, Resume(c)); var s2 := Step(s1, CallAnswered(c, reply));
      && |s1.calls| == |s2.calls| == |s.calls|
      && s1.calls[c].phase.Fetching? && s1.calls[c].header == s.access
      && s2.calls[c].phase.Ended? && Says(reply, s2.calls[c].phase.result)
      && s2.access == s.access && s2.refresh == s.refresh && s2.clears == s.clears
  {
    FetchFollowsReply(Step(s, Resume(c)), c, reply);
  }

  /** A fetch whose refresh returned false signs the page out; one whose refresh threw leaves the session alone. */
  lemma UnrefreshedFetchEnds(s: State, c: nat)
    requires c < |s.calls| && s.calls[c].phase.Waiting? && s.calls[c].phase.attempt < |s.attempts|
    requires s.attempts[s.calls[c].phase.attempt].phase.Done?
    ensures var end := s.attempts[s.calls[c].phase.attempt].phase.end; var s' := Step(s, Resume(c));
      && |s'.calls| == |s.calls|
      && (end.NoToken? || end.NotOk? ==>
            s'.calls[c].phase == Ended(SessionExpired) && s'.access == None && s'.refresh == None && s'.clears == s.clears + 1)
      && (end.Threw? ==>
            s'.calls[c].phase == Ended(Unreachable) && s'.access == s.access && s'.refresh == s.refresh && s'.clears == s.clears)
  {
  }

  /** A refresh in another tab stores the new pair's token if the server honours it, and clears the shared key if not;
      either way it is over. */
  lemma OtherFollowsServer(s: State, i: nat)
    requires i < |s.others| && s.others[i].phase.Asking?
    ensures var s' := Step(Step(s, OtherHandled(i)), OtherSettles(i));
      && |s'.others| == |s.others| && s'.others[i].phase == Over && s'.access == s.access
      && if s.live.Some? && s.others[i].used == s.live
         then s'.refresh == Some(s.issued) && s'.live == Some(s.issued) && s'.issued == s.issued + 1 && s'.clears == s.clears
         else s'.refresh == None && s'.live == s.live && s'.clears == s.clears + 1
  {
    assert Step(s, OtherHandled(i)).others[i].phase.Holding? || Step(s, OtherHandled(i)).others[i].phase.Turned?;
  }

  /** The bootstrap goes on to load the user if its refresh succeeded, with the new access token, and otherwise, a
      refresh that threw included, signs the page out. */
  lemma BootFollowsRefresh(s: State, a: nat)
    requires s.boot == Refreshing(a) && a < |s.attempts| && s.attempts[a].phase.Done?
    ensures var s' := Step(s, BootResume);
      if s.attempts[a].phase.end.Saved? then
        && s'.boot == LoadingUser(|s.calls|) && |s'.calls| == |s.calls| + 1
        && s'.calls[|s.calls|] == Call(false, s.access, Fetching) && s'.clears == s.clears
      else s'.boot == Unauthenticated && s'.access == None && s'.refresh == None && s'.clears == s.clears + 1
  {
  }

  /** The bootstrap of a page without a token ends at once, unauthenticated; with one it awaits the refresh in flight. */
  lemma BootStartsWithToken(s: State)
    requires s.boot.Mounted?
    ensures var s' := Step(s, BootStart);
      if s.refresh.None? then s' == s.(boot := Unauthenticated)
      else s'.slot.Some? && s'.boot == Refreshing(s'.slot.value) && s'.calls == s.calls && s'.clears == s.clears
  {
  }

  /** A fetch is sent with the access token in memory, and may be retried. */
  lemma FetchStarts(s: State)
    ensures Step(s, StartFetch) == s.(calls := s.calls + [Call(false, s.access, Fetching)])
  {
  }

  /** The answer to `/auth/me` decides: a 204 or a readable 2xx authenticates, anything else but a 401 signs out. */
  lemma UserLoadDecides(s: State, c: nat, reply: Reply)
    requires s.boot == LoadingUser(c) && c < |s.calls| && s.calls[c].phase.Fetching?
    requires reply.Status? ==> reply.code != 401
    ensures var s' := Step(Step(s, CallAnswered(c, reply)), BootLoaded);
      if reply.Status? && 200 <= reply.code <= 299 && (reply.readable || reply.code == 204)
      then s'.boot == Authenticated && s'.access == s.access && s'.refresh == s.refresh
      else s'.boot == Unauthenticated && s'.access == None && s'.refresh == None && s'.clears == s.clears + 1
  {
    FetchFollowsReply(s, c, reply);
    assert Step(s, CallAnswered(c, reply)) == OnAnswer(s, c, reply);
  }

  /** What `performRefresh` comes to, from its request on: a new pair in both places and true; false after any other
      answer; a rejection, with nothing stored, after none and after one that does not parse. */
  lemma RefreshFollowsServer(s: State, a: nat, fault: Fault, d: Delivery)
    requires a < |s.attempts| && s.attempts[a].phase.Posting?
    ensures var s' := Step(Step(Step(s, ServerHandles(a, fault)), Deliver(a, d)), StoreTokens(a));
      var honoured := s.live.Some? && s.attempts[a].used == s.live && fault != FailsFirst;
      && |s'.attempts| == |s.attempts| && s'.live == (if honoured then Some(s.issued) else s.live)
      && if d == Lost || (d == Garbled && honoured && fault == Handles) then
           s'.attempts[a].phase == Returning(Threw) && s'.access == s.access && s'.refresh == s.refresh
         else if honoured && fault == Handles then
           s'.attempts[a].phase == Returning(Saved) && s'.access == Some(s.issued) && s'.refresh == Some(s.issued)
         else s'.attempts[a].phase == Returning(NotOk) && s'.access == s.access && s'.refresh == s.refresh
  {
    var s0 := Step(s, ServerHandles(a, fault));
    assert s0.attempts[a].phase.Answered? && s0.access == s.access && s0.refresh == s.refresh;
  }

  /** Every way out empties the slot and leaves its result to the waiters; a lost request is a rejection too. */
  lemma RefreshReturns(s: State, a: nat)
    requires a < |s.attempts|
    ensures s.attempts[a].phase.Returning? ==> var s' := Step(s, Finally(a));
      |s'.attempts| == |s.attempts| && s'.attempts[a].phase == Done(s.attempts[a].phase.end) && s'.slot == None
    ensures s.attempts[a].phase.Posting? ==> var s' := Step(s, LoseRequest(a));
      |s'.attempts| == |s.attempts| && s'.attempts[a].phase == Returning(Threw) && s'.live == s.live && s'.refresh == s.refresh
  {
  }

  /** It starts by presenting the stored token, if there is one, and ends in false without one. */
  lemma RefreshStarts(s: State)
    requires s.slot.None?
    ensures var (s', a) := Join(s);
      && a == |s.attempts| < |s'.attempts| && s'.slot == Some(a) && s'.attempts[a].used == s.refresh
      && (s.refresh.Some? ==> s'.attempts[a].phase.Posting?)
      && (s.refresh.None? ==> s'.attempts[a].phase == Returning(NoToken))
  {
  }
}
