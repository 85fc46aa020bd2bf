/** Exactly when tabs that share one local storage stay signed in. */
module DashboardTabs {
  import opened Api
  import opened DashboardSession
  import opened DashboardSafety

  /** Every step of `later`, run from s, is fair, starts no second refresh, and loads the user. */
  ghost predicate HarmlessFrom(s: State, later: seq<Event>)
    decreases |later|
  {
    later == [] ||
    (var before, e := later[..|later| - 1], later[|later| - 1];
     HarmlessFrom(s, before) && Fair(Run(s, before), e) && Apart(Run(s, before), e) && Loads(Run(s, before), e))
  }

  /** Some tab's session has been cleared by the end of some harmless continuation. */
  ghost predicate Ends(s: State) {
    exists later :: HarmlessFrom(s, later) && Run(s, later).clears > 0
  }

  /** And the server's session is alive. */
  ghost predicate EndsAlone(s: State) {
    exists later :: HarmlessFrom(s, later) && Run(s, later).clears > 0 && Run(s, later).live.Some?
  }

  // ---- Putting a step in front -----------------------------------------------------------------------

  lemma {:induction false} RunFrom(s: State, e: Event, later: seq<Event>)
    ensures Run(s, [e] + later) == Run(Step(s, e), later)
    decreases |later|
  {
    if later == [] {
      RunLast(s, [], e);
      assert [e] + later == [] + [e];
    } else {
      var before, last := later[..|later| - 1], later[|later| - 1];
      RunFrom(s, e, before);
      RunLast(s, [e] + before, last);
      assert [e] + later == [e] + before + [last];
    }
  }

  lemma {:induction false} HarmlessAfter(s: State, e: Event, later: seq<Event>)
    requires Fair(s, e) && Apart(s, e) && Loads(s, e) && HarmlessFrom(Step(s, e), later)
    ensures HarmlessFrom(s, [e] + later)
    decreases |later|
  {
    var all := [e] + later;
    if later == [] {
      assert all[..0] == [] && all == [e];
      assert HarmlessFrom(s, all[..0]);
    } else {
      var before := later[..|later| - 1];
      assert all[..|all| - 1] == [e] + before;
      HarmlessAfter(s, e, before);
      RunFrom(s, e, before);
    }
  }

  lemma StepFirst(s: State, e: Event)
    requires Fair(s, e) && Apart(s, e) && Loads(s, e) && EndsAlone(Step(s, e))
    ensures EndsAlone(s)
  {
    var s' := Step(s, e);
    var later :| HarmlessFrom(s', later) && Run(s', later).clears > 0 && Run(s', later).live.Some?;
    HarmlessAfter(s, e, later);
    RunFrom(s, e, later);
  }

  lemma ClearedEnds(s: State)
    requires s.clears > 0 && s.live.Some?
    ensures EndsAlone(s)
  {
    assert HarmlessFrom(s, []) && Run(s, []) == s;
  }

  // ---- The ways down, last step first ----------------------------------------------------------------

  /** Another tab presents a token the server no longer honours. */
  lemma StaleOtherEnds(s: State, i: nat)
    requires s.live.Some? && i < |s.others| && s.others[i].phase.Asking? && s.others[i].used != s.live
    ensures EndsAlone(s)
  {
    var s1 := Step(s, OtherHandled(i));
    assert s1 == SetOther(s, i, Turned);
    var s2 := Step(s1, OtherSettles(i));
    assert s2.clears > 0 && s2.live.Some?;
    ClearedEnds(s2);
    StepFirst(s1, OtherSettles(i));
    StepFirst(s, OtherHandled(i));
  }

  /** The bootstrap or a fetch awaits attempt a. */
  ghost predicate AwaitedBy(s: State, a: nat) {
    s.boot == Refreshing(a) || exists c :: 0 <= c < |s.calls| && s.calls[c].phase == Waiting(a)
  }

  lemma RefusedEnds(s: State, a: nat)
    requires s.live.Some? && a < |s.attempts| && s.attempts[a].phase == Returning(NotOk) && AwaitedBy(s, a)
    ensures EndsAlone(s)
  {
    var s1 := Step(s, Finally(a));
    assert s1.attempts[a].phase == Done(NotOk) && s1.calls == s.calls && s1.boot == s.boot && s1.live == s.live;
    if s.boot == Refreshing(a) {
      ClearedEnds(Step(s1, BootResume));
      StepFirst(s1, BootResume);
    } else {
      var c :| 0 <= c < |s.calls| && s.calls[c].phase == Waiting(a);
      ClearedEnds(Step(s1, Resume(c)));
      StepFirst(s1, Resume(c));
    }
    StepFirst(s, Finally(a));
  }

  /** This page presents a token the server no longer honours. */
  lemma StalePageEnds(s: State, a: nat)
    requires s.live.Some? && a < |s.attempts| && s.attempts[a].phase.Posting? && s.attempts[a].used != s.live
    requires AwaitedBy(s, a)
    ensures EndsAlone(s)
  {
    var s1 := Step(s, ServerHandles(a, Handles));
    assert s1 == SetPhase(s, a, Answered(Denied));
    var s2 := Step(s1, Deliver(a, Intact));
    assert s2 == SetPhase(s, a, Returning(NotOk));
    RefusedEnds(s2, a);
    StepFirst(s1, Deliver(a, Intact));
    StepFirst(s, ServerHandles(a, Handles));
  }

  /** The server honours this page's token, which another tab has presented too. */
  lemma PageFirstEnds(s: State, a: nat, i: nat)
    requires s.live.Some? && s.live.value < s.issued && a < |s.attempts| && s.attempts[a].phase.Posting?
    requires s.attempts[a].used == s.live
    requires i < |s.others| && s.others[i].phase.Asking? && s.others[i].used == s.live
    ensures EndsAlone(s)
  {
    StaleOtherEnds(Step(s, ServerHandles(a, Handles)), i);
    StepFirst(s, ServerHandles(a, Handles));
  }

  // ---- Each broken hypothesis ------------------------------------------------------------------------

  lemma OtherOverPageEnds(s: State)
    requires Alive(s) && PageBusy(s)
    ensures EndsAlone(Step(s, OtherStarts))
  {
    var s', j := Step(s, OtherStarts), |s.others|;
    assert s' == s.(others := s.others + [Other(s.refresh, Asking)]) && s'.others[j] == Other(s.refresh, Asking);
    assert SlotAlive(s, s.refresh.value, s.live.value);
    if s.attempts[s.slot.value].phase.Posting? { PageFirstEnds(s', s.slot.value, j); } else { StaleOtherEnds(s', j); }
  }

  lemma OtherOverOtherEnds(s: State, i: nat)
    requires Alive(s) && i < |s.others| && !s.others[i].phase.Over?
    ensures EndsAlone(Step(s, OtherStarts))
  {
    var s', j := Step(s, OtherStarts), |s.others|;
    assert OtherAlive(s.others[i], s.refresh.value, s.live.value);
    assert s'.others[j] == Other(s.refresh, Asking) && s'.others[i] == s.others[i];
    if s.others[i].phase.Asking? {
      StaleOtherEnds(Step(s', OtherHandled(i)), j);
      StepFirst(s', OtherHandled(i));
    } else {
      StaleOtherEnds(s', j);
    }
  }

  /** This page begins a refresh while another tab's is on its way; s is the state before, s' the state after. */
  lemma PageOverOtherEnds(s: State, s': State, i: nat)
    requires Alive(s) && s.slot.None? && i < |s.others| && !s.others[i].phase.Over?
    requires s'.live == s.live && s'.issued == s.issued && s'.others == s.others
    requires s'.attempts == s.attempts + [Attempt(s.refresh, Posting)] && AwaitedBy(s', |s.attempts|)
    ensures EndsAlone(s')
  {
    assert OtherAlive(s.others[i], s.refresh.value, s.live.value);
    if s.others[i].phase.Asking? { PageFirstEnds(s', |s.attempts|, i); } else { StalePageEnds(s', |s.attempts|); }
  }

  lemma PageStart(s: State, e: Event)
    requires Starts(s, e) && !e.OtherStarts?
    ensures var s' := Step(s, e);
      && s'.live == s.live && s'.issued == s.issued && s'.others == s.others
      && s'.attempts == s.attempts + [Attempt(s.refresh, Posting)] && AwaitedBy(s', |s.attempts|)
  {
    if e.CallAnswered? { assert Step(s, e).calls[e.call].phase == Waiting(|s.attempts|); }
  }

  /** A refresh that begins while another is on its way, or a user that cannot be loaded, opens a way to sign the user
      out in which nothing more goes wrong and the server's session is alive. */
  lemma BrokenHypothesisEnds(s: State, e: Event)
    requires Alive(s) && Fair(s, e) && !(Apart(s, e) && Loads(s, e))
    ensures EndsAlone(Step(s, e))
  {
    if !Loads(s, e) {
      FailedLoadClears(s, e);
      ClearedEnds(Step(s, e));
    } else if e.OtherStarts? && PageBusy(s) {
      OtherOverPageEnds(s);
    } else {
      var i :| 0 <= i < |s.others| && s.others[i].phase != Over;
      if e.OtherStarts? {
        OtherOverOtherEnds(s, i);
      } else {
        PageStart(s, e);
        PageOverOtherEnds(s, Step(s, e), i);
      }
    }
  }

  // ---- Exactly when ----------------------------------------------------------------------------------

  lemma {:induction false} AliveAlong(s: State, later: seq<Event>)
    requires Alive(s) && HarmlessFrom(s, later)
    ensures Alive(Run(s, later))
    decreases |later|
  {
    if later != [] {
      AliveAlong(s, later[..|later| - 1]);
      AliveStep(Run(s, later[..|later| - 1]), later[|later| - 1]);
    }
  }

  lemma AliveIsSecure(s: State)
    requires Alive(s)
    ensures !Ends(s)
  {
    forall later | HarmlessFrom(s, later) ensures Run(s, later).clears == 0 { AliveAlong(s, later); }
  }

  /** At no point of the run could a harmless continuation sign anybody out. */
  ghost predicate SecureThroughout(serial: nat, es: seq<Event>)
    decreases |es|
  {
    !Ends(Run(Init(serial), es)) && (es == [] || SecureThroughout(serial, es[..|es| - 1]))
  }

  /** In fair runs with any number of refreshes in any number of tabs, nobody is signed out, now or by anything harmless
      that follows, exactly as long as no refresh begins while another is on its way and `/auth/me` brings the user. */
  lemma {:induction false} TabsStaySignedInIff(serial: nat, es: seq<Event>)
    requires FairRun(serial, es)
    ensures SecureThroughout(serial, es) <==> ApartRun(serial, es) && LoadsRun(serial, es)
  {
    if es == [] {
      AliveIsSecure(Init(serial));
    } else {
      var before, e := es[..|es| - 1], es[|es| - 1];
      TabsStaySignedInIff(serial, before);
      if ApartRun(serial, before) && LoadsRun(serial, before) {
        var s := Run(Init(serial), before);
        AliveRun(serial, before);
        if Apart(s, e) && Loads(s, e) {
          AliveStep(s, e);
          AliveIsSecure(Step(s, e));
        } else {
          BrokenHypothesisEnds(s, e);
        }
      }
    }
  }

  // ---- One whole refresh elsewhere -------------------------------------------------------------------

  /** Whoever holds the slot is not finished, and somebody awaits it. */
  ghost predicate Awaited(s: State) {
    s.slot.Some? ==>
      s.slot.value < |s.attempts| && !s.attempts[s.slot.value].phase.Done? && AwaitedBy(s, s.slot.value)
  }

  lemma AwaitedCall(s: State, e: Event, c: nat)
    requires Awaited(s) && c < |s.calls| && (e.CallAnswered? || e.Resume?)
    ensures Awaited(StepCall(s, e, c))
  {
    var s' := StepCall(s, e, c);
    if s' != s && s'.slot.Some? {
      if e.CallAnswered? && s'.calls[c].phase.Waiting? {
        assert s'.calls[c].phase == Waiting(s'.slot.value);
      } else if s.boot != Refreshing(s.slot.value) {
        var d :| 0 <= d < |s.calls| && s.calls[d].phase == Waiting(s.slot.value);
        assert d != c && s'.calls[d] == s.calls[d];
      }
    }
  }

  lemma AwaitedStep(s: State, e: Event)
    requires Awaited(s)
    ensures Awaited(Step(s, e))
  {
    var s' := Step(s, e);
    if e.CallAnswered? || e.Resume? {
      if e.call < |s.calls| { AwaitedCall(s, e, e.call); }
    } else if s.slot.Some? && s'.slot.Some? && s.boot != Refreshing(s.slot.value) {
      var d :| 0 <= d < |s.calls| && s.calls[d].phase == Waiting(s.slot.value);
      assert s'.calls[d] == s.calls[d];
    }
  }

  lemma {:induction false} AwaitedRun(serial: nat, es: seq<Event>)
    ensures Awaited(Run(Init(serial), es))
  {
    if es != [] {
      AwaitedRun(serial, es[..|es| - 1]);
      AwaitedStep(Run(Init(serial), es[..|es| - 1]), es[|es| - 1]);
    }
  }

  /** Another tab refreshes while nothing happens here. */
  function Elsewhere(s: State): State {
    Step(Step(Step(s, OtherStarts), OtherHandled(|s.others|)), OtherSettles(|s.others|))
  }

  lemma ElsewhereSafe(s: State)
    requires Alive(s) && !PageBusy(s) && OthersIdle(s)
    ensures Alive(Elsewhere(s))
  {
    AliveStep(s, OtherStarts);
    AliveStep(Step(s, OtherStarts), OtherHandled(|s.others|));
    AliveStep(Step(Step(s, OtherStarts), OtherHandled(|s.others|)), OtherSettles(|s.others|));
  }

  lemma ElsewhereRotates(s: State)
    requires s.refresh.Some? && s.refresh == s.live
    ensures var s' := Elsewhere(s);
      && s' == s.(refresh := Some(s.issued), live := Some(s.issued), issued := s.issued + 1, others := s'.others)
  {
    var j := |s.others|;
    var s1 := Step(s, OtherStarts);
    assert s1.others[j] == Other(s.refresh, Asking);
    var s2 := Step(s1, OtherHandled(j));
    assert s2.others[j].phase == Holding(s.issued);
  }

  lemma ElsewhereRefused(s: State)
    requires s.refresh.Some? && s.refresh != s.live
    ensures var s' := Elsewhere(s); s'.refresh == None && s'.clears == s.clears + 1 && s'.live == s.live
  {
    var j := |s.others|;
    var s1 := Step(s, OtherStarts);
    assert s1.others[j] == Other(s.refresh, Asking);
    var s2 := Step(s1, OtherHandled(j));
    assert s2.others[j].phase == Turned && s2.live == s.live && s2.clears == s.clears;
  }

  /** One whole refresh in another tab is harmless exactly if this page has no refresh on its way; if it has one, a
      harmless continuation signs a tab out while the server's session is alive. */
  lemma OtherTabIsSafeIff(serial: nat, es: seq<Event>)
    requires FairRun(serial, es) && ApartRun(serial, es) && LoadsRun(serial, es) && OthersIdle(Run(Init(serial), es))
    ensures var s := Run(Init(serial), es);
      && (!Ends(Elsewhere(s)) <==> !PageBusy(s))
      && (PageBusy(s) ==> EndsAlone(Elsewhere(s)))
  {
    var s := Run(Init(serial), es);
    AliveRun(serial, es);
    AwaitedRun(serial, es);
    if !PageBusy(s) {
      ElsewhereSafe(s);
      AliveIsSecure(Elsewhere(s));
    } else if s.attempts[s.slot.value].phase.Posting? {
      ElsewhereRotates(s);
      AwaitedKept(s, Elsewhere(s), s.slot.value);
      StalePageEnds(Elsewhere(s), s.slot.value);
    } else {
      ElsewhereRefused(s);
      ClearedEnds(Elsewhere(s));
    }
  }

  lemma AwaitedKept(s: State, s': State, a: nat)
    requires AwaitedBy(s, a) && s'.boot == s.boot && s'.calls == s.calls
    ensures AwaitedBy(s', a)
  {
  }

  // ---- A run that shows it ---------------------------------------------------------------------------

  lemma Next(es: seq<Event>, s: State, e: Event) returns (all: seq<Event>, s': State)
    requires Run(Init(0), es) == s
    ensures all == es + [e] && s' == Step(s, e) && Run(Init(0), all) == s'
  {
    all, s' := es + [e], Step(s, e);
    RunLast(Init(0), es, e);
  }

  lemma ElsewhereRun(before: seq<Event>, was: State) returns (es: seq<Event>, s: State)
    requires Run(Init(0), before) == was
    ensures s == Elsewhere(was) && Run(Init(0), es) == s
  {
    es, s := Next(before, was, OtherStarts);
    es, s := Next(es, s, OtherHandled(|was.others|));
    es, s := Next(es, s, OtherSettles(|was.others|));
  }

  lemma Refusal(before: seq<Event>, was: State, a: nat) returns (es: seq<Event>, s: State)
    requires Run(Init(0), before) == was
    requires a < |was.attempts| && was.attempts[a].phase.Posting? && was.attempts[a].used != was.live
    ensures s == SetPhase(was, a, Returning(NotOk)) && Run(Init(0), es) == s
  {
    es, s := Next(before, was, ServerHandles(a, Handles));
    assert s == SetPhase(was, a, Answered(Denied));
    es, s := Next(es, s, Deliver(a, Intact));
  }

  lemma BootRefused(before: seq<Event>, was: State, a: nat) returns (es: seq<Event>, s: State)
    requires Run(Init(0), before) == was
    requires a < |was.attempts| && was.attempts[a].phase == Returning(NotOk) && was.boot == Refreshing(a)
    ensures s.refresh == None && s.access == None && s.boot == Unauthenticated && s.live == was.live
    ensures Run(Init(0), es) == s
  {
    es, s := Next(before, was, Finally(a));
    assert s.attempts[a].phase == Done(NotOk);
    es, s := Next(es, s, BootResume);
  }

  lemma Loading() returns (es: seq<Event>, s: State)
    ensures s == Init(0).(slot := Some(0), attempts := [Attempt(Some(0), Posting)], boot := Refreshing(0))
    ensures Run(Init(0), es) == s
  {
    es, s := Next([], Init(0), BootStart);
    assert s.attempts == [Attempt(Some(0), Posting)];
  }

  /** Two tabs load at once. The other one's refresh comes first; this page's is refused, and signs both out. */
  lemma TwoTabsSignOut() returns (es: seq<Event>)
    ensures var s := Run(Init(0), es);
      s.refresh == None && s.access == None && s.boot == Unauthenticated && s.live == Some(1)
  {
    var s;
    es, s := Loading();
    ElsewhereRotates(s);
    es, s := ElsewhereRun(es, s);
    es, s := Refusal(es, s, 0);
    es, s := BootRefused(es, s, 0);
  }
}
