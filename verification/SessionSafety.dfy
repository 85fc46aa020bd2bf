/** What every run of the mobile refresh protocol keeps, whatever the network and the server do. */
module SessionSafety {
  import opened Api
  import opened MobileSession

  /** The slots hold exactly the attempts that are not finished, one a process. */
  ghost predicate Flight(slot: map<nat, nat>, attempts: seq<Attempt>) {
    && (forall a | 0 <= a < |attempts| && !attempts[a].phase.Done? ::
          attempts[a].process in slot && slot[attempts[a].process] == a)
    && (forall p | p in slot ::
          slot[p] < |attempts| && attempts[slot[p]].process == p && !attempts[slot[p]].phase.Done?)
  }

  /** Attempts are never dropped or handed to another process, and finished ones stay as they are. */
  ghost predicate Extends(before: seq<Attempt>, after: seq<Attempt>) {
    && |before| <= |after|
    && (forall a | 0 <= a < |before| ::
          && after[a].process == before[a].process
          && (before[a].phase.Done? ==> after[a] == before[a]))
  }

  predicate IsRefusal(reply: Reply) {
    reply.Status? && reply.code == 401
  }

  /** A call that has awaited no refresh has had no answer, or waits because of a 401, or ended as its answer says. */
  predicate Direct(call: Call) {
    match call.phase
    case Preparing => call.answers == []
    case Fetching => call.answers == []
    case Waiting(_) => |call.answers| == 1 && IsRefusal(call.answers[0])
    case Clearing => false
    case Ended(r) => |call.answers| == 1 && !IsRefusal(call.answers[0]) && Says(call.answers[0], r)
  }

  /** A call that awaited a refresh is where that outcome sends it. After true it asks once more, and ends as the second
      answer says; after false it ends the session; after a rejection it ends in a network error. */
  predicate Follows(call: Call, outcome: Option<bool>) {
    && call.answers != [] && IsRefusal(call.answers[0])
    && match outcome
       case Some(true) =>
         if call.phase.Ended? then |call.answers| == 2 && Says(call.answers[1], call.phase.result)
         else |call.answers| == 1 && (call.phase.Preparing? || call.phase.Fetching?)
       case Some(false) => |call.answers| == 1 && (call.phase.Clearing? || call.phase == Ended(SessionExpired))
       case None => |call.answers| == 1 && call.phase == Ended(Unreachable)
  }

  /** What one call has been told, by the replies to its own requests and by an attempt of its own process. */
  ghost predicate Told(attempts: seq<Attempt>, call: Call) {
    && (call.phase.Waiting? ==>
          && call.via.None?
          && call.phase.attempt < |attempts|
          && attempts[call.phase.attempt].process == call.process)
    && (call.via.None? ==> Direct(call))
    && (call.via.Some? ==>
          && call.via.value < |attempts|
          && attempts[call.via.value].process == call.process
          && attempts[call.via.value].phase.Done?
          && Follows(call, Outcome(attempts[call.via.value].phase.end)))
  }

  ghost predicate Safe(s: State) {
    && Flight(s.slot, s.attempts)
    && (forall c | 0 <= c < |s.calls| :: Told(s.attempts, s.calls[c]))
  }

  lemma ToldExtends(before: seq<Attempt>, after: seq<Attempt>, call: Call)
    requires Extends(before, after) && Told(before, call)
    ensures Told(after, call)
  {
  }

  /** An attempt event changes at most that attempt, and its token only by reading storage. */
  lemma AttemptShape(s: State, e: Event, a: nat)
    requires a < |s.attempts|
    ensures var s' := StepAttempt(s, e, a);
      && s'.calls == s.calls
      && |s'.attempts| == |s.attempts| && s'.attempts == s.attempts[a := s'.attempts[a]]
      && s'.attempts[a].process == s.attempts[a].process
      && (s'.attempts[a].used == s.attempts[a].used
          || (s.attempts[a].phase.Reading? && s'.attempts[a].used == s.refresh))
  {
  }

  /** A call event changes at most that call, and starts at most one attempt. */
  lemma CallShape(s: State, e: Event, c: nat)
    requires c < |s.calls|
    ensures var s' := StepCall(s, e, c);
      && |s'.calls| == |s.calls| && s'.calls == s.calls[c := s'.calls[c]]
      && s'.calls[c].process == s.calls[c].process
      && (s'.attempts == s.attempts
          || (s.calls[c].process !in s.slot
              && s'.attempts == s.attempts + [Attempt(s.calls[c].process, None, Reading)]))
  {
  }

  lemma AttemptStep(s: State, e: Event, a: nat)
    requires Flight(s.slot, s.attempts) && a < |s.attempts|
    ensures var s' := StepAttempt(s, e, a);
      Flight(s'.slot, s'.attempts) && Extends(s.attempts, s'.attempts) && s'.calls == s.calls
  {
    var s' := StepAttempt(s, e, a);
    if s' != s {
      assert !s.attempts[a].phase.Done?;
      assert s'.attempts == s.attempts[a := s'.attempts[a]];
      assert s'.attempts[a].process == s.attempts[a].process;
      if s'.attempts[a].phase.Done? {
        assert s'.slot == s.slot - {s.attempts[a].process};
      } else {
        assert s'.slot == s.slot;
      }
    }
  }

  lemma JoinStep(s: State, process: nat)
    requires Flight(s.slot, s.attempts)
    ensures var (s', a) := Join(s, process);
      && Flight(s'.slot, s'.attempts) && Extends(s.attempts, s'.attempts) && s'.calls == s.calls
      && process in s'.slot && s'.slot[process] == a < |s'.attempts| && s'.attempts[a].process == process
  {
  }

  ghost predicate CallMoved(s: State, s': State, c: nat)
    requires c < |s.calls|
  {
    && Flight(s'.slot, s'.attempts) && Extends(s.attempts, s'.attempts)
    && |s'.calls| == |s.calls| && Told(s'.attempts, s'.calls[c])
    && (forall d | 0 <= d < |s.calls| && d != c :: s'.calls[d] == s.calls[d])
  }

  lemma AnswerStep(s: State, c: nat, reply: Reply)
    requires Flight(s.slot, s.attempts) && c < |s.calls| && s.calls[c].phase.Fetching? && Told(s.attempts, s.calls[c])
    ensures CallMoved(s, OnAnswer(s, c, reply), c)
  {
    JoinStep(s, s.calls[c].process);
    if reply.Status? && reply.code == 401 && s.calls[c].via.None? {
      ToldExtends(s.attempts, Join(s, s.calls[c].process).0.attempts, s.calls[c]);
    }
  }

  lemma ResumeStep(s: State, c: nat)
    requires Flight(s.slot, s.attempts) && c < |s.calls| && s.calls[c].phase.Waiting? && Told(s.attempts, s.calls[c])
    ensures CallMoved(s, StepCall(s, Resume(c), c), c)
  {
  }

  lemma CallStep(s: State, e: Event, c: nat)
    requires Flight(s.slot, s.attempts) && c < |s.calls| && Told(s.attempts, s.calls[c])
    ensures CallMoved(s, StepCall(s, e, c), c)
  {
    if e.CallAnswered? && s.calls[c].phase.Fetching? {
      AnswerStep(s, c, e.reply);
    } else if e.Resume? && s.calls[c].phase.Waiting? {
      ResumeStep(s, c);
      assert StepCall(s, e, c) == StepCall(s, Resume(c), c);
    }
  }

  lemma SafeStep(s: State, e: Event)
    requires Safe(s)
    ensures Safe(Step(s, e)) && Extends(s.attempts, Step(s, e).attempts)
  {
    var s' := Step(s, e);
    if AboutCall(e) && e.call < |s.calls| {
      CallStep(s, e, e.call);
    } else if !AboutCall(e) && !e.StartCall? && !e.Revoke? && e.attempt < |s.attempts| {
      AttemptStep(s, e, e.attempt);
    }
    forall c | 0 <= c < |s'.calls| ensures Told(s'.attempts, s'.calls[c]) {
      if c < |s.calls| && s'.calls[c] == s.calls[c] { ToldExtends(s.attempts, s'.attempts, s.calls[c]); }
    }
  }

  lemma {:induction false} SafeRun(serial: nat, es: seq<Event>)
    ensures Safe(Run(Init(serial), es))
  {
    if es != [] {
      SafeRun(serial, es[..|es| - 1]);
      SafeStep(Run(Init(serial), es[..|es| - 1]), es[|es| - 1]);
    }
  }
}
