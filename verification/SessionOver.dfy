/** What becomes of the payment queue once the session is over, whatever runs then. To the flush the error of a dead
    session is a 4xx. */
module SessionOver {
  import opened Api
  import S = MobileSession
  import Q = QueueRuns
  import opened SessionSafety
  import opened QueueSafety
  import opened QueueOverlap
  import opened EndToEnd

  // ---- The session ---------------------------------------------------------------------------------

  /** An attempt that has no token, or is finished. */
  predicate Empty(at: S.Attempt) {
    at.phase.Done? || at.phase.Reading? || at.phase == S.Returning(S.NoToken)
  }

  /** The tokens are gone, and no refresh under way has one. */
  ghost predicate Gone(s: S.State) {
    s.access == None && s.refresh == None && forall a | 0 <= a < |s.attempts| :: Empty(s.attempts[a])
  }

  /** A call that has carried no token, and can end only with the session's error. */
  ghost predicate Lost(attempts: seq<S.Attempt>, call: S.Call) {
    && call.header == None
    && match call.phase
       case Preparing => call.via.None?
       case Fetching => call.via.None?
       case Waiting(a) => call.via.None? && a < |attempts|
         && attempts[a].phase in {S.Reading, S.Returning(S.NoToken), S.Done(S.NoToken)}
       case Clearing => true
       case Ended(r) => r == SessionExpired
  }

  /** All calls from number n on. */
  ghost predicate AllLost(s: S.State, n: nat) {
    n <= |s.calls| && forall c | n <= c < |s.calls| :: Lost(s.attempts, s.calls[c])
  }

  /** A request that carries no token is answered with a 401. */
  predicate Refuses(s: S.State, e: S.Event) {
    e.CallAnswered? && e.call < |s.calls| && s.calls[e.call].phase.Fetching? && s.calls[e.call].header.None? ==>
      e.reply.Status? && e.reply.code == 401
  }

  lemma GoneAttempt(s: S.State, e: S.Event, a: nat, n: nat)
    requires Gone(s) && AllLost(s, n) && a < |s.attempts|
    ensures Gone(S.StepAttempt(s, e, a)) && AllLost(S.StepAttempt(s, e, a), n)
  {
    var s' := S.StepAttempt(s, e, a);
    AttemptShape(s, e, a);
    forall c | n <= c < |s'.calls| ensures Lost(s'.attempts, s'.calls[c]) {
      assert Lost(s.attempts, s.calls[c]);
    }
  }

  lemma LostStays(s: S.State, s': S.State, call: S.Call)
    requires Lost(s.attempts, call)
    requires |s.attempts| <= |s'.attempts| && forall a | 0 <= a < |s.attempts| :: s'.attempts[a] == s.attempts[a]
    ensures Lost(s'.attempts, call)
  {
  }

  /** A call event keeps the tokens gone, and does not touch the attempts that are there. */
  lemma GoneCall(s: S.State, e: S.Event, c: nat)
    requires Gone(s) && c < |s.calls|
    ensures var s' := S.StepCall(s, e, c);
      && Gone(s') && |s.attempts| <= |s'.attempts|
      && (forall a | 0 <= a < |s.attempts| :: s'.attempts[a] == s.attempts[a])
  {
  }

  lemma LostAnswer(s: S.State, c: nat, reply: Reply)
    requires Safe(s) && Gone(s) && c < |s.calls| && s.calls[c].phase.Fetching? && Lost(s.attempts, s.calls[c])
    requires reply.Status? && reply.code == 401
    ensures var s' := S.OnAnswer(s, c, reply); Lost(s'.attempts, s'.calls[c])
  {
    var p := s.calls[c].process;
    if p in s.slot { assert Empty(s.attempts[s.slot[p]]); }
  }

  lemma LostCall(s: S.State, e: S.Event, c: nat)
    requires Safe(s) && Gone(s) && c < |s.calls| && Lost(s.attempts, s.calls[c]) && Refuses(s, e)
    requires S.AboutCall(e) && e.call == c
    ensures var s' := S.StepCall(s, e, c); Lost(s'.attempts, s'.calls[c])
  {
    if e.CallAnswered? && s.calls[c].phase.Fetching? { LostAnswer(s, c, e.reply); }
  }

  lemma GoneStep(s: S.State, e: S.Event, n: nat)
    requires Safe(s) && Gone(s) && AllLost(s, n) && Refuses(s, e)
    ensures Gone(S.Step(s, e)) && AllLost(S.Step(s, e), n)
  {
    var s' := S.Step(s, e);
    if S.AboutCall(e) && e.call < |s.calls| {
      CallShape(s, e, e.call);
      GoneCall(s, e, e.call);
      forall c | n <= c < |s'.calls| ensures Lost(s'.attempts, s'.calls[c]) {
        assert Lost(s.attempts, s.calls[c]);
        if c == e.call { LostCall(s, e, c); } else { LostStays(s, s', s.calls[c]); }
      }
    } else if !S.AboutCall(e) && !e.StartCall? && !e.Revoke? && e.attempt < |s.attempts| {
      GoneAttempt(s, e, e.attempt, n);
    }
  }

  // ---- The queue -----------------------------------------------------------------------------------

  /** Payment t has been dropped for the session's error by a request from number l on. */
  ghost predicate DroppedSince(log: seq<Q.Request>, l: nat, t: nat) {
    exists i :: l <= i < |log| && log[i].ticket == t && log[i].fate == Q.Refused(SessionExpired)
  }

  /** The flush that started on `q` has dropped the first k payments, in order. */
  ghost predicate Dropping(s: Q.State, q: seq<nat>, before: seq<nat>, l: nat, k: nat) {
    && k <= |q| && HasCopy(s.phase) && s.phase.copy == q[k..] && s.rejected == before + q[..k]
    && (s.phase.Storing? ==>
          && k > 0 && l <= s.phase.request < |s.log|
          && s.log[s.phase.request].ticket == q[k - 1] && s.log[s.phase.request].fate == Q.Judged(SessionExpired))
    && (forall j | 0 <= j < (if s.phase.Storing? then k - 1 else k) :: DroppedSince(s.log, l, q[j]))
  }

  /** Or it is over, and has dropped and reported them all. */
  ghost predicate AllDropped(s: Q.State, q: seq<nat>, l: nat) {
    forall t | t in q :: t in s.reported && DroppedSince(s.log, l, t)
  }

  ghost predicate Emptying(s: Q.State, q: seq<nat>, before: seq<nat>, l: nat) {
    AllDropped(s, q, l) || exists k :: Dropping(s, q, before, l, k)
  }

  /** What a flush posts from request l on, it posts with a call from number n on. */
  ghost predicate NewCalls(log: seq<Q.Request>, l: nat, n: nat) {
    l <= |log| && forall i | l <= i < |log| && (Pending(log[i].fate) || Settled(log[i].fate)) :: log[i].call >= n
  }

  lemma DroppedStays(before: seq<Q.Request>, after: seq<Q.Request>, l: nat, t: nat)
    requires |before| <= |after| && DroppedSince(before, l, t)
    requires forall i | 0 <= i < |before| && before[i].fate.Refused? ::
      after[i].ticket == before[i].ticket && after[i].fate == before[i].fate
    ensures DroppedSince(after, l, t)
  {
    var i :| l <= i < |before| && before[i].ticket == t && before[i].fate == Q.Refused(SessionExpired);
    assert after[i].ticket == t && after[i].fate == Q.Refused(SessionExpired);
  }

  /** No event changes a request that has been refused. */
  lemma RefusedStays(s: Q.State, e: Q.Event)
    requires Aligned(s)
    ensures |s.log| <= |Q.Step(s, e).log|
    ensures forall i | 0 <= i < |s.log| && s.log[i].fate.Refused? ::
      Q.Step(s, e).log[i].ticket == s.log[i].ticket && Q.Step(s, e).log[i].fate == s.log[i].fate
  {
  }

  lemma AllDroppedStays(s: Q.State, e: Q.Event, q: seq<nat>, l: nat)
    requires Aligned(s) && AllDropped(s, q, l)
    ensures AllDropped(Q.Step(s, e), q, l)
  {
    RefusedStays(s, e);
    forall t | t in q ensures t in Q.Step(s, e).reported && DroppedSince(Q.Step(s, e).log, l, t) {
      DroppedStays(s.log, Q.Step(s, e).log, l, t);
    }
  }

  lemma DroppingStays(s: Q.State, s': Q.State, q: seq<nat>, before: seq<nat>, l: nat, k: nat)
    requires Dropping(s, q, before, l, k) && HasCopy(s'.phase) && s'.phase.copy == s.phase.copy
    requires s'.rejected == s.rejected && (s'.phase.Storing? <==> s.phase.Storing?)
    requires s.phase.Storing? ==>
      && s'.phase == s.phase && s.phase.request < |s'.log|
      && s'.log[s.phase.request].ticket == s.log[s.phase.request].ticket
      && s'.log[s.phase.request].fate == s.log[s.phase.request].fate
    requires |s.log| <= |s'.log|
    requires forall i | 0 <= i < |s.log| && s.log[i].fate.Refused? ::
      s'.log[i].ticket == s.log[i].ticket && s'.log[i].fate == s.log[i].fate
    ensures Dropping(s', q, before, l, k)
  {
    forall j | 0 <= j < (if s.phase.Storing? then k - 1 else k) ensures DroppedSince(s'.log, l, q[j]) {
      DroppedStays(s.log, s'.log, l, q[j]);
    }
  }

  lemma DroppingAnswered(s: Q.State, q: seq<nat>, before: seq<nat>, l: nat, k: nat)
    requires Aligned(s) && Dropping(s, q, before, l, k) && s.phase.Posting? && l <= s.phase.request
    requires !s.log[s.phase.request].processed
    ensures Dropping(Q.Step(s, Q.FlushAnswered(SessionExpired)), q, before, l, k + 1)
  {
    var s' := Q.Step(s, Q.FlushAnswered(SessionExpired));
    assert q[k..][1..] == q[k + 1..] && before + q[..k] + [q[k]] == before + q[..k + 1];
    RefusedStays(s, Q.FlushAnswered(SessionExpired));
    forall j | 0 <= j < k ensures DroppedSince(s'.log, l, q[j]) { DroppedStays(s.log, s'.log, l, q[j]); }
  }

  lemma DroppingStored(s: Q.State, q: seq<nat>, before: seq<nat>, l: nat, k: nat)
    requires Aligned(s) && Dropping(s, q, before, l, k) && s.phase.Storing?
    ensures Dropping(Q.Step(s, Q.FlushStores), q, before, l, k)
  {
    var s', i := Q.Step(s, Q.FlushStores), s.phase.request;
    RefusedStays(s, Q.FlushStores);
    assert s'.log[i].ticket == q[k - 1] && s'.log[i].fate == Q.Refused(SessionExpired);
    forall j | 0 <= j < k ensures DroppedSince(s'.log, l, q[j]) {
      if j < k - 1 { DroppedStays(s.log, s'.log, l, q[j]); }
    }
  }

  lemma DroppingTurns(s: Q.State, q: seq<nat>, before: seq<nat>, l: nat, k: nat, c: nat)
    requires Aligned(s) && Dropping(s, q, before, l, k) && s.phase.Ready?
    ensures Emptying(Q.Step(s, Q.FlushTurn(c)), q, before, l)
  {
    var s' := Q.Step(s, Q.FlushTurn(c));
    if k == |q| {
      assert before + q[..k] == before + q;
      assert AllDropped(s', q, l);
    } else {
      DroppingStays(s, s', q, before, l, k);
    }
  }

  /** Nothing but a crash stops the flush, if its calls come to nothing but the session's error. */
  lemma EmptyingStep(s: Q.State, e: Q.Event, q: seq<nat>, before: seq<nat>, l: nat)
    requires Aligned(s) && Emptying(s, q, before, l) && e != Q.Crash
    requires e.FlushAnswered? ==> e.result == SessionExpired
    requires s.phase.Posting? ==> l <= s.phase.request
    ensures Emptying(Q.Step(s, e), q, before, l)
  {
    if AllDropped(s, q, l) {
      AllDroppedStays(s, e, q, l);
    } else {
      var k :| Dropping(s, q, before, l, k);
      if e.FlushTurn? && s.phase.Ready? {
        DroppingTurns(s, q, before, l, k, e.call);
      } else if e.FlushStores? && s.phase.Storing? {
        DroppingStored(s, q, before, l, k);
      } else if e.FlushAnswered? && s.phase.Posting? && !s.log[s.phase.request].processed {
        DroppingAnswered(s, q, before, l, k);
      } else {
        RefusedStays(s, e);
        DroppingOther(s, e, q, before, l, k);
      }
    }
  }

  lemma DroppingOther(s: Q.State, e: Q.Event, q: seq<nat>, before: seq<nat>, l: nat, k: nat)
    requires Aligned(s) && Dropping(s, q, before, l, k) && e != Q.Crash
    requires e.FlushAnswered? ==> e.result == SessionExpired
    requires !(e.FlushTurn? && s.phase.Ready?) && !(e.FlushStores? && s.phase.Storing?)
    requires !(e.FlushAnswered? && s.phase.Posting? && !s.log[s.phase.request].processed)
    ensures Dropping(Q.Step(s, e), q, before, l, k)
  {
    RefusedStays(s, e);
    DroppingStays(s, Q.Step(s, e), q, before, l, k);
  }

  lemma NewCallsStep(s: Q.State, e: Q.Event, l: nat, n: nat)
    requires Aligned(s) && NewCalls(s.log, l, n) && (e.FlushTurn? ==> e.call >= n)
    ensures NewCalls(Q.Step(s, e).log, l, n)
  {
  }

  // ---- The system ----------------------------------------------------------------------------------

  /** Where the flush was when the session was over: its queue, what it had rejected, and the numbers of the next
      request and the next call. */
  datatype Start = Start(q: seq<nat>, before: seq<nat>, l: nat, n: nat)

  ghost predicate Ending(s: System, st: Start) {
    && Safe(s.session) && Gone(s.session) && AllLost(s.session, st.n)
    && Sound(s.queue) && Linked(s.session.calls, s.queue.log) && NewCalls(s.queue.log, st.l, st.n)
    && (s.queue.phase.Posting? ==> st.l <= s.queue.phase.request)
    && Emptying(s.queue, st.q, st.before, st.l)
  }

  /** Requests without a token are answered with a 401, and the app does not die. */
  predicate Refusing(s: System, e: Event) {
    && (e.Session? ==> Refuses(s.session, e.event))
    && e != Queue(Q.Crash)
  }

  predicate RefusingFrom(s: System, later: seq<Event>)
    decreases |later|
  {
    later == [] || (RefusingFrom(s, later[..|later| - 1]) && Refusing(Run(s, later[..|later| - 1]), later[|later| - 1]))
  }

  lemma EndingSession(s: System, e: Event, st: Start)
    requires Ending(s, st) && Refusing(s, e)
    ensures var s' := Step(s, e).session; Safe(s') && Gone(s') && AllLost(s', st.n)
  {
    if SessionPart(s, e) != [] {
      SafeStep(s.session, SessionPart(s, e)[0]);
      GoneStep(s.session, SessionPart(s, e)[0], st.n);
    }
  }

  /** The answer to a post of the flush is the session's error. */
  lemma AnswerIsExpiry(s: System, st: Start)
    requires Ending(s, st) && QueuePart(s, FlushAnswered) != []
    ensures QueuePart(s, FlushAnswered) == [Q.FlushAnswered(SessionExpired)]
  {
    var req := s.queue.log[s.queue.phase.request];
    assert Lost(s.session.attempts, s.session.calls[req.call]);
  }

  lemma EndingQueue(s: System, e: Event, st: Start)
    requires Ending(s, st) && Refusing(s, e)
    ensures var s' := Step(s, e).queue;
      && Sound(s') && NewCalls(s'.log, st.l, st.n) && Emptying(s', st.q, st.before, st.l)
      && (s'.phase.Posting? ==> st.l <= s'.phase.request)
  {
    if QueuePart(s, e) != [] {
      var event := QueuePart(s, e)[0];
      if e.FlushAnswered? { AnswerIsExpiry(s, st); }
      SoundStep(s.queue, event);
      NewCallsStep(s.queue, event, st.l, st.n);
      EmptyingStep(s.queue, event, st.q, st.before, st.l);
    }
  }

  lemma {:induction false} EndingRun(s: System, later: seq<Event>, st: Start)
    requires Ending(s, st) && RefusingFrom(s, later)
    ensures Ending(Run(s, later), st)
    decreases |later|
  {
    if later != [] {
      var before, e := Run(s, later[..|later| - 1]), later[|later| - 1];
      EndingRun(s, later[..|later| - 1], st);
      EndingSession(before, e, st);
      EndingQueue(before, e, st);
      LinkedStep(before, e);
    }
  }

  lemma EndingStarts(s: System)
    requires Safe(s.session) && Sound(s.queue) && Linked(s.session.calls, s.queue.log)
    requires Gone(s.session) && s.queue.phase.Ready?
    ensures Ending(s, Start(s.queue.phase.copy, s.queue.rejected, |s.queue.log|, |s.session.calls|))
  {
    var q := s.queue.phase.copy;
    assert q[0..] == q && s.queue.rejected + q[..0] == s.queue.rejected;
    assert Dropping(s.queue, q, s.queue.rejected, |s.queue.log|, 0);
  }

  /** Once the tokens are gone, whatever runs then: as long as requests without a token are answered with a 401 and the
      app does not die, every payment that leaves the queue is dropped for the session's error and has not been
      recorded, and the flush is under way, having put exactly the payments it has dealt with in `rejected`, or is over
      and has reported them all, of which, if no write was stale, none is stored any more. */
  lemma DeadSessionEmptiesQueue(serial: nat, es: seq<Event>, later: seq<Event>)
    requires var s := Run(Init(serial), es); Gone(s.session) && s.queue.phase.Ready? && RefusingFrom(s, later)
    ensures var s, end := Run(Init(serial), es).queue, Run(Init(serial), es + later).queue; var q := s.phase.copy;
      && (forall i | |s.log| <= i < |end.log| && Settled(end.log[i].fate) ::
            end.log[i].fate == Q.Refused(SessionExpired) && !end.log[i].processed)
      && ((exists k :: Dropping(end, q, s.rejected, |s.log|, k)) || AllDropped(end, q, |s.log|))
      && (AllDropped(end, q, |s.log|) && FreshRun(QueueRun(serial, es + later)) ==>
            forall t | t in q :: t in end.reported && t !in end.stored)
  {
    var s := Run(Init(serial), es);
    var st := Start(s.queue.phase.copy, s.queue.rejected, |s.queue.log|, |s.session.calls|);
    RunIsSound(serial, es);
    EndingStarts(s);
    EndingRun(s, later, st);
    RunMore(Init(serial), es, later);
    var end := Run(s, later);
    forall i | st.l <= i < |end.queue.log| && Settled(end.queue.log[i].fate)
      ensures end.queue.log[i].fate == Q.Refused(SessionExpired) && !end.queue.log[i].processed
    {
      SettledIsExpiry(end, st, i);
    }
    if FreshRun(QueueRun(serial, es + later)) {
      IsTwoRuns(serial, es + later);
      WholeIffFresh(QueueRun(serial, es + later));
      DroppedNotStored(end.queue, st.q, st.l);
    }
  }

  lemma SettledIsExpiry(s: System, st: Start, i: nat)
    requires Ending(s, st) && st.l <= i < |s.queue.log| && Settled(s.queue.log[i].fate)
    ensures s.queue.log[i].fate == Q.Refused(SessionExpired) && !s.queue.log[i].processed
  {
    var req := s.queue.log[i];
    assert RequestLinked(s.session.calls, req) && Truthful(req);
    assert Lost(s.session.attempts, s.session.calls[req.call]);
  }

  lemma DroppedNotStored(s: Q.State, q: seq<nat>, l: nat)
    requires Whole(s)
    ensures AllDropped(s, q, l) ==> forall t | t in q :: t !in s.stored
  {
    forall t | t in q && DroppedSince(s.log, l, t) ensures t !in s.stored { assert HasSettled(s.log, t); }
  }
}
