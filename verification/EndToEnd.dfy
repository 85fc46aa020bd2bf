/** The payment queue and the refresh protocol together: the flush's calls are calls of the session machine, which
    interleave with any number of others, in any number of processes, and with their refreshes. When the app dies, the
    queue loses its memory and the app that starts again is a new process; the old one's requests may still reach the
    server. */
module EndToEnd {
  import opened Api
  import S = MobileSession
  import Q = QueueRuns
  import opened SessionSafety
  import opened SessionSurvival
  import opened QueueSafety
  import opened QueueOverlap
  import opened QueueTheorems

  datatype System = System(session: S.State, queue: Q.State)

  datatype Event =
    | Session(event: S.Event)
    | Record(call: nat, processed: bool) // a direct POST found no connection: its payment is enqueued
    | Queue(storage: Q.Event)
    | FlushTurn(process: nat)
    | FlushAnswered

  function Init(serial: nat): System {
    System(S.Init(serial), Q.Init())
  }

  /** The queue events that involve no call. */
  predicate NoCall(e: Q.Event) {
    e.EnqueueStores? || e.FlushStarts? || e.FlushReads? || e.FlushStores? || e.ServerProcesses? || e.Crash?
  }

  predicate CallEnded(s: S.State, c: nat) {
    c < |s.calls| && s.calls[c].phase.Ended?
  }

  /** What an event of the system is to the session: a turn of the flush with something to post starts a call. */
  function SessionPart(s: System, e: Event): seq<S.Event> {
    match e
    case Session(event) => [event]
    case FlushTurn(p) => if s.queue.phase.Ready? && s.queue.phase.copy != [] then [S.StartCall(p)] else []
    case _ => []
  }

  /** And to the queue: what a call came to is what its phase says. */
  function QueuePart(s: System, e: Event): seq<Q.Event> {
    match e
    case Session(_) => []
    case Record(c, processed) =>
      if CallEnded(s.session, c) && s.session.calls[c].phase.result == Unreachable
      then [Q.EnqueueReads(c, processed)] else []
    case Queue(event) => if NoCall(event) then [event] else []
    case FlushTurn(_) => [Q.FlushTurn(|s.session.calls|)]
    case FlushAnswered =>
      if s.queue.phase.Posting? && s.queue.phase.request < |s.queue.log|
         && CallEnded(s.session, s.queue.log[s.queue.phase.request].call)
      then [Q.FlushAnswered(s.session.calls[s.queue.log[s.queue.phase.request].call].phase.result)]
      else []
  }

  function Step(s: System, e: Event): System {
    var session, queue := SessionPart(s, e), QueuePart(s, e);
    System(if session == [] then s.session else S.Step(s.session, session[0]),
           if queue == [] then s.queue else Q.Step(s.queue, queue[0]))
  }

  function Run(s: System, es: seq<Event>): System
    decreases |es|
  {
    if es == [] then s else Step(Run(s, es[..|es| - 1]), es[|es| - 1])
  }

  /** The session's part of a run. */
  function SessionRun(serial: nat, es: seq<Event>): seq<S.Event>
    decreases |es|
  {
    if es == [] then []
    else
      var before := es[..|es| - 1];
      SessionRun(serial, before) + SessionPart(Run(Init(serial), before), es[|es| - 1])
  }

  /** The queue's part of a run. */
  function QueueRun(serial: nat, es: seq<Event>): seq<Q.Event>
    decreases |es|
  {
    if es == [] then []
    else
      var before := es[..|es| - 1];
      QueueRun(serial, before) + QueuePart(Run(Init(serial), before), es[|es| - 1])
  }

  lemma RunLast(s: System, es: seq<Event>, e: Event)
    ensures Run(s, es + [e]) == Step(Run(s, es), e)
  {
    assert (es + [e])[..|es|] == es;
  }

  lemma {:induction false} RunMore(s: System, es: seq<Event>, more: seq<Event>)
    ensures Run(s, es + more) == Run(Run(s, es), more)
    decreases |more|
  {
    if more == [] {
      assert es + more == es;
    } else {
      assert (es + more)[..|es + more| - 1] == es + more[..|more| - 1];
      RunMore(s, es, more[..|more| - 1]);
    }
  }

  lemma {:induction false} IsSessionRun(serial: nat, es: seq<Event>)
    ensures Run(Init(serial), es).session == S.Run(S.Init(serial), SessionRun(serial, es))
    decreases |es|
  {
    if es != [] {
      var before := es[..|es| - 1];
      IsSessionRun(serial, before);
      OneMoreSession(S.Init(serial), SessionRun(serial, before), SessionPart(Run(Init(serial), before), es[|es| - 1]));
    }
  }

  lemma {:induction false} IsQueueRun(serial: nat, es: seq<Event>)
    ensures Run(Init(serial), es).queue == Q.Run(Q.Init(), QueueRun(serial, es))
    decreases |es|
  {
    if es != [] {
      var before := es[..|es| - 1];
      IsQueueRun(serial, before);
      OneMoreQueue(Q.Init(), QueueRun(serial, before), QueuePart(Run(Init(serial), before), es[|es| - 1]));
    }
  }

  /** A run of the system is a run of the session machine and a run of the queue machine. */
  lemma IsTwoRuns(serial: nat, es: seq<Event>)
    ensures Run(Init(serial), es)
      == System(S.Run(S.Init(serial), SessionRun(serial, es)), Q.Run(Q.Init(), QueueRun(serial, es)))
  {
    IsSessionRun(serial, es);
    IsQueueRun(serial, es);
  }

  lemma OneMoreSession(s: S.State, es: seq<S.Event>, more: seq<S.Event>)
    requires |more| <= 1
    ensures S.Run(s, es + more) == if more == [] then S.Run(s, es) else S.Step(S.Run(s, es), more[0])
  {
    if more == [] { assert es + more == es; } else { S.RunLast(s, es, more[0]); assert more == [more[0]]; }
  }

  lemma OneMoreQueue(s: Q.State, es: seq<Q.Event>, more: seq<Q.Event>)
    requires |more| <= 1
    ensures Q.Run(s, es + more) == if more == [] then Q.Run(s, es) else Q.Step(Q.Run(s, es), more[0])
  {
    if more == [] { assert es + more == es; } else { Q.RunLast(s, es, more[0]); assert more == [more[0]]; }
  }

  // ---- Requests and calls --------------------------------------------------------------------------

  /** Every request's fate is what its own call settled as. */
  ghost predicate RequestLinked(calls: seq<S.Call>, req: Q.Request) {
    && req.call < |calls|
    && match req.fate
       case Removed => calls[req.call].phase == S.Ended(Success)
       case Judged(r) => calls[req.call].phase == S.Ended(r)
       case Refused(r) => calls[req.call].phase == S.Ended(r)
       case GaveUp(r) => calls[req.call].phase == S.Ended(r)
       case _ => true
  }

  ghost predicate Linked(calls: seq<S.Call>, log: seq<Q.Request>) {
    forall i | 0 <= i < |log| :: RequestLinked(calls, log[i])
  }

  lemma EndedStays(s: S.State, e: S.Event)
    ensures |s.calls| <= |S.Step(s, e).calls|
    ensures forall c | 0 <= c < |s.calls| && s.calls[c].phase.Ended? :: S.Step(s, e).calls[c] == s.calls[c]
  {
    if S.AboutCall(e) && e.call < |s.calls| {
      CallShape(s, e, e.call);
    } else if !S.AboutCall(e) && !e.StartCall? && !e.Revoke? && e.attempt < |s.attempts| {
      AttemptShape(s, e, e.attempt);
    }
  }

  lemma LinkedSession(s: S.State, e: S.Event, log: seq<Q.Request>)
    requires Linked(s.calls, log)
    ensures Linked(S.Step(s, e).calls, log)
  {
    EndedStays(s, e);
    forall i | 0 <= i < |log| ensures RequestLinked(S.Step(s, e).calls, log[i]) {
      assert RequestLinked(s.calls, log[i]);
    }
  }

  /** A queue event that involves no call only settles what was judged. */
  lemma LinkedQueue(calls: seq<S.Call>, s: Q.State, e: Q.Event)
    requires Linked(calls, s.log) && NoCall(e)
    ensures Linked(calls, Q.Step(s, e).log)
  {
    var s' := Q.Step(s, e);
    forall i | 0 <= i < |s'.log| ensures RequestLinked(calls, s'.log[i]) {
      assert RequestLinked(calls, s.log[i]);
    }
  }

  lemma LinkedAnswer(calls: seq<S.Call>, s: Q.State, r: CallResult)
    requires Linked(calls, s.log) && s.phase.Posting? && s.phase.request < |s.log|
    requires calls[s.log[s.phase.request].call].phase == S.Ended(r)
    ensures Linked(calls, Q.Step(s, Q.FlushAnswered(r)).log)
  {
    var s' := Q.Step(s, Q.FlushAnswered(r));
    forall i | 0 <= i < |s'.log| ensures RequestLinked(calls, s'.log[i]) {
      assert RequestLinked(calls, s.log[i]);
    }
  }

  lemma LinkedNew(calls: seq<S.Call>, log: seq<Q.Request>, req: Q.Request)
    requires Linked(calls, log) && RequestLinked(calls, req)
    ensures Linked(calls, log + [req])
  {
  }

  lemma LinkedTurn(s: System, p: nat)
    requires Linked(s.session.calls, s.queue.log)
    ensures Linked(Step(s, FlushTurn(p)).session.calls, Step(s, FlushTurn(p)).queue.log)
  {
    if s.queue.phase.Ready? && s.queue.phase.copy != [] {
      var c := |s.session.calls|;
      LinkedSession(s.session, S.StartCall(p), s.queue.log);
      LinkedNew(S.Step(s.session, S.StartCall(p)).calls, s.queue.log, Q.Request(s.queue.phase.copy[0], c, false, Q.Open));
    }
  }

  lemma LinkedStep(s: System, e: Event)
    requires Linked(s.session.calls, s.queue.log)
    ensures Linked(Step(s, e).session.calls, Step(s, e).queue.log)
  {
    match e
    case Session(event) => LinkedSession(s.session, event, s.queue.log);
    case Record(c, processed) =>
      if QueuePart(s, e) != [] {
        LinkedNew(s.session.calls, s.queue.log, Q.Request(s.queue.next, c, processed, Q.GaveUp(Unreachable)));
      }
    case Queue(event) => if NoCall(event) { LinkedQueue(s.session.calls, s.queue, event); }
    case FlushTurn(p) => LinkedTurn(s, p);
    case FlushAnswered =>
      if QueuePart(s, e) != [] {
        LinkedAnswer(s.session.calls, s.queue, s.session.calls[s.queue.log[s.queue.phase.request].call].phase.result);
      }
  }

  lemma {:induction false} LinkedRun(serial: nat, es: seq<Event>)
    ensures Linked(Run(Init(serial), es).session.calls, Run(Init(serial), es).queue.log)
    decreases |es|
  {
    if es != [] {
      LinkedRun(serial, es[..|es| - 1]);
      LinkedStep(Run(Init(serial), es[..|es| - 1]), es[|es| - 1]);
    }
  }

  // ---- How a payment leaves ------------------------------------------------------------------------

  /** This request took its payment off the queue because its own last answer was a 2xx. */
  ghost predicate SentByItsCall(s: System, req: Q.Request) {
    && req.fate.Removed? && req.processed && req.call < |s.session.calls|
    && var call := s.session.calls[req.call];
       && call.phase == S.Ended(Success) && call.answers != []
       && var last := call.answers[|call.answers| - 1];
          last.Status? && 200 <= last.code <= 299 && (last.readable || last.code == 204)
  }

  /** This request took its payment off the queue because its own last answer was a 4xx. */
  ghost predicate RejectedByItsCall(s: System, req: Q.Request) {
    && req.fate.Refused? && req.fate.result.Rejected? && !req.processed && req.call < |s.session.calls|
    && var call, status := s.session.calls[req.call], req.fate.result.status;
       && 400 <= status < 500 && call.phase == S.Ended(Rejected(status))
       && call.answers != [] && call.answers[|call.answers| - 1].Status? && call.answers[|call.answers| - 1].code == status
  }

  /** The call waited for a refresh of its process, and that ended in false. */
  ghost predicate RefreshFailed(s: S.State, c: nat) {
    && c < |s.calls| && s.calls[c].via.Some? && s.calls[c].via.value < |s.attempts|
    && var attempt := s.attempts[s.calls[c].via.value];
       attempt.process == s.calls[c].process && attempt.phase.Done? && S.Outcome(attempt.phase.end) == Some(false)
  }

  /** This request took its payment off the queue although the server has neither recorded nor judged it: the
      refresh its call waited for ended in false. */
  ghost predicate DroppedWithSession(s: System, req: Q.Request) {
    && req.fate == Q.Refused(SessionExpired) && !req.processed && req.call < |s.session.calls|
    && s.session.calls[req.call].phase == S.Ended(SessionExpired) && RefreshFailed(s.session, req.call)
  }

  /** In the `rejected` list of a flush that returned, or of the running one. */
  predicate InRejected(s: Q.State, t: nat) {
    t in s.reported || t in s.rejected
  }

  /** One of the three ways to leave, and the last two are reported unless a crash lost the report. */
  ghost predicate LeftBy(serial: nat, es: seq<Event>, req: Q.Request) {
    var s := Run(Init(serial), es);
    || SentByItsCall(s, req)
    || ((RejectedByItsCall(s, req) || DroppedWithSession(s, req))
        && (SparedRun(QueueRun(serial, es)) ==> InRejected(s.queue, req.ticket)))
  }

  lemma SettledByItsCall(s: System, i: nat)
    requires Safe(s.session) && Honest(s.queue) && Linked(s.session.calls, s.queue.log)
    requires i < |s.queue.log| && Settled(s.queue.log[i].fate)
    ensures var req := s.queue.log[i];
      && (SentByItsCall(s, req) || RejectedByItsCall(s, req) || DroppedWithSession(s, req))
      && (DroppedWithSession(s, req) <==> RefreshFailed(s.session, req.call))
  {
    var req := s.queue.log[i];
    assert RequestLinked(s.session.calls, req) && Truthful(req);
    assert Told(s.session.attempts, s.session.calls[req.call]);
  }

  lemma RunIsSound(serial: nat, es: seq<Event>)
    ensures var s := Run(Init(serial), es);
      Safe(s.session) && Sound(s.queue) && Linked(s.session.calls, s.queue.log)
  {
    IsTwoRuns(serial, es);
    LinkedRun(serial, es);
    SafeRun(serial, SessionRun(serial, es));
    SoundRun(QueueRun(serial, es));
  }

  lemma RunIsReported(serial: nat, es: seq<Event>, i: nat)
    requires SparedRun(QueueRun(serial, es))
    requires i < |Run(Init(serial), es).queue.log| && Run(Init(serial), es).queue.log[i].fate.Refused?
    ensures InRejected(Run(Init(serial), es).queue, Run(Init(serial), es).queue.log[i].ticket)
  {
    IsTwoRuns(serial, es);
    ReportedIffSpared(QueueRun(serial, es));
    assert TurnedAway(Run(Init(serial), es).queue.log[i].fate);
  }

  /** Whatever the server and the network do, whenever the app dies, and however many processes share the tokens: as
      long as no enqueue and no flush write over each other, every queued payment is still stored, or was sent, or was
      refused by the answer to its own POST, or was dropped because the refresh that POST waited for ended in false. */
  lemma PaymentLeavesByItsCall(serial: nat, es: seq<Event>, t: nat)
    requires FreshRun(QueueRun(serial, es)) && t in Run(Init(serial), es).queue.committed
    ensures var s := Run(Init(serial), es);
      || t in s.queue.stored
      || exists i :: 0 <= i < |s.queue.log| && s.queue.log[i].ticket == t && LeftBy(serial, es, s.queue.log[i])
  {
    RunIsSound(serial, es);
    IsTwoRuns(serial, es);
    WholeIffFresh(QueueRun(serial, es));
    var s := Run(Init(serial), es);
    if t !in s.queue.stored {
      var i :| 0 <= i < |s.queue.log| && s.queue.log[i].ticket == t && Settled(s.queue.log[i].fate);
      SettledByItsCall(s, i);
      if SparedRun(QueueRun(serial, es)) && s.queue.log[i].fate.Refused? { RunIsReported(serial, es, i); }
      assert LeftBy(serial, es, s.queue.log[i]);
    }
  }

  /** In every run, a payment that left the queue was dropped unseen exactly if the refresh its POST waited for ended in
      false. */
  lemma DroppedIffRefreshFailed(serial: nat, es: seq<Event>, i: nat)
    requires i < |Run(Init(serial), es).queue.log| && Settled(Run(Init(serial), es).queue.log[i].fate)
    ensures var s := Run(Init(serial), es); var req := s.queue.log[i];
      DroppedWithSession(s, req) <==> RefreshFailed(s.session, req.call)
  {
    RunIsSound(serial, es);
    SettledByItsCall(Run(Init(serial), es), i);
  }

  lemma NotDropped(s: System, req: Q.Request)
    requires Alive(s.session)
    ensures !DroppedWithSession(s, req)
  {
    if req.call < |s.session.calls| {
      assert CallAlive(s.session.refresh.value, s.session.attempts, s.session.calls[req.call]);
    }
  }

  /** One of the first two ways, by an answer to the payment's own POST. */
  ghost predicate Answered(serial: nat, es: seq<Event>, req: Q.Request) {
    var s := Run(Init(serial), es);
    || SentByItsCall(s, req)
    || (RejectedByItsCall(s, req) && (SparedRun(QueueRun(serial, es)) ==> InRejected(s.queue, req.ticket)))
  }

  /** If moreover no step breaks a hypothesis of the session (in one process: its replies are benign), every payment
      that leaves the queue got a 2xx, or a 4xx, to its own POST. No race between refreshes and no refresh that fails
      offline ever removes one. */
  lemma NoPaymentLeavesUnanswered(serial: nat, es: seq<Event>, t: nat)
    requires Allowed(serial, SessionRun(serial, es)) && FreshRun(QueueRun(serial, es))
    requires t in Run(Init(serial), es).queue.committed
    ensures var s := Run(Init(serial), es);
      || t in s.queue.stored
      || exists i :: 0 <= i < |s.queue.log| && s.queue.log[i].ticket == t
           && Answered(serial, es, s.queue.log[i])
  {
    PaymentLeavesByItsCall(serial, es, t);
    IsTwoRuns(serial, es);
    AllowedIsAlive(serial, SessionRun(serial, es));
    var s := Run(Init(serial), es);
    if t !in s.queue.stored {
      var i :| 0 <= i < |s.queue.log| && s.queue.log[i].ticket == t && LeftBy(serial, es, s.queue.log[i]);
      NotDropped(s, s.queue.log[i]);
      assert Answered(serial, es, s.queue.log[i]);
    }
  }

  /** And if the server accepts the access tokens its refreshes bring, none leaves with a 401: every 4xx that takes a
      payment off the queue is a judgement of the payment. */
  lemma NoPaymentLeavesWith401(serial: nat, es: seq<Event>, i: nat)
    requires Allowed(serial, SessionRun(serial, es)) && AcceptingRun(serial, SessionRun(serial, es))
    requires i < |Run(Init(serial), es).queue.log| && Settled(Run(Init(serial), es).queue.log[i].fate)
    ensures var s := Run(Init(serial), es); var req := s.queue.log[i];
      SentByItsCall(s, req) || (RejectedByItsCall(s, req) && req.fate.result.status != 401)
  {
    RunIsSound(serial, es);
    IsTwoRuns(serial, es);
    AllowedIsAlive(serial, SessionRun(serial, es));
    NoCallFailsWith401(serial, SessionRun(serial, es));
    var s := Run(Init(serial), es);
    SettledByItsCall(s, i);
    NotDropped(s, s.queue.log[i]);
    var c := s.queue.log[i].call;
    assert c < |s.session.calls| ==> Accepted(s.session.calls[c]);
  }

  /** A turn of the flush with something to post starts a call of its process for the head; with nothing to post it
      ends the flush. */
  lemma TurnPosts(s: System, p: nat)
    requires s.queue.phase.Ready?
    ensures var s' := Step(s, FlushTurn(p)); var copy, c := s.queue.phase.copy, |s.session.calls|;
      if copy == [] then s'.session == s.session && s'.queue.phase == Q.Idle
      else
        && s'.session == s.session.(calls := s.session.calls + [S.Call(p, None, None, [], S.Preparing)])
        && s'.queue.log == s.queue.log + [Q.Request(copy[0], c, false, Q.Open)]
        && s'.queue.phase == Q.Posting(copy, |s.queue.log|) && s'.queue.stored == s.queue.stored
  {
  }

  // ---- What each reply does --------------------------------------------------------------------------

  /** The flush's turn after its call has ended, and the write that follows. */
  function Decided(s: System): System {
    Step(Step(s, FlushAnswered), Queue(Q.FlushStores))
  }

  /** The payment was sent: it leaves, recorded. */
  ghost predicate Sends(s: Q.State, s': Q.State) {
    s.phase.Posting? && s.phase.copy != [] && s.phase.request < |s.log| == |s'.log|
    && s'.stored == s.phase.copy[1..] && s'.phase == Q.Ready(s.phase.copy[1..])
    && s'.log[s.phase.request].fate == Q.Removed && s'.log[s.phase.request].processed && s'.rejected == s.rejected
  }

  /** The payment was refused: it leaves and is rejected. */
  ghost predicate Rejects(s: Q.State, s': Q.State, r: CallResult) {
    s.phase.Posting? && s.phase.copy != [] && s.phase.request < |s.log| == |s'.log|
    && s'.stored == s.phase.copy[1..] && s'.phase == Q.Ready(s.phase.copy[1..])
    && s'.log[s.phase.request].fate == Q.Refused(r) && s'.rejected == s.rejected + [s.phase.copy[0]]
  }

  /** The flush stops: nothing leaves, and what was rejected is reported. */
  ghost predicate Stops(s: Q.State, s': Q.State) {
    s'.stored == s.stored && s'.phase == Q.Idle && forall t | t in s.rejected :: t in s'.reported
  }

  lemma AnswerDecides(s: System, r: CallResult)
    requires Aligned(s.queue) && QueuePart(s, FlushAnswered) == [Q.FlushAnswered(r)]
    ensures r == Success ==> Sends(s.queue, Decided(s).queue)
    ensures r == SessionExpired && !s.queue.log[s.queue.phase.request].processed ==> Rejects(s.queue, Decided(s).queue, r)
    ensures r.Rejected? && 400 <= r.status <= 499 && !s.queue.log[s.queue.phase.request].processed ==>
      Rejects(s.queue, Decided(s).queue, r)
    ensures r.Unreachable? || r.Unreadable? || (r.Rejected? && !(400 <= r.status <= 499)) ==> Stops(s.queue, Decided(s).queue)
  {
  }

  /** What the last reply to the POST in call c does to the payment. */
  ghost predicate Decides(s: System, c: nat, s': Q.State) {
    && s.queue.phase.Posting? && s.queue.phase.request < |s.queue.log|
    && c < |s.session.calls| && s.session.calls[c].answers != []
    && var answers, unseen := s.session.calls[c].answers, !s.queue.log[s.queue.phase.request].processed;
       match answers[|answers| - 1]
       case NoReply => Stops(s.queue, s')
       case Status(code, readable) =>
         if 200 <= code <= 299 then
           if readable || code == 204 then Sends(s.queue, s') else Stops(s.queue, s')
         else if code == 401 && |answers| == 1 then
           if RefreshFailed(s.session, c) then unseen ==> Rejects(s.queue, s', SessionExpired) else Stops(s.queue, s')
         else if 400 <= code <= 499 then unseen ==> Rejects(s.queue, s', Rejected(code))
         else Stops(s.queue, s')
  }

  lemma ReplyDecidesNow(s: System, c: nat)
    requires Safe(s.session) && Aligned(s.queue) && s.queue.phase.Posting?
    requires c == s.queue.log[s.queue.phase.request].call && CallEnded(s.session, c)
    ensures Decides(s, c, Decided(s).queue)
  {
    assert Told(s.session.attempts, s.session.calls[c]);
    AnswerDecides(s, s.session.calls[c].phase.result);
  }

  /** In every run, the last reply to the POST of the head decides what the flush does with it. A 204 or a readable 2xx
      sends it. A 4xx rejects it, if it is not the 401 after which the call awaited a refresh; after that 401 it is
      rejected if the refresh returned false, and the flush stops if it threw. Everything else stops the flush with the
      payment still queued: no reply, an unreadable 2xx, a 3xx and a 5xx. */
  lemma ReplyDecides(serial: nat, es: seq<Event>, c: nat)
    requires var s := Run(Init(serial), es);
      && s.queue.phase.Posting? && s.queue.phase.request < |s.queue.log|
      && c == s.queue.log[s.queue.phase.request].call && CallEnded(s.session, c)
    ensures Decides(Run(Init(serial), es), c, Run(Init(serial), es + [FlushAnswered] + [Queue(Q.FlushStores)]).queue)
  {
    RunLast(Init(serial), es, FlushAnswered);
    RunLast(Init(serial), es + [FlushAnswered], Queue(Q.FlushStores));
    RunIsSound(serial, es);
    ReplyDecidesNow(Run(Init(serial), es), c);
  }
}
