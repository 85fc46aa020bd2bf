/** A schedule in which a flush meets a session that is over, and a run from sign-in that gets there. */
module DeadSession {
  import opened Api
  import S = MobileSession
  import Q = QueueRuns
  import W = SessionWitnesses
  import opened SessionLoss
  import opened EndToEnd

  // ---- Putting runs together -----------------------------------------------------------------------

  lemma RunOne(s: System, e: Event)
    ensures Run(s, [e]) == Step(s, e)
  {
    RunLast(s, [], e);
    assert [] + [e] == [e];
  }

  lemma RunTwo(s: System, a: Event, b: Event)
    ensures Run(s, [a, b]) == Step(Step(s, a), b)
  {
    RunOne(s, a);
    RunLast(s, [a], b);
    assert [a] + [b] == [a, b];
  }

  /** A run of the session alone. */
  function Lifted(es: seq<S.Event>): seq<Event>
    decreases |es|
  {
    if es == [] then [] else Lifted(es[..|es| - 1]) + [Session(es[|es| - 1])]
  }

  lemma {:induction false} RunLifted(s: System, es: seq<S.Event>)
    ensures Run(s, Lifted(es)) == s.(session := S.Run(s.session, es))
    decreases |es|
  {
    if es != [] {
      var init, e := es[..|es| - 1], es[|es| - 1];
      RunLifted(s, init);
      RunMore(s, Lifted(init), [Session(e)]);
      RunOne(Run(s, Lifted(init)), Session(e));
    }
  }

  // ---- One payment ---------------------------------------------------------------------------------

  /** A call is answered with a 401, and the refresh it starts finds no token. */
  function ExpiryOf(c: nat, a: nat): seq<S.Event> {
    [S.ReadAccess(c), S.CallAnswered(c, Status(401, true)), S.ReadRefresh(a), S.Finally(a), S.Resume(c), S.CommitClear(c)]
  }

  /** The tokens are gone and process p has no refresh in flight. */
  predicate Over(s: S.State, p: nat) {
    s.access == None && s.refresh == None && p !in s.slot
  }

  lemma RunSix(s: S.State, a: S.Event, b: S.Event, c: S.Event, d: S.Event, e: S.Event, f: S.Event)
    ensures S.Run(s, [a, b, c, d, e, f]) == S.Step(S.Step(S.Step(S.Step(S.Step(S.Step(s, a), b), c), d), e), f)
  {
    RunFour(s, a, b, c, d);
    S.RunLast(s, [a, b, c, d], e);
    S.RunLast(s, [a, b, c, d, e], f);
    assert [a, b, c, d] + [e] == [a, b, c, d, e] && [a, b, c, d, e] + [f] == [a, b, c, d, e, f];
  }

  lemma RefusedWithoutToken(s: S.State, p: nat, c: nat)
    requires Over(s, p) && c < |s.calls| && s.calls[c] == S.Call(p, None, None, [], S.Preparing)
    ensures var s' := S.Step(S.Step(S.Step(s, S.ReadAccess(c)), S.CallAnswered(c, Status(401, true))), S.ReadRefresh(|s.attempts|));
      && s' == s.(calls := s'.calls, slot := s.slot[p := |s.attempts|],
                  attempts := s.attempts + [S.Attempt(p, None, S.Returning(S.NoToken))])
      && |s'.calls| == |s.calls| && s'.calls[c].phase == S.Waiting(|s.attempts|)
  {
    var s1 := S.Step(s, S.ReadAccess(c));
    assert s1 == S.SetCall(s, c, S.Call(p, None, None, [], S.Fetching));
    var s2 := S.Step(s1, S.CallAnswered(c, Status(401, true)));
    assert s2.attempts == s.attempts + [S.Attempt(p, None, S.Reading)] && s2.calls[c].phase == S.Waiting(|s.attempts|);
    assert S.Step(s2, S.ReadRefresh(|s.attempts|)).attempts == s.attempts + [S.Attempt(p, None, S.Returning(S.NoToken))];
  }

  lemma CallExpires(s: S.State, p: nat, c: nat)
    requires Over(s, p) && c < |s.calls| && s.calls[c] == S.Call(p, None, None, [], S.Preparing)
    ensures var s' := S.Run(s, ExpiryOf(c, |s.attempts|));
      && Over(s', p) && |s'.calls| == |s.calls| && |s'.attempts| == |s.attempts| + 1
      && s'.calls[c].phase == S.Ended(SessionExpired)
  {
    var a := |s.attempts|;
    RunSix(s, S.ReadAccess(c), S.CallAnswered(c, Status(401, true)), S.ReadRefresh(a), S.Finally(a), S.Resume(c), S.CommitClear(c));
    RefusedWithoutToken(s, p, c);
    var s3 := S.Step(S.Step(S.Step(s, S.ReadAccess(c)), S.CallAnswered(c, Status(401, true))), S.ReadRefresh(a));
    FalseSteps(s3, a, c);
    ExpiryLists(s3, a, c);
  }

  lemma ExpiryLists(s: S.State, a: nat, c: nat)
    requires a < |s.attempts| && s.attempts[a].phase.Returning?
    ensures var s' := S.Step(S.Step(S.Step(s, S.Finally(a)), S.Resume(c)), S.CommitClear(c));
      |s'.attempts| == |s.attempts| && s'.slot == s.slot - {s.attempts[a].process}
  {
  }

  /** The events that deal with one payment. */
  function Drop(p: nat, c: nat, a: nat): seq<Event> {
    [FlushTurn(p)] + Lifted(ExpiryOf(c, a)) + [FlushAnswered, Queue(Q.FlushStores)]
  }

  /** The queue after its head has been dropped. */
  function Dropped(s: Q.State, c: nat): Q.State
    requires s.phase.Ready? && s.phase.copy != []
  {
    var copy := s.phase.copy;
    s.(stored := copy[1..], phase := Q.Ready(copy[1..]), rejected := s.rejected + [copy[0]],
       log := s.log + [Q.Request(copy[0], c, false, Q.Refused(SessionExpired))])
  }

  lemma DropsQueue(s: Q.State, c: nat)
    requires s.phase.Ready? && s.phase.copy != []
    ensures var s1 := Q.Step(s, Q.FlushTurn(c));
      && s1.phase == Q.Posting(s.phase.copy, |s.log|) && |s1.log| == |s.log| + 1 && s1.log[|s.log|].call == c
      && Q.Step(Q.Step(s1, Q.FlushAnswered(SessionExpired)), Q.FlushStores) == Dropped(s, c)
  {
    var s1 := Q.Step(s, Q.FlushTurn(c));
    var s2 := Q.Step(s1, Q.FlushAnswered(SessionExpired));
    assert s2.log == s.log + [Q.Request(s.phase.copy[0], c, false, Q.Judged(SessionExpired))];
    assert Q.Step(s2, Q.FlushStores).log == Dropped(s, c).log;
  }

  lemma Posts(s: System, p: nat)
    requires Over(s.session, p) && s.queue.phase.Ready? && s.queue.phase.copy != []
    ensures var c, a := |s.session.calls|, |s.session.attempts|;
      var s' := Run(s, [FlushTurn(p)] + Lifted(ExpiryOf(c, a)));
      && s'.queue == Q.Step(s.queue, Q.FlushTurn(c))
      && Over(s'.session, p) && |s'.session.calls| == c + 1 && |s'.session.attempts| == a + 1
      && s'.session.calls[c].phase == S.Ended(SessionExpired)
  {
    var c, a := |s.session.calls|, |s.session.attempts|;
    var s1 := Step(s, FlushTurn(p));
    RunOne(s, FlushTurn(p));
    assert s1.session == S.Step(s.session, S.StartCall(p));
    CallExpires(s1.session, p, c);
    RunLifted(s1, ExpiryOf(c, a));
    RunMore(s, [FlushTurn(p)], Lifted(ExpiryOf(c, a)));
  }

  lemma AnswersStep(s: System)
    requires s.queue.phase.Posting? && s.queue.phase.request < |s.queue.log|
    requires var c := s.queue.log[s.queue.phase.request].call;
      c < |s.session.calls| && s.session.calls[c].phase == S.Ended(SessionExpired)
    ensures Step(s, FlushAnswered) == s.(queue := Q.Step(s.queue, Q.FlushAnswered(SessionExpired)))
  {
    assert QueuePart(s, FlushAnswered) == [Q.FlushAnswered(SessionExpired)];
  }

  lemma StoresStep(s: System)
    ensures Step(s, Queue(Q.FlushStores)) == s.(queue := Q.Step(s.queue, Q.FlushStores))
  {
  }

  lemma Answers(s: System, was: Q.State, c: nat)
    requires was.phase.Ready? && was.phase.copy != [] && s.queue == Q.Step(was, Q.FlushTurn(c))
    requires c < |s.session.calls| && s.session.calls[c].phase == S.Ended(SessionExpired)
    ensures Run(s, [FlushAnswered, Queue(Q.FlushStores)]) == s.(queue := Dropped(was, c))
  {
    DropsQueue(was, c);
    RunTwo(s, FlushAnswered, Queue(Q.FlushStores));
    AnswersStep(s);
    StoresStep(Step(s, FlushAnswered));
  }

  lemma DropsOne(s: System, p: nat, c: nat, a: nat)
    requires Over(s.session, p) && s.queue.phase.Ready? && s.queue.phase.copy != []
    requires c == |s.session.calls| && a == |s.session.attempts|
    ensures var s' := Run(s, Drop(p, c, a));
      && Over(s'.session, p) && s'.queue == Dropped(s.queue, c)
      && |s'.session.calls| == c + 1 && |s'.session.attempts| == a + 1
  {
    var posting := [FlushTurn(p)] + Lifted(ExpiryOf(c, a));
    Posts(s, p);
    Answers(Run(s, posting), s.queue, c);
    RunMore(s, posting, [FlushAnswered, Queue(Q.FlushStores)]);
  }

  // ---- The whole queue -----------------------------------------------------------------------------

  /** The flush of n payments, from c calls and a refreshes on; each call is answered with a 401. */
  function Drops(p: nat, c: nat, a: nat, n: nat): seq<Event> {
    if n == 0 then [] else Drops(p, c, a, n - 1) + Drop(p, c + (n - 1), a + (n - 1))
  }

  /** The requests by which the first n payments of `copy` were dropped, c being the first one's call. */
  function Refusals(copy: seq<nat>, c: nat, n: nat): seq<Q.Request>
    requires n <= |copy|
  {
    seq(n, i requires 0 <= i < n => Q.Request(copy[i], c + i, false, Q.Refused(SessionExpired)))
  }

  /** From s to now, exactly the first n payments have gone from the queue into `rejected`. */
  ghost predicate Emptied(s: Q.State, c: nat, now: Q.State, n: nat) {
    && s.phase.Ready? && n <= |s.phase.copy|
    && now == s.(stored := s.phase.copy[n..], phase := Q.Ready(s.phase.copy[n..]),
                 rejected := s.rejected + s.phase.copy[..n], log := s.log + Refusals(s.phase.copy, c, n))
  }

  lemma EmptiedNext(s: Q.State, c: nat, now: Q.State, n: nat)
    requires Emptied(s, c, now, n) && n < |s.phase.copy|
    ensures Emptied(s, c, Dropped(now, c + n), n + 1)
  {
    var copy, next := s.phase.copy, Dropped(now, c + n);
    assert copy[n..][1..] == copy[n + 1..];
    assert s.rejected + copy[..n] + [copy[n]] == s.rejected + copy[..n + 1];
    assert s.log + Refusals(copy, c, n) + [Q.Request(copy[n], c + n, false, Q.Refused(SessionExpired))]
      == s.log + Refusals(copy, c, n + 1);
  }

  /** After the first n payments of a flush that started from queue q, with c calls and a refreshes before it. */
  ghost predicate DeadFlush(q: Q.State, p: nat, c: nat, a: nat, now: System, n: nat) {
    && Over(now.session, p)
    && |now.session.calls| == c + n && |now.session.attempts| == a + n
    && Emptied(q, c, now.queue, n)
  }

  lemma DeadFlushStep(q: Q.State, p: nat, c: nat, a: nat, before: System, after: System, n: nat)
    requires DeadFlush(q, p, c, a, before, n) && n < |q.phase.copy|
    requires Over(after.session, p) && after.queue == Dropped(before.queue, c + n)
    requires |after.session.calls| == c + n + 1 && |after.session.attempts| == a + n + 1
    ensures DeadFlush(q, p, c, a, after, n + 1)
  {
    EmptiedNext(q, c, before.queue, n);
  }

  lemma DeadFlushNext(q: Q.State, p: nat, c: nat, a: nat, s: System, es: seq<Event>, n: nat)
    requires DeadFlush(q, p, c, a, Run(s, es), n) && n < |q.phase.copy|
    ensures DeadFlush(q, p, c, a, Run(s, es + Drop(p, c + n, a + n)), n + 1)
  {
    var before := Run(s, es);
    DropsOne(before, p, c + n, a + n);
    DeadFlushStep(q, p, c, a, before, Run(before, Drop(p, c + n, a + n)), n);
    RunMore(s, es, Drop(p, c + n, a + n));
  }

  lemma DropsMore(p: nat, c: nat, a: nat, n: nat)
    ensures Drops(p, c, a, n + 1) == Drops(p, c, a, n) + Drop(p, c + n, a + n)
  {
  }

  /** With the tokens gone, a flush of any length can run to its end, and then every payment is in `rejected`. */
  lemma {:induction false} DeadFlushEnds(s: System, p: nat, c: nat, a: nat, n: nat) returns (es: seq<Event>)
    requires Over(s.session, p) && c == |s.session.calls| && a == |s.session.attempts|
    requires s.queue.phase == Q.Ready(s.queue.stored) && n <= |s.queue.stored|
    ensures es == Drops(p, c, a, n) && DeadFlush(s.queue, p, c, a, Run(s, es), n)
  {
    if n == 0 {
      NothingEmptied(s.queue, c);
      es := [];
    } else {
      var m := n - 1;
      var before := DeadFlushEnds(s, p, c, a, m);
      DeadFlushNext(s.queue, p, c, a, s, before, m);
      DropsMore(p, c, a, m);
      es := before + Drop(p, c + m, a + m);
    }
  }

  lemma NothingEmptied(s: Q.State, c: nat)
    requires s.phase == Q.Ready(s.stored)
    ensures Emptied(s, c, s, 0)
  {
    assert s.stored[0..] == s.stored && s.rejected + s.stored[..0] == s.rejected;
    assert s.log + Refusals(s.stored, c, 0) == s.log;
  }

  // ---- A run from the start ------------------------------------------------------------------------

  const LOST := Q.Request(0, 0, false, Q.GaveUp(Unreachable))

  /** One payment is queued, and the flush has read it. */
  const FLUSHING := Q.Init().(stored := [0], next := 1, committed := {0}, phase := Q.Ready([0]), log := [LOST])

  lemma EnqueuesFirst()
    ensures Q.Step(Q.Step(Q.Init(), Q.EnqueueReads(0, false)), Q.EnqueueStores(0)) == FLUSHING.(phase := Q.Idle)
  {
    var q := Q.Step(Q.Init(), Q.EnqueueReads(0, false));
    assert [] + [0] == [0];
    assert q == Q.Init().(writing := map[0 := [0]], next := 1, log := [LOST]);
    assert map[0 := [0]] - {0} == map[];
  }

  lemma RecordStep(s: System, c: nat)
    requires c < |s.session.calls| && s.session.calls[c].phase == S.Ended(Unreachable)
    ensures Step(s, Record(c, false)) == s.(queue := Q.Step(s.queue, Q.EnqueueReads(c, false)))
  {
    assert QueuePart(s, Record(c, false)) == [Q.EnqueueReads(c, false)];
  }

  lemma Records(s: System)
    requires s.queue == Q.Init() && |s.session.calls| > 0 && s.session.calls[0].phase == S.Ended(Unreachable)
    ensures Run(s, [Record(0, false), Queue(Q.EnqueueStores(0))]) == s.(queue := FLUSHING.(phase := Q.Idle))
  {
    RunTwo(s, Record(0, false), Queue(Q.EnqueueStores(0)));
    RecordStep(s, 0);
    EnqueuesFirst();
  }

  lemma Queues(s: System)
    requires s.queue == Q.Init() && |s.session.calls| > 0 && s.session.calls[0].phase == S.Ended(Unreachable)
    ensures Run(s, [Record(0, false), Queue(Q.EnqueueStores(0))] + [Queue(Q.FlushStarts), Queue(Q.FlushReads)])
      == s.(queue := FLUSHING)
  {
    Records(s);
    RunMore(s, [Record(0, false), Queue(Q.EnqueueStores(0))], [Queue(Q.FlushStarts), Queue(Q.FlushReads)]);
    RunTwo(s.(queue := FLUSHING.(phase := Q.Idle)), Queue(Q.FlushStarts), Queue(Q.FlushReads));
  }

  lemma LastDropped(now: System, c: nat, a: nat)
    requires DeadFlush(FLUSHING, 0, c, a, now, 1)
    ensures 0 in now.queue.committed && now.queue.stored == [] && now.queue.rejected == [0]
    ensures forall i | 0 <= i < |now.queue.log| :: !now.queue.log[i].processed
  {
    assert [0][1..] == [] && [] + [0][..1] == [0];
  }

  /** A run from sign-in: a payment is recorded offline, the server ends the session, the next refresh signs the user
      out, and the flush that follows throws the payment away although the server has never seen it. */
  lemma RevokedSessionDropsPayment() returns (es: seq<Event>)
    ensures var queue := Run(Init(0), es).queue;
      && 0 in queue.committed && queue.stored == [] && queue.rejected == [0]
      && (forall i | 0 <= i < |queue.log| :: !queue.log[i].processed)
  {
    var signOut := W.RevokedRun();
    RunLifted(Init(0), signOut);
    var s1 := Run(Init(0), Lifted(signOut));
    var more := [Record(0, false), Queue(Q.EnqueueStores(0))] + [Queue(Q.FlushStarts), Queue(Q.FlushReads)];
    Queues(s1);
    RunMore(Init(0), Lifted(signOut), more);
    var s2 := s1.(queue := FLUSHING);
    var c, a := |s2.session.calls|, |s2.session.attempts|;
    var flush := DeadFlushEnds(s2, 0, c, a, 1);
    LastDropped(Run(s2, flush), c, a);
    RunMore(Init(0), Lifted(signOut) + more, flush);
    es := Lifted(signOut) + more + flush;
  }
}
