/** What the flush of the payment queue reports, what a crash or an overlapping enqueue costs, and runs that show it. */
module QueueTheorems {
  import opened Api
  import opened QueueRuns
  import opened QueueSafety
  import opened QueueOverlap

  // ---- Reports -------------------------------------------------------------------------------------

  predicate TurnedAway(f: Fate) {
    f.Refused? || (f.Judged? && f.result != Success)
  }

  /** Every payment a flush dropped for a 4xx is in a returned `rejected` list, or in the running flush's. */
  ghost predicate Reported(s: State) {
    && (s.phase.Idle? ==> s.rejected == [])
    && (forall i | 0 <= i < |s.log| && TurnedAway(s.log[i].fate) ::
          s.log[i].ticket in s.reported || s.log[i].ticket in s.rejected)
  }

  lemma ReportedStep(s: State, e: Event)
    requires Reported(s) && e != Crash
    ensures Reported(Step(s, e))
  {
  }

  lemma {:induction false} ReportedRun(es: seq<Event>)
    requires Crash !in es
    ensures Reported(Run(Init(), es))
  {
    if es != [] {
      ReportedRun(es[..|es| - 1]);
      ReportedStep(Run(Init(), es[..|es| - 1]), es[|es| - 1]);
    }
  }

  /** Payment t has just been answered with a 4xx, and the shorter queue is not stored yet. */
  predicate JustJudged(s: State, t: nat) {
    && s.phase.Storing? && s.phase.request < |s.log|
    && s.log[s.phase.request].ticket == t && TurnedAway(s.log[s.phase.request].fate)
  }

  /** The running flush's list holds only payments that it dropped, or is about to drop. */
  ghost predicate Listed(s: State) {
    && (s.phase.Idle? || s.phase.Loading? ==> s.rejected == [])
    && (forall t | t in s.rejected ::
          JustJudged(s, t) || exists i :: 0 <= i < |s.log| && s.log[i].ticket == t && s.log[i].fate.Refused?)
  }

  /** What the flush still holds was not dropped before, unless that was reported. */
  ghost predicate Current(s: State) {
    HasCopy(s.phase) ==>
      forall i | 0 <= i < |s.log| && s.log[i].fate.Refused? && (s.log[i].ticket in s.phase.copy || JustJudged(s, s.log[i].ticket)) ::
        s.log[i].ticket in s.reported
  }

  lemma ListedStep(s: State, e: Event)
    requires Aligned(s) && Listed(s)
    ensures Listed(Step(s, e))
  {
    var s' := Step(s, e);
    forall t | t in s'.rejected && !JustJudged(s', t)
      ensures exists i :: 0 <= i < |s'.log| && s'.log[i].ticket == t && s'.log[i].fate.Refused?
    {
      if JustJudged(s, t) {
        assert e.FlushStores? && s'.log[s.phase.request].ticket == t;
      } else {
        var i :| 0 <= i < |s.log| && s.log[i].ticket == t && s.log[i].fate.Refused?;
        assert s'.log[i].ticket == t && s'.log[i].fate.Refused?;
      }
    }
  }

  lemma CurrentStep(s: State, e: Event)
    requires Ordered(s) && Aligned(s) && Reported(s) && Listed(s) && Current(s)
    ensures Current(Step(s, e))
  {
  }

  /** Dying now loses no report: what the running flush has rejected has been reported before, or is the payment it has
      just been answered for and not yet taken off the stored queue. */
  predicate Spares(s: State) {
    forall t | t in s.rejected :: t in s.reported || JustJudged(s, t)
  }

  /** The one way to lose a report is a crash that does not spare the list. */
  lemma CrashLosesReportIff(s: State)
    requires Aligned(s) && Reported(s) && Listed(s) && Current(s)
    ensures Reported(Step(s, Crash)) <==> Spares(s)
  {
    var s' := Step(s, Crash);
    assert forall i | 0 <= i < |s.log| ::
      s'.log[i].ticket == s.log[i].ticket && (s'.log[i].fate.Refused? <==> s.log[i].fate.Refused?);
    if Reported(s') {
      forall t | t in s.rejected && !JustJudged(s, t) ensures t in s.reported {
        var i :| 0 <= i < |s.log| && s.log[i].ticket == t && s.log[i].fate.Refused?;
        assert TurnedAway(s'.log[i].fate);
      }
    }
  }

  ghost predicate ReportedThroughout(es: seq<Event>)
    decreases |es|
  {
    Reported(Run(Init(), es)) && (es == [] || ReportedThroughout(es[..|es| - 1]))
  }

  predicate SparedRun(es: seq<Event>)
    decreases |es|
  {
    es == [] || (SparedRun(es[..|es| - 1]) && (es[|es| - 1] == Crash ==> Spares(Run(Init(), es[..|es| - 1]))))
  }

  lemma {:induction false} ListedRun(es: seq<Event>)
    requires ReportedThroughout(es)
    ensures Listed(Run(Init(), es)) && Current(Run(Init(), es))
  {
    if es != [] {
      var before := es[..|es| - 1];
      ListedRun(before);
      SoundRun(before);
      ListedStep(Run(Init(), before), es[|es| - 1]);
      CurrentStep(Run(Init(), before), es[|es| - 1]);
    }
  }

  /** In every interleaving: each payment dropped for a 4xx has been reported, or is about to be, at every point of
      the run, exactly when every crash of the run spares the running flush's list. */
  lemma {:induction false} ReportedIffSpared(es: seq<Event>)
    ensures ReportedThroughout(es) <==> SparedRun(es)
  {
    if es != [] {
      var before, e := es[..|es| - 1], es[|es| - 1];
      ReportedIffSpared(before);
      if ReportedThroughout(before) {
        ListedRun(before);
        SoundRun(before);
        if e == Crash { CrashLosesReportIff(Run(Init(), before)); } else { ReportedStep(Run(Init(), before), e); }
      }
    }
  }

  /** What the running flush has rejected has been reported before, or is still queued. */
  predicate StillQueued(s: State) {
    forall t | t in s.rejected :: t in s.reported || t in s.stored
  }

  /** As long as no write is stale, the payment just judged is the one rejected payment that is still queued. */
  lemma SparesIffStillQueued(s: State)
    requires Sound(s) && Whole(s) && Once(s.log) && Listed(s)
    ensures Spares(s) <==> StillQueued(s)
  {
    forall t | t in s.rejected ensures JustJudged(s, t) <==> t in s.stored {
      if JustJudged(s, t) {
        assert t in s.committed && Clean(s.log[s.phase.request]);
        assert !HasSettled(s.log, t);
      } else {
        var i :| 0 <= i < |s.log| && s.log[i].ticket == t && s.log[i].fate.Refused?;
        assert HasSettled(s.log, t);
      }
    }
  }

  predicate StillQueuedRun(es: seq<Event>)
    decreases |es|
  {
    es == [] || (StillQueuedRun(es[..|es| - 1]) && (es[|es| - 1] == Crash ==> StillQueued(Run(Init(), es[..|es| - 1]))))
  }

  /** In runs without stale writes, reports are complete at every point exactly when at every crash each payment the
      running flush has rejected was reported before or is still queued. */
  lemma {:induction false} ReportedIffStillQueued(es: seq<Event>)
    requires FreshRun(es)
    ensures ReportedThroughout(es) <==> StillQueuedRun(es)
  {
    if es != [] {
      var before, e := es[..|es| - 1], es[|es| - 1];
      var s := Run(Init(), before);
      ReportedIffStillQueued(before);
      if ReportedThroughout(before) {
        ListedRun(before);
        SoundRun(before);
        WholeIffFresh(before);
        OnceRun(before);
        SparesIffStillQueued(s);
        if e == Crash { CrashLosesReportIff(s); } else { ReportedStep(s, e); }
      }
    }
  }

  // ---- An enqueue during a flush -------------------------------------------------------------------

  /** The rest of a flush that nothing interrupts, given the results of its calls. */
  function Drain(results: seq<CallResult>): seq<Event>
    decreases |results|
  {
    if results == [] then []
    else Drain(results[..|results| - 1]) + [FlushAnswered(results[|results| - 1])] + [FlushStores] + [FlushTurn(0)]
  }

  lemma RunTwo(s: State, es: seq<Event>, a: Event, b: Event)
    ensures Run(s, es + [a] + [b]) == Step(Step(Run(s, es), a), b)
  {
    RunLast(s, es, a);
    RunLast(s, es + [a], b);
  }

  lemma RunThree(s: State, es: seq<Event>, a: Event, b: Event, c: Event)
    ensures Run(s, es + [a] + [b] + [c]) == Step(Step(Step(Run(s, es), a), b), c)
  {
    RunTwo(s, es, a, b);
    RunLast(s, es + [a] + [b], c);
  }

  /** While a flush awaits an answer with `copy` in memory, an enqueue has stored x behind it. x is still stored when
      the flush is over exactly when the very next answer stops the flush; if it takes a payment off the queue,
      the flush's next write drops x. */
  lemma {:induction false} OverlappingEnqueueKeptIff(s: State, x: nat, results: seq<CallResult>)
    requires s.phase.Posting? && s.phase.copy != [] && s.phase.request < |s.log|
    requires s.log[s.phase.request].fate == Open && !s.log[s.phase.request].processed
    requires x in s.stored && x !in s.phase.copy
    requires results != []
    ensures var end := Run(s, Drain(results));
      && (x in end.stored <==> !Leaves(results[0]))
      && (if Leaves(results[0])
          then end.phase.Idle? || (end.phase.Posting? && x !in end.phase.copy)
          else end.phase.Idle?)
    decreases |results|
  {
    var n := |results| - 1;
    var last := results[n];
    RunThree(s, Drain(results[..n]), FlushAnswered(last), FlushStores, FlushTurn(0));
    if n > 0 {
      OverlappingEnqueueKeptIff(s, x, results[..n]);
      DrainOne(Run(s, Drain(results[..n])), x, last);
    }
  }

  lemma DrainOne(s: State, x: nat, r: CallResult)
    requires s.phase.Idle? || (s.phase.Posting? && x !in s.phase.copy && x !in s.stored)
    ensures var end := Step(Step(Step(s, FlushAnswered(r)), FlushStores), FlushTurn(0));
      && (x in end.stored <==> x in s.stored)
      && (end.phase.Idle? || (end.phase.Posting? && x !in end.phase.copy))
      && (s.phase.Idle? ==> end.phase.Idle?)
  {
  }

  const DIRECT_0 := Request(0, 0, false, GaveUp(Unreachable))
  const DIRECT_1 := Request(1, 2, false, GaveUp(Unreachable))

  /** Payment 0 is queued and a flush has read the queue. */
  const FLUSH_READ := State([0], map[], 1, {0}, Ready([0]), [], {}, [DIRECT_0])
  /** Payment 0 is posted, and meanwhile an enqueue has read the queue. */
  const OVERLAPPING := State([0], map[1 := [0, 1]], 2, {0}, Posting([0], 1), [], {},
                             [DIRECT_0, Request(0, 1, false, Open), DIRECT_1])
  /** The enqueue has stored both payments; the flush, answered with a 2xx, has then stored its empty copy. */
  const OVERWRITTEN := State([], map[], 2, {0, 1}, Ready([]), [], {}, [DIRECT_0, Request(0, 1, true, Removed), DIRECT_1])

  lemma ReachFlushRead()
    ensures Step(Step(Step(Step(Init(), EnqueueReads(0, false)), EnqueueStores(0)), FlushStarts), FlushReads) == FLUSH_READ
  {
    assert [] + [0] == [0];
    assert Step(Init(), EnqueueReads(0, false)).writing == map[0 := [0]];
    assert map[0 := [0]] - {0} == map[];
  }

  lemma ReachOverlapping()
    ensures Step(Step(FLUSH_READ, FlushTurn(1)), EnqueueReads(2, false)) == OVERLAPPING
  {
    var s := Step(FLUSH_READ, FlushTurn(1));
    assert s.log == [DIRECT_0, Request(0, 1, false, Open)];
    assert s.stored + [s.next] == [0, 1];
    assert Step(s, EnqueueReads(2, false)).log == [DIRECT_0, Request(0, 1, false, Open), DIRECT_1];
    assert Step(s, EnqueueReads(2, false)).writing == map[1 := [0, 1]];
  }

  lemma ReachOverwritten()
    ensures Step(Step(Step(OVERLAPPING, EnqueueStores(1)), FlushAnswered(Success)), FlushStores) == OVERWRITTEN
  {
    var s1 := Step(OVERLAPPING, EnqueueStores(1));
    assert s1.stored == [0, 1] && s1.writing == map[] && s1.committed == {0, 1};
    var s2 := Step(s1, FlushAnswered(Success));
    assert s2.phase == Storing([], 1);
    assert s2.log == [DIRECT_0, Request(0, 1, true, Judged(Success)), DIRECT_1];
    assert Step(s2, FlushStores).log == [DIRECT_0, Request(0, 1, true, Removed), DIRECT_1];
  }

  /** So an overlapping enqueue can lose a payment: it is neither stored nor judged, and no flush ever posted it. */
  lemma OverlapLosesPayment() returns (es: seq<Event>)
    ensures Run(Init(), es) == OVERWRITTEN
    ensures 1 in OVERWRITTEN.committed && 1 !in OVERWRITTEN.stored && !HasSettled(OVERWRITTEN.log, 1)
  {
    es := ReachesOverlapping();
    ReachOverwritten();
    RunThree(Init(), es, EnqueueStores(1), FlushAnswered(Success), FlushStores);
    es := es + [EnqueueStores(1)] + [FlushAnswered(Success)] + [FlushStores];
  }

  lemma ReachesOverlapping() returns (es: seq<Event>)
    ensures Run(Init(), es) == OVERLAPPING
  {
    ReachFlushRead();
    ReachOverlapping();
    RunThree(Init(), [], EnqueueReads(0, false), EnqueueStores(0), FlushStarts);
    es := [] + [EnqueueReads(0, false)] + [EnqueueStores(0)] + [FlushStarts];
    RunThree(Init(), es, FlushReads, FlushTurn(1), EnqueueReads(2, false));
    es := es + [FlushReads] + [FlushTurn(1)] + [EnqueueReads(2, false)];
  }

  const SENT_0 := Request(0, 1, true, Removed)

  /** The flush has stored its empty copy, and then the enqueue the list it had read before. */
  const RESURRECTED := State([0, 1], map[], 2, {0, 1}, Ready([]), [], {}, [DIRECT_0, SENT_0, DIRECT_1])
  /** The next flush has posted payment 0 once more. */
  const REPEATED := State([0, 1], map[], 2, {0, 1}, Storing([1], 3), [], {},
                          [DIRECT_0, SENT_0, DIRECT_1, Request(0, 3, true, Judged(Success))])

  lemma ReachResurrected()
    ensures Step(Step(Step(OVERLAPPING, FlushAnswered(Success)), FlushStores), EnqueueStores(1)) == RESURRECTED
  {
    var s1 := Step(OVERLAPPING, FlushAnswered(Success));
    assert s1.phase == Storing([], 1) && s1.log == [DIRECT_0, Request(0, 1, true, Judged(Success)), DIRECT_1];
    var s2 := Step(s1, FlushStores);
    assert s2.log == [DIRECT_0, SENT_0, DIRECT_1] && s2.stored == [];
    assert Step(s2, EnqueueStores(1)).committed == {0, 1} && Step(s2, EnqueueStores(1)).writing == map[];
  }

  lemma ReachRepeated()
    ensures Step(Step(Step(Step(Step(RESURRECTED, FlushTurn(0)), FlushStarts), FlushReads), FlushTurn(3)), FlushAnswered(Success))
      == REPEATED
  {
    var s1 := Step(RESURRECTED, FlushTurn(0));
    assert s1.reported == {} && s1.phase == Idle;
    var s3 := Step(Step(s1, FlushStarts), FlushReads);
    assert s3 == RESURRECTED.(phase := Ready([0, 1]));
    var s4 := Step(s3, FlushTurn(3));
    assert s4.log == [DIRECT_0, SENT_0, DIRECT_1, Request(0, 3, false, Open)];
    assert [0, 1][1..] == [1];
    assert Step(s4, FlushAnswered(Success)).log == REPEATED.log;
  }

  lemma RepeatedTwice()
    ensures TimesProcessed(REPEATED.log, 0) == 2 && TimesAmbiguous(REPEATED.log, 0) == 0
  {
    var log := REPEATED.log;
    assert log[..3] == [DIRECT_0, SENT_0, DIRECT_1] && log[..3][..2] == [DIRECT_0, SENT_0];
    assert [DIRECT_0, SENT_0][..1] == [DIRECT_0] && [DIRECT_0][..0] == [];
    assert TimesProcessed([DIRECT_0], 0) == 0 && TimesAmbiguous([DIRECT_0], 0) == 0;
    assert TimesProcessed([DIRECT_0, SENT_0], 0) == 1 && TimesAmbiguous([DIRECT_0, SENT_0], 0) == 0;
    assert TimesProcessed(log[..3], 0) == 1 && TimesAmbiguous(log[..3], 0) == 0;
  }

  /** And it can bring a settled payment back: the enqueue stores the list it read before the flush did its write, and
      the server records payment 0 twice although no failure was ambiguous. */
  lemma OverlapRepeatsPayment() returns (es: seq<Event>)
    ensures TimesProcessed(Run(Init(), es).log, 0) == 2 && TimesAmbiguous(Run(Init(), es).log, 0) == 0
  {
    es := ReachesOverlapping();
    ReachResurrected();
    ReachRepeated();
    RepeatedTwice();
    RunThree(Init(), es, FlushAnswered(Success), FlushStores, EnqueueStores(1));
    es := es + [FlushAnswered(Success)] + [FlushStores] + [EnqueueStores(1)];
    RunThree(Init(), es, FlushTurn(0), FlushStarts, FlushReads);
    es := es + [FlushTurn(0)] + [FlushStarts] + [FlushReads];
    RunTwo(Init(), es, FlushTurn(3), FlushAnswered(Success));
    es := es + [FlushTurn(3)] + [FlushAnswered(Success)];
  }

  // ---- A crash that loses a report -----------------------------------------------------------------

  /** Payment 0 was dropped for a 400, and the app has died before the flush returned. */
  const UNREPORTED := State([], map[], 1, {0}, Idle, [], {}, [DIRECT_0, Request(0, 1, false, Refused(Rejected(400)))])

  lemma ReachUnreported()
    ensures Step(Step(Step(Step(FLUSH_READ, FlushTurn(1)), FlushAnswered(Rejected(400))), FlushStores), Crash) == UNREPORTED
  {
    var s1 := Step(FLUSH_READ, FlushTurn(1));
    assert s1.log == [DIRECT_0, Request(0, 1, false, Open)];
    var s2 := Step(s1, FlushAnswered(Rejected(400)));
    assert s2.log == [DIRECT_0, Request(0, 1, false, Judged(Rejected(400)))] && s2.phase == Storing([], 1);
    assert Step(s2, FlushStores).log == UNREPORTED.log;
  }

  lemma CrashLosesReport() returns (es: seq<Event>)
    ensures Run(Init(), es) == UNREPORTED && !Reported(UNREPORTED)
  {
    ReachFlushRead();
    ReachUnreported();
    assert TurnedAway(UNREPORTED.log[1].fate);
    RunThree(Init(), [], EnqueueReads(0, false), EnqueueStores(0), FlushStarts);
    es := [] + [EnqueueReads(0, false)] + [EnqueueStores(0)] + [FlushStarts];
    RunThree(Init(), es, FlushReads, FlushTurn(1), FlushAnswered(Rejected(400)));
    es := es + [FlushReads] + [FlushTurn(1)] + [FlushAnswered(Rejected(400))];
    RunTwo(Init(), es, FlushStores, Crash);
    es := es + [FlushStores] + [Crash];
  }
}
