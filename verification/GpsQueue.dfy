/** `gpsQueue.ts`: a capped buffer that drops its oldest fixes and is flushed as one batch. */
module GpsQueue {
  import opened Api

  const MAX_QUEUED_FIXES: nat := 500

  // ---- Every interleaving --------------------------------------------------------------------------

  /** The buffer after a push: the oldest fixes go until it fits. */
  function Capped<T>(q: seq<T>): (r: seq<T>)
    ensures |r| == if |q| <= 500 then |q| else 500
  {
    if |q| <= MAX_QUEUED_FIXES then q else q[|q| - MAX_QUEUED_FIXES..]
  }

  lemma CappedIsSuffix<T>(q: seq<T>)
    ensures Capped(q) == q[|q| - |Capped(q)|..]
  {
  }

  /** `mark` is how many fixes `since` held when the flush read the buffer. */
  datatype Phase =
    | Idle
    | Loading
    | Ready(copy: seq<nat>, mark: nat)
    | Posting(copy: seq<nat>, mark: nat)
    | Clearing(copy: seq<nat>, mark: nat)

  /** A fix is the ticket its enqueue drew when it read the buffer. `since` is history: the fixes whose enqueue has
      stored them since the last flush that cleared the buffer read it. */
  datatype State = State(
    stored: seq<nat>,
    writing: map<nat, seq<nat>>,
    next: nat,
    phase: Phase,
    batches: seq<seq<nat>>,
    since: seq<nat>)

  datatype Event =
    | EnqueueReads
    | EnqueueStores(ticket: nat)
    | FlushStarts
    | FlushReads
    | FlushTurn
    | FlushAnswered(result: CallResult)
    | FlushClears
    | Crash

  function Init(): State {
    State([], map[], 0, Idle, [], [])
  }

  function Step(s: State, e: Event): State {
    match e
    case EnqueueReads => s.(writing := s.writing[s.next := Capped(s.stored + [s.next])], next := s.next + 1)
    case EnqueueStores(t) =>
      if t !in s.writing then s
      else s.(stored := s.writing[t], writing := s.writing - {t}, since := s.since + [t])
    case FlushStarts => if s.phase.Idle? then s.(phase := Loading) else s
    case FlushReads => if s.phase.Loading? then s.(phase := Ready(s.stored, |s.since|)) else s
    case FlushTurn =>
      if !s.phase.Ready? then s
      else if s.phase.copy == [] then s.(phase := Idle)
      else s.(phase := Posting(s.phase.copy, s.phase.mark), batches := s.batches + [s.phase.copy])
    case FlushAnswered(r) =>
      if !s.phase.Posting? then s
      else if Leaves(r) then s.(phase := Clearing(s.phase.copy, s.phase.mark))
      else s.(phase := Idle)
    case FlushClears =>
      if s.phase.Clearing? && s.phase.mark <= |s.since|
      then s.(stored := [], phase := Idle, since := s.since[s.phase.mark..]) else s
    case Crash => s.(phase := Idle, writing := map[])
  }

  function Run(s: State, es: seq<Event>): State
    decreases |es|
  {
    if es == [] then s else Step(Run(s, es[..|es| - 1]), es[|es| - 1])
  }

  /** At most 500 fixes, in the order their enqueues read the buffer, none twice. */
  ghost predicate Fit(q: seq<nat>, bound: nat) {
    && |q| <= 500
    && (forall i, j | 0 <= i < j < |q| :: q[i] < q[j])
    && (forall i | 0 <= i < |q| :: q[i] < bound)
  }

  predicate HasCopy(p: Phase) {
    p.Ready? || p.Posting? || p.Clearing?
  }

  ghost predicate Bounded(s: State) {
    && Fit(s.stored, s.next)
    && (forall t | t in s.writing :: Fit(s.writing[t], s.next))
    && (HasCopy(s.phase) ==> Fit(s.phase.copy, s.next))
    && (forall i | 0 <= i < |s.batches| :: Fit(s.batches[i], s.next))
  }

  lemma PushFits(q: seq<nat>, ticket: nat)
    requires Fit(q, ticket)
    ensures Fit(Capped(q + [ticket]), ticket + 1)
  {
  }

  lemma BoundedStep(s: State, e: Event)
    requires Bounded(s)
    ensures Bounded(Step(s, e))
  {
    if e.EnqueueReads? { BoundedRead(s); }
  }

  lemma FitsLater(q: seq<nat>, bound: nat)
    requires Fit(q, bound)
    ensures Fit(q, bound + 1)
  {
  }

  lemma BoundedRead(s: State)
    requires Bounded(s)
    ensures Bounded(Step(s, EnqueueReads))
  {
    var s' := Step(s, EnqueueReads);
    PushFits(s.stored, s.next);
    FitsLater(s.stored, s.next);
    if HasCopy(s.phase) { FitsLater(s.phase.copy, s.next); }
    forall t | t in s'.writing ensures Fit(s'.writing[t], s'.next) {
      if t != s.next { FitsLater(s.writing[t], s.next); }
    }
    forall i | 0 <= i < |s'.batches| ensures Fit(s'.batches[i], s'.next) { FitsLater(s.batches[i], s.next); }
  }

  /** However enqueues, flushes and crashes interleave, the stored buffer and every batch sent hold at most 500 fixes,
      in order and without repetition. */
  lemma {:induction false} BufferBounded(es: seq<Event>)
    ensures Bounded(Run(Init(), es))
  {
    if es != [] {
      BufferBounded(es[..|es| - 1]);
      BoundedStep(Run(Init(), es[..|es| - 1]), es[|es| - 1]);
    }
  }

  // ---- Exactly when overlapping writers do harm ----------------------------------------------------

  /** The buffer is the longest suffix of at most 500 of the fixes stored since it was last cleared: none of the newest
      is missing, and none that the server has judged is there. */
  ghost predicate Whole(s: State) {
    s.stored == Capped(s.since)
  }

  /** A write replaces a buffer that holds just what its writer read: an enqueue stores what is stored now and its own
      fix, capped, and a flush clears just what it has sent. */
  predicate Fresh(s: State, e: Event) {
    match e
    case EnqueueStores(t) => t in s.writing ==> s.writing[t] == Capped(s.stored + [t])
    case FlushClears => s.phase.Clearing? ==> s.stored == s.phase.copy
    case _ => true
  }

  /** Each fix is stored at most once, by its own enqueue. */
  ghost predicate Tracked(s: State) {
    && (forall i | 0 <= i < |s.since| :: s.since[i] < s.next)
    && (forall i, j | 0 <= i < j < |s.since| :: s.since[i] != s.since[j])
    && (forall t | t in s.writing :: t < s.next && t !in s.since)
    && (HasCopy(s.phase) ==> s.phase.mark <= |s.since|)
  }

  lemma TrackedClears(s: State)
    requires Tracked(s) && s.phase.Clearing?
    ensures Tracked(Step(s, FlushClears))
  {
    var since := s.since[s.phase.mark..];
    assert forall i | 0 <= i < |since| :: since[i] == s.since[s.phase.mark + i];
    assert forall x | x in since :: x in s.since;
  }

  lemma TrackedStep(s: State, e: Event)
    requires Tracked(s)
    ensures Tracked(Step(s, e))
  {
    if e.FlushClears? {
      if s.phase.Clearing? { TrackedClears(s); }
    } else if !e.EnqueueReads? {
      TrackedOther(s, e);
    }
  }

  lemma TrackedOther(s: State, e: Event)
    requires Tracked(s) && !e.FlushClears? && !e.EnqueueReads?
    ensures Tracked(Step(s, e))
  {
  }

  /** The flush holds what was the buffer at its mark. */
  ghost predicate Marked(s: State) {
    HasCopy(s.phase) ==> s.phase.mark <= |s.since| && s.phase.copy == Capped(s.since[..s.phase.mark])
  }

  lemma MarkedStores(s: State, t: nat)
    requires Marked(s) && HasCopy(s.phase)
    ensures Marked(Step(s, EnqueueStores(t)))
  {
    assert (s.since + [t])[..s.phase.mark] == s.since[..s.phase.mark];
  }

  lemma MarkedReads(s: State)
    requires Whole(s) && s.phase.Loading?
    ensures Marked(Step(s, FlushReads))
  {
    assert s.since[..|s.since|] == s.since;
  }

  lemma MarkedStep(s: State, e: Event)
    requires Whole(s) && Marked(s)
    ensures Marked(Step(s, e))
  {
    match e
    case EnqueueStores(t) => if HasCopy(s.phase) { MarkedStores(s, t); }
    case FlushReads => if s.phase.Loading? { MarkedReads(s); }
    case _ => MarkedKept(s, Step(s, e));
  }

  lemma MarkedKept(s: State, s': State)
    requires Marked(s)
    requires HasCopy(s'.phase) ==>
      HasCopy(s.phase) && s'.phase.mark == s.phase.mark && s'.phase.copy == s.phase.copy && s'.since == s.since
    ensures Marked(s')
  {
  }

  lemma CapTwice(q: seq<nat>, x: nat)
    ensures Capped(Capped(q) + [x]) == Capped(q + [x])
  {
    var c := Capped(q);
    CappedIsSuffix(q);
    assert c + [x] == (q + [x])[|q| - |c|..];
  }

  lemma CappedLast(q: seq<nat>)
    requires q != []
    ensures Capped(q) != [] && Capped(q)[|Capped(q)| - 1] == q[|q| - 1]
  {
  }

  /** The flush's copy is the buffer still exactly if nothing was stored after its mark. */
  lemma CopyIsBufferIff(s: State)
    requires Tracked(s) && Whole(s) && Marked(s) && HasCopy(s.phase)
    ensures s.stored == s.phase.copy <==> s.phase.mark == |s.since|
  {
    var mark := s.phase.mark;
    var before := s.since[..mark];
    if mark == |s.since| {
      assert before == s.since;
    } else {
      CappedLast(s.since);
      if before != [] { CappedLast(before); }
    }
  }

  lemma StepIsWholeIff(s: State, e: Event)
    requires Tracked(s) && Whole(s) && Marked(s)
    ensures Whole(Step(s, e)) <==> Fresh(s, e)
  {
    if e.EnqueueStores? {
      CapTwice(s.since, e.ticket);
    } else if e.FlushClears? && s.phase.Clearing? {
      CopyIsBufferIff(s);
    }
  }

  ghost predicate WholeThroughout(es: seq<Event>)
    decreases |es|
  {
    Whole(Run(Init(), es)) && (es == [] || WholeThroughout(es[..|es| - 1]))
  }

  predicate FreshRun(es: seq<Event>)
    decreases |es|
  {
    es == [] || (FreshRun(es[..|es| - 1]) && Fresh(Run(Init(), es[..|es| - 1]), es[|es| - 1]))
  }

  lemma {:induction false} MarkedRun(es: seq<Event>)
    requires es == [] || WholeThroughout(es[..|es| - 1])
    ensures Tracked(Run(Init(), es)) && Marked(Run(Init(), es))
  {
    if es != [] {
      MarkedRun(es[..|es| - 1]);
      TrackedStep(Run(Init(), es[..|es| - 1]), es[|es| - 1]);
      MarkedStep(Run(Init(), es[..|es| - 1]), es[|es| - 1]);
    }
  }

  /** In every interleaving with crashes: the buffer is the newest fixes since it was last cleared, at every point of
      the run, exactly when every write of the run is fresh. */
  lemma {:induction false} WholeIffFresh(es: seq<Event>)
    ensures WholeThroughout(es) <==> FreshRun(es)
  {
    if es != [] {
      var before, e := es[..|es| - 1], es[|es| - 1];
      WholeIffFresh(before);
      if WholeThroughout(before) {
        MarkedRun(before);
        StepIsWholeIff(Run(Init(), before), e);
      }
    }
  }

  /** No enqueue reads the buffer during a flush or another enqueue, and no flush starts during an enqueue. */
  predicate Serial(s: State, e: Event) {
    && (e.EnqueueReads? ==> s.phase.Idle? && s.writing == map[])
    && (e.FlushStarts? ==> s.writing == map[])
  }

  predicate SerialRun(es: seq<Event>)
    decreases |es|
  {
    es == [] || (SerialRun(es[..|es| - 1]) && Serial(Run(Init(), es[..|es| - 1]), es[|es| - 1]))
  }

  ghost predicate InStep(s: State) {
    && (HasCopy(s.phase) ==> s.stored == s.phase.copy)
    && (forall t | t in s.writing :: s.phase.Idle? && s.writing[t] == Capped(s.stored + [t]))
    && (forall t, u | t in s.writing && u in s.writing :: t == u)
  }

  lemma InStepReads(s: State)
    requires s.phase.Idle? && s.writing == map[]
    ensures InStep(Step(s, EnqueueReads))
  {
  }

  lemma InStepStep(s: State, e: Event)
    requires InStep(s) && Serial(s, e)
    ensures InStep(Step(s, e))
  {
    if e.EnqueueReads? { InStepReads(s); }
  }

  lemma InStepIsFresh(s: State, e: Event)
    requires InStep(s)
    ensures Fresh(s, e)
  {
  }

  /** Writers that do not overlap are fresh. */
  lemma {:induction false} SerialIsFresh(es: seq<Event>)
    requires SerialRun(es)
    ensures FreshRun(es) && InStep(Run(Init(), es))
  {
    if es != [] {
      var before, e := es[..|es| - 1], es[|es| - 1];
      SerialIsFresh(before);
      InStepIsFresh(Run(Init(), before), e);
      InStepStep(Run(Init(), before), e);
    }
  }

  lemma ClearedIsWhole(q: seq<nat>)
    ensures [] == Capped(q) <==> q == []
  {
  }

  lemma AnswerClears(s: State, r: CallResult)
    requires Tracked(s) && Whole(s) && Marked(s) && s.phase.Posting?
    ensures var end := Step(Step(s, FlushAnswered(r)), FlushClears);
      && end.stored == (if Leaves(r) then [] else s.stored)
      && (Whole(end) <==> !Leaves(r) || s.stored == s.phase.copy)
  {
    CopyIsBufferIff(s);
    ClearedIsWhole(s.since[s.phase.mark..]);
  }

  /** While the flush of a run that was fresh so far awaits its answer, fixes stored since it read the buffer are
      dropped exactly if the answer clears it, although the batch did not hold them; and that is the one way this
      flush can do harm. */
  lemma OverlappingFixKeptIff(es: seq<Event>, r: CallResult)
    requires FreshRun(es) && Run(Init(), es).phase.Posting?
    ensures var s, end := Run(Init(), es), Run(Init(), es + [FlushAnswered(r), FlushClears]);
      && (forall x | x in s.stored && x !in s.phase.copy :: x in end.stored <==> !Leaves(r))
      && (Whole(end) <==> !Leaves(r) || s.stored == s.phase.copy)
  {
    WholeIffFresh(es);
    MarkedRun(es);
    AnswerClears(Run(Init(), es), r);
    var one, s1 := Next(es, Run(Init(), es), FlushAnswered(r));
    var two, s2 := Next(one, s1, FlushClears);
    assert two == es + [FlushAnswered(r), FlushClears];
  }

  /** Whatever the answer, the flush is over then, and the buffer is cleared exactly after a 2xx and a 4xx (a dead
      session's error included). */
  lemma ReplyDecides(s: State, r: CallResult)
    requires Tracked(s) && s.phase.Posting?
    ensures var s' := Step(Step(s, FlushAnswered(r)), FlushClears);
      && s'.phase == Idle && s'.batches == s.batches && s'.writing == s.writing
      && (s'.stored == if r.Success? || r.SessionExpired? || (r.Rejected? && 400 <= r.status <= 499) then [] else s.stored)
  {
  }

  /** An empty buffer is not sent, and the flush is over. */
  lemma EmptyFlushEnds(s: State)
    requires s.phase.Ready? && s.phase.copy == []
    ensures Step(s, FlushTurn) == s.(phase := Idle)
  {
  }

  /** A crash forgets the flush and the enqueues under way, and nothing that is stored or sent. */
  lemma CrashForgets(s: State)
    ensures Step(s, Crash) == State(s.stored, map[], s.next, Idle, s.batches, s.since)
  {
  }

  // ---- Runs that show it ---------------------------------------------------------------------------

  lemma Next(es: seq<Event>, s: State, e: Event) returns (all: seq<Event>, s': State)
    requires Run(Init(), es) == s
    ensures all == es + [e] && s' == Step(s, e) && Run(Init(), all) == s'
  {
    all, s' := es + [e], Step(s, e);
    assert all[..|es|] == es;
  }

  /** Fix 0 is in the batch on its way. */
  const POSTED := State([0], map[], 1, Posting([0], 1), [[0]], [0])
  /** And the enqueue of fix 1 has read the buffer. */
  const READ_1 := POSTED.(writing := map[1 := [0, 1]], next := 2)

  lemma Queued() returns (es: seq<Event>, s: State)
    ensures s == State([0], map[], 1, Idle, [], [0]) && Run(Init(), es) == s
  {
    es, s := Next([], Init(), EnqueueReads);
    assert [] + [0] == [0] && map[0 := [0]] - {0} == map[];
    assert s.writing == map[0 := [0]];
    es, s := Next(es, s, EnqueueStores(0));
  }

  lemma Flushing(before: seq<Event>, was: State) returns (es: seq<Event>, s: State)
    requires Run(Init(), before) == was && was.phase.Idle? && was.stored != []
    ensures s == was.(phase := Posting(was.stored, |was.since|), batches := was.batches + [was.stored])
    ensures Run(Init(), es) == s
  {
    es, s := Next(before, was, FlushStarts);
    es, s := Next(es, s, FlushReads);
    es, s := Next(es, s, FlushTurn);
  }

  lemma Reading() returns (es: seq<Event>, s: State)
    ensures s == READ_1 && Run(Init(), es) == s
  {
    es, s := Queued();
    es, s := Flushing(es, s);
    assert [] + [[0]] == [[0]];
    assert s == POSTED;
    es, s := Next(es, s, EnqueueReads);
    assert [0] + [1] == [0, 1];
    assert s.writing == map[1 := [0, 1]];
  }

  lemma StoresBuffer(s: State)
    requires s.writing == map[1 := [0, 1]]
    ensures Step(s, EnqueueStores(1)) == s.(stored := [0, 1], writing := map[], since := s.since + [1])
  {
    assert s.writing - {1} == map[];
  }

  /** Fix 1 is stored while fix 0 is being sent, and cleared with it: it was never in a batch. */
  lemma OverlapLosesFix() returns (es: seq<Event>)
    ensures var s := Run(Init(), es); s.since == [1] && s.stored == [] && s.batches == [[0]]
  {
    var s;
    es, s := Reading();
    StoresBuffer(s);
    es, s := Next(es, s, EnqueueStores(1));
    assert s.since == [0, 1] && [0, 1][1..] == [1];
    es, s := Next(es, s, FlushAnswered(Success));
    es, s := Next(es, s, FlushClears);
  }

  lemma Clears(before: seq<Event>, was: State) returns (es: seq<Event>, s: State)
    requires Run(Init(), before) == was && was == READ_1
    ensures s == was.(stored := [], phase := Idle, since := []) && Run(Init(), es) == s
  {
    es, s := Next(before, was, FlushAnswered(Success));
    es, s := Next(es, s, FlushClears);
    assert [0][1..] == [];
  }

  /** Fix 1's enqueue stores the buffer it read before the clear: fix 0 is sent once more. */
  lemma OverlapResendsFix() returns (es: seq<Event>)
    ensures Run(Init(), es).batches == [[0], [0, 1]]
  {
    var s;
    es, s := Reading();
    es, s := Clears(es, s);
    StoresBuffer(s);
    es, s := Next(es, s, EnqueueStores(1));
    es, s := Flushing(es, s);
    assert [[0]] + [[0, 1]] == [[0], [0, 1]];
  }

  // ---- Serialised runs -----------------------------------------------------------------------------

  datatype Fix = Fix(recordedAt: string, latitude: real, longitude: real)

  datatype Summary = Nothing | Flushed(sent: nat, discarded: nat)

  class Buffer {
    var stored: seq<Fix>
    var flushing: bool
    ghost var batches: seq<seq<Fix>>

    constructor ()
      ensures stored == [] && !flushing && batches == []
    {
      stored, flushing, batches := [], false, [];
    }

    method EnqueueGpsFix(fix: Fix)
      modifies this`stored
      ensures stored == Capped(old(stored) + [fix])
    {
      var queue := stored;
      queue := queue + [fix];
      ghost var pushed := queue;
      while |queue| > MAX_QUEUED_FIXES
        invariant |queue| <= |pushed| && queue == pushed[|pushed| - |queue|..]
        invariant |queue| >= |Capped(pushed)|
        decreases |queue|
      {
        queue := queue[1..];
      }
      stored := queue;
    }

    /** The whole buffer goes out as one batch, and is cleared when the server has judged it. */
    method FlushGpsQueue(answer: CallResult, accepted: nat, discarded: nat) returns (summary: Summary)
      modifies this
      ensures flushing == old(flushing)
      ensures stored == if !old(flushing) && Leaves(answer) then [] else old(stored)
      ensures batches == old(batches) + (if !old(flushing) && old(stored) != [] then [old(stored)] else [])
      ensures summary ==
        if old(flushing) then Nothing
        else if old(stored) == [] then Flushed(0, 0)
        else if answer == Success then Flushed(accepted, discarded)
        else if ClientError(answer) then Flushed(0, |old(stored)|)
        else Nothing
    {
      if flushing {
        return Nothing;
      }
      flushing := true;
      var queue := stored;
      if queue == [] {
        summary := Flushed(0, 0);
      } else {
        batches := batches + [queue];
        if answer == Success {
          stored := [];
          summary := Flushed(accepted, discarded);
        } else if answer == Unreachable {
          summary := Nothing;
        } else if ClientError(answer) {
          stored := [];
          summary := Flushed(0, |queue|);
        } else {
          summary := Nothing;
        }
      }
      flushing := false;
    }
  }

  datatype Operation = Enqueue(fix: Fix) | Flush(answer: CallResult)

  /** The buffer after operations that do not overlap. */
  function After(ops: seq<Operation>): seq<Fix>
    decreases |ops|
  {
    if ops == [] then []
    else
      var before := After(ops[..|ops| - 1]);
      match ops[|ops| - 1]
      case Enqueue(fix) => Capped(before + [fix])
      case Flush(answer) => if Leaves(answer) then [] else before
  }

  /** Every fix enqueued since the last flush that cleared the buffer. */
  function SinceCleared(ops: seq<Operation>): seq<Fix>
    decreases |ops|
  {
    if ops == [] then []
    else match ops[|ops| - 1]
      case Enqueue(fix) => SinceCleared(ops[..|ops| - 1]) + [fix]
      case Flush(answer) => if Leaves(answer) then [] else SinceCleared(ops[..|ops| - 1])
  }

  lemma {:induction false} CapOnceOrEveryTime(ops: seq<Operation>)
    ensures After(ops) == Capped(SinceCleared(ops))
    decreases |ops|
  {
    if ops != [] {
      var init := ops[..|ops| - 1];
      CapOnceOrEveryTime(init);
      if ops[|ops| - 1].Enqueue? {
        var all, fix := SinceCleared(init), ops[|ops| - 1].fix;
        var before := Capped(all);
        assert before + [fix] == (all + [fix])[|all| - |before|..];
      }
    }
  }

  /** The buffer is the longest suffix of at most 500 of the fixes enqueued since it was last cleared. */
  lemma BufferIsNewestFixes(ops: seq<Operation>)
    ensures var buffer, all := After(ops), SinceCleared(ops);
      && |buffer| <= |all| && buffer == all[|all| - |buffer|..] && |buffer| <= 500
      && (|buffer| == |all| || |buffer| == 500)
  {
    CapOnceOrEveryTime(ops);
    CappedIsSuffix(SinceCleared(ops));
  }
}
