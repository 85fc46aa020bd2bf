/** What every run of the payment queue keeps, however enqueues, flushes, the server and crashes interleave. */
module QueueSafety {
  import opened Api
  import opened QueueRuns

  predicate Settled(f: Fate) {
    f.Removed? || f.Refused?
  }

  predicate Pending(f: Fate) {
    f.Open? || f.Judged?
  }

  /** A 2xx, readable or not, means the server recorded the payment; a 4xx means it did not. */
  predicate Truthful(req: Request) {
    match req.fate
    case Removed => req.processed
    case Judged(r) => if r == Success then req.processed else ClientError(r) && !req.processed
    case Refused(r) => ClientError(r) && !req.processed
    case GaveUp(r) => r == Unreadable ==> req.processed
    case _ => true
  }

  predicate HasCopy(p: Phase) {
    p.Ready? || p.Posting? || p.Storing?
  }

  /** The flush waits for the head of its in-memory queue, or has just taken it off; no other request is pending. */
  ghost predicate Aligned(s: State) {
    && (s.phase.Posting? ==>
          && s.phase.copy != [] && s.phase.request < |s.log|
          && s.log[s.phase.request].fate == Open && s.log[s.phase.request].ticket == s.phase.copy[0])
    && (s.phase.Storing? ==>
          && s.phase.request < |s.log| && s.log[s.phase.request].fate.Judged?
          && (forall i | 0 <= i < |s.phase.copy| :: s.log[s.phase.request].ticket < s.phase.copy[i]))
    && (forall i | 0 <= i < |s.log| && Pending(s.log[i].fate) ::
          (s.phase.Posting? || s.phase.Storing?) && s.phase.request == i)
  }

  /** Storage and the flush know only payments whose enqueue has stored them; an enqueue under way will store its own
      as well. */
  ghost predicate Ticketed(s: State) {
    && (forall t | t in s.committed :: t < s.next)
    && (forall t | t in s.stored :: t in s.committed)
    && (HasCopy(s.phase) ==> forall t | t in s.phase.copy :: t in s.committed)
    && (forall t | t in s.writing :: t < s.next && t !in s.committed && t in s.writing[t])
    && (forall t, u | t in s.writing && u in s.writing[t] && u != t :: u in s.committed)
  }

  ghost predicate Posted(s: State) {
    && (forall i | 0 <= i < |s.log| :: s.log[i].ticket < s.next)
    && (forall i | 0 <= i < |s.log| && (Pending(s.log[i].fate) || Settled(s.log[i].fate)) :: s.log[i].ticket in s.committed)
  }

  ghost predicate Honest(s: State) {
    forall i | 0 <= i < |s.log| :: Truthful(s.log[i])
  }

  ghost predicate Sound(s: State) {
    Ordered(s) && Aligned(s) && Ticketed(s) && Posted(s) && Honest(s)
  }

  lemma AlignedStep(s: State, e: Event)
    requires Ordered(s) && Aligned(s)
    ensures Aligned(Step(s, e))
  {
  }

  lemma TicketedStep(s: State, e: Event)
    requires Ticketed(s)
    ensures Ticketed(Step(s, e))
  {
  }

  lemma PostedStep(s: State, e: Event)
    requires Aligned(s) && Ticketed(s) && Posted(s)
    ensures Posted(Step(s, e))
  {
    if e.FlushTurn? && s.phase.Ready? && s.phase.copy != [] { assert s.phase.copy[0] in s.phase.copy; }
  }

  lemma HonestStep(s: State, e: Event)
    requires Aligned(s) && Honest(s)
    ensures Honest(Step(s, e))
  {
  }

  lemma SoundStep(s: State, e: Event)
    requires Sound(s)
    ensures Sound(Step(s, e))
  {
    OrderedStep(s, e);
    AlignedStep(s, e);
    TicketedStep(s, e);
    PostedStep(s, e);
    HonestStep(s, e);
  }

  lemma {:induction false} SoundRun(es: seq<Event>)
    ensures Sound(Run(Init(), es))
  {
    if es != [] {
      SoundRun(es[..|es| - 1]);
      SoundStep(Run(Init(), es[..|es| - 1]), es[|es| - 1]);
    }
  }

  /** The server records a payment when it handles a request it has not handled yet: one the flush awaits an answer to,
      or one whose sender has heard nothing, because there was no connection or because the app died. */
  lemma ServerRecords(s: State, i: nat)
    requires i < |s.log|
    ensures var s' := Step(s, ServerProcesses(i)); var fate := s.log[i].fate;
      && s' == s.(log := s'.log) && |s'.log| == |s.log| && s'.log == s.log[i := s'.log[i]]
      && s'.log[i] == s.log[i].(processed := s'.log[i].processed)
      && (s'.log[i].processed <==>
            s.log[i].processed || fate == Open || fate == GaveUp(Unreachable) || fate == Orphaned(false))
  {
  }

  /** Nothing else records one, but an answer that says so, or a direct request that had been recorded before its payment
      was queued. */
  lemma RecordedOnlyByServer(s: State, e: Event, i: nat)
    requires i < |Step(s, e).log| && Step(s, e).log[i].processed && !(i < |s.log| && s.log[i].processed)
    ensures e == ServerProcesses(i)
      || (s.phase.Posting? && i == s.phase.request && (e == FlushAnswered(Success) || e == FlushAnswered(Unreadable)))
      || (e.EnqueueReads? && e.processed && i == |s.log|)
  {
  }

  /** A crash forgets the flush, its list of rejections and the enqueues under way, and nothing that is stored; the
      request the flush was at, if any, is left without an owner. */
  lemma CrashForgets(s: State)
    requires Aligned(s)
    ensures var s' := Step(s, Crash);
      && s'.stored == s.stored && s'.writing == map[] && s'.next == s.next && s'.committed == s.committed
      && s'.phase == Idle && s'.rejected == [] && s'.reported == s.reported && |s'.log| == |s.log|
      && forall i | 0 <= i < |s.log| ::
           s'.log[i] == match s.log[i].fate
             case Open => s.log[i].(fate := Orphaned(false))
             case Judged(_) => s.log[i].(fate := Orphaned(true))
             case _ => s.log[i]
  {
  }

  /** A direct request that found no connection queues its payment at the end of what is stored now, under a new
      ticket. */
  lemma EnqueueAppends(s: State, call: nat, processed: bool)
    ensures var s' := Step(s, EnqueueReads(call, processed));
      && s' == s.(writing := s'.writing, next := s.next + 1, log := s'.log)
      && s.next in s'.writing && s'.writing[s.next] == s.stored + [s.next]
      && s'.writing == s.writing[s.next := s.stored + [s.next]]
      && s'.log == s.log + [Request(s.next, call, processed, GaveUp(Unreachable))]
  {
  }

  /** A flush that starts works on what is stored when it reads, and its rejections start empty. */
  lemma FlushLoads(s: State)
    requires s.phase.Idle?
    ensures Step(Step(s, FlushStarts), FlushReads) == s.(phase := Ready(s.stored), rejected := [])
  {
  }

  /** It posts the head of its copy, and is over, its rejections reported, once there is none. */
  lemma FlushPosts(s: State, call: nat)
    requires s.phase.Ready?
    ensures var s' := Step(s, FlushTurn(call));
      if s.phase.copy == [] then
        && s'.phase == Idle && s'.stored == s.stored && s'.log == s.log
        && forall t :: t in s'.reported <==> t in s.reported || t in s.rejected
      else
        && s' == s.(phase := Posting(s.phase.copy, |s.log|), log := s.log + [Request(s.phase.copy[0], call, false, Open)])
  {
  }
}
