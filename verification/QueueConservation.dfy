/** Runs of the payment queue in which no enqueue overlaps a flush or another enqueue. The app may die at any
    moment. Such runs write nothing stale, so every promise of `QueueOverlap` holds of them. */
module QueueConservation {
  import opened Api
  import opened QueueRuns
  import opened QueueSafety
  import opened QueueOverlap

  /** No enqueue reads storage during a flush or another enqueue, and no flush starts during an enqueue. */
  predicate Serial(s: State, e: Event) {
    && (e.EnqueueReads? ==> s.phase.Idle? && s.writing == map[])
    && (e.FlushStarts? ==> s.writing == map[])
  }

  predicate SerialRun(es: seq<Event>)
    decreases |es|
  {
    es == [] || (SerialRun(es[..|es| - 1]) && Serial(Run(Init(), es[..|es| - 1]), es[|es| - 1]))
  }

  /** The stored queue is the flush's in-memory queue, with the payment it has just been answered for in front until
      the shorter queue is stored; and at most one enqueue is under way, about to append its own payment. */
  ghost predicate InStep(s: State) {
    && (s.phase.Ready? || s.phase.Posting? ==> s.stored == s.phase.copy)
    && (s.phase.Storing? && s.phase.request < |s.log| ==> s.stored == [s.log[s.phase.request].ticket] + s.phase.copy)
    && (forall t | t in s.writing :: s.phase.Idle? && s.writing[t] == s.stored + [t])
    && (forall t, u | t in s.writing && u in s.writing :: t == u)
  }

  lemma InStepStep(s: State, e: Event)
    requires Aligned(s) && InStep(s) && Serial(s, e)
    ensures InStep(Step(s, e))
  {
  }

  lemma InStepIsFresh(s: State, e: Event)
    requires Aligned(s) && InStep(s)
    ensures Fresh(s, e)
  {
    if e.EnqueueStores? && e.ticket in s.writing {
      assert forall x :: x in s.writing[e.ticket] <==> x in s.stored || x == e.ticket;
    } else if e.FlushStores? && s.phase.Storing? {
      assert s.stored[0] == s.log[s.phase.request].ticket && s.stored[1..] == s.phase.copy;
      assert forall x :: x in s.stored <==> x in s.phase.copy || x == s.stored[0];
    }
  }

  ghost predicate Kept(s: State) {
    Sound(s) && InStep(s) && Whole(s) && Once(s.log) && Unposted(s)
  }

  lemma {:induction false} KeptRun(es: seq<Event>)
    requires SerialRun(es)
    ensures FreshRun(es) && Kept(Run(Init(), es))
  {
    if es != [] {
      var before, e := es[..|es| - 1], es[|es| - 1];
      KeptRun(before);
      InStepStep(Run(Init(), before), e);
      InStepIsFresh(Run(Init(), before), e);
    }
    SoundRun(es);
    WholeIffFresh(es);
    OnceRun(es);
  }
}
