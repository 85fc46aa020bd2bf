/** Exactly when overlapping writers of the payment queue do harm, in every interleaving with crashes, and what the
    queue promises as long as they do not. */
module QueueOverlap {
  import opened Api
  import opened QueueRuns
  import opened QueueSafety

  /** Some request of this payment was answered and the payment was taken off the stored queue for it. */
  ghost predicate HasSettled(log: seq<Request>, t: nat) {
    exists i :: 0 <= i < |log| && log[i].ticket == t && Settled(log[i].fate)
  }

  /** No payment is lost and none comes back: each one whose enqueue has stored it is stored or settled, and no
      settled payment is stored. */
  ghost predicate Whole(s: State) {
    && (forall t | t in s.committed :: t in s.stored || HasSettled(s.log, t))
    && (forall t | t in s.stored :: !HasSettled(s.log, t))
  }

  /** A write replaces a list that holds just what its writer read, apart from the payment it adds or takes off: an
      enqueue stores what is stored now and its own payment, a flush what is stored now without the payment it has just
      been answered for. */
  predicate Fresh(s: State, e: Event) {
    match e
    case EnqueueStores(t) =>
      t in s.writing ==> Elements(s.writing[t]) == Elements(s.stored) + {t}
    case FlushStores =>
      s.phase.Storing? && s.phase.request < |s.log| ==>
        Elements(s.phase.copy) == Elements(s.stored) - {s.log[s.phase.request].ticket}
    case _ => true
  }

  // ---- One step ------------------------------------------------------------------------------------

  lemma SameSettled(before: seq<Request>, after: seq<Request>, t: nat)
    requires |before| <= |after|
    requires forall i | 0 <= i < |before| ::
      before[i].ticket == after[i].ticket && (Settled(before[i].fate) <==> Settled(after[i].fate))
    requires forall i | |before| <= i < |after| :: !Settled(after[i].fate)
    ensures HasSettled(before, t) <==> HasSettled(after, t)
  {
    if HasSettled(before, t) {
      var i :| 0 <= i < |before| && before[i].ticket == t && Settled(before[i].fate);
      assert after[i].ticket == t && Settled(after[i].fate);
    }
  }

  /** Only `FlushStores` settles a payment. */
  lemma QuietLog(s: State, e: Event)
    requires Aligned(s) && !e.FlushStores?
    ensures var log := Step(s, e).log;
      && |s.log| <= |log| && (forall i | |s.log| <= i < |log| :: !Settled(log[i].fate))
      && (forall i | 0 <= i < |s.log| ::
            s.log[i].ticket == log[i].ticket && (Settled(s.log[i].fate) <==> Settled(log[i].fate)))
  {
  }

  lemma QuietStep(s: State, e: Event)
    requires Aligned(s) && Whole(s) && !e.FlushStores? && !e.EnqueueStores?
    ensures Whole(Step(s, e))
  {
    var s' := Step(s, e);
    QuietLog(s, e);
    assert s'.stored == s.stored && s'.committed == s.committed;
    forall t ensures HasSettled(s.log, t) <==> HasSettled(s'.log, t) { SameSettled(s.log, s'.log, t); }
  }

  lemma EnqueueWhole(s: State, t: nat)
    requires Sound(s) && Whole(s) && t in s.writing
    ensures Whole(Step(s, EnqueueStores(t))) <==> Fresh(s, EnqueueStores(t))
  {
    var s' := Step(s, EnqueueStores(t));
    assert !HasSettled(s.log, t);
    if Whole(s') {
      assert forall x | x in s.stored :: x in s'.stored;
      assert forall x | x in s'.stored && x != t :: x in s.stored;
    } else if Fresh(s, EnqueueStores(t)) {
      assert forall x :: x in s'.stored <==> x in Elements(s.writing[t]);
      assert forall x :: x in s.stored <==> x in Elements(s.stored);
    }
  }

  lemma SettledByStore(s: State, t: nat)
    requires Aligned(s) && s.phase.Storing?
    ensures HasSettled(Step(s, FlushStores).log, t)
      <==> HasSettled(s.log, t) || t == s.log[s.phase.request].ticket
  {
    var log, j := Step(s, FlushStores).log, s.phase.request;
    assert Settled(log[j].fate) && log[j].ticket == s.log[j].ticket;
    if HasSettled(s.log, t) {
      var i :| 0 <= i < |s.log| && s.log[i].ticket == t && Settled(s.log[i].fate);
      assert log[i].ticket == t && Settled(log[i].fate);
    }
  }

  lemma FlushWhole(s: State)
    requires Sound(s) && Whole(s) && s.phase.Storing?
    ensures Whole(Step(s, FlushStores)) <==> Fresh(s, FlushStores)
  {
    var s', taken := Step(s, FlushStores), s.log[s.phase.request].ticket;
    forall t ensures HasSettled(s'.log, t) <==> HasSettled(s.log, t) || t == taken { SettledByStore(s, t); }
    assert forall x :: x in s'.stored <==> x in Elements(s.phase.copy);
    assert forall x :: x in s.stored <==> x in Elements(s.stored);
    if Whole(s') {
      assert forall x | x in s.stored && x != taken :: x in s'.stored;
      assert forall x | x in s'.stored :: x in s.stored && x != taken;
    }
  }

  /** From a sound state in which nothing is lost or repeated, a step keeps it so exactly if its write is fresh. */
  lemma StepIsWholeIff(s: State, e: Event)
    requires Sound(s) && Whole(s)
    ensures Whole(Step(s, e)) <==> Fresh(s, e)
  {
    if e.EnqueueStores? {
      if e.ticket in s.writing { EnqueueWhole(s, e.ticket); }
    } else if e.FlushStores? {
      if s.phase.Storing? { FlushWhole(s); }
    } else {
      QuietStep(s, e);
    }
  }

  // ---- Whole runs ----------------------------------------------------------------------------------

  ghost predicate WholeThroughout(es: seq<Event>)
    decreases |es|
  {
    Whole(Run(Init(), es)) && (es == [] || WholeThroughout(es[..|es| - 1]))
  }

  predicate FreshRun(es: seq<Event>)
    decreases |es|
  {
    es == [] || (FreshRun(es[..|es| - 1]) && Fresh(Run(Init(), es[..|es| - 1]), es[|es| - 1]))
  }

  /** In every interleaving with crashes: no payment is lost and no settled one comes back, at any point of the run,
      exactly when every write of the run is fresh. */
  lemma {:induction false} WholeIffFresh(es: seq<Event>)
    ensures WholeThroughout(es) <==> FreshRun(es)
  {
    if es != [] {
      var before, e := es[..|es| - 1], es[|es| - 1];
      WholeIffFresh(before);
      if WholeThroughout(before) {
        SoundRun(before);
        StepIsWholeIff(Run(Init(), before), e);
      }
    }
  }

  /** Every payment whose enqueue has stored it is still stored, or was recorded by the server, or was dropped because
      its call settled as a 4xx error (a dead session's 401 is one), over any number of failures and restarts. */
  lemma NoPaymentLost(es: seq<Event>, t: nat)
    requires FreshRun(es) && t in Run(Init(), es).committed
    ensures var s := Run(Init(), es);
      || t in s.stored
      || (exists i :: 0 <= i < |s.log| && s.log[i].ticket == t && s.log[i].processed && s.log[i].fate.Removed?)
      || (exists i :: 0 <= i < |s.log| && s.log[i].ticket == t && !s.log[i].processed
            && s.log[i].fate.Refused? && ClientError(s.log[i].fate.result))
  {
    WholeIffFresh(es);
    SoundRun(es);
    var s := Run(Init(), es);
    if t !in s.stored {
      var i :| 0 <= i < |s.log| && s.log[i].ticket == t && Settled(s.log[i].fate);
      assert Truthful(s.log[i]);
    }
  }

  // ---- How often a payment is recorded -------------------------------------------------------------

  predicate Clean(req: Request) {
    Pending(req.fate) || Settled(req.fate)
  }

  /** Each payment has at most one request that is pending or settled. */
  ghost predicate Once(log: seq<Request>) {
    forall i, j | 0 <= i < j < |log| && Clean(log[i]) && Clean(log[j]) :: log[i].ticket != log[j].ticket
  }

  /** Nothing the flush still has to post is settled. */
  ghost predicate Unposted(s: State) {
    HasCopy(s.phase) ==> forall i | 0 <= i < |s.log| && Settled(s.log[i].fate) :: s.log[i].ticket !in s.phase.copy
  }

  lemma OnceStep(s: State, e: Event)
    requires Aligned(s) && Once(s.log) && Unposted(s)
    ensures Once(Step(s, e).log)
  {
  }

  lemma UnpostedStep(s: State, e: Event)
    requires Aligned(s) && Unposted(s)
    requires forall i | 0 <= i < |s.log| && Settled(s.log[i].fate) :: s.log[i].ticket !in s.stored
    ensures Unposted(Step(s, e))
  {
  }

  lemma {:induction false} OnceRun(es: seq<Event>)
    requires FreshRun(es)
    ensures Once(Run(Init(), es).log) && Unposted(Run(Init(), es))
  {
    if es != [] {
      var before := es[..|es| - 1];
      var s := Run(Init(), before);
      OnceRun(before);
      SoundRun(before);
      WholeIffFresh(before);
      forall i | 0 <= i < |s.log| && Settled(s.log[i].fate) ensures s.log[i].ticket !in s.stored {
        assert HasSettled(s.log, s.log[i].ticket);
      }
      OnceStep(s, es[|es| - 1]);
      UnpostedStep(s, es[|es| - 1]);
    }
  }

  /** How many requests of a payment the server has recorded. */
  function TimesProcessed(log: seq<Request>, t: nat): nat
    decreases |log|
  {
    if log == [] then 0
    else
      var last := log[|log| - 1];
      TimesProcessed(log[..|log| - 1], t) + (if last.ticket == t && last.processed then 1 else 0)
  }

  /** How many of those the client did not take for a success: reply lost or unreadable, 5xx, or the app died
      before the shortened queue was stored. */
  function TimesAmbiguous(log: seq<Request>, t: nat): nat
    decreases |log|
  {
    if log == [] then 0
    else
      var last := log[|log| - 1];
      TimesAmbiguous(log[..|log| - 1], t)
      + (if last.ticket == t && last.processed && (last.fate.GaveUp? || last.fate.Orphaned?) then 1 else 0)
  }

  lemma {:induction false} WithoutClean(log: seq<Request>, t: nat)
    requires forall i | 0 <= i < |log| :: !(log[i].ticket == t && Clean(log[i]))
    ensures TimesProcessed(log, t) == TimesAmbiguous(log, t)
    decreases |log|
  {
    if log != [] {
      var n := |log| - 1;
      assert !(log[n].ticket == t && Clean(log[n]));
      WithoutClean(log[..n], t);
    }
  }

  lemma {:induction false} OneClean(log: seq<Request>, t: nat)
    requires Once(log)
    ensures TimesProcessed(log, t) <= 1 + TimesAmbiguous(log, t)
    decreases |log|
  {
    if log != [] {
      var n := |log| - 1;
      if log[n].ticket == t && Clean(log[n]) { WithoutClean(log[..n], t); } else { OneClean(log[..n], t); }
    }
  }

  /** A payment is recorded at most once more often than it met an ambiguous failure. */
  lemma ProcessedAtMost(es: seq<Event>, t: nat)
    requires FreshRun(es)
    ensures var log := Run(Init(), es).log; TimesProcessed(log, t) <= 1 + TimesAmbiguous(log, t)
  {
    OnceRun(es);
    OneClean(Run(Init(), es).log, t);
  }
}
