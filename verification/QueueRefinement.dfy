/** The interleaved machine, when nothing interrupts a flush, does what `FlushRule` says. */
module QueueRefinement {
  import opened Api
  import opened FlushRule
  import opened QueueRuns
  import opened QueueTheorems

  /** The first n results of the flush's calls. */
  function Replies(net: nat -> CallResult, n: nat): seq<CallResult> {
    if n == 0 then [] else Replies(net, n - 1) + [net(n - 1)]
  }

  /** A flush that started with q in storage, a log of `start` entries and the payments in `reported` reported. */
  datatype Flush = Flush(q: seq<nat>, net: nat -> CallResult, start: nat, reported: set<nat>)

  /** The payments the flush rejects among the first k. */
  function RejectedTickets(f: Flush, k: nat): seq<nat>
    requires k <= |f.q|
  {
    if k == 0 then [] else RejectedTickets(f, k - 1) + (if ClientError(f.net(k - 1)) then [f.q[k - 1]] else [])
  }

  /** They are those the rule lists. */
  lemma {:induction false} TicketsOfRule(f: Flush, k: nat)
    requires k <= |f.q|
    ensures |RejectedTickets(f, k)| == |RejectedAmong(f.q, k, f.net)|
    ensures forall i | 0 <= i < |RejectedTickets(f, k)| :: RejectedTickets(f, k)[i] == RejectedAmong(f.q, k, f.net)[i].0
  {
    if k > 0 { TicketsOfRule(f, k - 1); }
  }

  /** Among the first k payments each was settled by its own answer. */
  ghost predicate Fates(log: seq<Request>, f: Flush, k: nat) {
    && f.start + k <= |log|
    && forall i | 0 <= i < k :: log[f.start + i].fate == if f.net(i) == Success then Removed else Refused(f.net(i))
  }

  /** The first n posts of the flush were the first n payments, in order and no other. */
  ghost predicate Posts(log: seq<Request>, f: Flush, n: nat) {
    && n <= |f.q| && |log| == f.start + n
    && forall i | 0 <= i < n :: log[f.start + i].ticket == f.q[i]
  }

  /** The machine waits for the answer to its post of payment k. */
  ghost predicate Waiting(s: State, f: Flush, k: nat) {
    && k < |f.q| && s.stored == f.q[k..] && s.phase == Posting(f.q[k..], f.start + k)
    && Posts(s.log, f, k + 1) && Fates(s.log, f, k)
    && s.log[f.start + k].fate == Open && !s.log[f.start + k].processed
    && s.rejected == RejectedTickets(f, k) && s.reported == f.reported
  }

  /** The flush is over: k payments have left, the next one, if any, was posted and stopped it, and the rejected ones
      are reported. */
  ghost predicate Finished(s: State, f: Flush, k: nat) {
    && k <= |f.q| && s.stored == f.q[k..] && s.phase.Idle?
    && Posts(s.log, f, Min(k + 1, |f.q|)) && Fates(s.log, f, k)
    && (k < |f.q| ==> s.log[f.start + k].fate == GaveUp(f.net(k)))
    && s.reported == f.reported + Elements(RejectedTickets(f, k))
  }

  function Turn(s: State, r: CallResult): State {
    Step(Step(Step(s, FlushAnswered(r)), FlushStores), FlushTurn(0))
  }

  lemma RejectedNext(f: Flush, k: nat)
    requires k < |f.q|
    ensures RejectedTickets(f, k + 1) == RejectedTickets(f, k) + (if ClientError(f.net(k)) then [f.q[k]] else [])
  {
  }

  /** The answer and the write that follows it. */
  lemma AnswerStored(s: State, f: Flush, k: nat)
    requires Waiting(s, f, k) && Leaves(f.net(k))
    ensures var s' := Step(Step(s, FlushAnswered(f.net(k))), FlushStores);
      && s'.stored == f.q[k + 1..] && s'.phase == Ready(f.q[k + 1..])
      && Posts(s'.log, f, k + 1) && Fates(s'.log, f, k + 1)
      && s'.rejected == RejectedTickets(f, k + 1) && s'.reported == f.reported
  {
    assert f.q[k..][1..] == f.q[k + 1..];
    RejectedNext(f, k);
    var s1 := Step(s, FlushAnswered(f.net(k)));
    assert s1.phase == Storing(f.q[k + 1..], f.start + k) && s1.log[f.start + k].fate == Judged(f.net(k));
    assert s1.log[f.start + k].ticket == f.q[k];
  }

  lemma WaitingLeaves(s: State, f: Flush, k: nat)
    requires Waiting(s, f, k) && Leaves(f.net(k))
    ensures var s' := Turn(s, f.net(k)); if k + 1 < |f.q| then Waiting(s', f, k + 1) else Finished(s', f, k + 1)
  {
    AnswerStored(s, f, k);
  }

  lemma WaitingStops(s: State, f: Flush, k: nat)
    requires Waiting(s, f, k) && !Leaves(f.net(k))
    ensures Finished(Turn(s, f.net(k)), f, k)
  {
    var s1 := Step(s, FlushAnswered(f.net(k)));
    assert s1.phase.Idle? && s1.stored == s.stored && |s1.log| == |s.log|;
    assert s1.log[f.start + k].fate == GaveUp(f.net(k));
    assert Turn(s, f.net(k)) == s1;
  }

  /** The first n payments have left, and the next is posted. */
  ghost predicate Active(s: State, f: Flush, n: nat) {
    n < |f.q| && Leaving(n, f.net) == n && Waiting(s, f, n)
  }

  /** Exactly k payments leave. */
  ghost predicate Over(s: State, f: Flush, k: nat) {
    k <= |f.q| && Leaving(k, f.net) == k && (k < |f.q| ==> !Leaves(f.net(k))) && Finished(s, f, k)
  }

  lemma IdleTurn(s: State, r: CallResult)
    requires s.phase.Idle?
    ensures Turn(s, r) == s
  {
  }

  lemma ActiveStops(s: State, f: Flush, n: nat)
    requires Active(s, f, n) && !Leaves(f.net(n))
    ensures Over(Turn(s, f.net(n)), f, n)
  {
    WaitingStops(s, f, n);
  }

  lemma ActiveLeaves(s: State, f: Flush, n: nat)
    requires Active(s, f, n) && Leaves(f.net(n))
    ensures if n + 1 < |f.q| then Active(Turn(s, f.net(n)), f, n + 1) else Over(Turn(s, f.net(n)), f, n + 1)
  {
    WaitingLeaves(s, f, n);
    LeavingIs(n + 1, f.net, n + 1);
  }

  lemma RepliesNext(s: State, f: Flush, n: nat)
    ensures Run(s, Drain(Replies(f.net, n + 1))) == Turn(Run(s, Drain(Replies(f.net, n))), f.net(n))
  {
    var results := Replies(f.net, n);
    assert (results + [f.net(n)])[..|results|] == results;
    RunThree(s, Drain(results), FlushAnswered(f.net(n)), FlushStores, FlushTurn(0));
  }

  /** After n answers the flush still runs, or is over. */
  lemma {:induction false} DrainedRun(s: State, f: Flush, n: nat) returns (k: nat)
    requires if f.q == [] then Over(s, f, 0) else Active(s, f, 0)
    ensures Over(Run(s, Drain(Replies(f.net, n))), f, k) || (k == n && Active(Run(s, Drain(Replies(f.net, n))), f, n))
  {
    if n == 0 {
      assert Run(s, Drain(Replies(f.net, 0))) == s;
      return 0;
    }
    var m := n - 1;
    k := DrainedRun(s, f, m);
    RepliesNext(s, f, m);
    assert n == m + 1;
    var before := Run(s, Drain(Replies(f.net, m)));
    if Over(before, f, k) {
      IdleTurn(before, f.net(m));
    } else {
      if Leaves(f.net(m)) {
        ActiveLeaves(before, f, m);
        k := n;
      } else {
        ActiveStops(before, f, m);
      }
    }
  }

  /** An undisturbed flush of the machine is one atomic queue operation: it removes exactly the prefix
      `FlushRule.Leaving` names, posts the items in order and no item twice, settles each as its own answer says,
      reports the rejected ones of `FlushRule.RejectedAmong`, and ends with its flag down. */
  lemma SerialFlushIsAtomic(s: State, net: nat -> CallResult)
    requires s.phase == Ready(s.stored) && s.rejected == []
    ensures var q := s.stored;
      Finished(Run(Step(s, FlushTurn(0)), Drain(Replies(net, |q|))), Flush(q, net, |s.log|, s.reported), Leaving(|q|, net))
  {
    var s1, f := Step(s, FlushTurn(0)), Flush(s.stored, net, |s.log|, s.reported);
    assert s.stored[0..] == s.stored;
    var k := DrainedRun(s1, f, |s.stored|);
    LeavingIs(|s.stored|, net, k);
  }
}
