/** `expenseQueue.ts`, and `jobExpenseQueue.ts`, which is the same machine on its own two storage keys and its own
    endpoint; run without interruption. An object is one of the two modules. */
module ExpenseQueue {
  import opened Api
  import opened FlushRule
  import opened ExpenseRule
  import opened ReceiptRule

  datatype FlushResult = FlushResult(sent: nat, rejected: seq<Rejection>, remaining: nat)
  datatype PassResult = PassResult(uploaded: nat, rejected: seq<(Receipt, CallResult)>, remaining: nat)

  /** What a flush starts from, and the answers it will get. */
  datatype Start = Start(queue: seq<Expense>, pending: seq<Receipt>, answers: Answers,
                         uploaded: seq<Receipt>, writes: seq<Snapshot>)

  datatype Lists = Lists(queue: seq<Expense>, pending: seq<Receipt>, uploaded: seq<Receipt>, writes: seq<Snapshot>)

  /** Both lists, the uploads and the writes, once the flush has dealt with k items. */
  ghost function Reached(s: Start, k: nat): Lists
    requires k <= |s.queue|
  {
    Lists(s.queue[k..],
          PendingAfter(s.queue, s.answers, s.pending, k),
          s.uploaded + UploadedAfter(s.queue, s.answers, k),
          s.writes + WritesAfter(s.queue, s.answers, s.pending, k))
  }

  /** The writes of a pass that has tried k rows of `list`. */
  function PassWrites(queue: seq<Expense>, list: seq<Receipt>, ups: nat -> CallResult, k: nat): seq<Snapshot>
    requires k <= |list|
  {
    if k == 0 then [] else PassWrites(queue, list, ups, k - 1) + [Snapshot(queue, AfterRetries(list, list, ups, k))]
  }

  class Module {
    var stored: seq<Expense>         // storage: the module's queue key
    var pending: seq<Receipt>        // storage: the module's pending-receipts key
    var flushingQueue: bool
    var flushingReceipts: bool
    ghost var posted: seq<Expense>   // text submissions, in order
    ghost var uploaded: seq<Receipt> // photos the server took
    ghost var writes: seq<Snapshot>  // both lists after each write of either

    constructor ()
      ensures stored == [] && pending == [] && !flushingQueue && !flushingReceipts
      ensures posted == [] && uploaded == [] && writes == []
    {
      stored, pending, flushingQueue, flushingReceipts := [], [], false, false;
      posted, uploaded, writes := [], [], [];
    }

    method SetExpenses(queue: seq<Expense>)
      modifies this`stored, this`writes
      ensures stored == queue && writes == old(writes) + [Snapshot(stored, pending)]
    {
      stored := queue;
      writes := writes + [Snapshot(stored, pending)];
    }

    method SetReceipts(list: seq<Receipt>)
      modifies this`pending, this`writes
      ensures pending == list && writes == old(writes) + [Snapshot(stored, pending)]
    {
      pending := list;
      writes := writes + [Snapshot(stored, pending)];
    }

    method EnqueueExpense(item: Expense) returns (length: nat)
      modifies this`stored, this`writes
      ensures stored == old(stored) + [item]
      ensures length == |old(stored)| + 1
    {
      var queue := stored;
      queue := queue + [item];
      SetExpenses(queue);
      return |queue|;
    }

    /** One upload and the bookkeeping of the pending list; the expense itself is never touched. */
    method RetryPendingReceipt(item: Receipt, up: CallResult)
      modifies this`pending, this`writes, this`uploaded
      ensures pending == Retried(old(pending), item, up)
      ensures uploaded == old(uploaded) + (if up == Success then [item] else [])
      ensures writes == old(writes) + [Snapshot(stored, pending)]
    {
      if up == Success { uploaded := uploaded + [item]; }
      var list := pending;
      var withoutThis := Without(list, item.expenseId);
      if up == Unreachable {
        SetReceipts(withoutThis + [item]);
      } else {
        SetReceipts(withoutThis);
        assert withoutThis == withoutThis + [];
      }
    }

    ghost function Here(a: Answers): Start
      reads this
    {
      Start(stored, pending, a, uploaded, writes)
    }

    ghost function Now(): Lists
      reads this
    {
      Lists(stored, pending, uploaded, writes)
    }

    /** The flush has dealt with exactly k items. */
    ghost predicate Progress(s: Start, k: nat)
      reads this
    {
      k <= |s.queue| && Now() == Reached(s, k)
    }

    /** The flush's own counters, once it has dealt with k items. */
    static ghost predicate Counted(s: Start, k: nat, sent: nat, rejected: seq<Rejection>) {
      k <= |s.queue| && sent == SentAmong(k, s.answers.net) && rejected == RejectedAfter(s.queue, s.answers, k)
    }

    /** An answered item: its text leaves the queue for good before its photo is tried, and a photo that fails goes to
        the pending list or to `rejected`, never back to the queue. */
    method Settle(ghost s: Start, ghost k: nat, item: Expense, rest: seq<Expense>,
                  answer: CallResult, id: string, up: CallResult, sent0: nat, rejected0: seq<Rejection>)
        returns (sent: nat, rejected: seq<Rejection>)
      requires Progress(s, k) && k < |s.queue| && item == s.queue[k] && rest == s.queue[k + 1..]
      requires answer == s.answers.net(k) && id == s.answers.ids(k) && up == s.answers.ups(k) && Leaves(answer)
      requires Counted(s, k, sent0, rejected0)
      modifies this`stored, this`pending, this`uploaded, this`writes
      ensures Progress(s, k + 1) && Counted(s, k + 1, sent, rejected)
    {
      sent, rejected := sent0, rejected0;
      if answer == Success {
        sent := sent + 1;
        SetExpenses(rest);
        if HasPhoto(item) {
          RetryPendingReceipt(ReceiptFor(item, id), up);
          if up != Success && up != Unreachable {
            rejected := rejected + [Rejection(item, Photo(up))];
          }
        }
      } else {
        rejected := rejected + [Rejection(item, Text(answer))];
        SetExpenses(rest);
      }
    }

    /** The `try` of `flushExpenseQueue`. At each loop head the in-memory queue is the stored one. */
    method SendQueued(a: Answers) returns (result: FlushResult)
      modifies this`stored, this`pending, this`posted, this`uploaded, this`writes
      ensures var s, k := old(Here(a)), Leaving(|old(stored)|, a.net);
        && Progress(s, k)
        && posted == old(posted) + s.queue[..Min(k + 1, |s.queue|)]
        && Counted(s, k, result.sent, result.rejected) && result.remaining == |s.queue| - k
    {
      ghost var s := Here(a);
      var queue := stored;
      var rejected: seq<Rejection> := [];
      var sent := 0;
      var calls := 0;
      while queue != []
        invariant Progress(s, calls) && queue == s.queue[calls..]
        invariant Leaving(calls, a.net) == calls
        invariant posted == old(posted) + s.queue[..calls]
        invariant Counted(s, calls, sent, rejected)
        decreases |queue|
      {
        TakeNext(old(posted), s.queue, calls);
        var item, answer := queue[0], a.net(calls);
        posted := posted + [item];
        if !Leaves(answer) {
          break;
        }
        queue := queue[1..];
        sent, rejected := Settle(s, calls, item, queue, answer, a.ids(calls), a.ups(calls), sent, rejected);
        calls := calls + 1;
      }
      LeavingIs(|s.queue|, a.net, calls);
      result := FlushResult(sent, rejected, |queue|);
    }

    /** The flush deals with exactly the prefix of the queue whose submissions came back 2xx or 4xx; the queue and the
        posts do not depend on the uploads; and the flag is down however it ends. */
    method FlushExpenseQueue(a: Answers) returns (result: FlushResult)
      modifies this`stored, this`pending, this`flushingQueue, this`posted, this`uploaded, this`writes
      ensures flushingQueue == old(flushingQueue)
      ensures old(flushingQueue) ==>
        stored == old(stored) && pending == old(pending) && posted == old(posted)
        && uploaded == old(uploaded) && writes == old(writes) && result == FlushResult(0, [], |stored|)
      ensures !old(flushingQueue) ==>
        var s, k := old(Here(a)), Leaving(|old(stored)|, a.net);
        && Progress(s, k)
        && posted == old(posted) + s.queue[..Min(k + 1, |s.queue|)]
        && Counted(s, k, result.sent, result.rejected) && result.remaining == |s.queue| - k
    {
      if flushingQueue {
        var queue := stored;
        return FlushResult(0, [], |queue|);
      }
      flushingQueue := true;
      result := SendQueued(a);
      flushingQueue := false;
    }

    /** A pass has tried k rows of the list it read. */
    ghost predicate Passing(s: Start, ups: nat -> CallResult, k: nat)
      reads this
    {
      && k <= |s.pending| && stored == s.queue
      && pending == AfterRetries(s.pending, s.pending, ups, k)
      && writes == s.writes + PassWrites(s.queue, s.pending, ups, k)
    }

    /** The pass's own counters, and the uploads it made, once it has tried k rows. */
    ghost predicate Tallied(s: Start, ups: nat -> CallResult, k: nat, uploads: nat, rejected: seq<(Receipt, CallResult)>)
      reads this
    {
      && k <= |s.pending|
      && uploads == |UploadsAmong(s.pending, ups, k)| && rejected == RejectionsAmong(s.pending, ups, k)
      && uploaded == s.uploaded + UploadsAmong(s.pending, ups, k)
    }

    method TryNext(ghost s: Start, ghost ups: nat -> CallResult, ghost k: nat, item: Receipt, up: CallResult,
                   uploads0: nat, rejected0: seq<(Receipt, CallResult)>)
        returns (uploads: nat, rejected: seq<(Receipt, CallResult)>)
      requires Passing(s, ups, k) && Tallied(s, ups, k, uploads0, rejected0)
      requires k < |s.pending| && item == s.pending[k] && up == ups(k)
      modifies this`pending, this`writes, this`uploaded
      ensures Passing(s, ups, k + 1) && Tallied(s, ups, k + 1, uploads, rejected)
    {
      uploads, rejected := uploads0, rejected0;
      RetryPendingReceipt(item, up);
      if up == Success {
        uploads := uploads + 1;
      } else if up != Unreachable {
        rejected := rejected + [(item, up)];
      }
    }

    /** The `try` of `flushPendingReceipts`, which works through a copy of the list it read. */
    method RetryPending(a: Answers) returns (result: PassResult)
      modifies this`pending, this`uploaded, this`writes
      ensures var s, k := old(Here(a)), Tried(|old(pending)|, a.ups);
        && Passing(s, a.ups, k) && Tallied(s, a.ups, k, result.uploaded, result.rejected)
        && result.remaining == |s.pending| - Final(|s.pending|, a.ups)
    {
      ghost var s := Here(a);
      ghost var tries := 0;
      var list := pending;
      var rejected: seq<(Receipt, CallResult)> := [];
      var uploads, calls := 0, 0;
      while list != []
        invariant calls == tries <= |s.pending| && list == s.pending[calls..]
        invariant Settled(calls, a.ups)
        invariant Passing(s, a.ups, tries) && Tallied(s, a.ups, tries, uploads, rejected)
        decreases |list|
      {
        TakeNext([], s.pending, calls);
        var up := a.ups(calls);
        uploads, rejected := TryNext(s, a.ups, calls, list[0], up, uploads, rejected);
        tries := tries + 1;
        if up == Unreachable {
          break;
        }
        list := list[1..];
        calls := calls + 1;
      }
      FinalWhen(|s.pending|, a.ups, calls);
      result := PassResult(uploads, rejected, |list|);
    }

    /** A pass does what `ReceiptRule.Passed` says, one write a row, and lowers its flag however it ends. */
    method FlushPendingReceipts(a: Answers) returns (result: PassResult)
      modifies this`pending, this`flushingReceipts, this`uploaded, this`writes
      ensures flushingReceipts == old(flushingReceipts)
      ensures old(flushingReceipts) ==>
        pending == old(pending) && uploaded == old(uploaded) && writes == old(writes)
        && result == PassResult(0, [], |pending|)
      ensures !old(flushingReceipts) ==>
        var list, k := old(pending), Tried(|old(pending)|, a.ups);
        && pending == Passed(list, a.ups)
        && uploaded == old(uploaded) + UploadsAmong(list, a.ups, k)
        && writes == old(writes) + PassWrites(stored, list, a.ups, k)
        && result == PassResult(|UploadsAmong(list, a.ups, k)|, RejectionsAmong(list, a.ups, k),
                                |list| - Final(|list|, a.ups))
    {
      if flushingReceipts {
        var list := pending;
        return PassResult(0, [], |list|);
      }
      flushingReceipts := true;
      result := RetryPending(a);
      flushingReceipts := false;
    }
  }
}
