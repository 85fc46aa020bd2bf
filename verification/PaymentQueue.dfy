/** `queue.ts` and the parts of `DriverDataContext` and `storage.ts` it works with, run without interruption. */
module PaymentQueue {
  import opened Api
  import opened FlushRule

  datatype Payment = Payment(clientId: string, assignmentId: string, driverId: string, amount: real, paymentMethod: Option<string>)

  datatype Assignment = Assignment(id: string, driverId: string)

  /** What `Number(...)` makes of a text, None being NaN, and what `trim()` leaves of it. */
  datatype Texts = Texts(number: string -> Option<real>, trim: string -> string)

  datatype FlushResult = FlushResult(sent: nat, rejected: seq<(Payment, CallResult)>, remaining: nat)

  class Queue {
    var stored: seq<Payment>
    var flushing: bool
    ghost var posted: seq<Payment>

    constructor ()
      ensures stored == [] && !flushing && posted == []
    {
      stored, flushing, posted := [], false, [];
    }

    method EnqueuePayment(item: Payment) returns (length: nat)
      modifies this`stored
      ensures stored == old(stored) + [item] && length == |stored|
    {
      var queue := stored;
      queue := queue + [item];
      stored := queue;
      return |queue|;
    }

    /** The flush has posted the first k items of q and taken them off both queues, and counted what became of them. */
    ghost predicate Progress(q: seq<Payment>, net: nat -> CallResult, k: nat, queue: seq<Payment>,
                             sent: nat, rejected: seq<(Payment, CallResult)>)
      reads this
    {
      && k <= |q| && stored == queue == q[k..]
      && sent == SentAmong(k, net) && rejected == RejectedAmong(q, k, net)
    }

    /** An answered item: it leaves, counted as sent or reported with its error. */
    method Settle(ghost q: seq<Payment>, ghost net: nat -> CallResult, ghost k: nat, queue0: seq<Payment>,
                  sent0: nat, rejected0: seq<(Payment, CallResult)>, answer: CallResult)
        returns (queue: seq<Payment>, sent: nat, rejected: seq<(Payment, CallResult)>)
      requires Progress(q, net, k, queue0, sent0, rejected0) && k < |q| && answer == net(k) && Leaves(answer)
      modifies this`stored
      ensures Progress(q, net, k + 1, queue, sent, rejected)
    {
      var item := queue0[0];
      queue, sent, rejected := queue0[1..], sent0, rejected0;
      if answer == Success {
        sent := sent + 1;
      } else {
        rejected := rejected + [(item, answer)];
      }
      stored := queue;
    }

    /** The `try` of `flushQueue`. At each loop head the in-memory queue is the stored one. */
    method SendQueued(net: nat -> CallResult) returns (result: FlushResult)
      modifies this`stored, this`posted
      ensures var q, k := old(stored), Leaving(|old(stored)|, net);
        && stored == q[k..]
        && posted == old(posted) + q[..Min(k + 1, |q|)]
        && result == FlushResult(SentAmong(k, net), RejectedAmong(q, k, net), |q| - k)
    {
      ghost var q := stored;
      var queue := stored;
      var rejected: seq<(Payment, CallResult)> := [];
      var sent := 0;
      var calls := 0;
      while queue != []
        invariant Progress(q, net, calls, queue, sent, rejected)
        invariant Leaving(calls, net) == calls
        invariant posted == old(posted) + q[..calls]
        decreases |queue|
      {
        TakeNext(old(posted), q, calls);
        posted := posted + [queue[0]];
        var answer := net(calls);
        if answer == Unreachable {
          break;
        }
        if !Leaves(answer) {
          break;
        }
        queue, sent, rejected := Settle(q, net, calls, queue, sent, rejected, answer);
        calls := calls + 1;
      }
      LeavingIs(|q|, net, calls);
      result := FlushResult(sent, rejected, |queue|);
    }

    /** The flush removes exactly the prefix whose calls came back 2xx or 4xx, posts the items in order and no item
        twice, reports what it did, and lowers its flag however it ends. A second flush does nothing. */
    method FlushQueue(net: nat -> CallResult) returns (result: FlushResult)
      modifies this
      ensures flushing == old(flushing)
      ensures old(flushing) ==>
        stored == old(stored) && posted == old(posted) && result == FlushResult(0, [], |stored|)
      ensures !old(flushing) ==>
        var q, k := old(stored), Leaving(|old(stored)|, net);
        && stored == q[k..]
        && posted == old(posted) + q[..Min(k + 1, |q|)]
        && result == FlushResult(SentAmong(k, net), RejectedAmong(q, k, net), |q| - k)
    {
      if flushing {
        var queue := stored;
        return FlushResult(0, [], |queue|);
      }
      flushing := true;
      result := SendQueued(net);
      flushing := false;
    }

    /** `recordPayment`: only a payment whose own call found no connection is queued, once, as it was posted. */
    method RecordPayment(amountRaw: string, methodRaw: string, texts: Texts, assignment: Option<Assignment>,
                         clientId: string, answer: CallResult) returns (clearForm: bool)
      modifies this
      ensures flushing == old(flushing)
      ensures var amount, trimmed := texts.number(amountRaw), texts.trim(methodRaw);
        if amountRaw != "" && amount.Some? && amount.value > 0.0 && assignment.Some? then
          var item := Payment(clientId, assignment.value.id, assignment.value.driverId, amount.value,
                              if trimmed == "" then None else Some(trimmed));
          && posted == old(posted) + [item]
          && stored == old(stored) + (if answer == Unreachable then [item] else [])
          && (clearForm <==> answer in {Success, Unreachable})
        else
          posted == old(posted) && stored == old(stored) && !clearForm
    {
      var value := texts.number(amountRaw);
      if amountRaw == "" || value.None? || value.value <= 0.0 {
        return false;
      }
      if assignment.None? {
        return false;
      }
      var method' := None;
      if texts.trim(methodRaw) != "" {
        method' := Some(texts.trim(methodRaw));
      }
      var item := Payment(clientId, assignment.value.id, assignment.value.driverId, value.value, method');
      posted := posted + [item];
      if answer == Success {
        return true;
      }
      if answer == Unreachable {
        var _ := EnqueuePayment(item);
        return true;
      }
      return false;
    }
  }
}
