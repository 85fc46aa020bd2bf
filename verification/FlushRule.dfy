/** What one undisturbed flush does to a queue, stated without its loop: `net(i)` is how its i-th call settles. */
module FlushRule {
  import opened Api

  /** How many of n items leave: all those before the first answer that stops the flush. */
  function Leaving(n: nat, net: nat -> CallResult): (k: nat)
    ensures k <= n && (forall i | 0 <= i < k :: Leaves(net(i)))
    ensures k < n ==> !Leaves(net(k))
  {
    if n == 0 then 0
    else
      var k := Leaving(n - 1, net);
      if k == n - 1 && Leaves(net(n - 1)) then n else k
  }

  lemma LeavingIs(n: nat, net: nat -> CallResult, k: nat)
    requires k <= n && (forall i | 0 <= i < k :: Leaves(net(i))) && (k < n ==> !Leaves(net(k)))
    ensures Leaving(n, net) == k
  {
  }

  function SentAmong(k: nat, net: nat -> CallResult): nat {
    if k == 0 then 0 else SentAmong(k - 1, net) + (if net(k - 1) == Success then 1 else 0)
  }

  /** The items among the first k that were answered with a 4xx, each with its error, in queue order. */
  function RejectedAmong<T>(q: seq<T>, k: nat, net: nat -> CallResult): seq<(T, CallResult)>
    requires k <= |q|
  {
    if k == 0 then []
    else RejectedAmong(q, k - 1, net) + (if ClientError(net(k - 1)) then [(q[k - 1], net(k - 1))] else [])
  }

  function Min(a: nat, b: nat): nat {
    if a < b then a else b
  }

  /** sent + |rejected| + remaining is the initial length. */
  lemma {:induction false} FlushAccounts<T>(q: seq<T>, k: nat, net: nat -> CallResult)
    requires k <= Leaving(|q|, net)
    ensures SentAmong(k, net) + |RejectedAmong(q, k, net)| + (|q| - k) == |q|
  {
    if k > 0 {
      FlushAccounts(q, k - 1, net);
      assert Leaves(net(k - 1));
    }
  }

  /** An item that left was sent, or is in `rejected` with the error of its own call; nothing else is in `rejected`. */
  lemma {:induction false} RejectedIff<T>(q: seq<T>, k: nat, net: nat -> CallResult, x: T, r: CallResult)
    requires k <= |q|
    ensures (x, r) in RejectedAmong(q, k, net) <==> exists i :: 0 <= i < k && q[i] == x && net(i) == r && ClientError(r)
  {
    if k > 0 {
      RejectedIff(q, k - 1, net, x, r);
      if ClientError(net(k - 1)) && q[k - 1] == x && net(k - 1) == r {
        assert (q[k - 1], net(k - 1)) in RejectedAmong(q, k, net);
      }
    }
  }

  /** Some positions below k, in increasing order. */
  ghost predicate Positions(at: seq<nat>, k: nat) {
    && (forall i, j | 0 <= i < j < |at| :: at[i] < at[j])
    && (forall i | 0 <= i < |at| :: at[i] < k)
  }

  lemma PositionsMore(at: seq<nat>, k: nat)
    requires Positions(at, k)
    ensures Positions(at, k + 1) && Positions(at + [k], k + 1) && k !in at
    ensures forall i | 0 <= i < k :: i in at + [k] <==> i in at
  {
  }

  /** `rejected` lists the items that met a 4xx, each with its own error, in queue order. */
  lemma {:induction false} RejectedInOrder<T>(q: seq<T>, k: nat, net: nat -> CallResult) returns (at: seq<nat>)
    requires k <= |q|
    ensures Positions(at, k) && (forall i | 0 <= i < k :: i in at <==> ClientError(net(i)))
    ensures |RejectedAmong(q, k, net)| == |at|
    ensures forall j | 0 <= j < |at| :: RejectedAmong(q, k, net)[j] == (q[at[j]], net(at[j]))
  {
    if k == 0 { return []; }
    var m := k - 1;
    at := RejectedInOrder(q, m, net);
    PositionsMore(at, m);
    assert k == m + 1;
    if ClientError(net(m)) { at := at + [m]; }
  }

  /** Taking the head off what is left of q, and adding it to what has been posted. */
  lemma TakeNext<T>(posted: seq<T>, q: seq<T>, k: nat)
    requires k < |q|
    ensures q[k..] != [] && q[k..][0] == q[k] && q[k..][1..] == q[k + 1..]
    ensures posted + q[..k] + [q[k]] == posted + q[..k + 1]
  {
  }
}
