/** Passes over the pending receipts: one pass is `flushPendingReceipts`, whose i-th upload settles as `ups(i)`. */
module ReceiptRule {
  import opened Api
  import opened FlushRule
  import opened ExpenseRule

  /** How many rows a pass tries: it stops after the first that meets no connection. */
  function Tried(n: nat, ups: nat -> CallResult): (k: nat)
    ensures k <= n
    ensures forall i | 0 <= i < k - 1 :: ups(i) != Unreachable
    ensures k < n ==> k > 0 && ups(k - 1) == Unreachable
  {
    if n == 0 then 0
    else
      var k := Tried(n - 1, ups);
      if k == n - 1 && (n == 1 || ups(n - 2) != Unreachable) then n else k
  }

  /** The first k uploads all got a final answer. */
  predicate Settled(k: nat, ups: nat -> CallResult) {
    forall i | 0 <= i < k :: ups(i) != Unreachable
  }

  lemma TriedWhen(n: nat, ups: nat -> CallResult, k: nat)
    requires k <= n && if k == n then n == 0 || Settled(n - 1, ups) else k > 0 && Settled(k - 1, ups) && ups(k - 1) == Unreachable
    ensures Tried(n, ups) == k
  {
  }

  /** How many rows a pass gets a final answer for. */
  function Final(n: nat, ups: nat -> CallResult): nat {
    var k := Tried(n, ups);
    if k > 0 && ups(k - 1) == Unreachable then k - 1 else k
  }

  lemma FinalWhen(n: nat, ups: nat -> CallResult, k: nat)
    requires k <= n && Settled(k, ups) && (k < n ==> ups(k) == Unreachable)
    ensures Final(n, ups) == k && Tried(n, ups) == Min(k + 1, n)
  {
    TriedWhen(n, ups, Min(k + 1, n));
  }

  function UploadsAmong(list: seq<Receipt>, ups: nat -> CallResult, k: nat): seq<Receipt>
    requires k <= |list|
  {
    if k == 0 then [] else UploadsAmong(list, ups, k - 1) + (if ups(k - 1) == Success then [list[k - 1]] else [])
  }

  function RejectionsAmong(list: seq<Receipt>, ups: nat -> CallResult, k: nat): seq<(Receipt, CallResult)>
    requires k <= |list|
  {
    if k == 0 then []
    else RejectionsAmong(list, ups, k - 1)
         + (if ups(k - 1) != Success && ups(k - 1) != Unreachable then [(list[k - 1], ups(k - 1))] else [])
  }

  /** The uploads of a pass are the rows that were taken, in order. */
  lemma {:induction false} UploadsInOrder(list: seq<Receipt>, ups: nat -> CallResult, k: nat) returns (at: seq<nat>)
    requires k <= |list|
    ensures Positions(at, k) && (forall i | 0 <= i < k :: i in at <==> ups(i).Success?)
    ensures |UploadsAmong(list, ups, k)| == |at|
    ensures forall j | 0 <= j < |at| :: UploadsAmong(list, ups, k)[j] == list[at[j]]
  {
    if k == 0 { return []; }
    var m := k - 1;
    at := UploadsInOrder(list, ups, m);
    PositionsMore(at, m);
    assert k == m + 1;
    if ups(m).Success? {
      at := at + [m];
      assert UploadsAmong(list, ups, k) == UploadsAmong(list, ups, m) + [list[m]];
    } else {
      assert UploadsAmong(list, ups, k) == UploadsAmong(list, ups, m);
    }
  }

  predicate Refusal(up: CallResult) {
    up.Unreadable? || up.Rejected? || up.SessionExpired?
  }

  lemma RejectionsNext(list: seq<Receipt>, ups: nat -> CallResult, k: nat)
    requires k < |list|
    ensures RejectionsAmong(list, ups, k + 1)
      == RejectionsAmong(list, ups, k) + (if Refusal(ups(k)) then [(list[k], ups(k))] else [])
  {
  }

  /** Its rejections are the rows that met an error other than no connection, each with its own error, in order. */
  lemma {:induction false} RejectionsInOrder(list: seq<Receipt>, ups: nat -> CallResult, k: nat) returns (at: seq<nat>)
    requires k <= |list|
    ensures Positions(at, k) && (forall i | 0 <= i < k :: i in at <==> Refusal(ups(i)))
    ensures |RejectionsAmong(list, ups, k)| == |at|
    ensures forall j | 0 <= j < |at| :: RejectionsAmong(list, ups, k)[j] == (list[at[j]], ups(at[j]))
  {
    if k == 0 { return []; }
    var m := k - 1;
    assert k == m + 1;
    at := RejectionsInOrder(list, ups, m);
    PositionsMore(at, m);
    RejectionsNext(list, ups, m);
    if Refusal(ups(m)) { at := at + [m]; }
  }

  /** uploaded + |rejected| + remaining is the initial length. */
  lemma {:induction false} PassAccounts(list: seq<Receipt>, ups: nat -> CallResult, k: nat)
    requires k <= |list| && Settled(k, ups)
    ensures |UploadsAmong(list, ups, k)| + |RejectionsAmong(list, ups, k)| + (|list| - k) == |list|
  {
    if k > 0 {
      var m := k - 1;
      PassAccounts(list, ups, m);
      assert ups(m) != Unreachable && k == m + 1;
    }
  }

  /** The persisted list after the first k rows of `list` have been retried in turn. */
  function AfterRetries(stored: seq<Receipt>, list: seq<Receipt>, ups: nat -> CallResult, k: nat): seq<Receipt>
    requires k <= |list|
  {
    if k == 0 then stored else Retried(AfterRetries(stored, list, ups, k - 1), list[k - 1], ups(k - 1))
  }

  function Passed(list: seq<Receipt>, ups: nat -> CallResult): seq<Receipt> {
    AfterRetries(list, list, ups, Tried(|list|, ups))
  }

  ghost predicate UniqueIds(list: seq<Receipt>) {
    forall i, j | 0 <= i < j < |list| :: list[i].expenseId != list[j].expenseId
  }

  lemma {:induction false} WithoutKeepsUnique(list: seq<Receipt>, id: string)
    requires UniqueIds(list)
    ensures UniqueIds(Without(list, id))
  {
    if list != [] {
      WithoutKeepsUnique(list[1..], id);
      assert forall r | r in Without(list[1..], id) :: r in list[1..];
    }
  }

  lemma RetriedKeepsUnique(list: seq<Receipt>, item: Receipt, up: CallResult)
    requires UniqueIds(list)
    ensures UniqueIds(Retried(list, item, up))
  {
    WithoutKeepsUnique(list, item.expenseId);
    assert forall r | r in Without(list, item.expenseId) :: r.expenseId != item.expenseId;
  }

  /** With unique ids, retrying the head of a list takes exactly the head out of its place. */
  lemma HeadRetried(list: seq<Receipt>, up: CallResult)
    requires UniqueIds(list) && list != []
    ensures Retried(list, list[0], up) == list[1..] + (if up == Unreachable then [list[0]] else [])
  {
    WithoutAbsent(list[1..], list[0].expenseId);
  }

  lemma NextHead(list: seq<Receipt>, k: nat, up: CallResult)
    requires UniqueIds(list) && k < |list| && up != Unreachable
    ensures Retried(list[k..], list[k], up) == list[k + 1..]
  {
    HeadRetried(list[k..], up);
    assert list[k..][1..] == list[k + 1..];
  }

  lemma {:induction false} HeadsRemoved(list: seq<Receipt>, ups: nat -> CallResult, k: nat)
    requires UniqueIds(list) && k <= |list| && (forall i | 0 <= i < k :: ups(i) != Unreachable)
    ensures AfterRetries(list, list, ups, k) == list[k..]
  {
    if k > 0 {
      HeadsRemoved(list, ups, k - 1);
      NextHead(list, k - 1, ups(k - 1));
    }
  }

  /** What a pass does to the persisted list: the rows before the first that meets no connection leave, and that one
      moves to the end. */
  lemma PassRotates(list: seq<Receipt>, ups: nat -> CallResult)
    requires UniqueIds(list)
    ensures var k := Tried(|list|, ups);
      Passed(list, ups) == list[k..] + (if k > 0 && ups(k - 1) == Unreachable then [list[k - 1]] else [])
    ensures UniqueIds(Passed(list, ups))
  {
    var k := Tried(|list|, ups);
    if k > 0 {
      HeadsRemoved(list, ups, k - 1);
      HeadRetried(list[k - 1..], ups(k - 1));
      RetriedKeepsUnique(list[k - 1..], list[k - 1], ups(k - 1));
      assert list[k - 1..][1..] == list[k..];
    }
  }

  // ---- Fairness ------------------------------------------------------------------------------------

  /** The list before pass m, when nothing else touches it; pass m's uploads settle as `ups(m)`. */
  function Before(list: seq<Receipt>, ups: nat -> nat -> CallResult, m: nat): seq<Receipt> {
    if m == 0 then list else Passed(Before(list, ups, m - 1), ups(m - 1))
  }

  function TriedIn(list: seq<Receipt>, ups: nat -> CallResult): seq<Receipt> {
    list[..Tried(|list|, ups)]
  }

  /** The rows tried in the passes before pass m, in order. */
  function TriedBefore(list: seq<Receipt>, ups: nat -> nat -> CallResult, m: nat): seq<Receipt> {
    if m == 0 then [] else TriedBefore(list, ups, m - 1) + TriedIn(Before(list, ups, m - 1), ups(m - 1))
  }

  lemma LeadShrinks(list: seq<Receipt>, now: seq<Receipt>, b: nat, k: nat, tail: seq<Receipt>) returns (c: nat)
    requires b <= |list| && |list| - b <= |now| && now[..|list| - b] == list[b..] && k <= |now|
    ensures c == Min(b + k, |list|) && |list| - c <= |now[k..] + tail| && (now[k..] + tail)[..|list| - c] == list[c..]
    ensures forall i | b <= i < c :: list[i] in now[..k]
  {
    c := Min(b + k, |list|);
    forall i | b <= i < c ensures list[i] in now[..k] {
      assert list[b..][i - b] == list[i] && now[..|list| - b][i - b] == now[..k][i - b];
    }
    forall i | 0 <= i < |list| - c ensures (now[k..] + tail)[i] == list[c + i] {
      assert list[b..][k + i] == now[..|list| - b][k + i];
    }
  }

  /** The rows of `list` from b on lead `now`. */
  ghost predicate Leads(list: seq<Receipt>, now: seq<Receipt>, b: nat) {
    b <= |list| && |list| - b <= |now| && now[..|list| - b] == list[b..]
  }

  lemma OnePass(list: seq<Receipt>, now: seq<Receipt>, b: nat, up: nat -> CallResult) returns (c: nat)
    requires UniqueIds(now) && Leads(list, now, b)
    ensures UniqueIds(Passed(now, up)) && Leads(list, Passed(now, up), c)
    ensures b < |list| ==> b < c
    ensures b <= c && forall i | b <= i < c :: list[i] in TriedIn(now, up)
  {
    var k := Tried(|now|, up);
    PassRotates(now, up);
    c := LeadShrinks(list, now, b, k, if k > 0 && up(k - 1) == Unreachable then [now[k - 1]] else []);
  }

  /** Before pass m at least the first m rows have been tried, and the untried rest leads the list in its old order. */
  lemma {:induction false} UntriedLead(list: seq<Receipt>, ups: nat -> nat -> CallResult, m: nat) returns (c: nat)
    requires UniqueIds(list)
    ensures UniqueIds(Before(list, ups, m)) && Leads(list, Before(list, ups, m), c)
    ensures m <= c || c == |list|
    ensures forall i | 0 <= i < c :: list[i] in TriedBefore(list, ups, m)
  {
    if m == 0 { return 0; }
    var b := UntriedLead(list, ups, m - 1);
    c := OnePass(list, Before(list, ups, m - 1), b, ups(m - 1));
  }

  /** n passes in a row over n pending receipts try every one of them, whatever the uploads do. */
  lemma EveryReceiptIsTried(list: seq<Receipt>, ups: nat -> nat -> CallResult)
    requires UniqueIds(list)
    ensures forall r | r in list :: r in TriedBefore(list, ups, |list|)
  {
    var c := UntriedLead(list, ups, |list|);
  }

  // ---- Every interleaving of retries ---------------------------------------------------------------

  /** One retry after its upload has been answered: the row, the answer, and the list it will write. */
  datatype Retry = Retry(item: Receipt, up: CallResult, list: seq<Receipt>)

  /** Retries between their read of the list and their write of it. `waiting` is history: the rows whose last retry to
      have written found no connection, by id. */
  datatype Races = Races(stored: seq<Receipt>, writing: map<nat, Retry>, waiting: map<string, Receipt>)

  datatype Event = Reads(retry: nat, item: Receipt, up: CallResult) | Writes(retry: nat)

  const NO_RACES := Races([], map[], map[])

  function Noted(waiting: map<string, Receipt>, item: Receipt, up: CallResult): map<string, Receipt> {
    if up == Unreachable then waiting[item.expenseId := item] else waiting - {item.expenseId}
  }

  function Step(s: Races, e: Event): Races {
    match e
    case Reads(k, item, up) => s.(writing := s.writing[k := Retry(item, up, Retried(s.stored, item, up))])
    case Writes(k) =>
      if k !in s.writing then s
      else
        var r := s.writing[k];
        Races(r.list, s.writing - {k}, Noted(s.waiting, r.item, r.up))
  }

  function Run(s: Races, es: seq<Event>): Races
    decreases |es|
  {
    if es == [] then s else Step(Run(s, es[..|es| - 1]), es[|es| - 1])
  }

  /** However retries from flushes, passes and the driver's own taps interleave, the ids stored are unique. */
  lemma {:induction false} IdsStayUnique(es: seq<Event>)
    ensures var s := Run(NO_RACES, es);
      UniqueIds(s.stored) && forall k | k in s.writing :: UniqueIds(s.writing[k].list)
  {
    if es != [] {
      var before, e := es[..|es| - 1], es[|es| - 1];
      IdsStayUnique(before);
      if e.Reads? { RetriedKeepsUnique(Run(NO_RACES, before).stored, e.item, e.up); }
    }
  }

  /** No photo is lost and none comes back: the rows stored are those whose last retry found no connection. */
  ghost predicate Whole(s: Races) {
    forall r :: r in s.stored <==> r.expenseId in s.waiting && s.waiting[r.expenseId] == r
  }

  /** A retry writes the rows it would write had it read the list only now. */
  ghost predicate Fresh(s: Races, e: Event) {
    e.Writes? && e.retry in s.writing ==>
      var retry := s.writing[e.retry];
      forall r :: r in retry.list <==> r in Retried(s.stored, retry.item, retry.up)
  }

  lemma RetriedIsNoted(s: Races, item: Receipt, up: CallResult, r: Receipt)
    requires Whole(s)
    ensures r in Retried(s.stored, item, up)
      <==> var waiting := Noted(s.waiting, item, up); r.expenseId in waiting && waiting[r.expenseId] == r
  {
  }

  lemma StepIsWholeIff(s: Races, e: Event)
    requires Whole(s)
    ensures Whole(Step(s, e)) <==> Fresh(s, e)
  {
    if e.Writes? && e.retry in s.writing {
      var retry := s.writing[e.retry];
      forall r ensures r in Retried(s.stored, retry.item, retry.up)
        <==> var waiting := Noted(s.waiting, retry.item, retry.up); r.expenseId in waiting && waiting[r.expenseId] == r
      {
        RetriedIsNoted(s, retry.item, retry.up, r);
      }
    }
  }

  ghost predicate WholeThroughout(es: seq<Event>)
    decreases |es|
  {
    Whole(Run(NO_RACES, es)) && (es == [] || WholeThroughout(es[..|es| - 1]))
  }

  ghost predicate FreshRun(es: seq<Event>)
    decreases |es|
  {
    es == [] || (FreshRun(es[..|es| - 1]) && Fresh(Run(NO_RACES, es[..|es| - 1]), es[|es| - 1]))
  }

  /** In every interleaving of retries, no photo is lost and none comes back, at any point of the run, exactly when
      every write of the run is fresh. */
  lemma {:induction false} WholeIffFresh(es: seq<Event>)
    ensures WholeThroughout(es) <==> FreshRun(es)
  {
    if es != [] {
      WholeIffFresh(es[..|es| - 1]);
      if WholeThroughout(es[..|es| - 1]) { StepIsWholeIff(Run(NO_RACES, es[..|es| - 1]), es[|es| - 1]); }
    }
  }

  lemma Next(es: seq<Event>, s: Races, e: Event) returns (all: seq<Event>, s': Races)
    requires Run(NO_RACES, es) == s
    ensures all == es + [e] && s' == Step(s, e) && Run(NO_RACES, all) == s'
  {
    all, s' := es + [e], Step(s, e);
    assert all[..|es|] == es;
  }

  /** Two retries that overlap, with a on the list: c finds no connection and a is uploaded, and both read the list
      before either writes. c's photo has not been uploaded, and its row is gone. */
  lemma OverlapLosesReceipt(a: Receipt, c: Receipt) returns (es: seq<Event>)
    requires a.expenseId != c.expenseId
    ensures var s := Run(NO_RACES, es); s.stored == [] && c.expenseId in s.waiting && s.waiting[c.expenseId] == c
  {
    var s;
    es, s := Next([], NO_RACES, Reads(0, a, Unreachable));
    es, s := Next(es, s, Writes(0));
    assert s.stored == [a] && [a][1..] == [];
    assert Without([a], c.expenseId) == [a] && Without([a], a.expenseId) == [];
    es, s := Next(es, s, Reads(1, c, Unreachable));
    es, s := Next(es, s, Reads(2, a, Success));
    assert s.writing[1].list == [a, c] && s.writing[2].list == [];
    es, s := Next(es, s, Writes(1));
    es, s := Next(es, s, Writes(2));
  }
}
