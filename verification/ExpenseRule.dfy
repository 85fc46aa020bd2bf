/** What flushing offline expenses does to the two persisted lists, stated without loops. Call i of a flush settles
    as `net(i)`, the server's id for that expense is `ids(i)`, and the upload of its photo settles as `ups(i)`. */
module ExpenseRule {
  import opened Api
  import opened FlushRule

  /** An absent field is the empty string, which the source treats alike. */
  datatype Expense = Expense(clientId: string, category: string, amount: int, incurredAt: string,
                             photoUri: string, photoMimeType: string, photoName: string)

  datatype Receipt = Receipt(expenseId: string, photoUri: string, photoMimeType: string, photoName: string)

  datatype Problem = Text(error: CallResult) | Photo(error: CallResult)
  datatype Rejection = Rejection(item: Expense, problem: Problem)

  datatype Answers = Answers(net: nat -> CallResult, ids: nat -> string, ups: nat -> CallResult)

  predicate HasPhoto(e: Expense) {
    e.photoUri != "" && e.photoMimeType != "" && e.photoName != ""
  }

  function ReceiptFor(e: Expense, id: string): Receipt {
    Receipt(id, e.photoUri, e.photoMimeType, e.photoName)
  }

  /** `list.filter((p) => p.expenseId !== id)` */
  function Without(list: seq<Receipt>, id: string): (r: seq<Receipt>)
    ensures forall x :: x in r <==> x in list && x.expenseId != id
  {
    if list == [] then []
    else (if list[0].expenseId == id then [] else [list[0]]) + Without(list[1..], id)
  }

  /** The pending list after one `retryPendingReceipt`: a row that met no connection moves to the end, any other
      leaves. */
  function Retried(list: seq<Receipt>, item: Receipt, up: CallResult): seq<Receipt> {
    Without(list, item.expenseId) + (if up == Unreachable then [item] else [])
  }

  predicate PhotoSent(q: seq<Expense>, a: Answers, i: nat)
    requires i < |q|
  {
    a.net(i) == Success && HasPhoto(q[i])
  }

  /** The pending list once the first k items of q have been dealt with. */
  function PendingAfter(q: seq<Expense>, a: Answers, pending: seq<Receipt>, k: nat): seq<Receipt>
    requires k <= |q|
  {
    if k == 0 then pending
    else
      var before := PendingAfter(q, a, pending, k - 1);
      if PhotoSent(q, a, k - 1) then Retried(before, ReceiptFor(q[k - 1], a.ids(k - 1)), a.ups(k - 1)) else before
  }

  /** What item i adds to `rejected`. */
  function RejectionsOf(q: seq<Expense>, a: Answers, i: nat): seq<Rejection>
    requires i < |q|
  {
    if ClientError(a.net(i)) then [Rejection(q[i], Text(a.net(i)))]
    else if PhotoSent(q, a, i) && a.ups(i) != Success && a.ups(i) != Unreachable
    then [Rejection(q[i], Photo(a.ups(i)))]
    else []
  }

  function RejectedAfter(q: seq<Expense>, a: Answers, k: nat): seq<Rejection>
    requires k <= |q|
  {
    if k == 0 then [] else RejectedAfter(q, a, k - 1) + RejectionsOf(q, a, k - 1)
  }

  /** The photos the server took. */
  function UploadedAfter(q: seq<Expense>, a: Answers, k: nat): seq<Receipt>
    requires k <= |q|
  {
    if k == 0 then []
    else UploadedAfter(q, a, k - 1)
         + (if PhotoSent(q, a, k - 1) && a.ups(k - 1) == Success then [ReceiptFor(q[k - 1], a.ids(k - 1))] else [])
  }

  /** The two lists as they stand in storage after one write. */
  datatype Snapshot = Snapshot(queue: seq<Expense>, pending: seq<Receipt>)

  /** The writes item i causes: the shortened queue, then the pending list if a photo was tried. */
  function WritesOf(q: seq<Expense>, a: Answers, pending: seq<Receipt>, i: nat): seq<Snapshot>
    requires i < |q|
  {
    [Snapshot(q[i + 1..], PendingAfter(q, a, pending, i))]
    + (if PhotoSent(q, a, i) then [Snapshot(q[i + 1..], PendingAfter(q, a, pending, i + 1))] else [])
  }

  function WritesAfter(q: seq<Expense>, a: Answers, pending: seq<Receipt>, k: nat): seq<Snapshot>
    requires k <= |q|
  {
    if k == 0 then [] else WritesAfter(q, a, pending, k - 1) + WritesOf(q, a, pending, k - 1)
  }

  // ---- Conservation --------------------------------------------------------------------------------

  function IdsOf(list: seq<Receipt>): set<string> {
    set r | r in list :: r.expenseId
  }

  /** The server's ids for the sent expenses are new: no two alike, and none already pending. */
  ghost predicate FreshIds(q: seq<Expense>, a: Answers, pending: seq<Receipt>, k: nat) {
    && k <= |q|
    && (forall i | 0 <= i < k && PhotoSent(q, a, i) :: a.ids(i) !in IdsOf(pending))
    && (forall i, j | 0 <= i < j < k && PhotoSent(q, a, i) && PhotoSent(q, a, j) :: a.ids(i) != a.ids(j))
  }

  lemma {:induction false} WithoutAbsent(list: seq<Receipt>, id: string)
    requires id !in IdsOf(list)
    ensures Without(list, id) == list
  {
    if list != [] {
      assert list[0].expenseId in IdsOf(list) && forall r | r in list[1..] :: r in list;
      WithoutAbsent(list[1..], id);
    }
  }

  lemma {:induction false} PendingIds(q: seq<Expense>, a: Answers, pending: seq<Receipt>, k: nat, r: Receipt)
    requires k <= |q| && r in PendingAfter(q, a, pending, k)
    ensures r in pending || exists i :: 0 <= i < k && PhotoSent(q, a, i) && r == ReceiptFor(q[i], a.ids(i))
  {
    if k > 0 && r in PendingAfter(q, a, pending, k - 1) { PendingIds(q, a, pending, k - 1, r); }
  }

  lemma FreshNotPending(q: seq<Expense>, a: Answers, pending: seq<Receipt>, k: nat)
    requires k < |q| && FreshIds(q, a, pending, k + 1) && PhotoSent(q, a, k)
    ensures a.ids(k) !in IdsOf(PendingAfter(q, a, pending, k))
    ensures ReceiptFor(q[k], a.ids(k)) !in PendingAfter(q, a, pending, k)
  {
    forall r | r in PendingAfter(q, a, pending, k) ensures r.expenseId != a.ids(k) {
      PendingIds(q, a, pending, k, r);
      if r in pending { assert r.expenseId in IdsOf(pending); }
    }
  }

  function PhotosSent(q: seq<Expense>, a: Answers, k: nat): nat
    requires k <= |q|
  {
    if k == 0 then 0 else PhotosSent(q, a, k - 1) + (if PhotoSent(q, a, k - 1) then 1 else 0)
  }

  predicate IsText(r: Rejection) {
    r.problem.Text?
  }

  function CountText(rs: seq<Rejection>): nat {
    if rs == [] then 0 else CountText(rs[..|rs| - 1]) + (if IsText(rs[|rs| - 1]) then 1 else 0)
  }

  lemma CountTextMore(rs: seq<Rejection>, r: Rejection)
    ensures CountText(rs + [r]) == CountText(rs) + (if IsText(r) then 1 else 0)
  {
    assert (rs + [r])[..|rs|] == rs;
  }

  lemma RejectedNext(q: seq<Expense>, a: Answers, k: nat)
    requires k < |q|
    ensures CountText(RejectedAfter(q, a, k + 1))
      == CountText(RejectedAfter(q, a, k)) + (if ClientError(a.net(k)) then 1 else 0)
    ensures |RejectedAfter(q, a, k + 1)| == |RejectedAfter(q, a, k)| + |RejectionsOf(q, a, k)|
  {
    var before, more := RejectedAfter(q, a, k), RejectionsOf(q, a, k);
    if more == [] { assert before + more == before; } else { CountTextMore(before, more[0]); }
  }

  /** sent + text rejections + remaining is the initial length, whatever the uploads do. */
  lemma {:induction false} TextConserved(q: seq<Expense>, a: Answers, k: nat)
    requires k <= |q| && forall i | 0 <= i < k :: Leaves(a.net(i))
    ensures SentAmong(k, a.net) + CountText(RejectedAfter(q, a, k)) + (|q| - k) == |q|
  {
    if k > 0 {
      var m := k - 1;
      TextConserved(q, a, m);
      RejectedNext(q, a, m);
      assert Leaves(a.net(m)) && k == m + 1;
    }
  }

  /** Where the photos are: uploaded, newly pending, or rejected. */
  function PhotosPlaced(q: seq<Expense>, a: Answers, pending: seq<Receipt>, k: nat): int
    requires k <= |q|
  {
    |UploadedAfter(q, a, k)| + (|PendingAfter(q, a, pending, k)| - |pending|)
    + (|RejectedAfter(q, a, k)| - CountText(RejectedAfter(q, a, k)))
  }

  lemma PhotosPlacedNext(q: seq<Expense>, a: Answers, pending: seq<Receipt>, k: nat)
    requires k < |q| && FreshIds(q, a, pending, k + 1)
    ensures FreshIds(q, a, pending, k)
    ensures PhotosPlaced(q, a, pending, k + 1) - PhotosSent(q, a, k + 1)
      == PhotosPlaced(q, a, pending, k) - PhotosSent(q, a, k)
  {
    RejectedNext(q, a, k);
    PendingNext(q, a, pending, k);
  }

  /** Uploads + new pending rows + receipt rejections is the number of photos of sent expenses. */
  lemma {:induction false} PhotosConserved(q: seq<Expense>, a: Answers, pending: seq<Receipt>, k: nat)
    requires FreshIds(q, a, pending, k)
    ensures PhotosPlaced(q, a, pending, k) == PhotosSent(q, a, k)
  {
    if k > 0 {
      var m := k - 1;
      assert k == m + 1;
      PhotosPlacedNext(q, a, pending, m);
      PhotosConserved(q, a, pending, m);
    }
  }

  lemma PendingNext(q: seq<Expense>, a: Answers, pending: seq<Receipt>, k: nat)
    requires k < |q| && FreshIds(q, a, pending, k + 1)
    ensures |PendingAfter(q, a, pending, k + 1)|
      == |PendingAfter(q, a, pending, k)| + (if PhotoSent(q, a, k) && a.ups(k) == Unreachable then 1 else 0)
  {
    if PhotoSent(q, a, k) {
      FreshNotPending(q, a, pending, k);
      WithoutAbsent(PendingAfter(q, a, pending, k), a.ids(k));
    }
  }

  /** The photo of item i is in the one place its upload's answer names. */
  predicate InItsPlace(q: seq<Expense>, a: Answers, pending: seq<Receipt>, k: nat, i: nat)
    requires i < k <= |q|
  {
    var r := ReceiptFor(q[i], a.ids(i));
    && (r in UploadedAfter(q, a, k) <==> a.ups(i) == Success)
    && (r in PendingAfter(q, a, pending, k) <==> a.ups(i) == Unreachable)
    && (Rejection(q[i], Photo(a.ups(i))) in RejectedAfter(q, a, k) <==> a.ups(i) != Success && a.ups(i) != Unreachable)
  }

  lemma PhotoPlaced(q: seq<Expense>, a: Answers, pending: seq<Receipt>, i: nat)
    requires i < Leaving(|q|, a.net) && FreshIds(q, a, pending, i + 1) && PhotoSent(q, a, i)
    ensures InItsPlace(q, a, pending, i + 1, i)
  {
    FreshNotPending(q, a, pending, i);
    UploadedIds(q, a, i, ReceiptFor(q[i], a.ids(i)));
    NoUndueRejection(q, a, i, q[i], a.ups(i));
  }

  lemma UploadStays(q: seq<Expense>, a: Answers, pending: seq<Receipt>, k: nat, i: nat)
    requires i < k < |q| && FreshIds(q, a, pending, k + 1) && PhotoSent(q, a, i)
    ensures ReceiptFor(q[i], a.ids(i)) in UploadedAfter(q, a, k + 1) <==> ReceiptFor(q[i], a.ids(i)) in UploadedAfter(q, a, k)
  {
    assert PhotoSent(q, a, k) ==> ReceiptFor(q[k], a.ids(k)) != ReceiptFor(q[i], a.ids(i));
  }

  lemma PendingStays(q: seq<Expense>, a: Answers, pending: seq<Receipt>, k: nat, i: nat)
    requires i < k < |q| && FreshIds(q, a, pending, k + 1) && PhotoSent(q, a, i)
    ensures ReceiptFor(q[i], a.ids(i)) in PendingAfter(q, a, pending, k + 1)
      <==> ReceiptFor(q[i], a.ids(i)) in PendingAfter(q, a, pending, k)
  {
    assert PhotoSent(q, a, k) ==> a.ids(k) != a.ids(i);
  }

  lemma RejectionStays(q: seq<Expense>, a: Answers, k: nat, i: nat)
    requires i < k < |q|
    requires Rejection(q[i], Photo(a.ups(i))) in RejectedAfter(q, a, k) <==> a.ups(i) != Success && a.ups(i) != Unreachable
    ensures Rejection(q[i], Photo(a.ups(i))) in RejectedAfter(q, a, k + 1) <==> a.ups(i) != Success && a.ups(i) != Unreachable
  {
    NoUndueRejection(q, a, k + 1, q[i], a.ups(i));
  }

  /** Each photo of a sent expense ends in exactly one place, the one its upload's answer names. */
  lemma {:induction false} PhotoEndsInOnePlace(q: seq<Expense>, a: Answers, pending: seq<Receipt>, k: nat, i: nat)
    requires k <= Leaving(|q|, a.net) && FreshIds(q, a, pending, k) && i < k && PhotoSent(q, a, i)
    ensures InItsPlace(q, a, pending, k, i)
  {
    if i == k - 1 {
      PhotoPlaced(q, a, pending, i);
    } else {
      var m := k - 1;
      PhotoEndsInOnePlace(q, a, pending, m, i);
      UploadStays(q, a, pending, m, i);
      PendingStays(q, a, pending, m, i);
      RejectionStays(q, a, m, i);
      assert k == m + 1;
    }
  }

  /** The photo of a sent expense, field by field: with all three fields it is in the one place its upload's answer
      names; with any of them missing nothing is uploaded, queued or rejected for it. */
  lemma PhotoFollowsFields(q: seq<Expense>, a: Answers, pending: seq<Receipt>, k: nat, i: nat)
    requires k <= Leaving(|q|, a.net) && FreshIds(q, a, pending, k) && i < k && a.net(i) == Success
    ensures var e, up := q[i], a.ups(i);
      var r := Receipt(a.ids(i), e.photoUri, e.photoMimeType, e.photoName);
      if e.photoUri != "" && e.photoMimeType != "" && e.photoName != "" then
        && (r in UploadedAfter(q, a, k) <==> up == Success)
        && (r in PendingAfter(q, a, pending, k) <==> up == Unreachable)
        && (Rejection(e, Photo(up)) in RejectedAfter(q, a, k) <==> up != Success && up != Unreachable)
      else
        && PendingAfter(q, a, pending, i + 1) == PendingAfter(q, a, pending, i)
        && UploadedAfter(q, a, i + 1) == UploadedAfter(q, a, i)
        && RejectedAfter(q, a, i + 1) == RejectedAfter(q, a, i)
        && WritesOf(q, a, pending, i) == [Snapshot(q[i + 1..], PendingAfter(q, a, pending, i))]
  {
    if q[i].photoUri != "" && q[i].photoMimeType != "" && q[i].photoName != "" {
      PhotoEndsInOnePlace(q, a, pending, k, i);
    }
  }

  /** The photo of item i is sent and taken. */
  predicate Taken(q: seq<Expense>, a: Answers, i: nat) {
    i < |q| && a.net(i).Success? && a.ups(i).Success?
    && q[i].photoUri != "" && q[i].photoMimeType != "" && q[i].photoName != ""
  }

  /** The uploads of a flush are the photos that were taken, in queue order, each under its own expense's id. */
  lemma {:induction false} UploadedInOrder(q: seq<Expense>, a: Answers, k: nat) returns (at: seq<nat>)
    requires k <= |q|
    ensures Positions(at, k) && (forall i | 0 <= i < k :: i in at <==> Taken(q, a, i))
    ensures |UploadedAfter(q, a, k)| == |at|
    ensures forall j | 0 <= j < |at| :: at[j] < |q| && var e := q[at[j]];
      UploadedAfter(q, a, k)[j] == Receipt(a.ids(at[j]), e.photoUri, e.photoMimeType, e.photoName)
  {
    if k == 0 { return []; }
    var m := k - 1;
    at := UploadedInOrder(q, a, m);
    PositionsMore(at, m);
    assert k == m + 1;
    if Taken(q, a, m) { at := at + [m]; }
  }

  /** Item i gives rise to a rejection. */
  predicate Complains(q: seq<Expense>, a: Answers, i: nat) {
    i < |q| && (ClientError(a.net(i))
                || (a.net(i).Success? && HasPhoto(q[i]) && !a.ups(i).Success? && !a.ups(i).Unreachable?))
  }

  /** `rejected` names each item that met an error at most once, with the error of its text or of its photo, in queue
      order. */
  lemma {:induction false} RejectedInOrder(q: seq<Expense>, a: Answers, k: nat) returns (at: seq<nat>)
    requires k <= |q|
    ensures Positions(at, k) && (forall i | 0 <= i < k :: i in at <==> Complains(q, a, i))
    ensures |RejectedAfter(q, a, k)| == |at|
    ensures forall j | 0 <= j < |at| :: at[j] < |q| && var i := at[j];
      RejectedAfter(q, a, k)[j] == Rejection(q[i], if a.net(i).Success? then Photo(a.ups(i)) else Text(a.net(i)))
  {
    if k == 0 { return []; }
    var m := k - 1;
    at := RejectedInOrder(q, a, m);
    PositionsMore(at, m);
    assert k == m + 1;
    if Complains(q, a, m) { at := at + [m]; }
  }

  /** A text that was refused is rejected with its error, and its photo is not tried. */
  lemma RefusedText(q: seq<Expense>, a: Answers, pending: seq<Receipt>, i: nat)
    requires i < |q| && a.net(i) != Success
    ensures PendingAfter(q, a, pending, i + 1) == PendingAfter(q, a, pending, i)
    ensures UploadedAfter(q, a, i + 1) == UploadedAfter(q, a, i)
    ensures a.net(i) == SessionExpired || (a.net(i).Rejected? && 400 <= a.net(i).status <= 499) ==>
      RejectedAfter(q, a, i + 1) == RejectedAfter(q, a, i) + [Rejection(q[i], Text(a.net(i)))]
  {
  }

  lemma {:induction false} UploadedIds(q: seq<Expense>, a: Answers, k: nat, r: Receipt)
    requires k <= |q|
    ensures r in UploadedAfter(q, a, k) ==>
      exists i :: 0 <= i < k && PhotoSent(q, a, i) && r == ReceiptFor(q[i], a.ids(i))
  {
    if k > 0 { UploadedIds(q, a, k - 1, r); }
  }

  lemma {:induction false} NoUndueRejection(q: seq<Expense>, a: Answers, k: nat, e: Expense, up: CallResult)
    requires k <= |q|
    ensures Rejection(e, Photo(up)) in RejectedAfter(q, a, k) ==> up != Success && up != Unreachable
  {
    if k > 0 { NoUndueRejection(q, a, k - 1, e, up); }
  }

  // ---- A crash during the flush --------------------------------------------------------------------

  /** How far the flush has come with one sent expense: its text is posted, its shift is stored, its upload has been
      answered, its receipt is stored. */
  datatype Stage = Posted | Shifted | UploadAnswered | Recorded

  /** What storage holds if the app dies while item i is at `stage`. */
  function AtCrash(q: seq<Expense>, a: Answers, pending: seq<Receipt>, i: nat, stage: Stage): Snapshot
    requires i < |q|
  {
    Snapshot(if stage.Posted? then q[i..] else q[i + 1..],
             PendingAfter(q, a, pending, if stage.Recorded? then i + 1 else i))
  }

  /** The photo of item j is with its queued expense, on the pending list, or has had its final answer. */
  ghost predicate PhotoAccounted(q: seq<Expense>, a: Answers, pending: seq<Receipt>, i: nat, stage: Stage, j: nat)
    requires i < |q| && j <= i
  {
    var left := AtCrash(q, a, pending, i, stage);
    || |q| - |left.queue| <= j
    || ReceiptFor(q[j], a.ids(j)) in left.pending
    || ((j < i || stage.UploadAnswered? || stage.Recorded?) && a.ups(j) != Unreachable)
  }

  lemma {:induction false} EarlierPending(q: seq<Expense>, a: Answers, pending: seq<Receipt>, k: nat, j: nat)
    requires FreshIds(q, a, pending, k) && j < k && PhotoSent(q, a, j) && a.ups(j) == Unreachable
    ensures ReceiptFor(q[j], a.ids(j)) in PendingAfter(q, a, pending, k)
  {
    if j < k - 1 { EarlierPending(q, a, pending, k - 1, j); }
  }

  /** A crash loses a photo exactly in one window: between the write of the shortened queue and the write of the
      pending list, for the item being handled, unless its upload has been finally answered by then. */
  lemma CrashLosesPhotoIff(q: seq<Expense>, a: Answers, pending: seq<Receipt>, i: nat, stage: Stage, j: nat)
    requires i < |q| && FreshIds(q, a, pending, i + 1) && j <= i && PhotoSent(q, a, j)
    ensures !PhotoAccounted(q, a, pending, i, stage, j) <==>
      j == i && (stage.Shifted? || (stage.UploadAnswered? && a.ups(i) == Unreachable))
  {
    if j < i {
      EarlierPhotoAccounted(q, a, pending, i, stage, j);
    } else {
      CurrentPhoto(q, a, pending, i);
      assert ReceiptFor(q[i], a.ids(i)) in AtCrash(q, a, pending, i, stage).pending
        <==> stage.Recorded? && a.ups(i) == Unreachable;
    }
  }

  lemma CurrentPhoto(q: seq<Expense>, a: Answers, pending: seq<Receipt>, i: nat)
    requires i < |q| && FreshIds(q, a, pending, i + 1) && PhotoSent(q, a, i)
    ensures ReceiptFor(q[i], a.ids(i)) !in PendingAfter(q, a, pending, i)
    ensures ReceiptFor(q[i], a.ids(i)) in PendingAfter(q, a, pending, i + 1) <==> a.ups(i) == Unreachable
  {
    FreshNotPending(q, a, pending, i);
  }

  lemma EarlierPhotoAccounted(q: seq<Expense>, a: Answers, pending: seq<Receipt>, i: nat, stage: Stage, j: nat)
    requires i < |q| && FreshIds(q, a, pending, i + 1) && j < i && PhotoSent(q, a, j)
    ensures PhotoAccounted(q, a, pending, i, stage, j)
  {
    if a.ups(j) == Unreachable {
      EarlierPending(q, a, pending, i, j);
      EarlierPending(q, a, pending, i + 1, j);
    }
  }

  /** The crash points of an item with a photo see just the states its writes leave behind. */
  lemma CrashSeesWrites(q: seq<Expense>, a: Answers, pending: seq<Receipt>, i: nat)
    requires i < |q| && PhotoSent(q, a, i)
    ensures WritesOf(q, a, pending, i) == [AtCrash(q, a, pending, i, Shifted), AtCrash(q, a, pending, i, Recorded)]
    ensures AtCrash(q, a, pending, i, UploadAnswered) == AtCrash(q, a, pending, i, Shifted)
  {
  }
}
