/** `getDailyCollectionStatus` once its queries have answered. Amounts are exact decimals. */
module DailyCollection {
  import opened Api

  datatype PaymentStatus = Pending | Completed | Failed

  datatype Payment = Payment(assignmentId: string, amount: real, status: PaymentStatus)

  datatype Assignment = Assignment(id: string, motorcycleId: string, targetAmount: real)

  /** One row of the `groupBy`; the sum of no amounts is null. */
  datatype Group = Group(assignmentId: string, sum: Option<real>)

  datatype OutstandingRow = OutstandingRow(assignmentId: string, motorcycleId: string, targetAmount: real,
                                           paidAmount: real, balance: real)

  datatype Collection = Collection(dueToday: real, receivedToday: real, outstandingRows: seq<OutstandingRow>)

  /** What has been paid for an assignment: its COMPLETED payments. */
  function PaidFor(payments: seq<Payment>, id: string): real {
    if payments == [] then 0.0
    else
      (if payments[0].assignmentId == id && payments[0].status == Completed then payments[0].amount else 0.0)
      + PaidFor(payments[1..], id)
  }

  predicate HasCompleted(payments: seq<Payment>, id: string) {
    exists i :: 0 <= i < |payments| && payments[i].assignmentId == id && payments[i].status == Completed
  }

  /** What the grouped query answers: one row for each of the assignments with a COMPLETED payment, with its sum. */
  ghost predicate IsGrouped(groups: seq<Group>, payments: seq<Payment>, ids: set<string>) {
    && (forall i, j | 0 <= i < j < |groups| :: groups[i].assignmentId != groups[j].assignmentId)
    && (forall i | 0 <= i < |groups| ::
          groups[i].assignmentId in ids && groups[i].sum == Some(PaidFor(payments, groups[i].assignmentId)))
    && (forall id | id in ids && HasCompleted(payments, id) ::
          exists i :: 0 <= i < |groups| && groups[i].assignmentId == id)
  }

  /** `new Map(groups.map(...))` */
  function PaidById(groups: seq<Group>): map<string, Option<real>>
    decreases |groups|
  {
    if groups == [] then map[]
    else PaidById(groups[..|groups| - 1])[groups[|groups| - 1].assignmentId := groups[|groups| - 1].sum]
  }

  /** `paidById.get(id) ?? 0` */
  function PaidOf(paidById: map<string, Option<real>>, id: string): real {
    if id in paidById && paidById[id].Some? then paidById[id].value else 0.0
  }

  lemma {:induction false} NothingPaid(payments: seq<Payment>, id: string)
    requires !HasCompleted(payments, id)
    ensures PaidFor(payments, id) == 0.0
  {
    if payments != [] {
      NothingPaid(payments[1..], id);
    }
  }

  lemma {:induction false} LookupGroup(groups: seq<Group>, id: string)
    requires forall i, j | 0 <= i < j < |groups| :: groups[i].assignmentId != groups[j].assignmentId
    ensures id in PaidById(groups) <==> exists i :: 0 <= i < |groups| && groups[i].assignmentId == id
    ensures forall i | 0 <= i < |groups| && groups[i].assignmentId == id :: id in PaidById(groups) && PaidById(groups)[id] == groups[i].sum
    decreases |groups|
  {
    if groups != [] { LookupGroup(groups[..|groups| - 1], id); }
  }

  /** The looked-up amount is the sum of the assignment's COMPLETED payments. */
  lemma LookupAgrees(groups: seq<Group>, payments: seq<Payment>, ids: set<string>, id: string)
    requires IsGrouped(groups, payments, ids) && id in ids
    ensures PaidOf(PaidById(groups), id) == PaidFor(payments, id)
  {
    LookupGroup(groups, id);
    if id !in PaidById(groups) { NothingPaid(payments, id); }
  }

  function IdsOf(assignments: seq<Assignment>): set<string> {
    set i | 0 <= i < |assignments| :: assignments[i].id
  }

  function Due(assignments: seq<Assignment>): real
    decreases |assignments|
  {
    if assignments == [] then 0.0
    else Due(assignments[..|assignments| - 1]) + assignments[|assignments| - 1].targetAmount
  }

  predicate Owing(a: Assignment, payments: seq<Payment>) {
    a.targetAmount > PaidFor(payments, a.id)
  }

  function RowOf(a: Assignment, payments: seq<Payment>): OutstandingRow {
    var paid := PaidFor(payments, a.id);
    OutstandingRow(a.id, a.motorcycleId, a.targetAmount, paid, a.targetAmount - paid)
  }

  /** The rows an independent reading gives: the assignments with more owed than paid, in order. */
  function Outstanding(assignments: seq<Assignment>, payments: seq<Payment>): seq<OutstandingRow>
    decreases |assignments|
  {
    if assignments == [] then []
    else
      var a := assignments[|assignments| - 1];
      Outstanding(assignments[..|assignments| - 1], payments) + (if Owing(a, payments) then [RowOf(a, payments)] else [])
  }

  method SumTargets(assignments: seq<Assignment>) returns (dueToday: real)
    ensures dueToday == Due(assignments)
  {
    dueToday := 0.0;
    for i := 0 to |assignments|
      invariant dueToday == Due(assignments[..i])
    {
      dueToday := dueToday + assignments[i].targetAmount;
      assert assignments[..i + 1][..i] == assignments[..i];
    }
    assert assignments[..|assignments|] == assignments;
  }

  method ListOutstanding(assignments: seq<Assignment>, paidById: map<string, Option<real>>, ghost payments: seq<Payment>)
    returns (rows: seq<OutstandingRow>)
    requires forall i | 0 <= i < |assignments| :: PaidOf(paidById, assignments[i].id) == PaidFor(payments, assignments[i].id)
    ensures rows == Outstanding(assignments, payments)
  {
    rows := [];
    for i := 0 to |assignments|
      invariant rows == Outstanding(assignments[..i], payments)
    {
      var a := assignments[i];
      var paid := PaidOf(paidById, a.id);
      var balance := a.targetAmount - paid;
      if balance > 0.0 {
        rows := rows + [OutstandingRow(a.id, a.motorcycleId, a.targetAmount, paid, balance)];
      }
      assert assignments[..i + 1][..i] == assignments[..i];
    }
    assert assignments[..|assignments|] == assignments;
  }

  /** `collected` is the day's aggregate and `groups` what the grouped query answers; with no assignments the latter is
      not asked. */
  method GetDailyCollectionStatus(assignments: seq<Assignment>, collected: Option<real>, groups: seq<Group>,
                                  ghost payments: seq<Payment>)
    returns (status: Collection)
    requires IsGrouped(groups, payments, IdsOf(assignments))
    ensures status.dueToday == Due(assignments)
    ensures status.receivedToday == match collected case Some(sum) => sum case None => 0.0
    ensures status.outstandingRows == Outstanding(assignments, payments)
  {
    var dueToday := SumTargets(assignments);
    var paidById := PaidById(if |assignments| > 0 then groups else []);
    forall i | 0 <= i < |assignments| ensures PaidOf(paidById, assignments[i].id) == PaidFor(payments, assignments[i].id) {
      LookupAgrees(groups, payments, IdsOf(assignments), assignments[i].id);
    }
    var rows := ListOutstanding(assignments, paidById, payments);
    status := Collection(dueToday, if collected.Some? then collected.value else 0.0, rows);
  }

  // ---- The three figures agree -----------------------------------------------------------------------

  function Min(a: real, b: real): real {
    if a < b then a else b
  }

  function Covered(assignments: seq<Assignment>, payments: seq<Payment>): real
    decreases |assignments|
  {
    if assignments == [] then 0.0
    else
      var a := assignments[|assignments| - 1];
      Covered(assignments[..|assignments| - 1], payments) + Min(a.targetAmount, PaidFor(payments, a.id))
  }

  function Balances(rows: seq<OutstandingRow>): real
    decreases |rows|
  {
    if rows == [] then 0.0 else Balances(rows[..|rows| - 1]) + rows[|rows| - 1].balance
  }

  lemma BalancesMore(rows: seq<OutstandingRow>, row: OutstandingRow)
    ensures Balances(rows + [row]) == Balances(rows) + row.balance
  {
    assert (rows + [row])[..|rows|] == rows;
  }

  /** What is due today is what is covered, overpayments not counted, plus what is still outstanding. */
  lemma {:induction false} DueIsCoveredPlusOutstanding(assignments: seq<Assignment>, payments: seq<Payment>)
    ensures Due(assignments) == Covered(assignments, payments) + Balances(Outstanding(assignments, payments))
    decreases |assignments|
  {
    if assignments != [] {
      var init, a := assignments[..|assignments| - 1], assignments[|assignments| - 1];
      DueIsCoveredPlusOutstanding(init, payments);
      if Owing(a, payments) {
        BalancesMore(Outstanding(init, payments), RowOf(a, payments));
      } else {
        assert Outstanding(assignments, payments) == Outstanding(init, payments);
      }
    }
  }

  /** Where an assignment stands among the others does not matter to what is due, and it adds its target. */
  lemma {:induction false} DueCountsEach(before: seq<Assignment>, a: Assignment, after: seq<Assignment>)
    ensures Due([]) == 0.0 && Due(before + [a] + after) == Due(before + after) + a.targetAmount
    decreases |after|
  {
    var all := before + [a] + after;
    if after == [] {
      assert all[..|all| - 1] == before && before + after == before;
    } else {
      var n := |after| - 1;
      DueCountsEach(before, a, after[..n]);
      assert all[..|all| - 1] == before + [a] + after[..n];
      assert (before + after)[..|before + after| - 1] == before + after[..n];
    }
  }

  /** A payment adds its amount to what was paid for an assignment exactly if it is COMPLETED and for that assignment. */
  lemma {:induction false} PaidCountsEach(before: seq<Payment>, p: Payment, after: seq<Payment>, id: string)
    ensures PaidFor([], id) == 0.0
    ensures PaidFor(before + [p] + after, id)
      == PaidFor(before + after, id) + (if p.status == Completed && p.assignmentId == id then p.amount else 0.0)
  {
    var all := before + [p] + after;
    if before == [] {
      assert all[1..] == after && before + after == after;
    } else {
      PaidCountsEach(before[1..], p, after, id);
      assert all[1..] == before[1..] + [p] + after;
      assert (before + after)[1..] == before[1..] + after;
    }
  }

  /** Row k is for the assignment at[k], in the order of the assignments. */
  ghost predicate ListedAt(rows: seq<OutstandingRow>, assignments: seq<Assignment>, at: seq<nat>) {
    && |at| == |rows| && (forall j, k | 0 <= j < k < |at| :: at[j] < at[k])
    && (forall k | 0 <= k < |at| :: at[k] < |assignments|
          && rows[k].assignmentId == assignments[at[k]].id && rows[k].motorcycleId == assignments[at[k]].motorcycleId)
  }

  lemma ListedMore(rows: seq<OutstandingRow>, assignments: seq<Assignment>, at: seq<nat>, a: Assignment)
    requires ListedAt(rows, assignments, at)
    ensures ListedAt(rows, assignments + [a], at)
    ensures forall row: OutstandingRow | row.assignmentId == a.id && row.motorcycleId == a.motorcycleId ::
      ListedAt(rows + [row], assignments + [a], at + [|assignments|])
  {
  }

  /** The positions are those of the assignments with more owed than paid. */
  ghost predicate OwingAt(assignments: seq<Assignment>, payments: seq<Payment>, at: seq<nat>) {
    forall i | 0 <= i < |assignments| :: i in at <==> Owing(assignments[i], payments)
  }

  lemma OwingMore(assignments: seq<Assignment>, payments: seq<Payment>, at: seq<nat>, a: Assignment)
    requires OwingAt(assignments, payments, at) && forall k | 0 <= k < |at| :: at[k] < |assignments|
    ensures OwingAt(assignments + [a], payments, if Owing(a, payments) then at + [|assignments|] else at)
  {
    var n := |assignments|;
    var at' := if Owing(a, payments) then at + [n] else at;
    assert n !in at;
    forall i | 0 <= i < n ensures i in at' <==> i in at {}
  }

  /** The rows are those of the assignments with more owed than paid, one each, in the order of the assignments. */
  lemma {:induction false} OutstandingInOrder(assignments: seq<Assignment>, payments: seq<Payment>) returns (at: seq<nat>)
    ensures ListedAt(Outstanding(assignments, payments), assignments, at) && OwingAt(assignments, payments, at)
    decreases |assignments|
  {
    if assignments == [] { return []; }
    var n := |assignments| - 1;
    var init, a := assignments[..n], assignments[n];
    at := OutstandingInOrder(init, payments);
    assert init + [a] == assignments;
    ListedMore(Outstanding(init, payments), init, at, a);
    OwingMore(init, payments, at, a);
    if Owing(a, payments) {
      at := at + [n];
    } else {
      assert Outstanding(assignments, payments) == Outstanding(init, payments);
    }
  }

  lemma {:induction false} ListedIff(assignments: seq<Assignment>, payments: seq<Payment>, row: OutstandingRow)
    ensures row in Outstanding(assignments, payments) <==>
      exists i :: 0 <= i < |assignments| && Owing(assignments[i], payments) && row == RowOf(assignments[i], payments)
    decreases |assignments|
  {
    if assignments != [] {
      var n := |assignments| - 1;
      ListedIff(assignments[..n], payments, row);
      assert forall i | 0 <= i < n :: assignments[..n][i] == assignments[i];
    }
  }

  /** What a row says of its assignment: what is owed, what was paid and what is left, which is more than nothing. */
  predicate Describes(row: OutstandingRow, a: Assignment, payments: seq<Payment>) {
    && row.assignmentId == a.id && row.motorcycleId == a.motorcycleId && row.targetAmount == a.targetAmount
    && row.paidAmount == PaidFor(payments, row.assignmentId)
    && row.balance == row.targetAmount - row.paidAmount && row.balance > 0.0
  }

  lemma RowDescribes(row: OutstandingRow, a: Assignment, payments: seq<Payment>)
    ensures Describes(row, a, payments) <==> Owing(a, payments) && row == RowOf(a, payments)
  {
  }

  /** A row is listed exactly for an assignment with more owed than paid, and it lists what is owed, paid and left. */
  lemma OutstandingIff(assignments: seq<Assignment>, payments: seq<Payment>, row: OutstandingRow)
    ensures row in Outstanding(assignments, payments) <==>
      exists i :: 0 <= i < |assignments| && Describes(row, assignments[i], payments)
  {
    ListedIff(assignments, payments, row);
    forall i | 0 <= i < |assignments|
      ensures Describes(row, assignments[i], payments)
        <==> Owing(assignments[i], payments) && row == RowOf(assignments[i], payments)
    {
      RowDescribes(row, assignments[i], payments);
    }
  }
}
