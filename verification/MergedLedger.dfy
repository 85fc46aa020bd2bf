/** `primaryExcusalForDate` and `buildMergedRows`: the ledger of an ownership plan merged with its day excusals. */
module MergedLedger {
  import opened Api

  datatype Status = Requested | Approved | Declined

  datatype Excusal = Excusal(id: string, excusedDate: string, status: Status, createdAt: string)

  /** `localeCompare`, as the place of each text in the locale's order; texts it takes for equal share a place. */
  type Collation = string -> real

  datatype LedgerRow = LedgerRow(assignedDate: string, owed: real, paid: real)

  datatype Row = Row(date: string, ledger: Option<LedgerRow>, excusal: Option<Excusal>)

  /** `slice(0, 10)` */
  function Day(iso: string): string {
    if |iso| <= 10 then iso else iso[..10]
  }

  /** The first ten characters, or all of a shorter text. */
  lemma DayIsDatePart(date: string, rest: string)
    requires |date| <= 10 && (|date| == 10 || rest == "")
    ensures Day(date + rest) == date
  {
    assert date + "" == date;
  }

  // ---- The order of dates --------------------------------------------------------------------------

  /** JavaScript's default order of strings. */
  predicate Before(a: string, b: string) {
    b != "" && (a == "" || a[0] < b[0] || (a[0] == b[0] && Before(a[1..], b[1..])))
  }

  lemma {:induction false} BeforeIsStrict(a: string, b: string)
    ensures !(Before(a, b) && Before(b, a))
    ensures Before(a, b) ==> a != b
  {
    if a != "" && b != "" { BeforeIsStrict(a[1..], b[1..]); }
  }

  lemma {:induction false} BeforeIsTotal(a: string, b: string)
    ensures a == b || Before(a, b) || Before(b, a)
  {
    if a != "" && b != "" && a[0] == b[0] {
      BeforeIsTotal(a[1..], b[1..]);
      assert a == [a[0]] + a[1..] && b == [b[0]] + b[1..];
    }
  }

  lemma {:induction false} BeforeIsTransitive(a: string, b: string, c: string)
    requires Before(a, b) && Before(b, c)
    ensures Before(a, c)
  {
    if a != "" && a[0] == b[0] == c[0] { BeforeIsTransitive(a[1..], b[1..], c[1..]); }
  }

  /** a and b agree up to k, where b goes on and a ends or has a smaller character. */
  predicate SmallerAt(a: string, b: string, k: nat) {
    k <= |a| && k < |b| && a[..k] == b[..k] && (k == |a| || a[k] < b[k])
  }

  lemma SmallerLater(a: string, b: string, k: nat)
    requires a != "" && b != ""
    ensures SmallerAt(a, b, k + 1) <==> a[0] == b[0] && SmallerAt(a[1..], b[1..], k)
  {
    if k + 1 <= |a| && k + 1 <= |b| {
      assert a[..k + 1] == [a[0]] + a[1..][..k] && b[..k + 1] == [b[0]] + b[1..][..k];
    }
  }

  /** a comes before b exactly if b continues a, or has the greater character where they first differ. */
  lemma {:induction false} BeforeIff(a: string, b: string)
    ensures Before(a, b) <==> exists k: nat :: SmallerAt(a, b, k)
  {
    if a == "" || b == "" {
      assert b != "" ==> SmallerAt(a, b, 0);
    } else {
      BeforeIff(a[1..], b[1..]);
      if k: nat :| SmallerAt(a, b, k) {
        if k > 0 { SmallerLater(a, b, k - 1); }
      }
      if a[0] == b[0] && Before(a[1..], b[1..]) {
        var k: nat :| SmallerAt(a[1..], b[1..], k);
        SmallerLater(a, b, k);
      }
      assert a[0] < b[0] ==> SmallerAt(a, b, 0);
    }
  }

  ghost predicate Sorted(s: seq<string>) {
    forall i, j | 0 <= i < j < |s| :: Before(s[i], s[j])
  }

  /** `[...dates].sort()` on a set: insertion in order. */
  method SortDates(dates: set<string>) returns (s: seq<string>)
    ensures Sorted(s) && (forall d :: d in s <==> d in dates)
  {
    s := [];
    var rest := dates;
    while rest != {}
      invariant rest <= dates && Sorted(s)
      invariant forall d :: d in s <==> d in dates && d !in rest
      decreases rest
    {
      var d :| d in rest;
      s := Insert(s, d);
      rest := rest - {d};
    }
  }

  method Insert(s: seq<string>, d: string) returns (r: seq<string>)
    requires Sorted(s) && d !in s
    ensures Sorted(r) && (forall x :: x in r <==> x in s || x == d)
  {
    var i := 0;
    while i < |s| && Before(s[i], d)
      invariant i <= |s| && forall j | 0 <= j < i :: Before(s[j], d)
    {
      i := i + 1;
    }
    r := s[..i] + [d] + s[i..];
    forall j | i <= j < |s| ensures Before(d, s[j]) {
      BeforeIsTotal(s[i], d);
      if j > i { BeforeIsTransitive(d, s[i], s[j]); }
    }
  }

  // ---- The excusal of a date -----------------------------------------------------------------------

  function ForDate(excusals: seq<Excusal>, date: string): (r: seq<Excusal>)
    ensures forall e :: e in r <==> e in excusals && Day(e.excusedDate) == date
  {
    if excusals == [] then []
    else (if Day(excusals[0].excusedDate) == date then [excusals[0]] else []) + ForDate(excusals[1..], date)
  }

  /** Where `find` stops: at the first approved excusal, or past the end. */
  function FirstApproved(excusals: seq<Excusal>): (k: nat)
    ensures k <= |excusals| && (k < |excusals| ==> excusals[k].status == Approved)
    ensures forall i | 0 <= i < k :: excusals[i].status != Approved
  {
    if excusals == [] || excusals[0].status == Approved then 0
    else
      var k := FirstApproved(excusals[1..]);
      assert forall i | 0 < i < 1 + k :: excusals[i] == excusals[1..][i - 1];
      1 + k
  }

  /** The head after a stable sort by descending `createdAt`: of the newest, the first. */
  function Newest(excusals: seq<Excusal>, place: Collation): (k: nat)
    requires excusals != []
    ensures k < |excusals|
    ensures forall i | 0 <= i < |excusals| :: place(excusals[i].createdAt) <= place(excusals[k].createdAt)
    ensures forall i | 0 <= i < k :: place(excusals[i].createdAt) < place(excusals[k].createdAt)
    decreases |excusals|
  {
    var n := |excusals| - 1;
    if n == 0 then 0
    else
      var best := Newest(excusals[..n], place);
      if place(excusals[best].createdAt) < place(excusals[n].createdAt) then n else best
  }

  function PrimaryExcusalForDate(excusals: seq<Excusal>, date: string, place: Collation): Option<Excusal> {
    var forDate := ForDate(excusals, date);
    if forDate == [] then None
    else
      var k := FirstApproved(forDate);
      Some(forDate[if k < |forDate| then k else Newest(forDate, place)])
  }

  /** A date shows an excusal iff it has one: an approved one if there is any, else one created last, as the locale
      orders `createdAt`. */
  lemma PrimaryExcusalIsInEffect(excusals: seq<Excusal>, date: string, place: Collation)
    ensures var r := PrimaryExcusalForDate(excusals, date, place);
      && (r.None? <==> forall e | e in excusals :: Day(e.excusedDate) != date)
      && (r.Some? ==>
            && r.value in excusals && Day(r.value.excusedDate) == date
            && (r.value.status == Approved <==>
                  exists e :: e in excusals && Day(e.excusedDate) == date && e.status == Approved)
            && (r.value.status != Approved ==>
                  forall e | e in excusals && Day(e.excusedDate) == date :: place(e.createdAt) <= place(r.value.createdAt)))
  {
    var forDate := ForDate(excusals, date);
    if forDate != [] {
      assert forDate[0] in excusals;
      assert forDate[Newest(forDate, place)] in forDate;
      if FirstApproved(forDate) < |forDate| { assert forDate[FirstApproved(forDate)] in forDate; }
    }
  }

  /** Item k of the date's excusals is excusal i, and those of the date before i come before k. */
  ghost predicate FoundAt(excusals: seq<Excusal>, date: string, k: nat, i: nat) {
    && k < |ForDate(excusals, date)| && i < |excusals| && excusals[i] == ForDate(excusals, date)[k]
    && forall j | 0 <= j < i && Day(excusals[j].excusedDate) == date ::
         exists m :: 0 <= m < k && ForDate(excusals, date)[m] == excusals[j]
  }

  lemma FoundAfterHead(excusals: seq<Excusal>, date: string, k: nat, i: nat)
    requires excusals != [] && Day(excusals[0].excusedDate) == date && FoundAt(excusals[1..], date, k, i)
    ensures FoundAt(excusals, date, k + 1, i + 1)
  {
    var rest := ForDate(excusals[1..], date);
    assert ForDate(excusals, date) == [excusals[0]] + rest;
    forall j | 0 <= j < i + 1 && Day(excusals[j].excusedDate) == date
      ensures exists m :: 0 <= m < k + 1 && ForDate(excusals, date)[m] == excusals[j]
    {
      if j == 0 {
        assert ForDate(excusals, date)[0] == excusals[0];
      } else {
        assert excusals[1..][j - 1] == excusals[j];
        var m :| 0 <= m < k && rest[m] == excusals[1..][j - 1];
        assert ForDate(excusals, date)[m + 1] == excusals[j];
      }
    }
  }

  lemma FoundPastHead(excusals: seq<Excusal>, date: string, k: nat, i: nat)
    requires excusals != [] && Day(excusals[0].excusedDate) != date && FoundAt(excusals[1..], date, k, i)
    ensures FoundAt(excusals, date, k, i + 1)
  {
    assert ForDate(excusals, date) == ForDate(excusals[1..], date);
    forall j | 0 <= j < i + 1 && Day(excusals[j].excusedDate) == date
      ensures exists m :: 0 <= m < k && ForDate(excusals, date)[m] == excusals[j]
    {
      assert excusals[1..][j - 1] == excusals[j];
    }
  }

  lemma {:induction false} ForDateIndex(excusals: seq<Excusal>, date: string, k: nat) returns (i: nat)
    requires k < |ForDate(excusals, date)|
    ensures FoundAt(excusals, date, k, i)
  {
    if Day(excusals[0].excusedDate) != date {
      i := ForDateIndex(excusals[1..], date, k);
      FoundPastHead(excusals, date, k, i);
      i := i + 1;
    } else if k == 0 {
      return 0;
    } else {
      i := ForDateIndex(excusals[1..], date, k - 1);
      FoundAfterHead(excusals, date, k - 1, i);
      i := i + 1;
    }
  }

  /** Excusal i is the first of its date that `place` puts so late, or the first approved one. */
  ghost predicate FirstOfItsKind(excusals: seq<Excusal>, date: string, place: Collation, i: nat) {
    i < |excusals|
    && forall j | 0 <= j < i && Day(excusals[j].excusedDate) == date ::
         if excusals[i].status == Approved then excusals[j].status != Approved
         else place(excusals[j].createdAt) < place(excusals[i].createdAt)
  }

  /** Among equals it is the first listed: no approved one comes before an approved one, and none created as late before
      one that is not approved. */
  lemma PrimaryExcusalIsFirst(excusals: seq<Excusal>, date: string, place: Collation)
    ensures var r := PrimaryExcusalForDate(excusals, date, place);
      r.Some? ==> exists i :: 0 <= i < |excusals| && excusals[i] == r.value && FirstOfItsKind(excusals, date, place, i)
  {
    var forDate := ForDate(excusals, date);
    if forDate != [] {
      var first := FirstApproved(forDate);
      var k := if first < |forDate| then first else Newest(forDate, place);
      var i := ForDateIndex(excusals, date, k);
      assert FirstOfItsKind(excusals, date, place, i);
    }
  }

  // ---- The merge -----------------------------------------------------------------------------------

  function LedgerFor(ledger: seq<LedgerRow>, date: string): (r: Option<LedgerRow>)
    ensures r.None? <==> forall x | x in ledger :: Day(x.assignedDate) != date
    ensures r.Some? ==> r.value in ledger && Day(r.value.assignedDate) == date
  {
    if ledger == [] then None
    else if Day(ledger[0].assignedDate) == date then Some(ledger[0])
    else LedgerFor(ledger[1..], date)
  }

  function RowFor(ledger: seq<LedgerRow>, excusals: seq<Excusal>, date: string, place: Collation): Row {
    Row(date, LedgerFor(ledger, date), PrimaryExcusalForDate(excusals, date, place))
  }

  predicate HasDate(ledger: seq<LedgerRow>, excusals: seq<Excusal>, date: string) {
    (exists x :: x in ledger && Day(x.assignedDate) == date) || (exists e :: e in excusals && Day(e.excusedDate) == date)
  }

  /** A full outer join: one row for each date either side has, in strictly increasing order. */
  ghost predicate IsMerge(rows: seq<Row>, ledger: seq<LedgerRow>, excusals: seq<Excusal>, place: Collation) {
    && (forall i, j | 0 <= i < j < |rows| :: Before(rows[i].date, rows[j].date))
    && (forall date :: (exists i :: 0 <= i < |rows| && rows[i].date == date) <==> HasDate(ledger, excusals, date))
    && (forall i | 0 <= i < |rows| :: rows[i] == RowFor(ledger, excusals, rows[i].date, place))
  }

  method BuildMergedRows(ledger: seq<LedgerRow>, excusals: seq<Excusal>, place: Collation) returns (rows: seq<Row>)
    ensures IsMerge(rows, ledger, excusals, place)
  {
    var dates: set<string> := {};
    for i := 0 to |ledger|
      invariant forall d :: d in dates <==> exists k :: 0 <= k < i && Day(ledger[k].assignedDate) == d
    {
      dates := dates + {Day(ledger[i].assignedDate)};
    }
    ghost var fromLedger := dates;
    for i := 0 to |excusals|
      invariant forall d :: d in dates <==> d in fromLedger || exists k :: 0 <= k < i && Day(excusals[k].excusedDate) == d
    {
      dates := dates + {Day(excusals[i].excusedDate)};
    }
    var sorted := SortDates(dates);
    rows := seq(|sorted|, i requires 0 <= i < |sorted| => RowFor(ledger, excusals, sorted[i], place));
    forall date ensures (exists i :: 0 <= i < |rows| && rows[i].date == date) <==> HasDate(ledger, excusals, date) {
      if date in sorted {
        var k :| 0 <= k < |sorted| && sorted[k] == date;
        assert rows[k].date == date;
      }
    }
  }

  /** No row is empty. */
  lemma EveryRowHasContent(rows: seq<Row>, ledger: seq<LedgerRow>, excusals: seq<Excusal>, place: Collation, i: nat)
    requires IsMerge(rows, ledger, excusals, place) && i < |rows|
    ensures rows[i].ledger.Some? || rows[i].excusal.Some?
  {
    assert HasDate(ledger, excusals, rows[i].date);
    PrimaryExcusalIsInEffect(excusals, rows[i].date, place);
  }

  // ---- Totals --------------------------------------------------------------------------------------

  function Total(ledger: seq<LedgerRow>, amount: LedgerRow -> real): real
    decreases |ledger|
  {
    if ledger == [] then 0.0 else Total(ledger[..|ledger| - 1], amount) + amount(ledger[|ledger| - 1])
  }

  predicate HasDay(ledger: seq<LedgerRow>, date: string) {
    exists i :: 0 <= i < |ledger| && Day(ledger[i].assignedDate) == date
  }

  /** The total of the rows whose day an earlier row already has. */
  function Repeated(ledger: seq<LedgerRow>, amount: LedgerRow -> real): real
    decreases |ledger|
  {
    if ledger == [] then 0.0
    else
      var init, last := ledger[..|ledger| - 1], ledger[|ledger| - 1];
      Repeated(init, amount) + (if HasDay(init, Day(last.assignedDate)) then amount(last) else 0.0)
  }

  function Shown(ledger: seq<LedgerRow>, amount: LedgerRow -> real, date: string): real {
    var row := LedgerFor(ledger, date);
    if row.Some? then amount(row.value) else 0.0
  }

  function ShownOver(ledger: seq<LedgerRow>, amount: LedgerRow -> real, dates: seq<string>): real
    decreases |dates|
  {
    if dates == [] then 0.0
    else ShownOver(ledger, amount, dates[..|dates| - 1]) + Shown(ledger, amount, dates[|dates| - 1])
  }

  /** The total the merged rows show. */
  function TotalShown(rows: seq<Row>, amount: LedgerRow -> real): real
    decreases |rows|
  {
    if rows == [] then 0.0
    else
      var row := rows[|rows| - 1].ledger;
      TotalShown(rows[..|rows| - 1], amount) + (if row.Some? then amount(row.value) else 0.0)
  }

  lemma HasDayTail(ledger: seq<LedgerRow>, date: string)
    requires ledger != []
    ensures HasDay(ledger, date) <==> Day(ledger[0].assignedDate) == date || HasDay(ledger[1..], date)
  {
    if HasDay(ledger[1..], date) {
      var i :| 0 <= i < |ledger[1..]| && Day(ledger[1..][i].assignedDate) == date;
      assert Day(ledger[i + 1].assignedDate) == date;
    }
    if HasDay(ledger, date) && Day(ledger[0].assignedDate) != date {
      var i :| 0 <= i < |ledger| && Day(ledger[i].assignedDate) == date;
      assert Day(ledger[1..][i - 1].assignedDate) == date;
    }
  }

  lemma {:induction false} LedgerForLast(ledger: seq<LedgerRow>, last: LedgerRow, date: string)
    ensures LedgerFor(ledger + [last], date) ==
      if HasDay(ledger, date) then LedgerFor(ledger, date)
      else if Day(last.assignedDate) == date then Some(last) else None
  {
    if ledger == [] {
      assert ledger + [last] == [last];
    } else {
      assert (ledger + [last])[1..] == ledger[1..] + [last];
      HasDayTail(ledger, date);
      LedgerForLast(ledger[1..], last, date);
    }
  }

  /** One more ledger row changes what distinct dates show by its amount, on its own date, if that date is new. */
  lemma {:induction false} ShownWithLast(ledger: seq<LedgerRow>, last: LedgerRow, amount: LedgerRow -> real, dates: seq<string>)
    requires forall i, j | 0 <= i < j < |dates| :: dates[i] != dates[j]
    ensures ShownOver(ledger + [last], amount, dates) == ShownOver(ledger, amount, dates)
      + (if Day(last.assignedDate) in dates && !HasDay(ledger, Day(last.assignedDate)) then amount(last) else 0.0)
    decreases |dates|
  {
    if dates != [] {
      var n := |dates| - 1;
      ShownWithLast(ledger, last, amount, dates[..n]);
      LedgerForLast(ledger, last, dates[n]);
      NoDayNoRow(ledger, dates[n]);
    }
  }

  lemma NoDayNoRow(ledger: seq<LedgerRow>, date: string)
    ensures LedgerFor(ledger, date).Some? <==> HasDay(ledger, date)
  {
  }

  lemma {:induction false} ShownIsTotalWithoutRepeats(ledger: seq<LedgerRow>, amount: LedgerRow -> real, dates: seq<string>)
    requires forall i, j | 0 <= i < j < |dates| :: dates[i] != dates[j]
    requires forall x | x in ledger :: Day(x.assignedDate) in dates
    ensures ShownOver(ledger, amount, dates) == Total(ledger, amount) - Repeated(ledger, amount)
    decreases |ledger|
  {
    if ledger == [] {
      NothingShown(amount, dates);
    } else {
      var init, last := ledger[..|ledger| - 1], ledger[|ledger| - 1];
      assert init + [last] == ledger && last in ledger && forall x | x in init :: x in ledger;
      ShownIsTotalWithoutRepeats(init, amount, dates);
      ShownWithLast(init, last, amount, dates);
    }
  }

  lemma {:induction false} NothingShown(amount: LedgerRow -> real, dates: seq<string>)
    ensures ShownOver([], amount, dates) == 0.0
    decreases |dates|
  {
    if dates != [] { NothingShown(amount, dates[..|dates| - 1]); }
  }

  lemma {:induction false} TotalShownOver(rows: seq<Row>, ledger: seq<LedgerRow>, amount: LedgerRow -> real, dates: seq<string>)
    requires |dates| == |rows|
    requires forall i | 0 <= i < |rows| :: rows[i].date == dates[i] && rows[i].ledger == LedgerFor(ledger, dates[i])
    ensures TotalShown(rows, amount) == ShownOver(ledger, amount, dates)
    decreases |rows|
  {
    if rows != [] { TotalShownOver(rows[..|rows| - 1], ledger, amount, dates[..|rows| - 1]); }
  }

  /** The merged rows show the whole ledger's total of any amount, owed or paid, exactly when the rows that repeat an
      earlier row's day sum to nothing; what is missing is just that sum. */
  lemma TotalConservedIff(rows: seq<Row>, ledger: seq<LedgerRow>, excusals: seq<Excusal>, place: Collation,
                         amount: LedgerRow -> real)
    requires IsMerge(rows, ledger, excusals, place)
    ensures TotalShown(rows, amount) == Total(ledger, amount) - Repeated(ledger, amount)
    ensures TotalShown(rows, amount) == Total(ledger, amount) <==> Repeated(ledger, amount) == 0.0
  {
    var dates := seq(|rows|, i requires 0 <= i < |rows| => rows[i].date);
    forall i, j | 0 <= i < j < |dates| ensures dates[i] != dates[j] { BeforeIsStrict(rows[i].date, rows[j].date); }
    forall x | x in ledger ensures Day(x.assignedDate) in dates {
      assert HasDate(ledger, excusals, Day(x.assignedDate));
      var i :| 0 <= i < |rows| && rows[i].date == Day(x.assignedDate);
      assert dates[i] == Day(x.assignedDate);
    }
    TotalShownOver(rows, ledger, amount, dates);
    ShownIsTotalWithoutRepeats(ledger, amount, dates);
  }

  /** In particular nothing is lost when the ledger has one row a day. */
  lemma {:induction false} UniqueDaysRepeatNothing(ledger: seq<LedgerRow>, amount: LedgerRow -> real)
    requires forall i, j | 0 <= i < j < |ledger| :: Day(ledger[i].assignedDate) != Day(ledger[j].assignedDate)
    ensures Repeated(ledger, amount) == 0.0
    decreases |ledger|
  {
    if ledger != [] { UniqueDaysRepeatNothing(ledger[..|ledger| - 1], amount); }
  }
}
