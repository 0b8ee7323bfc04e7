/** The landlord's billing screens: the unpaid overview, a tenant's bills,
    the unpaid check, writing bills off, generating a tenant's past bills and
    the monthly income summary. */
module LandlordBilling {
  import opened Wrappers
  import opened Calendar
  import opened Entities
  import opened BillModel
  import opened Store
  import opened BillingService
  import opened BillingRuns

  /** Why a landlord action was refused. */
  datatype LandlordError =
    | TenantIdRequired
    | TenantNotFound
    | TenantOrRoomNotFound
    | NoUnpaidBills
    | GenerationFailed   // the room has no floor: loading its building throws
    | LoadFailed         // the tenant query includes a `Room` navigation the account lacks

  /** A bill the overview and the tenant page count as unpaid. */
  predicate IsUnpaid(b: Bill) {
    b.status != Paid && b.status != Cancelled && b.status != WrittenOff
  }

  /** A bill the write-off and the unpaid check select. */
  predicate IsOpen(b: Bill) {
    b.status == NotPaid || b.status == Pending || b.status == BillStatus.Overdue
  }

  /** The two selections name the same bills. */
  lemma UnpaidIsOpen(b: Bill)
    ensures IsUnpaid(b) <==> IsOpen(b)
  {
  }

  predicate Distinct<T(==)>(s: seq<T>) {
    forall i, j :: 0 <= i < j < |s| ==> s[i] != s[j]
  }

  /** The sum of the bills' totals. */
  function SumTotals(bs: seq<Bill>): real {
    if |bs| == 0 then 0.0 else SumTotals(bs[..|bs| - 1]) + TotalAmount(bs[|bs| - 1])
  }

  /** The sum of the bills' stored late fees. */
  function SumLateFees(bs: seq<Bill>): real {
    if |bs| == 0 then 0.0 else SumLateFees(bs[..|bs| - 1]) + OrZero(bs[|bs| - 1].lateFee)
  }

  /** A tenant's unpaid bills, in stored order. */
  function UnpaidOf(bills: seq<Bill>, tenantId: string): (r: seq<Bill>)
    ensures |r| <= |bills|
    ensures forall b :: b in r <==> b in bills && b.tenantId == tenantId && IsUnpaid(b)
    ensures (forall k :: 0 <= k < |bills| ==> !(bills[k].tenantId == tenantId && IsUnpaid(bills[k]))) ==> r == []
  {
    if |bills| == 0 then []
    else
      var last := bills[|bills| - 1];
      assert bills == bills[..|bills| - 1] + [last];
      UnpaidOf(bills[..|bills| - 1], tenantId) + if last.tenantId == tenantId && IsUnpaid(last) then [last] else []
  }

  /** A tenant's open bills, in stored order. */
  function OpenOf(bills: seq<Bill>, tenantId: string): seq<Bill> {
    if |bills| == 0 then []
    else
      var last := bills[|bills| - 1];
      OpenOf(bills[..|bills| - 1], tenantId) + if last.tenantId == tenantId && IsOpen(last) then [last] else []
  }

  /** The open bills are exactly the unpaid ones, in the same order. */
  lemma {:induction false} OpenOfIsUnpaidOf(bills: seq<Bill>, tenantId: string)
    ensures OpenOf(bills, tenantId) == UnpaidOf(bills, tenantId)
    decreases |bills|
  {
    if |bills| > 0 {
      OpenOfIsUnpaidOf(bills[..|bills| - 1], tenantId);
      UnpaidIsOpen(bills[|bills| - 1]);
    }
  }

  // ---------------------------------------------------------------------------
  // The unpaid overview of `Billing`

  /** The filters of the billing screen, already read from the request. */
  datatype BillFilter = BillFilter(status: Option<BillStatus>, period: Option<(int, int)>, building: Option<int>)

  /** `bill.Room.Floor.BuildingId`, or none when the room or its floor is missing. */
  function BillBuildingId(rooms: seq<Room>, b: Bill): Option<int> {
    var room := FindRoom(rooms, b.roomId);
    if room.Some? && room.value.floor.Some? then Some(room.value.floor.value.buildingId) else None
  }

  /** Whether a bill passes the screen's filters; the period is a (year, month). */
  predicate Selected(rooms: seq<Room>, f: BillFilter, b: Bill) {
    (f.status.None? || b.status == f.status.value) &&
    (f.period.None? || (b.billingYear, b.billingMonth) == f.period.value) &&
    (f.building.None? || BillBuildingId(rooms, b) == f.building)
  }

  /** The bills that pass the filters, in stored order. */
  function SelectedBills(bills: seq<Bill>, rooms: seq<Room>, f: BillFilter): (r: seq<Bill>)
    ensures forall b :: b in r <==> b in bills && Selected(rooms, f, b)
  {
    if |bills| == 0 then []
    else
      var last := bills[|bills| - 1];
      assert bills == bills[..|bills| - 1] + [last];
      SelectedBills(bills[..|bills| - 1], rooms, f) + if Selected(rooms, f, last) then [last] else []
  }

  /** The tenant ids of the bills, each once, in order of first appearance
      (the keys of `GroupBy(b => b.TenantId)`). */
  function TenantKeys(bills: seq<Bill>): (keys: seq<string>)
    ensures Distinct(keys)
    ensures forall id :: id in keys <==> exists i :: 0 <= i < |bills| && bills[i].tenantId == id
  {
    if |bills| == 0 then []
    else
      var init := bills[..|bills| - 1];
      var id := bills[|bills| - 1].tenantId;
      var earlier := TenantKeys(init);
      assert forall i :: 0 <= i < |init| ==> init[i] == bills[i];
      if id in earlier then earlier else earlier + [id]
  }

  /** The per-tenant amount due as the overview computes it: each unpaid bill's
      total plus its late fee again. */
  function AmountDueAsWritten(unpaid: seq<Bill>): real {
    if |unpaid| == 0 then 0.0
    else AmountDueAsWritten(unpaid[..|unpaid| - 1]) + TotalAmount(unpaid[|unpaid| - 1]) + OrZero(unpaid[|unpaid| - 1].lateFee)
  }

  /** The overview counts every stored late fee twice. */
  lemma {:induction false} AmountDueCountsLateFeesTwice(unpaid: seq<Bill>)
    ensures AmountDueAsWritten(unpaid) == SumTotals(unpaid) + SumLateFees(unpaid)
    decreases |unpaid|
  {
    if |unpaid| > 0 {
      AmountDueCountsLateFeesTwice(unpaid[..|unpaid| - 1]);
    }
  }

  /** One overdue bill of 100 with a stored late fee of 5 is shown as 110 due,
      though its total is 105. */
  lemma AmountDueOverstatesOverdueBill(b: Bill)
    requires b.monthlyRent == 100.0 && b.waterFee == 0.0 && b.electricityFee == 0.0 && b.wifiFee == 0.0
    requires b.lateFee == Some(5.0) && b.otherFees.None?
    ensures TotalAmount(b) == 105.0
    ensures AmountDueAsWritten([b]) == 110.0
  {
    assert [b][..0] == [];
  }

  /** The amount due counting each bill once: the sum of the unpaid totals. */
  function AmountDue(bills: seq<Bill>, tenantId: string): (r: real)
    ensures r == SumTotals(UnpaidOf(bills, tenantId))
  {
    SumTotals(UnpaidOf(bills, tenantId))
  }

  /** What the overview shows: tenants with several unpaid bills, tenants with
      one, and for each tenant with any, the amount due and the count. */
  datatype UnpaidOverview = UnpaidOverview(
    multiple: seq<string>,
    single: seq<string>,
    amountDue: map<string, real>,
    unpaidCount: map<string, nat>)

  /** `ov` is the overview of `bills`. */
  ghost predicate SummarizesUnpaid(ov: UnpaidOverview, bills: seq<Bill>) {
    Distinct(ov.multiple) && Distinct(ov.single) &&
    (forall id :: id in ov.multiple <==> |UnpaidOf(bills, id)| > 1) &&
    (forall id :: id in ov.single <==> |UnpaidOf(bills, id)| == 1) &&
    (forall id :: id in ov.amountDue <==> |UnpaidOf(bills, id)| > 0) &&
    ov.unpaidCount.Keys == ov.amountDue.Keys &&
    (forall id :: id in ov.amountDue ==> ov.amountDue[id] == AmountDueAsWritten(UnpaidOf(bills, id))) &&
    (forall id :: id in ov.unpaidCount ==> ov.unpaidCount[id] == |UnpaidOf(bills, id)|)
  }

  /** A tenant with an unpaid bill is one of the group keys. */
  lemma UnpaidTenantIsKey(bills: seq<Bill>, id: string)
    requires |UnpaidOf(bills, id)| > 0
    ensures id in TenantKeys(bills)
  {
    var b := UnpaidOf(bills, id)[0];
    assert b in UnpaidOf(bills, id);
    var i :| 0 <= i < |bills| && bills[i] == b;
  }

  /** Each tenant's number of unpaid bills. */
  function UnpaidCounts(bills: seq<Bill>): string -> nat {
    id => |UnpaidOf(bills, id)|
  }

  /** Each tenant's amount due, as the overview computes it. */
  function AmountsDue(bills: seq<Bill>): string -> real {
    id => AmountDueAsWritten(UnpaidOf(bills, id))
  }

  /** `ov` is the overview, restricted to the tenants in `done`, of bills in
      which each tenant has `count` unpaid bills owing `due`. */
  ghost predicate OverviewOver(ov: UnpaidOverview, done: seq<string>, count: string -> nat, due: string -> real) {
    Distinct(ov.multiple) && Distinct(ov.single) &&
    (forall id :: id in ov.multiple <==> id in done && count(id) > 1) &&
    (forall id :: id in ov.single <==> id in done && count(id) == 1) &&
    (forall id :: id in ov.amountDue <==> id in done && count(id) > 0) &&
    ov.unpaidCount.Keys == ov.amountDue.Keys &&
    (forall id :: id in ov.amountDue ==> ov.amountDue[id] == due(id)) &&
    (forall id :: id in ov.unpaidCount ==> ov.unpaidCount[id] == count(id))
  }

  /** The prefix of a list one longer is the prefix and the next element. */
  lemma PrefixStep<T>(xs: seq<T>, i: nat)
    requires i < |xs|
    ensures xs[..i + 1] == xs[..i] + [xs[i]]
  {
  }

  /** A list of distinct ids extended by a new one stays distinct. */
  lemma AppendDistinct(xs: seq<string>, id: string)
    requires Distinct(xs) && id !in xs
    ensures Distinct(xs + [id])
  {
    var ys := xs + [id];
    forall i, j | 0 <= i < j < |ys| ensures ys[i] != ys[j] {
      if j == |xs| {
        assert ys[i] == xs[i];
      }
    }
  }

  /** The tenants listed under a condition on their count, extended by one more group. */
  lemma ListStep(xs: seq<string>, done: seq<string>, id: string, count: string -> nat, listed: nat -> bool,
                 next: seq<string>)
    requires Distinct(xs) && id !in done
    requires forall x :: x in xs <==> x in done && listed(count(x))
    requires next == if listed(count(id)) then xs + [id] else xs
    ensures Distinct(next)
    ensures forall x :: x in next <==> x in done + [id] && listed(count(x))
  {
    if listed(count(id)) {
      AppendDistinct(xs, id);
    }
  }

  /** One more tenant's group taken into the overview. */
  lemma OverviewStep(ov: UnpaidOverview, done: seq<string>, id: string, count: string -> nat, due: string -> real,
                     n: nat, owed: real, next: UnpaidOverview)
    requires OverviewOver(ov, done, count, due) && id !in done
    requires n == count(id) && owed == due(id)
    requires next.multiple == (if n > 1 then ov.multiple + [id] else ov.multiple)
    requires next.single == (if n == 1 then ov.single + [id] else ov.single)
    requires next.amountDue == (if n > 0 then ov.amountDue[id := owed] else ov.amountDue)
    requires next.unpaidCount == (if n > 0 then ov.unpaidCount[id := n] else ov.unpaidCount)
    ensures OverviewOver(next, done + [id], count, due)
  {
    ListStep(ov.multiple, done, id, count, n => n > 1, next.multiple);
    ListStep(ov.single, done, id, count, n => n == 1, next.single);
    MapStep(ov, done, id, count, due, next);
  }

  /** The amounts and counts of the overview, extended by one more group;
      `count` and `due` give each tenant's number of unpaid bills and amount due. */
  lemma MapStep(ov: UnpaidOverview, done: seq<string>, id: string, count: string -> nat, due: string -> real,
                next: UnpaidOverview)
    requires id !in done
    requires forall x :: x in ov.amountDue <==> x in done && count(x) > 0
    requires ov.unpaidCount.Keys == ov.amountDue.Keys
    requires forall x :: x in ov.amountDue ==> ov.amountDue[x] == due(x)
    requires forall x :: x in ov.unpaidCount ==> ov.unpaidCount[x] == count(x)
    requires next.amountDue == (if count(id) > 0 then ov.amountDue[id := due(id)] else ov.amountDue)
    requires next.unpaidCount == (if count(id) > 0 then ov.unpaidCount[id := count(id)] else ov.unpaidCount)
    ensures forall x :: x in next.amountDue <==> x in done + [id] && count(x) > 0
    ensures next.unpaidCount.Keys == next.amountDue.Keys
    ensures forall x :: x in next.amountDue ==> next.amountDue[x] == due(x)
    ensures forall x :: x in next.unpaidCount ==> next.unpaidCount[x] == count(x)
  {
    assert forall x :: x in done + [id] <==> x in done || x == id;
  }

  /** The overview over all the group keys is the overview of the bills. */
  lemma OverviewOverKeys(ov: UnpaidOverview, bills: seq<Bill>)
    requires OverviewOver(ov, TenantKeys(bills), UnpaidCounts(bills), AmountsDue(bills))
    ensures SummarizesUnpaid(ov, bills)
  {
    forall id | |UnpaidOf(bills, id)| > 0 ensures id in TenantKeys(bills) {
      UnpaidTenantIsKey(bills, id);
    }
  }

  /** The loop of `Billing` over the tenants' groups. */
  method SummarizeUnpaid(bills: seq<Bill>) returns (ov: UnpaidOverview)
    ensures SummarizesUnpaid(ov, bills)
  {
    var groups := TenantKeys(bills);
    var count := UnpaidCounts(bills);
    var due := AmountsDue(bills);
    var multiple: seq<string> := [];
    var single: seq<string> := [];
    var amountDue: map<string, real> := map[];
    var unpaidCount: map<string, nat> := map[];
    ghost var done: seq<string> := [];
    for i := 0 to |groups|
      invariant done == groups[..i]
      invariant OverviewOver(UnpaidOverview(multiple, single, amountDue, unpaidCount), done, count, due)
    {
      var id := groups[i];
      PrefixStep(groups, i);
      ghost var before := UnpaidOverview(multiple, single, amountDue, unpaidCount);
      var n := count(id);
      var owed := due(id);
      if n > 1 {
        multiple := multiple + [id];
      } else if n == 1 {
        single := single + [id];
      }
      if n > 0 {
        amountDue := amountDue[id := owed];
        unpaidCount := unpaidCount[id := n];
      }
      assert id !in done;
      OverviewStep(before, done, id, count, due, n, owed, UnpaidOverview(multiple, single, amountDue, unpaidCount));
      done := done + [id];
    }
    assert groups[..|groups|] == groups;
    ov := UnpaidOverview(multiple, single, amountDue, unpaidCount);
    OverviewOverKeys(ov, bills);
  }

  /** `Billing`: the backfill and the overdue sweep run first; the overview is
      then taken over the filtered bills. A backfill error ends the action. */
  method Billing(db: Database, today: Date, f: BillFilter) returns (r: Result<UnpaidOverview, ChainError>)
    modifies db`bills
    ensures r.Ok? ==> SummarizesUnpaid(r.value, SelectedBills(db.bills, db.rooms, f))
    ensures r.Ok? ==>
              var run := BackfillAll(Generator(db.users, db.rooms, db.readings), old(db.bills), WithRoom(db.users), today);
              run.aborted.None? && db.bills == SweepAll(run.bills, db.rooms, today)
    ensures var run := BackfillAll(Generator(db.users, db.rooms, db.readings), old(db.bills), WithRoom(db.users), today);
            (r.Err? <==> run.aborted.Some?) &&
            (r.Err? ==> db.bills == run.bills && r.error == run.aborted.value)
  {
    var backfilled := BackfillBillsForAllTenants(db, today);
    if backfilled.Err? {
      return Err(backfilled.error);
    }
    UpdateBillStatuses(db, today);
    var ov := SummarizeUnpaid(SelectedBills(db.bills, db.rooms, f));
    return Ok(ov);
  }

  // ---------------------------------------------------------------------------
  // A tenant's bills and the unpaid check

  /** What `TenantBills` shows besides the bills themselves. */
  datatype TenantBillsView = TenantBillsView(billIds: seq<nat>, totalDue: real, unpaidMonths: nat)

  /** The positions of the tenant's bills, ascending. */
  function BillIdsOf(bills: seq<Bill>, tenantId: string): (ids: seq<nat>)
    ensures forall k: int :: k in ids <==> 0 <= k < |bills| && bills[k].tenantId == tenantId
  {
    if |bills| == 0 then []
    else
      var last := |bills| - 1;
      BillIdsOf(bills[..last], tenantId) + if bills[last].tenantId == tenantId then [last] else []
  }

  /** The distinct (month, year) keys of the bills. */
  function MonthKeys(bs: seq<Bill>): (s: set<(int, int)>)
    ensures |s| <= |bs|
    ensures forall k :: k in s <==> exists b :: b in bs && k == (b.billingMonth, b.billingYear)
  {
    if |bs| == 0 then {}
    else
      var init := bs[..|bs| - 1];
      assert bs == init + [bs[|bs| - 1]];
      MonthKeys(init) + {(bs[|bs| - 1].billingMonth, bs[|bs| - 1].billingYear)}
  }

  /** The keys `MonthKeys` collects are the bills' key set. */
  lemma MonthKeysAreKeySet(bs: seq<Bill>)
    ensures MonthKeys(bs) == set b | b in bs :: (b.billingMonth, b.billingYear)
  {
    var keys := MonthKeys(bs);
    forall k | k in keys ensures k in set b | b in bs :: (b.billingMonth, b.billingYear) {
      var b :| b in bs && k == (b.billingMonth, b.billingYear);
    }
  }

  /** `TenantBills`: the tenant's bills, the total of the unpaid ones and the
      number of distinct months they fall in. */
  function TenantBills(users: seq<Tenant>, bills: seq<Bill>, tenantId: string): (r: Result<TenantBillsView, LandlordError>)
    ensures |tenantId| == 0 ==> r == Err(TenantIdRequired)
    ensures |tenantId| > 0 && FindUser(users, tenantId).None? ==> r == Err(TenantNotFound)
    ensures |tenantId| > 0 && FindUser(users, tenantId).Some? ==>
              r.Ok? && r.value.totalDue == AmountDue(bills, tenantId) &&
              r.value.unpaidMonths == |set b | b in UnpaidOf(bills, tenantId) :: (b.billingMonth, b.billingYear)| &&
              r.value.unpaidMonths <= |UnpaidOf(bills, tenantId)| &&
              (r.value.unpaidMonths == 0 <==> |UnpaidOf(bills, tenantId)| == 0) &&
              (forall k: int :: k in r.value.billIds <==> 0 <= k < |bills| && bills[k].tenantId == tenantId)
  {
    if |tenantId| == 0 then Err(TenantIdRequired)
    else if FindUser(users, tenantId).None? then Err(TenantNotFound)
    else
      var unpaid := UnpaidOf(bills, tenantId);
      var keys := MonthKeys(unpaid);
      MonthKeysAreKeySet(unpaid);
      Ok(TenantBillsView(BillIdsOf(bills, tenantId), SumTotals(unpaid), |keys|))
  }

  /** `TenantBills` as written: the tenant query includes `Room.Floor.Building`,
      but the account's room navigation is `CurrentRoom`, so the query throws
      and the catch redirects. Only the missing id is reported as such. */
  function TenantBillsAsWritten(users: seq<Tenant>, bills: seq<Bill>, tenantId: string)
    : (r: Result<TenantBillsView, LandlordError>)
    ensures r.Err?
    ensures r.error == TenantIdRequired <==> |tenantId| == 0
  {
    if |tenantId| == 0 then Err(TenantIdRequired) else Err(LoadFailed)
  }

  /** For every existing tenant the page as written fails, where the page the
      include was meant to load shows the tenant's bills. */
  lemma TenantBillsNeverLoads(users: seq<Tenant>, bills: seq<Bill>, tenantId: string)
    requires |tenantId| > 0 && FindUser(users, tenantId).Some?
    ensures TenantBillsAsWritten(users, bills, tenantId) == Err(LoadFailed)
    ensures TenantBills(users, bills, tenantId).Ok?
  {
  }

  /** `CheckUnpaidBills`: whether the tenant has an open bill, and their total. */
  function CheckUnpaidBills(bills: seq<Bill>, tenantId: string): (r: (bool, real))
    ensures r.0 <==> exists b :: b in bills && b.tenantId == tenantId && IsOpen(b)
    ensures !r.0 ==> r.1 == 0.0
  {
    var open := OpenOf(bills, tenantId);
    OpenOfIsUnpaidOf(bills, tenantId);
    if |open| == 0 then (false, 0.0)
    else
      assert open[0] in open;
      (true, SumTotals(open))
  }

  /** The unpaid check, the tenant page and the corrected amount due agree on
      what a tenant owes. */
  lemma OwedTotalsAgree(users: seq<Tenant>, bills: seq<Bill>, tenantId: string)
    requires |tenantId| > 0 && FindUser(users, tenantId).Some?
    ensures CheckUnpaidBills(bills, tenantId).1 == TenantBills(users, bills, tenantId).value.totalDue
    ensures CheckUnpaidBills(bills, tenantId).1 == AmountDue(bills, tenantId)
  {
    OpenOfIsUnpaidOf(bills, tenantId);
  }

  // ---------------------------------------------------------------------------
  // Writing a tenant's bills off

  /** The note a written-off bill gains. */
  function WriteOffNote(notes: Option<string>, stamp: string): string {
    notes.GetOr("") + "\nWritten off by landlord on " + stamp
  }

  /** One bill under the write-off: an open bill of the tenant's is written off
      with a note appended; any other bill is left alone. */
  function WriteOffOne(b: Bill, tenantId: string, stamp: string): (r: Bill)
    ensures b.tenantId == tenantId && IsOpen(b) ==>
              r.status == WrittenOff && r.notes == Some(WriteOffNote(b.notes, stamp)) &&
              r.(status := b.status, notes := b.notes) == b
    ensures !(b.tenantId == tenantId && IsOpen(b)) ==> r == b
    ensures TotalAmount(r) == TotalAmount(b) && r.tenantId == b.tenantId
  {
    if b.tenantId == tenantId && IsOpen(b) then b.(status := WrittenOff, notes := Some(WriteOffNote(b.notes, stamp)))
    else b
  }

  /** The bill table after the write-off. */
  function WrittenOffBills(bills: seq<Bill>, tenantId: string, stamp: string): (r: seq<Bill>)
    ensures |r| == |bills|
    ensures forall k :: 0 <= k < |bills| ==> r[k] == WriteOffOne(bills[k], tenantId, stamp)
  {
    seq(|bills|, k requires 0 <= k < |bills| => WriteOffOne(bills[k], tenantId, stamp))
  }

  /** `WriteOffTenantBills`: refused when the tenant has no open bill;
      otherwise every open bill of the tenant's is written off. */
  method WriteOffTenantBills(db: Database, tenantId: string, stamp: string) returns (r: Result<(), LandlordError>)
    modifies db`bills
    ensures !CheckUnpaidBills(old(db.bills), tenantId).0 ==> r == Err(NoUnpaidBills) && db.bills == old(db.bills)
    ensures CheckUnpaidBills(old(db.bills), tenantId).0 ==> r == Ok(()) && db.bills == WrittenOffBills(old(db.bills), tenantId, stamp)
  {
    var any := false;
    for i := 0 to |db.bills|
      invariant any <==> exists k :: 0 <= k < i && db.bills[k].tenantId == tenantId && IsOpen(db.bills[k])
    {
      if db.bills[i].tenantId == tenantId && IsOpen(db.bills[i]) {
        any := true;
      }
    }
    if !any {
      return Err(NoUnpaidBills);
    }
    ghost var orig := db.bills;
    for i := 0 to |db.bills|
      invariant |db.bills| == |orig|
      invariant forall k :: 0 <= k < i ==> db.bills[k] == WriteOffOne(orig[k], tenantId, stamp)
      invariant forall k :: i <= k < |orig| ==> db.bills[k] == orig[k]
    {
      var bill := db.bills[i];
      if bill.tenantId == tenantId && IsOpen(bill) {
        db.bills := db.bills[i := bill.(status := WrittenOff, notes := Some(WriteOffNote(bill.notes, stamp)))];
      }
      assert db.bills[i] == WriteOffOne(orig[i], tenantId, stamp);
    }
    return Ok(());
  }

  /** After a write-off the tenant owes nothing, every other tenant's bills
      and every total are unchanged, and a second write-off is refused. */
  lemma WriteOffClearsTenant(bills: seq<Bill>, tenantId: string, stamp: string)
    ensures var after := WrittenOffBills(bills, tenantId, stamp);
            !CheckUnpaidBills(after, tenantId).0 && |UnpaidOf(after, tenantId)| == 0 &&
            (forall k :: 0 <= k < |bills| ==> TotalAmount(after[k]) == TotalAmount(bills[k])) &&
            (forall k :: 0 <= k < |bills| && bills[k].tenantId != tenantId ==> after[k] == bills[k])
  {
    var after := WrittenOffBills(bills, tenantId, stamp);
    var unpaid := UnpaidOf(after, tenantId);
    assert forall k :: 0 <= k < |after| ==> !(after[k].tenantId == tenantId && IsUnpaid(after[k]));
  }

  // ---------------------------------------------------------------------------
  // Generating a tenant's past bills

  /** The building used when the room's floor has none. */
  const FallbackBuilding: Building := Building(0, 5000.0, 300.0, 500.0, 200.0, 5.0)

  /** The building `GeneratePastBillsForTenant` prices with: the floor's, or the
      fallback; none when the room has no floor, where loading it throws. */
  function PastBillBuilding(room: Room): (r: Option<Building>)
    ensures r.None? <==> room.floor.None?
    ensures room.floor.Some? && room.floor.value.building.Some? ==> r == room.floor.value.building
  {
    if room.floor.None? then None else Some(room.floor.value.building.GetOr(FallbackBuilding))
  }

  /** `bill.TotalAmount * (percentage / 100)`. */
  function PercentOfTotal(b: Bill, percentage: real): real {
    TotalAmount(b) * (percentage / 100.0)
  }

  /** The bill `GeneratePastBillsForTenant` adds for the month starting `cur`:
      due that month on the anchor day or the month's last day, custom fees
      over the building's, no electricity, and, since the test of the due date
      is commented out, always overdue with the building's late fee. */
  function PastBill(t: Tenant, room: Room, building: Building, cur: Date): (b: Bill)
    ensures b.tenantId == t.id && b.roomId == room.roomId && b.billingDate == cur
    ensures b.billingMonth == cur.month && b.billingYear == cur.year
    ensures SameMonth(b.dueDate, cur) && b.dueDate.day == Min(t.startDate.day, DaysInMonth(cur.year, cur.month))
    ensures b.monthlyRent == room.customMonthlyRent.GetOr(building.defaultMonthlyRent)
    ensures b.waterFee == room.customWaterFee.GetOr(building.defaultWaterFee)
    ensures b.wifiFee == room.customWifiFee.GetOr(building.defaultWifiFee)
    ensures b.electricityFee == 0.0 && b.otherFees.None? && !b.isApproved && b.amountPaid.None?
    // the bill as first built, unpaid and without late fee, totals its three charges;
    // it is then overdue, with the building's percentage of that total as late fee
    ensures TotalAmount(b.(status := NotPaid, lateFee := None)) == b.monthlyRent + b.waterFee + b.wifiFee
    ensures b.status == BillStatus.Overdue
    ensures b.lateFee == Some(PercentOfTotal(b.(status := NotPaid, lateFee := None), building.lateFee))
  {
    var rent := room.customMonthlyRent.GetOr(building.defaultMonthlyRent);
    var water := room.customWaterFee.GetOr(building.defaultWaterFee);
    var wifi := room.customWifiFee.GetOr(building.defaultWifiFee);
    var base := BillModel.NewBill(t.id, room.roomId, cur, cur.month, cur.year,
                                  ClampedDate(cur.year, cur.month, t.startDate.day), rent, water, 0.0, wifi, NotPaid, None);
    var bill := base.(status := BillStatus.Overdue, lateFee := Some(PercentOfTotal(base, building.lateFee)));
    assert bill.(status := NotPaid, lateFee := None) == base;
    bill
  }

  /** The generation step of `GeneratePastBillsForTenant`, for the backfill
      functions: the tenant's bill for a month, or the throw of a room without floor. */
  function PastBillGenerator(t: Tenant, room: Room): BillGenerator {
    (tenantId: string, cur: Date) =>
      var building := PastBillBuilding(room);
      if building.None? then Err(FloorOrBuildingMissing) else Ok(PastBill(t, room, building.value, cur))
  }

  /** `GeneratePastBillsForTenant` as written: the tenant query with the
      `Room.Floor.Building` include throws before the `try`, so every request
      with an id fails and the bill table is left as it was. */
  function PastBillsAsWritten(bills: seq<Bill>, tenantId: string): (r: (seq<Bill>, Result<nat, LandlordError>))
    ensures r.0 == bills && r.1.Err?
    ensures r.1.error == TenantIdRequired <==> |tenantId| == 0
  {
    if |tenantId| == 0 then (bills, Err(TenantIdRequired)) else (bills, Err(LoadFailed))
  }

  /** A tenant with a room and no bill yet for the start month: the action as
      written adds none, where the intended generation bills that month. */
  lemma PastBillsNeverGenerated(bills: seq<Bill>, t: Tenant, room: Room, today: Date)
    requires |t.id| > 0
    requires AtOrBefore(StartMonth(t), today)
    requires !HasBillForMonth(bills, t.id, StartMonth(t).month, StartMonth(t).year)
    requires BackfillTenant(PastBillGenerator(t, room), bills, t, StartMonth(t), today).aborted.None?
    ensures !HasBillForMonth(PastBillsAsWritten(bills, t.id).0, t.id, StartMonth(t).month, StartMonth(t).year)
    ensures HasBillForMonth(BackfillTenant(PastBillGenerator(t, room), bills, t, StartMonth(t), today).bills,
                            t.id, StartMonth(t).month, StartMonth(t).year)
  {
    var gen, cur := PastBillGenerator(t, room), StartMonth(t);
    PastBillGeneratorIsKeyed(t, room);
    BeforeByMonth(today, cur);
    var b := gen(t.id, cur).value;
    var rest := BackfillTenant(gen, bills + [b], t, AddOneMonth(cur), today);
    BackfillTenantAppends(gen, bills + [b], t, AddOneMonth(cur), today);
    assert rest.bills[..|bills| + 1] == bills + [b];
    assert rest.bills[|bills|] == b;
  }

  /** The generator keys each bill on the month asked for. */
  lemma PastBillGeneratorIsKeyed(t: Tenant, room: Room)
    ensures forall id, d :: PastBillGenerator(t, room)(id, d).Ok? ==>
              PastBillGenerator(t, room)(id, d).value.billingMonth == d.month &&
              PastBillGenerator(t, room)(id, d).value.billingYear == d.year &&
              PastBillGenerator(t, room)(id, d).value.tenantId == t.id
  {
  }

  /** `GeneratePastBillsForTenant`: for each month from the tenant's start month
      through today's without a bill, one bill; all are saved together at the
      end, so a throw saves none. Returns the number generated. */
  method GeneratePastBillsForTenant(db: Database, tenantId: string, today: Date) returns (r: Result<nat, LandlordError>)
    modifies db`bills
    ensures |tenantId| == 0 ==> r == Err(TenantIdRequired)
    ensures |tenantId| > 0 && (FindUser(db.users, tenantId).None? ||
                               CurrentRoom(db.rooms, FindUser(db.users, tenantId).value).None?) ==>
              r == Err(TenantOrRoomNotFound)
    ensures r.Err? ==> db.bills == old(db.bills)
    ensures |tenantId| > 0 && FindUser(db.users, tenantId).Some? &&
            CurrentRoom(db.rooms, FindUser(db.users, tenantId).value).Some? ==>
              var t := FindUser(db.users, tenantId).value;
              var run := BackfillTenant(PastBillGenerator(t, CurrentRoom(db.rooms, t).value), old(db.bills), t,
                                        StartMonth(t), today);
              (run.aborted.None? ==> r == Ok(run.created) && db.bills == run.bills) &&
              (run.aborted.Some? ==> r == Err(GenerationFailed))
  {
    if |tenantId| == 0 {
      return Err(TenantIdRequired);
    }
    var found := FindUser(db.users, tenantId);
    if found.None? || CurrentRoom(db.rooms, found.value).None? {
      return Err(TenantOrRoomNotFound);
    }
    var tenant := found.value;
    var room := CurrentRoom(db.rooms, tenant).value;
    ghost var gen := PastBillGenerator(tenant, room);
    ghost var final := BackfillTenant(gen, db.bills, tenant, StartMonth(tenant), today);
    var existingBillMonths := BillMonths(db.bills, tenant.id);
    var currentDate := FirstOfMonth(tenant.startDate.year, tenant.startDate.month);
    var added: seq<Bill> := [];
    assert db.bills + added == db.bills;
    while AtOrBefore(currentDate, today)
      invariant db.bills == old(db.bills)
      invariant currentDate.day == 1
      invariant existingBillMonths == BillMonths(db.bills, tenant.id)
      invariant forall j :: 0 <= j < |added| ==>
                  added[j].tenantId == tenant.id &&
                  MonthIndex(added[j].billingYear, added[j].billingMonth) < MonthOf(currentDate)
      invariant var rest := BackfillTenant(gen, db.bills + added, tenant, currentDate, today);
                rest.bills == final.bills && rest.aborted == final.aborted &&
                (final.aborted.None? ==> |added| + rest.created == final.created)
      decreases MonthOf(today) - MonthOf(currentDate) + 1
    {
      BeforeByMonth(today, currentDate);
      PastMonthsNotRevisited(db.bills, added, tenant.id, currentDate);
      if (currentDate.month, currentDate.year) !in existingBillMonths {
        var building := PastBillBuilding(room);
        if building.None? {
          return Err(GenerationFailed);
        }
        var bill := PastBill(tenant, room, building.value, currentDate);
        assert db.bills + added + [bill] == db.bills + (added + [bill]);
        added := added + [bill];
      }
      currentDate := AddOneMonth(currentDate);
    }
    db.bills := db.bills + added;
    return Ok(|added|);
  }

  /** The month being visited has a bill among the stored bills and those
      added so far exactly when the stored bills have one: the added ones are
      all for earlier months. */
  lemma PastMonthsNotRevisited(bills: seq<Bill>, added: seq<Bill>, tenantId: string, cur: Date)
    requires forall j :: 0 <= j < |added| ==> MonthIndex(added[j].billingYear, added[j].billingMonth) < MonthOf(cur)
    ensures HasBillForMonth(bills + added, tenantId, cur.month, cur.year) <==>
            (cur.month, cur.year) in BillMonths(bills, tenantId)
  {
    var all := bills + added;
    assert forall j :: |bills| <= j < |all| ==> all[j] == added[j - |bills|];
    if HasBillForMonth(all, tenantId, cur.month, cur.year) {
      var i :| 0 <= i < |all| && all[i].tenantId == tenantId && all[i].billingMonth == cur.month &&
               all[i].billingYear == cur.year;
      assert i < |bills|;
    }
    if HasBillForMonth(bills, tenantId, cur.month, cur.year) {
      var i :| 0 <= i < |bills| && bills[i].tenantId == tenantId && bills[i].billingMonth == cur.month &&
               bills[i].billingYear == cur.year;
      assert all[i] == bills[i];
    }
  }

  /** A tenant who started on the 28th of January and asks for past bills on
      the 10th of March gets a March bill marked overdue, with a late fee,
      although it is due on the 28th of March. */
  lemma PastBillIsOverdueBeforeItsDueDate(t: Tenant, room: Room, building: Building)
    requires t.startDate == Ymd(2025, 1, 28)
    ensures var b := PastBill(t, room, building, Ymd(2025, 3, 1));
            b.dueDate == Ymd(2025, 3, 28) && !Before(b.dueDate, Ymd(2025, 3, 10)) &&
            b.status == BillStatus.Overdue && b.lateFee.Some?
  {
  }

  /** The past bill with the due-date test in force: overdue with the late
      fee only when it is already past due today, otherwise unpaid. */
  function PastBillIntended(t: Tenant, room: Room, building: Building, cur: Date, today: Date): (b: Bill)
    ensures b.status == BillStatus.Overdue <==> Before(b.dueDate, today)
    ensures b.status != BillStatus.Overdue ==> b.status == NotPaid && b.lateFee.None?
    ensures b.status == BillStatus.Overdue ==> b.lateFee == PastBill(t, room, building, cur).lateFee
    ensures b.(status := BillStatus.Overdue, lateFee := PastBill(t, room, building, cur).lateFee) ==
            PastBill(t, room, building, cur)
  {
    var asWritten := PastBill(t, room, building, cur);
    var unpaid := asWritten.(status := NotPaid, lateFee := None);
    if Before(asWritten.dueDate, today) then asWritten else unpaid
  }

  /** The sweep of an unpaid bill without late fee that is past due, in a
      known building: overdue, with the building's percentage of its total. */
  lemma SweepChargesPercent(b: Bill, building: Option<Building>, today: Date)
    requires IsPastDueOpen(b, today) && b.lateFee.None? && building.Some?
    ensures SweepBill(b, building, today) ==
            b.(status := BillStatus.Overdue, lateFee := Some(PercentOfTotal(b, building.value.lateFee)))
  {
    var swept := SweepBill(b, building, today);
    assert swept.lateFee == Some(PercentOfTotal(b, building.value.lateFee));
    assert swept == b.(status := BillStatus.Overdue, lateFee := swept.lateFee);
  }

  /** The corrected past bill is what the overdue sweep makes of the unpaid
      bill, so generating past bills and sweeping afterwards agree. */
  lemma PastBillIntendedIsSwept(t: Tenant, room: Room, cur: Date, today: Date)
    requires room.floor.Some?
    ensures var building := PastBillBuilding(room);
            var unpaid := PastBill(t, room, building.value, cur).(status := NotPaid, lateFee := None);
            PastBillIntended(t, room, building.value, cur, today) == SweepBill(unpaid, building, today)
  {
    var building := PastBillBuilding(room);
    var asWritten := PastBill(t, room, building.value, cur);
    var unpaid := asWritten.(status := NotPaid, lateFee := None);
    if Before(asWritten.dueDate, today) {
      SweepChargesPercent(unpaid, building, today);
      assert unpaid.(status := BillStatus.Overdue, lateFee := asWritten.lateFee) == asWritten;
    }
  }

  // ---------------------------------------------------------------------------
  // Monthly income summary

  /** One row of the summary. */
  datatype IncomeRow = IncomeRow(month: int, billed: real, collected: real, outstanding: real, overdue: real,
                                 writtenOff: real)

  /** The summary: its rows, by month, and their totals. */
  datatype IncomeSummary = IncomeSummary(
    rows: seq<IncomeRow>,
    totalBilled: real,
    totalCollected: real,
    totalOutstanding: real,
    totalOverdue: real,
    totalWrittenOff: real,
    totalIncome: real)

  const AllStatuses: set<BillStatus> := {NotPaid, Pending, Paid, BillStatus.Overdue, Cancelled, WrittenOff}

  /** The statuses the summary counts as outstanding: all but paid and written off. */
  const OutstandingStatuses: set<BillStatus> := {NotPaid, Pending, BillStatus.Overdue, Cancelled}

  /** The bills of the year, and of the building when one is given. */
  function YearBills(bills: seq<Bill>, rooms: seq<Room>, year: int, building: Option<int>): (r: seq<Bill>)
    ensures forall b :: b in r <==> b in bills && b.billingYear == year &&
                                     (building.None? || BillBuildingId(rooms, b) == building)
  {
    YearOf(SelectedBills(bills, rooms, BillFilter(None, None, building)), year)
  }

  /** The bills of the year. */
  function YearOf(bs: seq<Bill>, year: int): (r: seq<Bill>)
    ensures forall b :: b in r <==> b in bs && b.billingYear == year
  {
    if |bs| == 0 then []
    else
      var last := bs[|bs| - 1];
      assert bs == bs[..|bs| - 1] + [last];
      YearOf(bs[..|bs| - 1], year) + if last.billingYear == year then [last] else []
  }

  /** The total of the bills of the month whose status is among `statuses`. */
  function MonthSum(bs: seq<Bill>, month: int, statuses: set<BillStatus>): real {
    if |bs| == 0 then 0.0
    else
      var last := bs[|bs| - 1];
      MonthSum(bs[..|bs| - 1], month, statuses) +
      if last.billingMonth == month && last.status in statuses then TotalAmount(last) else 0.0
  }

  /** Sums over disjoint sets of statuses add up. */
  lemma {:induction false} MonthSumSplits(bs: seq<Bill>, month: int, a: set<BillStatus>, b: set<BillStatus>)
    requires a !! b
    ensures MonthSum(bs, month, a + b) == MonthSum(bs, month, a) + MonthSum(bs, month, b)
    decreases |bs|
  {
    if |bs| > 0 {
      MonthSumSplits(bs[..|bs| - 1], month, a, b);
    }
  }

  /** `month` inserted into a strictly increasing list, unless already there. */
  function InsertMonth(month: int, ms: seq<int>): (r: seq<int>)
    requires forall i, j :: 0 <= i < j < |ms| ==> ms[i] < ms[j]
    ensures forall i, j :: 0 <= i < j < |r| ==> r[i] < r[j]
    ensures forall m :: m in r <==> m == month || m in ms
  {
    if |ms| == 0 then [month]
    else if month < ms[0] then [month] + ms
    else if month == ms[0] then ms
    else
      var rest := InsertMonth(month, ms[1..]);
      assert forall x :: x in rest ==> ms[0] < x by {
        forall x | x in ms[1..] ensures ms[0] < x {
          var k :| 0 <= k < |ms[1..]| && ms[1..][k] == x;
          assert ms[k + 1] == x;
        }
      }
      var r := [ms[0]] + rest;
      assert forall j :: 0 < j < |r| ==> r[0] < r[j] by {
        forall j | 0 < j < |r| ensures r[0] < r[j] {
          assert r[j] == rest[j - 1] && rest[j - 1] in rest;
        }
      }
      r
  }

  /** The distinct billing months of the bills, ascending (the `GroupBy` keys
      after `OrderBy`). */
  function Months(bs: seq<Bill>): (ms: seq<int>)
    ensures forall i, j :: 0 <= i < j < |ms| ==> ms[i] < ms[j]
    ensures forall m :: m in ms <==> exists b :: b in bs && b.billingMonth == m
  {
    if |bs| == 0 then []
    else
      var init := bs[..|bs| - 1];
      assert bs == init + [bs[|bs| - 1]];
      InsertMonth(bs[|bs| - 1].billingMonth, Months(init))
  }

  /** The row of one month. */
  function Row(bs: seq<Bill>, month: int): IncomeRow {
    IncomeRow(month, MonthSum(bs, month, AllStatuses), MonthSum(bs, month, {Paid}),
              MonthSum(bs, month, OutstandingStatuses), MonthSum(bs, month, {BillStatus.Overdue}),
              MonthSum(bs, month, {WrittenOff}))
  }

  /** The rows of the given months, in their order. */
  function Rows(bs: seq<Bill>, months: seq<int>): (rows: seq<IncomeRow>)
    ensures |rows| == |months|
    ensures forall i :: 0 <= i < |months| ==> rows[i] == Row(bs, months[i]) && rows[i].month == months[i]
  {
    seq(|months|, i requires 0 <= i < |months| => Row(bs, months[i]))
  }

  function SumBilled(rows: seq<IncomeRow>): real {
    if |rows| == 0 then 0.0 else SumBilled(rows[..|rows| - 1]) + rows[|rows| - 1].billed
  }
  function SumCollected(rows: seq<IncomeRow>): real {
    if |rows| == 0 then 0.0 else SumCollected(rows[..|rows| - 1]) + rows[|rows| - 1].collected
  }
  function SumOutstanding(rows: seq<IncomeRow>): real {
    if |rows| == 0 then 0.0 else SumOutstanding(rows[..|rows| - 1]) + rows[|rows| - 1].outstanding
  }
  function SumOverdue(rows: seq<IncomeRow>): real {
    if |rows| == 0 then 0.0 else SumOverdue(rows[..|rows| - 1]) + rows[|rows| - 1].overdue
  }
  function SumWrittenOff(rows: seq<IncomeRow>): real {
    if |rows| == 0 then 0.0 else SumWrittenOff(rows[..|rows| - 1]) + rows[|rows| - 1].writtenOff
  }

  /** `MonthlyIncomeSummary`: one row per billing month of the year's bills,
      ascending; the totals are the sums of the rows, and the income is what
      was collected. */
  function MonthlyIncomeSummary(bills: seq<Bill>, rooms: seq<Room>, year: int, building: Option<int>): IncomeSummary {
    var bs := YearBills(bills, rooms, year, building);
    var rows := Rows(bs, Months(bs));
    IncomeSummary(rows, SumBilled(rows), SumCollected(rows), SumOutstanding(rows), SumOverdue(rows),
                  SumWrittenOff(rows), SumCollected(rows))
  }

  /** The months of the rows, in order. */
  function RowMonths(rows: seq<IncomeRow>): (ms: seq<int>)
    ensures |ms| == |rows| && forall i :: 0 <= i < |rows| ==> ms[i] == rows[i].month
  {
    seq(|rows|, i requires 0 <= i < |rows| => rows[i].month)
  }

  /** The summary has one row for each month in which the year's bills (of
      the building, when one is given) have a bill, ascending and without
      repeats, and each row sums that month's bills. */
  lemma SummaryRowsAreMonths(bills: seq<Bill>, rooms: seq<Room>, year: int, building: Option<int>)
    ensures var s := MonthlyIncomeSummary(bills, rooms, year, building);
            var bs := YearBills(bills, rooms, year, building);
            var ms := RowMonths(s.rows);
            (forall i, j :: 0 <= i < j < |ms| ==> ms[i] < ms[j]) &&
            (forall m :: m in ms <==> exists b :: b in bs && b.billingMonth == m) &&
            (forall i :: 0 <= i < |s.rows| ==> s.rows[i] == Row(bs, s.rows[i].month))
  {
    var bs := YearBills(bills, rooms, year, building);
    var s := MonthlyIncomeSummary(bills, rooms, year, building);
    assert RowMonths(s.rows) == Months(bs);
  }

  /** Each row's billed amount splits into collected, outstanding and written
      off, and cancelled bills are counted as outstanding. */
  lemma RowBalances(bs: seq<Bill>, month: int)
    ensures var row := Row(bs, month);
            row.billed == row.collected + row.outstanding + row.writtenOff &&
            row.outstanding == MonthSum(bs, month, {NotPaid, Pending, BillStatus.Overdue}) + MonthSum(bs, month, {Cancelled})
  {
    assert AllStatuses == {Paid} + OutstandingStatuses + {WrittenOff};
    MonthSumSplits(bs, month, {Paid}, OutstandingStatuses);
    MonthSumSplits(bs, month, {Paid} + OutstandingStatuses, {WrittenOff});
    assert OutstandingStatuses == {NotPaid, Pending, BillStatus.Overdue} + {Cancelled};
    MonthSumSplits(bs, month, {NotPaid, Pending, BillStatus.Overdue}, {Cancelled});
  }

  /** Row sums of balanced rows balance. */
  lemma {:induction false} SumsBalance(rows: seq<IncomeRow>)
    requires forall i :: 0 <= i < |rows| ==> rows[i].billed == rows[i].collected + rows[i].outstanding + rows[i].writtenOff
    ensures SumBilled(rows) == SumCollected(rows) + SumOutstanding(rows) + SumWrittenOff(rows)
    decreases |rows|
  {
    if |rows| > 0 {
      SumsBalance(rows[..|rows| - 1]);
    }
  }

  /** The summary's totals balance: everything billed is collected,
      outstanding or written off. */
  lemma SummaryBalances(bills: seq<Bill>, rooms: seq<Room>, year: int, building: Option<int>)
    ensures var s := MonthlyIncomeSummary(bills, rooms, year, building);
            s.totalBilled == s.totalCollected + s.totalOutstanding + s.totalWrittenOff
  {
    var s := MonthlyIncomeSummary(bills, rooms, year, building);
    var bs := YearBills(bills, rooms, year, building);
    forall i | 0 <= i < |s.rows|
      ensures s.rows[i].billed == s.rows[i].collected + s.rows[i].outstanding + s.rows[i].writtenOff
    {
      RowBalances(bs, Months(bs)[i]);
    }
    SumsBalance(s.rows);
  }
}
